/** Desired against observed, classified (internal/core/plan.go). */
module Plans {
  import opened Quotas
  import opened Model
  import opened Sorting

  datatype ChangeClass = Safe | ShrinkBelowUsage | UnknownState

  datatype Change = Change(
    userID: int, uid: string, providerID: int, provider: string, externalID: string,
    from: Quota, to: Quota, class_: ChangeClass)
  {
    function Account(): Key {
      Key(providerID, externalID)
    }
  }

  /** What Classify and DifferenceOf look at: a person's target on an account, as the service would keep
      it, and the account's last reported state. */
  datatype PlanAccount = PlanAccount(
    userID: int, uid: string, providerID: int, provider: string, externalID: string,
    desired: Quota, present: bool, observed: Quota, used: Quota, neverUsed: bool, observeOK: bool)

  datatype Plan = Plan(changes: seq<Change>, unallocated: nat)

  function Classify(a: PlanAccount): ChangeClass {
    if !a.observeOK then UnknownState
    else if !a.observed.IsKnown() then UnknownState
    else if !a.used.IsKnown() then UnknownState
    else if !a.desired.IsKnown() then UnknownState
    else if a.desired.Bytes? && a.used.Bytes? && a.desired.n <= a.used.n then
      if a.neverUsed && a.desired.n > 0 then Safe else ShrinkBelowUsage
    else Safe
  }

  /** What Safe means, and when it does not mean that the target is above usage: only for an account
      called never used although its usage is not zero. */
  lemma SafeExactly(a: PlanAccount)
    requires a.used.ValidAsUsage()
    ensures Classify(a) == Safe <==>
            a.observeOK && a.observed.IsKnown() && a.used.Bytes? &&
            (a.desired.Unlimited? ||
             (a.desired.Bytes? && (a.desired.n > a.used.n || (a.neverUsed && a.desired.n > 0))))
    ensures (a.neverUsed ==> a.used == Bytes(0)) && Classify(a) == Safe ==>
              a.desired.Unlimited? || (a.desired.Bytes? && a.desired.n > a.used.n)
  {
  }

  /** At most one change per pair: none where nothing is allocated, and none where the state is
      trusted and already as desired. */
  function DifferenceOf(a: PlanAccount): seq<Change> {
    if !a.present || (Classify(a) != UnknownState && a.desired == a.observed) then []
    else [Change(a.userID, a.uid, a.providerID, a.provider, a.externalID, a.observed, a.desired, Classify(a))]
  }

  function Differences(accounts: seq<PlanAccount>): seq<Change> {
    if accounts == [] then []
    else Differences(accounts[..|accounts| - 1]) + DifferenceOf(accounts[|accounts| - 1])
  }

  function CountUnallocated(accounts: seq<PlanAccount>): nat {
    if accounts == [] then 0
    else CountUnallocated(accounts[..|accounts| - 1]) + if accounts[|accounts| - 1].present then 0 else 1
  }

  // ----- the order of a plan

  predicate ByUser(a: Change, b: Change) {
    if a.uid != b.uid then AtMost(a.uid, b.uid) else AtMost(a.provider, b.provider)
  }

  lemma ByUserPreorder()
    ensures TotalPreorder(ByUser)
  {
    forall x: Change, y: Change ensures ByUser(x, y) || ByUser(y, x) {
      AtMostTotal(x.uid, y.uid);
      AtMostTotal(x.provider, y.provider);
    }
    forall x: Change, y: Change, z: Change | ByUser(x, y) && ByUser(y, z) ensures ByUser(x, z) {
      AtMostTotal(x.uid, y.uid);
      if x.uid == y.uid == z.uid {
        AtMostTransitive(x.provider, y.provider, z.provider);
      } else {
        AtMostTotal(x.uid, y.uid);
        AtMostTotal(y.uid, z.uid);
        AtMostTransitive(x.uid, y.uid, z.uid);
      }
    }
  }

  /** Every difference exactly once, sorted by user and then by provider. */
  method BuildPlan(accounts: seq<PlanAccount>) returns (plan: Plan)
    ensures multiset(plan.changes) == multiset(Differences(accounts))
    ensures Sorted(ByUser, plan.changes)
    ensures plan.unallocated == CountUnallocated(accounts)
  {
    var changes, unallocated := [], 0;
    for i := 0 to |accounts|
      invariant changes == Differences(accounts[..i])
      invariant unallocated == CountUnallocated(accounts[..i])
    {
      assert accounts[..i + 1][..i] == accounts[..i];
      var a := accounts[i];
      if !a.present {
        unallocated := unallocated + 1;
        continue;
      }
      var class_ := Classify(a);
      if class_ != UnknownState && a.desired == a.observed {
        continue;
      }
      changes := changes +
        [Change(a.userID, a.uid, a.providerID, a.provider, a.externalID, a.observed, a.desired, class_)];
    }
    assert accounts[..|accounts|] == accounts;
    ByUserPreorder();
    changes := Sort(ByUser, changes);
    plan := Plan(changes, unallocated);
  }

  // ----- guardrails

  /** Which classes a run may attempt. */
  predicate Allowed(c: Change, consent: bool) {
    c.class_.Safe? || (c.class_.ShrinkBelowUsage? && consent)
  }

  function ApplicableTo(changes: seq<Change>, consent: bool): seq<Change> {
    if changes == [] then []
    else
      var c := changes[|changes| - 1];
      ApplicableTo(changes[..|changes| - 1], consent) + if Allowed(c, consent) then [c] else []
  }

  method Applicable(plan: Plan, consent: bool) returns (out: seq<Change>)
    ensures out == ApplicableTo(plan.changes, consent)
  {
    out := [];
    for i := 0 to |plan.changes|
      invariant out == ApplicableTo(plan.changes[..i], consent)
    {
      assert plan.changes[..i + 1][..i] == plan.changes[..i];
      var c := plan.changes[i];
      match c.class_ {
        case Safe => out := out + [c];
        case ShrinkBelowUsage =>
          if consent {
            out := out + [c];
          }
        case UnknownState =>
      }
    }
    assert plan.changes[..|plan.changes|] == plan.changes;
  }

  /** The applicable changes are the allowed ones, each as often as it is planned. */
  lemma {:induction false} ApplicableExactly(changes: seq<Change>, consent: bool, c: Change)
    ensures multiset(ApplicableTo(changes, consent))[c] == if Allowed(c, consent) then multiset(changes)[c] else 0
  {
    if changes != [] {
      var n := |changes| - 1;
      ApplicableExactly(changes[..n], consent, c);
      assert changes == changes[..n] + [changes[n]];
    }
  }
}
