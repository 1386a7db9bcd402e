/** A household on a Nextcloud, which takes 50 writes a window: with up to 45 safe changes one run does all
    of them, and from 46 on it leaves the rest. */
module LimitExample {
  import opened Quotas
  import opened Model
  import opened Adapters
  import opened Resolving
  import opened Plans
  import opened Applying
  import opened Planning
  import opened Converging
  import opened Rounds
  import Linking
  import LinkPass

  const OPTIONS := Options(true, false)

  const CLOUD := Instance(7, "cloud", false, Nextcloud, Some(50))

  /** A different name for every number. */
  function Name(i: nat): (s: string)
    ensures |s| == i + 1
  {
    seq(i + 1, _ => 'x')
  }

  function Person(i: nat): User {
    User(i, "", Name(i), "", true, [])
  }

  function Everything(): UserPolicy {
    UserPolicy(map[7 := Unlimited], None)
  }

  function Overrides(n: nat): (all: map<int, UserPolicy>)
    ensures forall i :: i in all <==> 0 <= i < n
    ensures forall i | i in all :: all[i] == Everything()
  {
    if n == 0 then map[] else Overrides(n - 1)[n - 1 := Everything()]
  }

  /** n people, each with an account and an override without limit. */
  function Household(n: nat): World {
    World(seq(n, i requires 0 <= i < n => Person(i)),
          seq(n, i requires 0 <= i < n => Link(i, 7, Name(i), Manual)),
          [CLOUD],
          Policy(map[], map[], None),
          Overrides(n),
          (user: string, provider: string) => true)
  }

  function Small(e: string): Account {
    Account(e, "", "", "", true, false, Bytes(5), Bytes(1), false)
  }

  function Service(n: nat): Server {
    map i | 0 <= i < n :: Key(7, Name(i)) := Small(Name(i))
  }

  function Raise(i: nat): Change {
    Change(i, Name(i), 7, "cloud", Name(i), Bytes(5), Unlimited, Safe)
  }

  lemma CloudIndexed(n: nat)
    ensures IndexInstances(Household(n).instances) == map[7 := CLOUD]
  {
    assert [CLOUD][..0] == [];
  }

  lemma PersonIndexed(n: nat, i: nat)
    requires i < n
    ensures i in IndexUsers(Household(n).users) && IndexUsers(Household(n).users)[i] == Person(i)
  {
    var users := Household(n).users;
    assert Linking.DistinctUsers(users);
    assert users[i] == Person(i);
    LinkPass.IndexUsersExactly(users, Person(i));
  }

  lemma AccountServed(n: nat, i: nat)
    requires i < n
    ensures Key(7, Name(i)) in Service(n) && Service(n)[Key(7, Name(i))] == Small(Name(i))
  {
  }

  lemma RaiseWanted(n: nat, i: nat)
    requires i < n
    ensures DifferenceFor(Household(n), Seen(Service(n)), Household(n).links[i]) == [Raise(i)]
  {
    CloudIndexed(n);
    PersonIndexed(n, i);
    AccountServed(n, i);
    var w, link := Household(n), Household(n).links[i];
    assert PolicyOf(w, i) == Everything();
    assert Resolved(Person(i), 7, w.policy, Everything()) == Resolution(true, Unlimited, ProviderOverride, 0, "");
  }

  function Raises(n: nat): seq<Change> {
    seq(n, i requires 0 <= i < n => Raise(i))
  }

  lemma {:induction false} FlatOfSingles(changes: seq<Change>, pieces: seq<seq<Change>>)
    requires |pieces| == |changes| && forall i | 0 <= i < |changes| :: pieces[i] == [changes[i]]
    ensures Flat(pieces) == changes
  {
    if changes != [] {
      var n := |changes| - 1;
      FlatOfSingles(changes[..n], pieces[..n]);
      assert changes == changes[..n] + [changes[n]];
    }
  }

  lemma AllWanted(n: nat)
    ensures Wanted(Household(n), Seen(Service(n)), Household(n).links) == Raises(n)
  {
    var w, accounts, links, changes := Household(n), Seen(Service(n)), Household(n).links, Raises(n);
    var pieces := seq(n, i requires 0 <= i < n => [Raise(i)]);
    forall i | 0 <= i < n ensures pieces[i] == DifferenceFor(w, accounts, links[i]) {
      RaiseWanted(n, i);
    }
    WantedIsFlat(w, accounts, links, pieces);
    FlatOfSingles(changes, pieces);
  }

  lemma {:induction false} RaisesCounted(n: nat)
    ensures Count(Raises(n), 7, {}) == n
  {
    if n > 0 {
      RaisesCounted(n - 1);
      assert Raises(n)[..n - 1] == Raises(n - 1);
    }
  }

  lemma HouseholdIsObservable(n: nat)
    ensures Observable(Household(n), Service(n))
  {
    var links := Household(n).links;
    forall i, j | 0 <= i < j < n ensures links[i].Account() != links[j].Account() {
      assert |Name(i)| != |Name(j)|;
    }
    assert Everything().overrides == map[7 := Unlimited];
  }

  lemma HouseholdIsClear(n: nat)
    ensures Clear(Household(n), Seen(Service(n)), Service(n), OPTIONS, 7)
  {
    AllWanted(n);
    forall x | x in Raises(n) ensures Allowed(x, true) && x.Account() in Service(n) && Service(n)[x.Account()].Writable() {
      var i :| 0 <= i < n && Raises(n)[i] == x;
      AccountServed(n, i);
    }
  }

  lemma EmptiableUpTo45(n: nat)
    ensures 7 in IndexInstances(Household(n).instances)
    ensures Emptiable(Household(n), Seen(Service(n)), Service(n), OPTIONS, 7) <==> n <= 45
  {
    CloudIndexed(n);
    AllWanted(n);
    RaisesCounted(n);
    HouseholdIsClear(n);
    assert NewPacer(CLOUD) == Left(45);
  }

  /** A run without faults over any observable services, and when it leaves something to do. */
  lemma LeavesUnlessEmptiable(w: World, server: Server, opts: Options) returns (turns: seq<Turn>)
    requires Observable(w, server)
    ensures FaithfulRun(w, Seen(server), server, PlanOf(w, server), opts, turns)
    ensures forall p :: Seamless(WholeRun(w.instances, PlanOf(w, server), opts, Seen(server), turns).calls, p)
    ensures Wanted(w, WholeRun(w.instances, PlanOf(w, server), opts, Seen(server), turns).accounts, w.links) == [] <==>
            forall p | p in IndexInstances(w.instances) :: Emptiable(w, Seen(server), server, opts, p)
  {
    ObservableIsObserved(w, server);
    turns := FaithfulRunExists(w, Seen(server), server, PlanOf(w, server), opts);
    SecondPlanIsEmpty(w, Seen(server), server, PlanOf(w, server), opts, turns);
  }

  lemma PlanIsSafe(n: nat)
    ensures forall x | x in PlanOf(Household(n), Service(n)).changes :: x.class_.Safe?
  {
    AllWanted(n);
  }

  lemma OnlyTheCloud(n: nat)
    ensures (forall p | p in IndexInstances(Household(n).instances) ::
               Emptiable(Household(n), Seen(Service(n)), Service(n), OPTIONS, p)) <==> n <= 45
  {
    CloudIndexed(n);
    EmptiableUpTo45(n);
  }

  /** Every change is safe, consent is given and nothing fails; and the second plan is empty exactly for a
      household of at most 45. */
  lemma LimitLeavesChanges(n: nat)
    returns (w: World, server: Server, plan: Plan, opts: Options, turns: seq<Turn>)
    ensures opts.consentShrink && !opts.dryRun && forall x | x in plan.changes :: x.class_.Safe?
    ensures FaithfulRun(w, Seen(server), server, plan, opts, turns)
    ensures forall p :: Seamless(WholeRun(w.instances, plan, opts, Seen(server), turns).calls, p)
    ensures Wanted(w, WholeRun(w.instances, plan, opts, Seen(server), turns).accounts, w.links) == [] <==> n <= 45
    ensures |w.links| == |w.users| == n && w.instances == [CLOUD]
  {
    HouseholdIsObservable(n);
    PlanIsSafe(n);
    OnlyTheCloud(n);
    w, server, opts := Household(n), Service(n), OPTIONS;
    plan := PlanOf(w, server);
    turns := LeavesUnlessEmptiable(w, server, opts);
  }
}
