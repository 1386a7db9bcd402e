/** How fast a plan empties: writes that meet no fault, round after round (internal/reconcile/apply.go). */
module Rounds {
  import opened Quotas
  import opened Model
  import opened Plans
  import opened Applying
  import opened Guardrails
  import opened Planning
  import opened Converging
  import opened Sums

  function IsFor(p: int, written: set<Key>): Change -> bool {
    (change: Change) => change.providerID == p && change.Account() !in written
  }

  /** How many changes for provider p are about accounts outside a set. */
  function Count(changes: seq<Change>, p: int, written: set<Key>): nat {
    HowMany(IsFor(p, written), changes)
  }

  lemma CountAppend(a: seq<Change>, b: seq<Change>, p: int, written: set<Key>)
    ensures Count(a + b, p, written) == Count(a, p, written) + Count(b, p, written)
  {
    HowManyAppend(IsFor(p, written), a, b);
  }

  lemma CountPermutation(a: seq<Change>, b: seq<Change>, p: int, written: set<Key>)
    requires multiset(a) == multiset(b)
    ensures Count(a, p, written) == Count(b, p, written)
  {
    HowManyPermuted(IsFor(p, written), a, b);
  }

  lemma {:induction false} CountRemaining(changes: seq<Change>, p: int, written: set<Key>)
    ensures Count(Remaining(changes, written), p, {}) == Count(changes, p, written)
  {
    if changes != [] {
      var n := |changes| - 1;
      CountRemaining(changes[..n], p, written);
      CountAppend(Remaining(changes[..n], written), [changes[n]], p, {});
      assert Remaining(changes[..n], written) + [] == Remaining(changes[..n], written);
      assert [changes[n]][..0] == [];
    }
  }

  lemma {:induction false} CountApplicable(changes: seq<Change>, consent: bool, p: int, written: set<Key>)
    requires forall i | 0 <= i < |changes| && changes[i].providerID == p :: Allowed(changes[i], consent)
    ensures Count(ApplicableTo(changes, consent), p, written) == Count(changes, p, written)
  {
    if changes != [] {
      var n := |changes| - 1;
      var front, x := ApplicableTo(changes[..n], consent), changes[n];
      CountApplicable(changes[..n], consent, p, written);
      if Allowed(x, consent) {
        assert (front + [x])[..|front|] == front;
      } else {
        assert front + [] == front;
      }
    }
  }

  /** Writing to an account none of the changes is about does not change the count. */
  lemma {:induction false} CountElsewhere(changes: seq<Change>, p: int, written: set<Key>, key: Key)
    requires key !in AccountsOf(changes)
    ensures Count(changes, p, written + {key}) == Count(changes, p, written)
  {
    if changes != [] {
      var n := |changes| - 1;
      assert changes[n].Account() in AccountsOf(changes);
      assert changes[..n] <= changes && AccountsOf(changes[..n]) <= AccountsOf(changes);
      CountElsewhere(changes[..n], p, written, key);
    }
  }

  // ----- a run without faults

  /** What the service holds still classifies the change as planned, and it can be written. */
  predicate Calm(server: Server, x: Change) {
    var key := x.Account();
    && key in server && server[key].Writable()
    && server[key].quota != x.to
    && Classify(SeenNow(x, server[key])) == x.class_
  }

  /** No re-read and no write that is made for provider p fails or is throttled. */
  predicate Faultless(calls: seq<Call>, p: int) {
    forall i | 0 <= i < |calls| && calls[i].account.providerID == p ::
      (calls[i].Reread? ==> calls[i].answer.ReadOk?) && (calls[i].Write? ==> calls[i].result.WriteDone?)
  }

  /** Where a faultless run leaves provider p after n changes for it: what is left undone, and whether
      the limit was tripped. */
  predicate Progressed(c: Context, s: RunState, p: int, n: nat, undone: nat)
    requires p in c.instances
  {
    match NewPacer(c.instances[p])
    case Endless => p !in s.stopped && PacerOf(c, s, p) == Endless && undone == 0
    case Left(most) =>
      if n <= most then p !in s.stopped && PacerOf(c, s, p) == Left(most - n) && undone == 0
      else p in s.stopped && undone == n - most
  }

  /** Which answers a step asks for: a re-read unless the provider is passed over, and a write once the
      re-check agrees and the pacer allows. */
  lemma StepAsks(c: Context, s: RunState, x: Change, turn: Turn)
    requires Asked(c, s, x)
    ensures var calls, n := Step(c, s, x, turn).calls, |s.calls|;
            && n < |calls| && calls[n] == Reread(x.Account(), turn.reread)
            && (var now := Recheck(x, turn.reread);
                now.Now? && now.class_ == x.class_ && now.account.quota != x.to && !c.opts.dryRun &&
                PacerOf(c, s, x.providerID).Allows() ==>
                  n + 1 < |calls| && calls[n + 1] == Write(x.Account(), x.to, turn.write))
  {
  }

  /** With no fault in the way, a change for a provider that has not stopped is written, or trips the
      limit. */
  lemma FaultlessStep(c: Context, s: RunState, server: Server, now: Server, x: Change, turn: Turn)
    requires x.providerID in c.instances && !c.instances[x.providerID].degraded && !c.opts.dryRun
    requires Calm(server, x) && x.Account() in now && now[x.Account()] == server[x.Account()]
    requires Honest(c, s, now, x, turn) && Faultless(Step(c, s, x, turn).calls, x.providerID)
    ensures var p := x.providerID;
            var t := Step(c, s, x, turn);
            if p in s.stopped then !Landed(c, s, x, turn) && t == Skip(s, x)
            else if PacerOf(c, s, p).Allows() then
              Landed(c, s, x, turn) && t.stopped == s.stopped && t.pacers == s.pacers[p := PacerOf(c, s, p).Spend()]
            else !Landed(c, s, x, turn) && p in t.stopped
  {
    if x.providerID !in s.stopped {
      StepAsks(c, s, x, turn);
      assert turn.reread == ReadOk(now[x.Account()]);
    }
  }

  /** Whatever happens to a change, the pacers and the stop of other providers stay. */
  lemma OtherProviders(c: Context, s: RunState, x: Change, turn: Turn, p: int)
    requires x.providerID != p
    ensures var t := Step(c, s, x, turn);
            (p in t.stopped <==> p in s.stopped) && (p in t.pacers <==> p in s.pacers) &&
            (p in s.pacers ==> t.pacers[p] == s.pacers[p])
  {
  }

  lemma WrittenStep(c: Context, s: RunState, x: Change, turn: Turn)
    ensures WrittenIn(Step(c, s, x, turn).calls) ==
            WrittenIn(s.calls) + if Landed(c, s, x, turn) then {x.Account()} else {}
  {
    StepEffect(c, s, x, turn);
    if Landed(c, s, x, turn) {
      LandedWrites(c, s, x, turn);
    }
  }

  lemma ProgressStep(c: Context, s: RunState, server: Server, now: Server, changes: seq<Change>, x: Change, turn: Turn, p: int)
    requires p in c.instances && !c.instances[p].degraded && !c.opts.dryRun
    requires x.Account() !in AccountsOf(changes) && WrittenIn(s.calls) <= AccountsOf(changes)
    requires Progressed(c, s, p, Count(changes, p, {}), Count(changes, p, WrittenIn(s.calls)))
    requires Honest(c, s, now, x, turn) && Faultless(Step(c, s, x, turn).calls, p)
    requires x.providerID == p ==> Calm(server, x) && x.Account() in now && now[x.Account()] == server[x.Account()]
    ensures var t := Step(c, s, x, turn);
            Progressed(c, t, p, Count(changes + [x], p, {}), Count(changes + [x], p, WrittenIn(t.calls)))
  {
    var t := Step(c, s, x, turn);
    var written := WrittenIn(s.calls);
    WrittenStep(c, s, x, turn);
    CountAppend(changes, [x], p, {});
    CountAppend(changes, [x], p, WrittenIn(t.calls));
    assert [x][..0] == [];
    assert Count(changes, p, WrittenIn(t.calls)) == Count(changes, p, written) by {
      CountElsewhere(changes, p, written, x.Account());
      assert written + {} == written;
    }
    if x.providerID == p {
      FaultlessStep(c, s, server, now, x, turn);
    } else {
      OtherProviders(c, s, x, turn, p);
    }
  }

  lemma FaultlessFront(early: seq<Call>, late: seq<Call>, p: int)
    requires early <= late && Faultless(late, p)
    ensures Faultless(early, p)
  {
    forall i | 0 <= i < |early| && early[i].account.providerID == p
      ensures (early[i].Reread? ==> early[i].answer.ReadOk?) && (early[i].Write? ==> early[i].result.WriteDone?)
    {
      assert late[i] == early[i];
    }
  }

  /** An account no change of the front is about is as it was. */
  lemma FrontUntouched(accounts: map<Key, Row>, server: Server, front: seq<Change>, r: RunState, now: Server, x: Change)
    requires Tracks(accounts, server, front, r, now) && x.Account() !in AccountsOf(front)
    ensures WrittenIn(r.calls) <= AccountsOf(front)
    ensures x.Account() in server ==> x.Account() in now && now[x.Account()] == server[x.Account()]
  {
  }

  lemma {:induction false} FaultlessRun(
    c: Context, s: RunState, server: Server, changes: seq<Change>, turns: seq<Turn>, p: int)
    requires |changes| == |turns| && s.calls == [] && s.stopped == {} && s.pacers == map[]
    requires Ready(c, s.accounts, server, changes) && Faithful(c, s, server, changes, turns)
    requires p in c.instances && !c.instances[p].degraded && !c.opts.dryRun
    requires Faultless(Run(c, s, changes, turns).calls, p)
    requires forall x | x in changes && x.providerID == p :: Calm(server, x)
    ensures var t := Run(c, s, changes, turns);
            Progressed(c, t, p, Count(changes, p, {}), Count(changes, p, WrittenIn(t.calls)))
  {
    if changes != [] {
      var n := |changes| - 1;
      var front, x, turn := changes[..n], changes[n], turns[n];
      var r, now := Run(c, s, front, turns[..n]), ServerAfter(c, s, server, front, turns[..n]);
      ReadyFront(c, s.accounts, server, changes);
      RunUnfolds(c, s, server, changes, turns);
      StepCalls(c, r, x, turn);
      FaultlessFront(r.calls, Run(c, s, changes, turns).calls, p);
      FaultlessRun(c, s, server, front, turns[..n], p);
      RunTracks(c, s, server, front, turns[..n]);
      FrontUntouched(s.accounts, server, front, r, now, x);
      ProgressStep(c, r, server, now, front, x, turn, p);
    }
  }

  // ----- one round

  /** What a provider leaves of n changes after one run. */
  function Undone(instance: Instance, n: nat): nat {
    match NewPacer(instance)
    case Endless => 0
    case Left(most) => if n <= most then 0 else n - most
  }

  /** Every change wanted for p may be written: its class is allowed and its account is writable. */
  ghost predicate Clear(w: World, accounts: map<Key, Row>, server: Server, opts: Options, p: int) {
    forall x | x in Wanted(w, accounts, w.links) && x.providerID == p ::
      Allowed(x, opts.consentShrink) && x.Account() in server && server[x.Account()].Writable()
  }

  lemma ClearIsCalm(w: World, accounts: map<Key, Row>, server: Server, plan: Plan, opts: Options, p: int, x: Change)
    requires Observed(w, accounts, server, plan) && Clear(w, accounts, server, opts, p)
    requires x in Wanted(w, accounts, w.links) && x.providerID == p
    ensures Calm(server, x)
  {
    var link := WantedFromLink(w, accounts, w.links, x);
    DifferenceMirrored(w, accounts, server, link, Context(IndexInstances(w.instances), opts), x);
  }

  /** The applicable changes for p are the wanted ones. */
  lemma ApplicableIsWanted(w: World, accounts: map<Key, Row>, server: Server, plan: Plan, opts: Options, p: int, written: set<Key>)
    requires Observed(w, accounts, server, plan) && Clear(w, accounts, server, opts, p)
    ensures Count(ApplicableTo(plan.changes, opts.consentShrink), p, written) == Count(Wanted(w, accounts, w.links), p, written)
  {
    forall i | 0 <= i < |plan.changes| && plan.changes[i].providerID == p
      ensures Allowed(plan.changes[i], opts.consentShrink)
    {
      assert plan.changes[i] in multiset(plan.changes);
    }
    CountPermutation(Wanted(w, accounts, w.links), plan.changes, p, written);
    CountApplicable(plan.changes, opts.consentShrink, p, written);
  }

  lemma ApplicableIsCalm(w: World, accounts: map<Key, Row>, server: Server, plan: Plan, opts: Options, p: int)
    requires Observed(w, accounts, server, plan) && Clear(w, accounts, server, opts, p)
    ensures forall x | x in ApplicableTo(plan.changes, opts.consentShrink) && x.providerID == p :: Calm(server, x)
  {
    ApplicableReady(w, accounts, server, plan, opts);
    forall x | x in ApplicableTo(plan.changes, opts.consentShrink) && x.providerID == p ensures Calm(server, x) {
      assert x in multiset(ApplicableTo(plan.changes, opts.consentShrink));
      ClearIsCalm(w, accounts, server, plan, opts, p, x);
    }
  }

  /** A run over an observed world, answered faithfully. */
  ghost predicate FaithfulRun(w: World, accounts: map<Key, Row>, server: Server, plan: Plan, opts: Options, turns: seq<Turn>) {
    && Observed(w, accounts, server, plan)
    && |turns| == |ApplicableTo(plan.changes, opts.consentShrink)|
    && Faithful(Context(IndexInstances(w.instances), opts), Begin(plan.changes, opts.consentShrink, accounts),
                server, ApplicableTo(plan.changes, opts.consentShrink), turns)
  }

  /** What a faultless run leaves undone for p, counted on the changes it was given. */
  lemma RunProgress(w: World, accounts: map<Key, Row>, server: Server, plan: Plan, opts: Options, turns: seq<Turn>, p: int)
    requires FaithfulRun(w, accounts, server, plan, opts, turns) && Clear(w, accounts, server, opts, p)
    requires Faultless(WholeRun(w.instances, plan, opts, accounts, turns).calls, p)
    requires Open(w, opts, p)
    ensures var changes := ApplicableTo(plan.changes, opts.consentShrink);
            Count(changes, p, WrittenIn(WholeRun(w.instances, plan, opts, accounts, turns).calls)) ==
            Undone(IndexInstances(w.instances)[p], Count(changes, p, {}))
  {
    BeginIsQuiet(plan.changes, opts.consentShrink, accounts);
    ApplicableReady(w, accounts, server, plan, opts);
    ApplicableIsCalm(w, accounts, server, plan, opts, p);
    FaultlessRun(Context(IndexInstances(w.instances), opts), Begin(plan.changes, opts.consentShrink, accounts), server,
                 ApplicableTo(plan.changes, opts.consentShrink), turns, p);
  }

  /** A provider that a run may write to. */
  predicate Open(w: World, opts: Options, p: int) {
    var byID := IndexInstances(w.instances);
    p in byID && !byID[p].degraded && !opts.dryRun
  }

  lemma CountRevision(x: Change, p: int, written: set<Key>, lost: set<Key>)
    requires lost <= written
    ensures Count(Revision(x, written, lost), p, lost) == if x.providerID == p && x.Account() !in written then 1 else 0
  {
    var piece := Revision(x, written, lost);
    if piece != [] {
      assert piece[..0] == [] && Count(piece[..0], p, lost) == 0;
    }
  }

  /** Changes in unknown state aside, a revised plan holds for p what was not written. */
  lemma {:induction false} CountRevised(changes: seq<Change>, p: int, written: set<Key>, lost: set<Key>)
    requires lost <= written
    ensures Count(Revised(changes, written, lost), p, lost) == Count(changes, p, written)
  {
    if changes != [] {
      var front, x := changes[..|changes| - 1], changes[|changes| - 1];
      CountRevised(front, p, written, lost);
      CountAppend(Revised(front, written, lost), Revision(x, written, lost), p, lost);
      CountRevision(x, p, written, lost);
    }
  }

  /** The accounts a faithful run could not read back are among those it wrote to. */
  lemma LostIsWritten(w: World, accounts: map<Key, Row>, server: Server, plan: Plan, opts: Options, turns: seq<Turn>)
    requires FaithfulRun(w, accounts, server, plan, opts, turns)
    ensures var s := WholeRun(w.instances, plan, opts, accounts, turns);
            LostIn(s.calls) <= WrittenIn(s.calls) <= AccountsOf(ApplicableTo(plan.changes, opts.consentShrink))
  {
    var c, begun := Context(IndexInstances(w.instances), opts), Begin(plan.changes, opts.consentShrink, accounts);
    BeginIsQuiet(plan.changes, opts.consentShrink, accounts);
    ApplicableReady(w, accounts, server, plan, opts);
    RunTracks(c, begun, server, ApplicableTo(plan.changes, opts.consentShrink), turns);
  }

  /** What any faithful run leaves for p, changes in unknown state aside: the wanted changes not written. */
  lemma LeftOver(w: World, accounts: map<Key, Row>, server: Server, plan: Plan, opts: Options, turns: seq<Turn>, p: int)
    requires FaithfulRun(w, accounts, server, plan, opts, turns)
    ensures var s := WholeRun(w.instances, plan, opts, accounts, turns);
            Count(Wanted(w, s.accounts, w.links), p, LostIn(s.calls)) == Count(Wanted(w, accounts, w.links), p, WrittenIn(s.calls))
  {
    var s := WholeRun(w.instances, plan, opts, accounts, turns);
    PlanApplyPlan(w, accounts, server, plan, opts, turns);
    LostIsWritten(w, accounts, server, plan, opts, turns);
    CountRevised(Wanted(w, accounts, w.links), p, WrittenIn(s.calls), LostIn(s.calls));
  }

  /** A provider whose reads and writes meet no fault is left with the changes beyond its allowance,
      apart from changes in unknown state for the accounts that could not be read back. */
  lemma OneRound(w: World, accounts: map<Key, Row>, server: Server, plan: Plan, opts: Options, turns: seq<Turn>, p: int)
    requires FaithfulRun(w, accounts, server, plan, opts, turns) && Clear(w, accounts, server, opts, p)
    requires Faultless(WholeRun(w.instances, plan, opts, accounts, turns).calls, p)
    requires Open(w, opts, p)
    ensures var s := WholeRun(w.instances, plan, opts, accounts, turns);
            && Count(Wanted(w, accounts, w.links), p, WrittenIn(s.calls)) ==
               Undone(IndexInstances(w.instances)[p], Count(Wanted(w, accounts, w.links), p, {}))
            && Count(Wanted(w, s.accounts, w.links), p, LostIn(s.calls)) ==
               Undone(IndexInstances(w.instances)[p], Count(Wanted(w, accounts, w.links), p, {}))
  {
    var written := WrittenIn(WholeRun(w.instances, plan, opts, accounts, turns).calls);
    LeftOver(w, accounts, server, plan, opts, turns, p);
    ApplicableIsWanted(w, accounts, server, plan, opts, p, written);
    ApplicableIsWanted(w, accounts, server, plan, opts, p, {});
    RunProgress(w, accounts, server, plan, opts, turns, p);
  }

  // ----- when the second plan is empty

  /** No re-read, write or read-back that is made for provider p fails. */
  predicate Seamless(calls: seq<Call>, p: int) {
    Faultless(calls, p) &&
    forall i | 0 <= i < |calls| && calls[i].account.providerID == p :: calls[i].ReadBack? ==> calls[i].answer.ReadOk?
  }

  lemma {:induction false} CountUnaffected(changes: seq<Change>, p: int, excluded: set<Key>)
    requires forall k | k in excluded :: k.providerID != p
    ensures Count(changes, p, excluded) == Count(changes, p, {})
  {
    if changes != [] {
      CountUnaffected(changes[..|changes| - 1], p, excluded);
    }
  }

  lemma {:induction false} CountedOrWritten(changes: seq<Change>, p: int, written: set<Key>, x: Change)
    requires Count(changes, p, written) == 0 && x in changes && x.providerID == p
    ensures x.Account() in written
  {
    var n := |changes| - 1;
    if x != changes[n] {
      assert changes == changes[..n] + [changes[n]];
      CountedOrWritten(changes[..n], p, written, x);
    }
  }

  lemma {:induction false} SomeCounted(changes: seq<Change>, p: int) returns (x: Change)
    requires Count(changes, p, {}) > 0
    ensures x in changes && x.providerID == p
  {
    var n := |changes| - 1;
    x := changes[n];
    if x.providerID != p {
      x := SomeCounted(changes[..n], p);
    }
  }

  /** A truthful re-read says about an account whether the service held it as writable from the start. */
  predicate ReadsWritable(call: Call, server: Server) {
    call.Reread? && call.answer.ReadOk? ==>
      call.account in server && server[call.account].Writable() == call.answer.account.Writable()
  }

  /** The services never change what makes an account writable. */
  predicate SameWritable(server: Server, now: Server) {
    server.Keys == now.Keys && forall k | k in server :: server[k].Writable() == now[k].Writable()
  }

  lemma StepReads(c: Context, s: RunState, server: Server, now: Server, x: Change, turn: Turn)
    requires SameWritable(server, now) && Honest(c, s, now, x, turn)
    requires forall i | 0 <= i < |s.calls| :: ReadsWritable(s.calls[i], server)
    ensures SameWritable(server, Kept(c, s, now, x, turn))
    ensures var t := Step(c, s, x, turn); forall i | 0 <= i < |t.calls| :: ReadsWritable(t.calls[i], server)
  {
  }

  lemma {:induction false} RunReads(c: Context, s: RunState, server: Server, changes: seq<Change>, turns: seq<Turn>)
    requires |changes| == |turns| && s.calls == [] && Faithful(c, s, server, changes, turns)
    ensures SameWritable(server, ServerAfter(c, s, server, changes, turns))
    ensures var t := Run(c, s, changes, turns); forall i | 0 <= i < |t.calls| :: ReadsWritable(t.calls[i], server)
  {
    if changes != [] {
      var n := |changes| - 1;
      RunUnfolds(c, s, server, changes, turns);
      RunReads(c, s, server, changes[..n], turns[..n]);
      StepReads(c, Run(c, s, changes[..n], turns[..n]), server, ServerAfter(c, s, server, changes[..n], turns[..n]),
                changes[n], turns[n]);
    }
  }

  /** An account that was written is on a provider a run may write to, and was writable. */
  lemma WrittenMeans(w: World, accounts: map<Key, Row>, server: Server, plan: Plan, opts: Options, turns: seq<Turn>, k: Key)
    requires FaithfulRun(w, accounts, server, plan, opts, turns)
    requires k in WrittenIn(WholeRun(w.instances, plan, opts, accounts, turns).calls)
    ensures Open(w, opts, k.providerID) && k in server && server[k].Writable()
  {
    var c, begun := Context(IndexInstances(w.instances), opts), Begin(plan.changes, opts.consentShrink, accounts);
    var calls := WholeRun(w.instances, plan, opts, accounts, turns).calls;
    BeginIsQuiet(plan.changes, opts.consentShrink, accounts);
    WritesAreGuarded(w.instances, plan, opts, accounts, turns);
    RunReads(c, begun, server, ApplicableTo(plan.changes, opts.consentShrink), turns);
    var i :| 0 <= i < |calls| && calls[i].Write? && calls[i].result.WriteDone? && calls[i].account == k;
    assert GuardedAt(c, calls, i);
    var j := i - 1;
    assert calls == Run(c, begun, ApplicableTo(plan.changes, opts.consentShrink), turns).calls;
    assert ReadsWritable(calls[j], server);
  }

  lemma OneOfAccount(changes: seq<Change>, x: Change, y: Change)
    requires DistinctAccounts(changes) && x in changes && y in changes && x.Account() == y.Account()
    ensures x == y
  {
  }

  /** Where every wanted change of p was written, every one of them was allowed and could be. */
  lemma WrittenIsClear(w: World, accounts: map<Key, Row>, server: Server, plan: Plan, opts: Options, turns: seq<Turn>, p: int)
    requires FaithfulRun(w, accounts, server, plan, opts, turns)
    requires Count(Wanted(w, accounts, w.links), p, WrittenIn(WholeRun(w.instances, plan, opts, accounts, turns).calls)) == 0
    ensures Clear(w, accounts, server, opts, p)
  {
    var wanted, changes := Wanted(w, accounts, w.links), ApplicableTo(plan.changes, opts.consentShrink);
    var written := WrittenIn(WholeRun(w.instances, plan, opts, accounts, turns).calls);
    LostIsWritten(w, accounts, server, plan, opts, turns);
    ApplicableReady(w, accounts, server, plan, opts);
    WantedDistinct(w, accounts, w.links);
    forall x | x in wanted && x.providerID == p
      ensures Allowed(x, opts.consentShrink) && x.Account() in server && server[x.Account()].Writable()
    {
      CountedOrWritten(wanted, p, written, x);
      WrittenMeans(w, accounts, server, plan, opts, turns, x.Account());
      var y :| y in changes && y.Account() == x.Account();
      assert y in multiset(changes);
      OneOfAccount(wanted, x, y);
    }
  }

  /** What lets a provider's part of the plan empty in one run: nothing is wanted there; or the provider may
      be written to, every change wanted there is allowed and its account writable, and they are within
      the allowance. */
  ghost predicate Emptiable(w: World, accounts: map<Key, Row>, server: Server, opts: Options, p: int)
    requires p in IndexInstances(w.instances)
  {
    var wanted := Count(Wanted(w, accounts, w.links), p, {});
    wanted == 0 ||
    (Open(w, opts, p) && Clear(w, accounts, server, opts, p) && Undone(IndexInstances(w.instances)[p], wanted) == 0)
  }

  lemma {:induction false} CountShrinks(changes: seq<Change>, p: int, written: set<Key>)
    ensures Count(changes, p, written) <= Count(changes, p, {})
  {
    if changes != [] {
      CountShrinks(changes[..|changes| - 1], p, written);
    }
  }

  /** Exactly when a seamless run leaves nothing to do on a provider. */
  lemma EmptiesExactly(w: World, accounts: map<Key, Row>, server: Server, plan: Plan, opts: Options, turns: seq<Turn>, p: int)
    requires FaithfulRun(w, accounts, server, plan, opts, turns) && p in IndexInstances(w.instances)
    requires Seamless(WholeRun(w.instances, plan, opts, accounts, turns).calls, p)
    ensures Count(Wanted(w, WholeRun(w.instances, plan, opts, accounts, turns).accounts, w.links), p, {}) == 0 <==>
            Emptiable(w, accounts, server, opts, p)
  {
    var wanted, s := Wanted(w, accounts, w.links), WholeRun(w.instances, plan, opts, accounts, turns);
    assert forall k | k in LostIn(s.calls) :: k.providerID != p;
    CountUnaffected(Wanted(w, s.accounts, w.links), p, LostIn(s.calls));
    LeftOver(w, accounts, server, plan, opts, turns, p);
    CountShrinks(wanted, p, WrittenIn(s.calls));
    if Count(wanted, p, {}) > 0 {
      if Count(wanted, p, WrittenIn(s.calls)) == 0 {
        WrittenIsClear(w, accounts, server, plan, opts, turns, p);
        var x := SomeCounted(wanted, p);
        CountedOrWritten(wanted, p, WrittenIn(s.calls), x);
        WrittenMeans(w, accounts, server, plan, opts, turns, x.Account());
      }
      if Open(w, opts, p) && Clear(w, accounts, server, opts, p) {
        OneRound(w, accounts, server, plan, opts, turns, p);
      }
    }
  }

  lemma WantedIsConfigured(w: World, accounts: map<Key, Row>, x: Change)
    requires x in Wanted(w, accounts, w.links)
    ensures x.providerID in IndexInstances(w.instances)
  {
    var link := WantedFromLink(w, accounts, w.links, x);
  }

  lemma LastIsCounted(changes: seq<Change>)
    requires changes != []
    ensures Count(changes, changes[|changes| - 1].providerID, {}) > 0
  {
  }

  /** After a run that meets no fault the second plan is empty exactly when every provider's part can be
      emptied: the provider may be written to, each change wanted there is allowed (with consent, where it
      shrinks below usage, and never in unknown state), its account is writable, and the write limit is
      not in reach; or nothing is wanted there. */
  lemma SecondPlanIsEmpty(w: World, accounts: map<Key, Row>, server: Server, plan: Plan, opts: Options, turns: seq<Turn>)
    requires FaithfulRun(w, accounts, server, plan, opts, turns)
    requires forall p | p in IndexInstances(w.instances) :: Seamless(WholeRun(w.instances, plan, opts, accounts, turns).calls, p)
    ensures Wanted(w, WholeRun(w.instances, plan, opts, accounts, turns).accounts, w.links) == [] <==>
            forall p | p in IndexInstances(w.instances) :: Emptiable(w, accounts, server, opts, p)
  {
    var after := Wanted(w, WholeRun(w.instances, plan, opts, accounts, turns).accounts, w.links);
    forall p | p in IndexInstances(w.instances) ensures Count(after, p, {}) == 0 <==> Emptiable(w, accounts, server, opts, p) {
      EmptiesExactly(w, accounts, server, plan, opts, turns, p);
    }
    if after != [] {
      var x := after[|after| - 1];
      WantedIsConfigured(w, WholeRun(w.instances, plan, opts, accounts, turns).accounts, x);
      LastIsCounted(after);
    }
  }

  // ----- faithful answers exist

  function TruthfulTurn(c: Context, s: RunState, now: Server, x: Change): Turn {
    var key := x.Account();
    var asked := Turn(if key in now then ReadOk(now[key]) else ReadFailed, WriteDone, ReadFailed, 0);
    var later := Kept(c, s, now, x, asked);
    asked.(readBack := if key in later then ReadOk(later[key]) else ReadFailed)
  }

  /** What a service answers that always tells the truth and refuses nothing. */
  function TruthfulTurns(c: Context, s: RunState, server: Server, changes: seq<Change>): (turns: seq<Turn>)
    ensures |turns| == |changes|
  {
    if changes == [] then []
    else
      var front := changes[..|changes| - 1];
      var turns := TruthfulTurns(c, s, server, front);
      turns + [TruthfulTurn(c, Run(c, s, front, turns), ServerAfter(c, s, server, front, turns), changes[|changes| - 1])]
  }

  lemma TruthfulIsHonest(c: Context, s: RunState, now: Server, x: Change)
    ensures Honest(c, s, now, x, TruthfulTurn(c, s, now, x))
    ensures Kept(c, s, now, x, TruthfulTurn(c, s, now, x)).Keys == now.Keys
    ensures var turn := TruthfulTurn(c, s, now, x);
            x.Account() in now ==> turn.reread.ReadOk? && turn.write.WriteDone? && turn.readBack.ReadOk?
  {
  }

  lemma GoodAnswersAreSeamless(c: Context, s: RunState, x: Change, turn: Turn, p: int)
    requires Seamless(s.calls, p) && turn.reread.ReadOk? && turn.write.WriteDone? && turn.readBack.ReadOk?
    ensures Seamless(Step(c, s, x, turn).calls, p)
  {
  }

  lemma TruthfulUnfolds(c: Context, s: RunState, server: Server, changes: seq<Change>)
    requires changes != []
    ensures var n := |changes| - 1;
            var before, turns := TruthfulTurns(c, s, server, changes[..n]), TruthfulTurns(c, s, server, changes);
            turns[..n] == before &&
            turns[n] == TruthfulTurn(c, Run(c, s, changes[..n], before), ServerAfter(c, s, server, changes[..n], before), changes[n])
  {
  }

  lemma {:induction false} TruthfulIsFaithful(c: Context, s: RunState, server: Server, changes: seq<Change>, p: int)
    requires s.calls == [] && forall x | x in changes :: x.Account() in server
    ensures var turns := TruthfulTurns(c, s, server, changes);
            && Faithful(c, s, server, changes, turns) && Seamless(Run(c, s, changes, turns).calls, p)
            && ServerAfter(c, s, server, changes, turns).Keys == server.Keys
  {
    if changes != [] {
      var front, x := changes[..|changes| - 1], changes[|changes| - 1];
      assert x in changes && forall y | y in front :: y in changes;
      TruthfulIsFaithful(c, s, server, front, p);
      var before, turns := TruthfulTurns(c, s, server, front), TruthfulTurns(c, s, server, changes);
      var r, now := Run(c, s, front, before), ServerAfter(c, s, server, front, before);
      TruthfulUnfolds(c, s, server, changes);
      TruthfulIsHonest(c, r, now, x);
      GoodAnswersAreSeamless(c, r, x, TruthfulTurn(c, r, now, x), p);
    }
  }

  /** Every observed world has a faithful run that meets no fault. */
  lemma FaithfulRunExists(w: World, accounts: map<Key, Row>, server: Server, plan: Plan, opts: Options) returns (turns: seq<Turn>)
    requires Observed(w, accounts, server, plan)
    ensures FaithfulRun(w, accounts, server, plan, opts, turns)
    ensures forall p :: Seamless(WholeRun(w.instances, plan, opts, accounts, turns).calls, p)
  {
    var c, begun := Context(IndexInstances(w.instances), opts), Begin(plan.changes, opts.consentShrink, accounts);
    var changes := ApplicableTo(plan.changes, opts.consentShrink);
    turns := TruthfulTurns(c, begun, server, changes);
    BeginIsQuiet(plan.changes, opts.consentShrink, accounts);
    ApplicableReady(w, accounts, server, plan, opts);
    forall p ensures Seamless(WholeRun(w.instances, plan, opts, accounts, turns).calls, p) {
      TruthfulIsFaithful(c, begun, server, changes, p);
    }
    TruthfulIsFaithful(c, begun, server, changes, 0);
  }

  // ----- many rounds

  /** The stored accounts right after every account was read successfully. */
  function Seen(server: Server): map<Key, Row> {
    map k | k in server :: Row(server[k], None, 0, true)
  }

  /** Stored accounts that show what the services hold, whoever owns them and whenever they were read. */
  predicate Fresh(accounts: map<Key, Row>, server: Server) {
    accounts.Keys == server.Keys && forall k | k in accounts :: accounts[k].account == server[k] && accounts[k].observeOK
  }

  lemma {:induction false} WantedOfFresh(w: World, accounts: map<Key, Row>, server: Server, links: seq<Link>)
    requires Fresh(accounts, server)
    ensures Wanted(w, accounts, links) == Wanted(w, Seen(server), links)
  {
    if links != [] {
      WantedOfFresh(w, accounts, server, links[..|links| - 1]);
    }
  }

  /** How many changes for p a plan would hold now. */
  function Pending(w: World, server: Server, p: int): nat {
    Count(Wanted(w, Seen(server), w.links), p, {})
  }

  /** Observe, plan, apply, with these answers. */
  ghost predicate RoundBy(w: World, opts: Options, p: int, server: Server, later: Server,
                          accounts: map<Key, Row>, plan: Plan, turns: seq<Turn>)
  {
    && Fresh(accounts, server)
    && FaithfulRun(w, accounts, server, plan, opts, turns)
    && Faultless(WholeRun(w.instances, plan, opts, accounts, turns).calls, p)
    && later == ServerAfter(Context(IndexInstances(w.instances), opts), Begin(plan.changes, opts.consentShrink, accounts),
                            server, ApplicableTo(plan.changes, opts.consentShrink), turns)
  }

  ghost predicate Round(w: World, opts: Options, p: int, server: Server, later: Server) {
    exists accounts, plan, turns :: RoundBy(w, opts, p, server, later, accounts, plan, turns)
  }

  /** What a sequence of rounds needs of the services, besides a sound policy and links: they hold accounts
      the store accepts. */
  ghost predicate Observable(w: World, server: Server) {
    SoundPolicy(w) && DistinctLinks(w.links) && WellStored(Seen(server))
  }

  function PlanOf(w: World, server: Server): Plan {
    Plan(Wanted(w, Seen(server), w.links), 0)
  }

  lemma ObservableIsObserved(w: World, server: Server)
    requires Observable(w, server)
    ensures Observed(w, Seen(server), server, PlanOf(w, server))
  {
  }

  lemma TracksStorable(accounts: map<Key, Row>, server: Server, changes: seq<Change>, s: RunState, later: Server)
    requires Tracks(accounts, server, changes, s, later) && WellStored(Seen(server))
    requires forall x | x in changes :: x.to.Valid()
    ensures WellStored(Seen(later))
  {
    forall k | k in Seen(later) ensures Seen(later)[k].account.Storable() && Seen(later)[k].account.externalID == k.externalID {
      assert k in Seen(server);
      if k in WrittenIn(s.calls) {
        var x :| x in changes && x.Account() == k;
        assert HoldsTarget(server, x, later);
      }
    }
  }

  lemma StoredAsSeen(accounts: map<Key, Row>, server: Server)
    requires Fresh(accounts, server) && WellStored(accounts)
    ensures WellStored(Seen(server))
  {
  }

  /** A round leaves services that can be observed and planned for again. */
  lemma RoundKeepsObservable(w: World, opts: Options, p: int, server: Server, later: Server)
    requires Round(w, opts, p, server, later)
    ensures Observable(w, later)
  {
    var accounts, plan, turns :| RoundBy(w, opts, p, server, later, accounts, plan, turns);
    var c, begun := Context(IndexInstances(w.instances), opts), Begin(plan.changes, opts.consentShrink, accounts);
    var changes := ApplicableTo(plan.changes, opts.consentShrink);
    BeginIsQuiet(plan.changes, opts.consentShrink, accounts);
    ApplicableReady(w, accounts, server, plan, opts);
    RunTracks(c, begun, server, changes, turns);
    assert WellStored(Seen(server)) by {
      StoredAsSeen(accounts, server);
    }
    TracksStorable(accounts, server, changes, Run(c, begun, changes, turns), later);
  }

  /** From services that can be observed there is a round to others that can. */
  lemma RoundExists(w: World, opts: Options, p: int, server: Server) returns (later: Server)
    requires Observable(w, server)
    ensures Round(w, opts, p, server, later) && Observable(w, later)
  {
    var accounts, plan := Seen(server), PlanOf(w, server);
    ObservableIsObserved(w, server);
    var turns := FaithfulRunExists(w, accounts, server, plan, opts);
    later := ServerAfter(Context(IndexInstances(w.instances), opts), Begin(plan.changes, opts.consentShrink, accounts),
                         server, ApplicableTo(plan.changes, opts.consentShrink), turns);
    assert Seamless(WholeRun(w.instances, plan, opts, accounts, turns).calls, p);
    assert RoundBy(w, opts, p, server, later, accounts, plan, turns);
    RoundKeepsObservable(w, opts, p, server, later);
  }

  /** What is wanted from services that a run has left, once every account has been read again. */
  lemma SeenAfter(w: World, server: Server, later: Server, changes: seq<Change>, accounts: map<Key, Row>, s: RunState)
    requires Tracks(accounts, server, changes, s, later) && DistinctLinks(w.links)
    requires multiset(changes) <= multiset(Wanted(w, Seen(server), w.links))
    ensures Wanted(w, Seen(later), w.links) == Remaining(Wanted(w, Seen(server), w.links), WrittenIn(s.calls))
  {
    var written := WrittenIn(s.calls);
    forall i | 0 <= i < |w.links|
      ensures DifferenceFor(w, Seen(later), w.links[i]) == Revised(DifferenceFor(w, Seen(server), w.links[i]), written, {})
    {
      var link, x: Change := w.links[i], *;
      if link.Account() in written {
        x := WrittenIsWanted(w, Seen(server), changes, link);
        assert HoldsTarget(server, x, later);
        assert Shown(Seen(server), x, Seen(later), later, false);
      }
      DifferenceAfter(w, Seen(server), Seen(later), server, later, link, written, {}, x);
    }
    WantedAfter(w, Seen(server), Seen(later), w.links, written, {});
    RevisedWithoutLoss(Wanted(w, Seen(server), w.links), written);
  }

  /** The services after a round: what is wanted of them is what was not written, and accounts that were
      not written are as they were. */
  lemma RoundLeaves(w: World, opts: Options, server: Server, later: Server,
                    accounts: map<Key, Row>, plan: Plan, turns: seq<Turn>, p: int)
    requires RoundBy(w, opts, p, server, later, accounts, plan, turns)
    ensures var s := WholeRun(w.instances, plan, opts, accounts, turns);
            && Wanted(w, Seen(later), w.links) == Remaining(Wanted(w, Seen(server), w.links), WrittenIn(s.calls))
            && (forall k | k in server && k !in WrittenIn(s.calls) :: k in later && later[k] == server[k])
  {
    var changes := ApplicableTo(plan.changes, opts.consentShrink);
    var s := WholeRun(w.instances, plan, opts, accounts, turns);
    BeginIsQuiet(plan.changes, opts.consentShrink, accounts);
    ApplicableReady(w, accounts, server, plan, opts);
    RunTracks(Context(IndexInstances(w.instances), opts), Begin(plan.changes, opts.consentShrink, accounts), server, changes, turns);
    WantedOfFresh(w, accounts, server, w.links);
    SeenAfter(w, server, later, changes, accounts, s);
  }

  lemma RoundProgress(w: World, opts: Options, p: int, server: Server, later: Server)
    requires Open(w, opts, p) && Clear(w, Seen(server), server, opts, p)
    requires Round(w, opts, p, server, later)
    ensures Pending(w, later, p) == Undone(IndexInstances(w.instances)[p], Pending(w, server, p))
    ensures Clear(w, Seen(later), later, opts, p)
  {
    var accounts, plan, turns :| RoundBy(w, opts, p, server, later, accounts, plan, turns);
    var s := WholeRun(w.instances, plan, opts, accounts, turns);
    RoundLeaves(w, opts, server, later, accounts, plan, turns, p);
    WantedOfFresh(w, accounts, server, w.links);
    OneRound(w, accounts, server, plan, opts, turns, p);
    CountRemaining(Wanted(w, Seen(server), w.links), p, WrittenIn(s.calls));
    forall x | x in Wanted(w, Seen(later), w.links) && x.providerID == p
      ensures Allowed(x, opts.consentShrink) && x.Account() in later && later[x.Account()].Writable()
    {
      RemainingExactly(Wanted(w, Seen(server), w.links), WrittenIn(s.calls), x);
    }
  }

  lemma {:induction false} RemainingExactly(changes: seq<Change>, written: set<Key>, x: Change)
    ensures x in Remaining(changes, written) <==> x in changes && x.Account() !in written
  {
    if changes != [] {
      var n := |changes| - 1;
      RemainingExactly(changes[..n], written, x);
      assert changes == changes[..n] + [changes[n]];
    }
  }

  /** b can follow a after k steps. */
  ghost predicate After<S(!new)>(step: (S, S) -> bool, k: nat, a: S, b: S) {
    if k == 0 then b == a else exists mid :: After(step, k - 1, a, mid) && step(mid, b)
  }

  function Iterate(next: nat -> nat, k: nat, n: nat): nat {
    if k == 0 then n else next(Iterate(next, k - 1, n))
  }

  lemma {:induction false} IteratedSteps<S(!new)>(
    step: (S, S) -> bool, holds: (S, nat) -> bool, next: nat -> nat, k: nat, a: S, b: S, n: nat)
    requires forall s, t, i | holds(s, i) && step(s, t) :: holds(t, next(i))
    requires holds(a, n) && After(step, k, a, b)
    ensures holds(b, Iterate(next, k, n))
  {
    if k > 0 {
      var mid :| After(step, k - 1, a, mid) && step(mid, b);
      IteratedSteps(step, holds, next, k - 1, a, mid, n);
    }
  }

  /** What k rounds of at most `each` writes leave of m changes. */
  function LeftAfter(m: nat, k: nat, each: nat): nat {
    if m <= k * each then 0 else m - k * each
  }

  lemma {:induction false} UndoneRepeatedly(m: nat, k: nat, instance: Instance, limit: int)
    requires instance.writeLimit == Some(limit) && limit > 0
    ensures Allowance(limit) > 0
    ensures Iterate(n => Undone(instance, n), k, m) == LeftAfter(m, k, Allowance(limit))
  {
    if k > 0 {
      UndoneRepeatedly(m, k - 1, instance, limit);
      assert k * Allowance(limit) == (k - 1) * Allowance(limit) + Allowance(limit);
    }
  }

  /** n changes are pending for p, and all of them may be written. */
  ghost predicate Waiting(w: World, opts: Options, p: int, server: Server, n: nat) {
    Pending(w, server, p) == n && Clear(w, Seen(server), server, opts, p)
  }

  ghost function Rounder(w: World, opts: Options, p: int): (Server, Server) -> bool {
    (s, t) => Round(w, opts, p, s, t)
  }

  /** From services that can be observed there are chains of any number of rounds. */
  lemma {:induction false} RoundsExist(w: World, opts: Options, p: int, k: nat, server: Server) returns (later: Server)
    requires Observable(w, server)
    ensures After(Rounder(w, opts, p), k, server, later) && Observable(w, later)
  {
    later := server;
    if k > 0 {
      var mid := RoundsExist(w, opts, p, k - 1, server);
      later := RoundExists(w, opts, p, mid);
      assert Rounder(w, opts, p)(mid, later);
    }
  }

  /** From m allowed changes for a provider with limit L, k rounds of observe, plan and apply leave
      max(0, m - k(L - L/10)); so the plan for it is empty once k(L - L/10) reaches m. */
  lemma RoundsEmptyThePlan(w: World, opts: Options, p: int, k: nat, server: Server, later: Server, m: nat, limit: int)
    requires Open(w, opts, p) && IndexInstances(w.instances)[p].writeLimit == Some(limit) && limit > 0
    requires Waiting(w, opts, p, server, m)
    requires After(Rounder(w, opts, p), k, server, later)
    ensures Allowance(limit) > 0 && Waiting(w, opts, p, later, LeftAfter(m, k, Allowance(limit)))
  {
    var instance := IndexInstances(w.instances)[p];
    forall s, t, n: nat | Waiting(w, opts, p, s, n) && Round(w, opts, p, s, t)
      ensures Waiting(w, opts, p, t, Undone(instance, n))
    {
      RoundProgress(w, opts, p, s, t);
    }
    IteratedSteps(Rounder(w, opts, p), (s, n) => Waiting(w, opts, p, s, n), n => Undone(instance, n),
                  k, server, later, m);
    UndoneRepeatedly(m, k, instance, limit);
  }
}
