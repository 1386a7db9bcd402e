/** What holds of every run, whatever the services answer (internal/reconcile/apply.go). */
module Guardrails {
  import opened Quotas
  import opened Model
  import opened Plans
  import opened Sums
  import opened Applying

  // ----- every write is guarded

  /** A call after which a run leaves that provider alone. */
  predicate Stops(call: Call) {
    match call
    case Reread(_, answer) => answer.ReadFailed? || !answer.account.Writable()
    case Write(_, _, result) => !result.WriteDone?
    case ReadBack(_, _) => false
  }

  /** What must be true of the account read just before a write of q. */
  predicate Guarded(a: Account, q: Quota, consent: bool) {
    && a.Writable()
    && a.quota.IsKnown() && a.used.IsKnown() && q.IsKnown()
    && (!consent ==> q.Unlimited? || !a.used.Bytes? || q.n > a.used.n || (a.neverUsed && q.n > 0))
  }

  /** The i-th call is not a write, or it is one that directly follows a read of the same account which
      permits it, on a configured provider that has no competing writer, in a run that may write. */
  predicate GuardedAt(c: Context, calls: seq<Call>, i: nat)
    requires i < |calls|
  {
    calls[i].Write? ==>
      && i > 0 && calls[i - 1].Reread?
      && calls[i - 1].account == calls[i].account
      && calls[i - 1].answer.ReadOk?
      && Guarded(calls[i - 1].answer.account, calls[i].quota, c.opts.consentShrink)
      && calls[i].account.providerID in c.instances
      && !c.instances[calls[i].account.providerID].degraded
      && !c.opts.dryRun
  }

  /** No call to a provider comes after the one that stopped it. */
  predicate StopsRespected(calls: seq<Call>) {
    forall i, j | 0 <= i < j < |calls| && Stops(calls[i]) :: calls[j].account.providerID != calls[i].account.providerID
  }

  predicate SafeCalls(c: Context, s: RunState) {
    && (forall i | 0 <= i < |s.calls| :: GuardedAt(c, s.calls, i))
    && StopsRespected(s.calls)
    && (forall i | 0 <= i < |s.calls| && Stops(s.calls[i]) :: s.calls[i].account.providerID in s.stopped)
  }

  /** A change that passes the re-check with its class unchanged may be written. */
  lemma RecheckGuards(change: Change, answer: ReadResult, consent: bool)
    requires Allowed(change, consent)
    ensures var now := Recheck(change, answer);
            now.Now? && now.class_ == change.class_ && now.account.quota != change.to ==>
              answer == ReadOk(now.account) && Guarded(now.account, change.to, consent)
  {
  }

  lemma CallsOfStep(c: Context, s: RunState, change: Change, turn: Turn)
    requires Allowed(change, c.opts.consentShrink)
    ensures var t := Step(c, s, change, turn);
            var key := change.Account();
            var reread := Reread(key, turn.reread);
            || t.calls == s.calls
            || (key.providerID !in s.stopped && t.calls == s.calls + [reread] && (Stops(reread) ==> key.providerID in t.stopped))
            || (key.providerID !in s.stopped && !Stops(reread) &&
                turn.reread.ReadOk? && Guarded(turn.reread.account, change.to, c.opts.consentShrink) &&
                key.providerID in c.instances && !c.instances[key.providerID].degraded && !c.opts.dryRun &&
                var write := Write(key, change.to, turn.write);
                if turn.write.WriteDone? then t.calls == s.calls + [reread, write, ReadBack(key, turn.readBack)]
                else t.calls == s.calls + [reread, write] && key.providerID in t.stopped)
    ensures s.stopped <= Step(c, s, change, turn).stopped
  {
    RecheckGuards(change, turn.reread, c.opts.consentShrink);
  }

  lemma StepIsSafe(c: Context, s: RunState, change: Change, turn: Turn)
    requires Allowed(change, c.opts.consentShrink) && SafeCalls(c, s)
    ensures SafeCalls(c, Step(c, s, change, turn))
  {
    var t := Step(c, s, change, turn);
    CallsOfStep(c, s, change, turn);
    forall i | 0 <= i < |t.calls| ensures GuardedAt(c, t.calls, i) {
      assert i < |s.calls| ==> t.calls[i] == s.calls[i] && GuardedAt(c, s.calls, i);
    }
  }

  lemma {:induction false} RunIsSafe(c: Context, s: RunState, changes: seq<Change>, turns: seq<Turn>)
    requires |changes| == |turns| && (forall x | x in changes :: Allowed(x, c.opts.consentShrink))
    requires SafeCalls(c, s)
    ensures SafeCalls(c, Run(c, s, changes, turns))
  {
    if changes != [] {
      var n := |changes| - 1;
      RunIsSafe(c, s, changes[..n], turns[..n]);
      StepIsSafe(c, Run(c, s, changes[..n], turns[..n]), changes[n], turns[n]);
    }
  }

  lemma {:induction false} ApplicableAllowed(changes: seq<Change>, consent: bool)
    ensures forall x | x in ApplicableTo(changes, consent) :: Allowed(x, consent)
  {
    if changes != [] {
      ApplicableAllowed(changes[..|changes| - 1], consent);
    }
  }

  /** No call that a run makes from some point on concerns a provider that is stopped at that point,
      whether a call stopped it or the run's own pacer did. */
  ghost predicate LeavesAlone(early: RunState, late: RunState) {
    && early.calls <= late.calls && early.stopped <= late.stopped
    && forall i | |early.calls| <= i < |late.calls| :: late.calls[i].account.providerID !in early.stopped
  }

  lemma StepLeavesAlone(c: Context, early: RunState, s: RunState, change: Change, turn: Turn)
    requires LeavesAlone(early, s)
    ensures LeavesAlone(early, Step(c, s, change, turn))
  {
    StepCalls(c, s, change, turn);
  }

  /** The calls of a step follow those before it, and are about the provider of the change, which has
      not stopped. */
  lemma StepCalls(c: Context, s: RunState, change: Change, turn: Turn)
    ensures var t := Step(c, s, change, turn);
            && s.calls <= t.calls && s.stopped <= t.stopped
            && (t.calls != s.calls ==> change.providerID !in s.stopped)
            && forall i | |s.calls| <= i < |t.calls| :: t.calls[i].account.providerID == change.providerID
  {
  }

  lemma {:induction false} RunLeavesAlone(c: Context, s: RunState, changes: seq<Change>, turns: seq<Turn>, n: nat)
    requires |changes| == |turns| && n <= |changes|
    ensures LeavesAlone(Run(c, s, changes[..n], turns[..n]), Run(c, s, changes, turns))
    decreases |changes|
  {
    if n == |changes| {
      assert changes[..n] == changes && turns[..n] == turns;
    } else {
      var m := |changes| - 1;
      assert changes[..m][..n] == changes[..n] && turns[..m][..n] == turns[..n];
      RunLeavesAlone(c, s, changes[..m], turns[..m], n);
      StepLeavesAlone(c, Run(c, s, changes[..n], turns[..n]), Run(c, s, changes[..m], turns[..m]), changes[m], turns[m]);
    }
  }

  /** From every point of a run on, the providers stopped there are left alone. */
  ghost predicate StopsForGood(c: Context, s: RunState, changes: seq<Change>, turns: seq<Turn>)
    requires |changes| == |turns|
  {
    forall n | 0 <= n <= |changes| :: LeavesAlone(Run(c, s, changes[..n], turns[..n]), Run(c, s, changes, turns))
  }

  /** For any plan and any answers: every write directly follows a read of that account which was
      writable with known quota and known usage; nothing is written to a degraded or unconfigured
      provider or in a dry run; no call at all concerns a provider after it stopped; and without consent the value is
      unlimited or above the usage just read, unless the account claims never to have been used. */
  lemma WritesAreGuarded(instances: seq<Instance>, plan: Plan, opts: Options, accounts: map<Key, Row>, turns: seq<Turn>)
    requires |turns| == |ApplicableTo(plan.changes, opts.consentShrink)|
    ensures SafeCalls(Context(IndexInstances(instances), opts), WholeRun(instances, plan, opts, accounts, turns))
    ensures StopsForGood(Context(IndexInstances(instances), opts), Begin(plan.changes, opts.consentShrink, accounts),
                         ApplicableTo(plan.changes, opts.consentShrink), turns)
  {
    var c := Context(IndexInstances(instances), opts);
    BeginIsQuiet(plan.changes, opts.consentShrink, accounts);
    ApplicableAllowed(plan.changes, opts.consentShrink);
    var begun, changes := Begin(plan.changes, opts.consentShrink, accounts), ApplicableTo(plan.changes, opts.consentShrink);
    RunIsSafe(c, begun, changes, turns);
    forall n | 0 <= n <= |changes| ensures LeavesAlone(Run(c, begun, changes[..n], turns[..n]), Run(c, begun, changes, turns)) {
      RunLeavesAlone(c, begun, changes, turns, n);
    }
  }

  /** What the adapters guarantee about an account they decode. */
  predicate Decodable(a: Account) {
    a.used.ValidAsUsage() && (a.neverUsed ==> a.used == Bytes(0))
  }

  /** With accounts as the adapters decode them, a write without consent is unlimited or strictly above
      the usage just read. */
  lemma UnconsentedWritesAreAboveUsage(
    instances: seq<Instance>, plan: Plan, opts: Options, accounts: map<Key, Row>, turns: seq<Turn>, i: nat)
    requires |turns| == |ApplicableTo(plan.changes, opts.consentShrink)| && !opts.consentShrink
    requires var calls := WholeRun(instances, plan, opts, accounts, turns).calls;
             && (forall j | 0 <= j < |calls| :: calls[j].Reread? && calls[j].answer.ReadOk? ==> Decodable(calls[j].answer.account))
             && i < |calls| && calls[i].Write?
    ensures var calls := WholeRun(instances, plan, opts, accounts, turns).calls;
            && i > 0 && calls[i - 1].Reread? && calls[i - 1].account == calls[i].account && calls[i - 1].answer.ReadOk?
            && var a := calls[i - 1].answer.account;
               a.used.Bytes? && (calls[i].quota.Unlimited? || (calls[i].quota.Bytes? && calls[i].quota.n > a.used.n))
  {
    WritesAreGuarded(instances, plan, opts, accounts, turns);
    var c := Context(IndexInstances(instances), opts);
    assert GuardedAt(c, WholeRun(instances, plan, opts, accounts, turns).calls, i);
  }

  // ----- every change is accounted for

  predicate Accounted(c: Context, s: RunState, handled: nat) {
    var r := s.report;
    && r.applied + r.failed + r.guarded + r.unknown + r.moved + r.skipped + s.settled + s.tripped == handled
    && |s.stopped| == r.failed + s.tripped
    && s.stopped <= c.instances.Keys
    && |r.errors| == r.failed
    && (r.throttled <==> s.tripped > 0)
  }

  lemma StopAccounts(c: Context, s: RunState, change: Change, error: RunError, handled: nat)
    requires Accounted(c, s, handled) && change.providerID in c.instances && change.providerID !in s.stopped
    ensures Accounted(c, Fail(s, change, error), handled + 1) && Accounted(c, Trip(s, change), handled + 1)
  {
    assert |s.stopped + {change.providerID}| == |s.stopped| + 1;
  }

  lemma WriteStepAccounts(c: Context, r: RunState, change: Change, turn: Turn, handled: nat)
    requires Accounted(c, r, handled) && change.providerID in c.instances && change.providerID !in r.stopped
    ensures Accounted(c, WriteStep(c, r, change, turn), handled + 1)
  {
    var p, key := change.providerID, change.Account();
    var pace := PacerOf(c, r, p);
    if !pace.Allows() {
      StopAccounts(c, r.(pacers := r.pacers[p := pace]), change, WriteFailed(key), handled);
    } else {
      var w := r.(pacers := r.pacers[p := pace.Spend()], calls := r.calls + [Write(key, change.to, turn.write)]);
      StopAccounts(c, w, change, WriteFailed(key), handled);
    }
  }

  lemma ConfiguredStepAccounts(c: Context, s: RunState, change: Change, turn: Turn, handled: nat)
    requires Accounted(c, s, handled)
    requires var p := change.providerID; p in c.instances && p !in s.stopped && !c.instances[p].degraded
    ensures Accounted(c, Step(c, s, change, turn), handled + 1)
  {
    var r, now := s.(calls := s.calls + [Reread(change.Account(), turn.reread)]), Recheck(change, turn.reread);
    assert Accounted(c, r, handled);
    if now.NotNow? {
      StopAccounts(c, r, change, now.error, handled);
    } else if now.class_ == change.class_ && now.account.quota != change.to && !c.opts.dryRun {
      WriteStepAccounts(c, r, change, turn, handled);
    }
  }

  lemma StepAccounts(c: Context, s: RunState, change: Change, turn: Turn, handled: nat)
    requires Accounted(c, s, handled)
    ensures Accounted(c, Step(c, s, change, turn), handled + 1)
  {
    var p := change.providerID;
    if p in c.instances && p !in s.stopped && !c.instances[p].degraded {
      ConfiguredStepAccounts(c, s, change, turn, handled);
    }
  }

  lemma {:induction false} RunAccounts(c: Context, s: RunState, changes: seq<Change>, turns: seq<Turn>, handled: nat)
    requires |changes| == |turns| && Accounted(c, s, handled)
    ensures Accounted(c, Run(c, s, changes, turns), handled + |changes|)
  {
    if changes != [] {
      var n := |changes| - 1;
      RunAccounts(c, s, changes[..n], turns[..n], handled);
      StepAccounts(c, Run(c, s, changes[..n], turns[..n]), changes[n], turns[n], handled + n);
    }
  }

  lemma {:induction false} BeginAccounts(c: Context, changes: seq<Change>, accounts: map<Key, Row>)
    ensures var consent := c.opts.consentShrink;
            |ApplicableTo(changes, consent)| <= |changes| &&
            Accounted(c, Begin(changes, consent, accounts), |changes| - |ApplicableTo(changes, consent)|)
  {
    if changes != [] {
      BeginAccounts(c, changes[..|changes| - 1], accounts);
    }
  }

  /** Every planned change ends in exactly one count: applied, failed, guarded, unknown, moved, skipped,
      found in place, or tripping a limit. As many providers are stopped as changes failed or tripped,
      so no provider has two of those. The report is clean exactly when every change was applied or
      already in place. */
  lemma EveryChangeIsAccountedFor(instances: seq<Instance>, plan: Plan, opts: Options, accounts: map<Key, Row>, turns: seq<Turn>)
    requires |turns| == |ApplicableTo(plan.changes, opts.consentShrink)|
    ensures var s := WholeRun(instances, plan, opts, accounts, turns);
            && Accounted(Context(IndexInstances(instances), opts), s, |plan.changes|)
            && (s.report.Clean() <==> s.report.applied + s.settled == |plan.changes|)
            && (!s.report.Clean() ==> s.report.failed > 0 || s.report.Incomplete())
  {
    var c := Context(IndexInstances(instances), opts);
    var changes := ApplicableTo(plan.changes, opts.consentShrink);
    BeginAccounts(c, plan.changes, accounts);
    RunAccounts(c, Begin(plan.changes, opts.consentShrink, accounts), changes, turns, |plan.changes| - |changes|);
  }

  // ----- writes are bounded

  function IsWriteTo(p: int): Call -> bool {
    (call: Call) => call.Write? && call.account.providerID == p
  }

  function WritesTo(calls: seq<Call>, p: int): nat {
    HowMany(IsWriteTo(p), calls)
  }

  /** What has been written and what may still be written add up to the allowance. */
  predicate Paced(c: Context, s: RunState, p: int)
    requires p in c.instances && c.instances[p].writeLimit.Some? && c.instances[p].writeLimit.value > 0
  {
    var pace := PacerOf(c, s, p);
    pace.Left? && 0 <= pace.remaining && WritesTo(s.calls, p) + pace.remaining == Allowance(c.instances[p].writeLimit.value)
  }

  lemma WriteShape(c: Context, r: RunState, change: Change, turn: Turn)
    requires change.providerID in c.instances
    ensures var t := WriteStep(c, r, change, turn);
            var pace := PacerOf(c, r, change.providerID);
            if pace.Allows() then
              t.pacers == r.pacers[change.providerID := pace.Spend()] &&
              WritesOnce(r.calls, t.calls, change)
            else t.pacers == r.pacers[change.providerID := pace] && t.calls == r.calls
  {
    OneWrite(r.calls, Write(change.Account(), change.to, turn.write), ReadBack(change.Account(), turn.readBack), change);
  }

  lemma OneWrite(calls: seq<Call>, write: Call, readBack: Call, change: Change)
    requires write.Write? && write.account == change.Account() && readBack.ReadBack?
    ensures WritesOnce(calls, calls + [write], change)
    ensures WritesOnce(calls, calls + [write] + [readBack], change)
  {
    forall q
      ensures WritesTo(calls + [write], q) == WritesTo(calls, q) + if q == change.providerID then 1 else 0
      ensures WritesTo(calls + [write] + [readBack], q) == WritesTo(calls + [write], q)
    {
      HowManyOneMore(IsWriteTo(q), calls, write);
      HowManyOneMore(IsWriteTo(q), calls + [write], readBack);
    }
  }

  /** One more write, to the provider of the change. */
  ghost predicate WritesOnce(before: seq<Call>, after: seq<Call>, change: Change) {
    forall q :: WritesTo(after, q) == WritesTo(before, q) + if q == change.providerID then 1 else 0
  }

  lemma WriteStepPaces(c: Context, r: RunState, change: Change, turn: Turn, p: int)
    requires change.providerID in c.instances
    requires p in c.instances && c.instances[p].writeLimit.Some? && c.instances[p].writeLimit.value > 0
    requires Paced(c, r, p)
    ensures Paced(c, WriteStep(c, r, change, turn), p)
  {
    WriteShape(c, r, change, turn);
    PacedAfter(c, r, WriteStep(c, r, change, turn), change, p);
  }

  lemma PacedAfter(c: Context, r: RunState, t: RunState, change: Change, p: int)
    requires change.providerID in c.instances
    requires p in c.instances && c.instances[p].writeLimit.Some? && c.instances[p].writeLimit.value > 0
    requires Paced(c, r, p)
    requires var pace := PacerOf(c, r, change.providerID);
             if pace.Allows() then
               t.pacers == r.pacers[change.providerID := pace.Spend()] && WritesOnce(r.calls, t.calls, change)
             else t.pacers == r.pacers[change.providerID := pace] && t.calls == r.calls
    ensures Paced(c, t, p)
  {
  }

  /** A step either reaches the write, or leaves the pacers alone and makes at most the re-check. */
  lemma StepShape(c: Context, s: RunState, change: Change, turn: Turn)
    ensures var t := Step(c, s, change, turn);
            var r := s.(calls := s.calls + [Reread(change.Account(), turn.reread)]);
            || (t.pacers == s.pacers && (t.calls == s.calls || t.calls == r.calls))
            || (change.providerID in c.instances && t == WriteStep(c, r, change, turn))
  {
  }

  lemma StepPaces(c: Context, s: RunState, change: Change, turn: Turn, p: int)
    requires p in c.instances && c.instances[p].writeLimit.Some? && c.instances[p].writeLimit.value > 0
    requires Paced(c, s, p)
    ensures Paced(c, Step(c, s, change, turn), p)
  {
    var reread := Reread(change.Account(), turn.reread);
    var r := s.(calls := s.calls + [reread]);
    HowManyOneMore(IsWriteTo(p), s.calls, reread);
    assert Paced(c, r, p);
    StepShape(c, s, change, turn);
    if change.providerID in c.instances {
      WriteStepPaces(c, r, change, turn, p);
    }
  }

  lemma {:induction false} RunPaces(c: Context, s: RunState, changes: seq<Change>, turns: seq<Turn>, p: int)
    requires |changes| == |turns|
    requires p in c.instances && c.instances[p].writeLimit.Some? && c.instances[p].writeLimit.value > 0
    requires Paced(c, s, p)
    ensures Paced(c, Run(c, s, changes, turns), p)
  {
    if changes != [] {
      var n := |changes| - 1;
      RunPaces(c, s, changes[..n], turns[..n], p);
      StepPaces(c, Run(c, s, changes[..n], turns[..n]), changes[n], turns[n], p);
    }
  }

  /** A provider with limit L is written to at most L - L/10 times in one run. */
  lemma WritesAreBounded(instances: seq<Instance>, plan: Plan, opts: Options, accounts: map<Key, Row>, turns: seq<Turn>, p: int)
    requires |turns| == |ApplicableTo(plan.changes, opts.consentShrink)|
    requires var byID := IndexInstances(instances);
             p in byID && byID[p].writeLimit.Some? && byID[p].writeLimit.value > 0
    ensures WritesTo(WholeRun(instances, plan, opts, accounts, turns).calls, p)
            <= Allowance(IndexInstances(instances)[p].writeLimit.value)
  {
    var c := Context(IndexInstances(instances), opts);
    BeginIsQuiet(plan.changes, opts.consentShrink, accounts);
    RunPaces(c, Begin(plan.changes, opts.consentShrink, accounts), ApplicableTo(plan.changes, opts.consentShrink), turns, p);
  }
}
