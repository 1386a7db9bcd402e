/** The report of a run against the plan, the calls that were made and the audit log
    (internal/reconcile/apply.go, internal/core/plan.go). */
module Auditing {
  import opened Model
  import opened Plans
  import opened Storage
  import opened Applying
  import opened Guardrails
  import opened Sums

  function ClassIs(class_: ChangeClass): Change -> bool {
    (change: Change) => change.class_ == class_
  }

  function CountClass(changes: seq<Change>, class_: ChangeClass): nat {
    HowMany(ClassIs(class_), changes)
  }

  /** CountByClass: a class that does not occur has no entry. */
  method CountByClass(plan: Plan) returns (counts: map<ChangeClass, int>)
    ensures forall k ::
              (k in counts <==> CountClass(plan.changes, k) > 0) && (k in counts ==> counts[k] == CountClass(plan.changes, k))
  {
    counts := map[];
    for i := 0 to |plan.changes|
      invariant forall k ::
                  (k in counts <==> CountClass(plan.changes[..i], k) > 0) &&
                  (k in counts ==> counts[k] == CountClass(plan.changes[..i], k))
    {
      assert plan.changes[..i + 1][..i] == plan.changes[..i];
      var k := plan.changes[i].class_;
      counts := counts[k := (if k in counts then counts[k] else 0) + 1];
    }
    assert plan.changes[..|plan.changes|] == plan.changes;
  }

  // ----- counting what happened

  function ResultIs(result: AuditResult): AuditEntry -> bool {
    (entry: AuditEntry) => entry.result == result
  }

  function Entries(audit: seq<AuditEntry>, result: AuditResult): nat {
    HowMany(ResultIs(result), audit)
  }

  lemma OneMoreEntry(audit: seq<AuditEntry>, entry: AuditEntry)
    ensures forall r :: Entries(audit + [entry], r) == Entries(audit, r) + if entry.result == r then 1 else 0
  {
    forall r ensures Entries(audit + [entry], r) == Entries(audit, r) + if entry.result == r then 1 else 0 {
      HowManyOneMore(ResultIs(r), audit, entry);
    }
  }

  predicate Landed(call: Call) {
    call.Write? && call.result.WriteDone?
  }

  predicate Broke(call: Call) {
    match call
    case Reread(_, answer) => answer.ReadFailed? || !answer.account.Writable()
    case Write(_, _, result) => result.WriteRefused?
    case ReadBack(_, _) => false
  }

  function Landings(calls: seq<Call>): nat {
    HowMany(Landed, calls)
  }

  function Breaks(calls: seq<Call>): nat {
    HowMany(Broke, calls)
  }

  lemma OneMoreCall(calls: seq<Call>, call: Call)
    ensures Landings(calls + [call]) == Landings(calls) + if Landed(call) then 1 else 0
    ensures Breaks(calls + [call]) == Breaks(calls) + if Broke(call) then 1 else 0
  {
    HowManyOneMore(Landed, calls, call);
    HowManyOneMore(Broke, calls, call);
  }

  function IsElsewhere(c: Context): Change -> bool {
    (change: Change) => change.providerID !in c.instances
  }

  function Unconfigured(c: Context, changes: seq<Change>): nat {
    HowMany(IsElsewhere(c), changes)
  }

  /** Applied and failed are what the calls say, and the audit log says the same as the report: applied
      and failed as counted, refused for every guarded, unknown or moved change, and skipped for every
      change passed over on a configured provider or tripping a limit. A dry run applies on paper only. */
  predicate Reflected(c: Context, s: RunState, changes: seq<Change>) {
    var r := s.report;
    && (!c.opts.dryRun ==> Landings(s.calls) == r.applied == Entries(s.audit, Applied))
    && (c.opts.dryRun ==> Landings(s.calls) == 0 == Entries(s.audit, Applied))
    && Breaks(s.calls) == r.failed == Entries(s.audit, Failed)
    && Entries(s.audit, Refused) == r.guarded + r.unknown + r.moved
    && Entries(s.audit, Skipped) + Unconfigured(c, changes) == r.skipped + s.tripped
  }

  lemma FailReflects(c: Context, s: RunState, changes: seq<Change>, x: Change, error: RunError, call: Call)
    requires Reflected(c, s, changes) && Broke(call) && !Landed(call)
    ensures Reflected(c, Fail(s.(calls := s.calls + [call]), x, error), changes)
  {
    OneMoreCall(s.calls, call);
    OneMoreEntry(s.audit, AuditEntry(x, Failed));
  }

  /** A call that neither writes nor breaks anything. */
  lemma QuietCall(c: Context, s: RunState, changes: seq<Change>, call: Call)
    requires Reflected(c, s, changes) && !Broke(call) && !Landed(call)
    ensures Reflected(c, s.(calls := s.calls + [call]), changes)
  {
    OneMoreCall(s.calls, call);
  }

  lemma TripReflects(c: Context, s: RunState, changes: seq<Change>, x: Change)
    requires Reflected(c, s, changes)
    ensures Reflected(c, Trip(s, x), changes)
  {
    OneMoreEntry(s.audit, AuditEntry(x, Skipped));
  }

  lemma AppliedReflects(c: Context, s: RunState, changes: seq<Change>, x: Change, write: Call, readBack: Call)
    requires Reflected(c, s, changes) && !c.opts.dryRun && Landed(write) && readBack.ReadBack?
    ensures Reflected(c, s.(report := s.report.(applied := s.report.applied + 1), audit := s.audit + [AuditEntry(x, Applied)],
                            calls := s.calls + [write] + [readBack]), changes)
  {
    OneMoreEntry(s.audit, AuditEntry(x, Applied));
    OneMoreCall(s.calls, write);
    OneMoreCall(s.calls + [write], readBack);
  }

  lemma MovedReflects(c: Context, s: RunState, changes: seq<Change>, x: Change)
    requires Reflected(c, s, changes)
    ensures Reflected(c, s.(report := s.report.(moved := s.report.moved + 1), audit := s.audit + [AuditEntry(x, Refused)]), changes)
  {
    OneMoreEntry(s.audit, AuditEntry(x, Refused));
  }

  lemma SkipReflects(c: Context, s: RunState, changes: seq<Change>, x: Change)
    requires Reflected(c, s, changes)
    ensures Reflected(c, Skip(s, x), changes)
  {
    OneMoreEntry(s.audit, AuditEntry(x, Skipped));
  }

  /** What is not counted from may change freely. */
  lemma SameCounts(c: Context, s: RunState, t: RunState, changes: seq<Change>)
    requires Reflected(c, s, changes) && t.calls == s.calls && t.audit == s.audit && t.report == s.report && t.tripped == s.tripped
    ensures Reflected(c, t, changes)
  {
  }

  lemma WriteStepReflects(c: Context, r: RunState, changes: seq<Change>, x: Change, turn: Turn)
    requires Reflected(c, r, changes) && x.providerID in c.instances && !c.opts.dryRun
    ensures Reflected(c, WriteStep(c, r, x, turn), changes)
  {
    var p, key := x.providerID, x.Account();
    var write, readBack := Write(key, x.to, turn.write), ReadBack(key, turn.readBack);
    var pace := PacerOf(c, r, p);
    if !pace.Allows() {
      SameCounts(c, r, r.(pacers := r.pacers[p := pace]), changes);
      TripReflects(c, r.(pacers := r.pacers[p := pace]), changes, x);
    } else {
      var w := r.(pacers := r.pacers[p := pace.Spend()]);
      SameCounts(c, r, w, changes);
      match turn.write
      case WriteThrottled =>
        QuietCall(c, w, changes, write);
        TripReflects(c, w.(calls := w.calls + [write]), changes, x);
      case WriteRefused =>
        FailReflects(c, w, changes, x, WriteFailed(key), write);
      case WriteDone =>
        var v := w.(accounts := AfterWrite(w.accounts, x, turn));
        SameCounts(c, w, v, changes);
        AppliedReflects(c, v, changes, x, write, readBack);
    }
  }

  lemma ConfiguredStep(c: Context, s: RunState, changes: seq<Change>, x: Change, turn: Turn)
    requires Reflected(c, s, changes) && x.providerID in c.instances
    ensures Reflected(c, Step(c, s, x, turn), changes)
  {
    var p, reread := x.providerID, Reread(x.Account(), turn.reread);
    var r, now := s.(calls := s.calls + [reread]), Recheck(x, turn.reread);
    if p in s.stopped || c.instances[p].degraded {
      SkipReflects(c, s, changes, x);
    } else if now.NotNow? {
      FailReflects(c, s, changes, x, now.error, reread);
    } else {
      QuietCall(c, s, changes, reread);
      if now.class_ != x.class_ {
        MovedReflects(c, r, changes, x);
      } else if now.account.quota == x.to {
        SameCounts(c, r, r.(settled := r.settled + 1), changes);
      } else if !c.opts.dryRun {
        WriteStepReflects(c, r, changes, x, turn);
      }
    }
  }

  lemma StepReflects(c: Context, s: RunState, changes: seq<Change>, x: Change, turn: Turn)
    requires Reflected(c, s, changes)
    ensures Reflected(c, Step(c, s, x, turn), changes + [x])
  {
    assert (changes + [x])[..|changes|] == changes;
    HowManyOneMore(IsElsewhere(c), changes, x);
    if x.providerID in c.instances {
      ConfiguredStep(c, s, changes, x, turn);
    }
  }

  lemma {:induction false} RunReflects(c: Context, s: RunState, changes: seq<Change>, turns: seq<Turn>)
    requires |changes| == |turns| && Reflected(c, s, [])
    ensures Reflected(c, Run(c, s, changes, turns), changes)
  {
    if changes != [] {
      var front, x := changes[..|changes| - 1], changes[|changes| - 1];
      var before := turns[..|changes| - 1];
      RunReflects(c, s, front, before);
      StepReflects(c, Run(c, s, front, before), front, x, turns[|changes| - 1]);
      assert changes == front + [x];
    }
  }

  lemma StepKeepsRefusals(c: Context, s: RunState, x: Change, turn: Turn)
    ensures var r := Step(c, s, x, turn).report; r.unknown == s.report.unknown && r.guarded == s.report.guarded
  {
  }

  lemma {:induction false} RunKeepsRefusals(c: Context, s: RunState, changes: seq<Change>, turns: seq<Turn>)
    requires |changes| == |turns|
    ensures var r := Run(c, s, changes, turns).report; r.unknown == s.report.unknown && r.guarded == s.report.guarded
  {
    if changes != [] {
      var n := |changes| - 1;
      RunKeepsRefusals(c, s, changes[..n], turns[..n]);
      StepKeepsRefusals(c, Run(c, s, changes[..n], turns[..n]), changes[n], turns[n]);
    }
  }

  /** One change refused by its class, whichever count it goes to. */
  lemma RefusalReflects(c: Context, s: RunState, x: Change, unknown: nat, guarded: nat)
    requires Reflected(c, s, []) && unknown + guarded == s.report.unknown + s.report.guarded + 1
    ensures Reflected(c, s.(report := s.report.(unknown := unknown, guarded := guarded),
                            audit := s.audit + [AuditEntry(x, Refused)]), [])
  {
    OneMoreEntry(s.audit, AuditEntry(x, Refused));
  }

  lemma {:induction false} BeginReflects(c: Context, changes: seq<Change>, accounts: map<Key, Row>)
    ensures Reflected(c, Begin(changes, c.opts.consentShrink, accounts), [])
  {
    if changes != [] {
      var front, x := changes[..|changes| - 1], changes[|changes| - 1];
      var s := Begin(front, c.opts.consentShrink, accounts);
      BeginReflects(c, front, accounts);
      if x.class_.UnknownState? {
        RefusalReflects(c, s, x, s.report.unknown + 1, s.report.guarded);
      } else if x.class_.ShrinkBelowUsage? && !c.opts.consentShrink {
        RefusalReflects(c, s, x, s.report.unknown, s.report.guarded + 1);
      }
    }
  }

  lemma {:induction false} BeginRefuses(changes: seq<Change>, consent: bool, accounts: map<Key, Row>)
    ensures var r := Begin(changes, consent, accounts).report;
            && r.unknown == CountClass(changes, UnknownState)
            && r.guarded == if consent then 0 else CountClass(changes, ShrinkBelowUsage)
  {
    if changes != [] {
      BeginRefuses(changes[..|changes| - 1], consent, accounts);
    }
  }

  // ----- what the re-reads decide

  function Rereads(calls: seq<Call>): seq<Call> {
    if calls == [] then []
    else Rereads(calls[..|calls| - 1]) + if calls[|calls| - 1].Reread? then [calls[|calls| - 1]] else []
  }

  lemma OneMoreReread(calls: seq<Call>, call: Call)
    ensures Rereads(calls + [call]) == Rereads(calls) + if call.Reread? then [call] else []
  {
    assert (calls + [call])[..|calls|] == calls;
  }

  /** The account is readable, writable, fully known, and already has what the change asks for. */
  predicate InPlace(x: Change, answer: ReadResult) {
    && answer.ReadOk? && answer.account.Writable()
    && answer.account.quota == x.to && x.to.IsKnown() && answer.account.used.IsKnown()
  }

  predicate Moved(x: Change, answer: ReadResult) {
    var now := Recheck(x, answer);
    now.Now? && now.class_ != x.class_
  }

  function Settlings(about: seq<Change>, rereads: seq<Call>): nat
    requires |about| == |rereads| && forall r | r in rereads :: r.Reread?
  {
    if about == [] then 0
    else
      var n := |about| - 1;
      assert forall r | r in rereads[..n] :: r in rereads;
      assert rereads[n] in rereads;
      Settlings(about[..n], rereads[..n]) + if InPlace(about[n], rereads[n].answer) then 1 else 0
  }

  function Movings(about: seq<Change>, rereads: seq<Call>): nat
    requires |about| == |rereads| && forall r | r in rereads :: r.Reread?
  {
    if about == [] then 0
    else
      var n := |about| - 1;
      assert forall r | r in rereads[..n] :: r in rereads;
      assert rereads[n] in rereads;
      Movings(about[..n], rereads[..n]) + if Moved(about[n], rereads[n].answer) then 1 else 0
  }

  /** The re-reads of a run, one by one, belong to changes it was given; those that found the target in
      place are the settled ones, and those that found another class are the moved ones. */
  ghost predicate Decided(about: seq<Change>, changes: seq<Change>, rereads: seq<Call>, settled: nat, moved: nat) {
    && |about| == |rereads| && multiset(about) <= multiset(changes)
    && (forall i | 0 <= i < |about| :: rereads[i].Reread? && rereads[i].account == about[i].Account())
    && settled == Settlings(about, rereads) && moved == Movings(about, rereads)
  }

  lemma OneMoreDecided(about: seq<Change>, changes: seq<Change>, rereads: seq<Call>, settled: nat, moved: nat,
                       x: Change, answer: ReadResult)
    requires Decided(about, changes, rereads, settled, moved)
    ensures Decided(about + [x], changes + [x], rereads + [Reread(x.Account(), answer)],
                    settled + if InPlace(x, answer) then 1 else 0, moved + if Moved(x, answer) then 1 else 0)
  {
    var after := rereads + [Reread(x.Account(), answer)];
    assert (about + [x])[..|about|] == about && after[..|rereads|] == rereads;
    assert forall r | r in after :: r.Reread?;
  }

  lemma InPlaceExactly(x: Change, answer: ReadResult, consent: bool)
    requires Allowed(x, consent)
    ensures var now := Recheck(x, answer);
            InPlace(x, answer) <==> now.Now? && now.class_ == x.class_ && now.account.quota == x.to
  {
  }

  lemma WriteStepDecides(c: Context, r: RunState, x: Change, turn: Turn)
    requires x.providerID in c.instances
    ensures var t := WriteStep(c, r, x, turn);
            Rereads(t.calls) == Rereads(r.calls) && t.settled == r.settled && t.report.moved == r.report.moved
  {
    var write := Write(x.Account(), x.to, turn.write);
    OneMoreReread(r.calls, write);
    OneMoreReread(r.calls + [write], ReadBack(x.Account(), turn.readBack));
  }

  /** A step re-reads the account of the change and settles or moves it by that answer, or does neither. */
  lemma StepDecides(c: Context, s: RunState, x: Change, turn: Turn)
    requires Allowed(x, c.opts.consentShrink)
    ensures var t, answer := Step(c, s, x, turn), turn.reread;
            || (Rereads(t.calls) == Rereads(s.calls) && t.settled == s.settled && t.report.moved == s.report.moved)
            || (Rereads(t.calls) == Rereads(s.calls) + [Reread(x.Account(), answer)]
                && t.settled == s.settled + (if InPlace(x, answer) then 1 else 0)
                && t.report.moved == s.report.moved + if Moved(x, answer) then 1 else 0)
  {
    var p, reread := x.providerID, Reread(x.Account(), turn.reread);
    if p in c.instances && p !in s.stopped && !c.instances[p].degraded {
      OneMoreReread(s.calls, reread);
      InPlaceExactly(x, turn.reread, c.opts.consentShrink);
      var now := Recheck(x, turn.reread);
      if now.Now? && now.class_ == x.class_ && now.account.quota != x.to && !c.opts.dryRun {
        WriteStepDecides(c, s.(calls := s.calls + [reread]), x, turn);
      }
    }
  }

  lemma {:induction false} RunDecides(c: Context, s: RunState, changes: seq<Change>, turns: seq<Turn>) returns (about: seq<Change>)
    requires |changes| == |turns| && s.calls == [] && s.settled == 0 && s.report.moved == 0
    requires forall x | x in changes :: Allowed(x, c.opts.consentShrink)
    ensures var t := Run(c, s, changes, turns); Decided(about, changes, Rereads(t.calls), t.settled, t.report.moved)
  {
    about := [];
    if changes != [] {
      var front, x, n := changes[..|changes| - 1], changes[|changes| - 1], |changes| - 1;
      assert changes == front + [x];
      about := RunDecides(c, s, front, turns[..n]);
      var before := Run(c, s, front, turns[..n]);
      StepDecides(c, before, x, turns[n]);
      OneMoreDecided(about, front, Rereads(before.calls), before.settled, before.report.moved, x, turns[n].reread);
      if Rereads(Run(c, s, changes, turns).calls) != Rereads(before.calls) {
        about := about + [x];
      }
    }
  }

  /** Of any run: what was found in place, and what was found moved, is read off its re-reads. */
  lemma RereadsDecide(instances: seq<Instance>, plan: Plan, opts: Options, accounts: map<Key, Row>, turns: seq<Turn>)
    returns (about: seq<Change>)
    requires |turns| == |ApplicableTo(plan.changes, opts.consentShrink)|
    ensures var s := WholeRun(instances, plan, opts, accounts, turns);
            Decided(about, ApplicableTo(plan.changes, opts.consentShrink), Rereads(s.calls), s.settled, s.report.moved)
  {
    BeginIsQuiet(plan.changes, opts.consentShrink, accounts);
    ApplicableAllowed(plan.changes, opts.consentShrink);
    about := RunDecides(Context(IndexInstances(instances), opts), Begin(plan.changes, opts.consentShrink, accounts),
                     ApplicableTo(plan.changes, opts.consentShrink), turns);
  }

  // ----- the whole report

  /** Report, calls and audit log of any run tell one story, and the refusals by class are the plan's:
      every change in unknown state, and every shrink below usage unless there is consent. */
  lemma ReportTellsWhatHappened(instances: seq<Instance>, plan: Plan, opts: Options, accounts: map<Key, Row>, turns: seq<Turn>)
    requires |turns| == |ApplicableTo(plan.changes, opts.consentShrink)|
    ensures var s := WholeRun(instances, plan, opts, accounts, turns);
            && Reflected(Context(IndexInstances(instances), opts), s, ApplicableTo(plan.changes, opts.consentShrink))
            && s.report.unknown == CountClass(plan.changes, UnknownState)
            && s.report.guarded == if opts.consentShrink then 0 else CountClass(plan.changes, ShrinkBelowUsage)
  {
    var c := Context(IndexInstances(instances), opts);
    var begun, changes := Begin(plan.changes, opts.consentShrink, accounts), ApplicableTo(plan.changes, opts.consentShrink);
    BeginReflects(c, plan.changes, accounts);
    BeginRefuses(plan.changes, opts.consentShrink, accounts);
    RunReflects(c, begun, changes, turns);
    RunKeepsRefusals(c, begun, changes, turns);
  }
}
