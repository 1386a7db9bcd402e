/** Applying a plan under the guardrails (internal/reconcile/apply.go). */
module Applying {
  import opened Quotas
  import opened Model
  import opened Adapters
  import opened Plans
  import opened Storage
  import opened Notices

  datatype Instance = Instance(id: int, name: string, degraded: bool, adapter: Adapter, writeLimit: Option<int>)

  datatype Options = Options(consentShrink: bool, dryRun: bool)

  datatype RunError = RereadFailed(account: Key) | NotWritableNow(account: Key) | WriteFailed(account: Key)

  datatype Report = Report(
    applied: nat, failed: nat, guarded: nat, unknown: nat, moved: nat, skipped: nat,
    throttled: bool, errors: seq<RunError>)
  {
    predicate Clean() {
      failed == 0 && guarded == 0 && unknown == 0 && moved == 0 && skipped == 0 && !throttled && |errors| == 0
    }

    predicate Incomplete() {
      guarded > 0 || unknown > 0 || moved > 0 || skipped > 0 || throttled
    }
  }

  // ----- the services, which may answer anything

  datatype ReadResult = ReadFailed | ReadOk(account: Account)

  datatype WriteResult = WriteDone | WriteThrottled | WriteRefused

  /** A call to a service, with its answer. */
  datatype Call =
    | Reread(account: Key, answer: ReadResult)
    | Write(account: Key, quota: Quota, result: WriteResult)
    | ReadBack(account: Key, answer: ReadResult)

  class Services {
    var calls: seq<Call>

    constructor ()
      ensures calls == []
    {
      calls := [];
    }

    method GetAccount(account: Key, again: bool) returns (answer: ReadResult)
      modifies this
      ensures calls == old(calls) + [if again then ReadBack(account, answer) else Reread(account, answer)]
    {
      answer := *;
      calls := calls + [if again then ReadBack(account, answer) else Reread(account, answer)];
    }

    method SetQuota(account: Key, quota: Quota) returns (result: WriteResult)
      modifies this
      ensures calls == old(calls) + [Write(account, quota, result)]
    {
      result := *;
      calls := calls + [Write(account, quota, result)];
    }
  }

  // ----- the pacer

  datatype Pacer = Endless | Left(remaining: int) {
    predicate Allows() {
      Endless? || remaining > 0
    }

    function Spend(): Pacer
      requires Allows()
    {
      if Endless? then Endless else Left(remaining - 1)
    }
  }

  /** What a limit leaves for one run, after a tenth is kept in reserve. */
  function Allowance(limit: int): int
    requires limit > 0
  {
    limit - limit / 10
  }

  function NewPacer(instance: Instance): Pacer {
    if instance.writeLimit.None? || instance.writeLimit.value <= 0 then Endless
    else Left(Allowance(instance.writeLimit.value))
  }

  // ----- one run

  datatype Context = Context(instances: map<int, Instance>, opts: Options)

  /** What a service and the clock answered while one change was handled; an answer nobody asked for is
      never looked at. */
  datatype Turn = Turn(reread: ReadResult, write: WriteResult, readBack: ReadResult, at: int)

  /** Everything a run keeps or changes. The last two count what the report does not: changes found
      already in place, and changes that tripped a write limit. */
  datatype RunState = RunState(
    report: Report,
    stopped: set<int>,
    pacers: map<int, Pacer>,
    accounts: map<Key, Row>,
    calls: seq<Call>,
    audit: seq<AuditEntry>,
    settled: nat,
    tripped: nat)

  /** The report before anything is attempted: what the plan's classes refuse. */
  function Begin(changes: seq<Change>, consent: bool, accounts: map<Key, Row>): RunState {
    if changes == [] then RunState(Report(0, 0, 0, 0, 0, 0, false, []), {}, map[], accounts, [], [], 0, 0)
    else
      var s := Begin(changes[..|changes| - 1], consent, accounts);
      var c := changes[|changes| - 1];
      if c.class_.UnknownState? then
        s.(report := s.report.(unknown := s.report.unknown + 1), audit := s.audit + [AuditEntry(c, Refused)])
      else if c.class_.ShrinkBelowUsage? && !consent then
        s.(report := s.report.(guarded := s.report.guarded + 1), audit := s.audit + [AuditEntry(c, Refused)])
      else s
  }

  datatype Rechecked = NotNow(error: RunError) | Now(account: Account, class_: ChangeClass)

  /** The pair of a change as it is seen now. */
  function SeenNow(change: Change, account: Account): PlanAccount {
    PlanAccount(change.userID, change.uid, change.providerID, change.provider, change.externalID,
                change.to, true, account.quota, account.used, account.neverUsed, true)
  }

  function Recheck(change: Change, answer: ReadResult): Rechecked {
    if answer.ReadFailed? then NotNow(RereadFailed(change.Account()))
    else if !answer.account.Writable() then NotNow(NotWritableNow(change.Account()))
    else
      var found := DifferenceOf(SeenNow(change, answer.account));
      Now(answer.account, if found == [] then change.class_ else found[0].class_)
  }

  function Fail(s: RunState, change: Change, error: RunError): RunState {
    s.(report := s.report.(failed := s.report.failed + 1, errors := s.report.errors + [error]),
       stopped := s.stopped + {change.providerID},
       audit := s.audit + [AuditEntry(change, Failed)])
  }

  function Trip(s: RunState, change: Change): RunState {
    s.(report := s.report.(throttled := true),
       stopped := s.stopped + {change.providerID},
       audit := s.audit + [AuditEntry(change, Skipped)],
       tripped := s.tripped + 1)
  }

  function Skip(s: RunState, change: Change): RunState {
    s.(report := s.report.(skipped := s.report.skipped + 1), audit := s.audit + [AuditEntry(change, Skipped)])
  }

  function PacerOf(c: Context, s: RunState, p: int): Pacer
    requires p in c.instances
  {
    if p in s.pacers then s.pacers[p] else NewPacer(c.instances[p])
  }

  /** The stored accounts after a write landed and was read back, or could not be. */
  function AfterWrite(accounts: map<Key, Row>, change: Change, turn: Turn): map<Key, Row> {
    match turn.readBack
    case ReadFailed => Unobserved(accounts, change.Account())
    case ReadOk(account) => Refreshed(accounts, change.providerID, account, turn.at)
  }

  /** The write itself, once every check has passed. */
  function WriteStep(c: Context, r: RunState, change: Change, turn: Turn): RunState
    requires change.providerID in c.instances
  {
    var p, key := change.providerID, change.Account();
    var pace := PacerOf(c, r, p);
    if !pace.Allows() then Trip(r.(pacers := r.pacers[p := pace]), change)
    else
      var w := r.(pacers := r.pacers[p := pace.Spend()], calls := r.calls + [Write(key, change.to, turn.write)]);
      match turn.write
      case WriteThrottled => Trip(w, change)
      case WriteRefused => Fail(w, change, WriteFailed(key))
      case WriteDone =>
        w.(report := w.report.(applied := w.report.applied + 1),
           audit := w.audit + [AuditEntry(change, Applied)],
           calls := w.calls + [ReadBack(key, turn.readBack)],
           accounts := AfterWrite(w.accounts, change, turn))
  }

  function Step(c: Context, s: RunState, change: Change, turn: Turn): RunState {
    var p, key := change.providerID, change.Account();
    if p !in c.instances then s.(report := s.report.(skipped := s.report.skipped + 1))
    else if p in s.stopped || c.instances[p].degraded then Skip(s, change)
    else
      var r := s.(calls := s.calls + [Reread(key, turn.reread)]);
      var now := Recheck(change, turn.reread);
      if now.NotNow? then Fail(r, change, now.error)
      else if now.class_ != change.class_ then
        r.(report := r.report.(moved := r.report.moved + 1), audit := r.audit + [AuditEntry(change, Refused)])
      else if now.account.quota == change.to then r.(settled := r.settled + 1)
      else if c.opts.dryRun then r.(report := r.report.(applied := r.report.applied + 1))
      else WriteStep(c, r, change, turn)
  }

  function Run(c: Context, s: RunState, changes: seq<Change>, turns: seq<Turn>): RunState
    requires |changes| == |turns|
  {
    if changes == [] then s
    else
      var n := |changes| - 1;
      Step(c, Run(c, s, changes[..n], turns[..n]), changes[n], turns[n])
  }

  function IndexInstances(instances: seq<Instance>): map<int, Instance> {
    if instances == [] then map[]
    else IndexInstances(instances[..|instances| - 1])[instances[|instances| - 1].id := instances[|instances| - 1]]
  }

  method IndexByID(instances: seq<Instance>) returns (byProvider: map<int, Instance>)
    ensures byProvider == IndexInstances(instances)
  {
    byProvider := map[];
    for i := 0 to |instances|
      invariant byProvider == IndexInstances(instances[..i])
    {
      assert instances[..i + 1][..i] == instances[..i];
      byProvider := byProvider[instances[i].id := instances[i]];
    }
    assert instances[..|instances|] == instances;
  }

  function WholeRun(instances: seq<Instance>, plan: Plan, opts: Options, accounts: map<Key, Row>, turns: seq<Turn>): RunState
    requires |turns| == |ApplicableTo(plan.changes, opts.consentShrink)|
  {
    Run(Context(IndexInstances(instances), opts), Begin(plan.changes, opts.consentShrink, accounts),
        ApplicableTo(plan.changes, opts.consentShrink), turns)
  }

  /** Refusing by class touches the report and the audit log only. */
  lemma {:induction false} BeginIsQuiet(changes: seq<Change>, consent: bool, accounts: map<Key, Row>)
    ensures var s := Begin(changes, consent, accounts);
            s.(report := s.report.(unknown := 0, guarded := 0), audit := []) == Begin([], consent, accounts)
  {
    if changes != [] {
      BeginIsQuiet(changes[..|changes| - 1], consent, accounts);
    }
  }

  // ----- the engine

  /** The state of a run that lives in local variables. */
  datatype Progress = Progress(report: Report, stopped: set<int>, pacers: map<int, Pacer>)

  /** What is sent to the operator: how many errors stopped a provider, or which refused changes are new. */
  datatype Notice = FailureNotice(errors: nat) | GuardedNotice(keys: seq<string>)

  function NoticesFor(report: Report, news: seq<string>): seq<Notice> {
    (if report.failed > 0 || |report.errors| > 0 then [FailureNotice(|report.errors|)] else []) +
    (if news == [] then [] else [GuardedNotice(news)])
  }

  class Engine {
    const store: Store
    const services: Services
    const notifying: bool

    constructor (store: Store, services: Services, notifying: bool)
      ensures this.store == store && this.services == services && this.notifying == notifying
    {
      this.store := store;
      this.services := services;
      this.notifying := notifying;
    }

    /** The stored accounts, the calls and the audit log are those of s, on top of what was there. */
    ghost predicate Shows(s: RunState, calls: seq<Call>, audit: seq<AuditEntry>)
      reads store`accounts, store`audit, services
    {
      store.accounts == s.accounts && services.calls == calls + s.calls && store.audit == audit + s.audit
    }

    method RefreshAfterWrite(change: Change, at: int) returns (readBack: ReadResult)
      modifies store`accounts, services
      ensures services.calls == old(services.calls) + [ReadBack(change.Account(), readBack)]
      ensures forall turn: Turn | turn.readBack == readBack && turn.at == at ::
                store.accounts == AfterWrite(old(store.accounts), change, turn)
    {
      readBack := services.GetAccount(change.Account(), true);
      if readBack.ReadFailed? {
        store.MarkAccountUnobserved(change.Account());
      } else {
        store.UpdateObservedAccount(change.providerID, readBack.account, at);
      }
    }

    /** The end of the loop body: pacing, writing and reading back. */
    method WriteChange(c: Context, change: Change, instance: Instance, progress: Progress,
                       ghost r: RunState, ghost calls: seq<Call>, ghost audit: seq<AuditEntry>)
      returns (after: Progress, ghost write: WriteResult, ghost readBack: ReadResult, ghost at: int)
      requires change.providerID in c.instances && c.instances[change.providerID] == instance
      requires progress == Progress(r.report, r.stopped, r.pacers) && Shows(r, calls, audit)
      modifies store`accounts, store`audit, services
      ensures forall turn: Turn | turn.write == write && turn.readBack == readBack && turn.at == at ::
                var s := WriteStep(c, r, change, turn);
                after == Progress(s.report, s.stopped, s.pacers) && Shows(s, calls, audit)
    {
      write, readBack, at := WriteDone, ReadFailed, 0;
      var Progress(report, stopped, pacers) := progress;
      var p := change.providerID;
      var pace := if p in pacers then pacers[p] else NewPacer(instance);
      if !pace.Allows() {
        store.RecordChange(change, Skipped);
        return Progress(report.(throttled := true), stopped + {p}, pacers[p := pace]), write, readBack, at;
      }
      pacers := pacers[p := pace.Spend()];
      var result := services.SetQuota(change.Account(), change.to);
      write := result;
      match result {
        case WriteThrottled =>
          report, stopped := report.(throttled := true), stopped + {p};
          store.RecordChange(change, Skipped);
        case WriteRefused =>
          report := report.(failed := report.failed + 1, errors := report.errors + [WriteFailed(change.Account())]);
          stopped := stopped + {p};
          store.RecordChange(change, Failed);
        case WriteDone =>
          report := report.(applied := report.applied + 1);
          store.RecordChange(change, Applied);
          var now: int := *;
          var answer := RefreshAfterWrite(change, now);
          readBack, at := answer, now;
      }
      after := Progress(report, stopped, pacers);
    }

    /** The loop body of Apply: one change, from the lookup of its provider to the audit entry. */
    method ApplyChange(c: Context, change: Change, progress: Progress,
                       ghost before: RunState, ghost calls: seq<Call>, ghost audit: seq<AuditEntry>)
      returns (after: Progress, ghost turn: Turn)
      requires progress == Progress(before.report, before.stopped, before.pacers) && Shows(before, calls, audit)
      modifies store`accounts, store`audit, services
      ensures var s := Step(c, before, change, turn);
              after == Progress(s.report, s.stopped, s.pacers) && Shows(s, calls, audit)
    {
      turn := Turn(ReadFailed, WriteDone, ReadFailed, 0);
      var Progress(report, stopped, pacers) := progress;
      var p := change.providerID;
      if p !in c.instances {
        return progress.(report := report.(skipped := report.skipped + 1)), turn;
      }
      var instance := c.instances[p];
      if p in stopped || instance.degraded {
        store.RecordChange(change, Skipped);
        return progress.(report := report.(skipped := report.skipped + 1)), turn;
      }
      var answer := services.GetAccount(change.Account(), false);
      turn := turn.(reread := answer);
      var now := Recheck(change, answer);
      if now.NotNow? {
        store.RecordChange(change, Failed);
        return Progress(report.(failed := report.failed + 1, errors := report.errors + [now.error]),
                        stopped + {p}, pacers), turn;
      }
      if now.class_ != change.class_ {
        store.RecordChange(change, Refused);
        return progress.(report := report.(moved := report.moved + 1)), turn;
      }
      if now.account.quota == change.to {
        return progress, turn;
      }
      if c.opts.dryRun {
        return progress.(report := report.(applied := report.applied + 1)), turn;
      }
      ghost var r := before.(calls := before.calls + [Reread(change.Account(), answer)]);
      ghost var write, readBack, at;
      after, write, readBack, at := WriteChange(c, change, instance, progress, r, calls, audit);
      turn := Turn(answer, write, readBack, at);
    }

    /** The loop of notifyOutcome over the changes a run refuses. */
    method LookUpGuarded(changes: seq<Change>, consent: bool)
      returns (keys: seq<string>, news: seq<string>, ghost lookups: seq<Lookup>)
      modifies store`notified
      ensures keys == KeysOf(lookups) == GuardedKeys(changes, consent)
      ensures LookUp(old(store.notified), lookups) == (store.notified, news)
    {
      keys, news, lookups := [], [], [];
      for i := 0 to |changes|
        invariant keys == KeysOf(lookups) == GuardedKeys(changes[..i], consent)
        invariant LookUp(old(store.notified), lookups) == (store.notified, news)
      {
        assert changes[..i + 1][..i] == changes[..i];
        var change := changes[i];
        if change.class_.Safe? || (change.class_.ShrinkBelowUsage? && consent) {
          continue;
        }
        var key := GuardKey(change);
        ghost var lookup;
        var first;
        first, lookup := store.SeenGuardedChange(key);
        assert (lookups + [lookup])[..|lookups|] == lookups;
        lookups, keys := lookups + [lookup], keys + [key];
        if first {
          news := news + [key];
        }
      }
      assert changes[..|changes|] == changes;
    }

    /** Looks every refused change up in the table of notified changes, forgets those that are gone, and
        reports a failed run and the refused changes that are new. A dry run, or an engine with nobody to
        notify, leaves the table alone. */
    method NotifyOutcome(plan: Plan, report: Report, opts: Options) returns (sent: seq<Notice>, ghost lookups: seq<Lookup>)
      modifies store`notified
      ensures opts.dryRun || !notifying ==> sent == [] && store.notified == old(store.notified)
      ensures !opts.dryRun && notifying ==>
                KeysOf(lookups) == GuardedKeys(plan.changes, opts.consentShrink) &&
                var (table, news) := NotifyCall(old(store.notified), lookups);
                store.notified == table && sent == NoticesFor(report, news)
    {
      sent, lookups := [], [];
      if opts.dryRun || !notifying {
        return;
      }
      if report.failed > 0 || |report.errors| > 0 {
        sent := [FailureNotice(|report.errors|)];
      }
      var keys, news;
      keys, news, lookups := LookUpGuarded(plan.changes, opts.consentShrink);
      store.ForgetGuardedChanges(keys);
      if |news| > 0 {
        sent := sent + [GuardedNotice(news)];
      }
    }

    /** Counts and records what the classes of a plan refuse, before anything is attempted. */
    method RefuseByClass(changes: seq<Change>, consent: bool) returns (report: Report)
      modifies store`audit
      ensures var s := Begin(changes, consent, store.accounts);
              report == s.report && store.audit == old(store.audit) + s.audit
    {
      report := Report(0, 0, 0, 0, 0, 0, false, []);
      for i := 0 to |changes|
        invariant var s := Begin(changes[..i], consent, store.accounts);
                  report == s.report && store.audit == old(store.audit) + s.audit
      {
        assert changes[..i + 1][..i] == changes[..i];
        var change := changes[i];
        match change.class_ {
          case UnknownState =>
            report := report.(unknown := report.unknown + 1);
            store.RecordChange(change, Refused);
          case ShrinkBelowUsage =>
            if !consent {
              report := report.(guarded := report.guarded + 1);
              store.RecordChange(change, Refused);
            }
          case Safe =>
        }
      }
      assert changes[..|changes|] == changes;
    }

    /** The main loop of Apply. */
    method ApplyAll(c: Context, changes: seq<Change>, report: Report,
                    ghost begun: RunState, ghost calls: seq<Call>, ghost audit: seq<AuditEntry>)
      returns (after: Report, ghost turns: seq<Turn>)
      requires Progress(report, {}, map[]) == Progress(begun.report, begun.stopped, begun.pacers)
      requires Shows(begun, calls, audit)
      modifies store`accounts, store`audit, services
      ensures |turns| == |changes|
      ensures var s := Run(c, begun, changes, turns); after == s.report && Shows(s, calls, audit)
    {
      var progress := Progress(report, {}, map[]);
      ghost var s := begun;
      turns := [];
      for i := 0 to |changes|
        invariant |turns| == i
        invariant s == Run(c, begun, changes[..i], turns)
        invariant progress == Progress(s.report, s.stopped, s.pacers) && Shows(s, calls, audit)
      {
        ghost var turn;
        progress, turn := ApplyChange(c, changes[i], progress, s, calls, audit);
        assert changes[..i + 1][..i] == changes[..i] && (turns + [turn])[..i] == turns;
        s, turns := Step(c, s, changes[i], turn), turns + [turn];
      }
      assert changes[..|changes|] == changes;
      after := progress.report;
    }

    /** Applies a plan. Whatever the services answer, the report, the stored accounts, the calls made
        and the audit log are those of the run that those answers determine; and then the refused
        changes are looked up. */
    method Apply(instances: seq<Instance>, plan: Plan, opts: Options)
      returns (report: Report, sent: seq<Notice>, ghost turns: seq<Turn>, ghost lookups: seq<Lookup>)
      modifies store`accounts, store`audit, store`notified, services
      ensures |turns| == |ApplicableTo(plan.changes, opts.consentShrink)|
      ensures var s := WholeRun(instances, plan, opts, old(store.accounts), turns);
              report == s.report && Shows(s, old(services.calls), old(store.audit))
      ensures opts.dryRun || !notifying ==> sent == [] && store.notified == old(store.notified)
      ensures !opts.dryRun && notifying ==>
                KeysOf(lookups) == GuardedKeys(plan.changes, opts.consentShrink) &&
                var (table, news) := NotifyCall(old(store.notified), lookups);
                store.notified == table && sent == NoticesFor(report, news)
    {
      ghost var calls, audit := services.calls, store.audit;
      var byProvider := IndexByID(instances);
      report := RefuseByClass(plan.changes, opts.consentShrink);
      ghost var begun := Begin(plan.changes, opts.consentShrink, store.accounts);
      BeginIsQuiet(plan.changes, opts.consentShrink, store.accounts);
      var changes := Applicable(plan, opts.consentShrink);
      report, turns := ApplyAll(Context(byProvider, opts), changes, report, begun, calls, audit);
      sent, lookups := NotifyOutcome(plan, report, opts);
    }
  }
}
