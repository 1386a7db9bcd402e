/** Plan, apply, plan again (internal/reconcile/apply.go, internal/reconcile/plan.go, internal/core/plan.go). */
module Converging {
  import opened Model
  import opened Adapters
  import opened Resolving
  import opened Plans
  import opened Applying
  import opened Guardrails
  import opened Planning

  /** The accounts as the services hold them. */
  type Server = map<Key, Account>

  // ----- a faithful service

  /** The change is written: it passes every check and the service does not refuse it. */
  predicate Landed(c: Context, s: RunState, change: Change, turn: Turn) {
    var p := change.providerID;
    && p in c.instances && p !in s.stopped && !c.instances[p].degraded
    && (var now := Recheck(change, turn.reread);
        now.Now? && now.class_ == change.class_ && now.account.quota != change.to)
    && !c.opts.dryRun
    && PacerOf(c, s, p).Allows()
    && turn.write.WriteDone?
  }

  /** The services keep the normalised quota of a write that is not refused, and nothing else changes. */
  function Kept(c: Context, s: RunState, server: Server, change: Change, turn: Turn): Server {
    var key := change.Account();
    if Landed(c, s, change, turn) && key in server
    then server[key := server[key].(quota := NormalizeQuota(c.instances[change.providerID].adapter, change.to))]
    else server
  }

  function ServerAfter(c: Context, s: RunState, server: Server, changes: seq<Change>, turns: seq<Turn>): Server
    requires |changes| == |turns|
  {
    if changes == [] then server
    else
      var n := |changes| - 1;
      Kept(c, Run(c, s, changes[..n], turns[..n]), ServerAfter(c, s, server, changes[..n], turns[..n]), changes[n], turns[n])
  }

  /** The step asks the service at all. */
  predicate Asked(c: Context, s: RunState, change: Change) {
    var p := change.providerID;
    p in c.instances && p !in s.stopped && !c.instances[p].degraded
  }

  /** A re-read that is made fails or tells the truth, and so does the read-back after a write. Writes may
      be refused or throttled at any point. */
  predicate Honest(c: Context, s: RunState, server: Server, change: Change, turn: Turn) {
    var key := change.Account();
    && (Asked(c, s, change) && turn.reread.ReadOk? ==> key in server && turn.reread == ReadOk(server[key]))
    && (Landed(c, s, change, turn) && turn.readBack.ReadOk? ==>
          key in server && turn.readBack == ReadOk(Kept(c, s, server, change, turn)[key]))
  }

  predicate Faithful(c: Context, s: RunState, server: Server, changes: seq<Change>, turns: seq<Turn>)
    requires |changes| == |turns|
  {
    changes == [] ||
    var n := |changes| - 1;
    && Faithful(c, s, server, changes[..n], turns[..n])
    && Honest(c, Run(c, s, changes[..n], turns[..n]), ServerAfter(c, s, server, changes[..n], turns[..n]),
              changes[n], turns[n])
  }

  /** The accounts a run wrote to with success. */
  function WrittenIn(calls: seq<Call>): set<Key> {
    set i | 0 <= i < |calls| && calls[i].Write? && calls[i].result.WriteDone? :: calls[i].account
  }

  /** The accounts a run wrote to and could not read back. */
  function LostIn(calls: seq<Call>): set<Key> {
    set i | 0 <= i < |calls| && calls[i].ReadBack? && calls[i].answer.ReadFailed? :: calls[i].account
  }

  predicate DistinctAccounts(changes: seq<Change>) {
    forall i, j | 0 <= i < j < |changes| :: changes[i].Account() != changes[j].Account()
  }

  /** The stored row of a change shows what the service holds, the store would accept it again, and the
      target is what the service would keep. */
  predicate Mirrored(c: Context, accounts: map<Key, Row>, server: Server, change: Change) {
    var key := change.Account();
    && key in accounts && key in server
    && accounts[key].account == server[key]
    && server[key].Storable() && server[key].externalID == change.externalID
    && change.to.Valid()
    && (change.providerID in c.instances ==>
          NormalizeQuota(c.instances[change.providerID].adapter, change.to) == change.to)
  }

  // ----- one step

  lemma StepEffect(c: Context, s: RunState, change: Change, turn: Turn)
    ensures var t := Step(c, s, change, turn);
            if Landed(c, s, change, turn) then
              t.accounts == AfterWrite(s.accounts, change, turn) &&
              t.calls == s.calls + [Reread(change.Account(), turn.reread)]
                                 + [Write(change.Account(), change.to, WriteDone)]
                                 + [ReadBack(change.Account(), turn.readBack)]
            else
              t.accounts == s.accounts && WrittenIn(t.calls) == WrittenIn(s.calls) && LostIn(t.calls) == LostIn(s.calls)
  {
    var t := Step(c, s, change, turn);
    if !Landed(c, s, change, turn) {
      QuietCalls(s.calls, t.calls);
    }
  }

  /** Calls that neither write with success nor read back leave both sets alone. */
  lemma QuietCalls(before: seq<Call>, after: seq<Call>)
    requires before <= after
    requires forall i | |before| <= i < |after| :: !(after[i].Write? && after[i].result.WriteDone?) && !after[i].ReadBack?
    ensures WrittenIn(after) == WrittenIn(before) && LostIn(after) == LostIn(before)
  {
    assert forall i | 0 <= i < |before| :: after[i] == before[i];
  }

  // ----- a whole run

  function AccountsOf(changes: seq<Change>): set<Key> {
    set x | x in changes :: x.Account()
  }

  lemma AccountsAppend(changes: seq<Change>, change: Change)
    ensures AccountsOf(changes + [change]) == AccountsOf(changes) + {change.Account()}
  {
    assert forall x :: x in changes + [change] <==> x in changes || x == change;
  }

  /** Written accounts hold what their change asked for: on the service, and in the store unless the
      read-back failed, which leaves the old row marked as unknown. All others are as before. */
  ghost predicate Tracks(accounts: map<Key, Row>, server: Server, changes: seq<Change>, s: RunState, now: Server) {
    var written, lost := WrittenIn(s.calls), LostIn(s.calls);
    && s.accounts.Keys == accounts.Keys && now.Keys == server.Keys
    && lost <= written <= AccountsOf(changes)
    && (forall k | k in accounts && k !in written :: s.accounts[k] == accounts[k])
    && (forall k | k in server && k !in written :: now[k] == server[k])
    && (forall x | x in changes && x.Account() in written ::
          HoldsTarget(server, x, now) && Shown(accounts, x, s.accounts, now, x.Account() in lost))
  }

  predicate HoldsTarget(server: Server, x: Change, now: Server) {
    var k := x.Account();
    && k in server && k in now
    && now[k] == server[k].(quota := x.to)
    && server[k].used.IsKnown() && x.to.IsKnown()
  }

  /** The row of a written account: what the service holds, or the old one, no longer trusted. */
  predicate Shown(accounts: map<Key, Row>, x: Change, stored: map<Key, Row>, now: Server, lost: bool) {
    var k := x.Account();
    && k in accounts && k in stored && k in now
    && if lost then stored[k] == accounts[k].(observeOK := false) else stored[k].account == now[k] && stored[k].observeOK
  }

  lemma WrittenAppend(calls: seq<Call>, call: Call)
    ensures WrittenIn(calls + [call]) ==
            WrittenIn(calls) + if call.Write? && call.result.WriteDone? then {call.account} else {}
  {
    var after := calls + [call];
    forall k | k in WrittenIn(calls) ensures k in WrittenIn(after) {
      var i :| 0 <= i < |calls| && calls[i].Write? && calls[i].result.WriteDone? && calls[i].account == k;
      assert after[i] == calls[i];
    }
    assert after[|calls|] == call;
  }

  lemma LostAppend(calls: seq<Call>, call: Call)
    ensures LostIn(calls + [call]) ==
            LostIn(calls) + if call.ReadBack? && call.answer.ReadFailed? then {call.account} else {}
  {
    var after := calls + [call];
    forall k | k in LostIn(calls) ensures k in LostIn(after) {
      var i :| 0 <= i < |calls| && calls[i].ReadBack? && calls[i].answer.ReadFailed? && calls[i].account == k;
      assert after[i] == calls[i];
    }
    assert after[|calls|] == call;
  }

  lemma LandedWrites(c: Context, s: RunState, change: Change, turn: Turn)
    requires Landed(c, s, change, turn)
    ensures WrittenIn(Step(c, s, change, turn).calls) == WrittenIn(s.calls) + {change.Account()}
    ensures LostIn(Step(c, s, change, turn).calls) ==
            LostIn(s.calls) + if turn.readBack.ReadFailed? then {change.Account()} else {}
  {
    var key := change.Account();
    var reread, write, readBack := Reread(key, turn.reread), Write(key, change.to, WriteDone), ReadBack(key, turn.readBack);
    StepEffect(c, s, change, turn);
    WrittenAppend(s.calls, reread);
    WrittenAppend(s.calls + [reread], write);
    WrittenAppend(s.calls + [reread] + [write], readBack);
    LostAppend(s.calls, reread);
    LostAppend(s.calls + [reread], write);
    LostAppend(s.calls + [reread] + [write], readBack);
  }

  /** A write that lands on an account not written before leaves its target on the service, and a row
      that shows it or is no longer trusted. */
  lemma LandedHoldsTarget(
    c: Context, accounts: map<Key, Row>, server: Server, s: RunState, now: Server, change: Change, turn: Turn)
    requires Landed(c, s, change, turn) && Honest(c, s, now, change, turn)
    requires Allowed(change, c.opts.consentShrink) && Mirrored(c, accounts, server, change)
    requires change.Account() in s.accounts && s.accounts[change.Account()] == accounts[change.Account()]
    requires change.Account() in now && now[change.Account()] == server[change.Account()]
    ensures var t, later := Step(c, s, change, turn), Kept(c, s, now, change, turn);
            && HoldsTarget(server, change, later)
            && Shown(accounts, change, t.accounts, later, turn.readBack.ReadFailed?)
            && t.accounts == s.accounts[change.Account() := t.accounts[change.Account()]]
  {
    StepEffect(c, s, change, turn);
    RecheckGuards(change, turn.reread, c.opts.consentShrink);
  }

  lemma TracksSame(accounts: map<Key, Row>, server: Server, changes: seq<Change>, change: Change,
                   s: RunState, now: Server, t: RunState)
    requires Tracks(accounts, server, changes, s, now)
    requires change.Account() !in AccountsOf(changes)
    requires t.accounts == s.accounts && WrittenIn(t.calls) == WrittenIn(s.calls) && LostIn(t.calls) == LostIn(s.calls)
    ensures Tracks(accounts, server, changes + [change], t, now)
  {
    AccountsAppend(changes, change);
  }

  lemma TracksMore(accounts: map<Key, Row>, server: Server, changes: seq<Change>, change: Change,
                   s: RunState, now: Server, t: RunState, later: Server, row: Row, account: Account, lost: bool)
    requires Tracks(accounts, server, changes, s, now)
    requires change.Account() !in AccountsOf(changes)
    requires HoldsTarget(server, change, later) && Shown(accounts, change, t.accounts, later, lost)
    requires change.Account() in s.accounts && t.accounts == s.accounts[change.Account() := row]
    requires change.Account() in now && later == now[change.Account() := account]
    requires WrittenIn(t.calls) == WrittenIn(s.calls) + {change.Account()}
    requires LostIn(t.calls) == LostIn(s.calls) + if lost then {change.Account()} else {}
    ensures Tracks(accounts, server, changes + [change], t, later)
  {
    AccountsAppend(changes, change);
    forall x | x in changes && x.Account() in WrittenIn(t.calls)
      ensures HoldsTarget(server, x, later) && Shown(accounts, x, t.accounts, later, x.Account() in LostIn(t.calls))
    {
      assert x.Account() in AccountsOf(changes);
      assert HoldsTarget(server, x, now);
    }
  }

  lemma StepTracks(c: Context, accounts: map<Key, Row>, server: Server, changes: seq<Change>,
                   s: RunState, now: Server, change: Change, turn: Turn)
    requires Tracks(accounts, server, changes, s, now)
    requires Allowed(change, c.opts.consentShrink) && Mirrored(c, accounts, server, change)
    requires Honest(c, s, now, change, turn)
    requires change.Account() !in AccountsOf(changes)
    ensures Tracks(accounts, server, changes + [change], Step(c, s, change, turn), Kept(c, s, now, change, turn))
  {
    var t, later := Step(c, s, change, turn), Kept(c, s, now, change, turn);
    var key := change.Account();
    if Landed(c, s, change, turn) {
      LandedWrites(c, s, change, turn);
      assert now[key] == server[key] && s.accounts[key] == accounts[key];
      LandedHoldsTarget(c, accounts, server, s, now, change, turn);
      TracksMore(accounts, server, changes, change, s, now, t, later, t.accounts[key], later[key], turn.readBack.ReadFailed?);
    } else {
      StepEffect(c, s, change, turn);
      TracksSame(accounts, server, changes, change, s, now, t);
    }
  }

  /** The changes of a run: allowed, about different accounts, and mirrored by the services. */
  ghost predicate Ready(c: Context, accounts: map<Key, Row>, server: Server, changes: seq<Change>) {
    && DistinctAccounts(changes)
    && forall x | x in changes :: Allowed(x, c.opts.consentShrink) && Mirrored(c, accounts, server, x)
  }

  lemma ReadyFront(c: Context, accounts: map<Key, Row>, server: Server, changes: seq<Change>)
    requires Ready(c, accounts, server, changes) && changes != []
    ensures var n := |changes| - 1;
            && Ready(c, accounts, server, changes[..n])
            && changes[n].Account() !in AccountsOf(changes[..n])
            && Allowed(changes[n], c.opts.consentShrink) && Mirrored(c, accounts, server, changes[n])
            && changes == changes[..n] + [changes[n]]
  {
    var n := |changes| - 1;
    assert changes[n] in changes && forall x | x in changes[..n] :: x in changes;
  }

  /** One more change, after a front that tracks. */
  lemma RunTracksMore(c: Context, accounts: map<Key, Row>, server: Server, front: seq<Change>, s: RunState, now: Server,
                      changes: seq<Change>, turn: Turn)
    requires changes != [] && front == changes[..|changes| - 1] && Ready(c, accounts, server, changes)
    requires Tracks(accounts, server, front, s, now) && Honest(c, s, now, changes[|changes| - 1], turn)
    ensures var x := changes[|changes| - 1];
            Tracks(accounts, server, changes, Step(c, s, x, turn), Kept(c, s, now, x, turn))
  {
    ReadyFront(c, accounts, server, changes);
    StepTracks(c, accounts, server, front, s, now, changes[|changes| - 1], turn);
  }

  lemma RunUnfolds(c: Context, s: RunState, server: Server, changes: seq<Change>, turns: seq<Turn>)
    requires |changes| == |turns| && changes != []
    ensures var n := |changes| - 1;
            var r, now := Run(c, s, changes[..n], turns[..n]), ServerAfter(c, s, server, changes[..n], turns[..n]);
            && Run(c, s, changes, turns) == Step(c, r, changes[n], turns[n])
            && ServerAfter(c, s, server, changes, turns) == Kept(c, r, now, changes[n], turns[n])
            && (Faithful(c, s, server, changes, turns) ==>
                  Faithful(c, s, server, changes[..n], turns[..n]) && Honest(c, r, now, changes[n], turns[n]))
  {
  }

  lemma {:induction false} RunTracks(
    c: Context, s: RunState, server: Server, changes: seq<Change>, turns: seq<Turn>)
    requires |changes| == |turns| && s.calls == []
    requires Ready(c, s.accounts, server, changes)
    requires Faithful(c, s, server, changes, turns)
    ensures Tracks(s.accounts, server, changes, Run(c, s, changes, turns), ServerAfter(c, s, server, changes, turns))
  {
    if changes != [] {
      var n := |changes| - 1;
      RunUnfolds(c, s, server, changes, turns);
      ReadyFront(c, s.accounts, server, changes);
      RunTracks(c, s, server, changes[..n], turns[..n]);
      var r, now := Run(c, s, changes[..n], turns[..n]), ServerAfter(c, s, server, changes[..n], turns[..n]);
      RunTracksMore(c, s.accounts, server, changes[..n], r, now, changes, turns[n]);
    }
  }

  // ----- the plan before and after

  /** Overrides are instructions the store accepted: known and valid. */
  predicate SoundPolicy(w: World) {
    forall id, p | id in w.userPolicies && p in w.userPolicies[id].overrides ::
      w.userPolicies[id].overrides[p].Valid() && w.userPolicies[id].overrides[p].IsKnown()
  }

  predicate DistinctLinks(links: seq<Link>) {
    forall i, j | 0 <= i < j < |links| :: links[i].Account() != links[j].Account()
  }

  predicate WellStored(accounts: map<Key, Row>) {
    forall k | k in accounts :: accounts[k].account.Storable() && accounts[k].account.externalID == k.externalID
  }

  /** What was read successfully is what the services hold. */
  predicate Mirrors(accounts: map<Key, Row>, server: Server) {
    forall k | k in accounts && accounts[k].observeOK :: k in server && server[k] == accounts[k].account
  }

  lemma ResolvedValid(user: User, p: int, w: World)
    requires SoundPolicy(w)
    ensures var r := Resolved(user, p, w.policy, PolicyOf(w, user.id)); r.present ==> r.ceiling.Valid() && r.ceiling.IsKnown()
  {
    var up := PolicyOf(w, user.id);
    if p !in up.overrides {
      ResolvedIsMaximum(user, p, w.policy, up);
      var r := Resolved(user, p, w.policy, up);
      if r.present {
        var c :| c in Candidates(user, w.policy, up).0 && Supplies(w.policy, p, c, r);
      }
    }
  }

  /** A difference whose state is trusted mirrors the service, and asks for what the service keeps. */
  lemma DifferenceMirrored(w: World, accounts: map<Key, Row>, server: Server, link: Link, c: Context, x: Change)
    requires SoundPolicy(w) && WellStored(accounts) && Mirrors(accounts, server)
    requires x in DifferenceFor(w, accounts, link) && !x.class_.UnknownState?
    requires c.instances == IndexInstances(w.instances)
    ensures x.Account() == link.Account() && Mirrored(c, accounts, server, x) && x.to.IsKnown()
    ensures x.providerID in c.instances
    ensures SeenNow(x, server[x.Account()]) == PairOf(w, accounts, link)[0] && x.class_ == Classify(PairOf(w, accounts, link)[0])
    ensures x.from == server[x.Account()].quota != x.to
  {
    var user, instance := IndexUsers(w.users)[link.userID], IndexInstances(w.instances)[link.providerID];
    var r := Resolved(user, link.providerID, w.policy, PolicyOf(w, user.id));
    ResolvedValid(user, link.providerID, w);
    if r.present {
      NormalizeQuotaStable(instance.adapter, r.ceiling);
    }
  }

  lemma {:induction false} WantedFromLink(w: World, accounts: map<Key, Row>, links: seq<Link>, x: Change) returns (link: Link)
    requires x in Wanted(w, accounts, links)
    ensures link in links && x in DifferenceFor(w, accounts, link) && x.Account() == link.Account()
  {
    var n := |links| - 1;
    link := links[n];
    if x !in DifferenceFor(w, accounts, link) {
      link := WantedFromLink(w, accounts, links[..n], x);
    }
  }

  lemma {:induction false} WantedDistinct(w: World, accounts: map<Key, Row>, links: seq<Link>)
    requires DistinctLinks(links)
    ensures DistinctAccounts(Wanted(w, accounts, links))
  {
    if links != [] {
      var n := |links| - 1;
      WantedDistinct(w, accounts, links[..n]);
      var front, last := Wanted(w, accounts, links[..n]), DifferenceFor(w, accounts, links[n]);
      forall i | 0 <= i < |front| ensures front[i].Account() != links[n].Account() {
        var link := WantedFromLink(w, accounts, links[..n], front[i]);
        var j :| 0 <= j < n && links[j] == link;
      }
      OneDifference(w, accounts, links[n]);
      DistinctAppend(front, last, links[n].Account());
    }
  }

  lemma OneDifference(w: World, accounts: map<Key, Row>, link: Link)
    ensures |DifferenceFor(w, accounts, link)| <= 1
    ensures forall x | x in DifferenceFor(w, accounts, link) :: x.Account() == link.Account()
  {
  }

  lemma DistinctAppend(front: seq<Change>, last: seq<Change>, k: Key)
    requires DistinctAccounts(front) && |last| <= 1 && forall x | x in last :: x.Account() == k
    requires forall i | 0 <= i < |front| :: front[i].Account() != k
    ensures DistinctAccounts(front + last)
  {
  }

  /** The changes about accounts outside a set. */
  function Remaining(changes: seq<Change>, written: set<Key>): seq<Change> {
    if changes == [] then []
    else
      var x := changes[|changes| - 1];
      Remaining(changes[..|changes| - 1], written) + if x.Account() in written then [] else [x]
  }

  /** One change after a run: gone if its write was read back, in unknown state if the read-back failed,
      and as it was otherwise. */
  function Revision(x: Change, written: set<Key>, lost: set<Key>): seq<Change> {
    if x.Account() in lost then [x.(class_ := UnknownState)] else if x.Account() in written then [] else [x]
  }

  function Revised(changes: seq<Change>, written: set<Key>, lost: set<Key>): seq<Change> {
    if changes == [] then []
    else Revised(changes[..|changes| - 1], written, lost) + Revision(changes[|changes| - 1], written, lost)
  }

  lemma RevisedOneMore(a: seq<Change>, x: Change, written: set<Key>, lost: set<Key>)
    ensures Revised(a + [x], written, lost) == Revised(a, written, lost) + Revision(x, written, lost)
  {
    assert (a + [x])[..|a|] == a;
  }

  lemma Associative(a: seq<Change>, b: seq<Change>, c: seq<Change>)
    ensures (a + b) + c == a + (b + c)
  {
  }

  lemma {:induction false} RevisedAppend(a: seq<Change>, b: seq<Change>, written: set<Key>, lost: set<Key>)
    ensures Revised(a + b, written, lost) == Revised(a, written, lost) + Revised(b, written, lost)
  {
    if b == [] {
      assert a + b == a;
    } else {
      var front, x := b[..|b| - 1], b[|b| - 1];
      RevisedAppend(a, front, written, lost);
      Associative(a, front, [x]);
      assert b == front + [x];
      RevisedOneMore(a + front, x, written, lost);
      RevisedOneMore(front, x, written, lost);
      Associative(Revised(a, written, lost), Revised(front, written, lost), Revision(x, written, lost));
    }
  }

  /** Without a failed read-back what remains is exactly what was not written. */
  lemma {:induction false} RevisedWithoutLoss(changes: seq<Change>, written: set<Key>)
    ensures Revised(changes, written, {}) == Remaining(changes, written)
  {
    if changes != [] {
      RevisedWithoutLoss(changes[..|changes| - 1], written);
    }
  }

  /** The accounts of one link after a run: nothing is wanted where the run wrote and read back, an
      unknown state where the read-back failed, and the same as before elsewhere. */
  lemma DifferenceAfter(w: World, accounts: map<Key, Row>, after: map<Key, Row>, server: Server, now: Server,
                        link: Link, written: set<Key>, lost: set<Key>, x: Change)
    requires accounts.Keys == after.Keys && lost <= written
    requires link.Account() in accounts && link.Account() !in written ==> after[link.Account()] == accounts[link.Account()]
    requires link.Account() in written ==>
               && x in DifferenceFor(w, accounts, link) && x.Account() == link.Account()
               && HoldsTarget(server, x, now) && Shown(accounts, x, after, now, link.Account() in lost)
    ensures DifferenceFor(w, after, link) == Revised(DifferenceFor(w, accounts, link), written, lost)
  {
    var before := DifferenceFor(w, accounts, link);
    OneDifference(w, accounts, link);
    if before != [] {
      assert before == [before[0]] && before[..0] == [];
    }
  }

  function Flat(pieces: seq<seq<Change>>): seq<Change> {
    if pieces == [] then [] else Flat(pieces[..|pieces| - 1]) + pieces[|pieces| - 1]
  }

  lemma {:induction false} FlatRevised(before: seq<seq<Change>>, after: seq<seq<Change>>, written: set<Key>, lost: set<Key>)
    requires |before| == |after| && forall i | 0 <= i < |before| :: after[i] == Revised(before[i], written, lost)
    ensures Flat(after) == Revised(Flat(before), written, lost)
  {
    if before != [] {
      var n := |before| - 1;
      FlatRevised(before[..n], after[..n], written, lost);
      RevisedAppend(Flat(before[..n]), before[n], written, lost);
    }
  }

  lemma {:induction false} WantedIsFlat(w: World, accounts: map<Key, Row>, links: seq<Link>, pieces: seq<seq<Change>>)
    requires |pieces| == |links| && forall i | 0 <= i < |links| :: pieces[i] == DifferenceFor(w, accounts, links[i])
    ensures Wanted(w, accounts, links) == Flat(pieces)
  {
    if links != [] {
      WantedIsFlat(w, accounts, links[..|links| - 1], pieces[..|links| - 1]);
    }
  }

  lemma WantedAfter(w: World, accounts: map<Key, Row>, after: map<Key, Row>, links: seq<Link>, written: set<Key>, lost: set<Key>)
    requires forall i | 0 <= i < |links| ::
               DifferenceFor(w, after, links[i]) == Revised(DifferenceFor(w, accounts, links[i]), written, lost)
    ensures Wanted(w, after, links) == Revised(Wanted(w, accounts, links), written, lost)
  {
    var before := seq(|links|, i requires 0 <= i < |links| => DifferenceFor(w, accounts, links[i]));
    var later := seq(|links|, i requires 0 <= i < |links| => DifferenceFor(w, after, links[i]));
    WantedIsFlat(w, accounts, links, before);
    WantedIsFlat(w, after, links, later);
    FlatRevised(before, later, written, lost);
  }

  // ----- plan, apply, plan again

  lemma {:induction false} AtMostOnce(b: seq<Change>, x: Change)
    requires DistinctAccounts(b)
    ensures multiset(b)[x] <= 1
  {
    if b != [] {
      var n := |b| - 1;
      AtMostOnce(b[..n], x);
      assert b == b[..n] + [b[n]];
    }
  }

  lemma TwiceThere(a: seq<Change>, i: nat, j: nat)
    requires i < j < |a| && a[i] == a[j]
    ensures multiset(a)[a[i]] >= 2
  {
    assert a == a[..j] + a[j..] && a[i] in a[..j] && a[j] in a[j..];
  }

  lemma DistinctTransfers(a: seq<Change>, b: seq<Change>)
    requires multiset(a) <= multiset(b) && DistinctAccounts(b)
    ensures DistinctAccounts(a)
  {
    forall i, j | 0 <= i < j < |a| ensures a[i].Account() != a[j].Account() {
      assert a[i] in multiset(a) && a[j] in multiset(a);
      assert a[i] in b && a[j] in b;
      if a[i] == a[j] {
        TwiceThere(a, i, j);
        AtMostOnce(b, a[i]);
      }
    }
  }

  /** A world, the stored accounts, what the services hold, and a plan made from the first two. */
  ghost predicate Observed(w: World, accounts: map<Key, Row>, server: Server, plan: Plan) {
    && SoundPolicy(w) && DistinctLinks(w.links)
    && WellStored(accounts) && Mirrors(accounts, server)
    && multiset(plan.changes) == multiset(Wanted(w, accounts, w.links))
  }

  lemma ApplicableWithin(changes: seq<Change>, consent: bool, wanted: seq<Change>)
    requires multiset(changes) == multiset(wanted)
    ensures multiset(ApplicableTo(changes, consent)) <= multiset(wanted)
  {
    forall x: Change ensures multiset(ApplicableTo(changes, consent))[x] <= multiset(wanted)[x] {
      ApplicableExactly(changes, consent, x);
    }
  }

  lemma WantedMirrored(w: World, accounts: map<Key, Row>, server: Server, plan: Plan, c: Context, x: Change)
    requires Observed(w, accounts, server, plan) && c.instances == IndexInstances(w.instances)
    requires x in Wanted(w, accounts, w.links) && !x.class_.UnknownState?
    ensures Mirrored(c, accounts, server, x)
  {
    var link := WantedFromLink(w, accounts, w.links, x);
    DifferenceMirrored(w, accounts, server, link, c, x);
  }

  lemma ApplicableReady(w: World, accounts: map<Key, Row>, server: Server, plan: Plan, opts: Options)
    requires Observed(w, accounts, server, plan)
    ensures Ready(Context(IndexInstances(w.instances), opts), accounts, server, ApplicableTo(plan.changes, opts.consentShrink))
    ensures multiset(ApplicableTo(plan.changes, opts.consentShrink)) <= multiset(Wanted(w, accounts, w.links))
  {
    var c := Context(IndexInstances(w.instances), opts);
    var changes := ApplicableTo(plan.changes, opts.consentShrink);
    ApplicableAllowed(plan.changes, opts.consentShrink);
    ApplicableWithin(plan.changes, opts.consentShrink, Wanted(w, accounts, w.links));
    WantedDistinct(w, accounts, w.links);
    DistinctTransfers(changes, Wanted(w, accounts, w.links));
    forall x | x in changes ensures Mirrored(c, accounts, server, x) {
      assert x in multiset(changes);
      WantedMirrored(w, accounts, server, plan, c, x);
    }
  }

  lemma SameLink(links: seq<Link>, a: Link, b: Link)
    requires DistinctLinks(links) && a in links && b in links && a.Account() == b.Account()
    ensures a == b
  {
  }

  /** The change behind an account that was written is the difference of its link. */
  lemma WrittenIsWanted(w: World, accounts: map<Key, Row>, changes: seq<Change>, link: Link) returns (x: Change)
    requires DistinctLinks(w.links) && link in w.links
    requires multiset(changes) <= multiset(Wanted(w, accounts, w.links))
    requires link.Account() in AccountsOf(changes)
    ensures x in changes && x.Account() == link.Account() && x in DifferenceFor(w, accounts, link)
  {
    x :| x in changes && x.Account() == link.Account();
    assert x in multiset(changes);
    var other := WantedFromLink(w, accounts, w.links, x);
    SameLink(w.links, link, other);
  }

  /** What was stored and what the services hold after a run tell the same about every link. */
  lemma LinksAfter(w: World, accounts: map<Key, Row>, after: map<Key, Row>, server: Server, now: Server,
                   changes: seq<Change>, s: RunState)
    requires Tracks(accounts, server, changes, s, now) && after == s.accounts && DistinctLinks(w.links)
    requires multiset(changes) <= multiset(Wanted(w, accounts, w.links))
    ensures Wanted(w, after, w.links) == Revised(Wanted(w, accounts, w.links), WrittenIn(s.calls), LostIn(s.calls))
  {
    var written, lost := WrittenIn(s.calls), LostIn(s.calls);
    forall i | 0 <= i < |w.links|
      ensures DifferenceFor(w, after, w.links[i]) == Revised(DifferenceFor(w, accounts, w.links[i]), written, lost)
    {
      var link, x: Change := w.links[i], *;
      if link.Account() in written {
        x := WrittenIsWanted(w, accounts, changes, link);
      }
      DifferenceAfter(w, accounts, after, server, now, link, written, lost, x);
    }
    WantedAfter(w, accounts, after, w.links, written, lost);
  }

  /** On services that keep the normalised quota and tell the truth, the plan made after a run is the
      plan made before it without exactly the changes that were written and read back, and with those
      that were written and could not be read back as changes in unknown state; whatever reads failed,
      writes were refused or limits were reached. */
  lemma PlanApplyPlan(w: World, accounts: map<Key, Row>, server: Server, plan: Plan, opts: Options, turns: seq<Turn>)
    requires Observed(w, accounts, server, plan)
    requires var changes := ApplicableTo(plan.changes, opts.consentShrink);
             |turns| == |changes| &&
             Faithful(Context(IndexInstances(w.instances), opts), Begin(plan.changes, opts.consentShrink, accounts),
                      server, changes, turns)
    ensures var s := WholeRun(w.instances, plan, opts, accounts, turns);
            Wanted(w, s.accounts, w.links) == Revised(Wanted(w, accounts, w.links), WrittenIn(s.calls), LostIn(s.calls))
  {
    var c, begun := Context(IndexInstances(w.instances), opts), Begin(plan.changes, opts.consentShrink, accounts);
    var changes := ApplicableTo(plan.changes, opts.consentShrink);
    var s, now := WholeRun(w.instances, plan, opts, accounts, turns), ServerAfter(c, begun, server, changes, turns);
    BeginIsQuiet(plan.changes, opts.consentShrink, accounts);
    ApplicableReady(w, accounts, server, plan, opts);
    RunTracks(c, begun, server, changes, turns);
    LinksAfter(w, accounts, s.accounts, server, now, changes, s);
  }
}
