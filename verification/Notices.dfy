/** Which guarded changes an operator is told about (internal/reconcile/apply.go, internal/store/audit.go). */
module Notices {
  import opened Quotas
  import opened Sums
  import opened Text
  import opened Plans

  /** When a guarded change was first and last seen. */
  datatype Sighting = Sighting(firstSeen: int, lastSeen: int)

  type Table = map<string, Sighting>

  function Encode(q: Quota): string {
    match q
    case Unknown => "unknown"
    case Unlimited => "unlimited"
    case Bytes(n) => "bytes:" + Signed(n)
  }

  function Signed(n: int): string {
    if n < 0 then "-" + PrintNat(-n) else PrintNat(n)
  }

  function GuardKey(c: Change): string {
    c.uid + "/" + c.provider + "/" + Encode(c.from) + "/" + Encode(c.to)
  }

  /** The keys of the changes a run refuses on the strength of their class, in plan order. */
  function GuardedKeys(changes: seq<Change>, consent: bool): seq<string> {
    if changes == [] then []
    else
      var c := changes[|changes| - 1];
      GuardedKeys(changes[..|changes| - 1], consent) + if Allowed(c, consent) then [] else [GuardKey(c)]
  }

  // ----- the table

  function Sighted(table: Table, key: string, now: int): Table {
    table[key := Sighting(if key in table then table[key].firstSeen else now, now)]
  }

  /** The answer of SeenGuardedChange, read off the row it has just written. */
  predicate IsFirst(table: Table, key: string)
    requires key in table
  {
    table[key].firstSeen == table[key].lastSeen
  }

  function Kept(table: Table, keep: seq<string>): Table {
    map key | key in table && key in keep :: table[key]
  }

  /** One look-up in the table: a key, and the instant it happens. */
  datatype Lookup = Lookup(key: string, at: int)

  /** What a run of look-ups does: the table it leaves, and the keys it calls new. */
  function LookUp(table: Table, lookups: seq<Lookup>): (Table, seq<string>) {
    if lookups == [] then (table, [])
    else
      var n := |lookups| - 1;
      var (before, news) := LookUp(table, lookups[..n]);
      var after := Sighted(before, lookups[n].key, lookups[n].at);
      (after, if IsFirst(after, lookups[n].key) then news + [lookups[n].key] else news)
  }

  function KeysOf(lookups: seq<Lookup>): seq<string> {
    seq(|lookups|, i requires 0 <= i < |lookups| => lookups[i].key)
  }

  /** One whole call: every guarded key is looked up, and the keys that are gone are forgotten. */
  function NotifyCall(table: Table, lookups: seq<Lookup>): (Table, seq<string>) {
    var (after, news) := LookUp(table, lookups);
    (Kept(after, KeysOf(lookups)), news)
  }

  // ----- what it promises

  function LookedUp(lookups: seq<Lookup>): set<string> {
    set l | l in lookups :: l.key
  }

  /** Every row is older than this instant. */
  predicate TableBefore(table: Table, now: int) {
    forall key | key in table :: table[key].firstSeen < now
  }

  predicate LookupsBefore(lookups: seq<Lookup>, now: int) {
    forall i | 0 <= i < |lookups| :: lookups[i].at < now
  }

  /** Each look-up is later than everything in the table and than the look-ups before it. */
  predicate ClockMovesOn(table: Table, lookups: seq<Lookup>) {
    forall i | 0 <= i < |lookups| :: TableBefore(table, lookups[i].at) && LookupsBefore(lookups[..i], lookups[i].at)
  }

  /** A look-up calls a key new exactly when it is not in the table, or was put there at this very
      instant; so a clock that stands still repeats a notification. */
  lemma NewExactly(table: Table, key: string, now: int)
    ensures IsFirst(Sighted(table, key, now), key) <==> key !in table || table[key].firstSeen == now
  {
  }

  lemma {:induction false} LookUpKeys(table: Table, lookups: seq<Lookup>)
    ensures LookUp(table, lookups).0.Keys == table.Keys + LookedUp(lookups)
  {
    if lookups != [] {
      var n := |lookups| - 1;
      LookUpKeys(table, lookups[..n]);
      assert lookups == lookups[..n] + [lookups[n]];
    }
  }

  lemma {:induction false} LookUpTimes(table: Table, lookups: seq<Lookup>, now: int)
    requires TableBefore(table, now) && LookupsBefore(lookups, now)
    ensures TableBefore(LookUp(table, lookups).0, now)
  {
    if lookups != [] {
      LookUpTimes(table, lookups[..|lookups| - 1], now);
    }
  }

  lemma ClockMovedOn(table: Table, lookups: seq<Lookup>)
    requires ClockMovesOn(table, lookups) && lookups != []
    ensures var front, last := lookups[..|lookups| - 1], lookups[|lookups| - 1];
            ClockMovesOn(table, front) && TableBefore(table, last.at) && LookupsBefore(front, last.at)
  {
    var front := lookups[..|lookups| - 1];
    assert forall i | 0 <= i < |front| :: front[..i] == lookups[..i];
  }

  lemma LookedUpAppend(lookups: seq<Lookup>)
    requires lookups != []
    ensures LookedUp(lookups) == LookedUp(lookups[..|lookups| - 1]) + {lookups[|lookups| - 1].key}
  {
    assert lookups == lookups[..|lookups| - 1] + [lookups[|lookups| - 1]];
  }

  lemma AddKey(keys: seq<string>, key: string)
    requires Distinct(keys) && key !in KeySet(keys)
    ensures Distinct(keys + [key]) && KeySet(keys + [key]) == KeySet(keys) + {key}
  {
  }

  /** With a clock that moves on, the keys called new are those the table did not hold, each once. */
  lemma {:induction false} LookUpNews(table: Table, lookups: seq<Lookup>)
    requires ClockMovesOn(table, lookups)
    ensures KeySet(LookUp(table, lookups).1) == LookedUp(lookups) - table.Keys
    ensures Distinct(LookUp(table, lookups).1)
  {
    if lookups != [] {
      var front, last := lookups[..|lookups| - 1], lookups[|lookups| - 1];
      var (before, news) := LookUp(table, front);
      ClockMovedOn(table, lookups);
      LookUpNews(table, front);
      LookUpKeys(table, front);
      LookUpTimes(table, front, last.at);
      LookedUpAppend(lookups);
      NewExactly(before, last.key, last.at);
      if last.key !in before {
        AddKey(news, last.key);
      }
    }
  }

  /** The table after a run of calls that starts from an empty one. */
  function TableAfter(calls: seq<seq<Lookup>>): Table {
    if calls == [] then map[] else NotifyCall(TableAfter(calls[..|calls| - 1]), calls[|calls| - 1]).0
  }

  function Reported(calls: seq<seq<Lookup>>, i: nat): seq<string>
    requires i < |calls|
  {
    NotifyCall(TableAfter(calls[..i]), calls[i]).1
  }

  predicate CallsBefore(calls: seq<seq<Lookup>>, now: int) {
    forall i | 0 <= i < |calls| :: LookupsBefore(calls[i], now)
  }

  /** A strictly increasing clock over a whole run of calls. */
  predicate Chronological(calls: seq<seq<Lookup>>) {
    forall i, x | 0 <= i < |calls| && 0 <= x < |calls[i]| ::
      CallsBefore(calls[..i], calls[i][x].at) && LookupsBefore(calls[i][..x], calls[i][x].at)
  }

  lemma {:induction false} TableAfterTimes(calls: seq<seq<Lookup>>, now: int)
    requires CallsBefore(calls, now)
    ensures TableBefore(TableAfter(calls), now)
  {
    if calls != [] {
      var n := |calls| - 1;
      TableAfterTimes(calls[..n], now);
      LookUpTimes(TableAfter(calls[..n]), calls[n], now);
    }
  }

  lemma KeptKeys(lookups: seq<Lookup>, key: string)
    ensures key in KeysOf(lookups) <==> key in LookedUp(lookups)
  {
    if key in LookedUp(lookups) {
      var i :| 0 <= i < |lookups| && lookups[i].key == key;
      assert KeysOf(lookups)[i] == key;
    }
  }

  lemma CallKeys(table: Table, lookups: seq<Lookup>)
    ensures NotifyCall(table, lookups).0.Keys == LookedUp(lookups)
  {
    LookUpKeys(table, lookups);
    forall key ensures key in KeysOf(lookups) <==> key in LookedUp(lookups) {
      KeptKeys(lookups, key);
    }
  }

  lemma TableAfterKeys(calls: seq<seq<Lookup>>)
    ensures TableAfter(calls).Keys == if calls == [] then {} else LookedUp(calls[|calls| - 1])
  {
    if calls != [] {
      CallKeys(TableAfter(calls[..|calls| - 1]), calls[|calls| - 1]);
    }
  }

  /** Over any run of calls that starts from an empty table, call i reports exactly the keys that are
      guarded now and were not at the call before, each once: a persistent change is silent, and one
      that comes back is reported again. */
  lemma ReportsAppearances(calls: seq<seq<Lookup>>, i: nat)
    requires Chronological(calls) && i < |calls|
    ensures KeySet(Reported(calls, i)) == LookedUp(calls[i]) - if i == 0 then {} else LookedUp(calls[i - 1])
    ensures Distinct(Reported(calls, i))
  {
    var table := TableAfter(calls[..i]);
    TableAfterKeys(calls[..i]);
    forall x | 0 <= x < |calls[i]| ensures TableBefore(table, calls[i][x].at) {
      TableAfterTimes(calls[..i], calls[i][x].at);
    }
    LookUpNews(table, calls[i]);
  }

  // ----- any clock

  /** How many look-ups of a key happen at one instant. */
  function Coincidences(lookups: seq<Lookup>, key: string, at: int): nat {
    if lookups == [] then 0
    else
      var last := lookups[|lookups| - 1];
      Coincidences(lookups[..|lookups| - 1], key, at) + if last == Lookup(key, at) then 1 else 0
  }

  /** Since when a key is known: as the table says, or from its first look-up on. */
  function Since(table: Table, lookups: seq<Lookup>, key: string): int
    requires key in table || key in LookedUp(lookups)
  {
    if key in table then table[key].firstSeen
    else
      var front, last := lookups[..|lookups| - 1], lookups[|lookups| - 1];
      LookedUpAppend(lookups);
      if key in LookedUp(front) then Since(table, front, key) else last.at
  }

  lemma {:induction false} FirstSeenSince(table: Table, lookups: seq<Lookup>, key: string)
    ensures var after := LookUp(table, lookups).0;
            && (key in after <==> key in table || key in LookedUp(lookups))
            && (key in after ==> after[key].firstSeen == Since(table, lookups, key))
  {
    LookUpKeys(table, lookups);
    if lookups != [] {
      LookedUpAppend(lookups);
      FirstSeenSince(table, lookups[..|lookups| - 1], key);
    }
  }

  lemma {:induction false} NotLookedUp(lookups: seq<Lookup>, key: string, at: int)
    requires key !in LookedUp(lookups)
    ensures Coincidences(lookups, key, at) == 0
  {
    if lookups != [] {
      LookedUpAppend(lookups);
      NotLookedUp(lookups[..|lookups| - 1], key, at);
    }
  }

  /** How often a key is called new, whatever the clock does: once for every look-up at the very instant
      since when it is known. */
  lemma {:induction false} TimesReported(table: Table, lookups: seq<Lookup>, key: string)
    ensures multiset(LookUp(table, lookups).1)[key] ==
            if key in LookedUp(lookups) then Coincidences(lookups, key, Since(table, lookups, key)) else 0
  {
    if lookups != [] {
      var front, last := lookups[..|lookups| - 1], lookups[|lookups| - 1];
      var (before, news) := LookUp(table, front);
      LookedUpAppend(lookups);
      TimesReported(table, front, key);
      FirstSeenSince(table, front, key);
      FirstSeenSince(table, lookups, key);
      NewExactly(before, last.key, last.at);
      if key !in LookedUp(front) && key in LookedUp(lookups) {
        NotLookedUp(front, key, Since(table, lookups, key));
      }
    }
  }

  /** Each key has the count its look-ups call for: none if it was known before, one if it was not. */
  predicate CountsOnce(table: Table, lookups: seq<Lookup>, key: string)
    requires key in LookedUp(lookups)
  {
    Coincidences(lookups, key, Since(table, lookups, key)) == if key in table then 0 else 1
  }

  /** Exactly when a call reports the keys that were not known before, each once, and nothing else: no key
      is looked up again at the instant since when it is known. */
  lemma NewsExactly(table: Table, lookups: seq<Lookup>)
    ensures var news := LookUp(table, lookups).1;
            KeySet(news) == LookedUp(lookups) - table.Keys && Distinct(news) <==>
            forall key | key in LookedUp(lookups) :: CountsOnce(table, lookups, key)
  {
    var news := LookUp(table, lookups).1;
    forall key: string
      ensures multiset(news)[key] ==
              if key in LookedUp(lookups) then Coincidences(lookups, key, Since(table, lookups, key)) else 0
      ensures key in KeySet(news) <==> multiset(news)[key] >= 1
    {
      TimesReported(table, lookups, key);
      assert key in news <==> key in multiset(news);
    }
    DistinctByCount(news);
  }

  /** The same over a run of calls: exactly when call i reports the appearances. */
  lemma ReportsExactly(calls: seq<seq<Lookup>>, i: nat)
    requires i < |calls|
    ensures KeySet(Reported(calls, i)) == LookedUp(calls[i]) - (if i == 0 then {} else LookedUp(calls[i - 1]))
              && Distinct(Reported(calls, i)) <==>
            forall key | key in LookedUp(calls[i]) :: CountsOnce(TableAfter(calls[..i]), calls[i], key)
  {
    TableAfterKeys(calls[..i]);
    NewsExactly(TableAfter(calls[..i]), calls[i]);
  }

  /** A clock that stands still breaks it: two look-ups of one key at one instant both call it new. */
  lemma RepeatsAtOneInstant()
    ensures Reported([[Lookup("k", 7)], [Lookup("k", 7)]], 1) == ["k"]
  {
    var call := [Lookup("k", 7)];
    var none: seq<seq<Lookup>> := [];
    assert call[..0] == [] && [call, call][..1] == [call] && [call][..0] == none;
    assert LookUp(map[], call).0 == map["k" := Sighting(7, 7)];
    assert KeysOf(call) == ["k"];
    assert TableAfter([call]) == map["k" := Sighting(7, 7)];
  }

  // ----- what a key tells apart

  predicate Plain(s: string) {
    forall i | 0 <= i < |s| :: s[i] != '/'
  }

  lemma EncodePlain(q: Quota)
    ensures Plain(Encode(q))
  {
  }

  lemma PrintNatInjective(a: nat, b: nat)
    requires PrintNat(a) == PrintNat(b)
    ensures a == b
  {
    ReadPrinted(a);
    ReadPrinted(b);
  }

  lemma SignedInjective(a: int, b: int)
    requires Signed(a) == Signed(b)
    ensures a == b
  {
    assert (Signed(a)[0] == '-' <==> a < 0) && (Signed(b)[0] == '-' <==> b < 0);
    if a < 0 {
      assert PrintNat(-a) == Signed(a)[1..] && PrintNat(-b) == Signed(b)[1..];
      PrintNatInjective(-a, -b);
    } else {
      PrintNatInjective(a, b);
    }
  }

  lemma EncodeInjective(a: Quota, b: Quota)
    requires Encode(a) == Encode(b)
    ensures a == b
  {
    assert "bytes:"[0] == 'b' && "unknown"[2] != "unlimited"[2];
    if a.Bytes? && b.Bytes? {
      assert Signed(a.n) == Encode(a)[6..] && Signed(b.n) == Encode(b)[6..];
      SignedInjective(a.n, b.n);
    }
  }

  /** The last slash of a text can only be in one place. */
  lemma CutAtLastSlash(x: string, e: string, y: string, f: string)
    requires Plain(e) && Plain(f) && x + "/" + e == y + "/" + f
    ensures x == y && e == f
  {
    var s, t := x + "/" + e, y + "/" + f;
    assert s[|x|] == '/' && t[|y|] == '/';
    assert forall j | |x| < j < |s| :: s[j] == e[j - |x| - 1];
    assert forall j | |y| < j < |t| :: t[j] == f[j - |y| - 1];
    assert x == s[..|x|] && y == t[..|y|] && e == s[|x| + 1..] && f == t[|y| + 1..];
  }

  /** Two changes share a key exactly when both quotas agree and so does the text made of user and
      provider. */
  lemma SameKeyExactly(a: Change, b: Change)
    ensures GuardKey(a) == GuardKey(b) <==>
              a.uid + "/" + a.provider == b.uid + "/" + b.provider && a.from == b.from && a.to == b.to
  {
    if GuardKey(a) == GuardKey(b) {
      EncodePlain(a.from);
      EncodePlain(b.from);
      EncodePlain(a.to);
      EncodePlain(b.to);
      CutAtLastSlash(a.uid + "/" + a.provider + "/" + Encode(a.from), Encode(a.to),
                     b.uid + "/" + b.provider + "/" + Encode(b.from), Encode(b.to));
      CutAtLastSlash(a.uid + "/" + a.provider, Encode(a.from), b.uid + "/" + b.provider, Encode(b.from));
      EncodeInjective(a.from, b.from);
      EncodeInjective(a.to, b.to);
    }
  }

  /** So where provider names hold no slash, a key tells user, provider and both quotas apart. */
  lemma KeyTellsApart(a: Change, b: Change)
    requires Plain(a.provider) && Plain(b.provider)
    ensures GuardKey(a) == GuardKey(b) <==> a.uid == b.uid && a.provider == b.provider && a.from == b.from && a.to == b.to
  {
    SameKeyExactly(a, b);
    if a.uid + "/" + a.provider == b.uid + "/" + b.provider {
      CutAtLastSlash(a.uid, a.provider, b.uid, b.provider);
    }
  }

  /** A pair whose target lies below what is stored. */
  function Shrinking(id: int, uid: string, provider: string): PlanAccount {
    PlanAccount(id, uid, id, provider, uid, Bytes(5), true, Bytes(9), Bytes(6), false, true)
  }

  function Shrink(id: int, uid: string, provider: string): Change {
    Change(id, uid, id, provider, uid, Bytes(9), Bytes(5), ShrinkBelowUsage)
  }

  lemma SecondIsSilent(key: string)
    ensures NotifyCall(map[], [Lookup(key, 1), Lookup(key, 2)]).1 == [key]
  {
    var first, both := [Lookup(key, 1)], [Lookup(key, 1), Lookup(key, 2)];
    assert first[..0] == [] && both[..1] == first;
    assert LookUp(map[], first[..0]).0 == map[] && LookUp(map[], first[..0]).1 == [];
    assert LookUp(map[], first).0 == map[key := Sighting(1, 1)] && LookUp(map[], first).1 == [key];
  }

  /** With a slash in a name, shrinks planned for two people on two providers can share one key: both are
      refused, and only the first is reported. */
  lemma KeysCollide()
    ensures DifferenceOf(Shrinking(1, "a/b", "c")) == [Shrink(1, "a/b", "c")]
    ensures DifferenceOf(Shrinking(2, "a", "b/c")) == [Shrink(2, "a", "b/c")]
    ensures var x, y := Shrink(1, "a/b", "c"), Shrink(2, "a", "b/c");
            var lookups := [Lookup(GuardKey(x), 1), Lookup(GuardKey(y), 2)];
            && GuardedKeys([x, y], false) == KeysOf(lookups)
            && NotifyCall(map[], lookups).1 == [GuardKey(x)]
  {
    var x, y := Shrink(1, "a/b", "c"), Shrink(2, "a", "b/c");
    assert "a/b" + "/" + "c" == "a" + "/" + "b/c";
    SameKeyExactly(x, y);
    SecondIsSilent(GuardKey(x));
    assert [x, y][..1] == [x] && [x][..0] == [];
    assert GuardedKeys([x], false) == [GuardKey(x)];
  }
}
