/** The totals by service, and why they agree with the totals by person (internal/core/usage.go). */
module Totals {
  import opened Quotas
  import opened Model
  import opened Sorting
  import opened Sums
  import opened Usage

  datatype Total = Total(used: int, quota: int, unlimited: bool, known: bool, partial: bool)

  datatype ServiceRow = ServiceRow(kind: string, total: Total)

  // ----- the report by service

  function Flat(response: seq<UserEntry>): seq<AccountView> {
    if response == [] then []
    else Flat(response[..|response| - 1]) + response[|response| - 1].providers
  }

  function KindOf(v: AccountView): string {
    v.kind
  }

  /** The usage that counts for a service: readable and known. */
  function ReadUsed(v: AccountView): int {
    if v.status.Readable() then Amount(v.used) else 0
  }

  function ReadQuota(v: AccountView): int {
    if v.status.Readable() then Amount(v.quota) else 0
  }

  /** Some view of a kind can be read or not, and, if asked, shows no ceiling. */
  ghost predicate SomeView(kind: string, views: seq<AccountView>, readable: bool, open: bool) {
    exists v :: v in views && v.kind == kind && v.status.Readable() == readable && (open ==> v.quota.None?)
  }

  /** What a row about one service says. */
  ghost predicate IsTotal(kind: string, views: seq<AccountView>, t: Total) {
    && t.used == Group(ReadUsed, KindOf, kind, views)
    && t.quota == Group(ReadQuota, KindOf, kind, views)
    && (t.known <==> SomeView(kind, views, true, false))
    && (t.unlimited <==> SomeView(kind, views, true, true))
    && (t.partial <==> SomeView(kind, views, false, false))
  }

  function KindSet(views: seq<AccountView>): set<string> {
    if views == [] then {} else KindSet(views[..|views| - 1]) + {views[|views| - 1].kind}
  }

  lemma {:induction false} InKindSet(views: seq<AccountView>, kind: string)
    ensures kind in KindSet(views) <==> exists v :: v in views && v.kind == kind
  {
    if views != [] {
      var n := |views| - 1;
      assert views == views[..n] + [views[n]];
      InKindSet(views[..n], kind);
      assert views[n] in views && forall v | v in views[..n] :: v in views;
    }
  }

  /** One view added to the total of its kind. */
  function Counted(t: Total, v: AccountView): Total {
    if !v.status.Readable() then t.(partial := true)
    else t.(known := true, used := t.used + Amount(v.used), quota := t.quota + Amount(v.quota),
            unlimited := t.unlimited || v.quota.None?)
  }

  function TotalOf(kind: string, views: seq<AccountView>): Total {
    if views == [] then Total(0, 0, false, false, false)
    else
      var v := views[|views| - 1];
      var before := TotalOf(kind, views[..|views| - 1]);
      if v.kind == kind then Counted(before, v) else before
  }

  /** Counting view by view gives what a row is to say. */
  lemma {:induction false} TotalOfSays(kind: string, views: seq<AccountView>)
    ensures IsTotal(kind, views, TotalOf(kind, views))
  {
    if views != [] {
      var n := |views| - 1;
      assert views == views[..n] + [views[n]];
      TotalOfSays(kind, views[..n]);
      CountedSays(kind, views[..n], TotalOf(kind, views[..n]), views[n]);
    }
  }

  lemma CountedSays(kind: string, views: seq<AccountView>, t: Total, v: AccountView)
    requires IsTotal(kind, views, t)
    ensures IsTotal(kind, views + [v], if v.kind == kind then Counted(t, v) else t)
  {
    GroupOneMore(ReadUsed, KindOf, kind, views, v);
    GroupOneMore(ReadQuota, KindOf, kind, views, v);
    SomeMore(kind, views, v, true, false);
    SomeMore(kind, views, v, true, true);
    SomeMore(kind, views, v, false, false);
  }

  lemma SomeMore(kind: string, views: seq<AccountView>, v: AccountView, readable: bool, open: bool)
    ensures SomeView(kind, views + [v], readable, open) <==>
            SomeView(kind, views, readable, open) ||
            (v.kind == kind && v.status.Readable() == readable && (open ==> v.quota.None?))
  {
    assert forall w :: w in views + [v] <==> w in views || w == v;
  }

  /** The kinds met so far, each once, each with its running total. */
  ghost predicate Tallied(byType: map<string, Total>, order: seq<string>, views: seq<AccountView>) {
    && Distinct(order) && KeySet(order) == byType.Keys == KindSet(views)
    && (forall k | k in byType :: byType[k] == TotalOf(k, views))
  }

  lemma {:induction false} NothingOfKind(kind: string, views: seq<AccountView>)
    requires kind !in KindSet(views)
    ensures TotalOf(kind, views) == Total(0, 0, false, false, false)
  {
    if views != [] {
      NothingOfKind(kind, views[..|views| - 1]);
    }
  }

  lemma KeysMore(keys: set<string>, order: seq<string>, views: seq<AccountView>, v: AccountView, order': seq<string>)
    requires Distinct(order) && KeySet(order) == keys == KindSet(views)
    requires order' == if v.kind in keys then order else order + [v.kind]
    ensures Distinct(order') && KeySet(order') == keys + {v.kind} == KindSet(views + [v])
  {
    assert (views + [v])[..|views|] == views;
    assert forall k :: k in order <==> k in KeySet(order);
  }

  lemma TalliedMore(byType: map<string, Total>, order: seq<string>, views: seq<AccountView>, v: AccountView,
                    order': seq<string>, t: Total)
    requires Tallied(byType, order, views)
    requires order' == if v.kind in byType then order else order + [v.kind]
    requires t == Counted(if v.kind in byType then byType[v.kind] else Total(0, 0, false, false, false), v)
    ensures Tallied(byType[v.kind := t], order', views + [v])
  {
    KeysMore(byType.Keys, order, views, v, order');
    assert (views + [v])[..|views|] == views;
    if v.kind !in byType {
      NothingOfKind(v.kind, views);
    }
  }

  method CountView(byType: map<string, Total>, order: seq<string>, v: AccountView, ghost views: seq<AccountView>)
    returns (byType': map<string, Total>, order': seq<string>)
    requires Tallied(byType, order, views)
    ensures Tallied(byType', order', views + [v])
  {
    order' := order;
    var t := Total(0, 0, false, false, false);
    if v.kind in byType {
      t := byType[v.kind];
    } else {
      order' := order' + [v.kind];
    }
    if !v.status.Readable() {
      t := t.(partial := true);
    } else {
      t := t.(known := true);
      if v.used.Some? {
        t := t.(used := t.used + v.used.value);
      }
      if v.quota.None? {
        t := t.(unlimited := true);
      } else {
        t := t.(quota := t.quota + v.quota.value);
      }
    }
    byType' := byType[v.kind := t];
    TalliedMore(byType, order, views, v, order', t);
  }

  /** What the report by service says about some views: a row for every kind met, no kind twice, in order. */
  ghost predicate IsServiceReport(rows: seq<ServiceRow>, views: seq<AccountView>) {
    && Distinct(Kinds(rows)) && Sorted(AtMost, Kinds(rows))
    && (forall k :: k in Kinds(rows) <==> exists v :: v in views && v.kind == k)
    && (forall r | r in rows :: IsTotal(r.kind, views, r.total))
  }

  function Kinds(rows: seq<ServiceRow>): seq<string> {
    seq(|rows|, i requires 0 <= i < |rows| => rows[i].kind)
  }

  lemma {:induction false} DistinctPermuted<K>(s: seq<K>, t: seq<K>)
    requires Distinct(s) && multiset(s) == multiset(t)
    ensures Distinct(t) && KeySet(s) == KeySet(t)
  {
    forall k ensures k in s <==> k in t {
      assert k in s <==> k in multiset(s);
      assert k in t <==> k in multiset(t);
    }
    forall i, j | 0 <= i < j < |t| ensures t[i] != t[j] {
      if t[i] == t[j] {
        TwiceInMultiset(t, i, j);
        OnceInMultiset(s, t[i]);
      }
    }
  }

  method TallyAll(response: seq<UserEntry>) returns (byType: map<string, Total>, order: seq<string>)
    ensures Tallied(byType, order, Flat(response))
  {
    byType, order := map[], [];
    for i := 0 to |response|
      invariant Tallied(byType, order, Flat(response[..i]))
    {
      byType, order := TallyPerson(byType, order, response[i].providers, Flat(response[..i]));
      assert response[..i + 1][..i] == response[..i];
    }
    assert response[..|response|] == response;
  }

  method TallyPerson(byType: map<string, Total>, order: seq<string>, providers: seq<AccountView>,
                     ghost views: seq<AccountView>)
    returns (byType': map<string, Total>, order': seq<string>)
    requires Tallied(byType, order, views)
    ensures Tallied(byType', order', views + providers)
  {
    byType', order' := byType, order;
    assert views + providers[..0] == views;
    for j := 0 to |providers|
      invariant Tallied(byType', order', views + providers[..j])
    {
      byType', order' := CountView(byType', order', providers[j], views + providers[..j]);
      assert views + providers[..j + 1] == views + providers[..j] + [providers[j]];
    }
    assert providers[..|providers|] == providers;
  }

  lemma ReportFromTally(byType: map<string, Total>, order: seq<string>, views: seq<AccountView>, rows: seq<ServiceRow>)
    requires Tallied(byType, order, views)
    requires multiset(Kinds(rows)) == multiset(order) && Sorted(AtMost, Kinds(rows))
    requires forall r | r in rows :: r.kind in byType && r.total == byType[r.kind]
    ensures IsServiceReport(rows, views)
  {
    DistinctPermuted(order, Kinds(rows));
    forall r | r in rows ensures IsTotal(r.kind, views, r.total) {
      TotalOfSays(r.kind, views);
    }
    forall k ensures k in Kinds(rows) <==> exists v :: v in views && v.kind == k {
      assert k in Kinds(rows) <==> k in KeySet(Kinds(rows));
      InKindSet(views, k);
    }
  }

  /** BuildUsageByService: every account somebody owns, grouped by the kind of its service. */
  method BuildUsageByService(response: seq<UserEntry>) returns (rows: seq<ServiceRow>)
    ensures IsServiceReport(rows, Flat(response))
  {
    var byType, order := TallyAll(response);
    StringOrder();
    var sorted := Sort(AtMost, order);
    DistinctPermuted(order, sorted);
    rows := RowsFor(byType, sorted);
    ReportFromTally(byType, order, Flat(response), rows);
  }

  method RowsFor(byType: map<string, Total>, kinds: seq<string>) returns (rows: seq<ServiceRow>)
    requires KeySet(kinds) == byType.Keys
    ensures Kinds(rows) == kinds && forall r | r in rows :: r.kind in byType && r.total == byType[r.kind]
  {
    rows := [];
    for i := 0 to |kinds|
      invariant Kinds(rows) == kinds[..i]
      invariant forall r | r in rows :: r.kind in byType && r.total == byType[r.kind]
    {
      assert kinds[i] in KeySet(kinds);
      rows := rows + [ServiceRow(kinds[i], byType[kinds[i]])];
    }
  }

  lemma StringOrder()
    ensures TotalPreorder(AtMost)
  {
    SortPreorders();
  }

  // ----- both reports add up to the same usage

  function EntryUsed(e: UserEntry): int {
    e.used
  }

  function RowUsed(r: ServiceRow): int {
    r.total.used
  }

  function Owner(a: Stored): Option<int> {
    a.row.owner
  }

  /** What an account adds to a sum: its usage, if it is on a configured provider and can be read. */
  function Contribution(input: Input): Stored -> int {
    (a: Stored) =>
      var providers := IndexProviders(input.providers);
      if a.providerID in providers && StatusFor(input, providers[a.providerID], a.row).Readable()
      then Amount(Number(a.row.account.used)) else 0
  }

  function Owners(users: seq<User>): seq<Option<int>> {
    seq(|users|, i requires 0 <= i < |users| => Some(users[i].id))
  }

  /** The usage of the accounts that belong to somebody: one sum over the accounts, no person and no service in it. */
  function OwnedUsage(input: Input): int {
    Within(Contribution(input), Owner, KeySet(Owners(input.users)), input.accounts)
  }

  lemma ContributionOf(input: Input, user: User, a: Stored)
    requires a.row.owner == Some(user.id)
    ensures Contribution(input)(a) == if Counts(input, user, a) then Amount(ViewOf(input, user, a).used) else 0
  {
  }

  lemma OneMoreView(input: Input, user: User, accounts: seq<Stored>, a: Stored)
    ensures UsedTotal(ViewsOf(input, user, accounts + [a])) ==
            UsedTotal(ViewsOf(input, user, accounts)) +
            if Counts(input, user, a) then Amount(ViewOf(input, user, a).used) else 0
  {
    assert (accounts + [a])[..|accounts|] == accounts;
    if Counts(input, user, a) {
      var front, v := ViewsOf(input, user, accounts), ViewOf(input, user, a);
      assert ViewsOf(input, user, accounts + [a]) == front + [v];
      SumOneMore(UsedOf, front, v);
    } else {
      assert ViewsOf(input, user, accounts + [a]) == ViewsOf(input, user, accounts);
    }
  }

  lemma OneMoreContribution(input: Input, user: User, accounts: seq<Stored>, a: Stored)
    ensures UsedTotal(ViewsOf(input, user, accounts + [a])) - UsedTotal(ViewsOf(input, user, accounts)) ==
            Group(Contribution(input), Owner, Some(user.id), accounts + [a])
            - Group(Contribution(input), Owner, Some(user.id), accounts)
  {
    OneMoreView(input, user, accounts, a);
    GroupOneMore(Contribution(input), Owner, Some(user.id), accounts, a);
    if a.row.owner == Some(user.id) {
      ContributionOf(input, user, a);
    }
  }

  /** A person's used bytes are the contributions of the accounts that person owns. */
  lemma {:induction false} PersonIsGroup(input: Input, user: User, accounts: seq<Stored>)
    ensures UsedTotal(ViewsOf(input, user, accounts)) == Group(Contribution(input), Owner, Some(user.id), accounts)
  {
    if accounts != [] {
      var front, a := accounts[..|accounts| - 1], accounts[|accounts| - 1];
      PersonIsGroup(input, user, front);
      OneMoreContribution(input, user, front, a);
      assert accounts == front + [a];
    }
  }

  lemma {:induction false} PeopleAreGroups(input: Input, users: seq<User>, entries: seq<UserEntry>)
    requires |entries| == |users|
    requires forall i | 0 <= i < |users| :: entries[i].used == UsedTotal(ViewsOf(input, users[i], input.accounts))
    ensures Sum(EntryUsed, entries) == Groups(Contribution(input), Owner, Owners(users), input.accounts)
  {
    if users != [] {
      var n := |users| - 1;
      PeopleAreGroups(input, users[..n], entries[..n]);
      assert Owners(users)[..n] == Owners(users[..n]);
      PersonIsGroup(input, users[n], input.accounts);
    }
  }

  /** Views that report a number report it as readable. */
  predicate Silent(views: seq<AccountView>) {
    forall v | v in views :: ReadUsed(v) == UsedOf(v)
  }

  lemma {:induction false} ViewsAreSilent(input: Input, user: User, accounts: seq<Stored>)
    ensures Silent(ViewsOf(input, user, accounts))
  {
    if accounts != [] {
      ViewsAreSilent(input, user, accounts[..|accounts| - 1]);
    }
  }

  lemma EntryIsSum(input: Input, user: User, entry: UserEntry)
    requires IsEntry(input, user, entry)
    ensures entry.used == Sum(ReadUsed, entry.providers)
  {
    var views := ViewsOf(input, user, input.accounts);
    ViewsAreSilent(input, user, input.accounts);
    SumAgrees(UsedOf, ReadUsed, views);
    SumPermuted(ReadUsed, views, entry.providers);
  }

  lemma {:induction false} FlatIsSum(response: seq<UserEntry>)
    requires forall e | e in response :: e.used == Sum(ReadUsed, e.providers)
    ensures Sum(ReadUsed, Flat(response)) == Sum(EntryUsed, response)
  {
    if response != [] {
      var n := |response| - 1;
      assert response[n] in response && forall e | e in response[..n] :: e in response;
      FlatIsSum(response[..n]);
      SumAppend(ReadUsed, Flat(response[..n]), response[n].providers);
    }
  }

  lemma {:induction false} RowsAreGroups(rows: seq<ServiceRow>, views: seq<AccountView>)
    requires forall r | r in rows :: IsTotal(r.kind, views, r.total)
    ensures Sum(RowUsed, rows) == Groups(ReadUsed, KindOf, Kinds(rows), views)
  {
    if rows != [] {
      var n := |rows| - 1;
      assert rows[n] in rows && forall r | r in rows[..n] :: r in rows;
      RowsAreGroups(rows[..n], views);
      assert Kinds(rows)[..n] == Kinds(rows[..n]);
    }
  }

  lemma RowsAddUp(rows: seq<ServiceRow>, views: seq<AccountView>)
    requires IsServiceReport(rows, views)
    ensures Sum(RowUsed, rows) == Sum(ReadUsed, views)
  {
    RowsAreGroups(rows, views);
    GroupsPartition(ReadUsed, KindOf, Kinds(rows), views);
    forall v | v in views ensures KindOf(v) in KeySet(Kinds(rows)) {
      assert v.kind in Kinds(rows);
    }
    WithinAll(ReadUsed, KindOf, KeySet(Kinds(rows)), views);
  }

  lemma SameElements<T>(s: seq<T>, t: seq<T>)
    requires multiset(s) == multiset(t)
    ensures forall x :: x in s <==> x in t
  {
    forall x ensures x in s <==> x in t {
      assert x in s <==> x in multiset(s);
      assert x in t <==> x in multiset(t);
    }
  }

  /** Usage by person, usage by service and usage of the owned accounts are one number. */
  lemma TotalsAgree(input: Input, response: seq<UserEntry>, entries: seq<UserEntry>, rows: seq<ServiceRow>)
    requires Distinct(Owners(input.users))
    requires |entries| == |input.users| && forall i | 0 <= i < |entries| :: IsEntry(input, input.users[i], entries[i])
    requires multiset(response) == multiset(entries) && IsServiceReport(rows, Flat(response))
    ensures Sum(EntryUsed, response) == OwnedUsage(input)
    ensures Sum(RowUsed, rows) == OwnedUsage(input)
  {
    SumPermuted(EntryUsed, response, entries);
    PeopleAreGroups(input, input.users, entries);
    GroupsPartition(Contribution(input), Owner, Owners(input.users), input.accounts);
    SameElements(response, entries);
    forall e | e in response ensures e.used == Sum(ReadUsed, e.providers) {
      var i :| 0 <= i < |entries| && entries[i] == e;
      EntryIsSum(input, input.users[i], e);
    }
    FlatIsSum(response);
    RowsAddUp(rows, Flat(response));
  }

  /** Two descriptions of one household: the same people, providers and accounts, in any order. */
  predicate SameInput(a: Input, b: Input) {
    && multiset(a.users) == multiset(b.users) && multiset(a.accounts) == multiset(b.accounts)
    && multiset(a.providers) == multiset(b.providers) && Distinct(ProviderIDs(a.providers))
    && a.now == b.now && a.refresh == b.refresh
  }

  lemma {:induction false} IndexedAt(providers: seq<Provider>, p: Provider)
    requires Distinct(ProviderIDs(providers)) && p in providers
    ensures p.id in IndexProviders(providers) && IndexProviders(providers)[p.id] == p
  {
    var n := |providers| - 1;
    var i :| 0 <= i <= n && providers[i] == p;
    if i < n {
      assert ProviderIDs(providers)[i] != ProviderIDs(providers)[n];
      assert ProviderIDs(providers[..n]) == ProviderIDs(providers)[..n];
      assert providers[..n][i] == p;
      IndexedAt(providers[..n], p);
    }
  }

  lemma {:induction false} IndexedFrom(providers: seq<Provider>, id: int)
    requires id in IndexProviders(providers)
    ensures IndexProviders(providers)[id] in providers && IndexProviders(providers)[id].id == id
  {
    var n := |providers| - 1;
    if id != providers[n].id {
      IndexedFrom(providers[..n], id);
      assert forall p | p in providers[..n] :: p in providers;
    }
  }

  lemma IndexCarries(s: seq<Provider>, t: seq<Provider>, id: int)
    requires multiset(s) == multiset(t) && Distinct(ProviderIDs(t)) && id in IndexProviders(s)
    ensures id in IndexProviders(t) && IndexProviders(t)[id] == IndexProviders(s)[id]
  {
    IndexedFrom(s, id);
    SameElements(s, t);
    IndexedAt(t, IndexProviders(s)[id]);
  }

  lemma SameIndex(s: seq<Provider>, t: seq<Provider>)
    requires multiset(s) == multiset(t) && Distinct(ProviderIDs(s)) && Distinct(ProviderIDs(t))
    ensures IndexProviders(s) == IndexProviders(t)
  {
    var a, b := IndexProviders(s), IndexProviders(t);
    forall id | id in a ensures id in b && b[id] == a[id] {
      IndexCarries(s, t, id);
    }
    forall id | id in b ensures id in a {
      IndexCarries(t, s, id);
    }
  }

  /** The owned usage, and with it every total, does not depend on the order of the input. */
  lemma OrderIrrelevant(a: Input, b: Input)
    requires SameInput(a, b) && Distinct(ProviderIDs(b.providers))
    ensures OwnedUsage(a) == OwnedUsage(b)
  {
    SameIndex(a.providers, b.providers);
    SameElements(a.users, b.users);
    forall k ensures k in Owners(a.users) <==> k in Owners(b.users) {
      SameOwners(a.users, b.users, k);
      SameOwners(b.users, a.users, k);
    }
    assert KeySet(Owners(a.users)) == KeySet(Owners(b.users));
    SameContributions(a, b, KeySet(Owners(a.users)), a.accounts);
    WithinPermuted(Contribution(b), Owner, KeySet(Owners(b.users)), a.accounts, b.accounts);
  }

  lemma SameOwners(s: seq<User>, t: seq<User>, k: Option<int>)
    requires forall u | u in s :: u in t
    ensures k in Owners(s) ==> k in Owners(t)
  {
    if k in Owners(s) {
      var i :| 0 <= i < |s| && Some(s[i].id) == k;
      assert s[i] in t;
      var j :| 0 <= j < |t| && t[j] == s[i];
      assert Owners(t)[j] == k;
    }
  }

  lemma {:induction false} SameContributions(a: Input, b: Input, keys: set<Option<int>>, accounts: seq<Stored>)
    requires IndexProviders(a.providers) == IndexProviders(b.providers) && a.now == b.now && a.refresh == b.refresh
    ensures Within(Contribution(a), Owner, keys, accounts) == Within(Contribution(b), Owner, keys, accounts)
  {
    if accounts != [] {
      SameContributions(a, b, keys, accounts[..|accounts| - 1]);
    }
  }
}
