/** Used bytes per person and per service (internal/core/usage.go). */
module Usage {
  import opened Quotas
  import opened Model
  import opened Resolving
  import opened Sorting
  import opened Sums

  datatype Provider = Provider(id: int, kind: string, name: string, hasObserved: bool, lastObserveOK: bool)

  /** A stored account and the provider it is on. */
  datatype Stored = Stored(providerID: int, row: Row)

  datatype Input = Input(
    now: int, refresh: int, users: seq<User>, providers: seq<Provider>, accounts: seq<Stored>,
    policy: Policy, userPolicies: map<int, UserPolicy>)

  datatype Status = StatusOk | StatusStale | Unavailable | UnknownValues {
    /** The numbers mean something. */
    predicate Readable() {
      StatusOk? || StatusStale?
    }
  }

  /** One account as it is reported; no number means unlimited or unreadable. */
  datatype AccountView = AccountView(
    kind: string, name: string, quota: Option<int>, used: Option<int>, managed: bool, status: Status, observedAt: int)

  datatype UserEntry = UserEntry(
    uid: string, uuid: string, budget: Option<int>, used: int, complete: bool, providers: seq<AccountView>)

  // ----- one account

  function StatusFor(input: Input, p: Provider, row: Row): Status {
    if !p.hasObserved || !p.lastObserveOK || !row.observeOK then Unavailable
    else if !row.account.quota.IsKnown() || !row.account.used.IsKnown() then UnknownValues
    else if input.refresh > 0 && input.now - row.observedAt > 2 * input.refresh then StatusStale
    else StatusOk
  }

  function Number(q: Quota): Option<int> {
    if q.Bytes? then Some(q.n) else None
  }

  function ViewFor(input: Input, p: Provider, row: Row, managed: bool): AccountView {
    var status := StatusFor(input, p, row);
    if status.Readable()
    then AccountView(p.kind, p.name, Number(row.account.quota), Number(row.account.used), managed, status, row.observedAt)
    else AccountView(p.kind, p.name, None, None, managed, status, row.observedAt)
  }

  function Amount(n: Option<int>): int {
    if n.Some? then n.value else 0
  }

  // ----- one person

  function IndexProviders(providers: seq<Provider>): map<int, Provider> {
    if providers == [] then map[]
    else IndexProviders(providers[..|providers| - 1])[providers[|providers| - 1].id := providers[|providers| - 1]]
  }

  function ProviderIDs(providers: seq<Provider>): seq<int> {
    seq(|providers|, i requires 0 <= i < |providers| => providers[i].id)
  }

  predicate HasPolicy(input: Input) {
    |input.policy.tiers| > 0
  }

  function PolicyOf(input: Input, u: int): UserPolicy {
    if u in input.userPolicies then input.userPolicies[u] else UserPolicy(map[], None)
  }

  /** There is a policy, and it resolves to a ceiling here. */
  predicate Managed(input: Input, user: User, p: int) {
    HasPolicy(input) && Resolved(user, p, input.policy, PolicyOf(input, user.id)).present
  }

  /** An account of this person on a configured provider. */
  predicate Counts(input: Input, user: User, a: Stored) {
    a.row.owner == Some(user.id) && a.providerID in IndexProviders(input.providers)
  }

  function ViewOf(input: Input, user: User, a: Stored): AccountView
    requires Counts(input, user, a)
  {
    ViewFor(input, IndexProviders(input.providers)[a.providerID], a.row, Managed(input, user, a.providerID))
  }

  function ViewsOf(input: Input, user: User, accounts: seq<Stored>): seq<AccountView> {
    if accounts == [] then []
    else
      var a := accounts[|accounts| - 1];
      ViewsOf(input, user, accounts[..|accounts| - 1]) + if Counts(input, user, a) then [ViewOf(input, user, a)] else []
  }

  function UsedOf(view: AccountView): int {
    Amount(view.used)
  }

  function QuotaOf(view: AccountView): int {
    Amount(view.quota)
  }

  function UsedTotal(views: seq<AccountView>): int {
    Sum(UsedOf, views)
  }

  function QuotaTotal(views: seq<AccountView>): int {
    Sum(QuotaOf, views)
  }

  /** Nothing about an account was left out of the sums. */
  predicate Whole(view: AccountView, a: Stored) {
    view.status.Readable() && (view.quota.Some? || a.row.account.quota.Unlimited?) && view.used.Some?
  }

  /** Whole for every account of this person. */
  predicate AllWhole(input: Input, user: User, accounts: seq<Stored>) {
    accounts == [] ||
    var a := accounts[|accounts| - 1];
    AllWhole(input, user, accounts[..|accounts| - 1]) && (Counts(input, user, a) ==> Whole(ViewOf(input, user, a), a))
  }

  predicate OpenEnded(view: AccountView, a: Stored) {
    a.row.account.quota.Unlimited? && view.status.Readable()
  }

  /** Some account of this person has no ceiling. */
  predicate AnyUnlimited(input: Input, user: User, accounts: seq<Stored>) {
    accounts != [] &&
    var a := accounts[|accounts| - 1];
    AnyUnlimited(input, user, accounts[..|accounts| - 1]) || (Counts(input, user, a) && OpenEnded(ViewOf(input, user, a), a))
  }

  function Effective(input: Input, user: User): Quota {
    Budget(Resolutions(user, ProviderIDs(input.providers), input.policy, PolicyOf(input, user.id)))
  }

  /** With a policy, the effective budget of the person; without one, the sum of the ceilings read. */
  function BudgetFor(input: Input, user: User): Option<int> {
    if HasPolicy(input) then
      var q := Effective(input, user);
      if q.Unlimited? then None else Some(if q.Bytes? then q.n else 0)
    else if AnyUnlimited(input, user, input.accounts) then None
    else Some(QuotaTotal(ViewsOf(input, user, input.accounts)))
  }

  predicate ByName(a: AccountView, b: AccountView) {
    AtMost(a.name, b.name)
  }

  predicate ByUUID(a: UserEntry, b: UserEntry) {
    AtMost(a.uuid, b.uuid)
  }

  lemma SortPreorders()
    ensures TotalPreorder(ByName) && TotalPreorder(ByUUID) && TotalPreorder(AtMost)
  {
    forall x: string, y: string ensures AtMost(x, y) || AtMost(y, x) {
      AtMostTotal(x, y);
    }
    forall x: string, y: string, z: string | AtMost(x, y) && AtMost(y, z) ensures AtMost(x, z) {
      AtMostTransitive(x, y, z);
    }
  }

  /** What is reported about one person. */
  ghost predicate IsEntry(input: Input, user: User, entry: UserEntry) {
    && entry.uid == user.uid && entry.uuid == user.sourceUUID
    && multiset(entry.providers) == multiset(ViewsOf(input, user, input.accounts)) && Sorted(ByName, entry.providers)
    && entry.used == UsedTotal(ViewsOf(input, user, input.accounts))
    && entry.budget == BudgetFor(input, user)
    && (entry.complete <==>
          AllWhole(input, user, input.accounts) && (HasPolicy(input) ==> !Effective(input, user).Unknown?))
  }

  method ResolveAll(input: Input, user: User) returns (rs: seq<Resolution>)
    ensures rs == Resolutions(user, ProviderIDs(input.providers), input.policy, PolicyOf(input, user.id))
  {
    rs := [];
    for i := 0 to |input.providers|
      invariant |rs| == i
      invariant forall j | 0 <= j < i :: rs[j] == Resolved(user, input.providers[j].id, input.policy, PolicyOf(input, user.id))
    {
      var r := Resolve(user, input.providers[i].id, input.policy, PolicyOf(input, user.id));
      rs := rs + [r];
    }
  }

  lemma PrefixFlags(input: Input, user: User, accounts: seq<Stored>, i: nat)
    requires i < |accounts|
    ensures AllWhole(input, user, accounts[..i + 1]) <==>
              AllWhole(input, user, accounts[..i]) &&
              (Counts(input, user, accounts[i]) ==> Whole(ViewOf(input, user, accounts[i]), accounts[i]))
    ensures AnyUnlimited(input, user, accounts[..i + 1]) <==>
              AnyUnlimited(input, user, accounts[..i]) ||
              (Counts(input, user, accounts[i]) && OpenEnded(ViewOf(input, user, accounts[i]), accounts[i]))
  {
    assert accounts[..i + 1][..i] == accounts[..i];
  }

  lemma PrefixSums(input: Input, user: User, accounts: seq<Stored>, i: nat)
    requires i < |accounts|
    ensures ViewsOf(input, user, accounts[..i + 1]) ==
            ViewsOf(input, user, accounts[..i]) +
            if Counts(input, user, accounts[i]) then [ViewOf(input, user, accounts[i])] else []
    ensures UsedTotal(ViewsOf(input, user, accounts[..i + 1])) ==
            UsedTotal(ViewsOf(input, user, accounts[..i])) +
            if Counts(input, user, accounts[i]) then Amount(ViewOf(input, user, accounts[i]).used) else 0
    ensures QuotaTotal(ViewsOf(input, user, accounts[..i + 1])) ==
            QuotaTotal(ViewsOf(input, user, accounts[..i])) +
            if Counts(input, user, accounts[i]) then Amount(ViewOf(input, user, accounts[i]).quota) else 0
  {
    assert accounts[..i + 1][..i] == accounts[..i];
    var front := ViewsOf(input, user, accounts[..i]);
    if Counts(input, user, accounts[i]) {
      SumOneMore(UsedOf, front, ViewOf(input, user, accounts[i]));
      SumOneMore(QuotaOf, front, ViewOf(input, user, accounts[i]));
    } else {
      assert front + [] == front;
    }
  }

  /** The accounts of one person, as they are reported and summed. */
  method SumAccounts(input: Input, user: User, providersByID: map<int, Provider>)
    returns (views: seq<AccountView>, used: int, quota: int, anyUnlimited: bool, complete: bool)
    requires providersByID == IndexProviders(input.providers)
    ensures views == ViewsOf(input, user, input.accounts)
    ensures used == UsedTotal(views) && quota == QuotaTotal(views)
    ensures anyUnlimited == AnyUnlimited(input, user, input.accounts)
    ensures complete == AllWhole(input, user, input.accounts)
  {
    views, used, quota, anyUnlimited, complete := [], 0, 0, false, true;
    for i := 0 to |input.accounts|
      invariant views == ViewsOf(input, user, input.accounts[..i])
      invariant used == UsedTotal(ViewsOf(input, user, input.accounts[..i]))
      invariant quota == QuotaTotal(ViewsOf(input, user, input.accounts[..i]))
      invariant anyUnlimited == AnyUnlimited(input, user, input.accounts[..i])
      invariant complete == AllWhole(input, user, input.accounts[..i])
    {
      var a := input.accounts[i];
      PrefixSums(input, user, input.accounts, i);
      PrefixFlags(input, user, input.accounts, i);
      if a.row.owner == Some(user.id) && a.providerID in providersByID {
        var view := ViewFor(input, providersByID[a.providerID], a.row, Managed(input, user, a.providerID));
        views := views + [view];
        complete := complete && Whole(view, a);
        anyUnlimited := anyUnlimited || OpenEnded(view, a);
        quota := quota + Amount(view.quota);
        used := used + Amount(view.used);
      }
    }
    assert input.accounts[..|input.accounts|] == input.accounts;
  }

  method EntryFor(input: Input, user: User, providersByID: map<int, Provider>) returns (entry: UserEntry)
    requires providersByID == IndexProviders(input.providers)
    ensures IsEntry(input, user, entry)
  {
    var views, used, quota, anyUnlimited, complete := SumAccounts(input, user, providersByID);
    var budget := quota;
    if |input.policy.tiers| > 0 {
      var rs := ResolveAll(input, user);
      var effective := EffectiveBudget(rs);
      anyUnlimited, budget := effective.Unlimited?, 0;
      if effective.Bytes? {
        budget := effective.n;
      } else if !effective.Unlimited? {
        complete := false;
      }
    }
    SortPreorders();
    var sorted := Sort(ByName, views);
    entry := UserEntry(user.uid, user.sourceUUID, if anyUnlimited then None else Some(budget), used, complete, sorted);
  }

  method IndexByID(providers: seq<Provider>) returns (providersByID: map<int, Provider>)
    ensures providersByID == IndexProviders(providers)
  {
    providersByID := map[];
    for i := 0 to |providers|
      invariant providersByID == IndexProviders(providers[..i])
    {
      assert providers[..i + 1][..i] == providers[..i];
      providersByID := providersByID[providers[i].id := providers[i]];
    }
    assert providers[..|providers|] == providers;
  }

  /** BuildUsage: an entry for every person, sorted by uuid. */
  method BuildUsage(input: Input) returns (response: seq<UserEntry>, ghost entries: seq<UserEntry>)
    ensures |entries| == |input.users| && forall i | 0 <= i < |entries| :: IsEntry(input, input.users[i], entries[i])
    ensures multiset(response) == multiset(entries) && Sorted(ByUUID, response)
  {
    var providersByID := IndexByID(input.providers);
    var made := [];
    for i := 0 to |input.users|
      invariant |made| == i && forall j | 0 <= j < i :: IsEntry(input, input.users[j], made[j])
    {
      var entry := EntryFor(input, input.users[i], providersByID);
      made := made + [entry];
    }
    entries := made;
    SortPreorders();
    response := Sort(ByUUID, made);
  }
}
