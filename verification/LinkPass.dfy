/** The linking pass itself: provider states updated in place, in whatever order Go's maps iterate
    (internal/reconcile/link.go). */
module LinkPass {
  import opened Quotas
  import opened Model
  import opened Linking

  /** The links stored for one provider, by person. */
  function LinksOf(existing: seq<Link>, providerID: int): map<int, Link> {
    if existing == [] then map[]
    else
      var front, l := LinksOf(existing[..|existing| - 1], providerID), existing[|existing| - 1];
      if l.providerID == providerID then front[l.userID := l] else front
  }

  predicate DistinctAccounts(accounts: seq<Account>) {
    forall i, j | 0 <= i < j < |accounts| :: accounts[i].externalID != accounts[j].externalID
  }

  /** No account is linked to two people; links are filed under their own person. */
  predicate UniqueOwners(links: map<int, Link>) {
    && (forall u | u in links :: links[u].userID == u)
    && (forall u, w | u in links && w in links && links[u].externalID == links[w].externalID :: u == w)
  }

  /** The links adopted in this pass, once each. */
  ghost predicate AreNew(newLinks: seq<Link>, linked: map<int, Link>, site: Site) {
    && (forall l | l in newLinks :: l.providerID == site.providerID)
    && (forall l | l in newLinks :: l.userID in linked && linked[l.userID] == l && l.userID !in site.links)
    && (forall u | u in linked && u !in site.links :: linked[u] in newLinks && linked[u].userID == u)
    && (forall i, j | 0 <= i < j < |newLinks| :: newLinks[i].userID != newLinks[j].userID)
  }

  function AsSet(issues: seq<Issue>): set<Issue> {
    set i | i in issues
  }

  /** The next key of a map, as Go's iteration may choose it. */
  method Next<T(==)>(todo: set<T>) returns (x: T)
    requires todo != {}
    ensures x in todo
  {
    x :| x in todo;
  }

  lemma AsSetAppend(issues: seq<Issue>, i: Issue)
    ensures AsSet(issues + [i]) == AsSet(issues) + {i}
  {
  }

  function OneIssue(i: Option<Issue>): set<Issue> {
    if i.Some? then {i.value} else {}
  }

  /** What revalidation has reported while some people are still to do. */
  function LinkIssues(site: Site, users: seq<User>, todo: set<int>): set<Issue> {
    set u | u in site.links && u !in todo && LinkIssue(site, users, u).Some? :: LinkIssue(site, users, u).value
  }

  lemma OneLessToDo(site: Site, users: seq<User>, todo: set<int>, u: int)
    requires u in todo && u in site.links
    ensures var i := LinkIssue(site, users, u);
            LinkIssues(site, users, todo - {u}) ==
            LinkIssues(site, users, todo) + OneIssue(i)
  {
  }

  // ----- direct matches, one match value at a time

  lemma {:induction false} ClaimantsExactly(users: seq<User>, linked: map<int, Link>, key: MatchKey, value: string, u: User)
    ensures u in Claimants(users, linked, key, value) <==> u in users && u.id !in linked && UserMatch(u, key) == value
  {
    if users != [] {
      ClaimantsExactly(users[..|users| - 1], linked, key, value, u);
      assert users == users[..|users| - 1] + [users[|users| - 1]];
    }
  }

  lemma {:induction false} HoldersExactly(accounts: seq<Account>, owned: set<string>, key: MatchKey, value: string, a: Account)
    ensures a in Holders(accounts, owned, key, value) <==>
            a in accounts && Free(a, owned) && AccountMatch(a, key) == value
  {
    if accounts != [] {
      HoldersExactly(accounts[..|accounts| - 1], owned, key, value, a);
      assert accounts == accounts[..|accounts| - 1] + [accounts[|accounts| - 1]];
    }
  }

  lemma {:induction false} IndexUsersExactly(users: seq<User>, u: User)
    requires DistinctUsers(users)
    ensures u in users <==> u.id in IndexUsers(users) && IndexUsers(users)[u.id] == u
  {
    if users != [] {
      var n := |users| - 1;
      IndexUsersExactly(users[..n], u);
      assert users == users[..n] + [users[n]];
      if u in users[..n] {
        var i :| 0 <= i < n && users[i] == u;
        assert u.id != users[n].id;
      }
    }
  }

  lemma {:induction false} IndexedById(users: seq<User>)
    ensures forall id | id in IndexUsers(users) :: IndexUsers(users)[id].id == id && IndexUsers(users)[id] in users
  {
    if users != [] {
      var n := |users| - 1;
      IndexedById(users[..n]);
      assert users == users[..n] + [users[n]];
    }
  }

  /** The direct links of the people with certain match values. */
  function DirectLinksAmong(site: Site, users: seq<User>, v: View, values: set<string>): map<int, Link> {
    map u | u in DirectLinks(site, users, v) && UserMatch(IndexUsers(users)[u], site.key) in values ::
      DirectLinks(site, users, v)[u]
  }

  function DirectIssuesAmong(site: Site, users: seq<User>, v: View, values: set<string>): set<Issue> {
    set u | u in users && UserMatch(u, site.key) in values && DirectIssue(site, users, v, u).Some? ::
      DirectIssue(site, users, v, u).value
  }

  /** What one match value adds. */
  function ValueLinks(site: Site, people: seq<User>, accounts: seq<Account>): map<int, Link> {
    if |people| == 1 && |accounts| == 1
    then map[people[0].id := NewLink(site, people[0].id, accounts[0].externalID)]
    else map[]
  }

  function Ambiguities(people: seq<User>): set<Issue> {
    set u | u in people :: Issue(Ambiguous, Some(u.id), "")
  }

  function ValueIssues(people: seq<User>, accounts: seq<Account>): set<Issue> {
    if |accounts| == 0 || (|people| == 1 && |accounts| == 1) then {} else Ambiguities(people)
  }

  /** Who gets a direct link because of one match value: its only claimant, if it has only one holder. */
  lemma DirectLinksOfValue(site: Site, users: seq<User>, v: View, value: string, u: int)
    requires DistinctUsers(users) && value != ""
    ensures var links := ValueLinks(site, Claimants(users, v.linked, site.key, value),
                                    Holders(site.accounts, Owned(v), site.key, value));
            && (u in links <==> u in DirectLinks(site, users, v) && UserMatch(IndexUsers(users)[u], site.key) == value)
            && (u in links ==> links[u] == DirectLinks(site, users, v)[u])
  {
    var people := Claimants(users, v.linked, site.key, value);
    if |people| == 1 {
      ClaimantsExactly(users, v.linked, site.key, value, people[0]);
      IndexUsersExactly(users, people[0]);
    }
    if u in DirectLinks(site, users, v) {
      IndexedById(users);
      ClaimantsExactly(users, v.linked, site.key, value, IndexUsers(users)[u]);
    }
  }

  lemma ValueAddsLinks(site: Site, users: seq<User>, v: View, values: set<string>, value: string)
    requires DistinctUsers(users) && value != "" && value !in values
    ensures DirectLinksAmong(site, users, v, values + {value}) ==
            DirectLinksAmong(site, users, v, values) +
            ValueLinks(site, Claimants(users, v.linked, site.key, value), Holders(site.accounts, Owned(v), site.key, value))
  {
    var links := ValueLinks(site, Claimants(users, v.linked, site.key, value), Holders(site.accounts, Owned(v), site.key, value));
    forall u: int
      ensures u in links <==> u in DirectLinks(site, users, v) && UserMatch(IndexUsers(users)[u], site.key) == value
      ensures u in links ==> links[u] == DirectLinks(site, users, v)[u]
    {
      DirectLinksOfValue(site, users, v, value, u);
    }
    LinksAmongAdds(site, users, v, values, value, links);
  }

  lemma LinksAmongAdds(site: Site, users: seq<User>, v: View, values: set<string>, value: string, links: map<int, Link>)
    requires value !in values
    requires forall u :: u in links <==> u in DirectLinks(site, users, v) && UserMatch(IndexUsers(users)[u], site.key) == value
    requires forall u | u in links :: links[u] == DirectLinks(site, users, v)[u]
    ensures DirectLinksAmong(site, users, v, values + {value}) == DirectLinksAmong(site, users, v, values) + links
  {
  }

  lemma ValueAddsIssues(site: Site, users: seq<User>, v: View, values: set<string>, value: string)
    requires value != ""
    ensures DirectIssuesAmong(site, users, v, values + {value}) ==
            DirectIssuesAmong(site, users, v, values) +
            ValueIssues(Claimants(users, v.linked, site.key, value), Holders(site.accounts, Owned(v), site.key, value))
  {
    var people := Claimants(users, v.linked, site.key, value);
    forall u: User ensures u in people <==> u in users && u.id !in v.linked && UserMatch(u, site.key) == value {
      ClaimantsExactly(users, v.linked, site.key, value, u);
    }
  }

  /** Looking a key up in a Go map of slices. */
  function Found<T>(groups: map<string, seq<T>>, value: string): seq<T> {
    if value in groups then groups[value] else []
  }

  /** The people without a link, grouped by what they have to match on. */
  ghost predicate GroupsUsers(groups: map<string, seq<User>>, users: seq<User>, linked: map<int, Link>, key: MatchKey) {
    && (forall value | value in groups :: value != "" && groups[value] != [])
    && (forall value: string | value != "" :: Found(groups, value) == Claimants(users, linked, key, value))
  }

  /** The free accounts, grouped by what they can be matched on. */
  ghost predicate GroupsAccounts(groups: map<string, seq<Account>>, accounts: seq<Account>, owned: set<string>, key: MatchKey) {
    forall value: string | value != "" :: Found(groups, value) == Holders(accounts, owned, key, value)
  }

  lemma UserGrouped(groups: map<string, seq<User>>, users: seq<User>, linked: map<int, Link>, key: MatchKey, u: User)
    requires GroupsUsers(groups, users, linked, key)
    ensures var value := UserMatch(u, key);
            var after := if u.id !in linked && value != "" then groups[value := Found(groups, value) + [u]] else groups;
            GroupsUsers(after, users + [u], linked, key)
  {
    var value := UserMatch(u, key);
    var after := if u.id !in linked && value != "" then groups[value := Found(groups, value) + [u]] else groups;
    forall other: string | other != "" ensures Found(after, other) == Claimants(users + [u], linked, key, other) {
      assert (users + [u])[..|users|] == users;
      assert Found(groups, other) == Claimants(users, linked, key, other);
    }
  }

  method GroupUsers(users: seq<User>, linked: map<int, Link>, key: MatchKey) returns (groups: map<string, seq<User>>)
    ensures GroupsUsers(groups, users, linked, key)
  {
    groups := map[];
    for n := 0 to |users|
      invariant GroupsUsers(groups, users[..n], linked, key)
    {
      UserGrouped(groups, users[..n], linked, key, users[n]);
      assert users[..n + 1] == users[..n] + [users[n]];
      var value := UserMatch(users[n], key);
      if users[n].id in linked || value == "" {
        continue;
      }
      groups := groups[value := Found(groups, value) + [users[n]]];
    }
    assert users[..|users|] == users;
  }

  lemma AccountGrouped(groups: map<string, seq<Account>>, accounts: seq<Account>, owned: set<string>, key: MatchKey, a: Account)
    requires GroupsAccounts(groups, accounts, owned, key)
    ensures var value := AccountMatch(a, key);
            var after := if Free(a, owned) && value != "" then groups[value := Found(groups, value) + [a]] else groups;
            GroupsAccounts(after, accounts + [a], owned, key)
  {
    var value := AccountMatch(a, key);
    var after := if Free(a, owned) && value != "" then groups[value := Found(groups, value) + [a]] else groups;
    forall other: string | other != "" ensures Found(after, other) == Holders(accounts + [a], owned, key, other) {
      assert (accounts + [a])[..|accounts|] == accounts;
      assert Found(groups, other) == Holders(accounts, owned, key, other);
    }
  }

  method GroupAccounts(accounts: seq<Account>, owner: map<string, int>, ghost owned: set<string>, key: MatchKey)
    returns (groups: map<string, seq<Account>>)
    requires owner.Keys == owned
    ensures GroupsAccounts(groups, accounts, owned, key)
  {
    groups := map[];
    for n := 0 to |accounts|
      invariant GroupsAccounts(groups, accounts[..n], owned, key)
    {
      AccountGrouped(groups, accounts[..n], owned, key, accounts[n]);
      assert accounts[..n + 1] == accounts[..n] + [accounts[n]];
      var value := AccountMatch(accounts[n], key);
      if !accounts[n].Writable() || accounts[n].externalID in owner || value == "" {
        continue;
      }
      groups := groups[value := Found(groups, value) + [accounts[n]]];
    }
    assert accounts[..|accounts|] == accounts;
  }

  lemma MatchedIsGrouped(site: Site, users: seq<User>, v: View, groups: map<string, seq<User>>, u: User)
    requires GroupsUsers(groups, users, v.linked, site.key) && u in users
    requires DirectAccount(site, users, v, u).Some? || DirectIssue(site, users, v, u).Some?
    ensures UserMatch(u, site.key) in groups
  {
    var value := UserMatch(u, site.key);
    ClaimantsExactly(users, v.linked, site.key, value, u);
    assert u in Found(groups, value);
  }

  lemma AllValuesDone(site: Site, users: seq<User>, v: View, groups: map<string, seq<User>>)
    requires DistinctUsers(users) && GroupsUsers(groups, users, v.linked, site.key)
    ensures DirectLinksAmong(site, users, v, groups.Keys) == DirectLinks(site, users, v)
    ensures Direct(site, users, v).issues == v.issues + DirectIssuesAmong(site, users, v, groups.Keys)
  {
    IndexedById(users);
    forall u | u in DirectLinks(site, users, v) ensures UserMatch(IndexUsers(users)[u], site.key) in groups {
      MatchedIsGrouped(site, users, v, groups, IndexUsers(users)[u]);
    }
    forall u | u in users && DirectIssue(site, users, v, u).Some? ensures UserMatch(u, site.key) in groups {
      MatchedIsGrouped(site, users, v, groups, u);
    }
  }

  lemma NothingToMatchOn(site: Site, users: seq<User>, v: View)
    requires site.key == NoKey
    ensures Direct(site, users, v) == v
  {
    assert DirectLinks(site, users, v) == map[];
  }

  // ----- the subject join

  /** The subjects that were claimed and not found conflicting. */
  function Agreed(userBySubject: map<string, int>, conflicting: set<string>): map<string, int> {
    map s | s in userBySubject && s !in conflicting :: userBySubject[s]
  }

  // ----- what is left

  function UnlinkedAmong(users: seq<User>, v: View): set<Issue> {
    set u | u in users && LeftOut(v, u) :: Issue(Unlinked, Some(u.id), "")
  }

  function UnmanagedAmong(accounts: seq<Account>, v: View): set<Issue> {
    set a | a in accounts && Free(a, Owned(v)) :: Issue(Unmanaged, None, a.externalID)
  }

  lemma UnlinkedAppend(users: seq<User>, i: nat, v: View)
    requires i < |users|
    ensures UnlinkedAmong(users[..i + 1], v) ==
            UnlinkedAmong(users[..i], v) + if LeftOut(v, users[i]) then {Issue(Unlinked, Some(users[i].id), "")} else {}
    ensures forall u :: HasAmbiguity(v.issues + UnlinkedAmong(users[..i], v), u) <==> HasAmbiguity(v.issues, u)
  {
    assert users[..i + 1] == users[..i] + [users[i]];
    forall u ensures HasAmbiguity(v.issues + UnlinkedAmong(users[..i], v), u) <==> HasAmbiguity(v.issues, u) {
      if HasAmbiguity(v.issues, u) {
        var x :| x in v.issues && x.kind.Ambiguous? && x.user == Some(u);
        assert x in v.issues + UnlinkedAmong(users[..i], v);
      }
    }
  }

  lemma Associate(a: map<int, Link>, b: map<int, Link>, c: map<int, Link>)
    ensures (a + b) + c == a + (b + c)
  {
  }

  lemma SameAccount(accounts: seq<Account>, a: Account, b: Account)
    requires DistinctAccounts(accounts) && a in accounts && b in accounts && a.externalID == b.externalID
    ensures a == b
  {
  }

  lemma InverseGrows(owner: map<string, int>, linked: map<int, Link>, excluded: set<int>, u: int)
    requires IsInverse(owner, linked, excluded) && UniqueOwners(linked) && u in linked && u in excluded
    ensures IsInverse(owner[linked[u].externalID := u], linked, excluded - {u})
  {
  }

  class ProviderState {
    const site: Site
    var byID: map<string, Account>
    var linked: map<int, Link>
    var owner: map<string, int>
    var dangling: set<int>
    var newLinks: seq<Link>
    var issues: seq<Issue>

    /** Between the steps of a pass. Links that were there before are all still there, unchanged. */
    ghost predicate Valid()
      reads this
    {
      && byID == IndexAccounts(site.accounts)
      && IsInverse(owner, linked, dangling)
      && dangling <= site.links.Keys
      && (forall u | u in site.links :: u in linked && linked[u] == site.links[u])
      && AreNew(newLinks, linked, site)
    }

    ghost function Shown(): View
      reads this
    {
      View(linked, dangling, AsSet(issues))
    }

    constructor (providerID: int, key: MatchKey, accounts: seq<Account>, existing: seq<Link>)
      ensures site == Site(providerID, key, accounts, LinksOf(existing, providerID))
      ensures byID == IndexAccounts(accounts) && linked == site.links
      ensures owner == map[] && dangling == {} && newLinks == [] && issues == []
    {
      var accountsByID := map[];
      for i := 0 to |accounts|
        invariant accountsByID == IndexAccounts(accounts[..i])
      {
        assert accounts[..i + 1][..i] == accounts[..i];
        accountsByID := accountsByID[accounts[i].externalID := accounts[i]];
      }
      assert accounts[..|accounts|] == accounts;
      var links := map[];
      for i := 0 to |existing|
        invariant links == LinksOf(existing[..i], providerID)
      {
        assert existing[..i + 1][..i] == existing[..i];
        if existing[i].providerID == providerID {
          links := links[existing[i].userID := existing[i]];
        }
      }
      assert existing[..|existing|] == existing;
      site := Site(providerID, key, accounts, links);
      byID, linked, owner, dangling, newLinks, issues := accountsByID, links, map[], {}, [], [];
    }

    /** One link of Revalidate: the account gets its owner back, or the link is excluded and reported. */
    method RevalidateLink(u: int, users: seq<User>, people: map<int, User>)
      requires byID == IndexAccounts(site.accounts) && people == IndexUsers(users)
      requires u in linked && u in site.links && linked[u] == site.links[u]
      modifies `owner, `dangling, `issues
      ensures if Holds(site, users, u)
              then owner == old(owner)[linked[u].externalID := u] && dangling == old(dangling)
              else owner == old(owner) && dangling == old(dangling) + {u}
      ensures AsSet(issues) == old(AsSet(issues)) + OneIssue(LinkIssue(site, users, u))
    {
      var link := linked[u];
      if u !in people {
        dangling := dangling + {u};
        return;
      }
      if link.externalID !in byID || !byID[link.externalID].Writable() {
        AsSetAppend(issues, Issue(Dangling, Some(u), link.externalID));
        issues := issues + [Issue(Dangling, Some(u), link.externalID)];
        dangling := dangling + {u};
        return;
      }
      if link.origin.Matched? {
        var want, got := UserMatch(people[u], site.key), AccountMatch(byID[link.externalID], site.key);
        if want != "" && want != got {
          AsSetAppend(issues, Issue(Stale, Some(u), link.externalID));
          issues := issues + [Issue(Stale, Some(u), link.externalID)];
          dangling := dangling + {u};
          return;
        }
      }
      owner := owner[link.externalID := u];
    }

    /** Checks the links that were there before, in any order. */
    method Revalidate(users: seq<User>)
      requires byID == IndexAccounts(site.accounts) && linked == site.links && UniqueOwners(site.links)
      requires owner == map[] && dangling == {} && newLinks == [] && issues == []
      modifies `owner, `dangling, `issues
      ensures Valid() && Shown() == Revalidated(site, users)
    {
      var people := IndexPeople(users);
      var todo := linked.Keys;
      while todo != {}
        invariant todo <= linked.Keys
        invariant dangling == set u | u in site.links && u !in todo && !Holds(site, users, u)
        invariant AsSet(issues) == LinkIssues(site, users, todo)
        invariant IsInverse(owner, linked, dangling + todo)
      {
        var u := Next(todo);
        OneLessToDo(site, users, todo, u);
        InverseGrows(owner, linked, dangling + todo, u);
        ghost var excluded := dangling + todo;
        RevalidateLink(u, users, people);
        assert dangling + (todo - {u}) == if Holds(site, users, u) then excluded - {u} else excluded;
        todo := todo - {u};
      }
      assert dangling + todo == dangling;
    }

    lemma InverseAdopts(u: int, e: string)
      requires IsInverse(owner, linked, dangling) && u !in linked && u !in dangling && e !in owner
      ensures IsInverse(owner[e := u], linked[u := NewLink(site, u, e)], dangling)
    {
    }

    lemma NewAdopts(u: int, e: string)
      requires AreNew(newLinks, linked, site) && u !in linked && u !in site.links
      ensures AreNew(newLinks + [NewLink(site, u, e)], linked[u := NewLink(site, u, e)], site)
    {
    }

    method Adopt(u: int, e: string)
      requires Valid() && u !in linked && e !in owner
      modifies `linked, `owner, `newLinks
      ensures Valid()
      ensures linked == old(linked)[u := NewLink(site, u, e)] && owner == old(owner)[e := u]
    {
      assert u !in dangling;
      InverseAdopts(u, e);
      NewAdopts(u, e);
      var link := NewLink(site, u, e);
      linked := linked[u := link];
      owner := owner[e := u];
      newLinks := newLinks + [link];
    }

    lemma OwnersAreOwned()
      requires IsInverse(owner, linked, dangling)
      ensures owner.Keys == Owned(Shown())
    {
    }

    method ReportAmbiguous(people: seq<User>)
      modifies `issues
      ensures AsSet(issues) == old(AsSet(issues)) + Ambiguities(people)
    {
      for i := 0 to |people|
        invariant AsSet(issues) == old(AsSet(issues)) + Ambiguities(people[..i])
      {
        AsSetAppend(issues, Issue(Ambiguous, Some(people[i].id), ""));
        assert people[..i + 1] == people[..i] + [people[i]];
        issues := issues + [Issue(Ambiguous, Some(people[i].id), "")];
      }
      assert people[..|people|] == people;
    }

    /** What matchDirect does about one match value. */
    method MatchValue(people: seq<User>, accounts: seq<Account>)
      requires Valid()
      requires |people| == 1 && |accounts| == 1 ==> people[0].id !in linked && accounts[0].externalID !in owner
      modifies `linked, `owner, `newLinks, `issues
      ensures Valid()
      ensures linked == old(linked) + ValueLinks(site, people, accounts)
      ensures owner == if |people| == 1 && |accounts| == 1 then old(owner)[accounts[0].externalID := people[0].id] else old(owner)
      ensures AsSet(issues) == old(AsSet(issues)) + ValueIssues(people, accounts)
    {
      if |accounts| == 0 {
        return;
      }
      if |people| == 1 && |accounts| == 1 {
        Adopt(people[0].id, accounts[0].externalID);
        return;
      }
      ReportAmbiguous(people);
    }

    /** Every owner was one before, or got the account for one of these match values. */
    ghost predicate OwnedThrough(v: View, values: set<string>)
      reads this
    {
      forall e | e in owner && e !in Owned(v) ::
        exists a :: a in site.accounts && a.externalID == e && AccountMatch(a, site.key) in values
    }

    /** A match value that is still to do adopts nobody who is linked and nothing that is owned by now. */
    lemma StillFree(users: seq<User>, v: View, values: set<string>, value: string, people: seq<User>, accounts: seq<Account>)
      requires DistinctUsers(users) && DistinctAccounts(site.accounts) && value !in values
      requires linked == v.linked + DirectLinksAmong(site, users, v, values) && OwnedThrough(v, values)
      requires people == Claimants(users, v.linked, site.key, value)
      requires accounts == Holders(site.accounts, Owned(v), site.key, value)
      requires |people| == 1 && |accounts| == 1
      ensures people[0].id !in linked && accounts[0].externalID !in owner
    {
      ClaimantsExactly(users, v.linked, site.key, value, people[0]);
      HoldersExactly(site.accounts, Owned(v), site.key, value, accounts[0]);
      IndexUsersExactly(users, people[0]);
      forall a | a in site.accounts && a.externalID == accounts[0].externalID ensures AccountMatch(a, site.key) == value {
        SameAccount(site.accounts, a, accounts[0]);
      }
    }

    /** matchDirect from the view v, with these match values done. */
    ghost predicate Matched(users: seq<User>, v: View, values: set<string>)
      reads this
    {
      && Valid() && dangling == v.dangling
      && linked == v.linked + DirectLinksAmong(site, users, v, values)
      && AsSet(issues) == v.issues + DirectIssuesAmong(site, users, v, values)
      && OwnedThrough(v, values)
    }

    lemma NothingMatchedYet(users: seq<User>)
      requires Valid()
      ensures Matched(users, Shown(), {})
    {
      OwnersAreOwned();
    }

    method MatchNext(people: seq<User>, accounts: seq<Account>, ghost users: seq<User>, ghost v: View,
                     ghost values: set<string>, ghost value: string)
      requires DistinctUsers(users) && DistinctAccounts(site.accounts) && value != "" && value !in values
      requires Matched(users, v, values)
      requires people == Claimants(users, v.linked, site.key, value)
      requires accounts == Holders(site.accounts, Owned(v), site.key, value)
      modifies `linked, `owner, `newLinks, `issues
      ensures Matched(users, v, values + {value})
    {
      ValueAddsLinks(site, users, v, values, value);
      ValueAddsIssues(site, users, v, values, value);
      ghost var links, before := ValueLinks(site, people, accounts), owner;
      if |people| == 1 && |accounts| == 1 {
        StillFree(users, v, values, value, people, accounts);
        HoldersExactly(site.accounts, Owned(v), site.key, value, accounts[0]);
      }
      MatchValue(people, accounts);
      Associate(v.linked, DirectLinksAmong(site, users, v, values), links);
      forall e | e in owner && e !in Owned(v)
        ensures exists a :: a in site.accounts && a.externalID == e && AccountMatch(a, site.key) in values + {value}
      {
        if e in before {
          var a :| a in site.accounts && a.externalID == e && AccountMatch(a, site.key) in values;
        }
      }
    }

    /** Match value by match value, in any order. */
    method MatchValues(usersByKey: map<string, seq<User>>, accountsByKey: map<string, seq<Account>>,
                       ghost users: seq<User>, ghost v: View)
      requires DistinctUsers(users) && DistinctAccounts(site.accounts) && Matched(users, v, {})
      requires GroupsUsers(usersByKey, users, v.linked, site.key)
      requires GroupsAccounts(accountsByKey, site.accounts, Owned(v), site.key)
      modifies `linked, `owner, `newLinks, `issues
      ensures Matched(users, v, usersByKey.Keys)
    {
      var todo := usersByKey.Keys;
      ghost var done := {};
      while todo != {}
        invariant todo !! done && todo + done == usersByKey.Keys
        invariant Matched(users, v, done)
      {
        var value := Next(todo);
        assert usersByKey[value] == Found(usersByKey, value);
        MatchNext(usersByKey[value], Found(accountsByKey, value), users, v, done, value);
        todo, done := todo - {value}, done + {value};
      }
    }

    /** Groups both sides by match value and settles each value on its own; without a match key, nothing. */
    method MatchDirect(users: seq<User>)
      requires Valid() && DistinctUsers(users) && DistinctAccounts(site.accounts)
      modifies `linked, `owner, `newLinks, `issues
      ensures Valid() && Shown() == Direct(site, users, old(Shown()))
    {
      ghost var v := Shown();
      if site.key == NoKey {
        NothingToMatchOn(site, users, v);
        return;
      }
      OwnersAreOwned();
      var usersByKey := GroupUsers(users, linked, site.key);
      var accountsByKey := GroupAccounts(site.accounts, owner, Owned(v), site.key);
      NothingMatchedYet(users);
      MatchValues(usersByKey, accountsByKey, users, v);
      AllValuesDone(site, users, v, usersByKey);
    }

    /** The join about one account. */
    method JoinAccount(a: Account, userBySubject: map<string, int>, conflicting: set<string>)
      requires Valid()
      modifies `linked, `owner, `newLinks, `issues
      ensures Valid()
      ensures Shown() == JoinStep(site, a, old(Shown()), Agreed(userBySubject, conflicting))
    {
      OwnersAreOwned();
      if !a.Writable() || a.subject == "" || a.externalID in owner {
        return;
      }
      if a.subject !in userBySubject || a.subject in conflicting {
        return;
      }
      var u := userBySubject[a.subject];
      if u in linked {
        AsSetAppend(issues, Issue(Ambiguous, Some(u), a.externalID));
        issues := issues + [Issue(Ambiguous, Some(u), a.externalID)];
        return;
      }
      Adopt(u, a.externalID);
    }

    /** The join on one provider, account by account. */
    method JoinSubjects(userBySubject: map<string, int>, conflicting: set<string>)
      requires Valid()
      modifies `linked, `owner, `newLinks, `issues
      ensures Valid()
      ensures Shown() == Joined(site, site.accounts, old(Shown()), Agreed(userBySubject, conflicting))
    {
      for i := 0 to |site.accounts|
        invariant Valid()
        invariant Shown() == Joined(site, site.accounts[..i], old(Shown()), Agreed(userBySubject, conflicting))
      {
        assert site.accounts[..i + 1][..i] == site.accounts[..i];
        JoinAccount(site.accounts[i], userBySubject, conflicting);
      }
      assert site.accounts[..|site.accounts|] == site.accounts;
    }

    /** Whether an ambiguity naming somebody has been reported. */
    method FindAmbiguity(u: int) returns (found: bool)
      ensures found <==> HasAmbiguity(AsSet(issues), u)
    {
      for i := 0 to |issues|
        invariant forall j | 0 <= j < i :: !(issues[j].kind.Ambiguous? && issues[j].user == Some(u))
      {
        if issues[i].kind.Ambiguous? && issues[i].user == Some(u) {
          assert issues[i] in AsSet(issues);
          return true;
        }
      }
      return false;
    }

    method ReportUnlinked(users: seq<User>)
      modifies `issues
      ensures AsSet(issues) == old(AsSet(issues)) + UnlinkedAmong(users, old(Shown()))
    {
      ghost var v := Shown();
      for i := 0 to |users|
        invariant AsSet(issues) == v.issues + UnlinkedAmong(users[..i], v)
      {
        var u := users[i];
        UnlinkedAppend(users, i, v);
        if u.id in linked && u.id !in dangling {
          continue;
        }
        if u.id in dangling {
          continue;
        }
        var ambiguous := FindAmbiguity(u.id);
        if ambiguous {
          continue;
        }
        AsSetAppend(issues, Issue(Unlinked, Some(u.id), ""));
        issues := issues + [Issue(Unlinked, Some(u.id), "")];
      }
      assert users[..|users|] == users;
    }

    method ReportUnmanaged(ghost v: View)
      requires owner.Keys == Owned(v)
      modifies `issues
      ensures AsSet(issues) == old(AsSet(issues)) + UnmanagedAmong(site.accounts, v)
    {
      for i := 0 to |site.accounts|
        invariant AsSet(issues) == old(AsSet(issues)) + UnmanagedAmong(site.accounts[..i], v)
      {
        var a := site.accounts[i];
        assert site.accounts[..i + 1] == site.accounts[..i] + [a];
        if !a.Writable() || a.externalID in owner {
          continue;
        }
        AsSetAppend(issues, Issue(Unmanaged, None, a.externalID));
        issues := issues + [Issue(Unmanaged, None, a.externalID)];
      }
      assert site.accounts[..|site.accounts|] == site.accounts;
    }

    /** The issues of Collected, found by two loops. */
    method CollectIssues(users: seq<User>)
      requires Valid()
      modifies `issues
      ensures Valid() && Shown() == Collected(site, users, old(Shown()))
    {
      ghost var v := Shown();
      OwnersAreOwned();
      ReportUnlinked(users);
      ReportUnmanaged(v);
    }
  }

  // ----- all providers

  /** The claims counted so far: one of them is recorded per subject, and a subject is conflicting
      exactly when two of them differ. */
  ghost predicate Tally(claims: set<Claim>, userBySubject: map<string, int>, conflicting: set<string>) {
    && (forall s | s in userBySubject :: Claim(s, userBySubject[s]) in claims)
    && (forall c | c in claims :: c.subject in userBySubject && (c.user == userBySubject[c.subject] || c.subject in conflicting))
    && (forall s | s in conflicting :: s in userBySubject && exists c :: c in claims && c.subject == s && c.user != userBySubject[s])
  }

  /** Which claim came first does not matter. */
  lemma TallyAgrees(claims: set<Claim>, userBySubject: map<string, int>, conflicting: set<string>)
    requires Tally(claims, userBySubject, conflicting)
    ensures Agreed(userBySubject, conflicting) == Subjects(claims)
  {
    var agreed := Agreed(userBySubject, conflicting);
    forall s | s in agreed ensures Claim(s, agreed[s]) in claims && Undisputed(claims, Claim(s, agreed[s])) {
    }
    forall c | c in claims && Undisputed(claims, c) ensures c.subject in agreed && agreed[c.subject] == c.user {
      assert Claim(c.subject, userBySubject[c.subject]) in claims;
    }
  }

  /** The claims of one provider read off its owner map, as far as it has been walked. */
  function OwnerClaims(site: Site, owner: map<string, int>, todo: set<string>): set<Claim> {
    set e | e in owner && e !in todo && SubjectOf(site, e) != "" :: Claim(SubjectOf(site, e), owner[e])
  }

  lemma OwnerClaimsAreClaims(site: Site, v: View, owner: map<string, int>)
    requires IsInverse(owner, v.linked, v.dangling)
    ensures OwnerClaims(site, owner, {}) == Claims(site, v)
  {
    forall c | c in Claims(site, v) ensures c in OwnerClaims(site, owner, {}) {
      var u :| LiveIn(v.linked, v.dangling, u) && SubjectOf(site, v.linked[u].externalID) != "" &&
               c == Claim(SubjectOf(site, v.linked[u].externalID), u);
      assert v.linked[u].externalID in owner;
    }
  }

  lemma OneOwnerLess(site: Site, owner: map<string, int>, todo: set<string>, e: string)
    requires e in todo && e in owner
    ensures OwnerClaims(site, owner, todo - {e}) ==
            OwnerClaims(site, owner, todo) + if SubjectOf(site, e) != "" then {Claim(SubjectOf(site, e), owner[e])} else {}
  {
  }

  /** The claims of several providers, each seen as a view. */
  function ClaimsIn(sites: seq<Site>, views: seq<View>): set<Claim>
    requires |sites| == |views|
  {
    if sites == [] then {}
    else
      var n := |sites| - 1;
      ClaimsIn(sites[..n], views[..n]) + Claims(sites[n], views[n])
  }

  /** Records one claim. */
  method Count(subject: string, user: int, userBySubject: map<string, int>, conflicting: set<string>, ghost claims: set<Claim>)
    returns (byNow: map<string, int>, disputed: set<string>)
    requires Tally(claims, userBySubject, conflicting)
    ensures Tally(claims + {Claim(subject, user)}, byNow, disputed)
  {
    ghost var after := claims + {Claim(subject, user)};
    assert Claim(subject, user) in after;
    byNow, disputed := userBySubject, conflicting;
    if subject in userBySubject && userBySubject[subject] != user {
      disputed := disputed + {subject};
    } else {
      byNow := byNow[subject := user];
    }
    forall s | s in disputed ensures exists c :: c in after && c.subject == s && c.user != byNow[s] {
      if s in conflicting {
        var c :| c in claims && c.subject == s && c.user != userBySubject[s];
        assert c in after;
      }
    }
  }

  /** The claims of one provider, its owner map walked in any order. */
  method GatherFrom(state: ProviderState, before: map<string, int>, disputed: set<string>, ghost claims: set<Claim>)
    returns (userBySubject: map<string, int>, conflicting: set<string>)
    requires state.Valid() && Tally(claims, before, disputed)
    ensures Tally(claims + Claims(state.site, state.Shown()), userBySubject, conflicting)
  {
    userBySubject, conflicting := before, disputed;
    var owner := state.owner;
    var todo := owner.Keys;
    ghost var seen := claims;
    assert OwnerClaims(state.site, owner, todo) == {};
    while todo != {}
      invariant todo <= owner.Keys
      invariant seen == claims + OwnerClaims(state.site, owner, todo)
      invariant Tally(seen, userBySubject, conflicting)
    {
      var e := Next(todo);
      OneOwnerLess(state.site, owner, todo, e);
      todo := todo - {e};
      var subject := if e in state.byID then state.byID[e].subject else "";
      if subject == "" {
        continue;
      }
      userBySubject, conflicting := Count(subject, owner[e], userBySubject, conflicting, seen);
      seen := seen + {Claim(subject, owner[e])};
    }
    OwnerClaimsAreClaims(state.site, state.Shown(), owner);
  }

  /** A state as it is loaded, before anything is decided. */
  ghost predicate Loaded(s: ProviderState)
    reads s
  {
    && s.byID == IndexAccounts(s.site.accounts) && s.linked == s.site.links
    && s.owner == map[] && s.dangling == {} && s.newLinks == [] && s.issues == []
    && UniqueOwners(s.site.links) && DistinctAccounts(s.site.accounts)
  }

  predicate DistinctStates(states: seq<ProviderState>) {
    forall i, j | 0 <= i < j < |states| :: states[i] != states[j]
  }

  function SitesOf(states: seq<ProviderState>): seq<Site> {
    seq(|states|, i requires 0 <= i < |states| => states[i].site)
  }

  /** A provider between two parts of a pass, seen as a view. */
  ghost predicate At(s: ProviderState, v: View)
    reads s
  {
    s.Valid() && s.Shown() == v
  }

  ghost predicate AllAt(states: seq<ProviderState>, views: seq<View>)
    reads states
  {
    |views| == |states| && forall i | 0 <= i < |states| :: At(states[i], views[i])
  }

  function DirectViews(sites: seq<Site>, users: seq<User>): seq<View> {
    seq(|sites|, i requires 0 <= i < |sites| => AfterDirect(sites[i], users))
  }

  function JoinViews(sites: seq<Site>, users: seq<User>): seq<View> {
    seq(|sites|, i requires 0 <= i < |sites| => AfterJoin(sites[i], sites, users))
  }

  function PassViews(sites: seq<Site>, users: seq<User>): seq<View> {
    seq(|sites|, i requires 0 <= i < |sites| => AfterPass(sites[i], sites, users))
  }

  lemma AllClaimsAppend(sites: seq<Site>, site: Site, users: seq<User>)
    ensures AllClaims(sites + [site], users) == AllClaims(sites, users) + Claims(site, AfterDirect(site, users))
  {
    assert forall s :: s in sites + [site] <==> s in sites || s == site;
  }

  lemma {:induction false} ClaimsOfDirect(sites: seq<Site>, users: seq<User>, views: seq<View>)
    requires |views| == |sites| && forall i | 0 <= i < |sites| :: views[i] == AfterDirect(sites[i], users)
    ensures ClaimsIn(sites, views) == AllClaims(sites, users)
  {
    if sites != [] {
      var n := |sites| - 1;
      var front, site := sites[..n], sites[n];
      ClaimsOfDirect(front, users, views[..n]);
      AllClaimsAppend(front, site, users);
      LastSite(sites);
    }
  }

  lemma LastSite(sites: seq<Site>)
    requires sites != []
    ensures sites == sites[..|sites| - 1] + [sites[|sites| - 1]]
  {
  }

  /** The owner maps of all providers, tallied into the agreed subjects of their claims. */
  method GatherSubjects(states: seq<ProviderState>, ghost views: seq<View>)
    returns (userBySubject: map<string, int>, conflicting: set<string>)
    requires AllAt(states, views)
    ensures Agreed(userBySubject, conflicting) == Subjects(ClaimsIn(SitesOf(states), views))
  {
    ghost var sites := SitesOf(states);
    userBySubject, conflicting := map[], {};
    for i := 0 to |states|
      invariant Tally(ClaimsIn(sites[..i], views[..i]), userBySubject, conflicting)
    {
      OneMoreProvider(sites, views, i);
      assert At(states[i], views[i]);
      userBySubject, conflicting := GatherFrom(states[i], userBySubject, conflicting, ClaimsIn(sites[..i], views[..i]));
    }
    assert sites[..|states|] == sites && views[..|states|] == views;
    TallyAgrees(ClaimsIn(sites, views), userBySubject, conflicting);
  }

  lemma OneMoreProvider(sites: seq<Site>, views: seq<View>, i: nat)
    requires |sites| == |views| && i < |sites|
    ensures ClaimsIn(sites[..i + 1], views[..i + 1]) == ClaimsIn(sites[..i], views[..i]) + Claims(sites[i], views[i])
  {
    assert sites[..i + 1][..i] == sites[..i] && views[..i + 1][..i] == views[..i];
  }

  /** revalidate and matchDirect on one provider. */
  method MatchDirectly(state: ProviderState, users: seq<User>, ghost v: View)
    requires Loaded(state) && DistinctUsers(users) && v == AfterDirect(state.site, users)
    modifies state
    ensures At(state, v)
  {
    state.Revalidate(users);
    state.MatchDirect(users);
  }

  method MatchAllDirectly(states: seq<ProviderState>, users: seq<User>)
    requires DistinctStates(states) && DistinctUsers(users) && forall s | s in states :: Loaded(s)
    modifies states
    ensures AllAt(states, DirectViews(SitesOf(states), users))
  {
    ghost var views := DirectViews(SitesOf(states), users);
    for i := 0 to |states|
      invariant forall j | 0 <= j < i :: At(states[j], views[j])
      invariant forall j | i <= j < |states| :: unchanged(states[j])
    {
      MatchDirectly(states[i], users, views[i]);
    }
  }

  method JoinOne(state: ProviderState, userBySubject: map<string, int>, conflicting: set<string>, ghost v: View, ghost w: View)
    requires At(state, v) && w == Joined(state.site, state.site.accounts, v, Agreed(userBySubject, conflicting))
    modifies state
    ensures At(state, w)
  {
    state.JoinSubjects(userBySubject, conflicting);
  }

  /** The join on every provider, with what all of them said about subjects. */
  method JoinAll(states: seq<ProviderState>, userBySubject: map<string, int>, conflicting: set<string>,
                 ghost before: seq<View>, ghost after: seq<View>)
    requires DistinctStates(states) && AllAt(states, before) && |after| == |states|
    requires forall i | 0 <= i < |states| ::
               after[i] == Joined(states[i].site, states[i].site.accounts, before[i], Agreed(userBySubject, conflicting))
    modifies states
    ensures AllAt(states, after)
  {
    for i := 0 to |states|
      invariant forall j | 0 <= j < i :: At(states[j], after[j])
      invariant forall j | i <= j < |states| :: unchanged(states[j])
    {
      JoinOne(states[i], userBySubject, conflicting, before[i], after[i]);
    }
  }

  /** From the direct views of all providers to their joined views. */
  method MatchBySubject(states: seq<ProviderState>, ghost users: seq<User>)
    requires DistinctStates(states) && AllAt(states, DirectViews(SitesOf(states), users))
    modifies states
    ensures AllAt(states, JoinViews(SitesOf(states), users))
  {
    ghost var before, after := DirectViews(SitesOf(states), users), JoinViews(SitesOf(states), users);
    ClaimsOfDirect(SitesOf(states), users, before);
    var userBySubject, conflicting := GatherSubjects(states, before);
    JoinViewsJoin(SitesOf(states), users, Agreed(userBySubject, conflicting));
    JoinAll(states, userBySubject, conflicting, before, after);
  }

  lemma JoinViewsJoin(sites: seq<Site>, users: seq<User>, subjects: map<string, int>)
    requires subjects == Subjects(AllClaims(sites, users))
    ensures forall i | 0 <= i < |sites| ::
              JoinViews(sites, users)[i] == Joined(sites[i], sites[i].accounts, DirectViews(sites, users)[i], subjects)
  {
  }

  method CollectOne(state: ProviderState, users: seq<User>, ghost v: View, ghost w: View)
    requires At(state, v) && w == Collected(state.site, users, v)
    modifies state
    ensures At(state, w)
  {
    state.CollectIssues(users);
  }

  method CollectAll(states: seq<ProviderState>, users: seq<User>, ghost before: seq<View>, ghost after: seq<View>)
    requires DistinctStates(states) && AllAt(states, before) && |after| == |states|
    requires forall i | 0 <= i < |states| :: after[i] == Collected(states[i].site, users, before[i])
    modifies states
    ensures AllAt(states, after)
  {
    for i := 0 to |states|
      invariant forall j | 0 <= j < i :: At(states[j], after[j])
      invariant forall j | i <= j < |states| :: unchanged(states[j])
    {
      CollectOne(states[i], users, before[i], after[i]);
    }
  }

  /** A whole linking pass over the active people. Every provider ends as AfterPass says, which knows no
      order of people's links, of match values, of owners or of providers. */
  method LinkAll(states: seq<ProviderState>, everyone: seq<User>) returns (users: seq<User>)
    requires DistinctStates(states) && DistinctUsers(everyone) && forall s | s in states :: Loaded(s)
    modifies states
    ensures users == ActiveOf(everyone)
    ensures AllAt(states, PassViews(SitesOf(states), users))
  {
    users := Active(everyone);
    ActiveDistinct(everyone);
    ghost var sites := SitesOf(states);
    MatchAllDirectly(states, users);
    MatchBySubject(states, users);
    CollectAll(states, users, JoinViews(sites, users), PassViews(sites, users));
  }

  /** The people a pass is about. */
  method Active(everyone: seq<User>) returns (users: seq<User>)
    ensures users == ActiveOf(everyone)
  {
    users := [];
    for i := 0 to |everyone|
      invariant users == ActiveOf(everyone[..i])
    {
      assert everyone[..i + 1][..i] == everyone[..i];
      if everyone[i].active {
        users := users + [everyone[i]];
      }
    }
    assert everyone[..|everyone|] == everyone;
  }

  function ActiveOf(users: seq<User>): seq<User> {
    if users == [] then []
    else
      var u := users[|users| - 1];
      ActiveOf(users[..|users| - 1]) + if u.active then [u] else []
  }

  lemma {:induction false} ActiveDistinct(users: seq<User>)
    requires DistinctUsers(users)
    ensures DistinctUsers(ActiveOf(users))
    ensures forall u :: u in ActiveOf(users) <==> u in users && u.active
  {
    if users != [] {
      var n := |users| - 1;
      ActiveDistinct(users[..n]);
      assert users == users[..n] + [users[n]];
      forall i | 0 <= i < |ActiveOf(users[..n])| ensures ActiveOf(users[..n])[i].id != users[n].id {
        assert ActiveOf(users[..n])[i] in users[..n];
      }
    }
  }
}
