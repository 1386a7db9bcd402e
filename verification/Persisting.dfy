/** Storing what a linking pass decided (internal/reconcile/link.go). */
module Persisting {
  import opened Quotas
  import opened Text
  import opened Model
  import opened Linking
  import opened LinkPass
  import opened LinkProofs
  import opened Storage

  predicate Held(links: seq<Link>, account: Key) {
    exists l :: l in links && l.Account() == account
  }

  /** New links as a pass makes them: different accounts, different people, and people who have no link
      on that provider yet. */
  predicate Fits(newLinks: seq<Link>, links: seq<Link>) {
    && (forall i, j | 0 <= i < j < |newLinks| :: newLinks[i].Account() != newLinks[j].Account())
    && (forall i, j | 0 <= i < j < |newLinks| :: newLinks[i].userID != newLinks[j].userID)
    && (forall n, l | n in newLinks && l in links :: l.userID != n.userID || l.providerID != n.providerID)
    && (forall n, m | n in newLinks && m in newLinks :: n.providerID == m.providerID)
  }

  /** The links of persist, stored one by one until one is refused. All of them are stored exactly when
      none takes over an account of a stored link. */
  method PersistLinks(store: Store, newLinks: seq<Link>) returns (ok: bool, ghost stored: nat)
    requires UniqueLinks(store.links) && Fits(newLinks, store.links)
    modifies store`links
    ensures UniqueLinks(store.links)
    ensures ok <==> forall n | n in newLinks :: !Held(old(store.links), n.Account())
    ensures stored <= |newLinks| && (ok <==> stored == |newLinks|)
    ensures !ok ==> Held(old(store.links), newLinks[stored].Account())
    ensures forall n | n in newLinks[..stored] :: !Held(old(store.links), n.Account())
    ensures forall l: Link :: l in store.links <==> l in old(store.links) || l in newLinks[..stored]
  {
    stored := 0;
    for i := 0 to |newLinks|
      invariant stored == i && UniqueLinks(store.links)
      invariant forall n | n in newLinks[..i] :: !Held(old(store.links), n.Account())
      invariant forall l: Link :: l in store.links <==> l in old(store.links) || l in newLinks[..i]
    {
      var n := newLinks[i];
      assert newLinks[..i + 1] == newLinks[..i] + [n];
      var accepted := store.UpsertLink(n);
      if !accepted {
        return false, stored;
      }
      stored := stored + 1;
    }
    ok := true;
  }

  function IDsOf(accounts: seq<Account>): set<string> {
    set a | a in accounts :: a.externalID
  }

  /** The rows of some accounts of one provider get their owner, or none; the others are as before. */
  function WithOwners(rows: map<Key, Row>, providerID: int, ids: set<string>, owner: map<string, int>): map<Key, Row> {
    map k | k in rows ::
      if k.providerID == providerID && k.externalID in ids
      then rows[k].(owner := OwnerOf(owner, k.externalID)) else rows[k]
  }

  lemma OneMoreOwner(rows: map<Key, Row>, providerID: int, ids: set<string>, owner: map<string, int>, e: string)
    ensures var before, after := WithOwners(rows, providerID, ids, owner), WithOwners(rows, providerID, ids + {e}, owner);
            var k := Key(providerID, e);
            after == if k in before then before[k := before[k].(owner := OwnerOf(owner, e))] else before
  {
  }

  /** The owners of persist: every account of the provider gets its owner, or none. */
  method PersistOwners(store: Store, site: Site, owner: map<string, int>)
    modifies store`accounts
    ensures store.accounts == WithOwners(old(store.accounts), site.providerID, IDsOf(site.accounts), owner)
  {
    for i := 0 to |site.accounts|
      invariant store.accounts == WithOwners(old(store.accounts), site.providerID, IDsOf(site.accounts[..i]), owner)
    {
      var e := site.accounts[i].externalID;
      assert site.accounts[..i + 1] == site.accounts[..i] + [site.accounts[i]];
      assert IDsOf(site.accounts[..i + 1]) == IDsOf(site.accounts[..i]) + {e};
      OneMoreOwner(old(store.accounts), site.providerID, IDsOf(site.accounts[..i]), owner, e);
      store.SetAccountOwner(Key(site.providerID, e), OwnerOf(owner, e));
    }
    assert site.accounts[..|site.accounts|] == site.accounts;
  }

  function OwnerOf(owner: map<string, int>, e: string): Option<int> {
    if e in owner then Some(owner[e]) else None
  }

  // ----- loading

  /** What is loaded for one provider. */
  datatype Config = Config(providerID: int, key: MatchKey, accounts: seq<Account>)

  function SiteOf(config: Config, links: seq<Link>): Site {
    Site(config.providerID, config.key, config.accounts, LinksOf(links, config.providerID))
  }

  function AllSites(configs: seq<Config>, links: seq<Link>): seq<Site> {
    seq(|configs|, i requires 0 <= i < |configs| => SiteOf(configs[i], links))
  }

  lemma {:induction false} LinksOfFrom(links: seq<Link>, p: int, u: int)
    requires u in LinksOf(links, p)
    ensures var l := LinksOf(links, p)[u]; l in links && l.providerID == p && l.userID == u
  {
    var n := |links| - 1;
    if links[n].providerID != p || links[n].userID != u {
      LinksOfFrom(links[..n], p, u);
      assert links == links[..n] + [links[n]];
    }
  }

  lemma UniqueFront(links: seq<Link>)
    requires UniqueLinks(links) && links != []
    ensures UniqueLinks(links[..|links| - 1])
  {
  }

  lemma {:induction false} LinksOfHolds(links: seq<Link>, p: int, l: Link)
    requires UniqueLinks(links) && l in links && l.providerID == p
    ensures l.userID in LinksOf(links, p) && LinksOf(links, p)[l.userID] == l
  {
    var n := |links| - 1;
    var i :| 0 <= i <= n && links[i] == l;
    if i < n {
      UniqueFront(links);
      assert links[..n][i] == l;
      LinksOfHolds(links[..n], p, l);
    }
  }

  /** What the store's two rules on links give every provider that is loaded from it. */
  lemma LoadedIsSound(links: seq<Link>, config: Config)
    requires UniqueLinks(links) && DistinctAccounts(config.accounts)
    ensures SoundSite(SiteOf(config, links))
  {
    var p := config.providerID;
    var own := LinksOf(links, p);
    forall u | u in own ensures own[u].userID == u {
      LinksOfFrom(links, p, u);
    }
    forall u, w | u in own && w in own && own[u].externalID == own[w].externalID ensures u == w {
      LinksOfFrom(links, p, u);
      LinksOfFrom(links, p, w);
      assert own[u].Account() == own[w].Account();
    }
  }

  method Load(configs: seq<Config>, existing: seq<Link>) returns (states: seq<ProviderState>)
    requires UniqueLinks(existing) && forall c | c in configs :: DistinctAccounts(c.accounts)
    ensures |states| == |configs| && DistinctStates(states) && SitesOf(states) == AllSites(configs, existing)
    ensures fresh(states) && forall s | s in states :: Loaded(s)
  {
    states := [];
    for i := 0 to |configs|
      invariant |states| == i && DistinctStates(states)
      invariant forall j | 0 <= j < i :: states[j].site == SiteOf(configs[j], existing)
      invariant fresh(states) && forall s | s in states :: Loaded(s)
    {
      LoadedIsSound(existing, configs[i]);
      var state := new ProviderState(configs[i].providerID, configs[i].key, configs[i].accounts, existing);
      states := states + [state];
    }
  }

  // ----- what a pass hands over

  /** The links a pass adopts on one provider. */
  function NewOf(site: Site, sites: seq<Site>, users: seq<User>): set<Link> {
    var v := AfterPass(site, sites, users);
    set u | u in v.linked && u !in site.links :: v.linked[u]
  }

  lemma NewOfExactly(site: Site, sites: seq<Site>, users: seq<User>, newLinks: seq<Link>)
    requires AreNew(newLinks, AfterPass(site, sites, users).linked, site)
    ensures forall l :: l in newLinks <==> l in NewOf(site, sites, users)
  {
  }

  /** The links a provider adopted in a pass fit the store they are persisted to; and one of them is
      refused only when it takes over the account of a link this pass found dangling. */
  lemma PassFits(config: Config, sites: seq<Site>, users: seq<User>, links: seq<Link>, newLinks: seq<Link>)
    requires UniqueLinks(links) && DistinctAccounts(config.accounts) && DistinctUsers(users)
    requires forall s | s in sites :: SoundSite(s)
    requires var site := SiteOf(config, links); AreNew(newLinks, AfterPass(site, sites, users).linked, site)
    ensures Fits(newLinks, links)
    ensures var site := SiteOf(config, links);
            forall n | n in newLinks && Held(links, n.Account()) ::
              exists w :: w in site.links && site.links[w].externalID == n.externalID && !Holds(site, users, w)
  {
    var site := SiteOf(config, links);
    LoadedIsSound(links, config);
    NewLinksAreSafe(site, sites, users);
    var v := AfterPass(site, sites, users);
    forall n | n in newLinks ensures New(site, v, n.userID) && v.linked[n.userID] == n {
    }
    forall i, j | 0 <= i < j < |newLinks| ensures newLinks[i].Account() != newLinks[j].Account() {
      assert New(site, v, newLinks[i].userID) && New(site, v, newLinks[j].userID);
    }
    forall n, l | n in newLinks && l in links ensures l.userID != n.userID || l.providerID != n.providerID {
      if l.providerID == n.providerID {
        LinksOfHolds(links, config.providerID, l);
      }
    }
    forall n | n in newLinks && Held(links, n.Account())
      ensures exists w :: w in site.links && site.links[w].externalID == n.externalID && !Holds(site, users, w)
    {
      var l :| l in links && l.Account() == n.Account();
      LinksOfHolds(links, config.providerID, l);
      assert New(site, v, n.userID) && l.userID in site.links;
    }
  }

  // ----- the whole cycle: load, pass, persist

  /** The links that the first k providers of a pass adopt. */
  function NewUpTo(sites: seq<Site>, users: seq<User>, k: nat): set<Link>
    requires k <= |sites|
  {
    set s, l | s in sites[..k] && l in NewOf(s, sites, users) :: l
  }

  lemma NewUpToMore(sites: seq<Site>, users: seq<User>, k: nat)
    requires k < |sites|
    ensures NewUpTo(sites, users, k + 1) == NewUpTo(sites, users, k) + NewOf(sites[k], sites, users)
  {
    assert sites[..k + 1] == sites[..k] + [sites[k]];
    assert forall s :: s in sites[..k + 1] <==> s in sites[..k] || s == sites[k];
  }

  predicate DistinctConfigs(configs: seq<Config>) {
    forall i, j | 0 <= i < j < |configs| :: configs[i].providerID != configs[j].providerID
  }

  /** Links are old, or new on one of the first k providers, and nothing new was held before. */
  ghost predicate Stored(before: seq<Link>, now: seq<Link>, sites: seq<Site>, users: seq<User>, k: nat)
    requires k <= |sites|
  {
    && UniqueLinks(now)
    && (forall l :: l in now <==> l in before || l in NewUpTo(sites, users, k))
    && (forall n | n in NewUpTo(sites, users, k) :: !Held(before, n.Account()))
  }

  /** The providers of a cycle, loaded from a store that keeps its two rules. */
  ghost predicate Cycle(configs: seq<Config>, before: seq<Link>, users: seq<User>) {
    && UniqueLinks(before) && DistinctConfigs(configs) && DistinctUsers(users)
    && forall c | c in configs :: DistinctAccounts(c.accounts)
  }

  lemma AllSitesSound(configs: seq<Config>, before: seq<Link>, users: seq<User>)
    requires Cycle(configs, before, users)
    ensures forall s | s in AllSites(configs, before) :: SoundSite(s)
  {
    forall i | 0 <= i < |configs| ensures SoundSite(AllSites(configs, before)[i]) {
      LoadedIsSound(before, configs[i]);
    }
  }

  lemma NewOfProvider(site: Site, sites: seq<Site>, users: seq<User>, l: Link)
    requires l in NewOf(site, sites, users)
    ensures l.providerID == site.providerID
  {
    var v, d := AfterPass(site, sites, users), AfterDirect(site, users);
    var u :| u in v.linked && u !in site.links && l == v.linked[u];
    if u in d.linked {
      JoinedKeeps(site, site.accounts, d, Subjects(AllClaims(sites, users)));
    } else {
      JoinedAdopts(site, site.accounts, d, Subjects(AllClaims(sites, users)), u);
    }
  }

  lemma StoredElsewhere(configs: seq<Config>, before: seq<Link>, now: seq<Link>, users: seq<User>, k: nat, l: Link)
    requires DistinctConfigs(configs) && k < |configs| && Stored(before, now, AllSites(configs, before), users, k)
    requires l in now && l !in before
    ensures l.providerID != configs[k].providerID
  {
    var sites := AllSites(configs, before);
    var s :| s in sites[..k] && l in NewOf(s, sites, users);
    NewOfProvider(s, sites, users, l);
    var i :| 0 <= i < k && sites[i] == s;
    assert configs[i].providerID != configs[k].providerID;
  }

  lemma FitsMore(newLinks: seq<Link>, before: seq<Link>, now: seq<Link>, p: int)
    requires Fits(newLinks, before) && (forall n | n in newLinks :: n.providerID == p)
    requires (forall l | l in before :: l in now) && forall l | l in now && l !in before :: l.providerID != p
    ensures Fits(newLinks, now)
    ensures forall n | n in newLinks :: Held(now, n.Account()) <==> Held(before, n.Account())
  {
    forall n | n in newLinks ensures Held(now, n.Account()) <==> Held(before, n.Account()) {
      if Held(now, n.Account()) {
        var l :| l in now && l.Account() == n.Account();
        assert l in before;
      }
    }
  }

  /** What one provider adopts does not meet what other providers stored before it. */
  lemma FitsLater(configs: seq<Config>, before: seq<Link>, now: seq<Link>, users: seq<User>, k: nat, newLinks: seq<Link>)
    requires Cycle(configs, before, users) && k < |configs|
    requires Stored(before, now, AllSites(configs, before), users, k)
    requires var sites := AllSites(configs, before); AreNew(newLinks, AfterPass(sites[k], sites, users).linked, sites[k])
    ensures Fits(newLinks, now)
    ensures forall n | n in newLinks :: Held(now, n.Account()) <==> Held(before, n.Account())
  {
    AllSitesSound(configs, before, users);
    PassFits(configs[k], AllSites(configs, before), users, before, newLinks);
    forall l | l in now && l !in before ensures l.providerID != configs[k].providerID {
      StoredElsewhere(configs, before, now, users, k, l);
    }
    FitsMore(newLinks, before, now, configs[k].providerID);
  }

  lemma StoredMore(before: seq<Link>, now: seq<Link>, later: seq<Link>, sites: seq<Site>, users: seq<User>, k: nat,
                   newLinks: seq<Link>)
    requires k < |sites| && Stored(before, now, sites, users, k) && UniqueLinks(later)
    requires forall l :: l in newLinks <==> l in NewOf(sites[k], sites, users)
    requires forall l :: l in later <==> l in now || l in newLinks
    requires forall n | n in newLinks :: !Held(before, n.Account())
    ensures Stored(before, later, sites, users, k + 1)
  {
    NewUpToMore(sites, users, k);
    AddedLinks(before, now, later, NewUpTo(sites, users, k), newLinks, NewOf(sites[k], sites, users));
  }

  lemma AddedLinks(before: seq<Link>, now: seq<Link>, later: seq<Link>, some: set<Link>, newLinks: seq<Link>, more: set<Link>)
    requires (forall l :: l in now <==> l in before || l in some) && forall l :: l in newLinks <==> l in more
    requires forall l :: l in later <==> l in now || l in newLinks
    requires (forall n | n in some :: !Held(before, n.Account())) && forall n | n in newLinks :: !Held(before, n.Account())
    ensures forall l :: l in later <==> l in before || l in some + more
    ensures forall n | n in some + more :: !Held(before, n.Account())
  {
  }

  lemma NewSomewhere(sites: seq<Site>, users: seq<User>, k: nat, newLinks: seq<Link>, n: Link)
    requires k < |sites| && AreNew(newLinks, AfterPass(sites[k], sites, users).linked, sites[k]) && n in newLinks
    ensures n in NewUpTo(sites, users, |sites|)
  {
    NewOfExactly(sites[k], sites, users, newLinks);
    assert sites[..|sites|] == sites && sites[k] in sites;
  }

  /** The accounts of one provider are owned as a view of it says. */
  ghost predicate OwnedAs(rows: map<Key, Row>, site: Site, v: View) {
    forall e, u | Key(site.providerID, e) in rows && e in IDsOf(site.accounts) ::
      rows[Key(site.providerID, e)].owner == Some(u) <==> LiveIn(v.linked, v.dangling, u) && v.linked[u].externalID == e
  }

  /** So are the accounts of the first k providers, each by its own view at the end of the pass. */
  ghost predicate OwnedUpTo(rows: map<Key, Row>, sites: seq<Site>, users: seq<User>, k: nat)
    requires k <= |sites|
  {
    forall i | 0 <= i < k :: OwnedAs(rows, sites[i], AfterPass(sites[i], sites, users))
  }

  lemma OwnersAsViewed(rows: map<Key, Row>, site: Site, v: View, owner: map<string, int>)
    requires IsInverse(owner, v.linked, v.dangling)
    ensures OwnedAs(WithOwners(rows, site.providerID, IDsOf(site.accounts), owner), site, v)
  {
  }

  lemma OthersOwnedStill(rows: map<Key, Row>, site: Site, v: View, other: Site, owner: map<string, int>)
    requires OwnedAs(rows, site, v) && site.providerID != other.providerID
    ensures OwnedAs(WithOwners(rows, other.providerID, IDsOf(other.accounts), owner), site, v)
  {
  }

  lemma OwnersMore(rows: map<Key, Row>, configs: seq<Config>, before: seq<Link>, users: seq<User>, k: nat,
                   owner: map<string, int>)
    requires DistinctConfigs(configs) && k < |configs|
    requires OwnedUpTo(rows, AllSites(configs, before), users, k)
    requires var sites := AllSites(configs, before);
             var v := AfterPass(sites[k], sites, users); IsInverse(owner, v.linked, v.dangling)
    ensures var sites := AllSites(configs, before);
            OwnedUpTo(WithOwners(rows, sites[k].providerID, IDsOf(sites[k].accounts), owner), sites, users, k + 1)
  {
    var sites := AllSites(configs, before);
    var after := WithOwners(rows, sites[k].providerID, IDsOf(sites[k].accounts), owner);
    OwnersAsViewed(rows, sites[k], AfterPass(sites[k], sites, users), owner);
    forall j | 0 <= j < k ensures OwnedAs(after, sites[j], AfterPass(sites[j], sites, users)) {
      assert configs[j].providerID != configs[k].providerID;
      OthersOwnedStill(rows, sites[j], AfterPass(sites[j], sites, users), sites[k], owner);
    }
  }

  /** A new link of some provider is held by a stored one. */
  ghost predicate Clashes(before: seq<Link>, sites: seq<Site>, users: seq<User>) {
    exists n :: n in NewUpTo(sites, users, |sites|) && Held(before, n.Account())
  }

  /** Where a refusal leaves the links: those of the first k providers are all there, and of the next one
      some that nothing held. */
  ghost predicate StoredInPart(before: seq<Link>, now: seq<Link>, sites: seq<Site>, users: seq<User>, k: nat, part: seq<Link>)
    requires k < |sites|
  {
    && UniqueLinks(now)
    && (forall l :: l in now <==> l in before || l in NewUpTo(sites, users, k) || l in part)
    && (forall l | l in part :: l in NewOf(sites[k], sites, users) && !Held(before, l.Account()))
  }

  /** The rows of all but the first k providers are as they were. */
  predicate RestUntouched(rows: map<Key, Row>, now: map<Key, Row>, sites: seq<Site>, k: nat)
    requires k <= |sites|
  {
    rows.Keys == now.Keys &&
    forall key | key in rows && (forall j | 0 <= j < k :: key.providerID != sites[j].providerID) :: now[key] == rows[key]
  }

  /** The stored issues of the first k providers are those their passes found. */
  ghost predicate IssuesUpTo(issues: map<int, seq<Issue>>, sites: seq<Site>, users: seq<User>, k: nat)
    requires k <= |sites|
  {
    forall j | 0 <= j < k ::
      sites[j].providerID in issues && AsSet(issues[sites[j].providerID]) == AfterPass(sites[j], sites, users).issues
  }

  /** The stored issues of all but the first k providers are as they were. */
  ghost predicate OtherIssuesUntouched(issues: map<int, seq<Issue>>, now: map<int, seq<Issue>>, sites: seq<Site>, k: nat)
    requires k <= |sites|
  {
    forall p | (forall j | 0 <= j < k :: p != sites[j].providerID) ::
      (p in now <==> p in issues) && (p in issues ==> now[p] == issues[p])
  }

  lemma IssuesMore(configs: seq<Config>, links: seq<Link>, issues: map<int, seq<Issue>>, now: map<int, seq<Issue>>,
                   users: seq<User>, k: nat, found: seq<Issue>)
    requires DistinctConfigs(configs) && k < |configs|
    requires var sites := AllSites(configs, links);
             && IssuesUpTo(now, sites, users, k) && OtherIssuesUntouched(issues, now, sites, k)
             && AsSet(found) == AfterPass(sites[k], sites, users).issues
    ensures var sites, after := AllSites(configs, links), now[configs[k].providerID := found];
            IssuesUpTo(after, sites, users, k + 1) && OtherIssuesUntouched(issues, after, sites, k + 1)
  {
    var sites := AllSites(configs, links);
    SitesApart(configs, links, k);
    IssuesUpToMore(now, sites, users, k, found);
    OtherIssuesMore(issues, now, sites, k, found);
  }

  lemma SitesApart(configs: seq<Config>, links: seq<Link>, k: nat)
    requires DistinctConfigs(configs) && k < |configs|
    ensures var sites := AllSites(configs, links);
            forall j | 0 <= j < k :: sites[j].providerID != sites[k].providerID
  {
    forall j | 0 <= j < k ensures configs[j].providerID != configs[k].providerID {
    }
  }

  lemma IssuesUpToMore(now: map<int, seq<Issue>>, sites: seq<Site>, users: seq<User>, k: nat, found: seq<Issue>)
    requires k < |sites| && IssuesUpTo(now, sites, users, k)
    requires AsSet(found) == AfterPass(sites[k], sites, users).issues
    requires forall j | 0 <= j < k :: sites[j].providerID != sites[k].providerID
    ensures IssuesUpTo(now[sites[k].providerID := found], sites, users, k + 1)
  {
  }

  lemma OtherIssuesMore(issues: map<int, seq<Issue>>, now: map<int, seq<Issue>>, sites: seq<Site>, k: nat, found: seq<Issue>)
    requires k < |sites| && OtherIssuesUntouched(issues, now, sites, k)
    ensures OtherIssuesUntouched(issues, now[sites[k].providerID := found], sites, k + 1)
  {
  }

  lemma UntouchedMore(rows: map<Key, Row>, now: map<Key, Row>, sites: seq<Site>, k: nat, owner: map<string, int>)
    requires k < |sites| && RestUntouched(rows, now, sites, k)
    ensures RestUntouched(rows, WithOwners(now, sites[k].providerID, IDsOf(sites[k].accounts), owner), sites, k + 1)
  {
  }

  lemma PartStored(before: seq<Link>, now: seq<Link>, later: seq<Link>, sites: seq<Site>, users: seq<User>, k: nat,
                   newLinks: seq<Link>, part: seq<Link>)
    requires k < |sites| && Stored(before, now, sites, users, k) && UniqueLinks(later)
    requires forall l :: l in newLinks <==> l in NewOf(sites[k], sites, users)
    requires (forall l | l in part :: l in newLinks && !Held(before, l.Account())) && forall l :: l in later <==> l in now || l in part
    ensures StoredInPart(before, later, sites, users, k, part)
  {
  }

  /** What a store holds that a linking cycle may change. */
  datatype Saved = Saved(links: seq<Link>, rows: map<Key, Row>, issues: map<int, seq<Issue>>)

  ghost function SavedIn(store: Store): Saved
    reads store
  {
    Saved(store.links, store.accounts, store.issues)
  }

  /** The first k providers are complete, and the others as they were. */
  ghost predicate Complete(start: Saved, now: Saved, configs: seq<Config>, users: seq<User>, k: nat)
    requires k <= |configs|
  {
    var sites := AllSites(configs, start.links);
    && Stored(start.links, now.links, sites, users, k)
    && OwnedUpTo(now.rows, sites, users, k) && RestUntouched(start.rows, now.rows, sites, k)
    && IssuesUpTo(now.issues, sites, users, k) && OtherIssuesUntouched(start.issues, now.issues, sites, k)
  }

  /** A link of the provider after k complete ones was refused. */
  ghost predicate Stopped(start: Saved, now: Saved, configs: seq<Config>, users: seq<User>, k: nat, part: seq<Link>)
    requires k < |configs|
  {
    var sites := AllSites(configs, start.links);
    && Clashes(start.links, sites, users)
    && StoredInPart(start.links, now.links, sites, users, k, part)
    && OwnedUpTo(now.rows, sites, users, k) && RestUntouched(start.rows, now.rows, sites, k)
    && IssuesUpTo(now.issues, sites, users, k) && OtherIssuesUntouched(start.issues, now.issues, sites, k)
  }

  /** One more provider, with all of its links stored. */
  lemma CompleteMore(start: Saved, now: Saved, later: Saved, configs: seq<Config>, users: seq<User>, k: nat,
                     newLinks: seq<Link>, owner: map<string, int>, found: seq<Issue>)
    requires Cycle(configs, start.links, users) && k < |configs| && Complete(start, now, configs, users, k)
    requires var sites := AllSites(configs, start.links);
             var v := AfterPass(sites[k], sites, users);
             AreNew(newLinks, v.linked, sites[k]) && IsInverse(owner, v.linked, v.dangling) && AsSet(found) == v.issues
    requires UniqueLinks(later.links) && (forall l :: l in later.links <==> l in now.links || l in newLinks)
    requires forall n | n in newLinks :: !Held(start.links, n.Account())
    requires later.rows == WithOwners(now.rows, configs[k].providerID, IDsOf(configs[k].accounts), owner)
    requires later.issues == now.issues[configs[k].providerID := found]
    ensures Complete(start, later, configs, users, k + 1)
  {
    var sites := AllSites(configs, start.links);
    NewOfExactly(sites[k], sites, users, newLinks);
    StoredMore(start.links, now.links, later.links, sites, users, k, newLinks);
    OwnersMore(now.rows, configs, start.links, users, k, owner);
    UntouchedMore(start.rows, now.rows, sites, k, owner);
    IssuesMore(configs, start.links, start.issues, now.issues, users, k, found);
  }

  lemma StoppedHere(start: Saved, now: Saved, later: Saved, configs: seq<Config>, users: seq<User>, k: nat,
                    newLinks: seq<Link>, stored: nat)
    requires Cycle(configs, start.links, users) && k < |configs| && Complete(start, now, configs, users, k)
    requires var sites := AllSites(configs, start.links); AreNew(newLinks, AfterPass(sites[k], sites, users).linked, sites[k])
    requires stored < |newLinks| && Held(start.links, newLinks[stored].Account())
    requires UniqueLinks(later.links) && (forall l :: l in later.links <==> l in now.links || l in newLinks[..stored])
    requires forall n | n in newLinks[..stored] :: !Held(start.links, n.Account())
    requires later.rows == now.rows && later.issues == now.issues
    ensures Stopped(start, later, configs, users, k, newLinks[..stored])
  {
    var sites := AllSites(configs, start.links);
    NewOfExactly(sites[k], sites, users, newLinks);
    NewSomewhere(sites, users, k, newLinks, newLinks[stored]);
    PartStored(start.links, now.links, later.links, sites, users, k, newLinks, newLinks[..stored]);
  }

  /** persist for the k-th provider. */
  method PersistOne(store: Store, state: ProviderState, ghost start: Saved, ghost configs: seq<Config>,
                    ghost users: seq<User>, ghost k: nat)
    returns (ok: bool, ghost part: seq<Link>)
    requires Cycle(configs, start.links, users) && k < |configs| && Complete(start, SavedIn(store), configs, users, k)
    requires var sites := AllSites(configs, start.links);
             state.site == sites[k] && At(state, AfterPass(sites[k], sites, users))
    modifies store`links, store`accounts, store`issues
    ensures if ok then Complete(start, SavedIn(store), configs, users, k + 1)
            else Stopped(start, SavedIn(store), configs, users, k, part)
  {
    ghost var now, newLinks := SavedIn(store), state.newLinks;
    FitsLater(configs, start.links, now.links, users, k, newLinks);
    ghost var stored;
    ok, stored := PersistLinks(store, state.newLinks);
    part := newLinks[..stored];
    if !ok {
      StoppedHere(start, now, SavedIn(store), configs, users, k, newLinks, stored);
      return;
    }
    assert part == newLinks;
    PersistOwners(store, state.site, state.owner);
    store.ReplaceLinkIssues(state.site.providerID, state.issues);
    CompleteMore(start, now, SavedIn(store), configs, users, k, newLinks, state.owner, state.issues);
  }

  /** persist, provider by provider, until a link is refused. */
  method PersistAll(store: Store, states: seq<ProviderState>, ghost configs: seq<Config>, ghost users: seq<User>)
    returns (ok: bool, ghost reached: nat, ghost part: seq<Link>)
    requires Cycle(configs, store.links, users) && |states| == |configs|
    requires SitesOf(states) == AllSites(configs, store.links)
    requires AllAt(states, PassViews(SitesOf(states), users))
    modifies store`links, store`accounts, store`issues
    ensures reached <= |configs| && (ok <==> reached == |configs|)
    ensures if ok then Complete(old(SavedIn(store)), SavedIn(store), configs, users, reached)
            else Stopped(old(SavedIn(store)), SavedIn(store), configs, users, reached, part)
  {
    ghost var start := SavedIn(store);
    NothingPersistedYet(start, configs, users);
    reached, part := 0, [];
    for i := 0 to |states|
      invariant reached == i && Complete(start, SavedIn(store), configs, users, i)
      invariant forall j | 0 <= j < |states| :: unchanged(states[j])
    {
      assert old(At(states[i], PassViews(SitesOf(states), users)[i]));
      ok, part := PersistOne(store, states[i], start, configs, users, i);
      if !ok {
        return;
      }
      reached := reached + 1;
    }
    ok := true;
  }

  lemma NothingPersistedYet(start: Saved, configs: seq<Config>, users: seq<User>)
    requires UniqueLinks(start.links)
    ensures Complete(start, start, configs, users, 0)
  {
    NothingStoredYet(start.links, AllSites(configs, start.links), users);
  }

  lemma AllStored(before: seq<Link>, now: seq<Link>, sites: seq<Site>, users: seq<User>)
    requires Stored(before, now, sites, users, |sites|)
    ensures !Clashes(before, sites, users) && forall l | l in before :: l in now
  {
  }

  lemma NothingStoredYet(before: seq<Link>, sites: seq<Site>, users: seq<User>)
    requires UniqueLinks(before)
    ensures Stored(before, before, sites, users, 0)
  {
    assert sites[..0] == [];
  }

  lemma EndKeepsLinks(start: Saved, now: Saved, configs: seq<Config>, users: seq<User>, reached: nat, part: seq<Link>)
    requires reached <= |configs|
    requires if reached == |configs| then Complete(start, now, configs, users, reached)
             else Stopped(start, now, configs, users, reached, part)
    ensures UniqueLinks(now.links) && forall l | l in start.links :: l in now.links
    ensures reached == |configs| <==> !Clashes(start.links, AllSites(configs, start.links), users)
  {
    if reached == |configs| {
      AllStored(start.links, now.links, AllSites(configs, start.links), users);
    }
  }

  /** A whole linking cycle over a store: load, pass, persist. The store keeps its two rules and every link
      it had. Nothing is refused exactly when no adopted link takes over an account of a stored one; then
      the links are the old ones and the adopted ones, every account has the owner the pass found, and the
      stored issues are those it found. A refusal leaves the providers before it complete, a part of the
      links of its own, and nothing after. */
  method LinkStored(store: Store, configs: seq<Config>, everyone: seq<User>)
    returns (ok: bool, users: seq<User>, ghost reached: nat, ghost part: seq<Link>)
    requires Cycle(configs, store.links, everyone)
    modifies store`links, store`accounts, store`issues
    ensures users == ActiveOf(everyone) && reached <= |configs| && (ok <==> reached == |configs|)
    ensures UniqueLinks(store.links) && forall l | l in old(store.links) :: l in store.links
    ensures ok <==> !Clashes(old(store.links), AllSites(configs, old(store.links)), users)
    ensures if ok then Complete(old(SavedIn(store)), SavedIn(store), configs, users, reached)
            else Stopped(old(SavedIn(store)), SavedIn(store), configs, users, reached, part)
  {
    ActiveDistinct(everyone);
    var states := Load(configs, store.links);
    users := LinkAll(states, everyone);
    ok, reached, part := PersistAll(store, states, configs, users);
    EndKeepsLinks(old(SavedIn(store)), SavedIn(store), configs, users, reached, part);
  }

  /** Somebody who is gone still has a link to an account that one other person matches. */
  function DepartedSite(): Site {
    Site(7, ByUsername, [Account("x", "", "m", "", true, false, Unknown, Unknown, false)], map[1 := Link(1, 7, "x", Matched)])
  }

  function Successors(): seq<User> {
    [User(2, "u", "m", "", true, [])]
  }

  lemma MatchIsTaken()
    ensures var site, users := DepartedSite(), Successors();
            var d := DirectLinks(site, users, Revalidated(site, users)); 2 in d && d[2] == Link(2, 7, "x", Matched)
  {
    var site, users := DepartedSite(), Successors();
    var v, value := Revalidated(site, users), UserMatch(users[0], ByUsername);
    assert value == Lower(Trim("m")) != "";
    assert users[..0] == [] && site.accounts[..0] == [];
    assert IndexUsers(users) == map[2 := users[0]];
    assert v.dangling == {1} && Owned(v) == {};
    assert Claimants(users, v.linked, ByUsername, value) == users;
    assert Holders(site.accounts, Owned(v), ByUsername, value) == site.accounts;
  }

  /** It does happen: the pass gives the account to the other person, but the old link is kept for
      history, still holds the account, and the new one cannot be stored. */
  lemma TakeoverIsRefused()
    ensures var site, users := DepartedSite(), Successors();
            var v := AfterPass(site, [site], users);
            && DistinctUsers(users) && SoundSite(site)
            && New(site, v, 2) && Held([site.links[1]], v.linked[2].Account())
  {
    var site, users := DepartedSite(), Successors();
    MatchIsTaken();
    JoinedKeeps(site, site.accounts, AfterDirect(site, users), Subjects(AllClaims([site], users)));
    assert site.links[1] in [site.links[1]];
    assert site.links[1].Account() == Key(7, "x");
  }
}
