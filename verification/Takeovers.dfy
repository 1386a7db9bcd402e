/** What a linking pass adopts, read off what is loaded; when storing it is refused; and the next cycle
    (internal/reconcile/link.go). */
module Takeovers {
  import opened Quotas
  import opened Model
  import opened Linking
  import opened LinkPass
  import opened LinkProofs
  import opened Persisting

  // ----- the join takes the first account of each person

  /** The first joinable account whose subject names this person. */
  function FirstFor(accounts: seq<Account>, v: View, subjects: map<string, int>, u: int): Option<string> {
    if accounts == [] then None
    else
      var before, a := FirstFor(accounts[..|accounts| - 1], v, subjects, u), accounts[|accounts| - 1];
      if before.Some? then before
      else if Joinable(a, v, subjects) && subjects[a.subject] == u then Some(a.externalID)
      else None
  }

  lemma {:induction false} FirstForIsThere(accounts: seq<Account>, v: View, subjects: map<string, int>, u: int)
    requires FirstFor(accounts, v, subjects, u).Some?
    ensures exists a :: a in accounts && a.externalID == FirstFor(accounts, v, subjects, u).value
  {
    var front, a := accounts[..|accounts| - 1], accounts[|accounts| - 1];
    assert accounts == front + [a];
    if FirstFor(front, v, subjects, u).Some? {
      FirstForIsThere(front, v, subjects, u);
    } else {
      assert a in accounts;
    }
  }

  /** The join gives everybody without a link the first account it can, and changes nobody else's link. */
  ghost predicate JoinsFirst(site: Site, accounts: seq<Account>, v: View, subjects: map<string, int>, w: View) {
    && w.dangling == v.dangling
    && (forall u | u in v.linked :: u in w.linked && w.linked[u] == v.linked[u])
    && (forall u | u !in v.linked ::
          (u in w.linked <==> FirstFor(accounts, v, subjects, u).Some?) &&
          (u in w.linked ==> w.linked[u] == NewLink(site, u, FirstFor(accounts, v, subjects, u).value)))
  }

  /** An account the join has not come to is owned after a part of it exactly when it was before. */
  lemma LaterIsUntouched(site: Site, front: seq<Account>, v: View, subjects: map<string, int>, w: View, a: Account)
    requires JoinsFirst(site, front, v, subjects, w) && v.dangling <= v.linked.Keys
    requires forall b | b in front :: b.externalID != a.externalID
    ensures a.externalID in Owned(w) <==> a.externalID in Owned(v)
  {
    if a.externalID in Owned(v) {
      var u :| u in v.linked && u !in v.dangling && v.linked[u].externalID == a.externalID;
      assert u in w.linked && w.linked[u] == v.linked[u];
    }
    if a.externalID in Owned(w) {
      var u :| u in w.linked && u !in w.dangling && w.linked[u].externalID == a.externalID;
      if u !in v.linked {
        FirstForIsThere(front, v, subjects, u);
      }
      assert u in v.linked && v.linked[u] == w.linked[u];
    }
  }

  lemma JoinOneMore(site: Site, front: seq<Account>, a: Account, v: View, subjects: map<string, int>, w: View)
    requires JoinsFirst(site, front, v, subjects, w)
    requires a.externalID in Owned(w) <==> a.externalID in Owned(v)
    ensures JoinsFirst(site, front + [a], v, subjects, JoinStep(site, a, w, subjects))
  {
    assert (front + [a])[..|front|] == front;
  }

  lemma {:induction false} JoinedExactly(site: Site, accounts: seq<Account>, v: View, subjects: map<string, int>)
    requires DistinctAccounts(accounts) && v.dangling <= v.linked.Keys
    ensures JoinsFirst(site, accounts, v, subjects, Joined(site, accounts, v, subjects))
  {
    if accounts != [] {
      var n := |accounts| - 1;
      var front, a := accounts[..n], accounts[n];
      JoinedExactly(site, front, v, subjects);
      LaterIsUntouched(site, front, v, subjects, Joined(site, front, v, subjects), a);
      JoinOneMore(site, front, a, v, subjects, Joined(site, front, v, subjects));
      assert accounts == front + [a];
    }
  }

  // ----- what a pass adopts

  /** The account a pass gives somebody: none to whoever has a link; else the direct match; else the first
      account the subject join can give. */
  function Given(site: Site, sites: seq<Site>, users: seq<User>, u: int): Option<string> {
    var people, v := IndexUsers(users), Revalidated(site, users);
    if u in site.links then None
    else if u in people && DirectAccount(site, users, v, people[u]).Some? then DirectAccount(site, users, v, people[u])
    else FirstFor(site.accounts, AfterDirect(site, users), Subjects(AllClaims(sites, users)), u)
  }

  /** The links a pass adopts are exactly those for the accounts given. */
  lemma AdoptedExactly(site: Site, sites: seq<Site>, users: seq<User>, u: int)
    requires SoundSite(site)
    ensures var linked := AfterPass(site, sites, users).linked;
            (u in linked && u !in site.links <==> Given(site, sites, users, u).Some?) &&
            (u in linked && u !in site.links ==> linked[u] == NewLink(site, u, Given(site, sites, users, u).value))
  {
    JoinedExactly(site, site.accounts, AfterDirect(site, users), Subjects(AllClaims(sites, users)));
  }

  lemma NewOfGiven(site: Site, sites: seq<Site>, users: seq<User>, l: Link)
    requires SoundSite(site)
    ensures l in NewOf(site, sites, users) <==>
            Given(site, sites, users, l.userID).Some? && l == NewLink(site, l.userID, Given(site, sites, users, l.userID).value)
  {
    var linked := AfterPass(site, sites, users).linked;
    AdoptedExactly(site, sites, users, l.userID);
    if l in NewOf(site, sites, users) {
      var u :| u in linked && u !in site.links && l == linked[u];
      AdoptedExactly(site, sites, users, u);
    }
  }

  // ----- when storing is refused

  /** Somebody is given the account of a stored link that does not hold. */
  predicate TakesOver(site: Site, sites: seq<Site>, users: seq<User>, w: int, u: int) {
    && w in site.links && !Holds(site, users, w)
    && Given(site, sites, users, u) == Some(site.links[w].externalID)
  }

  lemma TakenOver(configs: seq<Config>, before: seq<Link>, users: seq<User>, i: nat, n: Link)
    requires Cycle(configs, before, users) && i < |configs|
    requires var sites := AllSites(configs, before); n in NewOf(sites[i], sites, users) && Held(before, n.Account())
    ensures var sites := AllSites(configs, before); exists w :: TakesOver(sites[i], sites, users, w, n.userID)
  {
    var sites := AllSites(configs, before);
    var site := sites[i];
    AllSitesSound(configs, before, users);
    NewOfGiven(site, sites, users, n);
    var l :| l in before && l.Account() == n.Account();
    LinksOfHolds(before, site.providerID, l);
    NewLinksAreSafe(site, sites, users);
    AdoptedExactly(site, sites, users, n.userID);
    assert New(site, AfterPass(site, sites, users), n.userID);
    assert TakesOver(site, sites, users, l.userID, n.userID);
  }

  lemma TakeoverIsHeld(configs: seq<Config>, before: seq<Link>, users: seq<User>, i: nat, w: int, u: int)
    requires Cycle(configs, before, users) && i < |configs|
    requires var sites := AllSites(configs, before); TakesOver(sites[i], sites, users, w, u)
    ensures Clashes(before, AllSites(configs, before), users)
  {
    var sites := AllSites(configs, before);
    var site := sites[i];
    AllSitesSound(configs, before, users);
    var n := NewLink(site, u, site.links[w].externalID);
    NewOfGiven(site, sites, users, n);
    LinksOfFrom(before, site.providerID, w);
    assert site.links[w].Account() == n.Account();
    assert sites[..|sites|] == sites && site in sites;
    assert n in NewUpTo(sites, users, |sites|);
  }

  lemma ClashIsTakeover(configs: seq<Config>, before: seq<Link>, users: seq<User>)
    requires Cycle(configs, before, users) && Clashes(before, AllSites(configs, before), users)
    ensures var sites := AllSites(configs, before);
            exists i, w, u :: 0 <= i < |sites| && TakesOver(sites[i], sites, users, w, u)
  {
    var sites := AllSites(configs, before);
    var n :| n in NewUpTo(sites, users, |sites|) && Held(before, n.Account());
    var s :| s in sites[..|sites|] && n in NewOf(s, sites, users);
    var i :| 0 <= i < |sites| && sites[i] == s;
    TakenOver(configs, before, users, i, n);
    var w :| TakesOver(sites[i], sites, users, w, n.userID);
  }

  /** Exactly when storing a pass is refused, read off what was loaded: somebody without a link is given,
      by match or by join, the account of a link that does not hold. */
  lemma RefusedExactly(configs: seq<Config>, before: seq<Link>, users: seq<User>)
    requires Cycle(configs, before, users)
    ensures var sites := AllSites(configs, before);
            Clashes(before, sites, users) <==>
            exists i, w, u :: 0 <= i < |sites| && TakesOver(sites[i], sites, users, w, u)
  {
    var sites := AllSites(configs, before);
    if Clashes(before, sites, users) {
      ClashIsTakeover(configs, before, users);
    }
    forall i, w, u | 0 <= i < |sites| && TakesOver(sites[i], sites, users, w, u) ensures Clashes(before, sites, users) {
      TakeoverIsHeld(configs, before, users, i, w, u);
    }
  }

  // ----- the next cycle

  /** What the next cycle loads is what the pass before it left. */
  lemma LoadedAgain(configs: seq<Config>, before: seq<Link>, now: seq<Link>, users: seq<User>, i: nat)
    requires Cycle(configs, before, users) && i < |configs|
    requires Stored(before, now, AllSites(configs, before), users, |configs|)
    ensures var sites := AllSites(configs, before); SiteOf(configs[i], now) == Again(sites[i], sites, users)
  {
    var sites := AllSites(configs, before);
    var site, p, linked := sites[i], configs[i].providerID, AfterPass(sites[i], sites, users).linked;
    AllSitesSound(configs, before, users);
    PassSound(site, sites, users);
    assert sites[..|sites|] == sites && site in sites;
    forall u | u in linked ensures u in LinksOf(now, p) && LinksOf(now, p)[u] == linked[u] {
      StoredLink(configs, before, now, users, i, u);
    }
    forall u | u in LinksOf(now, p) ensures u in linked {
      LinksOfFrom(now, p, u);
      FromPass(configs, before, now, users, i, LinksOf(now, p)[u]);
    }
  }

  lemma StoredLink(configs: seq<Config>, before: seq<Link>, now: seq<Link>, users: seq<User>, i: nat, u: int)
    requires Cycle(configs, before, users) && i < |configs|
    requires Stored(before, now, AllSites(configs, before), users, |configs|)
    requires var sites := AllSites(configs, before); u in AfterPass(sites[i], sites, users).linked
    ensures var sites := AllSites(configs, before);
            var l := AfterPass(sites[i], sites, users).linked[u];
            l.userID == u && u in LinksOf(now, configs[i].providerID) && LinksOf(now, configs[i].providerID)[u] == l
  {
    var sites := AllSites(configs, before);
    var site, p, linked := sites[i], configs[i].providerID, AfterPass(sites[i], sites, users).linked;
    AllSitesSound(configs, before, users);
    PassSound(site, sites, users);
    if u in site.links {
      LinksOfFrom(before, p, u);
    } else {
      assert linked[u] in NewOf(site, sites, users);
      NewOfProvider(site, sites, users, linked[u]);
      assert sites[..|sites|] == sites && site in sites;
      assert linked[u] in NewUpTo(sites, users, |sites|);
    }
    LinksOfHolds(now, p, linked[u]);
  }

  /** A new link belongs to the provider it names. */
  lemma NewOnItsProvider(configs: seq<Config>, sites: seq<Site>, users: seq<User>, i: nat, l: Link)
    requires DistinctConfigs(configs) && i < |configs| && |sites| == |configs|
    requires forall j | 0 <= j < |sites| :: sites[j].providerID == configs[j].providerID
    requires l in NewUpTo(sites, users, |sites|) && l.providerID == configs[i].providerID
    ensures l in NewOf(sites[i], sites, users)
  {
    var s :| s in sites[..|sites|] && l in NewOf(s, sites, users);
    var j :| 0 <= j < |sites| && sites[j] == s;
    NewOfProvider(s, sites, users, l);
    assert configs[j].providerID == configs[i].providerID;
  }

  lemma NewIsLinked(site: Site, sites: seq<Site>, users: seq<User>, l: Link)
    requires SoundSite(site) && l in NewOf(site, sites, users)
    ensures l.userID in AfterPass(site, sites, users).linked
  {
    NewOfGiven(site, sites, users, l);
    AdoptedExactly(site, sites, users, l.userID);
  }

  lemma FromPass(configs: seq<Config>, before: seq<Link>, now: seq<Link>, users: seq<User>, i: nat, l: Link)
    requires Cycle(configs, before, users) && i < |configs|
    requires Stored(before, now, AllSites(configs, before), users, |configs|)
    requires l in now && l.providerID == configs[i].providerID
    ensures var sites := AllSites(configs, before); l.userID in AfterPass(sites[i], sites, users).linked
  {
    var sites := AllSites(configs, before);
    AllSitesSound(configs, before, users);
    if l in before {
      PassSound(sites[i], sites, users);
      LinksOfHolds(before, configs[i].providerID, l);
    } else {
      NewOnItsProvider(configs, sites, users, i, l);
      NewIsLinked(sites[i], sites, users, l);
    }
  }

  /** Where no link came from the subject join, the cycle after one that was stored adopts nothing and is
      not refused. */
  lemma SecondCycleAddsNothing(configs: seq<Config>, before: seq<Link>, now: seq<Link>, users: seq<User>)
    requires Cycle(configs, before, users)
    requires var sites := AllSites(configs, before);
             Stored(before, now, sites, users, |sites|) && forall s | s in sites :: NoneJoined(s, sites, users)
    ensures var again := AllSites(configs, now);
            again == Agains(AllSites(configs, before), users) &&
            NewUpTo(again, users, |again|) == {} && !Clashes(now, again, users)
  {
    var sites, again := AllSites(configs, before), AllSites(configs, now);
    AllSitesSound(configs, before, users);
    forall i | 0 <= i < |configs| ensures again[i] == Again(sites[i], sites, users) {
      LoadedAgain(configs, before, now, users, i);
    }
    assert again == Agains(sites, users);
    forall i | 0 <= i < |again| ensures NewOf(again[i], again, users) == {} {
      assert sites[i] in sites;
      SecondPassChangesNothing(sites[i], sites, users);
    }
    NothingNew(again, users);
  }

  lemma NothingNew(sites: seq<Site>, users: seq<User>)
    requires forall i | 0 <= i < |sites| :: NewOf(sites[i], sites, users) == {}
    ensures NewUpTo(sites, users, |sites|) == {}
  {
    assert forall s | s in sites[..|sites|] :: NewOf(s, sites, users) == {};
  }

  /** So the links stored after the second cycle are those stored after the first. */
  lemma SecondCycleKeepsLinks(configs: seq<Config>, before: seq<Link>, now: seq<Link>, later: seq<Link>, users: seq<User>)
    requires Cycle(configs, before, users)
    requires var sites := AllSites(configs, before);
             Stored(before, now, sites, users, |sites|) && forall s | s in sites :: NoneJoined(s, sites, users)
    requires Stored(now, later, AllSites(configs, now), users, |configs|)
    ensures forall l :: l in later <==> l in now
  {
    SecondCycleAddsNothing(configs, before, now, users);
  }
}
