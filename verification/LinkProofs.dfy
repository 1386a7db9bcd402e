/** What a linking pass promises (internal/reconcile/link.go). */
module LinkProofs {
  import opened Quotas
  import opened Text
  import opened Model
  import opened Linking
  import opened LinkPass

  /** A provider as it is loaded: distinct accounts, and the two uniqueness rules of the stored links. */
  ghost predicate SoundSite(site: Site) {
    DistinctAccounts(site.accounts) && UniqueOwners(site.links)
  }

  // ----- the invariant

  /** Links that were there are there, unchanged; live links have different accounts, each of them
      observed, writable and with an active owner; and every link is filed under its person. */
  ghost predicate Sound(site: Site, users: seq<User>, v: View) {
    var people, byID := IndexUsers(users), IndexAccounts(site.accounts);
    && v.dangling <= site.links.Keys
    && (forall u | u in site.links :: u in v.linked && v.linked[u] == site.links[u])
    && (forall u | u in v.linked :: v.linked[u].userID == u)
    && (forall u, w | LiveIn(v.linked, v.dangling, u) && LiveIn(v.linked, v.dangling, w) ::
          v.linked[u].externalID == v.linked[w].externalID ==> u == w)
    && (forall u | LiveIn(v.linked, v.dangling, u) ::
          u in people && v.linked[u].externalID in byID && byID[v.linked[u].externalID].Writable())
  }

  lemma RevalidatedSound(site: Site, users: seq<User>)
    requires SoundSite(site)
    ensures Sound(site, users, Revalidated(site, users))
  {
  }

  lemma {:induction false} IndexAccountsExactly(accounts: seq<Account>, a: Account)
    requires DistinctAccounts(accounts)
    ensures a in accounts <==> a.externalID in IndexAccounts(accounts) && IndexAccounts(accounts)[a.externalID] == a
  {
    if accounts != [] {
      var n := |accounts| - 1;
      IndexAccountsExactly(accounts[..n], a);
      assert accounts == accounts[..n] + [accounts[n]];
      if a in accounts[..n] {
        var i :| 0 <= i < n && accounts[i] == a;
        assert a.externalID != accounts[n].externalID;
      }
    }
  }

  /** Whom a direct match picks: a free account that nobody else is given. */
  lemma DirectPick(site: Site, users: seq<User>, v: View, u: User) returns (a: Account)
    requires DirectAccount(site, users, v, u).Some?
    ensures a in site.accounts && Free(a, Owned(v)) && a.externalID == DirectAccount(site, users, v, u).value
    ensures AccountMatch(a, site.key) == UserMatch(u, site.key) != "" && u.id !in v.linked
  {
    var value := UserMatch(u, site.key);
    a := Holders(site.accounts, Owned(v), site.key, value)[0];
    HoldersExactly(site.accounts, Owned(v), site.key, value, a);
  }

  /** Two people who match directly have different match values, since each is the only claimant. */
  lemma DirectPicksDiffer(site: Site, users: seq<User>, v: View, u: User, w: User)
    requires SoundSite(site) && u in users && w in users && u != w
    requires DirectAccount(site, users, v, u).Some? && DirectAccount(site, users, v, w).Some?
    ensures DirectAccount(site, users, v, u) != DirectAccount(site, users, v, w)
  {
    var a := DirectPick(site, users, v, u);
    var b := DirectPick(site, users, v, w);
    var value := UserMatch(u, site.key);
    ClaimantsExactly(users, v.linked, site.key, value, u);
    ClaimantsExactly(users, v.linked, site.key, value, w);
    if a.externalID == b.externalID {
      SameAccount(site.accounts, a, b);
    }
  }

  lemma OwnedLive(v: View, u: int)
    requires LiveIn(v.linked, v.dangling, u)
    ensures v.linked[u].externalID in Owned(v)
  {
  }

  lemma DirectSound(site: Site, users: seq<User>, v: View)
    requires SoundSite(site) && DistinctUsers(users) && Sound(site, users, v)
    ensures Sound(site, users, Direct(site, users, v))
  {
    var d, people := Direct(site, users, v), IndexUsers(users);
    IndexedById(users);
    forall u | LiveIn(d.linked, d.dangling, u)
      ensures u in people && d.linked[u].externalID in IndexAccounts(site.accounts)
      ensures IndexAccounts(site.accounts)[d.linked[u].externalID].Writable()
    {
      if u in DirectLinks(site, users, v) {
        var a := DirectPick(site, users, v, people[u]);
        IndexAccountsExactly(site.accounts, a);
      }
    }
    forall u, w | LiveIn(d.linked, d.dangling, u) && LiveIn(d.linked, d.dangling, w) && u != w
      ensures d.linked[u].externalID != d.linked[w].externalID
    {
      DirectKeepsApart(site, users, v, u, w);
    }
  }

  lemma DirectKeepsApart(site: Site, users: seq<User>, v: View, u: int, w: int)
    requires SoundSite(site) && DistinctUsers(users) && Sound(site, users, v) && u != w
    ensures var d := Direct(site, users, v);
            LiveIn(d.linked, d.dangling, u) && LiveIn(d.linked, d.dangling, w) ==>
              d.linked[u].externalID != d.linked[w].externalID
  {
    var d, links, people := Direct(site, users, v), DirectLinks(site, users, v), IndexUsers(users);
    IndexedById(users);
    if !LiveIn(d.linked, d.dangling, u) || !LiveIn(d.linked, d.dangling, w) {
    } else if u in links && w in links {
      DirectPicksDiffer(site, users, v, people[u], people[w]);
    } else if u in links {
      var a := DirectPick(site, users, v, people[u]);
      OwnedLive(v, w);
    } else if w in links {
      var a := DirectPick(site, users, v, people[w]);
      OwnedLive(v, u);
    }
  }

  lemma JoinStepSound(site: Site, users: seq<User>, a: Account, v: View, subjects: map<string, int>)
    requires SoundSite(site) && Sound(site, users, v) && a in site.accounts
    requires forall s | s in subjects :: subjects[s] in IndexUsers(users)
    ensures Sound(site, users, JoinStep(site, a, v, subjects))
  {
    IndexAccountsExactly(site.accounts, a);
    var w := JoinStep(site, a, v, subjects);
    forall u | LiveIn(v.linked, v.dangling, u) ensures v.linked[u].externalID in Owned(v) {
      OwnedLive(v, u);
    }
  }

  lemma {:induction false} JoinedSound(site: Site, users: seq<User>, accounts: seq<Account>, v: View, subjects: map<string, int>)
    requires SoundSite(site) && Sound(site, users, v) && (forall a | a in accounts :: a in site.accounts)
    requires forall s | s in subjects :: subjects[s] in IndexUsers(users)
    ensures Sound(site, users, Joined(site, accounts, v, subjects))
  {
    if accounts != [] {
      var n := |accounts| - 1;
      assert accounts[n] in accounts && forall a | a in accounts[..n] :: a in accounts;
      JoinedSound(site, users, accounts[..n], v, subjects);
      JoinStepSound(site, users, accounts[n], Joined(site, accounts[..n], v, subjects), subjects);
    }
  }

  lemma ClaimsArePeople(site: Site, users: seq<User>, c: Claim)
    requires DistinctUsers(users) && SoundSite(site)
    ensures c in Claims(site, AfterDirect(site, users)) ==> c.user in IndexUsers(users)
  {
    RevalidatedSound(site, users);
    DirectSound(site, users, Revalidated(site, users));
  }

  /** Only active people have subjects. */
  lemma SubjectsArePeople(sites: seq<Site>, users: seq<User>)
    requires DistinctUsers(users) && forall s | s in sites :: SoundSite(s)
    ensures var subjects := Subjects(AllClaims(sites, users)); forall s | s in subjects :: subjects[s] in IndexUsers(users)
  {
    forall site, c | site in sites && c in Claims(site, AfterDirect(site, users)) ensures c.user in IndexUsers(users) {
      ClaimsArePeople(site, users, c);
    }
  }

  /** Somebody's link is new in this pass. */
  predicate New(site: Site, v: View, u: int) {
    u in v.linked && u !in site.links
  }

  lemma PassSound(site: Site, sites: seq<Site>, users: seq<User>)
    requires DistinctUsers(users) && SoundSite(site) && forall s | s in sites :: SoundSite(s)
    ensures Sound(site, users, AfterJoin(site, sites, users)) && Sound(site, users, AfterPass(site, sites, users))
  {
    RevalidatedSound(site, users);
    DirectSound(site, users, Revalidated(site, users));
    SubjectsArePeople(sites, users);
    JoinedSound(site, users, site.accounts, AfterDirect(site, users), Subjects(AllClaims(sites, users)));
  }

  /** At the end of a pass the links that were there are unchanged and no account has two live owners;
      two new links never share an account, and a new link takes an account that was linked before only
      from a link this pass found dangling. */
  lemma NewLinksAreSafe(site: Site, sites: seq<Site>, users: seq<User>)
    requires DistinctUsers(users) && SoundSite(site) && forall s | s in sites :: SoundSite(s)
    ensures var v := AfterPass(site, sites, users);
            && Sound(site, users, v)
            && v.dangling == Revalidated(site, users).dangling
            && (forall u, w | New(site, v, u) && New(site, v, w) && u != w :: v.linked[u].externalID != v.linked[w].externalID)
            && (forall u, w | New(site, v, u) && w in site.links && site.links[w].externalID == v.linked[u].externalID ::
                  w in v.dangling && !Holds(site, users, w))
  {
    PassSound(site, sites, users);
    JoinedKeeps(site, site.accounts, AfterDirect(site, users), Subjects(AllClaims(sites, users)));
    var v := AfterPass(site, sites, users);
    assert forall u | New(site, v, u) :: LiveIn(v.linked, v.dangling, u);
  }

  /** The join excludes nobody and only adds. */
  lemma {:induction false} JoinedKeeps(site: Site, accounts: seq<Account>, v: View, subjects: map<string, int>)
    ensures var w := Joined(site, accounts, v, subjects);
            w.dangling == v.dangling && v.issues <= w.issues && Owned(v) <= Owned(w) &&
            forall u | u in v.linked :: u in w.linked && w.linked[u] == v.linked[u]
  {
    if accounts != [] {
      JoinedKeeps(site, accounts[..|accounts| - 1], v, subjects);
    }
  }

  // ----- the order of providers

  /** Where a provider ends depends on which providers took part, not on their order. */
  lemma ProviderOrderIrrelevant(site: Site, sites: seq<Site>, other: seq<Site>, users: seq<User>)
    requires forall s :: s in sites <==> s in other
    ensures AfterPass(site, sites, users) == AfterPass(site, other, users)
  {
    assert AllClaims(sites, users) == AllClaims(other, users);
  }

  // ----- coverage

  predicate Names(issues: set<Issue>, u: int) {
    exists i :: i in issues && i.user == Some(u)
  }

  lemma {:induction false} NoUnmanagedYet(site: Site, users: seq<User>, accounts: seq<Account>, subjects: map<string, int>)
    ensures forall i | i in Joined(site, accounts, AfterDirect(site, users), subjects).issues :: !i.kind.Unmanaged?
  {
    if accounts != [] {
      NoUnmanagedYet(site, users, accounts[..|accounts| - 1], subjects);
    }
  }

  /** Every active person owns one observed writable account of the provider, or an issue names them;
      and every writable account either has one active owner or is reported as unmanaged, never both. */
  lemma PassCovers(site: Site, sites: seq<Site>, users: seq<User>)
    requires DistinctUsers(users) && SoundSite(site) && forall s | s in sites :: SoundSite(s)
    ensures var v := AfterPass(site, sites, users);
            && Sound(site, users, v)
            && (forall u | u in users :: LiveIn(v.linked, v.dangling, u.id) || Names(v.issues, u.id))
            && (forall a | a in site.accounts && a.Writable() ::
                  a.externalID in Owned(v) <==> Issue(Unmanaged, None, a.externalID) !in v.issues)
  {
    var subjects := Subjects(AllClaims(sites, users));
    var joined, v := AfterJoin(site, sites, users), AfterPass(site, sites, users);
    PassSound(site, sites, users);
    JoinedKeeps(site, site.accounts, AfterDirect(site, users), subjects);
    NoUnmanagedYet(site, users, site.accounts, subjects);
    forall u | u in users ensures LiveIn(v.linked, v.dangling, u.id) || Names(v.issues, u.id) {
      if u.id in v.dangling {
        IndexUsersExactly(users, u);
        assert LinkIssue(site, users, u.id).value in Revalidated(site, users).issues;
        assert LinkIssue(site, users, u.id).value in v.issues;
      } else if u.id !in v.linked {
        if HasAmbiguity(joined.issues, u.id) {
          var i :| i in joined.issues && i.kind.Ambiguous? && i.user == Some(u.id);
          assert i in v.issues;
        } else {
          assert LeftOut(joined, u);
          assert Issue(Unlinked, Some(u.id), "") in v.issues;
        }
      }
    }
    forall a | a in site.accounts && a.Writable() && a.externalID in Owned(v)
      ensures Issue(Unmanaged, None, a.externalID) !in v.issues
    {
      assert Owned(v) == Owned(joined);
    }
  }

  // ----- the join settles

  /** Every account the join could take belongs to somebody who has a link here already. */
  predicate Settled(accounts: seq<Account>, v: View, subjects: map<string, int>) {
    forall a | a in accounts && Joinable(a, v, subjects) :: subjects[a.subject] in v.linked
  }

  lemma {:induction false} JoinedSettles(site: Site, accounts: seq<Account>, v: View, subjects: map<string, int>)
    ensures Settled(accounts, Joined(site, accounts, v, subjects), subjects)
  {
    if accounts != [] {
      var n := |accounts| - 1;
      var w, a := Joined(site, accounts[..n], v, subjects), accounts[n];
      JoinedSettles(site, accounts[..n], v, subjects);
      assert accounts == accounts[..n] + [a];
      assert Owned(w) <= Owned(JoinStep(site, a, w, subjects));
    }
  }

  /** Once settled, going over the accounts again adopts nothing. */
  lemma {:induction false} SettledStays(site: Site, accounts: seq<Account>, v: View, subjects: map<string, int>)
    requires Settled(accounts, v, subjects)
    ensures var w := Joined(site, accounts, v, subjects); w.linked == v.linked && w.dangling == v.dangling
  {
    if accounts != [] {
      var n := |accounts| - 1;
      assert accounts[n] in accounts && forall a | a in accounts[..n] :: a in accounts;
      SettledStays(site, accounts[..n], v, subjects);
      SameLinksSameOwners(v, Joined(site, accounts[..n], v, subjects));
    }
  }

  lemma SameLinksSameOwners(v: View, w: View)
    requires v.linked == w.linked && v.dangling == w.dangling
    ensures Owned(v) == Owned(w)
  {
  }

  lemma AdoptionClaims(site: Site, v: View, a: Account, subjects: map<string, int>)
    requires SoundSite(site) && a in site.accounts
    requires v.dangling <= v.linked.Keys
    ensures var w := JoinStep(site, a, v, subjects);
            Claims(site, v) <= Claims(site, w) &&
            forall c | c in Claims(site, w) && c !in Claims(site, v) :: c.subject in subjects && subjects[c.subject] == c.user
  {
    IndexAccountsExactly(site.accounts, a);
    var w := JoinStep(site, a, v, subjects);
    forall c | c in Claims(site, v) ensures c in Claims(site, w) {
      var u :| LiveIn(v.linked, v.dangling, u) && SubjectOf(site, v.linked[u].externalID) != "" &&
               c == Claim(SubjectOf(site, v.linked[u].externalID), u);
      assert LiveIn(w.linked, w.dangling, u) && w.linked[u] == v.linked[u];
    }
  }

  /** What the join adds to the claims is what the claims already said. */
  lemma {:induction false} JoinedClaims(site: Site, accounts: seq<Account>, v: View, subjects: map<string, int>)
    requires SoundSite(site) && (forall a | a in accounts :: a in site.accounts)
    requires v.dangling <= v.linked.Keys
    ensures var w := Joined(site, accounts, v, subjects);
            && Claims(site, v) <= Claims(site, w) && w.dangling <= w.linked.Keys
            && forall c | c in Claims(site, w) && c !in Claims(site, v) :: c.subject in subjects && subjects[c.subject] == c.user
  {
    if accounts != [] {
      var n := |accounts| - 1;
      assert accounts[n] in accounts && forall a | a in accounts[..n] :: a in accounts;
      JoinedClaims(site, accounts[..n], v, subjects);
      AdoptionClaims(site, Joined(site, accounts[..n], v, subjects), accounts[n], subjects);
    }
  }

  lemma AgreeingClaims(before: set<Claim>, after: set<Claim>)
    requires before <= after
    requires forall c | c in after && c !in before :: c.subject in Subjects(before) && Subjects(before)[c.subject] == c.user
    ensures Subjects(after) == Subjects(before)
  {
    var was, now := Subjects(before), Subjects(after);
    forall s | s in was ensures s in now && now[s] == was[s] {
      assert Claim(s, was[s]) in before && Undisputed(before, Claim(s, was[s]));
      assert Undisputed(after, Claim(s, was[s]));
    }
    forall s | s in now ensures s in was {
      var c := Claim(s, now[s]);
      assert c in after && Undisputed(after, c);
      assert c in before ==> Undisputed(before, c);
    }
  }

  /** What all providers say about subjects once the join has run. */
  function ClaimsAfterJoin(sites: seq<Site>, users: seq<User>): set<Claim> {
    set site, c | site in sites && c in Claims(site, AfterJoin(site, sites, users)) :: c
  }

  lemma SubjectsSettle(sites: seq<Site>, users: seq<User>)
    requires DistinctUsers(users) && forall s | s in sites :: SoundSite(s)
    ensures Subjects(ClaimsAfterJoin(sites, users)) == Subjects(AllClaims(sites, users))
  {
    var before, after := AllClaims(sites, users), ClaimsAfterJoin(sites, users);
    var subjects := Subjects(before);
    forall site | site in sites
      ensures Claims(site, AfterDirect(site, users)) <= Claims(site, AfterJoin(site, sites, users))
      ensures forall c | c in Claims(site, AfterJoin(site, sites, users)) && c !in Claims(site, AfterDirect(site, users)) ::
                c.subject in subjects && subjects[c.subject] == c.user
    {
      RevalidatedSound(site, users);
      DirectSound(site, users, Revalidated(site, users));
      JoinedClaims(site, site.accounts, AfterDirect(site, users), subjects);
    }
    AgreeingClaims(before, after);
  }

  /** Repeating the join over all providers adopts nothing more. */
  lemma JoinSettles(site: Site, sites: seq<Site>, users: seq<User>)
    requires DistinctUsers(users) && site in sites && forall s | s in sites :: SoundSite(s)
    ensures var v := AfterJoin(site, sites, users);
            Joined(site, site.accounts, v, Subjects(ClaimsAfterJoin(sites, users))).linked == v.linked
  {
    SubjectsSettle(sites, users);
    JoinedSettles(site, site.accounts, AfterDirect(site, users), Subjects(AllClaims(sites, users)));
    SettledStays(site, site.accounts, AfterJoin(site, sites, users), Subjects(AllClaims(sites, users)));
  }

  // ----- a second pass

  /** The provider as the next pass loads it, with the same accounts and the links of this one. */
  function Again(site: Site, sites: seq<Site>, users: seq<User>): Site {
    site.(links := AfterPass(site, sites, users).linked)
  }

  /** No link of this provider came from the subject join. */
  predicate NoneJoined(site: Site, sites: seq<Site>, users: seq<User>) {
    AfterJoin(site, sites, users).linked == AfterDirect(site, users).linked
  }

  /** A link that was made by a direct match still matches. */
  lemma DirectLinkHolds(site: Site, again: Site, users: seq<User>, u: int)
    requires SoundSite(site) && DistinctUsers(users)
    requires var v := Revalidated(site, users);
             u in DirectLinks(site, users, v) &&
             again == site.(links := again.links) && u in again.links && again.links[u] == DirectLinks(site, users, v)[u]
    ensures Holds(again, users, u)
  {
    var v := Revalidated(site, users);
    var a := DirectPick(site, users, v, IndexUsers(users)[u]);
    IndexAccountsExactly(site.accounts, a);
  }

  lemma SecondRevalidation(site: Site, again: Site, users: seq<User>)
    requires SoundSite(site) && DistinctUsers(users)
    requires again == site.(links := AfterDirect(site, users).linked)
    ensures Revalidated(again, users).dangling == AfterDirect(site, users).dangling
  {
    RevalidatedSound(site, users);
    DirectSound(site, users, Revalidated(site, users));
    forall u | u in again.links
      ensures Holds(again, users, u) <==> !(u in site.links && !Holds(site, users, u))
    {
      if u !in site.links {
        DirectLinkHolds(site, again, users, u);
      } else {
        assert again.links[u] == site.links[u];
      }
    }
  }

  /** Whoever was not matched meets the same claimants and holders again. */
  lemma {:induction false} SameClaimants(prefix: seq<User>, before: map<int, Link>, after: map<int, Link>, key: MatchKey, value: string)
    requires forall i | 0 <= i < |prefix| && UserMatch(prefix[i], key) == value ::
               (prefix[i].id in before <==> prefix[i].id in after)
    ensures Claimants(prefix, before, key, value) == Claimants(prefix, after, key, value)
  {
    if prefix != [] {
      var n := |prefix| - 1;
      SameClaimants(prefix[..n], before, after, key, value);
    }
  }

  lemma {:induction false} SameHolders(prefix: seq<Account>, before: set<string>, after: set<string>, key: MatchKey, value: string)
    requires forall a | a in prefix && AccountMatch(a, key) == value :: (a.externalID in before <==> a.externalID in after)
    ensures Holders(prefix, before, key, value) == Holders(prefix, after, key, value)
  {
    if prefix != [] {
      var n := |prefix| - 1;
      assert prefix[n] in prefix && forall a | a in prefix[..n] :: a in prefix;
      SameHolders(prefix[..n], before, after, key, value);
    }
  }

  /** A direct match uses its match value up: it was the value's only claimant and only holder. */
  lemma MatchUsesValue(site: Site, users: seq<User>, v: View, u: User, w: User)
    requires u in users && w in users && UserMatch(u, site.key) == UserMatch(w, site.key)
    requires DirectAccount(site, users, v, w).Some? && u.id !in v.linked
    ensures u == w
  {
    var value := UserMatch(u, site.key);
    ClaimantsExactly(users, v.linked, site.key, value, u);
    ClaimantsExactly(users, v.linked, site.key, value, w);
  }

  lemma SecondDirectFindsNobody(site: Site, again: Site, users: seq<User>, u: User)
    requires SoundSite(site) && DistinctUsers(users) && u in users
    requires again == site.(links := AfterDirect(site, users).linked)
    ensures DirectAccount(again, users, Revalidated(again, users), u) == None
  {
    var v, w := Revalidated(site, users), Revalidated(again, users);
    var value, people := UserMatch(u, site.key), IndexUsers(users);
    if u.id !in w.linked && value != "" {
      IndexUsersExactly(users, u);
      IndexedById(users);
      SecondRevalidation(site, again, users);
      assert DirectAccount(site, users, v, u).None?;
      forall x | x in users && UserMatch(x, site.key) == value ensures x.id in v.linked <==> x.id in w.linked {
        IndexUsersExactly(users, x);
        if x.id in DirectLinks(site, users, v) {
          MatchUsesValue(site, users, v, u, x);
        }
      }
      SameClaimants(users, v.linked, w.linked, site.key, value);
      forall a | a in site.accounts && AccountMatch(a, site.key) == value ensures a.externalID in Owned(v) <==> a.externalID in Owned(w) {
        OwnedOnlyByMatch(site, again, users, u, a);
      }
      SameHolders(site.accounts, Owned(v), Owned(w), site.key, value);
    }
  }

  /** An account with the match value of somebody who was not matched did not get an owner. */
  lemma OwnedOnlyByMatch(site: Site, again: Site, users: seq<User>, u: User, a: Account)
    requires SoundSite(site) && DistinctUsers(users) && u in users
    requires again == site.(links := AfterDirect(site, users).linked)
    requires u.id !in again.links
    requires a in site.accounts && AccountMatch(a, site.key) == UserMatch(u, site.key)
    ensures a.externalID in Owned(Revalidated(site, users)) <==> a.externalID in Owned(Revalidated(again, users))
  {
    var v, w := Revalidated(site, users), Revalidated(again, users);
    SecondRevalidation(site, again, users);
    RevalidatedSound(site, users);
    DirectSound(site, users, v);
    IndexedById(users);
    if a.externalID in Owned(v) {
      var x :| LiveIn(v.linked, v.dangling, x) && v.linked[x].externalID == a.externalID;
      assert LiveIn(w.linked, w.dangling, x) && w.linked[x] == v.linked[x];
    }
    if a.externalID in Owned(w) {
      var x :| LiveIn(w.linked, w.dangling, x) && w.linked[x].externalID == a.externalID;
      if x in DirectLinks(site, users, v) {
        var b := DirectPick(site, users, v, IndexUsers(users)[x]);
        SameAccount(site.accounts, a, b);
        IndexUsersExactly(users, u);
        MatchUsesValue(site, users, v, u, IndexUsers(users)[x]);
      }
    }
  }

  lemma SecondDirectAddsNothing(site: Site, again: Site, users: seq<User>)
    requires SoundSite(site) && DistinctUsers(users)
    requires again == site.(links := AfterDirect(site, users).linked)
    ensures DirectLinks(again, users, Revalidated(again, users)) == map[]
  {
    IndexedById(users);
    forall u | u in IndexUsers(users)
      ensures DirectAccount(again, users, Revalidated(again, users), IndexUsers(users)[u]).None?
    {
      SecondDirectFindsNobody(site, again, users, IndexUsers(users)[u]);
    }
  }

  lemma SecondDirectChangesNothing(site: Site, again: Site, users: seq<User>)
    requires SoundSite(site) && DistinctUsers(users)
    requires again == site.(links := AfterDirect(site, users).linked)
    ensures AfterDirect(again, users).linked == AfterDirect(site, users).linked
    ensures AfterDirect(again, users).dangling == AfterDirect(site, users).dangling
  {
    SecondRevalidation(site, again, users);
    SecondDirectAddsNothing(site, again, users);
  }

  function Agains(sites: seq<Site>, users: seq<User>): seq<Site> {
    seq(|sites|, i requires 0 <= i < |sites| => Again(sites[i], sites, users))
  }

  lemma ClaimsCarryOver(xs: seq<Site>, ys: seq<Site>, users: seq<User>)
    requires |xs| == |ys|
    requires forall i | 0 <= i < |xs| :: Claims(xs[i], AfterDirect(xs[i], users)) == Claims(ys[i], AfterDirect(ys[i], users))
    ensures AllClaims(xs, users) <= AllClaims(ys, users)
  {
    forall c | c in AllClaims(xs, users) ensures c in AllClaims(ys, users) {
      var x :| x in xs && c in Claims(x, AfterDirect(x, users));
      var i :| 0 <= i < |xs| && xs[i] == x;
      assert ys[i] in ys;
    }
  }

  lemma SameClaims(a: Site, b: Site, v: View, w: View)
    requires a.accounts == b.accounts && v.linked == w.linked && v.dangling == w.dangling
    ensures Claims(a, v) == Claims(b, w)
  {
  }

  lemma ClaimsAgain(sites: seq<Site>, users: seq<User>, i: nat)
    requires DistinctUsers(users) && i < |sites| && SoundSite(sites[i]) && NoneJoined(sites[i], sites, users)
    ensures Claims(Agains(sites, users)[i], AfterDirect(Agains(sites, users)[i], users)) ==
            Claims(sites[i], AfterDirect(sites[i], users))
  {
    var site, again := sites[i], Again(sites[i], sites, users);
    SecondDirectChangesNothing(site, again, users);
    SameClaims(again, site, AfterDirect(again, users), AfterDirect(site, users));
  }

  lemma SecondClaims(sites: seq<Site>, users: seq<User>)
    requires DistinctUsers(users) && forall s | s in sites :: SoundSite(s) && NoneJoined(s, sites, users)
    ensures AllClaims(Agains(sites, users), users) == AllClaims(sites, users)
  {
    var agains := Agains(sites, users);
    forall i | 0 <= i < |sites|
      ensures Claims(agains[i], AfterDirect(agains[i], users)) == Claims(sites[i], AfterDirect(sites[i], users))
    {
      assert sites[i] in sites;
      ClaimsAgain(sites, users, i);
    }
    ClaimsCarryOver(sites, agains, users);
    ClaimsCarryOver(agains, sites, users);
  }

  /** Where no link came from the subject join, a whole second pass over the same people and accounts
      keeps every link, adopts nothing and excludes the same people: the owner maps are the same. */
  lemma SecondPassChangesNothing(site: Site, sites: seq<Site>, users: seq<User>)
    requires DistinctUsers(users) && site in sites
    requires forall s | s in sites :: SoundSite(s) && NoneJoined(s, sites, users)
    ensures var first, second := AfterPass(site, sites, users),
                                 AfterPass(Again(site, sites, users), Agains(sites, users), users);
            second.linked == first.linked && second.dangling == first.dangling && Owned(second) == Owned(first)
  {
    var again, subjects := Again(site, sites, users), Subjects(AllClaims(sites, users));
    var v := AfterJoin(site, sites, users);
    SecondClaims(sites, users);
    SecondDirectChangesNothing(site, again, users);
    JoinedSettles(site, site.accounts, AfterDirect(site, users), subjects);
    JoinedKeeps(site, site.accounts, AfterDirect(site, users), subjects);
    SameLinksSameOwners(v, AfterDirect(again, users));
    SettledStays(again, site.accounts, AfterDirect(again, users), subjects);
    SameLinksSameOwners(AfterPass(again, Agains(sites, users), users), AfterPass(site, sites, users));
  }

  lemma {:induction false} JoinedAdopts(site: Site, accounts: seq<Account>, v: View, subjects: map<string, int>, u: int)
    requires u in Joined(site, accounts, v, subjects).linked && u !in v.linked
    ensures var w := Joined(site, accounts, v, subjects); w.linked[u] == NewLink(site, u, w.linked[u].externalID)
  {
    if accounts != [] && u in Joined(site, accounts[..|accounts| - 1], v, subjects).linked {
      JoinedAdopts(site, accounts[..|accounts| - 1], v, subjects, u);
    }
  }

  /** What a link made by any part of a pass needs to survive the next one, over the same people and
      accounts: the person's match value equals the account's, or there is none. Direct matches have
      that; the subject join does not look at it, so a link it made can turn stale. */
  lemma NewLinkStaysExactly(site: Site, sites: seq<Site>, users: seq<User>, u: int)
    requires DistinctUsers(users) && SoundSite(site) && forall s | s in sites :: SoundSite(s)
    requires New(site, AfterPass(site, sites, users), u)
    ensures u in IndexUsers(users)
    ensures var e := AfterPass(site, sites, users).linked[u].externalID;
            e in IndexAccounts(site.accounts) &&
            (Holds(Again(site, sites, users), users, u) <==>
               var want := UserMatch(IndexUsers(users)[u], site.key);
               want == "" || want == AccountMatch(IndexAccounts(site.accounts)[e], site.key))
  {
    var v := AfterPass(site, sites, users);
    PassSound(site, sites, users);
    JoinedKeeps(site, site.accounts, AfterDirect(site, users), Subjects(AllClaims(sites, users)));
    assert LiveIn(v.linked, v.dangling, u);
    assert v.linked[u].origin.Matched? by {
      if u !in AfterDirect(site, users).linked {
        JoinedAdopts(site, site.accounts, AfterDirect(site, users), Subjects(AllClaims(sites, users)), u);
      }
    }
  }

  // ----- a link that turns stale

  /** One person, matched by user name here, and with the same subject and another address there. */
  function Somebody(): seq<User> {
    [User(2, "u", "m", "p", true, [])]
  }

  function NamedSite(): Site {
    Site(1, ByUsername, [Account("a", "s", "m", "", true, false, Unknown, Unknown, false)], map[])
  }

  function MailedSite(): Site {
    Site(2, ByEmail, [Account("b", "s", "", "q", true, false, Unknown, Unknown, false)], map[])
  }

  const NOTHING_YET := View(map[], {}, {})

  const MATCHED_BY_NAME := View(map[2 := Link(2, 1, "a", Matched)], {}, {})

  lemma NothingIsOwned()
    ensures Owned(NOTHING_YET) == {}
    ensures Revalidated(NamedSite(), Somebody()) == NOTHING_YET == Revalidated(MailedSite(), Somebody())
    ensures IndexUsers(Somebody()) == map[2 := Somebody()[0]]
  {
    assert Somebody()[..0] == [];
  }

  lemma OneClaimantOneHolder()
    ensures UserMatch(Somebody()[0], ByUsername) == Lower(Trim("m")) != ""
    ensures Claimants(Somebody(), map[], ByUsername, Lower(Trim("m"))) == Somebody()
    ensures Holders(NamedSite().accounts, {}, ByUsername, Lower(Trim("m"))) == NamedSite().accounts
  {
    assert Somebody()[..0] == [] && NamedSite().accounts[..0] == [];
  }

  lemma SomebodyMatches()
    ensures AfterDirect(NamedSite(), Somebody()) == MATCHED_BY_NAME
  {
    NothingIsOwned();
    OneClaimantOneHolder();
    assert DirectAccount(NamedSite(), Somebody(), NOTHING_YET, Somebody()[0]) == Some("a");
    assert DirectIssue(NamedSite(), Somebody(), NOTHING_YET, Somebody()[0]) == None;
    assert DirectLinks(NamedSite(), Somebody(), NOTHING_YET) == map[2 := Link(2, 1, "a", Matched)];
  }

  lemma AddressesDiffer()
    ensures Normalized("p") == "p" && Normalized("q") == "q"
  {
  }

  lemma NoHolder()
    ensures UserMatch(Somebody()[0], ByEmail) == "p" && Holders(MailedSite().accounts, {}, ByEmail, "p") == []
  {
    AddressesDiffer();
    assert MailedSite().accounts[..0] == [];
  }

  lemma NobodyMatches()
    ensures AfterDirect(MailedSite(), Somebody()) == NOTHING_YET
  {
    NothingIsOwned();
    NoHolder();
    assert DirectAccount(MailedSite(), Somebody(), NOTHING_YET, Somebody()[0]) == None;
    assert DirectIssue(MailedSite(), Somebody(), NOTHING_YET, Somebody()[0]) == None;
    assert DirectLinks(MailedSite(), Somebody(), NOTHING_YET) == map[];
  }

  lemma OneClaim()
    ensures Claims(NamedSite(), MATCHED_BY_NAME) == {Claim("s", 2)}
    ensures Claims(MailedSite(), NOTHING_YET) == {}
  {
    assert NamedSite().accounts[..0] == [];
    assert SubjectOf(NamedSite(), "a") == "s";
    assert LiveIn(MATCHED_BY_NAME.linked, MATCHED_BY_NAME.dangling, 2);
    assert MATCHED_BY_NAME.linked[2].externalID == "a";
    assert Claim("s", 2) in Claims(NamedSite(), MATCHED_BY_NAME);
  }

  lemma AllClaimsOfTwo(a: Site, b: Site, users: seq<User>)
    ensures AllClaims([a, b], users) == Claims(a, AfterDirect(a, users)) + Claims(b, AfterDirect(b, users))
  {
    assert AllClaims([], users) == {};
    assert [] + [a] == [a] && [a] + [b] == [a, b];
    AllClaimsAppend([], a, users);
    AllClaimsAppend([a], b, users);
  }

  lemma SubjectsOfOne(subject: string, user: int)
    ensures Subjects({Claim(subject, user)}) == map[subject := user]
  {
    assert Undisputed({Claim(subject, user)}, Claim(subject, user));
  }

  lemma SubjectsOfTwo(a: Site, b: Site, users: seq<User>, v: View, w: View, subject: string, user: int)
    requires AfterDirect(a, users) == v && AfterDirect(b, users) == w
    requires Claims(a, v) == {Claim(subject, user)} && Claims(b, w) == {}
    ensures Subjects(AllClaims([a, b], users)) == map[subject := user]
  {
    AllClaimsOfTwo(a, b, users);
    OnlyClaim(AllClaims([a, b], users), Claims(a, v), Claims(b, w), subject, user);
  }

  lemma OnlyClaim(all: set<Claim>, some: set<Claim>, others: set<Claim>, subject: string, user: int)
    requires all == some + others && some == {Claim(subject, user)} && others == {}
    ensures Subjects(all) == map[subject := user]
  {
    assert all == {Claim(subject, user)};
    SubjectsOfOne(subject, user);
  }

  lemma SubjectIsSomebodys()
    ensures Subjects(AllClaims([NamedSite(), MailedSite()], Somebody())) == map["s" := 2]
  {
    SomebodyMatches();
    NobodyMatches();
    OneClaim();
    SubjectsOfTwo(NamedSite(), MailedSite(), Somebody(), MATCHED_BY_NAME, NOTHING_YET, "s", 2);
  }

  lemma JoinGivesIt()
    ensures Joined(MailedSite(), MailedSite().accounts, NOTHING_YET, map["s" := 2]).linked == map[2 := Link(2, 2, "b", Matched)]
  {
    NothingIsOwned();
    var accounts := MailedSite().accounts;
    assert accounts[..0] == [];
    assert Joined(MailedSite(), accounts[..0], NOTHING_YET, map["s" := 2]) == NOTHING_YET;
  }

  lemma StaleByAddress(linked: map<int, Link>)
    requires 2 in linked && linked[2] == Link(2, 2, "b", Matched)
    ensures !Holds(MailedSite().(links := linked), Somebody(), 2)
  {
    AddressesDiffer();
    NothingIsOwned();
    assert MailedSite().accounts[..0] == [];
  }

  lemma PassLinked(site: Site, sites: seq<Site>, users: seq<User>, v: View, subjects: map<string, int>)
    requires AfterDirect(site, users) == v && Subjects(AllClaims(sites, users)) == subjects
    ensures AfterPass(site, sites, users).linked == Joined(site, site.accounts, v, subjects).linked
  {
  }

  lemma SomebodysSitesAreSound()
    ensures DistinctUsers(Somebody()) && SoundSite(NamedSite()) && SoundSite(MailedSite())
  {
  }

  /** It happens: the join gives the account to the person of its subject, and the next pass finds the
      link stale, since the addresses differ. */
  lemma JoinedLinkTurnsStale()
    ensures DistinctUsers(Somebody()) && SoundSite(NamedSite()) && SoundSite(MailedSite())
    ensures var site, sites, users := MailedSite(), [NamedSite(), MailedSite()], Somebody();
            New(site, AfterPass(site, sites, users), 2) && !Holds(Again(site, sites, users), users, 2)
  {
    SomebodysSitesAreSound();
    NobodyMatches();
    SubjectIsSomebodys();
    JoinGivesIt();
    PassLinked(MailedSite(), [NamedSite(), MailedSite()], Somebody(), NOTHING_YET, map["s" := 2]);
    StaleByAddress(AfterPass(MailedSite(), [NamedSite(), MailedSite()], Somebody()).linked);
  }
}
