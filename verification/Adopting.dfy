/** Adopting the ceilings that are there as overrides, and the plan after it (internal/reconcile/plan.go,
    internal/store/policy.go). */
module Adopting {
  import opened Quotas
  import opened Model
  import opened Adapters
  import opened Resolving
  import opened Plans
  import opened Storage
  import opened Sums
  import opened Applying
  import opened Planning
  import opened Converging

  type Policies = map<int, UserPolicy>

  function PolicyIn(policies: Policies, u: int): UserPolicy {
    if u in policies then policies[u] else UserPolicy(map[], None)
  }

  /** Sets one override of one person. */
  function WithOverride(policies: Policies, u: int, p: int, q: Quota): Policies {
    policies[u := PolicyIn(policies, u).(overrides := PolicyIn(policies, u).overrides[p := q])]
  }

  /** A link that planning and adopting look at: configured provider, active person, admitted by the filter,
      stored account. */
  predicate Eligible(w: World, accounts: map<Key, Row>, link: Link) {
    var byProvider, usersByID := IndexInstances(w.instances), IndexUsers(w.users);
    && link.providerID in byProvider && link.userID in usersByID
    && usersByID[link.userID].active
    && w.admits(usersByID[link.userID].uid, byProvider[link.providerID].name)
    && link.Account() in accounts
  }

  /** Only a ceiling that was read is an instruction. */
  predicate Adoptable(w: World, accounts: map<Key, Row>, link: Link) {
    Eligible(w, accounts, link) && accounts[link.Account()].account.quota.IsKnown()
  }

  function IsAdoptable(w: World, accounts: map<Key, Row>): Link -> bool {
    (link: Link) => Adoptable(w, accounts, link)
  }

  function Owner(w: World, accounts: map<Key, Row>, link: Link): int
    requires Eligible(w, accounts, link)
  {
    IndexUsers(w.users)[link.userID].id
  }

  function Adopted(w: World, accounts: map<Key, Row>, links: seq<Link>): Policies {
    if links == [] then w.userPolicies
    else
      var before, link := Adopted(w, accounts, links[..|links| - 1]), links[|links| - 1];
      if Adoptable(w, accounts, link)
      then WithOverride(before, Owner(w, accounts, link), link.providerID, accounts[link.Account()].account.quota)
      else before
  }

  /** The links whose ceiling could not be adopted. */
  function Skipped(w: World, accounts: map<Key, Row>, links: seq<Link>): seq<Link> {
    if links == [] then []
    else
      var link := links[|links| - 1];
      Skipped(w, accounts, links[..|links| - 1]) +
      if Eligible(w, accounts, link) && !Adoptable(w, accounts, link) then [link] else []
  }

  /** Adopt: stops at a ceiling the store does not accept as an override. */
  method Adopt(w: World, accounts: map<Key, Row>)
    returns (ok: bool, policies: Policies, adopted: nat, skipped: seq<Link>)
    ensures ok <==> forall link | link in w.links && Adoptable(w, accounts, link) :: accounts[link.Account()].account.quota.Valid()
    ensures ok ==> policies == Adopted(w, accounts, w.links) && skipped == Skipped(w, accounts, w.links)
    ensures ok ==> adopted == HowMany(IsAdoptable(w, accounts), w.links)
  {
    policies, adopted, skipped := w.userPolicies, 0, [];
    var usersByID := IndexPeople(w.users);
    var byProvider := IndexByID(w.instances);
    for i := 0 to |w.links|
      invariant policies == Adopted(w, accounts, w.links[..i]) && skipped == Skipped(w, accounts, w.links[..i])
      invariant adopted == HowMany(IsAdoptable(w, accounts), w.links[..i])
      invariant forall j | 0 <= j < i && Adoptable(w, accounts, w.links[j]) :: accounts[w.links[j].Account()].account.quota.Valid()
    {
      assert w.links[..i + 1][..i] == w.links[..i];
      var link := w.links[i];
      assert link in w.links;
      if link.providerID !in byProvider || link.userID !in usersByID || !usersByID[link.userID].active {
        continue;
      }
      var user := usersByID[link.userID];
      if !w.admits(user.uid, byProvider[link.providerID].name) || link.Account() !in accounts {
        continue;
      }
      var quota := accounts[link.Account()].account.quota;
      if !quota.IsKnown() {
        skipped := skipped + [link];
        continue;
      }
      if !quota.Valid() {
        return false, policies, adopted, skipped;
      }
      policies := WithOverride(policies, user.id, link.providerID, quota);
      adopted := adopted + 1;
    }
    assert w.links[..|w.links|] == w.links;
    ok := true;
  }

  // ----- the plan after it

  /** The world with the ceilings adopted. */
  function AfterAdopting(w: World, accounts: map<Key, Row>): World {
    w.(userPolicies := Adopted(w, accounts, w.links))
  }

  lemma {:induction false} IndexedUnderID(users: seq<User>, id: int)
    requires id in IndexUsers(users)
    ensures IndexUsers(users)[id].id == id
  {
    var n := |users| - 1;
    if users[n].id != id {
      IndexedUnderID(users[..n], id);
    }
  }

  lemma {:induction false} AdoptedFor(w: World, accounts: map<Key, Row>, links: seq<Link>, link: Link)
    requires UniqueLinks(links) && link in links && Adoptable(w, accounts, link)
    ensures var up := PolicyIn(Adopted(w, accounts, links), link.userID);
            link.providerID in up.overrides && up.overrides[link.providerID] == accounts[link.Account()].account.quota
  {
    var front, last := links[..|links| - 1], links[|links| - 1];
    IndexedUnderID(w.users, link.userID);
    if link != last {
      var i :| 0 <= i < |links| && links[i] == link;
      assert front[i] == link;
      AdoptedFor(w, accounts, front, link);
      if Adoptable(w, accounts, last) {
        IndexedUnderID(w.users, last.userID);
      }
    }
  }

  lemma {:induction false} NotAdoptedFor(w: World, accounts: map<Key, Row>, links: seq<Link>, u: int, p: int)
    requires forall l | l in links && Adoptable(w, accounts, l) :: l.userID != u || l.providerID != p
    ensures var before, after := PolicyIn(w.userPolicies, u), PolicyIn(Adopted(w, accounts, links), u);
            && after.tierOverride == before.tierOverride
            && (p in after.overrides <==> p in before.overrides)
            && (p in before.overrides ==> after.overrides[p] == before.overrides[p])
  {
    if links != [] {
      var front, last := links[..|links| - 1], links[|links| - 1];
      assert last in links && forall l | l in front :: l in links;
      NotAdoptedFor(w, accounts, front, u, p);
      if Adoptable(w, accounts, last) {
        IndexedUnderID(w.users, last.userID);
      }
    }
  }

  /** What an eligible link needs to stay out of the plan: its ceiling was read, its state is trusted with a
      known usage, and the service would keep the ceiling as it is; or it was not read, and policy asks for
      nothing there. */
  predicate StaysAsIs(w: World, accounts: map<Key, Row>, link: Link)
    requires Eligible(w, accounts, link)
  {
    var row, adapter := accounts[link.Account()], IndexInstances(w.instances)[link.providerID].adapter;
    var user := IndexUsers(w.users)[link.userID];
    if row.account.quota.IsKnown()
    then row.observeOK && row.account.used.IsKnown() && NormalizeQuota(adapter, row.account.quota) == row.account.quota
    else !Resolved(user, link.providerID, w.policy, PolicyIn(w.userPolicies, user.id)).present
  }

  lemma OneLinkPerPerson(links: seq<Link>, a: Link, b: Link)
    requires UniqueLinks(links) && a in links && b in links && a.userID == b.userID && a.providerID == b.providerID
    ensures a == b
  {
  }

  lemma SameResolution(user: User, p: int, policy: Policy, a: UserPolicy, b: UserPolicy)
    requires a.tierOverride == b.tierOverride && (p in a.overrides <==> p in b.overrides)
    requires p in a.overrides ==> a.overrides[p] == b.overrides[p]
    ensures Resolved(user, p, policy, a) == Resolved(user, p, policy, b)
  {
  }

  /** What policy asks for an eligible link afterwards: the adopted ceiling, or what it asked for before. */
  lemma ResolvedAfter(w: World, accounts: map<Key, Row>, link: Link)
    requires UniqueLinks(w.links) && link in w.links && Eligible(w, accounts, link)
    ensures var user := IndexUsers(w.users)[link.userID];
            var r := Resolved(user, link.providerID, w.policy, PolicyIn(Adopted(w, accounts, w.links), user.id));
            if Adoptable(w, accounts, link) then r.present && r.ceiling == accounts[link.Account()].account.quota
            else r == Resolved(user, link.providerID, w.policy, PolicyIn(w.userPolicies, user.id))
  {
    var user := IndexUsers(w.users)[link.userID];
    IndexedUnderID(w.users, link.userID);
    if Adoptable(w, accounts, link) {
      AdoptedFor(w, accounts, w.links, link);
    } else {
      forall l | l in w.links && Adoptable(w, accounts, l) ensures l.userID != link.userID || l.providerID != link.providerID {
        if l.userID == link.userID && l.providerID == link.providerID {
          OneLinkPerPerson(w.links, l, link);
        }
      }
      NotAdoptedFor(w, accounts, w.links, link.userID, link.providerID);
      SameResolution(user, link.providerID, w.policy, PolicyIn(Adopted(w, accounts, w.links), user.id),
                     PolicyIn(w.userPolicies, user.id));
    }
  }

  lemma DifferenceAfterAdopting(w: World, accounts: map<Key, Row>, link: Link)
    requires UniqueLinks(w.links) && link in w.links
    ensures DifferenceFor(AfterAdopting(w, accounts), accounts, link) == [] <==>
            (Eligible(w, accounts, link) ==> StaysAsIs(w, accounts, link))
  {
    if Eligible(w, accounts, link) {
      ResolvedAfter(w, accounts, link);
    }
  }

  lemma {:induction false} FlatEmptyExactly(pieces: seq<seq<Change>>)
    ensures Flat(pieces) == [] <==> forall i | 0 <= i < |pieces| :: pieces[i] == []
  {
    if pieces != [] {
      FlatEmptyExactly(pieces[..|pieces| - 1]);
    }
  }

  lemma EmptyExactly(w: World, accounts: map<Key, Row>, links: seq<Link>)
    ensures Wanted(w, accounts, links) == [] <==> forall i | 0 <= i < |links| :: DifferenceFor(w, accounts, links[i]) == []
  {
    var pieces := seq(|links|, i requires 0 <= i < |links| => DifferenceFor(w, accounts, links[i]));
    WantedIsFlat(w, accounts, links, pieces);
    FlatEmptyExactly(pieces);
  }

  /** Exactly when the first plan after adopting is empty. */
  lemma AdoptedPlanIsEmptyExactly(w: World, accounts: map<Key, Row>)
    requires UniqueLinks(w.links)
    ensures Wanted(AfterAdopting(w, accounts), accounts, w.links) == [] <==>
            forall link | link in w.links && Eligible(w, accounts, link) :: StaysAsIs(w, accounts, link)
  {
    EmptyExactly(AfterAdopting(w, accounts), accounts, w.links);
    forall i | 0 <= i < |w.links|
      ensures DifferenceFor(AfterAdopting(w, accounts), accounts, w.links[i]) == [] <==>
              (Eligible(w, accounts, w.links[i]) ==> StaysAsIs(w, accounts, w.links[i]))
    {
      DifferenceAfterAdopting(w, accounts, w.links[i]);
    }
  }

  // ----- a plan that is not empty

  function OnePerson(): World {
    World([User(1, "", "a", "", true, [])], [Link(1, 7, "x", Matched)], [Instance(7, "cloud", false, Nextcloud, Some(50))],
          Policy(map[], map[], None), map[], (user: string, provider: string) => true)
  }

  /** A ceiling that was read, and a usage that was not. */
  function HalfRead(): map<Key, Row> {
    map[Key(7, "x") := Row(Account("x", "", "", "", true, false, Bytes(5), Unknown, false), Some(1), 0, true)]
  }

  /** The ceiling is adopted, and the first plan still holds a change, in unknown state. */
  lemma AdoptLeavesChange()
    ensures UniqueLinks(OnePerson().links) && Adoptable(OnePerson(), HalfRead(), OnePerson().links[0])
    ensures Wanted(AfterAdopting(OnePerson(), HalfRead()), HalfRead(), OnePerson().links) != []
  {
    var w, accounts := OnePerson(), HalfRead();
    assert w.users[..0] == [] && w.instances[..0] == [];
    assert IndexUsers(w.users) == map[1 := w.users[0]] && IndexInstances(w.instances) == map[7 := w.instances[0]];
    assert w.links[0] in w.links && !StaysAsIs(w, accounts, w.links[0]);
    AdoptedPlanIsEmptyExactly(w, accounts);
  }
}
