/** Which ceiling a person gets on a provider, and why (internal/core/resolve.go). */
module Resolving {
  import opened Quotas
  import opened Model
  import opened Tiers
  import opened Sorting
  import opened Sums

  datatype Rule = ProviderOverride | UserTier | GroupTier | DefaultTier | NoRule

  datatype Resolution = Resolution(present: bool, ceiling: Quota, rule: Rule, tierID: int, groupUUID: string)

  datatype Policy = Policy(tiers: map<int, Tier>, groupTiers: map<string, int>, defaultTier: Option<int>)

  datatype UserPolicy = UserPolicy(overrides: map<int, Quota>, tierOverride: Option<int>)

  /** A tier somebody is entitled to; the group is "" unless membership gave it. */
  datatype Candidate = Candidate(tierID: int, groupUUID: string)

  const NOTHING := Resolution(false, Unknown, NoRule, 0, "")

  // ----- candidates

  predicate ByGroup(a: Candidate, b: Candidate) {
    AtMost(a.groupUUID, b.groupUUID)
  }

  lemma ByGroupPreorder()
    ensures TotalPreorder(ByGroup)
  {
    forall x: Candidate, y: Candidate ensures ByGroup(x, y) || ByGroup(y, x) {
      AtMostTotal(x.groupUUID, y.groupUUID);
    }
    forall x: Candidate, y: Candidate, z: Candidate | ByGroup(x, y) && ByGroup(y, z) ensures ByGroup(x, z) {
      AtMostTransitive(x.groupUUID, y.groupUUID, z.groupUUID);
    }
  }

  /** The mapped groups, in the order the person lists them. */
  function FromGroups(groups: seq<string>, policy: Policy): seq<Candidate> {
    if groups == [] then []
    else
      var g := groups[|groups| - 1];
      FromGroups(groups[..|groups| - 1], policy) +
      if g in policy.groupTiers then [Candidate(policy.groupTiers[g], g)] else []
  }

  function Candidates(user: User, policy: Policy, up: UserPolicy): (seq<Candidate>, Rule) {
    var fromGroups := FromGroups(user.groups, policy);
    if up.tierOverride.Some? then ([Candidate(up.tierOverride.value, "")], UserTier)
    else if fromGroups != [] then (InsertionSort(ByGroup, fromGroups), GroupTier)
    else if policy.defaultTier.Some? then ([Candidate(policy.defaultTier.value, "")], DefaultTier)
    else ([], NoRule)
  }

  /** A group appears among the candidates with the tier it maps to. */
  lemma {:induction false} FromGroupsExactly(groups: seq<string>, policy: Policy, c: Candidate)
    ensures c in FromGroups(groups, policy) <==>
            c.groupUUID in groups && c.groupUUID in policy.groupTiers && c.tierID == policy.groupTiers[c.groupUUID]
  {
    if groups != [] {
      FromGroupsExactly(groups[..|groups| - 1], policy, c);
      assert groups == groups[..|groups| - 1] + [groups[|groups| - 1]];
    }
  }

  /** Sorting leaves no choice: two candidates of one group are the same candidate. */
  lemma SortedByGroupUnique(groups: seq<string>, policy: Policy, s: seq<Candidate>, t: seq<Candidate>)
    requires multiset(s) == multiset(t) == multiset(FromGroups(groups, policy))
    requires Sorted(ByGroup, s) && Sorted(ByGroup, t)
    ensures s == t
  {
    forall x, y | x in multiset(s) && y in multiset(s) && ByGroup(x, y) && ByGroup(y, x) ensures x == y {
      AtMostTotal(x.groupUUID, y.groupUUID);
      FromGroupsExactly(groups, policy, x);
      FromGroupsExactly(groups, policy, y);
    }
    assert forall x :: x in s <==> x in multiset(s);
    assert forall x :: x in t <==> x in multiset(t);
    SortedUnique(ByGroup, s, t);
  }

  method CandidateTiers(user: User, policy: Policy, up: UserPolicy) returns (candidates: seq<Candidate>, rule: Rule)
    ensures (candidates, rule) == Candidates(user, policy, up)
  {
    if up.tierOverride.Some? {
      return [Candidate(up.tierOverride.value, "")], UserTier;
    }
    var fromGroups := [];
    for i := 0 to |user.groups|
      invariant fromGroups == FromGroups(user.groups[..i], policy)
    {
      assert user.groups[..i + 1][..i] == user.groups[..i];
      var g := user.groups[i];
      if g in policy.groupTiers {
        fromGroups := fromGroups + [Candidate(policy.groupTiers[g], g)];
      }
    }
    assert user.groups[..|user.groups|] == user.groups;
    if |fromGroups| > 0 {
      ByGroupPreorder();
      SortedInsertionSort(ByGroup, fromGroups);
      candidates := Sort(ByGroup, fromGroups);
      SortedByGroupUnique(user.groups, policy, candidates, InsertionSort(ByGroup, fromGroups));
      return candidates, GroupTier;
    }
    if policy.defaultTier.Some? {
      return [Candidate(policy.defaultTier.value, "")], DefaultTier;
    }
    return [], NoRule;
  }

  // ----- the most generous offer

  predicate MoreGenerous(candidate: Quota, current: Quota) {
    if !candidate.IsKnown() then false
    else if current.Unlimited? then false
    else if candidate.Unlimited? then true
    else if !current.IsKnown() then true
    else candidate.n > current.n
  }

  /** At most as generous, with unlimited on top of every byte count. */
  predicate WithinOffer(a: Quota, b: Quota) {
    b.Unlimited? || (a.Bytes? && b.Bytes? && a.n <= b.n)
  }

  function Offer(policy: Policy, providerID: int, c: Candidate): (q: Option<Quota>)
    ensures q.Some? ==> q.value.IsKnown() && q.value.Valid()
  {
    if c.tierID in policy.tiers then AllocationFor(policy.tiers[c.tierID], providerID) else None
  }

  /** The first of the most generous offers. */
  function Pick(policy: Policy, providerID: int, candidates: seq<Candidate>, rule: Rule): Resolution {
    if candidates == [] then NOTHING
    else
      var best := Pick(policy, providerID, candidates[..|candidates| - 1], rule);
      var c := candidates[|candidates| - 1];
      var offered := Offer(policy, providerID, c);
      if offered.Some? && (!best.present || MoreGenerous(offered.value, best.ceiling))
      then Resolution(true, offered.value, rule, policy.tiers[c.tierID].id, c.groupUUID)
      else best
  }

  function Resolved(user: User, providerID: int, policy: Policy, up: UserPolicy): Resolution {
    if providerID in up.overrides then Resolution(true, up.overrides[providerID], ProviderOverride, 0, "")
    else
      var (candidates, rule) := Candidates(user, policy, up);
      Pick(policy, providerID, candidates, rule)
  }

  method Resolve(user: User, providerID: int, policy: Policy, up: UserPolicy) returns (r: Resolution)
    ensures r == Resolved(user, providerID, policy, up)
  {
    if providerID in up.overrides {
      return Resolution(true, up.overrides[providerID], ProviderOverride, 0, "");
    }
    var candidates, rule := CandidateTiers(user, policy, up);
    r := NOTHING;
    for i := 0 to |candidates|
      invariant r == Pick(policy, providerID, candidates[..i], rule)
    {
      assert candidates[..i + 1][..i] == candidates[..i];
      var c := candidates[i];
      if c.tierID !in policy.tiers {
        continue;
      }
      var tier := policy.tiers[c.tierID];
      var offered := AllocationFor(tier, providerID);
      if offered.Some? && (!r.present || MoreGenerous(offered.value, r.ceiling)) {
        r := Resolution(true, offered.value, rule, tier.id, c.groupUUID);
      }
    }
    assert candidates[..|candidates|] == candidates;
  }

  // ----- Resolve is a maximum

  /** The candidate at index w offers the ceiling, nobody offers more, and nobody before it as much. */
  predicate Wins(policy: Policy, providerID: int, candidates: seq<Candidate>, rule: Rule, r: Resolution, w: nat) {
    && w < |candidates|
    && candidates[w].tierID in policy.tiers
    && Offer(policy, providerID, candidates[w]) == Some(r.ceiling)
    && r == Resolution(true, r.ceiling, rule, policy.tiers[candidates[w].tierID].id, candidates[w].groupUUID)
    && (forall i | 0 <= i < |candidates| ::
          var o := Offer(policy, providerID, candidates[i]);
          o.Some? ==> WithinOffer(o.value, r.ceiling) && (i < w ==> o.value != r.ceiling))
  }

  lemma {:induction false} PickWins(policy: Policy, providerID: int, candidates: seq<Candidate>, rule: Rule)
    returns (w: nat)
    ensures var r := Pick(policy, providerID, candidates, rule);
            if r.present then Wins(policy, providerID, candidates, rule, r, w)
            else r == NOTHING && forall c | c in candidates :: Offer(policy, providerID, c).None?
  {
    w := 0;
    if candidates != [] {
      var n := |candidates| - 1;
      w := PickWins(policy, providerID, candidates[..n], rule);
      var best := Pick(policy, providerID, candidates[..n], rule);
      var r := Pick(policy, providerID, candidates, rule);
      if r.present && (!best.present || r != best) {
        w := n;
      }
      if best.present && Offer(policy, providerID, candidates[n]).Some? && r != best {
        assert MoreGenerous(r.ceiling, best.ceiling);
      }
      assert forall i | 0 <= i < n :: candidates[..n][i] == candidates[i] && candidates[i] in candidates[..n];
    }
  }

  lemma PickOfOne(policy: Policy, providerID: int, c: Candidate, rule: Rule)
    ensures var o := Offer(policy, providerID, c);
            Pick(policy, providerID, [c], rule) ==
            if o.Some? then Resolution(true, o.value, rule, policy.tiers[c.tierID].id, c.groupUUID) else NOTHING
  {
    assert [c][..0] == [];
    assert Pick(policy, providerID, [c][..0], rule) == NOTHING;
  }

  predicate HasMappedGroup(user: User, policy: Policy) {
    exists g :: g in user.groups && g in policy.groupTiers
  }

  /** Precedence, without any order: who is a candidate at all. */
  lemma Entitled(user: User, policy: Policy, up: UserPolicy, c: Candidate)
    ensures c in Candidates(user, policy, up).0 <==>
            if up.tierOverride.Some? then c == Candidate(up.tierOverride.value, "")
            else if HasMappedGroup(user, policy) then
              c.groupUUID in user.groups && c.groupUUID in policy.groupTiers &&
              c.tierID == policy.groupTiers[c.groupUUID]
            else policy.defaultTier.Some? && c == Candidate(policy.defaultTier.value, "")
    ensures up.tierOverride.None? ==>
              (HasMappedGroup(user, policy) <==> Candidates(user, policy, up).1 == GroupTier)
  {
    var fromGroups := FromGroups(user.groups, policy);
    FromGroupsExactly(user.groups, policy, c);
    if HasMappedGroup(user, policy) {
      var g :| g in user.groups && g in policy.groupTiers;
      FromGroupsExactly(user.groups, policy, Candidate(policy.groupTiers[g], g));
      assert multiset(InsertionSort(ByGroup, fromGroups)) == multiset(fromGroups);
      assert c in fromGroups <==> c in multiset(fromGroups);
      assert c in InsertionSort(ByGroup, fromGroups) <==> c in multiset(InsertionSort(ByGroup, fromGroups));
    } else if fromGroups != [] {
      FromGroupsExactly(user.groups, policy, fromGroups[0]);
    }
  }

  /** Equally generous winners are told apart by the smallest group uuid. */
  lemma CandidatesSorted(user: User, policy: Policy, up: UserPolicy)
    ensures Sorted(ByGroup, Candidates(user, policy, up).0)
  {
    ByGroupPreorder();
    SortedInsertionSort(ByGroup, FromGroups(user.groups, policy));
  }

  predicate Supplies(policy: Policy, providerID: int, c: Candidate, r: Resolution) {
    && c.tierID in policy.tiers
    && Offer(policy, providerID, c) == Some(r.ceiling)
    && r.groupUUID == c.groupUUID
    && r.tierID == policy.tiers[c.tierID].id
  }

  /** Without a provider override, the ceiling is the greatest offer among the candidates, present
      exactly when one of them allocates; the recorded winner makes that offer, and no tied candidate
      comes from a smaller group uuid. */
  lemma ResolvedIsMaximum(user: User, providerID: int, policy: Policy, up: UserPolicy)
    requires providerID !in up.overrides
    ensures var (cs, rule) := Candidates(user, policy, up);
            var r := Resolved(user, providerID, policy, up);
            && (r.present <==> exists c :: c in cs && Offer(policy, providerID, c).Some?)
            && (r.present ==> r.rule == rule && exists c :: c in cs && Supplies(policy, providerID, c, r))
            && (!r.present ==> r == NOTHING)
            && (forall c | c in cs && Offer(policy, providerID, c).Some? ::
                  var o := Offer(policy, providerID, c).value;
                  WithinOffer(o, r.ceiling) && (o == r.ceiling ==> AtMost(r.groupUUID, c.groupUUID)))
  {
    var (cs, rule) := Candidates(user, policy, up);
    var r := Resolved(user, providerID, policy, up);
    var w := PickWins(policy, providerID, cs, rule);
    CandidatesSorted(user, policy, up);
    if r.present {
      assert Supplies(policy, providerID, cs[w], r);
      forall c | c in cs && Offer(policy, providerID, c) == Some(r.ceiling) ensures AtMost(r.groupUUID, c.groupUUID) {
        var i :| 0 <= i < |cs| && cs[i] == c;
        AtMostTotal(c.groupUUID, c.groupUUID);
        assert i == w || ByGroup(cs[w], cs[i]);
      }
    }
  }

  /** The order in which a person's groups are listed, and how often, changes nothing at all. */
  lemma GroupOrderIrrelevant(user: User, other: User, providerID: int, policy: Policy, up: UserPolicy)
    requires other == user.(groups := other.groups)
    requires forall g :: g in user.groups <==> g in other.groups
    ensures Resolved(user, providerID, policy, up) == Resolved(other, providerID, policy, up)
  {
    if providerID !in up.overrides {
      ResolvedIsMaximum(user, providerID, policy, up);
      ResolvedIsMaximum(other, providerID, policy, up);
      forall c: Candidate ensures c in Candidates(user, policy, up).0 <==> c in Candidates(other, policy, up).0 {
        Entitled(user, policy, up, c);
        Entitled(other, policy, up, c);
      }
      var r, s := Resolved(user, providerID, policy, up), Resolved(other, providerID, policy, up);
      if r.present {
        var c :| c in Candidates(user, policy, up).0 && Supplies(policy, providerID, c, r);
        var d :| d in Candidates(other, policy, up).0 && Supplies(policy, providerID, d, s);
        AtMostTotal(r.groupUUID, s.groupUUID);
        Entitled(user, policy, up, c);
        Entitled(other, policy, up, d);
      }
    }
  }

  /** Whoever is already in a mapped group (or has an override) never loses by joining another. */
  lemma JoiningNeverLowers(user: User, group: string, providerID: int, policy: Policy, up: UserPolicy)
    requires providerID in up.overrides || up.tierOverride.Some? || HasMappedGroup(user, policy)
    ensures var r := Resolved(user, providerID, policy, up);
            var joined := Resolved(user.(groups := user.groups + [group]), providerID, policy, up);
            joined == r || !r.present || (joined.present && WithinOffer(r.ceiling, joined.ceiling))
  {
    if providerID !in up.overrides {
      var after := user.(groups := user.groups + [group]);
      ResolvedIsMaximum(user, providerID, policy, up);
      ResolvedIsMaximum(after, providerID, policy, up);
      var r := Resolved(user, providerID, policy, up);
      if r.present {
        var c :| c in Candidates(user, policy, up).0 && Supplies(policy, providerID, c, r);
        Entitled(user, policy, up, c);
        Entitled(after, policy, up, c);
        if up.tierOverride.None? {
          var g :| g in user.groups && g in policy.groupTiers;
          assert g in after.groups;
        }
      }
    }
  }

  /** The second ceiling is the first, or there was none, or it allows at least as much. */
  predicate NotLowered(before: Resolution, after: Resolution) {
    after == before || !before.present || (after.present && WithinOffer(before.ceiling, after.ceiling))
  }

  /** Nothing to lose by joining: an override decides, a mapped group is there already, the new group is
      not mapped, there is no default tier to fall from, or that tier offers nothing here or no more than
      the tier of the group. */
  predicate NothingToLose(user: User, group: string, providerID: int, policy: Policy, up: UserPolicy) {
    || providerID in up.overrides || up.tierOverride.Some? || HasMappedGroup(user, policy)
    || group !in policy.groupTiers || policy.defaultTier.None?
    || var usual := Offer(policy, providerID, Candidate(policy.defaultTier.value, ""));
       var joined := Offer(policy, providerID, Candidate(policy.groupTiers[group], group));
       usual.None? || (joined.Some? && WithinOffer(usual.value, joined.value))
  }

  /** Without a mapped group there is nothing to sort: the default decides before, the new group after. */
  lemma CandidatesOfFirstGroup(user: User, group: string, policy: Policy, up: UserPolicy)
    requires up.tierOverride.None? && !HasMappedGroup(user, policy)
    ensures FromGroups(user.groups, policy) == []
    ensures group !in policy.groupTiers ==>
              Candidates(user.(groups := user.groups + [group]), policy, up) == Candidates(user, policy, up)
    ensures group in policy.groupTiers ==>
              Candidates(user.(groups := user.groups + [group]), policy, up) ==
              ([Candidate(policy.groupTiers[group], group)], GroupTier)
  {
    var none := FromGroups(user.groups, policy);
    if none != [] {
      FromGroupsExactly(user.groups, policy, none[0]);
    }
    OneGroupMore(user.groups, group, policy);
    if group in policy.groupTiers {
      SortOfOne(Candidate(policy.groupTiers[group], group));
    }
  }

  lemma OneGroupMore(groups: seq<string>, group: string, policy: Policy)
    ensures FromGroups(groups + [group], policy) ==
            FromGroups(groups, policy) + if group in policy.groupTiers then [Candidate(policy.groupTiers[group], group)] else []
  {
    assert (groups + [group])[..|groups|] == groups;
  }

  lemma SortOfOne(c: Candidate)
    ensures InsertionSort(ByGroup, [c]) == [c]
  {
    assert [c][..0] == [];
    assert InsertionSort(ByGroup, [c][..0]) == [];
  }

  /** Exactly when joining a group takes nothing away from a ceiling. */
  lemma JoiningLowersExactly(user: User, group: string, providerID: int, policy: Policy, up: UserPolicy)
    ensures NotLowered(Resolved(user, providerID, policy, up),
                       Resolved(user.(groups := user.groups + [group]), providerID, policy, up)) <==>
            NothingToLose(user, group, providerID, policy, up)
  {
    if providerID in up.overrides || up.tierOverride.Some? || HasMappedGroup(user, policy) {
      JoiningNeverLowers(user, group, providerID, policy, up);
    } else {
      CandidatesOfFirstGroup(user, group, policy, up);
      if policy.defaultTier.Some? && group in policy.groupTiers {
        PickOfOne(policy, providerID, Candidate(policy.defaultTier.value, ""), DefaultTier);
        PickOfOne(policy, providerID, Candidate(policy.groupTiers[group], group), GroupTier);
      }
    }
  }

  /** Somebody on the default tier can lose by joining a first group: 20 bytes become 10. */
  lemma JoiningFirstGroupCanLower() returns (user: User, group: string, policy: Policy, up: UserPolicy)
    ensures 1 !in up.overrides && up.tierOverride.None? && !HasMappedGroup(user, policy)
    ensures Resolved(user, 1, policy, up).ceiling == Bytes(20)
    ensures Resolved(user.(groups := user.groups + [group]), 1, policy, up).ceiling == Bytes(10)
  {
    user, group := User(1, "u", "alice", "", true, []), "g";
    var small := Tier(1, "small", Unknown, [Allocation(1, Absolute, 10)]);
    var usual := Tier(2, "usual", Unknown, [Allocation(1, Absolute, 20)]);
    policy := Policy(map[1 := small, 2 := usual], map["g" := 1], Some(2));
    up := UserPolicy(map[], None);
    var after := user.(groups := ["g"]);
    assert user.groups + ["g"] == ["g"];
    assert Candidates(user, policy, up).0 == [Candidate(2, "")];
    assert FromGroups(["g"], policy) == [Candidate(1, "g")] by {
      assert ["g"][..0] == [];
    }
    assert InsertionSort(ByGroup, [Candidate(1, "g")]) == [Candidate(1, "g")];
    assert Candidates(after, policy, up).0 == [Candidate(1, "g")];
    PickOfOne(policy, 1, Candidate(2, ""), DefaultTier);
    PickOfOne(policy, 1, Candidate(1, "g"), GroupTier);
  }

  // ----- the effective budget

  function KnownBytes(r: Resolution): int {
    if r.present && r.ceiling.Bytes? then r.ceiling.n else 0
  }

  function KnownTotal(rs: seq<Resolution>): int {
    Sum(KnownBytes, rs)
  }

  /** The sum of the ceilings, unlimited if any is, unknown if there is none. */
  function Budget(rs: seq<Resolution>): Quota {
    if exists r :: r in rs && r.present && r.ceiling.Unlimited? then Unlimited
    else if (exists r :: r in rs && r.present && r.ceiling.Bytes?) && 0 <= KnownTotal(rs) then Bytes(KnownTotal(rs))
    else Unknown
  }

  method EffectiveBudget(rs: seq<Resolution>) returns (q: Quota)
    ensures q == Budget(rs)
  {
    var total, found := 0, false;
    for i := 0 to |rs|
      invariant total == KnownTotal(rs[..i])
      invariant forall j | 0 <= j < i :: rs[j].present ==> !rs[j].ceiling.Unlimited?
      invariant found <==> exists j :: 0 <= j < i && rs[j].present && rs[j].ceiling.Bytes?
    {
      assert rs[..i + 1][..i] == rs[..i];
      var r := rs[i];
      assert r in rs;
      if !r.present {
        continue;
      }
      if r.ceiling.Unlimited? {
        return Unlimited;
      }
      if r.ceiling.Bytes? {
        total, found := total + r.ceiling.n, true;
      }
    }
    assert rs[..|rs|] == rs;
    if !found {
      return Unknown;
    }
    var known := BytesQuota(total);
    q := if known.Some? then known.value else Unknown;
  }

  /** One person's ceilings on a list of providers. */
  function Resolutions(user: User, providers: seq<int>, policy: Policy, up: UserPolicy): (rs: seq<Resolution>)
    ensures |rs| == |providers|
    ensures forall i | 0 <= i < |rs| :: rs[i] == Resolved(user, providers[i], policy, up)
  {
    seq(|providers|, i requires 0 <= i < |providers| => Resolved(user, providers[i], policy, up))
  }

  /** A person on one tier alone. */
  predicate OnTierAlone(t: Tier, policy: Policy, up: UserPolicy) {
    up == UserPolicy(map[], Some(t.id)) && t.id in policy.tiers && policy.tiers[t.id] == t
  }

  lemma AloneGetsTheOffer(user: User, providerID: int, t: Tier, policy: Policy, up: UserPolicy)
    requires OnTierAlone(t, policy, up)
    ensures var r := Resolved(user, providerID, policy, up);
            var offer := AllocationFor(t, providerID);
            r.present == offer.Some? && (r.present ==> Some(r.ceiling) == offer)
  {
    var c := Candidate(t.id, "");
    assert Candidates(user, policy, up).0 == [c];
    PickOfOne(policy, providerID, c, UserTier);
  }

  lemma {:induction false} KnownTotalIsOfferTotal(
    user: User, providers: seq<int>, t: Tier, policy: Policy, up: UserPolicy)
    requires OnTierAlone(t, policy, up)
    ensures KnownTotal(Resolutions(user, providers, policy, up)) == OfferTotal(t, t.allocations, providers)
  {
    if providers == [] {
    } else {
      var n := |providers| - 1;
      KnownTotalIsOfferTotal(user, providers[..n], t, policy, up);
      AloneGetsTheOffer(user, providers[n], t, policy, up);
      var rs := Resolutions(user, providers, policy, up);
      assert rs[..n] == Resolutions(user, providers[..n], policy, up);
      assert providers == providers[..n] + [providers[n]];
      OfferTotalAppend(t, t.allocations, providers[..n], providers[n]);
    }
  }

  lemma {:induction false} OfferTotalAppend(t: Tier, s: seq<Allocation>, providers: seq<int>, p: int)
    ensures OfferTotal(t, s, providers + [p]) == OfferTotal(t, s, providers) + BytesOf(FirstOffer(t, s, p))
  {
    if providers == [] {
      assert [p][1..] == [];
    } else {
      OfferTotalAppend(t, s, providers[1..], p);
      assert (providers + [p])[1..] == providers[1..] + [p];
    }
  }

  /** The effective budget of a person on one balanced tier with no unlimited allocation is never
      unlimited and never more than the tier's budget; with percentages totalling 100 on a list that
      holds every allocated provider, it falls short by less than one byte per percentage. */
  lemma EffectiveBudgetConserves(user: User, providers: seq<int>, t: Tier, policy: Policy, up: UserPolicy)
    requires OnTierAlone(t, policy, up) && Balanced(t) && Distinct(providers)
    requires forall a | a in t.allocations :: !a.mode.Boundless?
    ensures var q := Budget(Resolutions(user, providers, policy, up));
            q.Unknown? || (q.Bytes? && 0 <= q.n <= t.budget.n)
    ensures var q := Budget(Resolutions(user, providers, policy, up));
            PercentTotal(t.allocations) == 100 && (forall a | a in t.allocations :: a.providerID in providers) ==>
            q.Bytes? && t.budget.n - q.n < PercentCount(t.allocations)
  {
    var rs := Resolutions(user, providers, policy, up);
    KnownTotalIsOfferTotal(user, providers, t, policy, up);
    TierConserves(t, providers);
    forall i | 0 <= i < |rs| && rs[i].present ensures !rs[i].ceiling.Unlimited? {
      AloneGetsTheOffer(user, providers[i], t, policy, up);
      BoundedOffer(t, t.allocations, providers[i]);
    }
    if PercentTotal(t.allocations) == 100 && forall a | a in t.allocations :: a.providerID in providers {
      var a := SomePercent(t.allocations);
      var i :| 0 <= i < |providers| && providers[i] == a.providerID;
      AloneGetsTheOffer(user, providers[i], t, policy, up);
      OffersItsAllocation(t, t.allocations, a);
      BoundedOffer(t, t.allocations, providers[i]);
      assert rs[i] in rs;
    }
  }

  lemma {:induction false} BoundedOffer(t: Tier, s: seq<Allocation>, p: int)
    requires forall a | a in s :: !a.mode.Boundless?
    ensures FirstOffer(t, s, p) != Some(Unlimited)
  {
    if s != [] {
      assert s[0] in s && forall a | a in s[1..] :: a in s;
      BoundedOffer(t, s[1..], p);
    }
  }

  lemma {:induction false} SomePercent(s: seq<Allocation>) returns (a: Allocation)
    requires PercentTotal(s) == 100
    ensures a in s && a.mode.Percent?
  {
    PercentsNeedCount(s);
    a := FindPercent(s);
  }

  lemma {:induction false} FindPercent(s: seq<Allocation>) returns (a: Allocation)
    requires PercentCount(s) > 0
    ensures a in s && a.mode.Percent?
  {
    if s[0].mode.Percent? {
      a := s[0];
    } else {
      a := FindPercent(s[1..]);
    }
  }

  lemma {:induction false} OffersItsAllocation(t: Tier, s: seq<Allocation>, a: Allocation)
    requires ValidTier(t) && t.budget.Bytes? && DistinctProviders(s) && (forall x | x in s :: ValidAllocation(x))
    requires a in s && a.mode.Percent?
    ensures FirstOffer(t, s, a.providerID).Some?
  {
    assert ValidAllocation(a);
    if s[0].providerID == a.providerID {
      assert s[0] == a;
      WorthOf(t, a);
    } else {
      OffersItsAllocation(t, s[1..], a);
    }
  }
}
