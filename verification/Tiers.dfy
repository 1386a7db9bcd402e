/** Tiers and their per-provider offers (internal/core/policy.go). */
module Tiers {
  import opened Quotas
  import opened Sums
  import opened Text

  datatype AllocationMode = Absolute | Percent | Boundless | OtherMode(text: string)

  /** What value counts depends on the mode: bytes, percentage points, or nothing. */
  datatype Allocation = Allocation(providerID: int, mode: AllocationMode, value: int)

  datatype Tier = Tier(id: int, name: string, budget: Quota, allocations: seq<Allocation>)

  datatype TierError =
    | NoName
    | BadBudget
    | UnknownMode(mode: AllocationMode)
    | TwoAllocations(providerID: int)
    | NegativeAllocation(value: int)
    | PercentOutOfRange(value: int)
    | PercentWithoutBudget
    | AbsoluteOverBudget(total: int)

  // ----- what a tier adds up to

  function AbsoluteTotal(s: seq<Allocation>): int {
    if s == [] then 0 else (if s[0].mode.Absolute? then s[0].value else 0) + AbsoluteTotal(s[1..])
  }

  function PercentTotal(s: seq<Allocation>): int {
    if s == [] then 0 else (if s[0].mode.Percent? then s[0].value else 0) + PercentTotal(s[1..])
  }

  function PercentCount(s: seq<Allocation>): nat {
    if s == [] then 0 else (if s[0].mode.Percent? then 1 else 0) + PercentCount(s[1..])
  }

  lemma {:induction false} TotalsOfPrefix(s: seq<Allocation>, i: nat)
    requires i < |s|
    ensures AbsoluteTotal(s[..i + 1]) == AbsoluteTotal(s[..i]) + if s[i].mode.Absolute? then s[i].value else 0
    ensures PercentTotal(s[..i + 1]) == PercentTotal(s[..i]) + if s[i].mode.Percent? then s[i].value else 0
  {
    if i > 0 {
      TotalsOfPrefix(s[1..], i - 1);
      assert s[..i + 1][1..] == s[1..][..i] && s[..i][1..] == s[1..][..i - 1];
    }
  }

  predicate DistinctProviders(s: seq<Allocation>) {
    forall i, j | 0 <= i < j < |s| :: s[i].providerID != s[j].providerID
  }

  predicate ValidAllocation(a: Allocation) {
    match a.mode
    case Absolute => 0 <= a.value
    case Percent => 0 <= a.value <= 100
    case Boundless => true
    case OtherMode(_) => false
  }

  predicate HasPercent(s: seq<Allocation>) {
    exists i :: 0 <= i < |s| && s[i].mode.Percent?
  }

  /** A tier that resolves honestly. */
  predicate ValidTier(t: Tier) {
    && Trim(t.name) != ""
    && t.budget.Valid()
    && (forall a | a in t.allocations :: ValidAllocation(a))
    && DistinctProviders(t.allocations)
    && (HasPercent(t.allocations) ==> t.budget.Bytes?)
    && (t.budget.Bytes? ==> AbsoluteTotal(t.allocations) <= t.budget.n)
  }

  /** What each refusal says about the tier. */
  predicate Justified(t: Tier, e: TierError) {
    match e
    case NoName => Trim(t.name) == ""
    case BadBudget => !t.budget.Valid()
    case UnknownMode(m) => m.OtherMode? && exists a :: a in t.allocations && a.mode == m
    case TwoAllocations(p) =>
      exists i, j :: 0 <= i < j < |t.allocations| && t.allocations[i].providerID == p == t.allocations[j].providerID
    case NegativeAllocation(v) => v < 0 && exists a :: a in t.allocations && a.mode.Absolute? && a.value == v
    case PercentOutOfRange(v) => !(0 <= v <= 100) && exists a :: a in t.allocations && a.mode.Percent? && a.value == v
    case PercentWithoutBudget => !t.budget.Bytes? && HasPercent(t.allocations)
    case AbsoluteOverBudget(total) => total == AbsoluteTotal(t.allocations) && t.budget.Bytes? && total > t.budget.n
  }

  /** The range check on one allocation of a known mode. */
  function ValueError(a: Allocation): (e: Option<TierError>)
    requires !a.mode.OtherMode?
    ensures e.None? <==> ValidAllocation(a)
    ensures e.Some? ==> forall t: Tier :: a in t.allocations ==> Justified(t, e.value)
  {
    if a.mode.Absolute? && a.value < 0 then Some(NegativeAllocation(a.value))
    else if a.mode.Percent? && (a.value < 0 || a.value > 100) then Some(PercentOutOfRange(a.value))
    else None
  }

  /** The loop of Validate: the first allocation that is refused, or the totals it leaves behind. */
  method CheckAllocations(t: Tier) returns (e: Option<TierError>, absolute: int, hasPercent: bool)
    ensures e.None? ==> (forall a | a in t.allocations :: ValidAllocation(a)) && DistinctProviders(t.allocations)
    ensures e.None? ==> absolute == AbsoluteTotal(t.allocations) && hasPercent == HasPercent(t.allocations)
    ensures e.Some? ==> Justified(t, e.value) && !e.value.AbsoluteOverBudget? && !ValidTier(t)
  {
    var s := t.allocations;
    var seen: set<int> := {};
    absolute, hasPercent := 0, false;
    for i := 0 to |s|
      invariant forall j | 0 <= j < i :: ValidAllocation(s[j])
      invariant seen == set j | 0 <= j < i :: s[j].providerID
      invariant forall j, k | 0 <= j < k < i :: s[j].providerID != s[k].providerID
      invariant absolute == AbsoluteTotal(s[..i])
      invariant hasPercent <==> exists j :: 0 <= j < i && s[j].mode.Percent?
    {
      var a := s[i];
      assert a in s;
      if a.mode.OtherMode? {
        return Some(UnknownMode(a.mode)), absolute, hasPercent;
      }
      if a.providerID in seen {
        return Some(TwoAllocations(a.providerID)), absolute, hasPercent;
      }
      seen := seen + {a.providerID};
      var bad := ValueError(a);
      if bad.Some? {
        return bad, absolute, hasPercent;
      }
      TotalsOfPrefix(s, i);
      absolute := absolute + if a.mode.Absolute? then a.value else 0;
      hasPercent := hasPercent || a.mode.Percent?;
    }
    assert s[..|s|] == s;
    e := None;
  }

  /** Refuses exactly the tiers that are not valid, and says something true about each. */
  method Validate(t: Tier) returns (e: Option<TierError>)
    ensures e.None? <==> ValidTier(t)
    ensures e.Some? ==> Justified(t, e.value)
  {
    if Trim(t.name) == "" {
      return Some(NoName);
    }
    if !t.budget.Valid() {
      return Some(BadBudget);
    }
    var absolute, hasPercent;
    e, absolute, hasPercent := CheckAllocations(t);
    if e.Some? {
      return e;
    }
    if hasPercent && !t.budget.Bytes? {
      return Some(PercentWithoutBudget);
    }
    if t.budget.Bytes? && absolute > t.budget.n {
      return Some(AbsoluteOverBudget(absolute));
    }
  }

  method Overcommitted(t: Tier) returns (over: bool)
    ensures over <==> PercentTotal(t.allocations) > 100
  {
    var percent := 0;
    for i := 0 to |t.allocations|
      invariant percent == PercentTotal(t.allocations[..i])
    {
      TotalsOfPrefix(t.allocations, i);
      if t.allocations[i].mode.Percent? {
        percent := percent + t.allocations[i].value;
      }
    }
    assert t.allocations[..|t.allocations|] == t.allocations;
    over := percent > 100;
  }

  // ----- one offer

  function Max0(x: int): nat {
    if x < 0 then 0 else x
  }

  /** Integer division that truncates toward zero. */
  function TruncDiv(x: int, d: nat): int
    requires d > 0
  {
    if x >= 0 then x / d else -(-x / d)
  }

  /** What percentages are taken of: the budget less the absolute allocations, never negative. */
  function Remainder(t: Tier): nat
    requires t.budget.Bytes?
  {
    Max0(t.budget.n - AbsoluteTotal(t.allocations))
  }

  function PercentShare(t: Tier, share: int): Option<Quota> {
    if t.budget.Bytes? then BytesQuota(TruncDiv(Remainder(t) * share, 100)) else None
  }

  /** percentOf, with its loop. */
  method PercentOf(t: Tier, share: int) returns (q: Option<Quota>)
    ensures q == PercentShare(t, share)
  {
    if !t.budget.Bytes? {
      return None;
    }
    var remainder := t.budget.n;
    for i := 0 to |t.allocations|
      invariant remainder == t.budget.n - AbsoluteTotal(t.allocations[..i])
    {
      TotalsOfPrefix(t.allocations, i);
      if t.allocations[i].mode.Absolute? {
        remainder := remainder - t.allocations[i].value;
      }
    }
    assert t.allocations[..|t.allocations|] == t.allocations;
    if remainder < 0 {
      remainder := 0;
    }
    q := BytesQuota(TruncDiv(remainder * share, 100));
  }

  /** What one allocation is worth, or None when it offers nothing. */
  function Worth(t: Tier, a: Allocation): (q: Option<Quota>)
    ensures q.Some? ==> q.value.IsKnown() && q.value.Valid()
  {
    match a.mode
    case Boundless => Some(Unlimited)
    case Absolute => BytesQuota(a.value)
    case Percent => PercentShare(t, a.value)
    case OtherMode(_) => None
  }

  /** The first allocation for the provider with a known mode decides; None is an absent offer, which
      is neither zero nor unlimited. */
  function FirstOffer(t: Tier, s: seq<Allocation>, providerID: int): (q: Option<Quota>)
    ensures q.Some? ==> q.value.IsKnown() && q.value.Valid()
  {
    if s == [] then None
    else if s[0].providerID != providerID || s[0].mode.OtherMode? then FirstOffer(t, s[1..], providerID)
    else Worth(t, s[0])
  }

  function AllocationFor(t: Tier, providerID: int): (q: Option<Quota>)
    ensures q.Some? ==> q.value.IsKnown() && q.value.Valid()
  {
    FirstOffer(t, t.allocations, providerID)
  }

  /** Which allocation decides: the first for this provider whose mode is known; without one, none. */
  lemma {:induction false} OfferExactly(t: Tier, s: seq<Allocation>, p: int) returns (i: nat)
    ensures i <= |s| && forall j | 0 <= j < i :: s[j].providerID != p || s[j].mode.OtherMode?
    ensures i < |s| ==> s[i].providerID == p && !s[i].mode.OtherMode? && FirstOffer(t, s, p) == Worth(t, s[i])
    ensures i == |s| ==> FirstOffer(t, s, p) == None
  {
    if s == [] || (s[0].providerID == p && !s[0].mode.OtherMode?) {
      i := 0;
    } else {
      var rest := OfferExactly(t, s[1..], p);
      i := rest + 1;
    }
  }

  // ----- conservation

  /** The bytes a quota stands for; an unlimited or absent one stands for none. */
  function BytesOf(q: Option<Quota>): int {
    if q.Some? && q.value.Bytes? then q.value.n else 0
  }

  function WorthTotal(t: Tier, s: seq<Allocation>): int {
    if s == [] then 0 else BytesOf(Worth(t, s[0])) + WorthTotal(t, s[1..])
  }

  /** The offers of a tier on a list of providers, added up. */
  function OfferTotal(t: Tier, s: seq<Allocation>, providers: seq<int>): int {
    if providers == [] then 0
    else BytesOf(FirstOffer(t, s, providers[0])) + OfferTotal(t, s, providers[1..])
  }

  function Once(p: int, providers: seq<int>, x: int): int {
    if p in providers then x else 0
  }

  lemma {:induction false} NoOffer(t: Tier, s: seq<Allocation>, p: int)
    requires forall a | a in s :: a.providerID != p
    ensures FirstOffer(t, s, p) == None
  {
    if s != [] {
      NoOffer(t, s[1..], p);
    }
  }

  lemma {:induction false} OfferTotalSplit(t: Tier, s: seq<Allocation>, providers: seq<int>)
    requires s != [] && DistinctProviders(s) && ValidAllocation(s[0]) && Distinct(providers)
    ensures OfferTotal(t, s, providers) ==
            Once(s[0].providerID, providers, BytesOf(Worth(t, s[0]))) + OfferTotal(t, s[1..], providers)
  {
    if providers != [] {
      OfferTotalSplit(t, s, providers[1..]);
      if providers[0] == s[0].providerID {
        NoOffer(t, s[1..], providers[0]);
        assert providers[0] !in providers[1..];
      }
    }
  }

  lemma {:induction false} OfferTotalEmpty(t: Tier, providers: seq<int>)
    ensures OfferTotal(t, [], providers) == 0
  {
    if providers != [] {
      OfferTotalEmpty(t, providers[1..]);
    }
  }

  /** Adding up a tier by provider never counts an allocation twice, and misses none when every
      allocated provider is on the list. */
  lemma {:induction false} OffersWithinWorth(t: Tier, s: seq<Allocation>, providers: seq<int>)
    requires DistinctProviders(s) && (forall a | a in s :: ValidAllocation(a)) && Distinct(providers)
    ensures OfferTotal(t, s, providers) <= WorthTotal(t, s)
    ensures (forall a | a in s :: a.providerID in providers) ==> OfferTotal(t, s, providers) == WorthTotal(t, s)
  {
    if s == [] {
      OfferTotalEmpty(t, providers);
    } else {
      OfferTotalSplit(t, s, providers);
      OffersWithinWorth(t, s[1..], providers);
      assert s[0] in s && forall a | a in s[1..] :: a in s;
    }
  }

  /** An absolute allocation is worth itself; a percentage loses less than one byte to the floor. */
  lemma WorthOf(t: Tier, a: Allocation)
    requires t.budget.Bytes? && ValidAllocation(a)
    ensures a.mode.Absolute? ==> BytesOf(Worth(t, a)) == a.value
    ensures a.mode.Boundless? ==> BytesOf(Worth(t, a)) == 0
    ensures a.mode.Percent? ==>
              WorthWithin(Remainder(t), a.value, 1, BytesOf(Worth(t, a)))
  {
    if a.mode.Percent? {
      var x := Remainder(t) * a.value;
      assert 0 <= x && TruncDiv(x, 100) == x / 100;
      assert Worth(t, a) == Some(Bytes(x / 100));
    }
  }

  /** r times a sum of percentages, with what flooring takes away. */
  predicate WorthWithin(r: nat, percent: int, count: nat, bytes: int) {
    r * percent - 99 * count <= 100 * bytes <= r * percent
  }

  lemma WithinAdds(r: nat, v: int, bytes: int, percent: int, count: nat, rest: int)
    requires WorthWithin(r, v, 1, bytes) && WorthWithin(r, percent, count, rest)
    ensures WorthWithin(r, v + percent, 1 + count, bytes + rest)
  {
    assert r * (v + percent) == r * v + r * percent;
  }

  lemma {:induction false} WorthBounds(t: Tier, s: seq<Allocation>)
    requires t.budget.Bytes?
    requires forall a | a in s :: ValidAllocation(a)
    ensures WorthWithin(Remainder(t), PercentTotal(s), PercentCount(s), WorthTotal(t, s) - AbsoluteTotal(s))
  {
    if s != [] {
      var a, rest := s[0], s[1..];
      assert a in s;
      WorthBounds(t, rest);
      WorthOf(t, a);
      if a.mode.Percent? {
        WithinAdds(Remainder(t), a.value, BytesOf(Worth(t, a)),
                   PercentTotal(rest), PercentCount(rest), WorthTotal(t, rest) - AbsoluteTotal(rest));
      }
    }
  }

  predicate Balanced(t: Tier) {
    ValidTier(t) && t.budget.Bytes? && PercentTotal(t.allocations) <= 100
  }

  /** The absolute allocations and the floored percentages fit the budget. */
  lemma WorthWithinBudget(t: Tier)
    requires Balanced(t)
    ensures WorthTotal(t, t.allocations) <= t.budget.n
    ensures PercentTotal(t.allocations) == 100 ==>
              t.budget.n - WorthTotal(t, t.allocations) < PercentCount(t.allocations)
  {
    WorthBounds(t, t.allocations);
    PercentsNeedCount(t.allocations);
    AtMostWhole(Remainder(t), PercentTotal(t.allocations));
  }

  lemma AtMostWhole(r: nat, p: int)
    requires p <= 100
    ensures r * p <= 100 * r && (p == 100 ==> r * p == 100 * r)
  {
  }

  /** A validated tier that is not over-committed hands out at most its budget, whatever the list of
      providers; and with percentages totalling 100 it withholds less than one byte per percentage. */
  lemma TierConserves(t: Tier, providers: seq<int>)
    requires Balanced(t) && Distinct(providers)
    ensures 0 <= OfferTotal(t, t.allocations, providers) <= t.budget.n
    ensures PercentTotal(t.allocations) == 100 && (forall a | a in t.allocations :: a.providerID in providers) ==>
              t.budget.n - OfferTotal(t, t.allocations, providers) < PercentCount(t.allocations)
  {
    WorthWithinBudget(t);
    OffersWithinWorth(t, t.allocations, providers);
    OfferTotalNonNegative(t, t.allocations, providers);
  }

  lemma {:induction false} OfferTotalNonNegative(t: Tier, s: seq<Allocation>, providers: seq<int>)
    ensures 0 <= OfferTotal(t, s, providers)
  {
    if providers != [] {
      OfferTotalNonNegative(t, s, providers[1..]);
    }
  }

  lemma {:induction false} PercentsNeedCount(s: seq<Allocation>)
    ensures PercentCount(s) == 0 ==> PercentTotal(s) == 0
  {
    if s != [] {
      PercentsNeedCount(s[1..]);
    }
  }
}
