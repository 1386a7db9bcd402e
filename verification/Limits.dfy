/** The token bucket per credential (internal/api/auth.go). Time is in nanoseconds and tokens are reals. */
module Limits {

  datatype Bucket = Bucket(tokens: real, last: int)

  type Buckets = map<string, Bucket>

  const MINUTE := 60_000_000_000

  /** A bucket map may grow past this before it is discarded. */
  const MANY := 1024

  /** Nanoseconds per token, and the most tokens a bucket holds. */
  datatype Policy = Policy(rate: int, burst: int) {
    predicate Valid() {
      rate > 0 && burst > 0
    }
  }

  function Max(a: int, b: int): int {
    if a < b then b else a
  }

  /** The tokens that arrive while time passes. */
  function Arriving(p: Policy, elapsed: int): real
    requires p.Valid()
  {
    elapsed as real / p.rate as real
  }

  function Capped(p: Policy, tokens: real): real {
    if tokens > p.burst as real then p.burst as real else tokens
  }

  /** One request: the buckets afterwards, and whether it is admitted. */
  function Request(p: Policy, buckets: Buckets, key: string, now: int): (Buckets, bool)
    requires p.Valid()
  {
    if key !in buckets then
      ((if |buckets| > MANY then map[] else buckets)[key := Bucket(p.burst as real - 1.0, now)], true)
    else
      var b := buckets[key];
      var tokens := Capped(p, b.tokens + Arriving(p, now - b.last));
      if tokens < 1.0 then (buckets[key := Bucket(tokens, now)], false)
      else (buckets[key := Bucket(tokens - 1.0, now)], true)
  }

  class Limiter {
    var buckets: Buckets
    const policy: Policy

    /** More than a request per nanosecond leaves a rate of zero. */
    constructor (perMinute: int, burst: int)
      ensures buckets == map[]
      ensures policy.Valid() <==> perMinute <= MINUTE
      ensures policy.rate == MINUTE / Max(perMinute, 1) && policy.burst == Max(burst, 1)
    {
      buckets := map[];
      policy := Policy(MINUTE / Max(perMinute, 1), Max(burst, 1));
      new;
      RateIsPositive(perMinute);
    }

    method Allow(key: string, now: int) returns (allowed: bool)
      requires policy.Valid()
      modifies this
      ensures buckets == Request(policy, old(buckets), key, now).0
      ensures allowed == Request(policy, old(buckets), key, now).1
    {
      if key !in buckets {
        if |buckets| > MANY {
          buckets := map[];
        }
        buckets := buckets[key := Bucket(policy.burst as real - 1.0, now)];
        return true;
      }
      var tokens := buckets[key].tokens + Arriving(policy, now - buckets[key].last);
      if tokens > policy.burst as real {
        tokens := policy.burst as real;
      }
      buckets := buckets[key := Bucket(tokens, now)];
      if tokens < 1.0 {
        return false;
      }
      buckets := buckets[key := Bucket(tokens - 1.0, now)];
      return true;
    }
  }

  lemma RateIsPositive(perMinute: int)
    ensures MINUTE / Max(perMinute, 1) > 0 <==> perMinute <= MINUTE
  {
    Quotient(MINUTE, Max(perMinute, 1));
  }

  lemma Quotient(x: int, d: int)
    requires 0 < d && 0 < x
    ensures x / d > 0 <==> d <= x
  {
  }

  // ----- one request

  /** Between zero and full, and not from the future. */
  predicate Sound(p: Policy, buckets: Buckets, now: int) {
    forall key | key in buckets :: 0.0 <= buckets[key].tokens <= p.burst as real && buckets[key].last <= now
  }

  /** What a credential could spend at once: a bucket that does not exist yet is full. */
  function Level(p: Policy, buckets: Buckets, key: string, now: int): real
    requires p.Valid()
  {
    if key in buckets then Capped(p, buckets[key].tokens + Arriving(p, now - buckets[key].last)) else p.burst as real
  }

  /** A request throws everybody's bucket away, to bound the map. */
  predicate Discards(buckets: Buckets, key: string) {
    key !in buckets && |buckets| > MANY
  }

  lemma RealQuotient(a: real, b: real, r: real)
    requires r > 0.0
    ensures (a + b) / r == a / r + b / r
    ensures a >= 0.0 ==> a / r >= 0.0
    ensures a >= r ==> a / r >= 1.0
  {
    assert (a / r) * r == a;
    if a / r < 1.0 {
      BelowOne(a / r, r);
    }
  }

  lemma BelowOne(x: real, r: real)
    requires x < 1.0 && r > 0.0
    ensures x * r < r
  {
  }

  lemma ArrivingAdds(p: Policy, a: int, b: int)
    requires p.Valid()
    ensures Arriving(p, a + b) == Arriving(p, a) + Arriving(p, b)
    ensures a >= 0 ==> Arriving(p, a) >= 0.0
    ensures a >= p.rate ==> Arriving(p, a) >= 1.0
  {
    RealQuotient(a as real, b as real, p.rate as real);
  }

  /** A request is admitted exactly when the credential has a whole token, and takes it; other
      credentials keep theirs unless the map is discarded. */
  lemma RequestSpends(p: Policy, buckets: Buckets, key: string, now: int, other: string)
    requires p.Valid() && Sound(p, buckets, now)
    ensures var (after, admitted) := Request(p, buckets, key, now);
            && (admitted <==> Level(p, buckets, key, now) >= 1.0)
            && Sound(p, after, now)
            && 0.0 <= Level(p, after, other, now) <= p.burst as real
            && ((Discards(buckets, key) && other in buckets) ||
                Level(p, after, other, now) ==
                Level(p, buckets, other, now) - if admitted && other == key then 1.0 else 0.0)
  {
    assert Arriving(p, 0) == 0.0;
    if key in buckets {
      ArrivingAdds(p, now - buckets[key].last, 0);
    }
    if other in buckets {
      ArrivingAdds(p, now - buckets[other].last, 0);
    }
  }

  /** Waiting gains at most what arrives. */
  lemma LevelRises(p: Policy, buckets: Buckets, key: string, now: int, later: int)
    requires p.Valid() && Sound(p, buckets, now) && now <= later
    ensures Level(p, buckets, key, later) <= Level(p, buckets, key, now) + Arriving(p, later - now)
    ensures Sound(p, buckets, later)
  {
    ArrivingAdds(p, later - now, 0);
    if key in buckets {
      ArrivingAdds(p, now - buckets[key].last, later - now);
    }
  }

  /** A credential that waits out the rate between requests is never refused. */
  lemma SpacedIsAdmitted(p: Policy, buckets: Buckets, key: string, now: int)
    requires p.Valid() && Sound(p, buckets, now)
    requires key in buckets ==> buckets[key].last + p.rate <= now
    ensures Request(p, buckets, key, now).1
  {
    if key in buckets {
      ArrivingAdds(p, now - buckets[key].last, 0);
    }
  }

  // ----- many requests

  datatype Arrival = Arrival(key: string, at: int)

  function After(p: Policy, buckets: Buckets, arrivals: seq<Arrival>): Buckets
    requires p.Valid()
  {
    if arrivals == [] then buckets
    else
      var last := arrivals[|arrivals| - 1];
      Request(p, After(p, buckets, arrivals[..|arrivals| - 1]), last.key, last.at).0
  }

  /** How many requests of one credential are admitted. */
  function Admitted(p: Policy, buckets: Buckets, arrivals: seq<Arrival>, key: string): nat
    requires p.Valid()
  {
    if arrivals == [] then 0
    else
      var front, last := arrivals[..|arrivals| - 1], arrivals[|arrivals| - 1];
      Admitted(p, buckets, front, key) +
      if last.key == key && Request(p, After(p, buckets, front), last.key, last.at).1 then 1 else 0
  }

  /** Never earlier than the one before, between two instants. */
  predicate Chronological(arrivals: seq<Arrival>, from: int, to: int) {
    arrivals == [] ||
    var last := arrivals[|arrivals| - 1];
    from <= last.at <= to && Chronological(arrivals[..|arrivals| - 1], from, last.at)
  }

  /** The credential's bucket is not thrown away during the window. */
  predicate Undiscarded(p: Policy, buckets: Buckets, arrivals: seq<Arrival>, key: string)
    requires p.Valid()
  {
    arrivals == [] ||
    var front, last := arrivals[..|arrivals| - 1], arrivals[|arrivals| - 1];
    && Undiscarded(p, buckets, front, key)
    && !(Discards(After(p, buckets, front), last.key) && key in After(p, buckets, front))
  }

  /** One request after a wait. */
  lemma SpendAfterWait(p: Policy, before: Buckets, arrival: Arrival, key: string, to: int)
    requires p.Valid() && Sound(p, before, arrival.at) && arrival.at <= to
    requires !(Discards(before, arrival.key) && key in before)
    ensures var (after, admitted) := Request(p, before, arrival.key, arrival.at);
            && Sound(p, after, to)
            && (if admitted && arrival.key == key then 1.0 else 0.0) + Level(p, after, key, to)
               <= Level(p, before, key, arrival.at) + Arriving(p, to - arrival.at)
  {
    RequestSpends(p, before, arrival.key, arrival.at, key);
    LevelRises(p, Request(p, before, arrival.key, arrival.at).0, key, arrival.at, to);
  }

  lemma OneMoreArrival(p: Policy, buckets: Buckets, arrivals: seq<Arrival>, key: string, to: int)
    requires p.Valid() && arrivals != [] && Undiscarded(p, buckets, arrivals, key)
    requires var front, last := arrivals[..|arrivals| - 1], arrivals[|arrivals| - 1];
             Sound(p, After(p, buckets, front), last.at) && last.at <= to
    ensures Sound(p, After(p, buckets, arrivals), to)
    ensures var front, last := arrivals[..|arrivals| - 1], arrivals[|arrivals| - 1];
            Admitted(p, buckets, arrivals, key) as real + Level(p, After(p, buckets, arrivals), key, to)
            <= Admitted(p, buckets, front, key) as real + Level(p, After(p, buckets, front), key, last.at)
               + Arriving(p, to - last.at)
  {
    SpendAfterWait(p, After(p, buckets, arrivals[..|arrivals| - 1]), arrivals[|arrivals| - 1], key, to);
  }

  lemma {:induction false} SpentAndLeft(p: Policy, buckets: Buckets, arrivals: seq<Arrival>, key: string, from: int, to: int)
    requires p.Valid() && Sound(p, buckets, from) && from <= to
    requires Chronological(arrivals, from, to) && Undiscarded(p, buckets, arrivals, key)
    ensures Sound(p, After(p, buckets, arrivals), to)
    ensures Admitted(p, buckets, arrivals, key) as real + Level(p, After(p, buckets, arrivals), key, to)
            <= Level(p, buckets, key, from) + Arriving(p, to - from)
  {
    if arrivals == [] {
      LevelRises(p, buckets, key, from, to);
    } else {
      var front, last := arrivals[..|arrivals| - 1], arrivals[|arrivals| - 1];
      SpentAndLeft(p, buckets, front, key, from, last.at);
      ArrivingAdds(p, last.at - from, to - last.at);
      OneMoreArrival(p, buckets, arrivals, key, to);
    }
  }

  /** In any window of requests, however many other credentials send theirs in between, one credential
      whose bucket is not thrown away gets at most a burst plus what arrives in the time the window
      spans. */
  lemma WindowIsBounded(p: Policy, buckets: Buckets, arrivals: seq<Arrival>, key: string)
    requires p.Valid() && arrivals != []
    requires var first, last := arrivals[0].at, arrivals[|arrivals| - 1].at;
             Sound(p, buckets, first) && Chronological(arrivals, first, last)
    requires Undiscarded(p, buckets, arrivals, key)
    ensures Admitted(p, buckets, arrivals, key) as real
            <= p.burst as real + Arriving(p, arrivals[|arrivals| - 1].at - arrivals[0].at)
  {
    var first, last := arrivals[0].at, arrivals[|arrivals| - 1].at;
    SpentAndLeft(p, buckets, arrivals, key, first, last);
    LevelInRange(p, buckets, key, first);
    LevelInRange(p, After(p, buckets, arrivals), key, last);
  }

  lemma LevelInRange(p: Policy, buckets: Buckets, key: string, now: int)
    requires p.Valid() && Sound(p, buckets, now)
    ensures 0.0 <= Level(p, buckets, key, now) <= p.burst as real
  {
    if key in buckets {
      ArrivingAdds(p, now - buckets[key].last, 0);
    }
  }

  /** Over any run that starts empty the map holds at most 1025 buckets, whatever the clock does; and
      with a clock that does not go back every bucket stays between zero and full. */
  lemma {:induction false} BucketsStayBounded(p: Policy, arrivals: seq<Arrival>, from: int, to: int)
    requires p.Valid()
    ensures |After(p, map[], arrivals)| <= MANY + 1
    ensures from <= to && Chronological(arrivals, from, to) ==> Sound(p, After(p, map[], arrivals), to)
  {
    if arrivals != [] {
      var n := |arrivals| - 1;
      var front, last := arrivals[..n], arrivals[n];
      var before := After(p, map[], front);
      BucketsStayBounded(p, front, from, last.at);
      if from <= to && Chronological(arrivals, from, to) {
        RequestSpends(p, before, last.key, last.at, last.key);
        LevelRises(p, After(p, map[], arrivals), last.key, last.at, to);
      }
    }
  }
}
