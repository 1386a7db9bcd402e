/** The size round trip of internal/providers/nextcloud/quota.go, in exact integers.

    A size is a whole number of tenths of a unit. The source holds the same value in a float64; every
    rounding step there is to the nearest tenth (or whole kilobyte), ties away from zero, which on
    the non-negative values that reach it is RoundDiv below. */
module Sizes {
  import opened Text

  /** Index into UNITS and Factor: 0 is B, 5 is PB. */
  type Unit = u: nat | u <= 5

  const UNITS: seq<string> := ["B", "KB", "MB", "GB", "TB", "PB"]

  datatype Size = Size(tenths: int, unit: Unit)

  function Factor(u: Unit): (f: nat)
    ensures f >= 1
  {
    match u
    case 0 => 1
    case 1 => 0x400
    case 2 => 0x10_0000
    case 3 => 0x4000_0000
    case 4 => 0x100_0000_0000
    case 5 => 0x4_0000_0000_0000
  }

  /** x / d rounded to the nearest integer, ties up. */
  function RoundDiv(x: nat, d: nat): nat
    requires d >= 1
  {
    (2 * x + d) / (2 * d)
  }

  /** The value after the rounding step into unit k, in tenths: whole kilobytes first, then one
      decimal for every unit above. */
  function Cascade(n: nat, k: nat): nat
    requires 1 <= k
    decreases k
  {
    if k == 1 then 10 * RoundDiv(n, 1024) else RoundDiv(Cascade(n, k - 1), 1024)
  }

  /** The first unit from k on whose cascaded value is below 1024 of it; petabytes hold the rest. */
  function FirstFit(n: nat, k: Unit): Size
    requires 1 <= k
    decreases 5 - k
  {
    if Cascade(n, k) < 10240 || k == 5 then Size(Cascade(n, k), k) else FirstFit(n, k + 1)
  }

  function HumanSize(n: int): Size {
    if n < 1024 then Size(10 * n, 0) else FirstFit(n, 1)
  }

  /** humanFileSize, as the loop over units that the program runs. */
  method HumanFileSize(n: int) returns (size: Size)
    ensures size == HumanSize(n)
  {
    if n < 1024 {
      return Size(10 * n, 0);
    }
    var v := 10 * RoundDiv(n, 1024);
    if v < 10240 {
      return Size(v, 1);
    }
    for unit := 2 to 5
      invariant v == Cascade(n, unit - 1)
      invariant HumanSize(n) == FirstFit(n, unit)
    {
      v := RoundDiv(v, 1024);
      if v < 10240 {
        return Size(v, unit);
      }
    }
    size := Size(RoundDiv(v, 1024), 5);
  }

  /** computerFileSize on a decimal number of units. */
  function ComputerFileSize(value: Decimal, unit: Unit): nat {
    RoundDiv(value.mantissa * Factor(unit), Pow10(value.scale))
  }

  function Pow10(k: nat): (p: nat)
    ensures p >= 1
  {
    if k == 0 then 1 else 10 * Pow10(k - 1)
  }

  /** What the instance will store when asked for n. A negative count is below 1024 and is kept. */
  function NormalizeBytes(n: int): int {
    var size := HumanSize(n);
    if size.tenths < 0 then n else ComputerFileSize(Decimal(size.tenths, 1), size.unit)
  }

  // ----- where the cascade reaches a value

  /** The least byte count whose cascade in unit k reaches t tenths. */
  function Least(t: nat, k: nat): int
    requires 1 <= t && 1 <= k
    decreases k
  {
    if k == 1 then 1024 * ((t + 9) / 10) - 512 else Least(1024 * t - 512, k - 1)
  }

  lemma {:induction false} CascadeReaches(n: nat, t: nat, k: nat)
    requires 1 <= t && 1 <= k
    ensures Cascade(n, k) >= t <==> n >= Least(t, k)
    decreases k
  {
    if k > 1 {
      CascadeReaches(n, 1024 * t - 512, k - 1);
    }
  }

  lemma CascadeIs(n: nat, t: nat, k: nat)
    requires 1 <= t && 1 <= k
    ensures Cascade(n, k) == t <==> Least(t, k) <= n < Least(t + 1, k)
  {
    CascadeReaches(n, t, k);
    CascadeReaches(n, t + 1, k);
  }

  lemma FullFrom(n: nat, k: nat)
    requires 1 <= k
    ensures 10240 <= Cascade(n, k) <==> Least(10240, k) <= n
  {
    CascadeReaches(n, 10240, k);
  }

  /** A full unit means every smaller unit was full too, and its value is at least one of the next. */
  lemma {:induction false} FullBelow(n: nat, k: nat)
    requires 1 <= k && 10240 <= Cascade(n, k)
    ensures 1024 <= n && 10 <= Cascade(n, k + 1)
    ensures forall j | 1 <= j <= k :: 10240 <= Cascade(n, j)
    decreases k
  {
    if k > 1 {
      FullBelow(n, k - 1);
    }
  }

  lemma {:induction false} FirstFitExactly(n: nat, j: Unit, t: nat, k: Unit)
    requires 1 <= j && 2 <= k
    ensures FirstFit(n, j) == Size(t, k) <==>
            j <= k && (j < k ==> 10240 <= Cascade(n, k - 1)) && Cascade(n, k) == t && (k < 5 ==> t < 10240)
    decreases 5 - j
  {
    if 10240 <= Cascade(n, k - 1) {
      FullBelow(n, k - 1);
    }
    if 10240 <= Cascade(n, j) && j < 5 {
      FirstFitExactly(n, j + 1, t, k);
    }
  }

  /** Exactly which byte counts are stored as t tenths of a megabyte or of a larger unit: the unit
      below is full, and they lie between the least count that reaches t and the least that reaches
      the next tenth. */
  lemma HumanSizeExactly(n: nat, t: nat, k: Unit)
    requires 2 <= k && 1 <= t
    ensures HumanSize(n) == Size(t, k) <==>
            (k < 5 ==> t < 10240) && Least(10240, k - 1) <= n && Least(t, k) <= n < Least(t + 1, k)
  {
    FirstFitExactly(n, 1, t, k);
    CascadeIs(n, t, k);
    FullFrom(n, k - 1);
  }

  /** The same for kilobytes, which hold whole numbers only. */
  lemma KilobytesExactly(n: nat, m: nat)
    ensures HumanSize(n) == Size(10 * m, 1) <==> 1024 <= n && m < 1024 && 1024 * m - 512 <= n < 1024 * m + 512
  {
    if 10240 <= Cascade(n, 2) {
      FullBelow(n, 2);
    }
  }

  // ----- the basin of a stored value

  /** How far below t tenths a count may lie and still be stored as t, in 2048ths of a tenth. One
      whole unit is special: just below it the unit underneath is not full yet. */
  function Reach(t: nat): nat {
    if t == 10 then 1 else 1012
  }

  /** Every count within 0.494 of a tenth around t tenths is stored as exactly t, except that one
      whole unit reaches down only 1/2048 of a tenth. It covers the rounding to whole bytes, and the
      relative error of 2^-53 that a float64 product can add from one petabyte up. */
  lemma Basin(n: nat, t: nat, k: Unit)
    requires 2 <= k && 10 <= t && (k < 5 ==> t < 10240)
    requires 2048 * (t * Factor(k) - 10 * n) <= Reach(t) * Factor(k)
    requires 2048 * (10 * n - t * Factor(k)) <= 1012 * Factor(k)
    ensures HumanSize(n) == Size(t, k)
  {
    var f := Factor(k);
    assert Least(t, k) <= n < Least(t + 1, k) by {
      LeastBounds(t, k);
      LeastBounds(t + 1, k);
      assert (t + 1) * f == t * f + f;
    }
    assert Least(10240, k - 1) <= n by {
      FullBounds(k);
      assert t == 10 || 11 * f <= t * f;
    }
    HumanSizeExactly(n, t, k);
  }

  /** The least count that reaches t tenths lies about half a tenth below them. */
  lemma LeastBounds(t: nat, k: Unit)
    requires 2 <= k && 1 <= t
    ensures 1015 * Factor(k) <= 2048 * (t * Factor(k) - 10 * Least(t, k)) <= 1035 * Factor(k)
  {
  }

  /** A unit becomes full within 10/2048 of a tenth below the next one. */
  lemma FullBounds(k: Unit)
    requires 2 <= k
    ensures Factor(k) <= 2048 * (10 * Factor(k) - 10 * Least(10240, k - 1)) <= 10 * Factor(k)
  {
  }

  /** The converse: a count stored as t tenths is within 1035/2048 of a tenth of them. */
  lemma StoredNearby(n: nat, t: nat, k: Unit)
    requires 2 <= k && HumanSize(n) == Size(t, k)
    ensures 10 <= t && (k < 5 ==> t < 10240)
    ensures 2048 * (10 * n - t * Factor(k)) <= 1035 * Factor(k)
    ensures 2048 * (t * Factor(k) - 10 * n) <= (if t == 10 then 10 else 1035) * Factor(k)
  {
    var f := Factor(k);
    FirstFitExactly(n, 1, t, k);
    FullBelow(n, k - 1);
    HumanSizeExactly(n, t, k);
    LeastBounds(t, k);
    LeastBounds(t + 1, k);
    FullBounds(k);
    assert (t + 1) * f == t * f + f;
  }

  // ----- what normalisation promises

  lemma RoundTenths(x: nat)
    ensures -5 <= 10 * RoundDiv(x, 10) - x <= 5
    ensures x % 10 == 0 ==> 10 * RoundDiv(x, 10) == x
  {
  }

  /** The bytes of t tenths of a unit are off by at most half a byte, and exact for whole units. */
  lemma RoundedTenth(t: nat, k: Unit)
    ensures -5 <= 10 * ComputerFileSize(Decimal(t, 1), k) - t * Factor(k) <= 5
    ensures t % 10 == 0 ==> ComputerFileSize(Decimal(t, 1), k) == t / 10 * Factor(k)
  {
    assert Pow10(1) == 10;
    RoundTenths(t * Factor(k));
    if t % 10 == 0 {
      assert t * Factor(k) == 10 * (t / 10 * Factor(k));
    }
  }

  /** What a count of a kilobyte or more is stored as. */
  lemma Stored(n: nat) returns (t: nat, k: Unit)
    requires 1024 <= n
    ensures HumanSize(n) == Size(t, k) && 1 <= k && 10 <= t && (k < 5 ==> t < 10240)
    ensures k == 1 ==> t % 10 == 0
    ensures NormalizeBytes(n) == ComputerFileSize(Decimal(t, 1), k)
  {
    t, k := HumanSize(n).tenths, HumanSize(n).unit;
    if 2 <= k {
      StoredNearby(n, t, k);
    }
  }

  /** Writing back what was stored stores the same, for every count: the planner cannot loop. */
  lemma NormalizeIdempotent(n: int)
    ensures NormalizeBytes(NormalizeBytes(n)) == NormalizeBytes(n)
    ensures 1024 <= n ==> HumanSize(NormalizeBytes(n)) == HumanSize(n)
  {
    if 1024 <= n {
      var t, k := Stored(n);
      var stored := ComputerFileSize(Decimal(t, 1), k);
      RoundedTenth(t, k);
      assert HumanSize(stored) == Size(t, k) by {
        if k == 1 {
          KilobytesExactly(stored, t / 10);
        } else {
          Basin(stored, t, k);
        }
      }
    }
  }

  /** A stored size is at least one whole unit and at most one of the next. */
  lemma StoredRange(n: nat)
    ensures var k := HumanSize(n).unit;
            (k == 0 ==> NormalizeBytes(n) == n < 1024) &&
            (k >= 1 ==> Factor(k) <= NormalizeBytes(n)) &&
            (k < 5 ==> NormalizeBytes(n) <= Factor(k + 1))
  {
    if 1024 <= n {
      var t, k := Stored(n);
      RoundedTenth(t, k);
      assert 10 * Factor(k) <= t * Factor(k);
      assert k < 5 ==> t * Factor(k) <= 10239 * Factor(k);
    } else {
      assert HumanSize(n) == Size(10 * n, 0);
      assert Pow10(1) == 10;
    }
  }

  lemma CascadeMonotone(n: nat, m: nat, k: nat)
    requires n <= m && 1 <= k
    ensures Cascade(n, k) <= Cascade(m, k)
  {
    if Cascade(n, k) >= 1 {
      CascadeReaches(n, Cascade(n, k), k);
      CascadeReaches(m, Cascade(n, k), k);
    }
  }

  /** A larger count never gets a smaller unit, nor fewer tenths of the same one. */
  lemma HumanSizeMonotone(n: nat, m: nat)
    requires n <= m
    ensures HumanSize(n).unit <= HumanSize(m).unit
    ensures HumanSize(n).unit == HumanSize(m).unit ==> HumanSize(n).tenths <= HumanSize(m).tenths
  {
    forall k | 1 <= k <= 5 ensures Cascade(n, k) <= Cascade(m, k) {
      CascadeMonotone(n, m, k);
    }
  }

  lemma FactorMonotone(j: Unit, k: Unit)
    requires j <= k
    ensures Factor(j) <= Factor(k)
  {
  }

  lemma ComputedMonotone(t: nat, u: nat, k: Unit)
    requires t <= u
    ensures ComputerFileSize(Decimal(t, 1), k) <= ComputerFileSize(Decimal(u, 1), k)
  {
    var x, y := t * Factor(k), u * Factor(k);
    assert x <= y;
    assert Pow10(1) == 10;
    assert RoundDiv(x, 10) <= RoundDiv(y, 10);
  }

  /** Asking for more never stores less. */
  lemma NormalizeMonotone(n: nat, m: nat)
    requires n <= m
    ensures NormalizeBytes(n) <= NormalizeBytes(m)
  {
    StoredRange(n);
    StoredRange(m);
    HumanSizeMonotone(n, m);
    if 1024 <= n {
      var t, k := Stored(n);
      var u, j := Stored(m);
      if k < j {
        FactorMonotone(k + 1, j);
      } else {
        ComputedMonotone(t, u, k);
      }
    }
  }

  /** What is stored is within half a kilobyte of what was asked below one megabyte, and within one
      part in twenty from there up, although three more roundings follow the first. */
  lemma NormalizeClose(n: int)
    requires 0 <= n
    ensures n < 0x10_0000 ==> -512 <= NormalizeBytes(n) - n <= 512
    ensures 0x10_0000 <= n ==> -n <= 20 * (NormalizeBytes(n) - n) <= n
  {
    if n < 1024 {
      StoredRange(n);
    } else {
      var t, k := Stored(n);
      RoundedTenth(t, k);
      if k == 1 {
        KilobytesExactly(n, t / 10);
      } else {
        StoredNearby(n, t, k);
        assert 10 * Factor(k) <= t * Factor(k);
        assert t == 10 || 11 * Factor(k) <= t * Factor(k);
      }
    }
  }
}
