/** The size as the instance stores it, "25.5 GB", and the parser that reads it back
    (internal/providers/nextcloud/quota.go). */
module SizeText {
  import opened Quotas
  import opened Text
  import opened Sizes

  /** A number of tenths printed with as few decimals as it takes: none or one. */
  function PrintTenths(t: nat): string {
    PrintNat(t / 10) + if t % 10 == 0 then "" else "." + [Digit(t % 10)]
  }

  function HumanString(n: nat): string {
    var size := HumanSize(n);
    SizeTenthsNonNegative(n);
    PrintTenths(size.tenths) + (" " + UNITS[size.unit])
  }

  lemma SizeTenthsNonNegative(n: nat)
    ensures 0 <= HumanSize(n).tenths
  {
  }

  function FindUnit(name: string): (u: Option<Unit>)
    ensures u.Some? ==> UNITS[u.value] == name
    ensures u.None? ==> name !in UNITS
  {
    if name == "B" then Some(0)
    else if name == "KB" then Some(1)
    else if name == "MB" then Some(2)
    else if name == "GB" then Some(3)
    else if name == "TB" then Some(4)
    else if name == "PB" then Some(5)
    else None
  }

  /** "G", "gib" and "GB" all name the same unit, and no name at all is bytes. */
  function UnitName(text: string): string {
    var name := Upper(Trim(text));
    var name := Without(if name == "" then "B" else name, 'I');
    if name != "" && name[|name| - 1] == 'B' then name else name + "B"
  }

  function ParseHumanSize(text: string): Option<nat> {
    var s := Trim(text);
    var cut := LastDigit(s);
    if cut < 0 then None
    else
      var value, unit := ReadDecimal(Trim(s[..cut + 1])), FindUnit(UnitName(s[cut + 1..]));
      if value.None? || unit.None? then None else Some(ComputerFileSize(value.value, unit.value))
  }

  // ----- printing and parsing agree

  lemma TrimIdentity(s: string)
    requires s != "" && !IsSpace(s[0]) && !IsSpace(s[|s| - 1])
    ensures Trim(s) == s
  {
  }

  /** A printed number reads back as the same number of tenths. */
  lemma ReadTenths(t: nat)
    ensures var s := PrintTenths(t);
            s != "" && IsDigit(s[0]) && IsDigit(s[|s| - 1]) &&
            ReadDecimal(s) == Some(if t % 10 == 0 then Decimal(t / 10, 0) else Decimal(t, 1))
  {
    var whole, s := PrintNat(t / 10), PrintTenths(t);
    ReadPrinted(t / 10);
    if t % 10 == 0 {
      assert s == whole;
      assert forall i | 0 <= i < |s| :: s[i] != '.';
    } else {
      var d := [Digit(t % 10)];
      assert s[|whole|] == '.' && s[..|whole|] == whole && s[|whole| + 1..] == d;
      assert forall i | 0 <= i < |whole| :: s[i] == whole[i] != '.';
      assert Find(s, '.') == |whole|;
      assert (whole + d)[..|whole|] == whole;
    }
  }

  lemma UnitNameOfPrinted(u: Unit)
    ensures UnitName(" " + UNITS[u]) == UNITS[u]
    ensures LastDigit(" " + UNITS[u]) == -1
    ensures UNITS[u] != "" && UNITS[u][|UNITS[u]| - 1] == 'B'
  {
    var name := UNITS[u];
    assert (" " + name)[1..] == name;
    TrimIdentity(name);
    assert Upper(name) == name;
    assert Without(name, 'I') == name;
  }

  lemma SameValue(t: nat, u: Unit)
    requires t % 10 == 0
    ensures ComputerFileSize(Decimal(t / 10, 0), u) == ComputerFileSize(Decimal(t, 1), u)
  {
    var x := t / 10 * Factor(u);
    assert t * Factor(u) == 10 * x;
  }

  /** The parser cuts after the last digit. */
  lemma ParseSplit(number: string, tail: string)
    requires number != "" && IsDigit(number[0]) && IsDigit(number[|number| - 1])
    requires tail != "" && !IsSpace(tail[|tail| - 1]) && LastDigit(tail) == -1
    ensures Trim(number + tail) == number + tail && LastDigit(number + tail) == |number| - 1
    ensures (number + tail)[..|number|] == number && (number + tail)[|number|..] == tail
    ensures Trim(number) == number
  {
    var s := number + tail;
    TrimIdentity(s);
    TrimIdentity(number);
    assert s[|number| - 1] == number[|number| - 1];
    assert forall j | |number| <= j < |s| :: s[j] == tail[j - |number|];
  }

  lemma ParseOfTenths(t: nat, u: Unit)
    ensures ParseHumanSize(PrintTenths(t) + (" " + UNITS[u])) == Some(ComputerFileSize(Decimal(t, 1), u))
  {
    var number, tail := PrintTenths(t), " " + UNITS[u];
    ReadTenths(t);
    UnitNameOfPrinted(u);
    assert tail[|tail| - 1] == 'B';
    ParseSplit(number, tail);
    var value, unit := ReadDecimal(number), FindUnit(UnitName(tail));
    assert ParseHumanSize(number + tail) ==
           if value.None? || unit.None? then None else Some(ComputerFileSize(value.value, unit.value));
    assert unit == Some(u) by {
      UnitsDistinct(u);
    }
    if t % 10 == 0 {
      SameValue(t, u);
    }
  }

  lemma UnitsDistinct(u: Unit)
    ensures FindUnit(UNITS[u]) == Some(u)
  {
  }

  /** Reading back the text the instance stores gives exactly the count that normalisation
      predicted, for every count that can be written. */
  lemma ParseOfPrinted(n: nat)
    ensures ParseHumanSize(HumanString(n)) == Some(NormalizeBytes(n))
  {
    var size := HumanSize(n);
    SizeTenthsNonNegative(n);
    ParseOfTenths(size.tenths, size.unit);
  }
}
