/** The string operations the program leans on: trimming, ASCII case folding, and decimal numerals. */
module Text {
  import opened Quotas

  predicate IsSpace(c: char) {
    c == ' ' || '\t' <= c <= '\r'
  }

  function TrimLeft(s: string): string {
    if s != "" && IsSpace(s[0]) then TrimLeft(s[1..]) else s
  }

  function TrimRight(s: string): string {
    if s != "" && IsSpace(s[|s| - 1]) then TrimRight(s[..|s| - 1]) else s
  }

  function Trim(s: string): string {
    TrimRight(TrimLeft(s))
  }

  function LowerChar(c: char): char {
    if 'A' <= c <= 'Z' then (c as int + 32) as char else c
  }

  function UpperChar(c: char): char {
    if 'a' <= c <= 'z' then (c as int - 32) as char else c
  }

  function Lower(s: string): string {
    seq(|s|, i requires 0 <= i < |s| => LowerChar(s[i]))
  }

  function Upper(s: string): string {
    seq(|s|, i requires 0 <= i < |s| => UpperChar(s[i]))
  }

  /** `s` without any occurrence of `c`. */
  function Without(s: string, c: char): string {
    if s == "" then "" else (if s[0] == c then "" else [s[0]]) + Without(s[1..], c)
  }

  // ----- decimal numerals

  predicate IsDigit(c: char) {
    '0' <= c <= '9'
  }

  predicate AllDigits(s: string) {
    forall i | 0 <= i < |s| :: IsDigit(s[i])
  }

  function DigitValue(c: char): (d: nat)
    requires IsDigit(c)
  {
    c as int - '0' as int
  }

  function Digit(d: nat): (c: char)
    requires d < 10
    ensures IsDigit(c) && DigitValue(c) == d
  {
    (d + '0' as int) as char
  }

  function PrintNat(n: nat): (s: string)
    ensures s != "" && AllDigits(s)
  {
    if n < 10 then [Digit(n)] else PrintNat(n / 10) + [Digit(n % 10)]
  }

  function ReadNat(s: string): nat
    requires AllDigits(s)
  {
    if s == "" then 0 else 10 * ReadNat(s[..|s| - 1]) + DigitValue(s[|s| - 1])
  }

  lemma {:induction false} ReadPrinted(n: nat)
    ensures ReadNat(PrintNat(n)) == n
  {
    if 10 <= n {
      ReadPrinted(n / 10);
      var s := PrintNat(n);
      assert s[..|s| - 1] == PrintNat(n / 10);
    }
  }

  /** The index of the last digit, or -1. */
  function LastDigit(s: string): (i: int)
    ensures -1 <= i < |s|
    ensures i >= 0 ==> IsDigit(s[i])
    ensures forall j | i < j < |s| :: !IsDigit(s[j])
  {
    if s == "" then -1
    else if IsDigit(s[|s| - 1]) then |s| - 1
    else LastDigit(s[..|s| - 1])
  }

  /** The index of the first `c`, or |s|. */
  function Find(s: string, c: char): (i: nat)
    ensures i <= |s|
    ensures i < |s| ==> s[i] == c
    ensures forall j | 0 <= j < i :: s[j] != c
  {
    if s == "" || s[0] == c then 0 else 1 + Find(s[1..], c)
  }

  /** An unsigned decimal: mantissa / 10^scale. */
  datatype Decimal = Decimal(mantissa: nat, scale: nat)

  /** Reads digits with at most one point among them. Signs, exponents and the other spellings that
      strconv.ParseFloat knows are errors here. */
  function ReadDecimal(s: string): Option<Decimal> {
    var point := Find(s, '.');
    if point == |s| then
      if s != "" && AllDigits(s) then Some(Decimal(ReadNat(s), 0)) else None
    else
      var left, right := s[..point], s[point + 1..];
      if left + right != "" && AllDigits(left) && AllDigits(right)
      then Some(Decimal(ReadNat(left + right), |right|))
      else None
  }
}
