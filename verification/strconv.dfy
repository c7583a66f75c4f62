/** Decimal rendering and parsing of integers, as `fmt.Sprintf("%d")`,
    `strconv.Itoa` and `strconv.Atoi` do on a 64-bit platform. */
module Strconv {
  import opened Basics

  predicate IsDigit(c: char) { '0' <= c <= '9' }

  predicate AllDigits(s: string) { forall i :: 0 <= i < |s| ==> IsDigit(s[i]) }

  function DigitChar(d: int): (c: char)
    requires 0 <= d < 10
    ensures IsDigit(c)
  {
    ('0' as int + d) as char
  }

  function DigitValue(c: char): int
    requires IsDigit(c)
  {
    c as int - '0' as int
  }

  /** The shortest base-10 spelling of a natural number (no leading zero). */
  function NatToDecimal(n: nat): (s: string)
    ensures |s| >= 1 && AllDigits(s)
  {
    if n < 10 then [DigitChar(n)] else NatToDecimal(n / 10) + [DigitChar(n % 10)]
  }

  /** `strconv.Itoa(i)`, equivalently `fmt.Sprintf("%d", i)`. */
  function Itoa(i: int): string
  {
    if i < 0 then "-" + NatToDecimal(-i) else NatToDecimal(i)
  }

  /** The value of a string of decimal digits, read left to right. */
  function DecimalValue(s: string): nat
    requires AllDigits(s)
  {
    if s == [] then 0 else DecimalValue(s[..|s| - 1]) * 10 + DigitValue(s[|s| - 1])
  }

  /** The integer a string spells in base 10 with an optional leading sign,
      as `strconv.ParseInt(s, 10, ...)` reads it before any range check. */
  function ParseDecimal(s: string): Option<int>
  {
    if |s| > 0 && (s[0] == '+' || s[0] == '-') then
      if |s| > 1 && AllDigits(s[1..]) then
        var v: int := DecimalValue(s[1..]);
        Some(if s[0] == '-' then -v else v)
      else None
    else if |s| > 0 && AllDigits(s) then Some(DecimalValue(s))
    else None
  }

  const MinInt64: int := -0x8000_0000_0000_0000
  const MaxInt64: int := 0x7fff_ffff_ffff_ffff

  /** Go's `int` on the 64-bit platforms the server runs on. */
  predicate IsInt64(i: int) { MinInt64 <= i <= MaxInt64 }

  /** Go's 64-bit signed integers wrap around. */
  function Wrap64(x: int): (w: int)
    ensures IsInt64(w) && (w - x) % 0x1_0000_0000_0000_0000 == 0
  {
    (x - MinInt64) % 0x1_0000_0000_0000_0000 + MinInt64
  }

  /** Wrapping leaves an int64 as it is. */
  lemma Wrap64InRange(x: int)
    requires IsInt64(x)
    ensures Wrap64(x) == x
  {
    var d := x - MinInt64;
    assert 0 <= d < 0x1_0000_0000_0000_0000;
  }

  /** The pair `(value, err == nil)` that `strconv.Atoi` returns. */
  datatype AtoiResult = AtoiResult(value: int, ok: bool)

  /** `strconv.Atoi`: a syntax error yields 0, an out-of-range value yields the
      nearest int64 bound, and both report an error. */
  function Atoi(s: string): (r: AtoiResult)
    ensures IsInt64(r.value)
    ensures r.ok <==> ParseDecimal(s).Some? && IsInt64(ParseDecimal(s).value)
    ensures r.ok ==> r.value == ParseDecimal(s).value
    ensures ParseDecimal(s).None? ==> r.value == 0
    ensures ParseDecimal(s).Some? && ParseDecimal(s).value > MaxInt64 ==> r.value == MaxInt64
    ensures ParseDecimal(s).Some? && ParseDecimal(s).value < MinInt64 ==> r.value == MinInt64
  {
    match ParseDecimal(s)
    case None => AtoiResult(0, false)
    case Some(v) =>
      if v < MinInt64 then AtoiResult(MinInt64, false)
      else if v > MaxInt64 then AtoiResult(MaxInt64, false)
      else AtoiResult(v, true)
  }

  lemma {:induction false} DecimalRoundTrip(n: nat)
    ensures DecimalValue(NatToDecimal(n)) == n
  {
    if n >= 10 {
      var s := NatToDecimal(n);
      assert s[..|s| - 1] == NatToDecimal(n / 10);
      DecimalRoundTrip(n / 10);
    }
  }

  /** Reading back what `Itoa` wrote gives the same integer. */
  lemma ParseItoa(i: int)
    ensures ParseDecimal(Itoa(i)) == Some(i)
  {
    var n: nat := if i < 0 then -i else i;
    DecimalRoundTrip(n);
    var d := NatToDecimal(n);
    if i < 0 {
      assert Itoa(i)[1..] == d;
    }
  }

  /** `strconv.Atoi(strconv.Itoa(i))` returns `i` without error for every Go int. */
  lemma AtoiItoa(i: int)
    requires IsInt64(i)
    ensures Atoi(Itoa(i)) == AtoiResult(i, true)
  {
    ParseItoa(i);
  }

  /** Distinct integers are written differently. */
  lemma ItoaInjective(a: int, b: int)
    requires Itoa(a) == Itoa(b)
    ensures a == b
  {
    ParseItoa(a);
    ParseItoa(b);
  }
}
