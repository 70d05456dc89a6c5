/**
 * The pieces of the Java platform the configuration code relies on:
 * 32- and 64-bit integer ranges, decimal parsing as Integer.parseInt and
 * Long.parseLong do it, Boolean.parseBoolean, String.startsWith,
 * commons-lang StringUtils.isEmpty and the characters a regular-expression
 * dot does not match.
 */
module JavaLang {
  import opened Wrappers

  const INT_MIN: int := -0x8000_0000
  const INT_MAX: int := 0x7fff_ffff
  const LONG_MIN: int := -0x8000_0000_0000_0000
  const LONG_MAX: int := 0x7fff_ffff_ffff_ffff

  /** Java's int and long. */
  type Int32 = x: int | INT_MIN <= x <= INT_MAX
  type Int64 = x: int | LONG_MIN <= x <= LONG_MAX

  // ---------------------------------------------------------------------
  // Decimal parsing
  // ---------------------------------------------------------------------

  predicate IsDigit(c: char) {
    '0' <= c <= '9'
  }

  predicate AllDigits(s: string) {
    forall i :: 0 <= i < |s| ==> IsDigit(s[i])
  }

  function DigitValue(c: char): (d: nat)
    requires IsDigit(c)
    ensures d < 10
  {
    (c as int) - ('0' as int)
  }

  /** The number a run of decimal digits denotes, read left to right. */
  function DigitsValue(s: string): nat
    requires AllDigits(s)
    decreases |s|
  {
    if s == [] then 0 else DigitsValue(s[..|s| - 1]) * 10 + DigitValue(s[|s| - 1])
  }

  /**
   * Radix-10 parsing of Integer.parseInt(s) and Long.parseLong(s): an
   * optional '-' or '+', then at least one digit, and the value must lie in
   * [lo, hi]; anything else throws NumberFormatException.
   */
  function ParseDecimal(s: string, lo: int, hi: int): (r: Result<int>)
    ensures r.Ok? ==> lo <= r.value <= hi
    ensures r.Err? ==> r.error == NumberFormat
  {
    if |s| == 0 then Err(NumberFormat)
    else
      var digits := if s[0] == '-' || s[0] == '+' then s[1..] else s;
      if |digits| == 0 || !AllDigits(digits) then Err(NumberFormat)
      else
        var v: int := if s[0] == '-' then -(DigitsValue(digits) as int) else DigitsValue(digits);
        if lo <= v <= hi then Ok(v) else Err(NumberFormat)
  }

  // Decimal rendering, the inverse of parsing (Integer.toString / Long.toString).

  function DigitChar(d: nat): (c: char)
    requires d < 10
    ensures IsDigit(c) && DigitValue(c) == d
  {
    (('0' as int) + d) as char
  }

  function NatDecimal(n: nat): string
    decreases n
  {
    if n < 10 then [DigitChar(n)] else NatDecimal(n / 10) + [DigitChar(n % 10)]
  }

  function Decimal(n: int): string {
    if n < 0 then "-" + NatDecimal(-n) else NatDecimal(n)
  }

  lemma {:induction false} NatDecimalDenotes(n: nat)
    ensures |NatDecimal(n)| > 0 && AllDigits(NatDecimal(n))
    ensures DigitsValue(NatDecimal(n)) == n
  {
    if n >= 10 {
      NatDecimalDenotes(n / 10);
      var s := NatDecimal(n);
      assert s == NatDecimal(n / 10) + [DigitChar(n % 10)];
      assert s[..|s| - 1] == NatDecimal(n / 10);
    }
  }

  /** Every number in range survives a rendering and a re-parse. */
  lemma {:induction false} ParseDecimalRoundTrip(n: int, lo: int, hi: int)
    requires lo <= n <= hi
    ensures ParseDecimal(Decimal(n), lo, hi) == Ok(n)
  {
    var s := Decimal(n);
    if n < 0 {
      NatDecimalDenotes(-n);
      assert s[0] == '-' && s[1..] == NatDecimal(-n);
    } else {
      NatDecimalDenotes(n);
      assert IsDigit(s[0]);
    }
  }

  // Which texts the parser accepts: a sign, leading zeros, then the digits of the value.

  predicate AllZeros(z: string) {
    forall i :: 0 <= i < |z| ==> z[i] == '0'
  }

  function Abs(v: int): nat {
    if v < 0 then -v else v
  }

  /**
   * s is a way of writing v in decimal: "", "+" or "-", any number of
   * leading zeros, then the canonical digits of |v|. A negative v needs the
   * '-'; a positive v must not have it ("-0" and "+0" both write zero).
   */
  ghost predicate IsDecimalText(s: string, v: int) {
    exists sign: string, zeros: string ::
      (sign == "" || sign == "+" || sign == "-") && AllZeros(zeros)
      && s == sign + zeros + NatDecimal(Abs(v))
      && (v < 0 ==> sign == "-") && (v > 0 ==> sign != "-")
  }

  lemma {:induction false} ZerosValue(z: string)
    requires AllZeros(z)
    ensures AllDigits(z) && DigitsValue(z) == 0
    decreases |z|
  {
    if z != [] {
      ZerosValue(z[..|z| - 1]);
    }
  }

  /** Leading zeros do not change the number a run of digits denotes. */
  lemma {:induction false} LeadingZerosValue(z: string, t: string)
    requires AllZeros(z) && AllDigits(t)
    ensures AllDigits(z + t) && DigitsValue(z + t) == DigitsValue(t)
    decreases |t|
  {
    ZerosValue(z);
    if t == [] {
      assert z + t == z;
    } else {
      var t' := t[..|t| - 1];
      assert (z + t)[..|z + t| - 1] == z + t';
      assert (z + t)[|z + t| - 1] == t[|t| - 1];
      LeadingZerosValue(z, t');
    }
  }

  /** Every non-empty run of digits is some zeros followed by the canonical digits of its value. */
  lemma {:induction false} DigitsCanonical(d: string) returns (zeros: string)
    requires AllDigits(d) && |d| > 0
    ensures AllZeros(zeros) && d == zeros + NatDecimal(DigitsValue(d))
    decreases |d|
  {
    var p, last := d[..|d| - 1], d[|d| - 1];
    assert d == p + [last];
    if |d| == 1 {
      zeros := "";
      assert DigitChar(DigitValue(last)) == last;
    } else {
      var z := DigitsCanonical(p);
      var n := DigitsValue(d);
      assert n == DigitsValue(p) * 10 + DigitValue(last);
      if DigitsValue(p) == 0 {
        zeros := p;
        assert p == z + [DigitChar(0)];
        assert AllZeros(p);
        assert DigitChar(DigitValue(last)) == last;
      } else {
        zeros := z;
        assert n / 10 == DigitsValue(p) && n % 10 == DigitValue(last);
        assert NatDecimal(n) == NatDecimal(DigitsValue(p)) + [DigitChar(DigitValue(last))];
        assert DigitChar(DigitValue(last)) == last;
      }
    }
  }

  /** Every text the parser accepts writes the value it returns. */
  lemma ParseDecimalSound(s: string, lo: int, hi: int)
    ensures ParseDecimal(s, lo, hi).Ok? ==> IsDecimalText(s, ParseDecimal(s, lo, hi).value)
  {
    if |s| > 0 {
      var signed := s[0] == '-' || s[0] == '+';
      var sign := if signed then [s[0]] else "";
      var digits := if signed then s[1..] else s;
      assert s == sign + digits;
      if |digits| > 0 && AllDigits(digits) {
        var n: int := DigitsValue(digits);
        var v: int := if s[0] == '-' then -n else n;
        var zeros := DigitsCanonical(digits);
        assert Abs(v) == n;
        assert s == sign + zeros + NatDecimal(Abs(v));
        DecimalTextIntro(s, v, sign, zeros);
      }
    }
  }

  lemma DecimalTextIntro(s: string, v: int, sign: string, zeros: string)
    requires sign == "" || sign == "+" || sign == "-"
    requires AllZeros(zeros) && s == sign + zeros + NatDecimal(Abs(v))
    requires (v < 0 ==> sign == "-") && (v > 0 ==> sign != "-")
    ensures IsDecimalText(s, v)
  {
  }

  /** Every way of writing an in-range number is accepted, with that number. */
  lemma ParseDecimalComplete(s: string, lo: int, hi: int)
    ensures forall v :: lo <= v <= hi && IsDecimalText(s, v) ==> ParseDecimal(s, lo, hi) == Ok(v)
  {
    forall v | lo <= v <= hi && IsDecimalText(s, v)
      ensures ParseDecimal(s, lo, hi) == Ok(v)
    {
      var sign: string, zeros: string :|
        (sign == "" || sign == "+" || sign == "-") && AllZeros(zeros)
        && s == sign + zeros + NatDecimal(Abs(v))
        && (v < 0 ==> sign == "-") && (v > 0 ==> sign != "-");
      ParseWritten(s, lo, hi, v, sign, zeros);
    }
  }

  lemma ParseWritten(s: string, lo: int, hi: int, v: int, sign: string, zeros: string)
    requires lo <= v <= hi
    requires sign == "" || sign == "+" || sign == "-"
    requires AllZeros(zeros) && s == sign + zeros + NatDecimal(Abs(v))
    requires (v < 0 ==> sign == "-") && (v > 0 ==> sign != "-")
    ensures ParseDecimal(s, lo, hi) == Ok(v)
  {
    var n := Abs(v);
    var digits := zeros + NatDecimal(n);
    NatDecimalDenotes(n);
    LeadingZerosValue(zeros, NatDecimal(n));
    assert s == sign + digits;
    assert |digits| > 0 && AllDigits(digits) && DigitsValue(digits) == n;
    if sign == "" {
      assert s == digits;
      assert IsDigit(s[0]);
      ParseUnsigned(s, lo, hi);
    } else {
      assert s[0] == sign[0] && s[1..] == digits;
      ParseSigned(s, lo, hi);
    }
  }

  lemma ParseUnsigned(s: string, lo: int, hi: int)
    requires |s| > 0 && AllDigits(s) && lo <= DigitsValue(s) <= hi
    ensures ParseDecimal(s, lo, hi) == Ok(DigitsValue(s))
  {
    assert IsDigit(s[0]);
  }

  lemma ParseSigned(s: string, lo: int, hi: int)
    requires |s| > 1 && (s[0] == '-' || s[0] == '+') && AllDigits(s[1..])
    requires var n: int := DigitsValue(s[1..]); lo <= (if s[0] == '-' then -n else n) <= hi
    ensures var n: int := DigitsValue(s[1..]); ParseDecimal(s, lo, hi) == Ok(if s[0] == '-' then -n else n)
  {
  }

  /** Integer.parseInt(s): exactly the decimal text of a 32-bit int is accepted. */
  function ParseInt(s: string): (r: Result<Int32>)
    ensures r.Err? ==> r.error == NumberFormat
    ensures r.Ok? ==> IsDecimalText(s, r.value)
    ensures forall v :: INT_MIN <= v <= INT_MAX && IsDecimalText(s, v) ==> r == Ok(v)
  {
    ParseDecimalSound(s, INT_MIN, INT_MAX);
    ParseDecimalComplete(s, INT_MIN, INT_MAX);
    match ParseDecimal(s, INT_MIN, INT_MAX)
    case Ok(v) => Ok(v)
    case Err(e) => Err(e)
  }

  /** Long.parseLong(s): exactly the decimal text of a 64-bit long is accepted. */
  function ParseLong(s: string): (r: Result<Int64>)
    ensures r.Err? ==> r.error == NumberFormat
    ensures r.Ok? ==> IsDecimalText(s, r.value)
    ensures forall v :: LONG_MIN <= v <= LONG_MAX && IsDecimalText(s, v) ==> r == Ok(v)
  {
    ParseDecimalSound(s, LONG_MIN, LONG_MAX);
    ParseDecimalComplete(s, LONG_MIN, LONG_MAX);
    match ParseDecimal(s, LONG_MIN, LONG_MAX)
    case Ok(v) => Ok(v)
    case Err(e) => Err(e)
  }

  /** Every Java int renders to text that Integer.parseInt reads back. */
  lemma ParseIntRoundTrip(n: Int32)
    ensures ParseInt(Decimal(n)) == Ok(n)
  {
    ParseDecimalRoundTrip(n, INT_MIN, INT_MAX);
  }

  /** Every Java long renders to text that Long.parseLong reads back. */
  lemma ParseLongRoundTrip(n: Int64)
    ensures ParseLong(Decimal(n)) == Ok(n)
  {
    ParseDecimalRoundTrip(n, LONG_MIN, LONG_MAX);
  }

  // ---------------------------------------------------------------------
  // Boolean.parseBoolean
  // ---------------------------------------------------------------------

  function ToLowerAscii(c: char): char {
    if 'A' <= c <= 'Z' then ((c as int) + 32) as char else c
  }

  predicate EqualsIgnoreCase(a: string, b: string) {
    |a| == |b| && forall i :: 0 <= i < |a| ==> ToLowerAscii(a[i]) == ToLowerAscii(b[i])
  }

  /** Boolean.parseBoolean(s): true exactly for "true" in any letter case; null gives false. */
  function ParseBoolean(s: Option<string>): (r: bool)
    ensures r <==> s.Some? && |s.value| == 4
                   && s.value[0] in "tT" && s.value[1] in "rR"
                   && s.value[2] in "uU" && s.value[3] in "eE"
  {
    s.Some? && EqualsIgnoreCase(s.value, "true")
  }

  // ---------------------------------------------------------------------
  // Strings
  // ---------------------------------------------------------------------

  /** String.startsWith(prefix). */
  predicate StartsWith(s: string, prefix: string) {
    |prefix| <= |s| && s[..|prefix|] == prefix
  }

  /** StringUtils.isEmpty: null or of length zero. */
  predicate IsEmpty(s: Option<string>) {
    s.None? || |s.value| == 0
  }

  /** The line terminators java.util.regex's '.' refuses by default. */
  predicate IsLineTerminator(c: char) {
    c == '\n' || c == '\r' || c == '\U{85}' || c == '\U{2028}' || c == '\U{2029}'
  }

  predicate IsAsciiLetter(c: char) {
    'A' <= c <= 'Z' || 'a' <= c <= 'z'
  }
}
