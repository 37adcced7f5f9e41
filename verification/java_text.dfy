/**
 * The pieces of java.lang text handling the batch engine relies on:
 * Integer.toString (used by string concatenation and String.format("%d")),
 * Integer.parseInt, and the blank test of commons-lang StringUtils.
 */
module JavaText {
  import opened Wrappers

  const MinInt: int := -0x8000_0000
  const MaxInt: int := 0x7FFF_FFFF

  predicate IsInt32(n: int) { MinInt <= n <= MaxInt }

  const TwoTo32: int := 0x1_0000_0000

  /**
   * Java's 32-bit int arithmetic: a `(int)` cast of a long, or an int sum,
   * keeps the value modulo 2^32 in the signed range.
   */
  function Wrap32(n: int): (r: int)
    ensures IsInt32(r)
    ensures IsInt32(n) ==> r == n
  {
    (n - MinInt) % TwoTo32 + MinInt
  }

  /** The wrapped value differs from the exact one by a multiple of 2^32. */
  lemma Wrap32Congruent(n: int)
    ensures (Wrap32(n) - n) % TwoTo32 == 0
  {
  }

  predicate IsDigit(c: char) { '0' <= c <= '9' }

  predicate AllDigits(s: string) { forall i :: 0 <= i < |s| ==> IsDigit(s[i]) }

  function DigitChar(d: nat): (c: char)
    requires d < 10
    ensures IsDigit(c) && (c as int) - ('0' as int) == d
  {
    (('0' as int) + d) as char
  }

  /** Decimal digits of n without leading zeros. */
  function NatToString(n: nat): (s: string)
    ensures |s| >= 1 && AllDigits(s)
    decreases n
  {
    if n < 10 then [DigitChar(n)] else NatToString(n / 10) + [DigitChar(n % 10)]
  }

  /** Integer.toString / String.valueOf(int): a minus sign for negative values. */
  function IntToString(n: int): (s: string)
    ensures |s| >= 1
    ensures s[0] == '-' <==> n < 0
  {
    if n < 0 then "-" + NatToString(-n) else NatToString(n)
  }

  /** The value of a string of decimal digits, read left to right. */
  function DigitsValue(s: string): nat
    requires AllDigits(s)
    decreases |s|
  {
    if |s| == 0 then 0
    else DigitsValue(s[..|s| - 1]) * 10 + ((s[|s| - 1] as int) - ('0' as int))
  }

  /** The part of s after an optional leading sign. */
  function Unsigned(s: string): string {
    if |s| > 0 && (s[0] == '-' || s[0] == '+') then s[1..] else s
  }

  /** A numeral Integer.parseInt reads: an optional sign followed by one or more ASCII digits. */
  predicate IsNumeral(s: string) {
    |Unsigned(s)| > 0 && AllDigits(Unsigned(s))
  }

  /** The value a numeral denotes: its digits' value, negated after a leading '-'. */
  function NumeralValue(s: string): int
    requires IsNumeral(s)
  {
    if s[0] == '-' then 0 - DigitsValue(Unsigned(s)) else DigitsValue(Unsigned(s))
  }

  /**
   * Integer.parseInt(s): an optional sign, then one or more decimal digits,
   * and a value that fits in 32 bits; anything else is a NumberFormatException (None).
   */
  function ParseInt(s: string): (r: Option<int>)
    ensures r.Some? ==> IsInt32(r.value)
    ensures r.Some? ==> IsNumeral(s) && r.value == (if s[0] == '-' then -1 else 1) * DigitsValue(Unsigned(s))
    ensures r.Some? && r.value < 0 ==> s[0] == '-'
  {
    if |s| == 0 then None
    else
      var signed := s[0] == '-' || s[0] == '+';
      var digits := if signed then s[1..] else s;
      if |digits| == 0 || !AllDigits(digits) then None
      else
        var v: int := if s[0] == '-' then 0 - (DigitsValue(digits) as int) else DigitsValue(digits);
        if IsInt32(v) then Some(v) else None
  }

  /** parseInt accepts exactly the numerals whose value fits in an int, and returns that value. */
  lemma ParseIntAcceptsExactlyNumerals(s: string)
    ensures IsNumeral(s) && IsInt32(NumeralValue(s)) ==> ParseInt(s) == Some(NumeralValue(s))
    ensures !IsNumeral(s) || !IsInt32(NumeralValue(s)) ==> ParseInt(s).None?
  {
  }

  /** A leading '+', leading zeros and a negative zero are all accepted; a bare sign is not. */
  lemma ParseIntExamples()
    ensures ParseInt("+5") == Some(5)
    ensures ParseInt("007") == Some(7)
    ensures ParseInt("-0") == Some(0)
    ensures ParseInt("-") == None && ParseInt("+") == None && ParseInt("") == None
    ensures ParseInt("1a") == None
  {
    assert Unsigned("+5") == "5" && DigitsValue("5") == 5 by {
      assert "5"[..0] == "";
    }
    assert DigitsValue("007") == 7 by {
      assert "007"[..2] == "00" && "00"[..1] == "0" && "0"[..0] == "";
    }
    assert Unsigned("-0") == "0" && DigitsValue("0") == 0 by {
      assert "0"[..0] == "";
    }
    assert !IsDigit('a');
  }

  lemma {:induction false} DigitsOfNat(n: nat)
    ensures DigitsValue(NatToString(n)) == n
    decreases n
  {
    var s := NatToString(n);
    if n >= 10 {
      DigitsOfNat(n / 10);
      assert s[..|s| - 1] == NatToString(n / 10);
    }
  }

  /** Integer.parseInt reads back every value Integer.toString writes. */
  lemma ParseIntOfIntToString(n: int)
    requires IsInt32(n)
    ensures ParseInt(IntToString(n)) == Some(n)
  {
    var s := IntToString(n);
    if n < 0 {
      var digits := NatToString(-n);
      DigitsOfNat(-n);
      assert s == "-" + digits && s[1..] == digits;
      assert AllDigits(digits) && DigitsValue(digits) == -n;
    } else {
      var digits := NatToString(n);
      DigitsOfNat(n);
      assert s == digits && IsDigit(s[0]);
      assert s[0] != '-' && s[0] != '+';
    }
  }

  /** Character.isWhitespace: Unicode space separators other than the no-break ones, and the ASCII controls it names. */
  predicate IsJavaWhitespace(c: char) {
    var k := c as int;
    || k == 0x20 || 0x09 <= k <= 0x0D || 0x1C <= k <= 0x1F
    || k == 0x1680 || 0x2000 <= k <= 0x2006 || 0x2008 <= k <= 0x200A
    || k == 0x2028 || k == 0x2029 || k == 0x205F || k == 0x3000
  }

  /** StringUtils.isBlank: null, empty, or only whitespace. */
  predicate IsBlank(s: Option<string>) {
    s.None? || forall i :: 0 <= i < |s.value| ==> IsJavaWhitespace(s.value[i])
  }
}
