// Small helpers shared by the model: Option and Result types, the decimal text
// Go produces for integers (strconv.Itoa and the %d verb), and the %v text of
// a float64 holding an integer.

module Util {

  datatype Option<+T> = None | Some(value: T)

  datatype Result<+T, +E> = Ok(value: T) | Err(error: E)

  predicate IsDigit(c: char) { '0' <= c <= '9' }

  predicate AllDigits(s: string) { forall i :: 0 <= i < |s| ==> IsDigit(s[i]) }

  function DigitChar(d: nat): (c: char)
    requires d < 10
    ensures IsDigit(c) && (c as int) - ('0' as int) == d
  {
    ('0' as int + d) as char
  }

  /** Decimal text of a natural number, without leading zeros (strconv.Itoa). */
  function NatText(n: nat): (s: string)
    ensures |s| > 0 && AllDigits(s)
    ensures s[0] == '0' <==> n == 0
    decreases n
  {
    if n < 10 then [DigitChar(n)] else NatText(n / 10) + [DigitChar(n % 10)]
  }

  /** Decimal text of an integer, with a leading '-' when negative (%d). */
  function IntText(n: int): (s: string)
    ensures |s| > 0
    ensures s[0] == '-' <==> n < 0
  {
    if n < 0 then "-" + NatText(-n) else NatText(n)
  }

  /** Reads back a run of decimal digits: the partner of NatText. */
  function ParseNat(s: string): nat
    requires AllDigits(s)
  {
    if s == [] then 0
    else ParseNat(s[..|s| - 1]) * 10 + ((s[|s| - 1] as int) - ('0' as int))
  }

  lemma {:induction false} ParseNatText(n: nat)
    ensures ParseNat(NatText(n)) == n
  {
    if n >= 10 {
      var s := NatText(n);
      assert s[..|s| - 1] == NatText(n / 10);
      ParseNatText(n / 10);
    }
  }

  /** Decimal texts of distinct numbers differ, so index keys never collide. */
  lemma NatTextInjective(m: nat, n: nat)
    requires m != n
    ensures NatText(m) != NatText(n)
  {
    ParseNatText(m);
    ParseNatText(n);
  }

  function Pow10(k: nat): (p: nat)
    ensures p >= 1
  {
    if k == 0 then 1 else 10 * Pow10(k - 1)
  }

  /** A digit string without its trailing zeros. */
  function TrimZeros(s: string): (t: string)
    ensures |t| <= |s| && t == s[..|t|]
    ensures t == [] || t[|t| - 1] != '0'
    ensures forall i :: |t| <= i < |s| ==> s[i] == '0'
    ensures s != [] && s[0] != '0' ==> |t| >= 1
  {
    if s == [] || s[|s| - 1] != '0' then s else TrimZeros(s[..|s| - 1])
  }

  lemma ShiftDecimal(a: nat, q: nat)
    ensures (a * q) * 10 == a * (10 * q)
  {
  }

  /** Trailing zeros scale the value by a power of ten. */
  lemma {:induction false} ParseNatZeros(t: string, k: nat)
    requires AllDigits(t)
    ensures AllDigits(t + Repeat('0', k))
    ensures ParseNat(t + Repeat('0', k)) == ParseNat(t) * Pow10(k)
  {
    var s := t + Repeat('0', k);
    if k > 0 {
      var u := t + Repeat('0', k - 1);
      ParseNatZeros(t, k - 1);
      assert s == u + ['0'];
      assert s[..|s| - 1] == u;
      var a, q := ParseNat(t), Pow10(k - 1);
      assert ParseNat(s) == ParseNat(u) * 10 == (a * q) * 10;
      ShiftDecimal(a, q);
    } else {
      assert s == t;
    }
  }

  /** The significant digits and decimal exponent of a number of at least
      10^6, as strconv's shortest formatting finds them: the digits with
      trailing zeros removed, and the position of the leading digit. */
  function SciParts(m: nat): (r: (string, nat))
    requires m >= 1000000
    ensures |r.0| >= 1 && AllDigits(r.0) && r.0[0] != '0' && r.0[|r.0| - 1] != '0'
    ensures |r.0| <= r.1 + 1
  {
    var ds := NatText(m);
    (TrimZeros(ds), |ds| - 1)
  }

  /** The parts read back to the number: digits times a power of ten. */
  lemma SciPartsValue(m: nat)
    requires m >= 1000000
    ensures ParseNat(SciParts(m).0) * Pow10(SciParts(m).1 + 1 - |SciParts(m).0|) == m
  {
    var ds := NatText(m);
    var digits := TrimZeros(ds);
    var k := |ds| - |digits|;
    assert ds == digits + Repeat('0', k);
    ParseNatZeros(digits, k);
    ParseNatText(m);
  }

  /** fmt's %v of a float64 holding the natural number m (strconv 'g' with
      the shortest precision): plain digits below 10^6, otherwise
      d[.ddd]e+XX with at least two exponent digits. */
  function FloatNatText(m: nat): (s: string)
    ensures m < 1000000 ==> s == NatText(m)
  {
    if m < 1000000 then NatText(m)
    else
      var (digits, exp) := SciParts(m);
      var mantissa := if |digits| == 1 then digits else digits[..1] + "." + digits[1..];
      mantissa + "e+" + (if exp < 10 then "0" else "") + NatText(exp)
  }

  /** fmt's %v of a float64 holding the integer n. */
  function FloatText(n: int): (s: string)
    ensures -1000000 < n < 1000000 ==> s == IntText(n)
  {
    if n < 0 then "-" + FloatNatText(-n) else FloatNatText(n)
  }

  lemma SevenDigits()
    ensures NatText(1234567) == "1234567" && NatText(1000000) == "1000000"
  {
    assert NatText(12) == "12";
    assert NatText(123) == "123";
    assert NatText(1234) == "1234";
    assert NatText(12345) == "12345";
    assert NatText(123456) == "123456";
    assert NatText(100) == "100";
    assert NatText(10000) == "10000";
    assert NatText(100000) == "100000";
  }

  /** 1234567 and 1000000 print in exponent form. */
  lemma FloatTextExamples()
    ensures FloatText(1234567) == "1.234567e+06"
    ensures FloatText(1000000) == "1e+06"
  {
    SevenDigits();
    assert SciParts(1234567) == ("1234567", 6);
    assert TrimZeros("1000000") == "1";
    assert SciParts(1000000) == ("1", 6);
  }

  function Repeat(c: char, n: nat): (s: string)
    ensures |s| == n
    ensures forall i :: 0 <= i < n ==> s[i] == c
  {
    if n == 0 then [] else Repeat(c, n - 1) + [c]
  }
}
