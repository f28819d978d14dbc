/**
 * Numeric and text helpers that stand in for Python built-ins used across HandMouse:
 * abs, min/max clamps, int() on a float (truncation toward zero), str() of an int,
 * int() of a string, str.strip() and the `Optional` value None.
 */
module Numeric {

  datatype Option<T> = None | Some(value: T)

  function Abs(x: int): (r: nat)
    ensures r == x || r == -x
  {
    if x < 0 then -x else x
  }

  function AbsReal(x: real): (r: real)
    ensures 0.0 <= r && (r == x || r == -x)
  {
    if x < 0.0 then -x else x
  }

  function MinReal(a: real, b: real): (r: real)
    ensures r <= a && r <= b && (r == a || r == b)
  {
    if a <= b then a else b
  }

  function MaxReal(a: real, b: real): (r: real)
    ensures a <= r && b <= r && (r == a || r == b)
  {
    if a >= b then a else b
  }

  function MinInt(a: int, b: int): (r: int)
    ensures r <= a && r <= b && (r == a || r == b)
  {
    if a <= b then a else b
  }

  function MaxInt(a: int, b: int): (r: int)
    ensures a <= r && b <= r && (r == a || r == b)
  {
    if a >= b then a else b
  }

  /** Python `int(r)` for a float: rounds toward zero (unlike `r.Floor` for negative values). */
  function TruncReal(r: real): (n: int)
    ensures 0.0 <= r ==> 0 <= n && n as real <= r < (n + 1) as real
    ensures r < 0.0 ==> n <= 0 && (n - 1) as real < r <= n as real
  {
    if r >= 0.0 then r.Floor else -((-r).Floor)
  }

  /** Truncating a whole number gives it back. */
  lemma TruncOfInteger(n: int)
    ensures TruncReal(n as real) == n
  {
  }

  // ----- decimal text -----

  predicate IsDigit(c: char) { '0' <= c <= '9' }

  function DigitValue(c: char): (d: nat)
    requires IsDigit(c)
    ensures d <= 9
  {
    (c as int) - ('0' as int)
  }

  function DigitChar(d: nat): (c: char)
    requires d <= 9
    ensures IsDigit(c) && DigitValue(c) == d
  {
    ((d + '0' as int) as char)
  }

  /** Decimal digits of a natural number, most significant first, no leading zeros. */
  function NatDigits(n: nat): (s: string)
    decreases n
  {
    if n < 10 then [DigitChar(n)] else NatDigits(n / 10) + [DigitChar(n % 10)]
  }

  /** Python `str(n)` for an int. */
  function IntToDecimal(n: int): string
  {
    if n < 0 then "-" + NatDigits(-n) else NatDigits(n)
  }

  predicate AllDigits(s: string) { forall i :: 0 <= i < |s| ==> IsDigit(s[i]) }

  /** Value of a run of decimal digits (0 for the empty run). */
  function DigitsValue(s: string): nat
    requires AllDigits(s)
    decreases |s|
  {
    if |s| == 0 then 0 else 10 * DigitsValue(s[..|s| - 1]) + DigitValue(s[|s| - 1])
  }

  lemma {:induction false} NatDigitsRoundTrip(n: nat)
    ensures |NatDigits(n)| > 0 && AllDigits(NatDigits(n))
    ensures DigitsValue(NatDigits(n)) == n
    decreases n
  {
    if n >= 10 {
      NatDigitsRoundTrip(n / 10);
      var s := NatDigits(n);
      assert s[..|s| - 1] == NatDigits(n / 10);
    }
  }

  /**
   * Python `int(s)` for a string that has already been stripped: an optional sign
   * followed by one or more ASCII digits; anything else raises ValueError (None here).
   */
  function ParseInt(s: string): (r: Option<int>)
    ensures r.Some? ==> |s| > 0
  {
    if |s| > 0 && (s[0] == '-' || s[0] == '+') then
      var body := s[1..];
      if |body| > 0 && AllDigits(body) then
        Some(if s[0] == '-' then 0 - DigitsValue(body) else DigitsValue(body))
      else None
    else if |s| > 0 && AllDigits(s) then Some(DigitsValue(s))
    else None
  }

  lemma IntToDecimalRoundTrip(n: int)
    ensures ParseInt(IntToDecimal(n)) == Some(n)
  {
    if n < 0 {
      var digits := NatDigits(-n);
      NatDigitsRoundTrip(-n);
      var s := "-" + digits;
      assert s[0] == '-' && s[1..] == digits;
      assert ParseInt(s) == Some(0 - DigitsValue(digits));
    } else {
      NatDigitsRoundTrip(n);
    }
  }

  lemma IntToDecimalAlphabet(n: int)
    ensures |IntToDecimal(n)| > 0
    ensures forall i :: 0 <= i < |IntToDecimal(n)| ==> IsDigit(IntToDecimal(n)[i]) || IntToDecimal(n)[i] == '-'
  {
    if n < 0 { NatDigitsRoundTrip(-n); } else { NatDigitsRoundTrip(n); }
  }

  // ----- whitespace (Python str.isspace) -----

  /** Python `str.isspace` for one character: ASCII tab to carriage return, the space,
   *  the information separators and the Unicode space separators. */
  predicate IsSpace(c: char)
  {
    c == ' ' || ('\t' <= c <= '\r') || ('\U{1c}' <= c <= '\U{1f}') || c == '\U{85}' || c == '\U{a0}'
    || c == '\U{1680}' || ('\U{2000}' <= c <= '\U{200a}') || c == '\U{2028}' || c == '\U{2029}'
    || c == '\U{202f}' || c == '\U{205f}' || c == '\U{3000}'
  }

  /** Python `s.lstrip()`. */
  function LStrip(s: string): (r: string)
    ensures |r| <= |s| && r == s[|s| - |r|..]
    decreases |s|
  {
    if |s| > 0 && IsSpace(s[0]) then LStrip(s[1..]) else s
  }

  /** Python `s.rstrip()`. */
  function RStrip(s: string): (r: string)
    ensures |r| <= |s| && r == s[..|r|]
    decreases |s|
  {
    if |s| > 0 && IsSpace(s[|s| - 1]) then RStrip(s[..|s| - 1]) else s
  }

  /** Python `s.strip()`. */
  function Strip(s: string): string
  {
    RStrip(LStrip(s))
  }

  predicate StartsWith(s: string, prefix: string)
  {
    |prefix| <= |s| && s[..|prefix|] == prefix
  }

  /** Index of the first occurrence of `c` in `s` (Python `s.index(c)` when `c in s`). */
  function IndexOf(s: string, c: char): (r: Option<nat>)
    ensures r.Some? <==> c in s
    ensures r.Some? ==> r.value < |s| && s[r.value] == c && c !in s[..r.value]
    decreases |s|
  {
    if |s| == 0 then None
    else if s[0] == c then Some(0)
    else
      var rest := IndexOf(s[1..], c);
      if rest.Some? then
        assert s[..rest.value + 1] == [s[0]] + s[1..][..rest.value];
        Some(rest.value + 1)
      else None
  }

  /** Python `s.split(c)[0]`: everything before the first `c` (the whole string if there is none). */
  function BeforeFirst(s: string, c: char): (r: string)
    ensures c !in r && StartsWith(s, r)
    ensures c !in s ==> r == s
  {
    var i := IndexOf(s, c);
    if i.Some? then s[..i.value] else s
  }

  function Spaces(n: int): (r: string)
    ensures |r| == (if n < 0 then 0 else n)
    ensures forall i :: 0 <= i < |r| ==> r[i] == ' '
    decreases if n < 0 then 0 else n
  {
    if n <= 0 then "" else " " + Spaces(n - 1)
  }

  /** Quotient and divisor bounds of natural division. */
  lemma NatDiv(d: nat, s: nat)
    requires 0 < s
    ensures (d / s) * s <= d
    ensures d / s != 0 ==> s <= d
  {
    assert d == (d / s) * s + d % s;
    if d < s {
      assert d / s == 0;
    }
  }

  /** Integer division of naturals is the floor of their real quotient. */
  lemma NatDivIsFloor(d: nat, s: nat)
    requires 0 < s
    ensures (d / s) as real <= d as real / s as real < (d / s + 1) as real
  {
    var q := d / s;
    assert q * s <= d < (q + 1) * s;
    var x := d as real / s as real;
    assert x * s as real == d as real;
    assert (q as real) * s as real <= x * s as real;
    assert x * s as real < (q + 1) as real * s as real;
  }

  /** Real division by signs: negating either side negates the quotient. */
  lemma QuotientSigns(a: real, b: real)
    requires b != 0.0
    ensures (-a) / b == -(a / b) && a / (-b) == -(a / b) && (-a) / (-b) == a / b
  {
  }

  // ----- ordering facts about real multiplication and division -----

  lemma MulNonneg(x: real, y: real)
    requires 0.0 <= x && 0.0 <= y
    ensures 0.0 <= x * y
  {
  }

  lemma MulMono(a: real, b: real, s: real)
    requires 0.0 <= s && a <= b
    ensures a * s <= b * s
  {
    MulNonneg(b - a, s);
    assert (b - a) * s == b * s - a * s;
  }

  lemma MulBetween(alpha: real, d: real)
    requires 0.0 <= alpha <= 1.0 && 0.0 <= d
    ensures 0.0 <= alpha * d <= d
  {
    MulNonneg(alpha, d);
    MulNonneg(1.0 - alpha, d);
    assert (1.0 - alpha) * d == d - alpha * d;
  }

  /** Multiplication distributes over addition. */
  lemma Distribute(a: real, b: real, c: real)
    ensures a * (b + c) == a * b + a * c
    ensures (b + c) * a == b * a + c * a
  {
  }

  lemma SquareMono(a: real, b: real)
    requires 0.0 <= a <= b
    ensures a * a <= b * b
  {
    MulMono(a, b, a);
    MulMono(a, b, b);
    assert b * a == a * b;
  }

  lemma SquareStrictMono(a: real, b: real)
    requires 0.0 <= a < b
    ensures a * a < b * b
  {
    MulPositive(b - a, b + a);
    assert (b - a) * (b + a) == b * b - a * a;
  }

  lemma MulPositive(x: real, y: real)
    requires 0.0 < x && 0.0 < y
    ensures 0.0 < x * y
  {
  }

  /** Squaring commutes with the conversion to real. */
  lemma SquareAsReal(t: int)
    ensures (t * t) as real == t as real * t as real
  {
  }

  lemma DivMono(a: real, b: real, w: real)
    requires 0.0 < w && a <= b
    ensures a / w <= b / w
  {
    var qa := a / w;
    var qb := b / w;
    assert qa * w == a;
    assert qb * w == b;
    if qa > qb {
      assert (qa - qb) * w > 0.0;
    }
  }

  lemma DivStrict(a: real, b: real, w: real)
    requires 0.0 < w && a < b
    ensures a / w < b / w
  {
    var qa := a / w;
    var qb := b / w;
    assert qa * w == a;
    assert qb * w == b;
  }

  lemma RecipMono(a: real, b: real)
    requires 0.0 < a <= b
    ensures 1.0 / b <= 1.0 / a
  {
    var ra := 1.0 / a;
    var rb := 1.0 / b;
    assert ra * a == 1.0;
    assert rb * b == 1.0;
    assert rb * a <= rb * b by { assert rb * (b - a) >= 0.0 by { assert rb > 0.0; } }
  }
}
