/** Go's `%d` rendering of a 64-bit `int`, and a parser that inverts it. */
module Decimal {
  import opened Wrappers

  const MinInt64: int := -0x8000_0000_0000_0000
  const MaxInt64: int := 0x7FFF_FFFF_FFFF_FFFF

  /** Go's `int` on the 64-bit platforms the client targets. */
  type Int64 = x: int | MinInt64 <= x <= MaxInt64

  /** Unary minus on a 64-bit int: two's-complement wrap-around maps the
      most negative value to itself. */
  function Negate(x: Int64): (r: Int64)
    ensures x != MinInt64 ==> r + x == 0
    ensures x == MinInt64 ==> r == MinInt64
  {
    if x == MinInt64 then x else -x
  }

  predicate IsDigit(ch: char) {
    '0' <= ch <= '9'
  }

  predicate AllDigits(s: string) {
    forall i :: 0 <= i < |s| ==> IsDigit(s[i])
  }

  /** A non-empty digit string without a superfluous leading zero. */
  predicate IsCanonical(s: string) {
    |s| > 0 && AllDigits(s) && (|s| > 1 ==> s[0] != '0')
  }

  function DigitChar(d: nat): (ch: char)
    requires d < 10
    ensures IsDigit(ch)
  {
    ('0' as int + d) as char
  }

  function DigitValue(ch: char): (d: nat)
    requires IsDigit(ch)
    ensures d < 10 && DigitChar(d) == ch
  {
    ch as int - '0' as int
  }

  /** The decimal digits of `n`, most significant first. */
  function Digits(n: nat): (s: string)
    ensures IsCanonical(s)
    ensures s[0] == '0' <==> n == 0
    decreases n
  {
    if n < 10 then [DigitChar(n)] else Digits(n / 10) + [DigitChar(n % 10)]
  }

  /** The number a digit string denotes. */
  function ValueOf(s: string): nat
    requires AllDigits(s)
    decreases |s|
  {
    if |s| == 0 then 0 else ValueOf(s[..|s| - 1]) * 10 + DigitValue(s[|s| - 1])
  }

  /** `%d`: decimal, minus sign for negatives, no leading zeros. */
  function Render(x: int): (s: string)
    ensures |s| > 0
    ensures s[0] == '-' <==> x < 0
    ensures forall j :: 0 < j < |s| ==> IsDigit(s[j])
    ensures x >= 0 ==> IsCanonical(s)
    ensures x < 0 ==> IsCanonical(s[1..]) && s[1] != '0'
  {
    if x < 0 then "-" + Digits(-x) else Digits(x)
  }

  /** Reads back exactly the strings `Render` produces: an optional minus
      sign (not in front of zero) followed by canonical digits. */
  function Parse(s: string): Option<int> {
    if IsCanonical(s) then Some(ValueOf(s))
    else if |s| > 1 && s[0] == '-' && IsCanonical(s[1..]) && s[1] != '0' then Some(0 - ValueOf(s[1..]) as int)
    else None
  }

  lemma {:induction false} DigitsRoundTrip(n: nat)
    ensures ValueOf(Digits(n)) == n
    decreases n
  {
    if n >= 10 {
      DigitsRoundTrip(n / 10);
      var s := Digits(n);
      assert s[..|s| - 1] == Digits(n / 10);
      assert DigitValue(s[|s| - 1]) == n % 10;
    }
  }

  /** A digit string that does not start with `0` denotes a positive number. */
  lemma {:induction false} LeadingNonZeroIsPositive(s: string)
    requires |s| > 0 && AllDigits(s) && s[0] != '0'
    ensures ValueOf(s) > 0
    decreases |s|
  {
    if |s| > 1 {
      LeadingNonZeroIsPositive(s[..|s| - 1]);
    } else {
      assert DigitValue(s[0]) != 0;
    }
  }

  lemma {:induction false} CanonicalRoundTrip(s: string)
    requires IsCanonical(s)
    ensures Digits(ValueOf(s)) == s
    decreases |s|
  {
    var t := s[..|s| - 1];
    var d := DigitValue(s[|s| - 1]);
    if |s| == 1 {
      assert ValueOf(s) == d;
    } else {
      LeadingNonZeroIsPositive(t);
      CanonicalRoundTrip(t);
      assert ValueOf(s) / 10 == ValueOf(t) && ValueOf(s) % 10 == d;
      assert s == t + [s[|s| - 1]];
    }
  }

  lemma ParseRender(x: int)
    ensures Parse(Render(x)) == Some(x)
  {
    if x < 0 {
      DigitsRoundTrip(-x);
      assert Render(x)[1..] == Digits(-x);
    } else {
      DigitsRoundTrip(x);
    }
  }

  lemma RenderParse(s: string, x: int)
    requires Parse(s) == Some(x)
    ensures Render(x) == s
  {
    if IsCanonical(s) {
      CanonicalRoundTrip(s);
    } else {
      var t := s[1..];
      CanonicalRoundTrip(t);
      LeadingNonZeroIsPositive(t);
      assert s == "-" + t;
    }
  }

  /** The rendering is canonical: a string denotes `x` exactly when it is
      `x`'s rendering, so distinct numbers render differently. */
  lemma RenderIsCanonical(s: string, x: int)
    ensures Parse(s) == Some(x) <==> s == Render(x)
  {
    if Parse(s) == Some(x) {
      RenderParse(s, x);
    }
    if s == Render(x) {
      ParseRender(x);
    }
  }

  lemma RenderInjective(x: int, y: int)
    requires Render(x) == Render(y)
    ensures x == y
  {
    ParseRender(x);
    ParseRender(y);
  }
}
