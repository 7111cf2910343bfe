/**
 * Go's 64-bit signed integers and their base-10 rendering as
 * `strconv.FormatInt(x, 10)` writes it, with a reader that inverts it.
 */
module Decimal {
  import opened Wrappers

  /** Go's `int64`. */
  type Int64 = x: int | -0x8000_0000_0000_0000 <= x < 0x8000_0000_0000_0000

  predicate IsDigit(c: char) {
    '0' <= c <= '9'
  }

  function DigitValue(c: char): (d: nat)
    requires IsDigit(c)
    ensures d < 10
  {
    c as int - '0' as int
  }

  function DigitChar(d: nat): (c: char)
    requires d < 10
    ensures IsDigit(c) && DigitValue(c) == d
  {
    ('0' as int + d) as char
  }

  /** The decimal digits of `n`, most significant first, with no leading zero. */
  function Digits(n: nat): (s: string)
    ensures |s| >= 1
    ensures forall k :: 0 <= k < |s| ==> IsDigit(s[k])
    ensures s[0] == '0' ==> n == 0 && |s| == 1
  {
    if n < 10 then [DigitChar(n)] else Digits(n / 10) + [DigitChar(n % 10)]
  }

  /** `strconv.FormatInt(x, 10)`: a minus sign for negative values, then the digits of |x|. */
  function FormatInt(x: int): (s: string)
    ensures |s| >= 1
    ensures s[0] == '-' <==> x < 0
    ensures forall k :: 0 < k < |s| ==> IsDigit(s[k])
    ensures s[0] == '0' ==> s == "0"
    ensures x < 0 ==> |s| >= 2 && s[1] != '0'
  {
    if x < 0 then "-" + Digits(-x) else Digits(x)
  }

  /** Reads a non-empty run of decimal digits; anything else is rejected. */
  function ParseDigits(s: string): (r: Option<nat>)
    ensures r.Some? <==> |s| >= 1 && forall k :: 0 <= k < |s| ==> IsDigit(s[k])
  {
    if |s| == 0 || !IsDigit(s[|s| - 1]) then None
    else if |s| == 1 then Some(DigitValue(s[0]))
    else
      match ParseDigits(s[..|s| - 1])
      case None => None
      case Some(v) => Some(10 * v + DigitValue(s[|s| - 1]))
  }

  /** Reads an optionally negative decimal numeral. */
  function ParseInt(s: string): Option<int> {
    if |s| >= 1 && s[0] == '-' then
      match ParseDigits(s[1..])
      case None => None
      case Some(v) => var n: int := v; Some(-n)
    else
      match ParseDigits(s)
      case None => None
      case Some(v) => Some(v)
  }

  lemma {:induction false} DigitsRoundTrip(n: nat)
    ensures ParseDigits(Digits(n)) == Some(n)
  {
    if n >= 10 {
      var front := Digits(n / 10);
      var s := front + [DigitChar(n % 10)];
      assert s[..|s| - 1] == front;
      DigitsRoundTrip(n / 10);
    }
  }

  /** Reading back what FormatInt wrote yields the original number. */
  lemma FormatIntRoundTrip(x: int)
    ensures ParseInt(FormatInt(x)) == Some(x)
  {
    if x < 0 {
      assert FormatInt(x)[1..] == Digits(-x);
      DigitsRoundTrip(-x);
    } else {
      DigitsRoundTrip(x);
    }
  }
}
