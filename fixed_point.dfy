/** The decoder's temperature rendering, `(value / 10).toFixed(1)`, on an
    integer count of tenths of a degree. Because the count is an integer,
    the quotient has exactly one fractional digit and the rendering is
    exact; the model therefore works on integers and digit strings, with a
    reader `ReadFixed1` as the independent partner of the renderer. */
module FixedPoint {
  import opened Wrappers

  /** A decimal with exactly one fractional digit: sign, whole part and the
      tenths digit. */
  datatype Fixed1 = Fixed1(negative: bool, units: nat, tenth: nat)

  predicate IsDigit(c: char)
  {
    '0' <= c <= '9'
  }

  predicate AllDigits(s: string)
  {
    forall i :: 0 <= i < |s| ==> IsDigit(s[i])
  }

  function DigitChar(d: nat): (c: char)
    requires d < 10
    ensures IsDigit(c) && c as int - '0' as int == d
  {
    ('0' as int + d) as char
  }

  function DigitValue(c: char): (d: nat)
    requires IsDigit(c)
    ensures d < 10 && DigitChar(d) == c
  {
    c as int - '0' as int
  }

  /** The decimal digits of `n`, most significant first, without leading
      zeros ("0" for zero). */
  function Digits(n: nat): (s: string)
    ensures |s| >= 1 && AllDigits(s)
    ensures s[0] == '0' ==> n == 0 && s == "0"
    ensures n == 0 ==> s == "0"
  {
    if n < 10 then [DigitChar(n)] else Digits(n / 10) + [DigitChar(n % 10)]
  }

  /** The number a string of decimal digits denotes. */
  function DigitsValue(s: string): nat
    requires AllDigits(s)
  {
    if s == [] then 0 else DigitsValue(s[..|s| - 1]) * 10 + DigitValue(s[|s| - 1])
  }

  /** `Digits` writes a non-empty string of digits that reads back as `n`,
      and it starts with '0' only when `n` is zero. */
  lemma {:induction false} DigitsRoundTrip(n: nat)
    ensures |Digits(n)| >= 1 && AllDigits(Digits(n))
    ensures DigitsValue(Digits(n)) == n
    ensures Digits(n)[0] == '0' ==> n == 0 && Digits(n) == "0"
  {
    if n >= 10 {
      DigitsRoundTrip(n / 10);
      var s := Digits(n);
      assert s[..|s| - 1] == Digits(n / 10);
    }
  }

  /** The decimal `n / 10`, for an integer `n` counting tenths. */
  function FromTenths(n: int): (d: Fixed1)
    ensures d.tenth < 10
    ensures d.negative <==> n < 0
    ensures (if d.negative then -(d.units * 10 + d.tenth) else d.units * 10 + d.tenth) == n
  {
    if n < 0 then Fixed1(true, (-n) / 10, (-n) % 10) else Fixed1(false, n / 10, n % 10)
  }

  /** How `toFixed(1)` writes a one-digit decimal: an optional minus sign,
      the whole part, a point and the tenths digit. */
  function Render(d: Fixed1): string
    requires d.tenth < 10
  {
    (if d.negative then "-" else "") + Digits(d.units) + "." + [DigitChar(d.tenth)]
  }

  /** `(n / 10).toFixed(1)`: a minus sign exactly for negative `n`, then a
      whole part that starts with '0' only when it is zero, a point and one
      tenths digit. */
  function ToFixed1(n: int): (s: string)
    ensures |s| >= 3 && s[|s| - 2] == '.' && IsDigit(s[|s| - 1])
    ensures (s[0] == '-') <==> n < 0
    ensures var w := if n < 0 then s[1..] else s; IsDigit(w[0]) && (w[0] == '0' ==> w[1] == '.' && -10 < n < 10)
  {
    Render(FromTenths(n))
  }

  /** Reads a string of the shape `[-]digits.digit` as a count of tenths;
      anything else is `None`. */
  function ReadFixed1(s: string): Option<int>
  {
    if |s| < 3 || s[|s| - 2] != '.' || !IsDigit(s[|s| - 1]) then None
    else
      var negative := s[0] == '-';
      var whole := if negative then s[1..|s| - 2] else s[..|s| - 2];
      if whole == [] || !AllDigits(whole) then None
      else
        var m := DigitsValue(whole) * 10 + DigitValue(s[|s| - 1]);
        Some(if negative then -m else m)
  }

  /** The rendering of `n / 10` has exactly one digit after its point, and
      it reads back as exactly `n` tenths: nothing is rounded or lost. */
  lemma {:induction false} ReadToFixed1(n: int)
    ensures var s := ToFixed1(n); |s| >= 3 && s[|s| - 2] == '.' && IsDigit(s[|s| - 1])
    ensures (ToFixed1(n)[0] == '-') <==> n < 0
    ensures var s := ToFixed1(n); var w := if n < 0 then s[1..] else s; w[0] == '0' ==> w[1] == '.' && -10 < n < 10
    ensures ReadFixed1(ToFixed1(n)) == Some(n)
  {
    var d := FromTenths(n);
    DigitsRoundTrip(d.units);
    var digits := Digits(d.units);
    var s := ToFixed1(n);
    if d.negative {
      assert s == ['-'] + digits + ['.', DigitChar(d.tenth)];
      assert s[1..|s| - 2] == digits;
    } else {
      assert s == digits + ['.', DigitChar(d.tenth)];
      assert s[..|s| - 2] == digits;
      assert s[0] == digits[0];
      assert s[0] != '-';
    }
  }

  /** The example the decoder is known by: 215 tenths is shown as "21.5". */
  lemma ToFixed1Example()
    ensures ToFixed1(215) == "21.5"
    ensures ToFixed1(0) == "0.0"
    ensures ToFixed1(-5) == "-0.5"
  {
  }
}
