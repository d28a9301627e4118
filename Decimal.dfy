/**
 * Arduino's `String(x, 1)`, which renders a float with one digit after the
 * decimal point (src/main.cpp:491-494). The conversion it uses writes a '-'
 * for a negative value, adds half of the last place to the magnitude and
 * then truncates; in exact arithmetic that is rounding the magnitude to the
 * nearest tenth with halves going up.
 */
module Decimal {
  import opened Wrappers

  /** A rendered number: its sign and its magnitude in tenths. */
  datatype Tenths = Tenths(negative: bool, tenths: nat)

  function Abs(x: real): real {
    if x < 0.0 then -x else x
  }

  /** The number a rendering stands for. */
  function Value(d: Tenths): real {
    (if d.negative then -1.0 else 1.0) * (d.tenths as real / 10.0)
  }

  /** The sign and rounded magnitude that `String(x, 1)` prints. */
  function Round(x: real): (d: Tenths)
    ensures d.negative <==> x < 0.0
    ensures Abs(x) - 0.05 < d.tenths as real / 10.0 <= Abs(x) + 0.05
  {
    Tenths(x < 0.0, (Abs(x) * 10.0 + 0.5).Floor)
  }

  /** A rounded value is within half a tenth of the exact one. */
  lemma RoundError(x: real)
    ensures Abs(Value(Round(x)) - x) <= 0.05
  {
    var d := Round(x);
    if x < 0.0 {
      assert Value(d) == -(d.tenths as real / 10.0);
    }
  }

  predicate IsDigit(c: char) {
    '0' <= c <= '9'
  }

  predicate AllDigits(s: string) {
    forall i :: 0 <= i < |s| ==> IsDigit(s[i])
  }

  function DigitChar(n: nat): (c: char)
    requires n < 10
    ensures IsDigit(c)
  {
    ('0' as int + n) as char
  }

  function DigitValue(c: char): (n: nat)
    requires IsDigit(c)
    ensures n < 10 && DigitChar(n) == c
  {
    c as int - '0' as int
  }

  /** The decimal digits of `n`, most significant first, without leading zeros. */
  function Digits(n: nat): (s: string)
    ensures |s| >= 1 && AllDigits(s)
    ensures n >= 10 ==> s[0] != '0'
  {
    if n < 10 then [DigitChar(n)] else Digits(n / 10) + [DigitChar(n % 10)]
  }

  /** The number a string of decimal digits denotes. */
  function DigitsValue(s: string): nat
    requires AllDigits(s)
  {
    if s == [] then 0 else DigitsValue(s[..|s| - 1]) * 10 + DigitValue(s[|s| - 1])
  }

  lemma {:induction false} DigitsRoundTrip(n: nat)
    ensures DigitsValue(Digits(n)) == n
  {
    if n >= 10 {
      var s := Digits(n);
      assert s[..|s| - 1] == Digits(n / 10);
      DigitsRoundTrip(n / 10);
    }
  }

  /** The text `String(x, 1)` produces for a rounded value. */
  function Render(d: Tenths): (s: string)
    ensures |s| >= 3 && s[|s| - 2] == '.'
    ensures forall i :: 0 <= i < |s| ==> s[i] == '-' || s[i] == '.' || IsDigit(s[i])
  {
    (if d.negative then "-" else "") + Digits(d.tenths / 10) + "." + [DigitChar(d.tenths % 10)]
  }

  /**
   * `String(x, 1)`: the text reads back as the rounded value, which is
   * within half a tenth of x.
   */
  function Format(x: real): (s: string)
    ensures Parse(s) == Some(Round(x))
    ensures Abs(Value(Parse(s).value) - x) <= 0.05
  {
    ParseRender(Round(x));
    RoundError(x);
    Render(Round(x))
  }

  /** Reads back an unsigned rendering: digits, '.', one digit. */
  function ParseMagnitude(s: string): Option<nat> {
    if |s| >= 3 && s[|s| - 2] == '.' && IsDigit(s[|s| - 1]) && AllDigits(s[..|s| - 2]) then
      Some(DigitsValue(s[..|s| - 2]) * 10 + DigitValue(s[|s| - 1]))
    else
      None
  }

  /** Reads back a rendering, with an optional leading '-'. */
  function Parse(s: string): Option<Tenths> {
    if |s| >= 1 && s[0] == '-' then
      var m :- ParseMagnitude(s[1..]);
      Some(Tenths(true, m))
    else
      var m :- ParseMagnitude(s);
      Some(Tenths(false, m))
  }

  /** Rendering loses nothing: the rendered text reads back as the same value. */
  lemma ParseRender(d: Tenths)
    ensures Parse(Render(d)) == Some(d)
  {
    var ds := Digits(d.tenths / 10);
    var u := ds + "." + [DigitChar(d.tenths % 10)];
    assert u[..|u| - 2] == ds;
    DigitsRoundTrip(d.tenths / 10);
    assert ParseMagnitude(u) == Some(d.tenths);
    if d.negative {
      assert Render(d)[1..] == u;
    } else {
      assert Render(d) == u;
      assert IsDigit(u[0]);
    }
  }

  lemma RoundExamples()
    ensures Round(2.34) == Tenths(false, 23) && Round(0.0) == Tenths(false, 0)
    ensures Round(45.67) == Tenths(false, 457) && Round(12.3) == Tenths(false, 123)
    ensures Round(0.25) == Tenths(false, 3) && Round(-0.04) == Tenths(true, 0)
  {
  }

  /** Values from the reference scenario, and a half-way case rounding up. */
  lemma FormatExamples()
    ensures Format(2.34) == "2.3" && Format(45.67) == "45.7"
    ensures Format(0.0) == "0.0" && Format(12.3) == "12.3"
    ensures Format(0.25) == "0.3" && Format(-0.04) == "-0.0"
  {
    RoundExamples();
    assert Digits(45) == "45";
  }
}
