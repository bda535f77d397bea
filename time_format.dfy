/**
 * `formatTime`: renders a time in seconds as `minutes:seconds` for the track
 * list and the player bar. A time the media element does not know yet (`NaN`)
 * is `None` here and renders as the placeholder "-:--".
 *
 * The arithmetic follows JavaScript: `Math.floor` is `.Floor`, and `%` on
 * numbers is the remainder of a division truncated toward zero, so it takes
 * the sign of the dividend (unlike Dafny's `%`).
 */
module TimeFormat {
  import opened Wrappers

  /** What is shown while the time or duration is unknown. */
  const Placeholder: string := "-:--"

  predicate IsDigit(c: char) { '0' <= c <= '9' }

  predicate AllDigits(s: string) { forall i :: 0 <= i < |s| ==> IsDigit(s[i]) }

  function DigitChar(d: nat): (c: char)
    requires d < 10
    ensures IsDigit(c) && c as int - '0' as int == d
  {
    ('0' as int + d) as char
  }

  function DigitValue(c: char): nat
    requires IsDigit(c)
  {
    c as int - '0' as int
  }

  /** Decimal digits of a natural number, most significant first, no leading zero. */
  function NatToString(n: nat): (s: string)
    ensures s != [] && AllDigits(s)
    ensures |s| == 1 <==> n < 10
    ensures s[0] == '0' ==> n == 0
  {
    if n < 10 then [DigitChar(n)] else NatToString(n / 10) + [DigitChar(n % 10)]
  }

  /** JavaScript's rendering of an integer-valued number in string concatenation. */
  function IntToString(i: int): (s: string)
    ensures s != [] && (s[0] == '-' <==> i < 0)
    ensures i < 0 ==> |s| >= 2 && AllDigits(s[1..])
    ensures i >= 0 ==> AllDigits(s) && DigitsValue(s) == i
    ensures i < 0 ==> DigitsValue(s[1..]) == -i
  {
    if i < 0 then
      DigitsValueOfNatToString(-i);
      assert ("-" + NatToString(-i))[1..] == NatToString(-i);
      "-" + NatToString(-i)
    else
      DigitsValueOfNatToString(i);
      NatToString(i)
  }

  /** Rounding toward zero. */
  function Trunc(x: real): (r: int)
    ensures x >= 0.0 ==> 0.0 <= r as real <= x < r as real + 1.0
    ensures x < 0.0 ==> r as real - 1.0 < x <= r as real <= 0.0
  {
    if x >= 0.0 then x.Floor else -((-x).Floor)
  }

  /** JavaScript's `x % m` on numbers: the remainder of the truncated division. */
  function JsRemainder(x: real, m: real): (r: real)
    requires m != 0.0
  {
    x - m * Trunc(x / m) as real
  }

  /** `formatTime(time)`. */
  function FormatTime(time: Option<real>): (r: string)
    ensures r == Placeholder <==> time.None?
  {
    match time
    case None => Placeholder
    case Some(t) =>
      var minutes := (t / 60.0).Floor;
      var rest := JsRemainder(t, 60.0);
      var seconds := if rest < 10.0 then "0" + IntToString(rest.Floor) else IntToString(rest.Floor);
      var m := IntToString(minutes);
      assert m[0] != '-' ==> IsDigit(m[0]);
      assert m[0] == '-' ==> |m| >= 2 && IsDigit(m[1]);
      assert (m + ":" + seconds)[0] == m[0];
      assert |m| >= 2 ==> (m + ":" + seconds)[1] == m[1];
      m + ":" + seconds
  }

  /** Two decimal digits, with a leading zero below ten. */
  function TwoDigits(s: nat): (r: string)
    requires s < 100
  {
    [DigitChar(s / 10), DigitChar(s % 10)]
  }

  /**
   * For a known, non-negative time `t`, formatting shows the whole minutes of
   * `t` (not wrapped into hours, so they may reach 60 and more), a colon, and
   * the whole seconds within the minute as exactly two digits.
   */
  lemma FormatTimeOfNonNegative(t: real)
    requires t >= 0.0
    ensures FormatTime(Some(t)) == NatToString(t.Floor / 60) + ":" + TwoDigits(t.Floor % 60)
  {
    var f := t.Floor;
    var q, s := f / 60, f % 60;
    assert f == 60 * q + s && 0 <= s < 60;
    assert (t / 60.0).Floor == q by {
      assert q as real <= t / 60.0 < (q + 1) as real;
    }
    var rest := JsRemainder(t, 60.0);
    assert rest == t - 60.0 * q as real;
    assert rest.Floor == s by {
      assert s as real <= rest < (s + 1) as real;
    }
    if s < 10 {
      assert rest < 10.0;
      assert "0" + IntToString(s) == TwoDigits(s);
    } else {
      assert !(rest < 10.0);
      assert NatToString(s) == NatToString(s / 10) + [DigitChar(s % 10)];
      assert NatToString(s / 10) == [DigitChar(s / 10)];
    }
  }

  /** The value of a string of decimal digits. */
  function DigitsValue(s: string): nat
    requires AllDigits(s)
  {
    if s == [] then 0 else DigitsValue(s[..|s| - 1]) * 10 + DigitValue(s[|s| - 1])
  }

  lemma {:induction false} DigitsValueOfNatToString(n: nat)
    ensures DigitsValue(NatToString(n)) == n
  {
    if n >= 10 {
      var s := NatToString(n / 10);
      assert (s + [DigitChar(n % 10)])[..|s|] == s;
      DigitsValueOfNatToString(n / 10);
    } else {
      assert [DigitChar(n)][..0] == [];
    }
  }

  /** Reads a `minutes:seconds` label back into whole seconds. */
  function ParseClock(s: string): Option<nat>
  {
    if |s| >= 4 && s[|s| - 3] == ':' && AllDigits(s[..|s| - 3])
       && IsDigit(s[|s| - 2]) && IsDigit(s[|s| - 1])
    then Some(DigitsValue(s[..|s| - 3]) * 60 + DigitValue(s[|s| - 2]) * 10 + DigitValue(s[|s| - 1]))
    else None
  }

  /** A label of a known, non-negative time gives back its whole seconds. */
  lemma ParseFormatTime(t: real)
    requires t >= 0.0
    ensures ParseClock(FormatTime(Some(t))) == Some(t.Floor)
  {
    var f := t.Floor;
    FormatTimeOfNonNegative(t);
    var m := NatToString(f / 60);
    var r := m + ":" + TwoDigits(f % 60);
    assert r[..|r| - 3] == m;
    DigitsValueOfNatToString(f / 60);
  }

  /** So labels of known times differ exactly when their whole seconds differ. */
  lemma FormatTimeSeparatesSeconds(t1: real, t2: real)
    requires t1 >= 0.0 && t2 >= 0.0
    ensures FormatTime(Some(t1)) == FormatTime(Some(t2)) <==> t1.Floor == t2.Floor
  {
    ParseFormatTime(t1);
    ParseFormatTime(t2);
    if t1.Floor == t2.Floor {
      FormatTimeOfNonNegative(t1);
      FormatTimeOfNonNegative(t2);
    }
  }

  /** The placeholder, and labels the component shows for times under a minute. */
  lemma FormatTimeExamplesShort()
    ensures FormatTime(None) == "-:--"
    ensures FormatTime(Some(5.0)) == "0:05"
    ensures FormatTime(Some(9.5)) == "0:09"
  {
    FormatTimeOfNonNegative(5.0);
    FormatTimeOfNonNegative(9.5);
  }

  /** Labels for times of a few minutes. */
  lemma FormatTimeExamplesMinutes()
    ensures FormatTime(Some(65.0)) == "1:05"
    ensures FormatTime(Some(161.71)) == "2:41"
  {
    FormatTimeOfNonNegative(65.0);
    FormatTimeOfNonNegative(161.71);
  }

  /** Labels for ten minutes and for over an hour: minutes are not wrapped into hours. */
  lemma FormatTimeExamplesLong()
    ensures FormatTime(Some(600.0)) == "10:00"
    ensures FormatTime(Some(3725.0)) == "62:05"
  {
    FormatTimeOfNonNegative(600.0);
    assert NatToString(10) == "10";
    FormatTimeOfNonNegative(3725.0);
    assert NatToString(62) == "62";
  }
}
