/** Durations as nanosecond counts, and the text `%v` prints for one
    (Duration.String of Go's time package), which the loop puts into the
    timeout reason. Only non-negative durations occur in the model. */
module Durations {
  import opened Text

  const Microsecond: nat := 1000
  const Millisecond: nat := 1000 * Microsecond
  const Second: nat := 1000 * Millisecond
  const Minute: nat := 60 * Second

  /** The fractional digits of `v` read as `prec` decimal places, lowest
      first: a digit is kept once it or a lower one is non-zero, so trailing
      zeros are dropped. `shown` says whether a lower digit was non-zero. */
  function FracDigits(v: nat, prec: nat, shown: bool): string {
    if prec == 0 then ""
    else
      var digit := v % 10;
      var keep := shown || digit != 0;
      FracDigits(v / 10, prec - 1, keep) + (if keep then [DigitChar(digit)] else "")
  }

  /** The fraction `v / 10^prec` after the decimal point, with the point;
      nothing when it has no non-zero digit. */
  function FracText(v: nat, prec: nat): string {
    var digits := FracDigits(v, prec, false);
    if digits == "" then "" else "." + digits
  }

  /** A duration below one second in its largest unit: nanoseconds,
      microseconds or milliseconds, the latter two with a fraction. */
  function SubSecondText(d: nat): string {
    if d < Microsecond then NatToString(d) + "ns"
    else if d < Millisecond then NatToString(d / Microsecond) + FracText(d % Microsecond, 3) + "µs"
    else NatToString(d / Millisecond) + FracText(d % Millisecond, 6) + "ms"
  }

  /** Whole seconds as hours, minutes and seconds, leaving out the leading
      units that are zero. */
  function ClockText(secs: nat): string {
    (if secs >= 3600 then NatToString(secs / 3600) + "h" else "") +
    (if secs >= 60 then NatToString(secs / 60 % 60) + "m" else "") +
    NatToString(secs % 60)
  }

  /** Duration.String for a non-negative duration `d` in nanoseconds. */
  function DurationString(d: nat): string {
    if d == 0 then "0s"
    else if d < Second then SubSecondText(d)
    else ClockText(d / Second) + FracText(d % Second, 9) + "s"
  }

  /** A whole number of units has no fractional part. */
  lemma {:induction false} NoFraction(v: nat, prec: nat)
    requires v == 0
    ensures FracDigits(v, prec, false) == ""
    decreases prec
  {
    if prec > 0 {
      NoFraction(v / 10, prec - 1);
    }
  }

  /** From one second on, the text is the clock reading, the fraction and `s`. */
  lemma ClockCase(d: nat)
    requires d >= Second
    ensures DurationString(d) == ClockText(d / Second) + FracText(d % Second, 9) + "s"
  {}

  lemma ClockThirtyMinutes()
    ensures ClockText(1800) == "30m0"
  {
    assert NatToString(30) == "30";
    assert NatToString(0) == "0";
  }

  /** Thirty minutes, the default step timeout, print as `30m0s`. */
  lemma ThirtyMinutes()
    ensures DurationString(30 * Minute) == "30m0s"
  {
    var d := 30 * Minute;
    assert d == 1800 * Second;
    assert d / Second == 1800 && d % Second == 0;
    NoFraction(0, 9);
    assert FracText(0, 9) == "";
    ClockThirtyMinutes();
    ClockCase(d);
  }

  /** Five seconds, the default retry delay, print as `5s`. */
  lemma FiveSeconds()
    ensures DurationString(5 * Second) == "5s"
  {
    var d := 5 * Second;
    assert d / Second == 5 && d % Second == 0;
    NoFraction(0, 9);
    assert FracText(0, 9) == "";
    ClockCase(d);
    assert ClockText(5) == "5" by {
      assert NatToString(5) == "5";
    }
  }
}
