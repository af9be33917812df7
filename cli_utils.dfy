/** The command layer's duration wording (internal/cli/utils.go). */
module CliUtils {
  import opened GoLib
  import TimerDisplay

  /** plural */
  function Plural(n: int): (s: string)
    ensures s == "" <==> n == 1
    ensures s != "" ==> s == "s"
  {
    if n == 1 then "" else "s"
  }

  function Count(n: int, unit: string): string
  {
    IntToString(n) + " " + unit + Plural(n)
  }

  /**
   * formatDuration, with the negative case answered by "Completed". The whole
   * hours, minutes and seconds are GoDiv counts, as Go's float64 conversions
   * give below 4096 hours.
   */
  function FormatDuration(d: int): (r: string)
    ensures d < 0 ==> r == "Completed"
    ensures d >= Hour ==> Count(d / Hour, "hour") <= r
    ensures 0 <= d < Hour ==> Count(d / Minute, "minute") <= r
  {
    if d < 0 then "Completed"
    else if d >= Hour then
      var hours := GoDiv(d, Hour);
      var minutes := GoMod(GoDiv(d, Minute), 60);
      if minutes == 0 then Count(hours, "hour")
      else Count(hours, "hour") + " " + Count(minutes, "minute")
    else
      var minutes := GoDiv(d, Minute);
      var seconds := GoMod(GoDiv(d, Second), 60);
      if seconds == 0 then Count(minutes, "minute")
      else Count(minutes, "minute") + " " + Count(seconds, "second")
  }

  /** This copy words every duration exactly as the timer package's copy does. */
  lemma AgreesWithTimer(d: int)
    ensures FormatDuration(d) == TimerDisplay.FormatDuration(d)
  {
    assert forall n: int, u: string :: Count(n, u) == TimerDisplay.Count(n, u);
  }

  /** Whole minutes below an hour are printed with no seconds part. */
  lemma WholeMinutes(m: int)
    requires 0 <= m < 60
    ensures FormatDuration(m * Minute) == Count(m, "minute")
  {
    var d := m * Minute;
    AgreesWithTimer(d);
    TimerDisplay.FormatBelowHour(m, 0, 0);
    assert TimerDisplay.FormatDuration(d) == TimerDisplay.Count(m, "minute") by {
      assert d == m * Minute + 0 * Second + 0;
    }
    assert Count(m, "minute") == TimerDisplay.Count(m, "minute");
  }

  /** Whole hours are printed with no minutes part. */
  lemma WholeHours(h: int)
    requires h >= 1
    ensures FormatDuration(h * Hour) == Count(h, "hour")
  {
    var d := h * Hour;
    AgreesWithTimer(d);
    TimerDisplay.FormatFromHour(h, 0, 0);
    assert TimerDisplay.FormatDuration(d) == TimerDisplay.Count(h, "hour") by {
      assert d == h * Hour + 0 * Minute + 0;
    }
    assert Count(h, "hour") == TimerDisplay.Count(h, "hour");
  }
}
