/**
 * The timer's text helpers: duration wording, the plural suffix and the
 * progress bar drawn during a foreground session. Durations are nanoseconds.
 * Go's `int(d.Hours())` and friends go through a float64 sum of the whole
 * count and the fraction; the model takes the whole count, GoDiv. The two
 * agree below 4096 hours; from there the float64 sum can round up to the
 * next whole unit, which the model does not reproduce.
 */
module TimerDisplay {
  import opened GoLib

  /** plural: the suffix "s" for every count but one. */
  function Plural(n: int): (s: string)
    ensures s == "" <==> n == 1
    ensures s != "" ==> s == "s"
  {
    if n == 1 then "" else "s"
  }

  /** "<n> <unit>" with the unit pluralised as plural decides. */
  function Count(n: int, unit: string): string
  {
    IntToString(n) + " " + unit + Plural(n)
  }

  /**
   * formatDuration: "Completed" for a negative span; whole hours plus the
   * leftover minutes from one hour up; otherwise minutes plus the leftover
   * seconds, a zero leftover being omitted.
   */
  function FormatDuration(d: int): (r: string)
    ensures d < 0 ==> r == "Completed"
    ensures d >= Hour ==> Count(d / Hour, "hour") <= r
    ensures 0 <= d < Hour ==> Count(d / Minute, "minute") <= r
  {
    if d < 0 then "Completed"
    else if d >= Hour then
      var hours := GoDiv(d, Hour);
      var minutes := GoMod(GoDiv(d, Minute), 60);
      if minutes == 0 then Count(hours, "hour")
      else Count(hours, "hour") + " " + Count(minutes, "minute")
    else
      var minutes := GoDiv(d, Minute);
      var seconds := GoMod(GoDiv(d, Second), 60);
      if seconds == 0 then Count(minutes, "minute")
      else Count(minutes, "minute") + " " + Count(seconds, "second")
  }

  /** From one hour up the seconds are not shown: only whole minutes matter. */
  lemma FormatDropsSecondsFromHour(d: int)
    requires d >= Hour
    ensures FormatDuration(d) == FormatDuration(d / Minute * Minute)
  {
    var m := d / Minute;
    var t := m * Minute;
    assert t / Minute == m;
    assert t >= Hour;
    HoursFromMinutes(d);
    HoursFromMinutes(t);
  }

  /** Below one hour only whole seconds are shown. */
  lemma FormatDropsFractionsBelowHour(d: int)
    requires 0 <= d < Hour
    ensures FormatDuration(d) == FormatDuration(d / Second * Second)
  {
    var s := d / Second;
    var t := s * Second;
    assert t / Second == s;
    assert 0 <= t <= d;
    MinutesFromSeconds(d);
    MinutesFromSeconds(t);
  }

  /** Below one hour: the whole minutes, then the leftover whole seconds unless there are none. */
  lemma FormatBelowHour(m: int, s: int, frac: int)
    requires 0 <= m < 60 && 0 <= s < 60 && 0 <= frac < Second
    ensures FormatDuration(m * Minute + s * Second + frac) ==
              if s == 0 then Count(m, "minute") else Count(m, "minute") + " " + Count(s, "second")
  {
    BelowHourParts(m, s, frac);
  }

  lemma BelowHourParts(m: int, s: int, frac: int)
    requires 0 <= m < 60 && 0 <= s < 60 && 0 <= frac < Second
    ensures var d := m * Minute + s * Second + frac;
            0 <= d < Hour && GoDiv(d, Minute) == m && GoMod(GoDiv(d, Second), 60) == s
  {
    var d := m * Minute + s * Second + frac;
    assert d / Minute == m;
    assert d / Second == 60 * m + s;
    assert GoMod(60 * m + s, 60) == s;
  }

  /** From one hour up: the whole hours, then the leftover whole minutes unless there are none. */
  lemma FormatFromHour(h: int, m: int, rest: int)
    requires h >= 1 && 0 <= m < 60 && 0 <= rest < Minute
    ensures FormatDuration(h * Hour + m * Minute + rest) ==
              if m == 0 then Count(h, "hour") else Count(h, "hour") + " " + Count(m, "minute")
  {
    FromHourParts(h, m, rest);
  }

  lemma FromHourParts(h: int, m: int, rest: int)
    requires h >= 1 && 0 <= m < 60 && 0 <= rest < Minute
    ensures var d := h * Hour + m * Minute + rest;
            d >= Hour && GoDiv(d, Hour) == h && GoMod(GoDiv(d, Minute), 60) == m
  {
    var d := h * Hour + m * Minute + rest;
    assert d / Hour == h;
    assert d / Minute == 60 * h + m;
    assert GoMod(60 * h + m, 60) == m;
  }

  /** The timer's tests: 45 seconds reads "0 minutes 45 seconds". */
  lemma FormatFortyFiveSeconds(d: int)
    requires d == 45 * Second
    ensures FormatDuration(d) == "0 minutes 45 seconds"
  {
    FormatBelowHour(0, 45, 0);
    FortyFiveSecondsWords();
  }

  lemma FortyFiveSecondsWords()
    ensures Count(0, "minute") + " " + Count(45, "second") == "0 minutes 45 seconds"
  {
    CountTwoDigits(45, "second");
    assert Count(0, "minute") == "0 minutes";
    assert "0 minutes" + " " + "45 seconds" == "0 minutes 45 seconds";
  }

  /** The timer's tests: five minutes reads "5 minutes", the zero seconds omitted. */
  lemma FormatFiveMinutes(d: int)
    requires d == 5 * Minute
    ensures FormatDuration(d) == "5 minutes"
  {
    FormatBelowHour(5, 0, 0);
    assert Count(5, "minute") == "5 minutes";
  }

  /** The timer's tests: 2m30s reads "2 minutes 30 seconds". */
  lemma FormatTwoMinutesThirty(d: int)
    requires d == 2 * Minute + 30 * Second
    ensures FormatDuration(d) == "2 minutes 30 seconds"
  {
    FormatBelowHour(2, 30, 0);
    TwoMinutesThirtyWords();
  }

  lemma TwoMinutesThirtyWords()
    ensures Count(2, "minute") + " " + Count(30, "second") == "2 minutes 30 seconds"
  {
    CountTwoDigits(30, "second");
    assert Count(2, "minute") == "2 minutes";
    assert "2 minutes" + " " + "30 seconds" == "2 minutes 30 seconds";
  }

  /** The timer's tests: one hour reads "1 hour", singular, the zero minutes omitted. */
  lemma FormatOneHour(d: int)
    requires d == Hour
    ensures FormatDuration(d) == "1 hour"
  {
    FormatFromHour(1, 0, 0);
    assert Count(1, "hour") == "1 hour";
  }

  /** The timer's tests: 1h30m reads "1 hour 30 minutes". */
  lemma FormatHourThirty(d: int)
    requires d == Hour + 30 * Minute
    ensures FormatDuration(d) == "1 hour 30 minutes"
  {
    FormatFromHour(1, 30, 0);
    HourThirtyWords();
  }

  lemma HourThirtyWords()
    ensures Count(1, "hour") + " " + Count(30, "minute") == "1 hour 30 minutes"
  {
    CountTwoDigits(30, "minute");
    assert Count(1, "hour") == "1 hour";
    assert "1 hour" + " " + "30 minutes" == "1 hour 30 minutes";
  }

  /** A two-digit count is its tens digit, its units digit, and the plural unit. */
  lemma CountTwoDigits(n: int, unit: string)
    requires 10 <= n < 100
    ensures Count(n, unit) == [DigitChar(n / 10), DigitChar(n % 10)] + " " + unit + "s"
  {
    assert NatToString(n) == NatToString(n / 10) + [DigitChar(n % 10)];
  }

  const FullBlock: char := '\U{2588}'
  const LightShade: char := '\U{2591}'

  /** `n` copies of `c`, none when `n` is not positive. */
  function Repeat(c: char, n: int): (s: string)
    ensures |s| == if n > 0 then n else 0
    ensures forall i :: 0 <= i < |s| ==> s[i] == c
  {
    if n <= 0 then [] else Repeat(c, n - 1) + [c]
  }

  /** Go's `int(x)` on a float: truncation toward zero. */
  function Trunc(x: real): int
  {
    if x >= 0.0 then x.Floor else -((-x).Floor)
  }

  function Clamp(p: real): (c: real)
    ensures 0.0 <= c <= 1.0
    ensures 0.0 <= p <= 1.0 ==> c == p
  {
    if p < 0.0 then 0.0 else if p > 1.0 then 1.0 else p
  }

  /** The number of full cells: `width` times the clamped progress, truncated. */
  function Filled(progress: real, width: int): int
  {
    Trunc((width as real) * Clamp(progress))
  }

  /** The bar createProgressBar draws, as a value. */
  function Bar(progress: real, width: int): string
  {
    "[" + Repeat(FullBlock, Filled(progress, width)) +
    Repeat(LightShade, width - Filled(progress, width)) + "]"
  }

  lemma MulNonNegative(a: real, b: real)
    requires 0.0 <= a && 0.0 <= b
    ensures 0.0 <= a * b
  {
  }

  /** For a non-negative width the filled count lies in [0, width]: none at no progress, all at full. */
  lemma FilledBounds(p: real, width: int)
    requires width >= 0
    ensures 0 <= Filled(p, width) <= width
    ensures p <= 0.0 ==> Filled(p, width) == 0
    ensures p >= 1.0 ==> Filled(p, width) == width
  {
    var w := width as real;
    var c := Clamp(p);
    MulNonNegative(w, c);
    MulNonNegative(w, 1.0 - c);
    assert w * (1.0 - c) == w - w * c;
    assert Filled(p, width) == (w * c).Floor;
  }

  /** The bar is two brackets around exactly `width` cells, full ones first. */
  lemma BarShape(p: real, width: int)
    requires width >= 0
    ensures |Bar(p, width)| == width + 2
    ensures Bar(p, width)[0] == '[' && Bar(p, width)[width + 1] == ']'
    ensures forall i :: 1 <= i <= Filled(p, width) ==> Bar(p, width)[i] == FullBlock
    ensures forall i :: Filled(p, width) < i <= width ==> Bar(p, width)[i] == LightShade
  {
    FilledBounds(p, width);
    var b := Bar(p, width);
    var full := Repeat(FullBlock, Filled(p, width));
    var light := Repeat(LightShade, width - Filled(p, width));
    assert b == "[" + full + light + "]";
    forall i | 1 <= i <= Filled(p, width)
      ensures b[i] == FullBlock
    {
      assert b[i] == full[i - 1];
    }
    forall i | Filled(p, width) < i <= width
      ensures b[i] == LightShade
    {
      assert b[i] == light[i - 1 - Filled(p, width)];
    }
  }

  /** The timer's tests at width 10: no progress draws ten empty cells, and less than none is the same. */
  lemma BarEmpty(p: real, width: int)
    requires p <= 0.0 && width == 10
    ensures Bar(p, width) == "[" + Repeat(LightShade, 10) + "]"
  {
    FilledBounds(p, width);
  }

  /** The timer's tests at width 10: full progress draws ten full cells, and more than full is the same. */
  lemma BarFull(p: real, width: int)
    requires p >= 1.0 && width == 10
    ensures Bar(p, width) == "[" + Repeat(FullBlock, 10) + "]"
  {
    FilledBounds(p, width);
  }

  /** The timer's tests at width 10: half progress draws five full cells, then five empty ones. */
  lemma BarHalf(p: real, width: int)
    requires p == 0.5 && width == 10
    ensures Bar(p, width) == "[" + Repeat(FullBlock, 5) + Repeat(LightShade, 5) + "]"
  {
    assert (width as real) * Clamp(p) == 5.0;
  }

  /** One of createProgressBar's two loops: appends `n` copies of the cell `c` to `bar`. */
  method AppendCells(bar: string, c: char, n: int) returns (r: string)
    ensures r == bar + Repeat(c, n)
  {
    r := bar;
    var i := 0;
    while i < n
      invariant 0 <= i <= (if n > 0 then n else 0)
      invariant r == bar + Repeat(c, i)
    {
      assert Repeat(c, i + 1) == Repeat(c, i) + [c];
      r := r + [c];
      i := i + 1;
    }
    assert Repeat(c, i) == Repeat(c, n);
  }

  /** createProgressBar's first half: clamps the progress to [0, 1] and truncates width times it. */
  method FilledCells(progress: real, width: int) returns (filled: int)
    ensures filled == Filled(progress, width)
  {
    var p := progress;
    if p < 0.0 {
      p := 0.0;
    }
    if p > 1.0 {
      p := 1.0;
    }
    assert p == Clamp(progress);
    filled := Trunc((width as real) * p);
  }

  /** createProgressBar: the full cells, then the empty cells, between brackets. */
  method CreateProgressBar(progress: real, width: int) returns (bar: string)
    ensures bar == Bar(progress, width)
  {
    var filled := FilledCells(progress, width);
    var empty := width - filled;
    bar := AppendCells("[", FullBlock, filled);
    bar := AppendCells(bar, LightShade, empty);
    bar := bar + "]";
  }
}
