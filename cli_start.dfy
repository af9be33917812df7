/**
 * The start command's argument handling (internal/cli/start.go): its duration
 * parser, the default duration, and its own copies of the wording helpers.
 * Go's `time.ParseDuration` is the parameter `goParse`: the duration it
 * accepts a string as, or None.
 */
module CliStart {
  import opened Wrappers
  import opened GoLib
  import CliUtils

  datatype ParseError = Unparsable(input: string)

  /**
   * parseDuration: lower-case, then Go duration syntax, then a whole number of
   * minutes; the product is an int64 multiplication and wraps.
   */
  function ParseDuration(s: string, goParse: string -> Option<int>): (r: Result<int, ParseError>)
    ensures goParse(ToLower(s)).Some? ==> r == Ok(goParse(ToLower(s)).value)
    ensures goParse(ToLower(s)).None? && Atoi(ToLower(s)).Some? ==>
              r == Ok(WrapInt64(Atoi(ToLower(s)).value * Minute))
    ensures r.Err? <==> goParse(ToLower(s)).None? && Atoi(ToLower(s)).None?
    ensures r.Err? ==> r.error == Unparsable(ToLower(s))
  {
    var low := ToLower(s);
    match goParse(low)
    case Some(d) => Ok(d)
    case None =>
      match Atoi(low)
      case Some(minutes) => Ok(WrapInt64(minutes * Minute))
      case None => Err(Unparsable(low))
  }

  /** Case never matters: the input is lower-cased before either parser sees it. */
  lemma ParseIgnoresCase(s: string, goParse: string -> Option<int>)
    ensures ParseDuration(s, goParse) == ParseDuration(ToLower(s), goParse)
  {
    ToLowerIdempotent(s);
  }

  /**
   * A bare integer the duration syntax rejects is read back as that many
   * minutes, wrapped to int64.
   */
  lemma MinutesRoundTrip(n: int, goParse: string -> Option<int>)
    requires IsInt64(n)
    requires goParse(IntToString(n)).None?
    ensures ParseDuration(IntToString(n), goParse) == Ok(WrapInt64(n * Minute))
    ensures IsInt64(n * Minute) ==> ParseDuration(IntToString(n), goParse) == Ok(n * Minute)
  {
    var s := IntToString(n);
    assert ToLower(s) == s by {
      forall i | 0 <= i < |s|
        ensures LowerChar(s[i]) == s[i]
      {
        assert s[i] == '-' || IsDigit(s[i]);
      }
    }
    AtoiIntToString(n);
  }

  /**
   * A minute count whose nanoseconds lie between 2^63 and 2^64 wraps round to
   * a negative duration; 153722868 minutes is one such count.
   */
  lemma MinutesOverflow(n: int, goParse: string -> Option<int>)
    requires IsInt64(n) && MaxInt64 < n * Minute < 0x1_0000_0000_0000_0000
    requires goParse(IntToString(n)).None?
    ensures ParseDuration(IntToString(n), goParse) == Ok(n * Minute - 0x1_0000_0000_0000_0000)
    ensures ParseDuration(IntToString(n), goParse).value < 0
  {
    MinutesRoundTrip(n, goParse);
    assert 0x1_0000_0000_0000_0000 <= n * Minute - MinInt64 < 2 * 0x1_0000_0000_0000_0000;
  }

  /** start with no argument runs 25 minutes; otherwise the one argument is parsed. */
  function StartDuration(args: seq<string>, goParse: string -> Option<int>): (r: Result<int, ParseError>)
    requires |args| <= 1
    ensures |args| == 0 ==> r == Ok(25 * Minute)
    ensures |args| == 1 ==> r == ParseDuration(args[0], goParse)
  {
    if |args| == 0 then Ok(25 * Minute) else ParseDuration(args[0], goParse)
  }

  /** plural (this file's copy). */
  function Plural(n: int): (s: string)
    ensures s == "" <==> n == 1
    ensures s != "" ==> s == "s"
  {
    if n == 1 then "" else "s"
  }

  function Count(n: int, unit: string): string
  {
    IntToString(n) + " " + unit + Plural(n)
  }

  /**
   * formatDuration (this file's copy): no negative case, so a negative span
   * falls to the minutes branch and is printed with truncated, negative parts.
   * The whole counts are GoDiv, as Go's float64 conversions give between
   * about -4369 and 4096 hours.
   */
  function FormatDuration(d: int): (r: string)
    ensures d >= Hour ==> Count(d / Hour, "hour") <= r
    ensures d < Hour ==> Count(GoDiv(d, Minute), "minute") <= r
  {
    if d >= Hour then
      var hours := GoDiv(d, Hour);
      var minutes := GoMod(GoDiv(d, Minute), 60);
      if minutes == 0 then Count(hours, "hour")
      else Count(hours, "hour") + " " + Count(minutes, "minute")
    else
      var minutes := GoDiv(d, Minute);
      var seconds := GoMod(GoDiv(d, Second), 60);
      if seconds == 0 then Count(minutes, "minute")
      else Count(minutes, "minute") + " " + Count(seconds, "second")
  }

  /** On every non-negative span this copy agrees with the utils.go copy. */
  lemma AgreesWithUtils(d: int)
    requires d >= 0
    ensures FormatDuration(d) == CliUtils.FormatDuration(d)
  {
    assert forall n: int, u: string :: Count(n, u) == CliUtils.Count(n, u);
  }

  /** ... and on a negative span it does not: minus five minutes is not "Completed". */
  lemma NegativeDiffers()
    ensures FormatDuration(-5 * Minute) == "-5 minutes"
    ensures CliUtils.FormatDuration(-5 * Minute) == "Completed"
  {
    assert GoDiv(-5 * Minute, Minute) == -5;
    assert GoMod(GoDiv(-5 * Minute, Second), 60) == 0;
    assert IntToString(-5) == "-5";
  }
}
