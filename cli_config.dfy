/**
 * The config command's own logic (internal/cli/config.go): its config
 * location, the dotted-key setter, the range checker that reports every
 * failure, the named templates and the editor allowlist. Go's
 * `time.ParseDuration` is the parameter `goParse`; `exec.LookPath` is the set
 * `onPath` of names it finds.
 */
module CliConfig {
  import opened Wrappers
  import opened GoLib
  import Configuration

  type Config = Configuration.Config

  // ----- location -----

  /** getConfigDir: `<config home>/pomodux`. */
  function GetConfigDir(env: Env): (r: Result<string, Configuration.PathError>)
    ensures r.Err? <==> Configuration.ConfigHome(env).None?
    ensures r.Ok? ==> r.value == PathJoin(Configuration.ConfigHome(env).value, "pomodux")
  {
    match Configuration.ConfigHome(env)
    case None => Err(Configuration.NoHomeDir)
    case Some(home) => Ok(PathJoin(home, "pomodux"))
  }

  /** getConfigPath: the command layer names the very file the loader reads. */
  function GetConfigPath(env: Env): (r: Result<string, Configuration.PathError>)
    ensures r == Configuration.GetConfigPath(env)
  {
    match GetConfigDir(env)
    case Err(e) => Err(e)
    case Ok(dir) => Ok(PathJoin(dir, "config.yaml"))
  }

  // ----- setConfigValue -----

  datatype SetError =
    | InvalidTimerKey(key: string)
    | InvalidDuration(value: string)
    | UnknownTimerSetting(name: string)
    | LoggingKeyParts
    | InvalidLevel(value: string)
    | InvalidFormat(value: string)
    | InvalidOutput(value: string)
    | ShowCallerNotBool
    | UnknownLoggingSetting(name: string)
    | UnknownSection(name: string)

  const TimerSettingNames: set<string> :=
    {"default_work_duration", "default_break_duration", "default_long_break_duration"}

  const LoggingSettingNames: set<string> := {"level", "format", "output", "log_file", "show_caller"}

  /** The levels in the order the setter's loop tries them. */
  const LevelList: seq<string> := ["debug", "info", "warn", "error"]

  /** Whether the setter takes `value` for the logging setting `setting`. */
  predicate LoggingAccepts(setting: string, value: string)
  {
    (setting == "level" && value in LevelList) ||
    (setting == "format" && value in {"text", "json"}) ||
    (setting == "output" && value in {"console", "file", "both"}) ||
    setting == "log_file" ||
    (setting == "show_caller" && value in {"true", "false"})
  }

  /** The record the setter produces for an accepted logging value. */
  function SetLogging(l: Configuration.LoggingSettings, setting: string, value: string): Configuration.LoggingSettings
  {
    if setting == "level" then l.(level := value)
    else if setting == "format" then l.(format := value)
    else if setting == "output" then l.(output := value)
    else if setting == "log_file" then l.(logFile := value)
    else l.(showCaller := value == "true")
  }

  /** The record the setter produces for a parsed timer duration. */
  function SetTimer(t: Configuration.TimerSettings, setting: string, d: int): Configuration.TimerSettings
  {
    if setting == "default_work_duration" then t.(workDuration := d)
    else if setting == "default_break_duration" then t.(breakDuration := d)
    else t.(longBreakDuration := d)
  }

  /**
   * setConfigValue as a value: the updated record, or the error it returns
   * before assigning anything.
   */
  function Set(cfg: Config, key: string, value: string, goParse: string -> Option<int>): (r: Result<Config, SetError>)
    ensures var parts := Split(key, '.');
      && (parts[0] != "timer" && parts[0] != "logging" ==> r == Err(UnknownSection(parts[0])))
      && (parts[0] == "timer" && |parts| != 2 ==> r == Err(InvalidTimerKey(key)))
      && (parts[0] == "timer" && |parts| == 2 && goParse(value).None? ==> r == Err(InvalidDuration(value)))
      && (parts[0] == "timer" && r.Ok? ==>
            parts[1] in TimerSettingNames &&
            r.value == cfg.(timer := SetTimer(cfg.timer, parts[1], goParse(value).value)))
      && (parts[0] == "logging" && |parts| != 3 ==> r == Err(LoggingKeyParts))
      && (parts[0] == "logging" && |parts| == 3 ==>
            (r.Ok? <==> LoggingAccepts(parts[1], value)))
      && (parts[0] == "logging" && r.Ok? ==>
            r.value == cfg.(logging := SetLogging(cfg.logging, parts[1], value)))
  {
    var parts := Split(key, '.');
    if parts[0] == "timer" then
      if |parts| != 2 then Err(InvalidTimerKey(key))
      else match goParse(value)
        case None => Err(InvalidDuration(value))
        case Some(d) =>
          if parts[1] in TimerSettingNames then Ok(cfg.(timer := SetTimer(cfg.timer, parts[1], d)))
          else Err(UnknownTimerSetting(parts[1]))
    else if parts[0] == "logging" then
      if |parts| != 3 then Err(LoggingKeyParts)
      else if parts[1] == "level" then
        if value in LevelList then Ok(cfg.(logging := SetLogging(cfg.logging, "level", value)))
        else Err(InvalidLevel(value))
      else if parts[1] == "format" then
        if value in {"text", "json"} then Ok(cfg.(logging := SetLogging(cfg.logging, "format", value)))
        else Err(InvalidFormat(value))
      else if parts[1] == "output" then
        if value in {"console", "file", "both"} then Ok(cfg.(logging := SetLogging(cfg.logging, "output", value)))
        else Err(InvalidOutput(value))
      else if parts[1] == "log_file" then Ok(cfg.(logging := SetLogging(cfg.logging, "log_file", value)))
      else if parts[1] == "show_caller" then
        if value in {"true", "false"} then Ok(cfg.(logging := SetLogging(cfg.logging, "show_caller", value)))
        else Err(ShowCallerNotBool)
      else Err(UnknownLoggingSetting(parts[1]))
    else Err(UnknownSection(parts[0]))
  }

  /** `a.b` splits into `a` and `b` when neither holds a dot. */
  lemma TwoParts(a: string, b: string)
    requires '.' !in a && '.' !in b
    ensures Split(a + "." + b, '.') == [a, b]
  {
    assert a + "." + b == a + ['.'] + b;
    SplitPrefix(a, b, '.');
    SplitNoSep(b, '.');
  }

  lemma ThreeParts(a: string, b: string, c: string)
    requires '.' !in a && '.' !in b && '.' !in c
    ensures Split(a + "." + b + "." + c, '.') == [a, b, c]
  {
    assert a + "." + b + "." + c == a + ['.'] + (b + "." + c);
    SplitPrefix(a, b + "." + c, '.');
    TwoParts(b, c);
  }

  /**
   * `timer.<setting>`: the value is parsed before the name is looked at, and
   * an accepted key changes exactly the named duration.
   */
  lemma TimerKey(cfg: Config, setting: string, value: string, goParse: string -> Option<int>)
    requires '.' !in setting
    ensures goParse(value).None? ==> Set(cfg, "timer." + setting, value, goParse) == Err(InvalidDuration(value))
    ensures goParse(value).Some? ==>
              (Set(cfg, "timer." + setting, value, goParse).Ok? <==> setting in TimerSettingNames)
    ensures goParse(value).Some? && setting !in TimerSettingNames ==>
              Set(cfg, "timer." + setting, value, goParse) == Err(UnknownTimerSetting(setting))
    ensures Set(cfg, "timer." + setting, value, goParse).Ok? ==>
              var c := Set(cfg, "timer." + setting, value, goParse).value;
              var d := goParse(value).value;
              && c == cfg.(timer := c.timer)
              && c.timer.autoStartBreaks == cfg.timer.autoStartBreaks
              && c.timer.workDuration == (if setting == "default_work_duration" then d else cfg.timer.workDuration)
              && c.timer.breakDuration == (if setting == "default_break_duration" then d else cfg.timer.breakDuration)
              && c.timer.longBreakDuration ==
                   (if setting == "default_long_break_duration" then d else cfg.timer.longBreakDuration)
  {
    assert "timer." + setting == "timer" + "." + setting;
    TwoParts("timer", setting);
  }

  /** `logging.level` and every other two-part logging key are refused: three parts are required. */
  lemma LoggingTwoPartsRejected(cfg: Config, setting: string, value: string, goParse: string -> Option<int>)
    requires '.' !in setting
    ensures Set(cfg, "logging." + setting, value, goParse) == Err(LoggingKeyParts)
  {
    assert "logging." + setting == "logging" + "." + setting;
    TwoParts("logging", setting);
  }

  /**
   * `logging.<setting>.<anything>`: dispatched on the second part; the value
   * is taken exactly when it is one the setting allows, and then only that
   * field changes.
   */
  lemma LoggingKey(cfg: Config, setting: string, extra: string, value: string, goParse: string -> Option<int>)
    requires '.' !in setting && '.' !in extra
    ensures Set(cfg, "logging." + setting + "." + extra, value, goParse).Ok? <==> LoggingAccepts(setting, value)
    ensures setting !in LoggingSettingNames ==>
              Set(cfg, "logging." + setting + "." + extra, value, goParse) == Err(UnknownLoggingSetting(setting))
    ensures setting == "show_caller" && value !in {"true", "false"} ==>
              Set(cfg, "logging." + setting + "." + extra, value, goParse) == Err(ShowCallerNotBool)
    ensures Set(cfg, "logging." + setting + "." + extra, value, goParse).Ok? ==>
              var c := Set(cfg, "logging." + setting + "." + extra, value, goParse).value;
              && c == cfg.(logging := c.logging)
              && c.logging.level == (if setting == "level" then value else cfg.logging.level)
              && c.logging.format == (if setting == "format" then value else cfg.logging.format)
              && c.logging.output == (if setting == "output" then value else cfg.logging.output)
              && c.logging.logFile == (if setting == "log_file" then value else cfg.logging.logFile)
              && c.logging.showCaller == (if setting == "show_caller" then value == "true" else cfg.logging.showCaller)
  {
    assert "logging." + setting + "." + extra == "logging" + "." + setting + "." + extra;
    ThreeParts("logging", setting, extra);
  }

  /** The caller's configuration record, shared by reference, which setConfigValue assigns through. */
  class ConfigRef {
    var cfg: Config

    constructor (c: Config)
      ensures cfg == c
    {
      cfg := c;
    }

    /** setConfigValue: assigns the named field on success; on any error the record is untouched. */
    method SetConfigValue(key: string, value: string, goParse: string -> Option<int>) returns (r: Outcome<SetError>)
      modifies this
      ensures Set(old(cfg), key, value, goParse).Ok? ==>
                r == Pass && cfg == Set(old(cfg), key, value, goParse).value
      ensures Set(old(cfg), key, value, goParse).Err? ==>
                r == Fail(Set(old(cfg), key, value, goParse).error) && cfg == old(cfg)
    {
      var parts := Split(key, '.');
      if parts[0] == "timer" {
        if |parts| != 2 {
          return Fail(InvalidTimerKey(key));
        }
        var parsed := goParse(value);
        if parsed.None? {
          return Fail(InvalidDuration(value));
        }
        var d := parsed.value;
        if parts[1] == "default_work_duration" {
          cfg := cfg.(timer := cfg.timer.(workDuration := d));
        } else if parts[1] == "default_break_duration" {
          cfg := cfg.(timer := cfg.timer.(breakDuration := d));
        } else if parts[1] == "default_long_break_duration" {
          cfg := cfg.(timer := cfg.timer.(longBreakDuration := d));
        } else {
          return Fail(UnknownTimerSetting(parts[1]));
        }
      } else if parts[0] == "logging" {
        if |parts| != 3 {
          return Fail(LoggingKeyParts);
        }
        if parts[1] == "level" {
          var isValid := false;
          var k := 0;
          while k < |LevelList|
            invariant 0 <= k <= |LevelList|
            invariant isValid <==> value in LevelList[..k]
          {
            if value == LevelList[k] {
              isValid := true;
              assert value in LevelList[..k + 1];
              break;
            }
            assert LevelList[..k + 1] == LevelList[..k] + [LevelList[k]];
            k := k + 1;
          }
          assert LevelList[..|LevelList|] == LevelList;
          if !isValid {
            return Fail(InvalidLevel(value));
          }
          cfg := cfg.(logging := cfg.logging.(level := value));
        } else if parts[1] == "format" {
          if value != "text" && value != "json" {
            return Fail(InvalidFormat(value));
          }
          cfg := cfg.(logging := cfg.logging.(format := value));
        } else if parts[1] == "output" {
          if value != "console" && value != "file" && value != "both" {
            return Fail(InvalidOutput(value));
          }
          cfg := cfg.(logging := cfg.logging.(output := value));
        } else if parts[1] == "log_file" {
          cfg := cfg.(logging := cfg.logging.(logFile := value));
        } else if parts[1] == "show_caller" {
          if value == "true" {
            cfg := cfg.(logging := cfg.logging.(showCaller := true));
          } else if value == "false" {
            cfg := cfg.(logging := cfg.logging.(showCaller := false));
          } else {
            return Fail(ShowCallerNotBool);
          }
        } else {
          return Fail(UnknownLoggingSetting(parts[1]));
        }
      } else {
        return Fail(UnknownSection(parts[0]));
      }
      r := Pass;
    }
  }

  // ----- validateConfig -----

  /** The nine checks, in the order the checker makes them. */
  datatype RangeCheck =
    | WorkPositive | BreakPositive | LongBreakPositive
    | WorkAtLeastMinute | WorkAtMostFourHours
    | BreakAtLeastHalfMinute | BreakAtMostHalfHour
    | LongBreakAtLeastFiveMinutes | LongBreakAtMostTwoHours

  const RangeChecks: seq<RangeCheck> := [
    WorkPositive, BreakPositive, LongBreakPositive,
    WorkAtLeastMinute, WorkAtMostFourHours,
    BreakAtLeastHalfMinute, BreakAtMostHalfHour,
    LongBreakAtLeastFiveMinutes, LongBreakAtMostTwoHours]

  predicate Passes(k: RangeCheck, t: Configuration.TimerSettings)
  {
    match k
    case WorkPositive => t.workDuration > 0
    case BreakPositive => t.breakDuration > 0
    case LongBreakPositive => t.longBreakDuration > 0
    case WorkAtLeastMinute => t.workDuration >= Minute
    case WorkAtMostFourHours => t.workDuration <= 4 * Hour
    case BreakAtLeastHalfMinute => t.breakDuration >= 30 * Second
    case BreakAtMostHalfHour => t.breakDuration <= 30 * Minute
    case LongBreakAtLeastFiveMinutes => t.longBreakDuration >= 5 * Minute
    case LongBreakAtMostTwoHours => t.longBreakDuration <= 2 * Hour
  }

  /** The position of a check in the checker's order. */
  function Index(k: RangeCheck): (i: nat)
    ensures i < |RangeChecks| && RangeChecks[i] == k
  {
    match k
    case WorkPositive => 0
    case BreakPositive => 1
    case LongBreakPositive => 2
    case WorkAtLeastMinute => 3
    case WorkAtMostFourHours => 4
    case BreakAtLeastHalfMinute => 5
    case BreakAtMostHalfHour => 6
    case LongBreakAtLeastFiveMinutes => 7
    case LongBreakAtMostTwoHours => 8
  }

  /** The checks' messages, in the checker's order. */
  const Messages: seq<string> := [
    "default_work_duration must be positive",
    "default_break_duration must be positive",
    "default_long_break_duration must be positive",
    "default_work_duration should be at least 1 minute",
    "default_work_duration should not exceed 4 hours",
    "default_break_duration should be at least 30 seconds",
    "default_break_duration should not exceed 30 minutes",
    "default_long_break_duration should be at least 5 minutes",
    "default_long_break_duration should not exceed 2 hours"]

  function Message(k: RangeCheck): string
  {
    Messages[Index(k)]
  }

  /** What one check contributes to the report: its message when it fails. */
  function Report(c: RangeCheck, t: Configuration.TimerSettings): seq<string>
  {
    if Passes(c, t) then [] else [Message(c)]
  }

  /** The messages of the failing checks among the first `n` of `checks`, in order. */
  function Reports(checks: seq<RangeCheck>, n: nat, t: Configuration.TimerSettings): seq<string>
    requires n <= |checks|
  {
    if n == 0 then []
    else Reports(checks, n - 1, t) + Report(checks[n - 1], t)
  }

  /** A message is reported exactly when some check with that message fails. */
  lemma {:induction false} ReportsMembers(checks: seq<RangeCheck>, n: nat, t: Configuration.TimerSettings, m: string)
    requires n <= |checks|
    ensures m in Reports(checks, n, t) <==>
              exists j :: 0 <= j < n && !Passes(checks[j], t) && Message(checks[j]) == m
  {
    if n > 0 {
      ReportsMembers(checks, n - 1, t, m);
      assert m in Reports(checks, n, t) <==> m in Reports(checks, n - 1, t) || m in Report(checks[n - 1], t);
      if m in Report(checks[n - 1], t) {
        assert !Passes(checks[n - 1], t) && Message(checks[n - 1]) == m;
      }
    }
  }

  /** Nothing is reported exactly when every check passes, and each check reports at most one message. */
  lemma {:induction false} ReportsEmpty(checks: seq<RangeCheck>, n: nat, t: Configuration.TimerSettings)
    requires n <= |checks|
    ensures Reports(checks, n, t) == [] <==> forall j :: 0 <= j < n ==> Passes(checks[j], t)
    ensures |Reports(checks, n, t)| <= n
  {
    if n > 0 {
      ReportsEmpty(checks, n - 1, t);
    }
  }

  /** No two checks share a message: the nine messages have nine different lengths. */
  lemma MessagesDistinct(a: RangeCheck, b: RangeCheck)
    requires Message(a) == Message(b)
    ensures a == b
  {
    var m := Messages;
    assert |m[0]| == 38 && |m[1]| == 39 && |m[2]| == 44 && |m[3]| == 49 && |m[4]| == 47 &&
           |m[5]| == 52 && |m[6]| == 51 && |m[7]| == 56 && |m[8]| == 53;
  }

  /** The report validateConfig builds: every range check, in order. */
  function Failures(t: Configuration.TimerSettings): seq<string>
  {
    Reports(RangeChecks, |RangeChecks|, t)
  }

  /** The full report, one check after another. */
  lemma FailuresUnrolled(t: Configuration.TimerSettings)
    ensures Failures(t) ==
              Report(WorkPositive, t) + Report(BreakPositive, t) + Report(LongBreakPositive, t) +
              Report(WorkAtLeastMinute, t) + Report(WorkAtMostFourHours, t) +
              Report(BreakAtLeastHalfMinute, t) + Report(BreakAtMostHalfHour, t) +
              Report(LongBreakAtLeastFiveMinutes, t) + Report(LongBreakAtMostTwoHours, t)
  {
    ReportsNine(RangeChecks, t);
  }

  lemma ReportsNine(c: seq<RangeCheck>, t: Configuration.TimerSettings)
    requires |c| == 9
    ensures Reports(c, 9, t) ==
              Report(c[0], t) + Report(c[1], t) + Report(c[2], t) + Report(c[3], t) + Report(c[4], t) +
              Report(c[5], t) + Report(c[6], t) + Report(c[7], t) + Report(c[8], t)
  {
    var r := Report(c[0], t);
    assert Reports(c, 1, t) == r;
    r := r + Report(c[1], t);
    assert Reports(c, 2, t) == r;
    r := r + Report(c[2], t);
    assert Reports(c, 3, t) == r;
    r := r + Report(c[3], t);
    assert Reports(c, 4, t) == r;
    r := r + Report(c[4], t);
    assert Reports(c, 5, t) == r;
    r := r + Report(c[5], t);
    assert Reports(c, 6, t) == r;
    r := r + Report(c[6], t);
    assert Reports(c, 7, t) == r;
    r := r + Report(c[7], t);
    assert Reports(c, 8, t) == r;
    r := r + Report(c[8], t);
    assert Reports(c, 9, t) == r;
  }

  /** The checker's contract: it passes exactly on the three ranges, and reports every failing check. */
  lemma FailuresMeaning(t: Configuration.TimerSettings)
    ensures Failures(t) == [] <==>
              Minute <= t.workDuration <= 4 * Hour &&
              30 * Second <= t.breakDuration <= 30 * Minute &&
              5 * Minute <= t.longBreakDuration <= 2 * Hour
    ensures forall j :: 0 <= j < |RangeChecks| ==>
              (Message(RangeChecks[j]) in Failures(t) <==> !Passes(RangeChecks[j], t))
    ensures |Failures(t)| <= |RangeChecks|
  {
    ReportsEmpty(RangeChecks, |RangeChecks|, t);
    AllPass(t);
    forall i | 0 <= i < |RangeChecks|
      ensures Message(RangeChecks[i]) in Failures(t) <==> !Passes(RangeChecks[i], t)
    {
      ReportsMembers(RangeChecks, |RangeChecks|, t, Message(RangeChecks[i]));
      if Message(RangeChecks[i]) in Failures(t) {
        var j :| 0 <= j < |RangeChecks| && !Passes(RangeChecks[j], t) && Message(RangeChecks[j]) == Message(RangeChecks[i]);
        MessagesDistinct(RangeChecks[j], RangeChecks[i]);
      }
    }
  }

  /** Every check passes exactly on the three ranges: the positivity checks are implied by the minimums. */
  lemma AllPass(t: Configuration.TimerSettings)
    ensures (forall j :: 0 <= j < |RangeChecks| ==> Passes(RangeChecks[j], t)) <==>
              Minute <= t.workDuration <= 4 * Hour &&
              30 * Second <= t.breakDuration <= 30 * Minute &&
              5 * Minute <= t.longBreakDuration <= 2 * Hour
  {
    if Minute <= t.workDuration <= 4 * Hour &&
       30 * Second <= t.breakDuration <= 30 * Minute &&
       5 * Minute <= t.longBreakDuration <= 2 * Hour {
      forall j | 0 <= j < |RangeChecks|
        ensures Passes(RangeChecks[j], t)
      {
      }
    }
    if forall j :: 0 <= j < |RangeChecks| ==> Passes(RangeChecks[j], t) {
      assert Passes(RangeChecks[3], t) && Passes(RangeChecks[4], t) && Passes(RangeChecks[5], t) &&
             Passes(RangeChecks[6], t) && Passes(RangeChecks[7], t) && Passes(RangeChecks[8], t);
    }
  }

  const ValidationHeader := "configuration validation errors:\n  "

  /** The checker's verdict on a list of failure messages. */
  function Verdict(errors: seq<string>): (r: Outcome<string>)
    ensures r == Pass <==> errors == []
  {
    if |errors| > 0 then Fail(ValidationHeader + Join(errors, "\n  ")) else Pass
  }

  /** One check of validateConfig, as the report sees it: the list grows by that check's report. */
  lemma Appended(before: seq<string>, after: seq<string>, c: RangeCheck, t: Configuration.TimerSettings)
    requires after == if Passes(c, t) then before else before + [Message(c)]
    ensures after == before + Report(c, t)
  {
  }

  /** validateConfig: every check in turn, each failure appended to the list. */
  method ValidateConfig(cfg: Config) returns (r: Outcome<string>)
    ensures r == Verdict(Failures(cfg.timer))
  {
    var t := cfg.timer;
    var errors: seq<string> := [];
    ghost var before := errors;
    ghost var reported: seq<string> := [];
    before := errors;
    if !Passes(WorkPositive, t) {
      errors := errors + [Message(WorkPositive)];
    }
    Appended(before, errors, WorkPositive, t);
    reported := Report(WorkPositive, t);
    assert errors == reported;
    before := errors;
    if !Passes(BreakPositive, t) {
      errors := errors + [Message(BreakPositive)];
    }
    Appended(before, errors, BreakPositive, t);
    reported := reported + Report(BreakPositive, t);
    assert errors == reported;
    before := errors;
    if !Passes(LongBreakPositive, t) {
      errors := errors + [Message(LongBreakPositive)];
    }
    Appended(before, errors, LongBreakPositive, t);
    reported := reported + Report(LongBreakPositive, t);
    assert errors == reported;
    before := errors;
    if !Passes(WorkAtLeastMinute, t) {
      errors := errors + [Message(WorkAtLeastMinute)];
    }
    Appended(before, errors, WorkAtLeastMinute, t);
    reported := reported + Report(WorkAtLeastMinute, t);
    assert errors == reported;
    before := errors;
    if !Passes(WorkAtMostFourHours, t) {
      errors := errors + [Message(WorkAtMostFourHours)];
    }
    Appended(before, errors, WorkAtMostFourHours, t);
    reported := reported + Report(WorkAtMostFourHours, t);
    assert errors == reported;
    before := errors;
    if !Passes(BreakAtLeastHalfMinute, t) {
      errors := errors + [Message(BreakAtLeastHalfMinute)];
    }
    Appended(before, errors, BreakAtLeastHalfMinute, t);
    reported := reported + Report(BreakAtLeastHalfMinute, t);
    assert errors == reported;
    before := errors;
    if !Passes(BreakAtMostHalfHour, t) {
      errors := errors + [Message(BreakAtMostHalfHour)];
    }
    Appended(before, errors, BreakAtMostHalfHour, t);
    reported := reported + Report(BreakAtMostHalfHour, t);
    assert errors == reported;
    before := errors;
    if !Passes(LongBreakAtLeastFiveMinutes, t) {
      errors := errors + [Message(LongBreakAtLeastFiveMinutes)];
    }
    Appended(before, errors, LongBreakAtLeastFiveMinutes, t);
    reported := reported + Report(LongBreakAtLeastFiveMinutes, t);
    assert errors == reported;
    before := errors;
    if !Passes(LongBreakAtMostTwoHours, t) {
      errors := errors + [Message(LongBreakAtMostTwoHours)];
    }
    Appended(before, errors, LongBreakAtMostTwoHours, t);
    reported := reported + Report(LongBreakAtMostTwoHours, t);
    assert errors == reported;
    FailuresUnrolled(t);
    assert errors == Failures(cfg.timer);
    r := Verdict(errors);
  }

  /** A non-positive work duration is reported twice: as not positive, and as below its minimum. */
  lemma NonPositiveReportedTwice(t: Configuration.TimerSettings)
    requires t.workDuration <= 0
    ensures Message(WorkPositive) in Failures(t)
    ensures Message(WorkAtLeastMinute) in Failures(t)
  {
    FailuresMeaning(t);
    assert RangeChecks[0] == WorkPositive && RangeChecks[3] == WorkAtLeastMinute;
  }

  // ----- templates -----

  /** The key bindings every template carries. */
  const TemplateKeyBindings: map<string, string> := Configuration.DefaultKeyBindings

  /** A template: the given durations, no auto-start, the stock TUI and notifications, and zero-valued plugin and logging sections. */
  function Template(work: int, brk: int, long: int): Config
  {
    Configuration.Config(
      Configuration.TimerSettings(work, brk, long, false),
      Configuration.TuiSettings("default", TemplateKeyBindings),
      Configuration.NotificationSettings(true, false, "Timer completed!"),
      Configuration.PluginSettings(""),
      Configuration.LoggingSettings("", "", "", "", false))
  }

  const Productivity := Template(25 * Minute, 5 * Minute, 15 * Minute)
  const ShortBreaks := Template(45 * Minute, 3 * Minute, 10 * Minute)
  const LongBreaks := Template(90 * Minute, 15 * Minute, 30 * Minute)

  const TemplateNames: set<string> := {"default", "productivity", "short-breaks", "long-breaks"}

  datatype TemplateError = UnknownTemplate(name: string)

  /** The template command's switch on the name. */
  function TemplateByName(name: string, env: Env): (r: Result<Config, TemplateError>)
    ensures r.Err? <==> name !in TemplateNames
    ensures r.Err? ==> r.error == UnknownTemplate(name)
    ensures name == "default" ==> r == Ok(Configuration.DefaultConfig(env))
    ensures name == "productivity" ==> r == Ok(Productivity)
    ensures name == "short-breaks" ==> r == Ok(ShortBreaks)
    ensures name == "long-breaks" ==> r == Ok(LongBreaks)
  {
    if name == "default" then Ok(Configuration.DefaultConfig(env))
    else if name == "productivity" then Ok(Productivity)
    else if name == "short-breaks" then Ok(ShortBreaks)
    else if name == "long-breaks" then Ok(LongBreaks)
    else Err(UnknownTemplate(name))
  }

  /** Every named template passes the range checker and the loader's validation. */
  lemma TemplatesValid(name: string, env: Env)
    requires name in TemplateNames
    ensures Failures(TemplateByName(name, env).value.timer) == []
    ensures Configuration.Validate(TemplateByName(name, env).value) == Pass
  {
    FailuresMeaning(TemplateByName(name, env).value.timer);
  }

  // ----- isSafeExecutable -----

  const SafeEditors: seq<string> := [
    "vi", "vim", "nano", "emacs", "code", "subl", "atom",
    "gedit", "kate", "mousepad", "leafpad", "geany"]

  /** isSafeExecutable: an allowlisted name; otherwise a bare name that the path search finds. */
  method IsSafeExecutable(editor: string, onPath: set<string>) returns (safe: bool)
    ensures safe <==> editor in SafeEditors || ('/' !in editor && editor in onPath)
  {
    var i := 0;
    while i < |SafeEditors|
      invariant 0 <= i <= |SafeEditors|
      invariant editor !in SafeEditors[..i]
    {
      if editor == SafeEditors[i] {
        return true;
      }
      assert SafeEditors[..i + 1] == SafeEditors[..i] + [SafeEditors[i]];
      i := i + 1;
    }
    assert SafeEditors[..i] == SafeEditors;
    ContainsChar(editor, '/');
    if Contains(editor, "/") {
      return false;
    }
    return editor in onPath;
  }
}
