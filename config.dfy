/**
 * The application configuration (internal/config/config.go): the record, its
 * defaults, where it lives, how a file's contents are laid over the defaults,
 * and the guard chain that accepts or rejects the result.
 */
module Configuration {
  import opened Wrappers
  import opened GoLib

  datatype TimerSettings = TimerSettings(
    workDuration: int,
    breakDuration: int,
    longBreakDuration: int,
    autoStartBreaks: bool)

  datatype TuiSettings = TuiSettings(theme: string, keyBindings: map<string, string>)

  datatype NotificationSettings = NotificationSettings(enabled: bool, sound: bool, message: string)

  datatype PluginSettings = PluginSettings(directory: string)

  datatype LoggingSettings = LoggingSettings(
    level: string,
    format: string,
    output: string,
    logFile: string,
    showCaller: bool)

  datatype Config = Config(
    timer: TimerSettings,
    tui: TuiSettings,
    notifications: NotificationSettings,
    plugins: PluginSettings,
    logging: LoggingSettings)

  const DefaultKeyBindings: map<string, string> :=
    map["start" := "s", "stop" := "q", "pause" := "p", "resume" := "r"]

  /** `$XDG_CONFIG_HOME` when set and non-empty, else `<home>/.config`; None without a home directory. */
  function ConfigHome(env: Env): (r: Option<string>)
    ensures Getenv(env, "XDG_CONFIG_HOME") != "" ==> r == Some(Getenv(env, "XDG_CONFIG_HOME"))
    ensures Getenv(env, "XDG_CONFIG_HOME") == "" ==>
              r == (if env.home.Some? then Some(PathJoin(env.home.value, ".config")) else None)
  {
    var configHome := Getenv(env, "XDG_CONFIG_HOME");
    if configHome != "" then Some(configHome)
    else if env.home.None? then None
    else Some(PathJoin(env.home.value, ".config"))
  }

  /** defaultPluginsDir: `<config home>/pomodux/plugins`, or "./plugins" when there is no home directory. */
  function DefaultPluginsDir(env: Env): (dir: string)
    ensures dir != ""
    ensures ConfigHome(env).Some? ==> dir == PathJoin(PathJoin(ConfigHome(env).value, "pomodux"), "plugins")
    ensures ConfigHome(env).None? ==> dir == "./plugins"
  {
    match ConfigHome(env)
    case None => "./plugins"
    case Some(home) => PathJoin(PathJoin(home, "pomodux"), "plugins")
  }

  /**
   * DefaultConfig: 25-minute work, 5-minute break and 15-minute long break
   * without auto-start, the default theme and the four key bindings,
   * notifications on, the default plugins directory, and info/text/file logging.
   */
  function DefaultConfig(env: Env): (c: Config)
    ensures c.timer == TimerSettings(25 * Minute, 5 * Minute, 15 * Minute, false)
    ensures c.tui.theme == "default" && c.tui.keyBindings == DefaultKeyBindings
    ensures c.plugins.directory == DefaultPluginsDir(env) && c.plugins.directory != ""
    ensures c.logging.level == "info" && c.logging.format == "text" && c.logging.output == "file"
  {
    Config(
      TimerSettings(25 * Minute, 5 * Minute, 15 * Minute, false),
      TuiSettings("default", DefaultKeyBindings),
      NotificationSettings(true, false, "Timer completed!"),
      PluginSettings(DefaultPluginsDir(env)),
      LoggingSettings("info", "text", "file", "", false))
  }

  datatype PathError = NoHomeDir

  /** getConfigPath: `<config home>/pomodux/config.yaml`. */
  function GetConfigPath(env: Env): (r: Result<string, PathError>)
    ensures r.Err? <==> ConfigHome(env).None?
    ensures r.Ok? ==> r.value == PathJoin(PathJoin(ConfigHome(env).value, "pomodux"), "config.yaml")
  {
    match ConfigHome(env)
    case None => Err(NoHomeDir)
    case Some(home) => Ok(PathJoin(PathJoin(home, "pomodux"), "config.yaml"))
  }

  // ----- validation -----

  datatype ValidationError =
    | WorkNotPositive
    | BreakNotPositive
    | LongBreakNotPositive
    | InvalidLevel(level: string)
    | InvalidFormat(format: string)
    | InvalidOutput(output: string)

  const ValidLevels: set<string> := {"debug", "info", "warn", "error"}
  const ValidFormats: set<string> := {"text", "json"}
  const ValidOutputs: set<string> := {"console", "file", "both"}

  /** A logging value passes when it is empty or one of its allowed values. */
  predicate Allowed(value: string, allowed: set<string>)
  {
    value == "" || value in allowed
  }

  /** Validate: the first failing guard, in source order; only timer and logging are inspected. */
  function Validate(c: Config): (r: Outcome<ValidationError>)
    ensures r == Pass <==>
              c.timer.workDuration > 0 && c.timer.breakDuration > 0 && c.timer.longBreakDuration > 0 &&
              Allowed(c.logging.level, ValidLevels) && Allowed(c.logging.format, ValidFormats) &&
              Allowed(c.logging.output, ValidOutputs)
    ensures c.timer.workDuration <= 0 ==> r == Fail(WorkNotPositive)
    ensures c.timer.workDuration > 0 && c.timer.breakDuration <= 0 ==> r == Fail(BreakNotPositive)
    ensures c.timer.workDuration > 0 && c.timer.breakDuration > 0 && c.timer.longBreakDuration <= 0 ==>
              r == Fail(LongBreakNotPositive)
    ensures c.timer.workDuration > 0 && c.timer.breakDuration > 0 && c.timer.longBreakDuration > 0 &&
            !Allowed(c.logging.level, ValidLevels) ==>
              r == Fail(InvalidLevel(c.logging.level))
    ensures c.timer.workDuration > 0 && c.timer.breakDuration > 0 && c.timer.longBreakDuration > 0 &&
            Allowed(c.logging.level, ValidLevels) && !Allowed(c.logging.format, ValidFormats) ==>
              r == Fail(InvalidFormat(c.logging.format))
    ensures c.timer.workDuration > 0 && c.timer.breakDuration > 0 && c.timer.longBreakDuration > 0 &&
            Allowed(c.logging.level, ValidLevels) && Allowed(c.logging.format, ValidFormats) &&
            !Allowed(c.logging.output, ValidOutputs) ==>
              r == Fail(InvalidOutput(c.logging.output))
    ensures r.Fail? && r.error.InvalidLevel? ==> r.error.level == c.logging.level
    ensures r.Fail? && r.error.InvalidFormat? ==>
              r.error.format == c.logging.format && Allowed(c.logging.level, ValidLevels)
    ensures r.Fail? && r.error.InvalidOutput? ==>
              r.error.output == c.logging.output &&
              Allowed(c.logging.level, ValidLevels) && Allowed(c.logging.format, ValidFormats)
    ensures r.Fail? && !r.error.WorkNotPositive? && !r.error.BreakNotPositive? &&
            !r.error.LongBreakNotPositive? ==>
              c.timer.workDuration > 0 && c.timer.breakDuration > 0 && c.timer.longBreakDuration > 0
  {
    if c.timer.workDuration <= 0 then Fail(WorkNotPositive)
    else if c.timer.breakDuration <= 0 then Fail(BreakNotPositive)
    else if c.timer.longBreakDuration <= 0 then Fail(LongBreakNotPositive)
    else if !Allowed(c.logging.level, ValidLevels) then Fail(InvalidLevel(c.logging.level))
    else if !Allowed(c.logging.format, ValidFormats) then Fail(InvalidFormat(c.logging.format))
    else if !Allowed(c.logging.output, ValidOutputs) then Fail(InvalidOutput(c.logging.output))
    else Pass
  }

  /** The defaults pass validation, whatever the environment. */
  lemma DefaultConfigValid(env: Env)
    ensures Validate(DefaultConfig(env)) == Pass
    ensures DefaultConfig(env).plugins.directory != ""
  {
  }

  /** Any non-positive duration is rejected, and the work duration is checked first. */
  lemma NonPositiveRejected(c: Config)
    requires c.timer.workDuration <= 0 || c.timer.breakDuration <= 0 || c.timer.longBreakDuration <= 0
    ensures Validate(c).Fail?
    ensures Validate(c).error in {WorkNotPositive, BreakNotPositive, LongBreakNotPositive}
  {
  }

  /** The TUI, notification and plugin sections never affect validation: an empty theme passes. */
  lemma ValidateIgnoresOtherSections(c: Config, tui: TuiSettings, n: NotificationSettings, p: PluginSettings)
    ensures Validate(c.(tui := tui, notifications := n, plugins := p)) == Validate(c)
  {
  }

  // ----- loading -----

  /**
   * A decoded configuration file: each field the file sets, and the key
   * bindings it lists (merged into the default map).
   */
  datatype Overlay = Overlay(
    workDuration: Option<int>,
    breakDuration: Option<int>,
    longBreakDuration: Option<int>,
    autoStartBreaks: Option<bool>,
    theme: Option<string>,
    keyBindings: map<string, string>,
    enabled: Option<bool>,
    sound: Option<bool>,
    message: Option<string>,
    directory: Option<string>,
    level: Option<string>,
    format: Option<string>,
    output: Option<string>,
    logFile: Option<string>,
    showCaller: Option<bool>)

  /** A file that sets nothing. */
  const EmptyOverlay := Overlay(None, None, None, None, None, map[], None, None, None, None, None, None, None, None, None)

  function Or<T>(o: Option<T>, d: T): T
  {
    if o.Some? then o.value else d
  }

  /** Decoding onto an existing record: fields the file sets change, the rest keep their values. */
  function Apply(base: Config, o: Overlay): Config
  {
    Config(
      TimerSettings(
        Or(o.workDuration, base.timer.workDuration),
        Or(o.breakDuration, base.timer.breakDuration),
        Or(o.longBreakDuration, base.timer.longBreakDuration),
        Or(o.autoStartBreaks, base.timer.autoStartBreaks)),
      TuiSettings(Or(o.theme, base.tui.theme), base.tui.keyBindings + o.keyBindings),
      NotificationSettings(
        Or(o.enabled, base.notifications.enabled),
        Or(o.sound, base.notifications.sound),
        Or(o.message, base.notifications.message)),
      PluginSettings(Or(o.directory, base.plugins.directory)),
      LoggingSettings(
        Or(o.level, base.logging.level),
        Or(o.format, base.logging.format),
        Or(o.output, base.logging.output),
        Or(o.logFile, base.logging.logFile),
        Or(o.showCaller, base.logging.showCaller)))
  }

  /** The defaults with the file laid over them, and an empty plugins directory replaced by the default one. */
  function FillDefaults(env: Env, o: Overlay): (c: Config)
    ensures c.plugins.directory != ""
    ensures o.directory.Some? && o.directory.value != "" ==> c.plugins.directory == o.directory.value
    ensures o.directory.None? || o.directory == Some("") ==> c.plugins.directory == DefaultPluginsDir(env)
  {
    var c := Apply(DefaultConfig(env), o);
    if c.plugins.directory == "" then c.(plugins := PluginSettings(DefaultPluginsDir(env))) else c
  }

  /** What reading a configuration file finds. */
  datatype ConfigSource = Missing | Unreadable | Unparsable | Parsed(overlay: Overlay)

  datatype LoadError = NoConfigPath | ReadFailed | ParseFailed | Invalid(error: ValidationError)

  /** The part Load and LoadFromPath share once the file has been decoded. */
  function Finish(env: Env, o: Overlay): (r: Result<Config, LoadError>)
    ensures r.Ok? <==> Validate(FillDefaults(env, o)) == Pass
    ensures r.Ok? ==> r.value == FillDefaults(env, o)
    ensures r.Err? ==> r == Err(Invalid(Validate(FillDefaults(env, o)).error))
  {
    var c := FillDefaults(env, o);
    match Validate(c)
    case Pass => Ok(c)
    case Fail(e) => Err(Invalid(e))
  }

  /** Load: the default location; a missing file yields the defaults (which are also written out). */
  function Load(env: Env, src: ConfigSource): (r: Result<Config, LoadError>)
    ensures ConfigHome(env).None? ==> r == Err(NoConfigPath)
    ensures ConfigHome(env).Some? && src.Missing? ==> r == Ok(DefaultConfig(env))
    ensures ConfigHome(env).Some? && src.Unreadable? ==> r == Err(ReadFailed)
    ensures ConfigHome(env).Some? && src.Unparsable? ==> r == Err(ParseFailed)
    ensures ConfigHome(env).Some? && src.Parsed? ==> r == Finish(env, src.overlay)
    ensures r.Ok? ==> Validate(r.value) == Pass && r.value.plugins.directory != ""
  {
    if GetConfigPath(env).Err? then Err(NoConfigPath)
    else match src
      case Missing => Ok(DefaultConfig(env))
      case Unreadable => Err(ReadFailed)
      case Unparsable => Err(ParseFailed)
      case Parsed(o) => Finish(env, o)
  }

  /** LoadFromPath: a given file, which must exist. */
  function LoadFromPath(env: Env, src: ConfigSource): (r: Result<Config, LoadError>)
    ensures src.Missing? || src.Unreadable? ==> r == Err(ReadFailed)
    ensures src.Unparsable? ==> r == Err(ParseFailed)
    ensures src.Parsed? ==> r == Finish(env, src.overlay)
    ensures r.Ok? ==> Validate(r.value) == Pass && r.value.plugins.directory != ""
  {
    match src
    case Missing => Err(ReadFailed)
    case Unreadable => Err(ReadFailed)
    case Unparsable => Err(ParseFailed)
    case Parsed(o) => Finish(env, o)
  }

  /** Whatever either loader returns has passed validation and has a plugins directory. */
  lemma LoadedConfigValid(env: Env, src: ConfigSource)
    ensures Load(env, src).Ok? ==> Validate(Load(env, src).value) == Pass
    ensures Load(env, src).Ok? ==> Load(env, src).value.plugins.directory != ""
    ensures LoadFromPath(env, src).Ok? ==> Validate(LoadFromPath(env, src).value) == Pass
    ensures LoadFromPath(env, src).Ok? ==> LoadFromPath(env, src).value.plugins.directory != ""
  {
  }

  /** A missing default file means the defaults; a missing given file is an error. */
  lemma MissingFile(env: Env)
    ensures ConfigHome(env).Some? ==> Load(env, Missing) == Ok(DefaultConfig(env))
    ensures LoadFromPath(env, Missing) == Err(ReadFailed)
  {
  }

  /** Fields the file does not set keep their default values. */
  lemma AbsentFieldsKeepDefaults(env: Env, o: Overlay)
    ensures FillDefaults(env, EmptyOverlay) == DefaultConfig(env)
    ensures o.workDuration.None? ==> FillDefaults(env, o).timer.workDuration == 25 * Minute
    ensures o.breakDuration.None? ==> FillDefaults(env, o).timer.breakDuration == 5 * Minute
    ensures o.longBreakDuration.None? ==> FillDefaults(env, o).timer.longBreakDuration == 15 * Minute
    ensures o.level.None? ==> FillDefaults(env, o).logging.level == "info"
    ensures o.theme.None? ==> FillDefaults(env, o).tui.theme == "default"
    ensures forall k :: k in DefaultKeyBindings && k !in o.keyBindings ==>
              k in FillDefaults(env, o).tui.keyBindings &&
              FillDefaults(env, o).tui.keyBindings[k] == DefaultKeyBindings[k]
  {
    assert DefaultKeyBindings + map[] == DefaultKeyBindings;
  }
}
