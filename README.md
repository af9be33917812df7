# pomodux core in Dafny

pomodux is a terminal Pomodoro timer. This project models its core in Dafny:

- the timer's session state machine and its history and state stores;
- the Lua plugin registry and its event bus;
- configuration defaults, validation, loading and the `config set` / `config validate` commands;
- history filtering and statistics;
- duration parsing and formatting;
- the `--config` pre-scan of the program's arguments.

Each source file becomes one module. Some state lives in a Go object whose fields change in place: the Timer, the state and history managers, the plugin manager, and the `*Config` that `setConfigValue` writes through. Each of these is a Dafny `class`. Its methods are proved against specification functions on values, and the lemmas about the source's promises are stated over those functions. Where the source works by expressions, the model uses functions and lemmas.

The clock, the environment and the filesystem are parameters:

- `now` is nanoseconds since the epoch.
- `Env` holds the environment variables, where "" means unset, and the home directory as an `Option`.
- A file is a small datatype: absent, holding a value, or unreadable.
- Library calls that cannot be seen become oracle parameters: `time.ParseDuration`, `exec.LookPath`, `filepath.Rel`, date formatting and the file reader.

Modules:

| module | file | models |
|---|---|---|
| Wrappers | wrappers.dfy | Option, Result and Outcome |
| GoLib | golib.dfy | the Go library behaviour the core relies on: truncating `/` and `%`, int64 wrap-around, `strings.Split`/`Contains`/`ToLower`, `strconv.Atoi`/`Itoa`, `filepath.Join`/`Base`/`Ext`/`IsAbs`, `os.Getenv` |
| Engine | engine.dfy | timer status and session types |
| StateStore | state.dfy | internal/timer/state.go |
| HistoryStore | history.dfy | internal/timer/history.go |
| TimerMachine | timer_machine.dfy | internal/timer/timer.go transitions, on values |
| Timer | timer.dfy | internal/timer/timer.go, the Timer object |
| TimerDisplay | timer_display.dfy | formatDuration, createProgressBar and plural in internal/timer/timer.go |
| Configuration | config.dfy | internal/config/config.go |
| CliConfig | cli_config.dfy | internal/cli/config.go |
| CliHistory | cli_history.dfy | internal/cli/history.go |
| CliStart | cli_start.dfy | internal/cli/start.go |
| CliUtils | cli_utils.dfy | internal/cli/utils.go |
| Cmd | cmd.dfy | cmd/pomodux/main.go |
| Plugins | plugin.dfy | internal/plugin/manager.go |

Where the code disagrees with its tests, its messages or other code, the model follows the code:

- The session type is not persisted. `NewTimerWithManagers` reads a session type from the saved state, but the state record has no such field. A timer restored from disk therefore has an empty session type and records no history (`TimerMachine.RestoredTimerRecordsNothing`).
- Stopping a timer whose completion was already observed appends a second record (`TimerMachine.CompletionThenStopRecordsTwice`).
- `config.Validate` never looks at the TUI, notification or plugin settings, so an empty theme is accepted (`Configuration.ValidateIgnoresOtherSections`).
- `setConfigValue` demands three dot-separated parts for a `logging` key. Its error text says two, so `logging.level` is rejected (`CliConfig.LoggingTwoPartsRejected`).
- Hooks registered before `register_plugin` are discarded (`Plugins.HooksBeforeRegistrationDiscarded`).
- Two functions are defined twice in the source: `parseDuration` (internal/cli/config.go and internal/cli/start.go), and `formatDuration`/`plural` (internal/cli/start.go and internal/cli/utils.go). Each definition is modelled on its own, and the lemmas relate them.

## Model

| member | source | states |
|---|---|---|
| StateStore.Load | internal/timer/state.go:68-84 | no file reads as the Idle snapshot with zero fields; a saved snapshot reads back as itself; an unreadable file is an error, never the default |
| StateStore.SaveLoadRoundTrip | internal/timer/state.go:38-84 | loading what was saved gives back the same four fields |
| StateStore.StateManager.SaveState | internal/timer/state.go:38-65 | the file now holds exactly the given snapshot |
| StateStore.StateManager.LoadState | internal/timer/state.go:68-84 | the result is the file read through `Load` |
| StateStore.StateManager.ClearState | internal/timer/state.go:87-93 | the file is gone, clearing an absent file changes nothing, and a later load gives the Idle default |
| StateStore.StateFilePath | internal/timer/state.go:27-35 | the state file is `timer_state.json` inside the state directory, and there is no path exactly when there is no state directory |
| StateStore.StateDir | internal/timer/state.go:96-107 | `$XDG_STATE_HOME/pomodux` when that variable is set, else `<home>/.local/state/pomodux`, and an error exactly when neither is available |
| HistoryStore.LoadHistory | internal/timer/history.go:101-117 | an absent file is the empty history, a saved one is its records, and only a corrupt file is an error |
| HistoryStore.Prepend | internal/timer/history.go:50-55 | the new record is first, the length is min(old + 1, 100), and the tail is the old list's first min(old, 99) records in order |
| HistoryStore.AfterAdd | internal/timer/history.go:39-59 | a corrupt file is left as it is; otherwise it is replaced by the loaded history with the record prepended |
| HistoryStore.Recent | internal/timer/history.go:79-98 | a prefix of the history of length min(count, length) |
| HistoryStore.PrependBounded | internal/timer/history.go:53-55 | the history never exceeds 100 records and always contains the new one |
| HistoryStore.PrependTwice | internal/timer/history.go:50-55 | two adds put the later record first, the earlier second, and then the old records capped at 98 |
| HistoryStore.AddedIsNewest | internal/timer/history.go:39-98 | after a successful add, reloading gives the prepended list and the most recent session is the new record |
| HistoryStore.HistoryManager.AddSession | internal/timer/history.go:39-59 | the file becomes `AfterAdd` of the old one, and the call fails exactly when the old file is corrupt |
| HistoryStore.HistoryManager.GetLastSession | internal/timer/history.go:62-76 | succeeds exactly on a readable non-empty history, returning its first record; an empty history and a corrupt file give their distinct errors |
| HistoryStore.HistoryManager.GetRecentSessions | internal/timer/history.go:79-98 | fails exactly on a corrupt file; otherwise returns `Recent` of the history, and the store is not changed |
| TimerMachine.RecordFor | internal/timer/timer.go:94-107 | a record exists exactly when the session type is non-empty, and it carries the timer's type, duration, start time and the given completion flag |
| TimerMachine.Start | internal/timer/timer.go:63-84 | fails with AlreadyRunning while Running, and otherwise with InvalidDuration for a non-positive duration; succeeds exactly from a non-Running state with a positive duration, giving Running, elapsed 0, start time `now`, and the given duration and type |
| TimerMachine.Pause | internal/timer/timer.go:117-130 | legal only from Running; adds the time since the start to the elapsed time |
| TimerMachine.Resume | internal/timer/timer.go:133-146 | legal only from Paused; restarts the clock at `now` and keeps the elapsed time |
| TimerMachine.Stop | internal/timer/timer.go:87-114 | fails only from Idle; otherwise sets Idle and elapsed 0, keeps the duration, and records one session whose completed flag is whether the timer was Completed |
| TimerMachine.Reset | internal/timer/timer.go:229-257 | legal only from Completed; records one completed session and clears status, elapsed and duration |
| TimerMachine.Finished | internal/timer/timer.go:160-162 | Completed with the elapsed time set to the full duration, everything else kept |
| TimerMachine.StatusRead | internal/timer/timer.go:149-177 | when a Running timer's time is up it becomes Finished and one completed record is produced; otherwise nothing changes and nothing is recorded |
| TimerMachine.ProgressRead | internal/timer/timer.go:180-206 | 0 for a zero duration and never above 1; the same lazy completion as GetStatus but without a record; in [0, 1) between the start and the end, exactly 1 at or after the end, and negative when the clock is behind the start time |
| TimerMachine.HandleCompletion | internal/timer/timer.go:405-434 | the timer becomes Finished and one completed record is produced |
| TimerMachine.ValidPreserved | internal/timer/timer.go:63-257 | every transition keeps the invariant that a timer which is not Idle has a positive duration |
| TimerMachine.PauseResumeKeepsElapsed | internal/timer/timer.go:117-146 | the elapsed time just before Pause equals the elapsed time just after the following Resume, and it keeps counting from there |
| TimerMachine.PausedIsFrozen | internal/timer/timer.go:180-226 | while paused, elapsed time and progress do not depend on the clock, and reading progress changes nothing |
| TimerMachine.ProgressSameTransition | internal/timer/timer.go:149-206 | for a non-zero duration, GetProgress and GetStatus leave the timer in the same state |
| TimerMachine.StartThenProgress | internal/timer/timer.go:63-84 | right after a successful start the progress is 0 and reading it changes nothing |
| TimerMachine.StatusReadsInert | internal/timer/timer.go:149-177 | repeated GetStatus calls on a timer that is not Running change nothing and record nothing |
| TimerMachine.StatusReadsRecordOnce | internal/timer/timer.go:149-177 | any number of GetStatus calls records at most one session, and exactly one when a Running timer with a session type is seen to complete |
| TimerMachine.ProgressCompletionNeverRecorded | internal/timer/timer.go:180-206 | a completion first seen by GetProgress is never recorded by later GetStatus calls |
| TimerMachine.CompletionThenStopRecordsTwice | internal/timer/timer.go:87-177 | an observed completion followed by Stop or Reset records a second completed session for the same start |
| TimerMachine.RestoredTimerRecordsNothing | internal/timer/timer.go:38-55 | a timer rebuilt from the saved state has no session type, so none of its transitions record history |
| TimerMachine.SnapshotRoundTrip | internal/timer/state.go:13-18 | restoring a snapshot gives back every field except the session type, which is not stored |
| Timer.Timer.constructor | internal/timer/timer.go:31-35 | a new timer is Idle with zero fields and no managers |
| Timer.Timer.WithManagers | internal/timer/timer.go:38-55 | the timer starts from the saved state when it loads, and from the Idle timer otherwise |
| Timer.Timer.Save | internal/timer/timer.go:72-83 | with a state manager, its file holds the snapshot of the current fields |
| Timer.Timer.Record | internal/timer/timer.go:94-107 | with a history manager, its file gets the record appended as AddSession does |
| Timer.Timer.StartWithType | internal/timer/timer.go:63-84 | on error nothing changes; on success the fields are `TimerMachine.Start`'s and the state is saved |
| Timer.Timer.Start | internal/timer/timer.go:58-60 | StartWithType with the work session type: on error the exact error with the fields and state file unchanged; on success `TimerMachine.Start`'s fields and a save |
| Timer.Timer.Stop | internal/timer/timer.go:87-114 | on error nothing changes; on success the fields and the appended record are `TimerMachine.Stop`'s and the state is saved |
| Timer.Timer.Pause | internal/timer/timer.go:117-130 | on error nothing changes; on success the fields are `TimerMachine.Pause`'s and the state is saved |
| Timer.Timer.Resume | internal/timer/timer.go:133-146 | on error nothing changes; on success the fields are `TimerMachine.Resume`'s and the state is saved |
| Timer.Timer.GetStatus | internal/timer/timer.go:149-177 | the fields become `StatusRead`'s and the new status is returned; on completion the state is saved and the record appended, and otherwise nothing is written |
| Timer.Timer.GetProgress | internal/timer/timer.go:180-206 | the fields and result are `ProgressRead`'s; a completion saves the state and appends nothing |
| Timer.Timer.GetElapsed | internal/timer/timer.go:216-226 | the running elapsed time, or the stored elapsed time when not Running |
| Timer.Timer.Reset | internal/timer/timer.go:229-257 | on error nothing changes; on success the fields and record are `TimerMachine.Reset`'s and the state is saved |
| Timer.Timer.HandleCompletion | internal/timer/timer.go:405-434 | the fields become Finished, the state is saved and one completed record is appended |
| Timer.Timer.SetHistoryManager | internal/timer/timer.go:274-278 | replaces the history manager and leaves the fields alone |
| TimerDisplay.Plural | internal/timer/timer.go:505-510 | "" exactly for 1, and "s" otherwise |
| TimerDisplay.FormatDuration | internal/timer/timer.go:461-479 | "Completed" for a negative duration, an hours count from one hour up, and a minutes count below that |
| TimerDisplay.FormatDropsSecondsFromHour | internal/timer/timer.go:465-470 | from one hour up, the seconds make no difference to the text |
| TimerDisplay.FormatDropsFractionsBelowHour | internal/timer/timer.go:472-478 | below one hour, fractions of a second make no difference to the text |
| TimerDisplay.FormatBelowHour | internal/timer/timer.go:472-478 | below one hour the text is the whole minutes, then the leftover whole seconds unless there are none; fractions of a second never show |
| TimerDisplay.FormatFromHour | internal/timer/timer.go:465-470 | from one hour up the text is the whole hours, then the leftover whole minutes unless there are none; seconds never show |
| TimerDisplay.FormatFortyFiveSeconds | internal/timer/timer.go:472-478 | 45 seconds formats as "0 minutes 45 seconds": the zero minutes are still shown |
| TimerDisplay.FormatFiveMinutes | internal/timer/timer.go:472-475 | 5 minutes formats as "5 minutes" |
| TimerDisplay.FormatTwoMinutesThirty | internal/timer/timer.go:472-478 | 2m30s formats as "2 minutes 30 seconds" |
| TimerDisplay.FormatOneHour | internal/timer/timer.go:465-468 | one hour formats as "1 hour", singular |
| TimerDisplay.FormatHourThirty | internal/timer/timer.go:465-470 | 1h30m formats as "1 hour 30 minutes" |
| TimerDisplay.Clamp | internal/timer/timer.go:483-488 | the progress is clamped into [0, 1] and left alone inside it |
| TimerDisplay.FilledBounds | internal/timer/timer.go:483-490 | for a non-negative width the filled cell count is between 0 and the width, 0 at no progress or less, the full width at full progress or more |
| TimerDisplay.BarShape | internal/timer/timer.go:482-503 | the bar is width + 2 characters, bracketed, with full blocks for the filled cells and light shade for the rest |
| TimerDisplay.BarEmpty | internal/timer/timer.go:482-503 | at width 10, no progress (or negative progress) draws ten light-shade cells |
| TimerDisplay.BarFull | internal/timer/timer.go:482-503 | at width 10, full progress (or more) draws ten full blocks |
| TimerDisplay.BarHalf | internal/timer/timer.go:482-503 | at width 10, half progress draws five full blocks, then five light-shade cells |
| TimerDisplay.FilledCells | internal/timer/timer.go:483-490 | clamping in place and truncating width times the progress gives exactly `Filled` |
| TimerDisplay.AppendCells | internal/timer/timer.go:494-499 | each counting loop appends exactly n copies of its cell, none for n of 0 or less |
| TimerDisplay.CreateProgressBar | internal/timer/timer.go:482-503 | the clamp, the truncation and the two counting loops build exactly `Bar` |
| Configuration.ConfigHome | internal/config/config.go:206-216 | `$XDG_CONFIG_HOME` when set, else `<home>/.config`, else nothing |
| Configuration.DefaultPluginsDir | internal/config/config.go:83-93 | `<config home>/pomodux/plugins`, or "./plugins" without a home, and never empty |
| Configuration.GetConfigPath | internal/config/config.go:206-216 | an error exactly when there is no home, else `<config home>/pomodux/config.yaml` |
| Configuration.DefaultConfig | internal/config/config.go:46-80 | work 25m, break 5m, long break 15m without auto-start; theme "default" and the four key bindings; the default plugins directory; logging info/text/file |
| Configuration.Validate | internal/config/config.go:219-266 | passes exactly when all three durations are positive and the level, format and output are each empty or in their fixed set; otherwise the first failing guard in source order decides the error (work, break, long break, level, format, output), carrying the offending value |
| Configuration.DefaultConfigValid | internal/config/config.go:46-80 | the default configuration passes validation and has a non-empty plugins directory |
| Configuration.NonPositiveRejected | internal/config/config.go:221-229 | any non-positive duration is rejected with one of the three duration errors |
| Configuration.ValidateIgnoresOtherSections | internal/config/config.go:219-266 | changing the TUI, notification or plugin settings never changes the verdict |
| Configuration.FillDefaults | internal/config/config.go:117-125 | the plugins directory is never empty; a file's non-empty directory is kept, and an absent or empty one is replaced by the default |
| Configuration.Finish | internal/config/config.go:123-132 | the loaded configuration is returned exactly when it validates, and otherwise its first validation error is |
| Configuration.Load | internal/config/config.go:96-132 | no config path is an error; a missing file gives the defaults; an unreadable or unparsable file is its error; a parsed file gives `Finish` of it; any result validates and has a plugins directory |
| Configuration.LoadFromPath | internal/config/config.go:181-203 | a missing or unreadable file is a read error, an unparsable one a parse error, and a parsed one gives `Finish` of it; any result validates and has a plugins directory |
| Configuration.LoadedConfigValid | internal/config/config.go:96-203 | whatever Load or LoadFromPath returns validates and has a plugins directory |
| Configuration.MissingFile | internal/config/config.go:102-109 | a missing file at the default location gives the default configuration, while a missing explicit path is a read error |
| Configuration.AbsentFieldsKeepDefaults | internal/config/config.go:116-119 | fields the file leaves out keep their default values, and key bindings the file leaves out keep the default ones |
| CliConfig.GetConfigDir | internal/cli/config.go:251-261 | the same directory the configuration package uses |
| CliConfig.GetConfigPath | internal/cli/config.go:243-249 | the same path the configuration package uses |
| CliConfig.Set | internal/cli/config.go:263-336 | an unknown section is an error; a timer key needs two parts, and its value is parsed as a duration before the name is checked; a valid timer key changes only its field; a logging key needs three parts; a logging value is accepted exactly when it is valid for the setting named by the second part, and then only that field changes |
| CliConfig.TimerKey | internal/cli/config.go:264-286 | `timer.<setting>` with a parsable value sets exactly that one of the three durations, and an unparsable value is an invalid-duration error whatever the setting |
| CliConfig.LoggingTwoPartsRejected | internal/cli/config.go:287-291 | a two-part logging key such as `logging.level` is always rejected |
| CliConfig.LoggingKey | internal/cli/config.go:287-327 | `logging.<setting>.<x>` accepts the level, format, output and show_caller values in their fixed sets, and rejects everything else without changing the configuration |
| CliConfig.ConfigRef.SetConfigValue | internal/cli/config.go:263-336 | the configuration becomes `Set`'s result on success and is unchanged on error |
| CliConfig.ReportsMembers | internal/cli/config.go:339-370 | a message is in the report exactly when some check carrying that message failed |
| CliConfig.ReportsEmpty | internal/cli/config.go:339-370 | the report is empty exactly when every check passed, and it holds at most one message per check |
| CliConfig.MessagesDistinct | internal/cli/config.go:342-370 | no two of the nine checks share a message, so the report tells them apart |
| CliConfig.FailuresUnrolled | internal/cli/config.go:339-370 | the report is the nine checks' contributions in the order the code makes them |
| CliConfig.FailuresMeaning | internal/cli/config.go:338-377 | no failures exactly when work is in [1m, 4h], break in [30s, 30m] and long break in [5m, 2h]; each check's message is reported exactly when that check fails; at most nine messages |
| CliConfig.Verdict | internal/cli/config.go:373-376 | passes exactly when no check failed |
| CliConfig.ValidateConfig | internal/cli/config.go:338-377 | the nine checks in turn collect exactly `Failures`, and the result is the verdict on it: nil when nothing failed, otherwise the header and the messages joined |
| CliConfig.NonPositiveReportedTwice | internal/cli/config.go:342-355 | a non-positive work duration fails both its positivity check and its one-minute minimum, so both are reported |
| CliConfig.TemplateByName | internal/cli/config.go:221-232 | "default", "productivity", "short-breaks" and "long-breaks" each give their own template (25/5/15, 45/3/10 and 90/15/30 minutes for the last three), and any other name is an unknown-template error |
| CliConfig.TemplatesValid | internal/cli/config.go:396-505 | every template passes both the command's range checks and the configuration package's validation |
| CliConfig.IsSafeExecutable | internal/cli/config.go:513-536 | safe exactly when the name is on the 12-name allowlist, or has no '/' and is found on the path |
| CliHistory.FilterMeaning | internal/cli/history.go:89-110 | the result is a subsequence of the input, a session is in it exactly when it matches both filters, and it is no longer than the input |
| CliHistory.FilterKeepsOrder | internal/cli/history.go:89-110 | the kept sessions are a subsequence of the input, in the same order, and no more of them |
| CliHistory.FilterMembers | internal/cli/history.go:89-110 | a session is kept exactly when it is in the input and matches both filters |
| CliHistory.EmptyFiltersKeepAll | internal/cli/history.go:89-110 | empty filters are wildcards, so the input is returned whole |
| CliHistory.FilterSessions | internal/cli/history.go:89-110 | the loop builds exactly `Filter` |
| CliHistory.LimitSessions | internal/cli/history.go:61-63 | a positive limit keeps the first `limit` sessions, and a limit of 0 or less keeps them all; the result is always a prefix |
| CliHistory.SelectedMeaning | internal/cli/history.go:52-63 | the listed sessions are a subsequence of the 100 most recent, so they are in history order; each matches the filters; there are at most `limit` of them when it is positive |
| CliHistory.TallyBounds | internal/cli/history.go:119-142 | work + break + long-break counts never exceed the total, and neither does the completed count |
| CliHistory.TallyAppend | internal/cli/history.go:119-142 | the statistics of two lists joined are the sums of their statistics |
| CliHistory.LongBreakCountsAsBreak | internal/cli/history.go:132-134 | a long break adds to the long-break count and to the break time, never to the work time |
| CliHistory.OtherTypeIgnored | internal/cli/history.go:125-135 | a session of another type changes only the total and completed counts |
| CliHistory.ShowStatistics | internal/cli/history.go:112-162 | nothing for an empty list; otherwise the counters are `Tally` of the list, and an average work time exists exactly when there is a work session, equal to the Go quotient of the work time by the count |
| CliHistory.ValidateExportPath | internal/cli/history.go:302-332 | rejects ".." first, then the first of the 11 dangerous characters present; a clean absolute path gives the no-home error exactly when there is no home, and the outside-home error exactly when the relative path from home fails or starts with ".."; everything else passes |
| CliStart.ParseDuration | internal/cli/start.go:68-77 | the input is lower-cased; Go duration syntax wins; otherwise an integer n gives n minutes; the rest is an error |
| CliStart.ParseIgnoresCase | internal/cli/start.go:69 | parsing an input and parsing its lower-cased form agree |
| CliStart.MinutesRoundTrip | internal/cli/start.go:73-75 | the decimal text of n parses to n minutes, wrapped to 64 bits |
| CliStart.MinutesOverflow | internal/cli/start.go:73-75 | a minute count too large for int64 nanoseconds wraps to a negative duration |
| CliStart.StartDuration | internal/cli/start.go:31-40 | 25 minutes with no argument, otherwise the parsed argument |
| CliStart.Plural | internal/cli/start.go:97-102 | "" exactly for 1, and "s" otherwise |
| CliStart.FormatDuration | internal/cli/start.go:80-95 | an hours count from one hour up, a minutes count below that, with no negative branch |
| CliStart.AgreesWithUtils | internal/cli/start.go:80-95 | for every non-negative duration it gives the same text as the utils version |
| CliStart.NegativeDiffers | internal/cli/start.go:80-95 | -5m formats as "-5 minutes" here and as "Completed" in the utils version |
| CliUtils.Plural | internal/cli/utils.go:29-34 | "" exactly for 1, and "s" otherwise |
| CliUtils.FormatDuration | internal/cli/utils.go:9-27 | "Completed" for a negative duration, an hours count from one hour up, and a minutes count below that |
| CliUtils.AgreesWithTimer | internal/cli/utils.go:9-27 | the same text as the timer's own formatDuration for every duration |
| CliUtils.WholeMinutes | internal/cli/utils.go:21-26 | m whole minutes below an hour print as just "m minute(s)" |
| CliUtils.WholeHours | internal/cli/utils.go:13-20 | h whole hours print as just "h hour(s)" |
| Cmd.FirstMatchWins | cmd/pomodux/main.go:20-28 | the first settling argument decides the file, whatever follows it |
| Cmd.NoMatchNoFile | cmd/pomodux/main.go:20-28 | with no settling argument the result is empty |
| Cmd.TrailingFlagSkipped | cmd/pomodux/main.go:21-24 | a trailing `--config` with no value is skipped |
| Cmd.ScanArgs | cmd/pomodux/main.go:19-28 | the loop with its breaks computes exactly `ScanConfig` |
| Cmd.ChooseLoad | cmd/pomodux/main.go:34-40 | the default-location loader exactly when the name is empty, else the named path |
| Cmd.ScanExamples | cmd/pomodux/main.go:19-28 | `--config a.yaml` gives a.yaml, the first of two flags wins, a trailing flag gives "", and `--config=` selects the default |
| Plugins.ToLua | internal/plugin/manager.go:356-367 | strings stay strings, integers and floats become numbers, booleans stay booleans, and anything else becomes its text |
| Plugins.ToEventTable | internal/plugin/manager.go:350-368 | the table keeps the event type, has the timestamp in whole Unix seconds, and converts every data entry |
| Plugins.Step | internal/plugin/manager.go:241-295 | register_plugin sets the descriptor and empties the pending table; register_hook keeps the descriptor and sets only its event type's pending slot; other calls change nothing |
| Plugins.Run | internal/plugin/manager.go:241-295 | without a register_plugin call the descriptor is unchanged, and any descriptor at the end is the starting one or one a call registered |
| Plugins.HooksBeforeRegistrationDiscarded | internal/plugin/manager.go:241-295 | only the descriptor of the last register_plugin and the hooks after it survive the load |
| Plugins.NeverRegisteredNoDescriptor | internal/plugin/manager.go:150-155 | a script that never calls register_plugin leaves no descriptor |
| Plugins.LaterHookReplaces | internal/plugin/manager.go:276-284 | of two pending hooks for one event type, the later replaces the earlier |
| Plugins.MergePending | internal/plugin/manager.go:174-183 | each pending event type gets exactly its one buffered callback |
| Plugins.AddPlugin | internal/plugin/manager.go:128-190 | a name already loaded is refused, then a script that raises is a script error, then a script that never registers is a not-registered error; the load succeeds exactly for a new name, a script that does not raise and a registered descriptor; it adds one enabled entry under the given name with the descriptor's version, description and author and the merged hooks, and keeps every other entry |
| Plugins.CheckPath | internal/plugin/manager.go:457-491 | ".." is refused first, then the first dangerous character present; an absolute path is refused exactly when it is outside "/tmp/" and the home prefix; every other path passes |
| Plugins.HomePrefixAdmitsSibling | internal/plugin/manager.go:477-487 | the home test is a plain string prefix, so a sibling directory that starts with the home directory's name passes |
| Plugins.ValidateFilePath | internal/plugin/manager.go:457-491 | the loop over the dangerous characters computes exactly `CheckPath` |
| Plugins.LuaBaseLongEnough | internal/plugin/manager.go:92-94 | a file the walk loads ends in ".lua", so dropping the four-character extension from its base name is in range |
| Plugins.AddFromFile | internal/plugin/manager.go:108-125 | a path error or an unreadable file is reported; otherwise the plugin is loaded under its base name without ".lua" |
| Plugins.WalkKeepsLoaded | internal/plugin/manager.go:80-105 | loading a directory never replaces or drops a plugin already loaded |
| Plugins.WalkAddsOnlyPluginFiles | internal/plugin/manager.go:93-101 | every plugin the walk adds is named after one of its ".lua" files |
| Plugins.FailedFileSkipped | internal/plugin/manager.go:98-101 | a file that fails to load does not stop the walk |
| Plugins.Dispatch | internal/plugin/manager.go:321-345 | a hook is called exactly when its plugin is enabled and the hook is registered for the event's type |
| Plugins.DisabledGetsNothing | internal/plugin/manager.go:326-344 | disabling a plugin removes all its calls and no others |
| Plugins.PluginManager.constructor | internal/plugin/manager.go:63-77 | an empty registry and an empty, open event queue |
| Plugins.PluginManager.RunScript | internal/plugin/manager.go:241-295 | the script's API calls run in order give exactly `Run` |
| Plugins.PluginManager.LoadPlugin | internal/plugin/manager.go:128-190 | succeeds exactly when `AddPlugin` does and then the registry is its result; on error the registry is unchanged |
| Plugins.PluginManager.LoadPluginFromFile | internal/plugin/manager.go:108-125 | the registry becomes `AddFromFile`'s result on success and is unchanged on error |
| Plugins.PluginManager.LoadPlugins | internal/plugin/manager.go:80-105 | the registry and the result are those of the walk model: ".lua" files in order, failures skipped, a walk error ending it |
| Plugins.PluginManager.EmitEvent | internal/plugin/manager.go:298-306 | with fewer than 100 events queued the event goes to the back; otherwise it is dropped and the queue is unchanged |
| Plugins.PluginManager.CallPluginHooks | internal/plugin/manager.go:321-345 | the calls gathered plugin by plugin are exactly `Dispatch` |
| Plugins.PluginManager.ProcessNext | internal/plugin/manager.go:309-318 | after shutdown, or with an empty queue, nothing happens; otherwise the front event is removed and dispatched with its converted table |
| Plugins.PluginManager.GetPlugin | internal/plugin/manager.go:390-395 | found exactly when the name is loaded, giving its entry |
| Plugins.PluginManager.EnablePlugin | internal/plugin/manager.go:410-421 | an error exactly for an unknown name, leaving things alone; otherwise only that plugin's enabled flag changes |
| Plugins.PluginManager.UnloadPlugin | internal/plugin/manager.go:424-440 | an error exactly for an unknown name, leaving things alone; otherwise only that entry is removed |
| Plugins.PluginManager.Shutdown | internal/plugin/manager.go:443-454 | the consumer stops and the registry is emptied |

## Left out

- StartPersistent (internal/timer/timer.go:281-402): terminal raw mode, a stdin goroutine, signals and polling. This is I/O and concurrency. Its closing step, handleCompletion, is modelled.
- sendNotification: it runs an external command.
- JSON and YAML encoding, and file reads, writes, removals and directory creation. These are replaced by the file datatypes. Write failures are not modelled, and neither is the `Save` that `Load` performs when there is no file.
- The config command's backup, restore, reset, edit and show glue: it is printing and file I/O around the modelled functions. The editor allowlist check is modelled.
- History export writing and the text, JSON and CSV printing. The export path validation is modelled.
- The Lua interpreter. A script is modelled as the registry calls it makes while loading, plus whether it raises. Hook bodies are opaque callbacks. A hook registered at run time, after loading, is not modelled, and neither is a script that sets the `plugin` global without calling `register_plugin`.
- Concurrency: mutexes, the processEvents goroutine and one goroutine per hook. The queue is a sequence. Dispatch is a set of calls, so two identical hook values of one plugin count once. The consumer's nondeterministic choice between a closed done channel and a waiting event is resolved in favour of stopping.
- ListPlugins: it only copies the registry's entries into a slice.
- The logger, the timer manager singleton, and the getStateDir copy in internal/cli/history.go.
- The library calls above are oracle parameters, whose own behaviour is not modelled: `time.ParseDuration`, `exec.LookPath`, `filepath.Rel`, date formatting and the file reader.
- TimerDisplay.FormatDuration: Go's `int(d.Hours())` and `int(d.Minutes())` go through a float64 sum that rounds up to the next whole unit when the remainder is just under one unit. That happens from 4096 hours for the hours and from 262144 minutes (about 4369 hours) for the minutes. For example, 5000h−1ns prints "5000 hours" in Go and "4999 hours 59 minutes" here. The model uses the exact whole counts.
- TimerDisplay.FormatFromHour: states the exact whole-count text, which Go's float64 rounding departs from at 4096 hours and above (see TimerDisplay.FormatDuration).
- TimerDisplay.FormatDropsSecondsFromHour: holds of the exact whole counts; Go's float64 rounding breaks it at 4096 hours and above, for example at 5000h−1ns.
- CliUtils.FormatDuration: the same float64 rounding gap as TimerDisplay.FormatDuration, from 4096 hours up.
- CliStart.FormatDuration: the same float64 rounding gap, from 4096 hours up and, in the negative minutes branch, below about −4369 hours (−262144 minutes) for the minutes and below about −4660 hours (−2^24 seconds) for the seconds.
- Plugins.ToLua: an integer becomes the exact real number, where Go's `float64` conversion rounds integers above 2^53.
- GoLib.PathJoin: `filepath.Join` also cleans its result, and this model does not. A first part ending in '/' gives a doubled separator: XDG_STATE_HOME="/s/" gives "/s//pomodux" here and "/s/pomodux" in Go, and a home of "/" gives "//.config". StateStore.StateDir, StateStore.StateFilePath, Configuration.ConfigHome, Configuration.DefaultPluginsDir and Configuration.GetConfigPath inherit this.
- GoLib.Base: a trailing '/' gives "" here, where `filepath.Base` would strip it first. In the model this only matters for paths that name directories, which the walk skips.
- GoLib.ToLower: ASCII letters only, not Unicode case mapping.
- Floating point is modelled as `real`: progress, the bar's filled count and the statistics percentages. IEEE rounding is not modelled, and the percentage lines are left out.
- TimerDisplay.BarShape: the length is counted in characters. Go's `len` would count UTF-8 bytes, three per block character.
- CliHistory.ShowStatistics: the sums of durations are unbounded integers, so int64 overflow of the totals is not modelled.
- TimerMachine.Pause: the elapsed-time sum is unbounded, so int64 overflow is not modelled.
- StateStore.Load: the saved state is a three-way file (absent, holding a snapshot, unreadable) rather than an optional snapshot, so that the parse-error path is kept.
- Plugins.PluginManager.LoadPluginFromFile: requires that a path which passes validation and can be read has a base name of at least four characters. Go's slice would panic otherwise.
- Plugins.PluginManager.Shutdown: requires that the manager is not already shut down. A second close of the done channel panics in Go.
- HistoryStore.Recent: requires a non-negative count on a non-empty history. A negative slice bound panics in Go.
