/**
 * The state store: one snapshot of the timer, shared by every process through
 * a file. The file is modelled by what a read of it would find.
 */
module StateStore {
  import opened Wrappers
  import opened GoLib
  import opened Engine

  /** The persisted snapshot: exactly these four fields; the session type is not among them. */
  datatype State = State(status: Status, duration: int, startTime: int, elapsed: int)

  /** What LoadState gives when there is no file: Idle, with zero duration, start time and elapsed. */
  const IdleState := State(Idle, 0, 0, 0)

  /** The state file: absent, holding a snapshot, or present but unreadable or not valid JSON. */
  datatype StateFile = Absent | Holds(state: State) | Unreadable

  datatype StateError = ReadFailure

  /** What LoadState returns for a given file. */
  function Load(file: StateFile): (r: Result<State, StateError>)
    ensures file.Absent? ==> r == Ok(IdleState)
    ensures file.Holds? ==> r == Ok(file.state)
    ensures r.Err? <==> file.Unreadable?
  {
    match file
    case Absent => Ok(IdleState)
    case Holds(s) => Ok(s)
    case Unreadable => Err(ReadFailure)
  }

  /** Saving a snapshot and reading it back gives the same four fields. */
  lemma SaveLoadRoundTrip(s: State)
    ensures Load(Holds(s)) == Ok(s)
  {
  }

  /** StateManager: owns the state file. */
  class StateManager {
    var file: StateFile

    constructor (initial: StateFile)
      ensures file == initial
    {
      file := initial;
    }

    /** SaveState: overwrites the file with the snapshot (write failures are not modelled). */
    method SaveState(s: State)
      modifies this
      ensures file == Holds(s)
    {
      file := Holds(s);
    }

    /** LoadState: the snapshot, the Idle default when absent, an error when unreadable. */
    method LoadState() returns (r: Result<State, StateError>)
      ensures r == Load(file)
    {
      match file
      case Absent => r := Ok(IdleState);
      case Holds(s) => r := Ok(s);
      case Unreadable => r := Err(ReadFailure);
    }

    /** ClearState: removes the file; nothing happens when it is already absent. */
    method ClearState()
      modifies this
      ensures file == Absent
      ensures old(file) == Absent ==> unchanged(this)
      ensures Load(file) == Ok(IdleState)
    {
      if file != Absent {
        file := Absent;
      }
    }
  }

  datatype DirError = NoHomeDir

  /**
   * getStateDir: `$XDG_STATE_HOME/pomodux` when that variable is non-empty,
   * else `<home>/.local/state/pomodux`, as the XDG Base Directory
   * Specification ("Environment variables") prescribes.
   */
  function StateDir(env: Env): (r: Result<string, DirError>)
    ensures Getenv(env, "XDG_STATE_HOME") != "" ==>
              r == Ok(PathJoin(Getenv(env, "XDG_STATE_HOME"), "pomodux"))
    ensures Getenv(env, "XDG_STATE_HOME") == "" && env.home.Some? ==>
              r == Ok(PathJoin(PathJoin(PathJoin(env.home.value, ".local"), "state"), "pomodux"))
    ensures r.Err? <==> Getenv(env, "XDG_STATE_HOME") == "" && env.home.None?
  {
    var stateHome := Getenv(env, "XDG_STATE_HOME");
    if stateHome != "" then Ok(PathJoin(stateHome, "pomodux"))
    else if env.home.None? then Err(NoHomeDir)
    else Ok(PathJoin(PathJoin(PathJoin(env.home.value, ".local"), "state"), "pomodux"))
  }

  /** The state file's path, inside the state directory. */
  function StateFilePath(env: Env): (r: Result<string, DirError>)
    ensures r.Err? <==> Getenv(env, "XDG_STATE_HOME") == "" && env.home.None?
    ensures Getenv(env, "XDG_STATE_HOME") != "" ==>
              r == Ok(PathJoin(PathJoin(Getenv(env, "XDG_STATE_HOME"), "pomodux"), "timer_state.json"))
    ensures r.Ok? ==> r.value == PathJoin(StateDir(env).value, "timer_state.json")
  {
    match StateDir(env)
    case Ok(dir) => Ok(PathJoin(dir, "timer_state.json"))
    case Err(e) => Err(e)
  }
}
