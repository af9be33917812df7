/**
 * The timer's state machine on values. Every Timer method is one of these
 * transitions applied to the Timer's five fields; the clock reading `now`
 * (nanoseconds) is a parameter. A transition that the source follows with a
 * history append returns the record it would append.
 */
module TimerMachine {
  import opened Wrappers
  import opened Engine
  import opened StateStore
  import opened HistoryStore

  /** The Timer's mutable fields. */
  datatype Fields = Fields(
    status: Status,
    sessionType: SessionType,
    startTime: int,
    duration: int,
    elapsed: int)

  /** A new Timer: Idle, every other field at its zero value. */
  const Initial := Fields(Idle, "", 0, 0, 0)

  datatype TimerError = AlreadyRunning | InvalidDuration | NotRunning | NotPaused | NotCompleted

  /** The fields after a transition, and the history record the source appends with it, if any. */
  datatype Step = Step(fields: Fields, record: Option<SessionRecord>)

  /** The invariant the design promises: a timer that is not Idle has a positive duration. */
  predicate Valid(f: Fields)
  {
    f.status != Idle ==> f.duration > 0
  }

  /** GetElapsed: while Running the time since the last start is added; otherwise the stored value. */
  function Elapsed(f: Fields, now: int): int
  {
    if f.status == Running then f.elapsed + (now - f.startTime) else f.elapsed
  }

  /** The record Stop, Reset and completion append: only for a timer with a session type. */
  function RecordFor(f: Fields, now: int, completed: bool): (r: Option<SessionRecord>)
    ensures r.Some? <==> f.sessionType != ""
    ensures r.Some? ==> r.value.sessionType == f.sessionType && r.value.duration == f.duration &&
                        r.value.startTime == f.startTime && r.value.endTime == now &&
                        r.value.completed == completed
  {
    if f.sessionType != "" then Some(SessionRecord(f.sessionType, f.duration, f.startTime, now, completed))
    else None
  }

  /** What SaveState writes: four of the five fields. */
  function Snapshot(f: Fields): State
  {
    State(f.status, f.duration, f.startTime, f.elapsed)
  }

  /** What NewTimerWithManagers restores from a snapshot: the session type stays empty. */
  function FromSnapshot(s: State): Fields
  {
    Fields(s.status, "", s.startTime, s.duration, s.elapsed)
  }

  /** The history file after a transition that may append a record. */
  function Appended(file: HistoryFile, rec: Option<SessionRecord>): HistoryFile
  {
    if rec.Some? then AfterAdd(file, rec.value) else file
  }

  /** StartWithType: refused while Running, then refused for a non-positive duration. */
  function Start(f: Fields, d: int, st: SessionType, now: int): (r: Result<Fields, TimerError>)
    ensures f.status == Running ==> r == Err(AlreadyRunning)
    ensures f.status != Running && d <= 0 ==> r == Err(InvalidDuration)
    ensures r.Ok? <==> f.status != Running && d > 0
    ensures r.Ok? ==> r.value.status == Running && r.value.elapsed == 0 && r.value.startTime == now &&
                      r.value.duration == d && r.value.sessionType == st
  {
    if f.status == Running then Err(AlreadyRunning)
    else if d <= 0 then Err(InvalidDuration)
    else Ok(Fields(Running, st, now, d, 0))
  }

  /** Pause: only from Running; the running stretch is folded into `elapsed`. */
  function Pause(f: Fields, now: int): (r: Result<Fields, TimerError>)
    ensures r.Ok? <==> f.status == Running
    ensures r.Err? ==> r.error == NotRunning
    ensures r.Ok? ==> r.value.status == Paused && r.value.elapsed == Elapsed(f, now) &&
                      r.value.startTime == f.startTime && r.value.duration == f.duration &&
                      r.value.sessionType == f.sessionType
  {
    if f.status != Running then Err(NotRunning)
    else Ok(f.(elapsed := f.elapsed + (now - f.startTime), status := Paused))
  }

  /** Resume: only from Paused; the clock restarts and `elapsed` is kept. */
  function Resume(f: Fields, now: int): (r: Result<Fields, TimerError>)
    ensures r.Ok? <==> f.status == Paused
    ensures r.Err? ==> r.error == NotPaused
    ensures r.Ok? ==> r.value.status == Running && r.value.startTime == now &&
                      r.value.elapsed == f.elapsed && r.value.duration == f.duration &&
                      r.value.sessionType == f.sessionType
  {
    if f.status != Paused then Err(NotPaused)
    else Ok(f.(startTime := now, status := Running))
  }

  /** Stop: refused only from Idle; back to Idle with zero elapsed, the duration kept. */
  function Stop(f: Fields, now: int): (r: Result<Step, TimerError>)
    ensures r.Ok? <==> f.status != Idle
    ensures r.Err? ==> r.error == NotRunning
    ensures r.Ok? ==> r.value.fields == f.(status := Idle, elapsed := 0)
    ensures r.Ok? ==> r.value.record == RecordFor(f, now, f.status == Completed)
  {
    if f.status == Idle then Err(NotRunning)
    else Ok(Step(f.(status := Idle, elapsed := 0), RecordFor(f, now, f.status == Completed)))
  }

  /** Reset: only from Completed; records the finished session and clears duration and elapsed. */
  function Reset(f: Fields, now: int): (r: Result<Step, TimerError>)
    ensures r.Ok? <==> f.status == Completed
    ensures r.Err? ==> r.error == NotCompleted
    ensures r.Ok? ==> r.value.fields == f.(status := Idle, elapsed := 0, duration := 0)
    ensures r.Ok? ==> r.value.record == RecordFor(f, now, true)
  {
    if f.status != Completed then Err(NotCompleted)
    else Ok(Step(f.(status := Idle, elapsed := 0, duration := 0), RecordFor(f, now, true)))
  }

  /** A Running timer whose elapsed time has reached its duration. */
  predicate Due(f: Fields, now: int)
  {
    f.status == Running && Elapsed(f, now) >= f.duration
  }

  /** The fields of a timer that has just completed. */
  function Finished(f: Fields): (g: Fields)
    ensures g.status == Completed && g.elapsed == f.duration
    ensures g.duration == f.duration && g.startTime == f.startTime && g.sessionType == f.sessionType
  {
    f.(status := Completed, elapsed := f.duration)
  }

  /** GetStatus: a due timer completes, and that completion is recorded; otherwise nothing changes. */
  function StatusRead(f: Fields, now: int): (r: Step)
    ensures Due(f, now) ==> r == Step(Finished(f), RecordFor(f, now, true))
    ensures !Due(f, now) ==> r == Step(f, None)
  {
    if Due(f, now) then Step(Finished(f), RecordFor(f, now, true)) else Step(f, None)
  }

  /** GetProgress's answer and the fields after it. */
  datatype ProgressStep = ProgressStep(fields: Fields, progress: real)

  /**
   * GetProgress: 0 for a zero duration; otherwise elapsed over duration, capped
   * at 1. A due timer completes here too, but nothing is recorded.
   */
  function ProgressRead(f: Fields, now: int): (r: ProgressStep)
    ensures r.progress <= 1.0
    ensures f.duration == 0 ==> r == ProgressStep(f, 0.0)
    ensures f.duration != 0 && Due(f, now) ==> r.fields == Finished(f)
    ensures !Due(f, now) ==> r.fields == f
    ensures f.duration > 0 && Elapsed(f, now) >= 0 ==> 0.0 <= r.progress
    ensures f.duration > 0 && Elapsed(f, now) < 0 ==> r.progress < 0.0
    ensures f.duration > 0 && 0 <= Elapsed(f, now) < f.duration ==> r.progress < 1.0
    ensures f.duration > 0 && Elapsed(f, now) >= f.duration ==> r.progress == 1.0
  {
    if f.duration == 0 then ProgressStep(f, 0.0)
    else
      var e := Elapsed(f, now);
      var g := if Due(f, now) then Finished(f) else f;
      var p := (e as real) / (f.duration as real);
      assert f.duration > 0 && e >= f.duration ==> p >= 1.0 by {
        if f.duration > 0 && e >= f.duration {
          assert p * (f.duration as real) == e as real;
        }
      }
      ProgressStep(g, if p > 1.0 then 1.0 else p)
  }

  /** handleCompletion: Completed with elapsed equal to duration, from any state, and recorded. */
  function HandleCompletion(f: Fields, now: int): (r: Step)
    ensures r.fields == Finished(f)
    ensures r.record == RecordFor(f, now, true)
  {
    Step(Finished(f), RecordFor(f, now, true))
  }

  // ----- properties of the transitions -----

  /** Every transition keeps a valid timer valid (handleCompletion runs only after a successful start). */
  lemma ValidPreserved(f: Fields, d: int, st: SessionType, now: int)
    requires Valid(f)
    ensures Start(f, d, st, now).Ok? ==> Valid(Start(f, d, st, now).value)
    ensures Pause(f, now).Ok? ==> Valid(Pause(f, now).value)
    ensures Resume(f, now).Ok? ==> Valid(Resume(f, now).value)
    ensures Stop(f, now).Ok? ==> Valid(Stop(f, now).value.fields)
    ensures Reset(f, now).Ok? ==> Valid(Reset(f, now).value.fields)
    ensures Valid(StatusRead(f, now).fields)
    ensures Valid(ProgressRead(f, now).fields)
    ensures f.status != Idle ==> Valid(HandleCompletion(f, now).fields)
  {
  }

  /** Pausing then resuming loses no time: elapsed just before the pause equals elapsed just after the resume. */
  lemma PauseResumeKeepsElapsed(f: Fields, pausedAt: int, resumedAt: int, later: int)
    requires f.status == Running
    ensures Pause(f, pausedAt).Ok?
    ensures Resume(Pause(f, pausedAt).value, resumedAt).Ok?
    ensures Elapsed(Resume(Pause(f, pausedAt).value, resumedAt).value, resumedAt) == Elapsed(f, pausedAt)
    ensures Elapsed(Resume(Pause(f, pausedAt).value, resumedAt).value, later) ==
              Elapsed(f, pausedAt) + (later - resumedAt)
  {
  }

  /** While paused neither elapsed time nor progress moves, and reading progress changes nothing. */
  lemma PausedIsFrozen(f: Fields, t1: int, t2: int)
    requires f.status == Paused
    ensures Elapsed(f, t1) == Elapsed(f, t2)
    ensures ProgressRead(f, t1) == ProgressRead(f, t2)
    ensures ProgressRead(f, t1).fields == f
  {
  }

  /** Reading progress when the duration is non-zero makes exactly GetStatus's transition. */
  lemma ProgressSameTransition(f: Fields, now: int)
    requires f.duration != 0
    ensures ProgressRead(f, now).fields == StatusRead(f, now).fields
  {
  }

  /** Right after a successful start the timer is Running and progress is 0. */
  lemma StartThenProgress(f: Fields, d: int, st: SessionType, now: int)
    requires Start(f, d, st, now).Ok?
    ensures ProgressRead(Start(f, d, st, now).value, now) == ProgressStep(Start(f, d, st, now).value, 0.0)
  {
  }

  /** The outcome of a series of GetStatus calls: final fields and every record appended. */
  datatype Trace = Trace(fields: Fields, records: seq<SessionRecord>)

  function StatusReads(f: Fields, times: seq<int>): Trace
    decreases |times|
  {
    if |times| == 0 then Trace(f, [])
    else
      var step := StatusRead(f, times[0]);
      var rest := StatusReads(step.fields, times[1..]);
      Trace(rest.fields, (if step.record.Some? then [step.record.value] else []) + rest.records)
  }

  /** A timer that is not Running is left alone by GetStatus, however often it is called. */
  lemma {:induction false} StatusReadsInert(f: Fields, times: seq<int>)
    requires f.status != Running
    ensures StatusReads(f, times) == Trace(f, [])
    decreases |times|
  {
    if |times| > 0 {
      StatusReadsInert(f, times[1..]);
    }
  }

  /**
   * One completion is recorded at most once by any number of GetStatus calls,
   * and it is recorded exactly when a Running timer with a session type is
   * seen due at one of the reads.
   */
  lemma {:induction false} StatusReadsRecordOnce(f: Fields, times: seq<int>)
    ensures |StatusReads(f, times).records| <= 1
    ensures StatusReads(f, times).fields.status == Completed <==>
              f.status == Completed || exists i :: 0 <= i < |times| && Due(f, times[i])
    ensures |StatusReads(f, times).records| == 1 <==>
              f.sessionType != "" && exists i :: 0 <= i < |times| && Due(f, times[i])
    decreases |times|
  {
    if |times| == 0 {
    } else if Due(f, times[0]) {
      StatusReadsInert(Finished(f), times[1..]);
    } else {
      StatusReadsRecordOnce(f, times[1..]);
      assert (exists i :: 0 <= i < |times| && Due(f, times[i])) <==>
             (exists i :: 0 <= i < |times[1..]| && Due(f, times[1..][i])) by {
        if exists i :: 0 <= i < |times| && Due(f, times[i]) {
          var i :| 0 <= i < |times| && Due(f, times[i]);
          assert i > 0 && Due(f, times[1..][i - 1]);
        }
        if exists i :: 0 <= i < |times[1..]| && Due(f, times[1..][i]) {
          var i :| 0 <= i < |times[1..]| && Due(f, times[1..][i]);
          assert Due(f, times[i + 1]);
        }
      }
    }
  }

  /** A completion first observed by GetProgress is never recorded by any later GetStatus. */
  lemma ProgressCompletionNeverRecorded(f: Fields, now: int, times: seq<int>)
    requires f.duration != 0 && Due(f, now)
    ensures ProgressRead(f, now).fields.status == Completed
    ensures StatusReads(ProgressRead(f, now).fields, times).records == []
  {
    StatusReadsInert(ProgressRead(f, now).fields, times);
  }

  /**
   * A completion seen by GetStatus and then followed by Stop (or Reset)
   * appends a second record for the same session, also marked completed.
   */
  lemma CompletionThenStopRecordsTwice(f: Fields, now: int, later: int)
    requires Due(f, now) && f.sessionType != ""
    ensures StatusRead(f, now).record.Some? && StatusRead(f, now).record.value.completed
    ensures Stop(StatusRead(f, now).fields, later).Ok?
    ensures Stop(StatusRead(f, now).fields, later).value.record.Some?
    ensures Stop(StatusRead(f, now).fields, later).value.record.value.completed
    ensures Stop(StatusRead(f, now).fields, later).value.record.value.startTime ==
              StatusRead(f, now).record.value.startTime
    ensures Reset(StatusRead(f, now).fields, later).Ok?
    ensures Reset(StatusRead(f, now).fields, later).value.record.Some?
  {
  }

  /** A timer restored from the state file has no session type, so nothing it does is recorded. */
  lemma RestoredTimerRecordsNothing(s: State, now: int, times: seq<int>)
    ensures Stop(FromSnapshot(s), now).Ok? ==> Stop(FromSnapshot(s), now).value.record.None?
    ensures Reset(FromSnapshot(s), now).Ok? ==> Reset(FromSnapshot(s), now).value.record.None?
    ensures StatusRead(FromSnapshot(s), now).record.None?
    ensures HandleCompletion(FromSnapshot(s), now).record.None?
    ensures StatusReads(FromSnapshot(s), times).records == []
  {
    StatusReadsRecordOnce(FromSnapshot(s), times);
  }

  /** Saving and restoring keeps everything but the session type. */
  lemma SnapshotRoundTrip(f: Fields)
    ensures FromSnapshot(Snapshot(f)) == f.(sessionType := "")
  {
  }
}
