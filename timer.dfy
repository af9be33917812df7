/**
 * The Timer object: five fields updated in place, an optional state manager
 * that receives a snapshot after each change, and an optional history manager
 * that receives the records of finished sessions. Each method applies the
 * corresponding TimerMachine transition.
 */
module Timer {
  import opened Wrappers
  import opened Engine
  import opened StateStore
  import opened HistoryStore
  import opened TimerMachine

  class Timer {
    var status: Status
    var sessionType: SessionType
    var startTime: int
    var duration: int
    var elapsed: int
    const stateManager: StateManager?
    var historyManager: HistoryManager?

    /** The current fields as a value. */
    function Current(): Fields
      reads this
    {
      Fields(status, sessionType, startTime, duration, elapsed)
    }

    /** NewTimer: Idle and without managers. */
    constructor ()
      ensures Current() == Initial
      ensures stateManager == null && historyManager == null
    {
      status := Idle;
      sessionType := "";
      startTime := 0;
      duration := 0;
      elapsed := 0;
      stateManager := null;
      historyManager := null;
    }

    /** NewTimerWithManagers: restores the saved snapshot, or stays Idle when it cannot be loaded. */
    constructor WithManagers(sm: StateManager, hm: HistoryManager?)
      ensures stateManager == sm && historyManager == hm
      ensures Load(sm.file).Ok? ==> Current() == FromSnapshot(Load(sm.file).value)
      ensures Load(sm.file).Err? ==> Current() == Initial
    {
      stateManager := sm;
      historyManager := hm;
      var loaded := sm.LoadState();
      if loaded.Ok? {
        var s := loaded.value;
        status := s.status;
        sessionType := "";
        duration := s.duration;
        startTime := s.startTime;
        elapsed := s.elapsed;
      } else {
        status := Idle;
        sessionType := "";
        startTime := 0;
        duration := 0;
        elapsed := 0;
      }
    }

    /** Writes the snapshot of the current fields, when there is a state manager. */
    method Save()
      modifies stateManager
      ensures stateManager != null ==> stateManager.file == Holds(Snapshot(Current()))
    {
      if stateManager != null {
        stateManager.SaveState(State(status, duration, startTime, elapsed));
      }
    }

    /** Appends a record, when there is one and a history manager; the append's error is ignored. */
    method Record(rec: Option<SessionRecord>)
      modifies historyManager
      ensures historyManager != null ==> historyManager.file == Appended(old(historyManager.file), rec)
    {
      if historyManager != null && rec.Some? {
        var _ := historyManager.AddSession(rec.value);
      }
    }

    /** StartWithType. */
    method StartWithType(d: int, st: SessionType, now: int) returns (r: Outcome<TimerError>)
      modifies this, stateManager
      ensures historyManager == old(historyManager)
      ensures TimerMachine.Start(old(Current()), d, st, now).Err? ==>
                r == Fail(TimerMachine.Start(old(Current()), d, st, now).error) &&
                Current() == old(Current()) && (stateManager != null ==> unchanged(stateManager))
      ensures TimerMachine.Start(old(Current()), d, st, now).Ok? ==>
                r == Pass && Current() == TimerMachine.Start(old(Current()), d, st, now).value &&
                (stateManager != null ==> stateManager.file == Holds(Snapshot(Current())))
    {
      if status == Running {
        return Fail(AlreadyRunning);
      }
      if d <= 0 {
        return Fail(InvalidDuration);
      }
      duration := d;
      sessionType := st;
      startTime := now;
      elapsed := 0;
      status := Running;
      Save();
      r := Pass;
    }

    /** Start: StartWithType with the work session type. */
    method Start(d: int, now: int) returns (r: Outcome<TimerError>)
      modifies this, stateManager
      ensures historyManager == old(historyManager)
      ensures TimerMachine.Start(old(Current()), d, Work, now).Err? ==>
                r == Fail(TimerMachine.Start(old(Current()), d, Work, now).error) &&
                Current() == old(Current()) && (stateManager != null ==> unchanged(stateManager))
      ensures TimerMachine.Start(old(Current()), d, Work, now).Ok? ==>
                r == Pass && Current() == TimerMachine.Start(old(Current()), d, Work, now).value &&
                (stateManager != null ==> stateManager.file == Holds(Snapshot(Current())))
    {
      r := StartWithType(d, Work, now);
    }

    /** Stop: records the session (completed only if it had completed), then Idle. */
    method Stop(now: int) returns (r: Outcome<TimerError>)
      modifies this, stateManager, historyManager
      ensures historyManager == old(historyManager)
      ensures TimerMachine.Stop(old(Current()), now).Err? ==>
                r == Fail(NotRunning) && Current() == old(Current()) &&
                (stateManager != null ==> unchanged(stateManager)) &&
                (historyManager != null ==> unchanged(historyManager))
      ensures TimerMachine.Stop(old(Current()), now).Ok? ==>
                r == Pass && Current() == TimerMachine.Stop(old(Current()), now).value.fields &&
                (stateManager != null ==> stateManager.file == Holds(Snapshot(Current()))) &&
                (historyManager != null ==>
                   historyManager.file == Appended(old(historyManager.file), TimerMachine.Stop(old(Current()), now).value.record))
    {
      if status == Idle {
        return Fail(NotRunning);
      }
      Record(RecordFor(Current(), now, status == Completed));
      status := Idle;
      elapsed := 0;
      Save();
      r := Pass;
    }

    /** Pause. */
    method Pause(now: int) returns (r: Outcome<TimerError>)
      modifies this, stateManager
      ensures historyManager == old(historyManager)
      ensures TimerMachine.Pause(old(Current()), now).Err? ==>
                r == Fail(NotRunning) && Current() == old(Current()) &&
                (stateManager != null ==> unchanged(stateManager))
      ensures TimerMachine.Pause(old(Current()), now).Ok? ==>
                r == Pass && Current() == TimerMachine.Pause(old(Current()), now).value &&
                (stateManager != null ==> stateManager.file == Holds(Snapshot(Current())))
    {
      if status != Running {
        return Fail(NotRunning);
      }
      elapsed := elapsed + (now - startTime);
      status := Paused;
      Save();
      r := Pass;
    }

    /** Resume. */
    method Resume(now: int) returns (r: Outcome<TimerError>)
      modifies this, stateManager
      ensures historyManager == old(historyManager)
      ensures TimerMachine.Resume(old(Current()), now).Err? ==>
                r == Fail(NotPaused) && Current() == old(Current()) &&
                (stateManager != null ==> unchanged(stateManager))
      ensures TimerMachine.Resume(old(Current()), now).Ok? ==>
                r == Pass && Current() == TimerMachine.Resume(old(Current()), now).value &&
                (stateManager != null ==> stateManager.file == Holds(Snapshot(Current())))
    {
      if status != Paused {
        return Fail(NotPaused);
      }
      startTime := now;
      status := Running;
      Save();
      r := Pass;
    }

    /** GetStatus, with its lazy completion: saved and recorded only when the timer becomes Completed. */
    method GetStatus(now: int) returns (s: Status)
      modifies this, stateManager, historyManager
      ensures historyManager == old(historyManager)
      ensures Current() == StatusRead(old(Current()), now).fields
      ensures s == status
      ensures Due(old(Current()), now) ==>
                (stateManager != null ==> stateManager.file == Holds(Snapshot(Current()))) &&
                (historyManager != null ==>
                   historyManager.file == Appended(old(historyManager.file), StatusRead(old(Current()), now).record))
      ensures !Due(old(Current()), now) ==>
                (stateManager != null ==> unchanged(stateManager)) &&
                (historyManager != null ==> unchanged(historyManager))
    {
      if status == Running {
        var e := elapsed + (now - startTime);
        if e >= duration {
          var before := Current();
          status := Completed;
          elapsed := duration;
          Save();
          Record(RecordFor(before, now, true));
        }
      }
      s := status;
    }

    /** GetProgress: the same lazy completion, saved but never recorded. */
    method GetProgress(now: int) returns (p: real)
      modifies this, stateManager
      ensures historyManager == old(historyManager)
      ensures Current() == ProgressRead(old(Current()), now).fields
      ensures p == ProgressRead(old(Current()), now).progress
      ensures old(duration) != 0 && Due(old(Current()), now) ==>
                (stateManager != null ==> stateManager.file == Holds(Snapshot(Current())))
      ensures !(old(duration) != 0 && Due(old(Current()), now)) ==>
                (stateManager != null ==> unchanged(stateManager))
    {
      if duration == 0 {
        return 0.0;
      }
      var e: int;
      if status == Running {
        e := elapsed + (now - startTime);
        if e >= duration {
          status := Completed;
          elapsed := duration;
          Save();
        }
      } else {
        e := elapsed;
      }
      p := (e as real) / (duration as real);
      if p > 1.0 {
        p := 1.0;
      }
    }

    /** GetElapsed. */
    method GetElapsed(now: int) returns (e: int)
      ensures e == Elapsed(Current(), now)
      ensures status != Running ==> e == elapsed
    {
      if status == Running {
        e := elapsed + (now - startTime);
      } else {
        e := elapsed;
      }
    }

    /** Reset: records the completed session, then Idle with zero duration and elapsed. */
    method Reset(now: int) returns (r: Outcome<TimerError>)
      modifies this, stateManager, historyManager
      ensures historyManager == old(historyManager)
      ensures TimerMachine.Reset(old(Current()), now).Err? ==>
                r == Fail(NotCompleted) && Current() == old(Current()) &&
                (stateManager != null ==> unchanged(stateManager)) &&
                (historyManager != null ==> unchanged(historyManager))
      ensures TimerMachine.Reset(old(Current()), now).Ok? ==>
                r == Pass && Current() == TimerMachine.Reset(old(Current()), now).value.fields &&
                (stateManager != null ==> stateManager.file == Holds(Snapshot(Current()))) &&
                (historyManager != null ==>
                   historyManager.file == Appended(old(historyManager.file), TimerMachine.Reset(old(Current()), now).value.record))
    {
      if status != Completed {
        return Fail(NotCompleted);
      }
      Record(RecordFor(Current(), now, true));
      status := Idle;
      elapsed := 0;
      duration := 0;
      Save();
      r := Pass;
    }

    /** handleCompletion: the closing step of a foreground session. */
    method HandleCompletion(now: int)
      modifies this, stateManager, historyManager
      ensures historyManager == old(historyManager)
      ensures Current() == TimerMachine.HandleCompletion(old(Current()), now).fields
      ensures stateManager != null ==> stateManager.file == Holds(Snapshot(Current()))
      ensures historyManager != null ==>
                historyManager.file == Appended(old(historyManager.file), TimerMachine.HandleCompletion(old(Current()), now).record)
    {
      var before := Current();
      status := Completed;
      elapsed := duration;
      Save();
      Record(RecordFor(before, now, true));
    }

    /** SetHistoryManager. */
    method SetHistoryManager(hm: HistoryManager?)
      modifies this
      ensures historyManager == hm
      ensures Current() == old(Current())
    {
      historyManager := hm;
    }
  }
}
