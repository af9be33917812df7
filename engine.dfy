/** The timer's shared vocabulary: its status enum and its session types. */
module Engine {

  /** TimerStatus. */
  datatype Status = Idle | Running | Paused | Completed

  /**
   * SessionType is a Go string type; the three named values are the ones the
   * commands use, and the empty string means no type was ever set.
   */
  type SessionType = string

  const Work: SessionType := "work"
  const Break: SessionType := "break"
  const LongBreak: SessionType := "long-break"
}
