/**
 * The session history: a newest-first list of session records kept in one
 * file, capped at 100 entries.
 */
module HistoryStore {
  import opened Wrappers
  import opened Engine

  /** SessionRecord: times are nanoseconds since the epoch, durations nanoseconds. */
  datatype SessionRecord = SessionRecord(
    sessionType: SessionType,
    duration: int,
    startTime: int,
    endTime: int,
    completed: bool)

  /** The most records the file keeps. */
  const Capacity: nat := 100

  /** The history file: absent, holding a list, or present but unreadable or not valid JSON. */
  datatype HistoryFile = NoFile | Saved(records: seq<SessionRecord>) | Corrupt

  datatype HistoryError = ReadFailure | NoHistory

  function Min(a: int, b: int): int { if a <= b then a else b }

  /** loadHistory: an absent file is an empty history. */
  function LoadHistory(file: HistoryFile): (r: Result<seq<SessionRecord>, HistoryError>)
    ensures file.NoFile? ==> r == Ok([])
    ensures file.Saved? ==> r == Ok(file.records)
    ensures r.Err? <==> file.Corrupt?
  {
    match file
    case NoFile => Ok([])
    case Saved(records) => Ok(records)
    case Corrupt => Err(ReadFailure)
  }

  /** The list after adding `rec`: it goes first, and only the newest 100 remain. */
  function Prepend(h: seq<SessionRecord>, rec: SessionRecord): (r: seq<SessionRecord>)
    ensures |r| == Min(|h| + 1, Capacity)
    ensures r[0] == rec
    ensures r[1..] == h[..Min(|h|, Capacity - 1)]
  {
    var all := [rec] + h;
    if |all| > Capacity then all[..Capacity] else all
  }

  /** The file after AddSession: unchanged when the old history cannot be loaded. */
  function AfterAdd(file: HistoryFile, rec: SessionRecord): (r: HistoryFile)
    ensures file.Corrupt? ==> r == file
    ensures !file.Corrupt? ==> r == Saved(Prepend(LoadHistory(file).value, rec))
  {
    match LoadHistory(file)
    case Err(_) => file
    case Ok(h) => Saved(Prepend(h, rec))
  }

  /** GetRecentSessions' answer: the first `count` records, or all of them when there are fewer. */
  function Recent(h: seq<SessionRecord>, count: int): (r: seq<SessionRecord>)
    requires count >= 0 || |h| == 0
    ensures |r| == if |h| == 0 then 0 else Min(count, |h|)
    ensures r <= h
  {
    if |h| == 0 then [] else if count > |h| then h else h[..count]
  }

  /** Adding to a history already within the cap keeps it within the cap, and never loses the new record. */
  lemma PrependBounded(h: seq<SessionRecord>, rec: SessionRecord)
    ensures |Prepend(h, rec)| <= Capacity
    ensures rec in Prepend(h, rec)
  {
  }

  /** Two additions in a row put the later one first and the earlier one second. */
  lemma PrependTwice(h: seq<SessionRecord>, a: SessionRecord, b: SessionRecord)
    ensures Prepend(Prepend(h, a), b)[..2] == [b, a]
    ensures Prepend(Prepend(h, a), b)[2..] == h[..Min(|h|, Capacity - 2)]
  {
    var once := Prepend(h, a);
    var twice := Prepend(once, b);
    assert twice[1..] == once[..Min(|once|, Capacity - 1)];
    assert twice[1] == once[0];
    assert twice[2..] == once[1..Min(|once|, Capacity - 1)];
  }

  /** The record just added is what the last-session query and a one-record query return. */
  lemma AddedIsNewest(file: HistoryFile, rec: SessionRecord)
    requires !file.Corrupt?
    ensures LoadHistory(AfterAdd(file, rec)) == Ok(Prepend(LoadHistory(file).value, rec))
    ensures Recent(LoadHistory(AfterAdd(file, rec)).value, 1) == [rec]
  {
    var h := Prepend(LoadHistory(file).value, rec);
    assert Recent(h, 1) == h[..1];
  }

  /** HistoryManager: owns the history file. */
  class HistoryManager {
    var file: HistoryFile

    constructor (initial: HistoryFile)
      ensures file == initial
    {
      file := initial;
    }

    /** AddSession: load, put the record first, keep 100, save; a load failure leaves the file alone. */
    method AddSession(rec: SessionRecord) returns (r: Outcome<HistoryError>)
      modifies this
      ensures file == AfterAdd(old(file), rec)
      ensures r.Fail? <==> old(file).Corrupt?
    {
      var loaded := LoadHistory(file);
      if loaded.Err? {
        return Fail(loaded.error);
      }
      var history := [rec] + loaded.value;
      if |history| > Capacity {
        history := history[..Capacity];
      }
      file := Saved(history);
      r := Pass;
    }

    /** GetLastSession: the newest record; an error for an empty or unloadable history. */
    method GetLastSession() returns (r: Result<SessionRecord, HistoryError>)
      ensures r.Ok? <==> LoadHistory(file).Ok? && |LoadHistory(file).value| > 0
      ensures r.Ok? ==> r.value == LoadHistory(file).value[0]
      ensures file.Corrupt? ==> r == Err(ReadFailure)
      ensures LoadHistory(file) == Ok([]) ==> r == Err(NoHistory)
    {
      var loaded := LoadHistory(file);
      if loaded.Err? {
        return Err(loaded.error);
      }
      if |loaded.value| == 0 {
        return Err(NoHistory);
      }
      r := Ok(loaded.value[0]);
    }

    /**
     * GetRecentSessions: the newest `count` records. A negative count on a
     * non-empty history is a slice-bounds panic in the source, hence the
     * precondition.
     */
    method GetRecentSessions(count: int) returns (r: Result<seq<SessionRecord>, HistoryError>)
      requires count >= 0 || !file.Saved? || |file.records| == 0
      ensures r.Err? <==> file.Corrupt?
      ensures r.Ok? ==> r.value == Recent(LoadHistory(file).value, count)
    {
      var loaded := LoadHistory(file);
      if loaded.Err? {
        return Err(loaded.error);
      }
      var history := loaded.value;
      if |history| == 0 {
        return Ok([]);
      }
      var n := count;
      if n > |history| {
        n := |history|;
      }
      r := Ok(history[..n]);
    }
  }

  /** The history file's name inside the state directory. */
  const HistoryFileName := "session_history.json"
}
