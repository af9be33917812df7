/**
 * The history command's reporting (internal/cli/history.go): the session
 * filter, the limit, the statistics counters and the export path check.
 * A record's calendar date (`StartTime.Format("2006-01-02")`, in the local
 * zone) is the parameter `dateOf`; `filepath.Rel` is the parameter `rel`,
 * None where it fails.
 */
module CliHistory {
  import opened Wrappers
  import opened GoLib
  import opened Engine
  import opened HistoryStore

  // ----- filterSessions -----

  /** A session passes when it matches both filters; an empty filter matches everything. */
  predicate Matches(s: SessionRecord, sessionType: string, date: string, dateOf: int -> string)
  {
    (sessionType == "" || s.sessionType == sessionType) &&
    (date == "" || dateOf(s.startTime) == date)
  }

  /** The filter as a reference definition, built front to back. */
  function Filter(sessions: seq<SessionRecord>, sessionType: string, date: string, dateOf: int -> string): seq<SessionRecord>
  {
    if |sessions| == 0 then []
    else
      var init := Filter(sessions[..|sessions| - 1], sessionType, date, dateOf);
      var last := sessions[|sessions| - 1];
      if Matches(last, sessionType, date, dateOf) then init + [last] else init
  }

  /** `a` is `b` with some elements left out, the rest in the same order. */
  predicate IsSubsequence<T(==)>(a: seq<T>, b: seq<T>)
    decreases |b|
  {
    |a| == 0 ||
    (|b| > 0 &&
     ((a[|a| - 1] == b[|b| - 1] && IsSubsequence(a[..|a| - 1], b[..|b| - 1])) ||
      IsSubsequence(a, b[..|b| - 1])))
  }

  /** The sessions kept are exactly those that match, in their original order. */
  lemma FilterMeaning(sessions: seq<SessionRecord>, sessionType: string, date: string, dateOf: int -> string)
    ensures IsSubsequence(Filter(sessions, sessionType, date, dateOf), sessions)
    ensures forall s :: s in Filter(sessions, sessionType, date, dateOf) <==>
                          s in sessions && Matches(s, sessionType, date, dateOf)
    ensures |Filter(sessions, sessionType, date, dateOf)| <= |sessions|
  {
    FilterKeepsOrder(sessions, sessionType, date, dateOf);
    FilterMembers(sessions, sessionType, date, dateOf);
  }

  lemma {:induction false} FilterKeepsOrder(sessions: seq<SessionRecord>, sessionType: string, date: string,
                                            dateOf: int -> string)
    ensures IsSubsequence(Filter(sessions, sessionType, date, dateOf), sessions)
    ensures |Filter(sessions, sessionType, date, dateOf)| <= |sessions|
    decreases |sessions|
  {
    if |sessions| > 0 {
      var init := sessions[..|sessions| - 1];
      var f := Filter(sessions, sessionType, date, dateOf);
      FilterKeepsOrder(init, sessionType, date, dateOf);
      if Matches(sessions[|sessions| - 1], sessionType, date, dateOf) {
        assert f[..|f| - 1] == Filter(init, sessionType, date, dateOf);
      }
    }
  }

  lemma {:induction false} FilterMembers(sessions: seq<SessionRecord>, sessionType: string, date: string,
                                         dateOf: int -> string)
    ensures forall s :: s in Filter(sessions, sessionType, date, dateOf) <==>
                          s in sessions && Matches(s, sessionType, date, dateOf)
    decreases |sessions|
  {
    if |sessions| > 0 {
      var init := sessions[..|sessions| - 1];
      FilterMembers(init, sessionType, date, dateOf);
      assert sessions == init + [sessions[|sessions| - 1]];
    }
  }

  /** With both filters empty every session is kept. */
  lemma {:induction false} EmptyFiltersKeepAll(sessions: seq<SessionRecord>, dateOf: int -> string)
    ensures Filter(sessions, "", "", dateOf) == sessions
    decreases |sessions|
  {
    if |sessions| > 0 {
      EmptyFiltersKeepAll(sessions[..|sessions| - 1], dateOf);
    }
  }

  /** filterSessions: the loop that appends each matching session to the result. */
  method FilterSessions(sessions: seq<SessionRecord>, sessionType: string, date: string, dateOf: int -> string)
    returns (filtered: seq<SessionRecord>)
    ensures filtered == Filter(sessions, sessionType, date, dateOf)
  {
    filtered := [];
    var i := 0;
    while i < |sessions|
      invariant 0 <= i <= |sessions|
      invariant filtered == Filter(sessions[..i], sessionType, date, dateOf)
    {
      var session := sessions[i];
      assert sessions[..i + 1][..i] == sessions[..i];
      if sessionType != "" && session.sessionType != sessionType {
        i := i + 1;
        continue;
      }
      if date != "" {
        var sessionDate := dateOf(session.startTime);
        if sessionDate != date {
          i := i + 1;
          continue;
        }
      }
      filtered := filtered + [session];
      i := i + 1;
    }
    assert sessions[..i] == sessions;
  }

  // ----- the limit in runHistory -----

  /** A positive limit keeps the first `limit` sessions; any other limit keeps them all. */
  function LimitSessions(sessions: seq<SessionRecord>, limit: int): (r: seq<SessionRecord>)
    ensures limit <= 0 ==> r == sessions
    ensures limit > 0 ==> r == sessions[..Min(limit, |sessions|)]
    ensures r <= sessions
  {
    if limit > 0 && |sessions| > limit then sessions[..limit] else sessions
  }

  /** runHistory's selection: the newest 100 records, filtered, then limited. */
  function Selected(history: seq<SessionRecord>, sessionType: string, date: string, limit: int,
                    dateOf: int -> string): seq<SessionRecord>
  {
    LimitSessions(Filter(history[..Min(Capacity, |history|)], sessionType, date, dateOf), limit)
  }

  /** A prefix of a subsequence is still a subsequence. */
  lemma {:induction false} PrefixIsSubsequence<T>(a: seq<T>, b: seq<T>, n: nat)
    requires IsSubsequence(a, b)
    requires n <= |a|
    ensures IsSubsequence(a[..n], b)
    decreases |b|
  {
    if n == |a| {
      assert a[..n] == a;
    } else if n > 0 {
      var b' := b[..|b| - 1];
      if a[|a| - 1] == b[|b| - 1] && IsSubsequence(a[..|a| - 1], b') {
        PrefixIsSubsequence(a[..|a| - 1], b', n);
        assert a[..|a| - 1][..n] == a[..n];
      } else {
        PrefixIsSubsequence(a, b', n);
      }
    }
  }

  /**
   * The shown sessions are matching ones drawn from the 100 most recent, in
   * history order, and at most `limit` of them when it is positive.
   */
  lemma SelectedMeaning(history: seq<SessionRecord>, sessionType: string, date: string, limit: int,
                        dateOf: int -> string)
    ensures IsSubsequence(Selected(history, sessionType, date, limit, dateOf), history[..Min(Capacity, |history|)])
    ensures forall s :: s in Selected(history, sessionType, date, limit, dateOf) ==>
                          s in history[..Min(Capacity, |history|)] && Matches(s, sessionType, date, dateOf)
    ensures forall s :: s in Selected(history, sessionType, date, limit, dateOf) ==>
                          s in history && Matches(s, sessionType, date, dateOf)
    ensures limit > 0 ==> |Selected(history, sessionType, date, limit, dateOf)| <= limit
  {
    var recent := history[..Min(Capacity, |history|)];
    FilterMeaning(recent, sessionType, date, dateOf);
    var f := Filter(recent, sessionType, date, dateOf);
    var sel := Selected(history, sessionType, date, limit, dateOf);
    PrefixIsSubsequence(f, recent, |sel|);
    assert sel == f[..|sel|];
    forall s | s in Selected(history, sessionType, date, limit, dateOf)
      ensures s in history && Matches(s, sessionType, date, dateOf)
    {
      assert s in f;
      var k :| 0 <= k < |recent| && recent[k] == s;
      assert history[k] == s;
    }
  }

  // ----- showStatistics -----

  /** The counters and time totals the statistics loop keeps. */
  datatype Totals = Totals(
    workSessions: nat,
    breakSessions: nat,
    longBreakSessions: nat,
    completedSessions: nat,
    totalWorkTime: int,
    totalBreakTime: int)

  const NoTotals := Totals(0, 0, 0, 0, 0, 0)

  /** One session counted: its type picks a counter, long breaks add to the break time. */
  function Count(t: Totals, s: SessionRecord): Totals
  {
    var actual := s.endTime - s.startTime;
    var t' :=
      if s.sessionType == Work then t.(workSessions := t.workSessions + 1, totalWorkTime := t.totalWorkTime + actual)
      else if s.sessionType == Break then
        t.(breakSessions := t.breakSessions + 1, totalBreakTime := t.totalBreakTime + actual)
      else if s.sessionType == LongBreak then
        t.(longBreakSessions := t.longBreakSessions + 1, totalBreakTime := t.totalBreakTime + actual)
      else t;
    if s.completed then t'.(completedSessions := t'.completedSessions + 1) else t'
  }

  /** The totals over a list, counted front to back. */
  function Tally(sessions: seq<SessionRecord>): Totals
  {
    if |sessions| == 0 then NoTotals
    else Count(Tally(sessions[..|sessions| - 1]), sessions[|sessions| - 1])
  }

  /** The counters never exceed the number of sessions. */
  lemma {:induction false} TallyBounds(sessions: seq<SessionRecord>)
    ensures var t := Tally(sessions);
      t.workSessions + t.breakSessions + t.longBreakSessions <= |sessions| &&
      t.completedSessions <= |sessions|
    decreases |sessions|
  {
    if |sessions| > 0 {
      TallyBounds(sessions[..|sessions| - 1]);
    }
  }

  /** The totals of two lists side by side. */
  function Add(a: Totals, b: Totals): Totals
  {
    Totals(a.workSessions + b.workSessions, a.breakSessions + b.breakSessions,
           a.longBreakSessions + b.longBreakSessions, a.completedSessions + b.completedSessions,
           a.totalWorkTime + b.totalWorkTime, a.totalBreakTime + b.totalBreakTime)
  }

  /** Counting one more session on top of a sum only touches the second summand. */
  lemma CountAdd(x: Totals, y: Totals, s: SessionRecord)
    ensures Count(Add(x, y), s) == Add(x, Count(y, s))
  {
  }

  /** Counting is additive over concatenation, so the order of the sessions never matters to a split. */
  lemma {:induction false} TallyAppend(a: seq<SessionRecord>, b: seq<SessionRecord>)
    ensures Tally(a + b) == Add(Tally(a), Tally(b))
    decreases |b|
  {
    if |b| == 0 {
      assert a + b == a;
      assert Tally(b) == NoTotals;
      var t := Tally(a);
      assert Add(t, NoTotals) == t;
    } else {
      var b' := b[..|b| - 1];
      TallyAppend(a, b');
      assert b == b' + [b[|b| - 1]];
      TallyAppendLast(a, b', b[|b| - 1]);
    }
  }

  /** The inductive step: one more session at the end of the second list. */
  lemma TallyAppendLast(a: seq<SessionRecord>, b: seq<SessionRecord>, last: SessionRecord)
    requires Tally(a + b) == Add(Tally(a), Tally(b))
    ensures Tally(a + (b + [last])) == Add(Tally(a), Tally(b + [last]))
  {
    var ab := a + (b + [last]);
    assert ab[..|ab| - 1] == a + b;
    assert (b + [last])[..|b|] == b;
    CountAdd(Tally(a), Tally(b), last);
  }

  /** A long break adds its time to the break total and leaves the work total alone. */
  lemma LongBreakCountsAsBreak(sessions: seq<SessionRecord>, s: SessionRecord)
    requires s.sessionType == LongBreak
    ensures Tally(sessions + [s]).totalBreakTime == Tally(sessions).totalBreakTime + (s.endTime - s.startTime)
    ensures Tally(sessions + [s]).totalWorkTime == Tally(sessions).totalWorkTime
    ensures Tally(sessions + [s]).longBreakSessions == Tally(sessions).longBreakSessions + 1
    ensures Tally(sessions + [s]).breakSessions == Tally(sessions).breakSessions
  {
    assert (sessions + [s])[..|sessions|] == sessions;
  }

  /** A session of any other type moves only the completed counter. */
  lemma OtherTypeIgnored(sessions: seq<SessionRecord>, s: SessionRecord)
    requires s.sessionType !in {Work, Break, LongBreak}
    ensures Tally(sessions + [s]) ==
              Tally(sessions).(completedSessions := Tally(sessions).completedSessions + if s.completed then 1 else 0)
  {
    assert (sessions + [s])[..|sessions|] == sessions;
  }

  /** What showStatistics prints, as numbers (the percentages are left to floating point). */
  datatype Stats = Stats(totalSessions: nat, totals: Totals, averageWork: Option<int>)

  /** showStatistics: None for an empty list; otherwise the counted totals and, when there is work, its average. */
  method ShowStatistics(sessions: seq<SessionRecord>) returns (stats: Option<Stats>)
    ensures stats.None? <==> |sessions| == 0
    ensures stats.Some? ==> stats.value.totalSessions == |sessions| && stats.value.totals == Tally(sessions)
    ensures stats.Some? ==>
              (stats.value.averageWork.Some? <==> stats.value.totals.workSessions > 0)
    ensures stats.Some? && stats.value.averageWork.Some? ==>
              stats.value.averageWork.value == GoDiv(stats.value.totals.totalWorkTime, stats.value.totals.workSessions)
  {
    if |sessions| == 0 {
      return None;
    }
    var totalWorkTime, totalBreakTime := 0, 0;
    var workSessions, breakSessions, longBreakSessions: nat := 0, 0, 0;
    var completedSessions: nat := 0;
    var i := 0;
    while i < |sessions|
      invariant 0 <= i <= |sessions|
      invariant Tally(sessions[..i]) ==
                  Totals(workSessions, breakSessions, longBreakSessions, completedSessions,
                         totalWorkTime, totalBreakTime)
    {
      var session := sessions[i];
      assert sessions[..i + 1][..i] == sessions[..i];
      var actualDuration := session.endTime - session.startTime;
      if session.sessionType == Work {
        workSessions := workSessions + 1;
        totalWorkTime := totalWorkTime + actualDuration;
      } else if session.sessionType == Break {
        breakSessions := breakSessions + 1;
        totalBreakTime := totalBreakTime + actualDuration;
      } else if session.sessionType == LongBreak {
        longBreakSessions := longBreakSessions + 1;
        totalBreakTime := totalBreakTime + actualDuration;
      }
      if session.completed {
        completedSessions := completedSessions + 1;
      }
      i := i + 1;
    }
    assert sessions[..i] == sessions;
    var average: Option<int> := None;
    if workSessions > 0 {
      average := Some(GoDiv(totalWorkTime, workSessions));
    }
    stats := Some(Stats(|sessions|,
                        Totals(workSessions, breakSessions, longBreakSessions, completedSessions,
                               totalWorkTime, totalBreakTime),
                        average));
  }

  // ----- validateExportPath -----

  datatype ExportError = PathTraversal | DangerousChar(c: char) | NoHomeForCheck | OutsideHome

  /** The characters refused in an export path, in the order they are tried. */
  const DangerousChars: seq<char> := ['|', '&', ';', '`', '$', '(', ')', '<', '>', '*', '?']

  /** An absolute path is inside home when `filepath.Rel` succeeds with a result not starting "..". */
  predicate WithinHome(path: string, home: string, rel: (string, string) -> Option<string>)
  {
    rel(home, path).Some? && !(".." <= rel(home, path).value)
  }

  /**
   * validateExportPath: no "..", then none of the dangerous characters (the
   * first one found is named), then an absolute path must lie within home.
   */
  method ValidateExportPath(exportPath: string, home: Option<string>, rel: (string, string) -> Option<string>)
    returns (r: Outcome<ExportError>)
    ensures r == Fail(PathTraversal) <==> Contains(exportPath, "..")
    ensures !Contains(exportPath, "..") && FirstContained(DangerousChars, exportPath).Some? ==>
              r == Fail(DangerousChar(FirstContained(DangerousChars, exportPath).value))
    ensures r.Fail? && r.error.DangerousChar? ==> r.error.c in DangerousChars && r.error.c in exportPath
    ensures r == Fail(NoHomeForCheck) <==>
              !Contains(exportPath, "..") &&
              (forall k :: 0 <= k < |DangerousChars| ==> DangerousChars[k] !in exportPath) &&
              IsAbs(exportPath) && home.None?
    ensures r == Fail(OutsideHome) <==>
              !Contains(exportPath, "..") &&
              (forall k :: 0 <= k < |DangerousChars| ==> DangerousChars[k] !in exportPath) &&
              IsAbs(exportPath) && home.Some? && !WithinHome(exportPath, home.value, rel)
    ensures r == Pass <==>
              !Contains(exportPath, "..") &&
              (forall k :: 0 <= k < |DangerousChars| ==> DangerousChars[k] !in exportPath) &&
              (IsAbs(exportPath) ==> home.Some? && WithinHome(exportPath, home.value, rel))
  {
    if Contains(exportPath, "..") {
      return Fail(PathTraversal);
    }
    var i := 0;
    while i < |DangerousChars|
      invariant 0 <= i <= |DangerousChars|
      invariant forall k :: 0 <= k < i ==> DangerousChars[k] !in exportPath
    {
      ContainsChar(exportPath, DangerousChars[i]);
      if Contains(exportPath, [DangerousChars[i]]) {
        assert FirstContained(DangerousChars, exportPath) == Some(DangerousChars[i]) by {
          FirstContainedAt(DangerousChars, exportPath, i);
        }
        return Fail(DangerousChar(DangerousChars[i]));
      }
      i := i + 1;
    }
    if IsAbs(exportPath) {
      if home.None? {
        return Fail(NoHomeForCheck);
      }
      var relPath := rel(home.value, exportPath);
      if relPath.None? || ".." <= relPath.value {
        return Fail(OutsideHome);
      }
    }
    return Pass;
  }
}
