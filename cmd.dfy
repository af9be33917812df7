/**
 * The program entry's pre-scan of its arguments for a configuration file
 * (cmd/pomodux/main.go), done before the command parser runs.
 */
module Cmd {

  const ConfigFlag := "--config"
  const ConfigFlagEq := "--config="

  /** Argument `k` settles the scan: `--config` with a following argument, or `--config=...`. */
  predicate MatchAt(args: seq<string>, k: int)
    requires 0 <= k < |args|
  {
    (args[k] == ConfigFlag && k + 1 < |args|) || ConfigFlagEq <= args[k]
  }

  /** The file name a settling argument names. */
  function ValueAt(args: seq<string>, k: int): string
    requires 0 <= k < |args| && MatchAt(args, k)
  {
    if args[k] == ConfigFlag && k + 1 < |args| then args[k + 1] else args[k][|ConfigFlagEq|..]
  }

  /** The scan as a recursive reference: the first settling argument decides, else "". */
  function ScanConfig(args: seq<string>): string
    decreases |args|
  {
    if |args| == 0 then ""
    else if MatchAt(args, 0) then ValueAt(args, 0)
    else ScanConfig(args[1..])
  }

  /** The first settling argument decides the file, whatever follows it. */
  lemma {:induction false} FirstMatchWins(args: seq<string>, k: int)
    requires 0 <= k < |args| && MatchAt(args, k)
    requires forall j :: 0 <= j < k ==> !MatchAt(args, j)
    ensures ScanConfig(args) == ValueAt(args, k)
    decreases k
  {
    if k > 0 {
      var tail := args[1..];
      assert MatchAt(tail, k - 1) && ValueAt(tail, k - 1) == ValueAt(args, k);
      forall j | 0 <= j < k - 1
        ensures !MatchAt(tail, j)
      {
        assert !MatchAt(args, j + 1);
      }
      FirstMatchWins(tail, k - 1);
    }
  }

  /** With no settling argument the result is empty. */
  lemma {:induction false} NoMatchNoFile(args: seq<string>)
    requires forall j :: 0 <= j < |args| ==> !MatchAt(args, j)
    ensures ScanConfig(args) == ""
    decreases |args|
  {
    if |args| > 0 {
      var tail := args[1..];
      forall j | 0 <= j < |tail|
        ensures !MatchAt(tail, j)
      {
        assert !MatchAt(args, j + 1);
      }
      NoMatchNoFile(tail);
    }
  }

  /**
   * A trailing `--config` with nothing after it changes nothing: it is
   * skipped (unless it is itself the value of a `--config` just before it).
   */
  lemma {:induction false} TrailingFlagSkipped(args: seq<string>)
    requires |args| == 0 || args[|args| - 1] != ConfigFlag
    ensures ScanConfig(args + [ConfigFlag]) == ScanConfig(args)
    decreases |args|
  {
    var ext := args + [ConfigFlag];
    if |args| == 0 {
      assert !MatchAt(ext, 0);
      assert ext[1..] == [];
    } else {
      assert ext[1..] == args[1..] + [ConfigFlag];
      assert MatchAt(ext, 0) == MatchAt(args, 0) by {
        if |args| == 1 {
          assert args[0] != ConfigFlag;
        }
      }
      if MatchAt(args, 0) {
        assert ValueAt(ext, 0) == ValueAt(args, 0);
      } else {
        TrailingFlagSkipped(args[1..]);
      }
    }
  }

  /** The loop over os.Args[1:] that stops at the first settling argument. */
  method ScanArgs(args: seq<string>) returns (cfgFile: string)
    ensures cfgFile == ScanConfig(args)
  {
    cfgFile := "";
    var i := 0;
    while i < |args|
      invariant 0 <= i <= |args|
      invariant cfgFile == ""
      invariant ScanConfig(args[i..]) == ScanConfig(args)
    {
      assert args[i..][1..] == args[i + 1..];
      if args[i] == ConfigFlag && i + 1 < |args| {
        cfgFile := args[i + 1];
        break;
      } else if ConfigFlagEq <= args[i] {
        cfgFile := args[i][|ConfigFlagEq|..];
        break;
      }
      i := i + 1;
    }
  }

  /** Which loader main calls. */
  datatype LoadChoice = DefaultLocation | FromPath(path: string)

  /** An empty file name, including `--config=` with nothing after it, means the default location. */
  function ChooseLoad(cfgFile: string): (c: LoadChoice)
    ensures c == DefaultLocation <==> cfgFile == ""
    ensures c.FromPath? ==> c.path == cfgFile
  {
    if cfgFile != "" then FromPath(cfgFile) else DefaultLocation
  }

  lemma ScanExamples()
    ensures ScanConfig(["start", "--config", "a.yaml"]) == "a.yaml"
    ensures ScanConfig(["--config=b.yaml", "--config", "c.yaml"]) == "b.yaml"
    ensures ScanConfig(["start", "--config"]) == ""
    ensures ChooseLoad(ScanConfig(["--config="])) == DefaultLocation
  {
    var a := ["start", "--config", "a.yaml"];
    assert !MatchAt(a, 0) && MatchAt(a, 1);
    FirstMatchWins(a, 1);
    var b := ["--config=b.yaml", "--config", "c.yaml"];
    assert MatchAt(b, 0);
    assert b[0][|ConfigFlagEq|..] == "b.yaml";
    TrailingFlagSkipped(["start"]);
    assert ["start"] + [ConfigFlag] == ["start", "--config"];
    assert !MatchAt(["start"], 0);
    NoMatchNoFile(["start"]);
    var e := ["--config="];
    assert MatchAt(e, 0) && e[0][|ConfigFlagEq|..] == "";
  }
}
