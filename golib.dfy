/**
 * The pieces of Go's standard library that the core calls and whose behaviour
 * matters to it, written out: `time.Duration` units, truncating integer
 * division, int64 wrap-around, and the `strings`, `strconv` and
 * `path/filepath` functions used on keys, arguments and paths.
 * Paths are Unix paths; `filepath.Clean` normalisation is not modelled.
 */
module GoLib {
  import opened Wrappers

  // time.Duration units, in nanoseconds.
  const Second: int := 1_000_000_000
  const Minute: int := 60 * Second
  const Hour: int := 60 * Minute

  const MinInt64: int := -0x8000_0000_0000_0000
  const MaxInt64: int := 0x7FFF_FFFF_FFFF_FFFF

  predicate IsInt64(x: int) { MinInt64 <= x <= MaxInt64 }

  /** The int64 value a Go int64 operation yields for the exact result `x`. */
  function WrapInt64(x: int): (r: int)
    ensures IsInt64(r)
    ensures IsInt64(x) ==> r == x
  {
    (x - MinInt64) % 0x1_0000_0000_0000_0000 + MinInt64
  }

  /** Go's integer `/`: truncates toward zero (Dafny's `/` is Euclidean). */
  function GoDiv(a: int, b: int): int
    requires b > 0
  {
    if a >= 0 then a / b else -((-a) / b)
  }

  /** Go's integer `%`: the remainder takes the sign of the dividend. */
  function GoMod(a: int, b: int): int
    requires b > 0
  {
    a - b * GoDiv(a, b)
  }

  /** Whole hours are whole minutes divided by 60. */
  lemma HoursFromMinutes(d: int)
    requires d >= 0
    ensures d / Hour == (d / Minute) / 60
  {
  }

  /** Whole minutes are whole seconds divided by 60. */
  lemma MinutesFromSeconds(d: int)
    requires d >= 0
    ensures d / Minute == (d / Second) / 60
  {
  }

  // ----- strings -----

  /** strings.Contains */
  predicate Contains(s: string, sub: string)
    decreases |s|
  {
    sub <= s || (|s| > 0 && Contains(s[1..], sub))
  }

  /** Searching for a one-character string is membership of that character. */
  lemma {:induction false} ContainsChar(s: string, c: char)
    ensures Contains(s, [c]) <==> c in s
    decreases |s|
  {
    if |s| > 0 {
      ContainsChar(s[1..], c);
      assert s == [s[0]] + s[1..];
    }
  }

  /** strings.HasSuffix */
  predicate HasSuffix(s: string, suffix: string)
  {
    |suffix| <= |s| && s[|s| - |suffix|..] == suffix
  }

  /** strings.Join */
  function Join(parts: seq<string>, sep: string): string
  {
    if |parts| == 0 then ""
    else if |parts| == 1 then parts[0]
    else parts[0] + sep + Join(parts[1..], sep)
  }

  /** strings.Split with a one-character separator: Join undoes it, and no part holds the separator. */
  function Split(s: string, sep: char): (parts: seq<string>)
    ensures |parts| >= 1
    ensures forall k :: 0 <= k < |parts| ==> sep !in parts[k]
    ensures Join(parts, [sep]) == s
    decreases |s|
  {
    if |s| == 0 then [""]
    else
      var rest := Split(s[1..], sep);
      if s[0] == sep then
        assert Join([""] + rest, [sep]) == [sep] + Join(rest, [sep]);
        [""] + rest
      else
        var parts := [[s[0]] + rest[0]] + rest[1..];
        assert Join(parts, [sep]) == [s[0]] + Join(rest, [sep]) by {
          if |rest| > 1 {
            assert parts[1..] == rest[1..];
          }
        }
        parts
  }

  /** A string without the separator splits into itself alone. */
  lemma {:induction false} SplitNoSep(s: string, sep: char)
    requires sep !in s
    ensures Split(s, sep) == [s]
    decreases |s|
  {
    if |s| > 0 {
      SplitNoSep(s[1..], sep);
    }
  }

  /** Text before the first separator becomes the first part. */
  lemma {:induction false} SplitPrefix(a: string, rest: string, sep: char)
    requires sep !in a
    ensures Split(a + [sep] + rest, sep) == [a] + Split(rest, sep)
    decreases |a|
  {
    var s := a + [sep] + rest;
    if |a| == 0 {
      assert s[1..] == rest;
    } else {
      assert s[1..] == a[1..] + [sep] + rest;
      SplitPrefix(a[1..], rest, sep);
      assert [a[0]] + a[1..] == a;
    }
  }

  function LowerChar(c: char): char
  {
    if 'A' <= c <= 'Z' then (c as int + 32) as char else c
  }

  /** strings.ToLower, restricted to ASCII letters. */
  function ToLower(s: string): (r: string)
    ensures |r| == |s|
    ensures forall i :: 0 <= i < |s| ==> r[i] == LowerChar(s[i])
  {
    seq(|s|, i requires 0 <= i < |s| => LowerChar(s[i]))
  }

  /** Lower-casing twice is lower-casing once. */
  lemma ToLowerIdempotent(s: string)
    ensures ToLower(ToLower(s)) == ToLower(s)
  {
  }

  // ----- strconv and fmt's %d -----

  predicate IsDigit(c: char) { '0' <= c <= '9' }

  predicate AllDigits(s: string) { forall i :: 0 <= i < |s| ==> IsDigit(s[i]) }

  function DigitChar(d: int): (c: char)
    requires 0 <= d < 10
    ensures IsDigit(c) && c as int - '0' as int == d
  {
    ('0' as int + d) as char
  }

  /** Decimal digits of a natural number, most significant first. */
  function NatToString(n: nat): (s: string)
    ensures |s| >= 1 && AllDigits(s)
    decreases n
  {
    if n < 10 then [DigitChar(n)] else NatToString(n / 10) + [DigitChar(n % 10)]
  }

  /** strconv.Itoa, and what fmt's %d prints. */
  function IntToString(n: int): string
  {
    if n < 0 then "-" + NatToString(-n) else NatToString(n)
  }

  /** The number a string of decimal digits denotes. */
  function DigitsValue(s: string): nat
    requires AllDigits(s)
    decreases |s|
  {
    if |s| == 0 then 0 else 10 * DigitsValue(s[..|s| - 1]) + (s[|s| - 1] as int - '0' as int)
  }

  lemma {:induction false} DigitsValueOfNatToString(n: nat)
    ensures DigitsValue(NatToString(n)) == n
    decreases n
  {
    if n >= 10 {
      DigitsValueOfNatToString(n / 10);
      var s := NatToString(n);
      assert s[..|s| - 1] == NatToString(n / 10);
    }
  }

  /** strconv.Atoi on a 64-bit platform: an optional sign, then at least one digit, within int64. */
  function Atoi(s: string): (r: Option<int>)
    ensures r.Some? ==> IsInt64(r.value)
  {
    var negative := |s| > 0 && s[0] == '-';
    var body := if |s| > 0 && (s[0] == '-' || s[0] == '+') then s[1..] else s;
    if |body| == 0 || !AllDigits(body) then None
    else
      var v: int := if negative then 0 - DigitsValue(body) else DigitsValue(body);
      if IsInt64(v) then Some(v) else None
  }

  /** Atoi reads back what Itoa prints, for every int64. */
  lemma AtoiIntToString(n: int)
    requires IsInt64(n)
    ensures Atoi(IntToString(n)) == Some(n)
  {
    var s := IntToString(n);
    if n < 0 {
      DigitsValueOfNatToString(-n);
      assert s[0] == '-' && s[1..] == NatToString(-n);
    } else {
      DigitsValueOfNatToString(n);
      assert s == NatToString(n) && IsDigit(s[0]);
    }
  }

  /** for each c in `list`, in order: the first one that occurs in `s`. */
  function FirstContained(list: seq<char>, s: string): (r: Option<char>)
    ensures r.Some? ==> r.value in list && r.value in s
    ensures r.None? <==> forall k :: 0 <= k < |list| ==> list[k] !in s
    ensures r.Some? ==> exists k :: 0 <= k < |list| && list[k] == r.value &&
                          forall j :: 0 <= j < k ==> list[j] !in s
  {
    if |list| == 0 then None
    else if list[0] in s then Some(list[0])
    else
      var r := FirstContained(list[1..], s);
      assert r.Some? ==> exists k :: 0 <= k < |list| - 1 && list[1..][k] == r.value &&
                          forall j :: 0 <= j < k ==> list[1..][j] !in s;
      r
  }

  /** The first listed character present is the one at the first index whose character occurs. */
  lemma {:induction false} FirstContainedAt(list: seq<char>, s: string, i: nat)
    requires i < |list| && list[i] in s
    requires forall k :: 0 <= k < i ==> list[k] !in s
    ensures FirstContained(list, s) == Some(list[i])
  {
    if i > 0 {
      FirstContainedAt(list[1..], s, i - 1);
    }
  }

  // ----- os -----

  /** The process environment: os.Getenv's variables and os.UserHomeDir's answer. */
  datatype Env = Env(vars: map<string, string>, home: Option<string>)

  /** os.Getenv: the empty string when the variable is unset. */
  function Getenv(env: Env, name: string): string
  {
    if name in env.vars then env.vars[name] else ""
  }

  // ----- path/filepath (Unix) -----

  /** filepath.IsAbs */
  predicate IsAbs(path: string) { "/" <= path }

  /** filepath.Join of two elements; empty elements are skipped. */
  function PathJoin(a: string, b: string): string
  {
    if a == "" then b else if b == "" then a else a + "/" + b
  }

  /**
   * filepath.Base for a path that does not end in a separator: the text after
   * the last '/'.
   */
  function Base(path: string): (b: string)
    ensures '/' !in b && HasSuffix(path, b)
    decreases |path|
  {
    if |path| == 0 || path[|path| - 1] == '/' then ""
    else Base(path[..|path| - 1]) + [path[|path| - 1]]
  }

  /**
   * filepath.Ext: the suffix of the last element that starts at its final
   * '.', or "" when the last element has no '.'.
   */
  function Ext(path: string): (e: string)
    ensures HasSuffix(path, e)
    ensures e == "" || (e[0] == '.' && '/' !in e)
    decreases |path|
  {
    if |path| == 0 || path[|path| - 1] == '/' then ""
    else if path[|path| - 1] == '.' then "."
    else
      var init := path[..|path| - 1];
      var e := Ext(init);
      assert init + [path[|path| - 1]] == path;
      if e == "" then ""
      else
        ExtExtended(init, path[|path| - 1], e);
        e + [path[|path| - 1]]
  }

  /** A non-separator appended to a path extends its extension. */
  lemma ExtExtended(s: string, c: char, e: string)
    requires HasSuffix(s, e) && c != '/' && e != "" && e[0] == '.' && '/' !in e
    ensures HasSuffix(s + [c], e + [c]) && (e + [c])[0] == '.' && '/' !in e + [c]
  {
    assert (s + [c])[|s| + 1 - (|e| + 1)..] == s[|s| - |e|..] + [c];
  }

  /** A path has extension ".lua" exactly when it ends in ".lua". */
  lemma {:induction false} ExtIsLua(path: string)
    ensures Ext(path) == ".lua" <==> HasSuffix(path, ".lua")
  {
    if HasSuffix(path, ".lua") {
      var q := path[..|path| - 4];
      assert path == q + ".lua";
      assert (q + ".lua")[..|q| + 3] == q + ".lu";
      assert (q + ".lu")[..|q| + 2] == q + ".l";
      assert (q + ".l")[..|q| + 1] == q + ".";
      assert Ext(q + ".") == ".";
      assert Ext(q + ".l") == ".l";
      assert Ext(q + ".lu") == ".lu";
    }
  }
}
