/**
 * The plugin registry and event bus (internal/plugin/manager.go). A Lua
 * script is modelled by the API calls it makes while loading and whether it
 * raises an error; a Lua function is an opaque `Callback` number. The event
 * channel is a bounded FIFO sequence, and the goroutine per hook becomes the
 * set of calls that one dequeued event dispatches.
 */
module Plugins {
  import opened Wrappers
  import opened GoLib

  type EventType = string

  const TimerStarted: EventType := "timer_started"
  const TimerPaused: EventType := "timer_paused"
  const TimerResumed: EventType := "timer_resumed"
  const TimerCompleted: EventType := "timer_completed"
  const TimerStopped: EventType := "timer_stopped"

  /** The capacity of the event channel. */
  const QueueCapacity: nat := 100

  /** The dynamic values an event's data map holds; `Other` carries its `%v` text. */
  datatype GoValue = GoString(s: string) | GoInt(i: int) | GoFloat(x: real) | GoBool(b: bool) | Other(text: string)

  /** Event: the timestamp is nanoseconds since the epoch. */
  datatype Event = Event(eventType: EventType, timestamp: int, data: map<string, GoValue>)

  // ----- the table a hook receives -----

  datatype LuaValue = LString(s: string) | LNumber(n: real) | LBool(b: bool)

  datatype EventTable = EventTable(eventType: string, timestamp: int, data: map<string, LuaValue>)

  /** callHook's conversion of one data value. */
  function ToLua(v: GoValue): (l: LuaValue)
    ensures v.GoString? ==> l == LString(v.s)
    ensures v.GoInt? ==> l == LNumber(v.i as real)
    ensures v.GoFloat? ==> l == LNumber(v.x)
    ensures v.GoBool? ==> l == LBool(v.b)
    ensures v.Other? ==> l == LString(v.text)
  {
    match v
    case GoString(s) => LString(s)
    case GoInt(i) => LNumber(i as real)
    case GoFloat(x) => LNumber(x)
    case GoBool(b) => LBool(b)
    case Other(text) => LString(text)
  }

  /** callHook's event table: the type, whole Unix seconds, and every data entry converted. */
  function ToEventTable(e: Event): (t: EventTable)
    ensures t.eventType == e.eventType
    ensures t.timestamp * Second <= e.timestamp < t.timestamp * Second + Second
    ensures t.data.Keys == e.data.Keys
    ensures forall k :: k in e.data ==> t.data[k] == ToLua(e.data[k])
  {
    EventTable(e.eventType, e.timestamp / Second, map k | k in e.data :: ToLua(e.data[k]))
  }

  // ----- what a script does while it loads -----

  type Callback = nat

  /** The fields of the table passed to register_plugin, each as its Lua string form. */
  datatype Descriptor = Descriptor(name: string, version: string, description: string, author: string)

  datatype ApiCall =
    | RegisterPlugin(info: Descriptor)
    | RegisterHook(eventType: EventType, callback: Callback)
    | OtherCall  // log, get_config: no effect on the registry

  datatype Script = Script(calls: seq<ApiCall>, raises: bool)

  /** The Lua state as loading sees it: the `plugin` global and the pending-hooks table. */
  datatype LoadState = LoadState(descriptor: Option<Descriptor>, pending: map<EventType, Callback>)

  const FreshState := LoadState(None, map[])

  /**
   * One API call. The plugin is not in the registry while its script runs,
   * so register_hook always writes the pending table (one slot per type) and
   * register_plugin clears that table without attaching anything.
   */
  function Step(st: LoadState, c: ApiCall): (r: LoadState)
    ensures c.RegisterPlugin? ==> r.descriptor == Some(c.info) && r.pending == map[]
    ensures c.RegisterHook? ==>
              r.descriptor == st.descriptor && r.pending.Keys == st.pending.Keys + {c.eventType} &&
              r.pending[c.eventType] == c.callback &&
              forall e :: e in st.pending && e != c.eventType ==> r.pending[e] == st.pending[e]
    ensures c.OtherCall? ==> r == st
  {
    match c
    case RegisterPlugin(info) => LoadState(Some(info), map[])
    case RegisterHook(eventType, callback) => st.(pending := st.pending[eventType := callback])
    case OtherCall => st
  }

  /**
   * A whole script's calls in order. The descriptor at the end is the one
   * the loader started with or one that some call registered.
   */
  function Run(st: LoadState, calls: seq<ApiCall>): (r: LoadState)
    ensures NoRegistration(calls) ==> r.descriptor == st.descriptor
    ensures r.descriptor == st.descriptor ||
            exists k :: 0 <= k < |calls| && calls[k].RegisterPlugin? && r.descriptor == Some(calls[k].info)
    decreases |calls|
  {
    if |calls| == 0 then st
    else
      var r := Run(Step(st, calls[0]), calls[1..]);
      assert NoRegistration(calls) ==> NoRegistration(calls[1..]) by {
        if NoRegistration(calls) {
          forall k | 0 <= k < |calls[1..]|
            ensures !calls[1..][k].RegisterPlugin?
          {
            assert calls[1..][k] == calls[k + 1];
          }
        }
      }
      assert r.descriptor != Step(st, calls[0]).descriptor ==>
               exists k :: 0 <= k < |calls| && calls[k].RegisterPlugin? && r.descriptor == Some(calls[k].info) by {
        if r.descriptor != Step(st, calls[0]).descriptor {
          var j :| 0 <= j < |calls[1..]| && calls[1..][j].RegisterPlugin? && r.descriptor == Some(calls[1..][j].info);
          assert calls[j + 1] == calls[1..][j];
        }
      }
      r
  }

  lemma {:induction false} RunAppend(st: LoadState, a: seq<ApiCall>, b: seq<ApiCall>)
    ensures Run(st, a + b) == Run(Run(st, a), b)
    decreases |a|
  {
    if |a| == 0 {
      assert a + b == b;
    } else {
      assert (a + b)[1..] == a[1..] + b;
      RunAppend(Step(st, a[0]), a[1..], b);
    }
  }

  /** Calls other than register_plugin leave the descriptor alone. */
  predicate NoRegistration(calls: seq<ApiCall>)
  {
    forall k :: 0 <= k < |calls| ==> !calls[k].RegisterPlugin?
  }

  /** Hooks alone fill the pending table, the last hook of each type winning. */
  lemma {:induction false} RunHooks(st: LoadState, calls: seq<ApiCall>)
    requires NoRegistration(calls)
    ensures Run(st, calls).descriptor == st.descriptor
    ensures st.pending.Keys <= Run(st, calls).pending.Keys
    ensures forall e :: e in Run(st, calls).pending ==>
              e in st.pending || exists k :: 0 <= k < |calls| && calls[k].RegisterHook? && calls[k].eventType == e
    decreases |calls|
  {
    if |calls| > 0 {
      assert NoRegistration(calls[1..]) by {
        forall k | 0 <= k < |calls[1..]|
          ensures !calls[1..][k].RegisterPlugin?
        {
          assert calls[1..][k] == calls[k + 1];
        }
      }
      RunHooks(Step(st, calls[0]), calls[1..]);
      forall e | e in Run(st, calls).pending
        ensures e in st.pending || exists k :: 0 <= k < |calls| && calls[k].RegisterHook? && calls[k].eventType == e
      {
        if e !in st.pending && !(calls[0].RegisterHook? && calls[0].eventType == e) {
          var k :| 0 <= k < |calls[1..]| && calls[1..][k].RegisterHook? && calls[1..][k].eventType == e;
          assert calls[k + 1] == calls[1..][k];
        }
      }
    }
  }

  /**
   * Hooks registered before the last register_plugin are discarded: what
   * survives is the descriptor of that call and the hooks after it.
   */
  lemma HooksBeforeRegistrationDiscarded(before: seq<ApiCall>, info: Descriptor, after: seq<ApiCall>)
    requires NoRegistration(after)
    ensures Run(FreshState, before + [RegisterPlugin(info)] + after) == Run(LoadState(Some(info), map[]), after)
    ensures Run(FreshState, before + [RegisterPlugin(info)] + after).descriptor == Some(info)
  {
    RunAppend(FreshState, before + [RegisterPlugin(info)], after);
    RunAppend(FreshState, before, [RegisterPlugin(info)]);
    RunHooks(LoadState(Some(info), map[]), after);
  }

  /** A script that never calls register_plugin leaves no descriptor. */
  lemma NeverRegisteredNoDescriptor(calls: seq<ApiCall>)
    requires NoRegistration(calls)
    ensures Run(FreshState, calls).descriptor.None?
  {
    RunHooks(FreshState, calls);
  }

  /** Of two hooks for one event type, the later replaces the earlier. */
  lemma LaterHookReplaces(st: LoadState, e: EventType, first: Callback, second: Callback)
    ensures e in Run(st, [RegisterHook(e, first), RegisterHook(e, second)]).pending
    ensures Run(st, [RegisterHook(e, first), RegisterHook(e, second)]).pending[e] == second
  {
    var calls := [RegisterHook(e, first), RegisterHook(e, second)];
    var s1 := Step(st, calls[0]);
    var s2 := Step(s1, calls[1]);
    assert calls[1..][1..] == [];
    assert Run(st, calls) == Run(s1, calls[1..]) == Run(s2, []) == s2;
  }

  // ----- the registry -----

  /** A loaded plugin: keyed and named by its file's name; each hooked type holds its callbacks. */
  datatype PluginEntry = PluginEntry(
    name: string,
    version: string,
    description: string,
    author: string,
    hooks: map<EventType, seq<Callback>>,
    enabled: bool)

  /** The pending table merged into a fresh hooks map. */
  function MergePending(pending: map<EventType, Callback>): (hooks: map<EventType, seq<Callback>>)
    ensures hooks.Keys == pending.Keys
    ensures forall e :: e in hooks ==> hooks[e] == [pending[e]]
  {
    map e | e in pending :: [pending[e]]
  }

  datatype LoadError =
    | AlreadyLoaded(name: string)
    | ScriptFailed(name: string)
    | NotRegistered(name: string)
    | BadPath(error: PathError)
    | ReadFailed(path: string)
    | WalkFailed

  /** LoadPlugin as a value: the registry with the new entry, or the error. */
  function AddPlugin(plugins: map<string, PluginEntry>, name: string, script: Script): (r: Result<map<string, PluginEntry>, LoadError>)
    ensures name in plugins ==> r == Err(AlreadyLoaded(name))
    ensures name !in plugins && script.raises ==> r == Err(ScriptFailed(name))
    ensures name !in plugins && !script.raises && Run(FreshState, script.calls).descriptor.None? ==>
              r == Err(NotRegistered(name))
    ensures r.Ok? <==> name !in plugins && !script.raises && Run(FreshState, script.calls).descriptor.Some?
    ensures r.Ok? ==> r.value.Keys == plugins.Keys + {name}
    ensures r.Ok? ==> forall n :: n in plugins ==> r.value[n] == plugins[n]
    ensures r.Ok? ==>
              var d := Run(FreshState, script.calls).descriptor.value;
              r.value[name] == PluginEntry(name, d.version, d.description, d.author,
                                           MergePending(Run(FreshState, script.calls).pending), true)
  {
    if name in plugins then Err(AlreadyLoaded(name))
    else if script.raises then Err(ScriptFailed(name))
    else
      var st := Run(FreshState, script.calls);
      match st.descriptor
      case None => Err(NotRegistered(name))
      case Some(d) =>
        Ok(plugins[name := PluginEntry(name, d.version, d.description, d.author, MergePending(st.pending), true)])
  }

  // ----- validateFilePath -----

  datatype PathError = PathTraversal | DangerousChar(c: char) | AbsoluteNotAllowed

  /** The characters refused in a plugin path, in the order they are tried. */
  const DangerousChars: seq<char> := ['|', '&', ';', '`', '$', '(', ')', '<', '>', '*', '?']

  /** Where an absolute plugin path may lie: under "/tmp/", or (as a plain string prefix) under home. */
  predicate AbsoluteAllowed(path: string, home: Option<string>)
  {
    "/tmp/" <= path || (home.Some? && home.value <= path)
  }

  /** No "..", and none of the refused characters. */
  predicate Clean(path: string)
  {
    !Contains(path, "..") && forall k :: 0 <= k < |DangerousChars| ==> DangerousChars[k] !in path
  }

  /** validateFilePath as a value. */
  function CheckPath(path: string, home: Option<string>): (r: Outcome<PathError>)
    ensures r == Fail(PathTraversal) <==> Contains(path, "..")
    ensures !Contains(path, "..") && FirstContained(DangerousChars, path).Some? ==>
              r == Fail(DangerousChar(FirstContained(DangerousChars, path).value))
    ensures r == Fail(AbsoluteNotAllowed) <==> Clean(path) && IsAbs(path) && !AbsoluteAllowed(path, home)
    ensures r == Pass <==> Clean(path) && (IsAbs(path) ==> AbsoluteAllowed(path, home))
  {
    if Contains(path, "..") then Fail(PathTraversal)
    else match FirstContained(DangerousChars, path)
      case Some(c) => Fail(DangerousChar(c))
      case None => if IsAbs(path) && !AbsoluteAllowed(path, home) then Fail(AbsoluteNotAllowed) else Pass
  }

  /**
   * The home check is a string prefix, not a directory test: a path in a
   * sibling directory whose name merely starts with the home directory's
   * name passes too.
   */
  lemma HomePrefixAdmitsSibling(home: string, rest: string)
    requires Clean(home + rest)
    requires |rest| > 0 && rest[0] != '/'
    ensures !(home + "/" <= home + rest)
    ensures CheckPath(home + rest, Some(home)) == Pass
  {
    assert (home + rest)[|home|] == rest[0];
    assert home <= home + rest;
  }

  /** validateFilePath: the loop over the dangerous characters, then the absolute-path rule. */
  method ValidateFilePath(filePath: string, home: Option<string>) returns (r: Outcome<PathError>)
    ensures r == CheckPath(filePath, home)
  {
    if Contains(filePath, "..") {
      return Fail(PathTraversal);
    }
    var i := 0;
    while i < |DangerousChars|
      invariant 0 <= i <= |DangerousChars|
      invariant forall k :: 0 <= k < i ==> DangerousChars[k] !in filePath
    {
      ContainsChar(filePath, DangerousChars[i]);
      if Contains(filePath, [DangerousChars[i]]) {
        FirstContainedAt(DangerousChars, filePath, i);
        return Fail(DangerousChar(DangerousChars[i]));
      }
      i := i + 1;
    }
    if IsAbs(filePath) {
      if "/tmp/" <= filePath {
        return Pass;
      }
      if home.Some? && home.value <= filePath {
        return Pass;
      }
      return Fail(AbsoluteNotAllowed);
    }
    return Pass;
  }

  // ----- loading from files -----

  /** The plugin name a file gives: its base name without the four characters of ".lua". */
  function PluginName(path: string): string
    requires |Base(path)| >= 4
  {
    Base(path)[..|Base(path)| - 4]
  }

  /** The last `k` characters, none of them '/', all belong to the base name. */
  lemma {:induction false} BaseKeepsTail(path: string, k: nat)
    requires k <= |path|
    requires forall j :: |path| - k <= j < |path| ==> path[j] != '/'
    ensures |Base(path)| >= k
    decreases k
  {
    if k > 0 {
      var init := path[..|path| - 1];
      forall j | |init| - (k - 1) <= j < |init|
        ensures init[j] != '/'
      {
        assert init[j] == path[j];
      }
      BaseKeepsTail(init, k - 1);
    }
  }

  /** A ".lua" path has a base name of at least four characters, so the name slice is in range. */
  lemma LuaBaseLongEnough(path: string)
    requires HasSuffix(path, ".lua")
    ensures |Base(path)| >= 4
  {
    forall j | |path| - 4 <= j < |path|
      ensures path[j] != '/'
    {
      assert path[j] == path[|path| - 4..][j - (|path| - 4)];
    }
    BaseKeepsTail(path, 4);
  }

  /**
   * What the caller must guarantee: a path that passes validation and can be
   * read has a base name long enough to drop ".lua" from (Go panics otherwise).
   */
  predicate NameSliceOk(path: string, home: Option<string>, read: string -> Option<Script>)
  {
    CheckPath(path, home) == Pass && read(path).Some? ==> |Base(path)| >= 4
  }

  /** LoadPluginFromFile as a value; `read` is the file's script, None when it cannot be read. */
  function AddFromFile(plugins: map<string, PluginEntry>, path: string, home: Option<string>,
                       read: string -> Option<Script>): (r: Result<map<string, PluginEntry>, LoadError>)
    requires NameSliceOk(path, home, read)
    ensures CheckPath(path, home).Fail? ==> r == Err(BadPath(CheckPath(path, home).error))
    ensures CheckPath(path, home) == Pass && read(path).None? ==> r == Err(ReadFailed(path))
    ensures CheckPath(path, home) == Pass && read(path).Some? ==>
              r == AddPlugin(plugins, PluginName(path), read(path).value)
  {
    match CheckPath(path, home)
    case Fail(e) => Err(BadPath(e))
    case Pass =>
      match read(path)
      case None => Err(ReadFailed(path))
      case Some(script) => AddPlugin(plugins, PluginName(path), script)
  }

  /** An entry of the directory walk; `Unwalkable` is an error the walk reports. */
  datatype DirEntry = Entry(path: string, isDir: bool) | Unwalkable

  predicate IsPluginFile(e: DirEntry)
  {
    e.Entry? && !e.isDir && Ext(e.path) == ".lua"
  }

  /** The registry after a failed load is the registry before it. */
  function Keep(plugins: map<string, PluginEntry>, r: Result<map<string, PluginEntry>, LoadError>): map<string, PluginEntry>
  {
    if r.Ok? then r.value else plugins
  }

  /** LoadPlugins as a value: each ".lua" file in walk order, failures skipped, a walk error ends it. */
  function Walk(plugins: map<string, PluginEntry>, entries: seq<DirEntry>, home: Option<string>,
                read: string -> Option<Script>): (map<string, PluginEntry>, Outcome<LoadError>)
    decreases |entries|
  {
    if |entries| == 0 then (plugins, Pass)
    else if entries[0].Unwalkable? then (plugins, Fail(WalkFailed))
    else if !IsPluginFile(entries[0]) then Walk(plugins, entries[1..], home, read)
    else
      ExtIsLua(entries[0].path);
      LuaBaseLongEnough(entries[0].path);
      Walk(Keep(plugins, AddFromFile(plugins, entries[0].path, home, read)), entries[1..], home, read)
  }

  /** Loading files never replaces or drops a plugin already in the registry: the first load wins. */
  lemma {:induction false} WalkKeepsLoaded(plugins: map<string, PluginEntry>, entries: seq<DirEntry>,
                                           home: Option<string>, read: string -> Option<Script>)
    ensures forall n :: n in plugins ==> n in Walk(plugins, entries, home, read).0 &&
                                          Walk(plugins, entries, home, read).0[n] == plugins[n]
    decreases |entries|
  {
    if |entries| > 0 && !entries[0].Unwalkable? {
      if IsPluginFile(entries[0]) {
        ExtIsLua(entries[0].path);
        LuaBaseLongEnough(entries[0].path);
        WalkKeepsLoaded(Keep(plugins, AddFromFile(plugins, entries[0].path, home, read)), entries[1..], home, read);
      } else {
        WalkKeepsLoaded(plugins, entries[1..], home, read);
      }
    }
  }

  /** Entry `k` is a ".lua" file that names plugin `n`. */
  predicate NamesPlugin(entries: seq<DirEntry>, k: int, n: string)
  {
    0 <= k < |entries| && IsPluginFile(entries[k]) && |Base(entries[k].path)| >= 4 &&
    PluginName(entries[k].path) == n
  }

  /** Loading one file adds at most the plugin named after it. */
  lemma FileAddsItsName(plugins: map<string, PluginEntry>, path: string, home: Option<string>,
                        read: string -> Option<Script>)
    requires NameSliceOk(path, home, read)
    ensures forall n :: n in Keep(plugins, AddFromFile(plugins, path, home, read)) ==>
              n in plugins || n == PluginName(path)
  {
  }

  /** Every plugin the walk adds is named after one of its ".lua" files. */
  lemma {:induction false} WalkAddsOnlyPluginFiles(plugins: map<string, PluginEntry>, entries: seq<DirEntry>,
                                                   home: Option<string>, read: string -> Option<Script>)
    ensures forall n :: n in Walk(plugins, entries, home, read).0 ==>
              n in plugins || exists k :: NamesPlugin(entries, k, n)
    decreases |entries|
  {
    if |entries| > 0 && !entries[0].Unwalkable? {
      var rest := entries[1..];
      var next := plugins;
      if IsPluginFile(entries[0]) {
        ExtIsLua(entries[0].path);
        LuaBaseLongEnough(entries[0].path);
        next := Keep(plugins, AddFromFile(plugins, entries[0].path, home, read));
        FileAddsItsName(plugins, entries[0].path, home, read);
      }
      assert Walk(plugins, entries, home, read) == Walk(next, rest, home, read);
      WalkAddsOnlyPluginFiles(next, rest, home, read);
      forall n | n in Walk(next, rest, home, read).0 && n !in plugins
        ensures exists k :: NamesPlugin(entries, k, n)
      {
        if n in next {
          assert n == PluginName(entries[0].path);
          assert NamesPlugin(entries, 0, n);
        } else {
          var k :| NamesPlugin(rest, k, n);
          assert rest[k] == entries[k + 1];
          assert NamesPlugin(entries, k + 1, n);
        }
      }
    }
  }

  /** A file that fails to load does not stop the walk; only an unwalkable entry does. */
  lemma FailedFileSkipped(plugins: map<string, PluginEntry>, e: DirEntry, rest: seq<DirEntry>,
                          home: Option<string>, read: string -> Option<Script>)
    requires IsPluginFile(e) && read(e.path).None?
    ensures Walk(plugins, [e] + rest, home, read) == Walk(plugins, rest, home, read)
  {
    assert ([e] + rest)[1..] == rest;
    ExtIsLua(e.path);
    LuaBaseLongEnough(e.path);
  }

  // ----- dispatch -----

  datatype HookCall = HookCall(plugin: string, callback: Callback)

  function HooksFor(p: PluginEntry, eventType: EventType): seq<Callback>
  {
    if eventType in p.hooks then p.hooks[eventType] else []
  }

  /** callPluginHooks over the plugins named in `names`: every hook of the event's type of every enabled one. */
  function DispatchOver(plugins: map<string, PluginEntry>, eventType: EventType, names: set<string>): set<HookCall>
  {
    set n, h | n in names && n in plugins && plugins[n].enabled && h in HooksFor(plugins[n], eventType) :: HookCall(n, h)
  }

  /** A hook is called exactly when its plugin is enabled and it is registered for the event's type. */
  function Dispatch(plugins: map<string, PluginEntry>, eventType: EventType): (calls: set<HookCall>)
    ensures forall c :: c in calls <==>
              c.plugin in plugins && plugins[c.plugin].enabled &&
              eventType in plugins[c.plugin].hooks && c.callback in plugins[c.plugin].hooks[eventType]
  {
    DispatchOver(plugins, eventType, plugins.Keys)
  }

  /** Disabling a plugin removes all its calls and no others. */
  lemma DisabledGetsNothing(plugins: map<string, PluginEntry>, name: string, eventType: EventType)
    requires name in plugins
    ensures Dispatch(plugins[name := plugins[name].(enabled := false)], eventType) ==
              set c | c in Dispatch(plugins, eventType) && c.plugin != name
  {
    var after := plugins[name := plugins[name].(enabled := false)];
    assert forall c :: c in Dispatch(after, eventType) <==> c in Dispatch(plugins, eventType) && c.plugin != name;
  }

  /** One plugin's calls for an event type. */
  function CallsOf(plugins: map<string, PluginEntry>, eventType: EventType, n: string): set<HookCall>
    requires n in plugins
  {
    if plugins[n].enabled then set h | h in HooksFor(plugins[n], eventType) :: HookCall(n, h) else {}
  }

  lemma DispatchOverAdd(plugins: map<string, PluginEntry>, eventType: EventType, names: set<string>, n: string)
    requires n in plugins
    ensures DispatchOver(plugins, eventType, names + {n}) ==
              DispatchOver(plugins, eventType, names) + CallsOf(plugins, eventType, n)
  {
  }

  /** The registry and event bus. */
  class PluginManager {
    var plugins: map<string, PluginEntry>
    var events: seq<Event>
    var done: bool
    const pluginsDir: string

    /** The channel never holds more than its capacity. */
    predicate Valid()
      reads this
    {
      |events| <= QueueCapacity
    }

    /** NewPluginManager: an empty registry and an empty, open channel. */
    constructor (dir: string)
      ensures Valid()
      ensures plugins == map[] && events == [] && !done && pluginsDir == dir
    {
      plugins := map[];
      events := [];
      done := false;
      pluginsDir := dir;
    }

    /** The script's API calls, run in order against the Lua state of the plugin being loaded. */
    static method RunScript(calls: seq<ApiCall>) returns (st: LoadState)
      ensures st == Run(FreshState, calls)
    {
      st := FreshState;
      var i := 0;
      while i < |calls|
        invariant 0 <= i <= |calls|
        invariant Run(st, calls[i..]) == Run(FreshState, calls)
      {
        assert calls[i..][1..] == calls[i + 1..];
        match calls[i] {
          case RegisterPlugin(info) =>
            st := LoadState(Some(info), map[]);
          case RegisterHook(eventType, callback) =>
            st := st.(pending := st.pending[eventType := callback]);
          case OtherCall =>
        }
        i := i + 1;
      }
    }

    /** LoadPlugin: a name already present is refused; a failing or unregistered script adds nothing. */
    method LoadPlugin(name: string, script: Script) returns (r: Outcome<LoadError>)
      requires Valid()
      modifies this
      ensures Valid()
      ensures r == Pass <==> AddPlugin(old(plugins), name, script).Ok?
      ensures r.Fail? ==> r.error == AddPlugin(old(plugins), name, script).error && plugins == old(plugins)
      ensures r == Pass ==> plugins == AddPlugin(old(plugins), name, script).value
      ensures events == old(events) && done == old(done)
    {
      if name in plugins {
        return Fail(AlreadyLoaded(name));
      }
      var st := RunScript(script.calls);
      if script.raises {
        return Fail(ScriptFailed(name));
      }
      if st.descriptor.None? {
        return Fail(NotRegistered(name));
      }
      var d := st.descriptor.value;
      var entry := PluginEntry(name, d.version, d.description, d.author, map[], true);
      entry := entry.(hooks := MergePending(st.pending));
      plugins := plugins[name := entry];
      r := Pass;
    }

    /** LoadPluginFromFile: validate the path, read the file, name the plugin after it. */
    method LoadPluginFromFile(filePath: string, home: Option<string>, read: string -> Option<Script>)
      returns (r: Outcome<LoadError>)
      requires Valid() && NameSliceOk(filePath, home, read)
      modifies this
      ensures Valid()
      ensures r == Pass <==> AddFromFile(old(plugins), filePath, home, read).Ok?
      ensures r.Fail? ==> r.error == AddFromFile(old(plugins), filePath, home, read).error && plugins == old(plugins)
      ensures plugins == Keep(old(plugins), AddFromFile(old(plugins), filePath, home, read))
      ensures events == old(events) && done == old(done)
    {
      var check := ValidateFilePath(filePath, home);
      if check.Fail? {
        return Fail(BadPath(check.error));
      }
      var content := read(filePath);
      if content.None? {
        return Fail(ReadFailed(filePath));
      }
      var base := Base(filePath);
      var pluginName := base[..|base| - 4];
      r := LoadPlugin(pluginName, content.value);
    }

    /** LoadPlugins: walk the directory, loading every ".lua" file and carrying on past failures. */
    method LoadPlugins(entries: seq<DirEntry>, home: Option<string>, read: string -> Option<Script>)
      returns (r: Outcome<LoadError>)
      requires Valid()
      modifies this
      ensures Valid()
      ensures (plugins, r) == Walk(old(plugins), entries, home, read)
      ensures events == old(events) && done == old(done)
    {
      var i := 0;
      while i < |entries|
        invariant 0 <= i <= |entries|
        invariant Valid()
        invariant Walk(plugins, entries[i..], home, read) == Walk(old(plugins), entries, home, read)
        invariant events == old(events) && done == old(done)
      {
        assert entries[i..][1..] == entries[i + 1..];
        var entry := entries[i];
        if entry.Unwalkable? {
          return Fail(WalkFailed);
        }
        if !entry.isDir && Ext(entry.path) == ".lua" {
          ExtIsLua(entry.path);
          LuaBaseLongEnough(entry.path);
          var _ := LoadPluginFromFile(entry.path, home, read);
        }
        i := i + 1;
      }
      return Pass;
    }

    /** EmitEvent: queued at the back while there is room, otherwise dropped. */
    method EmitEvent(event: Event)
      requires Valid()
      modifies this
      ensures Valid()
      ensures |old(events)| < QueueCapacity ==> events == old(events) + [event]
      ensures |old(events)| >= QueueCapacity ==> events == old(events)
      ensures plugins == old(plugins) && done == old(done)
    {
      if |events| < QueueCapacity {
        events := events + [event];
      }
    }

    /** callPluginHooks: the calls one event makes, gathered plugin by plugin in any order. */
    method CallPluginHooks(event: Event) returns (calls: set<HookCall>)
      ensures calls == Dispatch(plugins, event.eventType)
    {
      calls := {};
      var remaining := plugins.Keys;
      while remaining != {}
        invariant remaining <= plugins.Keys
        invariant calls == DispatchOver(plugins, event.eventType, plugins.Keys - remaining)
        decreases remaining
      {
        var name :| name in remaining;
        var plugin := plugins[name];
        DispatchOverAdd(plugins, event.eventType, plugins.Keys - remaining, name);
        assert (plugins.Keys - remaining) + {name} == plugins.Keys - (remaining - {name});
        if plugin.enabled {
          var hooks := HooksFor(plugin, event.eventType);
          var j := 0;
          var added: set<HookCall> := {};
          while j < |hooks|
            invariant 0 <= j <= |hooks|
            invariant added == set h | h in hooks[..j] :: HookCall(name, h)
          {
            assert hooks[..j + 1] == hooks[..j] + [hooks[j]];
            added := added + {HookCall(name, hooks[j])};
            j := j + 1;
          }
          assert hooks[..j] == hooks;
          calls := calls + added;
        }
        remaining := remaining - {name};
      }
    }

    /**
     * One turn of processEvents: after Shutdown the consumer has stopped;
     * otherwise it takes the front event, if any, and dispatches it with the
     * table callHook builds.
     */
    method ProcessNext() returns (dispatched: Option<(EventTable, set<HookCall>)>)
      requires Valid()
      modifies this
      ensures Valid()
      ensures done || |old(events)| == 0 ==> dispatched.None? && events == old(events)
      ensures !done && |old(events)| > 0 ==>
                events == old(events)[1..] &&
                dispatched == Some((ToEventTable(old(events)[0]), Dispatch(plugins, old(events)[0].eventType)))
      ensures plugins == old(plugins) && done == old(done)
    {
      if done || |events| == 0 {
        return None;
      }
      var event := events[0];
      events := events[1..];
      var calls := CallPluginHooks(event);
      dispatched := Some((ToEventTable(event), calls));
    }

    /** GetPlugin */
    method GetPlugin(name: string) returns (p: Option<PluginEntry>)
      ensures p.Some? <==> name in plugins
      ensures p.Some? ==> p.value == plugins[name]
    {
      if name in plugins {
        return Some(plugins[name]);
      }
      return None;
    }

    /** EnablePlugin: sets one plugin's flag; an unknown name is an error and changes nothing. */
    method EnablePlugin(name: string, enabled: bool) returns (r: Outcome<string>)
      requires Valid()
      modifies this
      ensures Valid()
      ensures r.Fail? <==> name !in old(plugins)
      ensures r.Fail? ==> plugins == old(plugins)
      ensures r.Pass? ==> plugins == old(plugins)[name := old(plugins)[name].(enabled := enabled)]
      ensures events == old(events) && done == old(done)
    {
      if name !in plugins {
        return Fail(name);
      }
      plugins := plugins[name := plugins[name].(enabled := enabled)];
      r := Pass;
    }

    /** UnloadPlugin: removes one entry; an unknown name is an error and changes nothing. */
    method UnloadPlugin(name: string) returns (r: Outcome<string>)
      requires Valid()
      modifies this
      ensures Valid()
      ensures r.Fail? <==> name !in old(plugins)
      ensures r.Fail? ==> plugins == old(plugins)
      ensures r.Pass? ==> plugins == old(plugins) - {name}
      ensures events == old(events) && done == old(done)
    {
      if name !in plugins {
        return Fail(name);
      }
      plugins := plugins - {name};
      r := Pass;
    }

    /** Shutdown: closes the done channel (a second close panics) and empties the registry. */
    method Shutdown()
      requires Valid() && !done
      modifies this
      ensures Valid()
      ensures done && plugins == map[] && events == old(events)
    {
      done := true;
      plugins := map[];
    }
  }
}
