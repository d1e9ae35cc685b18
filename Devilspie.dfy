/**
 * Event dispatch and reloading (src/devilspie2.c): running an event's list
 * of scripts against a window, the duplicate name-change suppressor, the
 * blur-then-focus sequence, the file-monitor reload rule and the
 * "no scripts at all" exit check. The X server, libwnck and the Lua
 * interpreter are replaced by the windows they report and by the load
 * status luaL_loadfile gives for each script path.
 */
module Devilspie {
  import opened Wrappers
  import opened Strings
  import opened Config
  import Script
  import SF = ScriptFunctions

  // ---------------------------------------------------------------------
  // The scripts of a list that are run or printed

  /** The entries of a list that end in ".lua", in list order. */
  function LuaEntries(list: FileList): (r: FileList)
    ensures |r| <= |list|
  {
    if list == [] then []
    else LuaEntries(list[..|list| - 1]) + LuaEntry(list[|list| - 1])
  }

  function LuaEntry(path: string): FileList {
    if HasSuffix(path, LuaSuffix) then [path] else []
  }

  lemma LuaEntriesStep(list: FileList, i: nat)
    requires i < |list|
    ensures LuaEntries(list[..i + 1]) == LuaEntries(list[..i]) + LuaEntry(list[i])
  {
    assert list[..i + 1][..i] == list[..i];
  }

  /** Filtering keeps exactly the ".lua" entries. */
  lemma {:induction false} LuaEntriesMembership(list: FileList, p: string)
    ensures p in LuaEntries(list) <==> p in list && HasSuffix(p, LuaSuffix)
  {
    if list != [] {
      var init := list[..|list| - 1];
      LuaEntriesMembership(init, p);
      assert list == init + [list[|list| - 1]];
    }
  }

  /** Filtering distributes over concatenation, so the order of the list is kept. */
  lemma {:induction false} LuaEntriesConcat(a: FileList, b: FileList)
    ensures LuaEntries(a + b) == LuaEntries(a) + LuaEntries(b)
    decreases |b|
  {
    if b == [] {
      assert a + b == a;
    } else {
      var init := b[..|b| - 1];
      var x := b[|b| - 1];
      assert b == init + [x];
      assert a + b == (a + init) + [x];
      LuaEntriesSnoc(a + init, x);
      LuaEntriesSnoc(init, x);
      LuaEntriesConcat(a, init);
    }
  }

  lemma LuaEntriesSnoc(list: FileList, x: string)
    ensures LuaEntries(list + [x]) == LuaEntries(list) + LuaEntry(x)
  {
    assert (list + [x])[..|list|] == list;
  }

  /** Filtering twice is filtering once. */
  lemma {:induction false} LuaEntriesIdempotent(list: FileList)
    ensures LuaEntries(LuaEntries(list)) == LuaEntries(list)
  {
    if list != [] {
      var init := list[..|list| - 1];
      LuaEntriesIdempotent(init);
      LuaEntriesConcat(LuaEntries(init), LuaEntry(list[|list| - 1]));
    }
  }

  // ---------------------------------------------------------------------
  // load_list_of_scripts

  /**
   * One run_script call: the window that was current, the script whose
   * load preceded it, and what load_script returned (run_script is called
   * whatever it returned).
   */
  datatype ScriptRun = ScriptRun(window: Option<SF.WindowId>, script: string, loadResult: int)

  /** The runs for a sequence of scripts, in order. */
  function RunsOf(window: Option<SF.WindowId>, scripts: seq<string>, loadStatus: string -> int): (r: seq<ScriptRun>)
  {
    seq(|scripts|, i requires 0 <= i < |scripts| =>
      ScriptRun(window, scripts[i], Script.LoadScriptResult(true, loadStatus(scripts[i]))))
  }

  /**
   * What load_list_of_scripts runs: nothing when the open list is empty,
   * whichever list it was given; otherwise every ".lua" entry, in order.
   */
  function Dispatch(window: Option<SF.WindowId>, list: FileList, openList: FileList, loadStatus: string -> int)
    : (r: seq<ScriptRun>)
    ensures openList == [] ==> r == []
    ensures openList != [] ==> |r| == |LuaEntries(list)| && forall i :: 0 <= i < |r| ==>
      r[i].window == window && r[i].script == LuaEntries(list)[i] && r[i].script in list &&
      HasSuffix(r[i].script, LuaSuffix) && (r[i].loadResult == 0 <==> loadStatus(r[i].script) == 0)
  {
    if openList == [] then []
    else
      var r := RunsOf(window, LuaEntries(list), loadStatus);
      forall i | 0 <= i < |r| ensures r[i].script in list && HasSuffix(r[i].script, LuaSuffix) {
        LuaEntriesMembership(list, r[i].script);
      }
      r
  }

  lemma RunsOfSnoc(window: Option<SF.WindowId>, scripts: seq<string>, x: string, loadStatus: string -> int)
    ensures RunsOf(window, scripts + [x], loadStatus) ==
      RunsOf(window, scripts, loadStatus) + [ScriptRun(window, x, Script.LoadScriptResult(true, loadStatus(x)))]
  {
  }

  lemma SomeLoadSnoc(scripts: seq<string>, x: string, loadStatus: string -> int)
    ensures SomeLoad(scripts + [x], loadStatus) <==> SomeLoad(scripts, loadStatus) || loadStatus(x) == 0
  {
    if SomeLoad(scripts + [x], loadStatus) {
      var p :| p in scripts + [x] && loadStatus(p) == 0;
    }
    if loadStatus(x) == 0 {
      assert x in scripts + [x];
    }
    if SomeLoad(scripts, loadStatus) {
      var p :| p in scripts && loadStatus(p) == 0;
      assert p in scripts + [x];
    }
  }

  /** Some script of the sequence loads. */
  predicate SomeLoad(scripts: seq<string>, loadStatus: string -> int) {
    exists p :: p in scripts && loadStatus(p) == 0
  }

  // ---------------------------------------------------------------------
  // The duplicate name-change suppressor

  /** The static previous/prevname pair of active_window_name_changed_cb. */
  datatype TitleState = TitleState(previous: Option<SF.WindowId>, prevname: Option<string>)

  /** One name-changed event of a window that has a screen. */
  datatype TitleEvent = TitleEvent(window: SF.WindowId, name: string)

  /**
   * One event: skipped when it repeats the recorded window and name;
   * otherwise recorded, then dispatched.
   */
  function TitleStep(s: TitleState, e: TitleEvent): (bool, TitleState) {
    if s.previous == Some(e.window) && s.prevname.Some? && s.prevname.value == e.name then (false, s)
    else (true, TitleState(Some(e.window), Some(e.name)))
  }

  /** The state after a sequence of events from the start, and which of them were dispatched. */
  function TitleRun(events: seq<TitleEvent>): (r: (TitleState, seq<bool>))
    ensures |r.1| == |events|
  {
    if events == [] then (TitleState(None, None), [])
    else
      var (s, dispatched) := TitleRun(events[..|events| - 1]);
      var (d, s') := TitleStep(s, events[|events| - 1]);
      (s', dispatched + [d])
  }

  /** The recorded pair is always the latest event. */
  lemma {:induction false} TitleRunRecordsLatest(events: seq<TitleEvent>)
    requires events != []
    ensures TitleRun(events).0 == TitleState(Some(events[|events| - 1].window), Some(events[|events| - 1].name))
  {
  }

  /**
   * The suppressor only drops an event equal to the one just before it,
   * whatever window the events before that came from; the first event is
   * always dispatched.
   */
  lemma {:induction false} TitleRunDeduplicates(events: seq<TitleEvent>, i: nat)
    requires i < |events|
    ensures TitleRun(events).1[i] <==> i == 0 || events[i] != events[i - 1]
    decreases |events|
  {
    var n := |events|;
    var init := events[..n - 1];
    var prior := TitleRun(init);
    assert TitleRun(events).1 == prior.1 + [TitleStep(prior.0, events[n - 1]).0];
    if i < n - 1 {
      TitleRunDeduplicates(init, i);
      assert init[i] == events[i];
      if i > 0 { assert init[i - 1] == events[i - 1]; }
    } else if i > 0 {
      TitleRunRecordsLatest(init);
      assert init[n - 2] == events[n - 2];
    }
  }

  // ---------------------------------------------------------------------
  // The name-changed handler attached by window_changed_cb

  /**
   * The name-changed handlers connected per window after window_changed_cb
   * saw `active`: one is connected only when there is none.
   */
  function AttachNameHandler(handlers: map<SF.WindowId, nat>, active: Option<SF.WindowId>)
    : (r: map<SF.WindowId, nat>)
  {
    if active.Some? && (active.value !in handlers || handlers[active.value] == 0) then handlers[active.value := 1]
    else handlers
  }

  /** A window's handler is connected at most once, however often it becomes active. */
  lemma AttachNameHandlerAtMostOnce(handlers: map<SF.WindowId, nat>, active: Option<SF.WindowId>)
    requires forall w :: w in handlers ==> handlers[w] <= 1
    ensures var r := AttachNameHandler(handlers, active);
      (forall w :: w in r ==> r[w] <= 1) &&
      (active.Some? ==> active.value in r && r[active.value] == 1) &&
      (forall w :: w in handlers && Some(w) != active ==> w in r && r[w] == handlers[w])
    ensures AttachNameHandler(AttachNameHandler(handlers, active), active) == AttachNameHandler(handlers, active)
  {
  }

  // ---------------------------------------------------------------------
  // folder_changed_callback

  /** GFileMonitorEvent. */
  datatype FileMonitorEvent =
    | Changed | ChangesDoneHint | Deleted | Created | AttributeChanged
    | PreUnmount | Unmounted | Moved | Renamed | MovedIn | MovedOut

  /**
   * Whether folder_changed_callback reloads: a created or deleted file, or
   * a change to a file whose basename is devilspie2.lua.
   */
  function TriggersReload(event: FileMonitorEvent, basename: Option<string>): (reload: bool)
  {
    match event
    case Created => true
    case Deleted => true
    case Changed => basename.Some? && basename.value == BootstrapName
    case _ => false
  }

  /** Only three situations reload, any file for creation and deletion, only the bootstrap file for a change. */
  lemma TriggersReloadCases(event: FileMonitorEvent, basename: Option<string>)
    ensures TriggersReload(event, basename) <==>
      event == Created || event == Deleted || (event == Changed && basename == Some("devilspie2.lua"))
  {
  }

  /** The event lists after a reload: load_config's result starting from cleared lists. */
  ghost predicate Reloaded(lists: seq<FileList>, filename: string, fs: FolderState)
    requires |lists| == NumEvents
  {
    if !fs.isDirectory || (fs.bootstrapExists && !fs.bootstrapRunOk) then
      forall k :: 0 <= k < NumEvents ==> lists[k] == []
    else
      (fs.bootstrapExists ==> forall k :: WClose <= k < NumEvents ==> BootstrapListOf(lists[k], Dirname(filename), fs.globals, k)) &&
      (!fs.bootstrapExists ==> forall k :: WClose <= k < NumEvents ==> lists[k] == []) &&
      SortedArrangementOf(lists[WOpen], OpenCandidates(Dirname(filename), fs.entries, [[]] + lists[WClose..]))
  }

  // ---------------------------------------------------------------------
  // print_list and print_script_lists

  /** A line print_script_lists writes to standard output. */
  datatype Line =
    | Rule                  // the "------------" separator in debug mode
    | Heading(event: nat)   // the debug heading of an event's list
    | FileName(path: string)
    | NoScripts             // the message before exiting
    | Blank

  /** The text of each line (untranslated). */
  function LineText(line: Line): string {
    match line
    case Rule => "------------"
    case Heading(k) =>
      "List of Lua files handling \"" + (if k < NumEvents then EventNames[k] else "") + "\" events in folder:"
    case FileName(path) => path
    case NoScripts => "No script files found in the script folder - exiting."
    case Blank => ""
  }

  /** One line per path, in order. */
  function FileLines(paths: seq<string>): (r: seq<Line>)
  {
    seq(|paths|, i requires 0 <= i < |paths| => FileName(paths[i]))
  }

  /** The debug listing of the first n event lists: each heading followed by its ".lua" entries. */
  function Listing(lists: seq<FileList>, n: nat): seq<Line>
    requires n <= |lists|
  {
    if n == 0 then [] else Listing(lists, n - 1) + [Heading(n - 1)] + FileLines(LuaEntries(lists[n - 1]))
  }

  lemma ListingStep(lists: seq<FileList>, i: nat)
    requires i < |lists|
    ensures Listing(lists, i + 1) == Listing(lists, i) + ([Heading(i)] + FileLines(LuaEntries(lists[i])))
  {
  }

  /** The listing names exactly the ".lua" entries of the lists, each under a heading of its own event. */
  lemma {:induction false} ListingShowsLuaFiles(lists: seq<FileList>, n: nat, path: string)
    requires n <= |lists|
    ensures FileName(path) in Listing(lists, n) <==>
      HasSuffix(path, LuaSuffix) && exists k :: 0 <= k < n && path in lists[k]
  {
    if n > 0 {
      var k := n - 1;
      ListingShowsLuaFiles(lists, k, path);
      LuaEntriesMembership(lists[k], path);
      var block := FileLines(LuaEntries(lists[k]));
      assert FileName(path) in block <==> path in LuaEntries(lists[k]) by {
        if path in LuaEntries(lists[k]) {
          var i :| 0 <= i < |LuaEntries(lists[k])| && LuaEntries(lists[k])[i] == path;
          assert block[i] == FileName(path);
        }
      }
      assert Listing(lists, n) == Listing(lists, k) + [Heading(k)] + block;
    }
  }

  /** print_list: the ".lua" entries, one per line, in order. */
  method PrintList(list: FileList) returns (out: seq<string>)
    ensures out == LuaEntries(list)
  {
    out := [];
    var i := 0;
    while i < |list|
      invariant 0 <= i <= |list|
      invariant out == LuaEntries(list[..i])
    {
      var fileName := list[i];
      LuaEntriesStep(list, i);
      if HasSuffix(fileName, LuaSuffix) {
        out := out + [fileName];
      }
      i := i + 1;
    }
    assert list[..i] == list;
  }

  /**
   * print_script_lists: the lines it prints (the listing only in debug
   * mode) and whether it then exits, which it does exactly when every event
   * list is empty.
   */
  method PrintScriptLists(lists: seq<FileList>, debug: bool) returns (out: seq<Line>, exits: bool)
    requires |lists| == NumEvents
    ensures exits <==> forall k :: 0 <= k < |lists| ==> lists[k] == []
    ensures out == (if debug then [Rule] + Listing(lists, |lists|) else []) + (if exits then [NoScripts, Blank] else [])
  {
    var haveAnyFiles := false;
    out := [];
    if debug {
      out := out + [Rule];
    }
    var i := 0;
    while i < |lists|
      invariant 0 <= i <= |lists|
      invariant haveAnyFiles <==> AnyNonEmpty(lists, i)
      invariant debug ==> out == [Rule] + Listing(lists, i)
      invariant !debug ==> out == []
    {
      if lists[i] != [] {
        haveAnyFiles := true;
      }
      if debug {
        var lines := PrintEventList(lists, i);
        ListingStep(lists, i);
        assert [Rule] + Listing(lists, i) + lines == [Rule] + (Listing(lists, i) + lines);
        out := out + lines;
      }
      i := i + 1;
    }
    exits := !haveAnyFiles;
    if exits {
      out := out + [NoScripts, Blank];
    }
  }

  predicate AnyNonEmpty(lists: seq<FileList>, n: nat)
    requires n <= |lists|
  {
    exists j :: 0 <= j < n && lists[j] != []
  }

  /** The debug listing of one event: its heading, then print_list of its list when there is one. */
  method PrintEventList(lists: seq<FileList>, k: nat) returns (lines: seq<Line>)
    requires k < |lists|
    ensures lines == [Heading(k)] + FileLines(LuaEntries(lists[k]))
  {
    lines := [Heading(k)];
    if lists[k] != [] {
      var printed := PrintList(lists[k]);
      lines := lines + FileLines(printed);
    }
  }

  // ---------------------------------------------------------------------
  // The callbacks

  /** The program state the callbacks of src/devilspie2.c act on. */
  class Dispatcher {
    const config: EventLists
    const script: SF.ScriptState
    const loader: Script.ScriptGlobals
    var title: TitleState
    var nameHandlers: map<SF.WindowId, nat>
    var runs: seq<ScriptRun>

    ghost predicate Valid()
      reads this, config
    {
      config.Valid()
    }

    constructor (config: EventLists, script: SF.ScriptState, loader: Script.ScriptGlobals)
      requires config.Valid()
      ensures Valid()
      ensures this.config == config && this.script == script && this.loader == loader
      ensures title == TitleState(None, None) && nameHandlers == map[] && runs == []
    {
      this.config := config;
      this.script := script;
      this.loader := loader;
      title := TitleState(None, None);
      nameHandlers := map[];
      runs := [];
    }

    /**
     * load_list_of_scripts: the target becomes the current window (and
     * stays so afterwards); if the open list is non-empty, each ".lua"
     * entry is loaded and run in order, the run happening whether or not
     * the load succeeded.
     */
    method LoadListOfScripts(window: Option<SF.WindowId>, list: FileList, loadStatus: string -> int)
      requires Valid()
      modifies this, script, loader
      ensures runs == old(runs) + Dispatch(window, list, config.lists[WOpen], loadStatus)
      ensures script.currentWindow == window
      ensures loader.scriptLoaded ==
        (old(loader.scriptLoaded) || (config.lists[WOpen] != [] && SomeLoad(LuaEntries(list), loadStatus)))
      ensures title == old(title) && nameHandlers == old(nameHandlers)
    {
      script.SetCurrentWindow(window);
      if config.lists[WOpen] != [] {
        var i := 0;
        while i < |list|
          modifies this, loader
          invariant 0 <= i <= |list|
          invariant runs == old(runs) + RunsOf(window, LuaEntries(list[..i]), loadStatus)
          invariant loader.scriptLoaded == (old(loader.scriptLoaded) || SomeLoad(LuaEntries(list[..i]), loadStatus))
          invariant title == old(title) && nameHandlers == old(nameHandlers)
        {
          var filename := list[i];
          LuaEntriesStep(list, i);
          if HasSuffix(filename, LuaSuffix) {
            var loaded := loader.LoadScript(true, loadStatus(filename));
            RunsOfSnoc(window, LuaEntries(list[..i]), filename, loadStatus);
            SomeLoadSnoc(LuaEntries(list[..i]), filename, loadStatus);
            runs := runs + [ScriptRun(window, filename, loaded)];
          } else {
            assert LuaEntries(list[..i + 1]) == LuaEntries(list[..i]);
          }
          i := i + 1;
        }
        assert list[..i] == list;
      }
    }

    /** window_opened_cb: the open scripts for the new window. */
    method WindowOpened(window: SF.WindowId, loadStatus: string -> int)
      requires Valid()
      modifies this, script, loader
      ensures runs == old(runs) + Dispatch(Some(window), config.lists[WOpen], config.lists[WOpen], loadStatus)
      ensures script.currentWindow == Some(window)
      ensures title == old(title) && nameHandlers == old(nameHandlers)
    {
      LoadListOfScripts(Some(window), config.lists[WOpen], loadStatus);
    }

    /** window_closed_cb: the close scripts, which run only if there are open scripts too. */
    method WindowClosed(window: SF.WindowId, loadStatus: string -> int)
      requires Valid()
      modifies this, script, loader
      ensures runs == old(runs) + Dispatch(Some(window), config.lists[WClose], config.lists[WOpen], loadStatus)
      ensures script.currentWindow == Some(window)
      ensures title == old(title) && nameHandlers == old(nameHandlers)
    {
      LoadListOfScripts(Some(window), config.lists[WClose], loadStatus);
    }

    /**
     * active_window_name_changed_cb: nothing for a window without a screen;
     * otherwise the suppressor decides, and a dispatched event runs the
     * name-change scripts.
     */
    method NameChanged(window: SF.WindowId, hasScreen: bool, newname: string, loadStatus: string -> int)
      requires Valid()
      modifies this, script, loader
      ensures !hasScreen ==> runs == old(runs) && title == old(title) && script.currentWindow == old(script.currentWindow)
      ensures hasScreen ==> title == TitleStep(old(title), TitleEvent(window, newname)).1
      ensures hasScreen && TitleStep(old(title), TitleEvent(window, newname)).0 ==>
        runs == old(runs) + Dispatch(Some(window), config.lists[WNameChanged], config.lists[WOpen], loadStatus) &&
        script.currentWindow == Some(window)
      ensures hasScreen && !TitleStep(old(title), TitleEvent(window, newname)).0 ==>
        runs == old(runs) && script.currentWindow == old(script.currentWindow)
      ensures !hasScreen || !TitleStep(old(title), TitleEvent(window, newname)).0 ==>
        unchanged(script) && unchanged(loader)
      ensures hasScreen && TitleStep(old(title), TitleEvent(window, newname)).0 ==>
        loader.scriptLoaded == (old(loader.scriptLoaded) ||
          (config.lists[WOpen] != [] && SomeLoad(LuaEntries(config.lists[WNameChanged]), loadStatus)))
      ensures nameHandlers == old(nameHandlers)
    {
      if !hasScreen {
        return;
      }
      if title.previous == Some(window) && title.prevname.Some? && title.prevname.value == newname {
        return;
      }
      title := TitleState(Some(window), Some(newname));
      LoadListOfScripts(Some(window), config.lists[WNameChanged], loadStatus);
    }

    /**
     * window_changed_cb: the blur scripts for the window that lost focus,
     * then the focus scripts for the active window, which is left as the
     * current window, and the name-changed handler connected to it once.
     */
    method WindowChanged(window: Option<SF.WindowId>, active: Option<SF.WindowId>, loadStatus: string -> int)
      requires Valid()
      modifies this, script, loader
      ensures runs == old(runs) +
        Dispatch(window, config.lists[WBlur], config.lists[WOpen], loadStatus) +
        Dispatch(active, config.lists[WFocus], config.lists[WOpen], loadStatus)
      ensures script.currentWindow == active
      ensures nameHandlers == AttachNameHandler(old(nameHandlers), active)
      ensures title == old(title)
    {
      LoadListOfScripts(window, config.lists[WBlur], loadStatus);
      LoadListOfScripts(active, config.lists[WFocus], loadStatus);
      if active.Some? && (active.value !in nameHandlers || nameHandlers[active.value] == 0) {
        nameHandlers := nameHandlers[active.value := 1];
      }
    }

    /**
     * folder_changed_callback: on a reloading event the lists are cleared,
     * the current window is unset and load_config runs again (its result is
     * ignored), then print_script_lists may exit; any other event changes
     * nothing. A failed reload leaves every list empty, so it exits.
     */
    method FolderChanged(event: FileMonitorEvent, basename: Option<string>, filename: string, fs: FolderState, debug: bool)
      returns (exits: bool)
      requires Valid() && CString(filename) && WellFormed(fs)
      modifies config.lists, script
      ensures !TriggersReload(event, basename) ==>
        !exits && config.lists[..] == old(config.lists[..]) && unchanged(script)
      ensures script.defaultUseUtf8 == old(script.defaultUseUtf8) &&
        script.adjustingForDecoration == old(script.adjustingForDecoration)
      ensures TriggersReload(event, basename) ==>
        script.currentWindow.None? && Reloaded(config.lists[..], filename, fs) &&
        (exits <==> forall k :: 0 <= k < NumEvents ==> config.lists[k] == [])
      ensures TriggersReload(event, basename) && (!fs.isDirectory || (fs.bootstrapExists && !fs.bootstrapRunOk)) ==> exits
    {
      exits := false;
      if event == Created || event == Deleted {
        exits := Reload(filename, fs, debug);
      }
      if event == Changed {
        if basename.Some? {
          if basename.value == BootstrapName {
            exits := Reload(filename, fs, debug);
          }
        }
      }
    }

    /** The reload steps shared by both branches of folder_changed_callback. */
    method Reload(filename: string, fs: FolderState, debug: bool) returns (exits: bool)
      requires Valid() && CString(filename) && WellFormed(fs)
      modifies config.lists, script
      ensures script.currentWindow.None? && Reloaded(config.lists[..], filename, fs)
      ensures script.defaultUseUtf8 == old(script.defaultUseUtf8) &&
        script.adjustingForDecoration == old(script.adjustingForDecoration)
      ensures exits <==> forall k :: 0 <= k < NumEvents ==> config.lists[k] == []
    {
      config.ClearFileLists();
      script.SetCurrentWindow(None);
      ghost var cleared := config.lists[..];
      var result := config.LoadConfig(filename, fs);
      var out;
      out, exits := PrintScriptLists(config.lists[..], debug);
    }
  }
}
