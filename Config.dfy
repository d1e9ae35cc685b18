/**
 * Script classification (src/config.c): the five per-event lists of script
 * paths, built from the bootstrap file devilspie2.lua and the script folder.
 */
module Config {
  import opened Wrappers
  import opened Strings
  import opened Lua

  /** win_event_type: indices into the event-list array. */
  const WOpen: nat := 0
  const WClose: nat := 1
  const WFocus: nat := 2
  const WBlur: nat := 3
  const WNameChanged: nat := 4
  const NumEvents: nat := 5

  const EventNames: seq<string> :=
    ["window_open", "window_close", "window_focus", "window_blur", "window_name_change"]

  /** The bootstrap globals that name the scripts of each event other than "open". */
  const TableNames: seq<string> :=
    ["", "scripts_window_close", "scripts_window_focus", "scripts_window_blur", "scripts_window_name_change"]

  const BootstrapName: string := "devilspie2.lua"
  const LuaSuffix: string := ".lua"

  /** A GSList of file names; NULL is the empty list. */
  type FileList = seq<string>

  predicate AllCStrings(l: FileList) {
    forall i :: 0 <= i < |l| ==> CString(l[i])
  }

  /** Ordered by filename_list_sortfunc (g_ascii_strcasecmp). */
  predicate Sorted(l: FileList) {
    forall i, j :: 0 <= i < j < |l| ==> CaseLe(l[i], l[j])
  }

  /** `list` is the sorted arrangement of exactly the paths in `paths`. */
  predicate SortedArrangementOf(list: FileList, paths: seq<string>) {
    Sorted(list) && multiset(list) == multiset(paths)
  }

  /** filename_list_sortfunc. */
  function FilenameOrder(a: string, b: string): (r: int)
    ensures r == -CaseCmp(b, a)
    ensures CString(a) && CString(b) ==> (r == 0 <==> LowerString(a) == LowerString(b))
  {
    CaseCmpAntisymmetric(b, a);
    if CString(a) && CString(b) then CaseCmpZeroIff(a, b); CaseCmp(a, b)
    else CaseCmp(a, b)
  }

  /**
   * g_slist_insert_sorted: the new element goes before the first element it
   * does not sort strictly after, or at the end when there is none.
   */
  function InsertSorted(l: FileList, x: string): (r: FileList)
    ensures multiset(r) == multiset(l) + multiset{x}
  {
    if l == [] then [x]
    else if FilenameOrder(x, l[0]) > 0 then
      assert l == [l[0]] + l[1..];
      [l[0]] + InsertSorted(l[1..], x)
    else [x] + l
  }

  lemma {:induction false} InsertSortedKeepsSorted(l: FileList, x: string)
    requires Sorted(l) && AllCStrings(l) && CString(x)
    ensures Sorted(InsertSorted(l, x))
  {
    if l == [] {
    } else if FilenameOrder(x, l[0]) > 0 {
      var t := l[1..];
      TailSorted(l);
      InsertSortedKeepsSorted(t, x);
      var r' := InsertSorted(t, x);
      CaseCmpAntisymmetric(x, l[0]);
      forall j | 0 <= j < |r'| ensures CaseLe(l[0], r'[j]) {
        assert r'[j] in multiset(r');
        if r'[j] != x {
          assert r'[j] in multiset(t);
          var k :| 0 <= k < |t| && t[k] == r'[j];
          assert l[k + 1] == t[k];
        }
      }
      PrependKeepsSorted(l[0], r');
    } else {
      forall j | 0 <= j < |l| ensures CaseLe(x, l[j]) {
        if j > 0 { CaseLeTransitive(x, l[0], l[j]); }
      }
      PrependKeepsSorted(x, l);
    }
  }

  lemma TailSorted(l: FileList)
    requires l != [] && Sorted(l) && AllCStrings(l)
    ensures Sorted(l[1..]) && AllCStrings(l[1..])
  {
    var t := l[1..];
    assert forall i :: 0 <= i < |t| ==> t[i] == l[i + 1];
  }

  /** An element ordered before every element of a sorted list can go at its head. */
  lemma PrependKeepsSorted(h: string, t: FileList)
    requires Sorted(t) && forall j :: 0 <= j < |t| ==> CaseLe(h, t[j])
    ensures Sorted([h] + t)
  {
    var r := [h] + t;
    forall i, j | 0 <= i < j < |r| ensures CaseLe(r[i], r[j]) {
      assert r[j] == t[j - 1];
      if i > 0 { assert r[i] == t[i - 1]; }
    }
  }

  /**
   * add_lua_file_to_list: the list gains exactly one copy of the filename and
   * stays in case-insensitive order.
   */
  function AddLuaFileToList(list: FileList, filename: string): (r: FileList)
    ensures |r| == |list| + 1
    ensures multiset(r) == multiset(list) + multiset{filename}
    ensures multiset(r)[filename] == multiset(list)[filename] + 1
    ensures Sorted(list) && AllCStrings(list) && CString(filename) ==> Sorted(r) && AllCStrings(r)
  {
    var r := InsertSorted(list, filename);
    assert |r| == |multiset(r)| == |list| + 1;
    if Sorted(list) && AllCStrings(list) && CString(filename) then
      InsertSortedKeepsSorted(list, filename);
      assert forall i :: 0 <= i < |r| ==> r[i] in multiset(r);
      assert forall i :: 0 <= i < |r| ==> r[i] == filename || r[i] in multiset(list);
      assert forall i :: 0 <= i < |r| ==> CString(r[i]);
      r
    else r
  }

  /** The paths get_table_of_strings adds: folder/elem for every element lua_isstring accepts, in table order. */
  function AcceptedPaths(folder: string, elems: seq<LuaValue>): (r: seq<string>)
    ensures |r| <= |elems|
  {
    if elems == [] then []
    else
      var last := elems[|elems| - 1];
      AcceptedPaths(folder, elems[..|elems| - 1])
        + (if IsString(last) then [BuildPath(folder, ToLuaString(last))] else [])
  }

  lemma AcceptedPathsStep(folder: string, elems: seq<LuaValue>, i: nat)
    requires i < |elems|
    ensures AcceptedPaths(folder, elems[..i + 1]) == AcceptedPaths(folder, elems[..i])
      + (if IsString(elems[i]) then [BuildPath(folder, ToLuaString(elems[i]))] else [])
  {
    assert elems[..i + 1][..i] == elems[..i];
  }

  /** The elements get_table_of_strings walks: none when the global is nil or not a table. */
  function TableElements(globals: map<string, LuaValue>, name: string): seq<LuaValue> {
    var v := GetGlobal(globals, name);
    if v.Table? then v.elems else []
  }

  /** `list` is what get_table_of_strings builds for event k from the bootstrap globals. */
  predicate BootstrapListOf(list: FileList, folder: string, globals: map<string, LuaValue>, k: nat)
    requires WClose <= k < NumEvents
  {
    SortedArrangementOf(list, AcceptedPaths(folder, TableElements(globals, TableNames[k])))
  }

  /** A C string converted by lua_tostring is a C string. */
  lemma ToLuaStringCString(v: LuaValue)
    requires IsString(v) && (v.Str? ==> CString(v.s))
    ensures CString(ToLuaString(v))
  {
    if v.Number? {
      var d := Decimal(if v.n < 0 then -v.n else v.n);
      assert forall i :: 0 <= i < |d| ==> IsDigit(d[i]);
      assert v.n < 0 ==> ToLuaString(v) == "-" + d;
      assert v.n >= 0 ==> ToLuaString(v) == d;
    }
  }

  /**
   * get_table_of_strings: reads the named global of the bootstrap state and
   * returns the sorted list of folder/elem paths of its string elements;
   * nothing when there is no state, or the global is nil or not a table.
   */
  method GetTableOfStrings(luastate: Option<map<string, LuaValue>>, folder: string, tableName: string)
    returns (list: FileList)
    requires CString(folder)
    requires luastate.Some? ==> NulFreeGlobals(luastate.value)
    ensures luastate.None? ==> list == []
    ensures luastate.Some? && !GetGlobal(luastate.value, tableName).Table? ==> list == []
    ensures luastate.Some? ==>
      SortedArrangementOf(list, AcceptedPaths(folder, TableElements(luastate.value, tableName)))
    ensures AllCStrings(list)
  {
    list := [];
    if luastate.None? {
      return;
    }
    var value := GetGlobal(luastate.value, tableName);
    if value.Nil? {
      return;
    }
    if !value.Table? {
      return;
    }
    assert NulFree(value) by {
      if tableName in luastate.value { assert value == luastate.value[tableName]; }
    }
    var elems := value.elems;
    var i := 0;
    while i < |elems|
      invariant 0 <= i <= |elems|
      invariant Sorted(list) && AllCStrings(list)
      invariant multiset(list) == multiset(AcceptedPaths(folder, elems[..i]))
    {
      var e := elems[i];
      assert elems[..i + 1][..i] == elems[..i];
      AcceptedPathsStep(folder, elems, i);
      if IsString(e) {
        assert e.Str? ==> CString(e.s);
        ToLuaStringCString(e);
        var path := BuildPath(folder, ToLuaString(e));
        BuildPathCString(folder, ToLuaString(e));
        list := AddLuaFileToList(list, path);
      }
      i := i + 1;
    }
    assert elems[..i] == elems;
  }

  /** is_in_list without its NULL checks: some entry equals the filename ignoring ASCII case. */
  predicate InList(list: FileList, filename: string) {
    exists i :: 0 <= i < |list| && CaseCmp(list[i], filename) == 0
  }

  /** is_in_any_list over a snapshot of the event-list array. */
  predicate InAnyList(lists: seq<FileList>, filename: string) {
    exists k :: 0 <= k < |lists| && InList(lists[k], filename)
  }

  /**
   * is_in_list: true iff some entry equals the filename ignoring ASCII case.
   * The loop keeps scanning after a match, as the source does.
   */
  method IsInList(list: FileList, filename: string) returns (result: bool)
    ensures result <==> InList(list, filename)
    ensures CString(filename) && AllCStrings(list) ==>
      (result <==> exists i :: 0 <= i < |list| && LowerString(list[i]) == LowerString(filename))
  {
    result := false;
    var i := 0;
    while i < |list|
      invariant 0 <= i <= |list|
      invariant result <==> exists j :: 0 <= j < i && CaseCmp(list[j], filename) == 0
    {
      if CaseCmp(list[i], filename) == 0 {
        result := true;
      }
      i := i + 1;
    }
    if CString(filename) && AllCStrings(list) {
      forall j | 0 <= j < |list| ensures CaseCmp(list[j], filename) == 0 <==> LowerString(list[j]) == LowerString(filename) {
        CaseCmpZeroIff(list[j], filename);
      }
    }
  }

  /** A directory entry that load_config considers: not a dot file, and ending in ".lua". */
  predicate EligibleEntry(name: string) {
    (name == [] || name[0] != '.') && HasSuffix(name, LuaSuffix)
  }

  /** The "open" list's paths: eligible entries, in directory order, not claimed by any list of the snapshot. */
  function OpenCandidates(folder: string, entries: seq<string>, lists: seq<FileList>): (r: seq<string>)
    ensures |r| <= |entries|
  {
    if entries == [] then []
    else
      var name := entries[|entries| - 1];
      var path := BuildPath(folder, name);
      OpenCandidates(folder, entries[..|entries| - 1], lists)
        + (if EligibleEntry(name) && !InAnyList(lists, path) then [path] else [])
  }

  lemma OpenCandidatesStep(folder: string, entries: seq<string>, lists: seq<FileList>, i: nat)
    requires i < |entries|
    ensures OpenCandidates(folder, entries[..i + 1], lists) == OpenCandidates(folder, entries[..i], lists)
      + (if EligibleEntry(entries[i]) && !InAnyList(lists, BuildPath(folder, entries[i]))
         then [BuildPath(folder, entries[i])] else [])
  {
    assert entries[..i + 1][..i] == entries[..i];
  }

  /** The state of the script folder and of the bootstrap file that load_config sees. */
  datatype FolderState = FolderState(
    isDirectory: bool,               // g_file_test(script_folder, G_FILE_TEST_IS_DIR)
    bootstrapExists: bool,           // g_file_test(filename, G_FILE_TEST_EXISTS)
    bootstrapRunOk: bool,            // the bootstrap run reported success
    globals: map<string, LuaValue>,  // the bootstrap state's globals after the run
    entries: seq<string>)            // g_dir_read_name, in order

  predicate WellFormed(fs: FolderState) {
    NulFreeGlobals(fs.globals) && forall i :: 0 <= i < |fs.entries| ==> CString(fs.entries[i])
  }

  /** strrchr(path, '/') on the first n characters: the index of the last separator, or -1. */
  function LastSeparator(path: string, n: nat): (k: int)
    requires n <= |path|
    ensures -1 <= k < n
    ensures k >= 0 ==> path[k] == '/'
    ensures forall i :: k < i < n ==> path[i] != '/'
  {
    if n == 0 then -1
    else if path[n - 1] == '/' then n - 1
    else LastSeparator(path, n - 1)
  }

  /** Moving back from a separator over the run of separators it ends, stopping at the first character. */
  function SkipSeparatorsBack(path: string, p: nat): (q: nat)
    requires p < |path|
    ensures q <= p
    ensures forall i :: q < i <= p ==> path[i] == '/'
    ensures q == 0 || path[q] != '/'
  {
    if p > 0 && path[p] == '/' then SkipSeparatorsBack(path, p - 1) else p
  }

  /**
   * g_path_get_dirname: "." without a separator; otherwise everything
   * before the last separator and the run of separators ending there,
   * keeping a leading "/" when nothing else is left.
   */
  function Dirname(path: string): (r: string)
    ensures (forall i :: 0 <= i < |path| ==> path[i] != '/') ==> r == "."
    ensures (exists i :: 0 <= i < |path| && path[i] == '/') ==>
      && 0 < |r| <= |path| && r == path[..|r|]
      && (|r| == 1 || r[|r| - 1] != '/')
      && (forall i :: |r| <= i < |path| && path[i] == '/' ==> forall j :: |r| <= j <= i ==> path[j] == '/')
      && ((forall i :: |r| <= i < |path| ==> path[i] != '/') ==> |r| == 1 && path[0] == '/')
  {
    var k := LastSeparator(path, |path|);
    if k < 0 then "."
    else path[..SkipSeparatorsBack(path, k) + 1]
  }

  /** A repeated separator, a trailing separator, a root entry and a bare name. */
  lemma DirnameExamples()
    ensures Dirname("a//b") == "a" && Dirname("a/") == "a" && Dirname("/a") == "/" && Dirname("abc") == "."
  {
    assert LastSeparator("a//b", 4) == 2 && SkipSeparatorsBack("a//b", 2) == 0;
    assert LastSeparator("/a", 2) == 0;
    assert LastSeparator("a/", 2) == 1;
  }

  /** The bootstrap path is devilspie2.lua inside its own folder. */
  lemma DirnameOfBuildPath(folder: string, name: string)
    requires folder != [] && (folder == "/" || folder[|folder| - 1] != '/')
    requires forall i :: 0 <= i < |name| ==> name[i] != '/'
    ensures Dirname(BuildPath(folder, name)) == folder
  {
    var p := BuildPath(folder, name);
    assert LastSeparator(p, |p|) == |folder| by {
      assert p[|folder|] == '/';
      assert forall i :: |folder| < i < |p| ==> p[i] == name[i - |folder| - 1];
    }
    var q := SkipSeparatorsBack(p, |folder|);
    if folder == "/" {
      assert q == 0;
    } else {
      assert p[|folder| - 1] == folder[|folder| - 1];
      assert q == |folder| - 1;
    }
  }

  /** The event_lists[] array and the operations that assign it. */
  class EventLists {
    const lists: array<FileList>

    ghost predicate Valid()
      reads this
    {
      lists.Length == NumEvents
    }

    constructor ()
      ensures Valid() && fresh(lists)
      ensures forall k :: 0 <= k < NumEvents ==> lists[k] == []
    {
      lists := new FileList[NumEvents](_ => []);
    }

    /** is_in_any_list: the filename is in one of the event lists, ignoring ASCII case. */
    method IsInAnyList(filename: string) returns (result: bool)
      requires Valid()
      ensures result <==> InAnyList(lists[..], filename)
    {
      var k := 0;
      while k < NumEvents
        invariant 0 <= k <= NumEvents
        invariant forall j :: 0 <= j < k ==> !InList(lists[j], filename)
      {
        var found := IsInList(lists[k], filename);
        if found {
          return true;
        }
        k := k + 1;
      }
      return false;
    }

    /**
     * load_config: -1 if the folder is not a directory or the bootstrap run
     * fails, both before any list is assigned. Otherwise the close, focus,
     * blur and name-change lists come from the bootstrap globals (left
     * untouched when there is no bootstrap file) and the open list is every
     * eligible entry not already in a list, case-insensitively sorted.
     */
    method LoadConfig(filename: string, fs: FolderState) returns (result: int)
      requires Valid() && CString(filename) && WellFormed(fs)
      modifies lists
      ensures result == 0 || result == -1
      ensures result == -1 <==> !fs.isDirectory || (fs.bootstrapExists && !fs.bootstrapRunOk)
      ensures result == -1 ==> lists[..] == old(lists[..])
      ensures result == 0 && fs.bootstrapExists ==> forall k :: WClose <= k < NumEvents ==>
        BootstrapListOf(lists[k], Dirname(filename), fs.globals, k)
      ensures result == 0 && !fs.bootstrapExists ==> forall k :: WClose <= k < NumEvents ==> lists[k] == old(lists[k])
      ensures result == 0 ==>
        SortedArrangementOf(lists[WOpen], OpenCandidates(Dirname(filename), fs.entries, [old(lists[WOpen])] + lists[WClose..]))
      ensures result == 0 ==> AllCStrings(lists[WOpen])
    {
      var scriptFolder := Dirname(filename);
      DirnameCString(filename);
      if !fs.isDirectory {
        return -1;
      }
      if fs.bootstrapExists {
        if !fs.bootstrapRunOk {
          return -1;
        }
        AssignBootstrapLists(scriptFolder, fs.globals);
      }
      ghost var snapshot := lists[..];
      assert snapshot == [old(lists[WOpen])] + lists[WClose..];
      var openList := CollectOpenList(scriptFolder, fs.entries);
      lists[WOpen] := openList;
      assert lists[WClose..] == snapshot[WClose..];
      if fs.bootstrapExists {
        forall k | WClose <= k < NumEvents ensures BootstrapListOf(lists[k], scriptFolder, fs.globals, k) {
          assert lists[k] == snapshot[k];
          if k == WClose {} else if k == WFocus {} else if k == WBlur {} else {}
        }
      }
      return 0;
    }

    /** The four event_lists assignments load_config makes from the bootstrap globals. */
    method AssignBootstrapLists(folder: string, globals: map<string, LuaValue>)
      requires Valid() && CString(folder) && NulFreeGlobals(globals)
      modifies lists
      ensures lists[WOpen] == old(lists[WOpen])
      ensures BootstrapListOf(lists[WClose], folder, globals, WClose)
      ensures BootstrapListOf(lists[WFocus], folder, globals, WFocus)
      ensures BootstrapListOf(lists[WBlur], folder, globals, WBlur)
      ensures BootstrapListOf(lists[WNameChanged], folder, globals, WNameChanged)
    {
      var close := GetTableOfStrings(Some(globals), folder, TableNames[WClose]);
      lists[WClose] := close;
      var focus := GetTableOfStrings(Some(globals), folder, TableNames[WFocus]);
      lists[WFocus] := focus;
      var blur := GetTableOfStrings(Some(globals), folder, TableNames[WBlur]);
      lists[WBlur] := blur;
      var nameChange := GetTableOfStrings(Some(globals), folder, TableNames[WNameChanged]);
      lists[WNameChanged] := nameChange;
      assert lists[WClose] == close && lists[WFocus] == focus && lists[WBlur] == blur;
    }

    /**
     * The directory loop of load_config: every entry that is not a dot file,
     * ends in ".lua" and is in no event list goes into the open list.
     */
    method CollectOpenList(folder: string, entries: seq<string>) returns (openList: FileList)
      requires Valid() && CString(folder)
      requires forall i :: 0 <= i < |entries| ==> CString(entries[i])
      ensures SortedArrangementOf(openList, OpenCandidates(folder, entries, lists[..]))
      ensures AllCStrings(openList)
    {
      openList := [];
      var i := 0;
      while i < |entries|
        invariant 0 <= i <= |entries|
        invariant Sorted(openList) && AllCStrings(openList)
        invariant multiset(openList) == multiset(OpenCandidates(folder, entries[..i], lists[..]))
      {
        var name := entries[i];
        var path := BuildPath(folder, name);
        OpenCandidatesStep(folder, entries, lists[..], i);
        if (name == [] || name[0] != '.') && HasSuffix(name, LuaSuffix) {
          var claimed := IsInAnyList(path);
          if !claimed {
            BuildPathCString(folder, name);
            openList := AddLuaFileToList(openList, path);
          }
        }
        i := i + 1;
      }
      assert entries[..i] == entries;
    }

    /** clear_file_lists: every event list becomes NULL; a second call changes nothing. */
    method ClearFileLists()
      requires Valid()
      modifies lists
      ensures forall k :: 0 <= k < NumEvents ==> lists[k] == []
    {
      var k := 0;
      while k < NumEvents
        invariant 0 <= k <= NumEvents
        invariant forall j :: 0 <= j < k ==> lists[j] == []
      {
        if lists[k] != [] {
          lists[k] := [];
        }
        k := k + 1;
      }
    }
  }

  lemma DirnameCString(path: string)
    requires CString(path)
    ensures CString(Dirname(path))
  {
    var r := Dirname(path);
    if r != "." {
      assert forall i :: 0 <= i < |r| ==> r[i] == path[i];
    }
  }
}
