# devilspie2 dispatch core in Dafny

devilspie2 runs user Lua scripts when windows are opened, closed, focused,
unfocused or renamed. This project models the parts of its C sources that
decide what happens, and proves properties of them. The X server, libwnck
and the Lua interpreter are replaced by abstract inputs: window geometries,
monitor lists, property replies, Lua global tables, and load and run
statuses.

- **Script classification** (`Config`, from `src/config.c`). The five event
  lists live in the class `EventLists`, whose `lists` array is updated in
  place. The lists are ordered under `g_ascii_strcasecmp` (`Strings.CaseCmp`)
  and built by sorted insertion. Four of them come from string tables in
  `devilspie2.lua`. The open list is every remaining `.lua` file of the
  folder that is not a dot file.
- **Event dispatch and reload** (`Devilspie`, from `src/devilspie2.c`). The
  class `Dispatcher` holds the event lists, the script-function globals,
  the `script_loaded` flag, the duplicate-title state and the connected
  name-change handlers. It records every script run as a `ScriptRun`. It
  also covers the file-monitor reload rule and the listing printed by
  `print_script_lists`, with its exit decision.
- **X helpers** (`XUtils`, from `src/xutils.c`):
  - the two-way atom cache;
  - the Motif decoration hints;
  - the window-type names;
  - the decoration offset and the gravity rules of `set_window_geometry`;
  - the monitor and workspace geometry selection;
  - string-property decoding;
  - the viewport start.
- **Lua-facing logic** (`ScriptFunctions`, from `src/script_functions.c`):
  - the argument-count checks;
  - positioning relative to a monitor's far edge through `~x`;
  - `center`'s direction parsing, centring and clamping;
  - struts, in the class `StrutBuffer` over the static 12-element array;
  - `millisleep`'s interval;
  - the `use_utf8` and `set_adjust_for_decoration` flags;
  - the workspace search;
  - the frame extents;
  - the current-window slot, in the class `ScriptState`.
- **Registration** (`Script`, from `src/script.c`). `register_cfunctions`
  fills the interpreter's global table (the class `Interpreter`). Handlers
  are the datatype `Handler`, whose `HandlerName` is the C function
  `c_<name>`. Lua global names are `Dp2(handler)`, bound by `DP2_REGISTER`,
  or `Alias(a)`, a British spelling. Also modelled: `load_script`'s result
  and flag, and `run_script`'s error report.

The shared values are:
- `Wrappers`: Option and Result;
- `Strings`: C strings, case-insensitive comparison, path building,
  decimal printing and 32-bit conversion;
- `Lua`: Lua values the way the C code sees them.

`MONITOR_ALL`, `MONITOR_WINDOW` and `MONITOR_NONE` are defined in
`xutils.h`, which is not part of this model. They are the constants
`MonitorAll = -1`, `MonitorWindow = -2` and `MonitorNone = -3`. The code
relies only on their being distinct negative values, with the other two
below `MonitorAll`.

The model keeps these behaviours of the code:
- the current window is set by every dispatch and never restored;
- a failed `load_script` is still followed by `run_script`;
- a failed bootstrap run leaves the lists as they were inside `load_config`;
- a reload clears the lists first, so a reload that fails leaves them empty and `print_script_lists` exits the process;
- there is no timeout or backtrace supervisor.

## Model

| member | source | states |
|---|---|---|
| Strings.CaseCmpAntisymmetric | src/config.c:56-62 | swapping the operands of the case-insensitive comparison negates its result |
| Strings.CaseLeTotal | src/config.c:56-62 | any two filenames are ordered one way or the other |
| Strings.CaseLeTransitive | src/config.c:56-62 | the case-insensitive order is transitive on NUL-free strings |
| Strings.CaseCmpZeroIff | src/config.c:56-62 | two NUL-free names compare equal exactly when their ASCII-lowercased forms are equal |
| Strings.CaseCmpCommonPrefix | src/config.c:226-229 | a common prefix, such as the script folder, does not change the comparison |
| Strings.BuildPathOrder | src/config.c:226-236 | paths built in one folder are ordered as their file names are |
| Strings.BuildPathInjective | src/config.c:226-229 | different names in one folder give different paths |
| Strings.DecimalRoundTrip | src/xutils.c:329-333 | a number printed with %lu reads back as the same number |
| Strings.DecimalInjective | src/xutils.c:329-333 | different numbers print differently |
| Strings.ToInt32 | src/xutils.c:455-457 | an unsigned 32-bit value becomes the C int in range that is congruent to it mod 2^32, unchanged below 2^31 |
| Lua.ToLuaString | src/config.c:107-108 | a Lua string is passed as itself and a non-negative number as its decimal text |
| Config.FilenameOrder | src/config.c:56-62 | filename_list_sortfunc is g_ascii_strcasecmp; returns 0 exactly when the names are equal ignoring ASCII case |
| Config.InsertSorted | src/config.c:68-77 | g_slist_insert_sorted adds exactly one copy of the element and keeps all others |
| Config.InsertSortedKeepsSorted | src/config.c:68-77 | inserting into a sorted list of C strings keeps it sorted |
| Config.AddLuaFileToList | src/config.c:68-77 | the list grows by one, holds the filename once more than before, and stays sorted |
| Config.AcceptedPathsStep | src/config.c:106-118 | each table element accepted by lua_isstring contributes one folder/element path, in lua_next order; others are skipped |
| Config.GetTableOfStrings | src/config.c:84-125 | empty without a state or when the global is nil or not a table; otherwise a case-insensitively sorted arrangement of the folder/element paths of the accepted elements |
| Config.IsInList | src/config.c:132-152 | true iff some entry equals the filename ignoring ASCII case |
| Config.EventLists.IsInAnyList | src/config.c:159-169 | true iff the filename is in one of the W_NUM_EVENTS lists |
| Config.OpenCandidatesStep | src/config.c:224-242 | a directory entry joins the open candidates iff it is not a dot file, ends in .lua and its path is in no list |
| Config.Dirname | src/config.c:188 | g_path_get_dirname: "." without a separator; otherwise the prefix before the last run of separators that is followed by the final component, keeping a leading "/" when nothing else is left |
| Config.DirnameExamples | src/config.c:188 | "a//b" gives "a", "a/" gives "a", "/a" gives "/" and "abc" gives "." |
| Config.DirnameOfBuildPath | src/config.c:226-229 | for a folder that is "/" or does not end in a separator, the folder of folder/name is the folder again |
| Config.EventLists.LoadConfig | src/config.c:178-250 | -1 iff the folder is not a directory or the bootstrap run fails, and then no list is assigned; without a bootstrap file the four table lists are untouched; with one each is its table's sorted paths; the new open list is a sorted arrangement of the open candidates |
| Config.EventLists.AssignBootstrapLists | src/config.c:209-220 | the close, focus, blur and name-change lists become the sorted paths of their four tables, and the open list is untouched |
| Config.EventLists.CollectOpenList | src/config.c:223-242 | the list built from the directory is a sorted arrangement of the entries that are not dot files, end in .lua and are in no list |
| Config.EventLists.ClearFileLists | src/config.c:271-282 | every event list becomes empty, so a second call changes nothing |
| Devilspie.LuaEntriesMembership | src/devilspie2.c:89-103 | a path is among the entries run or printed iff it is in the list and ends in .lua |
| Devilspie.LuaEntriesConcat | src/devilspie2.c:89-103 | filtering a concatenation filters each part, so list order is kept |
| Devilspie.LuaEntriesIdempotent | src/devilspie2.c:93 | filtering twice is filtering once |
| Devilspie.Dispatch | src/devilspie2.c:79-107 | nothing runs when the open list is empty, whatever list was given; otherwise one run per .lua entry, in list order, against the target window, whatever load_script returned |
| Devilspie.Dispatcher.LoadListOfScripts | src/devilspie2.c:79-107 | records exactly Dispatch's runs, leaves the current window set to the target, sets script_loaded iff some script loaded, and leaves the title state and name handlers unchanged |
| Devilspie.Dispatcher.WindowOpened | src/devilspie2.c:119-122 | runs the open list for the new window |
| Devilspie.Dispatcher.WindowClosed | src/devilspie2.c:134-137 | runs the close list for the closed window |
| Devilspie.TitleRunRecordsLatest | src/devilspie2.c:152-162 | the suppressor's state is always the latest (window, name), whichever window it came from |
| Devilspie.TitleRunDeduplicates | src/devilspie2.c:152-166 | an event is dispatched iff it is the first or differs from the event just before it |
| Devilspie.Dispatcher.NameChanged | src/devilspie2.c:147-167 | without a screen, or for a repeat of the recorded window and name, the runs, the title state, the script globals and script_loaded are all unchanged; otherwise the pair is recorded, the name-change list runs for the window, which becomes current, and script_loaded follows the loads |
| Devilspie.Dispatcher.WindowChanged | src/devilspie2.c:178-188 | the blur list runs for the old window, then the focus list for the active one, which stays current; the name-change handler is connected once |
| Devilspie.AttachNameHandlerAtMostOnce | src/devilspie2.c:185-187 | every window has at most one name-change handler and the active one has exactly one; others are untouched and repeating is idempotent |
| Devilspie.TriggersReloadCases | src/devilspie2.c:315-343 | a reload happens exactly on creation, deletion, or a change to devilspie2.lua |
| Devilspie.Dispatcher.FolderChanged | src/devilspie2.c:306-352 | other events change neither the lists nor the script globals and never exit; a reload clears the current window, keeps the use_utf8 and adjust flags, and leaves the lists as load_config builds them from empty lists; it exits iff all lists are empty, so always after a failed load |
| Devilspie.Dispatcher.Reload | src/devilspie2.c:317-328 | clear, unset the current window while keeping the other script globals, load_config, then the exit check |
| Devilspie.PrintList | src/devilspie2.c:251-268 | prints exactly the .lua entries, in order |
| Devilspie.PrintEventList | src/devilspie2.c:286-293 | one heading followed by the list's .lua entries |
| Devilspie.ListingShowsLuaFiles | src/devilspie2.c:282-294 | a file name appears in the debug listing iff it ends in .lua and is in one of the lists |
| Devilspie.PrintScriptLists | src/devilspie2.c:274-300 | exits iff every list is empty; in debug mode the output is the rule, then every event's heading and .lua entries, then the exit message when exiting |
| XUtils.AtomGet | src/xutils.c:52-81 | None for a NULL name; a cached name without interning; a fresh non-None atom is stored both ways and None is never cached |
| XUtils.AtomGetKeepsInvariant | src/xutils.c:63-78 | when XInternAtom gives a new name an atom no cached name has, the forward and reverse tables stay mutual inverses without None entries |
| XUtils.AtomGetMemoises | src/xutils.c:63 | once a name is cached, the server's answer no longer matters |
| XUtils.AtomGetReverse | src/xutils.c:72-77 | a freshly interned atom maps back to its name |
| XUtils.AtomCache.Get | src/xutils.c:52-81 | the cache is updated as AtomGet says and its tables stay mutual inverses |
| XUtils.SetDecorations | src/xutils.c:147-182 | flags 1<<1, decorations 1 or 0, other fields 0; the OpenBox undecorated state is asked for iff not decorating |
| XUtils.GetDecorated | src/xutils.c:224-244 | FALSE on an X error; otherwise FALSE iff the type is the hints atom, there are at least 3 items and item 2 is 0 |
| XUtils.DecorationsRoundTrip | src/xutils.c:147-244 | reading back the hints set_decorations writes gives the state asked for |
| XUtils.MissingHintsMeansDecorated | src/xutils.c:243 | a window without the Motif property counts as decorated |
| XUtils.FirstMatchingKind | src/xutils.c:492-518 | the first of the eight WINDOW_TYPE_* names that matches ignoring case, or none |
| XUtils.WindowTypeAtomNameSpec | src/xutils.c:471-527 | a known type name becomes _NET_WM_ plus its upper-cased form; any other string passes through unchanged |
| XUtils.WindowTypeAtomNameIdempotent | src/xutils.c:492-518 | mapping a mapped name again changes nothing |
| XUtils.AdjustForDecoration | src/xutils.c:551-562 | each non-null value loses the client-minus-frame difference; null ones stay null |
| XUtils.AdjustClientGivesFrame | src/xutils.c:551-562 | adjusting the client geometry gives the frame geometry |
| XUtils.SetWindowGeometry | src/xutils.c:568-601 | nothing without a window; the gravity is NE/SE iff x < 0 and SW/SE iff y < 0; a negative x or y counts from the screen's width or height; the decoration adjustment applies iff enabled |
| XUtils.MonitorHitAsWrittenOverreaches | src/xutils.c:669-673 | the as-written overlap test accepts a window that shares no pixel with the monitor |
| XUtils.MonitorHitMeansSharedPixel | src/xutils.c:669-675 | the corrected overlap test holds iff some pixel lies in both rectangles |
| XUtils.MonitorIndex | src/xutils.c:627-693 | for a given overlap test: -1 iff there are no monitors; otherwise the first monitor holding the window centre, else the first the test accepts, else 0 |
| XUtils.GetMonitorIndexGeometry | src/xutils.c:627-693 | the loops compute MonitorIndex with the overlap test as written, and return that monitor's rectangle |
| XUtils.MonitorIndexAsWrittenMisplaces | src/xutils.c:663-680 | two side-by-side monitors and a window right of both: the search as written picks monitor 1, which shares no pixel with the window; the corrected one falls back to 0 |
| XUtils.CorrectedIndexSharesPixel | src/xutils.c:663-680 | with the corrected test, a window whose centre is on no monitor goes to the first monitor it shares a pixel with |
| XUtils.GetMonitorGeometry | src/xutils.c:699-727 | -1 and 0,0,640,480 without monitors; an out-of-range index becomes 0; returns the index used |
| XUtils.GetWindowWorkspaceGeometry | src/xutils.c:733-753 | the active workspace's size, else the first workspace's, at 0,0; 1 when there is neither |
| XUtils.SelectedBounds | src/xutils.c:761-779 | MonitorAll gives the workspace rectangle at 0,0 that get_window_workspace_geometry returns, or MonitorNone without a workspace; MonitorWindow gives the monitor of MonitorIndex for the window, or MonitorNone without monitors; an existing monitor index gives it; anything else gives MonitorNone; MonitorNone iff there are no bounds |
| XUtils.GetMonitorOrWorkspaceGeometry | src/xutils.c:761-779 | returns exactly the selection SelectedBounds describes for the window's frame |
| XUtils.GetStringProperty | src/xutils.c:263-352 | nothing after an error; the UTF-8 flag is set iff the type is not STRING; STRING and UTF8_STRING give their text; a 32-bit CARDINAL prints as its decimal value, which reads back |
| XUtils.WindowPropertyRoundTrip | src/xutils.c:341-345 | a WINDOW property prints as its XID in decimal, which reads back as the XID |
| XUtils.GetCardinalList | src/xutils.c:397-437 | the items iff the read succeeded and the type is CARDINAL |
| XUtils.ViewportStartAsWrittenReadsPastEnd | src/xutils.c:455-457 | as written, a one-element viewport list passes the guard and list[1] is read past its end |
| XUtils.GetViewportStart | src/xutils.c:444-465 | with the guard corrected: the first two cardinals as C ints when there are two, else an error |
| XUtils.ViewportStartAgrees | src/xutils.c:444-465 | wherever the as-written read stays in bounds, the corrected one succeeds exactly when it does and gives the same coordinates |
| ScriptFunctions.CheckParamCount | src/script_functions.c:124-138 | success iff the argument count equals the expected one; otherwise the argument-count error of that function |
| ScriptFunctions.CheckParamCounts | src/script_functions.c:145-160 | success iff the count equals either value |
| ScriptFunctions.CheckParamCountsRange | src/script_functions.c:167-182 | success iff min <= count <= max |
| ScriptFunctions.ParamChecksAgree | src/script_functions.c:124-182 | the three checks agree where their ranges coincide |
| ScriptFunctions.OffsetCoordinate | src/script_functions.c:315-335 | a non-negative coordinate is that far from the bounds' start; a negative one leaves -v-1 pixels to the far edge |
| ScriptFunctions.OffsetEdges | src/script_functions.c:315-335 | x = -1 is flush with the far edge and x = 0 with the near edge |
| ScriptFunctions.PositionMonitor | src/script_functions.c:298-306 | the monitor argument minus one, with out-of-range values becoming 0; MonitorNone without it |
| ScriptFunctions.DoSetWindowPositionInternal | src/script_functions.c:283-338 | an error unless there are 2–3 (4–5 with size) numeric arguments; the position as given in emulation or without a monitor; otherwise placed in the selected bounds; FALSE without a window or bounds |
| ScriptFunctions.FirstByte | src/script_functions.c:2076-2077 | the first byte of the UTF-8 text: the character for ASCII, a lead byte otherwise |
| ScriptFunctions.ByteCentringCases | src/script_functions.c:2077-2086 | clearing bit 5 picks horizontal exactly for H or h and vertical exactly for V or v |
| ScriptFunctions.StringCentringByFirstLetter | src/script_functions.c:2077-2086 | a string starting with H/h centres horizontally, V/v vertically, anything else both |
| ScriptFunctions.CentreMonitor | src/script_functions.c:2070-2074 | a monitor number becomes MonitorWindow, MonitorAll or a monitor in range |
| ScriptFunctions.CentreArgs | src/script_functions.c:2062-2091 | parsed arguments give a valid monitor selector; the only error is the number-or-string one |
| ScriptFunctions.CentreArgsErrorIff | src/script_functions.c:2065-2091 | parsing fails iff some argument is neither a number nor a string |
| ScriptFunctions.CentreArgsDefaultMode | src/script_functions.c:2063-2091 | without a string argument both axes are centred |
| ScriptFunctions.ParseCentreArgs | src/script_functions.c:2062-2091 | the argument loop computes CentreArgs |
| ScriptFunctions.CentredMarginsBalanced | src/script_functions.c:2099-2107 | a centred window's margins differ by at most one pixel |
| ScriptFunctions.ClampedInside | src/script_functions.c:2101-2111 | clamping puts a window that fits wholly inside the bounds |
| ScriptFunctions.ClampKeepsInsideWindow | src/script_functions.c:2101-2111 | clamping leaves a window that is already inside where it is |
| ScriptFunctions.Center | src/script_functions.c:2043-2129 | at most two arguments; FALSE without a window or bounds; otherwise, for every monitor selector including the window's own monitor, the move goes to the centred or clamped target within the selected bounds, and the result is TRUE unless the move raised an X error |
| ScriptFunctions.DefaultStruts | src/script_functions.c:494-515 | twelve zeros except indices 5 and 7, which are the height, and 9 and 11, which are the width |
| ScriptFunctions.PaddedStruts | src/script_functions.c:584-603 | the first min(len, 12) values, padded with the defaults to 12 |
| ScriptFunctions.PaddedStrutsIdempotent | src/script_functions.c:584-603 | padding twice is padding once |
| ScriptFunctions.ArgNumbers | src/script_functions.c:536-538 | every argument read as lua_tonumber does |
| ScriptFunctions.StrutBuffer.GetDefaultStruts | src/script_functions.c:494-515 | the static array holds the default struts |
| ScriptFunctions.StrutProperty | src/script_functions.c:543-550 | the 32-bit CARDINAL property holds each buffer value modulo 2^32, unchanged when it fits |
| ScriptFunctions.StrutBuffer.SetWindowStrut | src/script_functions.c:520-555 | an error iff there are fewer than 4 arguments; otherwise at most 12 arguments over the defaults are written to the buffer, and the property gets their 32-bit values; nothing in emulation |
| ScriptFunctions.StrutBuffer.GetWindowStrut | src/script_functions.c:560-607 | an error with arguments; nothing without a window or struts; otherwise the partial struts, else the legacy ones, padded to 12; the buffer holds the defaults after padding and is untouched otherwise |
| ScriptFunctions.StrutRoundTrip | src/script_functions.c:520-607 | the twelve cardinals set_window_strut stores read back unchanged; each given argument is kept modulo 2^32, and exactly when it fits in 32 bits |
| ScriptFunctions.MillisleepInterval | src/script_functions.c:2615-2645 | accepted iff one number in 1..1000; the interval is exactly that many milliseconds, with 0 <= nsec < 10^9; out-of-range times give the range error |
| ScriptFunctions.UseUtf8Step | src/script_functions.c:186-210 | returns the previous default; with a boolean argument stores it, without one keeps it |
| ScriptFunctions.UseUtf8SetThenQuery | src/script_functions.c:186-210 | setting and then querying returns what was set |
| ScriptFunctions.AdjustForDecorationStep | src/script_functions.c:214-236 | TRUE without an argument, the argument if boolean; errors keep the flag |
| ScriptFunctions.ScriptState.UseUtf8 | src/script_functions.c:186-210 | the flag changes as UseUtf8Step says and nothing else changes |
| ScriptFunctions.ScriptState.SetAdjustForDecoration | src/script_functions.c:214-236 | the flag changes as AdjustForDecorationStep says and nothing else changes |
| ScriptFunctions.GetWindowFrameExtents | src/script_functions.c:1297-1345 | no arguments allowed; zeros without a window; the four _NET_FRAME_EXTENTS values as C ints when present, else the extents computed from the geometries |
| ScriptFunctions.GeometryExtentsMatchAdjustment | src/script_functions.c:1326-1336 | the computed extents are the offsets adjust_for_decoration removes, and each axis adds up to the frame's extra size |
| ScriptFunctions.ScriptState.SetCurrentWindow | src/script_functions.c:817-820 | the slot holds the window and the other globals are unchanged |
| ScriptFunctions.ScriptState.GetCurrentWindow | src/script_functions.c:826-829 | returns the slot |
| ScriptFunctions.ScriptState.FindWorkspaceWithName | src/script_functions.c:921-941 | -1 for a missing or empty name or no window; otherwise the first workspace with exactly that name, and -1 iff there is none |
| Script.CFunctionOfInjective | src/script.c:74 | DP2_REGISTER's name pasting c_##name is injective |
| Script.Dp2Binding | src/script.c:74 | DP2_REGISTER(name) binds the global name to c_name |
| Script.AliasBinding | src/script.c:96-189 | each British-spelling alias is bound to the same C function as its canonical name |
| Script.DeprecatedSpellings | src/script.c:98-140 | the deprecated *_horisontally names have their own wrappers, which delegate to the *_horizontally handlers |
| Script.Interpreter.Register | src/script.c:74-75 | lua_register sets one global to its handler |
| Script.RegistrationComplete | src/script.c:78-201 | every DP2_REGISTER name and every alias has its lua_register call |
| Script.EveryGlobalRegistered | src/script.c:78-201 | a table holding the binding of every registration call binds every global to its handler |
| Script.Interpreter.RegisterEach | src/script.c:78-201 | after the calls each name given is bound to its handler, later calls winning, and other globals keep their bindings |
| Script.Interpreter.RegisterCFunctions | src/script.c:75-202 | every global, DP2_REGISTER name or alias, ends up bound to its handler, whatever was bound before |
| Script.InitScript | src/script.c:59-68 | a fresh state in which every global is bound to its handler, and every alias to the same handler as the name it stands for |
| Script.LoadScriptResult | src/script.c:208-230 | 0 iff there is a state and the file loaded; -1 otherwise |
| Script.ScriptGlobals.LoadScript | src/script.c:208-230 | returns LoadScriptResult; script_loaded becomes set on success and is otherwise kept |
| Script.RunScriptReport | src/script.c:236-260 | an error message is printed iff lua_pcall returns non-zero |

## Left out

- X11, GDK and libwnck calls, property writes, error traps and Xinerama queries are not modelled. Their results are inputs: window geometries, monitor lists, property replies and trap outcomes.
- Lua interpreter internals (`luaL_loadfile`, `lua_pcall`, `lua_next`, the stack) are not modelled. Load and run statuses and the global tables are inputs.
- Lua numbers are integers. Floating-point numbers and numeric strings are not modelled.
- `main`, `init_screens`, `signal_handler`, `devilspie_exit`, the main loop and the file-monitor setup are process and I/O plumbing.
- `current_time`, `c_get_process_name` and its helpers, and `on_geometry_changed` are left out because they block on X events, read `/proc` or wire signals.
- `my_window_set_opacity` and `c_set_window_opacity` are left out because they use floating point.
- The `nanosleep` loop of `millisleep` is not modelled; only the range check and the conversion are.
- The script timeout and backtrace supervisor does not exist in `src/script.c`, so it is not modelled.
- `src/error_strings.c`, `src/script_functions.h`, `src/compat.h` and `xutils.h` are not part of this model.
- Translated messages (`_()`) and the text of debug `printf`s are not modelled. The decisions they are guarded by are.
- Embedded NUL characters: C strings end at the first NUL. Hence the ordering lemmas require NUL-free strings.
- `g_build_path` normalisation of repeated separators is not modelled. Paths are `folder/name`.
- `Script.Interpreter.RegisterCFunctions`: the Lua global table is keyed by the name datatype, not by the spelled-out strings. That the 83 spellings are distinct, so that no string-keyed registration overrides another, is not proved.
- `Config.EventLists.LoadConfig`: `src/config.c:203` calls `run_script` with a file name and tests its result, which `src/script.c:237` does not provide. The call is modelled as the input `bootstrapRunOk`.
- `Devilspie.Dispatcher.LoadListOfScripts`: `run_script` on a Lua stack left over by a failed load is recorded as a run with a non-zero load result. What `lua_pcall` then does is not modelled.
- `Devilspie.Dispatcher.LoadListOfScripts`: what a script does to the window and to the script-function globals (`use_utf8`, `set_adjust_for_decoration`, the current window) when it runs is not modelled, so the contract says nothing about those flags afterwards.
- `XUtils.AtomGetKeepsInvariant` and `XUtils.AtomCache.Get` take as given that XInternAtom never answers an uncached name with an atom already cached for another name.
- `ScriptFunctions.StrutProperty`: the conversion of a Lua number to `gulong` is taken for an integer and reduced modulo 2^32. Negative and fractional numbers, whose conversion C leaves undefined, are not modelled otherwise.
- `XUtils.MonitorIndex`: the C `int` sums `x_org + width` and the centre coordinates are unbounded integers here; overflow is not modelled.
- `global_lua_state` is taken to be non-NULL during dispatch.
- `XUtils.GetStringProperty`: for a 16-bit CARDINAL, `src/xutils.c:334-335` reads an `unsigned int` over the one 2-byte item that Xlib returns as a `short`, so it also takes in two bytes past the item, whose value depends on memory and byte order. The model prints the item's own value, which is the evident intent, and does not model the bytes past the item.
- `XUtils.ByteAsString`: `"%c"` of a byte of 128 or more is that one raw byte in C. The model's strings are code points, so it gives the code point of the byte's value instead, which would be two bytes in UTF-8. Only ASCII bytes are exact.
- The other Lua-facing functions of `src/script_functions.c` are left out. These are window operations such as `maximize` and `shade`, which are single calls into libwnck.

## Findings

| source | as written | input that shows it | evidently intended | confidence | as-written member | corrected member |
|---|---|---|---|---|---|---|
| src/xutils.c:669-673 | the monitor rectangle for the intersection test has x_org + width as its width and y_org + height as its height | monitors 0,0,1000x1000 and 1000,0,1000x1000 with window 2500,0,100x100: the window goes to monitor 1, with which it shares no pixel | the monitor's own width and height | not executed | XUtils.MonitorIndexAsWrittenMisplaces | XUtils.CorrectedIndexSharesPixel |
| src/xutils.c:455-457 | the guard tests len > 0 but reads list[0] and list[1] | a _NET_DESKTOP_VIEWPORT property with one cardinal | require two values before reading them | not executed | XUtils.ViewportStartAsWrittenReadsPastEnd | XUtils.GetViewportStart |
