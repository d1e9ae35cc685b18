/**
 * The Lua interpreter set-up of src/script.c: the C functions
 * register_cfunctions binds to Lua globals, and the result contracts of
 * load_script and run_script. Loading and running a chunk belong to the
 * interpreter; their status codes are inputs.
 */
module Script {
  import opened Wrappers

  /** The name DP2_REGISTER gives the C function of a Lua name: c_<name>. */
  function CFunctionOf(name: string): string {
    "c_" + name
  }

  /** Distinct names give distinct C function names. */
  lemma CFunctionOfInjective(a: string, b: string)
    ensures CFunctionOf(a) == CFunctionOf(b) <==> a == b
  {
    if CFunctionOf(a) == CFunctionOf(b) {
      assert CFunctionOf(a)[2..] == a;
      assert CFunctionOf(b)[2..] == b;
    }
  }

  /** The C functions register_cfunctions binds, in order of first registration. */
  datatype Handler =
    | GetWindowName | GetWindowHasName | SetWindowPosition | SetWindowPosition2
    | SetWindowSize | SetWindowStrut | SetWindowGeometry | SetWindowGeometry2
    | GetApplicationName | DebugPrint | Shade | Unshade
    | Maximize | MaximizeHorisontally | MaximizeHorizontally | MaximizeVertically
    | Unmaximize | Minimize | Unminimize | DecorateWindow
    | UndecorateWindow | SetWindowWorkspace | ChangeWorkspace | GetWorkspaceCount
    | PinWindow | UnpinWindow | StickWindow | UnstickWindow
    | CloseWindow | SetAdjustForDecoration | GetWindowGeometry | GetWindowClientGeometry
    | SetSkipTasklist | SetSkipPager | GetWindowIsMaximized | GetWindowIsMaximizedVertically
    | GetWindowIsMaximizedHorisontally | GetWindowIsMaximizedHorizontally | GetWindowIsPinned | GetWindowIsDecorated
    | SetWindowBelow | SetWindowAbove | SetWindowFullscreen | MakeAlwaysOnTop
    | SetOnTop | SetOnBottom | GetWindowType | GetWindowProperty
    | GetWindowRole | GetWindowXid | GetWindowClass | SetWindowProperty
    | DeleteWindowProperty | SetViewport | Center | SetWindowOpacity
    | SetWindowType | GetScreenGeometry | GetWindowFullscreen | GetWindowStrut
    | GetClassInstanceName | GetClassGroupName | Focus | GetMonitorIndex
    | GetMonitorGeometry | Xy | Xywh | OnGeometryChanged
    | GetProcessName | GetProcessOwner

  /** The Lua name a C function is registered under by DP2_REGISTER: its own name without c_. */
  function BaseName(f: Handler): string {
    match f
    case GetWindowName => "get_window_name"
    case GetWindowHasName => "get_window_has_name"
    case SetWindowPosition => "set_window_position"
    case SetWindowPosition2 => "set_window_position2"
    case SetWindowSize => "set_window_size"
    case SetWindowStrut => "set_window_strut"
    case SetWindowGeometry => "set_window_geometry"
    case SetWindowGeometry2 => "set_window_geometry2"
    case GetApplicationName => "get_application_name"
    case DebugPrint => "debug_print"
    case Shade => "shade"
    case Unshade => "unshade"
    case Maximize => "maximize"
    case MaximizeHorisontally => "maximize_horisontally"
    case MaximizeHorizontally => "maximize_horizontally"
    case MaximizeVertically => "maximize_vertically"
    case Unmaximize => "unmaximize"
    case Minimize => "minimize"
    case Unminimize => "unminimize"
    case DecorateWindow => "decorate_window"
    case UndecorateWindow => "undecorate_window"
    case SetWindowWorkspace => "set_window_workspace"
    case ChangeWorkspace => "change_workspace"
    case GetWorkspaceCount => "get_workspace_count"
    case PinWindow => "pin_window"
    case UnpinWindow => "unpin_window"
    case StickWindow => "stick_window"
    case UnstickWindow => "unstick_window"
    case CloseWindow => "close_window"
    case SetAdjustForDecoration => "set_adjust_for_decoration"
    case GetWindowGeometry => "get_window_geometry"
    case GetWindowClientGeometry => "get_window_client_geometry"
    case SetSkipTasklist => "set_skip_tasklist"
    case SetSkipPager => "set_skip_pager"
    case GetWindowIsMaximized => "get_window_is_maximized"
    case GetWindowIsMaximizedVertically => "get_window_is_maximized_vertically"
    case GetWindowIsMaximizedHorisontally => "get_window_is_maximized_horisontally"
    case GetWindowIsMaximizedHorizontally => "get_window_is_maximized_horizontally"
    case GetWindowIsPinned => "get_window_is_pinned"
    case GetWindowIsDecorated => "get_window_is_decorated"
    case SetWindowBelow => "set_window_below"
    case SetWindowAbove => "set_window_above"
    case SetWindowFullscreen => "set_window_fullscreen"
    case MakeAlwaysOnTop => "make_always_on_top"
    case SetOnTop => "set_on_top"
    case SetOnBottom => "set_on_bottom"
    case GetWindowType => "get_window_type"
    case GetWindowProperty => "get_window_property"
    case GetWindowRole => "get_window_role"
    case GetWindowXid => "get_window_xid"
    case GetWindowClass => "get_window_class"
    case SetWindowProperty => "set_window_property"
    case DeleteWindowProperty => "delete_window_property"
    case SetViewport => "set_viewport"
    case Center => "center"
    case SetWindowOpacity => "set_window_opacity"
    case SetWindowType => "set_window_type"
    case GetScreenGeometry => "get_screen_geometry"
    case GetWindowFullscreen => "get_window_fullscreen"
    case GetWindowStrut => "get_window_strut"
    case GetClassInstanceName => "get_class_instance_name"
    case GetClassGroupName => "get_class_group_name"
    case Focus => "focus"
    case GetMonitorIndex => "get_monitor_index"
    case GetMonitorGeometry => "get_monitor_geometry"
    case Xy => "xy"
    case Xywh => "xywh"
    case OnGeometryChanged => "on_geometry_changed"
    case GetProcessName => "get_process_name"
    case GetProcessOwner => "get_process_owner"
  }

  /** The C identifier of a handler. */
  function HandlerName(f: Handler): string {
    CFunctionOf(BaseName(f))
  }

  /** The extra globals registered with lua_register for an existing C function. */
  datatype AliasName =
    | Maximise | MaximiseHorizontally | MaximiseVertically | Unmaximise
    | Minimise | Unminimise | GetWindowIsMaximised | GetWindowIsMaximisedVertically
    | GetWindowIsMaximisedHorizontally | Centre | SetOpacity | GetFullscreen
    | FocusWindow

  /** The Lua spelling of an alias. */
  function AliasSpelling(a: AliasName): string {
    match a
    case Maximise => "maximise"
    case MaximiseHorizontally => "maximise_horizontally"
    case MaximiseVertically => "maximise_vertically"
    case Unmaximise => "unmaximise"
    case Minimise => "minimise"
    case Unminimise => "unminimise"
    case GetWindowIsMaximised => "get_window_is_maximised"
    case GetWindowIsMaximisedVertically => "get_window_is_maximised_vertically"
    case GetWindowIsMaximisedHorizontally => "get_window_is_maximised_horizontally"
    case Centre => "centre"
    case SetOpacity => "set_opacity"
    case GetFullscreen => "get_fullscreen"
    case FocusWindow => "focus_window"
  }

  /** The C function an alias is registered with. */
  function AliasTarget(a: AliasName): Handler {
    match a
    case Maximise => Maximize
    case MaximiseHorizontally => MaximizeHorizontally
    case MaximiseVertically => MaximizeVertically
    case Unmaximise => Unmaximize
    case Minimise => Minimize
    case Unminimise => Unminimize
    case GetWindowIsMaximised => GetWindowIsMaximized
    case GetWindowIsMaximisedVertically => GetWindowIsMaximizedVertically
    case GetWindowIsMaximisedHorizontally => GetWindowIsMaximizedHorizontally
    case Centre => Center
    case SetOpacity => SetWindowOpacity
    case GetFullscreen => GetWindowFullscreen
    case FocusWindow => Focus
  }

  /** A Lua global register_cfunctions defines: a DP2_REGISTER name, or an alias. */
  datatype LuaName = Dp2(f: Handler) | Alias(a: AliasName)

  /** The Lua spelling of a global. */
  function Spelling(name: LuaName): string {
    match name
    case Dp2(f) => BaseName(f)
    case Alias(a) => AliasSpelling(a)
  }

  /** The C function a global is bound to. */
  function Registered(name: LuaName): Handler {
    match name
    case Dp2(f) => f
    case Alias(a) => AliasTarget(a)
  }

  /**
   * A DP2_REGISTER global `name` is bound to the C function c_name. This
   * holds by the definition of Registered; it is kept as a named fact.
   */
  lemma Dp2Binding(f: Handler)
    ensures HandlerName(Registered(Dp2(f))) == CFunctionOf(Spelling(Dp2(f)))
  {
  }

  /**
   * An alias is bound to the same C function as the DP2_REGISTER name it
   * stands for. This too holds by the definition of Registered.
   */
  lemma AliasBinding(a: AliasName)
    ensures Registered(Alias(a)) == Registered(Dp2(AliasTarget(a)))
    ensures HandlerName(Registered(Alias(a))) == CFunctionOf(Spelling(Dp2(AliasTarget(a))))
  {
  }

  /**
   * The C function that does the work: the deprecated *_horisontally
   * handlers are wrappers that warn and call their *_horizontally namesake.
   */
  function Delegate(f: Handler): Handler {
    if f == MaximizeHorisontally then MaximizeHorizontally
    else if f == GetWindowIsMaximizedHorisontally then GetWindowIsMaximizedHorizontally
    else f
  }

  /**
   * A deprecated spelling is bound to a wrapper of its own, distinct from
   * the correctly spelt handler, yet both end up in the same C function,
   * and a wrapper never delegates to another wrapper.
   */
  lemma DeprecatedSpellings(f: Handler)
    ensures Registered(Dp2(MaximizeHorisontally)) != Registered(Dp2(MaximizeHorizontally))
    ensures Delegate(Registered(Dp2(MaximizeHorisontally))) == Delegate(Registered(Dp2(MaximizeHorizontally)))
    ensures Registered(Dp2(GetWindowIsMaximizedHorisontally)) != Registered(Dp2(GetWindowIsMaximizedHorizontally))
    ensures Delegate(Registered(Dp2(GetWindowIsMaximizedHorisontally))) ==
      Delegate(Registered(Dp2(GetWindowIsMaximizedHorizontally)))
    ensures Delegate(Delegate(f)) == Delegate(f)
  {
  }

  /** The number of lua_register calls in register_cfunctions. */
  const RegistrationCount: nat := 83

  /** The global the i-th lua_register call of register_cfunctions defines (i counts from 0; the last call answers past the end). */
  function RegistrationAt(i: int): LuaName
  {
    match i
    case 0 => Dp2(GetWindowName)
    case 1 => Dp2(GetWindowHasName)
    case 2 => Dp2(SetWindowPosition)
    case 3 => Dp2(SetWindowPosition2)
    case 4 => Dp2(SetWindowSize)
    case 5 => Dp2(SetWindowStrut)
    case 6 => Dp2(SetWindowGeometry)
    case 7 => Dp2(SetWindowGeometry2)
    case 8 => Dp2(GetApplicationName)
    case 9 => Dp2(DebugPrint)
    case 10 => Dp2(Shade)
    case 11 => Dp2(Unshade)
    case 12 => Dp2(Maximize)
    case 13 => Alias(Maximise)
    case 14 => Dp2(MaximizeHorisontally)
    case 15 => Dp2(MaximizeHorizontally)
    case 16 => Alias(MaximiseHorizontally)
    case 17 => Dp2(MaximizeVertically)
    case 18 => Alias(MaximiseVertically)
    case 19 => Dp2(Unmaximize)
    case 20 => Alias(Unmaximise)
    case 21 => Dp2(Minimize)
    case 22 => Alias(Minimise)
    case 23 => Dp2(Unminimize)
    case 24 => Alias(Unminimise)
    case 25 => Dp2(DecorateWindow)
    case 26 => Dp2(UndecorateWindow)
    case 27 => Dp2(SetWindowWorkspace)
    case 28 => Dp2(ChangeWorkspace)
    case 29 => Dp2(GetWorkspaceCount)
    case 30 => Dp2(PinWindow)
    case 31 => Dp2(UnpinWindow)
    case 32 => Dp2(StickWindow)
    case 33 => Dp2(UnstickWindow)
    case 34 => Dp2(CloseWindow)
    case 35 => Dp2(SetAdjustForDecoration)
    case 36 => Dp2(GetWindowGeometry)
    case 37 => Dp2(GetWindowClientGeometry)
    case 38 => Dp2(SetSkipTasklist)
    case 39 => Dp2(SetSkipPager)
    case 40 => Dp2(GetWindowIsMaximized)
    case 41 => Alias(GetWindowIsMaximised)
    case 42 => Dp2(GetWindowIsMaximizedVertically)
    case 43 => Alias(GetWindowIsMaximisedVertically)
    case 44 => Dp2(GetWindowIsMaximizedHorisontally)
    case 45 => Dp2(GetWindowIsMaximizedHorizontally)
    case 46 => Alias(GetWindowIsMaximisedHorizontally)
    case 47 => Dp2(GetWindowIsPinned)
    case 48 => Dp2(GetWindowIsDecorated)
    case 49 => Dp2(SetWindowBelow)
    case 50 => Dp2(SetWindowAbove)
    case 51 => Dp2(SetWindowFullscreen)
    case 52 => Dp2(MakeAlwaysOnTop)
    case 53 => Dp2(SetOnTop)
    case 54 => Dp2(SetOnBottom)
    case 55 => Dp2(GetWindowType)
    case 56 => Dp2(GetWindowProperty)
    case 57 => Dp2(GetWindowRole)
    case 58 => Dp2(GetWindowXid)
    case 59 => Dp2(GetWindowClass)
    case 60 => Dp2(SetWindowProperty)
    case 61 => Dp2(DeleteWindowProperty)
    case 62 => Dp2(SetViewport)
    case 63 => Dp2(Center)
    case 64 => Alias(Centre)
    case 65 => Dp2(SetWindowOpacity)
    case 66 => Alias(SetOpacity)
    case 67 => Dp2(SetWindowType)
    case 68 => Dp2(GetScreenGeometry)
    case 69 => Dp2(GetWindowFullscreen)
    case 70 => Alias(GetFullscreen)
    case 71 => Dp2(GetWindowStrut)
    case 72 => Dp2(GetClassInstanceName)
    case 73 => Dp2(GetClassGroupName)
    case 74 => Dp2(Focus)
    case 75 => Alias(FocusWindow)
    case 76 => Dp2(GetMonitorIndex)
    case 77 => Dp2(GetMonitorGeometry)
    case 78 => Dp2(Xy)
    case 79 => Dp2(Xywh)
    case 80 => Dp2(OnGeometryChanged)
    case 81 => Dp2(GetProcessName)
    case _ => Dp2(GetProcessOwner)
  }

  /** The order of the lua_register calls in register_cfunctions. */
  const RegistrationOrder: seq<LuaName> := seq(RegistrationCount, i => RegistrationAt(i))

  /** Every global register_cfunctions knows has its lua_register call. */
  lemma RegistrationComplete(name: LuaName)
    ensures name in RegistrationOrder
  {
    match name {
      case Dp2(f) =>
        match f {
          case GetWindowName => assert RegistrationOrder[0] == name;
          case GetWindowHasName => assert RegistrationOrder[1] == name;
          case SetWindowPosition => assert RegistrationOrder[2] == name;
          case SetWindowPosition2 => assert RegistrationOrder[3] == name;
          case SetWindowSize => assert RegistrationOrder[4] == name;
          case SetWindowStrut => assert RegistrationOrder[5] == name;
          case SetWindowGeometry => assert RegistrationOrder[6] == name;
          case SetWindowGeometry2 => assert RegistrationOrder[7] == name;
          case GetApplicationName => assert RegistrationOrder[8] == name;
          case DebugPrint => assert RegistrationOrder[9] == name;
          case Shade => assert RegistrationOrder[10] == name;
          case Unshade => assert RegistrationOrder[11] == name;
          case Maximize => assert RegistrationOrder[12] == name;
          case MaximizeHorisontally => assert RegistrationOrder[14] == name;
          case MaximizeHorizontally => assert RegistrationOrder[15] == name;
          case MaximizeVertically => assert RegistrationOrder[17] == name;
          case Unmaximize => assert RegistrationOrder[19] == name;
          case Minimize => assert RegistrationOrder[21] == name;
          case Unminimize => assert RegistrationOrder[23] == name;
          case DecorateWindow => assert RegistrationOrder[25] == name;
          case UndecorateWindow => assert RegistrationOrder[26] == name;
          case SetWindowWorkspace => assert RegistrationOrder[27] == name;
          case ChangeWorkspace => assert RegistrationOrder[28] == name;
          case GetWorkspaceCount => assert RegistrationOrder[29] == name;
          case PinWindow => assert RegistrationOrder[30] == name;
          case UnpinWindow => assert RegistrationOrder[31] == name;
          case StickWindow => assert RegistrationOrder[32] == name;
          case UnstickWindow => assert RegistrationOrder[33] == name;
          case CloseWindow => assert RegistrationOrder[34] == name;
          case SetAdjustForDecoration => assert RegistrationOrder[35] == name;
          case GetWindowGeometry => assert RegistrationOrder[36] == name;
          case GetWindowClientGeometry => assert RegistrationOrder[37] == name;
          case SetSkipTasklist => assert RegistrationOrder[38] == name;
          case SetSkipPager => assert RegistrationOrder[39] == name;
          case GetWindowIsMaximized => assert RegistrationOrder[40] == name;
          case GetWindowIsMaximizedVertically => assert RegistrationOrder[42] == name;
          case GetWindowIsMaximizedHorisontally => assert RegistrationOrder[44] == name;
          case GetWindowIsMaximizedHorizontally => assert RegistrationOrder[45] == name;
          case GetWindowIsPinned => assert RegistrationOrder[47] == name;
          case GetWindowIsDecorated => assert RegistrationOrder[48] == name;
          case SetWindowBelow => assert RegistrationOrder[49] == name;
          case SetWindowAbove => assert RegistrationOrder[50] == name;
          case SetWindowFullscreen => assert RegistrationOrder[51] == name;
          case MakeAlwaysOnTop => assert RegistrationOrder[52] == name;
          case SetOnTop => assert RegistrationOrder[53] == name;
          case SetOnBottom => assert RegistrationOrder[54] == name;
          case GetWindowType => assert RegistrationOrder[55] == name;
          case GetWindowProperty => assert RegistrationOrder[56] == name;
          case GetWindowRole => assert RegistrationOrder[57] == name;
          case GetWindowXid => assert RegistrationOrder[58] == name;
          case GetWindowClass => assert RegistrationOrder[59] == name;
          case SetWindowProperty => assert RegistrationOrder[60] == name;
          case DeleteWindowProperty => assert RegistrationOrder[61] == name;
          case SetViewport => assert RegistrationOrder[62] == name;
          case Center => assert RegistrationOrder[63] == name;
          case SetWindowOpacity => assert RegistrationOrder[65] == name;
          case SetWindowType => assert RegistrationOrder[67] == name;
          case GetScreenGeometry => assert RegistrationOrder[68] == name;
          case GetWindowFullscreen => assert RegistrationOrder[69] == name;
          case GetWindowStrut => assert RegistrationOrder[71] == name;
          case GetClassInstanceName => assert RegistrationOrder[72] == name;
          case GetClassGroupName => assert RegistrationOrder[73] == name;
          case Focus => assert RegistrationOrder[74] == name;
          case GetMonitorIndex => assert RegistrationOrder[76] == name;
          case GetMonitorGeometry => assert RegistrationOrder[77] == name;
          case Xy => assert RegistrationOrder[78] == name;
          case Xywh => assert RegistrationOrder[79] == name;
          case OnGeometryChanged => assert RegistrationOrder[80] == name;
          case GetProcessName => assert RegistrationOrder[81] == name;
          case GetProcessOwner => assert RegistrationOrder[82] == name;
        }
      case Alias(a) =>
        match a {
          case Maximise => assert RegistrationOrder[13] == name;
          case MaximiseHorizontally => assert RegistrationOrder[16] == name;
          case MaximiseVertically => assert RegistrationOrder[18] == name;
          case Unmaximise => assert RegistrationOrder[20] == name;
          case Minimise => assert RegistrationOrder[22] == name;
          case Unminimise => assert RegistrationOrder[24] == name;
          case GetWindowIsMaximised => assert RegistrationOrder[41] == name;
          case GetWindowIsMaximisedVertically => assert RegistrationOrder[43] == name;
          case GetWindowIsMaximisedHorizontally => assert RegistrationOrder[46] == name;
          case Centre => assert RegistrationOrder[64] == name;
          case SetOpacity => assert RegistrationOrder[66] == name;
          case GetFullscreen => assert RegistrationOrder[70] == name;
          case FocusWindow => assert RegistrationOrder[75] == name;
        }
    }
  }

  /** A table holding every registration call's binding binds every global. */
  lemma EveryGlobalRegistered(globals: map<LuaName, Handler>)
    requires forall j :: 0 <= j < |RegistrationOrder| ==>
      RegistrationOrder[j] in globals && globals[RegistrationOrder[j]] == Registered(RegistrationOrder[j])
    ensures forall name :: name in globals && globals[name] == Registered(name)
  {
    forall name
      ensures name in globals && globals[name] == Registered(name)
    {
      RegistrationComplete(name);
    }
  }

  /** A Lua interpreter's global table, as far as the registered C functions go. */
  class Interpreter {
    var globals: map<LuaName, Handler>

    /** luaL_newstate and luaL_openlibs: no C function of devilspie2's is registered yet. */
    constructor ()
      ensures globals == map[]
    {
      globals := map[];
    }

    /** lua_register: binds the global to the C function, replacing any earlier binding. */
    method Register(name: LuaName, f: Handler)
      modifies this
      ensures globals == old(globals)[name := f]
    {
      globals := globals[name := f];
    }

    /**
     * register_cfunctions: every global, DP2_REGISTER name or alias, ends up
     * bound to its C function, whatever was bound before.
     */
    method RegisterCFunctions()
      modifies this
      ensures forall name :: name in globals && globals[name] == Registered(name)
    {
      RegisterEach(RegistrationOrder);
      EveryGlobalRegistered(globals);
    }

    /** The lua_register calls for the given globals, in turn; later calls win. */
    method RegisterEach(names: seq<LuaName>)
      modifies this
      ensures forall j :: 0 <= j < |names| ==> names[j] in globals && globals[names[j]] == Registered(names[j])
      ensures forall name :: name in old(globals) && name !in names ==> name in globals && globals[name] == old(globals)[name]
    {
      for i := 0 to |names|
        invariant forall j :: 0 <= j < i ==> names[j] in globals && globals[names[j]] == Registered(names[j])
        invariant forall name :: name in old(globals) && name !in names ==> name in globals && globals[name] == old(globals)[name]
      {
        Register(names[i], Registered(names[i]));
      }
    }
  }

  /**
   * init_script: a fresh interpreter in which every global is bound to its
   * C function, and every alias to the same C function as the name it
   * stands for.
   */
  method InitScript() returns (lua: Interpreter)
    ensures fresh(lua)
    ensures forall name :: name in lua.globals && lua.globals[name] == Registered(name)
    ensures forall a :: lua.globals[Alias(a)] == lua.globals[Dp2(AliasTarget(a))]
  {
    lua := new Interpreter();
    lua.RegisterCFunctions();
  }

  /**
   * load_script's result: 0 when there is an interpreter and luaL_loadfile
   * succeeded (status 0), else -1.
   */
  function LoadScriptResult(hasState: bool, loadStatus: int): (r: int)
    ensures r == 0 || r == -1
    ensures r == 0 <==> hasState && loadStatus == 0
  {
    if hasState then (if loadStatus == 0 then 0 else -1) else -1
  }

  /** The script_loaded flag of script.c. */
  class ScriptGlobals {
    var scriptLoaded: bool

    constructor ()
      ensures !scriptLoaded
    {
      scriptLoaded := false;
    }

    /** load_script: a successful load sets script_loaded; a failure leaves it as it was. */
    method LoadScript(hasState: bool, loadStatus: int) returns (r: int)
      modifies this
      ensures r == LoadScriptResult(hasState, loadStatus)
      ensures scriptLoaded == (old(scriptLoaded) || r == 0)
    {
      if hasState {
        var result := loadStatus;
        if result == 0 {
          scriptLoaded := true;
        } else {
          return -1;
        }
      } else {
        return -1;
      }
      return 0;
    }
  }

  /**
   * run_script: the error message it prints ("Error: <message>") when
   * lua_pcall returns a non-zero status, and nothing otherwise.
   */
  function RunScriptReport(pcallStatus: int, errorMessage: string): (report: Option<string>)
    ensures report.Some? <==> pcallStatus != 0
    ensures report.Some? ==> report.value == "Error: " + errorMessage
  {
    if pcallStatus != 0 then Some("Error: " + errorMessage) else None
  }
}
