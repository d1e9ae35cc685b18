/**
 * The logic inside the Lua-facing functions of src/script_functions.c. A
 * call's Lua arguments are a sequence of values; luaL_error, which unwinds
 * out of the function, is the Err result; the window, its geometry, the
 * screen and property replies are inputs.
 */
module ScriptFunctions {
  import opened Wrappers
  import opened Strings
  import opened Lua
  import opened XUtils

  /** A window, as the handle the scripts act on. */
  type WindowId = nat

  /**
   * The messages of the error-string tables (src/error_strings.c, which is
   * not part of this model), by kind.
   */
  datatype ErrorKind =
    | ParamCount
    | NumberExpected
    | BooleanExpected
    | NumberOrStringExpected
    | AtLeastFourExpected
    | OutOfRange(value: int)

  /** A Lua error raised by a function: "<funcname>: <message>". */
  datatype LuaError = LuaError(funcname: string, kind: ErrorKind)

  // ---------------------------------------------------------------------
  // Argument-count validators

  /** check_param_count: the call has exactly `expected` arguments. */
  function CheckParamCount(funcname: string, top: nat, expected: int): (r: Option<LuaError>)
    ensures r.None? <==> top == expected
    ensures r.Some? ==> r.value == LuaError(funcname, ParamCount)
  {
    if top != expected then Some(LuaError(funcname, ParamCount)) else None
  }

  /** check_param_counts: the call has one of two argument counts. */
  function CheckParamCounts(funcname: string, top: nat, expected1: int, expected2: int): (r: Option<LuaError>)
    ensures r.None? <==> top == expected1 || top == expected2
    ensures r.Some? ==> r.value == LuaError(funcname, ParamCount)
  {
    if top != expected1 && top != expected2 then Some(LuaError(funcname, ParamCount)) else None
  }

  /** check_param_counts_range: the argument count lies in [expectedMin, expectedMax]. */
  function CheckParamCountsRange(funcname: string, top: nat, expectedMin: int, expectedMax: int): (r: Option<LuaError>)
    ensures r.None? <==> expectedMin <= top <= expectedMax
    ensures r.Some? ==> r.value == LuaError(funcname, ParamCount)
  {
    if top < expectedMin || top > expectedMax then Some(LuaError(funcname, ParamCount)) else None
  }

  /** The three validators agree where their accepted counts coincide. */
  lemma ParamChecksAgree(funcname: string, top: nat, n: int)
    ensures CheckParamCounts(funcname, top, n, n) == CheckParamCount(funcname, top, n)
    ensures CheckParamCountsRange(funcname, top, n, n) == CheckParamCount(funcname, top, n)
    ensures CheckParamCountsRange(funcname, top, n, n + 1) == CheckParamCounts(funcname, top, n, n + 1)
  {
  }

  // ---------------------------------------------------------------------
  // Window position (do_set_window_position_internal)

  /** C's `~` on a two's-complement int. */
  function BitNot(v: int): int {
    -v - 1
  }

  /**
   * One coordinate placed within the bounds: a non-negative value is an
   * offset from the near edge; a negative one, through `~`, counts from the
   * far edge to the far side of the window.
   */
  function OffsetCoordinate(v: int, boundsStart: int, boundsSize: int, windowSize: int): (r: int)
    ensures v >= 0 ==> r - boundsStart == v
    ensures v < 0 ==> (boundsStart + boundsSize) - (r + windowSize) == -v - 1
  {
    if v < 0 then boundsStart + boundsSize - BitNot(v) - windowSize else v + boundsStart
  }

  /** -1 puts the window flush against the far edge, 0 against the near one. */
  lemma OffsetEdges(boundsStart: int, boundsSize: int, windowSize: int)
    ensures OffsetCoordinate(-1, boundsStart, boundsSize, windowSize) + windowSize == boundsStart + boundsSize
    ensures OffsetCoordinate(0, boundsStart, boundsSize, windowSize) == boundsStart
  {
  }

  /**
   * The monitor a position call selects: with the optional last argument,
   * its value minus one, where anything outside [MonitorAll, count) becomes
   * 0; without it, MonitorNone.
   */
  function PositionMonitor(args: seq<LuaValue>, monitorArg: nat, monitorCount: nat): (m: int)
    requires 1 <= monitorArg
    ensures |args| == monitorArg ==> MonitorAll <= m < monitorCount || m == 0
    ensures |args| != monitorArg ==> m == MonitorNone
  {
    if |args| == monitorArg then
      var m := ToNumber(args[monitorArg - 1]) - 1;
      if m < MonitorAll || m >= monitorCount then 0 else m
    else MonitorNone
  }

  /** The outcome of do_set_window_position_internal: its TRUE/FALSE result and the position it computed. */
  datatype Position = Position(ok: bool, x: int, y: int)

  /**
   * do_set_window_position_internal: x, y[, w, h][, monitor], all numbers.
   * In emulation or without a monitor argument the position is taken as
   * given; with one, it is placed within that monitor's or the workspace's
   * bounds. FALSE without a window or bounds.
   */
  method DoSetWindowPositionInternal(fn: string, args: seq<LuaValue>, withSize: bool, emulate: bool,
                                     window: Option<WindowGeometry>, screen: Screen)
    returns (r: Result<Position, LuaError>)
    ensures var m := if withSize then 5 else 3;
      r.Err? <==> !(|args| == m - 1 || |args| == m) || !AllNumbers(args)
    ensures r.Err? ==> r.error.funcname == fn
    ensures r.Ok? && (emulate || window.Some?) && |args| == (if withSize then 4 else 2) ==>
      r.value == Position(true, args[0].n, args[1].n)
    ensures r.Ok? && emulate ==> r.value == Position(true, args[0].n, args[1].n)
    ensures r.Ok? && !emulate && window.None? ==> !r.value.ok
    ensures r.Ok? && !emulate && window.Some? && |args| == (if withSize then 5 else 3) ==>
      var selected := SelectedBounds(PositionMonitor(args, |args|, MonitorCount(screen)), window.value.frame, screen);
      if selected.1.None? then !r.value.ok
      else
        var b := selected.1.value;
        r.value == Position(true,
          OffsetCoordinate(args[0].n, b.x, b.width, window.value.frame.width),
          OffsetCoordinate(args[1].n, b.y, b.height, window.value.frame.height))
  {
    var monitorArg: nat := if withSize then 5 else 3;
    var countError := CheckParamCounts(fn, |args|, monitorArg - 1, monitorArg);
    if countError.Some? {
      return Err(countError.value);
    }
    var i := 0;
    while i < |args|
      invariant 0 <= i <= |args|
      invariant forall j :: 0 <= j < i ==> args[j].Number?
    {
      if !args[i].Number? {
        return Err(LuaError(fn, NumberExpected));
      }
      i := i + 1;
    }
    var x, y := ToNumber(args[0]), ToNumber(args[1]);
    var monitor := PositionMonitor(args, monitorArg, MonitorCount(screen));
    if emulate {
      return Ok(Position(true, x, y));
    }
    if window.None? {
      return Ok(Position(false, x, y));
    }
    if monitor != MonitorNone {
      var geom := window.value.frame;
      var selected, bounds := GetMonitorOrWorkspaceGeometry(monitor, window.value, screen);
      if selected == MonitorNone {
        return Ok(Position(false, x, y));
      }
      x := OffsetCoordinate(x, bounds.value.x, bounds.value.width, geom.width);
      y := OffsetCoordinate(y, bounds.value.y, bounds.value.height, geom.height);
    }
    return Ok(Position(true, x, y));
  }

  // ---------------------------------------------------------------------
  // Centring (c_center)

  /** The centring mode: which axes are centred (bit 1 horizontal, bit 2 vertical). */
  datatype Centring = CentreNone | CentreH | CentreV | CentreHV {
    predicate Horizontal() { this == CentreH || this == CentreHV }
    predicate Vertical() { this == CentreV || this == CentreHV }
  }

  /** The first byte of a string's UTF-8 encoding, 0 (the NUL) for the empty string. */
  function FirstByte(s: string): (b: int)
    ensures 0 <= b < 256
    ensures s != [] && s[0] as int < 128 ==> b == s[0] as int
    ensures s != [] && s[0] as int >= 128 ==> b >= 0xC0
  {
    if s == [] then 0
    else
      var c := s[0] as int;
      if c < 0x80 then c
      else if c < 0x800 then 0xC0 + c / 0x40
      else if c < 0x10000 then 0xE0 + c / 0x1000
      else 0xF0 + c / 0x40000
  }

  /** The mode a string argument selects: its first byte with bit 5 cleared, against 'H' and 'V'. */
  function StringCentring(s: string): Centring {
    ByteCentring(FirstByte(s))
  }

  /** A byte & 0xDF: bit 5, the ASCII lower-case bit, cleared. */
  function ClearBit5(b: int): (r: int)
    requires 0 <= b < 256
    ensures r == b || r == b - 0x20
  {
    if (b / 0x20) % 2 == 1 then b - 0x20 else b
  }

  /** The mode a first byte selects. */
  function ByteCentring(b: int): Centring
    requires 0 <= b < 256
  {
    var u := ClearBit5(b);
    if u == 'H' as int then CentreH
    else if u == 'V' as int then CentreV
    else CentreHV
  }

  /** Clearing bit 5 folds exactly the lower-case letter onto the upper-case one. */
  lemma ByteCentringCases(b: int)
    requires 0 <= b < 256
    ensures ByteCentring(b) == CentreH <==> (b == 'H' as int || b == 'h' as int)
    ensures ByteCentring(b) == CentreV <==> (b == 'V' as int || b == 'v' as int)
  {
  }

  /** A string starting with 'h' or 'H' centres horizontally, with 'v' or 'V' vertically, anything else both ways. */
  lemma StringCentringByFirstLetter(s: string)
    ensures StringCentring(s) == CentreH <==> s != [] && (s[0] == 'H' || s[0] == 'h')
    ensures StringCentring(s) == CentreV <==> s != [] && (s[0] == 'V' || s[0] == 'v')
    ensures StringCentring(s) == CentreHV <==> !(s != [] && s[0] in {'H', 'h', 'V', 'v'})
  {
    var n := FirstByte(s);
    ByteCentringCases(n);
    if s != [] && s[0] as int < 128 {
      assert n == s[0] as int;
    } else {
      assert n == 0 || n >= 0xC0;
    }
  }

  /** The monitor a number argument of c_center selects: out of range means the window's monitor. */
  function CentreMonitor(n: int, monitorCount: nat): (m: int)
    ensures m == MonitorWindow || MonitorAll <= m < monitorCount
  {
    var m := n - 1;
    if m < MonitorAll || m >= monitorCount then MonitorWindow else m
  }

  /**
   * The arguments of c_center read in order: each number selects a monitor,
   * each string a mode, and the last of each wins; any other type is an
   * error. Without arguments: the whole workspace, both axes.
   */
  function CentreArgs(args: seq<LuaValue>, monitorCount: nat): (r: Result<(int, Centring), LuaError>)
    ensures r.Ok? ==> r.value.0 == MonitorAll || r.value.0 == MonitorWindow || 0 <= r.value.0 < monitorCount
    ensures r.Err? ==> r.error == LuaError("center", NumberOrStringExpected)
  {
    if args == [] then Ok((MonitorAll, CentreHV))
    else
      var prev := CentreArgs(args[..|args| - 1], monitorCount);
      var last := args[|args| - 1];
      if prev.Err? then prev
      else if last.Number? then Ok((CentreMonitor(last.n, monitorCount), prev.value.1))
      else if last.Str? then Ok((prev.value.0, StringCentring(last.s)))
      else Err(LuaError("center", NumberOrStringExpected))
  }

  /** The arguments are rejected exactly when one of them is neither a number nor a string. */
  lemma {:induction false} CentreArgsErrorIff(args: seq<LuaValue>, monitorCount: nat)
    ensures CentreArgs(args, monitorCount).Err? <==> exists i :: 0 <= i < |args| && !(args[i].Number? || args[i].Str?)
  {
    if args != [] {
      var init := args[..|args| - 1];
      CentreArgsErrorIff(init, monitorCount);
      if exists i :: 0 <= i < |init| && !(init[i].Number? || init[i].Str?) {
        var i :| 0 <= i < |init| && !(init[i].Number? || init[i].Str?);
        assert args[i] == init[i];
      }
      if exists i :: 0 <= i < |args| && !(args[i].Number? || args[i].Str?) {
        var i :| 0 <= i < |args| && !(args[i].Number? || args[i].Str?);
        if i < |init| {
          assert init[i] == args[i];
        }
      }
    }
  }

  /** With no string argument, both axes are centred. */
  lemma {:induction false} CentreArgsDefaultMode(args: seq<LuaValue>, monitorCount: nat)
    requires forall i :: 0 <= i < |args| ==> args[i].Number?
    ensures CentreArgs(args, monitorCount).Ok? && CentreArgs(args, monitorCount).value.1 == CentreHV
  {
    if args != [] {
      CentreArgsDefaultMode(args[..|args| - 1], monitorCount);
    }
  }

  /** c_center's argument loop. */
  method ParseCentreArgs(args: seq<LuaValue>, monitorCount: nat) returns (r: Result<(int, Centring), LuaError>)
    ensures r == CentreArgs(args, monitorCount)
  {
    var monitorNo := MonitorAll;
    var centre := CentreHV;
    var i := 0;
    while i < |args|
      invariant 0 <= i <= |args|
      invariant CentreArgs(args[..i], monitorCount) == Ok((monitorNo, centre))
    {
      assert args[..i + 1][..i] == args[..i];
      if args[i].Number? {
        monitorNo := CentreMonitor(args[i].n, monitorCount);
      } else if args[i].Str? {
        centre := StringCentring(args[i].s);
      } else {
        CentreArgsErrorIff(args, monitorCount);
        return Err(LuaError("center", NumberOrStringExpected));
      }
      i := i + 1;
    }
    assert args[..i] == args;
    return Ok((monitorNo, centre));
  }

  /**
   * One axis of c_center: a centred axis starts at the bounds' start plus
   * half the spare room (C division); otherwise a window sticking out past
   * either edge is moved back against that edge.
   */
  function CentreAxis(centred: bool, pos: int, size: int, deskPos: int, deskSize: int): int {
    if centred then deskPos + CDiv(deskSize - size, 2)
    else if pos < deskPos then deskPos
    else if pos + size >= deskPos + deskSize then deskPos + deskSize - size
    else pos
  }

  /** Centring leaves margins on the two sides that differ by at most one pixel. */
  lemma CentredMarginsBalanced(pos: int, size: int, deskPos: int, deskSize: int)
    ensures var r := CentreAxis(true, pos, size, deskPos, deskSize);
            var leftMargin := r - deskPos;
            var rightMargin := deskPos + deskSize - (r + size);
            -1 <= leftMargin - rightMargin <= 1
  {
  }

  /** Clamping puts a window that fits wholly inside the bounds. */
  lemma ClampedInside(pos: int, size: int, deskPos: int, deskSize: int)
    requires size <= deskSize
    ensures var r := CentreAxis(false, pos, size, deskPos, deskSize);
            deskPos <= r && r + size <= deskPos + deskSize
  {
  }

  /** Clamping does not move a window that is already inside the bounds. */
  lemma ClampKeepsInsideWindow(pos: int, size: int, deskPos: int, deskSize: int)
    requires deskPos <= pos && pos + size <= deskPos + deskSize
    ensures CentreAxis(false, pos, size, deskPos, deskSize) == pos
  {
  }

  /** Where c_center puts a window in the given bounds. */
  function CentreTarget(centre: Centring, window: Rect, desktop: Rect): (int, int) {
    (CentreAxis(centre.Horizontal(), window.x, window.width, desktop.x, desktop.width),
     CentreAxis(centre.Vertical(), window.y, window.height, desktop.y, desktop.height))
  }

  /** The result of c_center: the boolean it returns and the position XMoveWindow is given, if any. */
  datatype CentreOutcome = CentreOutcome(result: bool, moveTo: Option<(int, int)>)

  /**
   * c_center: at most two arguments; FALSE without a window or without
   * bounds; otherwise the window is moved (unless emulating) to its
   * centred or clamped position, and FALSE is returned if the move raised an
   * X error.
   */
  method Center(args: seq<LuaValue>, emulate: bool, window: Option<WindowGeometry>, screen: Screen, moveFails: bool)
    returns (r: Result<CentreOutcome, LuaError>)
    ensures |args| > 2 ==> r == Err(LuaError("center", ParamCount))
    ensures |args| <= 2 && window.None? ==> r == Ok(CentreOutcome(false, None))
    ensures |args| <= 2 && window.Some? ==> (r.Err? <==> CentreArgs(args, MonitorCount(screen)).Err?)
    ensures r.Ok? && r.value.moveTo.Some? ==> !emulate && window.Some?
    ensures r.Ok? && r.value.result ==> window.Some? && (emulate || r.value.moveTo.Some?)
    ensures r.Ok? && window.Some? && CentreArgs(args, MonitorCount(screen)).Ok? ==>
      var parsed := CentreArgs(args, MonitorCount(screen)).value;
      var selected := SelectedBounds(parsed.0, window.value.frame, screen);
      if selected.1.None? then r.value == CentreOutcome(false, None)
      else if emulate then r.value == CentreOutcome(true, None)
      else r.value == CentreOutcome(!moveFails, Some(CentreTarget(parsed.1, window.value.frame, selected.1.value)))
  {
    var countError := CheckParamCountsRange("center", |args|, 0, 2);
    if countError.Some? {
      return Err(countError.value);
    }
    if window.None? {
      return Ok(CentreOutcome(false, None));
    }
    var parsed := ParseCentreArgs(args, MonitorCount(screen));
    if parsed.Err? {
      return Err(parsed.error);
    }
    var monitorNo, centre := parsed.value.0, parsed.value.1;
    var selected, desktop := GetMonitorOrWorkspaceGeometry(monitorNo, window.value, screen);
    if selected == MonitorNone {
      return Ok(CentreOutcome(false, None));
    }
    var target := CentreTarget(centre, window.value.frame, desktop.value);
    if emulate {
      return Ok(CentreOutcome(true, None));
    }
    return Ok(CentreOutcome(!moveFails, Some(target)));
  }

  // ---------------------------------------------------------------------
  // Struts (get_default_struts, c_set_window_strut, c_get_window_strut)

  const NumStruts: nat := 12

  /** The default _NET_WM_STRUT_PARTIAL values for a screen of the given maximum size. */
  function DefaultStruts(width: int, height: int): (s: seq<int>)
    ensures |s| == NumStruts
    ensures forall i :: 0 <= i < NumStruts ==>
      s[i] == (if i == 5 || i == 7 then height else if i == 9 || i == 11 then width else 0)
  {
    [0, 0, 0, 0, 0, height, 0, height, 0, width, 0, width]
  }

  /** The first min(|values|, 12) values, then the defaults from there up to 12. */
  function PaddedStruts(values: seq<int>, defaults: seq<int>): (s: seq<int>)
    requires |defaults| == NumStruts
    ensures |s| == NumStruts
    ensures forall i :: 0 <= i < NumStruts ==> s[i] == (if i < |values| then values[i] else defaults[i])
  {
    var n := if |values| > NumStruts then NumStruts else |values|;
    values[..n] + defaults[n..]
  }

  /** Padding is idempotent, so reading back a full strut list returns it unchanged. */
  lemma PaddedStrutsIdempotent(values: seq<int>, defaults: seq<int>)
    requires |defaults| == NumStruts
    ensures PaddedStruts(PaddedStruts(values, defaults), defaults) == PaddedStruts(values, defaults)
  {
  }

  /** The Lua arguments of set_window_strut read with lua_tonumber. */
  function ArgNumbers(args: seq<LuaValue>): (ns: seq<int>)
    ensures |ns| == |args|
    ensures forall i :: 0 <= i < |args| ==> ns[i] == ToNumber(args[i])
  {
    if args == [] then [] else ArgNumbers(args[..|args| - 1]) + [ToNumber(args[|args| - 1])]
  }

  /**
   * The 32-bit CARDINAL values XChangeProperty stores from the gulong
   * buffer: each value reduced modulo 2^32.
   */
  function StrutProperty(values: seq<int>): (p: seq<int>)
    ensures |p| == |values|
    ensures forall i :: 0 <= i < |values| ==> IsCardinal(p[i]) && (p[i] - values[i]) % Two32 == 0
    ensures forall i :: 0 <= i < |values| && IsCardinal(values[i]) ==> p[i] == values[i]
  {
    seq(|values|, i requires 0 <= i < |values| => values[i] % Two32)
  }

  /** The static struts[] buffer of get_default_struts, filled in place. */
  class StrutBuffer {
    const struts: array<int>

    ghost predicate Valid()
      reads this
    {
      struts.Length == NumStruts
    }

    constructor ()
      ensures Valid() && fresh(struts)
    {
      struts := new int[NumStruts];
    }

    /** get_default_struts: the buffer holds the defaults. */
    method GetDefaultStruts(width: int, height: int)
      requires Valid()
      modifies struts
      ensures struts[..] == DefaultStruts(width, height)
    {
      for i := 0 to NumStruts
        invariant forall j :: 0 <= j < i ==> struts[j] == 0
      {
        struts[i] := 0;
      }
      struts[5] := height;
      struts[7] := height;
      struts[9] := width;
      struts[11] := width;
    }

    /**
     * c_set_window_strut: at least four arguments, at most twelve used, the
     * rest defaulted; the returned values are the 32-bit cardinals
     * _NET_WM_STRUT_PARTIAL is set to when there is a window. Emulation
     * changes nothing.
     */
    method SetWindowStrut(args: seq<LuaValue>, emulate: bool, hasWindow: bool, width: int, height: int)
      returns (r: Result<Option<seq<int>>, LuaError>)
      requires Valid()
      modifies struts
      ensures |args| < 4 <==> r.Err?
      ensures r.Err? ==> r.error == LuaError("set_window_strut", AtLeastFourExpected) && unchanged(struts)
      ensures r.Ok? && emulate ==> r.value.None? && unchanged(struts)
      ensures r.Ok? && !emulate ==> struts[..] == PaddedStruts(ArgNumbers(args), DefaultStruts(width, height))
      ensures r.Ok? && !emulate ==> r.value == (if hasWindow then Some(StrutProperty(struts[..])) else None)
    {
      var top := |args|;
      if top < 4 {
        return Err(LuaError("set_window_strut", AtLeastFourExpected));
      }
      if top > NumStruts {
        top := NumStruts;
      }
      if emulate {
        return Ok(None);
      }
      GetDefaultStruts(width, height);
      ghost var defaults := struts[..];
      for i := 0 to top
        invariant forall j :: 0 <= j < i ==> struts[j] == ToNumber(args[j])
        invariant forall j :: i <= j < NumStruts ==> struts[j] == defaults[j]
      {
        struts[i] := ToNumber(args[i]);
      }
      assert struts[..] == PaddedStruts(ArgNumbers(args), defaults);
      if hasWindow {
        return Ok(Some(StrutProperty(struts[..])));
      }
      return Ok(None);
    }

    /**
     * c_get_window_strut: no arguments; nothing without a window or when
     * neither strut property has values; otherwise the first twelve values
     * of _NET_WM_STRUT_PARTIAL (or, when that cannot be read, of the older
     * _NET_WM_STRUT), padded with the defaults.
     */
    method GetWindowStrut(args: seq<LuaValue>, hasWindow: bool, partial: Option<seq<int>>, legacy: Option<seq<int>>,
                          width: int, height: int)
      returns (r: Result<Option<seq<int>>, LuaError>)
      requires Valid()
      modifies struts
      ensures r.Err? <==> |args| != 0
      ensures r.Ok? && !hasWindow ==> r.value.None?
      ensures r.Ok? && hasWindow ==>
        var list := if partial.Some? then partial else legacy;
        r.value == (if CardinalCount(list) == 0 then None else Some(PaddedStruts(list.value, DefaultStruts(width, height))))
      ensures r.Ok? && hasWindow && 0 < CardinalCount(if partial.Some? then partial else legacy) < NumStruts ==>
        struts[..] == DefaultStruts(width, height)
      ensures !(r.Ok? && hasWindow && 0 < CardinalCount(if partial.Some? then partial else legacy) < NumStruts) ==>
        unchanged(struts)
    {
      var countError := CheckParamCount("get_window_strut", |args|, 0);
      if countError.Some? {
        return Err(countError.value);
      }
      if !hasWindow {
        return Ok(None);
      }
      var list := partial;
      if list.None? {
        list := legacy;
      }
      var len := CardinalCount(list);
      if len == 0 {
        return Ok(None);
      }
      if len > NumStruts {
        len := NumStruts;
      }
      var table := list.value[..len];
      if len < NumStruts {
        GetDefaultStruts(width, height);
        var i := len;
        while i < NumStruts
          invariant len <= i <= NumStruts
          invariant table == list.value[..len] + struts[len..i]
        {
          table := table + [struts[i]];
          i := i + 1;
        }
      }
      assert table == PaddedStruts(list.value, DefaultStruts(width, height));
      return Ok(Some(table));
    }
  }

  /**
   * What set_window_strut stores, read back by get_window_strut, is what
   * was stored: twelve cardinals, each given argument reduced modulo 2^32,
   * and unchanged when it already fits in 32 bits.
   */
  lemma StrutRoundTrip(args: seq<LuaValue>, width: int, height: int)
    requires |args| >= 4
    ensures var stored := StrutProperty(PaddedStruts(ArgNumbers(args), DefaultStruts(width, height)));
      && |stored| == NumStruts
      && PaddedStruts(stored, DefaultStruts(width, height)) == stored
      && (forall i :: 0 <= i < |args| && i < NumStruts ==> (stored[i] - ToNumber(args[i])) % Two32 == 0)
      && (forall i :: 0 <= i < |args| && i < NumStruts && IsCardinal(ToNumber(args[i])) ==> stored[i] == ToNumber(args[i]))
  {
    var stored := StrutProperty(PaddedStruts(ArgNumbers(args), DefaultStruts(width, height)));
    assert PaddedStruts(stored, DefaultStruts(width, height)) == stored;
  }

  // ---------------------------------------------------------------------
  // Sleeping (c_millisleep)

  /** A struct timespec. */
  datatype Timespec = Timespec(sec: int, nsec: int)

  /** The interval c_millisleep hands to nanosleep. */
  function MillisleepInterval(args: seq<LuaValue>): (r: Result<Timespec, LuaError>)
    ensures r.Ok? <==> |args| == 1 && args[0].Number? && 1 <= args[0].n <= 1000
    ensures r.Ok? ==> r.value.sec * 1000000000 + r.value.nsec == args[0].n * 1000000
    ensures r.Ok? ==> 0 <= r.value.nsec < 1000000000 && 0 <= r.value.sec <= 1
    ensures |args| == 1 && args[0].Number? && !(1 <= args[0].n <= 1000) ==>
      r == Err(LuaError("millisleep", OutOfRange(args[0].n)))
  {
    if |args| != 1 then Err(LuaError("millisleep", ParamCount))
    else if !args[0].Number? then Err(LuaError("millisleep", NumberExpected))
    else
      var time := args[0].n;
      if time < 1 || time > 1000 then Err(LuaError("millisleep", OutOfRange(time)))
      else if time == 1000 then Ok(Timespec(1, 0))
      else Ok(Timespec(0, time * 1000000))
  }

  // ---------------------------------------------------------------------
  // Settings (c_use_utf8, c_set_adjust_for_decoration)

  /**
   * c_use_utf8 on the current default: the result is the previous default;
   * the new default is the boolean argument, or unchanged without one.
   */
  function UseUtf8Step(current: bool, args: seq<LuaValue>): (r: (Result<bool, LuaError>, bool))
    ensures r.0.Ok? ==> r.0.value == current
    ensures r.0.Err? ==> r.1 == current
    ensures r.0.Ok? <==> |args| == 0 || (|args| == 1 && args[0].Boolean?)
    ensures |args| == 0 ==> r.1 == current
    ensures |args| == 1 && args[0].Boolean? ==> r.1 == args[0].b
  {
    if |args| > 1 then (Err(LuaError("use_utf8", ParamCount)), current)
    else if |args| == 0 then (Ok(current), current)
    else if !args[0].Boolean? then (Err(LuaError("use_utf8", BooleanExpected)), current)
    else (Ok(current), args[0].b)
  }

  /** Setting a value and then asking without an argument returns that value and keeps it. */
  lemma UseUtf8SetThenQuery(current: bool, v: bool)
    ensures var first := UseUtf8Step(current, [Boolean(v)]);
            UseUtf8Step(first.1, []) == (Ok(v), v)
  {
  }

  /** c_set_adjust_for_decoration: the new flag, TRUE without an argument. */
  function AdjustForDecorationStep(current: bool, args: seq<LuaValue>): (r: (Option<LuaError>, bool))
    ensures r.0.None? <==> |args| == 0 || (|args| == 1 && args[0].Boolean?)
    ensures r.0.Some? ==> r.1 == current
    ensures |args| == 0 ==> r == (None, true)
    ensures |args| == 1 && args[0].Boolean? ==> r == (None, args[0].b)
  {
    if |args| > 1 then (Some(LuaError("set_adjust_for_decoration", ParamCount)), current)
    else if |args| == 0 then (None, true)
    else if !args[0].Boolean? then (Some(LuaError("set_adjust_for_decoration", BooleanExpected)), current)
    else (None, args[0].b)
  }

  // ---------------------------------------------------------------------
  // Frame extents (c_get_window_frame_extents)

  datatype Extents = Extents(left: int, right: int, top: int, bottom: int)

  /** The extents computed from the frame and client geometries. */
  function GeometryExtents(g: WindowGeometry): Extents {
    var left := g.client.x - g.frame.x;
    var top := g.client.y - g.frame.y;
    Extents(left, g.frame.width - g.client.width - left, top, g.frame.height - g.client.height - top)
  }

  /**
   * c_get_window_frame_extents: no arguments; zeros without a window;
   * otherwise the first four values of _NET_FRAME_EXTENTS as C ints when it
   * has four, else the extents computed from the geometries.
   */
  function GetWindowFrameExtents(args: seq<LuaValue>, window: Option<WindowGeometry>, frameExtents: Option<seq<int>>)
    : (r: Result<Extents, LuaError>)
    requires frameExtents.Some? ==> forall i :: 0 <= i < |frameExtents.value| ==> IsCardinal(frameExtents.value[i])
    ensures r.Err? <==> |args| != 0
    ensures r.Ok? && window.None? ==> r.value == Extents(0, 0, 0, 0)
    ensures r.Ok? && window.Some? && CardinalCount(frameExtents) >= 4 ==>
      var e := frameExtents.value;
      r.value == Extents(ToInt32(e[0]), ToInt32(e[1]), ToInt32(e[2]), ToInt32(e[3]))
    ensures r.Ok? && window.Some? && CardinalCount(frameExtents) < 4 ==> r.value == GeometryExtents(window.value)
  {
    if |args| != 0 then Err(LuaError("get_window_frame_extents", ParamCount))
    else if window.None? then Ok(Extents(0, 0, 0, 0))
    else if CardinalCount(frameExtents) >= 4 then
      var e := frameExtents.value;
      Ok(Extents(ToInt32(e[0]), ToInt32(e[1]), ToInt32(e[2]), ToInt32(e[3])))
    else Ok(GeometryExtents(window.value))
  }

  /**
   * The computed extents are the decoration adjust_for_decoration removes:
   * the left and top extents are its x and y offsets, and the extents on
   * each axis add up to the frame's extra size.
   */
  lemma GeometryExtentsMatchAdjustment(g: WindowGeometry, x: int, y: int)
    ensures var e := GeometryExtents(g);
      var a := AdjustForDecoration(g, Coords(Some(x), Some(y), None, None));
      a.x == Some(x - e.left) && a.y == Some(y - e.top) &&
      e.left + e.right == g.frame.width - g.client.width &&
      e.top + e.bottom == g.frame.height - g.client.height
  {
  }

  // ---------------------------------------------------------------------
  // The per-interpreter state of the functions

  /**
   * The globals of script_functions.c: the window the scripts act on,
   * default_use_utf8 and adjusting_for_decoration.
   */
  class ScriptState {
    var currentWindow: Option<WindowId>
    var defaultUseUtf8: bool
    var adjustingForDecoration: bool

    constructor ()
      ensures currentWindow.None? && !defaultUseUtf8 && !adjustingForDecoration
    {
      currentWindow := None;
      defaultUseUtf8 := false;
      adjustingForDecoration := false;
    }

    /** set_current_window. */
    method SetCurrentWindow(window: Option<WindowId>)
      modifies this
      ensures currentWindow == window
      ensures defaultUseUtf8 == old(defaultUseUtf8) && adjustingForDecoration == old(adjustingForDecoration)
    {
      currentWindow := window;
    }

    /** get_current_window. */
    method GetCurrentWindow() returns (window: Option<WindowId>)
      ensures window == currentWindow
    {
      return currentWindow;
    }

    /** c_use_utf8. */
    method UseUtf8(args: seq<LuaValue>) returns (r: Result<bool, LuaError>)
      modifies this
      ensures (r, defaultUseUtf8) == UseUtf8Step(old(defaultUseUtf8), args)
      ensures currentWindow == old(currentWindow) && adjustingForDecoration == old(adjustingForDecoration)
    {
      var countError := CheckParamCounts("use_utf8", |args|, 0, 1);
      if countError.Some? {
        return Err(countError.value);
      }
      var v := defaultUseUtf8;
      if |args| > 0 {
        if !args[0].Boolean? {
          return Err(LuaError("use_utf8", BooleanExpected));
        }
        v := args[0].b;
      }
      r := Ok(defaultUseUtf8);
      defaultUseUtf8 := v;
    }

    /** c_set_adjust_for_decoration. */
    method SetAdjustForDecoration(args: seq<LuaValue>) returns (error: Option<LuaError>)
      modifies this
      ensures (error, adjustingForDecoration) == AdjustForDecorationStep(old(adjustingForDecoration), args)
      ensures currentWindow == old(currentWindow) && defaultUseUtf8 == old(defaultUseUtf8)
    {
      error := CheckParamCounts("set_adjust_for_decoration", |args|, 0, 1);
      if error.Some? {
        return;
      }
      var v := true;
      if |args| > 0 {
        if !args[0].Boolean? {
          return Some(LuaError("set_adjust_for_decoration", BooleanExpected));
        }
        v := args[0].b;
      }
      adjustingForDecoration := v;
    }

    /**
     * find_workspace_with_name: `workspaces` are the names of the
     * workspaces of the window's screen (None for a missing workspace); the
     * window defaults to the current one. -1 for a missing or empty name,
     * no window, or no workspace of exactly that name; else the first match.
     */
    method FindWorkspaceWithName(name: Option<string>, window: Option<WindowId>, workspaces: seq<Option<string>>)
      returns (space: int)
      ensures var w := if window.Some? then window else currentWindow;
        (w.None? || name.None? || name.value == []) ==> space == -1
      ensures space == -1 || (0 <= space < |workspaces| && name.Some? && workspaces[space] == name)
      ensures 0 <= space ==> forall j :: 0 <= j < space ==> workspaces[j] != name
      ensures var w := if window.Some? then window else currentWindow;
        (w.Some? && name.Some? && name.value != [] && exists j :: 0 <= j < |workspaces| && workspaces[j] == name) ==>
        0 <= space
    {
      var w := window;
      if w.None? {
        w := currentWindow;
      }
      if w.None? || name.None? || |name.value| <= 0 {
        return -1;
      }
      var i := 0;
      while i < |workspaces|
        invariant 0 <= i <= |workspaces|
        invariant forall j :: 0 <= j < i ==> workspaces[j] != name
      {
        if workspaces[i].Some? && workspaces[i].value == name.value {
          return i;
        }
        i := i + 1;
      }
      return -1;
    }
  }
}
