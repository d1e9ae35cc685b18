/**
 * X11 helpers (src/xutils.c) with the X server, Xinerama and libwnck replaced
 * by the values they report: interned atoms, property replies, window and
 * monitor rectangles, workspace sizes.
 */
module XUtils {
  import opened Wrappers
  import opened Strings

  /** An X atom; 0 is None. */
  type Atom = nat
  const NoneAtom: Atom := 0

  /** Predefined atoms of X11/Xatom.h. */
  const XaAtom: Atom := 4
  const XaCardinal: Atom := 6
  const XaString: Atom := 31
  const XaWindow: Atom := 33

  // ---------------------------------------------------------------------
  // The memoising two-way atom cache (my_wnck_atom_get)

  /** No cached atom is None, and the forward and reverse tables are mutual inverses. */
  ghost predicate CacheInvariant(forward: map<string, Atom>, reverse: map<Atom, string>) {
    && (forall name :: name in forward ==> forward[name] != NoneAtom && forward[name] in reverse && reverse[forward[name]] == name)
    && (forall a :: a in reverse ==> reverse[a] in forward && forward[reverse[a]] == a)
  }

  /**
   * What the X server guarantees of XInternAtom: a name not yet cached is
   * interned to None or to an atom no other cached name has.
   */
  predicate FreshAtom(forward: map<string, Atom>, reverse: map<Atom, string>, atomName: Option<string>, interned: Atom) {
    atomName.Some? && atomName.value !in forward && interned != NoneAtom ==> interned !in reverse
  }

  datatype AtomLookup = AtomLookup(atom: Atom, forward: map<string, Atom>, reverse: map<Atom, string>)

  /**
   * One call of my_wnck_atom_get on the cache (forward, reverse); `interned`
   * is what XInternAtom answers for the name.
   */
  function AtomGet(forward: map<string, Atom>, reverse: map<Atom, string>, atomName: Option<string>, interned: Atom): (r: AtomLookup)
    ensures atomName.None? ==> r == AtomLookup(NoneAtom, forward, reverse)
    ensures atomName.Some? && atomName.value in forward ==>
      r == AtomLookup(forward[atomName.value], forward, reverse)
    ensures atomName.Some? && atomName.value !in forward ==> r.atom == interned
    ensures atomName.Some? && atomName.value !in forward && interned == NoneAtom ==>
      r.forward == forward && r.reverse == reverse
    ensures atomName.Some? && atomName.value !in forward && interned != NoneAtom ==>
      r.forward == forward[atomName.value := interned] && r.reverse == reverse[interned := atomName.value]
  {
    match atomName
    case None => AtomLookup(NoneAtom, forward, reverse)
    case Some(name) =>
      if name in forward then AtomLookup(forward[name], forward, reverse)
      else if interned != NoneAtom then
        AtomLookup(interned, forward[name := interned], reverse[interned := name])
      else AtomLookup(interned, forward, reverse)
  }

  lemma AtomGetKeepsInvariant(forward: map<string, Atom>, reverse: map<Atom, string>, atomName: Option<string>, interned: Atom)
    requires CacheInvariant(forward, reverse)
    requires FreshAtom(forward, reverse, atomName, interned)
    ensures var r := AtomGet(forward, reverse, atomName, interned); CacheInvariant(r.forward, r.reverse)
  {
  }

  /** After a successful lookup the name is cached: asking again returns the same atom whatever the server would say. */
  lemma AtomGetMemoises(forward: map<string, Atom>, reverse: map<Atom, string>, name: string, interned: Atom, interned2: Atom)
    requires CacheInvariant(forward, reverse)
    ensures var r := AtomGet(forward, reverse, Some(name), interned);
      r.atom != NoneAtom ==>
        AtomGet(r.forward, r.reverse, Some(name), interned2) == AtomLookup(r.atom, r.forward, r.reverse)
  {
  }

  /** The cache remembers what it returned: a non-None atom maps back to its name. */
  lemma AtomGetReverse(forward: map<string, Atom>, reverse: map<Atom, string>, name: string, interned: Atom)
    requires CacheInvariant(forward, reverse)
    requires name !in forward && interned != NoneAtom
    ensures var r := AtomGet(forward, reverse, Some(name), interned);
      r.atom in r.reverse && r.reverse[r.atom] == name && r.forward[name] == r.atom
  {
  }

  /** atom_hash and reverse_atom_hash, created empty on first use. */
  class AtomCache {
    var atomHash: map<string, Atom>
    var reverseAtomHash: map<Atom, string>

    ghost predicate Valid()
      reads this
    {
      CacheInvariant(atomHash, reverseAtomHash)
    }

    constructor ()
      ensures Valid() && atomHash == map[] && reverseAtomHash == map[]
    {
      atomHash := map[];
      reverseAtomHash := map[];
    }

    /**
     * my_wnck_atom_get: None for a NULL name; a cached name is answered from
     * the cache; otherwise the interned atom is returned and, unless it is
     * None, recorded in both tables.
     */
    method Get(atomName: Option<string>, interned: Atom) returns (retval: Atom)
      requires Valid()
      requires FreshAtom(atomHash, reverseAtomHash, atomName, interned)
      modifies this
      ensures Valid()
      ensures AtomLookup(retval, atomHash, reverseAtomHash) == AtomGet(old(atomHash), old(reverseAtomHash), atomName, interned)
    {
      if atomName.None? {
        return NoneAtom;
      }
      var name := atomName.value;
      retval := if name in atomHash then atomHash[name] else NoneAtom;
      if retval == NoneAtom {
        retval := interned;
        if retval != NoneAtom {
          atomHash := atomHash[name := retval];
          reverseAtomHash := reverseAtomHash[retval := name];
        }
      }
    }
  }

  // ---------------------------------------------------------------------
  // Motif decoration hints (set_decorations, get_decorated)

  const MwmHintsDecorations: nat := 2  // 1 << 1
  const PropMotifWmHintsElements: nat := 5

  datatype MotifHints = MotifHints(flags: nat, functions: nat, decorations: nat, inputMode: int, status: nat)

  /** What set_decorations sends: the _MOTIF_WM_HINTS value and whether OpenBox's undecorated state is added. */
  datatype DecorationRequest = DecorationRequest(hints: MotifHints, addObUndecorated: bool)

  /** The five 32-bit items of the property, in struct order. */
  function HintsItems(h: MotifHints): (items: seq<int>)
    ensures |items| == PropMotifWmHintsElements
  {
    [h.flags, h.functions, h.decorations, h.inputMode, h.status]
  }

  function SetDecorations(decorate: bool): (r: DecorationRequest)
    ensures r.hints.flags == MwmHintsDecorations
    ensures r.hints.decorations == (if decorate then 1 else 0)
    ensures r.hints.functions == 0 && r.hints.inputMode == 0 && r.hints.status == 0
    ensures r.addObUndecorated <==> !decorate
  {
    DecorationRequest(MotifHints(MwmHintsDecorations, 0, if decorate then 1 else 0, 0, 0), !decorate)
  }

  /** An XGetWindowProperty reply after the error trap is popped. */
  datatype PropertyReply = PropertyReply(
    trapError: bool,    // the error trap caught an X error
    status: int,        // XGetWindowProperty's own result; 0 is Success
    propType: Atom,     // actual_type_return
    format: int,        // actual_format_return
    items: seq<int>,    // the items, one per element of the property
    text: string)       // the data read as a C string, for the string types

  /**
   * get_decorated: FALSE when the trap caught an error; otherwise TRUE
   * unless the property has the hints type, at least 3 items and a zero
   * decorations item. (Its `result` variable is never assigned, so only the
   * trap is tested.)
   */
  function GetDecorated(hintsAtom: Atom, reply: PropertyReply): (decorated: bool)
    ensures reply.trapError ==> !decorated
    ensures !reply.trapError ==>
      (!decorated <==> reply.propType == hintsAtom && |reply.items| >= 3 && reply.items[2] == 0)
  {
    if reply.trapError then false
    else reply.propType != hintsAtom || |reply.items| < 3 || reply.items[2] != 0
  }

  /** Reading back what set_decorations wrote gives the decoration state that was asked for. */
  lemma DecorationsRoundTrip(decorate: bool, hintsAtom: Atom)
    ensures GetDecorated(hintsAtom,
      PropertyReply(false, 0, hintsAtom, 32, HintsItems(SetDecorations(decorate).hints), "")) == decorate
  {
  }

  /** A window without the Motif property (type None) counts as decorated. */
  lemma MissingHintsMeansDecorated(hintsAtom: Atom, reply: PropertyReply)
    requires hintsAtom != NoneAtom && !reply.trapError && reply.propType == NoneAtom
    ensures GetDecorated(hintsAtom, reply)
  {
  }

  // ---------------------------------------------------------------------
  // Window types (my_window_set_window_type)

  const WindowTypeKinds: seq<string> := [
    "WINDOW_TYPE_DESKTOP", "WINDOW_TYPE_DOCK", "WINDOW_TYPE_TOOLBAR", "WINDOW_TYPE_MENU",
    "WINDOW_TYPE_UTILITY", "WINDOW_TYPE_SPLASH", "WINDOW_TYPE_DIALOG", "WINDOW_TYPE_NORMAL"]

  /**
   * The name of the atom my_window_set_window_type interns for a script's
   * window type: "WINDOW_TYPE_<kind>" in any letter case, for the eight
   * kinds in order, becomes "_NET_WM_WINDOW_TYPE_<kind>"; anything else is
   * used as it is.
   */
  function WindowTypeAtomName(windowType: string): string {
    var k := FirstMatchingKind(windowType, 0);
    if k < |WindowTypeKinds| then "_NET_WM_" + WindowTypeKinds[k] else windowType
  }

  /** The index of the first kind from `from` on that the window type names, or 8 when there is none. */
  function FirstMatchingKind(windowType: string, from: nat): (k: nat)
    requires from <= |WindowTypeKinds|
    decreases |WindowTypeKinds| - from
    ensures from <= k <= |WindowTypeKinds|
    ensures forall j :: from <= j < k ==> CaseCmp(windowType, WindowTypeKinds[j]) != 0
    ensures k < |WindowTypeKinds| ==> CaseCmp(windowType, WindowTypeKinds[k]) == 0
  {
    FirstMatch(windowType, WindowTypeKinds, from)
  }

  /** The first of `names` at or after `from` equal to `s` ignoring case, or |names|. */
  function FirstMatch(s: string, names: seq<string>, from: nat): (k: nat)
    requires from <= |names|
    decreases |names| - from
    ensures from <= k <= |names|
    ensures forall j :: from <= j < k ==> CaseCmp(s, names[j]) != 0
    ensures k < |names| ==> CaseCmp(s, names[k]) == 0
  {
    if from == |names| then from
    else if CaseCmp(s, names[from]) == 0 then from
    else FirstMatch(s, names, from + 1)
  }

  /** A window type that names one of the eight kinds, in any letter case. */
  predicate IsKnownWindowType(windowType: string) {
    exists k :: 0 <= k < |WindowTypeKinds| && CaseCmp(windowType, WindowTypeKinds[k]) == 0
  }

  /**
   * A recognised name maps to "_NET_WM_" followed by its upper-case
   * spelling; any other string is passed through.
   */
  lemma WindowTypeAtomNameSpec(windowType: string)
    requires CString(windowType)
    ensures IsKnownWindowType(windowType) ==> WindowTypeAtomName(windowType) == "_NET_WM_" + UpperString(windowType)
    ensures !IsKnownWindowType(windowType) ==> WindowTypeAtomName(windowType) == windowType
  {
    var k := FirstMatchingKind(windowType, 0);
    if k < |WindowTypeKinds| {
      KnownKindName(windowType, k);
    } else {
      NoKindMeansPassThrough(windowType);
    }
  }

  /** The atom name for the kind a window type matches is "_NET_WM_" and the type in upper case. */
  lemma KnownKindName(windowType: string, k: nat)
    requires CString(windowType) && k < |WindowTypeKinds|
    requires CaseCmp(windowType, WindowTypeKinds[k]) == 0
    ensures "_NET_WM_" + WindowTypeKinds[k] == "_NET_WM_" + UpperString(windowType)
  {
    KindNamesAreUpper(k);
    UpperOfMatch(windowType, WindowTypeKinds[k]);
  }

  /** A string matching, ignoring case, one without lower-case letters upper-cases to it. */
  lemma UpperOfMatch(s: string, t: string)
    requires CString(s) && UpperName(t) && CaseCmp(s, t) == 0
    ensures UpperString(s) == t
  {
    assert CString(t) && NoLowerCase(t);
    CaseCmpZeroIff(s, t);
    UpperOfCaseEqual(s, t);
  }

  /** Upper-case letters and the punctuation between 'Z' and '_', as in the kind names. */
  predicate UpperName(s: string) {
    forall i :: 0 <= i < |s| ==> 'A' <= s[i] <= '_'
  }

  predicate NoLowerCase(s: string) {
    forall i :: 0 <= i < |s| ==> !('a' <= s[i] <= 'z')
  }

  lemma KindNamesAreUpper(k: nat)
    requires k < |WindowTypeKinds|
    ensures UpperName(WindowTypeKinds[k])
  {
    var kind := WindowTypeKinds[k];
    if k == 0 { assert kind == "WINDOW_TYPE_DESKTOP"; }
    else if k == 1 { assert kind == "WINDOW_TYPE_DOCK"; }
    else if k == 2 { assert kind == "WINDOW_TYPE_TOOLBAR"; }
    else if k == 3 { assert kind == "WINDOW_TYPE_MENU"; }
    else if k == 4 { assert kind == "WINDOW_TYPE_UTILITY"; }
    else if k == 5 { assert kind == "WINDOW_TYPE_SPLASH"; }
    else if k == 6 { assert kind == "WINDOW_TYPE_DIALOG"; }
    else { assert kind == "WINDOW_TYPE_NORMAL"; }
  }

  function UpperString(s: string): (r: string)
    ensures |r| == |s|
    ensures forall i :: 0 <= i < |s| ==> r[i] == AsciiUpper(s[i])
  {
    if s == [] then [] else [AsciiUpper(s[0])] + UpperString(s[1..])
  }

  /** A string equal, ignoring case, to one with no lower-case letters upper-cases to it. */
  lemma UpperOfCaseEqual(s: string, t: string)
    requires LowerString(s) == LowerString(t)
    requires NoLowerCase(t)
    ensures UpperString(s) == t
  {
    assert |s| == |t|;
    forall i | 0 <= i < |s| ensures UpperString(s)[i] == t[i] {
      assert AsciiLower(s[i]) == AsciiLower(t[i]) by {
        assert LowerString(s)[i] == LowerString(t)[i];
      }
      UpperOfLowerEqual(s[i], t[i]);
    }
  }

  lemma UpperOfLowerEqual(c: char, d: char)
    requires AsciiLower(c) == AsciiLower(d) && !('a' <= d <= 'z')
    ensures AsciiUpper(c) == d
  {
  }

  /** Mapping is idempotent: an atom name never names a kind again. */
  lemma WindowTypeAtomNameIdempotent(windowType: string)
    ensures WindowTypeAtomName(WindowTypeAtomName(windowType)) == WindowTypeAtomName(windowType)
  {
    var k := FirstMatchingKind(windowType, 0);
    if k < |WindowTypeKinds| {
      var r := "_NET_WM_" + WindowTypeKinds[k];
      assert r[0] == '_';
      assert !IsKnownWindowType(r) by {
        forall j | 0 <= j < |WindowTypeKinds| ensures CaseCmp(r, WindowTypeKinds[j]) != 0 {
          var lit := WindowTypeKinds[j];
          assert lit[0] == 'W';
          assert AsciiLower(r[0]) != AsciiLower(lit[0]);
        }
      }
      NoKindMeansPassThrough(r);
    }
  }

  lemma NoKindMeansPassThrough(windowType: string)
    requires !IsKnownWindowType(windowType)
    ensures WindowTypeAtomName(windowType) == windowType
  {
  }

  // ---------------------------------------------------------------------
  // Geometry (adjust_for_decoration, set_window_geometry)

  /** A GdkRectangle. */
  datatype Rect = Rect(x: int, y: int, width: int, height: int)

  /** What libwnck reports for a window: the frame and the client (undecorated) geometry. */
  datatype WindowGeometry = WindowGeometry(frame: Rect, client: Rect)

  datatype Coords = Coords(x: Option<int>, y: Option<int>, w: Option<int>, h: Option<int>)

  /** Subtracts (client - frame) from a coordinate that is present; an absent one stays absent. */
  function Shift(v: Option<int>, clientValue: int, frameValue: int): (r: Option<int>)
    ensures v.None? <==> r.None?
    ensures v.Some? ==> r.value + (clientValue - frameValue) == v.value
  {
    if v.Some? then Some(v.value - (clientValue - frameValue)) else None
  }

  /** adjust_for_decoration: each non-null coordinate loses the client/frame difference. */
  function AdjustForDecoration(g: WindowGeometry, c: Coords): (r: Coords)
    ensures c.x.None? <==> r.x.None?
    ensures c.y.None? <==> r.y.None?
    ensures c.w.None? <==> r.w.None?
    ensures c.h.None? <==> r.h.None?
    ensures c.x.Some? ==> r.x.value == c.x.value - (g.client.x - g.frame.x)
    ensures c.y.Some? ==> r.y.value == c.y.value - (g.client.y - g.frame.y)
    ensures c.w.Some? ==> r.w.value == c.w.value - (g.client.width - g.frame.width)
    ensures c.h.Some? ==> r.h.value == c.h.value - (g.client.height - g.frame.height)
  {
    Coords(Shift(c.x, g.client.x, g.frame.x), Shift(c.y, g.client.y, g.frame.y),
           Shift(c.w, g.client.width, g.frame.width), Shift(c.h, g.client.height, g.frame.height))
  }

  /** Asking for the client's own geometry yields the frame's: the adjustment undoes the decoration. */
  lemma AdjustClientGivesFrame(g: WindowGeometry)
    ensures AdjustForDecoration(g, Coords(Some(g.client.x), Some(g.client.y), Some(g.client.width), Some(g.client.height)))
      == Coords(Some(g.frame.x), Some(g.frame.y), Some(g.frame.width), Some(g.frame.height))
  {
  }

  datatype Gravity = GravityCurrent | NorthWest | SouthWest | NorthEast | SouthEast

  /** The wnck_window_set_geometry call set_window_geometry makes. */
  datatype GeometryRequest = GeometryRequest(gravity: Gravity, x: int, y: int, w: int, h: int)

  /**
   * set_window_geometry: the gravity comes from the signs of x and y, a
   * negative x counts from the screen's right edge and a negative y from its
   * bottom edge, then the decoration adjustment applies when enabled.
   * Nothing happens without a window.
   */
  method SetWindowGeometry(window: Option<WindowGeometry>, screenWidth: int, screenHeight: int,
                           x0: int, y0: int, w0: int, h0: int, adjustingForDecoration: bool)
    returns (request: Option<GeometryRequest>)
    ensures window.None? <==> request.None?
    ensures request.Some? ==> request.value.gravity != GravityCurrent
    ensures request.Some? ==> (request.value.gravity in {NorthEast, SouthEast} <==> x0 < 0)
    ensures request.Some? ==> (request.value.gravity in {SouthWest, SouthEast} <==> y0 < 0)
    ensures request.Some? && !adjustingForDecoration ==>
      request.value.x == (if x0 < 0 then screenWidth + x0 else x0) &&
      request.value.y == (if y0 < 0 then screenHeight + y0 else y0) &&
      request.value.w == w0 && request.value.h == h0
    ensures request.Some? && adjustingForDecoration ==>
      var g := window.value;
      request.value.x == (if x0 < 0 then screenWidth + x0 else x0) - (g.client.x - g.frame.x) &&
      request.value.y == (if y0 < 0 then screenHeight + y0 else y0) - (g.client.y - g.frame.y) &&
      request.value.w == w0 - (g.client.width - g.frame.width) &&
      request.value.h == h0 - (g.client.height - g.frame.height)
  {
    if window.None? {
      return None;
    }
    var x, y, w, h := x0, y0, w0, h0;
    var gravity := GravityCurrent;
    if x >= 0 && y >= 0 { gravity := NorthWest; }
    if x >= 0 && y < 0 { gravity := SouthWest; }
    if x < 0 && y >= 0 { gravity := NorthEast; }
    if x < 0 && y < 0 { gravity := SouthEast; }
    if x < 0 { x := screenWidth + x; }
    if y < 0 { y := screenHeight + y; }
    if adjustingForDecoration {
      var adjusted := AdjustForDecoration(window.value, Coords(Some(x), Some(y), Some(w), Some(h)));
      x, y, w, h := adjusted.x.value, adjusted.y.value, adjusted.w.value, adjusted.h.value;
    }
    return Some(GeometryRequest(gravity, x, y, w, h));
  }

  // ---------------------------------------------------------------------
  // Monitors (get_monitor_index_geometry, get_monitor_geometry, ...)

  /** C's `/` on int: truncates toward zero. */
  function CDiv(a: int, b: int): (q: int)
    requires b > 0
    ensures a >= 0 ==> q == a / b
    ensures a < 0 ==> q == -((-a) / b)
  {
    if a >= 0 then a / b else -((-a) / b)
  }

  /** The window centre as get_monitor_index_geometry computes it. */
  function CentreX(r: Rect): int { r.x + CDiv(r.width, 2) }
  function CentreY(r: Rect): int { r.y + CDiv(r.height, 2) }

  /** The half-open containment test of the centre search. */
  predicate ContainsPoint(m: Rect, px: int, py: int) {
    m.x <= px < m.x + m.width && m.y <= py < m.y + m.height
  }

  function Min(a: int, b: int): int { if a <= b then a else b }
  function Max(a: int, b: int): int { if a >= b then a else b }

  /** gdk_rectangle_intersect's answer: the overlap has positive width and height. */
  predicate RectanglesIntersect(a: Rect, b: Rect) {
    Min(a.x + a.width, b.x + b.width) - Max(a.x, b.x) > 0 &&
    Min(a.y + a.height, b.y + b.height) - Max(a.y, b.y) > 0
  }

  /**
   * The intersection test of the fallback loop AS WRITTEN: the monitor
   * rectangle is built with x_org + width in the width field and
   * y_org + height in the height field.
   */
  predicate MonitorHitAsWritten(window: Rect, m: Rect) {
    RectanglesIntersect(window, Rect(m.x, m.y, m.x + m.width, m.y + m.height))
  }

  /** The intended test: the window and the monitor overlap. */
  predicate MonitorHit(window: Rect, m: Rect) {
    RectanglesIntersect(window, m)
  }

  /** As written, a window that lies wholly to the right of a monitor at x 1000 still "hits" it. */
  lemma MonitorHitAsWrittenOverreaches()
    ensures var window := Rect(2500, 0, 100, 100);
            var m := Rect(1000, 0, 1000, 1000);
            MonitorHitAsWritten(window, m) && !MonitorHit(window, m)
            && forall px, py :: !(ContainsPoint(window, px, py) && ContainsPoint(m, px, py))
  {
  }

  /** The corrected test holds exactly when some pixel lies in both rectangles. */
  lemma MonitorHitMeansSharedPixel(window: Rect, m: Rect)
    ensures MonitorHit(window, m) <==> exists px, py :: ContainsPoint(window, px, py) && ContainsPoint(m, px, py)
  {
    if MonitorHit(window, m) {
      var px, py := Max(window.x, m.x), Max(window.y, m.y);
      assert ContainsPoint(window, px, py) && ContainsPoint(m, px, py);
    }
  }

  /** The first monitor at or after `from` whose half-open rectangle holds the point, or |monitors| if none does. */
  function FirstHolding(monitors: seq<Rect>, px: int, py: int, from: nat): (k: nat)
    requires from <= |monitors|
    ensures from <= k <= |monitors|
    ensures forall j :: from <= j < k ==> !ContainsPoint(monitors[j], px, py)
    ensures k < |monitors| ==> ContainsPoint(monitors[k], px, py)
    decreases |monitors| - from
  {
    if from == |monitors| then from
    else if ContainsPoint(monitors[from], px, py) then from
    else FirstHolding(monitors, px, py, from + 1)
  }

  /** The first monitor at or after `from` that the overlap test `hit` accepts for the window, or |monitors|. */
  function FirstHit(monitors: seq<Rect>, windowR: Rect, hit: (Rect, Rect) -> bool, from: nat): (k: nat)
    requires from <= |monitors|
    ensures from <= k <= |monitors|
    ensures forall j :: from <= j < k ==> !hit(windowR, monitors[j])
    ensures k < |monitors| ==> hit(windowR, monitors[k])
    decreases |monitors| - from
  {
    if from == |monitors| then from
    else if hit(windowR, monitors[from]) then from
    else FirstHit(monitors, windowR, hit, from + 1)
  }

  /**
   * The index get_monitor_index_geometry settles on, for a given overlap
   * test: -1 without monitors; otherwise the first monitor holding the
   * window centre, else the first one `hit` accepts, else 0.
   */
  function MonitorIndex(monitors: seq<Rect>, windowR: Rect, hit: (Rect, Rect) -> bool): (id: int)
    ensures monitors == [] <==> id == -1
    ensures monitors != [] ==> 0 <= id < |monitors|
    ensures (exists i :: 0 <= i < |monitors| && ContainsPoint(monitors[i], CentreX(windowR), CentreY(windowR))) ==>
      ContainsPoint(monitors[id], CentreX(windowR), CentreY(windowR)) &&
      forall j :: 0 <= j < id ==> !ContainsPoint(monitors[j], CentreX(windowR), CentreY(windowR))
    ensures monitors != [] && (forall i :: 0 <= i < |monitors| ==> !ContainsPoint(monitors[i], CentreX(windowR), CentreY(windowR))) ==>
      ((exists i :: 0 <= i < |monitors| && hit(windowR, monitors[i])) ==>
         hit(windowR, monitors[id]) && forall j :: 0 <= j < id ==> !hit(windowR, monitors[j])) &&
      ((forall i :: 0 <= i < |monitors| ==> !hit(windowR, monitors[i])) ==> id == 0)
  {
    if monitors == [] then -1
    else
      var c := FirstHolding(monitors, CentreX(windowR), CentreY(windowR), 0);
      if c < |monitors| then c
      else
        var h := FirstHit(monitors, windowR, hit, 0);
        if h < |monitors| then h else 0
  }

  /**
   * get_monitor_index_geometry, with its intersection fallback as written:
   * -1 without monitors; otherwise the monitor MonitorIndex picks with
   * MonitorHitAsWritten, returned with its rectangle.
   */
  method GetMonitorIndexGeometry(monitors: seq<Rect>, windowR: Rect) returns (id: int, monitorR: Option<Rect>)
    ensures id == MonitorIndex(monitors, windowR, MonitorHitAsWritten)
    ensures monitors == [] ==> monitorR.None?
    ensures monitors != [] ==> monitorR == Some(monitors[id])
  {
    if |monitors| == 0 {
      return -1, None;
    }
    var cx, cy := CentreX(windowR), CentreY(windowR);
    var i := 0;
    while i < |monitors| && !ContainsPoint(monitors[i], cx, cy)
      invariant 0 <= i <= |monitors|
      invariant FirstHolding(monitors, cx, cy, i) == FirstHolding(monitors, cx, cy, 0)
    {
      i := i + 1;
    }
    if i < |monitors| {
      id := i;
    } else {
      i := 0;
      while i < |monitors| && !MonitorHitAsWritten(windowR, monitors[i])
        invariant 0 <= i <= |monitors|
        invariant FirstHit(monitors, windowR, MonitorHitAsWritten, i) == FirstHit(monitors, windowR, MonitorHitAsWritten, 0)
      {
        i := i + 1;
      }
      id := if i < |monitors| then i else 0;
    }
    monitorR := Some(monitors[id]);
  }

  /**
   * On two side-by-side monitors, a window right of both is put on the
   * second one by the search as written, which it does not touch; the
   * corrected search falls back to monitor 0.
   */
  lemma MonitorIndexAsWrittenMisplaces()
    ensures var monitors := [Rect(0, 0, 1000, 1000), Rect(1000, 0, 1000, 1000)];
            var window := Rect(2500, 0, 100, 100);
            MonitorIndex(monitors, window, MonitorHitAsWritten) == 1 &&
            MonitorIndex(monitors, window, MonitorHit) == 0 &&
            forall px, py :: !(ContainsPoint(window, px, py) && ContainsPoint(monitors[1], px, py))
  {
    var monitors := [Rect(0, 0, 1000, 1000), Rect(1000, 0, 1000, 1000)];
    var window := Rect(2500, 0, 100, 100);
    assert FirstHolding(monitors, 2550, 50, 0) == 2;
    assert FirstHit(monitors, window, MonitorHitAsWritten, 0) == 1;
    assert FirstHit(monitors, window, MonitorHit, 0) == 2;
  }

  /**
   * With the corrected test, a window whose centre is on no monitor is put
   * on the first monitor it shares a pixel with, when there is one.
   */
  lemma CorrectedIndexSharesPixel(monitors: seq<Rect>, windowR: Rect)
    requires forall i :: 0 <= i < |monitors| ==> !ContainsPoint(monitors[i], CentreX(windowR), CentreY(windowR))
    requires exists i, px, py :: 0 <= i < |monitors| && ContainsPoint(windowR, px, py) && ContainsPoint(monitors[i], px, py)
    ensures var id := MonitorIndex(monitors, windowR, MonitorHit);
      0 <= id < |monitors| &&
      (exists px, py :: ContainsPoint(windowR, px, py) && ContainsPoint(monitors[id], px, py)) &&
      forall j :: 0 <= j < id ==> !exists px, py :: ContainsPoint(windowR, px, py) && ContainsPoint(monitors[j], px, py)
  {
    var i, px, py :| 0 <= i < |monitors| && ContainsPoint(windowR, px, py) && ContainsPoint(monitors[i], px, py);
    MonitorHitMeansSharedPixel(windowR, monitors[i]);
    var id := MonitorIndex(monitors, windowR, MonitorHit);
    MonitorHitMeansSharedPixel(windowR, monitors[id]);
    forall j | 0 <= j < id
      ensures !exists px, py :: ContainsPoint(windowR, px, py) && ContainsPoint(monitors[j], px, py)
    {
      MonitorHitMeansSharedPixel(windowR, monitors[j]);
    }
  }

  const DefaultMonitorRect: Rect := Rect(0, 0, 640, 480)

  /**
   * get_monitor_geometry: -1 and 0,0,640,480 without monitors; otherwise an
   * out-of-range index becomes 0, and that monitor's rectangle and index are
   * returned.
   */
  function GetMonitorGeometry(index: int, monitors: seq<Rect>): (r: (int, Rect))
    ensures monitors == [] ==> r == (-1, DefaultMonitorRect)
    ensures monitors != [] && 0 <= index < |monitors| ==> r == (index, monitors[index])
    ensures monitors != [] && !(0 <= index < |monitors|) ==> r == (0, monitors[0])
  {
    if monitors == [] then (-1, DefaultMonitorRect)
    else
      var i := if index < 0 || index >= |monitors| then 0 else index;
      (i, monitors[i])
  }

  /** The width and height of a workspace, as libwnck reports them. */
  datatype WorkspaceSize = WorkspaceSize(width: int, height: int)

  /**
   * get_window_workspace_geometry: the active workspace, or workspace 0 when
   * there is none, as a rectangle at 0,0; 1 when neither exists.
   */
  function GetWindowWorkspaceGeometry(active: Option<WorkspaceSize>, first: Option<WorkspaceSize>): (r: (int, Option<Rect>))
    ensures r.0 == 0 <==> (active.Some? || first.Some?)
    ensures r.0 == 0 || r.0 == 1
    ensures r.0 == 1 <==> r.1.None?
    ensures active.Some? ==> r.1 == Some(Rect(0, 0, active.value.width, active.value.height))
    ensures active.None? && first.Some? ==> r.1 == Some(Rect(0, 0, first.value.width, first.value.height))
  {
    var ws := if active.Some? then active else first;
    if ws.None? then (1, None)
    else (0, Some(Rect(0, 0, ws.value.width, ws.value.height)))
  }

  /**
   * The selector constants of xutils.h, which is not part of this model. The
   * code relies on their being distinct negative numbers, with MonitorWindow
   * and MonitorNone below MonitorAll.
   */
  const MonitorAll: int := -1
  const MonitorWindow: int := -2
  const MonitorNone: int := -3

  /** What the geometry queries see of the screen: the Xinerama monitors (none when inactive) and workspaces. */
  datatype Screen = Screen(
    monitors: seq<Rect>,
    activeWorkspace: Option<WorkspaceSize>,
    firstWorkspace: Option<WorkspaceSize>,
    width: int,
    height: int)

  /** get_monitor_count. */
  function MonitorCount(screen: Screen): nat {
    |screen.monitors|
  }

  /**
   * The bounds get_monitor_or_workspace_geometry selects: the workspace for
   * MonitorAll; for MonitorWindow the monitor get_monitor_index_geometry
   * finds for the window; an existing monitor for its index; otherwise
   * MonitorNone without bounds.
   */
  function SelectedBounds(monitorNo: int, windowR: Rect, screen: Screen): (r: (int, Option<Rect>))
    ensures r.0 == MonitorNone <==> r.1.None?
    ensures r.0 == MonitorAll || r.0 == MonitorNone || 0 <= r.0 < |screen.monitors|
    ensures monitorNo == MonitorAll ==>
      (r.0 == MonitorAll <==> screen.activeWorkspace.Some? || screen.firstWorkspace.Some?)
    ensures monitorNo == MonitorAll && r.0 == MonitorAll ==>
      r.1 == GetWindowWorkspaceGeometry(screen.activeWorkspace, screen.firstWorkspace).1
    ensures monitorNo == MonitorWindow ==>
      if screen.monitors == [] then r == (MonitorNone, None)
      else r.0 == MonitorIndex(screen.monitors, windowR, MonitorHitAsWritten) && r.1 == Some(screen.monitors[r.0])
    ensures monitorNo != MonitorAll && monitorNo != MonitorWindow ==>
      if 0 <= monitorNo < |screen.monitors| then r == (monitorNo, Some(screen.monitors[monitorNo]))
      else r == (MonitorNone, None)
  {
    if monitorNo == MonitorAll then
      var ws := GetWindowWorkspaceGeometry(screen.activeWorkspace, screen.firstWorkspace);
      if ws.0 != 0 then (MonitorNone, None) else (MonitorAll, ws.1)
    else if monitorNo == MonitorWindow then
      var id := MonitorIndex(screen.monitors, windowR, MonitorHitAsWritten);
      if id < 0 then (MonitorNone, None) else (id, Some(screen.monitors[id]))
    else if monitorNo < 0 || monitorNo >= MonitorCount(screen) then (MonitorNone, None)
    else
      var g := GetMonitorGeometry(monitorNo, screen.monitors);
      if g.0 < 0 then (MonitorNone, None) else (monitorNo, Some(g.1))
  }

  /**
   * get_monitor_or_workspace_geometry: MonitorAll gives the workspace,
   * MonitorWindow the monitor holding the window, an index that monitor;
   * MonitorNone (with no bounds) on every failure.
   */
  method GetMonitorOrWorkspaceGeometry(monitorNo: int, window: WindowGeometry, screen: Screen)
    returns (ret: int, bounds: Option<Rect>)
    ensures (ret, bounds) == SelectedBounds(monitorNo, window.frame, screen)
  {
    if monitorNo == MonitorWindow {
      var id, r := GetMonitorIndexGeometry(screen.monitors, window.frame);
      if id < 0 {
        return MonitorNone, None;
      }
      return id, r;
    }
    ret, bounds := SelectedBounds(monitorNo, window.frame, screen).0, SelectedBounds(monitorNo, window.frame, screen).1;
  }

  // ---------------------------------------------------------------------
  // Property decoding (my_wnck_get_string_property) and the viewport

  /** The string my_wnck_get_string_property returns (NULL as None) and what it stores through `utf8`. */
  datatype StringProperty = StringProperty(value: Option<string>, utf8: bool)

  /** g_strjoinv(", ", names): joins up to the first NULL entry. */
  function JoinAtomNames(names: seq<Option<string>>): string {
    if names == [] || names[0].None? then ""
    else if |names| == 1 || names[1].None? then names[0].value
    else names[0].value + ", " + JoinAtomNames(names[1..])
  }

  /**
   * my_wnck_get_string_property's decoding of a reply; `utf8Atom` is the
   * UTF8_STRING atom and `atomName` stands for XGetAtomName.
   */
  function GetStringProperty(reply: PropertyReply, utf8Atom: Atom, atomName: Atom -> Option<string>): (r: StringProperty)
    ensures reply.trapError || reply.status != 0 ==> r == StringProperty(None, false)
    ensures !reply.trapError && reply.status == 0 ==> (r.utf8 <==> reply.propType != XaString)
    ensures !reply.trapError && reply.status == 0 && (reply.propType == XaString || reply.propType == utf8Atom) ==>
      r.value == Some(reply.text)
    ensures (!reply.trapError && reply.status == 0 && reply.propType == XaCardinal && utf8Atom != XaCardinal &&
             |reply.items| == 1 && reply.format == 32 && reply.items[0] >= 0) ==>
      r.value == Some(Decimal(reply.items[0])) && ParseDecimal(r.value.value) == Some(reply.items[0])
    ensures r.value.Some? ==> !reply.trapError && reply.status == 0
  {
    if reply.trapError || reply.status != 0 then StringProperty(None, false)
    else
      var isUtf8 := reply.propType != XaString;
      var value: Option<string> :=
        if reply.propType == XaString then Some(reply.text)
        else if reply.propType == utf8Atom then Some(reply.text)
        else if reply.propType == XaAtom && |reply.items| > 0 && reply.format == 32 then
          (if |reply.items| == 1 then atomName(NatOf(reply.items[0]))
           else Some(JoinAtomNames(seq(|reply.items|, i requires 0 <= i < |reply.items| => atomName(NatOf(reply.items[i]))))))
        else if reply.propType == XaCardinal && |reply.items| == 1 then
          (if reply.format == 32 then Some(Decimal(NatOf(reply.items[0])))
           else if reply.format == 16 then Some(Decimal(NatOf(reply.items[0])))
           else if reply.format == 8 then Some(ByteAsString(reply.items[0]))
           else None)
        else if reply.propType == XaWindow && |reply.items| == 1 then Some(Decimal(NatOf(reply.items[0])))
        else None;
      if value.Some? && reply.propType == XaCardinal && |reply.items| == 1 && reply.format == 32 && reply.items[0] >= 0 then
        DecimalRoundTrip(reply.items[0]);
        StringProperty(value, isUtf8)
      else StringProperty(value, isUtf8)
  }

  /** An item read as an unsigned value (items are never negative for these types). */
  function NatOf(v: int): nat {
    if v < 0 then 0 else v
  }

  /**
   * "%c" of a byte: the one-character string, or the empty string for NUL.
   * An ASCII byte is its own character. For a byte of 128 or more, C gives
   * the one raw byte, which is not valid UTF-8 on its own; the model gives
   * the code point of that value instead, so only ASCII bytes are exact.
   */
  function ByteAsString(b: int): (s: string)
    ensures |s| <= 1
    ensures 0 < NatOf(b) % 256 < 128 ==> s == [(NatOf(b) % 256) as char]
  {
    var c := NatOf(b) % 256;
    if c == 0 then "" else [c as char]
  }

  /** A window-valued property prints as its XID in decimal, which reads back as the XID. */
  lemma WindowPropertyRoundTrip(reply: PropertyReply, utf8Atom: Atom, atomName: Atom -> Option<string>)
    requires !reply.trapError && reply.status == 0
    requires reply.propType == XaWindow && |reply.items| == 1 && reply.items[0] >= 0
    requires utf8Atom != XaWindow
    ensures var r := GetStringProperty(reply, utf8Atom, atomName);
      r.value.Some? && ParseDecimal(r.value.value) == Some(reply.items[0]) && r.utf8
  {
    DecimalRoundTrip(reply.items[0]);
  }

  /**
   * my_wnck_get_cardinal_list: the items of a CARDINAL property, or None
   * (with length 0) after an X error, a failed request or another type.
   */
  function GetCardinalList(reply: PropertyReply): (r: Option<seq<int>>)
    ensures r.Some? <==> !reply.trapError && reply.status == 0 && reply.propType == XaCardinal
    ensures r.Some? ==> r.value == reply.items
  {
    if reply.trapError || reply.status != 0 || reply.propType != XaCardinal then None
    else Some(reply.items)
  }

  /** The element count my_wnck_get_cardinal_list stores through `len`. */
  function CardinalCount(list: Option<seq<int>>): nat {
    if list.Some? then |list.value| else 0
  }

  /** What devilspie2_get_viewport_start's read AS WRITTEN does with the _NET_DESKTOP_VIEWPORT cardinals. */
  datatype ViewportRead = ViewportFailed | ViewportStart(x: int, y: int) | ReadPastEnd

  /** As written: the guard is `len > 0`, but list[1] is read too. */
  function ViewportStartAsWritten(cardinals: seq<int>): ViewportRead
    requires forall i :: 0 <= i < |cardinals| ==> IsCardinal(cardinals[i])
  {
    if |cardinals| > 0 then
      (if |cardinals| >= 2 then ViewportStart(ToInt32(cardinals[0]), ToInt32(cardinals[1])) else ReadPastEnd)
    else ViewportFailed
  }

  /** A viewport property with a single cardinal passes the guard and reads past the end of the list. */
  lemma ViewportStartAsWrittenReadsPastEnd()
    ensures ViewportStartAsWritten([0]) == ReadPastEnd
  {
  }

  /**
   * devilspie2_get_viewport_start with the guard corrected to two values:
   * the start is the first two cardinals as C ints; fewer than two (or a
   * failed read, `None`) is the error -1.
   */
  function GetViewportStart(cardinals: Option<seq<int>>): (r: Option<(int, int)>)
    requires cardinals.Some? ==> forall i :: 0 <= i < |cardinals.value| ==> IsCardinal(cardinals.value[i])
    ensures r.Some? <==> cardinals.Some? && |cardinals.value| >= 2
    ensures r.Some? ==> (r.value.0 - cardinals.value[0]) % Two32 == 0 && (r.value.1 - cardinals.value[1]) % Two32 == 0
    ensures r.Some? ==> -Two31 <= r.value.0 < Two31 && -Two31 <= r.value.1 < Two31
    ensures r.Some? && cardinals.value[0] < Two31 && cardinals.value[1] < Two31 ==>
      r.value == (cardinals.value[0], cardinals.value[1])
  {
    if cardinals.Some? && |cardinals.value| >= 2 then Some((ToInt32(cardinals.value[0]), ToInt32(cardinals.value[1])))
    else None
  }

  /** The corrected read agrees with the as-written one wherever the latter stays in bounds. */
  lemma ViewportStartAgrees(cardinals: seq<int>)
    requires forall i :: 0 <= i < |cardinals| ==> IsCardinal(cardinals[i])
    ensures ViewportStartAsWritten(cardinals) != ReadPastEnd ==>
      (GetViewportStart(Some(cardinals)).Some? <==> ViewportStartAsWritten(cardinals).ViewportStart?)
    ensures ViewportStartAsWritten(cardinals).ViewportStart? ==>
      GetViewportStart(Some(cardinals)) == Some((ViewportStartAsWritten(cardinals).x, ViewportStartAsWritten(cardinals).y))
  {
  }
}
