/**
 * The Lua values the core inspects. The interpreter itself is not modelled:
 * a global table entry, a table's elements in lua_next order and a function
 * argument are given as values of this type.
 */
module Lua {
  import opened Wrappers
  import opened Strings

  /** A Lua value; numbers are modelled as integers. */
  datatype LuaValue =
    | Nil
    | Boolean(b: bool)
    | Number(n: int)
    | Str(s: string)
    | Table(elems: seq<LuaValue>)
    | Function
    | Userdata

  /** lua_isstring: true for strings and for numbers, which Lua converts. */
  predicate IsString(v: LuaValue) {
    v.Str? || v.Number?
  }

  /** lua_tostring on a value accepted by lua_isstring. */
  function ToLuaString(v: LuaValue): (r: string)
    requires IsString(v)
    ensures v.Str? ==> r == v.s
    ensures v.Number? && v.n >= 0 ==> ParseDecimal(r) == Some(v.n)
  {
    if v.Str? then v.s
    else
      if v.n >= 0 then DecimalRoundTrip(v.n); SignedDecimal(v.n)
      else SignedDecimal(v.n)
  }

  /**
   * lua_tonumber: a number is itself; any other value reads as 0 (Lua's
   * conversion of numeric strings is not modelled).
   */
  function ToNumber(v: LuaValue): (r: int)
    ensures v.Number? ==> r == v.n
    ensures !v.Number? ==> r == 0
  {
    if v.Number? then v.n else 0
  }

  /** Every argument has Lua type number. */
  predicate AllNumbers(args: seq<LuaValue>) {
    forall i :: 0 <= i < |args| ==> args[i].Number?
  }

  /** lua_getglobal: an unset global reads as nil. */
  function GetGlobal(globals: map<string, LuaValue>, name: string): (v: LuaValue)
    ensures name !in globals ==> v == Nil
    ensures name in globals ==> v == globals[name]
  {
    if name in globals then globals[name] else Nil
  }

  /** No string in the table holds an embedded NUL, so each is a C string. */
  predicate NulFree(v: LuaValue) {
    v.Table? ==> forall i :: 0 <= i < |v.elems| ==> (v.elems[i].Str? ==> CString(v.elems[i].s))
  }

  predicate NulFreeGlobals(globals: map<string, LuaValue>) {
    forall name :: name in globals ==> NulFree(globals[name])
  }
}
