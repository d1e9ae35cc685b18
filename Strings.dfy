/**
 * The string primitives of GLib and libc that the core relies on:
 * g_ascii_strcasecmp, g_str_has_suffix, g_build_path for two elements,
 * strcmp-style equality, "%lu"/"%d" formatting and the truncating
 * conversion of an unsigned long to a 32-bit int.
 *
 * A C string is a `string` without NUL characters; every character stands
 * for one byte of the C string.
 */
module Strings {
  import opened Wrappers

  /** A string that a C `char *` can hold: no embedded NUL. */
  predicate CString(s: string) {
    forall i :: 0 <= i < |s| ==> s[i] != '\0'
  }

  /** ASCII-only lower casing, as GLib's TOLOWER macro does it. */
  function AsciiLower(c: char): (r: char)
    ensures 'A' <= c <= 'Z' ==> r as int == c as int + 32
    ensures !('A' <= c <= 'Z') ==> r == c
    ensures r != '\0' <==> c != '\0'
  {
    if 'A' <= c <= 'Z' then (c as int + 32) as char else c
  }

  /** ASCII-only upper casing. */
  function AsciiUpper(c: char): (r: char)
    ensures 'a' <= c <= 'z' ==> r as int == c as int - 32
    ensures !('a' <= c <= 'z') ==> r == c
  {
    if 'a' <= c <= 'z' then (c as int - 32) as char else c
  }

  function LowerString(s: string): (r: string)
    ensures |r| == |s|
    ensures forall i :: 0 <= i < |s| ==> r[i] == AsciiLower(s[i])
  {
    if s == [] then [] else [AsciiLower(s[0])] + LowerString(s[1..])
  }

  /** The code of the first character, or 0 for the terminating NUL of an empty string. */
  function HeadCode(s: string): int {
    if s == [] then 0 else s[0] as int
  }

  /**
   * g_ascii_strcasecmp: walks both strings while neither has ended and
   * returns the difference of the first pair of lower-cased characters that
   * differ; when one string ends it returns the difference of the raw
   * characters at that point (the NUL counts as 0).
   */
  function CaseCmp(a: string, b: string): int
    decreases |a|
  {
    if a == [] || b == [] then HeadCode(a) - HeadCode(b)
    else if AsciiLower(a[0]) != AsciiLower(b[0]) then AsciiLower(a[0]) as int - AsciiLower(b[0]) as int
    else CaseCmp(a[1..], b[1..])
  }

  /** "a sorts no later than b" under g_ascii_strcasecmp. */
  predicate CaseLe(a: string, b: string) {
    CaseCmp(a, b) <= 0
  }

  /** Swapping the arguments negates the result. */
  lemma {:induction false} CaseCmpAntisymmetric(a: string, b: string)
    ensures CaseCmp(b, a) == -CaseCmp(a, b)
    decreases |a|
  {
    if a != [] && b != [] && AsciiLower(a[0]) == AsciiLower(b[0]) {
      CaseCmpAntisymmetric(a[1..], b[1..]);
    }
  }

  /** Any two strings are ordered one way or the other. */
  lemma CaseLeTotal(a: string, b: string)
    ensures CaseLe(a, b) || CaseLe(b, a)
  {
    CaseCmpAntisymmetric(a, b);
  }

  lemma {:induction false} CaseLeTransitive(a: string, b: string, c: string)
    requires CString(a) && CString(b) && CString(c)
    requires CaseLe(a, b) && CaseLe(b, c)
    ensures CaseLe(a, c)
    decreases |a|
  {
    if a != [] && b != [] && c != [] {
      if AsciiLower(a[0]) == AsciiLower(b[0]) && AsciiLower(b[0]) == AsciiLower(c[0]) {
        assert CString(a[1..]) && CString(b[1..]) && CString(c[1..]) by {
          assert forall i :: 0 <= i < |a| - 1 ==> a[1..][i] == a[i + 1];
          assert forall i :: 0 <= i < |b| - 1 ==> b[1..][i] == b[i + 1];
          assert forall i :: 0 <= i < |c| - 1 ==> c[1..][i] == c[i + 1];
        }
        CaseLeTransitive(a[1..], b[1..], c[1..]);
      }
    } else if a != [] && b == [] {
      assert a[0] != '\0';
    } else if b != [] && c == [] {
      assert b[0] != '\0';
    } else if a == [] && c != [] {
      assert c[0] != '\0';
    }
  }

  /** Comparing two C strings gives 0 exactly when their ASCII lower-casings agree. */
  lemma {:induction false} CaseCmpZeroIff(a: string, b: string)
    requires CString(a) && CString(b)
    ensures CaseCmp(a, b) == 0 <==> LowerString(a) == LowerString(b)
    decreases |a|
  {
    if a == [] && b != [] {
      assert b[0] != '\0';
    } else if a != [] && b == [] {
      assert a[0] != '\0';
    } else if a != [] && b != [] {
      assert CString(a[1..]) && CString(b[1..]) by {
        assert forall i :: 0 <= i < |a| - 1 ==> a[1..][i] == a[i + 1];
        assert forall i :: 0 <= i < |b| - 1 ==> b[1..][i] == b[i + 1];
      }
      CaseCmpZeroIff(a[1..], b[1..]);
      assert LowerString(a) == [AsciiLower(a[0])] + LowerString(a[1..]);
      assert LowerString(b) == [AsciiLower(b[0])] + LowerString(b[1..]);
      if LowerString(a) == LowerString(b) {
        assert LowerString(a)[0] == LowerString(b)[0];
        assert LowerString(a)[1..] == LowerString(b)[1..];
      }
    }
  }

  /** A shared prefix does not change the comparison: paths in one folder sort as their names do. */
  lemma {:induction false} CaseCmpCommonPrefix(p: string, a: string, b: string)
    ensures CaseCmp(p + a, p + b) == CaseCmp(a, b)
    decreases |p|
  {
    if p != [] {
      assert (p + a)[0] == p[0] == (p + b)[0];
      assert (p + a)[1..] == p[1..] + a;
      assert (p + b)[1..] == p[1..] + b;
      CaseCmpCommonPrefix(p[1..], a, b);
      assert |p + a| > 0 && |p + b| > 0;
      assert CaseCmp(p + a, p + b) == CaseCmp((p + a)[1..], (p + b)[1..]);
    } else {
      assert p + a == a && p + b == b;
    }
  }

  /** g_str_has_suffix. */
  predicate HasSuffix(s: string, suffix: string) {
    |suffix| <= |s| && s[|s| - |suffix|..] == suffix
  }

  /** g_build_path(G_DIR_SEPARATOR_S, folder, name, NULL) for a folder and a plain file name. */
  function BuildPath(folder: string, name: string): (r: string)
    ensures |r| == |folder| + 1 + |name|
    ensures r[..|folder|] == folder && r[|folder|] == '/' && r[|folder| + 1..] == name
  {
    folder + "/" + name
  }

  /** Two paths in one folder compare as their file names do. */
  lemma BuildPathOrder(folder: string, a: string, b: string)
    ensures CaseCmp(BuildPath(folder, a), BuildPath(folder, b)) == CaseCmp(a, b)
  {
    assert BuildPath(folder, a) == (folder + "/") + a;
    assert BuildPath(folder, b) == (folder + "/") + b;
    CaseCmpCommonPrefix(folder + "/", a, b);
  }

  lemma BuildPathInjective(folder: string, a: string, b: string)
    requires BuildPath(folder, a) == BuildPath(folder, b)
    ensures a == b
  {
    assert a == BuildPath(folder, a)[|folder| + 1..];
  }

  lemma BuildPathCString(folder: string, name: string)
    requires CString(folder) && CString(name)
    ensures CString(BuildPath(folder, name))
  {
    var r := BuildPath(folder, name);
    forall i | 0 <= i < |r| ensures r[i] != '\0' {
      if i < |folder| { assert r[i] == folder[i]; }
      else if i > |folder| { assert r[i] == name[i - |folder| - 1]; }
    }
  }

  // ---------------------------------------------------------------------
  // Decimal formatting ("%lu", "%d") and its inverse

  function DigitChar(d: nat): (c: char)
    requires d < 10
    ensures '0' <= c <= '9' && c as int - '0' as int == d
  {
    ('0' as int + d) as char
  }

  predicate IsDigit(c: char) {
    '0' <= c <= '9'
  }

  /** "%lu" of n: its decimal digits, most significant first, no leading zeros. */
  function Decimal(n: nat): (r: string)
    ensures 1 <= |r|
    ensures forall i :: 0 <= i < |r| ==> IsDigit(r[i])
    ensures |r| > 1 ==> r[0] != '0'
    decreases n
  {
    if n < 10 then [DigitChar(n)] else Decimal(n / 10) + [DigitChar(n % 10)]
  }

  /** "%d" of i. */
  function SignedDecimal(i: int): (r: string)
    ensures 1 <= |r|
  {
    if i < 0 then "-" + Decimal(-i) else Decimal(i)
  }

  /** The value of a string of decimal digits, read most significant first. */
  function DigitsValue(s: string): nat
    requires forall i :: 0 <= i < |s| ==> IsDigit(s[i])
    decreases |s|
  {
    if s == [] then 0
    else
      assert IsDigit(s[|s| - 1]);
      DigitsValue(s[..|s| - 1]) * 10 + (s[|s| - 1] as int - '0' as int)
  }

  /** Reads a non-empty string of decimal digits; anything else is not a decimal. */
  function ParseDecimal(s: string): Option<nat> {
    if s != [] && forall i :: 0 <= i < |s| ==> IsDigit(s[i]) then Some(DigitsValue(s))
    else None
  }

  /** Formatting a number and reading it back gives the number. */
  lemma {:induction false} DecimalRoundTrip(n: nat)
    ensures ParseDecimal(Decimal(n)) == Some(n)
    decreases n
  {
    var d := Decimal(n);
    if n < 10 {
      assert d[..|d| - 1] == [];
    } else {
      DecimalRoundTrip(n / 10);
      assert d[..|d| - 1] == Decimal(n / 10);
      assert d[|d| - 1] == DigitChar(n % 10);
    }
    assert DigitsValue(d) == n;
  }

  /** Decimal is injective: distinct numbers print differently. */
  lemma DecimalInjective(m: nat, n: nat)
    requires Decimal(m) == Decimal(n)
    ensures m == n
  {
    DecimalRoundTrip(m);
    DecimalRoundTrip(n);
  }

  // ---------------------------------------------------------------------
  // Integer widths

  const Two32: int := 0x1_0000_0000
  const Two31: int := 0x8000_0000

  /** A 32-bit X11 CARDINAL. */
  predicate IsCardinal(v: int) {
    0 <= v < Two32
  }

  /** Assigning an unsigned 32-bit value to a C `int`: values from 2^31 up wrap to negatives. */
  function ToInt32(v: int): (r: int)
    requires IsCardinal(v)
    ensures -Two31 <= r < Two31
    ensures (r - v) % Two32 == 0
    ensures v < Two31 ==> r == v
  {
    if v < Two31 then v else v - Two32
  }
}
