/**
 * The two string operations the inventory relies on: `str.strip()`, used to
 * reject blank product names, and `str.lower()`, used to compare names
 * without regard to case.
 */
module Texto {

  /** The characters for which Python's `str.isspace()` holds, which `str.strip()` removes by default. */
  predicate IsSpace(c: char)
  {
    || c == ' '
    || ('\t' <= c <= '\r')
    || ('\U{1C}' <= c <= '\U{1F}')
    || c == '\U{85}'
    || c == '\U{A0}'
    || c == '\U{1680}'
    || ('\U{2000}' <= c <= '\U{200A}')
    || c == '\U{2028}'
    || c == '\U{2029}'
    || c == '\U{202F}'
    || c == '\U{205F}'
    || c == '\U{3000}'
  }

  /** Every character of `s` is white space; the empty string is blank too. */
  predicate EnBlanco(s: string)
  {
    forall i :: 0 <= i < |s| ==> IsSpace(s[i])
  }

  /** `s` without its leading white space: the longest suffix that does not start with a space. */
  function TrimStart(s: string): (r: string)
    ensures |r| <= |s| && r == s[|s| - |r|..]
    ensures forall k :: 0 <= k < |s| - |r| ==> IsSpace(s[k])
    ensures r != [] ==> !IsSpace(r[0])
  {
    if s != [] && IsSpace(s[0]) then TrimStart(s[1..]) else s
  }

  /** `s` without its trailing white space: the longest prefix that does not end with a space. */
  function TrimEnd(s: string): (r: string)
    ensures |r| <= |s| && r == s[..|r|]
    ensures forall k :: |r| <= k < |s| ==> IsSpace(s[k])
    ensures r != [] ==> !IsSpace(r[|r| - 1])
  {
    if s != [] && IsSpace(s[|s| - 1]) then TrimEnd(s[..|s| - 1]) else s
  }

  /**
   * Python's `s.strip()`: `s` without the white space at either end. It is
   * empty exactly when `s` is blank, and otherwise starts and ends with a
   * character that is not white space.
   */
  function Strip(s: string): (r: string)
    ensures r == [] <==> EnBlanco(s)
    ensures r != [] ==> !IsSpace(r[0]) && !IsSpace(r[|r| - 1])
  {
    var t := TrimStart(s);
    var r := TrimEnd(t);
    // An empty `r` leaves nothing of `t` either: its first character would not be white space.
    assert r == [] ==> t == [];
    assert t != [] ==> t[0] == s[|s| - |t|];
    r
  }

  /** The upper-case letters of the ASCII and Latin-1 ranges, which `str.lower()` maps 32 code points up. */
  predicate IsUpper(c: char)
  {
    ('A' <= c <= 'Z') || ('\U{C0}' <= c <= '\U{DE}' && c != '\U{D7}')
  }

  /** Python's `c.lower()` on one character of the ASCII or Latin-1 range. */
  function LowerChar(c: char): (r: char)
    ensures !IsUpper(r)
    ensures !IsUpper(c) ==> r == c
    ensures IsUpper(c) ==> r as int == c as int + 32
  {
    if IsUpper(c) then (c as int + 32) as char else c
  }

  /** Python's `s.lower()`, character by character. */
  function Lower(s: string): (r: string)
    ensures |r| == |s|
    ensures forall i :: 0 <= i < |s| ==> r[i] == LowerChar(s[i])
  {
    seq(|s|, i requires 0 <= i < |s| => LowerChar(s[i]))
  }

  /**
   * Lower-casing twice gives what lower-casing once gives; it is what lets a
   * query typed in lower case find a name stored in any case.
   */
  lemma LowerIdempotent(s: string)
    ensures Lower(Lower(s)) == Lower(s)
  {
  }

  /** Two product names are the same name when they agree after lower-casing. */
  predicate MismoNombre(a: string, b: string)
  {
    Lower(a) == Lower(b)
  }

  /** Names that differ only in the case of their letters are the same name. */
  lemma MismoNombreIgnoraMayusculas(a: string, b: string)
    requires |a| == |b|
    requires forall i :: 0 <= i < |a| ==> a[i] == b[i] || LowerChar(a[i]) == b[i] || a[i] == LowerChar(b[i])
    ensures MismoNombre(a, b)
  {
    assert forall i :: 0 <= i < |a| ==> Lower(a)[i] == Lower(b)[i];
  }

  /** A name and its lower-cased form are the same name: a lower-case query finds it. */
  lemma MismoNombreMinusculas(a: string)
    ensures MismoNombre(a, Lower(a))
  {
    LowerIdempotent(a);
  }
}
