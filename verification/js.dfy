/** JavaScript value semantics the renderers rely on: optional fields, truthiness
    of strings and arrays, the `||` fallback on strings, and `String.prototype.trim`.
 */
module Js {

  /** A field of a loosely-typed object: absent (`undefined`/`null`) or present. */
  datatype Option<+T> = None | Some(value: T) {

    /** `field || fallback` for an array field: an array counts as truthy as soon
        as it is there, so only a missing field takes the fallback. */
    function GetOr(default: T): T {
      if Some? then value else default
    }
  }

  /** A string field is truthy when it is present and non-empty. */
  predicate TruthyStr(o: Option<string>) {
    o.Some? && o.value != ""
  }

  /** An array field is truthy whenever it is present, even when it is empty. */
  predicate Present<T>(o: Option<seq<T>>) {
    o.Some?
  }

  /** `a || b` on two string fields: `a` when truthy, otherwise `b` as it is. */
  function Or(a: Option<string>, b: Option<string>): (r: Option<string>)
    ensures TruthyStr(r) <==> TruthyStr(a) || TruthyStr(b)
    ensures TruthyStr(a) ==> r == a
    ensures !TruthyStr(a) ==> r == b
  {
    if TruthyStr(a) then a else b
  }

  /** `a || d` with a string literal `d` on the right. */
  function OrElse(a: Option<string>, d: string): (r: string)
    ensures r != "" <==> TruthyStr(a) || d != ""
    ensures TruthyStr(a) ==> r == a.value
    ensures !TruthyStr(a) ==> r == d
  {
    if TruthyStr(a) then a.value else d
  }

  /** The characters `trim` removes: ECMAScript WhiteSpace (tab, vertical tab,
      form feed, space, no-break space, byte order mark and the other Zs code
      points) and LineTerminator (LF, CR, LS, PS). */
  predicate IsWhite(c: char) {
    || c == '\t' || c == '\U{000B}' || c == '\U{000C}' || c == ' '
    || c == '\U{00A0}' || c == '\U{FEFF}' || c == '\U{1680}'
    || ('\U{2000}' <= c <= '\U{200A}')
    || c == '\U{202F}' || c == '\U{205F}' || c == '\U{3000}'
    || c == '\n' || c == '\r' || c == '\U{2028}' || c == '\U{2029}'
  }

  predicate Blank(s: string) {
    forall i :: 0 <= i < |s| ==> IsWhite(s[i])
  }

  /** Drops the leading run of white space. */
  function TrimStart(s: string): (r: string)
    ensures |r| <= |s| && r == s[|s| - |r|..]
    ensures r == [] || !IsWhite(r[0])
    ensures forall i :: 0 <= i < |s| - |r| ==> IsWhite(s[i])
  {
    if s == [] || !IsWhite(s[0]) then s else TrimStart(s[1..])
  }

  /** Drops the trailing run of white space. */
  function TrimEnd(s: string): (r: string)
    ensures |r| <= |s| && r == s[..|r|]
    ensures r == [] || !IsWhite(r[|r| - 1])
    ensures forall i :: |r| <= i < |s| ==> IsWhite(s[i])
  {
    if s == [] || !IsWhite(s[|s| - 1]) then s else TrimEnd(s[..|s| - 1])
  }

  /** `s.trim()`: the result is empty exactly when every character is white space,
      and otherwise starts and ends with a character `trim` keeps. */
  function Trim(s: string): (r: string)
    ensures r == [] <==> Blank(s)
    ensures r != [] ==> !IsWhite(r[0]) && !IsWhite(r[|r| - 1])
    ensures |r| <= |s|
  {
    var t := TrimStart(s);
    var r := TrimEnd(t);
    assert r == [] ==> Blank(t);
    r
  }
}
