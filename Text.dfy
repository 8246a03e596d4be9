/**
 * The string primitives of .NET that the controller relies on:
 * `char.IsWhiteSpace`, `string.IsNullOrWhiteSpace` and `string.Trim()`.
 */
module Text {
  import opened Wrappers

  /**
   * The characters .NET's `char.IsWhiteSpace` accepts: the Unicode space,
   * line and paragraph separators (categories Zs, Zl, Zp) together with the
   * control characters U+0009 to U+000D and U+0085.
   */
  predicate IsWhiteSpace(c: char) {
    || ('\t' <= c <= '\r')
    || c == ' '
    || c == '\U{85}'
    || c == '\U{A0}'
    || c == '\U{1680}'
    || ('\U{2000}' <= c <= '\U{200A}')
    || c == '\U{2028}'
    || c == '\U{2029}'
    || c == '\U{202F}'
    || c == '\U{205F}'
    || c == '\U{3000}'
  }

  ghost predicate AllWhiteSpace(s: string) {
    forall i :: 0 <= i < |s| ==> IsWhiteSpace(s[i])
  }

  /** Neither the first nor the last character of `t` is white space. */
  predicate NoEdgeWhiteSpace(t: string) {
    t == [] || (!IsWhiteSpace(t[0]) && !IsWhiteSpace(t[|t| - 1]))
  }

  /**
   * Cutting `s` down to `s[i..j]` removes white space only, and leaves no
   * white space at either end of what remains.
   */
  ghost predicate TrimsAt(s: string, i: int, j: int) {
    && 0 <= i <= j <= |s|
    && (forall k :: 0 <= k < i ==> IsWhiteSpace(s[k]))
    && (forall k :: j <= k < |s| ==> IsWhiteSpace(s[k]))
    && (i < j ==> !IsWhiteSpace(s[i]) && !IsWhiteSpace(s[j - 1]))
  }

  /** `t` is what trimming `s` must give. */
  ghost predicate IsTrimOf(t: string, s: string) {
    exists i, j :: TrimsAt(s, i, j) && t == s[i..j]
  }

  /** `string.IsNullOrWhiteSpace`: null, empty, or white space only. */
  function IsNullOrWhiteSpace(s: Option<string>): (r: bool)
    ensures r <==> s.None? || AllWhiteSpace(s.value)
  {
    match s
    case None => true
    case Some(v) => IsBlank(v)
  }

  /** Every character of `s` is white space (true of the empty string). */
  function IsBlank(s: string): (r: bool)
    ensures r <==> AllWhiteSpace(s)
  {
    if s == [] then true else IsWhiteSpace(s[0]) && IsBlank(s[1..])
  }

  /** `string.TrimStart()`: drops the leading white space. */
  function TrimStart(s: string): (r: string)
    ensures |r| <= |s| && r == s[|s| - |r|..]
    ensures forall k :: 0 <= k < |s| - |r| ==> IsWhiteSpace(s[k])
    ensures r == [] || !IsWhiteSpace(r[0])
  {
    if s != [] && IsWhiteSpace(s[0]) then TrimStart(s[1..]) else s
  }

  /** `string.TrimEnd()`: drops the trailing white space. */
  function TrimEnd(s: string): (r: string)
    ensures |r| <= |s| && r == s[..|r|]
    ensures forall k :: |r| <= k < |s| ==> IsWhiteSpace(s[k])
    ensures r == [] || !IsWhiteSpace(r[|r| - 1])
  {
    if s != [] && IsWhiteSpace(s[|s| - 1]) then TrimEnd(s[..|s| - 1]) else s
  }

  /** `string.Trim()`: drops the white space at both ends. */
  function Trim(s: string): (r: string)
    ensures IsTrimOf(r, s)
  {
    var u := TrimStart(s);
    var r := TrimEnd(u);
    TrimCuts(s, |s| - |u|, u, r);
    r
  }

  /**
   * Where `Trim` cuts: after the leading white space `s[..i]` and before the
   * trailing white space `u[|r|..]` of the rest `u`.
   */
  lemma TrimCuts(s: string, i: nat, u: string, r: string)
    requires i <= |s| && u == s[i..] && |r| <= |u| && r == u[..|r|]
    requires forall k :: 0 <= k < i ==> IsWhiteSpace(s[k])
    requires u == [] || !IsWhiteSpace(u[0])
    requires forall k :: |r| <= k < |u| ==> IsWhiteSpace(u[k])
    requires r == [] || !IsWhiteSpace(r[|r| - 1])
    ensures TrimsAt(s, i, i + |r|) && r == s[i..i + |r|]
  {
  }

  /** There is only one way to trim a string, so `Trim` is that way. */
  lemma TrimUnique(t: string, s: string)
    requires IsTrimOf(t, s)
    ensures t == Trim(s)
  {
  }

  /** A trimmed string has no white space at either end. */
  lemma TrimmedHasNoEdgeWhiteSpace(s: string)
    ensures NoEdgeWhiteSpace(Trim(s))
  {
    var u := TrimStart(s);
    TrimCuts(s, |s| - |u|, u, TrimEnd(u));
  }

  /** Trimming twice is trimming once. */
  lemma TrimIdempotent(s: string)
    ensures Trim(Trim(s)) == Trim(s)
  {
  }
}
