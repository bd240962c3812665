/** The string operations the core uses: prefix tests, JavaScript `trim`, one-slash stripping and truthiness. */
module Strings {
  import opened Wrappers

  /** `s.startsWith(prefix)` */
  predicate StartsWith(s: string, prefix: string) {
    prefix <= s
  }

  /** `s.endsWith("/")` */
  predicate EndsWithSlash(s: string) {
    |s| > 0 && s[|s| - 1] == '/'
  }

  /** JavaScript truthiness of an optional string: present and non-empty. */
  predicate Truthy(o: Option<string>) {
    o.Some? && o.value != ""
  }

  /** `o || fallback` for an optional string. */
  function OrElse(o: Option<string>, fallback: string): string {
    if Truthy(o) then o.value else fallback
  }

  /** The characters `String.prototype.trim` removes: ECMAScript WhiteSpace and LineTerminator. */
  predicate IsSpace(c: char) {
    || c == '\t' || c == '\n' || c == '\U{000B}' || c == '\U{000C}' || c == '\r' || c == ' '
    || c == '\U{00A0}' || c == '\U{1680}' || ('\U{2000}' <= c <= '\U{200A}')
    || c == '\U{2028}' || c == '\U{2029}' || c == '\U{202F}' || c == '\U{205F}'
    || c == '\U{3000}' || c == '\U{FEFF}'
  }

  /** Neither the first nor the last character is white space. */
  predicate NoEdgeSpace(s: string) {
    s == [] || (!IsSpace(s[0]) && !IsSpace(s[|s| - 1]))
  }

  /** `r` is `s` with its first `k` characters and everything after `k + |r|` removed, all of them satisfying `p`. */
  predicate TrimmedAt(p: char -> bool, r: string, s: string, k: nat) {
    && k + |r| <= |s|
    && r == s[k..k + |r|]
    && (forall i :: 0 <= i < k ==> p(s[i]))
    && (forall i :: k + |r| <= i < |s| ==> p(s[i]))
  }

  /** `r` is `s` with some white space removed from its start and some from its end, and nothing else. */
  ghost predicate StripsOnlySpace(r: string, s: string) {
    exists k: nat :: TrimmedAt(IsSpace, r, s, k)
  }

  /** Drops the longest all-white-space prefix. */
  function TrimStart(s: string): (r: string)
    ensures |r| <= |s| && r == s[|s| - |r|..]
    ensures forall i :: 0 <= i < |s| - |r| ==> IsSpace(s[i])
    ensures r == [] || !IsSpace(r[0])
    decreases |s|
  {
    if s != [] && IsSpace(s[0]) then TrimStart(s[1..]) else s
  }

  /** Drops the longest all-white-space suffix. */
  function TrimEnd(s: string): (r: string)
    ensures r <= s
    ensures forall i :: |r| <= i < |s| ==> IsSpace(s[i])
    ensures r == [] || !IsSpace(r[|r| - 1])
    decreases |s|
  {
    if s != [] && IsSpace(s[|s| - 1]) then TrimEnd(s[..|s| - 1]) else s
  }

  /** `s.trim()` */
  function Trim(s: string): (r: string)
    ensures NoEdgeSpace(r)
    ensures StripsOnlySpace(r, s)
    ensures NoEdgeSpace(s) ==> r == s
  {
    TrimStartThenEnd(s);
    TrimEnd(TrimStart(s))
  }

  /** Trimming both ends removes only white space, leaves none at either end, and keeps a trimmed text. */
  lemma TrimStartThenEnd(s: string)
    ensures NoEdgeSpace(TrimEnd(TrimStart(s)))
    ensures StripsOnlySpace(TrimEnd(TrimStart(s)), s)
    ensures NoEdgeSpace(s) ==> TrimEnd(TrimStart(s)) == s
  {
    var t := TrimStart(s);
    var r := TrimEnd(t);
    StripBothEnds(IsSpace, s, t, r);
    assert TrimmedAt(IsSpace, r, s, |s| - |t|);
    TrimOfTrimmed(s);
    TrimHasNoEdgeSpace(s);
  }

  /** Trimming leaves no white space at either end. */
  lemma TrimHasNoEdgeSpace(s: string)
    ensures NoEdgeSpace(TrimEnd(TrimStart(s)))
  {
    var t := TrimStart(s);
    var r := TrimEnd(t);
    if r != [] {
      assert r[0] == t[0];
    }
  }

  /** Trimming a string without edge white space changes nothing. */
  lemma TrimOfTrimmed(s: string)
    ensures NoEdgeSpace(s) ==> TrimEnd(TrimStart(s)) == s
  {
  }

  /**
   Removing a `p`-prefix from `s` to get `t`, then a `p`-suffix from `t` to get `r`, leaves `r`
   in `s` at `|s| - |t|`, with only `p`-characters around it.
   */
  lemma StripBothEnds(p: char -> bool, s: string, t: string, r: string)
    requires |t| <= |s| && t == s[|s| - |t|..]
    requires forall i :: 0 <= i < |s| - |t| ==> p(s[i])
    requires r <= t
    requires forall i :: |r| <= i < |t| ==> p(t[i])
    ensures TrimmedAt(p, r, s, |s| - |t|)
  {
  }

  /** `s.replace(/\/$/, "")`: removes one trailing slash, if there is one. */
  function StripTrailingSlash(s: string): (r: string)
    ensures EndsWithSlash(s) ==> r + "/" == s
    ensures !EndsWithSlash(s) ==> r == s
  {
    if EndsWithSlash(s) then s[..|s| - 1] else s
  }
}
