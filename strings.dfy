/**
 * Character and string helpers with JavaScript / Python semantics:
 * the `\s` whitespace class, `trim`, ASCII case folding (what a `/i` regex
 * does with an ASCII literal), `startsWith`, `includes`, `join` and `split`.
 */
module Strings {

  /** JavaScript's `\s` class, which is also the set `String.prototype.trim` strips. */
  predicate IsWs(c: char) {
    || c == ' ' || c == '\t' || c == '\n' || c == '\r' || c == '\U{B}' || c == '\U{C}'
    || c == '\U{A0}' || c == '\U{1680}' || ('\U{2000}' <= c <= '\U{200A}')
    || c == '\U{2028}' || c == '\U{2029}' || c == '\U{202F}' || c == '\U{205F}'
    || c == '\U{3000}' || c == '\U{FEFF}'
  }

  predicate AllWs(s: string) {
    forall i :: 0 <= i < |s| ==> IsWs(s[i])
  }

  predicate NoWs(s: string) {
    forall i :: 0 <= i < |s| ==> !IsWs(s[i])
  }

  predicate IsUpper(c: char) { 'A' <= c <= 'Z' }

  function LowerChar(c: char): (r: char)
    ensures !IsUpper(r)
    ensures !IsUpper(c) ==> r == c
    ensures IsWs(r) <==> IsWs(c)
  {
    if IsUpper(c) then (c as int + 32) as char else c
  }

  /** `toLowerCase` restricted to the ASCII letters. */
  function Lower(s: string): (r: string)
    ensures |r| == |s|
    ensures forall i :: 0 <= i < |s| ==> r[i] == LowerChar(s[i])
  {
    seq(|s|, i requires 0 <= i < |s| => LowerChar(s[i]))
  }

  predicate IsLower(s: string) {
    forall i :: 0 <= i < |s| ==> !IsUpper(s[i])
  }

  predicate StartsWith(s: string, prefix: string) {
    |prefix| <= |s| && s[..|prefix|] == prefix
  }

  /** `s.includes(sub)`: `sub` occurs at some position of `s`. */
  predicate Contains(s: string, sub: string) {
    exists i :: 0 <= i <= |s| - |sub| && OccursAt(s, sub, i)
  }

  predicate OccursAt(s: string, sub: string, i: int) {
    0 <= i <= |s| - |sub| && s[i..i + |sub|] == sub
  }

  predicate ContainsAny(s: string, subs: seq<string>) {
    exists j :: 0 <= j < |subs| && Contains(s, subs[j])
  }

  predicate StartsWithAny(s: string, prefixes: seq<string>) {
    exists j :: 0 <= j < |prefixes| && StartsWith(s, prefixes[j])
  }

  predicate EndsWith(s: string, suffix: string) {
    |suffix| <= |s| && s[|s| - |suffix|..] == suffix
  }

  /** A `/i` regex literal prefix: `lit` is lower case and `s` begins with it up to ASCII case. */
  predicate PrefixCI(s: string, lit: string) {
    |lit| <= |s| && Lower(s[..|lit|]) == lit
  }

  lemma LowerOfLower(s: string)
    requires IsLower(s)
    ensures Lower(s) == s
  {
  }

  /** Lowering leaves every character but an upper-case letter alone. */
  lemma LowerCharIs(c: char, d: char)
    requires LowerChar(c) == d && !('a' <= d <= 'z')
    ensures c == d
  {
  }

  function TrimStart(s: string): (r: string)
    ensures |r| <= |s| && r == s[|s| - |r|..]
    ensures r == [] || !IsWs(r[0])
    ensures AllWs(s[..|s| - |r|])
  {
    if s != [] && IsWs(s[0]) then TrimStart(s[1..]) else s
  }

  function TrimEnd(s: string): (r: string)
    ensures |r| <= |s| && r == s[..|r|]
    ensures r == [] || !IsWs(r[|r| - 1])
    ensures AllWs(s[|r|..])
  {
    if s != [] && IsWs(s[|s| - 1]) then TrimEnd(s[..|s| - 1]) else s
  }

  /** The length of the leading whitespace run. */
  function WsRun(s: string): (n: nat)
    ensures n <= |s| && AllWs(s[..n]) && (n == |s| || !IsWs(s[n]))
  {
    |s| - |TrimStart(s)|
  }

  predicate IsTrimmed(s: string) {
    s == [] || (!IsWs(s[0]) && !IsWs(s[|s| - 1]))
  }

  /** `s.trim()`. */
  function Trim(s: string): (r: string)
    ensures IsTrimmed(r)
  {
    TrimEnd(TrimStart(s))
  }

  /** Leading whitespace never shows in a trimmed string. */
  lemma TrimSkipsLeadingWs(w: string, s: string)
    requires AllWs(w)
    ensures Trim(w + s) == Trim(s)
  {
    TrimStartSkipsWs(w, s);
  }

  lemma {:induction false} TrimStartSkipsWs(w: string, s: string)
    requires AllWs(w)
    ensures TrimStart(w + s) == TrimStart(s)
  {
    if w != [] {
      var ws := w + s;
      assert ws[0] == w[0] && ws[1..] == w[1..] + s;
      assert IsWs(w[0]);
      assert TrimStart(ws) == TrimStart(ws[1..]);
      TrimStartSkipsWs(w[1..], s);
    } else {
      assert w + s == s;
    }
  }

  lemma TrimAfterBlank(s: string)
    ensures Trim(" " + s) == Trim(s)
  {
    TrimSkipsLeadingWs(" ", s);
  }

  /** `" " + s` trims to `s` when `s` is already trimmed. */
  lemma TrimAfterSpace(s: string)
    requires IsTrimmed(s)
    ensures Trim(" " + s) == s
  {
    TrimAfterBlank(s);
    TrimOfTrimmed(s);
  }

  /** One blank before a non-blank is a run of length 1. */
  lemma WsRunOfBlank(x: string)
    requires x != [] && !IsWs(x[0])
    ensures WsRun(" " + x) == 1
  {
    var b := " " + x;
    assert b[1..] == x;
    assert TrimStart(b) == TrimStart(x) == x;
  }

  /** No whitespace before a non-blank: a run of length 0. */
  lemma WsRunOfWord(x: string)
    requires x != [] && !IsWs(x[0])
    ensures WsRun(x) == 0
  {
  }

  /** A string that starts and ends with a non-space is its own trim. */
  lemma TrimOfTrimmed(s: string)
    requires IsTrimmed(s)
    ensures Trim(s) == s
  {
  }

  /** `parts.join(sep)`. */
  function Join(parts: seq<string>, sep: string): (r: string)
    ensures parts == [] ==> r == []
    ensures |parts| == 1 ==> r == parts[0]
  {
    if parts == [] then []
    else if |parts| == 1 then parts[0]
    else parts[0] + sep + Join(parts[1..], sep)
  }
}
