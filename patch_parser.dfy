/**
 * `parsePatchCommand` of the patch bot: four anchored, case-insensitive
 * patterns tried in a fixed order, the first match wins.
 *
 *   1. `/patch` whitespace, a lazy target, `:`, optional whitespace, a description
 *   2. `patch request:`, optional whitespace, a description
 *   3. `deploy patch`, whitespace, a target
 *   4. `/update` whitespace, a lazy target, whitespace, `to`, whitespace, a version
 *
 * Each pattern is written out as the match a backtracking regex engine finds,
 * with `.` read as any character.
 */
module PatchParser {
  import opened Common
  import opened Strings

  datatype PatchPattern = SlashPatch | PatchRequestColon | DeployPatch | UpdateTo

  const PatchPatterns: seq<PatchPattern> := [SlashPatch, PatchRequestColon, DeployPatch, UpdateTo]

  /** The trimmed capture groups of a match; one-group patterns have no description. */
  datatype Captures = Captures(target: string, description: Option<string>)

  /** `{isPatchRequest: true, target, description, rawCommand}`. */
  datatype PatchInfo = PatchInfo(target: string, description: string, rawCommand: string)

  /** What may follow the lazy target group. */
  datatype Separator = Colon | To

  /** `\s+to\s+(.+)$` matches all of `t`. */
  predicate ToTail(t: string) {
    var k := WsRun(t);
    k >= 1 && k + 4 <= |t| && Lower(t[k..k + 2]) == "to" && IsWs(t[k + 2])
  }

  /** The text after `to`, whose trim is the second group. */
  function AfterTo(t: string): string
    requires ToTail(t)
  {
    t[WsRun(t) + 2..]
  }

  /** The rest of the pattern matches when the lazy group stops before index `q` of `u`. */
  predicate SplitsAt(sep: Separator, u: string, q: nat) {
    match sep
    case Colon => q + 1 < |u| && u[q] == ':'
    case To => q <= |u| && ToTail(u[q..])
  }

  /** The lazy `(.+?)`: the first stopping index from `from` on where the rest matches. */
  function FirstSplit(sep: Separator, u: string, from: nat): (r: Option<nat>)
    decreases |u| + 1 - from
    ensures r.None? ==> forall q :: from <= q <= |u| ==> !SplitsAt(sep, u, q)
    ensures r.Some? ==> from <= r.value <= |u| && SplitsAt(sep, u, r.value)
    ensures r.Some? ==> forall q :: from <= q < r.value ==> !SplitsAt(sep, u, q)
  {
    if from > |u| then None
    else if SplitsAt(sep, u, from) then Some(from)
    else
      var r := FirstSplit(sep, u, from + 1);
      assert forall q :: from < q <= |u| && (r.None? || q < r.value) ==> !SplitsAt(sep, u, q);
      r
  }

  /**
   * One pattern against the whole message. After a maximal whitespace run
   * `w` the lazy group prefers the longest run; when no stopping point
   * exists after it, the engine gives back whitespace, which can only help
   * when the separator comes straight after the run (group 1 is then blank).
   */
  function MatchPattern(pat: PatchPattern, m: string): Option<Captures> {
    match pat
    case SlashPatch => MatchSlashPatch(m)
    case PatchRequestColon => MatchPatchRequest(m)
    case DeployPatch => MatchDeployPatch(m)
    case UpdateTo => MatchUpdateTo(m)
  }

  /** `/^\/patch\s+(.+?):\s*(.+)$/i` */
  function MatchSlashPatch(m: string): Option<Captures> {
    if !PrefixCI(m, "/patch") then None
    else
      var r := m[6..];
      var w := WsRun(r);
      var u := r[w..];
      if w == 0 then None
      else if FirstSplit(Colon, u, 1).Some? then
        var p := FirstSplit(Colon, u, 1).value;
        Some(Captures(Trim(u[..p]), Some(Trim(u[p + 1..]))))
      else if w >= 2 && SplitsAt(Colon, u, 0) then Some(Captures("", Some(Trim(u[1..]))))
      else None
  }

  /** `/^patch request:\s*(.+)$/i` */
  function MatchPatchRequest(m: string): Option<Captures> {
    if PrefixCI(m, "patch request:") && |m| > 14 then Some(Captures(Trim(m[14..]), None))
    else None
  }

  /** `/^deploy patch\s+(.+)$/i` */
  function MatchDeployPatch(m: string): Option<Captures> {
    if PrefixCI(m, "deploy patch") && |m| >= 14 && IsWs(m[12]) then Some(Captures(Trim(m[12..]), None))
    else None
  }

  /** `/^\/update\s+(.+?)\s+to\s+(.+)$/i` */
  function MatchUpdateTo(m: string): Option<Captures> {
    if !PrefixCI(m, "/update") then None
    else
      var r := m[7..];
      var w := WsRun(r);
      var u := r[w..];
      if w == 0 then None
      else if FirstSplit(To, u, 1).Some? then
        var p := FirstSplit(To, u, 1).value;
        Some(Captures(Trim(u[..p]), Some(Trim(AfterTo(u[p..])))))
      else if w >= 3 && ToTail(r[w - 1..]) then Some(Captures("", Some(Trim(AfterTo(r[w - 1..])))))
      else None
  }

  /** `match[2]?.trim() || match[1]?.trim()`. */
  function InfoOf(c: Captures, m: string): (r: PatchInfo)
    ensures r.target == c.target && r.rawCommand == m
    ensures r.description == (if Truthy(c.description) then c.description.value else c.target)
  {
    PatchInfo(c.target, if Truthy(c.description) then c.description.value else c.target, m)
  }

  /** The loop over the patterns: the captures of the first one that matches. */
  function FirstMatch(pats: seq<PatchPattern>, m: string): (r: Option<Captures>)
    ensures r.None? <==> forall k :: 0 <= k < |pats| ==> MatchPattern(pats[k], m).None?
    ensures r.Some? ==> exists k :: (0 <= k < |pats| && MatchPattern(pats[k], m) == r
      && forall j :: 0 <= j < k ==> MatchPattern(pats[j], m).None?)
  {
    if pats == [] then None
    else if MatchPattern(pats[0], m).Some? then MatchPattern(pats[0], m)
    else
      var r := FirstMatch(pats[1..], m);
      assert r.Some? ==> exists k :: (1 <= k < |pats| && MatchPattern(pats[k], m) == r
        && forall j :: 0 <= j < k ==> MatchPattern(pats[j], m).None?);
      r
  }

  /** `parsePatchCommand`: `None` is `{isPatchRequest: false}`. */
  function ParsePatchCommand(m: string): (r: Option<PatchInfo>)
    ensures r.None? <==> forall k :: 0 <= k < |PatchPatterns| ==> MatchPattern(PatchPatterns[k], m).None?
    ensures r.Some? ==> exists k :: (0 <= k < |PatchPatterns| && MatchPattern(PatchPatterns[k], m).Some?
      && r.value == InfoOf(MatchPattern(PatchPatterns[k], m).value, m)
      && forall j :: 0 <= j < k ==> MatchPattern(PatchPatterns[j], m).None?)
  {
    match FirstMatch(PatchPatterns, m)
    case None => None
    case Some(c) => Some(InfoOf(c, m))
  }

  /** The four patterns are tried in their fixed order and the first match wins. */
  lemma ParseInOrder(m: string)
    ensures ParsePatchCommand(m) ==
      if MatchPattern(SlashPatch, m).Some? then Some(InfoOf(MatchPattern(SlashPatch, m).value, m))
      else if MatchPattern(PatchRequestColon, m).Some? then Some(InfoOf(MatchPattern(PatchRequestColon, m).value, m))
      else if MatchPattern(DeployPatch, m).Some? then Some(InfoOf(MatchPattern(DeployPatch, m).value, m))
      else if MatchPattern(UpdateTo, m).Some? then Some(InfoOf(MatchPattern(UpdateTo, m).value, m))
      else None
  {
    var ps := PatchPatterns;
    FirstMatchStep(ps, m);
    assert ps[1..] == [PatchRequestColon, DeployPatch, UpdateTo];
    FirstMatchStep(ps[1..], m);
    assert ps[1..][1..] == [DeployPatch, UpdateTo];
    FirstMatchStep(ps[1..][1..], m);
    assert ps[1..][1..][1..] == [UpdateTo];
    FirstMatchStep(ps[1..][1..][1..], m);
    assert ps[1..][1..][1..][1..] == [];
  }

  lemma FirstMatchStep(pats: seq<PatchPattern>, m: string)
    requires pats != []
    ensures FirstMatch(pats, m) ==
      if MatchPattern(pats[0], m).Some? then MatchPattern(pats[0], m) else FirstMatch(pats[1..], m)
  {
  }

  // ---------------------------------------------------------------------
  // Round trips: each documented command form parses back to its parts.

  lemma PrefixOf(m: string, lit: string, rest: string)
    requires m == lit + rest && IsLower(lit)
    ensures PrefixCI(m, lit)
  {
    assert m[..|lit|] == lit;
    LowerOfLower(lit);
  }

  lemma NotPrefixAt(m: string, lit: string, i: nat)
    requires i < |lit| <= |m| && LowerChar(m[i]) != lit[i]
    ensures !PrefixCI(m, lit)
  {
    assert Lower(m[..|lit|])[i] == LowerChar(m[i]);
  }

  /** The first colon followed by more text ends the lazy target. */
  lemma {:induction false} ColonSplit(t: string, d: string)
    requires t != [] && d != [] && forall i :: 0 <= i < |t| ==> t[i] != ':'
    ensures FirstSplit(Colon, t + ": " + d, 1) == Some(|t|)
  {
    var u := t + ": " + d;
    assert SplitsAt(Colon, u, |t|);
    forall q | 1 <= q < |t| ensures !SplitsAt(Colon, u, q) {
      assert u[q] == t[q];
    }
  }

  /** After `/patch` and one blank, the lazy target ends at the first usable colon of the rest. */
  lemma SlashPatchShape(m: string, u: string, p: nat)
    requires PrefixCI(m, "/patch") && m[6..] == " " + u && u != [] && !IsWs(u[0])
    requires FirstSplit(Colon, u, 1) == Some(p)
    ensures MatchSlashPatch(m) == Some(Captures(Trim(u[..p]), Some(Trim(u[p + 1..]))))
  {
    WsRunOfBlank(u);
    assert m[6..][1..] == u;
  }

  lemma SlashPatchPrefix(t: string, d: string)
    ensures PrefixCI("/patch " + t + ": " + d, "/patch")
    ensures ("/patch " + t + ": " + d)[6..] == " " + (t + ": " + d)
  {
    var m := "/patch " + t + ": " + d;
    assert m == "/patch" + (" " + (t + ": " + d));
    PrefixOf(m, "/patch", " " + (t + ": " + d));
  }

  lemma SlashPatchTrims(t: string, d: string)
    requires IsTrimmed(t) && IsTrimmed(d)
    ensures Trim((t + ": " + d)[..|t|]) == t
    ensures Trim((t + ": " + d)[|t| + 1..]) == d
  {
    var u := t + ": " + d;
    assert u[..|t|] == t;
    assert u[|t| + 1..] == " " + d;
    TrimOfTrimmed(t);
    TrimAfterSpace(d);
  }

  lemma {:induction false} SlashPatchMatch(t: string, d: string)
    requires t != [] && IsTrimmed(t) && forall i :: 0 <= i < |t| ==> t[i] != ':'
    requires d != [] && IsTrimmed(d)
    ensures MatchPattern(SlashPatch, "/patch " + t + ": " + d) == Some(Captures(t, Some(d)))
  {
    var u := t + ": " + d;
    SlashPatchPrefix(t, d);
    ColonSplit(t, d);
    assert u[0] == t[0];
    SlashPatchShape("/patch " + t + ": " + d, u, |t|);
    SlashPatchTrims(t, d);
  }

  /** `/patch T: D` gives target T and description D (T without a colon). */
  lemma SlashPatchRoundTrip(t: string, d: string)
    requires t != [] && IsTrimmed(t) && forall i :: 0 <= i < |t| ==> t[i] != ':'
    requires d != [] && IsTrimmed(d)
    ensures ParsePatchCommand("/patch " + t + ": " + d) == Some(PatchInfo(t, d, "/patch " + t + ": " + d))
  {
    SlashPatchMatch(t, d);
    ParseInOrder("/patch " + t + ": " + d);
  }

  lemma PatchRequestMatch(d: string)
    requires d != [] && IsTrimmed(d)
    ensures MatchPattern(SlashPatch, "patch request: " + d).None?
    ensures MatchPattern(PatchRequestColon, "patch request: " + d) == Some(Captures(d, None))
  {
    var m := "patch request: " + d;
    NotPrefixAt(m, "/patch", 0);
    PrefixOf(m, "patch request:", " " + d);
    assert m[14..] == " " + d;
    TrimAfterSpace(d);
  }

  /** `patch request: D` gives D as both target and description. */
  lemma PatchRequestRoundTrip(d: string)
    requires d != [] && IsTrimmed(d)
    ensures ParsePatchCommand("patch request: " + d) == Some(PatchInfo(d, d, "patch request: " + d))
  {
    PatchRequestMatch(d);
    ParseInOrder("patch request: " + d);
  }

  lemma DeployPatchOthersFail(m: string)
    requires StartsWith(m, "deploy patch")
    ensures MatchPattern(SlashPatch, m).None?
    ensures MatchPattern(PatchRequestColon, m).None?
  {
    NotPrefixAt(m, "/patch", 0);
    if |m| >= 14 { NotPrefixAt(m, "patch request:", 0); }
  }

  lemma DeployPatchMatch(t: string)
    requires t != [] && IsTrimmed(t)
    ensures MatchPattern(DeployPatch, "deploy patch " + t) == Some(Captures(t, None))
  {
    var m := "deploy patch " + t;
    PrefixOf(m, "deploy patch", " " + t);
    assert m[12..] == " " + t;
    TrimAfterSpace(t);
  }

  /** `deploy patch T` gives T as both target and description. */
  lemma DeployPatchRoundTrip(t: string)
    requires t != [] && IsTrimmed(t)
    ensures ParsePatchCommand("deploy patch " + t) == Some(PatchInfo(t, t, "deploy patch " + t))
  {
    var m := "deploy patch " + t;
    assert m[..12] == "deploy patch";
    DeployPatchOthersFail(m);
    DeployPatchMatch(t);
    ParseInOrder(m);
  }

  /** Inside a word there is no whitespace run for `\s+to` to start with. */
  lemma NoToTailInWord(x: string, rest: string, q: nat)
    requires NoWs(x) && q < |x|
    ensures !ToTail((x + rest)[q..])
  {
    var t := (x + rest)[q..];
    assert t[0] == x[q];
    WsRunOfWord(t);
  }

  lemma ToTailOfTo(y: string)
    requires y != []
    ensures ToTail(" to " + y) && AfterTo(" to " + y) == " " + y
  {
    var t := " to " + y;
    assert t == " " + ("to " + y);
    WsRunOfBlank("to " + y);
    assert t[1..3] == "to";
    LowerOfLower("to");
  }

  /** ` to Y` after a single word is where the lazy target stops. */
  lemma {:induction false} ToSplit(x: string, y: string)
    requires x != [] && NoWs(x) && y != []
    ensures FirstSplit(To, x + " to " + y, 1) == Some(|x|)
    ensures AfterTo((x + " to " + y)[|x|..]) == " " + y
  {
    var u := x + " to " + y;
    forall q | 1 <= q < |x| ensures !SplitsAt(To, u, q) {
      NoToTailInWord(x, " to " + y, q);
    }
    assert u[|x|..] == " to " + y;
    ToTailOfTo(y);
    assert SplitsAt(To, u, |x|);
  }

  /** Once the word and the separator are fixed, the captures are the word and the version. */
  lemma UpdateCaptures(m: string, x: string, y: string)
    requires PrefixCI(m, "/update") && m[7..] == " " + (x + " to " + y)
    requires x != [] && NoWs(x) && y != [] && IsTrimmed(y)
    ensures MatchUpdateTo(m) == Some(Captures(Trim(x), Some(Trim(" " + y))))
  {
    var r := m[7..];
    WsRunOfBlank(x + " to " + y);
    var u := r[1..];
    assert u == x + " to " + y;
    ToSplit(x, y);
    assert u[..|x|] == x;
  }

  lemma UpdateMatch(x: string, y: string)
    requires x != [] && NoWs(x)
    requires y != [] && IsTrimmed(y)
    ensures MatchPattern(UpdateTo, "/update " + x + " to " + y) == Some(Captures(x, Some(y)))
  {
    var m := "/update " + x + " to " + y;
    PrefixOf(m, "/update", " " + x + " to " + y);
    assert m[7..] == " " + (x + " to " + y);
    UpdateCaptures(m, x, y);
    TrimOfTrimmed(x);
    TrimAfterSpace(y);
  }

  lemma UpdateOthersFail(m: string)
    requires StartsWith(m, "/update")
    ensures MatchPattern(SlashPatch, m).None?
    ensures MatchPattern(PatchRequestColon, m).None?
    ensures MatchPattern(DeployPatch, m).None?
  {
    if |m| >= 14 { NotPrefixAt(m, "patch request:", 0); }
    if |m| >= 12 { NotPrefixAt(m, "deploy patch", 0); }
    NotPrefixAt(m, "/patch", 1);
  }

  /** `/update X to Y` gives target X and description Y (X a single word). */
  lemma UpdateRoundTrip(x: string, y: string)
    requires x != [] && NoWs(x)
    requires y != [] && IsTrimmed(y)
    ensures ParsePatchCommand("/update " + x + " to " + y) == Some(PatchInfo(x, y, "/update " + x + " to " + y))
  {
    var m := "/update " + x + " to " + y;
    assert m[..7] == "/update";
    UpdateOthersFail(m);
    UpdateMatch(x, y);
    ParseInOrder(m);
  }

  /** A message that starts with none of `/`, `p`, `d` (in any case) is not a patch command. */
  lemma OrdinaryTextIsNotPatch(m: string)
    requires m != [] && LowerChar(m[0]) != '/' && LowerChar(m[0]) != 'p' && LowerChar(m[0]) != 'd'
    ensures ParsePatchCommand(m).None?
  {
    if |m| >= 6 { NotPrefixAt(m, "/patch", 0); }
    if |m| >= 14 { NotPrefixAt(m, "patch request:", 0); }
    if |m| >= 12 { NotPrefixAt(m, "deploy patch", 0); }
    if |m| >= 7 { NotPrefixAt(m, "/update", 0); }
  }
}
