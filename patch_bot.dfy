/**
 * The patch bot around the parser: the request table of
 * `PatchRequestManager` (create, approve, admin check, reply text), the
 * per-user conversation buffer of `AIManager` with its fallback replies, and
 * the routing chain of the message handler.
 */
module PatchBot {
  import opened Common
  import opened Strings
  import opened OrderedMaps
  import opened PatchParser

  // ---------------------------------------------------------------------
  // Configuration

  /** `config.patchService`, when present. */
  datatype PatchServiceSettings = PatchServiceSettings(requireApproval: Option<bool>, adminIds: Option<seq<string>>)

  /** The parts of the bot configuration the manager reads. */
  datatype BotConfig = BotConfig(adminId: Option<string>, patchService: Option<PatchServiceSettings>)

  /** `requireApproval !== false`: approval is required unless switched off explicitly. */
  function RequireApprovalOf(cfg: BotConfig): (r: bool)
    ensures !r <==> cfg.patchService.Some? && cfg.patchService.value.requireApproval == Some(false)
  {
    !(cfg.patchService.Some? && cfg.patchService.value.requireApproval == Some(false))
  }

  /** `adminIds || [adminId].filter(Boolean)`. */
  function AdminIdsOf(cfg: BotConfig): (r: seq<string>)
    ensures cfg.patchService.Some? && cfg.patchService.value.adminIds.Some? ==> r == cfg.patchService.value.adminIds.value
    ensures !(cfg.patchService.Some? && cfg.patchService.value.adminIds.Some?) ==>
      r == (if Truthy(cfg.adminId) then [cfg.adminId.value] else [])
  {
    if cfg.patchService.Some? && cfg.patchService.value.adminIds.Some? then cfg.patchService.value.adminIds.value
    else if Truthy(cfg.adminId) then [cfg.adminId.value]
    else []
  }

  /** `isAdmin`: membership of the user id's text in the admin list. */
  function IsAdmin(adminIds: seq<string>, userId: string): (r: bool)
    ensures r <==> exists i :: 0 <= i < |adminIds| && adminIds[i] == userId
  {
    userId in adminIds
  }

  /**
   * Without an explicit admin list, exactly the configured admin id is an
   * admin, and nobody is when that id is missing or empty.
   */
  lemma DefaultAdmins(cfg: BotConfig, userId: string)
    requires !(cfg.patchService.Some? && cfg.patchService.value.adminIds.Some?)
    ensures IsAdmin(AdminIdsOf(cfg), userId) <==> Truthy(cfg.adminId) && userId == cfg.adminId.value
  {
  }

  // ---------------------------------------------------------------------
  // Requests

  /** What the patch service answered: `{success: true, data}` or `{success: false, error}`. */
  datatype ServiceData = ServiceData(
    status: Option<string>, message: Option<string>, estimatedTime: Option<string>,
    affectedSystems: Option<seq<string>>)

  datatype ServiceResponse = Submitted(data: ServiceData) | Failed(error: string)

  datatype PatchRequest = PatchRequest(
    id: string, userId: string, userName: string,
    target: string, description: string, command: string,
    status: string, createdAt: string,
    approved: bool, approvedBy: Option<string>, approvedAt: Option<string>,
    executionResult: Option<ServiceResponse>)

  const NotFound: string := "Patch request not found"

  class PatchRequestManager {
    var pendingRequests: seq<Entry<string, PatchRequest>>
    const requireApproval: bool
    const adminIds: seq<string>

    ghost predicate Valid()
      reads this
    {
      DistinctKeys(pendingRequests)
    }

    constructor (cfg: BotConfig)
      ensures Valid() && pendingRequests == []
      ensures requireApproval == RequireApprovalOf(cfg) && adminIds == AdminIdsOf(cfg)
    {
      pendingRequests := [];
      requireApproval := RequireApprovalOf(cfg);
      adminIds := AdminIdsOf(cfg);
    }

    /**
     * `createPatchRequest`: a pending request under the new id, approved
     * from the start exactly when no approval is required; no other entry
     * changes.
     */
    method CreatePatchRequest(userId: string, userName: string, info: PatchInfo, requestId: string, createdAt: string)
      returns (request: PatchRequest)
      requires Valid()
      modifies this
      ensures Valid()
      ensures request == PatchRequest(requestId, userId, userName, info.target, info.description, info.rawCommand,
                                      "pending", createdAt, !requireApproval, None, None, None)
      ensures pendingRequests == Put(old(pendingRequests), requestId, request)
      ensures Get(pendingRequests, requestId) == Some(request)
      ensures forall k :: k != requestId ==> Get(pendingRequests, k) == Get(old(pendingRequests), k)
    {
      request := PatchRequest(requestId, userId, userName, info.target, info.description, info.rawCommand,
                              "pending", createdAt, !requireApproval, None, None, None);
      PutKeys(pendingRequests, requestId, request);
      forall k ensures Get(Put(pendingRequests, requestId, request), k) == if k == requestId then Some(request) else Get(pendingRequests, k) {
        PutGet(pendingRequests, requestId, request, k);
      }
      pendingRequests := Put(pendingRequests, requestId, request);
    }

    /**
     * `approvePatch`: an unknown id is an error and changes nothing;
     * otherwise the request is approved by the approver, marked 'approved'
     * and carries the result of its submission.
     */
    method ApprovePatch(requestId: string, approverId: string, approvedAt: string, submission: ServiceResponse)
      returns (r: Result<PatchRequest, string>)
      requires Valid()
      modifies this
      ensures Valid()
      ensures Get(old(pendingRequests), requestId).None? ==>
        r == Err(NotFound) && pendingRequests == old(pendingRequests)
      ensures Get(old(pendingRequests), requestId).Some? ==>
        var before := Get(old(pendingRequests), requestId).value;
        && r == Ok(before.(approved := true, approvedBy := Some(approverId), approvedAt := Some(approvedAt),
                           status := "approved", executionResult := Some(submission)))
        && pendingRequests == Put(old(pendingRequests), requestId, r.value)
        && KeySet(pendingRequests) == KeySet(old(pendingRequests))
        && forall k :: k != requestId ==> Get(pendingRequests, k) == Get(old(pendingRequests), k)
    {
      var found := Get(pendingRequests, requestId);
      if found.None? {
        return Err(NotFound);
      }
      var request := found.value.(approved := true, approvedBy := Some(approverId), approvedAt := Some(approvedAt),
                                  status := "approved", executionResult := Some(submission));
      PutKeys(pendingRequests, requestId, request);
      forall k ensures Get(Put(pendingRequests, requestId, request), k) == if k == requestId then Some(request) else Get(pendingRequests, k) {
        PutGet(pendingRequests, requestId, request, k);
      }
      pendingRequests := Put(pendingRequests, requestId, request);
      r := Ok(request);
    }
  }

  // ---------------------------------------------------------------------
  // The reply to a new request

  const CreatedHeading: string := "🔧 **Patch Request Created**\n\n"

  function IdLine(id: string): string { "📋 ID: `" + id + "`\n" }
  function TargetLine(target: string): string { "🎯 Target: " + target + "\n" }
  function DescriptionLine(description: string): string { "📝 Description: " + description + "\n" }
  function RequesterLine(userName: string): string { "👤 Requested by: " + userName + "\n" }
  function TimeLine(localTime: string): string { "📅 Time: " + localTime + "\n\n" }

  /** The request's id, target, description, requester and local time, one line each. */
  function RequestLines(req: PatchRequest, localTime: string): string {
    IdLine(req.id) + TargetLine(req.target) + DescriptionLine(req.description)
    + RequesterLine(req.userName) + TimeLine(localTime)
  }

  /** A line that is shown only for a truthy value. */
  function OptionalLine(v: Option<string>, prefix: string): (r: string)
    ensures r == [] || r[|r| - 1] == '\n'
  {
    if Truthy(v) then prefix + v.value + "\n" else ""
  }

  function StatusText(d: ServiceData): string {
    if Truthy(d.status) then d.status.value else "Submitted"
  }

  /** The first line about the service's answer: its status, or its error. */
  function ServiceFirstLine(resp: ServiceResponse): (r: string)
    ensures r != [] && r[|r| - 1] == '\n'
  {
    match resp
    case Failed(error) => "❌ **Error**: " + error + "\n"
    case Submitted(d) => "✅ **Status**: " + StatusText(d) + "\n"
  }

  /** The optional message, estimated time and affected systems of a successful answer. */
  function ServiceMoreLines(resp: ServiceResponse): (r: string)
    ensures r == [] || r[|r| - 1] == '\n'
  {
    match resp
    case Failed(_) => ""
    case Submitted(d) =>
      var systems :=
        if d.affectedSystems.Some? && |d.affectedSystems.value| > 0
        then "🔗 Affected systems: " + Join(d.affectedSystems.value, ", ") + "\n"
        else "";
      var a := OptionalLine(d.message, "💬 ");
      var b := OptionalLine(d.estimatedTime, "⏱️ Estimated time: ");
      LastOfConcat(a, b);
      LastOfConcat(a + b, systems);
      a + b + systems
  }

  lemma LastOfConcat(a: string, b: string)
    requires a == [] || a[|a| - 1] == '\n'
    requires b == [] || b[|b| - 1] == '\n'
    ensures a + b == [] || (a + b)[|a + b| - 1] == '\n'
  {
  }

  const ApprovalIntro: string :=
    "\n⚠️ **Approval Required**\nWaiting for admin approval. Admins can approve with:\n"

  function ApproveCommand(id: string): string {
    "`/approve " + id + "`"
  }

  /**
   * `formatPatchResponse`: the heading and request lines, the service's
   * answer, and the `/approve` instruction last exactly when the request
   * still waits for approval (the manager's `requireApproval` is passed in).
   */
  function FormatPatchResponse(requireApproval: bool, req: PatchRequest, resp: ServiceResponse, localTime: string): (r: string)
    ensures StartsWith(r, CreatedHeading)
    ensures StartsWith(r, CreatedHeading + (IdLine(req.id) + TargetLine(req.target) + DescriptionLine(req.description)
                                            + RequesterLine(req.userName) + TimeLine(localTime)))
    ensures requireApproval && !req.approved ==> EndsWith(r, ApproveCommand(req.id))
    ensures !(requireApproval && !req.approved) ==> r[|r| - 1] == '\n'
    ensures Contains(r, ServiceFirstLine(resp))
  {
    var pending := requireApproval && !req.approved;
    var intro := if pending then ApprovalIntro else "";
    var command := if pending then ApproveCommand(req.id) else "";
    ReplyShape(CreatedHeading, RequestLines(req, localTime), ServiceFirstLine(resp), ServiceMoreLines(resp), intro, command);
    CreatedHeading + RequestLines(req, localTime) + (ServiceFirstLine(resp) + ServiceMoreLines(resp)) + (intro + command)
  }

  /** How a reply made of a heading, request lines, the service's lines and a tail shows each of them. */
  lemma ReplyShape(heading: string, lines: string, first: string, more: string, intro: string, command: string)
    requires first != [] && first[|first| - 1] == '\n'
    requires more == [] || more[|more| - 1] == '\n'
    ensures var r := heading + lines + (first + more) + (intro + command);
      && StartsWith(r, heading)
      && StartsWith(r, heading + lines)
      && Contains(r, first)
      && EndsWith(r, command)
      && (intro == [] && command == [] ==> r[|r| - 1] == '\n')
  {
    var head := heading + lines;
    var body := first + more;
    var r := head + body + (intro + command);
    assert r[..|heading|] == heading;
    assert r[..|head|] == head;
    assert r[|head|..|head| + |first|] == first;
    assert OccursAt(r, first, |head|);
    assert r[|r| - |command|..] == command;
    LastOfConcat(first, more);
  }

  // ---------------------------------------------------------------------
  // Conversation buffer and fallback replies

  datatype Role = User | Assistant

  datatype Turn = Turn(role: Role, message: string)

  const HistoryLimit: nat := 20

  /** The buffer kept for a user, empty when there is none yet. */
  function HistoryOf(es: seq<Entry<string, seq<Turn>>>, userId: string): seq<Turn> {
    if Get(es, userId).Some? then Get(es, userId).value else []
  }

  /** A user's buffer after one exchange: both turns pushed, only the last 20 kept. */
  function Exchanged(h: seq<Turn>, userMessage: string, botResponse: string): seq<Turn> {
    LastN(h + [Turn(User, userMessage), Turn(Assistant, botResponse)], HistoryLimit)
  }

  /**
   * The new exchange always ends the buffer, the buffer never exceeds 20
   * turns, and it is the tail of the old buffer followed by the exchange.
   */
  lemma ExchangedKeepsLastTwenty(h: seq<Turn>, u: string, b: string)
    ensures var r := Exchanged(h, u, b);
      && |r| <= HistoryLimit
      && r[|r| - 2..] == [Turn(User, u), Turn(Assistant, b)]
      && (|h| <= HistoryLimit - 2 ==> r == h + [Turn(User, u), Turn(Assistant, b)])
      && r[..|r| - 2] == h[|h| - (|r| - 2)..]
  {
    var full := h + [Turn(User, u), Turn(Assistant, b)];
    var r := Exchanged(h, u, b);
    assert r == full[|full| - |r|..];
    assert r[|r| - 2..] == full[|full| - 2..];
  }

  const PatchHint: string := "I can help you with patch requests! Use commands like '/patch system: description' to create a new patch request."
  const StatusHint: string := "To check patch status, use '/status PATCH-ID'. For general help, just ask!"
  const DefaultReplies: seq<string> := [
    "That's interesting! Tell me more.",
    "I see what you mean!",
    "Got it! How can I help you with that?",
    "Thanks for sharing. Anything else I can assist with?"
  ]

  /**
   * `getSmartFallbackResponse`: the patch hint for a message mentioning
   * 'patch' or 'update', else the status hint for one mentioning 'status',
   * else the default reply `pick` (the random index).
   */
  function SmartFallback(message: string, pick: nat): (r: string)
    requires pick < |DefaultReplies|
    ensures r == PatchHint <==> Contains(Lower(message), "patch") || Contains(Lower(message), "update")
    ensures r == StatusHint <==>
      !Contains(Lower(message), "patch") && !Contains(Lower(message), "update") && Contains(Lower(message), "status")
    ensures r != PatchHint && r != StatusHint ==> r == DefaultReplies[pick]
  {
    var lower := Lower(message);
    if Contains(lower, "patch") || Contains(lower, "update") then PatchHint
    else if Contains(lower, "status") then StatusHint
    else DefaultReplies[pick]
  }

  class AIManager {
    var conversationHistory: seq<Entry<string, seq<Turn>>>

    ghost predicate Valid()
      reads this
    {
      DistinctKeys(conversationHistory)
    }

    constructor ()
      ensures Valid() && conversationHistory == []
    {
      conversationHistory := [];
    }

    /** `getConversationContext`: the user's buffer, created empty on first use. */
    method GetConversationContext(userId: string) returns (h: seq<Turn>)
      requires Valid()
      modifies this
      ensures Valid()
      ensures h == HistoryOf(old(conversationHistory), userId)
      ensures conversationHistory == Put(old(conversationHistory), userId, h)
      ensures Get(old(conversationHistory), userId).Some? ==> conversationHistory == old(conversationHistory)
    {
      var found := Get(conversationHistory, userId);
      if found.Some? {
        h := found.value;
        PutSame(conversationHistory, userId, h);
      } else {
        h := [];
        PutKeys(conversationHistory, userId, h);
        conversationHistory := Put(conversationHistory, userId, h);
      }
    }

    /** `updateConversationHistory`: push the exchange onto the buffer, then cut it to the last 20 turns. */
    method UpdateConversationHistory(userId: string, userMessage: string, botResponse: string)
      requires Valid()
      modifies this
      ensures Valid()
      ensures conversationHistory ==
        Put(old(conversationHistory), userId, Exchanged(HistoryOf(old(conversationHistory), userId), userMessage, botResponse))
    {
      var h := GetConversationContext(userId);
      ghost var created := conversationHistory;
      ghost var before := h;
      h := h + [Turn(User, userMessage)];
      h := h + [Turn(Assistant, botResponse)];
      assert h == before + [Turn(User, userMessage), Turn(Assistant, botResponse)];
      if |h| > HistoryLimit {
        h := h[|h| - HistoryLimit..];
      }
      assert h == Exchanged(before, userMessage, botResponse);
      PutKeys(conversationHistory, userId, h);
      PutTwice(old(conversationHistory), userId, HistoryOf(old(conversationHistory), userId), h);
      conversationHistory := Put(conversationHistory, userId, h);
    }

    /**
     * `generateResponse` with the provider calls as inputs: the Gemini
     * reply if that call gave one, else the Claude reply, else the fallback.
     * Only a provider reply is recorded; the buffer is created either way.
     */
    method GenerateResponse(message: string, senderId: string, gemini: Option<string>, claude: Option<string>, pick: nat)
      returns (r: string)
      requires Valid() && pick < |DefaultReplies|
      modifies this
      ensures Valid()
      ensures r == (if gemini.Some? then gemini.value else if claude.Some? then claude.value else SmartFallback(message, pick))
      ensures gemini.Some? || claude.Some? ==>
        conversationHistory == Put(old(conversationHistory), senderId, Exchanged(HistoryOf(old(conversationHistory), senderId), message, r))
      ensures gemini.None? && claude.None? ==>
        conversationHistory == Put(old(conversationHistory), senderId, HistoryOf(old(conversationHistory), senderId))
    {
      var context := GetConversationContext(senderId);
      if gemini.Some? {
        r := gemini.value;
      } else if claude.Some? {
        r := claude.value;
      } else {
        return SmartFallback(message, pick);
      }
      ghost var created := conversationHistory;
      UpdateConversationHistory(senderId, message, r);
      assert HistoryOf(created, senderId) == context by {
        PutGet(old(conversationHistory), senderId, context, senderId);
      }
      PutTwice(old(conversationHistory), senderId, context, Exchanged(context, message, r));
    }
  }

  // ---------------------------------------------------------------------
  // Routing

  /** What the handler does with an incoming text. */
  datatype Action =
    | Ignore
    | CreatePatch(info: PatchInfo)
    | CheckStatus(requestId: string)
    | Approve(requestId: string)
    | RefuseApproval
    | PatchHelp
    | Chat(isPatchRelated: bool)

  /**
   * The handler's chain: empty, channel and own messages are ignored; then a
   * patch command, `/status `, `/approve ` (admins only), `/patch help`,
   * and otherwise a chat reply.
   */
  function Route(text: string, isChannel: bool, fromSelf: bool, senderIsAdmin: bool): (r: Action)
    ensures r == Ignore <==> text == [] || isChannel || fromSelf
    ensures r.CreatePatch? <==> r != Ignore && ParsePatchCommand(text).Some?
    ensures r.CreatePatch? ==> r.info == ParsePatchCommand(text).value
    ensures r.CheckStatus? <==>
      r != Ignore && ParsePatchCommand(text).None? && StartsWith(Lower(text), "/status ")
    ensures r.CheckStatus? ==> |text| >= 8 && r.requestId == Trim(text[8..])
    ensures r.Approve? || r.RefuseApproval? <==>
      && r != Ignore && ParsePatchCommand(text).None?
      && !StartsWith(Lower(text), "/status ") && StartsWith(Lower(text), "/approve ")
    ensures r.Approve? ==> senderIsAdmin && |text| >= 9 && r.requestId == Trim(text[9..])
    ensures r.RefuseApproval? ==> !senderIsAdmin
    ensures r.PatchHelp? <==>
      && r != Ignore && ParsePatchCommand(text).None?
      && !StartsWith(Lower(text), "/status ") && !StartsWith(Lower(text), "/approve ")
      && Lower(text) == "/patch help"
    ensures r.Chat? <==>
      && r != Ignore && ParsePatchCommand(text).None?
      && !StartsWith(Lower(text), "/status ") && !StartsWith(Lower(text), "/approve ")
      && Lower(text) != "/patch help"
    ensures r.Chat? ==>
      (r.isPatchRelated <==> Contains(Lower(text), "patch") || Contains(Lower(text), "update") || Contains(Lower(text), "deploy"))
  {
    if text == [] || isChannel || fromSelf then Ignore
    else if ParsePatchCommand(text).Some? then CreatePatch(ParsePatchCommand(text).value)
    else if StartsWith(Lower(text), "/status ") then CheckStatus(Trim(text[8..]))
    else if StartsWith(Lower(text), "/approve ") then
      (if senderIsAdmin then Approve(Trim(text[9..])) else RefuseApproval)
    else if Lower(text) == "/patch help" then PatchHelp
    else Chat(Contains(Lower(text), "patch") || Contains(Lower(text), "update") || Contains(Lower(text), "deploy"))
  }

  lemma LowerPrefix(lit: string, rest: string)
    requires IsLower(lit)
    ensures StartsWith(Lower(lit + rest), lit)
  {
    assert Lower(lit + rest)[..|lit|] == Lower(lit);
    LowerOfLower(lit);
  }

  /** `/status ID` asks for the status of the trimmed id. */
  lemma StatusRoute(id: string, isAdmin: bool)
    ensures Route("/status " + id, false, false, isAdmin) == CheckStatus(Trim(id))
  {
    var m := "/status " + id;
    assert m[..7] == "/status";
    SlashCommandIsNotPatch(m);
    LowerPrefix("/status ", id);
    assert m[8..] == id;
  }

  /** `/approve ID` approves the trimmed id for an admin and is refused for anyone else. */
  lemma ApproveRoute(id: string, isAdmin: bool)
    ensures Route("/approve " + id, false, false, isAdmin) == if isAdmin then Approve(Trim(id)) else RefuseApproval
  {
    var m := "/approve " + id;
    SlashCommandIsNotPatch(m);
    NotPrefixAt(m, "/status ", 1);
    LowerPrefix("/approve ", id);
    assert m[9..] == id;
  }

  /** `/patch help`, in any letter case, reaches the help text: it is not a patch command. */
  lemma PatchHelpRoute(text: string, isAdmin: bool)
    requires Lower(text) == "/patch help"
    ensures Route(text, false, false, isAdmin) == PatchHelp
  {
    PatchHelpIsNotPatchCommand(text);
    var l := Lower(text);
    assert l[..8] != "/status " by {
      assert l[..8][1] == l[1] == 'p';
    }
    assert l[..9] != "/approve " by {
      assert l[..9][1] == l[1] == 'p';
    }
  }

  lemma PatchHelpIsNotPatchCommand(text: string)
    requires Lower(text) == "/patch help"
    ensures ParsePatchCommand(text).None?
  {
    assert |text| == 11;
    assert Lower(text)[1] == LowerChar(text[1]) == 'p';
    NotPrefixAt(text, "/update", 1);
    assert Lower(text)[0] == LowerChar(text[0]) == '/';
    SlashPatchHelpFails(text);
    ParseInOrder(text);
  }

  lemma SlashPatchHelpFails(text: string)
    requires Lower(text) == "/patch help"
    ensures MatchSlashPatch(text).None?
  {
    var u := text[7..];
    assert LowerChar(text[6]) == Lower(text)[6] == ' ';
    LowerCharIs(text[6], ' ');
    assert text[6..] == " " + u;
    forall i | 0 <= i < |u| ensures !IsWs(u[i]) && u[i] != ':' {
      assert LowerChar(u[i]) == Lower(text)[7 + i];
    }
    WsRunOfBlank(u);
  }

  /** A text starting with `/` and then a letter other than `p`, `u` (in any case) is never a patch command. */
  lemma SlashCommandIsNotPatch(m: string)
    requires |m| >= 2 && m[0] == '/' && LowerChar(m[1]) != 'p' && LowerChar(m[1]) != 'u'
    ensures ParsePatchCommand(m).None?
  {
    if |m| >= 6 { NotPrefixAt(m, "/patch", 1); }
    if |m| >= 14 { NotPrefixAt(m, "patch request:", 0); }
    if |m| >= 12 { NotPrefixAt(m, "deploy patch", 0); }
    if |m| >= 7 { NotPrefixAt(m, "/update", 1); }
    ParseInOrder(m);
  }
}
