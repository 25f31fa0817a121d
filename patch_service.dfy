/**
 * The patch service simulator: risk grading and affected-system lookup,
 * the POST and GET handlers over the `patches` map, and the timer that moves
 * a patch along the status list one tick at a time.
 */
module PatchService {
  import opened Common
  import opened Strings
  import opened OrderedMaps

  const StatusProgression: seq<string> := ["received", "validating", "testing", "ready", "deploying", "deployed"]

  // ---------------------------------------------------------------------
  // Affected systems and risk

  datatype SystemGroup = SystemGroup(key: string, systems: seq<string>)

  const SystemGroups: seq<SystemGroup> := [
    SystemGroup("api", ["API Gateway", "Load Balancer", "Cache Layer"]),
    SystemGroup("database", ["Primary DB", "Read Replicas", "Backup System"]),
    SystemGroup("auth", ["Auth Service", "Session Store", "User Service"]),
    SystemGroup("frontend", ["CDN", "Static Assets", "Web Servers"]),
    SystemGroup("backend", ["Application Servers", "Message Queue", "Worker Nodes"])
  ]

  const DefaultSystems: seq<string> := ["Application Core", "Service Layer"]

  /** The systems of the first group whose key occurs in `lower`. */
  function FirstGroup(groups: seq<SystemGroup>, lower: string): (r: Option<seq<string>>)
    ensures r.None? <==> forall k :: 0 <= k < |groups| ==> !Contains(lower, groups[k].key)
    ensures r.Some? ==> exists k :: (0 <= k < |groups| && Contains(lower, groups[k].key)
      && r.value == groups[k].systems
      && forall j :: 0 <= j < k ==> !Contains(lower, groups[j].key))
  {
    if groups == [] then None
    else if Contains(lower, groups[0].key) then Some(groups[0].systems)
    else
      var r := FirstGroup(groups[1..], lower);
      assert r.Some? ==> exists k :: (1 <= k < |groups| && Contains(lower, groups[k].key)
        && r.value == groups[k].systems
        && forall j :: 0 <= j < k ==> !Contains(lower, groups[j].key));
      r
  }

  /**
   * `generateAffectedSystems`: the list of the first key, in the order api,
   * database, auth, frontend, backend, found in the lower-cased target;
   * otherwise the two default systems.
   */
  function GenerateAffectedSystems(target: string): (r: seq<string>)
    ensures (forall k :: 0 <= k < |SystemGroups| ==> !Contains(Lower(target), SystemGroups[k].key)) ==> r == DefaultSystems
    ensures (exists k :: 0 <= k < |SystemGroups| && Contains(Lower(target), SystemGroups[k].key)) ==>
      exists k :: (0 <= k < |SystemGroups| && Contains(Lower(target), SystemGroups[k].key)
        && r == SystemGroups[k].systems
        && forall j :: 0 <= j < k ==> !Contains(Lower(target), SystemGroups[j].key))
  {
    match FirstGroup(SystemGroups, Lower(target))
    case None => DefaultSystems
    case Some(systems) => systems
  }

  const HighRiskKeywords: seq<string> := ["security", "auth", "database", "payment", "critical"]
  const MediumRiskKeywords: seq<string> := ["api", "cache", "performance", "update"]

  datatype Risk = High | Medium | Low

  /** `calculateRisk`: high keywords take precedence over medium ones, on `target + " " + description` lower-cased. */
  function CalculateRisk(target: string, description: string): (r: Risk)
    ensures r == High <==> ContainsAny(Lower(target + " " + description), HighRiskKeywords)
    ensures r == Medium <==>
      !ContainsAny(Lower(target + " " + description), HighRiskKeywords)
      && ContainsAny(Lower(target + " " + description), MediumRiskKeywords)
    ensures r == Low <==>
      !ContainsAny(Lower(target + " " + description), HighRiskKeywords)
      && !ContainsAny(Lower(target + " " + description), MediumRiskKeywords)
  {
    var combined := Lower(target + " " + description);
    if ContainsAny(combined, HighRiskKeywords) then High
    else if ContainsAny(combined, MediumRiskKeywords) then Medium
    else Low
  }

  /** Naming a security fix is always high risk, whatever else the request says. */
  lemma SecurityIsHighRisk(target: string, description: string)
    requires Contains(Lower(target), "security")
    ensures CalculateRisk(target, description) == High
  {
    var lt := Lower(target);
    var i :| 0 <= i <= |lt| - 8 && OccursAt(lt, "security", i);
    var combined := Lower(target + " " + description);
    assert combined[..|target|] == lt;
    assert combined[i..i + 8] == lt[i..i + 8];
    assert OccursAt(combined, HighRiskKeywords[0], i);
  }

  // ---------------------------------------------------------------------
  // Progress of one patch

  /** The parts of a patch that the timer changes, with the timer's own index. */
  datatype Progress = Progress(status: string, progress: nat, logs: seq<string>, completedAt: Option<string>, statusIndex: nat)

  /** The logs a status change adds after its "Status changed to" line. */
  function StatusLogs(status: string): seq<string> {
    if status == "validating" then ["Running dependency checks..."]
    else if status == "testing" then ["Executing test suite...", "All tests passed ✓"]
    else if status == "ready" then ["Patch validated and ready for deployment"]
    else if status == "deploying" then ["Rolling out to production servers..."]
    else if status == "deployed" then ["Patch successfully deployed!"]
    else []
  }

  /**
   * One timer tick: past the end of the list the interval is cleared and
   * nothing changes; otherwise the next status, its progress, its logs, and
   * the completion time on reaching 'deployed'.
   */
  function Tick(p: Progress, now: string): Progress {
    if p.statusIndex >= |StatusProgression| then p
    else
      var status := StatusProgression[p.statusIndex];
      Progress(
        status,
        Min(100, (p.statusIndex + 1) * 20),
        p.logs + ["Status changed to: " + status] + StatusLogs(status),
        if status == "deployed" then Some(now) else p.completedAt,
        p.statusIndex + 1)
  }

  /** The ticks for the given sequence of clock readings. */
  function Run(p: Progress, nows: seq<string>): Progress
    decreases |nows|
  {
    if nows == [] then p else Run(Tick(p, nows[0]), nows[1..])
  }

  /** The state the POST handler leaves a patch in, before any tick. */
  function Received(requestedBy: string): Progress {
    Progress("validating", 10, ["Patch request received from " + requestedBy], None, 1)
  }

  /** What holds of a patch between ticks. */
  predicate Consistent(p: Progress) {
    && 1 <= p.statusIndex <= |StatusProgression|
    && p.status == (if p.statusIndex == 1 then "validating" else StatusProgression[p.statusIndex - 1])
    && p.progress == (if p.statusIndex == 1 then 10 else Min(100, p.statusIndex * 20))
    && (p.completedAt.Some? <==> p.status == "deployed")
    && |p.logs| >= 1
  }

  /**
   * A tick keeps a patch consistent, never lowers its progress nor takes it
   * over 100, only appends to its logs (at least one line while it still
   * moves), and sets the completion time only on reaching 'deployed'.
   */
  lemma TickKeepsConsistent(p: Progress, now: string)
    requires Consistent(p)
    ensures var q := Tick(p, now);
      && Consistent(q)
      && p.progress <= q.progress <= 100
      && q.logs[..|p.logs|] == p.logs
      && (p.statusIndex < |StatusProgression| ==> |q.logs| > |p.logs|)
      && (q.completedAt != p.completedAt ==> q.status == "deployed" && q.completedAt == Some(now))
  {
  }

  /** Every run of ticks keeps the same promises as a single tick. */
  lemma {:induction false} RunKeepsConsistent(p: Progress, nows: seq<string>)
    requires Consistent(p)
    ensures var q := Run(p, nows);
      && Consistent(q)
      && p.progress <= q.progress <= 100
      && |q.logs| >= |p.logs| && q.logs[..|p.logs|] == p.logs
    decreases |nows|
  {
    if nows != [] {
      var p1 := Tick(p, nows[0]);
      TickKeepsConsistent(p, nows[0]);
      RunKeepsConsistent(p1, nows[1..]);
      var q := Run(p1, nows[1..]);
      assert q.logs[..|p.logs|] == q.logs[..|p1.logs|][..|p.logs|];
    }
  }

  /** Five ticks after POST a patch is deployed at 100 and every later tick leaves it so. */
  lemma FiveTicksDeploy(requestedBy: string, nows: seq<string>, later: string)
    requires |nows| == 5
    ensures var q := Run(Received(requestedBy), nows);
      && q.status == "deployed" && q.progress == 100 && q.completedAt == Some(nows[4])
      && Tick(q, later) == q
  {
    var p0 := Received(requestedBy);
    var p1 := Tick(p0, nows[0]);
    var p2 := Tick(p1, nows[1]);
    var p3 := Tick(p2, nows[2]);
    var p4 := Tick(p3, nows[3]);
    var p5 := Tick(p4, nows[4]);
    assert nows[1..][1..][1..][1..][1..] == [];
    assert Run(p0, nows) == Run(p1, nows[1..]) == Run(p2, nows[1..][1..]);
    assert Run(p2, nows[1..][1..]) == Run(p3, nows[1..][1..][1..]) == Run(p4, nows[1..][1..][1..][1..]);
    assert Run(p4, nows[1..][1..][1..][1..]) == p5;
  }

  // ---------------------------------------------------------------------
  // The handlers

  /** The request body of POST `/api/patches`. */
  datatype PatchBody = PatchBody(requestId: string, target: string, description: string, requestedBy: string, autoApproved: bool)

  class Patch {
    const requestId: string
    const target: string
    const description: string
    const requestedBy: string
    const autoApproved: bool
    const createdAt: string
    const affectedSystems: seq<string>
    const estimatedTime: string
    const risk: Risk
    var status: string
    var progress: nat
    var logs: seq<string>
    var completedAt: Option<string>
    /** `currentStatusIndex` of the patch's own interval. */
    var statusIndex: nat

    function State(): Progress
      reads this
    {
      Progress(status, progress, logs, completedAt, statusIndex)
    }

    /** The POST handler's record: 'validating', 10%, one log line, graded and looked up from the body. */
    constructor (body: PatchBody, now: string)
      ensures requestId == body.requestId && target == body.target && description == body.description
      ensures requestedBy == body.requestedBy && autoApproved == body.autoApproved && createdAt == now
      ensures affectedSystems == GenerateAffectedSystems(body.target) && estimatedTime == "10-15 minutes"
      ensures risk == CalculateRisk(body.target, body.description)
      ensures State() == Received(body.requestedBy) && Consistent(State())
    {
      requestId, target, description := body.requestId, body.target, body.description;
      requestedBy, autoApproved, createdAt := body.requestedBy, body.autoApproved, now;
      affectedSystems := GenerateAffectedSystems(body.target);
      estimatedTime := "10-15 minutes";
      risk := CalculateRisk(body.target, body.description);
      status, progress := "validating", 10;
      logs := ["Patch request received from " + body.requestedBy];
      completedAt, statusIndex := None, 1;
    }

    /** One run of the interval callback of `simulatePatchProgress`. */
    method OnTick(now: string)
      modifies this
      ensures State() == Tick(old(State()), now)
    {
      if statusIndex >= |StatusProgression| {
        return;
      }
      status := StatusProgression[statusIndex];
      progress := Min(100, (statusIndex + 1) * 20);
      logs := logs + ["Status changed to: " + status];
      if status == "validating" {
        logs := logs + ["Running dependency checks..."];
      } else if status == "testing" {
        logs := logs + ["Executing test suite..."];
        logs := logs + ["All tests passed ✓"];
      } else if status == "ready" {
        logs := logs + ["Patch validated and ready for deployment"];
      } else if status == "deploying" {
        logs := logs + ["Rolling out to production servers..."];
      } else if status == "deployed" {
        logs := logs + ["Patch successfully deployed!"];
        completedAt := Some(now);
      }
      statusIndex := statusIndex + 1;
    }
  }

  /** The POST reply. */
  datatype PostReply = PostReply(requestId: string, status: string, message: string,
                                 estimatedTime: string, affectedSystems: seq<string>, risk: Risk)

  /** The GET reply: the patch's fields, `currentStatus`, and its last five log lines. */
  datatype PatchView = PatchView(
    requestId: string, target: string, description: string, requestedBy: string,
    status: string, currentStatus: string, autoApproved: bool, createdAt: string,
    progress: nat, logs: seq<string>, affectedSystems: seq<string>, estimatedTime: string,
    risk: Risk, completedAt: Option<string>)

  datatype HttpError = HttpError(code: nat, error: string)

  class PatchServer {
    var patches: seq<Entry<string, Patch>>

    ghost predicate Valid()
      reads this
    {
      DistinctKeys(patches)
    }

    constructor ()
      ensures Valid() && patches == []
    {
      patches := [];
    }

    /** POST `/api/patches`: a fresh patch stored under its request id (its timer is started by the caller). */
    method Post(body: PatchBody, now: string) returns (reply: PostReply, patch: Patch)
      requires Valid()
      modifies this
      ensures Valid()
      ensures fresh(patch) && patch.State() == Received(body.requestedBy)
      ensures patches == Put(old(patches), body.requestId, patch)
      ensures reply == PostReply(body.requestId, "validating", "Patch request received and being validated",
                                 "10-15 minutes", GenerateAffectedSystems(body.target),
                                 CalculateRisk(body.target, body.description))
    {
      patch := new Patch(body, now);
      PutKeys(patches, body.requestId, patch);
      patches := Put(patches, body.requestId, patch);
      reply := PostReply(body.requestId, patch.status, "Patch request received and being validated",
                         patch.estimatedTime, patch.affectedSystems, patch.risk);
    }

    /** GET `/api/patches/:requestId`: 404 for an unknown id, else the patch with at most its last five log lines. */
    method Fetch(requestId: string) returns (r: Result<PatchView, HttpError>)
      ensures Get(patches, requestId).None? ==> r == Err(HttpError(404, "Patch request not found"))
      ensures Get(patches, requestId).Some? ==>
        var p := Get(patches, requestId).value;
        && r.Ok?
        && r.value.currentStatus == p.status == r.value.status
        && r.value.logs == LastN(p.logs, 5)
        && |r.value.logs| <= 5
        && r.value.progress == p.progress && r.value.completedAt == p.completedAt
        && r.value.requestId == p.requestId && r.value.risk == p.risk
    {
      var found := Get(patches, requestId);
      if found.None? {
        return Err(HttpError(404, "Patch request not found"));
      }
      var p := found.value;
      r := Ok(PatchView(p.requestId, p.target, p.description, p.requestedBy, p.status, p.status,
                        p.autoApproved, p.createdAt, p.progress, LastN(p.logs, 5), p.affectedSystems,
                        p.estimatedTime, p.risk, p.completedAt));
    }
  }
}
