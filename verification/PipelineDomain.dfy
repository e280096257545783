/** The Creator pipeline: stages, statuses, the aggregate, and the pure decisions about it. */
module PipelineDomain {
  import opened Wrappers

  type UUID = nat
  type Time = int

  const NIL: UUID := 0

  datatype Stage = Research | Script | Review | Publish | Complete

  datatype Status = Created | Active | AwaitingApproval | ApprovedStatus | Done | Failed

  datatype Pipeline = Pipeline(
    id: UUID, workspace: UUID, stage: Stage, status: Status, publication: Option<UUID>,
    research: string, script: string, review: string, published: string, failure: string,
    retryCount: nat, key: string, approvedBy: string, approvedAt: Option<Time>,
    updatedAt: Time, version: int)
  {
    /** Whether a human approval is recorded and still stands as the status. */
    predicate Approved() {
      status == ApprovedStatus && HumanApproved()
    }

    predicate HumanApproved() {
      approvedBy != "" && approvedAt.Some?
    }
  }

  datatype PipelineError =
    | InvalidInput | NotFound | WorkspaceMismatch | InvalidTransition | TerminalState | InvalidStage
    | ApprovalRequired | UnauthorizedActor | ConsecutiveAdvance | RateLimited | ConcurrentUpdate
    | StageFailed | Database

  function Rank(s: Stage): nat {
    match s
    case Research => 0
    case Script => 1
    case Review => 2
    case Publish => 3
    case Complete => 4
  }

  predicate IsAfter(a: Stage, b: Stage) {
    Rank(a) > Rank(b)
  }

  function NextStage(s: Stage): Result<Stage, PipelineError> {
    match s
    case Research => Success(Script)
    case Script => Success(Review)
    case Review => Success(Publish)
    case Publish => Success(Complete)
    case Complete => Failure(TerminalState)
  }

  /** The gate every worker-driven advance passes: the error, if it is refused. */
  function CanAdvance(to: Stage, from: Stage, status: Status): Option<PipelineError> {
    if status == Done || from == Complete then Some(TerminalState)
    else if status == Failed then Some(TerminalState)
    else
      match from
      case Research => if to != Script then Some(InvalidTransition) else None
      case Script => if to != Review then Some(InvalidTransition) else None
      case Review =>
        if to != Publish then Some(InvalidTransition)
        else if status != ApprovedStatus then Some(ApprovalRequired)
        else None
      case Publish => if to != Complete then Some(InvalidTransition) else None
  }

  /** The gate admits exactly the next stage of a live pipeline, and publishing only once approved. */
  lemma CanAdvanceIff(to: Stage, from: Stage, status: Status)
    ensures CanAdvance(to, from, status) == None <==>
              && NextStage(from) == Success(to) && status !in {Done, Failed}
              && (to == Publish ==> status == ApprovedStatus)
    ensures CanAdvance(to, from, status) == None ==> IsAfter(to, from) && Rank(to) == Rank(from) + 1
  {
  }

  /** The events a worker consumes, by name. */
  function EventKind(name: string): Option<Stage> {
    match Trim(name)
    case "pipeline.research" => Some(Research)
    case "pipeline.script" => Some(Script)
    case "pipeline.review" => Some(Review)
    case "pipeline.review_ready" => Some(Review)
    case "pipeline.review_approved" => Some(Review)
    case "pipeline.publish" => Some(Publish)
    case "pipeline.complete" => Some(Complete)
    case _ => None
  }

  /** The check constraint pipelines_stage_status_valid. */
  predicate StageStatusValid(stage: Stage, status: Status) {
    || status == Failed
    || (stage == Research && status == Created)
    || (stage in {Script, Publish} && status == Active)
    || (stage == Review && status in {AwaitingApproval, ApprovedStatus})
    || (stage == Complete && status == Done)
  }

  // ---------------------------------------------------------------- text

  predicate IsSpace(c: char) {
    c in " \t\n\r\U{000B}\U{000C}\U{0085}\U{00A0}\U{1680}\U{2028}\U{2029}\U{202F}\U{205F}\U{3000}" || '\U{2000}' <= c <= '\U{200A}'
  }

  function Trim(s: string): string {
    if s == "" then ""
    else if IsSpace(s[0]) then Trim(s[1..])
    else if IsSpace(s[|s| - 1]) then Trim(s[..|s| - 1])
    else s
  }

  /** Trimming takes spaces off both ends, all of them, and nothing else. */
  lemma {:induction false} TrimMeans(s: string) returns (i: nat, j: nat)
    ensures i <= j <= |s| && Trim(s) == s[i..j]
    ensures (forall k | 0 <= k < i || j <= k < |s| :: IsSpace(s[k]))
    ensures Trim(s) != "" ==> !IsSpace(Trim(s)[0]) && !IsSpace(Trim(s)[|Trim(s)| - 1])
    decreases |s|
  {
    hide IsSpace;
    i, j := 0, |s|;
    if s != "" && IsSpace(s[0]) {
      i, j := TrimMeans(s[1..]);
      assert s[1..][i..j] == s[i + 1..j + 1];
      assert forall k | 0 < k < i + 1 || j + 1 <= k < |s| :: s[k] == s[1..][k - 1];
      i, j := i + 1, j + 1;
    } else if s != "" && IsSpace(s[|s| - 1]) {
      i, j := TrimMeans(s[..|s| - 1]);
      assert s[..|s| - 1][i..j] == s[i..j];
      assert forall k | 0 <= k < i || j <= k < |s| - 1 :: s[k] == s[..|s| - 1][k];
    }
  }

  /** A stored reference or reason is the trimmed text, cut at 512; a reason is never empty. */
  lemma StoredTextIsBounded(s: string)
    ensures |BoundReference(s)| <= 512 && BoundReference(s) <= Trim(s) && (|Trim(s)| <= 512 ==> BoundReference(s) == Trim(s))
    ensures 0 < |FailureReason(s)| <= 512 && FailureReason(s) == if Trim(s) == "" then "stage_failed" else BoundReference(s)
    ensures |Trim(s)| > 512 ==> |BoundReference(s)| == 512
  {
    hide Trim;
  }

  function Clip(s: string): string {
    if |s| > 512 then s[..512] else s
  }

  function BoundReference(s: string): string {
    Clip(Trim(s))
  }

  function FailureReason(message: string): string {
    if Trim(message) == "" then "stage_failed" else Clip(Trim(message))
  }

  // ---------------------------------------------------------------- stage work

  /** What the capability ports answer during one operation; None is an error. */
  datatype Ports = Ports(
    research: Option<string>, script: Option<string>, review: Option<bool>, publish: Option<string>,
    prepare: Option<UUID>, approve: bool, release: Option<string>, message: string)

  /** The pipeline with the references the work filled in, and whether the work succeeded. */
  function StageWork(p: Pipeline, to: Stage, io: Ports, port: bool): (Pipeline, bool) {
    match to
    case Script =>
      if io.research.None? then (p, false)
      else
        var q := p.(research := BoundReference(io.research.value));
        if io.script.None? then (q, false) else (q.(script := BoundReference(io.script.value)), true)
    case Review => if io.review == Some(true) then (p.(review := "review-ok"), true) else (p, false)
    case Publish => (p, port || io.publish.Some?)
    case Complete => (p, true)
    case Research => (p, false)
  }

  function EnteredStatus(to: Stage, before: Status): Status {
    match to
    case Script => Active
    case Publish => Active
    case Review => AwaitingApproval
    case Complete => Done
    case Research => before
  }

  function FailedAt(p: Pipeline, message: string, now: Time): Pipeline {
    p.(status := Failed, failure := FailureReason(message), updatedAt := now)
  }

  /** What doAdvance writes back: the pipeline at its next stage, the pipeline failed, or nothing. */
  datatype Move = Entered(p: Pipeline) | Broken(p: Pipeline) | Refused

  function Moved(p: Pipeline, to: Stage, io: Ports, port: bool, now: Time): Move {
    var (q, ok) := StageWork(p, to, io, port);
    if !ok then Broken(FailedAt(q, io.message, now))
    else if to == Review && port && io.prepare.None? then Broken(FailedAt(q, io.message, now))
    else
      var q := if to == Review && port then q.(publication := io.prepare) else q;
      if to == Publish && port && (q.publication.None? || !q.Approved()) then Refused
      else if to == Publish && port && io.release.None? then Broken(FailedAt(q, io.message, now))
      else
        var q := if to == Publish && port then q.(published := io.release.value) else q;
        Entered(q.(stage := to, status := EnteredStatus(to, q.status), failure := "", updatedAt := now))
  }

  /** The ports an advance to each stage needs, and the answers it needs from them. */
  predicate WorkDone(p: Pipeline, to: Stage, io: Ports, port: bool) {
    match to
    case Research => false
    case Script => io.research.Some? && io.script.Some?
    case Review => io.review == Some(true) && (port ==> io.prepare.Some?)
    case Publish => if port then Releasable(p) && io.release.Some? else io.publish.Some?
    case Complete => true
  }

  predicate Releasable(p: Pipeline) {
    p.publication.Some? && p.status == ApprovedStatus && p.approvedBy != "" && p.approvedAt.Some?
  }

  /** The pipeline as it enters a stage: what that stage's ports answered, and nothing else new. */
  predicate Worked(p: Pipeline, q: Pipeline, to: Stage, io: Ports, port: bool)
    requires WorkDone(p, to, io, port)
  {
    var entered := p.(stage := to, failure := "", version := q.version, updatedAt := q.updatedAt);
    q == match to
         case Research => p
         case Script => entered.(status := Active, research := BoundReference(io.research.value), script := BoundReference(io.script.value))
         case Review => entered.(status := AwaitingApproval, review := "review-ok", publication := if port then io.prepare else p.publication)
         case Publish => entered.(status := Active, published := if port then io.release.value else p.published)
         case Complete => entered.(status := Done)
  }

  /** The pipeline failed where it was, for the reason given; references gathered on the way may stay. */
  predicate FailedWhereItWas(p: Pipeline, q: Pipeline, message: string) {
    q.(research := p.research, script := p.script, review := p.review, version := p.version, updatedAt := p.updatedAt)
    == p.(status := Failed, failure := FailureReason(message))
  }

  /** An advance enters the stage exactly if its ports answered as needed; refuses exactly an unreleasable publication; else fails. */
  lemma MovedMeans(p: Pipeline, to: Stage, io: Ports, port: bool, now: Time)
    ensures var m := Moved(p, to, io, port, now);
            && (m.Entered? <==> WorkDone(p, to, io, port))
            && (m.Entered? ==> Worked(p, m.p, to, io, port))
            && (m.Refused? <==> to == Publish && port && !Releasable(p))
            && (m.Broken? ==> FailedWhereItWas(p, m.p, io.message))
  {
    hide BoundReference, FailureReason;
  }

  /** Retry's reset: the state the failed stage is re-entered from. */
  function ResetStatus(p: Pipeline): Status {
    match p.stage
    case Review => if p.HumanApproved() then ApprovedStatus else AwaitingApproval
    case Research => Created
    case _ => Active
  }

  function Reset(p: Pipeline, now: Time): Pipeline {
    p.(status := ResetStatus(p), retryCount := p.retryCount + 1, failure := "", updatedAt := now)
  }

  function ApprovedRow(p: Pipeline, actor: string, now: Time): Pipeline {
    p.(status := ApprovedStatus, approvedBy := actor, approvedAt := Some(now), failure := "", updatedAt := now)
  }

  // ---------------------------------------------------------------- the table

  type Rows = map<UUID, Pipeline>

  function KeyHolders(rows: Rows, ws: UUID, key: string): set<UUID> {
    set x | x in rows && rows[x].workspace == ws && rows[x].key == key
  }

  /** uq_pipelines_workspace_idempotency admits p under its key. */
  predicate KeyFree(rows: Rows, p: Pipeline) {
    p.key == "" || KeyHolders(rows, p.workspace, p.key) <= {p.id}
  }

  function Held(p: Pipeline): int {
    if p.version < 1 then 1 else p.version
  }

  /** The compare-and-swap on the row's version, with the table's constraints. */
  function Update(rows: Rows, p: Pipeline, now: Time): (Rows, Result<Pipeline, PipelineError>) {
    if p.id !in rows || rows[p.id].workspace != p.workspace || rows[p.id].version != Held(p) then (rows, Failure(ConcurrentUpdate))
    else if !StageStatusValid(p.stage, p.status) || !KeyFree(rows, p) then (rows, Failure(Database))
    else
      var q := p.(version := Held(p) + 1, updatedAt := now);
      (rows[p.id := q], Success(q))
  }

  function New(id: UUID, ws: UUID, key: string, now: Time): Pipeline {
    Pipeline(id, ws, Research, Created, None, "", "", "", "", "", 0, key, "", None, now, 1)
  }

  function Create(rows: Rows, p: Pipeline): (Rows, Result<Pipeline, PipelineError>) {
    if p.id in rows || !KeyFree(rows, p) then (rows, Failure(Database)) else (rows[p.id := p], Success(p))
  }

  function Get(rows: Rows, ws: UUID, id: UUID): Result<Pipeline, PipelineError> {
    if ws == NIL || id == NIL then Failure(InvalidInput)
    else if id in rows && rows[id].workspace == ws then Success(rows[id])
    else Failure(NotFound)
  }
}
