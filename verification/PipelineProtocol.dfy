/**
 * Every interleaving of advances, approvals and retries. An operation reads its pipeline, works on
 * that copy, and writes it back under the version it read; between any two of its transactions the
 * others run. A redelivered event is one more advance, from whatever stage it names. A concurrent
 * deletion may null a pipeline's publication at any time, without a version.
 */
module PipelineProtocol {
  import opened Wrappers
  import opened PipelineDomain

  datatype Flight =
    | Idle
    | Advancing(p: Pipeline, to: Stage)       // doAdvance: the copy to work on, not yet written
    | Approving(p: Pipeline, actor: string)
    | Retrying(p: Pipeline)                   // the failed copy, before the reset is written

  datatype System = System(rows: Rows, flights: map<nat, Flight>)

  datatype Action =
    | CreateNew(id: UUID, ws: UUID, key: string, now: Time)
    | BeginAdvance(q: nat, ws: UUID, id: UUID, start: Stage, to: Stage)
    | CommitAdvance(q: nat, io: Ports, now: Time)
    | BeginApprove(q: nat, ws: UUID, id: UUID, actor: string)
    | CommitApprove(q: nat, io: Ports, now: Time)
    | BeginRetry(q: nat, ws: UUID, id: UUID, actor: string)
    | CommitReset(q: nat, now: Time)
    | DropPublication(id: UUID)
    | Abort(q: nat)

  const START := System(map[], map[])

  function FlightOf(s: System, q: nat): Flight {
    if q in s.flights then s.flights[q] else Idle
  }

  /** The part of Advance before the stage work: what it will work on, or why it stops. */
  function AdvanceStart(rows: Rows, ws: UUID, id: UUID, start: Stage, to: Stage): Result<Pipeline, PipelineError> {
    if ws == NIL then Failure(WorkspaceMismatch)
    else
      var g := Get(rows, ws, id);
      if g.Failure? then g
      else if g.value.stage != start then Failure(ConsecutiveAdvance)
      else
        var refusal := CanAdvance(to, g.value.stage, g.value.status);
        if refusal.Some? then Failure(refusal.value) else g
  }

  /** The part of Approve before the write. An approval already recorded only republishes. */
  function ApproveStart(rows: Rows, ws: UUID, id: UUID, actor: string, port: bool): Result<Pipeline, PipelineError> {
    if Trim(actor) == "" then Failure(UnauthorizedActor)
    else
      var g := Get(rows, ws, id);
      if g.Failure? then g
      else if g.value.stage != Review then Failure(ApprovalRequired)
      else if g.value.Approved() then g
      else if g.value.status != AwaitingApproval then Failure(ApprovalRequired)
      else if port && g.value.publication.None? then Failure(ApprovalRequired)
      else g
  }

  function RetryStart(rows: Rows, ws: UUID, id: UUID, actor: string): Result<Pipeline, PipelineError> {
    if Trim(actor) == "" then Failure(UnauthorizedActor)
    else
      var g := Get(rows, ws, id);
      if g.Failure? then g
      else if g.value.status != Failed then Failure(InvalidTransition)
      else if g.value.stage == Complete then Failure(TerminalState)
      else g
  }

  /** One transaction, or one local transition, of one operation; what is not enabled changes nothing. */
  function Step(s: System, port: bool, a: Action): System {
    match a
    case CreateNew(id, ws, key, now) =>
      if ws == NIL || |Trim(key)| > 128 then s
      else s.(rows := Create(s.rows, New(id, ws, Trim(key), now)).0)
    case BeginAdvance(q, ws, id, start, to) =>
      var r := AdvanceStart(s.rows, ws, id, start, to);
      if FlightOf(s, q) != Idle || r.Failure? then s
      else s.(flights := s.flights[q := Advancing(r.value, to)])
    case CommitAdvance(q, io, now) =>
      if !FlightOf(s, q).Advancing? then s
      else
        var m := Moved(FlightOf(s, q).p, FlightOf(s, q).to, io, port, now);
        System(if m.Refused? then s.rows else Update(s.rows, m.p, now).0, s.flights[q := Idle])
    case BeginApprove(q, ws, id, actor) =>
      var r := ApproveStart(s.rows, ws, id, actor, port);
      if FlightOf(s, q) != Idle || r.Failure? || r.value.Approved() then s
      else s.(flights := s.flights[q := Approving(r.value, Trim(actor))])
    case CommitApprove(q, io, now) =>
      if !FlightOf(s, q).Approving? then s
      else
        var f := FlightOf(s, q);
        System(if port && !io.approve then s.rows else Update(s.rows, ApprovedRow(f.p, f.actor, now), now).0, s.flights[q := Idle])
    case BeginRetry(q, ws, id, actor) =>
      var r := RetryStart(s.rows, ws, id, actor);
      if FlightOf(s, q) != Idle || r.Failure? then s
      else s.(flights := s.flights[q := Retrying(r.value)])
    case CommitReset(q, now) =>
      if !FlightOf(s, q).Retrying? then s
      else
        var (rows, r) := Update(s.rows, Reset(FlightOf(s, q).p, now), now);
        if r.Failure? || NextStage(r.value.stage).Failure? then System(rows, s.flights[q := Idle])
        else System(rows, s.flights[q := Advancing(r.value, NextStage(r.value.stage).value)])
    case DropPublication(id) =>
      if id !in s.rows then s else s.(rows := s.rows[id := s.rows[id].(publication := None)])
    case Abort(q) =>
      s.(flights := s.flights[q := Idle])
  }

  function Run(s: System, port: bool, acts: seq<Action>): System {
    if acts == [] then s else Step(Run(s, port, acts[..|acts| - 1]), port, acts[|acts| - 1])
  }

  /** The state before the i-th action of an interleaving from the empty table. */
  function At(port: bool, acts: seq<Action>, i: nat): System
    requires i <= |acts|
  {
    Run(START, port, acts[..i])
  }

  // ---------------------------------------------------------------- the invariant

  /** What holds of every stored pipeline and of every copy an operation read. */
  predicate RowOk(p: Pipeline) {
    && p.version >= 1
    && StageStatusValid(p.stage, p.status)
    && (p.approvedBy != "" <==> p.approvedAt.Some?)
    && (p.status == Failed ==> p.stage in {Research, Script, Review})
    && (p.approvedBy != "" <==> p.stage in {Publish, Complete} || (p.stage == Review && p.status != AwaitingApproval))
  }

  /** Equal but for the publication, which a deletion may have nulled meanwhile. */
  predicate Same(p: Pipeline, r: Pipeline) {
    p.(publication := None) == r.(publication := None)
  }

  /** An operation's copy is the row, or the row has moved on to a later version. */
  predicate CopyOk(rows: Rows, p: Pipeline) {
    && p.id in rows
    && RowOk(p)
    && p.version <= rows[p.id].version
    && p.workspace == rows[p.id].workspace
    && (p.version == rows[p.id].version ==> Same(p, rows[p.id]))
  }

  /** In particular, whoever is about to publish holds an approved copy. */
  predicate FlightOk(rows: Rows, f: Flight) {
    match f
    case Idle => true
    case Advancing(p, to) => CopyOk(rows, p) && CanAdvance(to, p.stage, p.status) == None
    case Approving(p, actor) => CopyOk(rows, p) && p.stage == Review && p.status == AwaitingApproval && actor != ""
    case Retrying(p) => CopyOk(rows, p) && p.status == Failed
  }

  predicate KeysOk(rows: Rows) {
    forall x, y | x in rows && y in rows && rows[x].key != "" && rows[x].key == rows[y].key && rows[x].workspace == rows[y].workspace :: x == y
  }

  predicate Inv(s: System) {
    && (forall x | x in s.rows :: s.rows[x].id == x && RowOk(s.rows[x]))
    && KeysOk(s.rows)
    && (forall q | q in s.flights :: FlightOk(s.rows, s.flights[q]))
  }

  /** What one step may do to one row. */
  predicate RowMoves(r: Pipeline, r': Pipeline) {
    || Same(r, r')
    || (&& r'.version == r.version + 1
        && r'.id == r.id && r'.workspace == r.workspace && r'.key == r.key
        && (r'.stage == r.stage || NextStage(r.stage) == Success(r'.stage))
        && (r.approvedBy != "" ==> r'.approvedBy == r.approvedBy && r'.approvedAt == r.approvedAt)
        && r.status != Done)
  }
}
