/**
 * Dispatchers, workers, recovery and human cancellation over one board. Each action is one atomic
 * transaction or one local transition of one process, so a sequence of actions is an interleaving.
 * The broker is a set of messages that never loses one: any message may be delivered any number of
 * times, to any number of workers, at any later point. A process may crash between any two steps.
 */
module ExecutionProtocol {
  import opened Wrappers
  import opened ExecutionDomain
  import opened ExecutionBoard
  import opened RetryPolicy

  datatype Proc =
    | Idle
    | Claimed(f: Fenced)                  // dispatchDue: claimed, not yet published
    | Published(f: Fenced, ok: bool)      // dispatchDue: published, outcome not yet recorded
    | Reclaimed(f: Fenced)                // recoverStale: reclaimed, not yet resolved
    | Working(m: Message)                 // Run: provider call in progress
    | Persisted(m: Message, c: Classified, detail: string)  // finalizeFailure: between its two writes

  datatype Origin = ByClaim | ByReclaim

  /** History: which token each (execution, generation) was handed out with. */
  datatype Issue = Issue(origin: Origin, f: Fenced)

  /** History: the attempt and verdict of the last classification written to an execution. */
  datatype Verdict = Verdict(attempt: nat, retry: bool)

  datatype System = System(
    board: Board,
    procs: map<nat, Proc>,
    queue: set<Message>,
    issued: map<(UUID, nat), Issue>,
    verdicts: map<UUID, Verdict>)

  const START := System(EMPTY, map[], {}, map[], map[])

  datatype Action =
    | Admit(req: AdmitRequest, id: UUID, retryId: UUID, now: Time)
    | CancelByHuman(ws: UUID, x: UUID, now: Time)
    | ClaimDue(p: nat, ws: UUID, x: UUID, owner: string, ttl: int, now: Time)
    | Publish(p: nat, ok: bool, sent: bool)
    | Record(p: nat, now: Time)
    | Reclaim(p: nat, ws: UUID, x: UUID, owner: string, ttl: int, now: Time)
    | Resolve(p: nat, clock: Time, base: int, cap: int, newId: UUID, now: Time)
    | Deliver(p: nat, m: Message)
    | Beat(p: nat, name: string, ttl: int, now: Time)
    | Succeed(p: nat, name: string, result: string, now: Time)
    | Fail(p: nat, name: string, cause: Cause, now: Time)
    | Settle(p: nat, name: string, clock: Time, base: int, cap: int, newId: UUID, snapshot: string, now: Time)
    | Crash(p: nat)

  function ProcOf(s: System, p: nat): Proc {
    if p in s.procs then s.procs[p] else Idle
  }

  function DefaultAttempts(requested: int): int {
    if requested <= 0 then 3 else requested
  }

  /** Admit as the service calls the store: the budget defaulted, the hash over the defaulted request. */
  ghost function ServiceAdmission(b: Board, staff: map<UUID, Employee>, req: AdmitRequest, id: UUID, retryId: UUID, now: Time)
    : (Board, Result<Admitted, StoreError>)
  {
    var r := req.(maxAttempts := DefaultAttempts(req.maxAttempts));
    AdmissionAdmit(b, staff, r, RequestHash(r.employee, r.task, r.maxAttempts), id, retryId, now)
  }

  predicate SameRequest(req: AdmitRequest, e: Exec) {
    e.employee == req.employee && e.task == req.task
  }

  /** Service.Admit: validation, the store's transaction, then whether a hit really is a replay. */
  ghost function ServiceAdmit(b: Board, staff: map<UUID, Employee>, req: AdmitRequest, id: UUID, retryId: UUID, now: Time)
    : (Board, Result<Admitted, StoreError>)
  {
    if req.workspace == NIL then (b, Failure(WorkspaceMismatch))
    else if req.employee == NIL then (b, Failure(InvalidInput))
    else
      var (b', res) := ServiceAdmission(b, staff, req, id, retryId, now);
      if res.Success? && !res.value.created
         && (!SameRequest(req, res.value.row)
             || res.value.row.hash != RequestHash(req.employee, req.task, DefaultAttempts(req.maxAttempts)))
      then (b', Failure(IdempotencyKeyConflict))
      else (b', res)
  }

  const RECOVERY_DETAIL := "lease expired after non-retryable failure"

  /** resolveRecovered: a persisted classification decides, a missing one counts as an expired lease. */
  function Resolution(b: Board, f: Fenced, clock: Time, base: int, cap: int, newId: UUID, now: Time)
    : (Board, Result<(), StoreError>)
  {
    var code := if f.lastErrorCode.Some? then f.lastErrorCode.value else CodeWorkerLeaseExpired;
    var retryable := if f.retryable.Some? then f.retryable.value else true;
    if !retryable || f.attempt >= f.maxAttempts
    then FailAndDLQ(b, f, code, RECOVERY_DETAIL, "", now)
    else Reschedule(b, f, clock + Delay(f.attempt, base, cap), f.attempt + 1, newId, now)
  }

  /** The second write of finalizeFailure. */
  function Settlement(b: Board, f: Fenced, c: Classified, detail: string,
                      clock: Time, base: int, cap: int, newId: UUID, snapshot: string, now: Time)
    : (Board, Result<(), StoreError>)
  {
    if c.retry && f.attempt < f.maxAttempts
    then Reschedule(b, f, clock + Delay(f.attempt, base, cap), f.attempt + 1, newId, now)
    else FailAndDLQ(b, f, c.code, detail, snapshot, now)
  }

  predicate Deliverable(m: Message) {
    m.workspace != NIL && m.execution != NIL && m.retry != NIL
  }

  /** One step of the system; an action that is not enabled changes nothing. */
  ghost function Step(s: System, staff: map<UUID, Employee>, a: Action): System {
    match a
    case Admit(req, id, retryId, now) =>
      s.(board := ServiceAdmit(s.board, staff, req, id, retryId, now).0)
    case CancelByHuman(ws, x, now) =>
      s.(board := Cancel(s.board, ws, x, now).0)
    case ClaimDue(p, ws, x, owner, ttl, now) =>
      if ProcOf(s, p) != Idle then s
      else
        var (b, r) := Claim(s.board, ws, x, owner, ttl, now);
        if r.Failure? then s
        else s.(board := b, procs := s.procs[p := Claimed(r.value)],
                issued := s.issued[(x, r.value.generation) := Issue(ByClaim, r.value)])
    case Publish(p, ok, sent) =>
      if !ProcOf(s, p).Claimed? || (ok && !sent) then s
      else
        var f := ProcOf(s, p).f;
        s.(procs := s.procs[p := Published(f, ok)],
           queue := if sent then s.queue + {MessageOf(f, f.owner)} else s.queue)
    case Record(p, now) =>
      if !ProcOf(s, p).Published? then s
      else
        var f := ProcOf(s, p).f;
        s.(board := RecordDispatch(s.board, f.workspace, f.retry, f.owner, f.generation, ProcOf(s, p).ok, now),
           procs := s.procs[p := Idle])
    case Reclaim(p, ws, x, owner, ttl, now) =>
      if ProcOf(s, p) != Idle then s
      else
        var (b, r) := ReclaimStale(s.board, ws, x, owner, ttl, now);
        if r.Failure? then s
        else s.(board := b, procs := s.procs[p := Reclaimed(r.value)],
                issued := s.issued[(x, r.value.generation) := Issue(ByReclaim, r.value)])
    case Resolve(p, clock, base, cap, newId, now) =>
      if !ProcOf(s, p).Reclaimed? then s
      else s.(board := Resolution(s.board, ProcOf(s, p).f, clock, base, cap, newId, now).0, procs := s.procs[p := Idle])
    case Deliver(p, m) =>
      if ProcOf(s, p) != Idle || m !in s.queue || !Deliverable(m) then s
      else s.(procs := s.procs[p := Working(m)])
    case Beat(p, name, ttl, now) =>
      if !ProcOf(s, p).Working? && !ProcOf(s, p).Persisted? then s
      else s.(board := Heartbeat(s.board, FencedFrom(ProcOf(s, p).m, name), ttl, now).0)
    case Succeed(p, name, result, now) =>
      if !ProcOf(s, p).Working? then s
      else s.(board := Complete(s.board, FencedFrom(ProcOf(s, p).m, name), result, now).0, procs := s.procs[p := Idle])
    case Fail(p, name, cause, now) =>
      if !ProcOf(s, p).Working? then s
      else
        var m, c := ProcOf(s, p).m, Classify(cause);
        var f := FencedFrom(m, name);
        var (b, r) := PersistError(s.board, f, c.code, c.retry, cause.text, now);
        if r.Failure? then s.(procs := s.procs[p := Idle])
        else s.(board := b, procs := s.procs[p := Persisted(m, c, cause.text)],
                verdicts := s.verdicts[f.execution := Verdict(f.attempt, c.retry)])
    case Settle(p, name, clock, base, cap, newId, snapshot, now) =>
      if !ProcOf(s, p).Persisted? then s
      else
        var q := ProcOf(s, p);
        s.(board := Settlement(s.board, FencedFrom(q.m, name), q.c, q.detail, clock, base, cap, newId, snapshot, now).0,
           procs := s.procs[p := Idle])
    case Crash(p) =>
      s.(procs := s.procs[p := Idle])
  }

  /** The state after a whole interleaving. */
  ghost function Run(s: System, staff: map<UUID, Employee>, acts: seq<Action>): System {
    if acts == [] then s
    else Step(Run(s, staff, acts[..|acts| - 1]), staff, acts[|acts| - 1])
  }

  /** The state before the i-th action of an interleaving from the empty board. */
  ghost function At(staff: map<UUID, Employee>, acts: seq<Action>, i: nat): System
    requires i <= |acts|
  {
    Run(START, staff, acts[..i])
  }
}
