/** What no transaction ever does to a board: a reflexive and transitive relation every one of them keeps. */
module ExecutionEvolution {
  import opened Wrappers
  import opened ExecutionDomain
  import opened ExecutionBoard
  import opened ExecutionProtocol
  import opened RetryPolicy

  /** Identity is fixed; generation and attempt only grow; a lease once lost at a generation stays lost; terminal is frozen. */
  predicate RowEvolves(e: Exec, e': Exec) {
    && e'.workspace == e.workspace && e'.employee == e.employee && e'.task == e.task
    && e'.maxAttempts == e.maxAttempts && e'.key == e.key && e'.hash == e.hash && e'.createdAt == e.createdAt
    && e.leaseGeneration <= e'.leaseGeneration
    && e.attempt <= e'.attempt <= e.attempt + (e'.leaseGeneration - e.leaseGeneration)
    && (e'.leaseGeneration == e.leaseGeneration && e.status != Running ==> e'.status != Running)
    && (e'.leaseGeneration == e.leaseGeneration && e'.status == Running ==> e'.leaseOwner == e.leaseOwner)
    && (Terminal(e.status) ==> e' == e)
  }

  /** Identity is fixed; a claimed retry keeps its generation and can only lose its worker; processed is frozen. */
  predicate RetryEvolves(r: Retry, r': Retry) {
    && r'.execution == r.execution && r'.workspace == r.workspace && r'.seqNo == r.seqNo
    && (r.state != RetryPending ==>
          r'.state != RetryPending && r'.generation == r.generation && r'.worker in {r.worker, None})
    && (r.state == RetryProcessed ==> r' == r)
  }

  ghost predicate Evolves(b: Board, b': Board) {
    && (forall x | x in b.execs :: x in b'.execs && RowEvolves(b.execs[x], b'.execs[x]))
    && (forall r | r in b.retries :: r in b'.retries && RetryEvolves(b.retries[r], b'.retries[r]))
    && b.dlq <= b'.dlq
    && b.log <= b'.log
    // A finished execution gains neither a retry row, nor a dead letter, nor a dispatch entry.
    && (forall r | r in b'.retries && r !in b.retries :: Unfinished(b, b'.retries[r].execution))
    && (forall i | |b.dlq| <= i < |b'.dlq| :: Unfinished(b, b'.dlq[i].execution))
    && (forall i | |b.log| <= i < |b'.log| :: b'.log[i].retry in b.retries ==> b.retries[b'.log[i].retry].Outstanding())
  }

  predicate Unfinished(b: Board, x: UUID) {
    x in b.execs ==> !Terminal(b.execs[x].status)
  }

  lemma EvolvesTransitive(a: Board, b: Board, c: Board)
    requires Evolves(a, b) && Evolves(b, c)
    ensures Evolves(a, c)
  {
  }

  // ---------------------------------------------------------------- one lemma per transaction

  lemma Unmoved(b: Board)
    ensures Evolves(b, b)
  {
  }

  lemma InsertedEvolves(b: Board, req: AdmitRequest, hash: RequestHash, id: UUID, retryId: UUID, now: Time)
    requires req.maxAttempts > 0 && id !in b.execs && retryId !in b.retries
    ensures Evolves(b, Inserted(b, req, hash, id, retryId, now))
  {
  }

  lemma ResolvedEvolve(retries: map<UUID, Retry>, x: UUID, ws: UUID, states: set<RetryState>, outcome: RetryOutcome, now: Time)
    requires RetryProcessed !in states
    ensures var retries' := ResolveRetries(retries, x, ws, states, outcome, now);
            retries'.Keys == retries.Keys && forall r | r in retries :: RetryEvolves(retries[r], retries'[r])
  {
  }

  lemma CancelEvolves(b: Board, ws: UUID, x: UUID, now: Time)
    ensures Evolves(b, Cancel(b, ws, x, now).0)
  {
    hide ResolveRetries, RetryEvolves;
    RetriesUnmoved(b.retries);
    ResolvedEvolve(b.retries, x, ws, {RetryPending, RetryClaimed, RetryDispatched}, OutcomeCancelled, now);
  }

  lemma RetriesUnmoved(retries: map<UUID, Retry>)
    ensures forall r | r in retries :: RetryEvolves(retries[r], retries[r])
  {
  }

  lemma ClaimEvolves(b: Board, ws: UUID, x: UUID, owner: string, ttl: int, now: Time)
    ensures Evolves(b, Claim(b, ws, x, owner, ttl, now).0)
  {
  }

  lemma ReclaimEvolves(b: Board, ws: UUID, x: UUID, owner: string, ttl: int, now: Time)
    ensures Evolves(b, ReclaimStale(b, ws, x, owner, ttl, now).0)
  {
  }

  lemma HeartbeatEvolves(b: Board, f: Fenced, ttl: int, now: Time)
    ensures Evolves(b, Heartbeat(b, f, ttl, now).0)
  {
  }

  lemma PersistErrorEvolves(b: Board, f: Fenced, code: ErrorCode, retryable: bool, detail: string, now: Time)
    ensures Evolves(b, PersistError(b, f, code, retryable, detail, now).0)
  {
  }

  lemma CompleteEvolves(b: Board, f: Fenced, result: string, now: Time)
    ensures Evolves(b, Complete(b, f, result, now).0)
  {
    hide ResolveRetries, RetryEvolves;
    RetriesUnmoved(b.retries);
    ResolvedEvolve(b.retries, f.execution, f.workspace, IN_FLIGHT, OutcomeSuccess, now);
  }

  lemma RescheduleEvolves(b: Board, f: Fenced, next: Time, seqNo: int, newId: UUID, now: Time)
    ensures Evolves(b, Reschedule(b, f, next, seqNo, newId, now).0)
  {
    hide ResolveRetries, RetryEvolves, OutstandingRetries;
    RetriesUnmoved(b.retries);
    ResolvedEvolve(b.retries, f.execution, f.workspace, IN_FLIGHT, OutcomeFailed, now);
  }

  lemma FailEvolves(b: Board, f: Fenced, code: ErrorCode, detail: string, snapshot: string, now: Time)
    ensures Evolves(b, FailAndDLQ(b, f, code, detail, snapshot, now).0)
  {
    hide ResolveRetries, RetryEvolves;
    RetriesUnmoved(b.retries);
    ResolvedEvolve(b.retries, f.execution, f.workspace, IN_FLIGHT, OutcomeFailed, now);
  }

  lemma RecordEvolves(b: Board, ws: UUID, r: UUID, worker: string, generation: nat, success: bool, now: Time)
    ensures Evolves(b, RecordDispatch(b, ws, r, worker, generation, success, now))
  {
  }

  /** Every action of every process, from any state, evolves the board. */
  lemma StepEvolves(s: System, staff: map<UUID, Employee>, a: Action)
    ensures Evolves(s.board, Step(s, staff, a).board)
  {
    hide Evolves;
    var b := s.board;
    Unmoved(b);
    match a
    case Admit(req, id, retryId, now) =>
      var r := req.(maxAttempts := DefaultAttempts(req.maxAttempts));
      if id !in b.execs && retryId !in b.retries {
        InsertedEvolves(b, r, RequestHash(r.employee, r.task, r.maxAttempts), id, retryId, now);
      }
    case CancelByHuman(ws, x, now) => CancelEvolves(b, ws, x, now);
    case ClaimDue(p, ws, x, owner, ttl, now) => ClaimEvolves(b, ws, x, owner, ttl, now);
    case Publish(p, ok, sent) =>
    case Record(p, now) =>
      if ProcOf(s, p).Published? {
        var f := ProcOf(s, p).f;
        RecordEvolves(b, f.workspace, f.retry, f.owner, f.generation, ProcOf(s, p).ok, now);
      }
    case Reclaim(p, ws, x, owner, ttl, now) => ReclaimEvolves(b, ws, x, owner, ttl, now);
    case Resolve(p, clock, base, cap, newId, now) =>
      if ProcOf(s, p).Reclaimed? { ResolutionEvolves(b, ProcOf(s, p).f, clock, base, cap, newId, now); }
    case Deliver(p, m) =>
    case Beat(p, name, ttl, now) =>
      if ProcOf(s, p).Working? || ProcOf(s, p).Persisted? { HeartbeatEvolves(b, FencedFrom(ProcOf(s, p).m, name), ttl, now); }
    case Succeed(p, name, result, now) =>
      if ProcOf(s, p).Working? { CompleteEvolves(b, FencedFrom(ProcOf(s, p).m, name), result, now); }
    case Fail(p, name, cause, now) =>
      if ProcOf(s, p).Working? {
        PersistErrorEvolves(b, FencedFrom(ProcOf(s, p).m, name), Classify(cause).code, Classify(cause).retry, cause.text, now);
      }
    case Settle(p, name, clock, base, cap, newId, snapshot, now) =>
      if ProcOf(s, p).Persisted? {
        var q := ProcOf(s, p);
        SettlementEvolves(b, FencedFrom(q.m, name), q.c, q.detail, clock, base, cap, newId, snapshot, now);
      }
    case Crash(p) =>
  }

  lemma ResolutionEvolves(b: Board, f: Fenced, clock: Time, base: int, cap: int, newId: UUID, now: Time)
    ensures Evolves(b, Resolution(b, f, clock, base, cap, newId, now).0)
  {
    hide Evolves, FailAndDLQ, Reschedule, Delay;
    var code := if f.lastErrorCode.Some? then f.lastErrorCode.value else CodeWorkerLeaseExpired;
    FailEvolves(b, f, code, RECOVERY_DETAIL, "", now);
    RescheduleEvolves(b, f, clock + Delay(f.attempt, base, cap), f.attempt + 1, newId, now);
  }

  lemma SettlementEvolves(b: Board, f: Fenced, c: Classified, detail: string,
                          clock: Time, base: int, cap: int, newId: UUID, snapshot: string, now: Time)
    ensures Evolves(b, Settlement(b, f, c, detail, clock, base, cap, newId, snapshot, now).0)
  {
    hide Evolves, FailAndDLQ, Reschedule;
    FailEvolves(b, f, c.code, detail, snapshot, now);
    RescheduleEvolves(b, f, clock + Delay(f.attempt, base, cap), f.attempt + 1, newId, now);
  }
}
