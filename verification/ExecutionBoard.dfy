/**
 * The board as a value, and what each store transaction does to it. One function per SQL
 * transaction; a failed transaction returns the board it was given.
 */
module ExecutionBoard {
  import opened Wrappers
  import opened ExecutionDomain

  datatype Board = Board(
    execs: map<UUID, Exec>,
    retries: map<UUID, Retry>,
    dlq: seq<DeadLetter>,
    log: seq<Dispatch>)

  const EMPTY := Board(map[], map[], [], [])

  // ---------------------------------------------------------------- row selections

  /** Some member of a set: the row a query happens to return first. */
  ghost function Pick(s: set<UUID>): (r: UUID)
    requires s != {}
    ensures r in s
  {
    var r :| r in s; r
  }

  function PendingRetries(retries: map<UUID, Retry>, x: UUID, ws: UUID): set<UUID> {
    set r | r in retries && retries[r].execution == x && retries[r].workspace == ws && retries[r].state == RetryPending
  }

  /** The rows the partial unique index uq_ai_execution_retries_one_outstanding covers for x. */
  function OutstandingRetries(retries: map<UUID, Retry>, x: UUID, ws: UUID): set<UUID> {
    set r | r in retries && retries[r].execution == x && retries[r].workspace == ws && retries[r].Outstanding()
  }

  function Keyed(execs: map<UUID, Exec>, ws: UUID, key: string): set<UUID> {
    set x | x in execs && execs[x].workspace == ws && execs[x].key == Some(key)
  }

  function Active(execs: map<UUID, Exec>, ws: UUID, employee: UUID): set<UUID> {
    set x | x in execs && execs[x].workspace == ws && execs[x].employee == employee && execs[x].status in {Pending, Running}
  }

  // ---------------------------------------------------------------- row transformations

  function ClaimedRow(e: Exec, owner: string, ttl: int, now: Time): Exec {
    e.(status := Running, attempt := e.attempt + 1, leaseOwner := Some(owner),
       leaseGeneration := e.leaseGeneration + 1, leaseExpiresAt := Some(now + ttl))
  }

  function ReclaimedRow(e: Exec, owner: string, ttl: int, now: Time): Exec {
    e.(leaseOwner := Some(owner), leaseGeneration := e.leaseGeneration + 1, leaseExpiresAt := Some(now + ttl))
  }

  function CompletedRow(e: Exec, result: string, now: Time): Exec {
    e.(status := Completed, result := Some(result), completedAt := Some(now),
       leaseOwner := None, leaseExpiresAt := None, updatedAt := now)
  }

  function FailedRow(e: Exec, code: ErrorCode, detail: Option<string>, now: Time): Exec {
    e.(status := Failed, lastErrorCode := Some(code), retryable := Some(false), errorDetail := detail,
       failedAt := Some(now), leaseOwner := None, leaseExpiresAt := None, updatedAt := now)
  }

  function RescheduledRow(e: Exec, next: Time, now: Time): Exec {
    e.(status := Pending, leaseOwner := None, leaseExpiresAt := None, nextRetryAt := Some(next), updatedAt := now)
  }

  function CancelledRow(e: Exec, now: Time): Exec {
    e.(status := Cancelled, lastErrorCode := None, retryable := None, errorDetail := None,
       leaseOwner := None, leaseExpiresAt := None, cancelledAt := Some(now))
  }

  function ClaimedRetry(r: Retry, owner: string, generation: nat, now: Time): Retry {
    r.(state := RetryClaimed, worker := Some(owner), generation := generation, claimedAt := Some(now))
  }

  function ResolvedRetry(r: Retry, outcome: RetryOutcome, now: Time): Retry {
    r.(state := RetryProcessed, outcome := Some(outcome), worker := None, completedAt := Some(now))
  }

  function Flipped(r: Retry, now: Time): Retry {
    r.(state := RetryDispatched, dispatchedAt := Some(now))
  }

  function NewRetry(x: UUID, ws: UUID, seqNo: int, generation: nat, next: Option<Time>): Retry {
    Retry(x, ws, seqNo, RetryPending, None, None, generation, next, None, None, None)
  }

  function Nullable(s: string): Option<string> {
    if s == "" then None else Some(s)
  }

  /** UPDATE ai_execution_retries ... WHERE execution_id = x AND workspace_id = ws AND state = 'pending'. */
  function ClaimRetries(retries: map<UUID, Retry>, x: UUID, ws: UUID, owner: string, generation: nat, now: Time)
    : map<UUID, Retry>
  {
    map r | r in retries ::
      if retries[r].execution == x && retries[r].workspace == ws && retries[r].state == RetryPending
      then ClaimedRetry(retries[r], owner, generation, now) else retries[r]
  }

  /** The resolving UPDATE the finalising transactions share; cancel also takes pending rows. */
  function ResolveRetries(retries: map<UUID, Retry>, x: UUID, ws: UUID, states: set<RetryState>, outcome: RetryOutcome, now: Time)
    : map<UUID, Retry>
  {
    map r | r in retries ::
      if retries[r].execution == x && retries[r].workspace == ws && retries[r].state in states
      then ResolvedRetry(retries[r], outcome, now) else retries[r]
  }

  // ---------------------------------------------------------------- transactions

  function AdmittedRow(req: AdmitRequest, hash: RequestHash, now: Time): Exec
    requires req.maxAttempts > 0
  {
    Exec(req.workspace, req.employee, req.task, Pending, 0, req.maxAttempts, Nullable(req.key), hash,
         None, 0, None, None, None, None, None, None, None, None, None, now, now)
  }

  /** AdmissionAdmit: replay lookup, then capacity, then the insert of the execution and its first retry. */
  ghost function AdmissionAdmit(b: Board, staff: map<UUID, Employee>, req: AdmitRequest, hash: RequestHash,
                                id: UUID, retryId: UUID, now: Time): (Board, Result<Admitted, StoreError>)
  {
    if req.key != "" && Keyed(b.execs, req.workspace, req.key) != {} then
      var x := Pick(Keyed(b.execs, req.workspace, req.key));
      (b, Success(Admitted(x, b.execs[x], false, b.execs[x].status == Completed)))
    else if req.employee !in staff || staff[req.employee].workspace != req.workspace then
      (b, Failure(NotFound))
    else if |Active(b.execs, req.workspace, req.employee)| >= staff[req.employee].cap then
      (b, Failure(CapacityExceeded))
    else if id in b.execs then
      (b, Failure(IdempotencyKeyConflict))
    else if req.maxAttempts <= 0 || retryId in b.retries then
      (b, Failure(Database))
    else
      (Inserted(b, req, hash, id, retryId, now), Success(Admitted(id, AdmittedRow(req, hash, now), true, false)))
  }

  function Inserted(b: Board, req: AdmitRequest, hash: RequestHash, id: UUID, retryId: UUID, now: Time): Board
    requires req.maxAttempts > 0
  {
    b.(execs := b.execs[id := AdmittedRow(req, hash, now)],
       retries := b.retries[retryId := NewRetry(id, req.workspace, 1, 0, None)])
  }

  predicate Cancellable(b: Board, ws: UUID, x: UUID) {
    x in b.execs && b.execs[x].workspace == ws && b.execs[x].status in {Pending, Running}
  }

  function Cancel(b: Board, ws: UUID, x: UUID, now: Time): (Board, Result<(), StoreError>) {
    if Cancellable(b, ws, x) then
      (b.(execs := b.execs[x := CancelledRow(b.execs[x], now)],
          retries := ResolveRetries(b.retries, x, ws, {RetryPending, RetryClaimed, RetryDispatched}, OutcomeCancelled, now)),
       Success(()))
    else if x in b.execs && b.execs[x].workspace == ws then
      (b, Success(()))
    else
      (b, Failure(NotFound))
  }

  predicate Due(e: Exec, now: Time) {
    e.status == Pending && (e.nextRetryAt.None? || e.nextRetryAt.value <= now)
  }

  /** The claim commits exactly when the row is due, has budget, and a pending retry joins it. */
  predicate Claimable(b: Board, ws: UUID, x: UUID, now: Time) {
    && x in b.execs
    && b.execs[x].workspace == ws
    && Due(b.execs[x], now)
    && b.execs[x].attempt < b.execs[x].maxAttempts
    && PendingRetries(b.retries, x, ws) != {}
  }

  function ClaimToken(x: UUID, e: Exec, retry: UUID): Fenced
    requires e.leaseOwner.Some? && e.leaseExpiresAt.Some?
  {
    Fenced(x, e.workspace, e.employee, e.leaseOwner.value, e.leaseGeneration, e.leaseExpiresAt.value,
           e.attempt, e.maxAttempts, retry, None, None, None)
  }

  ghost function Claim(b: Board, ws: UUID, x: UUID, owner: string, ttl: int, now: Time): (Board, Result<Fenced, StoreError>) {
    if Claimable(b, ws, x, now) then
      var e := ClaimedRow(b.execs[x], owner, ttl, now);
      (b.(execs := b.execs[x := e],
          retries := ClaimRetries(b.retries, x, ws, owner, e.leaseGeneration, now)),
       Success(ClaimToken(x, e, Pick(PendingRetries(b.retries, x, ws)))))
    else
      (b, Failure(NotFound))
  }

  predicate Stale(e: Exec, now: Time) {
    e.status == Running && e.leaseExpiresAt.Some? && e.leaseExpiresAt.value < now
  }

  predicate Reclaimable(b: Board, ws: UUID, x: UUID, now: Time) {
    x in b.execs && b.execs[x].workspace == ws && Stale(b.execs[x], now)
  }

  /** The sub-select looks for a pending retry, so a claimed or dispatched one yields NULL. */
  ghost function ReclaimToken(b: Board, x: UUID, e: Exec): Fenced
    requires e.leaseOwner.Some? && e.leaseExpiresAt.Some?
  {
    var pending := PendingRetries(b.retries, x, e.workspace);
    Fenced(x, e.workspace, e.employee, e.leaseOwner.value, e.leaseGeneration, e.leaseExpiresAt.value,
           e.attempt, e.maxAttempts, if pending == {} then NIL else Pick(pending),
           e.lastErrorCode, e.retryable, e.nextRetryAt)
  }

  /** Bumps the execution's generation and leaves its retry row alone. */
  ghost function ReclaimStale(b: Board, ws: UUID, x: UUID, owner: string, ttl: int, now: Time): (Board, Result<Fenced, StoreError>) {
    if Reclaimable(b, ws, x, now) then
      var e := ReclaimedRow(b.execs[x], owner, ttl, now);
      (b.(execs := b.execs[x := e]), Success(ReclaimToken(b, x, e)))
    else
      (b, Failure(NotFound))
  }

  /** The WHERE clause every fenced write re-asserts. */
  predicate Holds(b: Board, f: Fenced) {
    && f.execution in b.execs
    && var e := b.execs[f.execution];
       e.workspace == f.workspace && e.status == Running && e.leaseOwner == Some(f.owner) && e.leaseGeneration == f.generation
  }

  function Heartbeat(b: Board, f: Fenced, ttl: int, now: Time): (Board, Result<(), StoreError>) {
    if Holds(b, f) then
      (b.(execs := b.execs[f.execution := b.execs[f.execution].(leaseExpiresAt := Some(now + ttl))]), Success(()))
    else
      (b, Failure(StaleLease))
  }

  function PersistError(b: Board, f: Fenced, code: ErrorCode, retryable: bool, detail: string, now: Time)
    : (Board, Result<(), StoreError>)
  {
    if Holds(b, f) then
      (b.(execs := b.execs[f.execution := b.execs[f.execution].(
            lastErrorCode := Some(code), retryable := Some(retryable), errorDetail := Nullable(detail), updatedAt := now)]),
       Success(()))
    else
      (b, Failure(StaleLease))
  }

  const IN_FLIGHT := {RetryClaimed, RetryDispatched}

  function Complete(b: Board, f: Fenced, result: string, now: Time): (Board, Result<(), StoreError>) {
    if Holds(b, f) then
      (b.(execs := b.execs[f.execution := CompletedRow(b.execs[f.execution], result, now)],
          retries := ResolveRetries(b.retries, f.execution, f.workspace, IN_FLIGHT, OutcomeSuccess, now)),
       Success(()))
    else
      (b, Failure(StaleLease))
  }

  function FailAndDLQ(b: Board, f: Fenced, code: ErrorCode, detail: string, snapshot: string, now: Time)
    : (Board, Result<(), StoreError>)
  {
    if Holds(b, f) then
      (b.(execs := b.execs[f.execution := FailedRow(b.execs[f.execution], code, Nullable(detail), now)],
          retries := ResolveRetries(b.retries, f.execution, f.workspace, IN_FLIGHT, OutcomeFailed, now),
          dlq := b.dlq + [DeadLetter(f.workspace, f.execution, f.attempt, code, Nullable(detail), Nullable(snapshot))]),
       Success(()))
    else
      (b, Failure(StaleLease))
  }

  /** The insert is refused by the primary key, the seq CHECK or the one-outstanding index. */
  function Reschedule(b: Board, f: Fenced, next: Time, seqNo: int, newId: UUID, now: Time): (Board, Result<(), StoreError>) {
    if !Holds(b, f) then
      (b, Failure(StaleLease))
    else
      var resolved := ResolveRetries(b.retries, f.execution, f.workspace, IN_FLIGHT, OutcomeFailed, now);
      if newId in resolved || seqNo <= 0 || OutstandingRetries(resolved, f.execution, f.workspace) != {} then
        (b, Failure(Database))
      else
        (b.(execs := b.execs[f.execution := RescheduledRow(b.execs[f.execution], next, now)],
            retries := resolved[newId := NewRetry(f.execution, f.workspace, seqNo, f.generation, Some(next))]),
         Success(()))
  }

  predicate Dispatchable(b: Board, ws: UUID, r: UUID, worker: string, generation: nat) {
    && r in b.retries
    && b.retries[r].workspace == ws
    && b.retries[r].worker == Some(worker)
    && b.retries[r].generation == generation
    && b.retries[r].state in IN_FLIGHT
  }

  /** A stale dispatch writes nothing and is not an error. */
  function RecordDispatch(b: Board, ws: UUID, r: UUID, worker: string, generation: nat, success: bool, now: Time): Board {
    if !Dispatchable(b, ws, r, worker, generation) then b
    else
      b.(retries := if success && b.retries[r].state == RetryClaimed
                    then b.retries[r := Flipped(b.retries[r], now)] else b.retries,
         log := b.log + [Dispatch(ws, r, worker, generation, success)])
  }
}
