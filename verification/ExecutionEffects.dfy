/**
 * What each transaction does on a reachable board, said of the rows themselves: when it commits, what
 * it records, how long the lease it leaves lasts, and that no other execution notices.
 */
module ExecutionEffects {
  import opened Wrappers
  import opened ExecutionDomain
  import opened ExecutionBoard
  import opened ExecutionProtocol
  import opened ExecutionInvariant
  import opened ExecutionWellFormed
  import opened ExecutionSystem
  import opened ExecutionGenerations
  import opened RetryPolicy

  // ---------------------------------------------------------------- claims and leases

  /** The lease of x stands up to the instant until, and can be taken over at any later one. */
  ghost predicate LeasedUntil(b: Board, x: UUID, until: Time) {
    && x in b.execs && b.execs[x].status == Running
    && forall owner, ttl, t :: ReclaimStale(b, b.execs[x].workspace, x, owner, ttl, t).1.Success? <==> t > until
  }

  /** The retry of x that has not been processed, if it has one. */
  ghost predicate OnlyOutstanding(b: Board, x: UUID, r: UUID) {
    OutstandingOf(b, x, r) && forall q | OutstandingOf(b, x, q) :: q == r
  }

  /**
   * A claim commits exactly when the execution is pending and its retry gate has passed: budget and
   * retry row are then never wanting. It starts the next attempt under a lease of the full term, and
   * its token says so.
   */
  lemma ClaimsIff(staff: map<UUID, Employee>, acts: seq<Action>, ws: UUID, x: UUID, owner: string, ttl: int, now: Time)
    ensures var b := Run(START, staff, acts).board;
            var (b', res) := Claim(b, ws, x, owner, ttl, now);
            && (res.Success? <==> x in b.execs && b.execs[x].workspace == ws && b.execs[x].status == Pending
                                  && (b.execs[x].nextRetryAt == None || b.execs[x].nextRetryAt.value <= now))
            && (res.Success? ==>
                  var e, e', f := b.execs[x], b'.execs[x], res.value;
                  && b'.execs == b.execs[x := e']
                  && e' == e.(status := Running, attempt := e.attempt + 1, leaseOwner := Some(owner),
                              leaseGeneration := e.leaseGeneration + 1, leaseExpiresAt := Some(now + ttl))
                  && b'.retries.Keys == b.retries.Keys && (forall q | q in b.retries && q != f.retry :: b'.retries[q] == b.retries[q])
                  && b'.dlq == b.dlq && b'.log == b.log
                  && LeasedUntil(b', x, now + ttl) && OnlyOutstanding(b', x, f.retry)
                  && f.retry in b.retries && f.generation == e'.leaseGeneration
                  && b'.retries[f.retry] == b.retries[f.retry].(
                       state := RetryClaimed, worker := Some(owner), generation := f.generation, claimedAt := Some(now))
                  && (f.execution, f.workspace, f.employee, f.owner) == (x, ws, e.employee, owner)
                  && (f.attempt, f.maxAttempts, f.expiresAt) == (e'.attempt, e.maxAttempts, now + ttl))
  {
    hide Run, WellFormed, TokensOk, HoldersOk, ClaimsOk, ClaimRetries, PendingRetries;
    Reachable(staff, acts);
    var b := Run(START, staff, acts).board;
    if x in b.execs && b.execs[x].workspace == ws && b.execs[x].status == Pending && (b.execs[x].nextRetryAt == None || b.execs[x].nextRetryAt.value <= now) {
      PendingIsClaimable(b, ws, x);
      var r := Pick(PendingRetries(b.retries, x, ws));
      ClaimedRetryRow(b, ws, x, owner, b.execs[x].leaseGeneration + 1, now);
      var b' := Claim(b, ws, x, owner, ttl, now).0;
    }
  }

  lemma PendingIsClaimable(b: Board, ws: UUID, x: UUID)
    requires WellFormed(b) && x in b.execs && b.execs[x].workspace == ws && b.execs[x].status == Pending
    ensures b.execs[x].attempt < b.execs[x].maxAttempts && PendingRetries(b.retries, x, ws) != {}
  {
    hide WellFormed, LanesOk, DlqOk, LogOk, KeysOk;
    var last := LastRow(b, LanesFor(b), x);
    assert last in PendingRetries(b.retries, x, ws);
  }

  /** The pending retry is the only outstanding one, and becomes the claimed one. */
  lemma ClaimedRetryRow(b: Board, ws: UUID, x: UUID, owner: string, generation: nat, now: Time)
    requires WellFormed(b) && x in b.execs && b.execs[x].workspace == ws && PendingRetries(b.retries, x, ws) != {}
    ensures var retries', r := ClaimRetries(b.retries, x, ws, owner, generation, now), Pick(PendingRetries(b.retries, x, ws));
            && r in retries' && r in b.retries && retries'[r].execution == x && retries'[r].Outstanding()
            && retries'[r] == b.retries[r].(state := RetryClaimed, worker := Some(owner), generation := generation, claimedAt := Some(now))
            && (forall q | q in retries' && retries'[q].execution == x && retries'[q].Outstanding() :: q == r)
            && retries'.Keys == b.retries.Keys && forall q | q in b.retries && q != r :: retries'[q] == b.retries[q]
  {
    hide WellFormed;
    var r := Pick(PendingRetries(b.retries, x, ws));
    forall q | q in b.retries && b.retries[q].execution == x && b.retries[q].Outstanding() ensures q == r {
      OneOutstanding(b, x, q, r);
    }
  }

  lemma OneOutstanding(b: Board, x: UUID, q: UUID, r: UUID)
    requires WellFormed(b) && x in b.execs && OutstandingOf(b, x, q) && OutstandingOf(b, x, r)
    ensures q == r
  {
    hide WellFormed, LanesOk, DlqOk, LogOk, KeysOk;
    var lanes := LanesFor(b);
    OnlyLastOutstanding(b, lanes, x, q);
    OnlyLastOutstanding(b, lanes, x, r);
  }

  /** A takeover commits exactly on a running row past its expiry, and moves nothing but owner, generation and expiry. */
  lemma ReclaimsIff(staff: map<UUID, Employee>, acts: seq<Action>, ws: UUID, x: UUID, owner: string, ttl: int, now: Time)
    ensures var b := Run(START, staff, acts).board;
            var (b', res) := ReclaimStale(b, ws, x, owner, ttl, now);
            && (res.Success? <==> x in b.execs && b.execs[x].workspace == ws && b.execs[x].status == Running
                                  && b.execs[x].leaseExpiresAt.Some? && b.execs[x].leaseExpiresAt.value < now)
            && (res.Success? ==>
                  var e, f := b.execs[x], res.value;
                  && b' == b.(execs := b.execs[x := e.(leaseOwner := Some(owner), leaseGeneration := e.leaseGeneration + 1,
                                                       leaseExpiresAt := Some(now + ttl))])
                  && LeasedUntil(b', x, now + ttl)
                  && (f.execution, f.workspace, f.employee, f.owner, f.retry) == (x, ws, e.employee, owner, NIL)
                  && (f.generation, f.attempt, f.maxAttempts, f.expiresAt) == (e.leaseGeneration + 1, e.attempt, e.maxAttempts, now + ttl)
                  && (f.lastErrorCode, f.retryable) == (e.lastErrorCode, e.retryable))
  {
    hide Run, WellFormed, TokensOk, HoldersOk, ClaimsOk, PendingRetries;
    Reachable(staff, acts);
    var b := Run(START, staff, acts).board;
    if x in b.execs && b.execs[x].workspace == ws && b.execs[x].status == Running {
      assert RowOk(b.execs[x]) by { RowIsOk(b, x); }
      if b.execs[x].leaseExpiresAt.Some? && b.execs[x].leaseExpiresAt.value < now { TakeoversNameNoRetry(staff, acts, ws, x, owner, ttl, now); }
    }
  }

  lemma RowIsOk(b: Board, x: UUID)
    requires WellFormed(b) && x in b.execs
    ensures RowOk(b.execs[x])
  {
    hide WellFormed, RowOk;
    RowHolds(b, LanesFor(b), x);
  }

  /** The token is the running row's: owner, generation and workspace. */
  predicate Owns(b: Board, f: Fenced) {
    && f.execution in b.execs && b.execs[f.execution].workspace == f.workspace && b.execs[f.execution].status == Running
    && b.execs[f.execution].leaseOwner == Some(f.owner) && b.execs[f.execution].leaseGeneration == f.generation
  }

  /** A heartbeat is accepted exactly from the owner, and then the lease lasts a full term from it. */
  lemma HeartbeatsIff(b: Board, f: Fenced, ttl: int, now: Time)
    ensures var (b', res) := Heartbeat(b, f, ttl, now);
            && (res.Success? <==> Owns(b, f))
            && (res.Success? ==> LeasedUntil(b', f.execution, now + ttl))
            && (res.Failure? ==> b' == b && res.error == StaleLease)
  {
  }

  // ---------------------------------------------------------------- finalisations

  /** The one retry that was outstanding is resolved; every other retry row is as it was. */
  ghost predicate Resolved(b: Board, b': Board, x: UUID, outcome: RetryOutcome, now: Time) {
    exists r | OutstandingOf(b, x, r) ::
      && (forall q | q in b.retries && q != r :: q in b'.retries && b'.retries[q] == b.retries[q])
      && r in b'.retries
      && b'.retries[r] == b.retries[r].(state := RetryProcessed, outcome := Some(outcome), worker := None, completedAt := Some(now))
  }

  lemma ResolvingRunning(b: Board, x: UUID, ws: UUID, outcome: RetryOutcome, now: Time)
    requires WellFormed(b) && x in b.execs && b.execs[x].workspace == ws && b.execs[x].status == Running
    ensures var retries' := ResolveRetries(b.retries, x, ws, IN_FLIGHT, outcome, now);
            retries'.Keys == b.retries.Keys && Resolved(b, b.(retries := retries'), x, outcome, now)
  {
    hide WellFormed;
    var r := OutstandingOne(b, x);
    OutstandingRow(b, x, r);
    forall q | q in b.retries && q != r && b.retries[q].execution == x ensures b.retries[q].state == RetryProcessed {
      if b.retries[q].Outstanding() { OneOutstanding(b, x, q, r); }
    }
  }

  /** An execution that has not finished has an outstanding retry. */
  lemma OutstandingOne(b: Board, x: UUID) returns (r: UUID)
    requires WellFormed(b) && x in b.execs && !Terminal(b.execs[x].status)
    ensures OutstandingOf(b, x, r)
  {
    hide WellFormed, LanesOk, DlqOk, LogOk, KeysOk, RowOk;
    r := LastRow(b, LanesFor(b), x);
  }

  /** Completion is accepted exactly from the owner; it records the result and its instant, and frees the lease. */
  lemma CompletesIff(staff: map<UUID, Employee>, acts: seq<Action>, f: Fenced, result: string, now: Time)
    ensures var b := Run(START, staff, acts).board;
            var (b', res) := Complete(b, f, result, now);
            && (res.Success? <==> Owns(b, f)) && (res.Failure? ==> b' == b)
            && (res.Success? ==>
                  && b'.execs == b.execs[f.execution := b.execs[f.execution].(
                       status := Completed, result := Some(result), completedAt := Some(now),
                       leaseOwner := None, leaseExpiresAt := None, updatedAt := now)]
                  && Resolved(b, b', f.execution, OutcomeSuccess, now) && b'.retries.Keys == b.retries.Keys
                  && b'.dlq == b.dlq && b'.log == b.log)
  {
    hide Run, WellFormed, TokensOk, HoldersOk, ClaimsOk, ResolveRetries;
    Reachable(staff, acts);
    var b := Run(START, staff, acts).board;
    if Owns(b, f) { ResolvingRunning(b, f.execution, f.workspace, OutcomeSuccess, now); }
  }

  /** Failing is accepted exactly from the owner; it records the reason and its instant, and appends its dead letter. */
  lemma FailsIff(staff: map<UUID, Employee>, acts: seq<Action>, f: Fenced, code: ErrorCode, detail: string, snapshot: string, now: Time)
    ensures var b := Run(START, staff, acts).board;
            var (b', res) := FailAndDLQ(b, f, code, detail, snapshot, now);
            && (res.Success? <==> Owns(b, f)) && (res.Failure? ==> b' == b)
            && (res.Success? ==>
                  var text := if detail == "" then None else Some(detail);
                  && b'.execs == b.execs[f.execution := b.execs[f.execution].(
                       status := Failed, lastErrorCode := Some(code), retryable := Some(false), errorDetail := text,
                       failedAt := Some(now), leaseOwner := None, leaseExpiresAt := None, updatedAt := now)]
                  && Resolved(b, b', f.execution, OutcomeFailed, now) && b'.retries.Keys == b.retries.Keys && b'.log == b.log
                  && b'.dlq == b.dlq + [DeadLetter(f.workspace, f.execution, f.attempt, code, text,
                                                   if snapshot == "" then None else Some(snapshot))])
  {
    hide Run, WellFormed, TokensOk, HoldersOk, ClaimsOk, ResolveRetries;
    Reachable(staff, acts);
    var b := Run(START, staff, acts).board;
    if Owns(b, f) { ResolvingRunning(b, f.execution, f.workspace, OutcomeFailed, now); }
  }

  /** Rescheduling is accepted exactly from the owner with a free id; the execution waits at the gate, its next retry is pending. */
  lemma ReschedulesIff(staff: map<UUID, Employee>, acts: seq<Action>, f: Fenced, next: Time, seqNo: int, newId: UUID, now: Time)
    requires seqNo > 0
    ensures var b := Run(START, staff, acts).board;
            var (b', res) := Reschedule(b, f, next, seqNo, newId, now);
            && (res.Success? <==> Owns(b, f) && newId !in b.retries) && (res.Failure? ==> b' == b)
            && (res.Success? ==>
                  && b'.execs == b.execs[f.execution := b.execs[f.execution].(
                       status := Pending, nextRetryAt := Some(next), leaseOwner := None, leaseExpiresAt := None, updatedAt := now)]
                  && Resolved(b, b', f.execution, OutcomeFailed, now) && b'.retries.Keys == b.retries.Keys + {newId}
                  && b'.retries[newId] == Retry(f.execution, f.workspace, seqNo, RetryPending, None, None, f.generation,
                                                Some(next), None, None, None)
                  && b'.dlq == b.dlq && b'.log == b.log)
  {
    hide Run, WellFormed, TokensOk, HoldersOk, ClaimsOk, ResolveRetries, OutstandingRetries;
    Reachable(staff, acts);
    var b := Run(START, staff, acts).board;
    if Owns(b, f) {
      ResolvingRunning(b, f.execution, f.workspace, OutcomeFailed, now);
      NothingOutstanding(b, f.execution, f.workspace, now);
    }
  }

  lemma NothingOutstanding(b: Board, x: UUID, ws: UUID, now: Time)
    requires WellFormed(b) && x in b.execs && b.execs[x].workspace == ws && b.execs[x].status == Running
    ensures OutstandingRetries(ResolveRetries(b.retries, x, ws, IN_FLIGHT, OutcomeFailed, now), x, ws) == {}
  {
    hide WellFormed;
    forall q | q in b.retries && b.retries[q].execution == x && b.retries[q].Outstanding() ensures b.retries[q].state in IN_FLIGHT {
      OutstandingRow(b, x, q);
    }
  }

  /** A classification is accepted exactly from the owner, and moves nothing else. */
  lemma ClassifiesIff(b: Board, f: Fenced, code: ErrorCode, retryable: bool, detail: string, now: Time)
    ensures var (b', res) := PersistError(b, f, code, retryable, detail, now);
            && (res.Success? <==> Owns(b, f)) && (res.Failure? ==> b' == b)
            && (res.Success? ==>
                  b' == b.(execs := b.execs[f.execution := b.execs[f.execution].(
                      lastErrorCode := Some(code), retryable := Some(retryable), updatedAt := now,
                      errorDetail := if detail == "" then None else Some(detail))]))
  {
  }

  // ---------------------------------------------------------------- dispatch records

  /**
   * A dispatch is logged exactly if the retry is in flight under this worker and generation; a successful
   * one marks a claimed retry dispatched. Anything else leaves the board alone.
   */
  lemma RecordsIff(b: Board, ws: UUID, r: UUID, worker: string, generation: nat, success: bool, now: Time)
    ensures var b' := RecordDispatch(b, ws, r, worker, generation, success, now);
            && (b' != b <==> b'.log == b.log + [Dispatch(ws, r, worker, generation, success)])
            && (b' != b <==> r in b.retries && b.retries[r].workspace == ws && b.retries[r].state in {RetryClaimed, RetryDispatched}
                             && b.retries[r].worker == Some(worker) && b.retries[r].generation == generation)
            && (b' != b ==>
                  && b'.execs == b.execs && b'.dlq == b.dlq
                  && b'.retries == if success && b.retries[r].state == RetryClaimed
                                   then b.retries[r := b.retries[r].(state := RetryDispatched, dispatchedAt := Some(now))] else b.retries)
  {
    assert |b.log + [Dispatch(ws, r, worker, generation, success)]| != |b.log|;
  }

  // ---------------------------------------------------------------- cancellation

  /**
   * Cancelling answers yes for every execution of the workspace, and only for those. One that had not
   * finished is cancelled with its outstanding retry, its classification wiped; a finished one stays.
   */
  lemma CancelsIff(staff: map<UUID, Employee>, acts: seq<Action>, ws: UUID, x: UUID, now: Time)
    ensures var b := Run(START, staff, acts).board;
            var (b', res) := Cancel(b, ws, x, now);
            && (res.Success? <==> x in b.execs && b.execs[x].workspace == ws) && (res.Failure? ==> b' == b && res.error == NotFound)
            && (res.Success? && Terminal(b.execs[x].status) ==> b' == b)
            && (res.Success? && !Terminal(b.execs[x].status) ==>
                  && b'.execs == b.execs[x := b.execs[x].(
                       status := Cancelled, cancelledAt := Some(now), leaseOwner := None, leaseExpiresAt := None,
                       lastErrorCode := None, retryable := None, errorDetail := None)]
                  && Resolved(b, b', x, OutcomeCancelled, now) && b'.retries.Keys == b.retries.Keys
                  && b'.dlq == b.dlq && b'.log == b.log)
  {
    hide Run, WellFormed, TokensOk, HoldersOk, ClaimsOk;
    Reachable(staff, acts);
    var b := Run(START, staff, acts).board;
    if x in b.execs && b.execs[x].workspace == ws && !Terminal(b.execs[x].status) { ResolvingActive(b, x, ws, now); }
  }

  lemma ResolvingActive(b: Board, x: UUID, ws: UUID, now: Time)
    requires WellFormed(b) && x in b.execs && b.execs[x].workspace == ws && !Terminal(b.execs[x].status)
    ensures var retries' := ResolveRetries(b.retries, x, ws, {RetryPending, RetryClaimed, RetryDispatched}, OutcomeCancelled, now);
            retries'.Keys == b.retries.Keys && Resolved(b, b.(retries := retries'), x, OutcomeCancelled, now)
  {
    hide WellFormed;
    var r := OutstandingOne(b, x);
    OutstandingRow(b, x, r);
    forall q | q in b.retries && q != r && b.retries[q].execution == x ensures b.retries[q].state == RetryProcessed {
      if b.retries[q].Outstanding() { OneOutstanding(b, x, q, r); }
    }
  }
}
