/**
 * The Postgres adapter: one method per transaction, updating the tables in place. Each method
 * computes its transition function on the board the tables hold, and returns what that returns.
 */
module PostgresExecutions {
  import opened Wrappers
  import opened ExecutionDomain
  import opened ExecutionBoard
  import opened Sets

  /** The two partial unique indexes the database enforces on these tables. */
  ghost predicate UniqueIndexes(b: Board) {
    && (forall r, s | r in b.retries && s in b.retries && b.retries[r].Outstanding() && b.retries[s].Outstanding()
                      && b.retries[r].execution == b.retries[s].execution && b.retries[r].workspace == b.retries[s].workspace
          :: r == s)
    && (forall x, y | x in b.execs && y in b.execs && b.execs[x].key.Some? && b.execs[x].key == b.execs[y].key
                      && b.execs[x].workspace == b.execs[y].workspace
          :: x == y)
  }

  class ExecutionStore {
    const staff: map<UUID, Employee>
    var execs: map<UUID, Exec>
    var retries: map<UUID, Retry>
    var dlq: seq<DeadLetter>
    var log: seq<Dispatch>

    ghost function State(): Board
      reads this
    {
      Board(execs, retries, dlq, log)
    }

    ghost predicate Valid()
      reads this
    {
      UniqueIndexes(State())
    }

    constructor (staff: map<UUID, Employee>)
      ensures Valid() && State() == EMPTY && this.staff == staff
    {
      this.staff := staff;
      execs, retries, dlq, log := map[], map[], [], [];
    }

    method AdmissionAdmit(req: AdmitRequest, hash: RequestHash, id: UUID, retryId: UUID, now: Time)
      returns (res: Result<Admitted, StoreError>)
      requires Valid()
      requires forall r | r in retries :: retries[r].execution in execs  // the foreign key on execution_id
      modifies this
      ensures (State(), res) == ExecutionBoard.AdmissionAdmit(old(State()), staff, req, hash, id, retryId, now)
      ensures Valid()
    {
      if req.key != "" {
        var keyed := Keyed(execs, req.workspace, req.key);
        if keyed != {} {
          var x :| x in keyed;
          return Success(Admitted(x, execs[x], false, execs[x].status == Completed));
        }
      }
      if req.employee !in staff || staff[req.employee].workspace != req.workspace {
        return Failure(NotFound);
      }
      if |Active(execs, req.workspace, req.employee)| >= staff[req.employee].cap {
        return Failure(CapacityExceeded);
      }
      if id in execs {
        return Failure(IdempotencyKeyConflict);
      }
      if req.maxAttempts <= 0 || retryId in retries {
        return Failure(Database);
      }
      assert forall y | y in execs && execs[y].workspace == req.workspace && execs[y].key == Some(req.key)
          :: req.key != "" ==> y in Keyed(execs, req.workspace, req.key);
      var row := AdmittedRow(req, hash, now);
      execs := execs[id := row];
      retries := retries[retryId := NewRetry(id, req.workspace, 1, 0, None)];
      return Success(Admitted(id, row, true, false));
    }

    method Cancel(ws: UUID, x: UUID, now: Time) returns (res: Result<(), StoreError>)
      requires Valid()
      modifies this
      ensures (State(), res) == ExecutionBoard.Cancel(old(State()), ws, x, now)
      ensures Valid()
    {
      if x in execs && execs[x].workspace == ws && execs[x].status in {Pending, Running} {
        execs := execs[x := CancelledRow(execs[x], now)];
        retries := ResolveRetries(retries, x, ws, {RetryPending, RetryClaimed, RetryDispatched}, OutcomeCancelled, now);
        return Success(());
      }
      if x in execs && execs[x].workspace == ws {
        return Success(());
      }
      return Failure(NotFound);
    }

    method Claim(ws: UUID, x: UUID, owner: string, ttl: int, now: Time) returns (res: Result<Fenced, StoreError>)
      requires Valid()
      modifies this
      ensures (State(), res) == ExecutionBoard.Claim(old(State()), ws, x, owner, ttl, now)
      ensures Valid()
    {
      if x !in execs || execs[x].workspace != ws || !Due(execs[x], now) || execs[x].attempt >= execs[x].maxAttempts {
        return Failure(NotFound);
      }
      var e := ClaimedRow(execs[x], owner, ttl, now);
      var pending := PendingRetries(retries, x, ws);
      if pending == {} {
        return Failure(NotFound);  // the join is empty: the whole statement is rolled back
      }
      var r :| r in pending;
      assert r == Pick(pending);
      execs := execs[x := e];
      retries := ClaimRetries(retries, x, ws, owner, e.leaseGeneration, now);
      return Success(ClaimToken(x, e, r));
    }

    method ReclaimStale(ws: UUID, x: UUID, owner: string, ttl: int, now: Time) returns (res: Result<Fenced, StoreError>)
      requires Valid()
      modifies this
      ensures (State(), res) == ExecutionBoard.ReclaimStale(old(State()), ws, x, owner, ttl, now)
      ensures Valid()
    {
      if x !in execs || execs[x].workspace != ws || !Stale(execs[x], now) {
        return Failure(NotFound);
      }
      var e := ReclaimedRow(execs[x], owner, ttl, now);
      var pending := PendingRetries(retries, x, ws);
      var retry := NIL;
      if pending != {} {
        var r :| r in pending;
        assert r == Pick(pending);
        retry := r;
      }
      execs := execs[x := e];
      return Success(Fenced(x, e.workspace, e.employee, owner, e.leaseGeneration, now + ttl,
                            e.attempt, e.maxAttempts, retry, e.lastErrorCode, e.retryable, e.nextRetryAt));
    }

    method Heartbeat(f: Fenced, ttl: int, now: Time) returns (res: Result<(), StoreError>)
      requires Valid()
      modifies this
      ensures (State(), res) == ExecutionBoard.Heartbeat(old(State()), f, ttl, now)
      ensures Valid()
    {
      var held := Fence(f);
      if !held {
        return Failure(StaleLease);
      }
      execs := execs[f.execution := execs[f.execution].(leaseExpiresAt := Some(now + ttl))];
      return Success(());
    }

    method PersistError(f: Fenced, code: ErrorCode, retryable: bool, detail: string, now: Time)
      returns (res: Result<(), StoreError>)
      requires Valid()
      modifies this
      ensures (State(), res) == ExecutionBoard.PersistError(old(State()), f, code, retryable, detail, now)
      ensures Valid()
    {
      var held := Fence(f);
      if !held {
        return Failure(StaleLease);
      }
      execs := execs[f.execution := execs[f.execution].(
        lastErrorCode := Some(code), retryable := Some(retryable), errorDetail := Nullable(detail), updatedAt := now)];
      return Success(());
    }

    method Complete(f: Fenced, result: string, now: Time) returns (res: Result<(), StoreError>)
      requires Valid()
      modifies this
      ensures (State(), res) == ExecutionBoard.Complete(old(State()), f, result, now)
      ensures Valid()
    {
      var held := Fence(f);
      if !held {
        return Failure(StaleLease);
      }
      execs := execs[f.execution := CompletedRow(execs[f.execution], result, now)];
      retries := ResolveRetries(retries, f.execution, f.workspace, IN_FLIGHT, OutcomeSuccess, now);
      return Success(());
    }

    method FailAndDLQ(f: Fenced, code: ErrorCode, detail: string, snapshot: string, now: Time)
      returns (res: Result<(), StoreError>)
      requires Valid()
      modifies this
      ensures (State(), res) == ExecutionBoard.FailAndDLQ(old(State()), f, code, detail, snapshot, now)
      ensures Valid()
    {
      var held := Fence(f);
      if !held {
        return Failure(StaleLease);
      }
      execs := execs[f.execution := FailedRow(execs[f.execution], code, Nullable(detail), now)];
      retries := ResolveRetries(retries, f.execution, f.workspace, IN_FLIGHT, OutcomeFailed, now);
      dlq := dlq + [DeadLetter(f.workspace, f.execution, f.attempt, code, Nullable(detail), Nullable(snapshot))];
      return Success(());
    }

    method Reschedule(f: Fenced, next: Time, seqNo: int, newId: UUID, now: Time) returns (res: Result<(), StoreError>)
      requires Valid()
      modifies this
      ensures (State(), res) == ExecutionBoard.Reschedule(old(State()), f, next, seqNo, newId, now)
      ensures Valid()
    {
      hide UniqueIndexes, ResolveRetries, OutstandingRetries;
      RescheduleKeepsIndexes(State(), f, next, seqNo, newId, now);
      var held := Fence(f);
      if !held {
        return Failure(StaleLease);
      }
      var resolved := ResolveRetries(retries, f.execution, f.workspace, IN_FLIGHT, OutcomeFailed, now);
      if newId in resolved || seqNo <= 0 || OutstandingRetries(resolved, f.execution, f.workspace) != {} {
        return Failure(Database);  // the insert violates a constraint: everything is rolled back
      }
      execs := execs[f.execution := RescheduledRow(execs[f.execution], next, now)];
      retries := resolved[newId := NewRetry(f.execution, f.workspace, seqNo, f.generation, Some(next))];
      return Success(());
    }

    /** The insert finds no outstanding row of the execution, and the rows it resolved were of no other. */
    lemma RescheduleKeepsIndexes(b: Board, f: Fenced, next: Time, seqNo: int, newId: UUID, now: Time)
      requires UniqueIndexes(b)
      ensures UniqueIndexes(ExecutionBoard.Reschedule(b, f, next, seqNo, newId, now).0)
    {
      hide UniqueIndexes, ResolveRetries;
      var resolved := ResolveRetries(b.retries, f.execution, f.workspace, IN_FLIGHT, OutcomeFailed, now);
      if Holds(b, f) && OutstandingRetries(resolved, f.execution, f.workspace) == {} {
        ResolvingKeepsIndexes(b, f, next, now);
        var b1 := b.(execs := b.execs[f.execution := RescheduledRow(b.execs[f.execution], next, now)], retries := resolved);
        InsertKeepsIndexes(b1, newId, NewRetry(f.execution, f.workspace, seqNo, f.generation, Some(next)));
      }
    }

    lemma ResolvingKeepsIndexes(b: Board, f: Fenced, next: Time, now: Time)
      requires UniqueIndexes(b) && f.execution in b.execs
      ensures UniqueIndexes(b.(execs := b.execs[f.execution := RescheduledRow(b.execs[f.execution], next, now)],
                               retries := ResolveRetries(b.retries, f.execution, f.workspace, IN_FLIGHT, OutcomeFailed, now)))
    {
    }

    lemma InsertKeepsIndexes(b: Board, newId: UUID, row: Retry)
      requires UniqueIndexes(b) && OutstandingRetries(b.retries, row.execution, row.workspace) == {}
      ensures UniqueIndexes(b.(retries := b.retries[newId := row]))
    {
      assert forall r | r in b.retries && b.retries[r].execution == row.execution && b.retries[r].workspace == row.workspace
        :: r !in OutstandingRetries(b.retries, row.execution, row.workspace);
    }

    method RecordDispatch(ws: UUID, r: UUID, worker: string, generation: nat, success: bool, now: Time)
      requires Valid()
      modifies this
      ensures State() == ExecutionBoard.RecordDispatch(old(State()), ws, r, worker, generation, success, now)
      ensures Valid()
    {
      if success && r in retries && retries[r].workspace == ws && retries[r].state == RetryClaimed
         && retries[r].worker == Some(worker) && retries[r].generation == generation {
        retries := retries[r := Flipped(retries[r], now)];
      }
      if r in retries && retries[r].workspace == ws && retries[r].worker == Some(worker)
         && retries[r].generation == generation && retries[r].state in IN_FLIGHT {
        log := log + [Dispatch(ws, r, worker, generation, success)];
      }
    }

    /** RowsAffected of a fenced UPDATE: whether its WHERE clause still matches. */
    method Fence(f: Fenced) returns (held: bool)
      ensures held == Holds(State(), f)
    {
      held := f.execution in execs && execs[f.execution].workspace == f.workspace
              && execs[f.execution].status == Running && execs[f.execution].leaseOwner == Some(f.owner)
              && execs[f.execution].leaseGeneration == f.generation;
    }

    /** The limit oldest due executions of a workspace, oldest first. */
    method GetDue(ws: UUID, limit: nat, now: Time) returns (ids: seq<UUID>)
      ensures OldestFirst(DueIds(execs, ws, now), CreatedAt(execs), limit, ids)
      ensures forall x | x in ids :: x in execs && execs[x].workspace == ws && execs[x].status == Pending
                                     && (execs[x].nextRetryAt == None || execs[x].nextRetryAt.value <= now)
      ensures forall i, j | 0 <= i < j < |ids| :: execs[ids[i]].createdAt <= execs[ids[j]].createdAt
      // What is left out is not due, or no older than what is listed, the page then being full.
      ensures forall x | x in execs && execs[x].workspace == ws && execs[x].status == Pending && x !in ids
                         && (execs[x].nextRetryAt == None || execs[x].nextRetryAt.value <= now)
                :: |ids| == limit && forall i | 0 <= i < |ids| :: execs[ids[i]].createdAt <= execs[x].createdAt
    {
      ids := TakeOldest(DueIds(execs, ws, now), CreatedAt(execs), limit);
      FullOrAll(DueIds(execs, ws, now), CreatedAt(execs), limit, ids);
    }

    /** The limit longest-expired running executions of a workspace, oldest expiry first. */
    method GetStale(ws: UUID, limit: nat, now: Time) returns (ids: seq<UUID>)
      ensures OldestFirst(StaleIds(execs, ws, now), ExpiresAt(execs), limit, ids)
      ensures forall x | x in ids :: x in execs && execs[x].workspace == ws && execs[x].status == Running
                                     && execs[x].leaseExpiresAt.Some? && execs[x].leaseExpiresAt.value < now
      ensures forall i, j | 0 <= i < j < |ids| :: execs[ids[i]].leaseExpiresAt.value <= execs[ids[j]].leaseExpiresAt.value
      ensures forall x | x in execs && execs[x].workspace == ws && execs[x].status == Running && x !in ids
                         && execs[x].leaseExpiresAt.Some? && execs[x].leaseExpiresAt.value < now
                :: |ids| == limit && forall i | 0 <= i < |ids| :: execs[ids[i]].leaseExpiresAt.value <= execs[x].leaseExpiresAt.value
    {
      ids := TakeOldest(StaleIds(execs, ws, now), ExpiresAt(execs), limit);
      FullOrAll(StaleIds(execs, ws, now), ExpiresAt(execs), limit, ids);
    }
  }

  function DueIds(execs: map<UUID, Exec>, ws: UUID, now: Time): set<UUID> {
    set x | x in execs && execs[x].workspace == ws && Due(execs[x], now)
  }

  function StaleIds(execs: map<UUID, Exec>, ws: UUID, now: Time): set<UUID> {
    set x | x in execs && execs[x].workspace == ws && Stale(execs[x], now)
  }

  function CreatedAt(execs: map<UUID, Exec>): map<UUID, Time> {
    map x | x in execs :: execs[x].createdAt
  }

  function ExpiresAt(execs: map<UUID, Exec>): map<UUID, Time> {
    map x | x in execs && execs[x].leaseExpiresAt.Some? :: execs[x].leaseExpiresAt.value
  }

  /** SELECT ... ORDER BY stamp ASC LIMIT n over the matching rows. */
  ghost predicate OldestFirst(rows: set<UUID>, stamp: map<UUID, Time>, limit: nat, ids: seq<UUID>)
  {
    && rows <= stamp.Keys
    && |ids| == (if |rows| <= limit then |rows| else limit)
    && (forall i | 0 <= i < |ids| :: ids[i] in rows)
    && (forall i, j | 0 <= i < j < |ids| :: ids[i] != ids[j] && stamp[ids[i]] <= stamp[ids[j]])
    && (forall i, x | 0 <= i < |ids| && x in rows && x !in ids :: stamp[ids[i]] <= stamp[x])
  }

  /** A row left out of the listing means that the listing is full. */
  lemma FullOrAll(rows: set<UUID>, stamp: map<UUID, Time>, limit: nat, ids: seq<UUID>)
    requires OldestFirst(rows, stamp, limit, ids)
    ensures forall x | x in rows && x !in ids :: |ids| == limit
  {
    if x :| x in rows && x !in ids {
      var listed := set i | 0 <= i < |ids| :: ids[i];
      ListedSize(ids);
      ProperSubsetSize(listed, rows, x);
    }
  }

  lemma {:induction false} ListedSize(ids: seq<UUID>)
    requires forall i, j | 0 <= i < j < |ids| :: ids[i] != ids[j]
    ensures |set i | 0 <= i < |ids| :: ids[i]| == |ids|
  {
    if ids != [] {
      var init := ids[..|ids| - 1];
      ListedSize(init);
      assert (set i | 0 <= i < |ids| :: ids[i]) == (set i | 0 <= i < |init| :: init[i]) + {ids[|ids| - 1]};
    }
  }

  method TakeOldest(rows: set<UUID>, stamp: map<UUID, Time>, limit: nat) returns (ids: seq<UUID>)
    requires rows <= stamp.Keys
    ensures OldestFirst(rows, stamp, limit, ids)
  {
    ids := [];
    var left := rows;
    while |ids| < limit && left != {}
      invariant left <= rows && |left| + |ids| == |rows| && |ids| <= limit
      invariant forall x :: x in rows <==> x in left || x in ids
      invariant forall i | 0 <= i < |ids| :: ids[i] !in left
      invariant forall i, j | 0 <= i < j < |ids| :: ids[i] != ids[j] && stamp[ids[i]] <= stamp[ids[j]]
      invariant forall i, x | 0 <= i < |ids| && x in left :: stamp[ids[i]] <= stamp[x]
      decreases left
    {
      var m := Oldest(left, stamp);
      ids := ids + [m];
      left := left - {m};
    }
  }

  method Oldest(rows: set<UUID>, stamp: map<UUID, Time>) returns (m: UUID)
    requires rows != {} && rows <= stamp.Keys
    ensures m in rows && forall x | x in rows :: stamp[m] <= stamp[x]
  {
    m :| m in rows;
    var left := rows - {m};
    while left != {}
      invariant m in rows && left <= rows
      invariant forall x | x in rows - left :: stamp[m] <= stamp[x]
      decreases left
    {
      var y :| y in left;
      left := left - {y};
      if stamp[y] < stamp[m] { m := y; }
    }
  }
}
