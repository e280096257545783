/** Admission: per-employee capacity and idempotent replay, over every reachable board. */
module ExecutionAdmission {
  import opened Wrappers
  import opened ExecutionDomain
  import opened ExecutionBoard
  import opened ExecutionProtocol
  import opened ExecutionEvolution
  import opened ExecutionInvariant
  import opened ExecutionWellFormed
  import opened ExecutionSystem
  import opened ExecutionRuns
  import opened PostgresExecutions
  import opened Sets

  /** Admit drives the store and then decides whether a hit on the key is a replay. */
  class Service {
    const store: ExecutionStore

    constructor (store: ExecutionStore)
      ensures this.store == store
    {
      this.store := store;
    }

    method Admit(req: AdmitRequest, id: UUID, retryId: UUID, now: Time) returns (res: Result<Admitted, StoreError>)
      requires store.Valid()
      requires forall r | r in store.retries :: store.retries[r].execution in store.execs
      modifies store
      ensures (store.State(), res) == ServiceAdmit(old(store.State()), store.staff, req, id, retryId, now)
      ensures store.Valid()
    {
      if req.workspace == NIL { return Failure(WorkspaceMismatch); }
      if req.employee == NIL { return Failure(InvalidInput); }
      var r := req;
      if r.maxAttempts <= 0 { r := r.(maxAttempts := 3); }
      var hash := RequestHash(r.employee, r.task, r.maxAttempts);
      res := store.AdmissionAdmit(r, hash, id, retryId, now);
      if res.Success? && !res.value.created {
        if !SameRequest(r, res.value.row) || res.value.row.hash != hash {
          res := Failure(IdempotencyKeyConflict);
        }
      }
    }
  }

  /** Pending and running executions of an employee in its workspace. */
  function ActiveCount(b: Board, staff: map<UUID, Employee>, emp: UUID): nat
    requires emp in staff
  {
    |Active(b.execs, staff[emp].workspace, emp)|
  }

  /** Without an insert, nobody becomes active. */
  lemma ActiveShrinks(b: Board, b': Board, ws: UUID, emp: UUID)
    requires Evolves(b, b') && b'.execs.Keys == b.execs.Keys
    ensures Active(b'.execs, ws, emp) <= Active(b.execs, ws, emp)
  {
    forall x | x in Active(b'.execs, ws, emp) ensures x in Active(b.execs, ws, emp) {
      assert RowEvolves(b.execs[x], b'.execs[x]);
    }
  }

  /** A step inserts at most one execution, within the capacity of its employee. */
  lemma InsertWithinCapacity(s: System, staff: map<UUID, Employee>, a: Action)
    requires Step(s, staff, a).board.execs.Keys != s.board.execs.Keys
    ensures a.Admit? && a.id !in s.board.execs && a.req.employee in staff
    ensures var r := a.req.(maxAttempts := DefaultAttempts(a.req.maxAttempts));
            r.maxAttempts > 0
            && Step(s, staff, a).board.execs == s.board.execs[a.id := AdmittedRow(r, RequestHash(r.employee, r.task, r.maxAttempts), a.now)]
    ensures staff[a.req.employee].workspace == a.req.workspace
    ensures |Active(s.board.execs, a.req.workspace, a.req.employee)| < staff[a.req.employee].cap
  {
    hide ResolveRetries, ClaimRetries, PendingRetries, OutstandingRetries, Keyed, Active, AdmittedRow;
  }

  lemma StepKeepsCapacity(s: System, staff: map<UUID, Employee>, a: Action, emp: UUID)
    requires emp in staff && ActiveCount(s.board, staff, emp) <= staff[emp].cap
    ensures ActiveCount(Step(s, staff, a).board, staff, emp) <= staff[emp].cap
  {
    hide Step, Evolves;
    var b, b' := s.board, Step(s, staff, a).board;
    var ws := staff[emp].workspace;
    if b'.execs.Keys == b.execs.Keys {
      StepEvolves(s, staff, a);
      ActiveShrinks(b, b', ws, emp);
      SubsetSize(Active(b'.execs, ws, emp), Active(b.execs, ws, emp));
    } else {
      InsertWithinCapacity(s, staff, a);
      if a.req.employee == emp {
        assert Active(b'.execs, ws, emp) <= Active(b.execs, ws, emp) + {a.id};
        SubsetSize(Active(b'.execs, ws, emp), Active(b.execs, ws, emp) + {a.id});
      } else {
        SubsetSize(Active(b'.execs, ws, emp), Active(b.execs, ws, emp));
      }
    }
  }

  /** In every reachable state no employee has more unfinished executions than its cap. */
  lemma CapacityHolds(staff: map<UUID, Employee>, acts: seq<Action>, emp: UUID)
    requires emp in staff
    ensures var b := Run(START, staff, acts).board;
            |Unfinished(b, staff[emp].workspace, emp)| <= staff[emp].cap
  {
    hide Run;
    ActiveHolds(staff, acts, emp);
    ActiveIsUnfinished(Run(START, staff, acts).board, staff[emp].workspace, emp);
  }

  /** The executions of an employee that are neither completed, failed nor cancelled. */
  function Unfinished(b: Board, ws: UUID, emp: UUID): set<UUID> {
    set x | x in b.execs && b.execs[x].workspace == ws && b.execs[x].employee == emp && !Terminal(b.execs[x].status)
  }

  lemma ActiveIsUnfinished(b: Board, ws: UUID, emp: UUID)
    ensures Active(b.execs, ws, emp) == Unfinished(b, ws, emp)
  {
  }

  lemma {:induction false} ActiveHolds(staff: map<UUID, Employee>, acts: seq<Action>, emp: UUID)
    requires emp in staff
    ensures ActiveCount(Run(START, staff, acts).board, staff, emp) <= staff[emp].cap
  {
    hide Step;
    if acts == [] {
      assert Active(EMPTY.execs, staff[emp].workspace, emp) == {};
    } else {
      var n := |acts| - 1;
      ActiveHolds(staff, acts[..n], emp);
      StepKeepsCapacity(Run(START, staff, acts[..n]), staff, acts[n], emp);
    }
  }

  /** In every reachable state a (workspace, key) pair names at most one execution. */
  lemma KeyNamesOneExecution(staff: map<UUID, Employee>, acts: seq<Action>, x: UUID, y: UUID)
    requires var b := Run(START, staff, acts).board;
             x in b.execs && y in b.execs && b.execs[x].workspace == b.execs[y].workspace
             && b.execs[x].key.Some? && b.execs[x].key == b.execs[y].key
    ensures x == y
  {
    hide Run, LanesOk, DlqOk, LogOk;
    Reachable(staff, acts);
    var lanes := LanesFor(Run(START, staff, acts).board);
  }

  /**
   * A repeat of a key already used, in any reachable state: the board is untouched, and the caller
   * gets the execution the key names exactly when employee, task and attempt budget (an unstated
   * budget counting as 3) are the ones it was admitted with; otherwise a conflict.
   */
  lemma ReplayIsExact(staff: map<UUID, Employee>, acts: seq<Action>, x: UUID, req: AdmitRequest, id: UUID, retryId: UUID, now: Time)
    requires x in Run(START, staff, acts).board.execs
    requires var e := Run(START, staff, acts).board.execs[x]; e.workspace == req.workspace && e.key == Some(req.key)
    requires req.workspace != NIL && req.employee != NIL && req.key != ""
    ensures var b := Run(START, staff, acts).board;
            var e := b.execs[x];
            ServiceAdmit(b, staff, req, id, retryId, now)
            == (b, if e.employee == req.employee && e.task == req.task && e.maxAttempts == (if req.maxAttempts <= 0 then 3 else req.maxAttempts)
                   then Success(Admitted(x, e, false, e.status == Completed)) else Failure(IdempotencyKeyConflict))
  {
    hide Run, SystemInv, Active, Inserted;
    Reachable(staff, acts);
    var b := Run(START, staff, acts).board;
    WithinBudget(Run(START, staff, acts), x);
    var keyed := Keyed(b.execs, req.workspace, req.key);
    assert x in keyed;
    forall y | y in keyed ensures y == x { KeyNamesOneExecution(staff, acts, x, y); }
    assert Pick(keyed) == x;
  }

  /**
   * A request under no key in use, with fresh ids, is admitted exactly if its employee is one of the
   * workspace with fewer unfinished executions than its cap; otherwise nothing changes, and the answer
   * says which of the two failed.
   */
  lemma AdmitsIff(b: Board, staff: map<UUID, Employee>, req: AdmitRequest, id: UUID, retryId: UUID, now: Time)
    requires req.workspace != NIL && req.employee != NIL && id !in b.execs && retryId !in b.retries
    requires req.key == "" || forall x | x in b.execs && b.execs[x].workspace == req.workspace :: b.execs[x].key != Some(req.key)
    ensures var (b', res) := ServiceAdmit(b, staff, req, id, retryId, now);
            var known := req.employee in staff && staff[req.employee].workspace == req.workspace;
            var room := known && |Unfinished(b, req.workspace, req.employee)| < staff[req.employee].cap;
            && (res.Success? <==> room)
            && (!room ==> b' == b && res == Failure(if known then CapacityExceeded else NotFound))
            && (room ==>
                  && Fresh(b'.execs[id], req, now) && res == Success(Admitted(id, b'.execs[id], true, false))
                  && b' == b.(execs := b.execs[id := b'.execs[id]],
                              retries := b.retries[retryId := Retry(id, req.workspace, 1, RetryPending, None, None, 0, None, None, None, None)]))
  {
    ActiveIsUnfinished(b, req.workspace, req.employee);
    if req.key != "" { assert Keyed(b.execs, req.workspace, req.key) == {}; }
  }

  /** A newly admitted row: what was asked for, three attempts unless a budget was named, nothing begun. */
  predicate Fresh(e: Exec, req: AdmitRequest, now: Time) {
    && (e.workspace, e.employee, e.task) == (req.workspace, req.employee, req.task)
    && e.maxAttempts == (if req.maxAttempts <= 0 then 3 else req.maxAttempts) && e.attempt == 0 && e.status == Pending
    && e.key == (if req.key == "" then None else Some(req.key))
    && e.hash == RequestHash(req.employee, req.task, e.maxAttempts)
    && e.leaseOwner == None && e.leaseExpiresAt == None && e.leaseGeneration == 0 && e.nextRetryAt == None
    && e.lastErrorCode == None && e.retryable == None && e.errorDetail == None && e.result == None
    && e.completedAt == None && e.failedAt == None && e.cancelledAt == None && e.createdAt == e.updatedAt == now
  }

  /** An invalid request is refused before it reaches the store. */
  lemma InvalidIsRefused(b: Board, staff: map<UUID, Employee>, req: AdmitRequest, id: UUID, retryId: UUID, now: Time)
    requires req.workspace == NIL || req.employee == NIL
    ensures ServiceAdmit(b, staff, req, id, retryId, now) == (b, Failure(if req.workspace == NIL then WorkspaceMismatch else InvalidInput))
  {
  }
}
