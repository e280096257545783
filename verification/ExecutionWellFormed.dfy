/** Every transaction keeps a board well formed: dead letters, dispatch log and replay keys on top of the lanes. */
module ExecutionWellFormed {
  import opened Wrappers
  import opened ExecutionDomain
  import opened ExecutionBoard
  import opened ExecutionProtocol
  import opened ExecutionEvolution
  import opened ExecutionInvariant
  import opened RetryPolicy

  /** No execution failed in this step and no letter was written. */
  ghost predicate NoNewFailure(b: Board, b': Board) {
    && b'.dlq == b.dlq
    && forall x | x in b'.execs && b'.execs[x].status == Failed :: x in b.execs && b.execs[x].status == Failed
  }

  lemma DlqKept(b: Board, b': Board)
    requires DlqOk(b) && Evolves(b, b') && NoNewFailure(b, b')
    ensures DlqOk(b')
  {
    forall i | 0 <= i < |b'.dlq| ensures LetterOk(b', b'.dlq[i]) {
      assert LetterOk(b, b.dlq[i]);
      assert RowEvolves(b.execs[b.dlq[i].execution], b'.execs[b.dlq[i].execution]);
    }
    forall x | x in b'.execs && b'.execs[x].status == Failed ensures HasLetter(b', x) {
      assert HasLetter(b, x);
    }
  }

  lemma DlqFailed(b: Board, f: Fenced, code: ErrorCode, detail: string, snapshot: string, now: Time)
    requires DlqOk(b) && Holds(b, f) && f.attempt == b.execs[f.execution].attempt
    ensures DlqOk(FailAndDLQ(b, f, code, detail, snapshot, now).0)
  {
    hide ResolveRetries;
    var b' := FailAndDLQ(b, f, code, detail, snapshot, now).0;
    var n := |b.dlq|;
    forall i | 0 <= i < |b'.dlq| ensures LetterOk(b', b'.dlq[i]) {
      if i < n { assert LetterOk(b, b.dlq[i]); }
    }
    assert forall i | 0 <= i < n :: LetterOk(b, b.dlq[i]) && b'.dlq[i] == b.dlq[i];
    forall x | x in b'.execs && b'.execs[x].status == Failed ensures HasLetter(b', x) {
      if x == f.execution {
        assert b'.dlq[n].execution == x;
      } else {
        assert HasLetter(b, x);
        var i :| 0 <= i < |b.dlq| && b.dlq[i].execution == x;
        assert b'.dlq[i].execution == x;
      }
    }
  }

  lemma LogKept(b: Board, b': Board)
    requires LogOk(b) && Evolves(b, b') && b'.log == b.log
    ensures LogOk(b')
  {
    forall i | 0 <= i < |b'.log| ensures EntryOk(b', b'.log[i]) {
      assert EntryOk(b, b.log[i]);
      assert RetryEvolves(b.retries[b.log[i].retry], b'.retries[b.log[i].retry]);
    }
  }

  lemma LogRecorded(b: Board, ws: UUID, r: UUID, worker: string, generation: nat, success: bool, now: Time)
    requires LogOk(b)
    ensures LogOk(RecordDispatch(b, ws, r, worker, generation, success, now))
  {
    var b' := RecordDispatch(b, ws, r, worker, generation, success, now);
    forall i | 0 <= i < |b'.log| ensures EntryOk(b', b'.log[i]) {
      if i < |b.log| { assert EntryOk(b, b.log[i]); }
    }
    forall i, j | 0 <= i < j < |b'.log| && b'.log[i].retry == b'.log[j].retry ensures b'.log[i].worker == b'.log[j].worker {
      assert EntryOk(b, b.log[i]);
    }
  }

  lemma KeysKept(b: Board, b': Board)
    requires KeysOk(b) && Evolves(b, b') && b'.execs.Keys == b.execs.Keys
    ensures KeysOk(b')
  {
    forall x, y | x in b'.execs && y in b'.execs && b'.execs[x].key.Some? && b'.execs[x].key == b'.execs[y].key
                  && b'.execs[x].workspace == b'.execs[y].workspace
      ensures x == y
    {
      assert RowEvolves(b.execs[x], b'.execs[x]) && RowEvolves(b.execs[y], b'.execs[y]);
    }
  }

  /** The shape of most transactions: no letter, no log entry, no new execution. */
  lemma Plain(b: Board, b': Board, lanes: Lanes, lanes': Lanes)
    requires WellFormedBy(b, lanes) && Evolves(b, b') && LanesOk(b', lanes')
    requires NoNewFailure(b, b') && b'.log == b.log && b'.execs.Keys == b.execs.Keys
    ensures WellFormedBy(b', lanes') && WellFormed(b')
  {
    hide Evolves, LanesOk, NoNewFailure, DlqOk, LogOk, KeysOk;
    DlqKept(b, b');
    LogKept(b, b');
    KeysKept(b, b');
  }

  ghost function LanesFor(b: Board): (lanes: Lanes)
    requires WellFormed(b)
    ensures WellFormedBy(b, lanes)
  {
    var lanes :| WellFormedBy(b, lanes); lanes
  }

  lemma ClaimWellFormed(b: Board, ws: UUID, x: UUID, owner: string, ttl: int, now: Time)
    requires WellFormed(b)
    ensures WellFormed(Claim(b, ws, x, owner, ttl, now).0)
  {
    hide Evolves, LanesOk, WellFormed, DlqOk, LogOk, KeysOk, ClaimRetries;
    if Claimable(b, ws, x, now) {
      var lanes := LanesFor(b);
      var b' := Claim(b, ws, x, owner, ttl, now).0;
      ClaimKeepsLanes(b, lanes, ws, x, owner, ttl, now);
      ClaimEvolves(b, ws, x, owner, ttl, now);
      Plain(b, b', lanes, lanes);
    }
  }

  lemma CancelWellFormed(b: Board, ws: UUID, x: UUID, now: Time)
    requires WellFormed(b)
    ensures WellFormed(Cancel(b, ws, x, now).0)
  {
    hide Evolves, LanesOk, WellFormed, DlqOk, LogOk, KeysOk, ResolveRetries;
    if Cancellable(b, ws, x) {
      var lanes := LanesFor(b);
      CancelKeepsLanes(b, lanes, ws, x, now);
      CancelEvolves(b, ws, x, now);
      Plain(b, Cancel(b, ws, x, now).0, lanes, lanes);
    }
  }

  lemma ReclaimWellFormed(b: Board, ws: UUID, x: UUID, owner: string, ttl: int, now: Time)
    requires WellFormed(b)
    ensures WellFormed(ReclaimStale(b, ws, x, owner, ttl, now).0)
  {
    hide Evolves, LanesOk, WellFormed, DlqOk, LogOk, KeysOk;
    if Reclaimable(b, ws, x, now) {
      var lanes := LanesFor(b);
      RowHolds(b, lanes, x);
      RowOnlyKeepsLanes(b, lanes, x, ReclaimedRow(b.execs[x], owner, ttl, now));
      ReclaimEvolves(b, ws, x, owner, ttl, now);
      Plain(b, ReclaimStale(b, ws, x, owner, ttl, now).0, lanes, lanes);
    }
  }

  lemma RowHolds(b: Board, lanes: Lanes, x: UUID)
    requires WellFormedBy(b, lanes) && x in b.execs
    ensures RowOk(b.execs[x])
  {
    hide LanesOk, RowOk, DlqOk, LogOk, KeysOk;
    LaneOf(b, lanes, x);
  }

  lemma HeartbeatWellFormed(b: Board, f: Fenced, ttl: int, now: Time)
    requires WellFormed(b)
    ensures WellFormed(Heartbeat(b, f, ttl, now).0)
  {
    hide Evolves, LanesOk, WellFormed, DlqOk, LogOk, KeysOk;
    if Holds(b, f) {
      var lanes := LanesFor(b);
      RowHolds(b, lanes, f.execution);
      RowOnlyKeepsLanes(b, lanes, f.execution, b.execs[f.execution].(leaseExpiresAt := Some(now + ttl)));
      HeartbeatEvolves(b, f, ttl, now);
      Plain(b, Heartbeat(b, f, ttl, now).0, lanes, lanes);
    }
  }

  lemma PersistErrorWellFormed(b: Board, f: Fenced, code: ErrorCode, retryable: bool, detail: string, now: Time)
    requires WellFormed(b)
    ensures WellFormed(PersistError(b, f, code, retryable, detail, now).0)
  {
    hide Evolves, LanesOk, WellFormed, DlqOk, LogOk, KeysOk;
    if Holds(b, f) {
      var lanes := LanesFor(b);
      RowHolds(b, lanes, f.execution);
      var b' := PersistError(b, f, code, retryable, detail, now).0;
      RowOnlyKeepsLanes(b, lanes, f.execution, b'.execs[f.execution]);
      PersistErrorEvolves(b, f, code, retryable, detail, now);
      Plain(b, b', lanes, lanes);
    }
  }

  lemma CompleteWellFormed(b: Board, f: Fenced, result: string, now: Time)
    requires WellFormed(b)
    ensures WellFormed(Complete(b, f, result, now).0)
  {
    hide Evolves, LanesOk, WellFormed, DlqOk, LogOk, KeysOk, ResolveRetries;
    if Holds(b, f) {
      var lanes := LanesFor(b);
      CompleteKeepsLanes(b, lanes, f, result, now);
      CompleteEvolves(b, f, result, now);
      Plain(b, Complete(b, f, result, now).0, lanes, lanes);
    }
  }

  /** A token of another attempt can still be presented; it then holds nothing and changes nothing. */
  predicate CurrentIfHeld(b: Board, f: Fenced) {
    Holds(b, f) ==> f.attempt == b.execs[f.execution].attempt && f.maxAttempts == b.execs[f.execution].maxAttempts
  }

  lemma FailWellFormed(b: Board, f: Fenced, code: ErrorCode, detail: string, snapshot: string, now: Time)
    requires WellFormed(b) && CurrentIfHeld(b, f)
    ensures WellFormed(FailAndDLQ(b, f, code, detail, snapshot, now).0)
  {
    hide Evolves, LanesOk, WellFormed, DlqOk, LogOk, KeysOk, ResolveRetries;
    if Holds(b, f) {
      var lanes := LanesFor(b);
      var b' := FailAndDLQ(b, f, code, detail, snapshot, now).0;
      FailKeepsLanes(b, lanes, f, code, detail, snapshot, now);
      FailEvolves(b, f, code, detail, snapshot, now);
      DlqFailed(b, f, code, detail, snapshot, now);
      LogKept(b, b');
      KeysKept(b, b');
      Witness(b', lanes);
    }
  }

  lemma Witness(b: Board, lanes: Lanes)
    requires LanesOk(b, lanes) && DlqOk(b) && LogOk(b) && KeysOk(b)
    ensures WellFormed(b)
  {
    hide LanesOk, DlqOk, LogOk, KeysOk;
    assert WellFormedBy(b, lanes);
  }

  lemma RescheduleWellFormed(b: Board, f: Fenced, next: Time, newId: UUID, now: Time)
    requires WellFormed(b) && CurrentIfHeld(b, f) && f.attempt < f.maxAttempts
    ensures WellFormed(Reschedule(b, f, next, f.attempt + 1, newId, now).0)
    ensures Holds(b, f) && newId !in b.retries ==> Reschedule(b, f, next, f.attempt + 1, newId, now).1.Success?
  {
    hide Evolves, LanesOk, WellFormed, DlqOk, LogOk, KeysOk, OutstandingRetries;
    if Holds(b, f) && newId !in b.retries {
      var lanes := LanesFor(b);
      RescheduleKeepsLanes(b, lanes, f, next, newId, now);
      RescheduleEvolves(b, f, next, f.attempt + 1, newId, now);
      Plain(b, Reschedule(b, f, next, f.attempt + 1, newId, now).0, lanes, lanes[f.execution := lanes[f.execution] + [newId]]);
    }
  }

  lemma RecordWellFormed(b: Board, ws: UUID, r: UUID, worker: string, generation: nat, success: bool, now: Time)
    requires WellFormed(b)
    ensures WellFormed(RecordDispatch(b, ws, r, worker, generation, success, now))
  {
    hide Evolves, LanesOk, WellFormed, DlqOk, LogOk, KeysOk;
    if Dispatchable(b, ws, r, worker, generation) {
      var lanes := LanesFor(b);
      var b' := RecordDispatch(b, ws, r, worker, generation, success, now);
      RecordKeepsLanes(b, lanes, ws, r, worker, generation, success, now);
      RecordEvolves(b, ws, r, worker, generation, success, now);
      LogRecorded(b, ws, r, worker, generation, success, now);
      DlqKept(b, b');
      KeysKept(b, b');
      Witness(b', lanes);
    }
  }

  lemma InsertedKeys(b: Board, req: AdmitRequest, hash: RequestHash, id: UUID, retryId: UUID, now: Time)
    requires KeysOk(b) && req.maxAttempts > 0 && id !in b.execs
    requires req.key != "" ==> Keyed(b.execs, req.workspace, req.key) == {}
    ensures KeysOk(Inserted(b, req, hash, id, retryId, now))
  {
    assert forall y | y in b.execs && b.execs[y].workspace == req.workspace && b.execs[y].key == Some(req.key)
        :: req.key != "" ==> y in Keyed(b.execs, req.workspace, req.key);
  }

  lemma AdmissionWellFormed(b: Board, staff: map<UUID, Employee>, req: AdmitRequest, id: UUID, retryId: UUID, now: Time)
    requires WellFormed(b)
    ensures WellFormed(ServiceAdmission(b, staff, req, id, retryId, now).0)
  {
    hide Evolves, LanesOk, WellFormed, DlqOk, LogOk, KeysOk, Inserted, Keyed, Active;
    var r := req.(maxAttempts := DefaultAttempts(req.maxAttempts));
    var hash := RequestHash(r.employee, r.task, r.maxAttempts);
    if id !in b.execs && retryId !in b.retries && (r.key != "" ==> Keyed(b.execs, r.workspace, r.key) == {}) {
      InsertedWellFormed(b, r, hash, id, retryId, now);
    }
  }

  lemma InsertedWellFormed(b: Board, r: AdmitRequest, hash: RequestHash, id: UUID, retryId: UUID, now: Time)
    requires WellFormed(b) && id !in b.execs && retryId !in b.retries
    requires r.maxAttempts > 0 && hash == RequestHash(r.employee, r.task, r.maxAttempts)
    requires r.key != "" ==> Keyed(b.execs, r.workspace, r.key) == {}
    ensures WellFormed(Inserted(b, r, hash, id, retryId, now))
  {
    hide Evolves, LanesOk, WellFormed, DlqOk, LogOk, KeysOk, Keyed;
    var lanes := LanesFor(b);
    var b' := Inserted(b, r, hash, id, retryId, now);
    InsertKeepsLanes(b, lanes, r, hash, id, retryId, now);
    InsertedEvolves(b, r, hash, id, retryId, now);
    InsertedKeys(b, r, hash, id, retryId, now);
    DlqKept(b, b');
    LogKept(b, b');
    Witness(b', lanes[id := [retryId]]);
  }
}
