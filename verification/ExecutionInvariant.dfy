/**
 * Well-formed boards. The retry rows of an execution form a lane: row k carries sequence number k,
 * every row but the last is spent, and the last one mirrors the execution's status.
 */
module ExecutionInvariant {
  import opened Wrappers
  import opened ExecutionDomain
  import opened ExecutionBoard

  /** For each execution, its retry ids in sequence order: an index the invariant exhibits. */
  type Lanes = map<UUID, seq<UUID>>

  /** The row constraints, lease_locked and the attempt bounds among them. */
  predicate RowOk(e: Exec) {
    && (e.status == Running <==> e.leaseOwner.Some?)
    && (e.status == Running <==> e.leaseExpiresAt.Some?)
    && 0 < e.maxAttempts && e.attempt <= e.maxAttempts
    && (e.status == Pending ==> e.attempt < e.maxAttempts)
    && e.attempt <= e.leaseGeneration
    && (e.status == Completed <==> e.completedAt.Some? && e.result.Some?)
    && (e.status == Failed <==> e.failedAt.Some?)
    && (e.status == Cancelled <==> e.cancelledAt.Some?)
    && e.hash == RequestHash(e.employee, e.task, e.maxAttempts)
  }

  predicate Spent(r: Retry) {
    r.state == RetryProcessed && r.outcome == Some(OutcomeFailed) && r.worker == None
  }

  /** The last retry row against the execution row, n being the number of rows. */
  predicate LastOk(e: Exec, n: nat, r: Retry) {
    match e.status
    case Pending => n == e.attempt + 1 && r.state == RetryPending && r.outcome == None && r.worker == None
    case Running => n == e.attempt && r.state in IN_FLIGHT && r.outcome == None && r.worker.Some?
    case Completed => n == e.attempt && r.state == RetryProcessed && r.outcome == Some(OutcomeSuccess) && r.worker == None
    case Failed => n == e.attempt && Spent(r)
    case Cancelled => e.attempt <= n <= e.attempt + 1 && r.state == RetryProcessed && r.outcome == Some(OutcomeCancelled) && r.worker == None
  }

  predicate InLane(e: Exec, x: UUID, k: int, r: Retry) {
    r.execution == x && r.workspace == e.workspace && r.seqNo == k + 1 && r.generation <= e.leaseGeneration
  }

  predicate LaneOk(b: Board, x: UUID, lane: seq<UUID>)
    requires x in b.execs
  {
    var e := b.execs[x];
    && lane != []
    && (forall k | 0 <= k < |lane| :: lane[k] in b.retries && InLane(e, x, k, b.retries[lane[k]]))
    && (forall k | 0 <= k < |lane| - 1 :: Spent(b.retries[lane[k]]))
    && LastOk(e, |lane|, b.retries[lane[|lane| - 1]])
  }

  /** Every execution has a lane, and every retry row is in exactly one place of one lane. */
  ghost predicate LanesOk(b: Board, lanes: Lanes) {
    && lanes.Keys == b.execs.Keys
    && (forall x | x in b.execs :: RowOk(b.execs[x]) && LaneOk(b, x, lanes[x]))
    && (forall r | r in b.retries :: Indexed(b.retries[r], r, lanes))
  }

  predicate Indexed(row: Retry, r: UUID, lanes: Lanes) {
    row.execution in lanes && 1 <= row.seqNo <= |lanes[row.execution]| && lanes[row.execution][row.seqNo - 1] == r
  }

  /** Dead letters and failed executions correspond one to one. */
  ghost predicate DlqOk(b: Board) {
    && (forall i | 0 <= i < |b.dlq| :: LetterOk(b, b.dlq[i]))
    && (forall i, j | 0 <= i < j < |b.dlq| :: b.dlq[i].execution != b.dlq[j].execution)
    && (forall x | x in b.execs && b.execs[x].status == Failed :: HasLetter(b, x))
  }

  predicate LetterOk(b: Board, d: DeadLetter) {
    && d.execution in b.execs
    && var e := b.execs[d.execution];
       e.status == Failed && d.workspace == e.workspace && d.attempt == e.attempt && e.lastErrorCode == Some(d.code)
  }

  ghost predicate HasLetter(b: Board, x: UUID) {
    exists i :: 0 <= i < |b.dlq| && b.dlq[i].execution == x
  }

  /** Every log entry names a claimed retry at the generation of its claim, and its worker while it is outstanding. */
  predicate EntryOk(b: Board, d: Dispatch) {
    && d.retry in b.retries
    && var r := b.retries[d.retry];
       && r.state != RetryPending && r.generation == d.generation
       && (r.worker.Some? ==> r.worker == Some(d.worker))
  }

  ghost predicate LogOk(b: Board) {
    && (forall i | 0 <= i < |b.log| :: EntryOk(b, b.log[i]))
    && (forall i, j | 0 <= i < j < |b.log| && b.log[i].retry == b.log[j].retry :: b.log[i].worker == b.log[j].worker)
  }

  /** Replay keys name one execution. */
  ghost predicate KeysOk(b: Board) {
    forall x, y | x in b.execs && y in b.execs && b.execs[x].key.Some? && b.execs[x].key == b.execs[y].key
                  && b.execs[x].workspace == b.execs[y].workspace
      :: x == y
  }

  ghost predicate WellFormedBy(b: Board, lanes: Lanes) {
    LanesOk(b, lanes) && DlqOk(b) && LogOk(b) && KeysOk(b)
  }

  ghost predicate WellFormed(b: Board) {
    exists lanes: Lanes :: WellFormedBy(b, lanes)
  }

  lemma EmptyWellFormed()
    ensures WellFormed(EMPTY)
  {
    assert WellFormedBy(EMPTY, map[]);
  }

  // ---------------------------------------------------------------- reading the lanes

  lemma LaneOf(b: Board, lanes: Lanes, x: UUID)
    requires LanesOk(b, lanes) && x in b.execs
    ensures x in lanes && RowOk(b.execs[x]) && LaneOk(b, x, lanes[x]) && lanes[x] != []
  {
    hide RowOk, Indexed, InLane, Spent, LastOk;
    assert LaneOk(b, x, lanes[x]);
  }

  lemma IndexOf(b: Board, lanes: Lanes, r: UUID)
    requires LanesOk(b, lanes) && r in b.retries
    ensures Indexed(b.retries[r], r, lanes)
  {
    hide RowOk, LaneOk;
  }

  lemma RetryHasExecution(b: Board, lanes: Lanes, r: UUID)
    requires LanesOk(b, lanes) && r in b.retries
    ensures b.retries[r].execution in b.execs
  {
    hide LanesOk, RowOk, LaneOk;
    IndexOf(b, lanes, r);
    KeysOfLanes(b, lanes);
  }

  /** The facts of the last row a transaction on x needs. */
  lemma LastRow(b: Board, lanes: Lanes, x: UUID) returns (last: UUID)
    requires LanesOk(b, lanes) && x in b.execs
    ensures x in lanes && lanes[x] != [] && last == lanes[x][|lanes[x]| - 1] && last in b.retries
    ensures RowOk(b.execs[x]) && LastOk(b.execs[x], |lanes[x]|, b.retries[last])
    ensures InLane(b.execs[x], x, |lanes[x]| - 1, b.retries[last])
  {
    hide LanesOk, RowOk, LastOk, Spent, InLane;
    LaneOf(b, lanes, x);
    last := lanes[x][|lanes[x]| - 1];
  }

  /** The last row of one lane occurs in no other. */
  lemma OtherLane(b: Board, x: UUID, lane: seq<UUID>, y: UUID, other: seq<UUID>)
    requires x in b.execs && y in b.execs && x != y && LaneOk(b, x, lane) && LaneOk(b, y, other)
    ensures forall k | 0 <= k < |other| :: other[k] != lane[|lane| - 1]
  {
    hide LastOk, Spent;
    assert InLane(b.execs[x], x, |lane| - 1, b.retries[lane[|lane| - 1]]);
    forall k | 0 <= k < |other| ensures other[k] != lane[|lane| - 1] {
      assert InLane(b.execs[y], y, k, b.retries[other[k]]);
    }
  }

  /** The last row of a lane occurs nowhere earlier in it. */
  lemma EarlierRows(b: Board, x: UUID, lane: seq<UUID>)
    requires x in b.execs && LaneOk(b, x, lane)
    ensures forall k | 0 <= k < |lane| - 1 :: lane[k] != lane[|lane| - 1]
  {
    hide LastOk, Spent;
    assert InLane(b.execs[x], x, |lane| - 1, b.retries[lane[|lane| - 1]]);
    forall k | 0 <= k < |lane| - 1 ensures lane[k] != lane[|lane| - 1] {
      assert InLane(b.execs[x], x, k, b.retries[lane[k]]);
    }
  }

  /** A lane whose execution row and retry rows are unchanged stays as it is. */
  lemma SameLane(b: Board, b': Board, y: UUID, lane: seq<UUID>)
    requires y in b.execs && y in b'.execs && b'.execs[y] == b.execs[y] && LaneOk(b, y, lane)
    requires forall k | 0 <= k < |lane| :: lane[k] in b.retries ==> lane[k] in b'.retries && b'.retries[lane[k]] == b.retries[lane[k]]
    ensures LaneOk(b', y, lane)
  {
    hide LastOk, Spent, InLane;
  }

  /** The outstanding rows of x are none, or the last of its lane. */
  lemma OnlyLastOutstanding(b: Board, lanes: Lanes, x: UUID, r: UUID)
    requires LanesOk(b, lanes) && x in b.execs
    requires r in b.retries && b.retries[r].execution == x && b.retries[r].Outstanding()
    ensures x in lanes && lanes[x] != [] && r == lanes[x][|lanes[x]| - 1] && !Terminal(b.execs[x].status)
  {
    hide LanesOk, RowOk, InLane;
    LaneOf(b, lanes, x);
    IndexOf(b, lanes, r);
    assert b.retries[r].seqNo < |lanes[x]| ==> Spent(b.retries[r]);
  }

  // ---------------------------------------------------------------- how a transaction may touch the lanes

  /** Only x's row and the last row of its lane differ, and they still match. */
  ghost predicate LastTouched(b: Board, lanes: Lanes, x: UUID, e': Exec, retries': map<UUID, Retry>) {
    && x in b.execs && x in lanes && lanes[x] != []
    && e'.workspace == b.execs[x].workspace && b.execs[x].leaseGeneration <= e'.leaseGeneration && RowOk(e')
    && retries'.Keys == b.retries.Keys
    && (forall r | r in b.retries && r != lanes[x][|lanes[x]| - 1] :: retries'[r] == b.retries[r])
    && var last := lanes[x][|lanes[x]| - 1];
       last in b.retries && InLane(e', x, |lanes[x]| - 1, retries'[last])
       && b.retries[last].execution == x && b.retries[last].seqNo == |lanes[x]|
  }

  /** The earlier rows of x's own lane are unchanged up to the generation bound. */
  lemma OwnLane(b: Board, lanes: Lanes, x: UUID, e': Exec, retries': map<UUID, Retry>)
    requires LanesOk(b, lanes) && LastTouched(b, lanes, x, e', retries')
    ensures forall k | 0 <= k < |lanes[x]| :: lanes[x][k] in retries' && InLane(e', x, k, retries'[lanes[x][k]])
    ensures forall k | 0 <= k < |lanes[x]| - 1 :: Spent(retries'[lanes[x][k]])
  {
    hide LanesOk, RowOk, LastOk, Spent;
    LaneOf(b, lanes, x);
    EarlierRows(b, x, lanes[x]);
    forall k | 0 <= k < |lanes[x]| ensures lanes[x][k] in retries' && InLane(e', x, k, retries'[lanes[x][k]]) {
      assert InLane(b.execs[x], x, k, b.retries[lanes[x][k]]);
    }
  }

  lemma OtherLanes(b: Board, lanes: Lanes, x: UUID, e': Exec, retries': map<UUID, Retry>, b': Board, y: UUID)
    requires LanesOk(b, lanes) && LastTouched(b, lanes, x, e', retries') && y in b.execs && y != x
    requires y in b'.execs && b'.execs[y] == b.execs[y]
    requires forall r | r in retries' :: r in b'.retries && b'.retries[r] == retries'[r]
    ensures RowOk(b'.execs[y]) && y in lanes && LaneOk(b', y, lanes[y])
  {
    hide LanesOk, RowOk, LaneOk, InLane;
    LaneOf(b, lanes, x);
    LaneOf(b, lanes, y);
    OtherLane(b, x, lanes[x], y, lanes[y]);
    SameLane(b, b', y, lanes[y]);
  }

  /** The lanes of the executions other than x. */
  ghost predicate RestOk(b': Board, lanes: Lanes, x: UUID) {
    forall y | y in b'.execs && y != x :: RowOk(b'.execs[y]) && y in lanes && LaneOk(b', y, lanes[y])
  }

  lemma RestTouched(b: Board, lanes: Lanes, x: UUID, e': Exec, retries': map<UUID, Retry>, b': Board)
    requires LanesOk(b, lanes) && LastTouched(b, lanes, x, e', retries')
    requires b'.execs == b.execs[x := e'] && forall r | r in retries' :: r in b'.retries && b'.retries[r] == retries'[r]
    ensures RestOk(b', lanes, x)
  {
    hide LanesOk, RowOk, LaneOk, LastTouched;
    forall y | y in b'.execs && y != x ensures RowOk(b'.execs[y]) && y in lanes && LaneOk(b', y, lanes[y]) {
      OtherLanes(b, lanes, x, e', retries', b', y);
    }
  }

  ghost predicate IndexOk(b': Board, lanes: Lanes) {
    forall r | r in b'.retries :: Indexed(b'.retries[r], r, lanes)
  }

  lemma IndexTouched(b: Board, lanes: Lanes, x: UUID, e': Exec, retries': map<UUID, Retry>)
    requires LanesOk(b, lanes) && LastTouched(b, lanes, x, e', retries')
    ensures IndexOk(b.(retries := retries'), lanes)
  {
    hide LanesOk, RowOk, LaneOk;
    forall r | r in retries' ensures Indexed(retries'[r], r, lanes) {
      IndexOf(b, lanes, r);
    }
  }

  lemma Assemble(b': Board, lanes: Lanes, x: UUID)
    requires lanes.Keys == b'.execs.Keys && x in b'.execs && RowOk(b'.execs[x]) && LaneOk(b', x, lanes[x])
    requires RestOk(b', lanes, x) && IndexOk(b', lanes)
    ensures LanesOk(b', lanes)
  {
    hide RowOk, LaneOk, Indexed;
  }

  lemma KeysOfLanes(b: Board, lanes: Lanes)
    requires LanesOk(b, lanes)
    ensures lanes.Keys == b.execs.Keys
  {
  }

  /** Updating the row of x and the last row of its lane keeps every lane, if they still match. */
  lemma TouchLast(b: Board, lanes: Lanes, x: UUID, e': Exec, retries': map<UUID, Retry>)
    requires LanesOk(b, lanes) && LastTouched(b, lanes, x, e', retries')
    requires LastOk(e', |lanes[x]|, retries'[lanes[x][|lanes[x]| - 1]])
    ensures LanesOk(b.(execs := b.execs[x := e'], retries := retries'), lanes)
  {
    hide LanesOk, RowOk, LastOk, Spent, InLane, Indexed, RestOk, IndexOk;
    var b' := b.(execs := b.execs[x := e'], retries := retries');
    OwnLane(b, lanes, x, e', retries');
    RestTouched(b, lanes, x, e', retries', b');
    IndexTouched(b, lanes, x, e', retries');
    SameRetriesSameIndex(b.(retries := retries'), b', lanes);
    KeysOfLanes(b, lanes);
    Assemble(b', lanes, x);
  }

  lemma SameRetriesSameIndex(b: Board, b': Board, lanes: Lanes)
    requires IndexOk(b, lanes) && b'.retries == b.retries
    ensures IndexOk(b', lanes)
  {
    hide Indexed;
  }

  /** A lane grown at its end, or a lane of one more execution: the index of the rows there were still holds. */
  lemma IndexGrown(b: Board, b': Board, lanes: Lanes, x: UUID, lane: seq<UUID>, newId: UUID)
    requires IndexOk(b, lanes) && (x in lanes ==> lanes[x] < lane) && newId !in b.retries
    requires b'.retries.Keys == b.retries.Keys + {newId} && (forall r | r in b.retries :: b'.retries[r] == b.retries[r])
    requires Indexed(b'.retries[newId], newId, lanes[x := lane])
    ensures IndexOk(b', lanes[x := lane])
  {
  }

  /** The last row spent and a new pending one after it: the lane of x grows by one. */
  lemma Appended(b: Board, lanes: Lanes, x: UUID, e': Exec, spent: map<UUID, Retry>, newId: UUID, row: Retry)
    requires LanesOk(b, lanes) && LastTouched(b, lanes, x, e', spent) && newId !in b.retries
    requires Spent(spent[lanes[x][|lanes[x]| - 1]])
    requires InLane(e', x, |lanes[x]|, row) && LastOk(e', |lanes[x]| + 1, row)
    ensures LanesOk(b.(execs := b.execs[x := e'], retries := spent[newId := row]), lanes[x := lanes[x] + [newId]])
  {
    hide LanesOk, RowOk, LastOk, Spent, IndexOk, RestOk, LaneOk;
    var b' := b.(execs := b.execs[x := e'], retries := spent[newId := row]);
    var lane := lanes[x];
    OwnLane(b, lanes, x, e', spent);
    RestTouched(b, lanes, x, e', spent, b');
    RestOfLanes(b', lanes, x, lane + [newId]);
    OwnLaneGrown(b', x, lane, newId, spent);
    IndexTouched(b, lanes, x, e', spent);
    IndexGrown(b.(retries := spent), b', lanes, x, lane + [newId], newId);
    KeysOfLanes(b, lanes);
    Assemble(b', lanes[x := lane + [newId]], x);
  }

  lemma RestOfLanes(b': Board, lanes: Lanes, x: UUID, lane: seq<UUID>)
    requires RestOk(b', lanes, x)
    ensures RestOk(b', lanes[x := lane], x)
  {
    hide RowOk, LaneOk;
  }

  lemma OwnLaneGrown(b': Board, x: UUID, lane: seq<UUID>, newId: UUID, spent: map<UUID, Retry>)
    requires x in b'.execs && lane != [] && newId in b'.retries && newId !in spent && b'.retries == spent[newId := b'.retries[newId]]
    requires forall k | 0 <= k < |lane| :: lane[k] in spent && InLane(b'.execs[x], x, k, spent[lane[k]])
    requires forall k | 0 <= k < |lane| :: Spent(spent[lane[k]])
    requires InLane(b'.execs[x], x, |lane|, b'.retries[newId]) && LastOk(b'.execs[x], |lane| + 1, b'.retries[newId])
    ensures LaneOk(b', x, lane + [newId])
  {
    hide LastOk, InLane, Spent;
  }

  /** The rows and their lanes do not depend on the dead letters or the log. */
  lemma DlqAndLogAreElsewhere(b: Board, b': Board, lanes: Lanes)
    requires LanesOk(b, lanes) && b'.execs == b.execs && b'.retries == b.retries
    ensures LanesOk(b', lanes)
  {
    hide RowOk, LastOk, InLane, Spent, Indexed;
    forall y | y in b'.execs ensures LaneOk(b', y, lanes[y]) {
      assert LaneOk(b, y, lanes[y]);
      SameLane(b, b', y, lanes[y]);
    }
  }

  /** An UPDATE over the outstanding rows of x only reaches the last of its lane. */
  lemma UpdateReachesLast(b: Board, lanes: Lanes, x: UUID)
    requires LanesOk(b, lanes) && x in b.execs
    ensures x in lanes && lanes[x] != []
    ensures forall r | r in b.retries && b.retries[r].execution == x && b.retries[r].Outstanding() :: r == lanes[x][|lanes[x]| - 1]
  {
    hide LanesOk, RowOk, LaneOk;
    LaneOf(b, lanes, x);
    forall r | r in b.retries && b.retries[r].execution == x && b.retries[r].Outstanding()
      ensures r == lanes[x][|lanes[x]| - 1]
    {
      OnlyLastOutstanding(b, lanes, x, r);
    }
  }

  // ---------------------------------------------------------------- lanes, one transaction at a time

  lemma ClaimKeepsLanes(b: Board, lanes: Lanes, ws: UUID, x: UUID, owner: string, ttl: int, now: Time)
    requires LanesOk(b, lanes) && Claimable(b, ws, x, now)
    ensures LanesOk(Claim(b, ws, x, owner, ttl, now).0, lanes)
    ensures x in lanes && lanes[x] != [] && PendingRetries(b.retries, x, ws) == {lanes[x][|lanes[x]| - 1]}
  {
    hide LanesOk, LaneOk, Indexed;
    var last := LastRow(b, lanes, x);
    UpdateReachesLast(b, lanes, x);
    var e := ClaimedRow(b.execs[x], owner, ttl, now);
    TouchLast(b, lanes, x, e, ClaimRetries(b.retries, x, ws, owner, e.leaseGeneration, now));
  }

  lemma CancelKeepsLanes(b: Board, lanes: Lanes, ws: UUID, x: UUID, now: Time)
    requires LanesOk(b, lanes) && Cancellable(b, ws, x)
    ensures LanesOk(Cancel(b, ws, x, now).0, lanes)
  {
    hide LanesOk, LaneOk, Indexed;
    var last := LastRow(b, lanes, x);
    UpdateReachesLast(b, lanes, x);
    TouchLast(b, lanes, x, CancelledRow(b.execs[x], now),
              ResolveRetries(b.retries, x, ws, {RetryPending, RetryClaimed, RetryDispatched}, OutcomeCancelled, now));
  }

  lemma CompleteKeepsLanes(b: Board, lanes: Lanes, f: Fenced, result: string, now: Time)
    requires LanesOk(b, lanes) && Holds(b, f)
    ensures LanesOk(Complete(b, f, result, now).0, lanes)
  {
    var x := f.execution;
    hide LanesOk, LaneOk, Indexed;
    var last := LastRow(b, lanes, x);
    UpdateReachesLast(b, lanes, x);
    TouchLast(b, lanes, x, CompletedRow(b.execs[x], result, now),
              ResolveRetries(b.retries, x, f.workspace, IN_FLIGHT, OutcomeSuccess, now));
  }

  lemma FailKeepsLanes(b: Board, lanes: Lanes, f: Fenced, code: ErrorCode, detail: string, snapshot: string, now: Time)
    requires LanesOk(b, lanes) && Holds(b, f)
    ensures LanesOk(FailAndDLQ(b, f, code, detail, snapshot, now).0, lanes)
  {
    var x := f.execution;
    hide LanesOk, LaneOk, Indexed;
    var last := LastRow(b, lanes, x);
    UpdateReachesLast(b, lanes, x);
    var e, rs := FailedRow(b.execs[x], code, Nullable(detail), now), ResolveRetries(b.retries, x, f.workspace, IN_FLIGHT, OutcomeFailed, now);
    TouchLast(b, lanes, x, e, rs);
    DlqAndLogAreElsewhere(b.(execs := b.execs[x := e], retries := rs), FailAndDLQ(b, f, code, detail, snapshot, now).0, lanes);
  }

  /** A write to the execution row alone: heartbeat, classification, reclaim. */
  lemma RowOnlyKeepsLanes(b: Board, lanes: Lanes, x: UUID, e': Exec)
    requires LanesOk(b, lanes) && x in b.execs && b.execs[x].status == Running == e'.status && RowOk(e')
    requires e'.workspace == b.execs[x].workspace && b.execs[x].leaseGeneration <= e'.leaseGeneration
    requires e'.attempt == b.execs[x].attempt
    ensures LanesOk(b.(execs := b.execs[x := e']), lanes)
  {
    hide LanesOk, LaneOk, Indexed;
    var last := LastRow(b, lanes, x);
    TouchLast(b, lanes, x, e', b.retries);
  }

  lemma RecordKeepsLanes(b: Board, lanes: Lanes, ws: UUID, r: UUID, worker: string, generation: nat, success: bool, now: Time)
    requires LanesOk(b, lanes) && Dispatchable(b, ws, r, worker, generation)
    ensures LanesOk(RecordDispatch(b, ws, r, worker, generation, success, now), lanes)
  {
    hide LanesOk, LaneOk;
    var x := b.retries[r].execution;
    RetryHasExecution(b, lanes, r);
    OnlyLastOutstanding(b, lanes, x, r);
    var last := LastRow(b, lanes, x);
    var b2 := RecordDispatch(b, ws, r, worker, generation, success, now);
    var retries' := if success && b.retries[r].state == RetryClaimed then b.retries[r := Flipped(b.retries[r], now)] else b.retries;
    TouchRetry(b, lanes, x, retries');
    DlqAndLogAreElsewhere(b.(retries := retries'), b2, lanes);
  }

  lemma TouchRetry(b: Board, lanes: Lanes, x: UUID, retries': map<UUID, Retry>)
    requires LanesOk(b, lanes) && x in b.execs && LastTouched(b, lanes, x, b.execs[x], retries')
    requires LastOk(b.execs[x], |lanes[x]|, retries'[lanes[x][|lanes[x]| - 1]])
    ensures LanesOk(b.(retries := retries'), lanes)
  {
    hide LanesOk, LaneOk, RowOk, LastOk, LastTouched;
    TouchLast(b, lanes, x, b.execs[x], retries');
    assert b.execs[x := b.execs[x]] == b.execs;
  }

  /** A token of the current attempt reschedules into a fresh row at the end of the lane: no constraint fires. */
  lemma RescheduleKeepsLanes(b: Board, lanes: Lanes, f: Fenced, next: Time, newId: UUID, now: Time)
    requires LanesOk(b, lanes) && Holds(b, f) && newId !in b.retries
    requires f.attempt == b.execs[f.execution].attempt < b.execs[f.execution].maxAttempts
    ensures f.execution in lanes
    ensures var (b', r) := Reschedule(b, f, next, f.attempt + 1, newId, now);
            r.Success? && LanesOk(b', lanes[f.execution := lanes[f.execution] + [newId]])
  {
    var x := f.execution;
    hide LanesOk, LaneOk, Indexed;
    var last := LastRow(b, lanes, x);
    UpdateReachesLast(b, lanes, x);
    var resolved := ResolveRetries(b.retries, x, f.workspace, IN_FLIGHT, OutcomeFailed, now);
    assert OutstandingRetries(resolved, x, f.workspace) == {};
    Appended(b, lanes, x, RescheduledRow(b.execs[x], next, now), resolved, newId,
             NewRetry(x, f.workspace, f.attempt + 1, f.generation, Some(next)));
  }

  lemma InsertKeepsLanes(b: Board, lanes: Lanes, req: AdmitRequest, hash: RequestHash, id: UUID, retryId: UUID, now: Time)
    requires LanesOk(b, lanes) && id !in b.execs && retryId !in b.retries
    requires req.maxAttempts > 0 && hash == RequestHash(req.employee, req.task, req.maxAttempts)
    ensures LanesOk(Inserted(b, req, hash, id, retryId, now), lanes[id := [retryId]])
  {
    hide LanesOk, IndexOk;
    var b' := Inserted(b, req, hash, id, retryId, now);
    InsertRest(b, lanes, req, hash, id, retryId, now);
    IndexAll(b, lanes);
    KeysOfLanes(b, lanes);
    IndexGrown(b, b', lanes, id, [retryId], retryId);
    Assemble(b', lanes[id := [retryId]], id);
  }

  lemma IndexAll(b: Board, lanes: Lanes)
    requires LanesOk(b, lanes)
    ensures IndexOk(b, lanes)
  {
    hide RowOk, LaneOk, Indexed;
  }

  lemma InsertRest(b: Board, lanes: Lanes, req: AdmitRequest, hash: RequestHash, id: UUID, retryId: UUID, now: Time)
    requires LanesOk(b, lanes) && id !in b.execs && retryId !in b.retries && req.maxAttempts > 0
    ensures RestOk(Inserted(b, req, hash, id, retryId, now), lanes[id := [retryId]], id)
  {
    hide LanesOk, RowOk, LaneOk;
    var b' := Inserted(b, req, hash, id, retryId, now);
    forall y | y in b'.execs && y != id ensures RowOk(b'.execs[y]) && y in lanes && LaneOk(b', y, lanes[y]) {
      LaneOf(b, lanes, y);
      SameLane(b, b', y, lanes[y]);
    }
  }
}
