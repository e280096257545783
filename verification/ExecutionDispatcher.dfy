/**
 * The dispatcher's sweep over a store nobody else is using: recovery leaves no expired lease behind
 * and says what became of each, and dispatch publishes one current token per claimed execution.
 */
module ExecutionDispatcher {
  import opened Wrappers
  import opened ExecutionDomain
  import opened ExecutionBoard
  import opened ExecutionProtocol
  import opened ExecutionEvolution
  import opened ExecutionInvariant
  import opened ExecutionWellFormed
  import opened PostgresExecutions
  import opened RetryPolicy
  import opened Sets

  /** The outbound transport: a publish may fail, with or without the message getting through. */
  class Publisher {
    var sent: seq<Message>

    constructor ()
      ensures sent == []
    {
      sent := [];
    }

    method Publish(m: Message) returns (ok: bool)
      modifies this
      ensures sent == old(sent) + [m] || (sent == old(sent) && !ok)
    {
      var through: bool := *;
      if through { sent := sent + [m]; }
      ok := *;
      ok := ok && through;
    }
  }

  // ---------------------------------------------------------------- recovery of one execution

  /** Whether recovery gives the execution another attempt: its flag unless missing, within the budget. */
  predicate Retries(e: Exec) {
    e.retryable != Some(false) && e.attempt < e.maxAttempts
  }

  /** What recovery must make of a stale row e: pending again behind the backoff gate, or failed with a letter. */
  ghost predicate Recovered(e: Exec, b': Board, x: UUID, clock: Time, base: int, cap: int) {
    && x in b'.execs
    && var e' := b'.execs[x];
       && e'.attempt == e.attempt && e'.leaseGeneration == e.leaseGeneration + 1
       && if Retries(e)
          then e'.status == Pending && e'.nextRetryAt == Some(clock + Delay(e.attempt, base, cap))
          else e'.status == Failed && HasLetter(b', x)
               && e'.errorDetail == Some("lease expired after non-retryable failure") && e'.retryable == Some(false)
               && e'.lastErrorCode == Some(if e.lastErrorCode.Some? then e.lastErrorCode.value else CodeWorkerLeaseExpired)
  }

  /** A reclaim followed by its resolution, nobody in between: it commits, and recovers exactly x. */
  lemma RecoverOne(b: Board, ws: UUID, x: UUID, owner: string, ttl: int, clock: Time, base: int, cap: int, newId: UUID, now: Time)
    requires WellFormed(b) && Reclaimable(b, ws, x, now) && newId !in b.retries
    ensures var (b1, f) := ReclaimStale(b, ws, x, owner, ttl, now);
            var (b2, ok) := Resolution(b1, f.value, clock, base, cap, newId, now);
            && ok.Success? && WellFormed(b2)
            && Recovered(b.execs[x], b2, x, clock, base, cap)
            && b2.execs == b.execs[x := b2.execs[x]]
            && b.dlq <= b2.dlq
  {
    hide WellFormed, PendingRetries, ResolveRetries, OutstandingRetries, Delay;
    var (b1, f) := ReclaimStale(b, ws, x, owner, ttl, now);
    ReclaimWellFormed(b, ws, x, owner, ttl, now);
    assert CurrentIfHeld(b1, f.value);
    var t := f.value;
    if Retries(b.execs[x]) {
      RescheduleWellFormed(b1, t, clock + Delay(t.attempt, base, cap), newId, now);
    } else {
      var code := if t.lastErrorCode.Some? then t.lastErrorCode.value else CodeWorkerLeaseExpired;
      FailWellFormed(b1, t, code, RECOVERY_DETAIL, "", now);
      var b2 := FailAndDLQ(b1, t, code, RECOVERY_DETAIL, "", now).0;
      assert b2.dlq[|b.dlq|].execution == x;
    }
  }

  lemma RecoveredIsOver(e: Exec, b: Board, x: UUID, clock: Time, base: int, cap: int, now: Time)
    requires Recovered(e, b, x, clock, base, cap)
    ensures x in b.execs && !Stale(b.execs[x], now)
  {
    hide Delay, HasLetter;
  }

  lemma RecoveredStays(e: Exec, b: Board, b': Board, y: UUID, clock: Time, base: int, cap: int)
    requires Recovered(e, b, y, clock, base, cap) && y in b'.execs && b'.execs[y] == b.execs[y] && b.dlq <= b'.dlq
    ensures Recovered(e, b', y, clock, base, cap)
  {
    hide Delay, HasLetter;
    if !Retries(e) { LettersStay(b, b', y); }
  }

  lemma LettersStay(b: Board, b': Board, x: UUID)
    requires HasLetter(b, x) && b.dlq <= b'.dlq
    ensures HasLetter(b', x)
  {
    var i :| 0 <= i < |b.dlq| && b.dlq[i].execution == x;
    assert b'.dlq[i].execution == x;
  }

  /** A well-formed board meets the indexes the database enforces. */
  lemma WellFormedIndexes(b: Board)
    requires WellFormed(b)
    ensures UniqueIndexes(b)
  {
    hide WellFormed, LanesOk, DlqOk, LogOk;
    var lanes := LanesFor(b);
    forall r, s | r in b.retries && s in b.retries && b.retries[r].Outstanding() && b.retries[s].Outstanding()
                  && b.retries[r].execution == b.retries[s].execution && b.retries[r].workspace == b.retries[s].workspace
      ensures r == s
    {
      RetryHasExecution(b, lanes, r);
      OnlyLastOutstanding(b, lanes, b.retries[r].execution, r);
      OnlyLastOutstanding(b, lanes, b.retries[s].execution, s);
    }
  }

  /** The token any worker rebuilds from the message holds on the board, and every field of the message is the row's. */
  ghost predicate Current(b: Board, m: Message, x: UUID)
    requires x in b.execs
  {
    && m.execution == x && (forall name :: Holds(b, FencedFrom(m, name)))
    && m.retry in b.retries && b.retries[m.retry].execution == x
    && var e := b.execs[x];
       (m.workspace, m.employee, m.attempt, m.maxAttempts, m.generation) == (e.workspace, e.employee, e.attempt, e.maxAttempts, e.leaseGeneration)
       && Some(m.owner) == e.leaseOwner && Some(m.expiresAt) == e.leaseExpiresAt
  }

  /** Each message is for a different listed execution, and current. */
  ghost predicate OnePerClaim(b: Board, ids: seq<UUID>, sent: seq<Message>) {
    && (forall i | 0 <= i < |sent| :: sent[i].execution in ids && sent[i].execution in b.execs && Current(b, sent[i], sent[i].execution))
    && (forall i, j | 0 <= i < j < |sent| :: sent[i].execution != sent[j].execution)
  }

  lemma StillOnePerClaim(b: Board, b': Board, ids: seq<UUID>, sent: seq<Message>, x: UUID, sent': seq<Message>)
    requires OnePerClaim(b, ids, sent) && x !in ids && x in b'.execs && b'.execs == b.execs[x := b'.execs[x]]
    requires RowsStay(b.retries, b'.retries)
    requires sent <= sent' && (sent' == sent || (|sent'| == |sent| + 1 && Current(b', sent'[|sent|], x)))
    ensures OnePerClaim(b', ids + [x], sent')
  {
    forall i | 0 <= i < |sent| ensures Current(b', sent[i], sent[i].execution) {
      assert Current(b, sent[i], sent[i].execution);
      assert forall name :: Holds(b, FencedFrom(sent[i], name)) ==> Holds(b', FencedFrom(sent[i], name));
    }
  }

  /** The dispatch entry is for a retry of x, under the generation x now has. */
  predicate Logged(b: Board, x: UUID, worker: string, d: Dispatch) {
    && x in b.execs && d.retry in b.retries && b.retries[d.retry].execution == x
    && d.worker == worker && d.generation == b.execs[x].leaseGeneration && d.workspace == b.execs[x].workspace
  }

  /** One entry for each listed execution, in order. */
  ghost predicate LoggedEach(b: Board, ids: seq<UUID>, worker: string, entries: seq<Dispatch>) {
    |entries| == |ids| && forall i | 0 <= i < |ids| :: Logged(b, ids[i], worker, entries[i])
  }

  /** Retry rows stay, for the same execution. */
  predicate RowsStay(retries: map<UUID, Retry>, retries': map<UUID, Retry>) {
    forall r | r in retries :: r in retries' && retries'[r].execution == retries[r].execution
  }

  lemma StillLogged(b: Board, b': Board, ids: seq<UUID>, worker: string, entries: seq<Dispatch>, x: UUID, d: Dispatch)
    requires LoggedEach(b, ids, worker, entries) && x !in ids && Logged(b', x, worker, d)
    requires x in b'.execs && b'.execs == b.execs[x := b'.execs[x]] && RowsStay(b.retries, b'.retries)
    ensures LoggedEach(b', ids + [x], worker, entries + [d])
  {
    forall i | 0 <= i < |ids| ensures Logged(b', ids[i], worker, entries[i]) {
      assert Logged(b, ids[i], worker, entries[i]) && ids[i] != x;
    }
  }

  /** On a well-formed board every due execution has budget left and one pending retry waiting. */
  lemma DueIsClaimable(b: Board, ws: UUID, x: UUID, now: Time)
    requires WellFormed(b) && x in b.execs && b.execs[x].workspace == ws && Due(b.execs[x], now)
    ensures Claimable(b, ws, x, now)
  {
    hide WellFormed, LanesOk, DlqOk, LogOk, KeysOk;
    var last := LastRow(b, LanesFor(b), x);
    assert last in PendingRetries(b.retries, x, ws);
  }

  // ---------------------------------------------------------------- the dispatcher

  class Dispatcher {
    const store: ExecutionStore
    const pub: Publisher
    const workerId: string
    const leaseTTL: int
    const baseDelay: int
    const maxDelay: int
    const sweepLimit: nat

    constructor (store: ExecutionStore, pub: Publisher, workerId: string, leaseTTL: int, baseDelay: int, maxDelay: int, sweepLimit: nat)
      ensures this.store == store && this.pub == pub && this.workerId == workerId && this.leaseTTL == leaseTTL
      ensures this.baseDelay == baseDelay && this.maxDelay == maxDelay && this.sweepLimit == sweepLimit
    {
      this.store, this.pub, this.workerId, this.leaseTTL := store, pub, workerId, leaseTTL;
      this.baseDelay, this.maxDelay, this.sweepLimit := baseDelay, maxDelay, sweepLimit;
    }

    /**
     * One sweep: recovery, then dispatch from the board recovery leaves. With a lease that lasts, no
     * expired lease is left in the workspace afterwards.
     */
    method Sweep(ws: UUID, clock: Time, now: Time) returns (ids: seq<UUID>, ghost mid: Board)
      requires WellFormed(store.State()) && sweepLimit > 0 && workerId != ""
      modifies store, pub
      ensures WellFormed(store.State())
      ensures mid.execs.Keys == old(store.execs.Keys) && StaleIds(mid.execs, ws, now) == {}
      ensures forall x | x in StaleIds(old(store.execs), ws, now) ::
                Recovered(old(store.execs)[x], mid, x, clock, baseDelay, maxDelay)
      ensures forall x | x in old(store.execs) && x !in StaleIds(old(store.execs), ws, now) :: mid.execs[x] == old(store.execs)[x]
      ensures OldestFirst(DueIds(mid.execs, ws, now), CreatedAt(mid.execs), sweepLimit, ids)
      ensures RowsClaimed(mid.execs, store.execs, ids, now)
      ensures old(pub.sent) <= pub.sent && OnePerClaim(store.State(), ids, pub.sent[|old(pub.sent)|..])
      ensures leaseTTL >= 0 ==> StaleIds(store.execs, ws, now) == {}
    {
      hide WellFormed, Recovered, OnePerClaim, RowsClaimed, OldestFirst, Stale, Due;
      var res := RecoverStale(ws, clock, now);
      mid := store.State();
      ids := DispatchDue(ws, now);
      NothingStale(mid.execs, store.execs, ids, ws, now);
    }

    lemma NothingStale(first: map<UUID, Exec>, execs: map<UUID, Exec>, ids: seq<UUID>, ws: UUID, now: Time)
      requires RowsClaimed(first, execs, ids, now) && StaleIds(first, ws, now) == {}
      ensures leaseTTL >= 0 ==> StaleIds(execs, ws, now) == {}
    {
      forall x | x in execs && execs[x].workspace == ws && leaseTTL >= 0 ensures !Stale(execs[x], now) {
        assert x !in StaleIds(first, ws, now);
      }
    }

    /** Decides a reclaimed execution exactly as Resolution does. */
    method ResolveRecovered(f: Fenced, clock: Time, newId: UUID, now: Time) returns (res: Result<(), StoreError>)
      requires store.Valid()
      modifies store
      ensures (store.State(), res) == Resolution(old(store.State()), f, clock, baseDelay, maxDelay, newId, now)
      ensures store.Valid()
    {
      var code, retryable := CodeWorkerLeaseExpired, true;
      if f.lastErrorCode.Some? { code := f.lastErrorCode.value; }
      if f.retryable.Some? { retryable := f.retryable.value; }
      if !retryable || f.attempt >= f.maxAttempts {
        res := store.FailAndDLQ(f, code, RECOVERY_DETAIL, "", now);
        return;
      }
      var delay := RetryDelay(f.attempt, baseDelay, maxDelay);
      res := store.Reschedule(f, clock + delay, f.attempt + 1, newId, now);
    }

    /**
     * Pages through the stale executions until none is left. At a fixed clock and with nobody else
     * on the store this terminates for any page size and any number of stale rows; each of them is
     * recovered, and no other row is touched.
     */
    method RecoverStale(ws: UUID, clock: Time, now: Time) returns (res: Result<(), StoreError>)
      requires WellFormed(store.State()) && sweepLimit > 0
      modifies store
      ensures res.Success? && WellFormed(store.State())
      ensures StaleIds(store.execs, ws, now) == {}
      ensures store.execs.Keys == old(store.execs.Keys)
      ensures forall x | x in StaleIds(old(store.execs), ws, now) ::
                Recovered(old(store.execs)[x], store.State(), x, clock, baseDelay, maxDelay)
      ensures forall x | x in old(store.execs) && x !in StaleIds(old(store.execs), ws, now) :: store.execs[x] == old(store.execs)[x]
    {
      hide WellFormed, Recovered;
      ghost var stale := StaleIds(store.execs, ws, now);
      while true
        invariant WellFormed(store.State())
        invariant Progress(old(store.State()), store.State(), stale, ws, clock, now)
        decreases |StaleIds(store.execs, ws, now)|
      {
        WellFormedIndexes(store.State());
        var ids := store.GetStale(ws, sweepLimit, now);
        if |ids| == 0 {
          return Success(());
        }
        ghost var before := StaleIds(store.execs, ws, now);
        assert ids[0] in before;
        var reclaimed := RecoverPage(ws, ids, clock, now, old(store.State()), stale);
        if !reclaimed {
          return Success(());
        }
        ProperSubsetSize(StaleIds(store.execs, ws, now), before, ids[0]);
      }
    }

    /** One pass over a listed page. */
    method RecoverPage(ws: UUID, ids: seq<UUID>, clock: Time, now: Time, ghost first: Board, ghost stale: set<UUID>) returns (reclaimed: bool)
      requires WellFormed(store.State()) && Progress(first, store.State(), stale, ws, clock, now)
      requires forall i | 0 <= i < |ids| :: ids[i] in StaleIds(store.execs, ws, now)
      requires forall i, j | 0 <= i < j < |ids| :: ids[i] != ids[j]
      modifies store
      ensures WellFormed(store.State()) && Progress(first, store.State(), stale, ws, clock, now)
      ensures reclaimed == (|ids| > 0)
      ensures StaleIds(store.execs, ws, now) == StaleIds(old(store.execs), ws, now) - set x | x in ids
    {
      hide WellFormed, Progress;
      reclaimed := false;
      for i := 0 to |ids|
        invariant reclaimed == (i > 0)
        invariant WellFormed(store.State()) && Progress(first, store.State(), stale, ws, clock, now)
        invariant StaleIds(store.execs, ws, now) == StaleIds(old(store.execs), ws, now) - set x | x in ids[..i]
      {
        assert ids[..i + 1] == ids[..i] + [ids[i]];
        var ok := RecoverListed(ws, ids[i], clock, now, first, stale);
        reclaimed := reclaimed || ok;
      }
      assert ids[..|ids|] == ids;
    }

    /** One iteration: reclaim, then resolve. A row renewed or reclaimed by someone else is skipped. */
    method RecoverListed(ws: UUID, x: UUID, clock: Time, now: Time, ghost first: Board, ghost stale: set<UUID>) returns (reclaimed: bool)
      requires WellFormed(store.State()) && Progress(first, store.State(), stale, ws, clock, now)
      modifies store
      ensures WellFormed(store.State()) && Progress(first, store.State(), stale, ws, clock, now)
      ensures reclaimed == (x in StaleIds(old(store.execs), ws, now))
      ensures StaleIds(store.execs, ws, now) == StaleIds(old(store.execs), ws, now) - {x}
    {
      hide WellFormed, Progress, Recovered, Resolution;
      WellFormedIndexes(store.State());
      var newId := FreshId(store.retries.Keys);
      ghost var b := store.State();
      var f := store.ReclaimStale(ws, x, workerId, leaseTTL, now);
      if f.Failure? {
        return false;
      }
      RecoverOne(b, ws, x, workerId, leaseTTL, clock, baseDelay, maxDelay, newId, now);
      var res := ResolveRecovered(f.value, clock, newId, now);
      reclaimed := true;
      ProgressOne(first, b, store.State(), stale, ws, x, clock, now);
    }

    /**
     * Claims the oldest due executions and publishes each claim once. Every listed execution ends
     * running at its next attempt under this dispatcher, no other row moves, and every message put on
     * the wire rebuilds, in any worker, a token that still holds. Each claim leaves one dispatch entry,
     * for the retry it took, with this worker and the generation it was handed.
     */
    method DispatchDue(ws: UUID, now: Time) returns (ids: seq<UUID>)
      requires WellFormed(store.State()) && workerId != ""
      modifies store, pub
      ensures WellFormed(store.State())
      ensures OldestFirst(DueIds(old(store.execs), ws, now), CreatedAt(old(store.execs)), sweepLimit, ids)
      ensures RowsClaimed(old(store.execs), store.execs, ids, now)
      ensures old(pub.sent) <= pub.sent && OnePerClaim(store.State(), ids, pub.sent[|old(pub.sent)|..])
      ensures old(store.log) <= store.log && LoggedEach(store.State(), ids, workerId, store.log[|old(store.log)|..])
    {
      hide WellFormed, OnePerClaim, Current, ClaimedRow, Claimable, RowsClaimed, UniqueIndexes, LoggedEach;
      WellFormedIndexes(store.State());
      ids := store.GetDue(ws, sweepLimit, now);
      ghost var first, sent: seq<Message>, entries: seq<Dispatch> := store.execs, [], [];
      NothingYet(store.State());
      for i := 0 to |ids|
        invariant WellFormed(store.State()) && RowsClaimed(first, store.execs, ids[..i], now)
        invariant pub.sent == old(pub.sent) + sent && OnePerClaim(store.State(), ids[..i], sent)
        invariant store.log == old(store.log) + entries && LoggedEach(store.State(), ids[..i], workerId, entries)
      {
        ghost var more, entry := DispatchListed(ws, ids, i, now, first, sent, entries);
        sent, entries := sent + more, entries + [entry];
      }
      assert ids[..|ids|] == ids;
      assert pub.sent[|old(pub.sent)|..] == sent && store.log[|old(store.log)|..] == entries;
    }

    /** One iteration of the loop: the next listed execution joins the claimed ones. */
    method DispatchListed(ws: UUID, ids: seq<UUID>, i: nat, now: Time, ghost first: map<UUID, Exec>, ghost sent: seq<Message>, ghost entries: seq<Dispatch>)
      returns (ghost more: seq<Message>, ghost entry: Dispatch)
      requires i < |ids| && ids[i] in DueIds(first, ws, now) && forall j | 0 <= j < i :: ids[j] != ids[i]
      requires WellFormed(store.State()) && workerId != ""
      requires RowsClaimed(first, store.execs, ids[..i], now) && OnePerClaim(store.State(), ids[..i], sent)
      requires LoggedEach(store.State(), ids[..i], workerId, entries)
      modifies store, pub
      ensures WellFormed(store.State()) && pub.sent == old(pub.sent) + more
      ensures RowsClaimed(first, store.execs, ids[..i + 1], now) && OnePerClaim(store.State(), ids[..i + 1], sent + more)
      ensures store.log == old(store.log) + [entry] && LoggedEach(store.State(), ids[..i + 1], workerId, entries + [entry])
    {
      hide WellFormed, OnePerClaim, Current, ClaimedRow, Claimable, RowsClaimed, LoggedEach, Logged, RowsStay;
      var x := ids[i];
      assert ids[..i + 1] == ids[..i] + [x] && x !in ids[..i];
      ghost var b := store.State();
      assert x in b.execs && b.execs[x] == first[x] by { RowNotYet(first, b.execs, ids[..i], x, now); }
      DueIsClaimable(b, ws, x, now);
      more, entry := DispatchOne(ws, x, now);
      OneMoreRow(first, b.execs, ids[..i], x, store.execs, now);
      StillOnePerClaim(b, store.State(), ids[..i], sent, x, sent + more);
      StillLogged(b, store.State(), ids[..i], workerId, entries, x, entry);
    }

    /** The listed rows have been claimed by this dispatcher; the others are as they were. */
    ghost predicate RowsClaimed(first: map<UUID, Exec>, execs: map<UUID, Exec>, ids: seq<UUID>, now: Time) {
      execs == map x | x in first :: if x in ids then ClaimedRow(first[x], workerId, leaseTTL, now) else first[x]
    }

    lemma NothingYet(b: Board)
      ensures OnePerClaim(b, [], []) && LoggedEach(b, [], workerId, []) && forall now :: RowsClaimed(b.execs, b.execs, [], now)
    {
    }

    lemma RowNotYet(first: map<UUID, Exec>, execs: map<UUID, Exec>, ids: seq<UUID>, x: UUID, now: Time)
      requires RowsClaimed(first, execs, ids, now) && x in first && x !in ids
      ensures x in execs && execs[x] == first[x]
    {
    }

    lemma OneMoreRow(first: map<UUID, Exec>, execs: map<UUID, Exec>, ids: seq<UUID>, x: UUID, execs': map<UUID, Exec>, now: Time)
      requires RowsClaimed(first, execs, ids, now) && x in first && x !in ids
      requires execs' == execs[x := ClaimedRow(first[x], workerId, leaseTTL, now)]
      ensures RowsClaimed(first, execs', ids + [x], now)
    {
    }

    /** One iteration: claim, publish, record. A row claimed by someone else is skipped. */
    method DispatchOne(ws: UUID, x: UUID, now: Time) returns (ghost more: seq<Message>, ghost entry: Dispatch)
      requires WellFormed(store.State()) && workerId != ""
      modifies store, pub
      ensures WellFormed(store.State())
      ensures if Claimable(old(store.State()), ws, x, now)
              then store.execs == old(store.execs)[x := ClaimedRow(old(store.execs)[x], workerId, leaseTTL, now)]
              else store.State() == old(store.State())
      ensures pub.sent == old(pub.sent) + more
      ensures more == [] || (Claimable(old(store.State()), ws, x, now) && |more| == 1 && Current(store.State(), more[0], x))
      ensures Claimable(old(store.State()), ws, x, now) ==>
                && store.log == old(store.log) + [entry] && Logged(store.State(), x, workerId, entry) && (entry.success ==> more != [])
                && RowsStay(old(store.retries), store.retries)
    {
      hide WellFormed;
      WellFormedIndexes(store.State());
      ClaimWellFormed(store.State(), ws, x, workerId, leaseTTL, now);
      more, entry := [], Dispatch(ws, NIL, workerId, 0, false);
      var f := store.Claim(ws, x, workerId, leaseTTL, now);
      if f.Failure? {
        return;
      }
      var m := MessageOf(f.value, workerId);
      var ok := pub.Publish(m);
      RecordWellFormed(store.State(), f.value.workspace, f.value.retry, workerId, f.value.generation, ok, now);
      store.RecordDispatch(f.value.workspace, f.value.retry, workerId, f.value.generation, ok, now);
      assert Current(store.State(), m, x);
      entry := Dispatch(f.value.workspace, f.value.retry, workerId, f.value.generation, ok);
      more := pub.sent[|old(pub.sent)|..];
    }

    /** Every row stale at first is recovered or still stale as it was; the others are as they were. */
    ghost predicate Progress(first: Board, b: Board, stale: set<UUID>, ws: UUID, clock: Time, now: Time) {
      && stale == StaleIds(first.execs, ws, now) && StaleIds(b.execs, ws, now) <= stale
      && b.execs.Keys == first.execs.Keys
      && (forall x | x in stale && x !in StaleIds(b.execs, ws, now) :: Recovered(first.execs[x], b, x, clock, baseDelay, maxDelay))
      && (forall x | x in first.execs && (x !in stale || x in StaleIds(b.execs, ws, now)) :: b.execs[x] == first.execs[x])
    }

    lemma ProgressOne(first: Board, b: Board, b': Board, stale: set<UUID>, ws: UUID, x: UUID, clock: Time, now: Time)
      requires Progress(first, b, stale, ws, clock, now) && x in StaleIds(b.execs, ws, now)
      requires Recovered(b.execs[x], b', x, clock, baseDelay, maxDelay) && b'.execs == b.execs[x := b'.execs[x]] && b.dlq <= b'.dlq
      ensures Progress(first, b', stale, ws, clock, now)
      ensures StaleIds(b'.execs, ws, now) == StaleIds(b.execs, ws, now) - {x}
    {
      hide Recovered, Stale;
      assert x in b'.execs && !Stale(b'.execs[x], now) by { RecoveredIsOver(b.execs[x], b', x, clock, baseDelay, maxDelay, now); }
      assert StaleIds(b'.execs, ws, now) == StaleIds(b.execs, ws, now) - {x};
      forall y | y in stale && y !in StaleIds(b'.execs, ws, now) ensures Recovered(first.execs[y], b', y, clock, baseDelay, maxDelay) {
        if y != x { RecoveredStays(first.execs[y], b, b', y, clock, baseDelay, maxDelay); }
      }
    }
  }

  /** A random identifier that is not in use. */
  method FreshId(used: set<UUID>) returns (id: UUID)
    ensures id !in used && id != NIL
  {
    id := 1;
    var left := used;
    while left != {}
      invariant left <= used && id != NIL && forall u | u in used && u !in left :: u < id
      decreases left
    {
      var u :| u in left;
      left := left - {u};
      if u >= id { id := u + 1; }
    }
  }
}

