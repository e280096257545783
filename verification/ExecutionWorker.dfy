/**
 * One delivered attempt. The worker's calls on the store are actions of one process of the protocol,
 * so what is proved of every interleaving covers them; run undisturbed, the outcome it reports is
 * what became of the row.
 */
module ExecutionWorker {
  import opened Wrappers
  import opened ExecutionDomain
  import opened ExecutionBoard
  import opened ExecutionProtocol
  import opened ExecutionInvariant
  import opened ExecutionWellFormed
  import opened ExecutionSystem
  import opened ExecutionDispatcher
  import opened PostgresExecutions
  import opened RetryPolicy

  datatype RunOutcome = Finished | Scheduled | DeadLettered | Abandoned

  function Refusal(res: Result<(), StoreError>): Option<StoreError> {
    if res.Failure? then Some(res.error) else None
  }

  datatype RunError = InvalidMessage | MaterializeFailed | StoreFailed(reason: StoreError)

  /** How the provider call ended; a reply that cannot be marshalled counts as broken. */
  datatype Called = Answered(reply: string) | Broke(cause: Cause)

  /** What a run must decide, given whether the token held, whether the call was let finish, and how it ended. */
  function Decision(held: bool, finished: bool, called: Called, f: Fenced): RunOutcome {
    if !held || !finished then Abandoned
    else if called.Answered? then Finished
    else if RetryableCause(called.cause) && f.attempt < f.maxAttempts then Scheduled
    else DeadLettered
  }

  /** What each outcome says about the row the message was for. */
  ghost predicate Honest(b: Board, b': Board, f: Fenced, outcome: RunOutcome, called: Called, next: Time, snapshot: string) {
    && (outcome != Abandoned ==> f.execution in b.execs && f.execution in b'.execs)
    && match outcome
       case Finished => called.Answered? && b'.execs[f.execution].status == Completed && b'.execs[f.execution].result == Some(called.reply)
       case Scheduled => b'.execs[f.execution].status == Pending && b'.execs[f.execution].nextRetryAt == Some(next)
                         && b'.execs[f.execution].attempt == b.execs[f.execution].attempt < b.execs[f.execution].maxAttempts
                         && called.Broke? && Explained(b'.execs[f.execution], called.cause, true)
       case DeadLettered => called.Broke? && b'.execs[f.execution].status == Failed
                            && Explained(b'.execs[f.execution], called.cause, false)
                            && b'.dlq == b.dlq + [LetterFor(b'.execs[f.execution], f, called.cause, snapshot)]
       case Abandoned => b'.retries == b.retries && b'.dlq == b.dlq && OnlyExpiry(b, b', f.execution)
  }

  /** The dead letter of this attempt: the row's code, the failure's text, the request. */
  function LetterFor(e: Exec, f: Fenced, cause: Cause, snapshot: string): DeadLetter
    requires e.lastErrorCode.Some?
  {
    DeadLetter(f.workspace, f.execution, f.attempt, e.lastErrorCode.value, Nullable(cause.text), Nullable(snapshot))
  }

  /** The row says why the call failed: the code that fits, the detail, and whether another attempt may follow. */
  predicate Explained(e: Exec, cause: Cause, retry: bool) {
    && e.lastErrorCode.Some? && CodeFits(cause, e.lastErrorCode.value)
    && e.retryable == Some(retry) && e.errorDetail == Nullable(cause.text)
  }

  /** Heartbeats move nothing but the expiry of their own row. */
  predicate OnlyExpiry(b: Board, b': Board, x: UUID) {
    b'.execs == b.execs
    || (x in b.execs && x in b'.execs
        && b'.execs == b.execs[x := b.execs[x].(leaseExpiresAt := b'.execs[x].leaseExpiresAt)])
  }

  predicate OwnAction(p: nat, a: Action) {
    match a
    case Beat(q, _, _, _) => q == p
    case Succeed(q, _, _, _) => q == p
    case Fail(q, _, _, _) => q == p
    case Settle(q, _, _, _, _, _, _, _) => q == p
    case _ => false
  }

  /** The actions are the worker's own. */
  predicate Own(p: nat, acts: seq<Action>) {
    forall i | 0 <= i < |acts| :: OwnAction(p, acts[i])
  }

  /** The system after the worker's actions: the store's tables are its board, and the process is at q. */
  ghost predicate Traced(s: System, staff: map<UUID, Employee>, p: nat, acts: seq<Action>, q: Proc, b: Board) {
    && Own(p, acts)
    && var s' := ExecutionProtocol.Run(s, staff, acts);
       SystemInv(s') && s'.board == b && ProcOf(s', p) == q
  }

  lemma OneMore(s: System, staff: map<UUID, Employee>, p: nat, acts: seq<Action>, q: Proc, b: Board, a: Action)
    requires Traced(s, staff, p, acts, q, b) && OwnAction(p, a)
    ensures var s1 := ExecutionProtocol.Run(s, staff, acts);
            var s' := Step(s1, staff, a);
            && s1.board == b && ProcOf(s1, p) == q
            && Traced(s, staff, p, acts + [a], ProcOf(s', p), s'.board)
  {
    hide Step, SystemInv;
    assert (acts + [a])[..|acts|] == acts;
    StepKeepsInvariant(ExecutionProtocol.Run(s, staff, acts), staff, a);
  }

  /** A heartbeat more changes no more than the heartbeats before. */
  lemma BeatMore(b: Board, b1: Board, f: Fenced, ttl: int, t: Time)
    requires Beaten(b, b1, f)
    ensures Beaten(b, Heartbeat(b1, f, ttl, t).0, f)
    ensures Heartbeat(b1, f, ttl, t).1.Success? == Holds(b, f)
  {
  }

  /** What heartbeats leave: everything but the expiry of the held row. */
  predicate Beaten(b: Board, b1: Board, f: Fenced) {
    && b1.retries == b.retries && b1.dlq == b.dlq && b1.log == b.log
    && if Holds(b, f)
       then f.execution in b1.execs
            && b1.execs == b.execs[f.execution := b.execs[f.execution].(leaseExpiresAt := b1.execs[f.execution].leaseExpiresAt)]
       else b1.execs == b.execs
  }

  /** Both writes of finalizeFailure by a worker whose token holds: they commit, and decide the row. */
  lemma FailureDecides(b: Board, f: Fenced, cause: Cause, clock: Time, base: int, cap: int, newId: UUID, snapshot: string, now: Time)
    requires WellFormed(b) && CurrentIfHeld(b, f) && Holds(b, f) && newId !in b.retries
    ensures var c := Classify(cause);
            var b1 := PersistError(b, f, c.code, c.retry, cause.text, now).0;
            var (b2, res) := Settlement(b1, f, c, cause.text, clock, base, cap, newId, snapshot, now);
            var outcome := if c.retry && f.attempt < f.maxAttempts then Scheduled else DeadLettered;
            res.Success? && Honest(b, b2, f, outcome, Broke(cause), clock + Delay(f.attempt, base, cap), snapshot)
  {
    hide WellFormed, Delay, ResolveRetries, OutstandingRetries, Classify;
    var c := Classify(cause);
    var b1 := PersistError(b, f, c.code, c.retry, cause.text, now).0;
    PersistErrorWellFormed(b, f, c.code, c.retry, cause.text, now);
    if c.retry && f.attempt < f.maxAttempts {
      RescheduleWellFormed(b1, f, clock + Delay(f.attempt, base, cap), newId, now);
    } else {
      var b2 := FailAndDLQ(b1, f, c.code, cause.text, snapshot, now).0;
      assert b2.dlq == b.dlq + [DeadLetter(f.workspace, f.execution, f.attempt, c.code, Nullable(cause.text), Nullable(snapshot))];
    }
  }

  /** The call's heartbeats do not blur what the finalisation decides. */
  lemma BeatsThenDecides(b: Board, b1: Board, b2: Board, f: Fenced, outcome: RunOutcome, called: Called, next: Time, snapshot: string)
    requires Beaten(b, b1, f) && Honest(b1, b2, f, outcome, called, next, snapshot)
    ensures Honest(b, b2, f, outcome, called, next, snapshot)
  {
  }

  lemma BeatsAbandoned(b: Board, b1: Board, f: Fenced, called: Called, next: Time, snapshot: string)
    requires Beaten(b, b1, f)
    ensures Honest(b, b1, f, Abandoned, called, next, snapshot)
    ensures Holds(b1, f) == Holds(b, f) && (!Holds(b, f) ==> b1 == b)
    ensures b1.retries == b.retries
  {
  }

  class Worker {
    const store: ExecutionStore
    const workerId: string
    const leaseTTL: int
    const baseDelay: int
    const maxDelay: int

    constructor (store: ExecutionStore, workerId: string, leaseTTL: int, baseDelay: int, maxDelay: int)
      ensures this.store == store && this.workerId == workerId && this.leaseTTL == leaseTTL
      ensures this.baseDelay == baseDelay && this.maxDelay == maxDelay
    {
      this.store, this.workerId, this.leaseTTL, this.baseDelay, this.maxDelay := store, workerId, leaseTTL, baseDelay, maxDelay;
    }

    /**
     * request: what materialization returned. ticks: when the heartbeat fires during the call. stopped:
     * the surrounding context is cancelled. late: the call's own deadline passes first, and then
     * neither that nor a lost heartbeat counts as a cancellation of the call. The ghost system is the protocol
     * state the delivery left, with the process p working on the message.
     */
    method Run(m: Message, request: Option<string>, ticks: seq<Time>, late: bool, stopped: bool, called: Called,
               clock: Time, newId: UUID, now: Time, ghost s: System, ghost p: nat)
      returns (outcome: RunOutcome, error: Option<RunError>, ghost acts: seq<Action>)
      requires store.Valid() && SystemInv(s) && s.board == store.State()
      requires Deliverable(m) ==> ProcOf(s, p) == Working(m)
      requires newId !in store.retries
      modifies store
      ensures store.Valid()
      ensures Own(p, acts) && ExecutionProtocol.Run(s, store.staff, acts).board == store.State()
      ensures m.workspace == NIL || m.execution == NIL || m.retry == NIL ==>
                outcome == DeadLettered && error == Some(InvalidMessage) && store.State() == old(store.State())
      ensures m.workspace != NIL && m.execution != NIL && m.retry != NIL ==>
                var f := FencedFrom(m, workerId);
                var held := Holds(old(store.State()), f);
                && outcome == Decision(held, request.Some? && !stopped, called, f)
                && Honest(old(store.State()), store.State(), f, outcome, called, clock + Delay(f.attempt, baseDelay, maxDelay),
                          if request.Some? then request.value else "")
                && (!held ==> store.State() == old(store.State()))
                && (held && stopped && request.Some? && ticks != [] ==> Renewed(store.State(), m, ticks))
                && error == (if request.None? then Some(MaterializeFailed)
                             else if stopped then (if late then Some(StoreFailed(Database)) else None)
                             else if held || (ticks != [] && !late) then None
                             else Some(StoreFailed(StaleLease)))
    {
      hide SystemInv, Step, Honest, Decision, Beaten, Holds, Delay, UniqueIndexes;
      acts := [];
      if m.workspace == NIL || m.execution == NIL || m.retry == NIL {
        return DeadLettered, Some(InvalidMessage), acts;
      }
      var f := FencedFrom(m, workerId);
      ghost var b, next := store.State(), clock + Delay(f.attempt, baseDelay, maxDelay);
      if request.None? {
        Unbeaten(b, f);
        BeatsAbandoned(b, b, f, called, next, "");
        Unfinished(Holds(b, f), called, f);
        return Abandoned, Some(MaterializeFailed), acts;
      }
      var lost;
      lost, acts := Beats(m, ticks, s, p);
      ghost var b1 := store.State();
      BeatsAbandoned(b, b1, f, called, next, request.value);
      Unfinished(Holds(b, f), called, f);
      if !late && (stopped || lost) {
        return Abandoned, None, acts;
      }
      if stopped {
        return Abandoned, Some(StoreFailed(Database)), acts;  // on a cancelled context every store call fails
      }
      var err;
      if called.Broke? {
        outcome, err, acts := FinalizeFailure(m, request.value, called.cause, clock, newId, now, s, p, acts);
      } else {
        outcome, err, acts := Finish(m, called.reply, clock, request.value, now, s, p, acts);
      }
      BeatsThenDecides(b, b1, store.State(), f, outcome, called, next, request.value);
      error := if err.Some? then Some(StoreFailed(err.value)) else None;
    }

    /** The successful end: one fenced completion. */
    method Finish(m: Message, reply: string, ghost clock: Time, ghost snapshot: string, now: Time, ghost s: System, ghost p: nat, ghost before: seq<Action>)
      returns (outcome: RunOutcome, err: Option<StoreError>, ghost acts: seq<Action>)
      requires store.Valid() && Traced(s, store.staff, p, before, Working(m), store.State())
      modifies store
      ensures store.Valid() && Own(p, acts) && ExecutionProtocol.Run(s, store.staff, acts).board == store.State()
      ensures var f := FencedFrom(m, workerId);
              && outcome == Decision(Holds(old(store.State()), f), true, Answered(reply), f)
              && Honest(old(store.State()), store.State(), f, outcome, Answered(reply), clock + Delay(f.attempt, baseDelay, maxDelay), snapshot)
              && (!Holds(old(store.State()), f) ==> store.State() == old(store.State()))
              && err == (if Holds(old(store.State()), f) then None else Some(StaleLease))
    {
      hide Delay, UniqueIndexes, SystemInv, ResolveRetries;
      var f := FencedFrom(m, workerId);
      acts := before + [Succeed(p, workerId, reply, now)];
      OneMore(s, store.staff, p, before, Working(m), store.State(), Succeed(p, workerId, reply, now));
      var res := store.Complete(f, reply, now);
      if res.Failure? {
        return Abandoned, Some(res.error), acts;
      }
      return Finished, None, acts;
    }

    /** The failed end: the classification first, then the retry or the dead letter, under one fence. */
    method FinalizeFailure(m: Message, snapshot: string, cause: Cause, clock: Time, newId: UUID, now: Time,
                           ghost s: System, ghost p: nat, ghost before: seq<Action>)
      returns (outcome: RunOutcome, err: Option<StoreError>, ghost acts: seq<Action>)
      requires store.Valid() && Traced(s, store.staff, p, before, Working(m), store.State())
      requires newId !in store.retries
      modifies store
      ensures store.Valid() && Own(p, acts) && ExecutionProtocol.Run(s, store.staff, acts).board == store.State()
      ensures var f := FencedFrom(m, workerId);
              && outcome == Decision(Holds(old(store.State()), f), true, Broke(cause), f)
              && Honest(old(store.State()), store.State(), f, outcome, Broke(cause), clock + Delay(f.attempt, baseDelay, maxDelay), snapshot)
              && (!Holds(old(store.State()), f) ==> store.State() == old(store.State()))
              && err == (if Holds(old(store.State()), f) then None else Some(StaleLease))
    {
      hide Delay, UniqueIndexes, SystemInv, Honest, Classify, CodeFits, RetryableCause, Step, Holds, Traced, Reschedule, FailAndDLQ, WellFormed, OwnAction;
      ghost var b := store.State();
      var f, cl := FencedFrom(m, workerId), Classify(cause);
      ghost var settle := Settle(p, workerId, clock, baseDelay, maxDelay, newId, snapshot, now);
      acts := before + [Fail(p, workerId, cause, now)];
      FailIsTraced(m, cause, clock, newId, snapshot, now, s, p, before, b);
      var res := store.PersistError(f, cl.code, cl.retry, cause.text, now);
      if res.Failure? {
        NothingDone(b, f, Broke(cause), clock + Delay(f.attempt, baseDelay, maxDelay), snapshot);
        return Abandoned, Some(res.error), acts;
      }
      TracedIsCurrent(s, store.staff, p, before, m, b, workerId);
      FailureDecides(b, f, cause, clock, baseDelay, maxDelay, newId, snapshot, now);
      acts := acts + [settle];
      if cl.retry && f.attempt < f.maxAttempts {
        var delay := RetryDelay(f.attempt, baseDelay, maxDelay);
        res := store.Reschedule(f, clock + delay, f.attempt + 1, newId, now);
        return if res.Success? then Scheduled else Abandoned, Refusal(res), acts;
      }
      res := store.FailAndDLQ(f, cl.code, cause.text, snapshot, now);
      return if res.Success? then DeadLettered else Abandoned, Refusal(res), acts;
    }

    /** The two writes are the actions Fail and Settle of the process. */
    lemma FailIsTraced(m: Message, cause: Cause, clock: Time, newId: UUID, snapshot: string, now: Time,
                       s: System, p: nat, before: seq<Action>, b: Board)
      requires Traced(s, store.staff, p, before, Working(m), b)
      ensures var f, c := FencedFrom(m, workerId), Classify(cause);
              var b1 := PersistError(b, f, c.code, c.retry, cause.text, now).0;
              var acts := before + [Fail(p, workerId, cause, now)];
              var settle := Settle(p, workerId, clock, baseDelay, maxDelay, newId, snapshot, now);
              && Own(p, acts) && Own(p, acts + [settle])
              && ExecutionProtocol.Run(s, store.staff, acts).board == b1
              && (Holds(b, f) ==> ExecutionProtocol.Run(s, store.staff, acts + [settle]).board
                                  == Settlement(b1, f, c, cause.text, clock, baseDelay, maxDelay, newId, snapshot, now).0)
    {
      hide SystemInv, Settlement, Classify;
      var f, c := FencedFrom(m, workerId), Classify(cause);
      var acts := before + [Fail(p, workerId, cause, now)];
      OneMore(s, store.staff, p, before, Working(m), b, Fail(p, workerId, cause, now));
      var s1 := ExecutionProtocol.Run(s, store.staff, acts);
      OneMore(s, store.staff, p, acts, ProcOf(s1, p), s1.board, Settle(p, workerId, clock, baseDelay, maxDelay, newId, snapshot, now));
    }

    /** The heartbeat loop during the call: it stops at the first renewal that is refused. */
    method Beats(m: Message, ticks: seq<Time>, ghost s: System, ghost p: nat) returns (lost: bool, ghost acts: seq<Action>)
      requires store.Valid() && Traced(s, store.staff, p, [], Working(m), store.State())
      modifies store
      ensures store.Valid() && Traced(s, store.staff, p, acts, Working(m), store.State())
      ensures Beaten(old(store.State()), store.State(), FencedFrom(m, workerId))
      ensures lost == (ticks != [] && !Holds(old(store.State()), FencedFrom(m, workerId)))
      ensures ticks != [] && !lost ==> Renewed(store.State(), m, ticks)
    {
      hide Traced, Beaten, Holds;
      var f := FencedFrom(m, workerId);
      ghost var b := store.State();
      Unbeaten(b, f);
      acts, lost := [], false;
      for i := 0 to |ticks|
        invariant store.Valid() && Traced(s, store.staff, p, acts, Working(m), store.State())
        invariant Beaten(b, store.State(), f)
        invariant lost ==> false
        invariant i > 0 ==> Holds(b, f) && Renewed(store.State(), m, ticks[..i])
      {
        ghost var b1 := store.State();
        BeatMore(b, b1, f, leaseTTL, ticks[i]);
        OneMore(s, store.staff, p, acts, Working(m), b1, Beat(p, workerId, leaseTTL, ticks[i]));
        acts := acts + [Beat(p, workerId, leaseTTL, ticks[i])];
        var res := store.Heartbeat(f, leaseTTL, ticks[i]);
        if res.Failure? {
          return true, acts;
        }
        assert Renewed(store.State(), m, ticks[..i + 1]) by { BeatRenews(b1, m, ticks[..i + 1]); }
      }
      assert ticks[..|ticks|] == ticks;
    }

    /** The lease lasts its full term from the last heartbeat. */
    predicate Renewed(b: Board, m: Message, ticks: seq<Time>)
      requires ticks != []
    {
      m.execution in b.execs && b.execs[m.execution].leaseExpiresAt == Some(ticks[|ticks| - 1] + leaseTTL)
    }

    lemma BeatRenews(b: Board, m: Message, ticks: seq<Time>)
      requires ticks != []
      ensures var (b', r) := Heartbeat(b, FencedFrom(m, workerId), leaseTTL, ticks[|ticks| - 1]); r.Success? ==> Renewed(b', m, ticks)
    {
    }

    lemma Unbeaten(b: Board, f: Fenced)
      ensures Beaten(b, b, f)
    {
    }

    lemma Unfinished(held: bool, called: Called, f: Fenced)
      ensures Decision(held, false, called, f) == Abandoned && Decision(false, true, called, f) == Abandoned
    {
    }

    lemma NothingDone(b: Board, f: Fenced, called: Called, next: Time, snapshot: string)
      ensures Honest(b, b, f, Abandoned, called, next, snapshot)
    {
    }

    /** A traced worker's token is current, on a well-formed board. */
    lemma TracedIsCurrent(s: System, staff: map<UUID, Employee>, p: nat, acts: seq<Action>, m: Message, b: Board, name: string)
      requires Traced(s, staff, p, acts, Working(m), b)
      ensures WellFormed(b) && CurrentIfHeld(b, FencedFrom(m, name))
    {
      hide WellFormed, TokensOk, ClaimsOk;
      var s' := ExecutionProtocol.Run(s, staff, acts);
      assert ProcOk(s', Working(m));
      WorkerTokenCurrent(s', m, name);
    }
  }
}
