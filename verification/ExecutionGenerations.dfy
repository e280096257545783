/**
 * A retry's generation and its execution's lease generation. They are handed out together by a claim,
 * but a takeover bumps the execution's alone, and looks for a pending retry that is never there.
 */
module ExecutionGenerations {
  import opened Wrappers
  import opened ExecutionDomain
  import opened ExecutionBoard
  import opened ExecutionProtocol
  import opened ExecutionEvolution
  import opened ExecutionInvariant
  import opened ExecutionWellFormed
  import opened ExecutionSystem
  import opened ExecutionRuns
  import opened ExecutionDuplicates
  import opened RetryPolicy

  /** The execution runs under a lease that a takeover handed out. */
  predicate TakenOver(s: System, x: UUID)
    requires x in s.board.execs
  {
    var e := s.board.execs[x];
    e.status == Running && (x, e.leaseGeneration) in s.issued && s.issued[(x, e.leaseGeneration)].origin == ByReclaim
  }

  predicate OutstandingOf(b: Board, x: UUID, r: UUID) {
    r in b.retries && b.retries[r].execution == x && b.retries[r].Outstanding()
  }

  // ---------------------------------------------------------------- the invariant

  /** The outstanding retry of x carries its lease generation, unless x is running and that was no claim's. */
  predicate InStep(s: System, x: UUID, r: UUID)
    requires x in s.board.execs && r in s.board.retries
  {
    var e := s.board.execs[x];
    Terminal(e.status) || TakenOver(s, x) || s.board.retries[r].generation == e.leaseGeneration
  }

  predicate LeaseIssued(s: System, x: UUID)
    requires x in s.board.execs
  {
    s.board.execs[x].status == Running ==> (x, s.board.execs[x].leaseGeneration) in s.issued
  }

  ghost predicate GenerationsOk(s: System) {
    && (forall x | x in s.board.execs :: LeaseIssued(s, x))
    && (forall x, r | x in s.board.execs && OutstandingOf(s.board, x, r) :: InStep(s, x, r))
  }

  /** An outstanding row of x is in its workspace, and pending or in flight as x is pending or running. */
  lemma OutstandingRow(b: Board, x: UUID, r: UUID)
    requires WellFormed(b) && x in b.execs && OutstandingOf(b, x, r)
    ensures b.retries[r].workspace == b.execs[x].workspace && !Terminal(b.execs[x].status)
    ensures b.retries[r].state == RetryPending <==> b.execs[x].status == Pending
  {
    hide WellFormed, LanesOk, DlqOk, LogOk, KeysOk, RowOk;
    var lanes := LanesFor(b);
    OnlyLastOutstanding(b, lanes, x, r);
    var last := LastRow(b, lanes, x);
  }

  lemma RetriesHaveExecutions(b: Board, r: UUID)
    requires WellFormed(b) && r in b.retries
    ensures b.retries[r].execution in b.execs
  {
    hide WellFormed, LanesOk, DlqOk, LogOk, KeysOk;
    RetryHasExecution(b, LanesFor(b), r);
  }

  /** How an outstanding row of x came about in a step: it was there, or a claim, a takeover or an insert touched it. */
  predicate CameAbout(s: System, s': System, a: Action, x: UUID, r: UUID)
    requires x in s'.board.execs && r in s'.board.retries
  {
    var e', row' := s'.board.execs[x], s'.board.retries[r];
    || Terminal(e'.status)
    || CommitsReclaim(s, a, x)
    || (e'.status == Pending && row'.generation == e'.leaseGeneration)
    || (CommitsClaim(s, a, x) && row'.generation == e'.leaseGeneration)
    || (x in s.board.execs && OutstandingOf(s.board, x, r)
        && row'.generation == s.board.retries[r].generation
        && e'.status == s.board.execs[x].status && e'.leaseGeneration == s.board.execs[x].leaseGeneration)
  }

  lemma StepComesAbout(s: System, staff: map<UUID, Employee>, a: Action, x: UUID, r: UUID)
    requires SystemInv(s) && x in Step(s, staff, a).board.execs && OutstandingOf(Step(s, staff, a).board, x, r)
    ensures CameAbout(s, Step(s, staff, a), a, x, r)
  {
    hide SystemInv, Step, CameAbout;
    match a
    case Admit(_, _, _, _) => AdmitComesAbout(s, staff, a, x, r);
    case ClaimDue(_, _, _, _, _, _) => ClaimComesAbout(s, staff, a, x, r);
    case Resolve(_, _, _, _, _, _) => FinalComesAbout(s, staff, a, x, r);
    case Settle(_, _, _, _, _, _, _, _) => FinalComesAbout(s, staff, a, x, r);
    case CancelByHuman(_, _, _) => QuietComesAbout(s, staff, a, x, r);
    case Succeed(_, _, _, _) => QuietComesAbout(s, staff, a, x, r);
    case _ => QuietComesAbout(s, staff, a, x, r);
  }

  lemma AdmitComesAbout(s: System, staff: map<UUID, Employee>, a: Action, x: UUID, r: UUID)
    requires SystemInv(s) && a.Admit? && x in Step(s, staff, a).board.execs && OutstandingOf(Step(s, staff, a).board, x, r)
    ensures CameAbout(s, Step(s, staff, a), a, x, r)
  {
    hide WellFormed, TokensOk, HoldersOk, ClaimsOk, Keyed, Active;
    if r in s.board.retries { RetriesHaveExecutions(s.board, r); }
  }

  lemma ClaimComesAbout(s: System, staff: map<UUID, Employee>, a: Action, x: UUID, r: UUID)
    requires SystemInv(s) && a.ClaimDue? && x in Step(s, staff, a).board.execs && OutstandingOf(Step(s, staff, a).board, x, r)
    ensures CameAbout(s, Step(s, staff, a), a, x, r)
  {
    hide WellFormed, TokensOk, HoldersOk, ClaimsOk, PendingRetries;
    assert OutstandingOf(s.board, x, r);
    OutstandingRow(s.board, x, r);
  }

  /** What a finalising transaction leaves of an outstanding row of x. */
  predicate LeftBy(b: Board, b': Board, x: UUID, r: UUID)
    requires x in b'.execs && r in b'.retries
  {
    var e', row' := b'.execs[x], b'.retries[r];
    || Terminal(e'.status)
    || (e'.status == Pending && row'.generation == e'.leaseGeneration)
    || (x in b.execs && OutstandingOf(b, x, r) && row'.generation == b.retries[r].generation
        && e'.status == b.execs[x].status && e'.leaseGeneration == b.execs[x].leaseGeneration)
  }

  lemma RescheduleLeaves(b: Board, f: Fenced, next: Time, seqNo: int, newId: UUID, now: Time, x: UUID, r: UUID)
    requires WellFormed(b)
    requires var b' := Reschedule(b, f, next, seqNo, newId, now).0; x in b'.execs && OutstandingOf(b', x, r)
    ensures LeftBy(b, Reschedule(b, f, next, seqNo, newId, now).0, x, r)
  {
    hide WellFormed;
    if x in b.execs && OutstandingOf(b, x, r) { OutstandingRow(b, x, r); }
  }

  lemma FailLeaves(b: Board, f: Fenced, code: ErrorCode, detail: string, snapshot: string, now: Time, x: UUID, r: UUID)
    requires var b' := FailAndDLQ(b, f, code, detail, snapshot, now).0; x in b'.execs && OutstandingOf(b', x, r)
    ensures LeftBy(b, FailAndDLQ(b, f, code, detail, snapshot, now).0, x, r)
  {
  }

  lemma FinalComesAbout(s: System, staff: map<UUID, Employee>, a: Action, x: UUID, r: UUID)
    requires SystemInv(s) && (a.Resolve? || a.Settle?) && x in Step(s, staff, a).board.execs && OutstandingOf(Step(s, staff, a).board, x, r)
    ensures CameAbout(s, Step(s, staff, a), a, x, r)
  {
    hide WellFormed, TokensOk, HoldersOk, ClaimsOk, Delay, Reschedule, FailAndDLQ;
    if a.Resolve? && ProcOf(s, a.p).Reclaimed? {
      var f := ProcOf(s, a.p).f;
      var code := if f.lastErrorCode.Some? then f.lastErrorCode.value else CodeWorkerLeaseExpired;
      if f.retryable == Some(false) || f.attempt >= f.maxAttempts {
        FailLeaves(s.board, f, code, RECOVERY_DETAIL, "", a.now, x, r);
      } else {
        RescheduleLeaves(s.board, f, a.clock + Delay(f.attempt, a.base, a.cap), f.attempt + 1, a.newId, a.now, x, r);
      }
    }
    if a.Settle? && ProcOf(s, a.p).Persisted? {
      var q := ProcOf(s, a.p);
      var f := FencedFrom(q.m, a.name);
      if q.c.retry && f.attempt < f.maxAttempts {
        RescheduleLeaves(s.board, f, a.clock + Delay(f.attempt, a.base, a.cap), f.attempt + 1, a.newId, a.now, x, r);
      } else {
        FailLeaves(s.board, f, q.c.code, q.detail, a.snapshot, a.now, x, r);
      }
    }
  }

  lemma QuietComesAbout(s: System, staff: map<UUID, Employee>, a: Action, x: UUID, r: UUID)
    requires SystemInv(s) && !a.Resolve? && !a.Settle? && !a.Admit? && !a.ClaimDue?
    requires x in Step(s, staff, a).board.execs && OutstandingOf(Step(s, staff, a).board, x, r)
    ensures CameAbout(s, Step(s, staff, a), a, x, r)
  {
    hide SystemInv, PendingRetries, Classify;
  }

  /** Issues accumulate, and a claim or takeover of x issues the generation it leaves x at. */
  lemma StepIssues(s: System, staff: map<UUID, Employee>, a: Action, k: (UUID, nat))
    requires SystemInv(s) && k in s.issued
    ensures k in Step(s, staff, a).issued && Step(s, staff, a).issued[k] == s.issued[k]
  {
    hide WellFormed, HoldersOk, ClaimsOk, ResolveRetries, ClaimRetries, PendingRetries, OutstandingRetries, Keyed, Active, Delay, Classify, TokenOk;
    if (a.ClaimDue? || a.Reclaim?) && a.x in s.board.execs { NextGenerationFree(s, a.x); }
  }

  lemma LeaseIsIssued(s: System, staff: map<UUID, Employee>, a: Action, x: UUID)
    requires CommitsClaim(s, a, x) || CommitsReclaim(s, a, x)
    ensures var s' := Step(s, staff, a);
            && x in s'.board.execs && s'.board.execs[x].status == Running && (x, s'.board.execs[x].leaseGeneration) in s'.issued
            && s'.issued[(x, s'.board.execs[x].leaseGeneration)].origin == (if CommitsReclaim(s, a, x) then ByReclaim else ByClaim)
  {
    hide ClaimRetries, PendingRetries;
  }

  /** A lease that runs on is the one that ran before, unless it has just been handed out. */
  lemma LeaseRunsOn(s: System, staff: map<UUID, Employee>, a: Action, x: UUID)
    requires x in Step(s, staff, a).board.execs && Step(s, staff, a).board.execs[x].status == Running
    requires !CommitsClaim(s, a, x) && !CommitsReclaim(s, a, x)
    ensures x in s.board.execs && s.board.execs[x].status == Running
    ensures Step(s, staff, a).board.execs[x].leaseGeneration == s.board.execs[x].leaseGeneration
  {
    hide ResolveRetries, ClaimRetries, PendingRetries, OutstandingRetries, Keyed, Active, Delay, Classify;
  }

  lemma StepKeepsLeaseIssued(s: System, staff: map<UUID, Employee>, a: Action, x: UUID)
    requires SystemInv(s) && GenerationsOk(s) && x in Step(s, staff, a).board.execs
    ensures LeaseIssued(Step(s, staff, a), x)
  {
    hide Step, SystemInv, CommitsClaim, CommitsReclaim;
    if Step(s, staff, a).board.execs[x].status == Running {
      if CommitsClaim(s, a, x) || CommitsReclaim(s, a, x) {
        LeaseIsIssued(s, staff, a, x);
      } else {
        LeaseRunsOn(s, staff, a, x);
        assert LeaseIssued(s, x);
        StepIssues(s, staff, a, (x, s.board.execs[x].leaseGeneration));
      }
    }
  }

  lemma StepKeepsInStep(s: System, staff: map<UUID, Employee>, a: Action, x: UUID, r: UUID)
    requires SystemInv(s) && GenerationsOk(s)
    requires x in Step(s, staff, a).board.execs && OutstandingOf(Step(s, staff, a).board, x, r)
    ensures InStep(Step(s, staff, a), x, r)
  {
    hide Step, SystemInv, CommitsClaim, CommitsReclaim;
    StepComesAbout(s, staff, a, x, r);
    if CommitsReclaim(s, a, x) {
      LeaseIsIssued(s, staff, a, x);
    } else if x in s.board.execs && OutstandingOf(s.board, x, r) {
      assert InStep(s, x, r);
      if TakenOver(s, x) { StepIssues(s, staff, a, (x, s.board.execs[x].leaseGeneration)); }
    }
  }

  lemma {:induction false} GenerationsHold(staff: map<UUID, Employee>, acts: seq<Action>)
    ensures GenerationsOk(Run(START, staff, acts))
  {
    hide Step, SystemInv, InStep, LeaseIssued;
    if acts == [] {
      StartInStep();
    } else {
      var s, a := Run(START, staff, acts[..|acts| - 1]), acts[|acts| - 1];
      GenerationsHold(staff, acts[..|acts| - 1]);
      Reachable(staff, acts[..|acts| - 1]);
      var s' := Step(s, staff, a);
      forall x | x in s'.board.execs ensures LeaseIssued(s', x) { StepKeepsLeaseIssued(s, staff, a, x); }
      forall x, r | x in s'.board.execs && OutstandingOf(s'.board, x, r) ensures InStep(s', x, r) {
        StepKeepsInStep(s, staff, a, x, r);
      }
    }
  }

  lemma StartInStep()
    ensures GenerationsOk(START)
  {
  }

  // ---------------------------------------------------------------- when a retry tracks its execution

  /**
   * In every reachable state: the outstanding retry of an execution carries its lease generation
   * exactly when the execution is not running under a takeover; then it carries an older one.
   */
  lemma RetryTracksLeaseIff(staff: map<UUID, Employee>, acts: seq<Action>, x: UUID, r: UUID)
    requires x in Run(START, staff, acts).board.execs && OutstandingOf(Run(START, staff, acts).board, x, r)
    ensures var s := Run(START, staff, acts);
            && (s.board.retries[r].generation == s.board.execs[x].leaseGeneration <==> !TakenOver(s, x))
            && s.board.retries[r].generation <= s.board.execs[x].leaseGeneration
  {
    hide Run, WellFormed, TokensOk, HoldersOk;
    Reachable(staff, acts);
    GenerationsHold(staff, acts);
    var s := Run(START, staff, acts);
    OutstandingRow(s.board, x, r);
    assert InStep(s, x, r);
    BoundedGeneration(s.board, x, r);
    if s.board.execs[x].status == Running { assert TakenByClaim(s, r, s.board.retries[r]); }
  }

  lemma BoundedGeneration(b: Board, x: UUID, r: UUID)
    requires WellFormed(b) && x in b.execs && OutstandingOf(b, x, r)
    ensures b.retries[r].generation <= b.execs[x].leaseGeneration
  {
    hide WellFormed, LanesOk, DlqOk, LogOk, KeysOk, RowOk, LastOk;
    var lanes := LanesFor(b);
    OnlyLastOutstanding(b, lanes, x, r);
    var last := LastRow(b, lanes, x);
  }

  /** A running execution has no pending retry, so the token every takeover gets names no retry at all. */
  lemma TakeoversNameNoRetry(staff: map<UUID, Employee>, acts: seq<Action>, ws: UUID, x: UUID, owner: string, ttl: int, now: Time)
    requires Reclaimable(Run(START, staff, acts).board, ws, x, now)
    ensures ReclaimStale(Run(START, staff, acts).board, ws, x, owner, ttl, now).1.value.retry == NIL
  {
    hide Run, WellFormed, TokensOk, HoldersOk, ClaimsOk;
    Reachable(staff, acts);
    var b := Run(START, staff, acts).board;
    forall r | r in PendingRetries(b.retries, x, ws) ensures false {
      assert OutstandingOf(b, x, r);
      OutstandingRow(b, x, r);
    }
    assert PendingRetries(b.retries, x, ws) == {};
  }

  // ---------------------------------------------------------------- a run where it does not

  /** Admitted and claimed for 60 as in the duplicate run, and taken over at 100. */
  const EXPIRED: seq<Action> := [DUPLICATE[0], DUPLICATE[1], Reclaim(4, 7, 10, "d", 60, 100)]

  /** The takeover leaves the execution at generation 2 and its claimed retry at generation 1. */
  lemma TakeoverLeavesRetryBehind()
    ensures var s := Run(START, STAFF, EXPIRED);
            && 10 in s.board.execs && OutstandingOf(s.board, 10, 20) && TakenOver(s, 10)
            && s.board.retries[20].generation == 1 && s.board.execs[10].leaseGeneration == 2
  {
    hide Step;
    var s2 := AfterClaim();
    var s3 := AfterTakeover(s2);
    RunOfThree(START, EXPIRED);
  }

  lemma AfterTakeover(s2: System) returns (s: System)
    requires ProcOf(s2, 4) == Idle && Leased(s2.board, 1, None) && s2.board.execs[10].leaseExpiresAt == Some(60)
    requires OneInFlight(s2.board, 20) && s2.board.retries[20].generation == 1
    ensures s == Step(s2, STAFF, EXPIRED[2])
    ensures 10 in s.board.execs && OutstandingOf(s.board, 10, 20) && TakenOver(s, 10)
    ensures s.board.retries[20].generation == 1 && s.board.execs[10].leaseGeneration == 2
  {
    hide PendingRetries;
    s := Step(s2, STAFF, EXPIRED[2]);
  }
}
