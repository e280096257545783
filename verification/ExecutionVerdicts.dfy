/**
 * The retryable flag outlives the attempt that wrote it: Claim does not clear it. Whether that can
 * turn an interrupted later attempt into a dead letter depends on how messages are delivered.
 */
module ExecutionVerdicts {
  import opened Wrappers
  import opened ExecutionDomain
  import opened ExecutionBoard
  import opened ExecutionProtocol
  import opened ExecutionEvolution
  import opened ExecutionInvariant
  import opened ExecutionWellFormed
  import opened ExecutionSystem
  import opened ExecutionRuns
  import opened RetryPolicy

  /** The message a worker process is acting on. */
  function MessageHeld(q: Proc): Option<Message> {
    match q
    case Working(m) => Some(m)
    case Persisted(m, _, _) => Some(m)
    case _ => None
  }

  /** The step does not put a second worker on a message some worker is still acting on. */
  predicate ExclusiveStep(s: System, a: Action) {
    a.Deliver? ==> forall p | p in s.procs :: MessageHeld(s.procs[p]) != Some(a.m)
  }

  /** At most one worker acts per claim at a time; redelivery after a crash or a finish is allowed. */
  ghost predicate ExclusiveRun(staff: map<UUID, Employee>, acts: seq<Action>) {
    forall i | 0 <= i < |acts| :: ExclusiveStep(At(staff, acts, i), acts[i])
  }

  // ---------------------------------------------------------------- when a pending row gets tainted

  /** A pending execution carrying a non-retryable verdict: its next crash would be final. */
  predicate Tainted(b: Board, x: UUID) {
    x in b.execs && b.execs[x].status == Pending && b.execs[x].retryable == Some(false)
  }

  /**
   * The step is a worker's Settle that will commit: its own classification says retry, its token holds,
   * it has attempts left and draws a free id, and yet the row carries a refusal, somebody else's.
   */
  predicate OverruledSettle(s: System, a: Action, x: UUID) {
    && SettlesRetry(s, a, x)
    && s.board.execs[x].retryable == Some(false)
  }

  predicate SettlesRetry(s: System, a: Action, x: UUID) {
    && a.Settle? && ProcOf(s, a.p).Persisted?
    && var q := ProcOf(s, a.p);
       && q.m.execution == x && q.c.retry && q.m.attempt < q.m.maxAttempts
       && Holds(s.board, FencedFrom(q.m, a.name)) && a.newId !in s.board.retries
  }

  /** The row's flag at generation g, while the lease of that generation stands. */
  predicate FlagIs(b: Board, x: UUID, g: nat, flag: Option<bool>) {
    x in b.execs && b.execs[x].status == Running && b.execs[x].leaseGeneration == g ==> b.execs[x].retryable == flag
  }

  /** Recovery between its two writes knows the flag its row carries: no worker shares its generation. */
  ghost predicate RecoveryKnows(s: System) {
    forall p | p in s.procs && s.procs[p].Reclaimed? ::
      FlagIs(s.board, s.procs[p].f.execution, s.procs[p].f.generation, s.procs[p].f.retryable)
  }

  /** In any reachable state, exactly such a Settle turns a pending execution's verdict non-retryable. */
  lemma TaintStepIff(s: System, staff: map<UUID, Employee>, a: Action, x: UUID)
    requires SystemInv(s) && RecoveryKnows(s) && !Tainted(s.board, x)
    ensures Tainted(Step(s, staff, a).board, x) <==> OverruledSettle(s, a, x)
  {
    hide SystemInv, RecoveryKnows, OutstandingRetries, ResolveRetries, WellFormed;
    if a.Settle? {
      SettleTaints(s, staff, a, x);
    } else if a.Resolve? {
      ResolveCleans(s, staff, a, x);
    } else {
      OthersCannotTaint(s, staff, a, x);
    }
  }

  lemma SettleTaints(s: System, staff: map<UUID, Employee>, a: Action, x: UUID)
    requires SystemInv(s) && a.Settle? && !Tainted(s.board, x)
    ensures Tainted(Step(s, staff, a).board, x) <==> OverruledSettle(s, a, x)
  {
    hide WellFormed, TokensOk, HoldersOk, ClaimsOk, OutstandingRetries, ResolveRetries, Delay, CurrentIfHeld;
    if ProcOf(s, a.p).Persisted? {
      var q := ProcOf(s, a.p);
      var f := FencedFrom(q.m, a.name);
      HolderHas(s, a.p);
      WorkerTokenCurrent(s, q.m, a.name);
      if q.c.retry && f.attempt < f.maxAttempts {
        RescheduleWellFormed(s.board, f, a.clock + Delay(f.attempt, a.base, a.cap), a.newId, a.now);
        TakenIdBlocks(s.board, f, a.clock + Delay(f.attempt, a.base, a.cap), f.attempt + 1, a.newId, a.now);
      }
    }
  }

  lemma TakenIdBlocks(b: Board, f: Fenced, next: Time, seqNo: int, newId: UUID, now: Time)
    ensures newId in b.retries ==> Reschedule(b, f, next, seqNo, newId, now).0 == b
  {
    hide OutstandingRetries;
  }

  lemma ResolveCleans(s: System, staff: map<UUID, Employee>, a: Action, x: UUID)
    requires RecoveryKnows(s) && a.Resolve? && !Tainted(s.board, x)
    ensures !Tainted(Step(s, staff, a).board, x)
  {
    hide OutstandingRetries, ResolveRetries, Delay;
    if a.p in s.procs && s.procs[a.p].Reclaimed? {
      var f := s.procs[a.p].f;
      assert FlagIs(s.board, f.execution, f.generation, f.retryable);
    }
  }

  lemma OthersCannotTaint(s: System, staff: map<UUID, Employee>, a: Action, x: UUID)
    requires !a.Settle? && !a.Resolve? && !Tainted(s.board, x)
    ensures !Tainted(Step(s, staff, a).board, x)
  {
    hide ResolveRetries, ClaimRetries, PendingRetries, OutstandingRetries, Keyed, Active, Delay, Classify;
  }

  // ---------------------------------------------------------------- exclusive delivery keeps verdicts honest

  /** A process between two writes knows the flag its row carries. */
  predicate KnowsFlag(b: Board, q: Proc) {
    match q
    case Persisted(m, c, _) => FlagIs(b, m.execution, m.generation, Some(c.retry))
    case Reclaimed(f) => FlagIs(b, f.execution, f.generation, f.retryable)
    case _ => true
  }

  /** A non-retryable flag on a running row was written by the current attempt's own worker. */
  predicate OwnVerdict(s: System, x: UUID)
    requires x in s.board.execs
  {
    s.board.execs[x].status == Running && s.board.execs[x].retryable == Some(false) ==>
      x in s.verdicts && s.verdicts[x] == Verdict(s.board.execs[x].attempt, false)
  }

  ghost predicate VerdictInv(s: System) {
    && (forall x | x in s.board.execs :: !Tainted(s.board, x) && OwnVerdict(s, x))
    && (forall p | p in s.procs :: KnowsFlag(s.board, s.procs[p]))
    && (forall p, q | p in s.procs && q in s.procs && p != q && MessageHeld(s.procs[p]).Some?
          :: MessageHeld(s.procs[p]) != MessageHeld(s.procs[q]))
  }

  /** How a step may change the flag of x: not at all, or by a classification, or by leaving the pending/running life. */
  lemma FlagMoves(s: System, staff: map<UUID, Employee>, a: Action, x: UUID)
    requires x in s.board.execs
    ensures var e, b' := s.board.execs[x], Step(s, staff, a).board;
            x in b'.execs
            && (b'.execs[x].retryable == e.retryable || Terminal(b'.execs[x].status) || ClassifiesHere(s, a, x))
  {
    hide ResolveRetries, ClaimRetries, PendingRetries, OutstandingRetries, Keyed, Active, Delay, Classify;
  }

  /** The step commits PersistError on x. */
  predicate ClassifiesHere(s: System, a: Action, x: UUID) {
    && a.Fail? && ProcOf(s, a.p).Working?
    && ProcOf(s, a.p).m.execution == x && Holds(s.board, FencedFrom(ProcOf(s, a.p).m, a.name))
  }

  /** What a committed classification writes. */
  lemma ClassificationWrites(s: System, staff: map<UUID, Employee>, a: Action, x: UUID)
    requires ClassifiesHere(s, a, x)
    ensures var s', m, c := Step(s, staff, a), ProcOf(s, a.p).m, Classify(a.cause);
            && s'.board.execs.Keys == s.board.execs.Keys
            && s'.board.execs[x].retryable == Some(c.retry) && s'.board.execs[x].status == Running
            && s'.board.execs[x].attempt == s.board.execs[x].attempt
            && s'.board.execs[x].leaseGeneration == s.board.execs[x].leaseGeneration == m.generation
            && s'.verdicts == s.verdicts[x := Verdict(m.attempt, c.retry)]
            && s'.procs == s.procs[a.p := Persisted(m, c, a.cause.text)]
  {
    hide Classify;
  }

  lemma VerdictsMoveOnlyByClassification(s: System, staff: map<UUID, Employee>, a: Action, x: UUID)
    requires !ClassifiesHere(s, a, x)
    ensures x in s.verdicts ==> x in Step(s, staff, a).verdicts && Step(s, staff, a).verdicts[x] == s.verdicts[x]
  {
    hide ResolveRetries, ClaimRetries, PendingRetries, OutstandingRetries, Keyed, Active, Delay, Classify;
  }

  /** A process that moves keeps its message or drops it, unless one is delivered to it. */
  lemma ProcMoves(s: System, staff: map<UUID, Employee>, a: Action, p: nat)
    ensures var q, q' := ProcOf(s, p), ProcOf(Step(s, staff, a), p);
            || q' == q || q' == Idle || q'.Claimed? || q'.Published?
            || (a.Reclaim? && a.p == p && CommitsReclaim(s, a, a.x) && q' == Reclaimed(ReclaimStale(s.board, a.ws, a.x, a.owner, a.ttl, a.now).1.value))
            || (a.Deliver? && a.p == p && q' == Working(a.m))
            || (a.Fail? && a.p == p && q.Working? && ClassifiesHere(s, a, q.m.execution) && q' == Persisted(q.m, Classify(a.cause), a.cause.text))
  {
    hide ResolveRetries, ClaimRetries, PendingRetries, OutstandingRetries, Keyed, Active, Delay, Classify;
  }

  lemma StepKeepsHeldApart(s: System, staff: map<UUID, Employee>, a: Action)
    requires VerdictInv(s) && ExclusiveStep(s, a)
    ensures var s' := Step(s, staff, a);
            forall p, q | p in s'.procs && q in s'.procs && p != q && MessageHeld(s'.procs[p]).Some?
              :: MessageHeld(s'.procs[p]) != MessageHeld(s'.procs[q])
  {
    var s' := Step(s, staff, a);
    hide Step, KnowsFlag, Tainted, OwnVerdict, ReclaimStale, CommitsReclaim;
    forall p, q | p in s'.procs && q in s'.procs && p != q && MessageHeld(s'.procs[p]).Some?
      ensures MessageHeld(s'.procs[p]) != MessageHeld(s'.procs[q])
    {
      ProcMoves(s, staff, a, p);
      ProcMoves(s, staff, a, q);
    }
  }

  /** Whoever knows a flag still knows it: only its own classification, or a new generation, moves it. */
  lemma StepKeepsKnowledge(s: System, staff: map<UUID, Employee>, a: Action, p: nat)
    requires SystemInv(s) && VerdictInv(s)
    ensures KnowsFlag(Step(s, staff, a).board, ProcOf(Step(s, staff, a), p))
  {
    hide Step, WellFormed, ClaimsOk, Evolves, Tainted, OwnVerdict, CommitsClaim;
    var s' := Step(s, staff, a);
    var q := ProcOf(s, p);
    ProcMoves(s, staff, a, p);
    if a.Fail? && a.p == p && q.Working? && ClassifiesHere(s, a, q.m.execution) {
      ClassificationWrites(s, staff, a, q.m.execution);
    } else if a.Reclaim? && a.p == p && CommitsReclaim(s, a, a.x) {
      hide TokensOk, HoldersOk;
      assert ProcOf(s', p) == Idle || KnowsFlag(s'.board, ProcOf(s', p)) by { ReclaimReadsFlag(s, staff, a); }
    } else if ProcOf(s', p) == q && (q.Persisted? || q.Reclaimed?) {
      StillKnown(s, staff, a, p);
    }
  }

  lemma ReclaimReadsFlag(s: System, staff: map<UUID, Employee>, a: Action)
    requires a.Reclaim? && CommitsReclaim(s, a, a.x)
    ensures KnowsFlag(Step(s, staff, a).board, ProcOf(Step(s, staff, a), a.p))
  {
    hide PendingRetries;
  }

  lemma StillKnown(s: System, staff: map<UUID, Employee>, a: Action, p: nat)
    requires SystemInv(s) && VerdictInv(s) && p in s.procs
    requires ProcOf(Step(s, staff, a), p) == ProcOf(s, p) && (ProcOf(s, p).Persisted? || ProcOf(s, p).Reclaimed?)
    ensures KnowsFlag(Step(s, staff, a).board, ProcOf(s, p))
  {
    hide Step, WellFormed, ClaimsOk, Evolves, Tainted, OwnVerdict, CommitsClaim, CommitsReclaim;
    var q := ProcOf(s, p);
    assert KnowsFlag(s.board, q);
    var x := if q.Persisted? then q.m.execution else q.f.execution;
    var g := if q.Persisted? then q.m.generation else q.f.generation;
    IssuedOnARow(s, p);
    if ClassifiesHere(s, a, x) && s.board.execs[x].leaseGeneration == g {
      if q.Persisted? { OneWorkerPerGeneration(s, a.p, p); } else { NoWorkerAtARecoveredGeneration(s, a.p, p); }
      assert false;
    }
    FlagStays(s, staff, a, x, g, if q.Persisted? then Some(q.c.retry) else q.f.retryable);
  }

  /** While a lease stands its row's flag moves only by a classification at its generation. */
  lemma FlagStays(s: System, staff: map<UUID, Employee>, a: Action, x: UUID, g: nat, flag: Option<bool>)
    requires x in s.board.execs && g <= s.board.execs[x].leaseGeneration
    requires FlagIs(s.board, x, g, flag) && !(ClassifiesHere(s, a, x) && s.board.execs[x].leaseGeneration == g)
    ensures FlagIs(Step(s, staff, a).board, x, g, flag)
  {
    hide Step, Evolves, ClassifiesHere;
    FlagMoves(s, staff, a, x);
    StepEvolves(s, staff, a);
    EvolvesAt(s.board, Step(s, staff, a).board, x);
    if ClassifiesHere(s, a, x) { ClassificationNotHere(s, staff, a, x); }
  }

  lemma ClassificationNotHere(s: System, staff: map<UUID, Employee>, a: Action, x: UUID)
    requires x in s.board.execs && ClassifiesHere(s, a, x)
    ensures x in Step(s, staff, a).board.execs && Step(s, staff, a).board.execs[x].leaseGeneration == s.board.execs[x].leaseGeneration
  {
    ClassificationWrites(s, staff, a, x);
  }

  lemma EvolvesAt(b: Board, b': Board, x: UUID)
    requires Evolves(b, b') && x in b.execs
    ensures x in b'.execs && RowEvolves(b.execs[x], b'.execs[x])
  {
  }

  /** The row of a held token exists, and no future generation is held. */
  lemma IssuedOnARow(s: System, p: nat)
    requires TokensOk(s) && HoldersOk(s) && p in s.procs
    ensures s.procs[p].Persisted? ==> var m := s.procs[p].m; m.execution in s.board.execs && m.generation <= s.board.execs[m.execution].leaseGeneration
    ensures s.procs[p].Reclaimed? ==> var f := s.procs[p].f; f.execution in s.board.execs && f.generation <= s.board.execs[f.execution].leaseGeneration
  {
    assert ProcOk(s, s.procs[p]);
    match s.procs[p]
    case Persisted(m, _, _) =>
      assert MessageOk(s, m);
      assert TokenOk(s.board, m.execution, m.generation, s.issued[(m.execution, m.generation)]);
    case Reclaimed(f) =>
      assert TokenOk(s.board, f.execution, f.generation, s.issued[(f.execution, f.generation)]);
    case _ =>
  }

  /** A working process and one that has persisted never share an (execution, generation), if messages are held apart. */
  lemma OneWorkerPerGeneration(s: System, w: nat, p: nat)
    requires HoldersOk(s) && VerdictInv(s) && w in s.procs && p in s.procs && s.procs[w].Working? && s.procs[p].Persisted?
    ensures var m, n := s.procs[w].m, s.procs[p].m; (m.execution, m.generation) != (n.execution, n.generation)
  {
    hide KnowsFlag, Tainted, OwnVerdict;
    assert ProcOk(s, s.procs[w]) && ProcOk(s, s.procs[p]);
    assert MessageOk(s, s.procs[w].m) && MessageOk(s, s.procs[p].m);
  }

  /** No message carries the generation of a takeover. */
  lemma NoWorkerAtARecoveredGeneration(s: System, w: nat, p: nat)
    requires HoldersOk(s) && w in s.procs && p in s.procs && s.procs[w].Working? && s.procs[p].Reclaimed?
    ensures var m, f := s.procs[w].m, s.procs[p].f; (m.execution, m.generation) != (f.execution, f.generation)
  {
    assert ProcOk(s, s.procs[w]) && ProcOk(s, s.procs[p]);
    assert MessageOk(s, s.procs[w].m);
  }

  // ---------------------------------------------------------------- recovery knows the flag, on every run

  lemma StepKeepsRecoveryKnowing(s: System, staff: map<UUID, Employee>, a: Action)
    requires SystemInv(s) && RecoveryKnows(s)
    ensures RecoveryKnows(Step(s, staff, a))
  {
    hide Step, SystemInv, FlagIs;
    var s' := Step(s, staff, a);
    forall p | p in s'.procs && s'.procs[p].Reclaimed?
      ensures FlagIs(s'.board, s'.procs[p].f.execution, s'.procs[p].f.generation, s'.procs[p].f.retryable)
    {
      RecoveryStillKnows(s, staff, a, p);
    }
  }

  lemma RecoveryStillKnows(s: System, staff: map<UUID, Employee>, a: Action, p: nat)
    requires SystemInv(s) && RecoveryKnows(s) && ProcOf(Step(s, staff, a), p).Reclaimed?
    ensures KnowsFlag(Step(s, staff, a).board, ProcOf(Step(s, staff, a), p))
  {
    hide Step, WellFormed, ClaimsOk, TokensOk, CommitsClaim, CommitsReclaim;
    ProcMoves(s, staff, a, p);
    if ProcOf(Step(s, staff, a), p) == ProcOf(s, p) {
      var f := s.procs[p].f;
      assert KnowsFlag(s.board, s.procs[p]);
      assert f.execution in s.board.execs && f.generation <= s.board.execs[f.execution].leaseGeneration by { IssuedOnARow(s, p); }
      if ClassifiesHere(s, a, f.execution) && s.board.execs[f.execution].leaseGeneration == f.generation {
        NoWorkerAtARecoveredGeneration(s, a.p, p);
        assert false;
      }
      FlagStays(s, staff, a, f.execution, f.generation, f.retryable);
    } else {
      ReclaimReadsFlag(s, staff, a);
    }
  }

  lemma {:induction false} RecoveryKnowsAt(staff: map<UUID, Employee>, acts: seq<Action>, n: nat)
    requires n <= |acts|
    ensures RecoveryKnows(At(staff, acts, n))
    decreases n
  {
    hide Step, SystemInv, RecoveryKnows;
    if n == 0 {
      assert RecoveryKnows(START) by { NobodyRecovers(); }
    } else {
      RecoveryKnowsAt(staff, acts, n - 1);
      AtReachable(staff, acts, n - 1);
      AtNext(staff, acts, n - 1);
      StepKeepsRecoveryKnowing(At(staff, acts, n - 1), staff, acts[n - 1]);
    }
  }

  lemma NobodyRecovers()
    ensures RecoveryKnows(START)
  {
  }

  // ---------------------------------------------------------------- which runs taint

  /**
   * Two workers at one generation: at i one classifies its failure as retryable, at j another one's
   * refusal at the same generation is written over it and stays the last word, and at k the first,
   * which has neither crashed nor settled in between, commits its retry.
   */
  ghost predicate Overruled(staff: map<UUID, Employee>, acts: seq<Action>, i: nat, j: nat, k: nat, x: UUID)
    requires i < j < k < |acts|
  {
    && ClassifiesHere(At(staff, acts, i), acts[i], x) && Classify(acts[i].cause).retry
    && ClassifiesHere(At(staff, acts, j), acts[j], x) && !Classify(acts[j].cause).retry
    && acts[j].p != acts[i].p
    && At(staff, acts, j).board.execs[x].leaseGeneration == At(staff, acts, i).board.execs[x].leaseGeneration
    && (forall l | j < l < k :: !ClassifiesHere(At(staff, acts, l), acts[l], x))
    && (forall l | i < l < k :: !Ends(acts[l], acts[i].p))
    && acts[k].Settle? && acts[k].p == acts[i].p && SettlesRetry(At(staff, acts, k), acts[k], x)
  }

  /** The worker process p crashes or settles. */
  predicate Ends(a: Action, p: nat) {
    (a.Crash? || a.Settle?) && a.p == p
  }

  /** Over any run: some state has x pending with a non-retryable verdict iff somewhere two workers overruled each other so. */
  lemma TaintIff(staff: map<UUID, Employee>, acts: seq<Action>, x: UUID)
    ensures (exists n: nat | n <= |acts| :: Tainted(At(staff, acts, n).board, x))
            <==> (exists i: nat, j: nat, k: nat | i < j < k < |acts| :: Overruled(staff, acts, i, j, k, x))
  {
    hide At, Overruled, Tainted;
    if i: nat, j: nat, k: nat :| i < j < k < |acts| && Overruled(staff, acts, i, j, k, x) {
      OverruledTaints(staff, acts, i, j, k, x);
      assert Tainted(At(staff, acts, k + 1).board, x);
    }
    if n: nat :| n <= |acts| && Tainted(At(staff, acts, n).board, x) {
      var i, j, k := TaintHasACause(staff, acts, n, x);
    }
  }

  lemma {:induction false} TaintHasACause(staff: map<UUID, Employee>, acts: seq<Action>, n: nat, x: UUID) returns (i: nat, j: nat, k: nat)
    requires n <= |acts| && Tainted(At(staff, acts, n).board, x)
    ensures i < j < k < n && Overruled(staff, acts, i, j, k, x)
    decreases n
  {
    hide Step, SystemInv, RecoveryKnows, Overruled, OverruledSettle, At;
    if n == 0 {
      assert false by { NothingTainted(staff, acts, x); }
    } else if Tainted(At(staff, acts, n - 1).board, x) {
      i, j, k := TaintHasACause(staff, acts, n - 1, x);
    } else {
      k := n - 1;
      AtNext(staff, acts, k);
      AtReachable(staff, acts, k);
      RecoveryKnowsAt(staff, acts, k);
      TaintStepIff(At(staff, acts, k), staff, acts[k], x);
      i, j := SettleOverrules(staff, acts, k, x);
    }
  }

  lemma NothingTainted(staff: map<UUID, Employee>, acts: seq<Action>, x: UUID)
    ensures !Tainted(At(staff, acts, 0).board, x)
  {
  }

  /** The two classifications behind a Settle that overrules the row's refusal. */
  lemma SettleOverrules(staff: map<UUID, Employee>, acts: seq<Action>, k: nat, x: UUID) returns (i: nat, j: nat)
    requires k < |acts| && OverruledSettle(At(staff, acts, k), acts[k], x)
    ensures i < j < k && Overruled(staff, acts, i, j, k, x)
  {
    hide Step, At, ClassifiesHere;
    var q := ProcOf(At(staff, acts, k), acts[k].p);
    i := PersistedByFail(staff, acts, k, acts[k].p);
    AtNext(staff, acts, i);
    ClassifierWorks(At(staff, acts, i), acts[i], x);
    ClassificationWrites(At(staff, acts, i), staff, acts[i], x);
    j := LastWord(staff, acts, i + 1, k, x, q.m.generation);
    SettlingStays(staff, acts, i, j, acts[k].p);
    ClassifierWorks(At(staff, acts, j), acts[j], x);
  }

  lemma ClassifierWorks(s: System, a: Action, x: UUID)
    requires ClassifiesHere(s, a, x)
    ensures a.Fail? && ProcOf(s, a.p).Working? && x in s.board.execs
  {
  }

  /** A process found between its two writes got there by its own classification, and has not ended since. */
  lemma {:induction false} PersistedByFail(staff: map<UUID, Employee>, acts: seq<Action>, k: nat, p: nat) returns (i: nat)
    requires k <= |acts| && ProcOf(At(staff, acts, k), p).Persisted?
    ensures i < k && acts[i].Fail? && acts[i].p == p
    ensures var q := ProcOf(At(staff, acts, k), p);
            && ClassifiesHere(At(staff, acts, i), acts[i], q.m.execution)
            && ProcOf(At(staff, acts, i), p) == Working(q.m)
            && q == Persisted(q.m, Classify(acts[i].cause), acts[i].cause.text)
    ensures forall l | i < l < k :: !Ends(acts[l], p)
    decreases k
  {
    hide Step, At, ClassifiesHere, CommitsReclaim, Classify;
    if k == 0 {
      assert false by { NobodyPersisted(staff, acts, p); }
    } else {
      AtNext(staff, acts, k - 1);
      ProcMoves(At(staff, acts, k - 1), staff, acts[k - 1], p);
      if ProcOf(At(staff, acts, k - 1), p) == ProcOf(At(staff, acts, k), p) {
        i := PersistedByFail(staff, acts, k - 1, p);
        EndingMoves(At(staff, acts, k - 1), staff, acts[k - 1], p);
      } else {
        i := k - 1;
      }
    }
  }

  lemma NobodyPersisted(staff: map<UUID, Employee>, acts: seq<Action>, p: nat)
    ensures ProcOf(At(staff, acts, 0), p) == Idle
  {
  }

  lemma EndingMoves(s: System, staff: map<UUID, Employee>, a: Action, p: nat)
    requires ProcOf(s, p).Persisted?
    ensures if Ends(a, p) then ProcOf(Step(s, staff, a), p) == Idle else ProcOf(Step(s, staff, a), p) == ProcOf(s, p)
  {
    hide ResolveRetries, ClaimRetries, PendingRetries, OutstandingRetries, Keyed, Active, Delay, Classify;
  }

  /** Until it ends, the process stays where its classification left it. */
  lemma {:induction false} SettlingStays(staff: map<UUID, Employee>, acts: seq<Action>, i: nat, n: nat, p: nat)
    requires i < n <= |acts| && ProcOf(At(staff, acts, i + 1), p).Persisted? && forall l | i < l < n :: !Ends(acts[l], p)
    ensures ProcOf(At(staff, acts, n), p) == ProcOf(At(staff, acts, i + 1), p)
    decreases n
  {
    hide Step, At;
    if i + 1 < n {
      SettlingStays(staff, acts, i, n - 1, p);
      AtNext(staff, acts, n - 1);
      EndingMoves(At(staff, acts, n - 1), staff, acts[n - 1], p);
    }
  }

  /** A flag that changed while a lease stood was changed by a classification, the last of which wrote it. */
  lemma {:induction false} LastWord(staff: map<UUID, Employee>, acts: seq<Action>, i: nat, n: nat, x: UUID, g: nat) returns (j: nat)
    requires i <= n <= |acts|
    requires LeasedAt(At(staff, acts, i).board, x, g) && At(staff, acts, i).board.execs[x].retryable != Some(false)
    requires LeasedAt(At(staff, acts, n).board, x, g) && At(staff, acts, n).board.execs[x].retryable == Some(false)
    ensures i <= j < n && ClassifiesHere(At(staff, acts, j), acts[j], x) && !Classify(acts[j].cause).retry
    ensures LeasedAt(At(staff, acts, j).board, x, g)
    ensures forall l | j < l < n :: !ClassifiesHere(At(staff, acts, l), acts[l], x)
    decreases n
  {
    hide Step, At, ClassifiesHere, Classify;
    assert i < n;
    var s, a := At(staff, acts, n - 1), acts[n - 1];
    AtNext(staff, acts, n - 1);
    LeasedBetween(staff, acts, i, n - 1, n, x, g);
    if ClassifiesHere(s, a, x) {
      ClassificationWrites(s, staff, a, x);
      j := n - 1;
    } else {
      FlagMoves(s, staff, a, x);
      j := LastWord(staff, acts, i, n - 1, x, g);
    }
  }

  predicate LeasedAt(b: Board, x: UUID, g: nat) {
    x in b.execs && b.execs[x].status == Running && b.execs[x].leaseGeneration == g
  }

  lemma LeasedBetween(staff: map<UUID, Employee>, acts: seq<Action>, i: nat, l: nat, n: nat, x: UUID, g: nat)
    requires i <= l <= n <= |acts| && LeasedAt(At(staff, acts, i).board, x, g) && LeasedAt(At(staff, acts, n).board, x, g)
    ensures LeasedAt(At(staff, acts, l).board, x, g)
  {
    hide Step, At, Evolves;
    RunEvolves(staff, acts, i, l);
    RunEvolves(staff, acts, l, n);
    EvolvesAt(At(staff, acts, i).board, At(staff, acts, l).board, x);
    EvolvesAt(At(staff, acts, l).board, At(staff, acts, n).board, x);
  }

  lemma OverruledTaints(staff: map<UUID, Employee>, acts: seq<Action>, i: nat, j: nat, k: nat, x: UUID)
    requires i < j < k < |acts| && Overruled(staff, acts, i, j, k, x)
    ensures Tainted(At(staff, acts, k + 1).board, x)
  {
    hide Step, At, SystemInv, RecoveryKnows, ClassifiesHere, Classify;
    AtNext(staff, acts, j);
    ClassifierWorks(At(staff, acts, j), acts[j], x);
    ClassificationWrites(At(staff, acts, j), staff, acts[j], x);
    var s := At(staff, acts, k);
    RefusalStands(staff, acts, j + 1, k, x);
    AtNext(staff, acts, k);
    AtReachable(staff, acts, k);
    RecoveryKnowsAt(staff, acts, k);
    TaintStepIff(s, staff, acts[k], x);
  }

  /** Nobody classifies again, and the row is still running at the end: the refusal is still there. */
  lemma {:induction false} RefusalStands(staff: map<UUID, Employee>, acts: seq<Action>, j: nat, k: nat, x: UUID)
    requires j <= k <= |acts| && forall l | j <= l < k :: !ClassifiesHere(At(staff, acts, l), acts[l], x)
    requires x in At(staff, acts, j).board.execs && At(staff, acts, j).board.execs[x].retryable == Some(false)
    requires x in At(staff, acts, k).board.execs && !Terminal(At(staff, acts, k).board.execs[x].status)
    ensures At(staff, acts, k).board.execs[x].retryable == Some(false)
    decreases k
  {
    hide Step, At, ClassifiesHere, Evolves;
    if j < k {
      RunEvolves(staff, acts, j, k - 1);
      EvolvesAt(At(staff, acts, j).board, At(staff, acts, k - 1).board, x);
      AtNext(staff, acts, k - 1);
      FlagMoves(At(staff, acts, k - 1), staff, acts[k - 1], x);
      StepEvolves(At(staff, acts, k - 1), staff, acts[k - 1]);
      EvolvesAt(At(staff, acts, k - 1).board, At(staff, acts, k).board, x);
      RefusalStands(staff, acts, j, k - 1, x);
    }
  }

  // ---------------------------------------------------------------- exclusive runs stay clean

  lemma StepKeepsClean(s: System, staff: map<UUID, Employee>, a: Action, x: UUID)
    requires SystemInv(s) && VerdictInv(s)
    ensures !Tainted(Step(s, staff, a).board, x)
  {
    hide Step, SystemInv, OwnVerdict;
    assert !Tainted(s.board, x) by { CleanNow(s, x); }
    RecoveryAmongKnowers(s);
    TaintStepIff(s, staff, a, x);
    if a.Settle? && a.p in s.procs { assert KnowsFlag(s.board, s.procs[a.p]); }
  }

  lemma CleanNow(s: System, x: UUID)
    requires VerdictInv(s)
    ensures !Tainted(s.board, x)
  {
  }

  lemma RecoveryAmongKnowers(s: System)
    requires VerdictInv(s)
    ensures RecoveryKnows(s)
  {
    hide OwnVerdict, Tainted;
    forall p | p in s.procs && s.procs[p].Reclaimed?
      ensures FlagIs(s.board, s.procs[p].f.execution, s.procs[p].f.generation, s.procs[p].f.retryable)
    {
      assert KnowsFlag(s.board, s.procs[p]);
    }
  }

  lemma StepKeepsOwnVerdict(s: System, staff: map<UUID, Employee>, a: Action, x: UUID)
    requires SystemInv(s) && VerdictInv(s) && x in Step(s, staff, a).board.execs
    ensures OwnVerdict(Step(s, staff, a), x)
  {
    hide Step, WellFormed, ClaimsOk, KnowsFlag, CommitsClaim, CommitsReclaim;
    if x !in s.board.execs {
      AdmittedAfresh(s, staff, a, x);
    } else {
      FlagMoves(s, staff, a, x);
      GenerationMoves(s, staff, a, x);
      if ClassifiesHere(s, a, x) {
        ClassificationWrites(s, staff, a, x);
        assert ProcOk(s, s.procs[a.p]);
        WorkerTokenCurrent(s, s.procs[a.p].m, a.name);
      } else {
        VerdictsMoveOnlyByClassification(s, staff, a, x);
        assert !Tainted(s.board, x) && OwnVerdict(s, x);
        if Step(s, staff, a).board.execs[x].status == Running { RunningFromRunning(s, staff, a, x); }
      }
    }
  }

  /** A running row was running before at the same attempt, or has just been claimed. */
  lemma RunningFromRunning(s: System, staff: map<UUID, Employee>, a: Action, x: UUID)
    requires x in s.board.execs && x in Step(s, staff, a).board.execs && Step(s, staff, a).board.execs[x].status == Running
    ensures (s.board.execs[x].status == Pending && CommitsClaim(s, a, x))
            || (s.board.execs[x].status == Running && !CommitsClaim(s, a, x))
  {
    hide ResolveRetries, ClaimRetries, PendingRetries, OutstandingRetries, Keyed, Active, Delay, Classify;
  }

  lemma StepKeepsVerdictInv(s: System, staff: map<UUID, Employee>, a: Action)
    requires SystemInv(s) && VerdictInv(s) && ExclusiveStep(s, a)
    ensures VerdictInv(Step(s, staff, a))
  {
    hide Step, SystemInv, KnowsFlag, Tainted, OwnVerdict, ExclusiveStep;
    var s' := Step(s, staff, a);
    StepKeepsHeldApart(s, staff, a);
    forall x | x in s'.board.execs ensures !Tainted(s'.board, x) && OwnVerdict(s', x) {
      StepKeepsClean(s, staff, a, x);
      StepKeepsOwnVerdict(s, staff, a, x);
    }
    forall p | p in s'.procs ensures KnowsFlag(s'.board, s'.procs[p]) {
      StepKeepsKnowledge(s, staff, a, p);
    }
  }

  lemma {:induction false} VerdictsHold(staff: map<UUID, Employee>, acts: seq<Action>, n: nat)
    requires n <= |acts| && ExclusiveRun(staff, acts)
    ensures VerdictInv(At(staff, acts, n))
  {
    hide Step, SystemInv, ExclusiveStep, KnowsFlag, OwnVerdict, Tainted;
    if n > 0 {
      VerdictsHold(staff, acts, n - 1);
      AtReachable(staff, acts, n - 1);
      AtNext(staff, acts, n - 1);
      StepKeepsVerdictInv(At(staff, acts, n - 1), staff, acts[n - 1]);
    }
  }

  /** With at most one worker acting per claim, a pending execution never carries a non-retryable verdict. */
  lemma ExclusiveRunsStayClean(staff: map<UUID, Employee>, acts: seq<Action>, x: UUID)
    requires ExclusiveRun(staff, acts)
    ensures !Tainted(Run(START, staff, acts).board, x)
  {
    hide Step, ExclusiveRun, KnowsFlag, OwnVerdict;
    assert acts[..|acts|] == acts;
    VerdictsHold(staff, acts, |acts|);
  }

  /**
   * With at most one worker acting per claim, recovery dead-letters an execution only when its
   * attempts are used up, or when the worker of this very attempt persisted a non-retryable error.
   */
  lemma RecoveryDeadLettersForCause(staff: map<UUID, Employee>, acts: seq<Action>, i: nat, x: UUID)
    requires i < |acts| && ExclusiveRun(staff, acts) && acts[i].Resolve?
    requires var s := At(staff, acts, i);
             x in s.board.execs && s.board.execs[x].status != Failed && x in Step(s, staff, acts[i]).board.execs
             && Step(s, staff, acts[i]).board.execs[x].status == Failed
    ensures var s := At(staff, acts, i);
            s.board.execs[x].attempt == s.board.execs[x].maxAttempts
            || (x in s.verdicts && s.verdicts[x] == Verdict(s.board.execs[x].attempt, false))
  {
    hide Step, At, ExclusiveRun, WellFormed, ClaimsOk, HoldersOk;
    VerdictsHold(staff, acts, i);
    AtReachable(staff, acts, i);
    var s := At(staff, acts, i);
    WithinBudget(s, x);
    DeadLetterReasons(s, staff, acts[i], x);
  }

  lemma DeadLetterReasons(s: System, staff: map<UUID, Employee>, a: Action, x: UUID)
    requires SystemInv(s) && VerdictInv(s) && a.Resolve? && x in s.board.execs && RowOk(s.board.execs[x])
    requires s.board.execs[x].status != Failed && x in Step(s, staff, a).board.execs && Step(s, staff, a).board.execs[x].status == Failed
    ensures s.board.execs[x].attempt == s.board.execs[x].maxAttempts || (s.board.execs[x].status == Running && s.board.execs[x].retryable == Some(false))
    ensures OwnVerdict(s, x)
  {
    hide ResolveRetries, OutstandingRetries, Delay, WellFormed, ClaimsOk;
    assert ProcOk(s, s.procs[a.p]) && KnowsFlag(s.board, s.procs[a.p]);
    var f := s.procs[a.p].f;
    assert TokenOk(s.board, f.execution, f.generation, s.issued[(f.execution, f.generation)]);
  }
}
