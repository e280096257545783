/** What holds over whole interleavings: fencing, absorption, the attempt budget, and who claimed what. */
module ExecutionRuns {
  import opened Wrappers
  import opened ExecutionDomain
  import opened ExecutionBoard
  import opened ExecutionProtocol
  import opened ExecutionEvolution
  import opened ExecutionInvariant
  import opened ExecutionWellFormed
  import opened ExecutionSystem

  // ---------------------------------------------------------------- reading a run

  lemma AtNext(staff: map<UUID, Employee>, acts: seq<Action>, i: nat)
    requires i < |acts|
    ensures At(staff, acts, i + 1) == Step(At(staff, acts, i), staff, acts[i])
  {
    hide Step;
    assert acts[..i + 1][..i] == acts[..i];
  }

  lemma AtReachable(staff: map<UUID, Employee>, acts: seq<Action>, i: nat)
    requires i <= |acts|
    ensures SystemInv(At(staff, acts, i))
  {
    hide SystemInv, Step;
    Reachable(staff, acts[..i]);
  }

  lemma {:induction false} RunEvolves(staff: map<UUID, Employee>, acts: seq<Action>, i: nat, j: nat)
    requires i <= j <= |acts|
    ensures Evolves(At(staff, acts, i).board, At(staff, acts, j).board)
    decreases j - i
  {
    hide Evolves, Step, At;
    if i == j {
      Unmoved(At(staff, acts, i).board);
    } else {
      AtNext(staff, acts, i);
      StepEvolves(At(staff, acts, i), staff, acts[i]);
      RunEvolves(staff, acts, i + 1, j);
      EvolvesTransitive(At(staff, acts, i).board, At(staff, acts, i + 1).board, At(staff, acts, j).board);
    }
  }

  // ---------------------------------------------------------------- what a step does to a lease

  /** The step commits a claim of x. */
  predicate CommitsClaim(s: System, a: Action, x: UUID) {
    a.ClaimDue? && a.x == x && ProcOf(s, a.p) == Idle && Claimable(s.board, a.ws, x, a.now)
  }

  /** The step commits a takeover of x. */
  predicate CommitsReclaim(s: System, a: Action, x: UUID) {
    a.Reclaim? && a.x == x && ProcOf(s, a.p) == Idle && Reclaimable(s.board, a.ws, x, a.now)
  }

  /** The token a fenced write of this step presents, if it makes one. */
  function Presents(s: System, a: Action): Option<Fenced> {
    match a
    case Resolve(p, _, _, _, _, _) => if ProcOf(s, p).Reclaimed? then Some(ProcOf(s, p).f) else None
    case Beat(p, name, _, _) =>
      if ProcOf(s, p).Working? || ProcOf(s, p).Persisted? then Some(FencedFrom(ProcOf(s, p).m, name)) else None
    case Succeed(p, name, _, _) => if ProcOf(s, p).Working? then Some(FencedFrom(ProcOf(s, p).m, name)) else None
    case Fail(p, name, _, _) => if ProcOf(s, p).Working? then Some(FencedFrom(ProcOf(s, p).m, name)) else None
    case Settle(p, name, _, _, _, _, _, _) => if ProcOf(s, p).Persisted? then Some(FencedFrom(ProcOf(s, p).m, name)) else None
    case _ => None
  }

  /** A fenced write with a token of (x, g) commits. */
  predicate CommitsWrite(s: System, a: Action, x: UUID, g: nat) {
    Presents(s, a).Some? && Presents(s, a).value.execution == x && Presents(s, a).value.generation == g
    && Holds(s.board, Presents(s, a).value)
  }

  /** ... and takes x out of running: one of Complete, Reschedule and FailAndDLQ. */
  ghost predicate CommitsFinal(s: System, staff: map<UUID, Employee>, a: Action, x: UUID, g: nat) {
    CommitsWrite(s, a, x, g) && var b' := Step(s, staff, a).board; x in b'.execs && b'.execs[x].status != Running
  }

  /** A generation is handed out by a claim or a takeover, one at a time, and changes in no other way. */
  lemma GenerationMoves(s: System, staff: map<UUID, Employee>, a: Action, x: UUID)
    requires x in s.board.execs
    ensures var b' := Step(s, staff, a).board;
            x in b'.execs
            && b'.execs[x].leaseGeneration == s.board.execs[x].leaseGeneration
                 + (if CommitsClaim(s, a, x) || CommitsReclaim(s, a, x) then 1 else 0)
            && b'.execs[x].attempt == s.board.execs[x].attempt + (if CommitsClaim(s, a, x) then 1 else 0)
  {
    hide Step, Claimable, Reclaimable;
    if a.ClaimDue? || a.Reclaim? { HandingOut(s, staff, a, x); } else { LeaseKept(s, staff, a, x); }
  }

  lemma HandingOut(s: System, staff: map<UUID, Employee>, a: Action, x: UUID)
    requires x in s.board.execs && (a.ClaimDue? || a.Reclaim?)
    ensures var b' := Step(s, staff, a).board;
            x in b'.execs
            && b'.execs[x].leaseGeneration == s.board.execs[x].leaseGeneration
                 + (if CommitsClaim(s, a, x) || CommitsReclaim(s, a, x) then 1 else 0)
            && b'.execs[x].attempt == s.board.execs[x].attempt + (if CommitsClaim(s, a, x) then 1 else 0)
  {
    hide ClaimRetries, PendingRetries;
  }

  lemma LeaseKept(s: System, staff: map<UUID, Employee>, a: Action, x: UUID)
    requires x in s.board.execs && !a.ClaimDue? && !a.Reclaim?
    ensures var b' := Step(s, staff, a).board;
            x in b'.execs && b'.execs[x].leaseGeneration == s.board.execs[x].leaseGeneration && b'.execs[x].attempt == s.board.execs[x].attempt
  {
    hide ResolveRetries, OutstandingRetries, Keyed, Active, Classify;
  }

  /** A fenced write whose token holds nothing leaves the board alone. */
  lemma StaleWritesNothing(s: System, staff: map<UUID, Employee>, a: Action)
    requires Presents(s, a).Some? && !Holds(s.board, Presents(s, a).value)
    ensures Step(s, staff, a).board == s.board
  {
    hide ResolveRetries, OutstandingRetries;
  }

  // ---------------------------------------------------------------- fencing

  /**
   * After a claim or takeover hands out generation g, a token of any older generation, whoever
   * presents it and however late, changes nothing on the board.
   */
  lemma OlderTokensAreFencedOut(staff: map<UUID, Employee>, acts: seq<Action>, i: nat, j: nat, x: UUID)
    requires i < j < |acts|
    requires CommitsClaim(At(staff, acts, i), acts[i], x) || CommitsReclaim(At(staff, acts, i), acts[i], x)
    requires Presents(At(staff, acts, j), acts[j]).Some?
    requires var f := Presents(At(staff, acts, j), acts[j]).value;
             f.execution == x && f.generation <= At(staff, acts, i).board.execs[x].leaseGeneration
    ensures At(staff, acts, j + 1).board == At(staff, acts, j).board
  {
    hide Step, Presents, At;
    AtNext(staff, acts, i);
    GenerationMoves(At(staff, acts, i), staff, acts[i], x);
    RunEvolves(staff, acts, i + 1, j);
    assert RowEvolves(At(staff, acts, i + 1).board.execs[x], At(staff, acts, j).board.execs[x]);
    AtNext(staff, acts, j);
    StaleWritesNothing(At(staff, acts, j), staff, acts[j]);
  }

  /** Once one finalisation at a generation commits, no write of any kind at that generation ever commits again. */
  lemma OneFinalisationPerGeneration(staff: map<UUID, Employee>, acts: seq<Action>, i: nat, j: nat, x: UUID, g: nat)
    requires i < j < |acts| && CommitsFinal(At(staff, acts, i), staff, acts[i], x, g)
    ensures !CommitsWrite(At(staff, acts, j), acts[j], x, g)
    ensures !CommitsFinal(At(staff, acts, j), staff, acts[j], x, g)
  {
    hide Step, Presents, At;
    AtNext(staff, acts, i);
    GenerationMoves(At(staff, acts, i), staff, acts[i], x);
    RunEvolves(staff, acts, i + 1, j);
    var e, e' := At(staff, acts, i + 1).board.execs[x], At(staff, acts, j).board.execs[x];
    assert e.leaseGeneration >= g && e.status != Running;
    assert RowEvolves(e, e');
  }

  // ---------------------------------------------------------------- absorption

  /** Everything the board records about one execution. */
  ghost predicate SameRecord(b: Board, b': Board, x: UUID) {
    && x in b.execs && x in b'.execs && b'.execs[x] == b.execs[x]
    && (forall r | r in b.retries && b.retries[r].execution == x :: r in b'.retries && b'.retries[r] == b.retries[r])
    && (forall r | r in b'.retries && b'.retries[r].execution == x :: r in b.retries)
    && b.dlq <= b'.dlq && (forall i | |b.dlq| <= i < |b'.dlq| :: b'.dlq[i].execution != x)
    && b.log <= b'.log
    && (forall i | |b.log| <= i < |b'.log| && b'.log[i].retry in b'.retries :: b'.retries[b'.log[i].retry].execution != x)
  }

  /** A terminal execution never changes again: not its row, its retries, its dead letter, nor its dispatch entries. */
  lemma TerminalIsAbsorbing(staff: map<UUID, Employee>, acts: seq<Action>, i: nat, j: nat, x: UUID)
    requires i <= j <= |acts|
    requires x in At(staff, acts, i).board.execs && Terminal(At(staff, acts, i).board.execs[x].status)
    ensures SameRecord(At(staff, acts, i).board, At(staff, acts, j).board, x)
  {
    hide SystemInv, Evolves, SameRecord, At, WellFormed;
    RunEvolves(staff, acts, i, j);
    AtReachable(staff, acts, i);
    WellFormedAt(At(staff, acts, i));
    Frozen(At(staff, acts, i).board, At(staff, acts, j).board, x);
  }

  lemma WellFormedAt(s: System)
    requires SystemInv(s)
    ensures WellFormed(s.board)
  {
  }

  lemma Frozen(b: Board, b': Board, x: UUID)
    requires WellFormed(b) && Evolves(b, b') && x in b.execs && Terminal(b.execs[x].status)
    ensures SameRecord(b, b', x)
  {
    hide WellFormed;
    TerminalRetries(b, x);
    assert RowEvolves(b.execs[x], b'.execs[x]);
    forall r | r in b.retries && b.retries[r].execution == x ensures r in b'.retries && b'.retries[r] == b.retries[r] {
      assert RetryEvolves(b.retries[r], b'.retries[r]);
    }
    forall i | |b.log| <= i < |b'.log| && b'.log[i].retry in b'.retries ensures b'.retries[b'.log[i].retry].execution != x {
      var r := b'.log[i].retry;
      if r in b.retries { assert RetryEvolves(b.retries[r], b'.retries[r]); }
    }
  }

  lemma TerminalRetries(b: Board, x: UUID)
    requires WellFormed(b) && x in b.execs && Terminal(b.execs[x].status)
    ensures forall r | r in b.retries && b.retries[r].execution == x :: b.retries[r].state == RetryProcessed
  {
    hide WellFormed, LanesOk, DlqOk, LogOk, KeysOk;
    var lanes := LanesFor(b);
    forall r | r in b.retries && b.retries[r].execution == x ensures b.retries[r].state == RetryProcessed {
      if b.retries[r].Outstanding() { OnlyLastOutstanding(b, lanes, x, r); }
    }
  }

  // ---------------------------------------------------------------- attempt budget

  /** How many claims of x a run commits. */
  ghost function ClaimCount(staff: map<UUID, Employee>, acts: seq<Action>, x: UUID): nat {
    if acts == [] then 0
    else
      var n := |acts| - 1;
      ClaimCount(staff, acts[..n], x) + if CommitsClaim(Run(START, staff, acts[..n]), acts[n], x) then 1 else 0
  }

  lemma AdmittedAfresh(s: System, staff: map<UUID, Employee>, a: Action, x: UUID)
    requires x !in s.board.execs && x in Step(s, staff, a).board.execs
    ensures var e := Step(s, staff, a).board.execs[x]; e.attempt == 0 && e.leaseGeneration == 0 && e.status == Pending
    ensures a.Admit?
  {
    hide ResolveRetries, ClaimRetries, PendingRetries, OutstandingRetries, Keyed, Active;
  }

  /** The attempt of a row is the number of claims the run committed on it, and never exceeds the budget. */
  lemma {:induction false} AttemptsCountClaims(staff: map<UUID, Employee>, acts: seq<Action>, x: UUID)
    ensures var b := Run(START, staff, acts).board;
            if x in b.execs then ClaimCount(staff, acts, x) == b.execs[x].attempt <= b.execs[x].maxAttempts
            else ClaimCount(staff, acts, x) == 0
  {
    hide Step, SystemInv;
    if acts != [] {
      var n := |acts| - 1;
      var s := Run(START, staff, acts[..n]);
      AttemptsCountClaims(staff, acts[..n], x);
      if x in s.board.execs {
        GenerationMoves(s, staff, acts[n], x);
      } else if x in Run(START, staff, acts).board.execs {
        AdmittedAfresh(s, staff, acts[n], x);
      }
    }
    Reachable(staff, acts);
    if x in Run(START, staff, acts).board.execs { WithinBudget(Run(START, staff, acts), x); }
  }

  lemma WithinBudget(s: System, x: UUID)
    requires SystemInv(s) && x in s.board.execs
    ensures RowOk(s.board.execs[x])
  {
    hide WellFormed, LanesOk, DlqOk, LogOk, KeysOk, TokensOk, HoldersOk, ClaimsOk, RowOk;
    RowHolds(s.board, LanesFor(s.board), x);
  }
}
