/** Outcome conservation, the fuel that bounds a run, and which claim each dispatch entry belongs to. */
module ExecutionOutcomes {
  import opened Wrappers
  import opened ExecutionDomain
  import opened ExecutionBoard
  import opened ExecutionProtocol
  import opened ExecutionEvolution
  import opened ExecutionInvariant
  import opened ExecutionWellFormed
  import opened ExecutionSystem
  import opened ExecutionRuns

  // ---------------------------------------------------------------- the story of one execution

  predicate RowOf(b: Board, x: UUID, r: UUID) {
    r in b.retries && b.retries[r].execution == x
  }

  ghost predicate HasRow(b: Board, x: UUID, k: int) {
    exists r :: RowOf(b, x, r) && b.retries[r].seqNo == k
  }

  /** Sequence numbers are exactly 1..n, each once. */
  ghost predicate Numbered(b: Board, x: UUID, n: nat) {
    && (forall r | RowOf(b, x, r) :: 1 <= b.retries[r].seqNo <= n)
    && (forall k | 1 <= k <= n :: HasRow(b, x, k))
    && (forall r, q | RowOf(b, x, r) && RowOf(b, x, q) && b.retries[r].seqNo == b.retries[q].seqNo :: r == q)
  }

  /** The number of retry rows an execution has at its status; a cancelled one may have been caught either way. */
  predicate RowCountOk(e: Exec, n: nat) {
    match e.status
    case Pending => n == e.attempt + 1
    case Cancelled => n == e.attempt || n == e.attempt + 1
    case _ => n == e.attempt
  }

  /** The resolution of the last row; every earlier one failed. */
  predicate LastOutcomeOk(e: Exec, r: Retry) {
    match e.status
    case Pending => r.state == RetryPending && r.outcome == None
    case Running => r.state in IN_FLIGHT && r.outcome == None
    case Completed => r.state == RetryProcessed && r.outcome == Some(OutcomeSuccess)
    case Failed => r.state == RetryProcessed && r.outcome == Some(OutcomeFailed)
    case Cancelled => r.state == RetryProcessed && r.outcome == Some(OutcomeCancelled)
  }

  /** Exactly one letter for a failed execution, none for any other. */
  ghost predicate LettersOk(b: Board, x: UUID)
    requires x in b.execs
  {
    if b.execs[x].status == Failed then
      exists i :: 0 <= i < |b.dlq| && b.dlq[i].execution == x && b.dlq[i].attempt == b.execs[x].attempt
                  && forall j | 0 <= j < |b.dlq| && b.dlq[j].execution == x :: j == i
    else
      forall j | 0 <= j < |b.dlq| :: b.dlq[j].execution != x
  }

  /**
   * In every reachable state: the lease columns are set exactly while running; the retry rows are
   * numbered 1..n; all but the last are processed, failed and without a worker; the last one tells
   * the execution's status (so at most one row is outstanding, and none once terminal); no retry's
   * generation exceeds the execution's; and exactly the failed executions have a dead letter.
   */
  lemma OutcomeConservation(staff: map<UUID, Employee>, acts: seq<Action>, x: UUID) returns (n: nat)
    requires x in Run(START, staff, acts).board.execs
    ensures var b := Run(START, staff, acts).board;
            var e := b.execs[x];
            && (e.status == Running <==> e.leaseOwner.Some?) && (e.status == Running <==> e.leaseExpiresAt.Some?)
            && (e.status == Pending ==> e.attempt < e.maxAttempts)
            && RowCountOk(e, n) && Numbered(b, x, n) && LettersOk(b, x)
            && forall r | RowOf(b, x, r) ::
                 && b.retries[r].generation <= e.leaseGeneration
                 && (b.retries[r].state == RetryProcessed ==> b.retries[r].worker == None)
                 && if b.retries[r].seqNo < n then Spent(b.retries[r]) else LastOutcomeOk(e, b.retries[r])
  {
    hide SystemInv, WellFormed, Run;
    Reachable(staff, acts);
    WellFormedAt(Run(START, staff, acts));
    n := Story(Run(START, staff, acts).board, x);
  }

  lemma Story(b: Board, x: UUID) returns (n: nat)
    requires WellFormed(b) && x in b.execs
    ensures var e := b.execs[x];
            && RowOk(e) && RowCountOk(e, n) && Numbered(b, x, n) && LettersOk(b, x)
            && forall r | RowOf(b, x, r) ::
                 && b.retries[r].generation <= e.leaseGeneration
                 && (b.retries[r].state == RetryProcessed ==> b.retries[r].worker == None)
                 && if b.retries[r].seqNo < n then Spent(b.retries[r]) else LastOutcomeOk(e, b.retries[r])
  {
    hide WellFormed, LanesOk, DlqOk, LogOk, KeysOk, RowOk, LastOk, LettersOk;
    var lanes := LanesFor(b);
    LaneOf(b, lanes, x);
    var lane := lanes[x];
    n := |lane|;
    LastTells(b.execs[x], n, b.retries[lane[n - 1]]);
    forall r | RowOf(b, x, r)
      ensures 1 <= b.retries[r].seqNo <= n && lane[b.retries[r].seqNo - 1] == r && b.retries[r].generation <= b.execs[x].leaseGeneration
      ensures b.retries[r].seqNo < n ==> Spent(b.retries[r])
    {
      IndexOf(b, lanes, r);
      var k := b.retries[r].seqNo - 1;
      assert InLane(b.execs[x], x, k, b.retries[lane[k]]);
      assert k < |lane| - 1 ==> Spent(b.retries[lane[k]]);
    }
    forall k | 1 <= k <= n ensures HasRow(b, x, k) {
      assert InLane(b.execs[x], x, k - 1, b.retries[lane[k - 1]]);
      assert RowOf(b, x, lane[k - 1]);
    }
    Letters(b, x);
  }

  lemma LastTells(e: Exec, n: nat, r: Retry)
    requires LastOk(e, n, r)
    ensures RowCountOk(e, n) && LastOutcomeOk(e, r) && (r.state == RetryProcessed ==> r.worker == None)
  {
  }

  lemma Letters(b: Board, x: UUID)
    requires DlqOk(b) && x in b.execs
    ensures LettersOk(b, x)
  {
    forall j | 0 <= j < |b.dlq| ensures LetterOk(b, b.dlq[j]) {}
    if b.execs[x].status == Failed {
      assert HasLetter(b, x);
      var i :| 0 <= i < |b.dlq| && b.dlq[i].execution == x;
      assert LetterOk(b, b.dlq[i]);
    }
  }

  // ---------------------------------------------------------------- fuel

  /** Two units per attempt left to start, one for a started attempt still to finish. */
  function Fuel(e: Exec): int {
    if Terminal(e.status) then 0 else 2 * (e.maxAttempts - e.attempt) + if e.status == Running then 1 else 0
  }

  /** Every change of status burns fuel, and nothing adds any. */
  lemma StatusChangeBurnsFuel(s: System, staff: map<UUID, Employee>, a: Action, x: UUID)
    requires SystemInv(s) && x in s.board.execs
    ensures var b' := Step(s, staff, a).board;
            && x in b'.execs && 0 <= Fuel(b'.execs[x]) && b'.execs[x].maxAttempts == s.board.execs[x].maxAttempts
            && Fuel(b'.execs[x]) <= Fuel(s.board.execs[x]) - (if b'.execs[x].status != s.board.execs[x].status then 1 else 0)
  {
    hide SystemInv, Step, CommitsClaim, CommitsReclaim;
    StepKeepsInvariant(s, staff, a);
    StepEvolves(s, staff, a);
    WithinBudget(s, x);
    WithinBudget(Step(s, staff, a), x);
    GenerationMoves(s, staff, a, x);
    StatusMoves(s, staff, a, x);
    assert RowEvolves(s.board.execs[x], Step(s, staff, a).board.execs[x]);
  }

  /** Only a claim enters running, and a claim always does. */
  lemma StatusMoves(s: System, staff: map<UUID, Employee>, a: Action, x: UUID)
    requires x in s.board.execs
    ensures var b' := Step(s, staff, a).board;
            x in b'.execs && (CommitsClaim(s, a, x) ==> s.board.execs[x].status == Pending && b'.execs[x].status == Running)
            && (b'.execs[x].status == Running && s.board.execs[x].status != Running ==> CommitsClaim(s, a, x))
  {
    hide ResolveRetries, ClaimRetries, PendingRetries, OutstandingRetries, Keyed, Active;
  }

  /** How often a run changes the status of an execution already admitted. */
  ghost function StatusChanges(staff: map<UUID, Employee>, acts: seq<Action>, x: UUID): nat {
    if acts == [] then 0
    else
      var n := |acts| - 1;
      var b, b' := Run(START, staff, acts[..n]).board, Run(START, staff, acts).board;
      StatusChanges(staff, acts[..n], x)
      + if x in b.execs && x in b'.execs && b'.execs[x].status != b.execs[x].status then 1 else 0
  }

  /** However many processes run for however long, an execution changes status at most 2 * maxAttempts times. */
  lemma {:induction false} StatusChangesAreBounded(staff: map<UUID, Employee>, acts: seq<Action>, x: UUID)
    ensures var b := Run(START, staff, acts).board;
            if x in b.execs then StatusChanges(staff, acts, x) + Fuel(b.execs[x]) <= 2 * b.execs[x].maxAttempts
            else StatusChanges(staff, acts, x) == 0
  {
    hide Step, SystemInv;
    if acts != [] {
      var n := |acts| - 1;
      var s := Run(START, staff, acts[..n]);
      StatusChangesAreBounded(staff, acts[..n], x);
      Reachable(staff, acts[..n]);
      if x in s.board.execs {
        StatusChangeBurnsFuel(s, staff, acts[n], x);
      } else if x in Run(START, staff, acts).board.execs {
        AdmittedAfresh(s, staff, acts[n], x);
      }
    }
  }

  // ---------------------------------------------------------------- claims and dispatch entries

  /** The token a committing claim returns. */
  ghost function ClaimedToken(s: System, a: Action): Fenced
    requires a.ClaimDue? && CommitsClaim(s, a, a.x)
  {
    Claim(s.board, a.ws, a.x, a.owner, a.ttl, a.now).1.value
  }

  lemma IssuedGrows(s: System, staff: map<UUID, Employee>, a: Action, k: (UUID, nat))
    requires SystemInv(s) && k in s.issued
    ensures k in Step(s, staff, a).issued && Step(s, staff, a).issued[k] == s.issued[k]
  {
    hide WellFormed, HoldersOk, ClaimsOk, TokensOk;
    if a.ClaimDue? && CommitsClaim(s, a, a.x) { NextGenerationFree(s, a.x); }
    if a.Reclaim? && CommitsReclaim(s, a, a.x) { NextGenerationFree(s, a.x); }
  }

  lemma {:induction false} IssuedStays(staff: map<UUID, Employee>, acts: seq<Action>, i: nat, j: nat, k: (UUID, nat))
    requires i <= j <= |acts| && k in At(staff, acts, i).issued
    ensures k in At(staff, acts, j).issued && At(staff, acts, j).issued[k] == At(staff, acts, i).issued[k]
    decreases j - i
  {
    hide Step, SystemInv, At;
    if i < j {
      AtReachable(staff, acts, i);
      AtNext(staff, acts, i);
      IssuedGrows(At(staff, acts, i), staff, acts[i], k);
      IssuedStays(staff, acts, i + 1, j, k);
    }
  }

  /** A claim issues its token under its execution and generation. */
  lemma ClaimIssues(s: System, staff: map<UUID, Employee>, a: Action)
    requires a.ClaimDue? && CommitsClaim(s, a, a.x)
    ensures var f := ClaimedToken(s, a);
            f.execution == a.x && (f.execution, f.generation) in Step(s, staff, a).issued
            && Step(s, staff, a).issued[(f.execution, f.generation)] == Issue(ByClaim, f)
            && f.retry in s.board.retries && s.board.retries[f.retry].state == RetryPending
  {
    hide ClaimRetries;
  }

  /** No retry row is ever claimed twice. */
  lemma RetriesAreClaimedOnce(staff: map<UUID, Employee>, acts: seq<Action>, i: nat, j: nat)
    requires i < j < |acts|
    requires acts[i].ClaimDue? && CommitsClaim(At(staff, acts, i), acts[i], acts[i].x)
    requires acts[j].ClaimDue? && CommitsClaim(At(staff, acts, j), acts[j], acts[j].x)
    ensures ClaimedToken(At(staff, acts, i), acts[i]).retry != ClaimedToken(At(staff, acts, j), acts[j]).retry
  {
    hide Step, At, CommitsClaim, WellFormed, HoldersOk, ClaimsOk;
    var f := ClaimedToken(At(staff, acts, i), acts[i]);
    ClaimIssues(At(staff, acts, i), staff, acts[i]);
    AtNext(staff, acts, i);
    IssuedStays(staff, acts, i + 1, j, (f.execution, f.generation));
    AtReachable(staff, acts, j);
    var t := At(staff, acts, j);
    assert TokenOk(t.board, f.execution, f.generation, t.issued[(f.execution, f.generation)]);
    ClaimIssues(t, staff, acts[j]);
  }

  /** Every issued claim token was returned by some step of the run. */
  lemma {:induction false} IssuedByAStep(staff: map<UUID, Employee>, acts: seq<Action>, k: (UUID, nat)) returns (i: nat)
    requires k in Run(START, staff, acts).issued && Run(START, staff, acts).issued[k].origin == ByClaim
    ensures i < |acts| && acts[i].ClaimDue? && CommitsClaim(At(staff, acts, i), acts[i], acts[i].x)
    ensures ClaimedToken(At(staff, acts, i), acts[i]) == Run(START, staff, acts).issued[k].f
  {
    hide SystemInv, Claimable, Claim;
    if acts == [] {
      assert false;
    } else {
      var n := |acts| - 1;
      var s := Run(START, staff, acts[..n]);
      var a := acts[n];
      if k in s.issued && Run(START, staff, acts).issued[k] == s.issued[k] {
        i := IssuedByAStep(staff, acts[..n], k);
        assert acts[..n][..i] == acts[..i];
      } else {
        IssuedHere(s, staff, a, k);
        i := n;
      }
    }
  }

  lemma IssuedHere(s: System, staff: map<UUID, Employee>, a: Action, k: (UUID, nat))
    requires var s' := Step(s, staff, a);
             k in s'.issued && s'.issued[k].origin == ByClaim && !(k in s.issued && s'.issued[k] == s.issued[k])
    ensures a.ClaimDue? && CommitsClaim(s, a, a.x) && ClaimedToken(s, a) == Step(s, staff, a).issued[k].f
  {
    hide ClaimRetries;
  }

  /**
   * Every dispatch entry of every reachable board carries exactly the worker and generation that
   * the one claim of its retry row assigned.
   */
  lemma EntriesCarryTheirClaim(staff: map<UUID, Employee>, acts: seq<Action>, k: nat) returns (i: nat)
    requires k < |Run(START, staff, acts).board.log|
    ensures i < |acts| && acts[i].ClaimDue? && CommitsClaim(At(staff, acts, i), acts[i], acts[i].x)
    ensures var d, f := Run(START, staff, acts).board.log[k], ClaimedToken(At(staff, acts, i), acts[i]);
            d.retry == f.retry && d.worker == f.owner == acts[i].owner && d.generation == f.generation
  {
    hide Step, At, CommitsClaim, WellFormed, HoldersOk, TokensOk, Run;
    Reachable(staff, acts);
    var s := Run(START, staff, acts);
    var d := s.board.log[k];
    assert EntryByClaim(s, d);
    i := IssuedByAStep(staff, acts, (s.board.retries[d.retry].execution, d.generation));
    assert ClaimedToken(At(staff, acts, i), acts[i]).owner == acts[i].owner by { ClaimNamesOwner(At(staff, acts, i), acts[i]); }
    IssuedUnderItsGeneration(s, (s.board.retries[d.retry].execution, d.generation));
  }

  lemma ClaimNamesOwner(s: System, a: Action)
    requires a.ClaimDue? && CommitsClaim(s, a, a.x)
    ensures ClaimedToken(s, a).owner == a.owner
  {
  }

  lemma IssuedUnderItsGeneration(s: System, k: (UUID, nat))
    requires SystemInv(s) && k in s.issued
    ensures s.issued[k].f.generation == k.1
  {
    hide WellFormed, HoldersOk, ClaimsOk;
    assert TokenOk(s.board, k.0, k.1, s.issued[k]);
  }
}
