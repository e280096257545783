/**
 * Why exclusive delivery matters. The broker is at-least-once and nothing stops a second worker
 * from acting on a copy of the same message under the same token; this run shows what that costs.
 */
module ExecutionDuplicates {
  import opened Wrappers
  import opened ExecutionDomain
  import opened ExecutionBoard
  import opened ExecutionProtocol
  import opened ExecutionVerdicts
  import opened RetryPolicy

  const STAFF: map<UUID, Employee> := map[1 := Employee(7, 1)]
  const DEADLINE := Cause(false, false, true, false, false, false, false, "deadline")
  const UNCLASSIFIED := Cause(false, false, false, false, false, false, false, "boom")
  const COPY := Message(7, 10, 1, 1, 3, 20, 1, 60, "d")

  /** One message, two workers: the first fails retryably, the second does not, and the first one's reschedule commits. */
  const DUPLICATE: seq<Action> := [
    Admit(AdmitRequest(7, 1, None, 3, ""), 10, 20, 0),
    ClaimDue(0, 7, 10, "d", 60, 0),
    Publish(0, true, true),
    Deliver(1, COPY),
    Deliver(2, COPY),
    Fail(1, "w1", DEADLINE, 1),
    Fail(2, "w2", UNCLASSIFIED, 2),
    Settle(1, "w1", 2, 1, 10, 21, "", 2)
  ]

  /** The next attempt's worker never writes a thing, and recovery resolves it. */
  const VANISHED: seq<Action> := [
    ClaimDue(3, 7, 10, "d", 60, 3),
    Reclaim(4, 7, 10, "d", 60, 100),
    Resolve(4, 100, 1, 10, 22, 100)
  ]

  lemma {:induction false} RunSplits(s: System, staff: map<UUID, Employee>, acts: seq<Action>)
    requires acts != []
    ensures Run(s, staff, acts) == Run(Step(s, staff, acts[0]), staff, acts[1..])
  {
    hide Step;
    var n := |acts| - 1;
    if n > 0 {
      RunSplits(s, staff, acts[..n]);
      assert acts[..n][1..] == acts[1..][..n - 1];
    } else {
      assert acts[..n] == [];
    }
  }

  lemma RunOfThree(s: System, acts: seq<Action>)
    requires |acts| == 3
    ensures Run(s, STAFF, acts) == Step(Step(Step(s, STAFF, acts[0]), STAFF, acts[1]), STAFF, acts[2])
  {
    hide Step;
    RunSplits(s, STAFF, acts);
    RunSplits(Step(s, STAFF, acts[0]), STAFF, acts[1..]);
    RunSplits(Step(Step(s, STAFF, acts[0]), STAFF, acts[1]), STAFF, acts[1..][1..]);
  }

  lemma RunOfEight(s: System, acts: seq<Action>)
    requires |acts| == 8
    ensures var s2 := Step(Step(s, STAFF, acts[0]), STAFF, acts[1]);
            var s5 := Step(Step(Step(s2, STAFF, acts[2]), STAFF, acts[3]), STAFF, acts[4]);
            Run(s, STAFF, acts) == Step(Step(Step(s5, STAFF, acts[5]), STAFF, acts[6]), STAFF, acts[7])
  {
    hide Step;
    RunSplits(s, STAFF, acts);
    RunSplits(Step(s, STAFF, acts[0]), STAFF, acts[1..]);
    var s2 := Step(Step(s, STAFF, acts[0]), STAFF, acts[1]);
    var rest := acts[1..][1..];
    RunJoins(s2, rest[..3], rest[3..]);
    assert rest == rest[..3] + rest[3..];
    RunOfThree(s2, rest[..3]);
    RunOfThree(Run(s2, STAFF, rest[..3]), rest[3..]);
  }

  lemma {:induction false} RunJoins(s: System, first: seq<Action>, second: seq<Action>)
    ensures Run(s, STAFF, first + second) == Run(Run(s, STAFF, first), STAFF, second)
  {
    hide Step;
    if second == [] {
      assert first + second == first;
    } else {
      var n := |second| - 1;
      RunJoins(s, first, second[..n]);
      assert (first + second)[..|first + second| - 1] == first + second[..n];
    }
  }

  /** Execution 10 is leased to "d" at an attempt, whose generation is the same number, with a flag. */
  predicate Leased(b: Board, attempt: nat, flag: Option<bool>) {
    && b.execs.Keys == {10}
    && var e := b.execs[10];
       e.workspace == 7 && e.status == Running && e.attempt == attempt && e.maxAttempts == 3
       && e.leaseOwner == Some("d") && e.leaseGeneration == attempt && e.retryable == flag
  }

  /** Its only retry rows: the last one in flight, and any earlier one processed. */
  predicate OneInFlight(b: Board, last: UUID) {
    && last in b.retries && b.retries[last].execution == 10 && b.retries[last].workspace == 7 && b.retries[last].state == RetryClaimed
    && b.retries.Keys <= {20, 21} && forall r | r in b.retries && r != last :: b.retries[r].state == RetryProcessed
  }

  lemma AfterAdmission() returns (s: System)
    ensures s == Step(START, STAFF, DUPLICATE[0])
    ensures s.procs == map[] && s.queue == {} && s.board.execs.Keys == {10} && s.board.retries.Keys == {20}
    ensures s.board.execs[10] == AdmittedRow(DUPLICATE[0].req, RequestHash(1, None, 3), DUPLICATE[0].now)
    ensures s.board.retries[20] == NewRetry(10, 7, 1, 0, None)
  {
    assert Active(EMPTY.execs, 7, 1) == {};
    s := Step(START, STAFF, DUPLICATE[0]);
  }

  lemma AfterClaim() returns (s: System)
    ensures s == Step(Step(START, STAFF, DUPLICATE[0]), STAFF, DUPLICATE[1])
    ensures Leased(s.board, 1, None) && OneInFlight(s.board, 20) && s.board.retries.Keys == {20}
    ensures s.board.execs[10].leaseExpiresAt == Some(60) && s.board.retries[20].generation == 1
    ensures s.procs.Keys == {0} && s.procs[0].Claimed? && MessageOf(s.procs[0].f, s.procs[0].f.owner) == COPY
  {
    var s1 := AfterAdmission();
    assert PendingRetries(s1.board.retries, 10, 7) == {20};
    s := Step(s1, STAFF, DUPLICATE[1]);
  }

  lemma AfterDelivery(s0: System) returns (s: System)
    requires s0.procs.Keys == {0} && s0.procs[0].Claimed? && MessageOf(s0.procs[0].f, s0.procs[0].f.owner) == COPY
    ensures s == Step(Step(Step(s0, STAFF, DUPLICATE[2]), STAFF, DUPLICATE[3]), STAFF, DUPLICATE[4])
    ensures s.board == s0.board && s.procs.Keys == {0, 1, 2} && s.procs[1] == s.procs[2] == Working(COPY)
  {
    var s1 := Step(s0, STAFF, DUPLICATE[2]);
    assert COPY in s1.queue;
    s := Step(Step(s1, STAFF, DUPLICATE[3]), STAFF, DUPLICATE[4]);
  }

  lemma AfterFailures(s0: System) returns (s: System)
    requires Leased(s0.board, 1, None) && s0.procs.Keys == {0, 1, 2} && s0.procs[1] == s0.procs[2] == Working(COPY)
    ensures s == Step(Step(s0, STAFF, DUPLICATE[5]), STAFF, DUPLICATE[6])
    ensures Leased(s.board, 1, Some(false)) && s.board.retries == s0.board.retries
    ensures s.procs.Keys == {0, 1, 2} && s.procs[1] == Persisted(COPY, Classify(DEADLINE), "deadline")
    ensures 10 in s.verdicts && s.verdicts[10] == Verdict(1, false)
  {
    var s1 := Step(s0, STAFF, DUPLICATE[5]);
    assert Leased(s1.board, 1, Some(true));
    s := Step(s1, STAFF, DUPLICATE[6]);
  }

  lemma AfterReschedule(s0: System) returns (s: System)
    requires Leased(s0.board, 1, Some(false)) && OneInFlight(s0.board, 20) && s0.board.retries.Keys == {20}
    requires s0.procs.Keys == {0, 1, 2} && s0.procs[1] == Persisted(COPY, Classify(DEADLINE), "deadline")
    ensures s == Step(s0, STAFF, DUPLICATE[7]) && s.verdicts == s0.verdicts && s.procs.Keys == {0, 1, 2}
    ensures Tainted(s.board, 10) && s.board.execs.Keys == {10} && s.board.retries.Keys == {20, 21}
    ensures var e := s.board.execs[10];
            e.workspace == 7 && e.attempt == 1 && e.maxAttempts == 3 && e.leaseGeneration == 1 && e.nextRetryAt == Some(3)
    ensures s.board.retries[20].state == RetryProcessed
    ensures s.board.retries[21].execution == 10 && s.board.retries[21].workspace == 7 && s.board.retries[21].state == RetryPending
  {
    var f := FencedFrom(COPY, "w1");
    assert Delay(1, 1, 10) == 1;
    assert Holds(s0.board, f);
    var resolved := ResolveRetries(s0.board.retries, 10, 7, IN_FLIGHT, OutcomeFailed, 2);
    assert OutstandingRetries(resolved, 10, 7) == {};
    s := Step(s0, STAFF, DUPLICATE[7]);
  }

  lemma AfterTakeover(s0: System) returns (s: System)
    requires Tainted(s0.board, 10) && s0.board.execs.Keys == {10} && s0.board.retries.Keys == {20, 21} && s0.procs.Keys == {0, 1, 2}
    requires var e := s0.board.execs[10];
             e.workspace == 7 && e.attempt == 1 && e.maxAttempts == 3 && e.leaseGeneration == 1 && e.nextRetryAt == Some(3)
    requires s0.board.retries[20].state == RetryProcessed
    requires s0.board.retries[21].execution == 10 && s0.board.retries[21].workspace == 7 && s0.board.retries[21].state == RetryPending
    ensures s == Step(Step(s0, STAFF, VANISHED[0]), STAFF, VANISHED[1]) && s.verdicts == s0.verdicts
    ensures s.board.execs.Keys == {10} && 4 in s.procs && s.procs[4].Reclaimed? && Holds(s.board, s.procs[4].f)
    ensures var f := s.procs[4].f; f.execution == 10 && f.attempt == 2 && f.maxAttempts == 3 && f.retryable == Some(false)
    ensures s.board.execs[10].attempt == 2 && s.board.execs[10].maxAttempts == 3
  {
    assert PendingRetries(s0.board.retries, 10, 7) == {21};
    var s1 := Step(s0, STAFF, VANISHED[0]);
    assert Reclaimable(s1.board, 7, 10, 100);
    s := Step(s1, STAFF, VANISHED[1]);
  }

  lemma AfterResolution(s0: System) returns (s: System)
    requires s0.board.execs.Keys == {10} && 4 in s0.procs && s0.procs[4].Reclaimed? && Holds(s0.board, s0.procs[4].f)
    requires var f := s0.procs[4].f; f.execution == 10 && f.attempt == 2 && f.maxAttempts == 3 && f.retryable == Some(false)
    requires s0.board.execs[10].attempt == 2 && s0.board.execs[10].maxAttempts == 3
    ensures s == Step(s0, STAFF, VANISHED[2]) && s.verdicts == s0.verdicts
    ensures 10 in s.board.execs && s.board.execs[10].status == Failed && s.board.execs[10].attempt == 2 && s.board.execs[10].maxAttempts == 3
  {
    hide Reschedule, ResolveRetries;
    s := Step(s0, STAFF, VANISHED[2]);
  }

  /**
   * A message delivered to two workers at once leaves the execution pending with a non-retryable
   * verdict, although it was rescheduled; and the next attempt, whose worker merely vanishes, is
   * dead-lettered with one attempt of three still unused and no verdict of its own.
   */
  lemma DuplicateDeliveryCostsAnAttempt()
    ensures Tainted(Run(START, STAFF, DUPLICATE).board, 10)
    ensures var s := Run(START, STAFF, DUPLICATE + VANISHED);
            10 in s.board.execs && s.board.execs[10].status == Failed && s.board.execs[10].attempt == 2 && s.board.execs[10].maxAttempts == 3
            && 10 in s.verdicts && s.verdicts[10] == Verdict(1, false)
    ensures !ExclusiveRun(STAFF, DUPLICATE)
  {
    var s2 := AfterClaim();
    var s5 := AfterDelivery(s2);
    var s7 := AfterFailures(s5);
    var s8 := AfterReschedule(s7);
    var s10 := AfterTakeover(s8);
    var s11 := AfterResolution(s10);
    hide Step, ExclusiveRun;
    RunOfEight(START, DUPLICATE);
    RunOfThree(s8, VANISHED);
    RunJoins(START, DUPLICATE, VANISHED);
    if ExclusiveRun(STAFF, DUPLICATE) { ExclusiveRunsStayClean(STAFF, DUPLICATE, 10); }
  }
}
