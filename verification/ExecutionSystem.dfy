/** The invariant of the whole system: the board, the tokens in circulation, and who holds them. */
module ExecutionSystem {
  import opened Wrappers
  import opened ExecutionDomain
  import opened ExecutionBoard
  import opened ExecutionProtocol
  import opened ExecutionEvolution
  import opened ExecutionInvariant
  import opened ExecutionWellFormed
  import opened RetryPolicy

  /** What stays true of a token from the moment it is handed out. */
  predicate TokenOk(b: Board, x: UUID, generation: nat, issue: Issue) {
    var f := issue.f;
    && f.execution == x && f.generation == generation && x in b.execs
    && var e := b.execs[x];
       && f.workspace == e.workspace && f.employee == e.employee && f.maxAttempts == e.maxAttempts
       && f.generation <= e.leaseGeneration && 1 <= f.attempt <= e.attempt
       && (f.generation == e.leaseGeneration && e.status == Running ==> f.attempt == e.attempt && e.leaseOwner == Some(f.owner))
       && (issue.origin == ByClaim ==> ClaimedFor(b, f))
  }

  /** The retry row a claim took: the row of that attempt, stamped with the claim's generation. */
  predicate ClaimedFor(b: Board, f: Fenced) {
    && f.retry in b.retries
    && var r := b.retries[f.retry];
       r.execution == f.execution && r.workspace == f.workspace && r.generation == f.generation && r.state != RetryPending
  }

  predicate Has(s: System, origin: Origin, f: Fenced) {
    (f.execution, f.generation) in s.issued && s.issued[(f.execution, f.generation)] == Issue(origin, f)
  }

  predicate MessageOk(s: System, m: Message) {
    && (m.execution, m.generation) in s.issued
    && var issue := s.issued[(m.execution, m.generation)];
       issue.origin == ByClaim && m == MessageOf(issue.f, issue.f.owner)
  }

  predicate ProcOk(s: System, q: Proc) {
    match q
    case Idle => true
    case Claimed(f) => Has(s, ByClaim, f)
    case Published(f, _) => Has(s, ByClaim, f)
    case Reclaimed(f) => Has(s, ByReclaim, f)
    case Working(m) => m in s.queue
    case Persisted(m, _, _) => m in s.queue
  }

  /** An in-flight retry row was taken by the claim issued at its generation, and still names that claim's owner. */
  predicate TakenByClaim(s: System, r: UUID, row: Retry) {
    && (row.execution, row.generation) in s.issued
    && var issue := s.issued[(row.execution, row.generation)];
       issue.origin == ByClaim && issue.f.retry == r && row.worker == Some(issue.f.owner)
  }

  /** A dispatch entry carries the owner and generation of the claim that took its retry row. */
  predicate EntryByClaim(s: System, d: Dispatch) {
    && d.retry in s.board.retries
    && var x := s.board.retries[d.retry].execution;
       (x, d.generation) in s.issued
       && var issue := s.issued[(x, d.generation)];
          issue.origin == ByClaim && issue.f.retry == d.retry && issue.f.owner == d.worker
  }

  ghost predicate TokensOk(s: System) {
    forall k | k in s.issued :: TokenOk(s.board, k.0, k.1, s.issued[k])
  }

  ghost predicate HoldersOk(s: System) {
    && (forall p | p in s.procs :: ProcOk(s, s.procs[p]))
    && (forall m | m in s.queue :: MessageOk(s, m))
  }

  ghost predicate ClaimsOk(s: System) {
    && (forall r | r in s.board.retries && s.board.retries[r].state in IN_FLIGHT :: TakenByClaim(s, r, s.board.retries[r]))
    && (forall i | 0 <= i < |s.board.log| :: EntryByClaim(s, s.board.log[i]))
  }

  ghost predicate SystemInv(s: System) {
    WellFormed(s.board) && TokensOk(s) && HoldersOk(s) && ClaimsOk(s)
  }

  lemma StartInv()
    ensures SystemInv(START)
  {
    EmptyWellFormed();
  }

  // ---------------------------------------------------------------- tokens

  lemma TokenStable(b: Board, b': Board, x: UUID, generation: nat, issue: Issue)
    requires TokenOk(b, x, generation, issue) && Evolves(b, b')
    ensures TokenOk(b', x, generation, issue)
  {
    assert RowEvolves(b.execs[x], b'.execs[x]);
    if issue.origin == ByClaim { assert RetryEvolves(b.retries[issue.f.retry], b'.retries[issue.f.retry]); }
  }

  lemma TokensStable(s: System, s': System)
    requires TokensOk(s) && Evolves(s.board, s'.board) && s'.issued == s.issued
    ensures TokensOk(s')
  {
    hide Evolves, TokenOk;
    forall k | k in s'.issued ensures TokenOk(s'.board, k.0, k.1, s'.issued[k]) {
      TokenStable(s.board, s'.board, k.0, k.1, s.issued[k]);
    }
  }

  lemma TokensExtended(s: System, s': System, x: UUID, generation: nat, issue: Issue)
    requires TokensOk(s) && Evolves(s.board, s'.board) && s'.issued == s.issued[(x, generation) := issue]
    requires TokenOk(s'.board, x, generation, issue)
    ensures TokensOk(s')
  {
    hide Evolves, TokenOk;
    forall k | k in s'.issued ensures TokenOk(s'.board, k.0, k.1, s'.issued[k]) {
      if k != (x, generation) { TokenStable(s.board, s'.board, k.0, k.1, s.issued[k]); }
    }
  }

  /** The generation a claim or reclaim is about to hand out has never been handed out. */
  lemma NextGenerationFree(s: System, x: UUID)
    requires TokensOk(s) && x in s.board.execs
    ensures (x, s.board.execs[x].leaseGeneration + 1) !in s.issued
  {
    forall k | k in s.issued && k.0 == x ensures k.1 <= s.board.execs[x].leaseGeneration {
      assert TokenOk(s.board, k.0, k.1, s.issued[k]);
    }
  }

  /** A worker's rebuilt token is current whenever it holds anything. */
  lemma WorkerTokenCurrent(s: System, m: Message, name: string)
    requires TokensOk(s) && HoldersOk(s) && m in s.queue
    ensures CurrentIfHeld(s.board, FencedFrom(m, name))
  {
    assert MessageOk(s, m);
    var k := (m.execution, m.generation);
    assert TokenOk(s.board, k.0, k.1, s.issued[k]);
  }

  lemma HeldTokenCurrent(s: System, origin: Origin, f: Fenced)
    requires TokensOk(s) && Has(s, origin, f)
    ensures CurrentIfHeld(s.board, f)
  {
    var k := (f.execution, f.generation);
    assert TokenOk(s.board, k.0, k.1, s.issued[k]);
  }

  // ---------------------------------------------------------------- holders

  /** Tokens and messages only accumulate; one process moves at a time. */
  lemma HoldersStable(s: System, s': System, p: nat, q: Proc)
    requires HoldersOk(s) && s.queue <= s'.queue
    requires forall k | k in s.issued :: k in s'.issued && s'.issued[k] == s.issued[k]
    requires s'.procs == s.procs[p := q] && ProcOk(s', q)
    requires forall m | m in s'.queue && m !in s.queue :: MessageOk(s', m)
    ensures HoldersOk(s')
  {
    forall r | r in s'.procs ensures ProcOk(s', s'.procs[r]) {
      if r != p { assert ProcOk(s, s.procs[r]); }
    }
    forall m | m in s'.queue ensures MessageOk(s', m) {
      if m in s.queue { assert MessageOk(s, m); }
    }
  }

  lemma HoldersSame(s: System, s': System)
    requires HoldersOk(s) && s'.queue == s.queue && s'.procs == s.procs && s'.issued == s.issued
    ensures HoldersOk(s')
  {
    forall r | r in s'.procs ensures ProcOk(s', s'.procs[r]) { assert ProcOk(s, s.procs[r]); }
    forall m | m in s'.queue ensures MessageOk(s', m) { assert MessageOk(s, m); }
  }

  // ---------------------------------------------------------------- claims and log

  /** No retry row enters flight in this step, and the ones in flight keep their worker or leave. */
  predicate NothingClaimed(b: Board, b': Board) {
    forall r | r in b'.retries && b'.retries[r].state in IN_FLIGHT ::
      r in b.retries && b.retries[r].state in IN_FLIGHT && b'.retries[r].worker == b.retries[r].worker
  }

  lemma ClaimsStable(s: System, s': System)
    requires ClaimsOk(s) && Evolves(s.board, s'.board) && NothingClaimed(s.board, s'.board) && s'.board.log == s.board.log
    requires forall k | k in s.issued :: k in s'.issued && s'.issued[k] == s.issued[k]
    ensures ClaimsOk(s')
  {
    forall r | r in s'.board.retries && s'.board.retries[r].state in IN_FLIGHT ensures TakenByClaim(s', r, s'.board.retries[r]) {
      assert TakenByClaim(s, r, s.board.retries[r]);
      assert RetryEvolves(s.board.retries[r], s'.board.retries[r]);
    }
    EntriesStable(s, s');
  }

  lemma EntriesStable(s: System, s': System)
    requires ClaimsOk(s) && Evolves(s.board, s'.board)
    requires forall k | k in s.issued :: k in s'.issued && s'.issued[k] == s.issued[k]
    ensures forall i | 0 <= i < |s.board.log| :: EntryByClaim(s', s.board.log[i])
  {
    forall i | 0 <= i < |s.board.log| ensures EntryByClaim(s', s.board.log[i]) {
      assert EntryByClaim(s, s.board.log[i]);
      assert RetryEvolves(s.board.retries[s.board.log[i].retry], s'.board.retries[s.board.log[i].retry]);
    }
  }

  /** A claim takes exactly the last row of its lane. */
  lemma ClaimsExtended(s: System, s': System, ws: UUID, x: UUID, owner: string, ttl: int, now: Time)
    requires SystemInv(s) && Claimable(s.board, ws, x, now)
    requires s'.board == Claim(s.board, ws, x, owner, ttl, now).0
    requires var f := Claim(s.board, ws, x, owner, ttl, now).1.value;
             s'.issued == s.issued[(x, f.generation) := Issue(ByClaim, f)]
    ensures ClaimsOk(s')
  {
    hide Evolves, WellFormed, TokensOk, HoldersOk;
    var b, b' := s.board, s'.board;
    var f := Claim(b, ws, x, owner, ttl, now).1.value;
    ClaimEvolves(b, ws, x, owner, ttl, now);
    NextGenerationFree(s, x);
    ClaimTakesOne(b, ws, x, now);
    forall r | r in b'.retries && b'.retries[r].state in IN_FLIGHT ensures TakenByClaim(s', r, b'.retries[r]) {
      if r != f.retry { assert TakenByClaim(s, r, b.retries[r]); }
    }
    EntriesStable(s, s');
  }

  lemma ClaimTakesOne(b: Board, ws: UUID, x: UUID, now: Time)
    requires WellFormed(b) && Claimable(b, ws, x, now)
    ensures forall r | r in b.retries && b.retries[r].execution == x && b.retries[r].workspace == ws && b.retries[r].state == RetryPending
              :: r == Pick(PendingRetries(b.retries, x, ws))
    ensures RowOk(b.execs[x])
  {
    hide WellFormed, LanesOk, DlqOk, LogOk, KeysOk, RowOk;
    var lanes := LanesFor(b);
    RowHolds(b, lanes, x);
    ClaimKeepsLanes(b, lanes, ws, x, "", 0, now);
    forall r | r in b.retries && b.retries[r].execution == x && b.retries[r].workspace == ws && b.retries[r].state == RetryPending
      ensures r == Pick(PendingRetries(b.retries, x, ws))
    {
      assert r in PendingRetries(b.retries, x, ws);
    }
  }

  lemma ClaimTokenOk(s: System, ws: UUID, x: UUID, owner: string, ttl: int, now: Time)
    requires SystemInv(s) && Claimable(s.board, ws, x, now)
    ensures var (b', r) := Claim(s.board, ws, x, owner, ttl, now);
            TokenOk(b', x, r.value.generation, Issue(ByClaim, r.value))
  {
    hide WellFormed, TokensOk, HoldersOk, ClaimsOk;
    ClaimTakesOne(s.board, ws, x, now);
  }

  lemma ReclaimTokenOk(s: System, ws: UUID, x: UUID, owner: string, ttl: int, now: Time)
    requires SystemInv(s) && Reclaimable(s.board, ws, x, now)
    ensures var (b', r) := ReclaimStale(s.board, ws, x, owner, ttl, now);
            TokenOk(b', x, r.value.generation, Issue(ByReclaim, r.value))
  {
    hide WellFormed, TokensOk, HoldersOk, ClaimsOk, PendingRetries;
    RunningStarted(s.board, x);
  }

  lemma RunningStarted(b: Board, x: UUID)
    requires WellFormed(b) && x in b.execs && b.execs[x].status == Running
    ensures 1 <= b.execs[x].attempt
  {
    hide WellFormed, LanesOk, DlqOk, LogOk, KeysOk;
    var lanes := LanesFor(b);
    var last := LastRow(b, lanes, x);
  }

  // ---------------------------------------------------------------- one step

  /** A step that hands out no token and puts nothing in flight; at most one process moves, to a state it may be in. */
  lemma QuietStep(s: System, s': System)
    requires SystemInv(s) && WellFormed(s'.board) && Evolves(s.board, s'.board) && HoldersOk(s')
    requires NothingClaimed(s.board, s'.board) && s'.board.log == s.board.log && s'.issued == s.issued
    ensures SystemInv(s')
  {
    hide WellFormed, Evolves, TokensOk, HoldersOk, ClaimsOk, NothingClaimed;
    TokensStable(s, s');
    ClaimsStable(s, s');
  }

  lemma ResolvingClaimsNothing(retries: map<UUID, Retry>, x: UUID, ws: UUID, states: set<RetryState>, outcome: RetryOutcome, now: Time)
    ensures var retries' := ResolveRetries(retries, x, ws, states, outcome, now);
            forall r | r in retries' && retries'[r].state in IN_FLIGHT :: r in retries && retries[r].state in IN_FLIGHT && retries'[r] == retries[r]
  {
  }

  lemma AdmitStep(s: System, staff: map<UUID, Employee>, req: AdmitRequest, id: UUID, retryId: UUID, now: Time)
    requires SystemInv(s)
    ensures SystemInv(Step(s, staff, Admit(req, id, retryId, now)))
  {
    hide WellFormed, Evolves, TokensOk, HoldersOk, ClaimsOk, AdmittedRow, Keyed, Active;
    var a := Admit(req, id, retryId, now);
    var s' := Step(s, staff, a);
    StepEvolves(s, staff, a);
    AdmissionWellFormed(s.board, staff, req, id, retryId, now);
    HoldersSame(s, s');
    QuietStep(s, s');
  }

  lemma CancelStep(s: System, staff: map<UUID, Employee>, ws: UUID, x: UUID, now: Time)
    requires SystemInv(s)
    ensures SystemInv(Step(s, staff, CancelByHuman(ws, x, now)))
  {
    hide WellFormed, Evolves, TokensOk, HoldersOk, ClaimsOk, ResolveRetries;
    var s' := Step(s, staff, CancelByHuman(ws, x, now));
    CancelEvolves(s.board, ws, x, now);
    CancelWellFormed(s.board, ws, x, now);
    HoldersSame(s, s');
    ResolvingClaimsNothing(s.board.retries, x, ws, {RetryPending, RetryClaimed, RetryDispatched}, OutcomeCancelled, now);
    QuietStep(s, s');
  }

  lemma ClaimStep(s: System, staff: map<UUID, Employee>, p: nat, ws: UUID, x: UUID, owner: string, ttl: int, now: Time)
    requires SystemInv(s)
    ensures SystemInv(Step(s, staff, ClaimDue(p, ws, x, owner, ttl, now)))
  {
    hide WellFormed, Evolves, TokensOk, HoldersOk, ClaimsOk, TokenOk, ClaimRetries;
    var s' := Step(s, staff, ClaimDue(p, ws, x, owner, ttl, now));
    if ProcOf(s, p) == Idle && Claimable(s.board, ws, x, now) {
      var f := Claim(s.board, ws, x, owner, ttl, now).1.value;
      ClaimEvolves(s.board, ws, x, owner, ttl, now);
      ClaimWellFormed(s.board, ws, x, owner, ttl, now);
      ClaimTokenOk(s, ws, x, owner, ttl, now);
      NextGenerationFree(s, x);
      TokensExtended(s, s', x, f.generation, Issue(ByClaim, f));
      HoldersStable(s, s', p, Claimed(f));
      ClaimsExtended(s, s', ws, x, owner, ttl, now);
    }
  }

  lemma ReclaimStep(s: System, staff: map<UUID, Employee>, p: nat, ws: UUID, x: UUID, owner: string, ttl: int, now: Time)
    requires SystemInv(s)
    ensures SystemInv(Step(s, staff, Reclaim(p, ws, x, owner, ttl, now)))
  {
    hide WellFormed, Evolves, TokensOk, HoldersOk, ClaimsOk, TokenOk, PendingRetries;
    var s' := Step(s, staff, Reclaim(p, ws, x, owner, ttl, now));
    if ProcOf(s, p) == Idle && Reclaimable(s.board, ws, x, now) {
      var f := ReclaimStale(s.board, ws, x, owner, ttl, now).1.value;
      ReclaimEvolves(s.board, ws, x, owner, ttl, now);
      ReclaimWellFormed(s.board, ws, x, owner, ttl, now);
      ReclaimTokenOk(s, ws, x, owner, ttl, now);
      NextGenerationFree(s, x);
      TokensExtended(s, s', x, f.generation, Issue(ByReclaim, f));
      HoldersStable(s, s', p, Reclaimed(f));
      ClaimsStable(s, s');
    }
  }

  lemma PublishStep(s: System, staff: map<UUID, Employee>, p: nat, ok: bool, sent: bool)
    requires SystemInv(s)
    ensures SystemInv(Step(s, staff, Publish(p, ok, sent)))
  {
    hide WellFormed, Evolves, TokensOk, ClaimsOk;
    var s' := Step(s, staff, Publish(p, ok, sent));
    if s' != s {
      var f := ProcOf(s, p).f;
      HoldersStable(s, s', p, Published(f, ok));
      Unmoved(s.board);
      QuietStep(s, s');
    }
  }

  lemma RecordStep(s: System, staff: map<UUID, Employee>, p: nat, now: Time)
    requires SystemInv(s)
    ensures SystemInv(Step(s, staff, Record(p, now)))
  {
    hide WellFormed, Evolves, TokensOk, HoldersOk, ClaimsOk, RecordDispatch;
    var s' := Step(s, staff, Record(p, now));
    if ProcOf(s, p).Published? {
      var f := ProcOf(s, p).f;
      RecordEvolves(s.board, f.workspace, f.retry, f.owner, f.generation, ProcOf(s, p).ok, now);
      RecordWellFormed(s.board, f.workspace, f.retry, f.owner, f.generation, ProcOf(s, p).ok, now);
      TokensStable(s, s');
      HoldersStable(s, s', p, Idle);
      RecordClaims(s, s', f, ProcOf(s, p).ok, now);
    }
  }

  lemma RecordClaims(s: System, s': System, f: Fenced, ok: bool, now: Time)
    requires SystemInv(s) && s'.issued == s.issued
    requires s'.board == RecordDispatch(s.board, f.workspace, f.retry, f.owner, f.generation, ok, now)
    ensures ClaimsOk(s')
  {
    hide WellFormed, Evolves, TokensOk, HoldersOk;
    RecordEvolves(s.board, f.workspace, f.retry, f.owner, f.generation, ok, now);
    forall r | r in s'.board.retries && s'.board.retries[r].state in IN_FLIGHT ensures TakenByClaim(s', r, s'.board.retries[r]) {
      assert TakenByClaim(s, r, s.board.retries[r]);
    }
    EntriesStable(s, s');
    if Dispatchable(s.board, f.workspace, f.retry, f.owner, f.generation) {
      assert TakenByClaim(s, f.retry, s.board.retries[f.retry]);
    }
  }

  lemma ResolveStep(s: System, staff: map<UUID, Employee>, p: nat, clock: Time, base: int, cap: int, newId: UUID, now: Time)
    requires SystemInv(s)
    ensures SystemInv(Step(s, staff, Resolve(p, clock, base, cap, newId, now)))
  {
    hide WellFormed, Evolves, TokensOk, HoldersOk, ClaimsOk, Resolution, NothingClaimed, CurrentIfHeld;
    var s' := Step(s, staff, Resolve(p, clock, base, cap, newId, now));
    if ProcOf(s, p).Reclaimed? {
      var f := ProcOf(s, p).f;
      assert Has(s, ByReclaim, f) by { HolderHas(s, p); }
      HeldTokenCurrent(s, ByReclaim, f);
      ResolutionEvolves(s.board, f, clock, base, cap, newId, now);
      ResolutionOk(s.board, f, clock, base, cap, newId, now);
      HoldersStable(s, s', p, Idle);
      QuietStep(s, s');
    }
  }

  lemma HolderHas(s: System, p: nat)
    requires HoldersOk(s)
    ensures ProcOk(s, ProcOf(s, p))
  {
  }

  lemma ResolutionOk(b: Board, f: Fenced, clock: Time, base: int, cap: int, newId: UUID, now: Time)
    requires WellFormed(b) && CurrentIfHeld(b, f)
    ensures var b' := Resolution(b, f, clock, base, cap, newId, now).0;
            WellFormed(b') && NothingClaimed(b, b') && b'.log == b.log
  {
    hide WellFormed, ResolveRetries, OutstandingRetries, CurrentIfHeld, Delay;
    var code := if f.lastErrorCode.Some? then f.lastErrorCode.value else CodeWorkerLeaseExpired;
    var retryable := if f.retryable.Some? then f.retryable.value else true;
    ResolvingClaimsNothing(b.retries, f.execution, f.workspace, IN_FLIGHT, OutcomeFailed, now);
    if !retryable || f.attempt >= f.maxAttempts {
      FailWellFormed(b, f, code, RECOVERY_DETAIL, "", now);
    } else {
      RescheduleWellFormed(b, f, clock + Delay(f.attempt, base, cap), newId, now);
    }
  }

  lemma SettlementOk(b: Board, f: Fenced, c: Classified, detail: string,
                     clock: Time, base: int, cap: int, newId: UUID, snapshot: string, now: Time)
    requires WellFormed(b) && CurrentIfHeld(b, f)
    ensures var b' := Settlement(b, f, c, detail, clock, base, cap, newId, snapshot, now).0;
            WellFormed(b') && NothingClaimed(b, b') && b'.log == b.log
  {
    hide WellFormed, ResolveRetries, OutstandingRetries, CurrentIfHeld, Delay;
    ResolvingClaimsNothing(b.retries, f.execution, f.workspace, IN_FLIGHT, OutcomeFailed, now);
    if c.retry && f.attempt < f.maxAttempts {
      RescheduleWellFormed(b, f, clock + Delay(f.attempt, base, cap), newId, now);
    } else {
      FailWellFormed(b, f, c.code, detail, snapshot, now);
    }
  }

  lemma DeliverStep(s: System, staff: map<UUID, Employee>, p: nat, m: Message)
    requires SystemInv(s)
    ensures SystemInv(Step(s, staff, Deliver(p, m)))
  {
    hide WellFormed, Evolves, TokensOk, HoldersOk, ClaimsOk;
    var s' := Step(s, staff, Deliver(p, m));
    if s' != s {
      HoldersStable(s, s', p, Working(m));
      Unmoved(s.board);
      QuietStep(s, s');
    }
  }

  lemma BeatStep(s: System, staff: map<UUID, Employee>, p: nat, name: string, ttl: int, now: Time)
    requires SystemInv(s)
    ensures SystemInv(Step(s, staff, Beat(p, name, ttl, now)))
  {
    hide WellFormed, Evolves, TokensOk, HoldersOk, ClaimsOk;
    var s' := Step(s, staff, Beat(p, name, ttl, now));
    if ProcOf(s, p).Working? || ProcOf(s, p).Persisted? {
      var f := FencedFrom(ProcOf(s, p).m, name);
      HeartbeatEvolves(s.board, f, ttl, now);
      HeartbeatWellFormed(s.board, f, ttl, now);
      HoldersSame(s, s');
      QuietStep(s, s');
    }
  }

  lemma SucceedStep(s: System, staff: map<UUID, Employee>, p: nat, name: string, result: string, now: Time)
    requires SystemInv(s)
    ensures SystemInv(Step(s, staff, Succeed(p, name, result, now)))
  {
    hide WellFormed, Evolves, TokensOk, HoldersOk, ClaimsOk, ResolveRetries;
    var s' := Step(s, staff, Succeed(p, name, result, now));
    if ProcOf(s, p).Working? {
      var f := FencedFrom(ProcOf(s, p).m, name);
      CompleteEvolves(s.board, f, result, now);
      CompleteWellFormed(s.board, f, result, now);
      HoldersStable(s, s', p, Idle);
      ResolvingClaimsNothing(s.board.retries, f.execution, f.workspace, IN_FLIGHT, OutcomeSuccess, now);
      QuietStep(s, s');
    }
  }

  lemma FailStep(s: System, staff: map<UUID, Employee>, p: nat, name: string, cause: Cause, now: Time)
    requires SystemInv(s)
    ensures SystemInv(Step(s, staff, Fail(p, name, cause, now)))
  {
    hide WellFormed, Evolves, TokensOk, HoldersOk, ClaimsOk, Classify;
    var s' := Step(s, staff, Fail(p, name, cause, now));
    if ProcOf(s, p).Working? {
      var f := FencedFrom(ProcOf(s, p).m, name);
      var c := Classify(cause);
      PersistErrorEvolves(s.board, f, c.code, c.retry, cause.text, now);
      PersistErrorWellFormed(s.board, f, c.code, c.retry, cause.text, now);
      HolderHas(s, p);
      HoldersStable(s, s', p, s'.procs[p]);
      QuietStep(s, s');
    }
  }

  lemma SettleStep(s: System, staff: map<UUID, Employee>, p: nat, name: string,
                   clock: Time, base: int, cap: int, newId: UUID, snapshot: string, now: Time)
    requires SystemInv(s)
    ensures SystemInv(Step(s, staff, Settle(p, name, clock, base, cap, newId, snapshot, now)))
  {
    hide WellFormed, Evolves, TokensOk, HoldersOk, ClaimsOk, Settlement, NothingClaimed, CurrentIfHeld;
    var s' := Step(s, staff, Settle(p, name, clock, base, cap, newId, snapshot, now));
    if ProcOf(s, p).Persisted? {
      var q := ProcOf(s, p);
      var f := FencedFrom(q.m, name);
      HolderHas(s, p);
      WorkerTokenCurrent(s, q.m, name);
      SettlementEvolves(s.board, f, q.c, q.detail, clock, base, cap, newId, snapshot, now);
      SettlementOk(s.board, f, q.c, q.detail, clock, base, cap, newId, snapshot, now);
      HoldersStable(s, s', p, Idle);
      QuietStep(s, s');
    }
  }

  lemma CrashStep(s: System, staff: map<UUID, Employee>, p: nat)
    requires SystemInv(s)
    ensures SystemInv(Step(s, staff, Crash(p)))
  {
    hide WellFormed, Evolves, TokensOk, HoldersOk, ClaimsOk;
    var s' := Step(s, staff, Crash(p));
    HoldersStable(s, s', p, Idle);
    Unmoved(s.board);
    QuietStep(s, s');
  }

  /** Every action of every process, in any state that satisfies the invariant, keeps it. */
  lemma StepKeepsInvariant(s: System, staff: map<UUID, Employee>, a: Action)
    requires SystemInv(s)
    ensures SystemInv(Step(s, staff, a))
  {
    hide SystemInv, Step;
    match a
    case Admit(req, id, retryId, now) => AdmitStep(s, staff, req, id, retryId, now);
    case CancelByHuman(ws, x, now) => CancelStep(s, staff, ws, x, now);
    case ClaimDue(p, ws, x, owner, ttl, now) => ClaimStep(s, staff, p, ws, x, owner, ttl, now);
    case Publish(p, ok, sent) => PublishStep(s, staff, p, ok, sent);
    case Record(p, now) => RecordStep(s, staff, p, now);
    case Reclaim(p, ws, x, owner, ttl, now) => ReclaimStep(s, staff, p, ws, x, owner, ttl, now);
    case Resolve(p, clock, base, cap, newId, now) => ResolveStep(s, staff, p, clock, base, cap, newId, now);
    case Deliver(p, m) => DeliverStep(s, staff, p, m);
    case Beat(p, name, ttl, now) => BeatStep(s, staff, p, name, ttl, now);
    case Succeed(p, name, result, now) => SucceedStep(s, staff, p, name, result, now);
    case Fail(p, name, cause, now) => FailStep(s, staff, p, name, cause, now);
    case Settle(p, name, clock, base, cap, newId, snapshot, now) =>
      SettleStep(s, staff, p, name, clock, base, cap, newId, snapshot, now);
    case Crash(p) => CrashStep(s, staff, p);
  }

  /** Every state every interleaving reaches satisfies the invariant. */
  lemma {:induction false} Reachable(staff: map<UUID, Employee>, acts: seq<Action>)
    ensures SystemInv(Run(START, staff, acts))
  {
    hide SystemInv, Step;
    if acts == [] {
      StartInv();
    } else {
      var n := |acts| - 1;
      Reachable(staff, acts[..n]);
      StepKeepsInvariant(Run(START, staff, acts[..n]), staff, acts[n]);
    }
  }
}
