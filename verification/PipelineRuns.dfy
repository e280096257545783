/** What holds of every pipeline on every interleaving. */
module PipelineRuns {
  import opened Wrappers
  import opened PipelineDomain
  import opened PipelineProtocol

  // ---------------------------------------------------------------- what one operation writes

  /** The stage work leaves the identity, the key, the version and the approval alone. */
  predicate Derived(p: Pipeline, p': Pipeline) {
    p'.id == p.id && p'.workspace == p.workspace && p'.key == p.key && p'.version == p.version
  }

  predicate ApprovalKept(p: Pipeline, p': Pipeline) {
    p'.approvedBy == p.approvedBy && p'.approvedAt == p.approvedAt
  }

  /** An advance past the gate writes a well-formed row: one stage on, or failed where it was. */
  lemma MovedOk(p: Pipeline, to: Stage, io: Ports, port: bool, now: Time)
    requires RowOk(p) && CanAdvance(to, p.stage, p.status) == None
    ensures var m := Moved(p, to, io, port, now);
            m.Refused? || (RowOk(m.p) && Derived(p, m.p) && ApprovalKept(p, m.p)
                           && if m.Entered? then m.p.stage == to && NextStage(p.stage) == Success(to) else m.p.stage == p.stage)
  {
    hide BoundReference, FailureReason;
  }

  /** Only a publish can be refused at the last moment, and only for want of a publication. */
  lemma RefusedIff(p: Pipeline, to: Stage, io: Ports, port: bool, now: Time)
    requires RowOk(p) && CanAdvance(to, p.stage, p.status) == None
    ensures Moved(p, to, io, port, now).Refused? <==> to == Publish && port && p.publication.None?
  {
    hide BoundReference, FailureReason;
  }

  /**
   * Retry advances without asking the gate, and never needs to: a pipeline that failed in review had
   * been approved, so the reset restores a state the gate admits to the next stage.
   */
  lemma ResetPassesTheGate(p: Pipeline, now: Time)
    requires RowOk(p) && p.status == Failed
    ensures var r := Reset(p, now);
            && RowOk(r) && Derived(p, r) && ApprovalKept(p, r) && r.stage == p.stage
            && NextStage(r.stage).Success? && CanAdvance(NextStage(r.stage).value, r.stage, r.status) == None
  {
  }

  // ---------------------------------------------------------------- one step

  /** A write under a copy's version, and the writer's next local state. */
  lemma WriteStep(s: System, q: nat, p: Pipeline, p': Pipeline, now: Time, f: Flight)
    requires Inv(s) && CopyOk(s.rows, p) && Derived(p, p') && RowOk(p')
    requires var (rows, r) := Update(s.rows, p', now);
             if r.Success? then r.value.id in rows && (CopyOk(rows, r.value) ==> FlightOk(rows, f)) else FlightOk(s.rows, f)
    ensures var (rows, r) := Update(s.rows, p', now);
            && Inv(System(rows, s.flights[q := f]))
            && (r.Success? <==> p.version == s.rows[p.id].version)
            && (r.Success? ==> Same(p, s.rows[p.id]) && rows == s.rows[p.id := p'.(version := p.version + 1, updatedAt := now)])
            && (r.Failure? ==> rows == s.rows)
  {
    hide RowOk, CanAdvance, StageStatusValid;
    var (rows, r) := Update(s.rows, p', now);
    assert StageStatusValid(p'.stage, p'.status) && p.version >= 1 by { RowFacts(p'); }
    if p.version == s.rows[p.id].version {
      assert Same(p, s.rows[p.id]);
      KeyStillFree(s.rows, p');
      RowRestamped(p', now);
      KeysKept(s.rows, p'.(version := p.version + 1, updatedAt := now));
    }
    var flights := s.flights[q := f];
    forall k | k in flights ensures FlightOk(rows, flights[k]) {
      if k != q {
        assert FlightOk(s.rows, s.flights[k]);
        FlightStays(s.rows, rows, s.flights[k]);
      }
    }
  }

  lemma RowFacts(p: Pipeline)
    requires RowOk(p)
    ensures StageStatusValid(p.stage, p.status) && p.version >= 1
  {
  }

  lemma RowRestamped(p: Pipeline, now: Time)
    requires RowOk(p)
    ensures RowOk(p.(version := p.version + 1, updatedAt := now))
  {
  }

  lemma KeyStillFree(rows: Rows, p: Pipeline)
    requires KeysOk(rows) && p.id in rows && rows[p.id].key == p.key && rows[p.id].workspace == p.workspace
    ensures KeyFree(rows, p)
  {
  }

  lemma KeysKept(rows: Rows, p: Pipeline)
    requires KeysOk(rows) && p.id in rows && rows[p.id].key == p.key && rows[p.id].workspace == p.workspace
    ensures KeysOk(rows[p.id := p])
  {
  }

  /** A row moves by a new version or by nothing but its publication, so everyone else's copy stays a copy. */
  lemma FlightStays(rows: Rows, rows': Rows, f: Flight)
    requires FlightOk(rows, f)
    requires forall x | x in rows :: x in rows' && rows'[x].workspace == rows[x].workspace
                                     && (rows'[x].version > rows[x].version || Same(rows[x], rows'[x]))
    ensures FlightOk(rows', f)
  {
    hide RowOk, CanAdvance;
  }

  lemma CreateStep(s: System, port: bool, id: UUID, ws: UUID, key: string, now: Time)
    requires Inv(s)
    ensures var s' := Step(s, port, CreateNew(id, ws, key, now));
            Inv(s') && forall x | x in s.rows :: x in s'.rows && RowMoves(s.rows[x], s'.rows[x])
  {
    hide RowOk;
    var s' := Step(s, port, CreateNew(id, ws, key, now));
    NewOk(id, ws, Trim(key), now);
    forall q | q in s.flights ensures FlightOk(s'.rows, s.flights[q]) {
      FlightStays(s.rows, s'.rows, s.flights[q]);
    }
    assert KeysOk(s'.rows) by { NewKey(s.rows, New(id, ws, Trim(key), now)); }
  }

  lemma NewOk(id: UUID, ws: UUID, key: string, now: Time)
    ensures RowOk(New(id, ws, key, now))
  {
  }

  lemma NewKey(rows: Rows, p: Pipeline)
    requires KeysOk(rows) && forall x | x in rows :: rows[x].id == x
    ensures KeysOk(Create(rows, p).0)
  {
    forall x | x in rows && rows[x].key != "" && rows[x].key == p.key && rows[x].workspace == p.workspace && KeyFree(rows, p)
      ensures x == p.id
    {
      assert x in KeyHolders(rows, p.workspace, p.key);
    }
  }

  lemma DropStep(s: System, port: bool, id: UUID)
    requires Inv(s)
    ensures var s' := Step(s, port, DropPublication(id));
            Inv(s') && forall x | x in s.rows :: x in s'.rows && RowMoves(s.rows[x], s'.rows[x])
  {
    var s' := Step(s, port, DropPublication(id));
    forall q | q in s.flights ensures FlightOk(s'.rows, s.flights[q]) {
      FlightStays(s.rows, s'.rows, s.flights[q]);
    }
  }

  /** Every action of every operation keeps the invariant, and moves each row only as RowMoves allows. */
  lemma StepKeepsInv(s: System, port: bool, a: Action)
    requires Inv(s)
    ensures Inv(Step(s, port, a))
    ensures forall x | x in s.rows :: x in Step(s, port, a).rows && RowMoves(s.rows[x], Step(s, port, a).rows[x])
  {
    hide RowOk, Moved, Reset, CanAdvance, AdvanceStart, ApproveStart, RetryStart, KeysOk, KeyFree, StageStatusValid;
    match a
    case CreateNew(id, ws, key, now) => CreateStep(s, port, id, ws, key, now);
    case DropPublication(id) => DropStep(s, port, id);
    case BeginAdvance(q, ws, id, start, to) => AdvanceStarts(s, ws, id, start, to);
    case BeginApprove(q, ws, id, actor) => ApproveStarts(s, ws, id, actor, port);
    case BeginRetry(q, ws, id, actor) => RetryStarts(s, ws, id, actor);
    case Abort(q) =>
    case CommitAdvance(q, io, now) => AdvanceStep(s, port, q, io, now);
    case CommitApprove(q, io, now) => ApproveStep(s, port, q, io, now);
    case CommitReset(q, now) => ResetStep(s, port, q, now);
  }

  lemma AdvanceStep(s: System, port: bool, q: nat, io: Ports, now: Time)
    requires Inv(s)
    ensures var s' := Step(s, port, CommitAdvance(q, io, now));
            Inv(s') && forall x | x in s.rows :: x in s'.rows && RowMoves(s.rows[x], s'.rows[x])
  {
    hide RowOk, Moved, CanAdvance, KeysOk, KeyFree, StageStatusValid;
    if FlightOf(s, q).Advancing? {
      var p, to := s.flights[q].p, s.flights[q].to;
      assert FlightOk(s.rows, s.flights[q]);
      MovedOk(p, to, io, port, now);
      NotDone(p, to);
      var m := Moved(p, to, io, port, now);
      if !m.Refused? { WriteStep(s, q, p, m.p, now, Idle); }
    }
  }

  lemma ApproveStep(s: System, port: bool, q: nat, io: Ports, now: Time)
    requires Inv(s)
    ensures var s' := Step(s, port, CommitApprove(q, io, now));
            Inv(s') && forall x | x in s.rows :: x in s'.rows && RowMoves(s.rows[x], s'.rows[x])
  {
    hide RowOk, KeysOk, KeyFree, StageStatusValid;
    if FlightOf(s, q).Approving? {
      var f := s.flights[q];
      assert FlightOk(s.rows, f);
      ApprovedOk(f.p, f.actor, now);
      WriteStep(s, q, f.p, ApprovedRow(f.p, f.actor, now), now, Idle);
    }
  }

  lemma AdvanceStarts(s: System, ws: UUID, id: UUID, start: Stage, to: Stage)
    requires Inv(s)
    ensures var r := AdvanceStart(s.rows, ws, id, start, to); r.Success? ==> FlightOk(s.rows, Advancing(r.value, to))
  {
    hide CanAdvance;
  }

  lemma ApproveStarts(s: System, ws: UUID, id: UUID, actor: string, port: bool)
    requires Inv(s)
    ensures var r := ApproveStart(s.rows, ws, id, actor, port);
            r.Success? && !r.value.Approved() ==> FlightOk(s.rows, Approving(r.value, Trim(actor)))
  {
  }

  lemma RetryStarts(s: System, ws: UUID, id: UUID, actor: string)
    requires Inv(s)
    ensures var r := RetryStart(s.rows, ws, id, actor); r.Success? ==> FlightOk(s.rows, Retrying(r.value))
  {
  }

  lemma NotDone(p: Pipeline, to: Stage)
    requires CanAdvance(to, p.stage, p.status) == None
    ensures p.status != Done
  {
  }

  lemma ApprovedOk(p: Pipeline, actor: string, now: Time)
    requires RowOk(p) && p.stage == Review && p.status == AwaitingApproval && actor != ""
    ensures RowOk(ApprovedRow(p, actor, now)) && Derived(p, ApprovedRow(p, actor, now)) && p.approvedBy == ""
  {
  }

  lemma ResetStep(s: System, port: bool, q: nat, now: Time)
    requires Inv(s)
    ensures var s' := Step(s, port, CommitReset(q, now));
            Inv(s') && forall x | x in s.rows :: x in s'.rows && RowMoves(s.rows[x], s'.rows[x])
  {
    hide RowOk, Reset, CanAdvance, KeysOk, KeyFree, StageStatusValid;
    if FlightOf(s, q).Retrying? {
      var p := s.flights[q].p;
      assert FlightOk(s.rows, s.flights[q]);
      ResetPassesTheGate(p, now);
      var (rows, r) := Update(s.rows, Reset(p, now), now);
      var f := if r.Failure? || NextStage(r.value.stage).Failure? then Idle else Advancing(r.value, NextStage(r.value.stage).value);
      WriteStep(s, q, p, Reset(p, now), now, f);
    }
  }

  // ---------------------------------------------------------------- every run

  lemma {:induction false} Reachable(port: bool, acts: seq<Action>)
    ensures Inv(Run(START, port, acts))
  {
    hide Inv, Step;
    if acts != [] {
      Reachable(port, acts[..|acts| - 1]);
      StepKeepsInv(Run(START, port, acts[..|acts| - 1]), port, acts[|acts| - 1]);
    } else {
      StartInv();
    }
  }

  lemma StartInv()
    ensures Inv(START)
  {
  }

  /** One action further along an interleaving. */
  lemma OneStep(port: bool, acts: seq<Action>, i: nat)
    requires i < |acts|
    ensures At(port, acts, i + 1) == Step(At(port, acts, i), port, acts[i]) && Inv(At(port, acts, i)) && Inv(At(port, acts, i + 1))
    ensures forall x | x in At(port, acts, i).rows ::
              x in At(port, acts, i + 1).rows && RowMoves(At(port, acts, i).rows[x], At(port, acts, i + 1).rows[x])
  {
    hide Inv, Step, RowMoves;
    assert acts[..i + 1][..i] == acts[..i];
    Reachable(port, acts[..i]);
    StepKeepsInv(At(port, acts, i), port, acts[i]);
  }

  /** What never happens between two moments of a run: a stage, a version or an approval taken back. */
  predicate Grown(r: Pipeline, r': Pipeline) {
    && Rank(r.stage) <= Rank(r'.stage)
    && r.version <= r'.version
    && (r.approvedBy != "" ==> r'.approvedBy == r.approvedBy && r'.approvedAt == r.approvedAt)
    && (r.status == Done ==> Same(r, r'))
  }

  /** Stages never go back, a recorded approval never changes, and a finished pipeline stays as it is. */
  lemma {:induction false} NothingIsTakenBack(port: bool, acts: seq<Action>, i: nat, j: nat, x: UUID)
    requires i <= j <= |acts| && x in At(port, acts, i).rows
    ensures x in At(port, acts, j).rows && Grown(At(port, acts, i).rows[x], At(port, acts, j).rows[x])
    decreases j
  {
    hide Inv, Step, At;
    if i < j {
      NothingIsTakenBack(port, acts, i, j - 1, x);
      OneStep(port, acts, j - 1);
    }
  }

  /** The action at i takes pipeline x into stage t. */
  predicate Enters(port: bool, acts: seq<Action>, i: nat, x: UUID, t: Stage)
    requires i < |acts|
  {
    && x in At(port, acts, i + 1).rows && At(port, acts, i + 1).rows[x].stage == t
    && (x in At(port, acts, i).rows ==> At(port, acts, i).rows[x].stage != t)
  }

  /** However often an event is delivered or a stage retried, each stage is entered at most once. */
  lemma StagesAreEnteredOnce(port: bool, acts: seq<Action>, i: nat, j: nat, x: UUID, t: Stage)
    requires i < |acts| && j < |acts| && Enters(port, acts, i, x, t) && Enters(port, acts, j, x, t)
    ensures i == j
  {
    hide Inv, Step, At;
    if i < j { EnteredBefore(port, acts, i, j, x, t); }
    if j < i { EnteredBefore(port, acts, j, i, x, t); }
  }

  lemma EnteredBefore(port: bool, acts: seq<Action>, i: nat, j: nat, x: UUID, t: Stage)
    requires i < j < |acts| && Enters(port, acts, i, x, t)
    ensures !Enters(port, acts, j, x, t)
  {
    hide Inv, Step, At;
    NothingIsTakenBack(port, acts, i + 1, j, x);
    OneStep(port, acts, j);
  }

  // ---------------------------------------------------------------- the human gate

  /** The action at i is an approval that committed on x, by this actor at this time. */
  predicate ApprovedAtStep(port: bool, acts: seq<Action>, i: nat, x: UUID, actor: string, when: Time)
    requires i < |acts|
  {
    && acts[i].CommitApprove? && acts[i].now == when && actor != ""
    && FlightOf(At(port, acts, i), acts[i].q).Approving? && FlightOf(At(port, acts, i), acts[i].q).actor == actor
    && x in At(port, acts, i).rows && At(port, acts, i).rows[x].stage == Review && At(port, acts, i).rows[x].status == AwaitingApproval
    && x in At(port, acts, i + 1).rows && At(port, acts, i + 1).rows[x].Approved()
  }

  /** Nothing but an approval that commits touches an approval on record. */
  lemma ApprovalUntouched(s: System, port: bool, a: Action, x: UUID)
    requires Inv(s) && !a.CommitApprove? && x in Step(s, port, a).rows
    ensures var was := if x in s.rows then s.rows[x].approvedBy else "";
            Step(s, port, a).rows[x].approvedBy == was
  {
    hide RowOk, Moved, Reset, CanAdvance, AdvanceStart, ApproveStart, RetryStart, KeysOk, KeyFree, StageStatusValid;
    match a
    case CommitAdvance(q, io, now) =>
      if FlightOf(s, q).Advancing? {
        assert FlightOk(s.rows, s.flights[q]);
        MovedOk(s.flights[q].p, s.flights[q].to, io, port, now);
        RowFacts(s.flights[q].p);
      }
    case CommitReset(q, now) =>
      if FlightOf(s, q).Retrying? {
        assert FlightOk(s.rows, s.flights[q]);
        ResetPassesTheGate(s.flights[q].p, now);
        RowFacts(s.flights[q].p);
      }
    case _ =>
  }

  /** Approvals appear on a row only when an approval commits there. */
  lemma ApprovalAppears(s: System, port: bool, a: Action, x: UUID)
    requires Inv(s) && x in Step(s, port, a).rows && Step(s, port, a).rows[x].approvedBy != ""
    requires x in s.rows ==> s.rows[x].approvedBy == ""
    ensures a.CommitApprove? && FlightOf(s, a.q).Approving? && x in s.rows
    ensures s.rows[x].stage == Review && s.rows[x].status == AwaitingApproval
    ensures var r := Step(s, port, a).rows[x];
            r.Approved() && r.approvedBy == FlightOf(s, a.q).actor && r.approvedAt == Some(a.now)
  {
    hide RowOk, KeysOk, KeyFree, StageStatusValid;
    if !a.CommitApprove? { ApprovalUntouched(s, port, a, x); }
    if FlightOf(s, a.q).Approving? {
      assert FlightOk(s.rows, s.flights[a.q]);
      RowFacts(s.flights[a.q].p);
    }
  }

  /** Every approval on record is some earlier committed approval by that actor at that time. */
  lemma {:induction false} ApprovalWasGiven(port: bool, acts: seq<Action>, n: nat, x: UUID) returns (i: nat)
    requires n <= |acts| && x in At(port, acts, n).rows && At(port, acts, n).rows[x].approvedBy != ""
    ensures i < n && At(port, acts, n).rows[x].approvedAt.Some?
    ensures ApprovedAtStep(port, acts, i, x, At(port, acts, n).rows[x].approvedBy, At(port, acts, n).rows[x].approvedAt.value)
    decreases n
  {
    hide Inv, Step, ApprovedAtStep;
    if n == 0 {
      assert false;
    } else {
      OneStep(port, acts, n - 1);
      var s, s' := At(port, acts, n - 1), At(port, acts, n);
      if x in s.rows && s.rows[x].approvedBy != "" {
        i := ApprovalWasGiven(port, acts, n - 1, x);
      } else {
        ApprovalAppears(s, port, acts[n - 1], x);
        i := n - 1;
        ApprovalHere(port, acts, i, x);
      }
    }
  }

  lemma ApprovalHere(port: bool, acts: seq<Action>, i: nat, x: UUID)
    requires i < |acts| && acts[i].CommitApprove? && FlightOf(At(port, acts, i), acts[i].q).Approving?
    requires x in At(port, acts, i).rows && x in At(port, acts, i + 1).rows
    requires At(port, acts, i).rows[x].stage == Review && At(port, acts, i).rows[x].status == AwaitingApproval
    requires var r := At(port, acts, i + 1).rows[x];
             r.Approved() && r.approvedBy == FlightOf(At(port, acts, i), acts[i].q).actor && r.approvedAt == Some(acts[i].now)
    ensures ApprovedAtStep(port, acts, i, x, At(port, acts, i + 1).rows[x].approvedBy, acts[i].now)
  {
    hide At;
  }

  /** A pipeline in publish or complete was approved by a named human, earlier in the run. */
  lemma PublishedMeansApproved(port: bool, acts: seq<Action>, n: nat, x: UUID) returns (i: nat)
    requires n <= |acts| && x in At(port, acts, n).rows && At(port, acts, n).rows[x].stage in {Publish, Complete}
    ensures i < n && At(port, acts, n).rows[x].HumanApproved()
    ensures ApprovedAtStep(port, acts, i, x, At(port, acts, n).rows[x].approvedBy, At(port, acts, n).rows[x].approvedAt.value)
  {
    Reachable(port, acts[..n]);
    assert RowOk(At(port, acts, n).rows[x]);
    i := ApprovalWasGiven(port, acts, n, x);
  }

  /**
   * The publisher is called only by an advance to publish. Whoever makes that call, through Advance
   * or through Retry, works on a copy in review whose approval was given earlier in the run.
   */
  lemma PublisherIsCalledOnlyWhenApproved(port: bool, acts: seq<Action>, n: nat, q: nat) returns (i: nat)
    requires n <= |acts| && FlightOf(At(port, acts, n), q).Advancing? && FlightOf(At(port, acts, n), q).to == Publish
    ensures var p := FlightOf(At(port, acts, n), q).p;
            && p.stage == Review && p.Approved() && i < n
            && ApprovedAtStep(port, acts, i, p.id, p.approvedBy, p.approvedAt.value)
  {
    hide ApprovedAtStep;
    Reachable(port, acts[..n]);
    var s := At(port, acts, n);
    var f := s.flights[q];
    assert FlightOk(s.rows, f);
    i := CopyWasStored(port, acts, n, q);
    var k := i;
    i := ApprovalWasGiven(port, acts, k, f.p.id);
  }

  /** A copy in flight was, but for the publication, the stored row at some moment. */
  lemma {:induction false} CopyWasStored(port: bool, acts: seq<Action>, n: nat, q: nat) returns (i: nat)
    requires n <= |acts| && !FlightOf(At(port, acts, n), q).Idle?
    ensures var p := FlightOf(At(port, acts, n), q).p;
            i <= n && p.id in At(port, acts, i).rows && Same(p, At(port, acts, i).rows[p.id])
    decreases n
  {
    hide Inv, Step, Same;
    if n == 0 {
      assert false;
    } else {
      OneStep(port, acts, n - 1);
      if FlightOf(At(port, acts, n), q) == FlightOf(At(port, acts, n - 1), q) {
        i := CopyWasStored(port, acts, n - 1, q);
      } else {
        i := n;
        FlightIsRead(At(port, acts, n - 1), port, acts[n - 1], q);
      }
    }
  }

  lemma FlightIsRead(s: System, port: bool, a: Action, q: nat)
    requires Inv(s) && !FlightOf(Step(s, port, a), q).Idle? && FlightOf(Step(s, port, a), q) != FlightOf(s, q)
    ensures var s', p := Step(s, port, a), FlightOf(Step(s, port, a), q).p;
            p.id in s'.rows && Same(p, s'.rows[p.id])
  {
    hide Inv, Step, Same;
    if a.CommitReset? { ResetIsRead(s, port, a, q); } else { StartIsRead(s, port, a, q); }
  }

  lemma StartIsRead(s: System, port: bool, a: Action, q: nat)
    requires !a.CommitReset?
    requires Inv(s) && !FlightOf(Step(s, port, a), q).Idle? && FlightOf(Step(s, port, a), q) != FlightOf(s, q)
    ensures var s', p := Step(s, port, a), FlightOf(Step(s, port, a), q).p;
            p.id in s'.rows && Same(p, s'.rows[p.id])
  {
    hide Moved, CanAdvance, KeysOk, Update, ApprovedRow, RowOk, PipelineDomain.Create;
  }

  lemma ResetIsRead(s: System, port: bool, a: Action, q: nat)
    requires a.CommitReset?
    requires Inv(s) && !FlightOf(Step(s, port, a), q).Idle? && FlightOf(Step(s, port, a), q) != FlightOf(s, q)
    ensures var s', p := Step(s, port, a), FlightOf(Step(s, port, a), q).p;
            p.id in s'.rows && Same(p, s'.rows[p.id])
  {
    hide RowOk, KeysOk, KeyFree, StageStatusValid, Reset;
  }

  /** A write that commits replaces exactly the row its copy was read from: no update is lost. */
  lemma NoUpdateIsLost(port: bool, acts: seq<Action>, i: nat, x: UUID)
    requires i < |acts| && (acts[i].CommitAdvance? || acts[i].CommitApprove? || acts[i].CommitReset?)
    requires x in At(port, acts, i).rows && x in At(port, acts, i + 1).rows && At(port, acts, i).rows[x] != At(port, acts, i + 1).rows[x]
    ensures var f := FlightOf(At(port, acts, i), acts[i].q);
            !f.Idle? && f.p.id == x && Same(f.p, At(port, acts, i).rows[x])
            && At(port, acts, i + 1).rows[x].version == f.p.version + 1
  {
    hide RowOk, Reset, Moved, CanAdvance, KeysOk, KeyFree, StageStatusValid;
    OneStep(port, acts, i);
    var s, a := At(port, acts, i), acts[i];
    assert FlightOk(s.rows, FlightOf(s, a.q));
    CommitDerives(s, port, a);
  }

  lemma CommitDerives(s: System, port: bool, a: Action)
    requires Inv(s) && (a.CommitAdvance? || a.CommitApprove? || a.CommitReset?)
    ensures var f, s' := FlightOf(s, a.q), Step(s, port, a);
            forall x | x in s.rows && s'.rows[x] != s.rows[x] ::
              !f.Idle? && f.p.id == x && s.rows[x].version == f.p.version && s'.rows[x].version == f.p.version + 1
  {
    hide RowOk, Reset, Moved, CanAdvance, KeysOk, KeyFree, StageStatusValid;
    var f := FlightOf(s, a.q);
    match a
    case CommitAdvance(q, io, now) =>
      if f.Advancing? {
        assert FlightOk(s.rows, s.flights[q]);
        MovedOk(f.p, f.to, io, port, now);
        assert f.p.version >= 1 by { RowFacts(f.p); }
      }
    case CommitApprove(q, io, now) =>
      if f.Approving? {
        assert FlightOk(s.rows, s.flights[q]);
        assert f.p.version >= 1 by { RowFacts(f.p); }
      }
    case CommitReset(q, now) =>
      if f.Retrying? {
        assert FlightOk(s.rows, s.flights[q]);
        ResetPassesTheGate(f.p, now);
        assert f.p.version >= 1 by { RowFacts(f.p); }
      }
    case _ =>
  }

  // ---------------------------------------------------------------- the work behind a stage

  /** The action at i took x into stage t: an advance whose ports answered as that stage needs. */
  predicate WorkedInto(port: bool, acts: seq<Action>, i: nat, x: UUID, t: Stage)
    requires i < |acts|
  {
    && acts[i].CommitAdvance?
    && var f := FlightOf(At(port, acts, i), acts[i].q);
       && f.Advancing? && f.to == t && f.p.id == x && WorkDone(f.p, t, acts[i].io, port)
       && x in At(port, acts, i + 1).rows && At(port, acts, i + 1).rows[x].stage == t
       && Worked(f.p, At(port, acts, i + 1).rows[x], t, acts[i].io, port)
  }

  lemma StageMovesByWork(s: System, port: bool, a: Action, x: UUID)
    requires Inv(s) && x in s.rows && x in Step(s, port, a).rows && Step(s, port, a).rows[x].stage != s.rows[x].stage
    ensures a.CommitAdvance? && FlightOf(s, a.q).Advancing?
    ensures var f, r' := FlightOf(s, a.q), Step(s, port, a).rows[x];
            f.p.id == x && f.to == r'.stage && WorkDone(f.p, f.to, a.io, port) && Worked(f.p, r', f.to, a.io, port)
  {
    hide RowOk, Moved, CanAdvance, KeysOk, KeyFree, StageStatusValid, WorkDone, Worked;
    if !a.CommitAdvance? { OthersKeepStage(s, port, a, x); }
    if FlightOf(s, a.q).Advancing? {
      var f := s.flights[a.q];
      assert FlightOk(s.rows, f);
      RowFacts(f.p);
      MovedOk(f.p, f.to, a.io, port, a.now);
      MovedMeans(f.p, f.to, a.io, port, a.now);
      var m := Moved(f.p, f.to, a.io, port, a.now);
      if m.Entered? { Restamped(f.p, m.p, f.to, a.io, port, Held(m.p) + 1, a.now); }
    }
  }

  lemma OthersKeepStage(s: System, port: bool, a: Action, x: UUID)
    requires Inv(s) && x in s.rows && !a.CommitAdvance?
    ensures x in Step(s, port, a).rows && Step(s, port, a).rows[x].stage == s.rows[x].stage
  {
    hide RowOk, Reset, CanAdvance, AdvanceStart, ApproveStart, RetryStart, KeysOk, KeyFree, StageStatusValid;
    if a.CommitReset? && FlightOf(s, a.q).Retrying? {
      assert FlightOk(s.rows, s.flights[a.q]);
      ResetPassesTheGate(s.flights[a.q].p, a.now);
      RowFacts(s.flights[a.q].p);
    }
    if a.CommitApprove? && FlightOf(s, a.q).Approving? {
      assert FlightOk(s.rows, s.flights[a.q]);
      RowFacts(s.flights[a.q].p);
    }
  }

  /** The version and instant a write stamps are no part of the work. */
  lemma Restamped(p: Pipeline, q: Pipeline, to: Stage, io: Ports, port: bool, version: int, now: Time)
    requires WorkDone(p, to, io, port) && Worked(p, q, to, io, port)
    ensures Worked(p, q.(version := version, updatedAt := now), to, io, port)
  {
    hide BoundReference;
  }

  /**
   * Every stage a pipeline is in or has passed was entered earlier in the run by an advance whose ports
   * answered as it needs: research and script written, the review answered yes, the publication out.
   */
  lemma {:induction false} StagesAreEnteredByWork(port: bool, acts: seq<Action>, n: nat, x: UUID, t: Stage) returns (i: nat)
    requires n <= |acts| && x in At(port, acts, n).rows && t != Research && Rank(t) <= Rank(At(port, acts, n).rows[x].stage)
    ensures i < n && WorkedInto(port, acts, i, x, t)
    decreases n
  {
    hide Inv, Step, WorkDone, Worked;
    if n == 0 {
      assert false;
    } else {
      OneStep(port, acts, n - 1);
      var s, s' := At(port, acts, n - 1), At(port, acts, n);
      if x in s.rows && Rank(t) <= Rank(s.rows[x].stage) {
        i := StagesAreEnteredByWork(port, acts, n - 1, x, t);
      } else {
        i := n - 1;
        if x in s.rows { StageMovesByWork(s, port, acts[i], x); } else { NewAtResearch(s, port, acts[i], x); }
      }
    }
  }

  lemma NewAtResearch(s: System, port: bool, a: Action, x: UUID)
    requires x !in s.rows && x in Step(s, port, a).rows
    ensures Step(s, port, a).rows[x].stage == Research
  {
    hide Moved, Reset, CanAdvance, AdvanceStart, ApproveStart, RetryStart, KeysOk, KeyFree, StageStatusValid, RowOk;
  }

  /** In every reachable state each status goes with its stages, and only unapproved stages lack an approver. */
  lemma StoredPairs(port: bool, acts: seq<Action>, n: nat, x: UUID)
    requires n <= |acts| && x in At(port, acts, n).rows
    ensures var r := At(port, acts, n).rows[x];
            && (r.status == Created ==> r.stage == Research) && (r.status == Active ==> r.stage in {Script, Publish})
            && (r.status in {AwaitingApproval, ApprovedStatus} ==> r.stage == Review) && (r.status == Done <==> r.stage == Complete)
            && (r.status == Failed ==> r.stage in {Research, Script, Review})
            && (r.approvedBy != "" <==> r.approvedAt.Some?)
            && (r.approvedBy != "" <==> r.stage in {Publish, Complete} || (r.stage == Review && r.status != AwaitingApproval))
  {
    Reachable(port, acts[..n]);
    assert RowOk(At(port, acts, n).rows[x]);
  }
}
