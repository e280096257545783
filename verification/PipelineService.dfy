/**
 * The orchestration service over its store. Each method drives the store through the transactions
 * the protocol interleaves: run undisturbed, what it leaves is what those actions leave.
 */
module PipelineService {
  import opened Wrappers
  import opened PipelineDomain
  import PipelineProtocol
  import opened PipelineRuns

  // ---------------------------------------------------------------- the adapters

  class PipelineStore {
    var rows: Rows

    ghost predicate Valid()
      reads this
    {
      Sound(rows)
    }

    constructor ()
      ensures Valid() && rows == map[]
    {
      rows := map[];
    }

    method Get(ws: UUID, id: UUID) returns (res: Result<Pipeline, PipelineError>)
      ensures res == if id in rows && rows[id].workspace == ws then Success(rows[id]) else Failure(NotFound)
    {
      if id !in rows || rows[id].workspace != ws {
        return Failure(NotFound);
      }
      return Success(rows[id]);
    }

    method GetByIdempotency(ws: UUID, key: string) returns (res: Result<Pipeline, PipelineError>)
      ensures res.Success? ==> exists x :: x in KeyHolders(rows, ws, key) && res.value == rows[x]
      ensures res.Failure? <==> KeyHolders(rows, ws, key) == {}
      ensures res.Failure? ==> res.error == NotFound
    {
      var keyed := KeyHolders(rows, ws, key);
      if keyed == {} {
        return Failure(NotFound);
      }
      var x :| x in keyed;
      return Success(rows[x]);
    }

    /** A failed insert or a lost connection leaves the table as it was. */
    method Create(p: Pipeline, fails: bool) returns (res: Result<Pipeline, PipelineError>)
      modifies this
      ensures (rows, res) == if fails then (old(rows), Failure(Database)) else PipelineDomain.Create(old(rows), p)
    {
      if fails || p.id in rows || !KeyFree(rows, p) {
        return Failure(Database);
      }
      rows := rows[p.id := p];
      return Success(p);
    }

    /** The compare-and-swap; the caller's copy comes back under its new version. */
    method Update(p: Pipeline, now: Time) returns (res: Result<Pipeline, PipelineError>)
      modifies this
      ensures (rows, res) == PipelineDomain.Update(old(rows), p, now)
    {
      var previous := p.version;
      if previous < 1 {
        previous := 1;
      }
      var q := p.(updatedAt := now);
      if p.id !in rows || rows[p.id].workspace != p.workspace || rows[p.id].version != previous {
        return Failure(ConcurrentUpdate);
      }
      if !StageStatusValid(p.stage, p.status) || !KeyFree(rows, p) {
        return Failure(Database);
      }
      q := q.(version := previous + 1);
      rows := rows[p.id := q];
      return Success(q);
    }
  }

  datatype Event = Event(name: string, id: UUID, workspace: UUID, stage: Stage)

  class EventSink {
    var sent: seq<Event>

    constructor ()
      ensures sent == []
    {
      sent := [];
    }

    method PublishPipeline(e: Event, fails: bool) returns (ok: bool)
      modifies this
      ensures ok == !fails && sent == if fails then old(sent) else old(sent) + [e]
    {
      if !fails { sent := sent + [e]; }
      ok := !fails;
    }
  }

  /** "pipeline." and the stage. */
  function StageEvent(s: Stage): string {
    match s
    case Research => "pipeline.research"
    case Script => "pipeline.script"
    case Review => "pipeline.review"
    case Publish => "pipeline.publish"
    case Complete => "pipeline.complete"
  }

  /** The event that announces an entered stage. */
  function EnteredEvent(p: Pipeline): Event {
    Event(if p.stage == Review then "pipeline.review_ready" else StageEvent(p.stage), p.id, p.workspace, p.stage)
  }

  /** The event that announces the stored state again. */
  function CurrentEvent(p: Pipeline): Event {
    if p.stage == Review && p.status == ApprovedStatus then Event("pipeline.review_approved", p.id, p.workspace, Review)
    else EnteredEvent(p)
  }

  /** Whatever state is announced, a worker reads the event's stage back from its name. */
  lemma EventsNameTheirStage(p: Pipeline)
    ensures EventKind(CurrentEvent(p).name) == Some(p.stage) && EventKind(EnteredEvent(p).name) == Some(p.stage)
    // Readiness for review and its approval are told apart: only the latter is a command to go on.
    ensures p.stage == Review ==> EnteredEvent(p).name == "pipeline.review_ready"
    ensures p.stage == Review ==>
              CurrentEvent(p).name == if p.status == ApprovedStatus then "pipeline.review_approved" else "pipeline.review_ready"
    ensures (CurrentEvent(p).id, CurrentEvent(p).workspace, CurrentEvent(p).stage) == (p.id, p.workspace, p.stage)
    ensures (EnteredEvent(p).id, EnteredEvent(p).workspace, EnteredEvent(p).stage) == (p.id, p.workspace, p.stage)
  {
    if p.stage == Review { ReviewEvents(); } else { StageEvents(p.stage); }
  }

  lemma StageEvents(s: Stage)
    ensures EventKind(StageEvent(s)) == Some(s)
  {
    TrimNothing(StageEvent(s));
  }

  lemma ReviewEvents()
    ensures EventKind("pipeline.review_ready") == Some(Review) && EventKind("pipeline.review_approved") == Some(Review)
  {
    TrimNothing("pipeline.review_ready");
    TrimNothing("pipeline.review_approved");
  }

  lemma TrimNothing(s: string)
    requires s != "" && !IsSpace(s[0]) && !IsSpace(s[|s| - 1])
    ensures Trim(s) == s
  {
  }

  // ---------------------------------------------------------------- the service

  class Service {
    const store: PipelineStore
    const events: EventSink
    const port: bool

    constructor (store: PipelineStore, events: EventSink, port: bool)
      ensures this.store == store && this.events == events && this.port == port
    {
      this.store, this.events, this.port := store, events, port;
    }

    method GetOwned(ws: UUID, id: UUID) returns (res: Result<Pipeline, PipelineError>)
      ensures res == PipelineDomain.Get(store.rows, ws, id)
    {
      if ws == NIL || id == NIL {
        return Failure(InvalidInput);
      }
      res := store.Get(ws, id);
    }

    /**
     * Works the stage and writes the outcome back: the next stage, or the failure. The pipeline the
     * caller hands in is updated on the way, one field after another.
     */
    method DoAdvance(p0: Pipeline, to: Stage, io: Ports, now: Time, lost: bool)
      returns (updated: Option<Pipeline>, err: Option<PipelineError>)
      modifies store, events
      ensures var m := Moved(p0, to, io, port, now);
              && store.rows == (if m.Refused? then old(store.rows) else PipelineDomain.Update(old(store.rows), m.p, now).0)
              && (updated.Some? <==> m.Entered? && PipelineDomain.Update(old(store.rows), m.p, now).1.Success?)
              && (updated.Some? ==> Success(updated.value) == PipelineDomain.Update(old(store.rows), m.p, now).1)
              && events.sent == old(events.sent) + (if updated.Some? && !lost then [EnteredEvent(updated.value)] else [])
      ensures updated.Some? ==> Landed(updated.value, store.rows, p0.id, to)
      ensures err == None <==> updated.Some? && !lost
      ensures err != Some(ConsecutiveAdvance)
      // Entered exactly if the ports answered as needed and the copy was current; else failed where it was, or untouched.
      ensures updated.Some? <==> WorkDone(p0, to, io, port) && Current(old(store.rows), p0)
      ensures updated.Some? ==> Worked(p0, updated.value, to, io, port)
      ensures !WorkDone(p0, to, io, port) && to == Publish && port && !Releasable(p0) ==> store.rows == old(store.rows)
      ensures !WorkDone(p0, to, io, port) && !(to == Publish && port && !Releasable(p0)) && Current(old(store.rows), p0) ==>
                p0.id in store.rows && FailedWhereItWas(p0, store.rows[p0.id], io.message)
      ensures forall x | x in old(store.rows) && x != p0.id :: x in store.rows && store.rows[x] == old(store.rows)[x]
    {
      hide BoundReference, FailureReason, KeyFree, StageStatusValid, WorkDone, Worked, FailedWhereItWas, Current, Landed, Update;
      MovedWrites(store.rows, p0, to, io, port, now);
      var (p, ok) := StageWork(p0, to, io, port);
      if !ok {
        p := p.(status := Failed);
        p := p.(failure := FailureReason(io.message));
        p := p.(updatedAt := now);
        var _ := store.Update(p, now);
        return None, Some(StageFailed);
      }
      if to == Review && port {
        if io.prepare.None? {
          p := p.(status := Failed, failure := FailureReason(io.message), updatedAt := now);
          var _ := store.Update(p, now);
          return None, Some(StageFailed);
        }
        p := p.(publication := io.prepare);
      }
      if to == Publish && port {
        if p.publication.None? || !p.Approved() {
          return None, Some(ApprovalRequired);
        }
        if io.release.None? {
          p := p.(status := Failed, failure := FailureReason(io.message), updatedAt := now);
          var _ := store.Update(p, now);
          return None, Some(StageFailed);
        }
        p := p.(published := io.release.value);
      }
      p := p.(stage := to);
      match to {
        case Script => p := p.(status := Active);
        case Publish => p := p.(status := Active);
        case Review => p := p.(status := AwaitingApproval);
        case Complete => p := p.(status := Done);
        case Research =>
      }
      p := p.(failure := "", updatedAt := now);
      var res := store.Update(p, now);
      if res.Failure? {
        UpdateErrors(old(store.rows), p, now);
        return None, Some(res.error);
      }
      var sent := events.PublishPipeline(EnteredEvent(res.value), lost);
      return Some(res.value), if sent then None else Some(Database);
    }

    /** What doAdvance's write amounts to, whichever way the work went. */
    lemma MovedWrites(rows: Rows, p: Pipeline, to: Stage, io: Ports, port: bool, now: Time)
      ensures var m := Moved(p, to, io, port, now);
              var (rows', r) := if m.Refused? then (rows, Failure(ApprovalRequired)) else PipelineDomain.Update(rows, m.p, now);
              && (m.Entered? && r.Success? <==> WorkDone(p, to, io, port) && Current(rows, p))
              && (m.Entered? && r.Success? ==> Worked(p, r.value, to, io, port) && Landed(r.value, rows', p.id, to))
              && (m.Refused? <==> to == Publish && port && !Releasable(p))
              && (m.Broken? && Current(rows, p) ==> p.id in rows' && FailedWhereItWas(p, rows'[p.id], io.message))
              && (m.Broken? <==> !WorkDone(p, to, io, port) && !m.Refused?)
              && forall x | x in rows && x != p.id :: x in rows' && rows'[x] == rows[x]
    {
      hide Moved, BoundReference, FailureReason, Current, WorkDone;
      MovedMeans(p, to, io, port, now);
      MovedKeepsIdentity(p, to, io, port, now);
      var m := Moved(p, to, io, port, now);
      if !m.Refused? { CurrentIsWritable(rows, p, m.p, now); }
      if m.Entered? { Restamped(p, m.p, to, io, port, Held(m.p) + 1, now); }
    }

    lemma CurrentIsWritable(rows: Rows, p: Pipeline, q: Pipeline, now: Time)
      requires Derived(p, q) && StageStatusValid(q.stage, q.status)
      ensures PipelineDomain.Update(rows, q, now).1.Success? <==> Current(rows, p)
    {
      assert q.key != "" ==> forall x | x in rows :: x in KeyHolders(rows, q.workspace, q.key) <==> rows[x].workspace == q.workspace && rows[x].key == q.key;
      if q.key != "" && Current(rows, p) {
        assert forall x | x in KeyHolders(rows, q.workspace, q.key) :: x == q.id;
      }
    }

    lemma MovedKeepsIdentity(p: Pipeline, to: Stage, io: Ports, port: bool, now: Time)
      ensures var m := Moved(p, to, io, port, now);
              && (!m.Refused? ==> Derived(p, m.p))
              && (m.Entered? ==> StageStatusValid(m.p.stage, m.p.status)) && (m.Broken? ==> m.p.status == Failed)
    {
      hide BoundReference, FailureReason;
    }

    lemma UpdateErrors(rows: Rows, p: Pipeline, now: Time)
      ensures var r := PipelineDomain.Update(rows, p, now).1; r.Failure? ==> r.error in {ConcurrentUpdate, Database}
    {
    }

    /**
     * Creates a pipeline, or returns the one the key already names. The rival is another process's
     * insert that lands between the lookup and the insert here; fails, a database that refuses this one.
     */
    method CreateWithIdempotency(ws: UUID, requestKey: string, id: UUID, rival: Option<Pipeline>, fails: bool, lost: bool, now: Time)
      returns (created: Option<Pipeline>, err: Option<PipelineError>)
      requires store.Valid()
      requires rival.Some? ==> PipelineProtocol.RowOk(rival.value)
      modifies store, events
      ensures store.Valid()
      ensures ws == NIL ==> Declined(created, err, WorkspaceMismatch) && store.rows == old(store.rows) && events.sent == old(events.sent)
      ensures ws != NIL && |Trim(requestKey)| > 128 ==>
                Declined(created, err, InvalidInput) && store.rows == old(store.rows) && events.sent == old(events.sent)
      // A key in use: its pipeline, and nothing new.
      ensures ws != NIL && |Trim(requestKey)| <= 128 && KeyUsed(old(store.rows), ws, Trim(requestKey)) ==>
                && store.rows == old(store.rows)
                && ReturnsHolder(store.rows, ws, Trim(requestKey), created, err, old(events.sent), events.sent, lost)
      // No key, or a free one: a new pipeline, unless the insert is refused; and then whoever took the key meanwhile.
      ensures ws != NIL && |Trim(requestKey)| <= 128 && !KeyUsed(old(store.rows), ws, Trim(requestKey)) ==>
                var rows, p := WithRival(old(store.rows), rival), New(id, ws, Trim(requestKey), now);
                if !fails && id !in rows && !KeyUsed(rows, ws, Trim(requestKey)) then
                  && store.rows == rows[id := p] && created == Some(p) && (err == None <==> !lost)
                  && Newborn(p, id, ws, Trim(requestKey), now) && (p.key != "" ==> KeyUsed(store.rows, ws, p.key))
                  && events.sent == old(events.sent) + (if lost then [] else [StartEvent(id, ws)])
                else if KeyUsed(rows, ws, Trim(requestKey)) then
                  && store.rows == rows
                  && ReturnsHolder(rows, ws, Trim(requestKey), created, err, old(events.sent), events.sent, lost)
                else
                  Declined(created, err, Database) && store.rows == rows && events.sent == old(events.sent)
    {
      hide PipelineProtocol.RowOk, PipelineProtocol.KeysOk, Trim, KeyFree, ReturnsHolder, KeyUsed, Newborn;
      if ws == NIL {
        return None, Some(WorkspaceMismatch);
      }
      var key := Trim(requestKey);
      if |key| > 128 {
        return None, Some(InvalidInput);
      }
      UsedMeansHeld(ws, key);
      NewIsNewborn(id, ws, key, now);
      if key != "" {
        var existing := store.GetByIdempotency(ws, key);
        if existing.Success? {
          created, err := Replay(ws, key, existing.value, lost);
          return;
        }
      }
      if rival.Some? {
        CreateKeeps(store.rows, rival.value);
        var _ := store.Create(rival.value, false);
      }
      var p := New(id, ws, key, now);
      NewOk(id, ws, key, now);
      CreateKeeps(store.rows, p);
      if id !in store.rows { FreeMeansUnused(store.rows, p); }
      var stored := store.Create(p, fails);
      if stored.Failure? {
        if key != "" {
          var existing := store.GetByIdempotency(ws, key);
          if existing.Success? {
            created, err := Replay(ws, key, existing.value, lost);
            return;
          }
        }
        return None, Some(stored.error);
      }
      assert key != "" ==> id in KeyHolders(store.rows, ws, key);
      var sent := events.PublishPipeline(StartEvent(id, ws), lost);
      return Some(stored.value), if sent then None else Some(Database);
    }

    lemma UsedMeansHeld(ws: UUID, key: string)
      ensures forall rows: Rows {:trigger KeyUsed(rows, ws, key)} :: KeyUsed(rows, ws, key) <==> key != "" && KeyHolders(rows, ws, key) != {}
    {
      forall rows: Rows {:trigger KeyUsed(rows, ws, key)} ensures KeyUsed(rows, ws, key) <==> key != "" && KeyHolders(rows, ws, key) != {} {
        if KeyUsed(rows, ws, key) {
          var x :| x in rows && rows[x].workspace == ws && rows[x].key == key;
          assert x in KeyHolders(rows, ws, key);
        }
      }
    }

    /** The index lets a new pipeline in exactly if nobody of the workspace holds its key. */
    lemma FreeMeansUnused(rows: Rows, p: Pipeline)
      requires p.id !in rows
      ensures KeyFree(rows, p) <==> !KeyUsed(rows, p.workspace, p.key)
    {
      if KeyUsed(rows, p.workspace, p.key) {
        var x :| x in rows && rows[x].workspace == p.workspace && rows[x].key == p.key;
        assert x in KeyHolders(rows, p.workspace, p.key);
      }
      assert !KeyUsed(rows, p.workspace, p.key) && p.key != "" ==> KeyHolders(rows, p.workspace, p.key) == {};
    }

    lemma NewIsNewborn(id: UUID, ws: UUID, key: string, now: Time)
      ensures Newborn(New(id, ws, key, now), id, ws, key, now)
    {
    }

    /** The pipeline a key names is returned; if it never moved, its first event may have been lost, and is sent again. */
    method Replay(ws: UUID, key: string, existing: Pipeline, lost: bool) returns (created: Option<Pipeline>, err: Option<PipelineError>)
      requires store.Valid() && key != "" && existing.id in KeyHolders(store.rows, ws, key) && existing == store.rows[existing.id]
      modifies events
      ensures ReturnsHolder(store.rows, ws, key, created, err, old(events.sent), events.sent, lost)
    {
      OneHolder(store.rows, ws, key, existing.id);
      var sent := true;
      if existing.stage == Research && existing.status == Created {
        sent := events.PublishPipeline(StartEvent(existing.id, ws), lost);
      }
      return Some(existing), if sent then None else Some(Database);
    }

    /** Advance: the gate, then the work. It leaves what its two actions leave. */
    method Advance(ws: UUID, id: UUID, start: Stage, to: Stage, allowed: bool, io: Ports, now: Time, lost: bool)
      returns (updated: Option<Pipeline>, err: Option<PipelineError>)
      requires store.Valid()
      modifies store, events
      ensures store.Valid()
      ensures store.rows == if allowed then Advanced(old(store.rows), port, ws, id, start, to, io, now) else old(store.rows)
      // A live pipeline of the workspace, at the stage named, is worked to the next one; to publish, only once approved.
      ensures if allowed && ws != NIL && id != NIL && id in old(store.rows) && old(store.rows)[id].workspace == ws
                 && old(store.rows)[id].stage == start && NextStage(start) == Success(to)
                 && old(store.rows)[id].status !in {Done, Failed} && (to == Publish ==> old(store.rows)[id].status == ApprovedStatus)
              then Outcome(old(store.rows), store.rows, old(store.rows)[id], to, io, port, now)
              else store.rows == old(store.rows)
      ensures updated.Some? <==> StageMoved(old(store.rows), store.rows, id)
      ensures updated.Some? ==> Landed(updated.value, store.rows, id, to)
      ensures events.sent == old(events.sent) + (if updated.Some? && !lost then [EnteredEvent(updated.value)] else [])
      ensures err == None <==> updated.Some? && !lost
      ensures err == Some(ConsecutiveAdvance) <==>
                allowed && ws != NIL && id != NIL && id in old(store.rows) && old(store.rows)[id].workspace == ws && old(store.rows)[id].stage != start
    {
      hide Moved, CanAdvance, Sound, KeyFree, StageStatusValid, Advanced, Outcome, WorkDone, Worked, FailedWhereItWas, Current, Update;
      AdvancedOk(store.rows, port, ws, id, start, to, io, now);
      AdvanceUnfolds(store.rows, port, ws, id, start, to, io, now);
      if ws == NIL {
        return None, Some(WorkspaceMismatch);
      }
      if !allowed {
        return None, Some(RateLimited);
      }
      var g := GetOwned(ws, id);
      if g.Failure? {
        return None, Some(g.error);
      }
      var p := g.value;
      if p.stage != start {
        return None, Some(ConsecutiveAdvance);
      }
      var refusal := CanAdvance(to, p.stage, p.status);
      CanAdvanceIff(to, p.stage, p.status);
      if refusal.Some? {
        RefusalKinds(to, p);
        return None, refusal;
      }
      MovedOutcome(store.rows, p, to, io, port, now);
      updated, err := DoAdvance(p, to, io, now, lost);
    }

    /** Approve: the only way past review, by a named actor. Repeated, it only announces the approval again. */
    method Approve(ws: UUID, id: UUID, actor: string, io: Ports, now: Time, lost: bool)
      returns (updated: Option<Pipeline>, err: Option<PipelineError>)
      requires store.Valid()
      modifies store, events
      ensures store.Valid()
      ensures store.rows == ApprovedRows(old(store.rows), port, ws, id, actor, io, now)
      // Waiting in review, and its publication approved as well where there is a port: approved by this actor, now.
      ensures if Trim(actor) != "" && ws != NIL && id != NIL && id in old(store.rows) && old(store.rows)[id].workspace == ws
                 && old(store.rows)[id].stage == Review && old(store.rows)[id].status == AwaitingApproval
                 && (port ==> old(store.rows)[id].publication.Some? && io.approve)
              then store.rows == old(store.rows)[id := old(store.rows)[id].(
                     status := ApprovedStatus, approvedBy := Trim(actor), approvedAt := Some(now),
                     failure := "", updatedAt := now, version := old(store.rows)[id].version + 1)]
              else store.rows == old(store.rows)
      // Answered exactly when the pipeline now stands approved in review, by this call or an earlier one.
      ensures updated.Some? <==>
                Trim(actor) != "" && ws != NIL && id != NIL && id in store.rows && store.rows[id].workspace == ws
                && store.rows[id].stage == Review && store.rows[id].Approved()
      ensures updated.Some? ==>
                && id in store.rows && updated.value == store.rows[id] && updated.value.Approved() && updated.value.stage == Review
                && events.sent == old(events.sent) + (if lost then [] else [Event("pipeline.review_approved", id, ws, Review)])
      ensures updated.None? ==> store.rows == old(store.rows) && events.sent == old(events.sent)
      ensures err == None <==> updated.Some? && !lost
    {
      hide PipelineProtocol.RowOk, PipelineProtocol.KeysOk, KeyFree, StageStatusValid, ApprovedRows, Sound, Update;
      ApproveUnfolds(store.rows, port, ws, id, actor, io, now);
      ApprovedRowsOk(store.rows, port, ws, id, actor, io, now);
      var who := Trim(actor);
      if who == "" {
        return None, Some(UnauthorizedActor);
      }
      var g := GetOwned(ws, id);
      if g.Failure? {
        return None, Some(g.error);
      }
      var p := g.value;
      if p.stage != Review {
        return None, Some(ApprovalRequired);
      }
      if p.status == ApprovedStatus && p.Approved() {
        var sent := events.PublishPipeline(CurrentEvent(p), lost);
        return Some(p), if sent then None else Some(Database);
      }
      if p.status != AwaitingApproval {
        return None, Some(ApprovalRequired);
      }
      if port {
        if p.publication.None? {
          return None, Some(ApprovalRequired);
        }
        if !io.approve {
          return None, Some(StageFailed);
        }
      }
      p := p.(status := ApprovedStatus);
      p := p.(approvedBy := who);
      p := p.(approvedAt := Some(now));
      p := p.(failure := "", updatedAt := now);
      var res := store.Update(p, now);
      if res.Failure? {
        return None, Reason(res);
      }
      var sent := events.PublishPipeline(Event("pipeline.review_approved", id, ws, Review), lost);
      return Some(res.value), if sent then None else Some(Database);
    }

    /** Retry: the reset is written first, then the failed stage is worked again. */
    method Retry(ws: UUID, id: UUID, actor: string, allowed: bool, io: Ports, now: Time, lost: bool)
      returns (updated: Option<Pipeline>, err: Option<PipelineError>)
      requires store.Valid()
      modifies store, events
      ensures store.Valid()
      ensures store.rows == if allowed then Retried(old(store.rows), port, ws, id, actor, io, now) else old(store.rows)
      // A failed pipeline is put back to where its stage is entered from, one retry counted, and worked from there.
      ensures if allowed && Trim(actor) != "" && ws != NIL && id != NIL && id in old(store.rows)
                 && old(store.rows)[id].workspace == ws && old(store.rows)[id].status == Failed
              then var p := Restored(old(store.rows)[id], now);
                   NextStage(p.stage).Success? && Outcome(old(store.rows)[id := p], store.rows, p, NextStage(p.stage).value, io, port, now)
              else store.rows == old(store.rows)
      ensures updated.Some? <==> StageMoved(old(store.rows), store.rows, id)
      ensures events.sent == old(events.sent) + (if updated.Some? && !lost then [EnteredEvent(updated.value)] else [])
      ensures updated.Some? ==>
                && id in old(store.rows) && old(store.rows)[id].status == Failed
                && NextStage(old(store.rows)[id].stage) == Success(updated.value.stage)
                && Landed(updated.value, store.rows, id, updated.value.stage)
                && updated.value.retryCount == old(store.rows)[id].retryCount + 1
      ensures err == None <==> updated.Some? && !lost
    {
      hide Moved, CanAdvance, Sound, KeyFree, StageStatusValid, Retried, Update, Reset, Outcome, WorkDone, Worked, FailedWhereItWas, Current, Restored;
      RetriedOk(store.rows, port, ws, id, actor, io, now);
      RetryUnfolds(store.rows, port, ws, id, actor, io, now);
      if Trim(actor) == "" {
        return None, Some(UnauthorizedActor);
      }
      if !allowed {
        return None, Some(RateLimited);
      }
      var g := GetOwned(ws, id);
      if g.Failure? {
        return None, Some(g.error);
      }
      var p := g.value;
      if p.status != Failed {
        return None, Some(InvalidTransition);
      }
      FailedIsEarly(store.rows, id);
      FailedCanReset(store.rows, ws, id, now);
      if p.stage == Complete {
        return None, Some(TerminalState);
      }
      RetryLands(store.rows, ws, id, io, port, now);
      RetryOutcome(store.rows, p, io, port, now);
      p := ResetToRetry(p, now);
      var res := store.Update(p, now);
      if res.Failure? {
        return None, Reason(res);
      }
      var next := NextStage(res.value.stage);
      if next.Failure? {
        return None, Some(TerminalState);
      }
      MovedKeepsCount(store.rows, res.value, next.value, io, port, now);
      updated, err := DoAdvance(res.value, next.value, io, now, lost);
    }
  }

  lemma FailedIsEarly(rows: Rows, id: UUID)
    requires Sound(rows) && id in rows && rows[id].status == Failed
    ensures rows[id].stage in {Research, Script, Review}
  {
    assert PipelineProtocol.RowOk(rows[id]);
  }

  /** A failed pipeline as it is written back: pipelines fail in research, script or, once approved, in review. */
  function Restored(p: Pipeline, now: Time): Pipeline {
    p.(status := match p.stage case Research => Created case Review => ApprovedStatus case _ => Active,
       retryCount := p.retryCount + 1, failure := "", version := p.version + 1, updatedAt := now)
  }

  lemma RetryOutcome(rows: Rows, p: Pipeline, io: Ports, port: bool, now: Time)
    requires Sound(rows) && p.id in rows && rows[p.id] == p && p.status == Failed
    ensures var (rows1, r) := Update(rows, Reset(p, now), now);
            && r == Success(Restored(p, now)) && rows1 == rows[p.id := r.value] && NextStage(r.value.stage).Success?
            && var to := NextStage(r.value.stage).value;
               var m := Moved(r.value, to, io, port, now);
               Outcome(rows1, if m.Refused? then rows1 else Update(rows1, m.p, now).0, r.value, to, io, port, now)
  {
    hide Moved, Outcome, PipelineProtocol.KeysOk, CanAdvance, KeyFree, StageStatusValid, WorkDone;
    assert PipelineProtocol.RowOk(p);
    ResetPassesTheGate(p, now);
    ResetIsSound(rows, p, now);
    ReadBack(rows, p, Reset(p, now), now);
    var (rows1, r) := Update(rows, Reset(p, now), now);
    MovedOutcome(rows1, r.value, NextStage(r.value.stage).value, io, port, now);
  }

  /** The failed stage's predecessor state, an approval on record counting. */
  method ResetToRetry(failed: Pipeline, now: Time) returns (p: Pipeline)
    ensures p == Reset(failed, now)
  {
    p := failed;
    match p.stage {
      case Review =>
        if p.HumanApproved() { p := p.(status := ApprovedStatus); } else { p := p.(status := AwaitingApproval); }
      case Research => p := p.(status := Created);
      case _ => p := p.(status := Active);
    }
    p := p.(retryCount := p.retryCount + 1);
    p := p.(failure := "");
    p := p.(updatedAt := now);
  }

  // ---------------------------------------------------------------- the worker's entry point

  class Handler {
    const svc: Service

    constructor (svc: Service)
      ensures this.svc == svc
    {
      this.svc := svc;
    }

    /**
     * One delivered event. If the pipeline is already past the event's stage and not failed, no row
     * changes and the only thing sent is the announcement of where the pipeline really is; otherwise
     * the event is worked as an advance.
     */
    method AdvanceFromEvent(ws: UUID, id: UUID, current: Stage, allowed: bool, io: Ports, now: Time, lost: bool)
      returns (updated: Option<Pipeline>, err: Option<PipelineError>)
      requires svc.store.Valid()
      modifies svc.store, svc.events
      ensures svc.store.Valid()
      ensures var old_ := old(svc.store.rows);
              svc.store.rows == if allowed && current != Complete
                                then Advanced(old_, svc.port, ws, id, current, NextStage(current).value, io, now) else old_
      ensures Overtaken(old(svc.store.rows), ws, id, current) && allowed ==>
                && svc.store.rows == old(svc.store.rows)
                && updated == Some(old(svc.store.rows)[id])
                && svc.events.sent == old(svc.events.sent) + (if lost then [] else [CurrentEvent(old(svc.store.rows)[id])])
      ensures !(Overtaken(old(svc.store.rows), ws, id, current) && allowed) ==>
                svc.events.sent == old(svc.events.sent) + (if updated.Some? && !lost then [EnteredEvent(updated.value)] else [])
      ensures err == None ==> updated.Some? && id in svc.store.rows && svc.store.rows[id] == updated.value
                              && IsAfter(updated.value.stage, current)
    {
      hide Advanced, Sound, CanAdvance;
      var next := NextStage(current);
      if next.Failure? {
        return None, Some(next.error);
      }
      ghost var rows := svc.store.rows;
      WrongStage(rows, svc.port, ws, id, current, next.value, io, now);
      updated, err := svc.Advance(ws, id, current, next.value, allowed, io, now, lost);
      if err != Some(ConsecutiveAdvance) {
        return;
      }
      var g := svc.GetOwned(ws, id);
      if g.Failure? {
        return;
      }
      if g.value.status != Failed && IsAfter(g.value.stage, current) {
        var sent := svc.events.PublishPipeline(CurrentEvent(g.value), lost);
        return Some(g.value), if sent then None else Some(Database);
      }
    }
  }

  /** The event is older than the pipeline, which has not failed since. */
  predicate Overtaken(rows: Rows, ws: UUID, id: UUID, current: Stage) {
    ws != NIL && id != NIL && id in rows && rows[id].workspace == ws && rows[id].status != Failed && IsAfter(rows[id].stage, current)
  }

  lemma WrongStage(rows: Rows, port: bool, ws: UUID, id: UUID, start: Stage, to: Stage, io: Ports, now: Time)
    ensures id in rows && rows[id].stage != start ==> Advanced(rows, port, ws, id, start, to, io, now) == rows
  {
  }

  // ---------------------------------------------------------------- undisturbed runs

  /** The pipeline an operation returns is the stored one, at the stage it went to. */
  predicate Landed(p: Pipeline, rows: Rows, id: UUID, to: Stage) {
    id in rows && rows[id] == p && p.stage == to
  }

  /** The copy is under the version the row has, and its key is its own. */
  predicate Current(rows: Rows, p: Pipeline) {
    && p.id in rows && rows[p.id].workspace == p.workspace && rows[p.id].version == (if p.version < 1 then 1 else p.version)
    && forall x | x in rows && x != p.id && p.key != "" :: !(rows[x].workspace == p.workspace && rows[x].key == p.key)
  }

  /** What working p towards a stage leaves of the table: the stage entered, the pipeline failed, or nothing changed. */
  predicate Outcome(rows: Rows, rows': Rows, p: Pipeline, to: Stage, io: Ports, port: bool, now: Time) {
    if to == Publish && port && !Releasable(p) then rows' == rows
    else
      && p.id in rows' && rows' == rows[p.id := rows'[p.id]]
      && rows'[p.id].version == p.version + 1 && rows'[p.id].updatedAt == now
      && if WorkDone(p, to, io, port) then Worked(p, rows'[p.id], to, io, port) else FailedWhereItWas(p, rows'[p.id], io.message)
  }

  lemma MovedOutcome(rows: Rows, p: Pipeline, to: Stage, io: Ports, port: bool, now: Time)
    requires Sound(rows) && p.id in rows && rows[p.id] == p && CanAdvance(to, p.stage, p.status) == None
    ensures var m := Moved(p, to, io, port, now);
            Outcome(rows, if m.Refused? then rows else Update(rows, m.p, now).0, p, to, io, port, now)
  {
    hide Moved, BoundReference, FailureReason, Update, WorkDone, CanAdvance, PipelineProtocol.KeysOk;
    MovedMeans(p, to, io, port, now);
    assert PipelineProtocol.RowOk(p);
    MovedOk(p, to, io, port, now);
    var m := Moved(p, to, io, port, now);
    if !m.Refused? { ReadBack(rows, p, m.p, now); }
  }

  /** The stored pipeline has changed stage. */
  predicate StageMoved(rows: Rows, rows': Rows, id: UUID) {
    id in rows && id in rows' && rows'[id].stage != rows[id].stage
  }

  /** A copy just read is written back without fail. */
  lemma ReadBack(rows: Rows, p: Pipeline, p': Pipeline, now: Time)
    requires Sound(rows) && p.id in rows && rows[p.id] == p && Derived(p, p') && PipelineProtocol.RowOk(p')
    ensures var (rows', r) := Update(rows, p', now);
            r == Success(p'.(version := Held(p') + 1, updatedAt := now)) && rows' == rows[p.id := r.value]
  {
    KeyStillFree(rows, p');
  }

  function Alone(rows: Rows): PipelineProtocol.System {
    PipelineProtocol.System(rows, map[])
  }

  function Advanced(rows: Rows, port: bool, ws: UUID, id: UUID, start: Stage, to: Stage, io: Ports, now: Time): Rows {
    var s := PipelineProtocol.Step(Alone(rows), port, PipelineProtocol.BeginAdvance(0, ws, id, start, to));
    PipelineProtocol.Step(s, port, PipelineProtocol.CommitAdvance(0, io, now)).rows
  }

  function ApprovedRows(rows: Rows, port: bool, ws: UUID, id: UUID, actor: string, io: Ports, now: Time): Rows {
    var s := PipelineProtocol.Step(Alone(rows), port, PipelineProtocol.BeginApprove(0, ws, id, actor));
    PipelineProtocol.Step(s, port, PipelineProtocol.CommitApprove(0, io, now)).rows
  }

  function Retried(rows: Rows, port: bool, ws: UUID, id: UUID, actor: string, io: Ports, now: Time): Rows {
    var s := PipelineProtocol.Step(Alone(rows), port, PipelineProtocol.BeginRetry(0, ws, id, actor));
    var s := PipelineProtocol.Step(s, port, PipelineProtocol.CommitReset(0, now));
    PipelineProtocol.Step(s, port, PipelineProtocol.CommitAdvance(0, io, now)).rows
  }

  /** Retry's three actions, unfolded: the reset of the failed pipeline, and the advance from what it wrote. */
  lemma RetryUnfolds(rows: Rows, port: bool, ws: UUID, id: UUID, actor: string, io: Ports, now: Time)
    requires Sound(rows)
    ensures var g := PipelineDomain.Get(rows, ws, id);
            Retried(rows, port, ws, id, actor, io, now)
            == if Trim(actor) == "" || g.Failure? || g.value.status != Failed || g.value.stage == Complete then rows
               else
                 var (rows1, r) := Update(rows, Reset(g.value, now), now);
                 if r.Failure? || NextStage(r.value.stage).Failure? then rows1
                 else
                   var m := Moved(r.value, NextStage(r.value.stage).value, io, port, now);
                   if m.Refused? then rows1 else Update(rows1, m.p, now).0
    ensures var g := PipelineDomain.Get(rows, ws, id);
            g.Success? ==> g.value == rows[id] && g.value.id == id
  {
    hide Moved, Reset, PipelineProtocol.RowOk, PipelineProtocol.KeysOk, KeyFree, StageStatusValid, Update;
    FailedCanReset(rows, ws, id, now);
  }

  lemma FailedCanReset(rows: Rows, ws: UUID, id: UUID, now: Time)
    ensures var g := PipelineDomain.Get(rows, ws, id);
            g.Success? && g.value.stage != Complete ==>
              var r := Update(rows, Reset(g.value, now), now).1;
              r.Success? ==> NextStage(r.value.stage).Success? && r.value.stage == g.value.stage && r.value.id == g.value.id
                             && r.value.retryCount == g.value.retryCount + 1
  {
    hide KeyFree, StageStatusValid;
  }

  /** Advance's two actions, unfolded: past the gate the write is never refused, and enters the next stage or leaves the stage. */
  lemma AdvanceUnfolds(rows: Rows, port: bool, ws: UUID, id: UUID, start: Stage, to: Stage, io: Ports, now: Time)
    requires Sound(rows)
    ensures var r := PipelineProtocol.AdvanceStart(rows, ws, id, start, to);
            if r.Failure? then Advanced(rows, port, ws, id, start, to, io, now) == rows
            else
              var m := Moved(r.value, to, io, port, now);
              && Advanced(rows, port, ws, id, start, to, io, now) == (if m.Refused? then rows else Update(rows, m.p, now).0)
              && to != r.value.stage && id in rows && r.value == rows[id] && r.value.id == id
              && (!m.Refused? ==>
                    var (rows', r') := Update(rows, m.p, now);
                    r'.Success? && id in rows' && rows'[id].stage == m.p.stage && (m.Broken? ==> m.p.stage == rows[id].stage))
  {
    hide Moved, PipelineProtocol.KeysOk, KeyFree, StageStatusValid, PipelineProtocol.RowOk, CanAdvance;
    var r := PipelineProtocol.AdvanceStart(rows, ws, id, start, to);
    if r.Success? {
      assert PipelineProtocol.RowOk(r.value);
      CanAdvanceIff(to, r.value.stage, r.value.status);
      MovedOk(r.value, to, io, port, now);
      var m := Moved(r.value, to, io, port, now);
      if !m.Refused? { ReadBack(rows, r.value, m.p, now); }
    }
  }

  /** After the reset, the advance is written without fail; it enters the next stage, or leaves the stage as it was. */
  lemma RetryLands(rows: Rows, ws: UUID, id: UUID, io: Ports, port: bool, now: Time)
    requires Sound(rows) && PipelineDomain.Get(rows, ws, id).Success?
    requires rows[id].status == Failed && rows[id].stage != Complete
    ensures var (rows1, r) := Update(rows, Reset(rows[id], now), now);
            && r.Success? && NextStage(r.value.stage).Success? && NextStage(r.value.stage).value != rows[id].stage
            && id in rows1 && rows1[id].stage == rows[id].stage
            && var m := Moved(r.value, NextStage(r.value.stage).value, io, port, now);
               !m.Refused? ==>
                 var (rows2, r2) := Update(rows1, m.p, now);
                 r2.Success? && id in rows2 && rows2[id].stage == m.p.stage && (m.Broken? ==> m.p.stage == rows[id].stage)
  {
    hide Moved, PipelineProtocol.KeysOk, KeyFree, StageStatusValid, CanAdvance;
    var p := rows[id];
    assert PipelineProtocol.RowOk(p);
    ResetPassesTheGate(p, now);
    ReadBack(rows, p, Reset(p, now), now);
    var (rows1, r) := Update(rows, Reset(p, now), now);
    ResetIsSound(rows, p, now);
    MovedOk(r.value, NextStage(r.value.stage).value, io, port, now);
    var m := Moved(r.value, NextStage(r.value.stage).value, io, port, now);
    if !m.Refused? { ReadBack(rows1, r.value, m.p, now); }
  }

  lemma ResetIsSound(rows: Rows, p: Pipeline, now: Time)
    requires Sound(rows) && p.id in rows && rows[p.id] == p && p.status == Failed
    ensures var (rows1, r) := Update(rows, Reset(p, now), now);
            && Sound(rows1) && r.Success? && PipelineProtocol.RowOk(r.value) && p.id in rows1 && rows1[p.id] == r.value
            && CanAdvance(NextStage(r.value.stage).value, r.value.stage, r.value.status) == None
  {
    hide KeyFree, CanAdvance, PipelineProtocol.KeysOk;
    ResetPassesTheGate(p, now);
    ReadBack(rows, p, Reset(p, now), now);
    RowRestamped(Reset(p, now), now);
    KeysKept(rows, Reset(p, now).(version := Held(p) + 1, updatedAt := now));
  }

  /** Approve's two actions, unfolded. */
  lemma ApproveUnfolds(rows: Rows, port: bool, ws: UUID, id: UUID, actor: string, io: Ports, now: Time)
    requires Sound(rows)
    ensures var g := PipelineProtocol.ApproveStart(rows, ws, id, actor, port);
            ApprovedRows(rows, port, ws, id, actor, io, now)
            == if g.Failure? || g.value.Approved() || (port && !io.approve) then rows
               else Update(rows, ApprovedRow(g.value, Trim(actor), now), now).0
    ensures var g := PipelineDomain.Get(rows, ws, id);
            g.Success? ==> g.value == rows[id] && g.value.id == id && g.value.workspace == ws
    ensures var g := PipelineDomain.Get(rows, ws, id);
            Trim(actor) != "" && g.Success? && g.value.stage == Review && g.value.status == AwaitingApproval ==>
              var (rows', r) := Update(rows, ApprovedRow(g.value, Trim(actor), now), now);
              && r == Success(rows[id].(status := ApprovedStatus, approvedBy := Trim(actor), approvedAt := Some(now),
                                        failure := "", updatedAt := now, version := rows[id].version + 1))
              && rows' == rows[id := r.value]
  {
    hide KeyFree, StageStatusValid, PipelineProtocol.KeysOk, PipelineProtocol.RowOk;
    var g := PipelineDomain.Get(rows, ws, id);
    if Trim(actor) != "" && g.Success? && g.value.stage == Review && g.value.status == AwaitingApproval {
      assert PipelineProtocol.RowOk(g.value);
      RowFacts(g.value);
      ApprovedOk(g.value, Trim(actor), now);
      ReadBack(rows, g.value, ApprovedRow(g.value, Trim(actor), now), now);
    }
  }

  lemma MovedKeepsCount(rows: Rows, p: Pipeline, to: Stage, io: Ports, port: bool, now: Time)
    ensures var m := Moved(p, to, io, port, now);
            m.Entered? ==> Update(rows, m.p, now).1.Success? ==> Update(rows, m.p, now).1.value.retryCount == p.retryCount
  {
    hide BoundReference;
  }

  function Reason(res: Result<Pipeline, PipelineError>): Option<PipelineError> {
    if res.Failure? then Some(res.error) else None
  }

  function StartEvent(id: UUID, ws: UUID): Event {
    Event("pipeline.research", id, ws, Research)
  }

  predicate KeyUsed(rows: Rows, ws: UUID, key: string) {
    key != "" && exists x | x in rows :: rows[x].workspace == ws && rows[x].key == key
  }

  /** Nothing done yet: at research, unapproved, without references, under its request's key. */
  predicate Newborn(p: Pipeline, id: UUID, ws: UUID, key: string, now: Time) {
    && p.id == id && p.workspace == ws && p.key == key && p.stage == Research && p.status == Created && p.version == 1
    && p.publication == None && p.approvedBy == "" && p.approvedAt == None && p.retryCount == 0 && p.failure == ""
    && p.research == p.script == p.review == p.published == "" && p.updatedAt == now
  }

  predicate Declined(created: Option<Pipeline>, err: Option<PipelineError>, reason: PipelineError) {
    created == None && err == Some(reason)
  }

  /** The stored pipeline the key names comes back, its start announced again if it has not moved yet. */
  predicate ReturnsHolder(rows: Rows, ws: UUID, key: string, created: Option<Pipeline>, err: Option<PipelineError>,
                          before: seq<Event>, after: seq<Event>, lost: bool)
  {
    && created.Some? && KeyHolders(rows, ws, key) == {created.value.id} && rows[created.value.id] == created.value
    && created.value.workspace == ws && created.value.key == key
    && var unmoved := created.value.stage == Research && created.value.status == Created;
       && after == before + (if unmoved && !lost then [StartEvent(created.value.id, ws)] else [])
       && (err == None <==> !(unmoved && lost))
  }

  function WithRival(rows: Rows, rival: Option<Pipeline>): Rows {
    if rival.None? then rows else PipelineDomain.Create(rows, rival.value).0
  }

  /** The unique index makes a non-empty key name one pipeline of its workspace. */
  lemma OneHolder(rows: Rows, ws: UUID, key: string, x: UUID)
    requires Sound(rows) && (key != "" ==> x in KeyHolders(rows, ws, key))
    ensures key != "" ==> KeyHolders(rows, ws, key) == {x}
  {
    hide PipelineProtocol.RowOk;
  }

  lemma CreateKeeps(rows: Rows, p: Pipeline)
    requires Sound(rows) && PipelineProtocol.RowOk(p)
    ensures Sound(PipelineDomain.Create(rows, p).0)
  {
    hide PipelineProtocol.RowOk, PipelineProtocol.KeysOk;
    NewKey(rows, p);
  }

  ghost predicate Sound(rows: Rows) {
    (forall x | x in rows :: rows[x].id == x && PipelineProtocol.RowOk(rows[x])) && PipelineProtocol.KeysOk(rows)
  }

  lemma AdvancedOk(rows: Rows, port: bool, ws: UUID, id: UUID, start: Stage, to: Stage, io: Ports, now: Time)
    requires Sound(rows)
    ensures Sound(Advanced(rows, port, ws, id, start, to, io, now))
  {
    hide PipelineProtocol.Step, PipelineProtocol.RowOk, PipelineProtocol.KeysOk;
    StepKeepsInv(Alone(rows), port, PipelineProtocol.BeginAdvance(0, ws, id, start, to));
    StepKeepsInv(PipelineProtocol.Step(Alone(rows), port, PipelineProtocol.BeginAdvance(0, ws, id, start, to)), port,
                 PipelineProtocol.CommitAdvance(0, io, now));
  }

  lemma ApprovedRowsOk(rows: Rows, port: bool, ws: UUID, id: UUID, actor: string, io: Ports, now: Time)
    requires Sound(rows)
    ensures Sound(ApprovedRows(rows, port, ws, id, actor, io, now))
  {
    hide PipelineProtocol.Step, PipelineProtocol.RowOk, PipelineProtocol.KeysOk;
    StepKeepsInv(Alone(rows), port, PipelineProtocol.BeginApprove(0, ws, id, actor));
    StepKeepsInv(PipelineProtocol.Step(Alone(rows), port, PipelineProtocol.BeginApprove(0, ws, id, actor)), port,
                 PipelineProtocol.CommitApprove(0, io, now));
  }

  lemma RetriedOk(rows: Rows, port: bool, ws: UUID, id: UUID, actor: string, io: Ports, now: Time)
    requires Sound(rows)
    ensures Sound(Retried(rows, port, ws, id, actor, io, now))
  {
    hide PipelineProtocol.Step, PipelineProtocol.RowOk, PipelineProtocol.KeysOk;
    var s1 := PipelineProtocol.Step(Alone(rows), port, PipelineProtocol.BeginRetry(0, ws, id, actor));
    StepKeepsInv(Alone(rows), port, PipelineProtocol.BeginRetry(0, ws, id, actor));
    StepKeepsInv(s1, port, PipelineProtocol.CommitReset(0, now));
    StepKeepsInv(PipelineProtocol.Step(s1, port, PipelineProtocol.CommitReset(0, now)), port, PipelineProtocol.CommitAdvance(0, io, now));
  }

  lemma RefusalKinds(to: Stage, p: Pipeline)
    ensures var r := CanAdvance(to, p.stage, p.status); r.Some? ==> r.value in {TerminalState, InvalidTransition, ApprovalRequired}
  {
  }
}
