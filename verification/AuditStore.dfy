/**
 * The persistent audit writer: rows and back, the append transaction over a table shared by any
 * number of writers, and the chain read back in sequence order.
 */
module AuditStore {
  import opened Wrappers
  import opened AuditEncoding
  import opened AuditChain

  // ---------------------------------------------------------------- rows

  /** A row of audit_events: the columns the chain reads back, NULL as None. */
  datatype Row = Row(
    id: UUID, eventId: UUID, workspace: Option<UUID>, canonical: Option<Bytes>,
    traceId: Option<UUID>, spanId: Option<UUID>,
    actorType: Bytes, actorId: Option<UUID>, targetType: Bytes, targetId: Option<UUID>,
    eventType: Bytes, outcome: Bytes, principle: Bytes,
    signature: Option<Bytes>, parent: Option<UUID>, hashValue: Bytes, genesis: bool)

  function NullUUID(u: UUID): Option<UUID> {
    if u == NIL_UUID then None else Some(u)
  }

  function OrNil(o: Option<UUID>): UUID {
    if o.None? then NIL_UUID else o.value
  }

  function RowOf(P: Primitives, e: Event, workspace: Option<UUID>): Row {
    Row(e.id, e.eventId, workspace, Some(P.format(e.timestamp)), NullUUID(e.traceId), NullUUID(e.spanId),
        e.actorType, NullUUID(e.actorId), e.targetType, NullUUID(e.targetId), e.eventType, e.outcome, e.principle,
        Some(e.signature), NullUUID(e.hashParent), e.hashValue, e.genesis)
  }

  /** scanRow: a row without a readable canonical timestamp is an error. */
  function ScanRow(P: Primitives, r: Row): Option<Event> {
    if r.canonical.None? || r.canonical.value == [] then None
    else
      var ts := P.parse(r.canonical.value);
      if ts.None? then None
      else
        Some(Event(r.id, r.eventId, ts.value, OrNil(r.traceId), OrNil(r.spanId),
                   r.actorType, OrNil(r.actorId), r.targetType, OrNil(r.targetId), r.eventType, r.outcome,
                   OrNil(r.parent), r.hashValue, ts.value,
                   if r.signature.Some? then r.signature.value else [], ts.value, r.genesis, r.principle))
  }

  /** The row's columns hold the record, under the workspace it was recorded for; a nil id is NULL. */
  predicate Tabled(P: Primitives, row: Row, rec: Record, now: Time, id: UUID, eventId: UUID) {
    && row.id == id && row.eventId == eventId && row.workspace == rec.workspace && row.canonical == Some(P.format(now))
    && row.actorType == rec.actorType && row.actorId == (if rec.actorId == NIL_UUID then None else Some(rec.actorId))
    && row.targetType == rec.targetType && row.targetId == (if rec.targetId == NIL_UUID then None else Some(rec.targetId))
    && row.eventType == rec.eventType && row.outcome == rec.outcome && row.principle == rec.principle
    && row.traceId == None && row.spanId == None && !row.genesis
  }

  /** The hash and signature instants are not stored: they read back as the event's own timestamp. */
  function Restamped(e: Event): Event {
    e.(hashGeneratedAt := e.timestamp, signatureGeneratedAt := e.timestamp)
  }

  /** Storing and scanning gives back the event, whatever ids are nil. */
  lemma RowRoundTrip(P: Primitives, e: Event, workspace: Option<UUID>)
    requires P.Faithful()
    ensures ScanRow(P, RowOf(P, e, workspace)) == Some(Restamped(e))
  {
    assert P.parse(P.format(e.timestamp)) == Some(e.timestamp);
    assert P.format(e.timestamp) != [];
  }

  // ---------------------------------------------------------------- the table

  /** Rows under their sequence numbers. An aborted insert still burns its number, so there may be gaps. */
  datatype Table = Table(rows: map<nat, Row>, nextSeq: nat)

  /** SELECT ... ORDER BY seq ASC, over the numbers below n. */
  function Ordered(rows: map<nat, Row>, n: nat): seq<Row> {
    if n == 0 then []
    else if n - 1 in rows then Ordered(rows, n - 1) + [rows[n - 1]]
    else Ordered(rows, n - 1)
  }

  function ScanAll(P: Primitives, rows: seq<Row>): Option<seq<Event>> {
    if rows == [] then Some([])
    else
      var init, last := ScanAll(P, rows[..|rows| - 1]), ScanRow(P, rows[|rows| - 1]);
      if init.None? || last.None? then None else Some(init.value + [last.value])
  }

  function Chain(P: Primitives, t: Table): Option<seq<Event>> {
    ScanAll(P, Ordered(t.rows, t.nextSeq))
  }

  /** The two unique indexes on ids. */
  predicate Taken(t: Table, id: UUID, eventId: UUID) {
    exists k | k in t.rows :: t.rows[k].id == id || t.rows[k].eventId == eventId
  }

  ghost predicate Intact(P: Primitives, t: Table) {
    && (forall k | k in t.rows :: k < t.nextSeq)
    && Chain(P, t).Some?
    && Verified(P, Chain(P, t).value)
  }

  // ---------------------------------------------------------------- the append transaction

  datatype AppendError = Incomplete | NoGenesis | Unreadable | DatabaseFailed

  /** Where the database lets a transaction down: before the insert, or at the insert or the commit. */
  datatype Fault = NoFault | EarlyFault | LateFault

  predicate Complete(rec: Record) {
    rec.eventType != [] && rec.outcome != [] && rec.principle != []
  }

  /** The append as one transaction under the lock. Nothing the writer remembers enters into it. */
  function AppendTx(P: Primitives, t: Table, rec: Record, now: Time, id: UUID, eventId: UUID, fault: Fault)
    : (Table, Result<Event, AppendError>)
  {
    if !Complete(rec) then (t, Failure(Incomplete))
    else if fault == EarlyFault then (t, Failure(DatabaseFailed))
    else if Ordered(t.rows, t.nextSeq) == [] then (t, Failure(NoGenesis))
    else
      var rows := Ordered(t.rows, t.nextSeq);
      var head := ScanRow(P, rows[|rows| - 1]);
      if head.None? then (t, Failure(Unreadable))
      else if fault == LateFault || Taken(t, id, eventId) then (t.(nextSeq := t.nextSeq + 1), Failure(DatabaseFailed))
      else
        var e := AppendEvent(P, head.value, rec, now, id, eventId);
        (Inserted(t, RowOf(P, e, rec.workspace)), Success(e))
  }

  function Inserted(t: Table, row: Row): Table {
    Table(t.rows[t.nextSeq := row], t.nextSeq + 1)
  }

  // ---------------------------------------------------------------- the writer

  class AuditTable {
    var rows: map<nat, Row>
    var nextSeq: nat

    ghost function State(): Table
      reads this
    {
      Table(rows, nextSeq)
    }

    constructor ()
      ensures State() == Table(map[], 0)
    {
      rows, nextSeq := map[], 0;
    }

    /** SELECT ... ORDER BY seq DESC LIMIT 1. */
    method Last() returns (row: Option<Row>)
      ensures var all := Ordered(rows, nextSeq);
              row == if all == [] then None else Some(all[|all| - 1])
    {
      var k: int := nextSeq;
      while k > 0
        invariant 0 <= k <= nextSeq && Ordered(rows, k) == Ordered(rows, nextSeq)
      {
        if k - 1 in rows {
          return Some(rows[k - 1]);
        }
        k := k - 1;
      }
      return None;
    }

    method Insert(row: Row, fails: bool) returns (ok: bool)
      modifies this
      ensures nextSeq == old(nextSeq) + 1 && ok == !(fails || Taken(old(State()), row.id, row.eventId))
      ensures rows == if ok then old(rows)[old(nextSeq) := row] else old(rows)
    {
      var taken := false;
      var left := rows.Keys;
      while left != {}
        invariant left <= rows.Keys && State() == old(State())
        invariant taken <==> exists k | k in rows && k !in left :: rows[k].id == row.id || rows[k].eventId == row.eventId
        decreases left
      {
        var k :| k in left;
        left := left - {k};
        if rows[k].id == row.id || rows[k].eventId == row.eventId { taken := true; }
      }
      ok := !fails && !taken;
      if ok { rows := rows[nextSeq := row]; }
      nextSeq := nextSeq + 1;
    }
  }

  /** "Security by Design" */
  const SECURITY_BY_DESIGN: Bytes := [83, 101, 99, 117, 114, 105, 116, 121, 32, 98, 121, 32, 68, 101, 115, 105, 103, 110]

  datatype Root = Root(now: Time, id: UUID, eventId: UUID)

  function RootEvent(P: Primitives, root: Root): Event {
    GenesisEvent(P, SECURITY_BY_DESIGN, root.now, root.id, root.eventId)
  }

  function LastOf(es: seq<Event>): Event
    requires es != []
  {
    es[|es| - 1]
  }

  lemma {:induction false} NoRows(rows: map<nat, Row>, n: nat)
    requires rows == map[]
    ensures Ordered(rows, n) == []
  {
    if n > 0 { NoRows(rows, n - 1); }
  }

  lemma NoRowNoChain(P: Primitives, t: Table)
    requires Ordered(t.rows, t.nextSeq) == []
    ensures !Intact(P, t)
  {
  }

  lemma EmptyTable(P: Primitives, t: Table)
    requires t.rows == map[]
    ensures Chain(P, t) == Some([]) && forall id, eventId :: !Taken(t, id, eventId)
  {
    NoRows(t.rows, t.nextSeq);
  }

  lemma {:induction false} RowsExist(rows: map<nat, Row>, n: nat)
    requires Ordered(rows, n) != []
    ensures rows != map[]
  {
    if n - 1 !in rows { RowsExist(rows, n - 1); }
  }

  lemma GenesisStamps(P: Primitives, principle: Bytes, now: Time, id: UUID, eventId: UUID)
    ensures Restamped(GenesisEvent(P, principle, now, id, eventId)) == GenesisEvent(P, principle, now, id, eventId)
  {
  }

  class Store {
    const P: Primitives
    const db: AuditTable
    var head: Option<Event>

    constructor (P: Primitives, db: AuditTable, head: Option<Event>)
      ensures this.P == P && this.db == db && this.head == head
    {
      this.P, this.db, this.head := P, db, head;
    }

    /** The head is re-read under the lock, so what the writer remembered, and who wrote since, is irrelevant. */
    method Append(rec: Record, now: Time, id: UUID, eventId: UUID, fault: Fault) returns (res: Result<Event, AppendError>)
      modifies this, db
      ensures (db.State(), res) == AppendTx(P, old(db.State()), rec, now, id, eventId, fault)
      ensures res.Success? ==> head == Some(res.value)
      ensures res.Success? ==>
                && old(db.nextSeq) in db.rows && Tabled(P, db.rows[old(db.nextSeq)], rec, now, id, eventId)
                && exists parent :: Tells(res.value, rec, now, id, eventId, parent)
    {
      hide Ordered, ScanRow, AppendEvent, Taken, RowOf;
      if rec.eventType == [] || rec.outcome == [] || rec.principle == [] {
        return Failure(Incomplete);
      }
      if fault == EarlyFault {
        return Failure(DatabaseFailed);
      }
      var row := db.Last();
      if row.None? {
        return Failure(NoGenesis);
      }
      var last := ScanRow(P, row.value);
      if last.None? {
        return Failure(Unreadable);
      }
      head := last;
      var e := AppendEvent(P, last.value, rec, now, id, eventId);
      AppendedIds(P, last.value, rec, now, id, eventId, rec.workspace);
      AppendTells(P, last.value, rec, now, id, eventId);
      AppendTables(P, last.value, rec, now, id, eventId);
      var ok := db.Insert(RowOf(P, e, rec.workspace), fault == LateFault);
      if !ok {
        return Failure(DatabaseFailed);
      }
      head := Some(e);
      return Success(e);
    }

    /**
     * Opens an existing log at its head; an empty one is given its root. Finding it empty and inserting
     * the root are two transactions: the rival is another process's root that commits in between, and
     * leaves a log with two roots, which nobody will ever verify short of a collision.
     */
    method Open(now: Time, id: UUID, eventId: UUID, rival: Option<Root>, fails: bool) returns (ok: bool)
      requires P.Faithful() && (db.rows == map[] || Intact(P, db.State()))
      modifies this, db
      ensures old(db.rows) != map[] ==> ok && db.State() == old(db.State()) && Intact(P, db.State())
      ensures old(db.rows) == map[] && rival == None ==>
                && ok == !fails
                && (ok ==> Intact(P, db.State())
                           && Chain(P, db.State()) == Some([GenesisEvent(P, SECURITY_BY_DESIGN, now, id, eventId)]))
      ensures old(db.rows) == map[] && rival.Some? ==>
                var first, second := RootEvent(P, rival.value), GenesisEvent(P, SECURITY_BY_DESIGN, now, id, eventId);
                && ok == (!fails && id != rival.value.id && eventId != rival.value.eventId)
                && Chain(P, db.State()) == Some(if ok then [first, second] else [first])
                && (ok ==> Verified(P, [first, second]) ==>
                             Collides(P, Encode(GenesisFields(P, second)), Encode(ChainFields(P, first, second))))
      ensures ok ==> Chain(P, db.State()).Some? && Chain(P, db.State()).value != [] && head == Some(LastOf(Chain(P, db.State()).value))
    {
      hide ScanRow, RowOf, P.Faithful, Verified, Taken, GenesisEvent, GenesisFields, ChainFields, Ordered, ScanAll;
      var row := db.Last();
      if row.Some? {
        RowsExist(db.rows, db.nextSeq);
        ScanLast(P, Ordered(db.rows, db.nextSeq));
        head := ScanRow(P, row.value);
        return true;
      }
      NoRowNoChain(P, db.State());
      EmptyTable(P, db.State());
      var genesis := GenesisEvent(P, SECURITY_BY_DESIGN, now, id, eventId);
      if rival.Some? {
        ghost var first := RootEvent(P, rival.value);
        InsertRoot(rival.value);
        TwoRoots(P, first, Root(now, id, eventId));
        assert [first] + [genesis] == [first, genesis];
        RootIds(P, rival.value);
        TakenByRoot(P, db.State(), first, id, eventId);
      }
      ghost var before := db.State();
      BurntNumber(before);
      GenesisStamps(P, SECURITY_BY_DESIGN, now, id, eventId);
      InsertExtends(P, before, genesis, None);
      AppendKeepsVerified(P, [], Record([], [], NIL_UUID, [], NIL_UUID, [], [], None), SECURITY_BY_DESIGN, now, id, eventId);
      RootIds(P, Root(now, id, eventId));
      assert [] + [genesis] == [genesis];
      ok := db.Insert(RowOf(P, genesis, None), fails);
      if ok { head := Some(genesis); }
    }

    /** The rival's insert into the empty log. */
    method InsertRoot(root: Root)
      requires P.Faithful() && db.rows == map[]
      modifies db
      ensures Chain(P, db.State()) == Some([RootEvent(P, root)])
      ensures db.rows == map[old(db.nextSeq) := RowOf(P, RootEvent(P, root), None)] && db.nextSeq == old(db.nextSeq) + 1
    {
      hide ScanRow, RowOf, P.Faithful, Taken, GenesisEvent, Ordered, ScanAll;
      EmptyTable(P, db.State());
      var e := RootEvent(P, root);
      GenesisStamps(P, SECURITY_BY_DESIGN, root.now, root.id, root.eventId);
      InsertExtends(P, db.State(), e, None);
      assert [] + [e] == [e];
      var _ := db.Insert(RowOf(P, e, None), false);
    }

    lemma RootIds(P: Primitives, root: Root)
      ensures RowOf(P, RootEvent(P, root), None).id == root.id && RowOf(P, RootEvent(P, root), None).eventId == root.eventId
    {
    }

    /** The only row there is the rival's. */
    lemma TakenByRoot(P: Primitives, t: Table, first: Event, id: UUID, eventId: UUID)
      requires exists k :: t.rows == map[k := RowOf(P, first, None)]
      ensures Taken(t, id, eventId) <==> RowOf(P, first, None).id == id || RowOf(P, first, None).eventId == eventId
    {
      var k :| t.rows == map[k := RowOf(P, first, None)];
      assert k in t.rows;
    }

    lemma TwoRoots(P: Primitives, first: Event, root: Root)
      ensures var second := RootEvent(P, root);
              Verified(P, [first, second]) ==> Collides(P, Encode(GenesisFields(P, second)), Encode(ChainFields(P, first, second)))
    {
      hide Encode;
      SecondRootIsRefused(P, [first, RootEvent(P, root)], 1);
    }

    lemma AppendTables(P: Primitives, prev: Event, rec: Record, now: Time, id: UUID, eventId: UUID)
      ensures Tabled(P, RowOf(P, AppendEvent(P, prev, rec, now, id, eventId), rec.workspace), rec, now, id, eventId)
    {
    }

    lemma AppendedIds(P: Primitives, prev: Event, rec: Record, now: Time, id: UUID, eventId: UUID, workspace: Option<UUID>)
      ensures var row := RowOf(P, AppendEvent(P, prev, rec, now, id, eventId), workspace);
              row.id == id && row.eventId == eventId
    {
    }

    /** Reads the chain back, first to last; one unreadable row is an error for the whole. */
    method ReadChain() returns (events: Option<seq<Event>>)
      ensures events == Chain(P, db.State())
    {
      var rows := Ordered(db.rows, db.nextSeq);
      var out: seq<Event> := [];
      for i := 0 to |rows|
        invariant ScanAll(P, rows[..i]) == Some(out)
      {
        assert rows[..i + 1][..i] == rows[..i];
        var e := ScanRow(P, rows[i]);
        if e.None? {
          ScanAllFails(P, rows, i);
          return None;
        }
        out := out + [e.value];
      }
      assert rows[..|rows|] == rows;
      return Some(out);
    }

    /** Whether the persisted chain is intact and authentic, from the table alone. */
    method Verify() returns (res: Option<bool>)
      ensures res == match Chain(P, db.State())
                     case None => None
                     case Some(es) => Some(Verified(P, es))
    {
      hide Verified, Chain;
      var events := ReadChain();
      if events.None? {
        return None;
      }
      var ok := VerifyHashChain(P, Pointers(events.value));
      PointersInjective(events.value);
      return Some(ok);
    }
  }

  lemma PointersInjective(es: seq<Event>)
    ensures forall fs :: Pointers(es) == Pointers(fs) ==> es == fs
  {
    forall fs | Pointers(es) == Pointers(fs) ensures es == fs {
      assert |es| == |Pointers(es)| == |Pointers(fs)| == |fs|;
      forall i | 0 <= i < |es| ensures es[i] == fs[i] {
        assert Pointers(es)[i] == Pointers(fs)[i];
      }
    }
  }

  lemma {:induction false} ScanAllFails(P: Primitives, rows: seq<Row>, i: nat)
    requires i < |rows| && ScanRow(P, rows[i]).None?
    ensures ScanAll(P, rows).None?
  {
    if i < |rows| - 1 { ScanAllFails(P, rows[..|rows| - 1], i); }
  }

  // ---------------------------------------------------------------- every run

  lemma {:induction false} OrderedIgnoresLater(rows: map<nat, Row>, n: nat, k: nat, row: Row)
    requires n <= k
    ensures Ordered(rows[k := row], n) == Ordered(rows, n)
  {
    if n > 0 { OrderedIgnoresLater(rows, n - 1, k, row); }
  }

  /** The scanned chain ends with the scanned last row. */
  lemma ScanLast(P: Primitives, rows: seq<Row>)
    requires rows != [] && ScanAll(P, rows).Some?
    ensures ScanAll(P, rows).value != [] && ScanRow(P, rows[|rows| - 1]) == Some(ScanAll(P, rows).value[|ScanAll(P, rows).value| - 1])
  {
  }

  lemma ScanNotEmpty(P: Primitives, rows: seq<Row>)
    requires ScanAll(P, rows).Some? && ScanAll(P, rows).value != []
    ensures rows != []
  {
  }

  /** One call of Append by some writer. */
  datatype Call = Call(rec: Record, now: Time, id: UUID, eventId: UUID, fault: Fault)

  /** A complete record, an undisturbed transaction, and two ids no row has. */
  predicate Commits(t: Table, c: Call) {
    && c.rec.eventType != [] && c.rec.outcome != [] && c.rec.principle != []
    && c.fault == NoFault
    && forall k | k in t.rows :: t.rows[k].id != c.id && t.rows[k].eventId != c.eventId
  }

  /** An append that commits adds its event at the end of the chain; any other leaves the chain as it was. */
  lemma AppendExtends(P: Primitives, t: Table, rec: Record, now: Time, id: UUID, eventId: UUID, fault: Fault)
    requires P.Faithful() && Intact(P, t)
    ensures var (t', res) := AppendTx(P, t, rec, now, id, eventId, fault);
            && Intact(P, t')
            && Chain(P, t').value == Chain(P, t).value + (if res.Success? then [res.value] else [])
            && (res.Success? <==> Commits(t, Call(rec, now, id, eventId, fault)))
            && (res.Success? ==> Tells(res.value, rec, now, id, eventId, LastOf(Chain(P, t).value).id))
            && (res.Failure? ==> res.error == if rec.eventType == [] || rec.outcome == [] || rec.principle == [] then Incomplete else DatabaseFailed)
  {
    hide ScanRow, RowOf, P.Faithful, Verified, Taken, AppendEvent, ScanAll, Ordered, Tells;
    FreeIds(t, id, eventId);
    var (t', res) := AppendTx(P, t, rec, now, id, eventId, fault);
    var es := Chain(P, t).value;
    NonEmpty(P, es);
    ScanNotEmpty(P, Ordered(t.rows, t.nextSeq));
    ScanLast(P, Ordered(t.rows, t.nextSeq));
    if res.Success? {
      AppendStamps(P, es[|es| - 1], rec, now, id, eventId);
      AppendTells(P, es[|es| - 1], rec, now, id, eventId);
      InsertExtends(P, t, res.value, rec.workspace);
      AppendKeepsVerified(P, es, rec, rec.principle, now, id, eventId);
    } else {
      BurntNumber(t);
    }
  }

  lemma FreeIds(t: Table, id: UUID, eventId: UUID)
    ensures !Taken(t, id, eventId) <==> forall k | k in t.rows :: t.rows[k].id != id && t.rows[k].eventId != eventId
  {
  }

  lemma BurntNumber(t: Table)
    requires forall k | k in t.rows :: k < t.nextSeq
    ensures Ordered(t.rows, t.nextSeq + 1) == Ordered(t.rows, t.nextSeq)
  {
    assert t.nextSeq !in t.rows;
  }

  lemma InsertExtends(P: Primitives, t: Table, e: Event, workspace: Option<UUID>)
    requires P.Faithful() && Chain(P, t).Some? && Restamped(e) == e
    ensures Chain(P, Inserted(t, RowOf(P, e, workspace))) == Some(Chain(P, t).value + [e])
  {
    hide ScanRow, RowOf, P.Faithful;
    var row := RowOf(P, e, workspace);
    OrderedIgnoresLater(t.rows, t.nextSeq, t.nextSeq, row);
    var before := Ordered(t.rows, t.nextSeq);
    assert (before + [row])[..|before|] == before;
    RowRoundTrip(P, e, workspace);
  }

  lemma NonEmpty(P: Primitives, es: seq<Event>)
    requires Verified(P, es)
    ensures es != []
  {
  }

  /** All three instants of an appended event are one reading of the clock, so scanning restores it whole. */
  lemma AppendStamps(P: Primitives, prev: Event, rec: Record, now: Time, id: UUID, eventId: UUID)
    ensures Restamped(AppendEvent(P, prev, rec, now, id, eventId)) == AppendEvent(P, prev, rec, now, id, eventId)
  {
  }

  function After(P: Primitives, t: Table, calls: seq<Call>): Table {
    if calls == [] then t
    else
      var c := calls[|calls| - 1];
      AppendTx(P, After(P, t, calls[..|calls| - 1]), c.rec, c.now, c.id, c.eventId, c.fault).0
  }

  /** The calls that committed, in the order they did. */
  function CommittedCalls(P: Primitives, t: Table, calls: seq<Call>): seq<Call> {
    if calls == [] then []
    else
      var before, c := calls[..|calls| - 1], calls[|calls| - 1];
      CommittedCalls(P, t, before) + (if Commits(After(P, t, before), c) then [c] else [])
  }

  /** The events tell the calls, one by one, each naming the event before it as its parent. */
  ghost predicate TellAll(es: seq<Event>, calls: seq<Call>, from: nat) {
    && 0 < from && |es| == from + |calls|
    && forall i | 0 <= i < |calls| ::
         Tells(es[from + i], calls[i].rec, calls[i].now, calls[i].id, calls[i].eventId, es[from + i - 1].id)
  }

  /**
   * However the calls of any number of writers interleave, whatever aborts, and however old each
   * writer's remembered head: the table stays verified, and its chain is the one it had, followed by
   * one event for each call that committed, in commit order, telling exactly what was recorded.
   */
  lemma {:induction false} RunsStayIntact(P: Primitives, t: Table, calls: seq<Call>)
    requires P.Faithful() && Intact(P, t)
    ensures Intact(P, After(P, t, calls))
    ensures Chain(P, t).value <= Chain(P, After(P, t, calls)).value
    ensures TellAll(Chain(P, After(P, t, calls)).value, CommittedCalls(P, t, calls), |Chain(P, t).value|)
  {
    hide AppendTx, P.Faithful, Chain, Verified, Tells, Commits;
    var n := |Chain(P, t).value|;
    NonEmpty(P, Chain(P, t).value);
    if calls != [] {
      var before, c := calls[..|calls| - 1], calls[|calls| - 1];
      RunsStayIntact(P, t, before);
      AppendExtends(P, After(P, t, before), c.rec, c.now, c.id, c.eventId, c.fault);
    }
  }
}
