/** The keyset-paginated listing: one page, and the walk a client makes by following the cursors. */
module KnowledgeListing {
  import opened Wrappers
  import opened Sets
  import opened AuditEncoding
  import opened KnowledgeCursor

  // ---------------------------------------------------------------- the listing order

  /** PostgreSQL compares UUIDs byte by byte. */
  predicate Below(a: Bytes, b: Bytes)
    requires |a| == |b|
  {
    a != [] && (a[0] < b[0] || (a[0] == b[0] && Below(a[1..], b[1..])))
  }

  lemma {:induction false} BelowIsTotal(a: Bytes, b: Bytes)
    requires |a| == |b|
    ensures a == b || Below(a, b) || Below(b, a)
    ensures !Below(a, a)
  {
    if a != [] {
      BelowIsTotal(a[1..], b[1..]);
      assert a == [a[0]] + a[1..] && b == [b[0]] + b[1..];
    }
  }

  lemma {:induction false} BelowIsTransitive(a: Bytes, b: Bytes, c: Bytes)
    requires |a| == |b| == |c| && Below(a, b) && Below(b, c)
    ensures Below(a, c)
  {
    if a[0] == b[0] == c[0] { BelowIsTransitive(a[1..], b[1..], c[1..]); }
  }

  /** A position in the order (created_at DESC, id DESC). */
  function Position(d: Document): Cursor {
    Cursor(d.created, d.id)
  }

  predicate Precedes(a: Cursor, b: Cursor)
    requires a.Cursor? && b.Cursor?
  {
    a.created > b.created || (a.created == b.created && Below(b.id, a.id))
  }

  lemma PrecedesIsTotal(d: Document, e: Document)
    ensures d.id == e.id || Precedes(Position(d), Position(e)) || Precedes(Position(e), Position(d))
    ensures !Precedes(Position(d), Position(d))
  {
    BelowIsTotal(d.id, e.id);
    BelowIsTotal(e.id, d.id);
  }

  lemma PrecedesIsTransitive(a: Cursor, b: Cursor, c: Cursor)
    requires a.Cursor? && b.Cursor? && c.Cursor? && Precedes(a, b) && Precedes(b, c)
    ensures Precedes(a, c)
  {
    if a.created == b.created == c.created { BelowIsTransitive(c.id, b.id, a.id); }
  }

  /** The first byte in which the ids differ is smaller in a. */
  predicate FirstDifference(a: Bytes, b: Bytes)
    requires |a| == |b|
  {
    exists k | 0 <= k < |a| :: a[..k] == b[..k] && a[k] < b[k]
  }

  lemma {:induction false} BelowMeans(a: Bytes, b: Bytes)
    requires |a| == |b|
    ensures Below(a, b) <==> FirstDifference(a, b)
    decreases |a|
  {
    if a != [] {
      var c, d := a[1..], b[1..];
      BelowMeans(c, d);
      if a[0] == b[0] {
        if FirstDifference(c, d) {
          var k :| 0 <= k < |c| && c[..k] == d[..k] && c[k] < d[k];
          assert a[..k + 1] == [a[0]] + c[..k] && b[..k + 1] == [b[0]] + d[..k];
          assert a[k + 1] < b[k + 1];
        }
        if FirstDifference(a, b) {
          var k :| 0 <= k < |a| && a[..k] == b[..k] && a[k] < b[k];
          assert c[..k - 1] == a[..k][1..] && d[..k - 1] == b[..k][1..] && c[k - 1] < d[k - 1];
        }
      } else {
        if a[0] < b[0] { assert a[..0] == b[..0]; }
        if FirstDifference(a, b) {
          var k :| 0 <= k < |a| && a[..k] == b[..k] && a[k] < b[k];
          assert k > 0 ==> a[..k][0] == b[..k][0];
        }
      }
    }
  }

  /** The document is older than the position, or as old with a smaller id. */
  predicate Follows(d: Document, created: Time, id: UUID) {
    d.created < created || (d.created == created && FirstDifference(d.id, id))
  }

  lemma PrecedesMeans(c: Cursor, d: Document)
    requires c.Cursor?
    ensures Precedes(c, Position(d)) <==> Follows(d, c.created, c.id)
  {
    BelowMeans(d.id, c.id);
  }

  /** Strictly down the order: nothing repeats. */
  predicate Descending(docs: seq<Document>) {
    forall i, j | 0 <= i < j < |docs| :: Precedes(Position(docs[i]), Position(docs[j]))
  }

  // ---------------------------------------------------------------- one page

  type Rows = map<UUID, Document>

  predicate Keyed(rows: Rows) {
    forall x | x in rows :: rows[x].id == x
  }

  predicate Admits(ws: UUID, q: ListQuery, d: Document) {
    && d.workspace == ws
    && (q.kind.Some? ==> d.kind == q.kind.value)
    && (q.before.Cursor? ==> Precedes(q.before, Position(d)))
  }

  function Matching(rows: Rows, ws: UUID, q: ListQuery): set<UUID> {
    set x | x in rows && Admits(ws, q, rows[x])
  }

  predicate Listed(docs: seq<Document>, x: UUID) {
    exists i | 0 <= i < |docs| :: docs[i].id == x
  }

  /** The first n of the given rows in the listing order. */
  ghost predicate FirstRows(rows: Rows, ids: set<UUID>, n: nat, docs: seq<Document>) {
    && |docs| == (if |ids| <= n then |ids| else n)
    && (forall i | 0 <= i < |docs| :: docs[i].id in ids && docs[i].id in rows && rows[docs[i].id] == docs[i])
    && Descending(docs)
    && (forall x, i | x in ids && x in rows && !Listed(docs, x) && 0 <= i < |docs| :: Precedes(Position(docs[i]), Position(rows[x])))
  }

  datatype Page = Page(documents: seq<Document>, next: Bytes, limit: int)

  /** The page a query must produce: the first rows it admits, and a cursor exactly when more are left. */
  ghost predicate PageOf(rows: Rows, ws: UUID, query: ListQuery, page: Page) {
    var q := query.Normalized();
    var ids := Matching(rows, ws, q);
    && page.limit == q.limit
    && FirstRows(rows, ids, q.limit, page.documents)
    && (|ids| <= q.limit ==> page.next == [])
    && (|ids| > q.limit ==> page.next == EncodeCursor(page.documents[q.limit - 1]))
  }

  /** What the caller asked for: the workspace, the kind if one is named, and only what follows the cursor. */
  predicate Asked(ws: UUID, kind: Option<string>, before: Cursor, d: Document) {
    && d.workspace == ws
    && (kind == None || d.kind == kind.value)
    && (before == NoCursor || Follows(d, before.created, before.id))
  }

  /**
   * The page serves the request: at most the limit, clamped to 1..200 and 50 by default; stored
   * documents that were asked for, newest first; and whatever was asked for and is not on it follows
   * all of it, which happens exactly when the page carries a cursor, and is then full.
   */
  ghost predicate Serves(rows: Rows, ws: UUID, query: ListQuery, page: Page) {
    && page.limit == (if query.limit <= 0 then 50 else if query.limit > 200 then 200 else query.limit)
    && |page.documents| <= page.limit
    && (forall i | 0 <= i < |page.documents| ::
          var d := page.documents[i]; d.id in rows && rows[d.id] == d && Asked(ws, query.kind, query.before, d))
    && (forall i, j | 0 <= i < j < |page.documents| :: Follows(page.documents[j], page.documents[i].created, page.documents[i].id))
    && (forall x, i | x in rows && Asked(ws, query.kind, query.before, rows[x]) && !Listed(page.documents, x) && 0 <= i < |page.documents| ::
          Follows(rows[x], page.documents[i].created, page.documents[i].id))
    && (page.next == [] <==> forall x | x in rows && Asked(ws, query.kind, query.before, rows[x]) :: Listed(page.documents, x))
    && (page.next != [] ==> |page.documents| == page.limit && page.next == EncodeCursor(page.documents[page.limit - 1]))
  }

  lemma AdmitsMeans(ws: UUID, q: ListQuery, d: Document)
    ensures Admits(ws, q, d) <==> Asked(ws, q.kind, q.before, d)
  {
    if q.before.Cursor? { PrecedesMeans(q.before, d); }
  }

  lemma PageServes(rows: Rows, ws: UUID, query: ListQuery, page: Page)
    requires Keyed(rows) && PageOf(rows, ws, query, page)
    ensures Serves(rows, ws, query, page)
  {
    hide Admits, Asked, Precedes, Follows, EncodeCursor, Listed;
    var q := query.Normalized();
    var docs := page.documents;
    forall d ensures Admits(ws, q, d) <==> Asked(ws, query.kind, query.before, d) { AdmitsMeans(ws, q, d); }
    forall i, j | 0 <= i < j < |docs| ensures Follows(docs[j], docs[i].created, docs[i].id) { PrecedesMeans(Position(docs[i]), docs[j]); }
    forall x, i | x in rows && Asked(ws, query.kind, query.before, rows[x]) && !Listed(docs, x) && 0 <= i < |docs|
      ensures Follows(rows[x], docs[i].created, docs[i].id)
    {
      assert x in Matching(rows, ws, q);
      PrecedesMeans(Position(docs[i]), rows[x]);
    }
    CursorIffMore(rows, ws, query, page);
  }

  lemma CursorIffMore(rows: Rows, ws: UUID, query: ListQuery, page: Page)
    requires PageOf(rows, ws, query, page)
    ensures page.next == [] <==> forall x | x in Matching(rows, ws, query.Normalized()) :: Listed(page.documents, x)
  {
    hide Admits, Precedes, EncodeCursor, Listed;
    var q := query.Normalized();
    var ids := Matching(rows, ws, q);
    if |ids| <= q.limit {
      forall x | x in ids ensures Listed(page.documents, x) { PageIsFull(rows, ids, q.limit, page.documents, x); }
    } else {
      DecodeEncoded(page.documents[q.limit - 1]);
      if forall x | x in ids :: Listed(page.documents, x) { AllListedSize(ids, page.documents); }
    }
  }

  lemma AllListedSize(ids: set<UUID>, docs: seq<Document>)
    requires forall x | x in ids :: Listed(docs, x)
    ensures |ids| <= |docs|
  {
    SubsetSize(ids, set i | 0 <= i < |docs| :: docs[i].id);
    ImageSize(docs);
  }

  lemma {:induction false} ImageSize(docs: seq<Document>)
    ensures |set i | 0 <= i < |docs| :: docs[i].id| <= |docs|
  {
    if docs != [] {
      var n := |docs| - 1;
      var init := docs[..n];
      ImageSize(init);
      assert (set i | 0 <= i < |docs| :: docs[i].id) == (set i | 0 <= i < |init| :: init[i].id) + {docs[n].id};
    }
  }

  class KnowledgeStore {
    var rows: Rows

    constructor ()
      ensures rows == map[]
    {
      rows := map[];
    }

    /** SELECT ... WHERE the query admits ORDER BY created_at DESC, id DESC LIMIT n. */
    method Select(ws: UUID, q: ListQuery, n: nat) returns (docs: seq<Document>)
      requires Keyed(rows)
      ensures FirstRows(rows, Matching(rows, ws, q), n, docs)
    {
      hide Precedes;
      var ids := Matching(rows, ws, q);
      var left := ids;
      docs := [];
      while |docs| < n && left != {}
        invariant left <= ids && |left| + |docs| == |ids| && |docs| <= n
        invariant forall x | x in ids :: x in left || Listed(docs, x)
        invariant forall i | 0 <= i < |docs| :: docs[i].id in ids && docs[i] == rows[docs[i].id]
        invariant Descending(docs)
        invariant forall x, i | x in left && 0 <= i < |docs| :: Precedes(Position(docs[i]), Position(rows[x]))
        decreases left
      {
        var x := Newest(left);
        ghost var before := docs;
        docs := docs + [rows[x]];
        left := left - {x};
        ListedMore(before, rows[x]);
      }
    }

    method Newest(ids: set<UUID>) returns (m: UUID)
      requires Keyed(rows) && ids != {} && ids <= rows.Keys
      ensures m in ids && forall x | x in ids && x != m :: Precedes(Position(rows[m]), Position(rows[x]))
    {
      hide Precedes;
      m :| m in ids;
      var left := ids - {m};
      while left != {}
        invariant m in ids && m !in left && left <= ids
        invariant forall x | x in ids - left && x != m :: Precedes(Position(rows[m]), Position(rows[x]))
        decreases left
      {
        var y :| y in left;
        left := left - {y};
        PrecedesIsTotal(rows[y], rows[m]);
        if Precedes(Position(rows[y]), Position(rows[m])) {
          forall x | x in ids - left && x != y && x != m ensures Precedes(Position(rows[y]), Position(rows[x])) {
            PrecedesIsTransitive(Position(rows[y]), Position(rows[m]), Position(rows[x]));
          }
          m := y;
        }
      }
    }

    /** One row more than the page holds is fetched, so whether more are left is known and not guessed. */
    method ListPage(ws: UUID, query: ListQuery) returns (page: Page)
      requires Keyed(rows)
      ensures PageOf(rows, ws, query, page) && Serves(rows, ws, query, page)
    {
      hide FirstRows, EncodeCursor, Serves;
      var q := query.Normalized();
      var fetched := Select(ws, q, q.limit + 1);
      var docs := [];
      for i := 0 to |fetched|
        invariant docs == fetched[..i]
      {
        docs := docs + [fetched[i]];
      }
      assert docs == fetched;
      FirstRowsSize(rows, Matching(rows, ws, q), q.limit + 1, docs);
      page := Page([], [], q.limit);
      if |docs| > q.limit {
        Truncated(rows, Matching(rows, ws, q), q.limit, docs);
        docs := docs[..q.limit];
        page := page.(next := EncodeCursor(docs[|docs| - 1]));
      } else {
        Whole(rows, Matching(rows, ws, q), q.limit, docs);
      }
      page := page.(documents := docs);
      PageServes(rows, ws, query, page);
    }
  }

  lemma ListedMore(docs: seq<Document>, d: Document)
    ensures forall x :: Listed(docs, x) || x == d.id ==> Listed(docs + [d], x)
  {
    forall x | Listed(docs, x) || x == d.id ensures Listed(docs + [d], x) {
      if x == d.id {
        assert (docs + [d])[|docs|].id == x;
      } else {
        var i :| 0 <= i < |docs| && docs[i].id == x;
        assert (docs + [d])[i].id == x;
      }
    }
  }

  lemma FirstRowsSize(rows: Rows, ids: set<UUID>, n: nat, docs: seq<Document>)
    requires FirstRows(rows, ids, n, docs)
    ensures |docs| == if |ids| <= n then |ids| else n
  {
  }

  lemma Truncated(rows: Rows, ids: set<UUID>, n: nat, docs: seq<Document>)
    requires FirstRows(rows, ids, n + 1, docs) && |docs| == n + 1
    ensures FirstRows(rows, ids, n, docs[..n])
  {
    hide Precedes;
    forall x, i | x in ids && x in rows && !Listed(docs[..n], x) && 0 <= i < n ensures Precedes(Position(docs[..n][i]), Position(rows[x])) {
      ListedCut(docs, n, x);
    }
  }

  lemma ListedCut(docs: seq<Document>, n: nat, x: UUID)
    requires n < |docs|
    ensures Listed(docs, x) ==> Listed(docs[..n], x) || (exists k | n <= k < |docs| :: docs[k].id == x)
  {
    if Listed(docs, x) {
      var k :| 0 <= k < |docs| && docs[k].id == x;
      if k < n { assert docs[..n][k].id == x; }
    }
  }

  lemma Whole(rows: Rows, ids: set<UUID>, n: nat, docs: seq<Document>)
    requires FirstRows(rows, ids, n + 1, docs) && |docs| <= n
    ensures FirstRows(rows, ids, n, docs)
  {
  }

  // ---------------------------------------------------------------- the walk

  /** The query for page i: the first has no cursor, each later one the cursor the page before handed out. */
  function QueryAt(q: ListQuery, pages: seq<Page>, i: nat): Result<ListQuery, CursorError>
    requires i <= |pages|
  {
    if i == 0 then Success(q.(before := NoCursor))
    else
      var c := DecodeCursor(pages[i - 1].next);
      if c.Failure? then Failure(c.error) else Success(q.(before := c.value))
  }

  /**
   * A walk: page i is read from the table as it is at that moment, by the cursor of page i - 1. Between
   * two pages anything may be inserted or deleted.
   */
  ghost predicate IsWalk(tables: seq<Rows>, ws: UUID, q: ListQuery, pages: seq<Page>) {
    && |tables| == |pages|
    && (forall i | 0 <= i < |pages| :: Keyed(tables[i]) && Nameable(tables[i])
          && QueryAt(q, pages, i).Success? && PageOf(tables[i], ws, QueryAt(q, pages, i).value, pages[i]))
    && (forall i | 0 <= i < |pages| - 1 :: pages[i].next != [])
  }

  /** Every instant in the table fits the cursor's 64-bit nanoseconds. */
  predicate Nameable(rows: Rows) {
    forall x | x in rows :: MIN_INT64 <= rows[x].created <= MAX_INT64
  }

  function Output(pages: seq<Page>): seq<Document> {
    if pages == [] then [] else Output(pages[..|pages| - 1]) + pages[|pages| - 1].documents
  }

  /** The query of page i, spelled out: everything strictly after the last document put out so far. */
  ghost predicate Resumes(q: ListQuery, pages: seq<Page>, i: nat)
    requires i <= |pages|
  {
    && QueryAt(q, pages, i).Success?
    && if i == 0 then QueryAt(q, pages, i).value.before == NoCursor
       else pages[i - 1].documents != []
            && QueryAt(q, pages, i).value.before == Position(pages[i - 1].documents[|pages[i - 1].documents| - 1])
  }

  lemma WalkResumes(tables: seq<Rows>, ws: UUID, q: ListQuery, pages: seq<Page>, i: nat)
    requires IsWalk(tables, ws, q, pages) && i < |pages|
    ensures Resumes(q, pages, i)
  {
    hide Descending, Listed, UnixNano, DecodeCursor, EncodeCursor;
    if i > 0 {
      assert PageOf(tables[i - 1], ws, QueryAt(q, pages, i - 1).value, pages[i - 1]) && pages[i - 1].next != [];
      var d := pages[i - 1].documents[|pages[i - 1].documents| - 1];
      assert d.id in tables[i - 1];
      DecodeEncoded(d);
      WrapIffOutside(d.created);
      assert QueryAt(q, pages, i).Success?;
    }
  }

  lemma WalkPrefix(tables: seq<Rows>, ws: UUID, q: ListQuery, pages: seq<Page>, n: nat)
    requires IsWalk(tables, ws, q, pages) && n <= |pages|
    ensures IsWalk(tables[..n], ws, q, pages[..n])
  {
    hide PageOf, DecodeCursor, Keyed, Nameable;
    forall i | 0 <= i < n ensures QueryAt(q, pages[..n], i) == QueryAt(q, pages, i) {
    }
  }

  lemma AppendDescending(a: seq<Document>, b: seq<Document>)
    requires Descending(a) && Descending(b)
    requires a != [] ==> forall j | 0 <= j < |b| :: Precedes(Position(a[|a| - 1]), Position(b[j]))
    ensures Descending(a + b)
  {
    hide Precedes;
    var c := a + b;
    forall i, j | 0 <= i < j < |c| ensures Precedes(Position(c[i]), Position(c[j])) {
      if i < |a| - 1 && |a| <= j { PrecedesIsTransitive(Position(a[i]), Position(a[|a| - 1]), Position(c[j])); }
    }
  }

  /** Whatever happens to the table meanwhile, the walk only goes down the order: no document comes twice. */
  lemma {:induction false} WalkDescends(tables: seq<Rows>, ws: UUID, q: ListQuery, pages: seq<Page>)
    requires |tables| == |pages| && IsWalk(tables, ws, q, pages)
    ensures Descending(Output(pages))
    ensures pages != [] && pages[|pages| - 1].documents != [] ==>
              Output(pages) != [] && Output(pages)[|Output(pages)| - 1] == pages[|pages| - 1].documents[|pages[|pages| - 1].documents| - 1]
    decreases |pages|
  {
    hide IsWalk, Descending, DecodeCursor;
    if pages == [] {
      NothingDescends();
    } else {
      var n := |pages| - 1;
      WalkPrefix(tables, ws, q, pages, n);
      WalkDescends(tables[..n], ws, q, pages[..n]);
      WalkResumes(tables, ws, q, pages, n);
      PageDescends(tables, ws, q, pages, n);
      AppendDescending(Output(pages[..n]), pages[n].documents);
    }
  }

  lemma NothingDescends()
    ensures Descending([])
  {
  }

  /** The documents of page n go down the order, from below the cursor. */
  lemma PageDescends(tables: seq<Rows>, ws: UUID, q: ListQuery, pages: seq<Page>, n: nat)
    requires IsWalk(tables, ws, q, pages) && n < |pages| && QueryAt(q, pages, n).Success?
    ensures Descending(pages[n].documents)
    ensures var c := QueryAt(q, pages, n).value.before;
            c.Cursor? ==> forall j | 0 <= j < |pages[n].documents| :: Precedes(c, Position(pages[n].documents[j]))
  {
    hide Descending, Precedes, DecodeCursor, Listed;
    assert PageOf(tables[n], ws, QueryAt(q, pages, n).value, pages[n]);
  }

  /** The document is there, unmoved, whenever a page is read. */
  predicate Present(tables: seq<Rows>, ws: UUID, q: ListQuery, x: UUID, at: Cursor) {
    forall i | 0 <= i < |tables| ::
      x in tables[i] && Position(tables[i][x]) == at
      && tables[i][x].workspace == ws && (q.kind == None || tables[i][x].kind == q.kind.value)
  }

  /** It has been put out already, or is still below the last document put out. */
  ghost predicate Ahead(pages: seq<Page>, x: UUID, at: Cursor)
    requires at.Cursor?
  {
    || Listed(Output(pages), x)
    || (pages != [] ==> pages[|pages| - 1].documents != []
                        && Precedes(Position(pages[|pages| - 1].documents[|pages[|pages| - 1].documents| - 1]), at))
  }

  lemma {:induction false} NeverPassed(tables: seq<Rows>, ws: UUID, q: ListQuery, pages: seq<Page>, x: UUID, at: Cursor)
    requires |tables| == |pages| && IsWalk(tables, ws, q, pages) && at.Cursor? && Present(tables, ws, q, x, at)
    requires pages != [] ==> pages[|pages| - 1].documents != []
    ensures Ahead(pages, x, at)
    decreases |pages|
  {
    hide IsWalk, DecodeCursor, Present;
    if pages != [] {
      var n := |pages| - 1;
      WalkPrefix(tables, ws, q, pages, n);
      PresentPrefix(tables, ws, q, x, at, n);
      WalkResumes(tables, ws, q, pages, n);
      NeverPassed(tables[..n], ws, q, pages[..n], x, at);
      ListedAppend(Output(pages[..n]), pages[n].documents, x);
      if !Listed(Output(pages), x) {
        PageKeepsAhead(tables, ws, q, pages, n, x, at);
      }
    }
  }

  lemma PresentPrefix(tables: seq<Rows>, ws: UUID, q: ListQuery, x: UUID, at: Cursor, n: nat)
    requires Present(tables, ws, q, x, at) && n <= |tables|
    ensures Present(tables[..n], ws, q, x, at)
  {
  }

  lemma ListedAppend(a: seq<Document>, b: seq<Document>, x: UUID)
    ensures Listed(a + b, x) <==> Listed(a, x) || Listed(b, x)
  {
    if Listed(a, x) { var i :| 0 <= i < |a| && a[i].id == x; assert (a + b)[i].id == x; }
    if Listed(b, x) { var i :| 0 <= i < |b| && b[i].id == x; assert (a + b)[|a| + i].id == x; }
  }

  /** A document still ahead when page n is read is admitted there, and is listed or left below the whole page. */
  lemma PageKeepsAhead(tables: seq<Rows>, ws: UUID, q: ListQuery, pages: seq<Page>, n: nat, x: UUID, at: Cursor)
    requires IsWalk(tables, ws, q, pages) && n < |pages| && at.Cursor? && Present(tables, ws, q, x, at) && Resumes(q, pages, n)
    requires n > 0 ==> Precedes(QueryAt(q, pages, n).value.before, at)
    ensures Admits(ws, QueryAt(q, pages, n).value, tables[n][x]) && x in tables[n]
    ensures Listed(pages[n].documents, x) || forall i | 0 <= i < |pages[n].documents| :: Precedes(Position(pages[n].documents[i]), at)
  {
    hide Precedes, DecodeCursor, Descending, Listed;
    assert PageOf(tables[n], ws, QueryAt(q, pages, n).value, pages[n]);
    assert x in tables[n] && Position(tables[n][x]) == at;
    assert x in Matching(tables[n], ws, QueryAt(q, pages, n).value.Normalized());
  }

  /**
   * A walk that reached its end has put out every document that was there all along, and by
   * WalkDescends each just once, whatever was inserted or deleted between its pages.
   */
  lemma NothingIsSkipped(tables: seq<Rows>, ws: UUID, q: ListQuery, pages: seq<Page>, x: UUID, at: Cursor)
    requires |tables| == |pages| && IsWalk(tables, ws, q, pages) && at.Cursor? && Present(tables, ws, q, x, at)
    requires pages != [] && pages[|pages| - 1].next == []
    ensures Listed(Output(pages), x)
  {
    hide IsWalk, DecodeCursor, Present, Precedes;
    var n := |pages| - 1;
    WalkPrefix(tables, ws, q, pages, n);
    PresentPrefix(tables, ws, q, x, at, n);
    WalkResumes(tables, ws, q, pages, n);
    NeverPassed(tables[..n], ws, q, pages[..n], x, at);
    ListedAppend(Output(pages[..n]), pages[n].documents, x);
    if !Listed(Output(pages[..n]), x) {
      PageKeepsAhead(tables, ws, q, pages, n, x, at);
      WalkPage(tables, ws, q, pages, n);
      LastPageListsAll(tables[n], ws, QueryAt(q, pages, n).value, pages[n], x);
    }
  }

  lemma WalkPage(tables: seq<Rows>, ws: UUID, q: ListQuery, pages: seq<Page>, n: nat)
    requires |tables| == |pages| && IsWalk(tables, ws, q, pages) && n < |pages|
    ensures QueryAt(q, pages, n).Success? && PageOf(tables[n], ws, QueryAt(q, pages, n).value, pages[n])
  {
    hide PageOf;
  }

  /** A page without a next cursor lists everything its query admits. */
  lemma LastPageListsAll(rows: Rows, ws: UUID, query: ListQuery, page: Page, x: UUID)
    requires PageOf(rows, ws, query, page) && page.next == [] && x in rows && Admits(ws, query, rows[x])
    ensures Listed(page.documents, x)
  {
    hide EncodeCursor, Precedes, Descending, Listed;
    var q := query.Normalized();
    var ids := Matching(rows, ws, q);
    assert x in ids;
    if |ids| > q.limit { DecodeEncoded(page.documents[q.limit - 1]); }
    PageIsFull(rows, ids, q.limit, page.documents, x);
  }

  /** As many different documents as there are ids: every id is listed. */
  lemma PageIsFull(rows: Rows, ids: set<UUID>, n: nat, docs: seq<Document>, x: UUID)
    requires FirstRows(rows, ids, n, docs) && |ids| <= n && x in ids
    ensures Listed(docs, x)
  {
    hide Precedes, Position;
    var found := set i | 0 <= i < |docs| :: docs[i].id;
    DistinctSize(rows, docs);
    if !Listed(docs, x) { ProperSubsetSize(found, ids, x); }
  }

  lemma {:induction false} DistinctSize(rows: Rows, docs: seq<Document>)
    requires Descending(docs) && forall i | 0 <= i < |docs| :: docs[i].id in rows && rows[docs[i].id] == docs[i]
    ensures |set i | 0 <= i < |docs| :: docs[i].id| == |docs|
  {
    hide Position, Precedes;
    if docs != [] {
      var n := |docs| - 1;
      var init := docs[..n];
      DistinctSize(rows, init);
      var found := set i | 0 <= i < |init| :: init[i].id;
      assert (set i | 0 <= i < |docs| :: docs[i].id) == found + {docs[n].id};
      forall i | 0 <= i < n ensures init[i].id != docs[n].id { LaterIsOther(docs, i, n); }
    }
  }

  lemma LaterIsOther(docs: seq<Document>, i: nat, j: nat)
    requires i < j < |docs| && Descending(docs)
    ensures docs[i] != docs[j]
  {
    PrecedesIsTotal(docs[i], docs[j]);
  }

  // ---------------------------------------------------------------- the walk over a table at rest

  ghost predicate Real(rows: Rows, ws: UUID, q: ListQuery, docs: seq<Document>) {
    forall i | 0 <= i < |docs| :: docs[i].id in rows && rows[docs[i].id] == docs[i] && Admits(ws, q.(before := NoCursor), docs[i])
  }

  lemma PageIsReal(rows: Rows, ws: UUID, q: ListQuery, query: ListQuery, page: Page)
    requires PageOf(rows, ws, query, page) && query == q.(before := query.before)
    ensures Real(rows, ws, q, page.documents)
    ensures page.next != [] ==> |page.documents| == q.Normalized().limit
  {
    hide Precedes, Descending, Listed, EncodeCursor;
  }

  lemma {:induction false} WalkIsReal(rows: Rows, tables: seq<Rows>, ws: UUID, q: ListQuery, pages: seq<Page>)
    requires |tables| == |pages| && IsWalk(tables, ws, q, pages) && forall i | 0 <= i < |tables| :: tables[i] == rows
    ensures Real(rows, ws, q, Output(pages))
    ensures pages != [] && pages[|pages| - 1].next != [] ==> |Output(pages)| == |pages| * q.Normalized().limit
    decreases |pages|
  {
    hide IsWalk, PageOf, Real, ListQuery.Normalized, DecodeCursor;
    if pages == [] {
      NothingIsReal(rows, ws, q);
    } else {
      var n := |pages| - 1;
      WalkPrefix(tables, ws, q, pages, n);
      WalkIsReal(rows, tables[..n], ws, q, pages[..n]);
      WalkPage(tables, ws, q, pages, n);
      PageIsReal(rows, ws, q, QueryAt(q, pages, n).value, pages[n]);
      if n > 0 { EarlierPagesContinue(tables, ws, q, pages, n - 1); }
      RealAppend(rows, ws, q, Output(pages[..n]), pages[n].documents);
      OneMorePage(n, q.Normalized().limit);
    }
  }

  lemma NothingIsReal(rows: Rows, ws: UUID, q: ListQuery)
    ensures Real(rows, ws, q, [])
  {
  }

  lemma RealAppend(rows: Rows, ws: UUID, q: ListQuery, a: seq<Document>, b: seq<Document>)
    requires Real(rows, ws, q, a) && Real(rows, ws, q, b)
    ensures Real(rows, ws, q, a + b)
  {
    hide Admits;
  }

  lemma OneMorePage(n: nat, limit: int)
    ensures (n + 1) * limit == n * limit + limit
  {
  }

  lemma EarlierPagesContinue(tables: seq<Rows>, ws: UUID, q: ListQuery, pages: seq<Page>, i: nat)
    requires IsWalk(tables, ws, q, pages) && i < |pages| - 1
    ensures pages[i].next != []
  {
    hide PageOf;
  }

  /** Over a table at rest, a walk that reached its end has listed exactly the documents asked for, in order, each once. */
  lemma StaticWalkIsTheListing(rows: Rows, tables: seq<Rows>, ws: UUID, q: ListQuery, pages: seq<Page>)
    requires |tables| == |pages| && IsWalk(tables, ws, q, pages) && forall i | 0 <= i < |tables| :: tables[i] == rows
    requires pages != [] && pages[|pages| - 1].next == []
    ensures Descending(Output(pages))
    ensures forall d :: d in Output(pages) <==>
              d.id in rows && rows[d.id] == d && d.workspace == ws && (q.kind == None || d.kind == q.kind.value)
  {
    hide IsWalk, Descending, Listed;
    WalkDescends(tables, ws, q, pages);
    WalkIsReal(rows, tables, ws, q, pages);
    forall x | x in Matching(rows, ws, q.(before := NoCursor)) ensures Listed(Output(pages), x) {
      NothingIsSkipped(tables, ws, q, pages, x, Position(rows[x]));
    }
    ListedDocuments(rows, ws, q, Output(pages));
  }

  lemma ListedDocuments(rows: Rows, ws: UUID, q: ListQuery, docs: seq<Document>)
    requires Real(rows, ws, q, docs)
    ensures forall x :: Listed(docs, x) ==> x in rows && rows[x] in docs
  {
    hide Admits;
    forall x | Listed(docs, x) ensures x in rows && rows[x] in docs {
      var i :| 0 <= i < |docs| && docs[i].id == x;
      assert rows[x] == docs[i];
    }
  }

  /** And it does end: every page that hands out a cursor is full, so there are only so many of them. */
  lemma StaticWalkEnds(rows: Rows, tables: seq<Rows>, ws: UUID, q: ListQuery, pages: seq<Page>)
    requires |tables| == |pages| && IsWalk(tables, ws, q, pages) && forall i | 0 <= i < |tables| :: tables[i] == rows
    requires pages != [] && pages[|pages| - 1].next != []
    ensures |pages| * q.Normalized().limit <= |Wanted(rows, ws, q.kind)|
  {
    hide IsWalk, ListQuery.Normalized, Descending, Real, Wanted;
    WalkDescends(tables, ws, q, pages);
    WalkIsReal(rows, tables, ws, q, pages);
    RealSize(rows, ws, q, Output(pages));
  }

  /** The documents of the workspace, of the kind if one is named. */
  function Wanted(rows: Rows, ws: UUID, kind: Option<string>): set<UUID> {
    set x | x in rows && rows[x].workspace == ws && (kind == None || rows[x].kind == kind.value)
  }

  lemma RealSize(rows: Rows, ws: UUID, q: ListQuery, docs: seq<Document>)
    requires Real(rows, ws, q, docs) && Descending(docs)
    ensures |docs| <= |Wanted(rows, ws, q.kind)|
  {
    hide Descending;
    DistinctSize(rows, docs);
    SubsetSize(set i | 0 <= i < |docs| :: docs[i].id, Wanted(rows, ws, q.kind));
  }

  /** A page's cursor can be followed exactly when its last document lies in the accepted range. */
  lemma WalkContinuesIff(tables: seq<Rows>, ws: UUID, q: ListQuery, pages: seq<Page>)
    requires |tables| == |pages| && IsWalk(tables, ws, q, pages) && pages != [] && pages[|pages| - 1].next != []
    ensures pages[|pages| - 1].documents != []
    ensures var docs := pages[|pages| - 1].documents;
            QueryAt(q, pages, |pages|).Success? <==> EARLIEST <= docs[|docs| - 1].created <= LATEST
  {
    hide DecodeCursor, EncodeCursor, UnixNano, Descending, Listed;
    var n := |pages| - 1;
    WalkPage(tables, ws, q, pages, n);
    assert PageOf(tables[n], ws, QueryAt(q, pages, n).value, pages[n]);
    var d := pages[n].documents[|pages[n].documents| - 1];
    assert d.id in tables[n] && Nameable(tables[n]);
    DecodeEncoded(d);
    WrapIffOutside(d.created);
  }
}
