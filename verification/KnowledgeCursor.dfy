/** The bounded listing's query, its position in the listing order, and the text a client carries it in. */
module KnowledgeCursor {
  import opened Wrappers
  import opened AuditEncoding

  /** Instants in nanoseconds since the epoch. */
  type Time = int

  const DEFAULT_PAGE_SIZE := 50
  const MAX_PAGE_SIZE := 200

  const MIN_INT64: int := -0x8000_0000_0000_0000
  const MAX_INT64: int := 0x7FFF_FFFF_FFFF_FFFF

  /** The instants a cursor may name. */
  const EARLIEST: int := -6795364578871345152
  const LATEST: int := 2534023007999999999

  datatype Document = Document(id: UUID, workspace: UUID, kind: string, created: Time, body: string)

  datatype Cursor = NoCursor | Cursor(created: Time, id: UUID)

  datatype CursorError = InvalidCursor

  datatype ListQuery = ListQuery(kind: Option<string>, limit: int, before: Cursor)
  {
    function Normalized(): (q: ListQuery)
      ensures 1 <= q.limit <= MAX_PAGE_SIZE
      ensures 1 <= limit <= MAX_PAGE_SIZE ==> q == this
    {
      if limit <= 0 then this.(limit := DEFAULT_PAGE_SIZE)
      else if limit > MAX_PAGE_SIZE then this.(limit := MAX_PAGE_SIZE)
      else this
    }
  }

  // ---------------------------------------------------------------- numbers

  const MINUS: Byte := 45
  const PLUS: Byte := 43
  const DOT: Byte := 46

  /** time.Time.UnixNano: a 64-bit result that wraps around outside its range. */
  function UnixNano(t: Time): int {
    (t - MIN_INT64) % 0x1_0000_0000_0000_0000 + MIN_INT64
  }

  function FormatInt(n: int): Bytes {
    if n < 0 then [MINUS] + Itoa(-n) else Itoa(n)
  }

  predicate Digits(s: Bytes) {
    s != [] && forall i | 0 <= i < |s| :: 48 <= s[i] <= 57
  }

  /** strconv.ParseInt in base 10 for 64 bits. */
  function ParseInt(s: Bytes): Option<int> {
    if s == [] then None
    else
      var negative := s[0] == MINUS;
      var digits := if negative || s[0] == PLUS then s[1..] else s;
      if !Digits(digits) then None
      else
        var n := if negative then -Number(digits) else Number(digits);
        if MIN_INT64 <= n <= MAX_INT64 then Some(n) else None
  }

  lemma FormatParses(n: int)
    ensures ParseInt(FormatInt(n)) == if MIN_INT64 <= n <= MAX_INT64 then Some(n) else None
    ensures DOT !in FormatInt(n) && FormatInt(n) != []
  {
    hide Itoa, Number, ParseInt;
    if n < 0 {
      ItoaReads(-n);
      SignedParses(Itoa(-n));
    } else {
      ItoaReads(n);
      UnsignedParses(Itoa(n));
    }
  }

  lemma SignedParses(s: Bytes)
    requires Digits(s) && Number(s) > 0
    ensures ParseInt([MINUS] + s) == if -Number(s) >= MIN_INT64 then Some(-Number(s)) else None
  {
    hide Number;
    assert ([MINUS] + s)[1..] == s;
  }

  lemma UnsignedParses(s: Bytes)
    requires Digits(s) && Number(s) >= 0
    ensures ParseInt(s) == if Number(s) <= MAX_INT64 then Some(Number(s)) else None
  {
    hide Number;
  }

  // ---------------------------------------------------------------- UUIDs

  function Unnibble(c: Byte): Option<nat> {
    if 48 <= c <= 57 then Some(c as int - 48)
    else if 97 <= c <= 102 then Some(c as int - 87)
    else if 65 <= c <= 70 then Some(c as int - 55)
    else None
  }

  function Unhex(s: Bytes): (r: Option<Bytes>)
    ensures r.Some? ==> |s| == 2 * |r.value|
  {
    if s == [] then Some([])
    else if |s| == 1 then None
    else
      var hi, lo, rest := Unnibble(s[0]), Unnibble(s[1]), Unhex(s[2..]);
      if hi.None? || lo.None? || rest.None? || hi.value > 15 || lo.value > 15 then None
      else Some([(hi.value * 16 + lo.value) as Byte] + rest.value)
  }

  lemma NibbleReads(n: nat)
    requires n < 16
    ensures Unnibble(Nibble(n)) == Some(n)
  {
  }

  lemma {:induction false} HexUnhexes(s: Bytes)
    ensures Unhex(Hex(s)) == Some(s)
  {
    if s != [] {
      HexUnhexes(s[1..]);
      assert Hex(s)[2..] == Hex(s[1..]);
      NibbleReads(s[0] as int / 16);
      NibbleReads(s[0] as int % 16);
      assert s == [s[0]] + s[1..];
    }
  }

  /** uuid.Parse on the canonical form. */
  function ParseUuid(s: Bytes): Option<UUID> {
    if |s| != 36 || s[8] != DASH || s[13] != DASH || s[18] != DASH || s[23] != DASH then None
    else Unhex(s[0..8] + s[9..13] + s[14..18] + s[19..23] + s[24..36])
  }

  lemma UuidParses(u: UUID)
    ensures ParseUuid(UuidText(u)) == Some(u)
  {
    hide Hex, UuidText, Unhex;
    UuidGroups(u);
    var s := UuidText(u);
    HexConcat(u[0..4], u[4..6]);
    HexConcat(u[0..6], u[6..8]);
    HexConcat(u[0..8], u[8..10]);
    HexConcat(u[0..10], u[10..16]);
    assert u[0..4] + u[4..6] == u[0..6] && u[0..6] + u[6..8] == u[0..8] && u[0..8] + u[8..10] == u[0..10] && u[0..10] + u[10..16] == u;
    assert s[0..8] + s[9..13] + s[14..18] + s[19..23] + s[24..36] == Hex(u);
    HexUnhexes(u);
  }

  lemma {:induction false} HexConcat(s: Bytes, t: Bytes)
    ensures Hex(s + t) == Hex(s) + Hex(t)
  {
    hide Nibble;
    if s == [] {
      assert s + t == t;
    } else {
      HexConcat(s[1..], t);
      assert (s + t)[1..] == s[1..] + t;
    }
  }

  // ---------------------------------------------------------------- cursors

  /** strings.Cut around the first separator: its position. */
  function Find(s: Bytes, c: Byte): (i: nat)
    ensures i <= |s| && c !in s[..i] && (i < |s| ==> s[i] == c)
  {
    if s == [] || s[0] == c then 0 else Find(s[1..], c) + 1
  }

  lemma {:induction false} FindFirst(a: Bytes, c: Byte, b: Bytes)
    requires c !in a
    ensures Find(a + [c] + b, c) == |a|
  {
    if a != [] {
      assert (a + [c] + b)[1..] == a[1..] + [c] + b;
      FindFirst(a[1..], c, b);
    }
  }

  function EncodeCursor(d: Document): Bytes {
    FormatInt(UnixNano(d.created)) + [DOT] + UuidText(d.id)
  }

  function DecodeCursor(s: Bytes): Result<Cursor, CursorError> {
    if s == [] then Success(NoCursor)
    else
      var i := Find(s, DOT);
      if i == |s| then Failure(InvalidCursor)
      else
        var nano := ParseInt(s[..i]);
        if nano.None? then Failure(InvalidCursor)
        else if nano.value < EARLIEST || nano.value > LATEST then Failure(InvalidCursor)
        else
          var id := ParseUuid(s[i + 1..]);
          if id.None? then Failure(InvalidCursor) else Success(Cursor(nano.value, id.value))
  }

  /** What decoding makes of a document's cursor: the wrapped instant, if it is in range. */
  lemma DecodeEncoded(d: Document)
    ensures EncodeCursor(d) != []
    ensures DecodeCursor(EncodeCursor(d))
            == if EARLIEST <= UnixNano(d.created) <= LATEST then Success(Cursor(UnixNano(d.created), d.id)) else Failure(InvalidCursor)
  {
    hide Itoa, FormatInt, ParseInt, UuidText, ParseUuid;
    var n := UnixNano(d.created);
    var a, b := FormatInt(n), UuidText(d.id);
    FormatParses(n);
    UuidParses(d.id);
    FindFirst(a, DOT, b);
    var s := EncodeCursor(d);
    assert s[..|a|] == a && s[|a| + 1..] == b;
  }

  /** A document's cursor comes back as its position exactly when its instant lies in the accepted range. */
  lemma CursorRoundTripIff(d: Document)
    ensures DecodeCursor(EncodeCursor(d)) == Success(Cursor(d.created, d.id))
            <==> -6795364578871345152 <= d.created <= 2534023007999999999
  {
    DecodeEncoded(d);
    WrapIffOutside(d.created);
  }

  lemma WrapIffOutside(t: Time)
    ensures UnixNano(t) == t <==> MIN_INT64 <= t <= MAX_INT64
    ensures MIN_INT64 <= UnixNano(t) <= MAX_INT64
  {
  }

  /**
   * The range was meant to be what the database can store, but its upper bound is a date in April 2050:
   * the cursor of any later document is refused, and a listing stops at the page that ends with it.
   */
  lemma LaterCursorsAreRefused(d: Document)
    requires LATEST < d.created <= MAX_INT64
    ensures DecodeCursor(EncodeCursor(d)) == Failure(InvalidCursor)
  {
    DecodeEncoded(d);
    WrapIffOutside(d.created);
  }
}
