/**
 * The audit hash chain: what each hash binds, the verifier, and what acceptance proves. SHA-256
 * (section 6.2 of FIPS 180-4), the keyed tag (HMAC, section 2 of RFC 2104) and the clock's text
 * format are parameters; no theorem assumes the hash injective, it exhibits a collision instead.
 */
module AuditChain {
  import opened Wrappers
  import opened AuditEncoding

  type Time = int

  datatype Primitives = Primitives(sha: Bytes -> Bytes, sign: Bytes -> Bytes, format: Time -> Bytes, parse: Bytes -> Option<Time>)
  {
    /** Every instant the clock returns reads back from its RFC 3339 text, which is never empty. */
    ghost predicate Faithful() {
      parse([]) == None && forall t {:trigger format(t)} :: parse(format(t)) == Some(t)
    }

    lemma FormatInjective(t: Time, u: Time)
      requires Faithful() && format(t) == format(u)
      ensures t == u
    {
      assert parse(format(t)) == parse(format(u));
    }
  }

  datatype Event = Event(
    id: UUID, eventId: UUID, timestamp: Time, traceId: UUID, spanId: UUID,
    actorType: Bytes, actorId: UUID, targetType: Bytes, targetId: UUID, eventType: Bytes, outcome: Bytes,
    hashParent: UUID, hashValue: Bytes, hashGeneratedAt: Time,
    signature: Bytes, signatureGeneratedAt: Time, genesis: bool, principle: Bytes)

  const GENESIS_HASH: Bytes := seq(64, _ => 48)
  const GENESIS_OUTCOME: Bytes := [103, 101, 110, 101, 115, 105, 115]
  const TRUE: Bytes := [116, 114, 117, 101]
  const FALSE: Bytes := [102, 97, 108, 115, 101]

  function FormatBool(b: bool): Bytes {
    if b then TRUE else FALSE
  }

  // ---------------------------------------------------------------- what is hashed

  function GenesisFields(P: Primitives, e: Event): seq<Bytes> {
    [GENESIS_HASH, P.format(e.timestamp), e.outcome, e.principle]
  }

  function PredecessorFields(P: Primitives, prev: Event): seq<Bytes> {
    [UuidText(prev.eventId), Hex(prev.hashValue), P.format(prev.timestamp), FormatBool(prev.genesis)]
  }

  function LinkedFields(P: Primitives, e: Event): seq<Bytes> {
    [UuidText(e.eventId), P.format(e.timestamp), e.eventType, e.actorType, UuidText(e.actorId),
     e.targetType, UuidText(e.targetId), e.outcome, e.principle]
  }

  function ChainFields(P: Primitives, prev: Event, e: Event): seq<Bytes> {
    PredecessorFields(P, prev) + LinkedFields(P, e)
  }

  /** strings.Builder, with the fields written so far. */
  class Builder {
    var buf: Bytes
    ghost var fields: seq<Bytes>

    ghost predicate Valid()
      reads this
    {
      buf == Encode(fields)
    }

    constructor ()
      ensures Valid() && fields == []
    {
      buf, fields := [], [];
    }

    method WriteField(s: Bytes)
      requires Valid()
      modifies this
      ensures Valid() && fields == old(fields) + [s]
    {
      buf := buf + Itoa(|s|);
      buf := buf + [COLON];
      buf := buf + s;
      buf := buf + [COMMA];
      assert (fields + [s])[..|fields|] == fields;
      fields := fields + [s];
    }
  }

  method GenesisPreimage(P: Primitives, e: Event) returns (pre: Bytes)
    ensures pre == Encode(GenesisFields(P, e))
  {
    hide Encode;
    var b := new Builder();
    b.WriteField(GENESIS_HASH);
    b.WriteField(P.format(e.timestamp));
    b.WriteField(e.outcome);
    b.WriteField(e.principle);
    assert b.fields == GenesisFields(P, e);
    pre := b.buf;
  }

  method ChainPreimage(P: Primitives, prev: Event, e: Event) returns (pre: Bytes)
    ensures pre == Encode(ChainFields(P, prev, e))
  {
    hide Encode, PredecessorFields, LinkedFields;
    var b := new Builder();
    WritePredecessor(P, b, prev);
    WriteLinked(P, b, e);
    pre := b.buf;
  }

  /** The first part of ChainPreimage: what is bound of the predecessor. */
  method WritePredecessor(P: Primitives, b: Builder, prev: Event)
    requires b.Valid() && b.fields == []
    modifies b
    ensures b.Valid() && b.fields == PredecessorFields(P, prev)
  {
    hide Encode, UuidText, Hex, FormatBool;
    b.WriteField(UuidText(prev.eventId));
    b.WriteField(Hex(prev.hashValue));
    b.WriteField(P.format(prev.timestamp));
    b.WriteField(FormatBool(prev.genesis));
    assert b.fields == PredecessorFields(P, prev);
  }

  /** The second part of ChainPreimage: what is bound of the event itself. */
  method WriteLinked(P: Primitives, b: Builder, e: Event)
    requires b.Valid()
    modifies b
    ensures b.Valid() && b.fields == old(b.fields) + LinkedFields(P, e)
  {
    hide Encode, UuidText, Hex, FormatBool;
    b.WriteField(UuidText(e.eventId));
    b.WriteField(P.format(e.timestamp));
    b.WriteField(e.eventType);
    b.WriteField(e.actorType);
    b.WriteField(UuidText(e.actorId));
    b.WriteField(e.targetType);
    b.WriteField(UuidText(e.targetId));
    b.WriteField(e.outcome);
    b.WriteField(e.principle);
    assert b.fields == old(b.fields) + LinkedFields(P, e);
  }

  /** The predecessor part of a chain pre-image determines the predecessor's hash; the rest, every bound field. */
  lemma ChainFieldsInjective(P: Primitives, p: Event, e: Event, q: Event, f: Event)
    requires P.Faithful() && Encode(ChainFields(P, p, e)) == Encode(ChainFields(P, q, f))
    ensures p.hashValue == q.hashValue && SamePredecessor(p, q) && SameLinked(e, f)
  {
    hide Encode, UuidText, Hex, P.Faithful;
    EncodeInjective(ChainFields(P, p, e), ChainFields(P, q, f));
    var a, b := PredecessorFields(P, p), PredecessorFields(P, q);
    var c, d := LinkedFields(P, e), LinkedFields(P, f);
    assert a == (a + c)[..4] == (b + d)[..4] == b && c == (a + c)[4..] == (b + d)[4..] == d;
    assert forall i | 0 <= i < 4 :: a[i] == b[i];
    assert forall i | 0 <= i < 9 :: c[i] == d[i];
    UuidTextInjective(p.eventId, q.eventId);
    HexInjective(p.hashValue, q.hashValue);
    P.FormatInjective(p.timestamp, q.timestamp);
    UuidTextInjective(e.eventId, f.eventId);
    P.FormatInjective(e.timestamp, f.timestamp);
    UuidTextInjective(e.actorId, f.actorId);
    UuidTextInjective(e.targetId, f.targetId);
    assert TRUE[0] != FALSE[0];
  }

  /** A root pre-image has four fields and a link pre-image thirteen: neither passes for the other. */
  lemma RootIsNoLink(P: Primitives, r: Event, p: Event, e: Event)
    ensures Encode(GenesisFields(P, r)) != Encode(ChainFields(P, p, e))
  {
    if Encode(GenesisFields(P, r)) == Encode(ChainFields(P, p, e)) {
      EncodeInjective(GenesisFields(P, r), ChainFields(P, p, e));
    }
  }

  // ---------------------------------------------------------------- what a hash binds

  /** Bound by the successor's hash. */
  predicate SamePredecessor(p: Event, q: Event) {
    p.eventId == q.eventId && p.timestamp == q.timestamp && p.genesis == q.genesis
  }

  /** Bound by the event's own link hash. */
  predicate SameLinked(e: Event, f: Event) {
    && e.eventId == f.eventId && e.timestamp == f.timestamp && e.eventType == f.eventType
    && e.actorType == f.actorType && e.actorId == f.actorId && e.targetType == f.targetType && e.targetId == f.targetId
    && e.outcome == f.outcome && e.principle == f.principle
  }

  /** Bound by a root's own hash. */
  predicate SameRoot(e: Event, f: Event) {
    e.timestamp == f.timestamp && e.outcome == f.outcome && e.principle == f.principle
  }

  /** Two chains agree on everything the hashes of one of them bind, up to position k. */
  ghost predicate AgreeUpTo(a: seq<Event>, b: seq<Event>, k: nat)
    requires k < |a| && k < |b|
  {
    && a[0].genesis == b[0].genesis && SameRoot(a[0], b[0])
    && (forall i | 0 <= i <= k :: a[i].hashValue == b[i].hashValue && a[i].signature == b[i].signature)
    && (forall i | 1 <= i <= k :: SameLinked(a[i], b[i]))
    && (forall i | 0 <= i < k :: SamePredecessor(a[i], b[i]))
  }

  ghost predicate Agree(a: seq<Event>, b: seq<Event>) {
    |a| == |b| > 0 && AgreeUpTo(a, b, |a| - 1)
  }

  // ---------------------------------------------------------------- acceptance

  predicate Signed(P: Primitives, e: Event) {
    e.signature == P.sign(e.hashValue)
  }

  predicate Rooted(P: Primitives, e: Event) {
    e.genesis && e.hashValue == P.sha(Encode(GenesisFields(P, e))) && Signed(P, e)
  }

  predicate Linked(P: Primitives, prev: Event, e: Event) {
    e.hashValue == P.sha(Encode(ChainFields(P, prev, e))) && Signed(P, e)
  }

  ghost predicate Verified(P: Primitives, es: seq<Event>) {
    |es| > 0 && Rooted(P, es[0]) && forall i | 1 <= i < |es| :: Linked(P, es[i - 1], es[i])
  }

  /** The chain as the pointers the verifier is handed. */
  function Pointers(es: seq<Event>): seq<Option<Event>> {
    seq(|es|, i requires 0 <= i < |es| => Some(es[i]))
  }

  /** Accepts exactly the verified chains: an empty one, or one with a nil event, is refused. */
  method VerifyHashChain(P: Primitives, events: seq<Option<Event>>) returns (ok: bool)
    ensures ok <==> exists es :: events == Pointers(es) && Verified(P, es)
  {
    hide Encode, GenesisFields, ChainFields;
    if |events| == 0 {
      return false;
    }
    ghost var es := [];
    for i := 0 to |events|
      invariant |es| == i && events[..i] == Pointers(es)
      invariant i > 0 ==> Verified(P, es)
    {
      if events[i].None? {
        return false;
      }
      var event := events[i].value;
      var pre;
      if i == 0 {
        if !event.genesis {
          return false;
        }
        pre := GenesisPreimage(P, event);
      } else {
        assert events[i - 1] == Some(es[i - 1]);
        pre := ChainPreimage(P, events[i - 1].value, event);
      }
      if event.hashValue != P.sha(pre) {
        return false;
      }
      if event.signature != P.sign(event.hashValue) {
        return false;
      }
      es := es + [event];
      assert events[..i + 1] == Pointers(es);
    }
    assert events == Pointers(es);
    return true;
  }

  // ---------------------------------------------------------------- what acceptance proves

  function Preimage(P: Primitives, es: seq<Event>, i: nat): Bytes
    requires i < |es|
  {
    Encode(if i == 0 then GenesisFields(P, es[0]) else ChainFields(P, es[i - 1], es[i]))
  }

  predicate Collides(P: Primitives, x: Bytes, y: Bytes) {
    x != y && P.sha(x) == P.sha(y)
  }

  /** Two different pre-images of the two chains have one SHA-256 value. */
  ghost predicate Collision(P: Primitives, a: seq<Event>, b: seq<Event>) {
    exists i, j | 0 <= i < |a| && 0 <= j < |b| :: Collides(P, Preimage(P, a, i), Preimage(P, b, j))
  }

  /**
   * One hash value pins the whole history before it: if an accepted chain has at position j the hash
   * another accepted chain has at position k, then j is k and the two agree on every bound field of
   * every event up to there, or the two chains exhibit a SHA-256 collision.
   */
  lemma {:induction false} HashPinsHistory(P: Primitives, a: seq<Event>, b: seq<Event>, k: nat, j: nat)
    requires P.Faithful() && Verified(P, a) && Verified(P, b)
    requires k < |a| && j < |b| && a[k].hashValue == b[j].hashValue
    ensures Collision(P, a, b) || (k == j && AgreeUpTo(a, b, k))
    decreases k
  {
    hide Encode, P.Faithful, SameLinked, SamePredecessor, GenesisFields, ChainFields;
    assert a[k].hashValue == P.sha(Preimage(P, a, k)) && b[j].hashValue == P.sha(Preimage(P, b, j));
    if Preimage(P, a, k) != Preimage(P, b, j) {
      assert Collides(P, Preimage(P, a, k), Preimage(P, b, j));
    } else if k == 0 && j == 0 {
      GenesisFieldsInjective(P, a[0], b[0]);
    } else if k == 0 {
      RootIsNoLink(P, a[0], b[j - 1], b[j]);
    } else if j == 0 {
      RootIsNoLink(P, b[0], a[k - 1], a[k]);
    } else {
      ChainFieldsInjective(P, a[k - 1], a[k], b[j - 1], b[j]);
      HashPinsHistory(P, a, b, k - 1, j - 1);
    }
  }

  /** Two accepted chains with the same last hash agree, in length and in every bound field. */
  lemma TamperEvidence(P: Primitives, a: seq<Event>, b: seq<Event>)
    requires P.Faithful() && Verified(P, a) && Verified(P, b) && a[|a| - 1].hashValue == b[|b| - 1].hashValue
    ensures Collision(P, a, b) || Agree(a, b)
  {
    HashPinsHistory(P, a, b, |a| - 1, |b| - 1);
  }

  /** Nothing else is bound: a chain that agrees with an accepted one there is accepted as well. */
  lemma AgreeingIsAccepted(P: Primitives, a: seq<Event>, b: seq<Event>)
    requires Verified(P, a) && Agree(a, b)
    ensures Verified(P, b)
  {
    hide Encode, UuidText, Hex;
    assert GenesisFields(P, b[0]) == GenesisFields(P, a[0]);
    forall i | 1 <= i < |b| ensures Linked(P, b[i - 1], b[i]) {
      assert Linked(P, a[i - 1], a[i]);
      assert SamePredecessor(a[i - 1], b[i - 1]) && SameLinked(a[i], b[i]);
    }
  }

  /** So, without a collision, what the verifier and a remembered last hash pin down is exactly the bound fields. */
  lemma AcceptedIffAgreeing(P: Primitives, a: seq<Event>, b: seq<Event>)
    requires P.Faithful() && Verified(P, a) && !Collision(P, a, b)
    ensures Agree(a, b) <==> Verified(P, b) && b[|b| - 1].hashValue == a[|a| - 1].hashValue
  {
    if Agree(a, b) { AgreeingIsAccepted(P, a, b); }
    if Verified(P, b) && b[|b| - 1].hashValue == a[|a| - 1].hashValue { TamperEvidence(P, a, b); }
  }

  lemma GenesisFieldsInjective(P: Primitives, e: Event, f: Event)
    requires P.Faithful() && Encode(GenesisFields(P, e)) == Encode(GenesisFields(P, f))
    ensures SameRoot(e, f)
  {
    hide Encode, P.Faithful;
    EncodeInjective(GenesisFields(P, e), GenesisFields(P, f));
    assert forall i | 0 <= i < 4 :: GenesisFields(P, e)[i] == GenesisFields(P, f)[i];
    P.FormatInjective(e.timestamp, f.timestamp);
  }

  // ---------------------------------------------------------------- building a chain

  function GenesisEvent(P: Primitives, principle: Bytes, now: Time, id: UUID, eventId: UUID): Event {
    var e := Event(id, eventId, now, NIL_UUID, NIL_UUID, [], NIL_UUID, [], NIL_UUID, [], GENESIS_OUTCOME,
                   NIL_UUID, [], now, [], now, true, principle);
    Sealed(P, e, GenesisFields(P, e))
  }

  /** The hash over the given fields and the keyed tag over the hash. */
  function Sealed(P: Primitives, e: Event, fields: seq<Bytes>): Event {
    var hash := P.sha(Encode(fields));
    e.(hashValue := hash, signature := P.sign(hash))
  }

  datatype Record = Record(eventType: Bytes, actorType: Bytes, actorId: UUID, targetType: Bytes, targetId: UUID,
                           outcome: Bytes, principle: Bytes, workspace: Option<UUID>)

  function AppendEvent(P: Primitives, prev: Event, rec: Record, now: Time, id: UUID, eventId: UUID): Event {
    var e := Event(id, eventId, now, NIL_UUID, NIL_UUID, rec.actorType, rec.actorId, rec.targetType, rec.targetId,
                   rec.eventType, rec.outcome, prev.id, [], now, [], now, false, rec.principle);
    Sealed(P, e, ChainFields(P, prev, e))
  }

  /** The event tells what was recorded, when and under which ids, and names its predecessor. */
  predicate Tells(e: Event, rec: Record, now: Time, id: UUID, eventId: UUID, parent: UUID) {
    && e.eventType == rec.eventType && e.outcome == rec.outcome && e.principle == rec.principle
    && e.actorType == rec.actorType && e.actorId == rec.actorId
    && e.targetType == rec.targetType && e.targetId == rec.targetId
    && e.id == id && e.eventId == eventId && e.hashParent == parent && !e.genesis
    && e.timestamp == e.hashGeneratedAt == e.signatureGeneratedAt == now
    && e.traceId == e.spanId == NIL_UUID
  }

  lemma AppendTells(P: Primitives, prev: Event, rec: Record, now: Time, id: UUID, eventId: UUID)
    ensures Tells(AppendEvent(P, prev, rec, now, id, eventId), rec, now, id, eventId, prev.id)
  {
  }

  /** A root is flagged as one, has the outcome "genesis" and its principle, and neither actor, target, type nor parent. */
  lemma GenesisTells(P: Primitives, principle: Bytes, now: Time, id: UUID, eventId: UUID)
    ensures var e := GenesisEvent(P, principle, now, id, eventId);
            && e.genesis && e.principle == principle && e.outcome == [103, 101, 110, 101, 115, 105, 115]
            && e.actorType == e.targetType == e.eventType == [] && e.actorId == e.targetId == e.hashParent == NIL_UUID
            && e.id == id && e.eventId == eventId && e.timestamp == now
            && GenesisFields(P, e) == [seq(64, _ => '0' as Byte), P.format(now), e.outcome, principle]
  {
  }

  /** A root starts a verified chain, and an event appended to the last one extends it. */
  lemma AppendKeepsVerified(P: Primitives, es: seq<Event>, rec: Record, principle: Bytes, now: Time, id: UUID, eventId: UUID)
    ensures Verified(P, [GenesisEvent(P, principle, now, id, eventId)])
    ensures Verified(P, es) ==> Verified(P, es + [AppendEvent(P, es[|es| - 1], rec, now, id, eventId)])
  {
    hide Encode, UuidText, Hex;
    if Verified(P, es) {
      var e := AppendEvent(P, es[|es| - 1], rec, now, id, eventId);
      var es' := es + [e];
      assert Linked(P, es[|es| - 1], e);
      forall i | 1 <= i < |es'| ensures Linked(P, es'[i - 1], es'[i]) {
        if i < |es| { assert Linked(P, es[i - 1], es[i]); }
      }
    }
  }

  /** An event linked to any but the last one is refused: this is why an appender re-reads the head under the lock. */
  lemma ForkIsRefused(P: Primitives, es: seq<Event>, k: nat, rec: Record, now: Time, id: UUID, eventId: UUID)
    requires P.Faithful() && Verified(P, es) && k < |es| - 1
    requires forall i, j | 0 <= i < j < |es| :: es[i].eventId != es[j].eventId
    ensures var e := AppendEvent(P, es[k], rec, now, id, eventId);
            Verified(P, es + [e]) ==> Collides(P, Encode(ChainFields(P, es[k], e)), Encode(ChainFields(P, es[|es| - 1], e)))
  {
    hide Encode, ChainFields;
    var e := AppendEvent(P, es[k], rec, now, id, eventId);
    var last := es[|es| - 1];
    if Verified(P, es + [e]) {
      assert Linked(P, (es + [e])[|es| - 1], (es + [e])[|es|]);
      LinkIgnoresSeal(P, es[k], e, rec, now, id, eventId);
      if Encode(ChainFields(P, es[k], e)) == Encode(ChainFields(P, last, e)) {
        ChainFieldsInjective(P, es[k], e, last, e);
      }
    }
  }

  lemma LinkIgnoresSeal(P: Primitives, prev: Event, e: Event, rec: Record, now: Time, id: UUID, eventId: UUID)
    requires e == AppendEvent(P, prev, rec, now, id, eventId)
    ensures Linked(P, prev, e)
  {
    hide Encode;
  }

  /** A second root later in the chain is refused: two processes that both open an empty log leave one nobody verifies. */
  lemma SecondRootIsRefused(P: Primitives, es: seq<Event>, i: nat)
    requires 1 <= i < |es| && Rooted(P, es[i])
    ensures Verified(P, es) ==> Collides(P, Encode(GenesisFields(P, es[i])), Encode(ChainFields(P, es[i - 1], es[i])))
  {
    RootIsNoLink(P, es[i], es[i - 1], es[i]);
  }

  /** The verifier alone does not see a truncation: every non-empty prefix of a verified chain is verified. */
  lemma PrefixIsVerified(P: Primitives, es: seq<Event>, n: nat)
    requires Verified(P, es) && 0 < n <= |es|
    ensures Verified(P, es[..n])
  {
    hide Encode, ChainFields, GenesisFields;
    forall i | 1 <= i < n ensures Linked(P, es[..n][i - 1], es[..n][i]) {
      assert Linked(P, es[i - 1], es[i]);
    }
  }
}
