/**
 * The length-prefixed encoding every audit hash is taken over. A Go string is a sequence of bytes,
 * and its length is counted in bytes.
 */
module AuditEncoding {
  newtype Byte = b: int | 0 <= b < 256

  type Bytes = seq<Byte>

  /** A UUID is its sixteen bytes. */
  type UUID = u: Bytes | |u| == 16 witness seq(16, _ => 0)

  const NIL_UUID: UUID := [0, 0, 0, 0, 0, 0, 0, 0, 0, 0, 0, 0, 0, 0, 0, 0]

  const COLON: Byte := 58
  const COMMA: Byte := 44
  const DASH: Byte := 45

  // ---------------------------------------------------------------- numbers

  function Digit(n: nat): Byte
    requires n < 10
  {
    48 + n as Byte
  }

  /** strconv.Itoa on a length. */
  function Itoa(n: nat): Bytes {
    if n < 10 then [Digit(n)] else Itoa(n / 10) + [Digit(n % 10)]
  }

  function Number(s: Bytes): int {
    if s == [] then 0 else Number(s[..|s| - 1]) * 10 + (s[|s| - 1] as int - 48)
  }

  lemma {:induction false} ItoaReads(n: nat)
    ensures Number(Itoa(n)) == n
    ensures Itoa(n) != [] && forall i | 0 <= i < |Itoa(n)| :: 48 <= Itoa(n)[i] <= 57
  {
    if n >= 10 {
      ItoaReads(n / 10);
      assert Itoa(n)[..|Itoa(n)| - 1] == Itoa(n / 10);
    } else {
      assert Itoa(n)[..0] == [];
    }
  }

  // ---------------------------------------------------------------- fields

  function Field(s: Bytes): Bytes {
    Itoa(|s|) + [COLON] + s + [COMMA]
  }

  function Encode(fields: seq<Bytes>): Bytes {
    if fields == [] then [] else Encode(fields[..|fields| - 1]) + Field(fields[|fields| - 1])
  }

  /** What comes before the first colon, and what comes after it. */
  lemma {:induction false} CutAtColon(p: Bytes, u: Bytes, q: Bytes, v: Bytes)
    requires p + [COLON] + u == q + [COLON] + v && COLON !in p && COLON !in q
    ensures p == q && u == v
  {
    var a, b := p + [COLON] + u, q + [COLON] + v;
    assert a[0] == if p == [] then COLON else p[0];
    assert b[0] == if q == [] then COLON else q[0];
    if p != [] && q != [] {
      assert a[1..] == p[1..] + [COLON] + u && b[1..] == q[1..] + [COLON] + v;
      CutAtColon(p[1..], u, q[1..], v);
      assert p == [p[0]] + p[1..] && q == [q[0]] + q[1..];
    } else {
      assert a[1..] == u && b[1..] == v;
    }
  }

  /** A length has no colon in it, so two encodings that start with a field start with the same one. */
  lemma FieldPrefixFree(s: Bytes, t: Bytes, x: Bytes, y: Bytes)
    requires Field(s) + x == Field(t) + y
    ensures s == t && x == y
  {
    hide Itoa, Number;
    ItoaReads(|s|);
    ItoaReads(|t|);
    var u, v := s + [COMMA] + x, t + [COMMA] + y;
    assert Field(s) + x == Itoa(|s|) + [COLON] + u && Field(t) + y == Itoa(|t|) + [COLON] + v;
    CutAtColon(Itoa(|s|), u, Itoa(|t|), v);
    assert |s| == |t| && u[..|s|] == s && v[..|s|] == t && u[|s| + 1..] == x && v[|s| + 1..] == y;
  }

  lemma {:induction false} EncodeFront(fields: seq<Bytes>)
    requires fields != []
    ensures Encode(fields) == Field(fields[0]) + Encode(fields[1..])
  {
    hide Field;
    var last := |fields| - 1;
    if last == 0 {
      assert fields[..0] == [] && fields[1..] == [];
    } else {
      var init, rest := fields[..last], fields[1..];
      EncodeFront(init);
      assert init[1..] == rest[..last - 1] && init[0] == fields[0] && rest[last - 1] == fields[last];
      Associates(Field(fields[0]), Encode(init[1..]), Field(fields[last]));
    }
  }

  lemma Associates(a: Bytes, b: Bytes, c: Bytes)
    ensures (a + b) + c == a + (b + c)
  {
  }

  /** Whatever bytes the fields hold, and however many fields there are, the encoding tells them apart. */
  lemma {:induction false} EncodeInjective(f: seq<Bytes>, g: seq<Bytes>)
    requires Encode(f) == Encode(g)
    ensures f == g
    decreases |f|
  {
    hide Itoa;
    if f != [] { EncodeFront(f); }
    if g != [] { EncodeFront(g); }
    if f != [] && g != [] {
      FieldPrefixFree(f[0], g[0], Encode(f[1..]), Encode(g[1..]));
      EncodeInjective(f[1..], g[1..]);
      assert f == [f[0]] + f[1..] && g == [g[0]] + g[1..];
    }
  }

  // ---------------------------------------------------------------- hexadecimal

  function Nibble(n: nat): Byte
    requires n < 16
  {
    if n < 10 then 48 + n as Byte else 87 + n as Byte
  }

  /** hex.EncodeToString. */
  function Hex(s: Bytes): Bytes {
    if s == [] then [] else [Nibble(s[0] as int / 16), Nibble(s[0] as int % 16)] + Hex(s[1..])
  }

  lemma {:induction false} HexLength(s: Bytes)
    ensures |Hex(s)| == 2 * |s|
  {
    if s != [] { HexLength(s[1..]); }
  }

  lemma {:induction false} HexInjective(s: Bytes, t: Bytes)
    requires Hex(s) == Hex(t)
    ensures s == t
  {
    HexLength(s);
    HexLength(t);
    if s != [] {
      var a, b := Hex(s), Hex(t);
      assert a[0] == b[0] && a[1] == b[1];
      assert a[2..] == Hex(s[1..]) && b[2..] == Hex(t[1..]);
      HexInjective(s[1..], t[1..]);
      assert s[0] as int / 16 == t[0] as int / 16 && s[0] as int % 16 == t[0] as int % 16;
      assert s == [s[0]] + s[1..] && t == [t[0]] + t[1..];
    }
  }

  /** uuid.UUID.String: groups of 8, 4, 4, 4 and 12 digits. */
  function UuidText(u: UUID): Bytes {
    Hex(u[0..4]) + [DASH] + Hex(u[4..6]) + [DASH] + Hex(u[6..8]) + [DASH] + Hex(u[8..10]) + [DASH] + Hex(u[10..16])
  }

  lemma UuidTextInjective(u: UUID, v: UUID)
    requires UuidText(u) == UuidText(v)
    ensures u == v
  {
    hide Hex, UuidText;
    UuidGroups(u);
    UuidGroups(v);
    HexInjective(u[0..4], v[0..4]);
    HexInjective(u[4..6], v[4..6]);
    HexInjective(u[6..8], v[6..8]);
    HexInjective(u[8..10], v[8..10]);
    HexInjective(u[10..16], v[10..16]);
    assert u == u[0..4] + u[4..6] + u[6..8] + u[8..10] + u[10..16];
    assert v == v[0..4] + v[4..6] + v[6..8] + v[8..10] + v[10..16];
  }

  lemma UuidGroups(u: UUID)
    ensures |UuidText(u)| == 36
    ensures UuidText(u)[0..8] == Hex(u[0..4]) && UuidText(u)[9..13] == Hex(u[4..6]) && UuidText(u)[14..18] == Hex(u[6..8])
    ensures UuidText(u)[19..23] == Hex(u[8..10]) && UuidText(u)[24..36] == Hex(u[10..16])
    ensures UuidText(u)[8] == DASH && UuidText(u)[13] == DASH && UuidText(u)[18] == DASH && UuidText(u)[23] == DASH
  {
    hide Hex;
    HexLength(u[0..4]);
    HexLength(u[4..6]);
    HexLength(u[6..8]);
    HexLength(u[8..10]);
    HexLength(u[10..16]);
    Grouped(Hex(u[0..4]), Hex(u[4..6]), Hex(u[6..8]), Hex(u[8..10]), Hex(u[10..16]));
  }

  lemma Grouped(a: Bytes, b: Bytes, c: Bytes, d: Bytes, e: Bytes)
    requires |a| == 8 && |b| == |c| == |d| == 4 && |e| == 12
    ensures var t := a + [DASH] + b + [DASH] + c + [DASH] + d + [DASH] + e;
            && |t| == 36 && t[0..8] == a && t[9..13] == b && t[14..18] == c && t[19..23] == d && t[24..36] == e
            && t[8] == DASH && t[13] == DASH && t[18] == DASH && t[23] == DASH
  {
    var t := a + [DASH] + b + [DASH] + c + [DASH] + d + [DASH] + e;
    assert t[0..8] == a;
    assert t[9..13] == b;
    assert t[14..18] == c;
    assert t[19..23] == d;
    assert t[24..36] == e;
  }
}
