/** The message signed off-chain for a metadata update, and a reader that shows the layout is
    uniquely decodable. */
module Metadata {
  import opened Base

  type byte = x: nat | x < 256

  type uint32 = x: nat | x < 0x1_0000_0000

  type uint64 = x: nat | x < 0x1_0000_0000_0000_0000

  /** "SBL_META_SIGNED_v1" and fourteen zero bytes. */
  const DOMAIN_TAG: seq<byte> :=
    [83, 66, 76, 95, 77, 69, 84, 65, 95, 83, 73, 71, 78, 69, 68, 95, 118, 49,
     0, 0, 0, 0, 0, 0, 0, 0, 0, 0, 0, 0, 0, 0]

  datatype Payload = Payload(subscriptionId: uint32, key: seq<byte>, value: seq<byte>, nonce: uint64, expiresAt: uint64)

  /** Strings are at most a u32 long and a network id has 32 bytes. */
  predicate Wellformed(p: Payload, network: seq<byte>) {
    |p.key| <= U32_MAX && |p.value| <= U32_MAX && |network| == 32
  }

  // ----- Integers -----

  function Pow256(n: nat): (r: nat)
    ensures r > 0
  {
    if n == 0 then 1 else 256 * Pow256(n - 1)
  }

  /** The n low bytes of a number, the most significant first. */
  function BigEndian(x: nat, n: nat): (r: seq<byte>)
    ensures |r| == n
  {
    if n == 0 then [] else BigEndian(x / 256, n - 1) + [x % 256]
  }

  function FromBigEndian(b: seq<byte>): nat {
    if b == [] then 0 else 256 * FromBigEndian(b[..|b| - 1]) + b[|b| - 1]
  }

  lemma {:induction false} IntegerRoundTrip(x: nat, n: nat)
    requires x < Pow256(n)
    ensures FromBigEndian(BigEndian(x, n)) == x
  {
    if n > 0 {
      assert x / 256 < Pow256(n - 1);
      IntegerRoundTrip(x / 256, n - 1);
      assert BigEndian(x, n)[..n - 1] == BigEndian(x / 256, n - 1);
    }
  }

  lemma {:induction false} BytesRoundTrip(b: seq<byte>)
    ensures BigEndian(FromBigEndian(b), |b|) == b && FromBigEndian(b) < Pow256(|b|)
  {
    if b != [] {
      var init := b[..|b| - 1];
      BytesRoundTrip(init);
      assert FromBigEndian(b) / 256 == FromBigEndian(init) && FromBigEndian(b) % 256 == b[|b| - 1];
    }
  }

  lemma Widths()
    ensures Pow256(4) == 0x1_0000_0000 && Pow256(8) == 0x1_0000_0000_0000_0000
  {
    assert Pow256(2) == 0x1_0000 && Pow256(4) == 0x1_0000_0000 && Pow256(6) == 0x1_0000_0000_0000;
  }

  // ----- The message -----

  /** A string with its length in front. */
  function Field(s: seq<byte>): seq<byte> { BigEndian(|s|, 4) + s }

  function Message(p: Payload, network: seq<byte>): seq<byte> {
    DOMAIN_TAG + BigEndian(p.subscriptionId, 4) + Field(p.key) + Field(p.value) + BigEndian(p.nonce, 8) + Field(network) + BigEndian(p.expiresAt, 8)
  }

  /** The buffer is extended field by field; empty strings add only their length. */
  method BuildMessage(p: Payload, network: seq<byte>) returns (buf: seq<byte>)
    ensures buf == Message(p, network)
  {
    hide BigEndian, Message, Field;
    buf := DOMAIN_TAG;
    buf := buf + BigEndian(p.subscriptionId, 4);
    buf := buf + BigEndian(|p.key|, 4);
    assert |p.key| == 0 ==> buf + p.key == buf;
    if |p.key| > 0 { buf := buf + p.key; }
    buf := buf + BigEndian(|p.value|, 4);
    assert |p.value| == 0 ==> buf + p.value == buf;
    if |p.value| > 0 { buf := buf + p.value; }
    buf := buf + BigEndian(p.nonce, 8);
    buf := buf + BigEndian(|network|, 4);
    buf := buf + network;
    buf := buf + BigEndian(p.expiresAt, 8);
    AppendingFields(p, network);
  }

  lemma AppendingFields(p: Payload, network: seq<byte>)
    ensures DOMAIN_TAG + BigEndian(p.subscriptionId, 4) + BigEndian(|p.key|, 4) + p.key + BigEndian(|p.value|, 4) + p.value
          + BigEndian(p.nonce, 8) + BigEndian(|network|, 4) + network + BigEndian(p.expiresAt, 8) == Message(p, network)
  {
    hide BigEndian;
    Regroup(DOMAIN_TAG + BigEndian(p.subscriptionId, 4), BigEndian(|p.key|, 4), p.key);
    Regroup(DOMAIN_TAG + BigEndian(p.subscriptionId, 4) + Field(p.key), BigEndian(|p.value|, 4), p.value);
    Regroup(DOMAIN_TAG + BigEndian(p.subscriptionId, 4) + Field(p.key) + Field(p.value) + BigEndian(p.nonce, 8), BigEndian(|network|, 4), network);
  }

  lemma Regroup(a: seq<byte>, b: seq<byte>, c: seq<byte>)
    ensures a + b + c == a + (b + c)
  {}

  // ----- The reader -----

  function ReadInteger(b: seq<byte>, n: nat): Option<(nat, seq<byte>)> {
    if |b| < n then None else Some((FromBigEndian(b[..n]), b[n..]))
  }

  function ReadField(b: seq<byte>): Option<(seq<byte>, seq<byte>)> {
    match ReadInteger(b, 4)
    case None => None
    case Some((len, rest)) => if |rest| < len then None else Some((rest[..len], rest[len..]))
  }

  function Parse(b: seq<byte>): Option<(Payload, seq<byte>)> {
    if |b| < 32 || b[..32] != DOMAIN_TAG then None
    else
      match ReadInteger(b[32..], 4)
      case None => None
      case Some((id, b1)) =>
        match ReadField(b1)
        case None => None
        case Some((key, b2)) =>
          match ReadField(b2)
          case None => None
          case Some((value, b3)) => ParseTail(id, key, value, b3)
  }

  function ParseTail(id: nat, key: seq<byte>, value: seq<byte>, b: seq<byte>): Option<(Payload, seq<byte>)> {
    match ReadInteger(b, 8)
    case None => None
    case Some((nonce, b1)) =>
      match ReadField(b1)
      case None => None
      case Some((network, b2)) =>
        match ReadInteger(b2, 8)
        case None => None
        case Some((expiresAt, end)) =>
          if end != [] || |network| != 32 || id > U32_MAX || nonce > U64_MAX || expiresAt > U64_MAX then None
          else Some((Payload(id, key, value, nonce, expiresAt), network))
  }

  lemma ReadBackInteger(x: nat, n: nat, rest: seq<byte>)
    requires x < Pow256(n)
    ensures ReadInteger(BigEndian(x, n) + rest, n) == Some((x, rest))
  {
    IntegerRoundTrip(x, n);
    assert (BigEndian(x, n) + rest)[..n] == BigEndian(x, n);
    assert (BigEndian(x, n) + rest)[n..] == rest;
  }

  lemma ReadBackField(s: seq<byte>, rest: seq<byte>)
    requires |s| <= U32_MAX
    ensures ReadField(Field(s) + rest) == Some((s, rest))
  {
    Widths();
    ReadBackInteger(|s|, 4, s + rest);
    assert Field(s) + rest == BigEndian(|s|, 4) + (s + rest);
    assert (s + rest)[..|s|] == s && (s + rest)[|s|..] == rest;
  }

  /** Every well-formed payload is read back exactly. */
  lemma RoundTrip(p: Payload, network: seq<byte>)
    requires Wellformed(p, network)
    ensures Parse(Message(p, network)) == Some((p, network))
  {
    hide BigEndian, Field, Message, ReadField, FromBigEndian;
    Widths();
    var tail := BigEndian(p.expiresAt, 8);
    var b4 := Field(network) + tail;
    var b3 := BigEndian(p.nonce, 8) + b4;
    var b2 := Field(p.value) + b3;
    var b1 := Field(p.key) + b2;
    var b0 := BigEndian(p.subscriptionId, 4) + b1;
    MessageNested(p, network);
    assert Message(p, network) == DOMAIN_TAG + b0;
    SplitAt(DOMAIN_TAG, b0);
    ReadBackInteger(p.subscriptionId, 4, b1);
    ReadBackField(p.key, b2);
    ReadBackField(p.value, b3);
    ReadBackInteger(p.nonce, 8, b4);
    ReadBackField(network, tail);
    ReadBackInteger(p.expiresAt, 8, []);
    assert tail + [] == tail;
  }

  lemma SplitAt(a: seq<byte>, b: seq<byte>)
    ensures (a + b)[..|a|] == a && (a + b)[|a|..] == b
  {}

  lemma MessageNested(p: Payload, network: seq<byte>)
    ensures Message(p, network)
         == DOMAIN_TAG + (BigEndian(p.subscriptionId, 4) + (Field(p.key) + (Field(p.value) + (BigEndian(p.nonce, 8) + (Field(network) + BigEndian(p.expiresAt, 8))))))
  {
    hide BigEndian, Field;
  }

  /** So different payloads or networks never produce the same bytes. */
  lemma Injective(p: Payload, network: seq<byte>, q: Payload, other: seq<byte>)
    requires Wellformed(p, network) && Wellformed(q, other) && Message(p, network) == Message(q, other)
    ensures p == q && network == other
  {
    RoundTrip(p, network);
    RoundTrip(q, other);
  }

  lemma IntegerReadFrom(b: seq<byte>, n: nat)
    requires ReadInteger(b, n).Some?
    ensures b == BigEndian(ReadInteger(b, n).value.0, n) + ReadInteger(b, n).value.1
  {
    BytesRoundTrip(b[..n]);
    assert b == b[..n] + b[n..];
  }

  lemma FieldReadFrom(b: seq<byte>)
    requires ReadField(b).Some?
    ensures b == Field(ReadField(b).value.0) + ReadField(b).value.1 && |ReadField(b).value.0| <= U32_MAX
  {
    IntegerReadFrom(b, 4);
    BytesRoundTrip(b[..4]);
    Widths();
    var len := ReadInteger(b, 4).value.0;
    var rest := ReadInteger(b, 4).value.1;
    assert rest == rest[..len] + rest[len..];
  }

  /** The reader accepts nothing but messages. */
  lemma OnlyMessagesParse(b: seq<byte>)
    requires Parse(b).Some?
    ensures Wellformed(Parse(b).value.0, Parse(b).value.1) && Message(Parse(b).value.0, Parse(b).value.1) == b
  {
    hide ReadInteger, ReadField, Field, BigEndian;
    assert b == b[..32] + b[32..];
    var (p, network) := Parse(b).value;
    var b0 := b[32..];
    IntegerReadFrom(b0, 4);
    var b1 := ReadInteger(b0, 4).value.1;
    FieldReadFrom(b1);
    var b2 := ReadField(b1).value.1;
    FieldReadFrom(b2);
    var b3 := ReadField(b2).value.1;
    IntegerReadFrom(b3, 8);
    var b4 := ReadInteger(b3, 8).value.1;
    FieldReadFrom(b4);
    var b5 := ReadField(b4).value.1;
    IntegerReadFrom(b5, 8);
    assert BigEndian(p.expiresAt, 8) + [] == BigEndian(p.expiresAt, 8);
    MessageNested(p, network);
  }
}
