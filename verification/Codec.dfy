/** What travels inside an opened envelope: the handshake preamble and the
    ratchet message, as bytes and back. */
module Codec {
  import opened Wire
  import opened Keys
  import opened DoubleRatchet
  import opened Pqxdh

  const PAYLOAD_RATCHET: byte := 2
  const PAYLOAD_PREKEY: byte := 1

  /** How AEAD outputs look on the wire: `bits` spells a ciphertext, `term` says
      what a byte string is. */
  datatype Aead = Aead(bits: Ciphertext -> Bytes, term: Bytes -> Ciphertext)

  ghost predicate Faithful(aead: Aead) {
    forall c :: aead.term(aead.bits(c)) == c
  }

  /** What a recipient makes of a payload. A body is decoded separately, as its
      errors come after those of the handshake. */
  datatype Payload =
    | PreKeyPayload(preamble: Preamble, body: Result<Message>)
    | RatchetPayload(message: Result<Message>)
    | BadPayload

  // -------------------------------------------------------------------------
  // Writing
  // -------------------------------------------------------------------------

  function MessageFields(m: Message, aead: Aead): seq<Field> {
    [Prefixed(m.header.ratchetPublicKey), Uint(4, m.header.previousChainLength), Uint(4, m.header.messageNumber),
     Prefixed(aead.bits(m.ciphertext))]
  }

  function EncodePreamble(p: Preamble): Result<Bytes> {
    Written(PreambleFields(p))
  }

  function EncodeRatchetMessage(m: Message, aead: Aead): Result<Bytes> {
    Written(MessageFields(m, aead))
  }

  function EncodePreKeyPayload(p: Preamble, m: Message, aead: Aead): Result<Bytes> {
    var body :- EncodeRatchetMessage(m, aead);
    var preamble :- EncodePreamble(p);
    Written([Fixed(preamble), Prefixed(body)])
  }

  // -------------------------------------------------------------------------
  // Reading
  // -------------------------------------------------------------------------

  /** A 32-bit field. */
  function ReadU32(b: Bytes): (r: Result<(u32, Bytes)>)
    ensures r.Ok? ==> ReadUint(b, 4) == Ok((r.value.0 as nat, r.value.1))
    ensures r.Malformed? <==> ReadUint(b, 4).Malformed?
  {
    var (v, rest) :- ReadUint(b, 4);
    ValueBound(b[..4]);
    PowWidths();
    Ok((v, rest))
  }

  /** A presence byte and an id, which is there in any case. */
  function ReadOptionalId(b: Bytes): Result<(Option<nat>, Bytes)> {
    var (flag, b1) :- ReadUint(b, 1);
    var (id, b2) :- ReadUint(b1, 4);
    Ok((if flag == 1 then Some(id) else None, b2))
  }

  function ReadKeyIds(b: Bytes): Result<(KeyIds, Bytes)> {
    var (signed, b1) :- ReadUint(b, 4);
    var (signedKem, b2) :- ReadUint(b1, 4);
    var (oneTime, b3) :- ReadOptionalId(b2);
    var (oneTimeKem, b4) :- ReadOptionalId(b3);
    Ok((KeyIds(signed, signedKem, oneTime, oneTimeKem), b4))
  }

  function ReadPreamble(b: Bytes): Result<(Preamble, Bytes)> {
    var (ephemeral, b1) :- ReadPrefixed(b);
    var (kemCiphertext, b2) :- ReadPrefixed(b1);
    var (ids, b3) :- ReadKeyIds(b2);
    Ok((Preamble(ephemeral, kemCiphertext, ids), b3))
  }

  function ReadRatchetMessage(b: Bytes, aead: Aead): Result<(Message, Bytes)> {
    var (key, b1) :- ReadPrefixed(b);
    var (previous, b2) :- ReadU32(b1);
    var (number, b3) :- ReadU32(b2);
    var (ciphertext, b4) :- ReadPrefixed(b3);
    Ok((Message(Header(key, previous, number), aead.term(ciphertext)), b4))
  }

  /** The body of a prekey message may be followed by anything; a message of its
      own may not. */
  function ReadBody(b: Bytes, aead: Aead): Result<Message> {
    var (m, _) :- ReadRatchetMessage(b, aead);
    Ok(m)
  }

  function ReadWhole(b: Bytes, aead: Aead): Result<Message> {
    var (m, rest) :- ReadRatchetMessage(b, aead);
    if rest == [] then Ok(m) else Malformed
  }

  function ReadPreKeyPayload(b: Bytes, aead: Aead): Payload {
    match ReadPreamble(b)
    case Malformed => BadPayload
    case Ok((preamble, b1)) =>
      match ReadPrefixed(b1)
      case Malformed => BadPayload
      case Ok((body, b2)) => if b2 == [] then PreKeyPayload(preamble, ReadBody(body, aead)) else BadPayload
  }

  function ReadPayload(kind: byte, b: Bytes, aead: Aead): Payload {
    if kind == PAYLOAD_PREKEY then ReadPreKeyPayload(b, aead)
    else if kind == PAYLOAD_RATCHET then RatchetPayload(ReadWhole(b, aead))
    else BadPayload
  }

  // -------------------------------------------------------------------------
  // The stepping decoders
  // -------------------------------------------------------------------------

  method DecodeOptionalId(reader: Reader) returns (r: Result<Option<nat>>)
    requires reader.Valid()
    modifies reader
    ensures reader.Valid()
    ensures match ReadOptionalId(old(reader.Rest()))
            case Ok((id, rest)) => r == Ok(id) && reader.Rest() == rest
            case Malformed => r.Malformed?
  {
    var flag := reader.GetUint(1);
    if flag.Malformed? { return Malformed; }
    var id := reader.GetUint(4);
    if id.Malformed? { return Malformed; }
    r := Ok(if flag.value == 1 then Some(id.value) else None);
  }

  method DecodeKeyIds(reader: Reader) returns (r: Result<KeyIds>)
    requires reader.Valid()
    modifies reader
    ensures reader.Valid()
    ensures match ReadKeyIds(old(reader.Rest()))
            case Ok((ids, rest)) => r == Ok(ids) && reader.Rest() == rest
            case Malformed => r.Malformed?
  {
    hide ReadUint, ReadOptionalId;
    var signed := reader.GetUint(4);
    if signed.Malformed? { return Malformed; }
    var signedKem := reader.GetUint(4);
    if signedKem.Malformed? { return Malformed; }
    var oneTime := DecodeOptionalId(reader);
    if oneTime.Malformed? { return Malformed; }
    var oneTimeKem := DecodeOptionalId(reader);
    if oneTimeKem.Malformed? { return Malformed; }
    r := Ok(KeyIds(signed.value, signedKem.value, oneTime.value, oneTimeKem.value));
  }

  method DecodePreamble(reader: Reader) returns (r: Result<Preamble>)
    requires reader.Valid()
    modifies reader
    ensures reader.Valid()
    ensures match ReadPreamble(old(reader.Rest()))
            case Ok((p, rest)) => r == Ok(p) && reader.Rest() == rest
            case Malformed => r.Malformed?
  {
    hide ReadPrefixed, ReadKeyIds;
    var ephemeral := reader.GetPrefixed();
    if ephemeral.Malformed? { return Malformed; }
    var kemCiphertext := reader.GetPrefixed();
    if kemCiphertext.Malformed? { return Malformed; }
    var ids := DecodeKeyIds(reader);
    if ids.Malformed? { return Malformed; }
    r := Ok(Preamble(ephemeral.value, kemCiphertext.value, ids.value));
  }

  method DecodeU32(reader: Reader) returns (r: Result<u32>)
    requires reader.Valid()
    modifies reader
    ensures reader.Valid()
    ensures match ReadU32(old(reader.Rest()))
            case Ok((v, rest)) => r == Ok(v) && reader.Rest() == rest
            case Malformed => r.Malformed?
  {
    hide ReadUint;
    ghost var expected := ReadU32(reader.Rest());
    var v := reader.GetUint(4);
    if v.Malformed? { return Malformed; }
    assert expected.Ok?;
    r := Ok(v.value);
  }

  method DecodeRatchetMessage(reader: Reader, aead: Aead) returns (r: Result<Message>)
    requires reader.Valid()
    modifies reader
    ensures reader.Valid()
    ensures match ReadRatchetMessage(old(reader.Rest()), aead)
            case Ok((m, rest)) => r == Ok(m) && reader.Rest() == rest
            case Malformed => r.Malformed?
  {
    hide ReadPrefixed, ReadU32;
    var key := reader.GetPrefixed();
    if key.Malformed? { return Malformed; }
    var previous := DecodeU32(reader);
    if previous.Malformed? { return Malformed; }
    var number := DecodeU32(reader);
    if number.Malformed? { return Malformed; }
    var ciphertext := reader.GetPrefixed();
    if ciphertext.Malformed? { return Malformed; }
    r := Ok(Message(Header(key.value, previous.value, number.value), aead.term(ciphertext.value)));
  }

  // -------------------------------------------------------------------------
  // Round trips
  // -------------------------------------------------------------------------

  lemma Peel(fs: seq<Field>, rest: Bytes)
    requires fs != [] && AllInRange(fs)
    ensures InRange(fs[0]) && AllInRange(fs[1..])
    ensures Encode(fs) + rest == EncodeField(fs[0]) + (Encode(fs[1..]) + rest)
  {
  }

  lemma OptionalIdBack(id: Option<nat>, tail: seq<Field>, rest: Bytes)
    requires AllInRange([Flag(id), IdOrZero(id)] + tail)
    ensures AllInRange(tail)
    ensures ReadOptionalId(Encode([Flag(id), IdOrZero(id)] + tail) + rest) == Ok((id, Encode(tail) + rest))
  {
    hide Encode, BigEndian, ReadUint;
    var fs := [Flag(id), IdOrZero(id)] + tail;
    Peel(fs, rest);
    Peel(fs[1..], rest);
    assert fs[1..][1..] == tail;
    ReadUintBack(Flag(id).value, 1, Encode(fs[1..]) + rest);
    ReadUintBack(IdOrZero(id).value, 4, Encode(tail) + rest);
  }

  lemma KeyIdsBack(ids: KeyIds, rest: Bytes)
    requires AllInRange(IdFields(ids))
    ensures ReadKeyIds(Encode(IdFields(ids)) + rest) == Ok((ids, rest))
  {
    hide Encode, BigEndian, ReadUint, ReadOptionalId, Flag, IdOrZero;
    var fs := IdFields(ids);
    var last := [Flag(ids.oneTimeKemPreKeyId), IdOrZero(ids.oneTimeKemPreKeyId)];
    Peel(fs, rest);
    Peel(fs[1..], rest);
    ReadUintBack(ids.signedPreKeyId, 4, Encode(fs[1..]) + rest);
    ReadUintBack(ids.signedKemPreKeyId, 4, Encode(fs[1..][1..]) + rest);
    assert fs[1..][1..] == [Flag(ids.oneTimePreKeyId), IdOrZero(ids.oneTimePreKeyId)] + last;
    OptionalIdBack(ids.oneTimePreKeyId, last, rest);
    assert last == last + [];
    OptionalIdBack(ids.oneTimeKemPreKeyId, [], rest);
    assert Encode([]) + rest == rest by { EncodeNone(); }
  }

  lemma EncodeNone()
    ensures Encode([]) == []
  {
  }

  /** A preamble survives its codec, whatever follows it. */
  lemma PreambleBack(p: Preamble, rest: Bytes)
    requires EncodePreamble(p).Ok?
    ensures ReadPreamble(EncodePreamble(p).value + rest) == Ok((p, rest))
  {
    hide Encode, ReadPrefixed, ReadKeyIds, IdFields, EncodeField;
    var fs := PreambleFields(p);
    Peel(fs, rest);
    Peel(fs[1..], rest);
    assert fs[0] == Prefixed(p.ephemeralPublicKey) && fs[1] == Prefixed(p.kemCiphertext);
    assert fs[1..][1..] == IdFields(p.keyIds);
    ReadPrefixedBack(p.ephemeralPublicKey, Encode(fs[1..]) + rest);
    ReadPrefixedBack(p.kemCiphertext, Encode(fs[1..][1..]) + rest);
    KeyIdsBack(p.keyIds, rest);
  }

  lemma U32Back(v: u32, rest: Bytes)
    requires InRange(Uint(4, v))
    ensures ReadU32(EncodeField(Uint(4, v)) + rest) == Ok((v, rest))
  {
    ReadUintBack(v, 4, rest);
  }

  /** A ratchet message survives its codec, whatever follows it. */
  lemma RatchetMessageBack(m: Message, aead: Aead, rest: Bytes)
    requires Faithful(aead) && EncodeRatchetMessage(m, aead).Ok?
    ensures ReadRatchetMessage(EncodeRatchetMessage(m, aead).value + rest, aead) == Ok((m, rest))
  {
    hide Encode, ReadPrefixed, ReadU32, EncodeField;
    var fs := MessageFields(m, aead);
    var c := aead.bits(m.ciphertext);
    Peel(fs, rest);
    Peel(fs[1..], rest);
    Peel(fs[2..], rest);
    Peel(fs[3..], rest);
    assert fs[1..][1..] == fs[2..] && fs[2..][1..] == fs[3..] && fs[3..][1..] == [];
    assert Encode([]) + rest == rest by { EncodeNone(); }
    ReadPrefixedBack(m.header.ratchetPublicKey, Encode(fs[1..]) + rest);
    U32Back(m.header.previousChainLength, Encode(fs[2..]) + rest);
    U32Back(m.header.messageNumber, Encode(fs[3..]) + rest);
    ReadPrefixedBack(c, rest);
  }

  /** A recipient reads back from each kind of payload exactly what was put in. */
  lemma PayloadRoundTrip(p: Preamble, m: Message, aead: Aead)
    requires Faithful(aead)
    ensures var b := EncodeRatchetMessage(m, aead);
      b.Ok? ==> ReadPayload(PAYLOAD_RATCHET, b.value, aead) == RatchetPayload(Ok(m))
    ensures var b := EncodePreKeyPayload(p, m, aead);
      b.Ok? ==> ReadPayload(PAYLOAD_PREKEY, b.value, aead) == PreKeyPayload(p, Ok(m))
  {
    hide Encode, ReadPrefixed, ReadPreamble, ReadRatchetMessage, PreambleFields, MessageFields, EncodeField;
    var b := EncodeRatchetMessage(m, aead);
    if b.Ok? {
      RatchetMessageBack(m, aead, []);
      assert b.value + [] == b.value;
      if EncodePreKeyPayload(p, m, aead).Ok? {
        var preamble := EncodePreamble(p).value;
        PreKeyPayloadBytes(preamble, b.value);
        PreambleBack(p, EncodeField(Prefixed(b.value)));
        ReadPrefixedBack(b.value, []);
        assert EncodeField(Prefixed(b.value)) + [] == EncodeField(Prefixed(b.value));
      }
    }
  }

  lemma PreKeyPayloadBytes(preamble: Bytes, body: Bytes)
    requires AllInRange([Fixed(preamble), Prefixed(body)])
    ensures InRange(Prefixed(body))
    ensures Encode([Fixed(preamble), Prefixed(body)]) == preamble + EncodeField(Prefixed(body))
  {
    var fs := [Fixed(preamble), Prefixed(body)];
    assert InRange(fs[1]);
    Peel(fs, []);
    Peel(fs[1..], []);
  }

  /** The body is the ratchet key, the two counters and the ciphertext. */
  lemma MessageLayout(m: Message, aead: Aead)
    requires EncodeRatchetMessage(m, aead).Ok?
    ensures Parse(EncodeRatchetMessage(m, aead).value, [PrefixedShape, UintShape(4), UintShape(4), PrefixedShape])
         == Ok(([Prefixed(m.header.ratchetPublicKey), Uint(4, m.header.previousChainLength),
                 Uint(4, m.header.messageNumber), Prefixed(aead.bits(m.ciphertext))], []))
  {
    hide Parse, Written;
    WrittenBack(MessageFields(m, aead));
    assert ShapesOf(MessageFields(m, aead)) == [PrefixedShape, UintShape(4), UintShape(4), PrefixedShape];
  }

  // -------------------------------------------------------------------------
  // What a recipient refuses
  // -------------------------------------------------------------------------

  lemma ReadU32Extends(b: Bytes, more: Bytes)
    ensures var r := ReadU32(b);
      r.Ok? ==> ReadU32(b + more) == Ok((r.value.0, r.value.1 + more))
  {
    ReadUintExtends(b, 4, more);
  }

  lemma ReadOptionalIdExtends(b: Bytes, more: Bytes)
    ensures var r := ReadOptionalId(b);
      r.Ok? ==> ReadOptionalId(b + more) == Ok((r.value.0, r.value.1 + more))
  {
    hide ReadUint;
    ReadUintExtends(b, 1, more);
    var flag := ReadUint(b, 1);
    if flag.Ok? {
      ReadUintExtends(flag.value.1, 4, more);
    }
  }

  lemma ReadKeyIdsExtends(b: Bytes, more: Bytes)
    ensures var r := ReadKeyIds(b);
      r.Ok? ==> ReadKeyIds(b + more) == Ok((r.value.0, r.value.1 + more))
  {
    hide ReadUint, ReadOptionalId;
    var r := ReadKeyIds(b);
    if r.Ok? {
      var b1 := ReadUint(b, 4).value.1;
      var b2 := ReadUint(b1, 4).value.1;
      var b3 := ReadOptionalId(b2).value.1;
      ReadUintExtends(b, 4, more);
      ReadUintExtends(b1, 4, more);
      ReadOptionalIdExtends(b2, more);
      ReadOptionalIdExtends(b3, more);
    }
  }

  lemma ReadPreambleExtends(b: Bytes, more: Bytes)
    ensures var r := ReadPreamble(b);
      r.Ok? ==> ReadPreamble(b + more) == Ok((r.value.0, r.value.1 + more))
  {
    hide ReadPrefixed, ReadKeyIds;
    var r := ReadPreamble(b);
    if r.Ok? {
      var b1 := ReadPrefixed(b).value.1;
      var b2 := ReadPrefixed(b1).value.1;
      ReadPrefixedExtends(b, more);
      ReadPrefixedExtends(b1, more);
      ReadKeyIdsExtends(b2, more);
    }
  }

  lemma ReadRatchetMessageExtends(b: Bytes, aead: Aead, more: Bytes)
    ensures var r := ReadRatchetMessage(b, aead);
      r.Ok? ==> ReadRatchetMessage(b + more, aead) == Ok((r.value.0, r.value.1 + more))
  {
    hide ReadPrefixed, ReadU32;
    var r := ReadRatchetMessage(b, aead);
    if r.Ok? {
      var b1 := ReadPrefixed(b).value.1;
      var b2 := ReadU32(b1).value.1;
      var b3 := ReadU32(b2).value.1;
      ReadPrefixedExtends(b, more);
      ReadU32Extends(b1, more);
      ReadU32Extends(b2, more);
      ReadPrefixedExtends(b3, more);
    }
  }

  /** A ratchet payload is accepted whole or not at all. A body within a prekey
      payload may be followed by anything. */
  lemma RatchetPayloadExact(m: Message, aead: Aead, more: Bytes, cut: nat)
    requires Faithful(aead) && EncodeRatchetMessage(m, aead).Ok?
    ensures var b := EncodeRatchetMessage(m, aead).value;
      && ReadPayload(PAYLOAD_RATCHET, b + more, aead) == RatchetPayload(if more == [] then Ok(m) else Malformed)
      && (cut < |b| ==> ReadPayload(PAYLOAD_RATCHET, b[..cut], aead) == RatchetPayload(Malformed))
      && ReadBody(b + more, aead) == Ok(m)
  {
    hide ReadRatchetMessage, EncodeRatchetMessage;
    var b := EncodeRatchetMessage(m, aead).value;
    RatchetMessageBack(m, aead, more);
    if cut < |b| {
      RatchetMessageBack(m, aead, []);
      ReadRatchetMessageExtends(b[..cut], aead, b[cut..]);
      assert b[..cut] + b[cut..] == b && b + [] == b;
    }
  }

  lemma ReadPreKeyExtends(b: Bytes, aead: Aead, more: Bytes)
    requires ReadPreKeyPayload(b, aead) != BadPayload && more != []
    ensures ReadPreKeyPayload(b + more, aead) == BadPayload
  {
    hide ReadPreamble, ReadPrefixed, ReadBody;
    ReadPreambleExtends(b, more);
    ReadPrefixedExtends(ReadPreamble(b).value.1, more);
  }

  /** So is a prekey payload, and no other kind is accepted. */
  lemma PreKeyPayloadExact(p: Preamble, m: Message, aead: Aead, more: Bytes, cut: nat, kind: byte)
    requires Faithful(aead) && EncodePreKeyPayload(p, m, aead).Ok?
    ensures var b := EncodePreKeyPayload(p, m, aead).value;
      && ReadPayload(PAYLOAD_PREKEY, b + more, aead) == (if more == [] then PreKeyPayload(p, Ok(m)) else BadPayload)
      && (cut < |b| ==> ReadPayload(PAYLOAD_PREKEY, b[..cut], aead) == BadPayload)
      && (kind != 1 && kind != 2 ==> ReadPayload(kind, b, aead) == BadPayload)
  {
    hide EncodePreKeyPayload, ReadPreKeyPayload, ReadWhole;
    var b := EncodePreKeyPayload(p, m, aead).value;
    PayloadRoundTrip(p, m, aead);
    if more == [] {
      assert b + more == b;
    } else {
      ReadPreKeyExtends(b, aead, more);
    }
    if cut < |b| {
      assert b[..cut] + b[cut..] == b;
      if ReadPreKeyPayload(b[..cut], aead) != BadPayload {
        ReadPreKeyExtends(b[..cut], aead, b[cut..]);
      }
    }
  }
}
