/** The PQXDH handshake: what both sides feed into the root secret. Whether
    the bundle's signatures verify is a parameter. */
module Pqxdh {
  import opened Wire
  import opened Keys
  import opened Protocol
  import opened PreKeyStore

  const MLKEM_PUBLIC_LEN := 1568

  const TRANSCRIPT_LABEL := "Veil/v1/PQXDH/Transcript"
  const AD_LABEL := "Veil/v1/AD"

  datatype Identity = Identity(signingPublicKey: Bytes, exchangePublicKey: Bytes)

  /** Which of the responder's keys a handshake used. */
  datatype KeyIds = KeyIds(
    signedPreKeyId: nat,
    signedKemPreKeyId: nat,
    oneTimePreKeyId: Option<nat>,
    oneTimeKemPreKeyId: Option<nat>)

  /** What travels from the initiator to the responder in the clear. */
  datatype Preamble = Preamble(ephemeralPublicKey: Bytes, kemCiphertext: Bytes, keyIds: KeyIds)

  datatype Agreed = Agreed(rootSecret: Key, associatedData: Bytes)

  datatype Initiated = Initiated(agreed: Agreed, preamble: Preamble)

  /** The responder's secrets for the keys a preamble names. */
  datatype Held = Held(
    signedPreKey: KeyPair,
    signedKemPreKey: KeyPair,
    oneTimePreKey: Option<KeyPair>,
    oneTimeKemPreKey: Option<KeyPair>)

  // -------------------------------------------------------------------------
  // Transcript and associated data
  // -------------------------------------------------------------------------

  function Label(text: string): (b: Bytes)
    requires forall i :: 0 <= i < |text| ==> text[i] as int < 0x80
    ensures |b| == |text| && forall i :: 0 <= i < |text| ==> b[i] == text[i] as int
  {
    seq(|text|, i requires 0 <= i < |text| => text[i] as int as byte)
  }

  function Flag(id: Option<nat>): Field {
    Uint(1, if id.Some? then 1 else 0)
  }

  function IdOrZero(id: Option<nat>): Field {
    Uint(4, if id.Some? then id.value else 0)
  }

  function IdentityFields(who: Identity): seq<Field> {
    [Prefixed(who.signingPublicKey), Prefixed(who.exchangePublicKey)]
  }

  function IdFields(ids: KeyIds): seq<Field> {
    [Uint(4, ids.signedPreKeyId), Uint(4, ids.signedKemPreKeyId),
     Flag(ids.oneTimePreKeyId), IdOrZero(ids.oneTimePreKeyId),
     Flag(ids.oneTimeKemPreKeyId), IdOrZero(ids.oneTimeKemPreKeyId)]
  }

  function PreambleFields(p: Preamble): seq<Field> {
    [Prefixed(p.ephemeralPublicKey), Prefixed(p.kemCiphertext)] + IdFields(p.keyIds)
  }

  function TranscriptFields(initiator: Identity, responder: Identity, p: Preamble): seq<Field> {
    [Fixed(Label(TRANSCRIPT_LABEL))] + IdentityFields(initiator) + IdentityFields(responder) + PreambleFields(p)
  }

  function AdFields(initiator: Identity, responder: Identity): seq<Field> {
    [Fixed(Label(AD_LABEL))] + IdentityFields(initiator) + IdentityFields(responder)
  }

  /** The writer refuses what does not fit its field. */
  function Written(fs: seq<Field>): Result<Bytes> {
    if AllInRange(fs) then Ok(Encode(fs)) else Malformed
  }

  function Transcript(initiator: Identity, responder: Identity, p: Preamble): Result<Bytes> {
    Written(TranscriptFields(initiator, responder, p))
  }

  function AssociatedData(initiator: Identity, responder: Identity): Result<Bytes> {
    Written(AdFields(initiator, responder))
  }

  lemma WrittenInjective(fs: seq<Field>, gs: seq<Field>)
    requires ShapesOf(fs) == ShapesOf(gs)
    requires Written(fs).Ok? && Written(fs) == Written(gs)
    ensures fs == gs
  {
    assert Encode(fs) + [] == Encode(fs) && Encode(gs) + [] == Encode(gs);
    Unambiguous(fs, gs, [], []);
  }

  lemma IdFieldsInjective(ids: KeyIds, others: KeyIds)
    requires IdFields(ids) == IdFields(others)
    ensures ids == others
  {
    var fs, gs := IdFields(ids), IdFields(others);
    assert fs[0] == gs[0] && fs[1] == gs[1] && fs[2] == gs[2] && fs[3] == gs[3] && fs[4] == gs[4] && fs[5] == gs[5];
  }

  lemma IdentityFieldsInjective(a: Identity, b: Identity)
    requires IdentityFields(a) == IdentityFields(b)
    ensures a == b
  {
    assert IdentityFields(a)[0] == IdentityFields(b)[0] && IdentityFields(a)[1] == IdentityFields(b)[1];
  }

  lemma PreambleFieldsInjective(p: Preamble, q: Preamble)
    requires PreambleFields(p) == PreambleFields(q)
    ensures p == q
  {
    var fs, gs := PreambleFields(p), PreambleFields(q);
    assert fs[0] == gs[0] && fs[1] == gs[1];
    assert IdFields(p.keyIds) == fs[2..] && IdFields(q.keyIds) == gs[2..];
    IdFieldsInjective(p.keyIds, q.keyIds);
  }

  /** The transcript bytes determine both identities, the ephemeral key, the KEM
      ciphertext, every key id and which one-time keys were used at all. */
  lemma TranscriptInjective(a: Identity, b: Identity, p: Preamble, a': Identity, b': Identity, p': Preamble)
    requires Transcript(a, b, p).Ok? && Transcript(a, b, p) == Transcript(a', b', p')
    ensures a == a' && b == b' && p == p'
  {
    hide Label, IdFields;
    var fs, gs := TranscriptFields(a, b, p), TranscriptFields(a', b', p');
    SameShapes(p, p');
    assert ShapesOf(fs) == ShapesOf(gs);
    WrittenInjective(fs, gs);
    assert IdentityFields(a) == fs[1..3] && IdentityFields(a') == gs[1..3];
    assert IdentityFields(b) == fs[3..5] && IdentityFields(b') == gs[3..5];
    assert PreambleFields(p) == fs[5..] && PreambleFields(p') == gs[5..];
    IdentityFieldsInjective(a, a');
    IdentityFieldsInjective(b, b');
    PreambleFieldsInjective(p, p');
  }

  lemma SameShapes(p: Preamble, q: Preamble)
    ensures |PreambleFields(p)| == |PreambleFields(q)| == 8
    ensures forall i :: 0 <= i < 8 ==> ShapeOf(PreambleFields(p)[i]) == ShapeOf(PreambleFields(q)[i])
  {
  }

  /** No two pairs of identities share their associated data. */
  lemma AssociatedDataInjective(a: Identity, b: Identity, a': Identity, b': Identity)
    requires AssociatedData(a, b).Ok? && AssociatedData(a, b) == AssociatedData(a', b')
    ensures a == a' && b == b'
  {
    hide Label;
    var fs, gs := AdFields(a, b), AdFields(a', b');
    assert ShapesOf(fs) == ShapesOf(gs);
    WrittenInjective(fs, gs);
    assert IdentityFields(a) == fs[1..3] && IdentityFields(a') == gs[1..3];
    assert IdentityFields(b) == fs[3..5] && IdentityFields(b') == gs[3..5];
    IdentityFieldsInjective(a, a');
    IdentityFieldsInjective(b, b');
  }

  // -------------------------------------------------------------------------
  // The two sides
  // -------------------------------------------------------------------------

  /** X25519 with the secret for `own`. */
  function Dh(own: Bytes, peer: Bytes): Result<Secret> {
    if GoodKey(peer) then Ok(Agreement(own, peer)) else Malformed
  }

  function OptionalDh(own: Option<Bytes>, peer: Option<Bytes>): Result<seq<Secret>> {
    if own.None? || peer.None? then Ok([])
    else
      var secret :- Dh(own.value, peer.value);
      Ok([secret])
  }

  function IdOf(key: Option<PreKey>): Option<nat> {
    if key.Some? then Some(key.value.id) else None
  }

  function PublicOf(key: Option<PreKey>): Option<Bytes> {
    if key.Some? then Some(key.value.publicKey) else None
  }

  function PairPublic(pair: Option<KeyPair>): Option<Bytes> {
    if pair.Some? then Some(pair.value.publicKey) else None
  }

  function NamedIds(bundle: Bundle): KeyIds {
    KeyIds(bundle.signedPreKey.id, bundle.signedKemPreKey.id, IdOf(bundle.oneTimePreKey), IdOf(bundle.oneTimeKemPreKey))
  }

  function KemTarget(bundle: Bundle): Bytes {
    if bundle.oneTimeKemPreKey.Some? then bundle.oneTimeKemPreKey.value.publicKey else bundle.signedKemPreKey.publicKey
  }

  function HeldKemTarget(held: Held): Bytes {
    if held.oneTimeKemPreKey.Some? then held.oneTimeKemPreKey.value.publicKey else held.signedKemPreKey.publicKey
  }

  /** The initiator's side; `ephemeral` and `kemCiphertext` are what the key
      generator and the encapsulation return, `genuine` says whether every
      signature on the bundle verifies. */
  function InitiateHandshake(self: Identity, peer: Identity, bundle: Bundle, ephemeral: Bytes, kemCiphertext: Bytes,
                             genuine: bool): Result<Initiated>
  {
    if !genuine then Malformed
    else if |bundle.signedKemPreKey.publicKey| != MLKEM_PUBLIC_LEN then Malformed
    else if |KemTarget(bundle)| != MLKEM_PUBLIC_LEN then Malformed
    else
      var kem := KemShared(KemTarget(bundle), kemCiphertext);
      var dh1 :- Dh(self.exchangePublicKey, bundle.signedPreKey.publicKey);
      var dh2 :- Dh(ephemeral, peer.exchangePublicKey);
      var dh3 :- Dh(ephemeral, bundle.signedPreKey.publicKey);
      var dh4 :- OptionalDh(Some(ephemeral), PublicOf(bundle.oneTimePreKey));
      var preamble := Preamble(ephemeral, kemCiphertext, NamedIds(bundle));
      var transcript :- Transcript(self, peer, preamble);
      var ad :- AssociatedData(self, peer);
      Ok(Initiated(Agreed(Handshake([dh1, dh2, dh3] + dh4 + [kem], transcript), ad), preamble))
  }

  /** The responder's side: secrets must be there exactly for the ids named. */
  function RespondToHandshake(self: Identity, initiator: Identity, p: Preamble, held: Held): Result<Agreed> {
    if p.keyIds.oneTimePreKeyId.Some? != held.oneTimePreKey.Some? then Malformed
    else if p.keyIds.oneTimeKemPreKeyId.Some? != held.oneTimeKemPreKey.Some? then Malformed
    else if |p.kemCiphertext| != MLKEM_CIPHERTEXT_LEN then Malformed
    else
      var kem := KemShared(HeldKemTarget(held), p.kemCiphertext);
      var dh1 :- Dh(held.signedPreKey.publicKey, initiator.exchangePublicKey);
      var dh2 :- Dh(self.exchangePublicKey, p.ephemeralPublicKey);
      var dh3 :- Dh(held.signedPreKey.publicKey, p.ephemeralPublicKey);
      var dh4 :- OptionalDh(PairPublic(held.oneTimePreKey), Some(p.ephemeralPublicKey));
      var transcript :- Transcript(initiator, self, p);
      var ad :- AssociatedData(initiator, self);
      Ok(Agreed(Handshake([dh1, dh2, dh3] + dh4 + [kem], transcript), ad))
  }

  predicate Fits(ids: KeyIds) {
    && ids.signedPreKeyId < 0x1_0000_0000 && ids.signedKemPreKeyId < 0x1_0000_0000
    && (ids.oneTimePreKeyId.Some? ==> ids.oneTimePreKeyId.value < 0x1_0000_0000)
    && (ids.oneTimeKemPreKeyId.Some? ==> ids.oneTimeKemPreKeyId.value < 0x1_0000_0000)
  }

  /** A 32-bit length suffices for every key and ciphertext. */
  predicate Prefixable(self: Identity, peer: Identity, ephemeral: Bytes, kemCiphertext: Bytes) {
    && |self.signingPublicKey| < 0x1_0000_0000 && |self.exchangePublicKey| < 0x1_0000_0000
    && |peer.signingPublicKey| < 0x1_0000_0000 && |peer.exchangePublicKey| < 0x1_0000_0000
    && |ephemeral| < 0x1_0000_0000 && |kemCiphertext| < 0x1_0000_0000
  }

  lemma IdFieldsFit(ids: KeyIds)
    ensures AllInRange(IdFields(ids)) <==> Fits(ids)
  {
    PowWidths();
    var fs := IdFields(ids);
    assert AllInRange(fs) ==> InRange(fs[0]) && InRange(fs[1]) && InRange(fs[3]) && InRange(fs[5]);
  }

  lemma TranscriptFits(self: Identity, peer: Identity, p: Preamble)
    ensures Transcript(self, peer, p).Ok?
       <==> Prefixable(self, peer, p.ephemeralPublicKey, p.kemCiphertext) && Fits(p.keyIds)
    ensures Transcript(self, peer, p).Ok? ==> AssociatedData(self, peer).Ok?
  {
    hide IdFields, Label;
    PowWidths();
    IdFieldsFit(p.keyIds);
    var fs := TranscriptFields(self, peer, p);
    assert fs[7..] == IdFields(p.keyIds);
    assert forall f :: f in fs <==> f in fs[..7] || f in fs[7..];
    if AllInRange(fs) {
      assert InRange(fs[1]) && InRange(fs[2]) && InRange(fs[3]) && InRange(fs[4]) && InRange(fs[5]) && InRange(fs[6]);
      assert AllInRange(fs[7..]);
    }
  }

  /** A handshake can be started exactly when the bundle's signatures verify, its
      keys are of the right length, none is degenerate, and ids and lengths fit 32
      bits. */
  lemma InitiateOkIff(self: Identity, peer: Identity, bundle: Bundle, ephemeral: Bytes, kemCiphertext: Bytes,
                      genuine: bool)
    ensures InitiateHandshake(self, peer, bundle, ephemeral, kemCiphertext, genuine).Ok?
       <==> && genuine
            && |bundle.signedKemPreKey.publicKey| == MLKEM_PUBLIC_LEN
            && (bundle.oneTimeKemPreKey.Some? ==> |bundle.oneTimeKemPreKey.value.publicKey| == MLKEM_PUBLIC_LEN)
            && GoodKey(bundle.signedPreKey.publicKey) && GoodKey(peer.exchangePublicKey)
            && (bundle.oneTimePreKey.Some? ==> GoodKey(bundle.oneTimePreKey.value.publicKey))
            && Prefixable(self, peer, ephemeral, kemCiphertext) && Fits(NamedIds(bundle))
  {
    hide Transcript, AssociatedData, GoodKey, Fits, Prefixable;
    TranscriptFits(self, peer, Preamble(ephemeral, kemCiphertext, NamedIds(bundle)));
  }

  /** The responder holds the secrets of the very keys the initiator used. The
      signed KEM key is not looked at when a one-time one is used. */
  predicate Matching(bundle: Bundle, held: Held) {
    && held.signedPreKey.publicKey == bundle.signedPreKey.publicKey
    && PairPublic(held.oneTimePreKey) == PublicOf(bundle.oneTimePreKey)
    && HeldKemTarget(held) == KemTarget(bundle)
    && held.oneTimeKemPreKey.Some? == bundle.oneTimeKemPreKey.Some?
  }

  lemma AgreementInjective(a: Bytes, b: Bytes, c: Bytes)
    requires Agreement(a, b) == Agreement(c, a) || Agreement(a, b) == Agreement(a, c)
    ensures b == c
  {
    assert b in {a, b} && c in {a, c} && c in {c, a};
    assert {c, a} == {a, c};
    assert b in {a, c} && c in {a, b};
  }

  lemma AgreementSymmetric(a: Bytes, b: Bytes)
    ensures Agreement(a, b) == Agreement(b, a)
  {
    assert {a, b} == {b, a};
  }

  /** With matching keys the responder can fail, but not derive something else. */
  lemma MatchingAgrees(alice: Identity, bob: Identity, bundle: Bundle, ephemeral: Bytes, kemCiphertext: Bytes,
                       held: Held)
    requires InitiateHandshake(alice, bob, bundle, ephemeral, kemCiphertext, true).Ok?
    requires Matching(bundle, held)
    ensures var h := InitiateHandshake(alice, bob, bundle, ephemeral, kemCiphertext, true).value;
      var r := RespondToHandshake(bob, alice, h.preamble, held);
      r.Ok? ==> r.value == h.agreed
  {
    hide Transcript, AssociatedData, GoodKey, Agreement;
    AgreementSymmetric(alice.exchangePublicKey, bundle.signedPreKey.publicKey);
    AgreementSymmetric(ephemeral, bob.exchangePublicKey);
    AgreementSymmetric(ephemeral, bundle.signedPreKey.publicKey);
    if bundle.oneTimePreKey.Some? {
      AgreementSymmetric(ephemeral, bundle.oneTimePreKey.value.publicKey);
    }
  }

  /** Whatever combination of one-time keys is used: a responder that holds
      matching keys derives the initiator's root secret and associated data. */
  lemma BothSidesAgree(alice: Identity, bob: Identity, bundle: Bundle, ephemeral: Bytes, kemCiphertext: Bytes,
                       held: Held)
    requires InitiateHandshake(alice, bob, bundle, ephemeral, kemCiphertext, true).Ok?
    requires Matching(bundle, held)
    requires GoodKey(alice.exchangePublicKey) && GoodKey(ephemeral) && |kemCiphertext| == MLKEM_CIPHERTEXT_LEN
    ensures var h := InitiateHandshake(alice, bob, bundle, ephemeral, kemCiphertext, true).value;
      RespondToHandshake(bob, alice, h.preamble, held) == Ok(h.agreed)
  {
    hide Transcript, AssociatedData, GoodKey, Agreement;
    MatchingAgrees(alice, bob, bundle, ephemeral, kemCiphertext, held);
  }

  /** The two sides share a root secret exactly when they agree on both
      identities, the ephemeral key, the KEM ciphertext, all key ids and presence
      flags, and the responder's keys are the ones the initiator used; and then
      they share the associated data. */
  lemma RootsAgreeIff(alice: Identity, bob: Identity, bundle: Bundle, ephemeral: Bytes, kemCiphertext: Bytes,
                      self: Identity, initiator: Identity, p: Preamble, held: Held)
    requires InitiateHandshake(alice, bob, bundle, ephemeral, kemCiphertext, true).Ok?
    requires RespondToHandshake(self, initiator, p, held).Ok?
    ensures var h := InitiateHandshake(alice, bob, bundle, ephemeral, kemCiphertext, true).value;
      var r := RespondToHandshake(self, initiator, p, held).value;
      && (h.agreed.rootSecret == r.rootSecret <==>
            self == bob && initiator == alice && p == h.preamble && Matching(bundle, held))
      && (h.agreed.rootSecret == r.rootSecret ==> h.agreed == r)
  {
    hide Transcript, AssociatedData, GoodKey, Agreement;
    var h := InitiateHandshake(alice, bob, bundle, ephemeral, kemCiphertext, true).value;
    var r := RespondToHandshake(self, initiator, p, held).value;
    if self == bob && initiator == alice && p == h.preamble && Matching(bundle, held) {
      MatchingAgrees(alice, bob, bundle, ephemeral, kemCiphertext, held);
    }
    if h.agreed.rootSecret == r.rootSecret {
      TranscriptInjective(alice, bob, h.preamble, initiator, self, p);
      var xs, ys := h.agreed.rootSecret.secrets, r.rootSecret.secrets;
      assert xs[0] == ys[0] && xs[|xs| - 1] == ys[|ys| - 1];
      AgreementInjective(alice.exchangePublicKey, bundle.signedPreKey.publicKey, held.signedPreKey.publicKey);
      if bundle.oneTimePreKey.Some? {
        assert xs[3] == ys[3];
        AgreementInjective(ephemeral, bundle.oneTimePreKey.value.publicKey, held.oneTimePreKey.value.publicKey);
      }
    }
  }

  // -------------------------------------------------------------------------
  // What the root secret is made of
  // -------------------------------------------------------------------------

  /** The root secret can be computed by whoever knows these secrets: HKDF needs all
      of its input. */
  ghost predicate Computable(root: Key, knows: Secret -> bool) {
    root.Handshake? && forall s :: s in root.secrets ==> knows(s)
  }

  lemma InAll(a: seq<Secret>, b: seq<Secret>, c: Secret, knows: Secret -> bool)
    requires |a| == 3
    ensures (forall s :: s in a + b + [c] ==> knows(s))
       <==> knows(a[0]) && knows(a[1]) && knows(a[2]) && (forall s :: s in b ==> knows(s)) && knows(c)
  {
    var all := a + b + [c];
    assert forall s :: s in all <==> s in a || s in b || s == c;
    assert forall s :: s in a <==> s == a[0] || s == a[1] || s == a[2];
  }

  /** The initiator's root needs every agreement of the handshake, and nothing else:
      its identity with the signed prekey, the ephemeral key with the responder's
      identity, with the signed prekey and with the one-time prekey if there is one,
      and the encapsulation to the one-time KEM key, or to the signed one only if
      there is none. */
  lemma InitiatorRootNeeds(alice: Identity, bob: Identity, bundle: Bundle, ephemeral: Bytes, kemCiphertext: Bytes,
                           knows: Secret -> bool)
    requires InitiateHandshake(alice, bob, bundle, ephemeral, kemCiphertext, true).Ok?
    ensures var h := InitiateHandshake(alice, bob, bundle, ephemeral, kemCiphertext, true).value;
      Computable(h.agreed.rootSecret, knows) <==>
        && knows(Agreement(alice.exchangePublicKey, bundle.signedPreKey.publicKey))
        && knows(Agreement(ephemeral, bob.exchangePublicKey))
        && knows(Agreement(ephemeral, bundle.signedPreKey.publicKey))
        && (bundle.oneTimePreKey.Some? ==> knows(Agreement(ephemeral, bundle.oneTimePreKey.value.publicKey)))
        && match bundle.oneTimeKemPreKey
           case Some(key) => knows(KemShared(key.publicKey, kemCiphertext))
           case None => knows(KemShared(bundle.signedKemPreKey.publicKey, kemCiphertext))
  {
    hide Transcript, AssociatedData, GoodKey, Agreement;
    var h := InitiateHandshake(alice, bob, bundle, ephemeral, kemCiphertext, true).value;
    var secrets := h.agreed.rootSecret.secrets;
    var n := |secrets| - 1;
    assert secrets == secrets[..3] + secrets[3..n] + [secrets[n]];
    InAll(secrets[..3], secrets[3..n], secrets[n], knows);
  }

  /** The responder's root needs the same of its side. */
  lemma ResponderRootNeeds(self: Identity, initiator: Identity, p: Preamble, held: Held, knows: Secret -> bool)
    requires RespondToHandshake(self, initiator, p, held).Ok?
    ensures var r := RespondToHandshake(self, initiator, p, held).value;
      Computable(r.rootSecret, knows) <==>
        && knows(Agreement(held.signedPreKey.publicKey, initiator.exchangePublicKey))
        && knows(Agreement(self.exchangePublicKey, p.ephemeralPublicKey))
        && knows(Agreement(held.signedPreKey.publicKey, p.ephemeralPublicKey))
        && (held.oneTimePreKey.Some? ==> knows(Agreement(held.oneTimePreKey.value.publicKey, p.ephemeralPublicKey)))
        && match held.oneTimeKemPreKey
           case Some(pair) => knows(KemShared(pair.publicKey, p.kemCiphertext))
           case None => knows(KemShared(held.signedKemPreKey.publicKey, p.kemCiphertext))
  {
    hide Transcript, AssociatedData, GoodKey, Agreement;
    var secrets := RespondToHandshake(self, initiator, p, held).value.rootSecret.secrets;
    var n := |secrets| - 1;
    assert secrets == secrets[..3] + secrets[3..n] + [secrets[n]];
    InAll(secrets[..3], secrets[3..n], secrets[n], knows);
  }

  /** What the holder of some secret keys knows: an agreement with one of its halves,
      an encapsulation with the target's secret. */
  predicate KnownWith(secrets: set<Bytes>, s: Secret) {
    match s
    case DhShared(pair) => pair * secrets != {}
    case KemShared(target, _) => target in secrets
  }

  lemma KnownAgreement(secrets: set<Bytes>, a: Bytes, b: Bytes)
    ensures KnownWith(secrets, Agreement(a, b)) <==> a in secrets || b in secrets
  {
    if a in secrets {
      assert a in {a, b} * secrets;
    }
    if b in secrets {
      assert b in {a, b} * secrets;
    }
  }

  /** Secrecy of the handshake: secret keys lead to the root secret exactly if they
      include the KEM key that was encapsulated to and, for each agreement, one of
      its halves. In particular a one-time KEM key, where there was one, cannot be
      done without. */
  lemma RootSecretIff(alice: Identity, bob: Identity, bundle: Bundle, ephemeral: Bytes, kemCiphertext: Bytes,
                      secrets: set<Bytes>)
    requires InitiateHandshake(alice, bob, bundle, ephemeral, kemCiphertext, true).Ok?
    ensures var h := InitiateHandshake(alice, bob, bundle, ephemeral, kemCiphertext, true).value;
      Computable(h.agreed.rootSecret, s => KnownWith(secrets, s)) <==>
        && (alice.exchangePublicKey in secrets || bundle.signedPreKey.publicKey in secrets)
        && (ephemeral in secrets || bob.exchangePublicKey in secrets)
        && (ephemeral in secrets || bundle.signedPreKey.publicKey in secrets)
        && (bundle.oneTimePreKey.Some? ==> ephemeral in secrets || bundle.oneTimePreKey.value.publicKey in secrets)
        && match bundle.oneTimeKemPreKey
           case Some(key) => key.publicKey in secrets
           case None => bundle.signedKemPreKey.publicKey in secrets
  {
    hide InitiateHandshake, Agreement, Computable;
    InitiatorRootNeeds(alice, bob, bundle, ephemeral, kemCiphertext, s => KnownWith(secrets, s));
    KnownAgreement(secrets, alice.exchangePublicKey, bundle.signedPreKey.publicKey);
    KnownAgreement(secrets, ephemeral, bob.exchangePublicKey);
    KnownAgreement(secrets, ephemeral, bundle.signedPreKey.publicKey);
    if bundle.oneTimePreKey.Some? {
      KnownAgreement(secrets, ephemeral, bundle.oneTimePreKey.value.publicKey);
    }
  }

  /** Equal roots mean the very same keys, field by field: in particular the one-time
      KEM key was used on both sides if there was one, and the signed one if not. */
  lemma EqualRootsSameKeys(alice: Identity, bob: Identity, bundle: Bundle, ephemeral: Bytes, kemCiphertext: Bytes,
                           self: Identity, initiator: Identity, p: Preamble, held: Held)
    requires InitiateHandshake(alice, bob, bundle, ephemeral, kemCiphertext, true).Ok?
    requires RespondToHandshake(self, initiator, p, held).Ok?
    ensures var h := InitiateHandshake(alice, bob, bundle, ephemeral, kemCiphertext, true).value;
      var r := RespondToHandshake(self, initiator, p, held).value;
      h.agreed.rootSecret == r.rootSecret <==>
        && self == bob && initiator == alice && p == h.preamble
        && held.signedPreKey.publicKey == bundle.signedPreKey.publicKey
        && (match bundle.oneTimePreKey
            case Some(key) => held.oneTimePreKey == Some(KeyPair(key.publicKey))
            case None => held.oneTimePreKey == None)
        && (match bundle.oneTimeKemPreKey
            case Some(key) => held.oneTimeKemPreKey == Some(KeyPair(key.publicKey))
            case None => held.oneTimeKemPreKey == None
                         && held.signedKemPreKey.publicKey == bundle.signedKemPreKey.publicKey)
  {
    hide InitiateHandshake, RespondToHandshake;
    RootsAgreeIff(alice, bob, bundle, ephemeral, kemCiphertext, self, initiator, p, held);
  }

  /** What the preamble says of the bundle's keys. */
  lemma PreambleSays(alice: Identity, bob: Identity, bundle: Bundle, ephemeral: Bytes, kemCiphertext: Bytes)
    requires InitiateHandshake(alice, bob, bundle, ephemeral, kemCiphertext, true).Ok?
    ensures var p := InitiateHandshake(alice, bob, bundle, ephemeral, kemCiphertext, true).value.preamble;
      && p.ephemeralPublicKey == ephemeral && p.kemCiphertext == kemCiphertext
      && p.keyIds.signedPreKeyId == bundle.signedPreKey.id && p.keyIds.signedKemPreKeyId == bundle.signedKemPreKey.id
      && (match bundle.oneTimePreKey
          case Some(key) => p.keyIds.oneTimePreKeyId == Some(key.id)
          case None => p.keyIds.oneTimePreKeyId == None)
      && (match bundle.oneTimeKemPreKey
          case Some(key) => p.keyIds.oneTimeKemPreKeyId == Some(key.id)
          case None => p.keyIds.oneTimeKemPreKeyId == None)
  {
    hide Transcript, AssociatedData, GoodKey, Agreement;
  }

  /** A handshake can be answered exactly when secrets are there for the one-time ids
      named and for no others, the ciphertext has its length, no public key is
      degenerate, and ids and lengths fit 32 bits. */
  lemma RespondOkIff(self: Identity, initiator: Identity, p: Preamble, held: Held)
    ensures RespondToHandshake(self, initiator, p, held).Ok?
       <==> && (p.keyIds.oneTimePreKeyId.Some? <==> held.oneTimePreKey.Some?)
            && (p.keyIds.oneTimeKemPreKeyId.Some? <==> held.oneTimeKemPreKey.Some?)
            && |p.kemCiphertext| == MLKEM_CIPHERTEXT_LEN
            && GoodKey(initiator.exchangePublicKey) && GoodKey(p.ephemeralPublicKey)
            && Prefixable(initiator, self, p.ephemeralPublicKey, p.kemCiphertext) && Fits(p.keyIds)
  {
    hide Transcript, AssociatedData, GoodKey, Fits, Prefixable;
    TranscriptFits(initiator, self, p);
  }

  // -------------------------------------------------------------------------
  // Layouts
  // -------------------------------------------------------------------------

  /** What was written reads back, to the last byte. */
  lemma WrittenBack(fs: seq<Field>)
    ensures var b := Written(fs);
      b.Ok? ==> Parse(b.value, ShapesOf(fs)) == Ok((fs, []))
  {
    if AllInRange(fs) {
      RoundTrip(fs, []);
      assert Encode(fs) + [] == Encode(fs);
    }
  }

  /** The associated data is its label and the four keys, the initiator's first. */
  lemma AssociatedDataLayout(a: Identity, b: Identity)
    requires AssociatedData(a, b).Ok?
    ensures Parse(AssociatedData(a, b).value,
                  [FixedShape(10), PrefixedShape, PrefixedShape, PrefixedShape, PrefixedShape])
         == Ok(([Fixed(Label("Veil/v1/AD")), Prefixed(a.signingPublicKey), Prefixed(a.exchangePublicKey),
                 Prefixed(b.signingPublicKey), Prefixed(b.exchangePublicKey)], []))
  {
    hide Label, Parse, Written;
    WrittenBack(AdFields(a, b));
    assert AdFields(a, b) == [Fixed(Label(AD_LABEL)), Prefixed(a.signingPublicKey), Prefixed(a.exchangePublicKey),
                              Prefixed(b.signingPublicKey), Prefixed(b.exchangePublicKey)];
    assert ShapesOf(AdFields(a, b)) == [FixedShape(10), PrefixedShape, PrefixedShape, PrefixedShape, PrefixedShape];
  }

  function PreambleShapes(): seq<Shape> {
    [PrefixedShape, PrefixedShape, UintShape(4), UintShape(4), UintShape(1), UintShape(4), UintShape(1), UintShape(4)]
  }

  /** The eight fields of a preamble: ephemeral key, KEM ciphertext, both signed ids,
      and for each one-time id a presence byte and the id or zero. */
  function PreambleSaid(p: Preamble): seq<Field> {
    var ids := p.keyIds;
    [Prefixed(p.ephemeralPublicKey), Prefixed(p.kemCiphertext),
     Uint(4, ids.signedPreKeyId), Uint(4, ids.signedKemPreKeyId),
     Uint(1, if ids.oneTimePreKeyId.Some? then 1 else 0),
     Uint(4, if ids.oneTimePreKeyId.Some? then ids.oneTimePreKeyId.value else 0),
     Uint(1, if ids.oneTimeKemPreKeyId.Some? then 1 else 0),
     Uint(4, if ids.oneTimeKemPreKeyId.Some? then ids.oneTimeKemPreKeyId.value else 0)]
  }

  lemma PreambleSpelled(p: Preamble)
    ensures PreambleFields(p) == PreambleSaid(p)
    ensures ShapesOf(PreambleFields(p)) == PreambleShapes()
  {
  }

  /** The transcript is its label, both identities, the initiator's first, and the
      preamble. */
  lemma TranscriptLayout(a: Identity, b: Identity, p: Preamble)
    requires Transcript(a, b, p).Ok?
    ensures Parse(Transcript(a, b, p).value,
                  [FixedShape(24), PrefixedShape, PrefixedShape, PrefixedShape, PrefixedShape] + PreambleShapes())
         == Ok(([Fixed(Label("Veil/v1/PQXDH/Transcript")), Prefixed(a.signingPublicKey), Prefixed(a.exchangePublicKey),
                 Prefixed(b.signingPublicKey), Prefixed(b.exchangePublicKey)] + PreambleSaid(p), []))
  {
    hide Label, Parse, Written, PreambleFields, PreambleSaid;
    var fs := TranscriptFields(a, b, p);
    WrittenBack(fs);
    PreambleSpelled(p);
    assert fs == [Fixed(Label(TRANSCRIPT_LABEL)), Prefixed(a.signingPublicKey), Prefixed(a.exchangePublicKey),
                  Prefixed(b.signingPublicKey), Prefixed(b.exchangePublicKey)] + PreambleFields(p);
    assert ShapesOf(fs)
        == [FixedShape(24), PrefixedShape, PrefixedShape, PrefixedShape, PrefixedShape] + ShapesOf(PreambleFields(p));
  }

  /** So is the encoded preamble. */
  lemma PreambleLayout(p: Preamble)
    requires Written(PreambleFields(p)).Ok?
    ensures Parse(Written(PreambleFields(p)).value, PreambleShapes()) == Ok((PreambleSaid(p), []))
  {
    hide Parse, Written, PreambleFields, PreambleSaid;
    WrittenBack(PreambleFields(p));
    PreambleSpelled(p);
  }
}
