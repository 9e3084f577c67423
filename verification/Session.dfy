/** Sessions: the object the application holds per peer, how messages leave it
    and how an opened envelope is routed to a session or creates one. */
module Session {
  import opened Wire
  import opened Keys
  import opened DoubleRatchet
  import opened Pqxdh
  import opened Codec
  import opened Padding
  import PreKeyStore

  /** The value of a `SessionState`. */
  datatype Session = Session(
    peer: Identity,
    ratchet: Ratchet,
    pendingPreKey: Option<Preamble>,
    establishedBy: Option<Bytes>)

  datatype Failure =
    | IdentityChanged
    | BadInput
    | UnknownSignedPreKey
    | UnknownSignedKemPreKey
    | OneTimePreKeyUsed
    | OneTimeKemPreKeyUsed
    | NoSession
    | RatchetRefused(error: Error)

  datatype Received = Received(plaintext: Bytes, isNewSession: bool) | Failed(why: Failure)

  /** What a device holds after an envelope: its prekeys, its session with the
      sender, and what the caller is told. */
  datatype Reception = Reception(store: PreKeyStore.Store, session: Option<Session>, outcome: Received)

  // -------------------------------------------------------------------------
  // Starting and sending
  // -------------------------------------------------------------------------

  /** `fingerprint` is the identity key a verified contact is pinned to. */
  function StartSession(self: Identity, peer: Identity, bundle: PreKeyStore.Bundle, genuine: bool,
                        fingerprint: Option<Bytes>, ephemeral: Bytes, kemCiphertext: Bytes, newKey: Bytes)
    : Result<Session>
  {
    if fingerprint.Some? && fingerprint.value != peer.signingPublicKey then Malformed
    else
      var h :- InitiateHandshake(self, peer, bundle, ephemeral, kemCiphertext, genuine);
      var (root, ad) := (h.agreed.rootSecret, h.agreed.associatedData);
      var ratchet := InitialiseInitiator(root, bundle.signedPreKey.publicKey, ad, newKey);
      Ok(Session(peer, ratchet, Some(h.preamble), None))
  }

  /** The payload a session sends a message in: with the preamble until the peer
      has answered. */
  function PayloadFor(s: Session, m: Message): Payload {
    if s.pendingPreKey.Some? then PreKeyPayload(s.pendingPreKey.value, Ok(m)) else RatchetPayload(Ok(m))
  }

  function EncryptMessage(s: Session, plaintext: Bytes): (Session, Sealing) {
    var (ratchet, r) := Encrypt(s.ratchet, Padded(plaintext));
    (s.(ratchet := ratchet), r)
  }

  // -------------------------------------------------------------------------
  // Receiving
  // -------------------------------------------------------------------------

  /** The preamble is one this session was created by. */
  predicate Repeats(existing: Option<Session>, p: Preamble) {
    existing.Some? && existing.value.establishedBy == Some(p.ephemeralPublicKey)
  }

  function Unpadded(padded: Bytes, isNewSession: bool): Received {
    match Stripped(padded)
    case Ok(x) => Received(x, isNewSession)
    case Malformed => Failed(BadInput)
  }

  /** A message for a session that exists. */
  ghost function ReceiveOn(store: PreKeyStore.Store, s: Session, body: Result<Message>, answers: bool,
                           newKey: Bytes): Reception
  {
    if body.Malformed? then Reception(store, Some(s), Failed(BadInput))
    else
      var (ratchet, out) := Decrypt(s.ratchet, body.value, newKey);
      match out
      case Refused(e) => Reception(store, Some(s.(ratchet := ratchet)), Failed(RatchetRefused(e)))
      case Plain(padded) =>
        Reception(store, Some(s.(ratchet := ratchet, pendingPreKey := if answers then None else s.pendingPreKey)),
                  Unpadded(padded, false))
  }

  /** The secret behind a named one-time key, if one is named. */
  function HeldOneTime(secrets: map<nat, PreKeyStore.KeyPair>, id: Option<nat>): Option<PreKeyStore.KeyPair> {
    if id.Some? && id.value in secrets then Some(secrets[id.value]) else None
  }

  predicate Missing(secrets: map<nat, PreKeyStore.KeyPair>, id: Option<nat>) {
    id.Some? && id.value !in secrets
  }

  /** The checks on a preamble, in order. */
  function Resolve(store: PreKeyStore.Store, ids: KeyIds): (r: (Option<Failure>, Option<Held>))
    ensures r.0.None? <==> r.1.Some?
  {
    if ids.signedPreKeyId !in store.signed.secrets then (Some(UnknownSignedPreKey), None)
    else if ids.signedKemPreKeyId !in store.signedKem.secrets then (Some(UnknownSignedKemPreKey), None)
    else if Missing(store.oneTime.secrets, ids.oneTimePreKeyId) then (Some(OneTimePreKeyUsed), None)
    else if Missing(store.oneTimeKem.secrets, ids.oneTimeKemPreKeyId) then (Some(OneTimeKemPreKeyUsed), None)
    else (None, Some(Held(store.signed.secrets[ids.signedPreKeyId], store.signedKem.secrets[ids.signedKemPreKeyId],
                          HeldOneTime(store.oneTime.secrets, ids.oneTimePreKeyId),
                          HeldOneTime(store.oneTimeKem.secrets, ids.oneTimeKemPreKeyId))))
  }

  function ConsumeNamed(store: PreKeyStore.Store, ids: KeyIds): PreKeyStore.Store {
    var s := if ids.oneTimePreKeyId.None? then store
             else store.(oneTime := PreKeyStore.Consume(store.oneTime, ids.oneTimePreKeyId.value));
    if ids.oneTimeKemPreKeyId.None? then s
    else s.(oneTimeKem := PreKeyStore.Consume(s.oneTimeKem, ids.oneTimeKemPreKeyId.value))
  }

  /** The ratchet a preamble leads to. */
  function Responding(self: Identity, sender: Identity, p: Preamble, held: Held): Result<Ratchet> {
    var agreed :- RespondToHandshake(self, sender, p, held);
    Ok(InitialiseResponder(agreed.rootSecret, held.signedPreKey.publicKey, agreed.associatedData))
  }

  /** What is left of the prekeys once a responder ratchet has seen a header: a
      ratchet step zero-fills the signed prekey's secret, which ratchet and store
      share. */
  function Answered(store: PreKeyStore.Store, id: nat, ratchet: Ratchet, h: Header): PreKeyStore.Store {
    if StartsTurn(ratchet, h) then PreKeyStore.WipeSigned(store, id) else store
  }

  /** What a preamble and its body have to pass before anything is decrypted. */
  function Admit(self: Identity, store: PreKeyStore.Store, sender: Identity, p: Preamble, body: Result<Message>)
    : (r: (Option<Failure>, Option<Ratchet>))
    ensures r.0.None? <==> r.1.Some?
    ensures r.1.Some? ==> body.Ok?
  {
    var (why, held) := Resolve(store, p.keyIds);
    if held.None? then (why, None)
    else
      match Responding(self, sender, p, held.value)
      case Malformed => (Some(BadInput), None)
      case Ok(s) => if body.Malformed? then (Some(BadInput), None) else (None, Some(s))
  }

  /** A prekey message that no session of ours answers to. The one-time keys are
      consumed once the message has decrypted, and not before; the signed key is
      wiped before. */
  ghost function Establish(self: Identity, store: PreKeyStore.Store, sender: Identity, p: Preamble,
                           body: Result<Message>,
                           newKey: Bytes): Reception
  {
    var (why, ratchet) := Admit(self, store, sender, p, body);
    if ratchet.None? then Reception(store, None, Failed(why.value))
    else
      var (t, out) := Decrypt(ratchet.value, body.value, newKey);
      var answered := Answered(store, p.keyIds.signedPreKeyId, ratchet.value, body.value.header);
      match out
      case Refused(e) => Reception(answered, None, Failed(RatchetRefused(e)))
      case Plain(padded) =>
        var session := Session(sender, t, None, Some(p.ephemeralPublicKey));
        Reception(ConsumeNamed(answered, p.keyIds),
                  if Stripped(padded).Ok? then Some(session) else None,
                  Unpadded(padded, true))
  }

  /** The session that existed stays unless a new one comes about. */
  function Keeping(r: Reception, existing: Option<Session>): Reception {
    if r.session.None? then r.(session := existing) else r
  }

  ghost function ReceivePayload(self: Identity, store: PreKeyStore.Store, existing: Option<Session>, sender: Identity,
                                payload: Payload, newKey: Bytes): Reception
  {
    match payload
    case BadPayload => Reception(store, existing, Failed(BadInput))
    case PreKeyPayload(p, body) =>
      if Repeats(existing, p) then ReceiveOn(store, existing.value, body, false, newKey)
      else Keeping(Establish(self, store, sender, p, body, newKey), existing)
    case RatchetPayload(message) =>
      if existing.None? then Reception(store, existing, Failed(NoSession))
      else ReceiveOn(store, existing.value, message, true, newKey)
  }

  /** `pinned` is the identity key the sender's address is pinned to. */
  ghost function Receive(self: Identity, store: PreKeyStore.Store, existing: Option<Session>, sender: Identity,
                         pinned: Option<Bytes>, payload: Payload, newKey: Bytes): Reception
  {
    if pinned.Some? && pinned.value != sender.signingPublicKey then Reception(store, existing, Failed(IdentityChanged))
    else ReceivePayload(self, store, existing, sender, payload, newKey)
  }

  // -------------------------------------------------------------------------
  // Who may start, and why an envelope fails
  // -------------------------------------------------------------------------

  /** A session results exactly if a pinned contact still has its key and the
      handshake can be started, and then it is one with that very identity: the
      initiator's ratchet towards the signed prekey, the preamble to be sent. */
  lemma StartIff(self: Identity, peer: Identity, bundle: PreKeyStore.Bundle, genuine: bool, fingerprint: Option<Bytes>,
                 ephemeral: Bytes, kemCiphertext: Bytes, newKey: Bytes)
    ensures var r := StartSession(self, peer, bundle, genuine, fingerprint, ephemeral, kemCiphertext, newKey);
      && (r.Ok? <==>
            && (fingerprint.None? || fingerprint.value == peer.signingPublicKey)
            && genuine
            && |bundle.signedKemPreKey.publicKey| == MLKEM_PUBLIC_LEN
            && (bundle.oneTimeKemPreKey.Some? ==> |bundle.oneTimeKemPreKey.value.publicKey| == MLKEM_PUBLIC_LEN)
            && GoodKey(bundle.signedPreKey.publicKey) && GoodKey(peer.exchangePublicKey)
            && (bundle.oneTimePreKey.Some? ==> GoodKey(bundle.oneTimePreKey.value.publicKey))
            && Prefixable(self, peer, ephemeral, kemCiphertext) && Fits(NamedIds(bundle)))
      && (r.Ok? ==>
            var h := InitiateHandshake(self, peer, bundle, ephemeral, kemCiphertext, genuine).value;
            && r.value.peer == peer
            && r.value.pendingPreKey == Some(h.preamble) && r.value.establishedBy == None
            && r.value.ratchet.sending == newKey && r.value.ratchet.receiving == Some(bundle.signedPreKey.publicKey)
            && r.value.ratchet.rootKey
               == RootStep(h.agreed.rootSecret, Agreement(newKey, bundle.signedPreKey.publicKey))
            && r.value.ratchet.associatedData == h.agreed.associatedData)
  {
    hide InitiateHandshake, Prefixable, Fits, GoodKey;
    InitiateOkIff(self, peer, bundle, ephemeral, kemCiphertext, genuine);
  }

  /** A sender that is not the pinned identity is refused before anything is looked
      at, whatever it sends; nobody else is refused for that. */
  lemma PinRefuses(self: Identity, store: PreKeyStore.Store, existing: Option<Session>, sender: Identity,
                   pinned: Option<Bytes>, payload: Payload, newKey: Bytes)
    ensures var r := Receive(self, store, existing, sender, pinned, payload, newKey);
      && (r.outcome == Failed(IdentityChanged) <==> pinned.Some? && pinned.value != sender.signingPublicKey)
      && (r.outcome == Failed(IdentityChanged) ==> r.store == store && r.session == existing)
  {
    hide Decrypt, Responding, ConsumeNamed, Stripped;
  }

  /** The other reasons that lie with the device: no session to decrypt with, and
      keys that are unknown, rotated out or already used. The first that applies is
      reported, and nothing has changed. */
  lemma MissingKeyReasons(self: Identity, store: PreKeyStore.Store, existing: Option<Session>, sender: Identity,
                          payload: Payload, newKey: Bytes)
    ensures var r := Receive(self, store, existing, sender, None, payload, newKey);
      var out := r.outcome;
      && (out == Failed(NoSession) <==> payload.RatchetPayload? && existing.None?)
      && (payload.PreKeyPayload? && !Repeats(existing, payload.preamble) ==>
            var ids := payload.preamble.keyIds;
            var signed := ids.signedPreKeyId in store.signed.secrets;
            var kem := ids.signedKemPreKeyId in store.signedKem.secrets;
            var used := ids.oneTimePreKeyId.Some? && ids.oneTimePreKeyId.value !in store.oneTime.secrets;
            var kemUsed := ids.oneTimeKemPreKeyId.Some? && ids.oneTimeKemPreKeyId.value !in store.oneTimeKem.secrets;
            && (out == Failed(UnknownSignedPreKey) <==> !signed)
            && (out == Failed(UnknownSignedKemPreKey) <==> signed && !kem)
            && (out == Failed(OneTimePreKeyUsed) <==> signed && kem && used)
            && (out == Failed(OneTimeKemPreKeyUsed) <==> signed && kem && !used && kemUsed)
            && (!signed || !kem || used || kemUsed ==> r.store == store && r.session == existing))
  {
    hide Decrypt, Responding, ConsumeNamed, Stripped;
  }

  // -------------------------------------------------------------------------
  // What a first message does
  // -------------------------------------------------------------------------

  /** The message key that the key schedule prescribes for a first message. */
  function FirstKey(fresh0: Ratchet, h: Header): Key {
    MessageKey(Advance(ChainStart(fresh0.rootKey, Agreement(fresh0.sending, h.ratchetPublicKey)), h.messageNumber))
  }

  /** `m` is `raw`, sealed as the key schedule prescribes and within reach. */
  predicate SealsFirst(fresh0: Ratchet, m: Message, raw: Bytes) {
    && GoodKey(m.header.ratchetPublicKey)
    && m.header.messageNumber <= MAX_SKIP_PER_CHAIN
    && m.ciphertext == Sealed(FirstKey(fresh0, m.header), MessageAd(fresh0.associatedData, m.header), raw)
  }

  /** A new responder commits a ratchet step on every usable ratchet key, and
      decrypts exactly what is sealed as prescribed. */
  lemma ResponderAnswers(root: Key, secret: Bytes, ad: Bytes, m: Message, newKey: Bytes)
    ensures var s := InitialiseResponder(root, secret, ad);
      && (StartsTurn(s, m.header) <==> GoodKey(m.header.ratchetPublicKey))
      && forall raw :: Decrypt(s, m, newKey).1 == Plain(raw) <==> SealsFirst(s, m, raw)
  {
    hide MessageAd, Skip;
    var s, h := InitialiseResponder(root, secret, ad), m.header;
    SkipFrame(s, h.previousChainLength);
    SkipFrame(Turn(s, h, newKey), h.messageNumber);
  }

  /** `raw` is `plaintext` followed by the marker and zeros. */
  predicate IsPadded(raw: Bytes, plaintext: Bytes) {
    |plaintext| < |raw| && raw == plaintext + [PADDING_MARKER] + Zeros(|raw| - |plaintext| - 1)
  }

  lemma StrippedIsPadded(raw: Bytes)
    ensures Stripped(raw).Ok? <==> exists plaintext :: IsPadded(raw, plaintext)
    ensures forall plaintext :: Stripped(raw) == Ok(plaintext) <==> IsPadded(raw, plaintext)
  {
    forall plaintext ensures Stripped(raw) == Ok(plaintext) <==> IsPadded(raw, plaintext) {
      StrippedIff(raw, plaintext);
    }
    if Stripped(raw).Ok? {
      assert IsPadded(raw, Stripped(raw).value);
    }
  }

  /** The new responder and the message it is to decrypt, once the sender, the
      preamble, the prekeys and the body have passed. */
  function Reached(self: Identity, store: PreKeyStore.Store, existing: Option<Session>, sender: Identity,
                   pinned: Option<Bytes>, payload: Payload): Option<(Ratchet, Message)>
  {
    if pinned.Some? && pinned.value != sender.signingPublicKey then None
    else if !payload.PreKeyPayload? || Repeats(existing, payload.preamble) then None
    else
      match Admit(self, store, sender, payload.preamble, payload.body).1
      case None => None
      case Some(s) => Some((s, payload.body.value))
  }

  lemma AdmittedIsFresh(self: Identity, store: PreKeyStore.Store, sender: Identity, p: Preamble, body: Result<Message>)
    requires Admit(self, store, sender, p, body).1.Some?
    ensures Resolve(store, p.keyIds).1.Some?
    ensures var s := Admit(self, store, sender, p, body).1.value;
      s == InitialiseResponder(s.rootKey, s.sending, s.associatedData)
  {
    hide RespondToHandshake, Resolve;
  }

  predicate NamesOneTimeKey(ids: KeyIds) {
    ids.oneTimePreKeyId.Some? || ids.oneTimeKemPreKeyId.Some?
  }

  predicate SameOneTimeKeys(a: PreKeyStore.Store, b: PreKeyStore.Store) {
    a.oneTime == b.oneTime && a.oneTimeKem == b.oneTimeKem
  }

  lemma ConsumeNamedChanges(store: PreKeyStore.Store, answered: PreKeyStore.Store, ids: KeyIds)
    requires Resolve(store, ids).1.Some? && SameOneTimeKeys(store, answered)
    ensures SameOneTimeKeys(ConsumeNamed(answered, ids), store) <==> !NamesOneTimeKey(ids)
  {
    hide PreKeyStore.WithoutId;
    var after := ConsumeNamed(answered, ids);
    if ids.oneTimePreKeyId.Some? {
      assert ids.oneTimePreKeyId.value !in after.oneTime.secrets;
    }
    if ids.oneTimeKemPreKeyId.Some? {
      assert ids.oneTimeKemPreKeyId.value !in after.oneTimeKem.secrets;
    }
  }

  /** A new session comes about exactly when the checks are passed and the message
      is some padded plaintext, sealed as prescribed; so these, and no others, are
      the prekey messages that replace a live session. */
  lemma NewSessionIff(self: Identity, store: PreKeyStore.Store, existing: Option<Session>, sender: Identity,
                      pinned: Option<Bytes>, payload: Payload, newKey: Bytes)
    ensures var r := Receive(self, store, existing, sender, pinned, payload, newKey);
      var reached := Reached(self, store, existing, sender, pinned, payload);
      && (r.outcome.Received? && r.outcome.isNewSession
          <==> reached.Some? && exists raw, plaintext :: SealsFirst(reached.value.0, reached.value.1,
                                                                    raw) && IsPadded(raw, plaintext))
      && (if r.outcome.Received? && r.outcome.isNewSession
          then r.session.Some? && r.session.value.establishedBy == Some(payload.preamble.ephemeralPublicKey)
          else r.session.Some? == existing.Some?
               && (existing.Some? ==> r.session.value.establishedBy == existing.value.establishedBy))
  {
    hide Decrypt, Admit, ConsumeNamed, Stripped, SealsFirst, IsPadded, InitialiseResponder, Answered;
    var reached := Reached(self, store, existing, sender, pinned, payload);
    if reached.Some? {
      var (s, m) := reached.value;
      AdmittedIsFresh(self, store, sender, payload.preamble, payload.body);
      ResponderAnswers(s.rootKey, s.sending, s.associatedData, m, newKey);
      var out := Decrypt(s, m, newKey).1;
      if out.Plain? {
        StrippedIsPadded(out.plaintext);
      }
    }
  }

  /** What a failing envelope costs. It never replaces a session. It touches the
      prekeys only if it gets as far as the new ratchet: then every usable ratchet
      key wipes the signed prekey's secret, and one-time keys are spent exactly if
      some are named and the message is sealed as prescribed around something that
      is not a padded plaintext. */
  lemma FailureSpendsIff(self: Identity, store: PreKeyStore.Store, existing: Option<Session>, sender: Identity,
                         pinned: Option<Bytes>, payload: Payload, newKey: Bytes)
    requires Receive(self, store, existing, sender, pinned, payload, newKey).outcome.Failed?
    ensures var r := Receive(self, store, existing, sender, pinned, payload, newKey);
      match Reached(self, store, existing, sender, pinned, payload)
      case None => r.store == store
      case Some((s, m)) =>
        && r.session == existing
        && r.store.signed == (if GoodKey(m.header.ratchetPublicKey)
                              then PreKeyStore.WipeSigned(store, payload.preamble.keyIds.signedPreKeyId).signed
                              else store.signed)
        && (!SameOneTimeKeys(r.store, store) <==>
              && NamesOneTimeKey(payload.preamble.keyIds)
              && exists raw :: SealsFirst(s, m, raw) && forall plaintext :: !IsPadded(raw, plaintext))
  {
    hide Decrypt, Admit, Resolve, Stripped, SealsFirst, IsPadded, InitialiseResponder;
    var reached := Reached(self, store, existing, sender, pinned, payload);
    if reached.Some? {
      var (s, m) := reached.value;
      var ids := payload.preamble.keyIds;
      AdmittedIsFresh(self, store, sender, payload.preamble, payload.body);
      ResponderAnswers(s.rootKey, s.sending, s.associatedData, m, newKey);
      ConsumeNamedChanges(store, Answered(store, ids.signedPreKeyId, s, m.header), ids);
      var out := Decrypt(s, m, newKey).1;
      if out.Plain? {
        StrippedIsPadded(out.plaintext);
      }
    }
  }

  // -------------------------------------------------------------------------
  // Receiving as part of a store's lifetime
  // -------------------------------------------------------------------------

  lemma LifetimeAppend(l: PreKeyStore.Life, ops: seq<PreKeyStore.Op>, op: PreKeyStore.Op)
    ensures PreKeyStore.Lifetime(l, ops + [op]) == PreKeyStore.Live(PreKeyStore.Lifetime(l, ops), op)
  {
    assert (ops + [op])[..|ops|] == ops;
  }

  /** The store operations a reception amounts to: none, or the wipe of a signed
      secret, or the wipe and the consumption of the named one-time keys. */
  function OpsOf(ids: KeyIds, steps: bool, opens: bool): seq<PreKeyStore.Op> {
    (if steps then [PreKeyStore.AnswerUnder(ids.signedPreKeyId)] else [])
    + (if opens && ids.oneTimePreKeyId.Some? then [PreKeyStore.ConsumeOne(ids.oneTimePreKeyId.value)] else [])
    + (if opens && ids.oneTimeKemPreKeyId.Some? then [PreKeyStore.ConsumeOneKem(ids.oneTimeKemPreKeyId.value)] else [])
  }

  lemma OpsOfStore(l: PreKeyStore.Life, ids: KeyIds, steps: bool, opens: bool)
    ensures var answered := if steps then PreKeyStore.WipeSigned(l.store, ids.signedPreKeyId) else l.store;
      PreKeyStore.Lifetime(l, OpsOf(ids, steps, opens)).store
      == if opens then ConsumeNamed(answered, ids) else answered
  {
    hide PreKeyStore.Consume, PreKeyStore.Consuming, PreKeyStore.Lifetime, PreKeyStore.WipeSigned;
    var ops := if steps then [PreKeyStore.AnswerUnder(ids.signedPreKeyId)] else [];
    LifetimeNone(l);
    if steps {
      LifetimeAppend(l, [], PreKeyStore.AnswerUnder(ids.signedPreKeyId));
      assert [] + ops == ops;
    }
    if opens && ids.oneTimePreKeyId.Some? {
      LifetimeAppend(l, ops, PreKeyStore.ConsumeOne(ids.oneTimePreKeyId.value));
      ops := ops + [PreKeyStore.ConsumeOne(ids.oneTimePreKeyId.value)];
    }
    if opens && ids.oneTimeKemPreKeyId.Some? {
      LifetimeAppend(l, ops, PreKeyStore.ConsumeOneKem(ids.oneTimeKemPreKeyId.value));
      ops := ops + [PreKeyStore.ConsumeOneKem(ids.oneTimeKemPreKeyId.value)];
    }
    assert ops == OpsOf(ids, steps, opens);
  }

  lemma LifetimeNone(l: PreKeyStore.Life)
    ensures PreKeyStore.Lifetime(l, []) == l
  {
  }

  /** Whatever envelope arrives, its effect on the prekeys is that of operations of
      the store's lifetime; so what holds over every lifetime holds of a device that
      receives. */
  lemma ReceptionIsLifetime(self: Identity, l: PreKeyStore.Life, existing: Option<Session>, sender: Identity,
                            pinned: Option<Bytes>, payload: Payload, newKey: Bytes) returns (ops: seq<PreKeyStore.Op>)
    ensures Receive(self, l.store, existing, sender, pinned, payload, newKey).store
         == PreKeyStore.Lifetime(l, ops).store
  {
    hide Decrypt, Admit, ConsumeNamed, PreKeyStore.WipeSigned, PreKeyStore.Lifetime, StartsTurn, OpsOf;
    LifetimeNone(l);
    ops := [];
    var reached := Reached(self, l.store, existing, sender, pinned, payload);
    if reached.Some? {
      var (s, m) := reached.value;
      var steps, opens := StartsTurn(s, m.header), Decrypt(s, m, newKey).1.Plain?;
      ops := OpsOf(payload.preamble.keyIds, steps, opens);
      OpsOfStore(l, payload.preamble.keyIds, steps, opens);
    }
  }

  // -------------------------------------------------------------------------
  // The object
  // -------------------------------------------------------------------------

  class SessionState {
    const peerIdentity: Identity
    const ratchet: RatchetState
    var pendingPreKey: Option<Preamble>
    const establishedBy: Option<Bytes>

    ghost predicate Valid()
      reads this, ratchet, ratchet.sending
    {
      ratchet.Valid()
    }

    ghost function View(): Session
      reads this, ratchet, ratchet.sending
    {
      Session(peerIdentity, ratchet.View(), pendingPreKey, establishedBy)
    }

    constructor (peer: Identity, ratchet: RatchetState, pending: Option<Preamble>, establishedBy: Option<Bytes>)
      requires ratchet.Valid()
      ensures Valid() && this.ratchet == ratchet
      ensures View() == Session(peer, ratchet.View(), pending, establishedBy)
    {
      peerIdentity, this.ratchet, pendingPreKey, this.establishedBy := peer, ratchet, pending, establishedBy;
    }
  }

  method Start(self: Identity, peer: Identity, bundle: PreKeyStore.Bundle, genuine: bool, fingerprint: Option<Bytes>,
               ephemeral: Bytes, kemCiphertext: Bytes, newKey: Bytes) returns (session: SessionState?)
    ensures var r := StartSession(self, peer, bundle, genuine, fingerprint, ephemeral, kemCiphertext, newKey);
      if session == null then r.Malformed?
      else session.Valid() && fresh(session) && fresh(session.ratchet) && fresh(session.ratchet.sending)
           && r == Ok(session.View())
  {
    if fingerprint.Some? && fingerprint.value != peer.signingPublicKey {
      return null;
    }
    var h := InitiateHandshake(self, peer, bundle, ephemeral, kemCiphertext, genuine);
    if h.Malformed? {
      return null;
    }
    var agreed := h.value.agreed;
    var ratchet := new RatchetState.Initiator(agreed.rootSecret, bundle.signedPreKey.publicKey, agreed.associatedData,
                                              newKey);
    session := new SessionState(peer, ratchet, Some(h.value.preamble), None);
  }

  /** The kind and the bytes that go into the envelope. */
  function EncodePayload(s: Session, m: Message, aead: Aead): Result<(byte, Bytes)> {
    if s.pendingPreKey.Some? then
      var b :- EncodePreKeyPayload(s.pendingPreKey.value, m, aead);
      Ok((PAYLOAD_PREKEY, b))
    else
      var b :- EncodeRatchetMessage(m, aead);
      Ok((PAYLOAD_RATCHET, b))
  }

  /** What the recipient reads is what the sending session meant. */
  lemma PayloadArrives(s: Session, m: Message, aead: Aead)
    requires Faithful(aead) && EncodePayload(s, m, aead).Ok?
    ensures var (kind, b) := EncodePayload(s, m, aead).value;
      ReadPayload(kind, b, aead) == PayloadFor(s, m)
  {
    hide EncodePreKeyPayload, EncodeRatchetMessage, ReadPayload;
    var none := Preamble([], [], KeyIds(0, 0, None, None));
    PayloadRoundTrip(if s.pendingPreKey.Some? then s.pendingPreKey.value else none, m, aead);
  }

  method EncryptPayload(session: SessionState, plaintext: Bytes, aead: Aead)
    returns (r: Result<(byte, Bytes)>, ghost sealing: Sealing)
    requires session.Valid()
    modifies session.ratchet
    ensures session.Valid()
    ensures (session.View(), sealing) == EncryptMessage(old(session.View()), plaintext)
    ensures r == match sealing
                 case NotSent(_) => Malformed
                 case Sent(m) => EncodePayload(session.View(), m, aead)
  {
    var padded := Pad(plaintext);
    var sent := session.ratchet.RatchetEncrypt(padded[..]);
    sealing := sent;
    if sent.NotSent? {
      return Malformed, sealing;
    }
    var body := EncodeRatchetMessage(sent.message, aead);
    if session.pendingPreKey.Some? {
      var payload := EncodePreKeyPayload(session.pendingPreKey.value, sent.message, aead);
      r := match payload case Ok(b) => Ok((PAYLOAD_PREKEY, b)) case Malformed => Malformed;
    } else {
      r := match body case Ok(b) => Ok((PAYLOAD_RATCHET, b)) case Malformed => Malformed;
    }
  }

  ghost function ViewOf(session: SessionState?): Option<Session>
    reads session, if session == null then {} else {session.ratchet, session.ratchet.sending}
  {
    if session == null then None else Some(session.View())
  }

  method StripPadding(padded: Bytes, isNewSession: bool) returns (r: Received)
    ensures r == Unpadded(padded, isNewSession)
    ensures r.Received? <==> Stripped(padded).Ok?
  {
    var buffer := new byte[|padded|](i requires 0 <= i < |padded| => padded[i]);
    assert buffer[..] == padded;
    var x := Unpad(buffer);
    r := match x case Ok(p) => Received(p, isNewSession) case Malformed => Failed(BadInput);
  }

  /** What decrypting with a session may change. */
  ghost function Footprint(session: SessionState?): set<object?>
    reads session, if session == null then {} else {session.ratchet}
  {
    if session == null then {} else {session, session.ratchet, session.ratchet.sending}
  }

  /** A session in order, whose ratchet pair is none of the store's. Sessions are
      kept only once their ratchet has stepped, hence with a pair of their own. */
  ghost predicate Kept(session: SessionState?, preKeys: PreKeyStore.InMemoryPreKeyStore)
    reads Footprint(session), preKeys
    reads session, if session == null then {} else {session.ratchet}
  {
    session != null ==> session.Valid() && session.ratchet.sending !in preKeys.signedPreKeys.Values
  }

  /** Routing of an opened envelope. `session` is what the caller is to keep. */
  method DecryptEnvelope(self: Identity, sender: Identity, pinned: Option<Bytes>, kind: byte, payload: Bytes,
                         aead: Aead,
                         existing: SessionState?, preKeys: PreKeyStore.InMemoryPreKeyStore, newKey: Bytes)
    returns (session: SessionState?, outcome: Received)
    requires Kept(existing, preKeys) && preKeys.Valid()
    modifies preKeys, preKeys.signedPreKeys.Values, Footprint(existing)
    ensures Kept(session, preKeys) && preKeys.Valid()
    ensures session == existing || fresh(session)
    ensures Reception(preKeys.View(), ViewOf(session), outcome)
         == Receive(self, old(preKeys.View()), old(ViewOf(existing)), sender, pinned,
                    ReadPayload(kind, payload, aead), newKey)
  {
    hide PreKeyStore.Secrets, ReceivePayload, ReadPayload;
    if pinned.Some? && pinned.value != sender.signingPublicKey {
      return existing, Failed(IdentityChanged);
    }
    session, outcome := DecryptPayload(self, sender, kind, payload, aead, existing, preKeys, newKey);
  }

  method DecryptPayload(self: Identity, sender: Identity, kind: byte, payload: Bytes, aead: Aead,
                        existing: SessionState?, preKeys: PreKeyStore.InMemoryPreKeyStore, newKey: Bytes)
    returns (session: SessionState?, outcome: Received)
    requires Kept(existing, preKeys) && preKeys.Valid()
    modifies preKeys, preKeys.signedPreKeys.Values, Footprint(existing)
    ensures Kept(session, preKeys) && preKeys.Valid()
    ensures session == existing || fresh(session)
    ensures Reception(preKeys.View(), ViewOf(session), outcome)
         == ReceivePayload(self, old(preKeys.View()), old(ViewOf(existing)), sender, ReadPayload(kind, payload, aead),
                           newKey)
  {
    hide PreKeyStore.Secrets, Establish, ReceiveOn, ReadPreKeyPayload, ReadWhole;
    session := existing;
    var reader := new Reader(payload);
    if kind == PAYLOAD_PREKEY {
      session, outcome := DecryptPreKey(self, sender, reader, aead, existing, preKeys, newKey);
    } else if kind != PAYLOAD_RATCHET {
      outcome := Failed(BadInput);
    } else if existing == null {
      outcome := Failed(NoSession);
    } else {
      outcome := DecryptRatchet(existing, reader, aead, newKey, preKeys.View());
    }
  }

  method DecryptRatchet(session: SessionState, reader: Reader, aead: Aead, newKey: Bytes,
                        ghost store: PreKeyStore.Store)
    returns (outcome: Received)
    requires session.Valid() && reader.Valid()
    modifies reader, session, session.ratchet, session.ratchet.sending
    ensures session.Valid()
    ensures session.ratchet.sending == old(session.ratchet.sending) || fresh(session.ratchet.sending)
    ensures Reception(store, Some(session.View()), outcome)
         == ReceiveOn(store, old(session.View()), ReadWhole(old(reader.Rest()), aead), true, newKey)
  {
    hide Decrypt, ReadRatchetMessage, StartsTurn;
    var message := DecodeRatchetMessage(reader, aead);
    if message.Malformed? {
      return Failed(BadInput);
    }
    var complete := reader.End();
    if !complete {
      return Failed(BadInput);
    }
    var out := session.ratchet.RatchetDecrypt(message.value, newKey);
    if out.Refused? {
      return Failed(RatchetRefused(out.error));
    }
    session.pendingPreKey := None;
    outcome := StripPadding(out.plaintext, false);
  }

  method DecryptRepeat(session: SessionState, body: Bytes, aead: Aead, newKey: Bytes, ghost store: PreKeyStore.Store)
    returns (outcome: Received)
    requires session.Valid()
    modifies session.ratchet, session.ratchet.sending
    ensures session.Valid()
    ensures session.ratchet.sending == old(session.ratchet.sending) || fresh(session.ratchet.sending)
    ensures Reception(store, Some(session.View()), outcome)
         == ReceiveOn(store, old(session.View()), ReadBody(body, aead), false, newKey)
  {
    hide Decrypt, ReadRatchetMessage, StartsTurn;
    var reader := new Reader(body);
    var message := DecodeRatchetMessage(reader, aead);
    if message.Malformed? {
      return Failed(BadInput);
    }
    var out := session.ratchet.RatchetDecrypt(message.value, newKey);
    if out.Refused? {
      return Failed(RatchetRefused(out.error));
    }
    outcome := StripPadding(out.plaintext, false);
  }

  /** Preamble and body, and nothing after them. */
  method DecodePreKeyPayload(reader: Reader) returns (r: Result<(Preamble, Bytes)>)
    requires reader.Valid()
    modifies reader
    ensures forall aead ::
              (ReadPreKeyPayload(old(reader.Rest()), aead)
                == if r.Ok? then PreKeyPayload(r.value.0, ReadBody(r.value.1, aead)) else BadPayload)
  {
    hide ReadBody, ReadPreamble, ReadPrefixed;
    var preamble := DecodePreamble(reader);
    if preamble.Malformed? {
      return Malformed;
    }
    var body := reader.GetPrefixed();
    if body.Malformed? {
      return Malformed;
    }
    var complete := reader.End();
    r := if complete then Ok((preamble.value, body.value)) else Malformed;
  }

  method DecryptPreKey(self: Identity, sender: Identity, reader: Reader, aead: Aead,
                       existing: SessionState?, preKeys: PreKeyStore.InMemoryPreKeyStore, newKey: Bytes)
    returns (session: SessionState?, outcome: Received)
    requires reader.Valid() && Kept(existing, preKeys) && preKeys.Valid()
    modifies reader, preKeys, preKeys.signedPreKeys.Values, Footprint(existing)
    ensures Kept(session, preKeys) && preKeys.Valid()
    ensures session == existing || fresh(session)
    ensures Reception(preKeys.View(), ViewOf(session), outcome)
         == ReceivePayload(self, old(preKeys.View()), old(ViewOf(existing)), sender,
                           ReadPreKeyPayload(old(reader.Rest()), aead), newKey)
  {
    hide ReadBody, ReadPreKeyPayload, ReceiveOn, Establish, PreKeyStore.Secrets, CacheOk;
    session := existing;
    var r := DecodePreKeyPayload(reader);
    if r.Malformed? {
      return session, Failed(BadInput);
    }
    var (preamble, body) := r.value;
    if existing != null && existing.establishedBy == Some(preamble.ephemeralPublicKey) {
      outcome := DecryptRepeat(existing, body, aead, newKey, preKeys.View());
    } else {
      var founded;
      founded, outcome := EstablishSession(self, sender, preamble, body, aead, preKeys, newKey);
      if founded != null {
        session := founded;
      }
    }
  }

  method ResolveKeys(preKeys: PreKeyStore.InMemoryPreKeyStore, ids: KeyIds)
    returns (why: Option<Failure>, held: Option<Held>)
    ensures (why, held) == Resolve(preKeys.View(), ids)
  {
    if ids.signedPreKeyId !in preKeys.signedPreKeys {
      return Some(UnknownSignedPreKey), None;
    }
    if ids.signedKemPreKeyId !in preKeys.signedKemPreKeys {
      return Some(UnknownSignedKemPreKey), None;
    }
    var oneTime := HeldOneTime(preKeys.oneTimePreKeys, ids.oneTimePreKeyId);
    if ids.oneTimePreKeyId.Some? && oneTime.None? {
      return Some(OneTimePreKeyUsed), None;
    }
    var kemOneTime := HeldOneTime(preKeys.oneTimeKemPreKeys, ids.oneTimeKemPreKeyId);
    if ids.oneTimeKemPreKeyId.Some? && kemOneTime.None? {
      return Some(OneTimeKemPreKeyUsed), None;
    }
    why, held := None, Some(Held(PreKeyStore.KeyPair(preKeys.signedPreKeys[ids.signedPreKeyId].secretKey),
                                 preKeys.signedKemPreKeys[ids.signedKemPreKeyId], oneTime, kemOneTime));
  }

  method ConsumeKeys(preKeys: PreKeyStore.InMemoryPreKeyStore, ids: KeyIds)
    modifies preKeys`oneTimePreKeys, preKeys`publishedOneTime, preKeys`oneTimeKemPreKeys, preKeys`publishedOneTimeKem
    ensures preKeys.View() == ConsumeNamed(old(preKeys.View()), ids)
  {
    hide PreKeyStore.Consume, PreKeyStore.Secrets;
    if ids.oneTimePreKeyId.Some? {
      preKeys.ConsumeOneTimePreKey(ids.oneTimePreKeyId.value);
    }
    if ids.oneTimeKemPreKeyId.Some? {
      preKeys.ConsumeOneTimeKemPreKey(ids.oneTimeKemPreKeyId.value);
    }
  }

  /** The first decryption of a new responder ratchet, whose pair is the store's,
      and the consumption of the one-time keys if it succeeds. */
  method DecryptFirst(ratchet: RatchetState, m: Message, preKeys: PreKeyStore.InMemoryPreKeyStore, ids: KeyIds,
                      newKey: Bytes)
    returns (out: Outcome)
    requires ratchet.Valid() && preKeys.Valid()
    requires ids.signedPreKeyId in preKeys.signedPreKeys && ratchet.sending == preKeys.signedPreKeys[ids.signedPreKeyId]
    modifies ratchet, ratchet.sending
    modifies preKeys`oneTimePreKeys, preKeys`publishedOneTime, preKeys`oneTimeKemPreKeys, preKeys`publishedOneTimeKem
    ensures (ratchet.View(), out) == Decrypt(old(ratchet.View()), m, newKey) && ratchet.Valid()
    ensures var answered := Answered(old(preKeys.View()), ids.signedPreKeyId, old(ratchet.View()), m.header);
      preKeys.View() == if out.Plain? then ConsumeNamed(answered, ids) else answered
    ensures StartsTurn(old(ratchet.View()), m.header) ==> fresh(ratchet.sending)
  {
    hide Decrypt, StartsTurn, ConsumeNamed;
    ghost var was := PreKeyStore.Secrets(preKeys.signedPreKeys);
    ghost var turns := StartsTurn(ratchet.View(), m.header);
    out := ratchet.RatchetDecrypt(m, newKey);
    assert PreKeyStore.Secrets(preKeys.signedPreKeys)
        == if turns then was[ids.signedPreKeyId := PreKeyStore.KeyPair(WIPED)] else was;
    if out.Plain? {
      ConsumeKeys(preKeys, ids);
    }
  }

  method AdmitPreamble(self: Identity, sender: Identity, preamble: Preamble, body: Bytes, aead: Aead,
                       preKeys: PreKeyStore.InMemoryPreKeyStore)
    returns (why: Option<Failure>, ratchet: RatchetState?, message: Result<Message>)
    ensures ratchet == null <==> why.Some?
    ensures (why, if ratchet == null then None else Some(ratchet.View()))
         == Admit(self, preKeys.View(), sender, preamble, ReadBody(body, aead))
    ensures ratchet != null ==>
              && fresh(ratchet) && ratchet.Valid() && message == ReadBody(body, aead) && message.Ok?
              && preamble.keyIds.signedPreKeyId in preKeys.signedPreKeys
              && ratchet.sending == preKeys.signedPreKeys[preamble.keyIds.signedPreKeyId]
  {
    hide ReadRatchetMessage, RespondToHandshake, Resolve, PreKeyStore.Secrets;
    ratchet, message := null, Malformed;
    var unresolved, held := ResolveKeys(preKeys, preamble.keyIds);
    if unresolved.Some? {
      return unresolved, null, Malformed;
    }
    var agreed := RespondToHandshake(self, sender, preamble, held.value);
    if agreed.Malformed? {
      return Some(BadInput), null, Malformed;
    }
    ResolvedPair(preKeys.View(), preamble.keyIds);
    NamedSecret(preKeys.signedPreKeys, preamble.keyIds.signedPreKeyId);
    var signedPreKey := preKeys.signedPreKeys[preamble.keyIds.signedPreKeyId];
    var reader := new Reader(body);
    message := DecodeRatchetMessage(reader, aead);
    if message.Malformed? {
      return Some(BadInput), null, Malformed;
    }
    ratchet := new RatchetState.Responder(agreed.value.rootSecret, signedPreKey, agreed.value.associatedData);
    why := None;
  }

  method EstablishSession(self: Identity, sender: Identity, preamble: Preamble, body: Bytes, aead: Aead,
                          preKeys: PreKeyStore.InMemoryPreKeyStore, newKey: Bytes)
    returns (session: SessionState?, outcome: Received)
    requires preKeys.Valid()
    modifies preKeys`oneTimePreKeys, preKeys`publishedOneTime, preKeys`oneTimeKemPreKeys, preKeys`publishedOneTimeKem,
             preKeys.signedPreKeys.Values
    ensures session != null ==>
              session.Valid() && fresh(session) && fresh(session.ratchet) && fresh(session.ratchet.sending)
    ensures Reception(preKeys.View(), ViewOf(session), outcome)
         == Establish(self, old(preKeys.View()), sender, preamble, ReadBody(body, aead), newKey)
  {
    hide Decrypt, ReadBody, Admit, ConsumeNamed, PreKeyStore.Secrets, Answered, StartsTurn, Unpadded, Stripped, CacheOk,
         PreKeyStore.InMemoryPreKeyStore.Valid;
    var why, ratchet, message := AdmitPreamble(self, sender, preamble, body, aead, preKeys);
    if why.Some? {
      return null, Failed(why.value);
    }
    PlainTurned(self, preKeys.View(), sender, preamble, message, newKey);
    var out := DecryptFirst(ratchet, message.value, preKeys, preamble.keyIds, newKey);
    if out.Refused? {
      return null, Failed(RatchetRefused(out.error));
    }
    outcome := StripPadding(out.plaintext, true);
    session := null;
    if outcome.Received? {
      session := new SessionState(sender, ratchet, None, Some(preamble.ephemeralPublicKey));
    }
  }

  /** A first message that decrypts has stepped the ratchet. */
  lemma PlainTurned(self: Identity, store: PreKeyStore.Store, sender: Identity, p: Preamble, body: Result<Message>,
                    newKey: Bytes)
    requires body.Ok?
    ensures var s := Admit(self, store, sender, p, body).1;
      s.Some? && Decrypt(s.value, body.value, newKey).1.Plain? ==> StartsTurn(s.value, body.value.header)
  {
    hide Decrypt, Admit, StartsTurn;
    var s := Admit(self, store, sender, p, body).1;
    if s.Some? {
      AdmittedIsFresh(self, store, sender, p, body);
      ResponderAnswers(s.value.rootKey, s.value.sending, s.value.associatedData, body.value, newKey);
      var out := Decrypt(s.value, body.value, newKey).1;
      if out.Plain? {
        assert SealsFirst(s.value, body.value, out.plaintext);
      }
    }
  }

  lemma ResolvedPair(store: PreKeyStore.Store, ids: KeyIds)
    requires Resolve(store, ids).1.Some?
    ensures ids.signedPreKeyId in store.signed.secrets
    ensures Resolve(store, ids).1.value.signedPreKey == store.signed.secrets[ids.signedPreKeyId]
  {
  }

  lemma NamedSecret(pairs: map<nat, SharedKeyPair>, id: nat)
    requires id in pairs
    ensures PreKeyStore.Secrets(pairs)[id] == PreKeyStore.KeyPair(pairs[id].secretKey)
  {
  }
}
