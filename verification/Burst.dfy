/** An initiator, a responder that first has to be created, and everything the
    network may do with their envelopes.

    The initiator repeats its preamble until it hears back, so any of its first
    messages may arrive first, or twice, or never. The envelope authenticates
    its sender, hence what reaches a party in the peer's name is something the
    peer sealed. */
module Burst {
  import opened Wire
  import opened Keys
  import opened DoubleRatchet
  import opened Pqxdh
  import opened Codec
  import opened Padding
  import opened Session
  import opened Conversation
  import PreKeyStore

  /** Everything about a run that does not change. */
  datatype Setting = Setting(
    alice: Identity,
    bob: Identity,
    bundle: PreKeyStore.Bundle,
    preamble: Preamble,
    agreed: Agreed,
    first: Bytes)

  datatype Letter = Letter(from: Party, payload: Payload, message: Message, plaintext: Bytes)

  datatype Receipt = Receipt(to: Party, header: Header, plaintext: Bytes, isNewSession: bool)

  /** `store` and `older` are Bob's prekeys and the session he holds with Alice;
      `spent` and `spentKem` count the one-time ids that deliveries removed from
      his store. `world` is a history variable: the conversation of the two
      ratchets, whose Bob is there from the start. */
  datatype Scene = Scene(
    alice: Session,
    bob: Option<Session>,
    aliceStore: PreKeyStore.Store,
    store: PreKeyStore.Store,
    letters: set<Letter>,
    receipts: seq<Receipt>,
    spent: multiset<nat>,
    spentKem: multiset<nat>,
    world: World)

  /** Bob has the session that this handshake creates. */
  predicate Established(x: Setting, c: Scene) {
    Repeats(c.bob, x.preamble)
  }

  // -------------------------------------------------------------------------
  // The beginning
  // -------------------------------------------------------------------------

  /** The store answers for every key the bundle named. */
  predicate Backs(bundle: PreKeyStore.Bundle, store: PreKeyStore.Store) {
    var (_, held) := Resolve(store, NamedIds(bundle));
    held.Some? && Matching(bundle, held.value)
  }

  predicate Plausible(x: Setting) {
    && InitiateHandshake(x.alice, x.bob, x.bundle, x.preamble.ephemeralPublicKey, x.preamble.kemCiphertext, true)
       == Ok(Initiated(x.agreed, x.preamble))
    && GoodKey(x.alice.exchangePublicKey) && GoodKey(x.preamble.ephemeralPublicKey)
    && |x.preamble.kemCiphertext| == MLKEM_CIPHERTEXT_LEN
    && GoodKey(x.first) && x.first != x.bundle.signedPreKey.publicKey
  }

  ghost predicate Opening(x: Setting, c: Scene) {
    && Plausible(x)
    && StartSession(x.alice, x.bob, x.bundle, true, None, x.preamble.ephemeralPublicKey, x.preamble.kemCiphertext,
                    x.first)
       == Ok(c.alice)
    && Backs(x.bundle, c.store)
    && !Established(x, c)
    && c.letters == {} && c.receipts == [] && c.spent == multiset{} && c.spentKem == multiset{}
    && c.world == Conversation.Start(x.agreed.rootSecret, x.agreed.associatedData, x.bundle.signedPreKey.publicKey,
                                     x.first)
  }

  /** Whatever a device has done since it was set up: it can answer for a bundle it
      issues exactly as long as no first message was answered under its current
      signed prekey, because the first answer zero-fills that key's secret. */
  lemma IssuedBundleBackedIff(pair: PreKeyStore.KeyPair, kemPair: PreKeyStore.KeyPair, pairs: seq<PreKeyStore.KeyPair>,
                              kemPairs: seq<PreKeyStore.KeyPair>, ops: seq<PreKeyStore.Op>)
    ensures var l := PreKeyStore.Lifetime(PreKeyStore.Born(pair, kemPair, pairs, kemPairs), ops);
            var (store, bundle) := PreKeyStore.IssueStore(l.store);
            GoodKey(bundle.signedPreKey.publicKey) ==> (Backs(bundle, store) <==> l.store.current.id !in l.wiped)
  {
    hide PreKeyStore.Lifetime, PreKeyStore.Born, PreKeyStore.Newest, PreKeyStore.FourApart, PreKeyStore.AllIdsBelow;
    PreKeyStore.NewestGenerationsHeld(pair, kemPair, pairs, kemPairs, ops);
    PreKeyStore.IdsApartAndBacked(pair, kemPair, pairs, kemPairs, ops);
  }

  /** Every handshake started from a bundle the device can answer for opens a
      scene. */
  lemma IssuedBundleOpens(alice: Identity, bob: Identity, device: PreKeyStore.Store, ephemeral: Bytes,
                          kemCiphertext: Bytes, first: Bytes) returns (x: Setting, c: Scene)
    requires var (store, bundle) := PreKeyStore.IssueStore(device);
      && Backs(bundle, store)
      && InitiateHandshake(alice, bob, bundle, ephemeral, kemCiphertext, true).Ok?
      && first != bundle.signedPreKey.publicKey
    requires GoodKey(alice.exchangePublicKey) && GoodKey(ephemeral) && GoodKey(first)
    requires |kemCiphertext| == MLKEM_CIPHERTEXT_LEN
    ensures Opening(x, c) && x.alice == alice && x.bob == bob
    ensures (c.store, x.bundle) == PreKeyStore.IssueStore(device)
  {
    hide Transcript, AssociatedData, Backs, GoodKey, Agreement, PreKeyStore.Issue;
    var (store, bundle) := PreKeyStore.IssueStore(device);
    var h := InitiateHandshake(alice, bob, bundle, ephemeral, kemCiphertext, true).value;
    x := Setting(alice, bob, bundle, h.preamble, h.agreed, first);
    var session := StartSession(alice, bob, bundle, true, None, ephemeral, kemCiphertext, first).value;
    c := Scene(session, None, store, store, {}, [], multiset{}, multiset{},
               Conversation.Start(h.agreed.rootSecret, h.agreed.associatedData, bundle.signedPreKey.publicKey, first));
  }

  // -------------------------------------------------------------------------
  // What can happen
  // -------------------------------------------------------------------------

  datatype Act =
    | Write(from: Party, plaintext: Bytes)
    | Hand(to: Party, letter: Letter, newKey: Bytes)
    | Tend(store: PreKeyStore.Store)   // Bob rotates, replenishes, serves other peers

  ghost predicate Allowed(x: Setting, c: Scene, act: Act) {
    match act
    case Write(p, _) => p == Alice || Established(x, c)
    case Hand(p, l, newKey) =>
      l in c.letters && l.from == Other(p) && Permitted(c.world, Step.Deliver(p, l.message, newKey))
    case Tend(_) => true
  }

  function Wrote(c: Scene, p: Party, s: Session, r: Sealing, plaintext: Bytes): Scene {
    var d := if p == Alice then c.(alice := s) else c.(bob := Some(s));
    if r.Sent? then d.(letters := d.letters + {Letter(p, PayloadFor(s, r.message), r.message, plaintext)}) else d
  }

  ghost function ReceptionOf(x: Setting, c: Scene, p: Party, payload: Payload, newKey: Bytes): Reception {
    if p == Alice then Receive(x.alice, c.aliceStore, Some(c.alice), x.bob, None, payload, newKey)
    else Receive(x.bob, c.store, c.bob, x.alice, None, payload, newKey)
  }

  function Gone(before: map<nat, PreKeyStore.KeyPair>, after: map<nat, PreKeyStore.KeyPair>): multiset<nat> {
    multiset(before.Keys - after.Keys)
  }

  ghost function Handed(c: Scene, p: Party, r: Reception, h: Header): Scene
    requires p == Alice ==> r.session.Some?
  {
    var d := if p == Alice then c.(alice := r.session.value, aliceStore := r.store)
             else c.(bob := r.session, store := r.store,
                     spent := c.spent + Gone(c.store.oneTime.secrets, r.store.oneTime.secrets),
                     spentKem := c.spentKem + Gone(c.store.oneTimeKem.secrets, r.store.oneTimeKem.secrets));
    if r.outcome.Failed? then d
    else d.(receipts := d.receipts + [Receipt(p, h, r.outcome.plaintext, r.outcome.isNewSession)])
  }

  /** A first message that fails leaves no session behind, so the conversation of
      the two ratchets is not touched by it either. */
  ghost function Follow(x: Setting, c: Scene, act: Act): Scene
    requires Shaped(c.world)
    requires Allowed(x, c, act)
  {
    match act
    case Write(p, plaintext) =>
      var from := if p == Alice then c.alice else c.bob.value;
      var (s, r) := EncryptMessage(from, plaintext);
      Wrote(c, p, s, r, plaintext).(world := Next(c.world, Step.Send(p, Padded(plaintext))))
    case Hand(p, l, newKey) =>
      var r := ReceptionOf(x, c, p, l.payload, newKey);
      ReceptionKeepsAlice(x, c, l.payload, newKey);
      var d := Handed(c, p, r, l.message.header);
      if p == Alice || Established(x, d) then d.(world := Next(c.world, Step.Deliver(p, l.message, newKey))) else d
    case Tend(store) => c.(store := store)
  }

  lemma ReceptionKeepsAlice(x: Setting, c: Scene, payload: Payload, newKey: Bytes)
    ensures ReceptionOf(x, c, Alice, payload, newKey).session.Some?
  {
    hide Decrypt, Resolve, Responding;
  }

  ghost predicate Course(x: Setting, c: Scene, acts: seq<Act>, end: Scene)
    requires Shaped(c.world)
    decreases |acts|
  {
    if acts == [] then end == c
    else
      && Allowed(x, c, acts[0])
      && Shaped(Follow(x, c, acts[0]).world)
      && Course(x, Follow(x, c, acts[0]), acts[1..], end)
  }

  /** Everything that can come about from a handshake on. */
  ghost predicate Possible(x: Setting, c: Scene) {
    exists start, acts :: Opening(x, start) && Course(x, start, acts, c)
  }

  // -------------------------------------------------------------------------
  // What always holds
  // -------------------------------------------------------------------------

  /** The responder ratchet that this handshake leads to. */
  function NewBob(x: Setting): Ratchet {
    InitialiseResponder(x.agreed.rootSecret, x.bundle.signedPreKey.publicKey, x.agreed.associatedData)
  }

  /** Bob's session, once there, is the responder of the conversation. */
  ghost predicate BobOk(x: Setting, c: Scene) {
    if Established(x, c) then c.bob == Some(Session(x.alice, c.world.bob, None, Some(x.preamble.ephemeralPublicKey)))
    else
      && c.world.bob == NewBob(x)
      && forall r :: r in c.receipts ==> r.to == Alice
  }

  ghost predicate AliceOk(x: Setting, c: Scene) {
    && c.alice.ratchet == c.world.alice && c.alice.establishedBy == None
    && (c.alice.pendingPreKey == Some(x.preamble) || (c.alice.pendingPreKey == None && Established(x, c)))
  }

  /** Only Alice sends the preamble, and only it while Bob has no session. */
  ghost predicate LetterOk(x: Setting, c: Scene, l: Letter) {
    && Packet(l.from, l.message, Padded(l.plaintext)) in c.world.sent
    && (|| l.payload == RatchetPayload(Ok(l.message))
        || (l.from == Alice && l.payload == PreKeyPayload(x.preamble, Ok(l.message))))
    && (l.payload.RatchetPayload? ==> Established(x, c))
  }

  ghost predicate LettersOk(x: Setting, c: Scene) {
    forall l :: l in c.letters ==> LetterOk(x, c, l)
  }

  lemma LetterFacts(x: Setting, c: Scene, l: Letter)
    requires LettersOk(x, c) && l in c.letters
    ensures LetterOk(x, c, l)
  {
  }

  /** Each packet of the conversation is a letter. */
  ghost predicate PacketsAreLetters(c: Scene) {
    forall q :: q in c.world.sent ==>
      exists l :: l in c.letters && q == Packet(l.from, l.message, Padded(l.plaintext))
  }

  function DeliveryOf(r: Receipt): Delivery {
    Delivery(r.to, r.header, Padded(r.plaintext))
  }

  ghost predicate ReceiptsOk(c: Scene) {
    && |c.receipts| == |c.world.delivered|
    && forall i :: 0 <= i < |c.receipts| ==> c.world.delivered[i] == DeliveryOf(c.receipts[i])
  }

  function Named(id: Option<nat>): multiset<nat> {
    if id.Some? then multiset{id.value} else multiset{}
  }

  function Creations(receipts: seq<Receipt>): nat {
    if receipts == [] then 0
    else Creations(receipts[..|receipts| - 1]) + if receipts[|receipts| - 1].isNewSession then 1 else 0
  }

  /** The handshake has been paid for exactly if it was completed. */
  ghost predicate SpendingOk(x: Setting, c: Scene) {
    && Creations(c.receipts) == (if Established(x, c) then 1 else 0)
    && c.spent == (if Established(x, c) then Named(x.preamble.keyIds.oneTimePreKeyId) else multiset{})
    && c.spentKem == (if Established(x, c) then Named(x.preamble.keyIds.oneTimeKemPreKeyId) else multiset{})
  }

  ghost predicate SceneOk(x: Setting, c: Scene) {
    && Plausible(x) && Reachable(c.world) && Shaped(c.world) && c.world.root == x.agreed.rootSecret
    && AliceOk(x, c) && BobOk(x, c) && LettersOk(x, c) && PacketsAreLetters(c) && ReceiptsOk(c) && SpendingOk(x, c)
  }

  lemma PlausibleFacts(x: Setting)
    requires Plausible(x)
    ensures x.preamble.keyIds == NamedIds(x.bundle)
    ensures GoodKey(x.bundle.signedPreKey.publicKey)
  {
    hide Transcript, AssociatedData, GoodKey, Agreement;
  }

  lemma OpeningOk(x: Setting, c: Scene)
    requires Opening(x, c)
    ensures SceneOk(x, c)
  {
    hide Transcript, AssociatedData, Agreement, InitiateHandshake, Backs, GoodKey;
    PlausibleFacts(x);
    var (root, ad, spk) := (x.agreed.rootSecret, x.agreed.associatedData, x.bundle.signedPreKey.publicKey);
    assert Run(Conversation.Start(root, ad, spk, x.first), [], c.world);
    assert Reachable(c.world);
  }

  // -------------------------------------------------------------------------
  // Writing
  // -------------------------------------------------------------------------

  lemma SendEffect(w: World, p: Party, plaintext: Bytes)
    requires Shaped(w)
    ensures var (s, r) := Encrypt(StateOf(w, p), plaintext);
      var w' := Next(w, Step.Send(p, plaintext));
      && StateOf(w', p) == s && StateOf(w', Other(p)) == StateOf(w, Other(p))
      && w'.delivered == w.delivered && w'.root == w.root
      && w'.sent == if r.Sent? then w.sent + {Packet(p, r.message, plaintext)} else w.sent
  {
    hide Encrypt;
  }

  lemma MoreLetters(x: Setting, c: Scene, d: Scene, l: Letter)
    requires LettersOk(x, c) && PacketsAreLetters(c)
    requires d.letters == c.letters + {l} && Established(x, d) == Established(x, c)
    requires d.world.sent == c.world.sent + {Packet(l.from, l.message, Padded(l.plaintext))}
    requires LetterOk(x, d, l)
    ensures LettersOk(x, d) && PacketsAreLetters(d)
  {
    hide Padded;
    assert forall k :: k in c.letters ==> LetterOk(x, c, k);
    forall q | q in d.world.sent
      ensures exists k :: k in d.letters && q == Packet(k.from, k.message, Padded(k.plaintext))
    {
      if q !in c.world.sent {
        assert l in d.letters && q == Packet(l.from, l.message, Padded(l.plaintext));
      }
    }
  }

  /** The scene after a party wrote something. */
  lemma WriteScene(x: Setting, c: Scene, p: Party, plaintext: Bytes)
    requires SceneOk(x, c) && Allowed(x, c, Write(p, plaintext))
    ensures var d := Follow(x, c, Write(p, plaintext));
      var (s, r) := Encrypt(StateOf(c.world, p), Padded(plaintext));
      var from := if p == Alice then c.alice else c.bob.value;
      && d == c.(alice := d.alice, bob := d.bob, letters := d.letters,
                 world := Next(c.world, Step.Send(p, Padded(plaintext))))
      && d.letters == (if r.Sent? then c.letters + {Letter(p, PayloadFor(from, r.message), r.message, plaintext)}
                       else c.letters)
      && Established(x, d) == Established(x, c) && AliceOk(x, d) && BobOk(x, d)
  {
    hide Plausible, Reachable, Next, Encrypt, Padded, LettersOk, PacketsAreLetters, ReceiptsOk, SpendingOk;
    SendEffect(c.world, p, Padded(plaintext));
  }

  lemma WriteKeeps(x: Setting, c: Scene, p: Party, plaintext: Bytes)
    requires SceneOk(x, c) && Allowed(x, c, Write(p, plaintext))
    ensures SceneOk(x, Follow(x, c, Write(p, plaintext)))
  {
    hide Plausible, Reachable, Next, Encrypt, Padded, LettersOk, PacketsAreLetters, AliceOk, Follow, Creations,
         LetterOk;
    var d := Follow(x, c, Write(p, plaintext));
    WriteScene(x, c, p, plaintext);
    SendEffect(c.world, p, Padded(plaintext));
    ReachableNext(c.world, Step.Send(p, Padded(plaintext)));
    var (s, r) := Encrypt(StateOf(c.world, p), Padded(plaintext));
    if r.Sent? {
      var from := if p == Alice then c.alice else c.bob.value;
      var l := Letter(p, PayloadFor(from, r.message), r.message, plaintext);
      NewLetterOk(x, c, d, p, l);
      MoreLetters(x, c, d, l);
    } else {
      SameLetters(x, c, d);
    }
  }

  lemma NewLetterOk(x: Setting, c: Scene, d: Scene, p: Party, l: Letter)
    requires AliceOk(x, c) && BobOk(x, c) && (p == Bob ==> Established(x, c)) && Established(x, d) == Established(x, c)
    requires l.from == p && l.payload == PayloadFor(if p == Alice then c.alice else c.bob.value, l.message)
    requires Packet(p, l.message, Padded(l.plaintext)) in d.world.sent
    ensures LetterOk(x, d, l)
  {
    hide Padded;
  }

  lemma SameLetters(x: Setting, c: Scene, d: Scene)
    requires LettersOk(x, c) && PacketsAreLetters(c)
    requires d.letters == c.letters && Established(x, d) == Established(x, c) && d.world.sent == c.world.sent
    ensures LettersOk(x, d) && PacketsAreLetters(d)
  {
    hide Padded;
    assert forall k :: k in c.letters ==> LetterOk(x, c, k);
  }

  // -------------------------------------------------------------------------
  // Delivering
  // -------------------------------------------------------------------------

  lemma DeliverEffect(w: World, p: Party, m: Message, newKey: Bytes)
    requires Shaped(w)
    ensures var (s, out) := Decrypt(StateOf(w, p), m, newKey);
      var w' := Next(w, Step.Deliver(p, m, newKey));
      && StateOf(w', p) == s && StateOf(w', Other(p)) == StateOf(w, Other(p))
      && w'.sent == w.sent && w'.root == w.root
      && w'.delivered == if out.Plain? then w.delivered + [Delivery(p, m.header, out.plaintext)] else w.delivered
  {
    hide Decrypt;
  }

  /** What decrypts was padded by the peer. */
  lemma PlainIsPadded(c: Scene, p: Party, m: Message, newKey: Bytes)
    requires Reachable(c.world) && PacketsAreLetters(c) && Permitted(c.world, Step.Deliver(p, m, newKey))
    ensures var out := Decrypt(StateOf(c.world, p), m, newKey).1;
      out.Plain? ==> Stripped(out.plaintext).Ok? && Padded(Stripped(out.plaintext).value) == out.plaintext
  {
    hide Decrypt, Permitted, Reachable, Padded, Stripped, Next;
    ReachableNext(c.world, Step.Deliver(p, m, newKey));
    DeliverEffect(c.world, p, m, newKey);
    var out := Decrypt(StateOf(c.world, p), m, newKey).1;
    if out.Plain? {
      var w' := Next(c.world, Step.Deliver(p, m, newKey));
      DeliveredOnceAsSent(w');
      var d := Delivery(p, m.header, out.plaintext);
      assert w'.delivered[|c.world.delivered|] == d;
      var q :| q in w'.sent && q.plaintext == out.plaintext;
      var l :| l in c.letters && q == Packet(l.from, l.message, Padded(l.plaintext));
      UnpadPad(l.plaintext);
    }
  }

  lemma CreationsAppend(receipts: seq<Receipt>, r: Receipt)
    ensures Creations(receipts + [r]) == Creations(receipts) + if r.isNewSession then 1 else 0
  {
    assert (receipts + [r])[..|receipts|] == receipts;
  }

  /** The part of the invariant that only looks at receipts and letters. */
  lemma ReceiptsKept(c: Scene, d: Scene, p: Party, m: Message, newKey: Bytes, outcome: Received)
    requires Reachable(c.world) && Shaped(c.world) && PacketsAreLetters(c) && ReceiptsOk(c)
    requires Permitted(c.world, Step.Deliver(p, m, newKey))
    requires d.world == Next(c.world, Step.Deliver(p, m, newKey)) && d.letters == c.letters
    requires match Decrypt(StateOf(c.world, p), m, newKey).1
             case Plain(padded) => outcome == Unpadded(padded, outcome.Received? && outcome.isNewSession)
             case Refused(_) => outcome.Failed?
    requires d.receipts == if outcome.Failed? then c.receipts
                           else c.receipts + [Receipt(p, m.header, outcome.plaintext, outcome.isNewSession)]
    ensures ReceiptsOk(d) && PacketsAreLetters(d) && Reachable(d.world) && Shaped(d.world)
  {
    hide Decrypt, Permitted, Reachable, Padded, Stripped, Next;
    PlainIsPadded(c, p, m, newKey);
    DeliverEffect(c.world, p, m, newKey);
    ReachableNext(c.world, Step.Deliver(p, m, newKey));
  }

  /** What a session that exists reports. */
  function Answer(out: Outcome): Received {
    match out
    case Refused(e) => Failed(RatchetRefused(e))
    case Plain(padded) => Unpadded(padded, false)
  }

  /** Bob's letters go to Alice's session, and end its preamble if they decrypt. */
  lemma AliceRouted(x: Setting, c: Scene, l: Letter, newKey: Bytes)
    requires AliceOk(x, c) && LetterOk(x, c, l) && l.from == Bob
    ensures var r := ReceptionOf(x, c, Alice, l.payload, newKey);
      var (t, out) := Decrypt(c.world.alice, l.message, newKey);
      && r.store == c.aliceStore
      && r.session == Some(c.alice.(ratchet := t, pendingPreKey := if out.Plain? then None else c.alice.pendingPreKey))
      && r.outcome == Answer(out)
  {
    hide Decrypt, Unpadded, Padded;
  }

  lemma HandKeepsAlice(x: Setting, c: Scene, l: Letter, newKey: Bytes)
    requires SceneOk(x, c) && Allowed(x, c, Hand(Alice, l, newKey))
    ensures SceneOk(x, Follow(x, c, Hand(Alice, l, newKey)))
  {
    hide Plausible, Backs, Reachable, Next, Decrypt, Padded, Stripped, Permitted, Receive,
         PacketsAreLetters, ReceiptsOk, Creations;
    var w, m := c.world, l.message;
    var r := ReceptionOf(x, c, Alice, l.payload, newKey);
    var d := Follow(x, c, Hand(Alice, l, newKey));
    assert LetterOk(x, c, l);
    AliceRouted(x, c, l, newKey);
    DeliverEffect(w, Alice, m, newKey);
    PlainIsPadded(c, Alice, m, newKey);
    ReceiptsKept(c, d, Alice, m, newKey, r.outcome);
    assert d.bob == c.bob && d.store == c.store && d.world.bob == w.bob;
    assert Established(x, d);
    SameLetters(x, c, d);
    if r.outcome.Received? {
      CreationsAppend(c.receipts, Receipt(Alice, m.header, r.outcome.plaintext, r.outcome.isNewSession));
    }
  }

  /** Any of Alice's letters, with the preamble or without, goes to the session
      that exists. */
  lemma Routed(x: Setting, c: Scene, l: Letter, newKey: Bytes)
    requires Established(x, c) && BobOk(x, c) && LetterOk(x, c, l)
    ensures var r := ReceptionOf(x, c, Bob, l.payload, newKey);
      var (t, out) := Decrypt(c.world.bob, l.message, newKey);
      && r.store == c.store
      && r.session == Some(Session(x.alice, t, None, Some(x.preamble.ephemeralPublicKey)))
      && r.outcome == Answer(out)
  {
    hide Decrypt, Unpadded, Padded;
  }

  /** A letter to a session that exists costs no prekey. */
  lemma RoutedScene(x: Setting, c: Scene, l: Letter, newKey: Bytes)
    requires SceneOk(x, c) && Allowed(x, c, Hand(Bob, l, newKey)) && Established(x, c)
    ensures var d := Follow(x, c, Hand(Bob, l, newKey));
      var r := ReceptionOf(x, c, Bob, l.payload, newKey);
      && Established(x, d) && BobOk(x, d)
      && d == c.(bob := d.bob, world := Next(c.world, Step.Deliver(Bob, l.message, newKey)), receipts := d.receipts)
      && d.receipts == (if r.outcome.Failed? then c.receipts
                        else c.receipts + [Receipt(Bob, l.message.header, r.outcome.plaintext, r.outcome.isNewSession)])
  {
    hide Plausible, Reachable, Next, Decrypt, Padded, Stripped, Permitted, Receive, Gone, PacketsAreLetters, ReceiptsOk,
         SpendingOk, LetterOk, AliceOk;
    LetterFacts(x, c, l);
    Routed(x, c, l, newKey);
    DeliverEffect(c.world, Bob, l.message, newKey);
    NothingGone(c.store.oneTime.secrets);
    NothingGone(c.store.oneTimeKem.secrets);
  }

  lemma HandKeepsBob(x: Setting, c: Scene, l: Letter, newKey: Bytes)
    requires SceneOk(x, c) && Allowed(x, c, Hand(Bob, l, newKey)) && Established(x, c)
    ensures SceneOk(x, Follow(x, c, Hand(Bob, l, newKey)))
  {
    hide Plausible, Reachable, Next, Decrypt, Padded, Stripped, Permitted, Receive, PacketsAreLetters, ReceiptsOk,
         Creations, LetterOk, LettersOk, BobOk, Follow;
    var m := l.message;
    var r := ReceptionOf(x, c, Bob, l.payload, newKey);
    var d := Follow(x, c, Hand(Bob, l, newKey));
    RoutedScene(x, c, l, newKey);
    LetterFacts(x, c, l);
    Routed(x, c, l, newKey);
    DeliverEffect(c.world, Bob, m, newKey);
    PlainIsPadded(c, Bob, m, newKey);
    ReceiptsKept(c, d, Bob, m, newKey, r.outcome);
    SameLetters(x, c, d);
    if r.outcome.Received? {
      CreationsAppend(c.receipts, Receipt(Bob, m.header, r.outcome.plaintext, r.outcome.isNewSession));
    }
  }

  /** With the store in order, the handshake leads Bob to the responder state. */
  lemma BackedResponder(x: Setting, store: PreKeyStore.Store, body: Result<Message>)
    requires Plausible(x) && Backs(x.bundle, store) && body.Ok?
    ensures Admit(x.bob, store, x.alice, x.preamble, body) == (None, Some(NewBob(x)))
    ensures Resolve(store, x.preamble.keyIds).1.Some?
  {
    hide InitiateHandshake, RespondToHandshake, Resolve;
    PlausibleFacts(x);
    var (_, held) := Resolve(store, x.preamble.keyIds);
    BothSidesAgree(x.alice, x.bob, x.bundle, x.preamble.ephemeralPublicKey, x.preamble.kemCiphertext, held.value);
  }

  /** With the store not in order, it leads him elsewhere, if anywhere. */
  lemma UnbackedResponder(x: Setting, store: PreKeyStore.Store, body: Result<Message>)
    requires Plausible(x) && !Backs(x.bundle, store)
    requires Admit(x.bob, store, x.alice, x.preamble, body).1.Some?
    ensures var s := Admit(x.bob, store, x.alice, x.preamble, body).1.value;
      s.rootKey.Handshake? && s.rootKey != x.agreed.rootSecret
    ensures x.agreed.rootSecret.Handshake?
  {
    hide Transcript, AssociatedData, Agreement, Resolve;
    PlausibleFacts(x);
    var (_, held) := Resolve(store, x.preamble.keyIds);
    hide InitiateHandshake, RespondToHandshake;
    HandshakeRoots(x, held.value);
    RootsAgreeIff(x.alice, x.bob, x.bundle, x.preamble.ephemeralPublicKey, x.preamble.kemCiphertext,
                  x.bob, x.alice, x.preamble, held.value);
  }

  lemma HandshakeRoots(x: Setting, held: Held)
    requires Plausible(x)
    ensures x.agreed.rootSecret.Handshake?
    ensures var r := RespondToHandshake(x.bob, x.alice, x.preamble, held); r.Ok? ==> r.value.rootSecret.Handshake?
  {
    hide Transcript, AssociatedData, Agreement, GoodKey;
  }

  lemma FirstKeySeed(s: Ratchet, h: Header)
    ensures Seed(FirstKey(s, h)) == Seed(s.rootKey)
  {
    AdvanceMeasures(ChainStart(s.rootKey, Agreement(s.sending, h.ratchetPublicKey)), h.messageNumber);
  }

  /** The ciphertext comes from this handshake's keys, if from any. */
  predicate OfHandshake(x: Setting, m: Message) {
    m.ciphertext.Sealed? ==> Seed(m.ciphertext.key) == x.agreed.rootSecret
  }

  /** A message of this handshake opens at no other root secret. */
  lemma UnbackedRefuses(x: Setting, store: PreKeyStore.Store, m: Message, newKey: Bytes)
    requires Plausible(x) && !Backs(x.bundle, store) && OfHandshake(x, m)
    ensures var r := Establish(x.bob, store, x.alice, x.preamble, Ok(m), newKey);
      && r.outcome.Failed? && r.session.None? && SameOneTimeKeys(r.store, store)
      && (r.store == store || r.store == PreKeyStore.WipeSigned(store, x.preamble.keyIds.signedPreKeyId))
  {
    hide Plausible, Backs, Decrypt, Admit, InitialiseResponder, FirstKey, StartsTurn;
    if Admit(x.bob, store, x.alice, x.preamble, Ok(m)).1.Some? {
      var s := Admit(x.bob, store, x.alice, x.preamble, Ok(m)).1.value;
      UnbackedResponder(x, store, Ok(m));
      AdmittedIsFresh(x.bob, store, x.alice, x.preamble, Ok(m));
      ResponderAnswers(s.rootKey, s.sending, s.associatedData, m, newKey);
      FirstKeySeed(s, m.header);
      var out := Decrypt(s, m, newKey).1;
      assert out.Plain? ==> SealsFirst(s, m, out.plaintext);
    }
  }

  lemma ConsumedOne(p: PreKeyStore.Pool, id: nat)
    requires id in p.secrets
    ensures Gone(p.secrets, PreKeyStore.Consume(p, id).secrets) == multiset{id}
  {
    hide PreKeyStore.WithoutId;
    assert p.secrets.Keys - (p.secrets - {id}).Keys == {id};
  }

  lemma NothingGone(secrets: map<nat, PreKeyStore.KeyPair>)
    ensures Gone(secrets, secrets) == multiset{}
  {
    assert secrets.Keys - secrets.Keys == {};
  }

  lemma ConsumedIds(store: PreKeyStore.Store, ids: KeyIds)
    requires Resolve(store, ids).1.Some?
    ensures Gone(store.oneTime.secrets, ConsumeNamed(store, ids).oneTime.secrets) == Named(ids.oneTimePreKeyId)
    ensures Gone(store.oneTimeKem.secrets, ConsumeNamed(store, ids).oneTimeKem.secrets) == Named(ids.oneTimeKemPreKeyId)
  {
    hide PreKeyStore.Consume, Gone;
    NothingGone(store.oneTime.secrets);
    NothingGone(store.oneTimeKem.secrets);
    if ids.oneTimePreKeyId.Some? {
      ConsumedOne(store.oneTime, ids.oneTimePreKeyId.value);
    }
    if ids.oneTimeKemPreKeyId.Some? {
      ConsumedOne(store.oneTimeKem, ids.oneTimeKemPreKeyId.value);
    }
  }

  /** What Bob makes of a first message under any usable ratchet key while his
      store is in order: he wipes the signed secret, and then. */
  lemma FirstReception(x: Setting, c: Scene, m: Message, newKey: Bytes)
    requires Plausible(x) && Backs(x.bundle, c.store) && !Established(x, c) && GoodKey(m.header.ratchetPublicKey)
    ensures var r := ReceptionOf(x, c, Bob, PreKeyPayload(x.preamble, Ok(m)), newKey);
      var wiped := PreKeyStore.WipeSigned(c.store, x.preamble.keyIds.signedPreKeyId);
      match Decrypt(NewBob(x), m, newKey).1
      case Refused(e) => r == Reception(wiped, c.bob, Failed(RatchetRefused(e)))
      case Plain(padded) =>
        && r.store == ConsumeNamed(wiped, x.preamble.keyIds) && r.outcome == Unpadded(padded, true)
        && r.session == if Stripped(padded).Ok?
                        then Some(Session(x.alice, Decrypt(NewBob(x), m, newKey).0, None,
                                          Some(x.preamble.ephemeralPublicKey)))
                        else c.bob
  {
    hide Plausible, Backs, Decrypt, Admit, Stripped, ConsumeNamed, StartsTurn, GoodKey, SealsFirst;
    BackedResponder(x, c.store, Ok(m));
    ResponderAnswers(x.agreed.rootSecret, x.bundle.signedPreKey.publicKey, x.agreed.associatedData, m, newKey);
  }

  /** Once the signed secret is wiped the store no longer answers. */
  lemma WipedDoesNotBack(bundle: PreKeyStore.Bundle, store: PreKeyStore.Store)
    requires GoodKey(bundle.signedPreKey.publicKey)
    requires bundle.signedPreKey.id in store.signed.secrets ==>
               store.signed.secrets[bundle.signedPreKey.id] == PreKeyStore.KeyPair(WIPED)
    ensures !Backs(bundle, store)
  {
    WipedIsNoGoodKey();
  }

  lemma MoreEstablished(x: Setting, c: Scene, d: Scene)
    requires LettersOk(x, c) && d.letters == c.letters && d.world.sent == c.world.sent
    requires Established(x, d)
    ensures LettersOk(x, d)
  {
    hide Padded;
    assert forall k :: k in d.letters ==> LetterOk(x, c, k);
  }

  /** Alice's letters carry a usable ratchet key and a ciphertext of this
      handshake. */
  lemma LetterKey(x: Setting, c: Scene, l: Letter)
    requires SceneOk(x, c) && l in c.letters
    ensures GoodKey(l.message.header.ratchetPublicKey)
    ensures OfHandshake(x, l.message)
    ensures l.message.ciphertext.Sealed? && l.message.ciphertext.plaintext == Padded(l.plaintext)
  {
    hide Padded, KeyAt, MessageAd, Plausible, Reachable, GoodKey, AliceOk, BobOk, ReceiptsOk, SpendingOk,
         PacketsAreLetters, Inv;
    LetterFacts(x, c, l);
    ReachableInv(c.world);
    HandshakeOfScene(x, c);
    var q := Packet(l.from, l.message, Padded(l.plaintext));
    var turn := PacketTurn(c.world, q);
    KeyAtSeed(c.world.root, c.world.keys, turn, l.message.header.messageNumber);
    assert GoodKey(c.world.keys[turn]) by { InvKeys(c.world); }
  }

  lemma InvKeys(w: World)
    requires Inv(w)
    ensures KeysOk(w.keys, w.counts)
  {
  }

  /** A first message that Bob does not decrypt leaves him without a session and
      with all one-time keys, but wipes the signed secret if that was intact: from
      then on his store does not answer for the bundle. */
  lemma FirstRefused(x: Setting, c: Scene, l: Letter, newKey: Bytes)
    requires SceneOk(x, c) && Allowed(x, c, Hand(Bob, l, newKey)) && !Established(x, c)
    requires Decrypt(NewBob(x), l.message, newKey).1.Refused? || !Backs(x.bundle, c.store)
    ensures var d := Follow(x, c, Hand(Bob, l, newKey));
      && d == c.(store := d.store) && SameOneTimeKeys(c.store, d.store)
      && ReceptionOf(x, c, Bob, l.payload, newKey).outcome.Failed?
      && !Backs(x.bundle, d.store)
      && (Backs(x.bundle, c.store) ==>
            d.store == PreKeyStore.WipeSigned(c.store, x.preamble.keyIds.signedPreKeyId))
  {
    hide Plausible, Backs, Reachable, Next, Decrypt, Padded, Stripped, Permitted, Establish, Gone, GoodKey,
         InitialiseResponder,
         PacketsAreLetters, ReceiptsOk, SpendingOk, OfHandshake, ConsumeNamed;
    LetterFacts(x, c, l);
    LetterKey(x, c, l);
    NothingGone(c.store.oneTime.secrets);
    NothingGone(c.store.oneTimeKem.secrets);
    PlausibleFacts(x);
    WipedDoesNotBack(x.bundle, PreKeyStore.WipeSigned(c.store, x.preamble.keyIds.signedPreKeyId));
    if Backs(x.bundle, c.store) {
      FirstReception(x, c, l.message, newKey);
    } else {
      UnbackedRefuses(x, c.store, l.message, newKey);
    }
  }

  lemma HandshakeOfScene(x: Setting, c: Scene)
    requires SceneOk(x, c)
    ensures c.world.root == x.agreed.rootSecret && x.agreed.rootSecret.Handshake?
  {
    hide Transcript, AssociatedData, Agreement, GoodKey;
  }

  /** The scene after a first message that decrypts. */
  lemma AcceptedScene(x: Setting, c: Scene, l: Letter, newKey: Bytes)
    requires SceneOk(x, c) && Allowed(x, c, Hand(Bob, l, newKey)) && !Established(x, c)
    requires Decrypt(c.world.bob, l.message, newKey).1.Plain? && Backs(x.bundle, c.store)
    ensures var d := Follow(x, c, Hand(Bob, l, newKey));
      var r := ReceptionOf(x, c, Bob, l.payload, newKey);
      && r.outcome == Unpadded(Decrypt(c.world.bob, l.message, newKey).1.plaintext, true) && r.outcome.Received?
      && Established(x, d) && BobOk(x, d)
      && d.alice == c.alice && d.letters == c.letters
      && d.world == Next(c.world, Step.Deliver(Bob, l.message, newKey))
      && d.receipts == c.receipts + [Receipt(Bob, l.message.header, r.outcome.plaintext, true)]
      && d.spent == c.spent + Named(x.preamble.keyIds.oneTimePreKeyId)
      && d.spentKem == c.spentKem + Named(x.preamble.keyIds.oneTimeKemPreKeyId)
  {
    hide Plausible, Backs, Reachable, Next, Decrypt, Padded, Stripped, Permitted, ConsumeNamed, Receive, Gone, AliceOk,
         PacketsAreLetters, ReceiptsOk, SpendingOk, LettersOk, InitialiseResponder, GoodKey, OfHandshake;
    LetterFacts(x, c, l);
    LetterKey(x, c, l);
    FirstReception(x, c, l.message, newKey);
    DeliverEffect(c.world, Bob, l.message, newKey);
    PlainIsPadded(c, Bob, l.message, newKey);
    WipedIds(x, c.store, l.message);
  }

  /** A first message that decrypts creates the session and pays for it. */
  lemma FirstAccepted(x: Setting, c: Scene, l: Letter, newKey: Bytes)
    requires SceneOk(x, c) && Allowed(x, c, Hand(Bob, l, newKey)) && !Established(x, c)
    requires Decrypt(c.world.bob, l.message, newKey).1.Plain? && Backs(x.bundle, c.store)
    ensures SceneOk(x, Follow(x, c, Hand(Bob, l, newKey)))
  {
    hide Plausible, Backs, Reachable, Next, Decrypt, Padded, Stripped, Permitted, Receive, Follow,
         PacketsAreLetters, ReceiptsOk, Creations, LettersOk, BobOk;
    var r := ReceptionOf(x, c, Bob, l.payload, newKey);
    var d := Follow(x, c, Hand(Bob, l, newKey));
    AcceptedScene(x, c, l, newKey);
    DeliverEffect(c.world, Bob, l.message, newKey);
    ReceiptsKept(c, d, Bob, l.message, newKey, r.outcome);
    CreationsAppend(c.receipts, Receipt(Bob, l.message.header, r.outcome.plaintext, true));
    MoreEstablished(x, c, d);
  }

  /** What a successful first message takes from a store in order. */
  lemma WipedIds(x: Setting, store: PreKeyStore.Store, m: Message)
    requires Plausible(x) && Backs(x.bundle, store)
    ensures var ids := x.preamble.keyIds;
      var after := ConsumeNamed(PreKeyStore.WipeSigned(store, ids.signedPreKeyId), ids);
      && Gone(store.oneTime.secrets, after.oneTime.secrets) == Named(ids.oneTimePreKeyId)
      && Gone(store.oneTimeKem.secrets, after.oneTimeKem.secrets) == Named(ids.oneTimeKemPreKeyId)
  {
    hide Gone, Plausible, Backs, PreKeyStore.Consume;
    BackedResponder(x, store, Ok(m));
    var wiped := PreKeyStore.WipeSigned(store, x.preamble.keyIds.signedPreKeyId);
    WipedResolves(store, x.preamble.keyIds);
    ConsumedIds(wiped, x.preamble.keyIds);
  }

  lemma WipedResolves(store: PreKeyStore.Store, ids: KeyIds)
    requires Resolve(store, ids).1.Some?
    ensures Resolve(PreKeyStore.WipeSigned(store, ids.signedPreKeyId), ids).1.Some?
  {
  }

  // -------------------------------------------------------------------------
  // Every run
  // -------------------------------------------------------------------------

  lemma FollowKeeps(x: Setting, c: Scene, act: Act)
    requires SceneOk(x, c) && Allowed(x, c, act)
    ensures SceneOk(x, Follow(x, c, act))
  {
    match act
    case Write(p, plaintext) => WriteKeeps(x, c, p, plaintext);
    case Hand(p, l, newKey) => HandKeeps(x, c, p, l, newKey);
    case Tend(store) => StoreKeeps(x, c, store);
  }

  lemma HandKeeps(x: Setting, c: Scene, p: Party, l: Letter, newKey: Bytes)
    requires SceneOk(x, c) && Allowed(x, c, Hand(p, l, newKey))
    ensures SceneOk(x, Follow(x, c, Hand(p, l, newKey)))
  {
    hide SceneOk, Allowed, Decrypt, Follow;
    if p == Alice {
      HandKeepsAlice(x, c, l, newKey);
    } else if Established(x, c) {
      HandKeepsBob(x, c, l, newKey);
    } else if Decrypt(c.world.bob, l.message, newKey).1.Plain? && Backs(x.bundle, c.store) {
      FirstAccepted(x, c, l, newKey);
    } else {
      assert c.world.bob == NewBob(x) by { FreshBob(x, c); }
      SceneShaped(x, c);
      FirstRefused(x, c, l, newKey);
      StoreKeeps(x, c, Follow(x, c, Hand(Bob, l, newKey)).store);
    }
  }

  lemma FreshBob(x: Setting, c: Scene)
    requires SceneOk(x, c) && !Established(x, c)
    ensures c.world.bob == NewBob(x)
  {
  }

  /** The invariant does not depend on Bob's prekeys. */
  lemma StoreKeeps(x: Setting, c: Scene, store: PreKeyStore.Store)
    requires SceneOk(x, c)
    ensures SceneOk(x, c.(store := store))
  {
    hide Plausible, Reachable, Padded, PacketsAreLetters, Creations;
    var d := c.(store := store);
    SameLetters(x, c, d);
    assert BobOk(x, d) && AliceOk(x, d) && ReceiptsOk(d) && SpendingOk(x, d);
  }

  lemma SceneShaped(x: Setting, c: Scene)
    requires SceneOk(x, c)
    ensures Shaped(c.world)
  {
  }

  lemma {:induction false} CourseKeeps(x: Setting, c: Scene, acts: seq<Act>, end: Scene)
    requires SceneOk(x, c) && Shaped(c.world) && Course(x, c, acts, end)
    ensures SceneOk(x, end)
    decreases |acts|
  {
    hide SceneOk, Allowed, Follow;
    if acts != [] {
      FollowKeeps(x, c, acts[0]);
      CourseKeeps(x, Follow(x, c, acts[0]), acts[1..], end);
    }
  }

  lemma PossibleOk(x: Setting, c: Scene)
    requires Possible(x, c)
    ensures SceneOk(x, c)
  {
    hide SceneOk;
    var start, acts :| Opening(x, start) && Course(x, start, acts, c);
    OpeningOk(x, start);
    CourseKeeps(x, start, acts, c);
  }

  // -------------------------------------------------------------------------
  // The results
  // -------------------------------------------------------------------------

  ghost predicate WasWritten(c: Scene, r: Receipt) {
    exists l :: l in c.letters && l.from == Other(r.to) && l.message.header == r.header && l.plaintext == r.plaintext
  }

  /** At every point of every run: the handshake has created no session and
      cost nothing, or it has created exactly one session and removed each
      one-time key it named from Bob's store exactly once. What a party received
      is what the peer wrote under that header, and no header is received twice. */
  lemma OneSessionPaidOnce(x: Setting, c: Scene)
    requires Possible(x, c)
    ensures Creations(c.receipts) == if Established(x, c) then 1 else 0
    ensures c.spent == if Established(x, c) then Named(x.preamble.keyIds.oneTimePreKeyId) else multiset{}
    ensures c.spentKem == if Established(x, c) then Named(x.preamble.keyIds.oneTimeKemPreKeyId) else multiset{}
    ensures forall r :: r in c.receipts ==> WasWritten(c, r)
    ensures forall i, j :: 0 <= i < j < |c.receipts| && c.receipts[i].to == c.receipts[j].to
              ==> Conversation.IdOf(c.receipts[i].header) != Conversation.IdOf(c.receipts[j].header)
  {
    hide Possible, Reachable, Padded, Plausible, AliceOk, BobOk, LettersOk;
    PossibleOk(x, c);
    DeliveredOnceAsSent(c.world);
    forall r | r in c.receipts ensures WasWritten(c, r) {
      var i :| 0 <= i < |c.receipts| && c.receipts[i] == r;
      assert c.world.delivered[i] == DeliveryOf(r);
      ReceiptWritten(c, r);
    }
    forall i, j | 0 <= i < j < |c.receipts| && c.receipts[i].to == c.receipts[j].to
      ensures Conversation.IdOf(c.receipts[i].header) != Conversation.IdOf(c.receipts[j].header)
    {
      assert c.world.delivered[i] == DeliveryOf(c.receipts[i]) && c.world.delivered[j] == DeliveryOf(c.receipts[j]);
    }
  }

  lemma ReceiptWritten(c: Scene, r: Receipt)
    requires PacketsAreLetters(c) && WasSent(c.world.sent, r.to, r.header, Padded(r.plaintext))
    ensures WasWritten(c, r)
  {
    hide Padded, Stripped;
    var q :| && q in c.world.sent && q.from == Other(r.to)
             && q.message.header == r.header && q.plaintext == Padded(r.plaintext);
    var l :| l in c.letters && q == Packet(l.from, l.message, Padded(l.plaintext));
    UnpadPad(l.plaintext);
    UnpadPad(r.plaintext);
  }

  /** In every run, a letter not received before whose key was not evicted may be
      handed over, and yields exactly what was written exactly when its gaps are
      within the bound and, for a first message, Bob's store answers for the
      bundle - whichever first message arrives first, and only that one reports a
      new session. */
  lemma LetterDeliversIff(x: Setting, c: Scene, l: Letter, newKey: Bytes)
    requires Possible(x, c) && l in c.letters
    requires forall r :: r in c.receipts && r.to == Other(l.from) ==>
               Conversation.IdOf(r.header) != Conversation.IdOf(l.message.header)
    requires Conversation.IdOf(l.message.header) !in StateOf(c.world, Other(l.from)).cache.evicted
    requires GoodKey(newKey) && newKey !in c.world.keys
    ensures var p := Other(l.from);
      var first := p == Bob && !Established(x, c);
      && Shaped(c.world) && Allowed(x, c, Hand(p, l, newKey))
      && (ReceptionOf(x, c, p, l.payload, newKey).outcome == Received(l.plaintext, first)
          <==> CanCatchUp(StateOf(c.world, p), l.message.header) && (first ==> Backs(x.bundle, c.store)))
  {
    hide Possible, Reachable, Padded, Plausible, Decrypt, CanCatchUp, Permitted, GoodKey, Stripped, SpendingOk, Receive,
         AliceOk, BobOk, PacketsAreLetters, Backs;
    PossibleOk(x, c);
    SceneShaped(x, c);
    var p := Other(l.from);
    var q := Packet(l.from, l.message, Padded(l.plaintext));
    assert LetterOk(x, c, l);
    forall d | d in c.world.delivered && d.to == p
      ensures Conversation.IdOf(d.header) != Conversation.IdOf(l.message.header)
    {
      var i :| 0 <= i < |c.world.delivered| && c.world.delivered[i] == d;
      assert d == DeliveryOf(c.receipts[i]);
    }
    DeliversIff(c.world, q, newKey);
    LetterOutcome(x, c, l, newKey);
  }

  /** The session layer answers what the ratchet answers, padding removed. */
  lemma LetterOutcome(x: Setting, c: Scene, l: Letter, newKey: Bytes)
    requires SceneOk(x, c) && l in c.letters && Permitted(c.world, Step.Deliver(Other(l.from), l.message, newKey))
    ensures var p := Other(l.from);
      var first := p == Bob && !Established(x, c);
      ReceptionOf(x, c, p, l.payload, newKey).outcome == Received(l.plaintext, first)
      <==> Decrypt(StateOf(c.world, p), l.message, newKey).1 == Plain(Padded(l.plaintext))
           && (first ==> Backs(x.bundle, c.store))
  {
    hide Plausible, Backs, Reachable, Decrypt, Padded, Stripped, Permitted, ReceiptsOk, PacketsAreLetters, Creations,
         Receive, GoodKey, OfHandshake, InitialiseResponder;
    var p := Other(l.from);
    assert LetterOk(x, c, l);
    PlainIsPadded(c, p, l.message, newKey);
    UnpadPad(l.plaintext);
    if p == Alice {
      AliceRouted(x, c, l, newKey);
    } else if Established(x, c) {
      Routed(x, c, l, newKey);
    } else {
      SceneShaped(x, c);
      LetterKey(x, c, l);
      if Backs(x.bundle, c.store) {
        FirstReception(x, c, l.message, newKey);
      } else {
        FirstRefused(x, c, l, newKey);
      }
    }
  }

  lemma NewBobCatchesUp(x: Setting, h: Header)
    ensures CanCatchUp(NewBob(x), h) <==> h.messageNumber <= MAX_SKIP_PER_CHAIN
    ensures NewBob(x).cache.evicted == map[]
  {
  }

  /** Any of Alice's first messages creates Bob's session exactly if its number is
      within the skip bound and Bob's store answers for the bundle. */
  lemma FirstArrivalCreatesIff(x: Setting, c: Scene, l: Letter, newKey: Bytes)
    requires Possible(x, c) && Shaped(c.world) && !Established(x, c)
    requires l in c.letters && l.from == Alice
    requires GoodKey(newKey) && newKey !in c.world.keys
    ensures Allowed(x, c, Hand(Bob, l, newKey))
    ensures var d := Follow(x, c, Hand(Bob, l, newKey));
      && (Established(x, d) <==> l.message.header.messageNumber <= MAX_SKIP_PER_CHAIN && Backs(x.bundle, c.store))
      && (Established(x, d) ==> d.receipts == c.receipts + [Receipt(Bob, l.message.header, l.plaintext, true)])
  {
    hide Possible, Reachable, Padded, Plausible, Decrypt, Permitted, GoodKey, Stripped, Establish, PacketsAreLetters,
         Backs, Next, LettersOk, ReceiptsOk, SpendingOk, ConsumeNamed, Gone, InitialiseResponder, CanCatchUp;
    PossibleOk(x, c);
    NewBobCatchesUp(x, l.message.header);
    LetterDeliversIff(x, c, l, newKey);
    LetterFacts(x, c, l);
    LetterOutcome(x, c, l, newKey);
    LetterKey(x, c, l);
    if Backs(x.bundle, c.store) {
      FirstReception(x, c, l.message, newKey);
      ResponderAnswers(x.agreed.rootSecret, x.bundle.signedPreKey.publicKey, x.agreed.associatedData, l.message,
                       newKey);
      var out := Decrypt(NewBob(x), l.message, newKey).1;
      assert out.Plain? ==> SealsFirst(NewBob(x), l.message, out.plaintext);
    } else {
      FirstRefused(x, c, l, newKey);
    }
  }

  /** Bob has no session and his store does not answer for the bundle. */
  ghost predicate ShutOut(x: Setting, c: Scene) {
    SceneOk(x, c) && !Established(x, c) && !Backs(x.bundle, c.store)
  }

  /** Whatever else happens to Bob's prekeys, the wiped secret does not come back. */
  predicate LeavesUnbacked(x: Setting, act: Act) {
    act.Tend? ==> !Backs(x.bundle, act.store)
  }

  lemma ShutOutStays(x: Setting, c: Scene, act: Act)
    requires ShutOut(x, c) && Allowed(x, c, act) && LeavesUnbacked(x, act)
    ensures Shaped(c.world) && ShutOut(x, Follow(x, c, act))
  {
    hide SceneOk, Backs, Permitted, Follow, Established;
    SceneShaped(x, c);
    FollowKeeps(x, c, act);
    match act
    case Write(p, plaintext) => ShutOutWrites(x, c, p, plaintext);
    case Hand(p, l, newKey) =>
      if p == Alice {
        NoLetterOfBob(x, c, l);
      } else {
        FirstRefused(x, c, l, newKey);
        assert Established(x, Follow(x, c, act)) == Established(x, c) by { SameBob(x, c, Follow(x, c, act)); }
      }
    case Tend(store) =>
      assert Follow(x, c, act) == c.(store := store) by { TendScene(x, c, store); }
      SameBob(x, c, c.(store := store));
  }

  lemma ShutOutWrites(x: Setting, c: Scene, p: Party, plaintext: Bytes)
    requires ShutOut(x, c) && Allowed(x, c, Write(p, plaintext)) && Shaped(c.world)
    ensures var d := Follow(x, c, Write(p, plaintext));
      d.store == c.store && Established(x, d) == Established(x, c)
  {
    hide SceneOk, Backs, Follow;
    WriteScene(x, c, p, plaintext);
  }

  lemma TendScene(x: Setting, c: Scene, store: PreKeyStore.Store)
    requires Shaped(c.world)
    ensures Follow(x, c, Tend(store)) == c.(store := store)
  {
  }

  lemma SameBob(x: Setting, c: Scene, d: Scene)
    requires d.bob == c.bob
    ensures Established(x, d) == Established(x, c)
  {
  }

  /** Bob sends nothing before he has a session. */
  lemma NoLetterOfBob(x: Setting, c: Scene, l: Letter)
    requires SceneOk(x, c) && !Established(x, c) && l in c.letters
    ensures l.from == Alice
  {
    hide Plausible, Reachable, AliceOk, BobOk, ReceiptsOk, SpendingOk, PacketsAreLetters, Padded;
    LetterFacts(x, c, l);
  }

  lemma {:induction false} CourseStaysShut(x: Setting, c: Scene, acts: seq<Act>, end: Scene)
    requires ShutOut(x, c) && Shaped(c.world) && Course(x, c, acts, end)
    requires forall act :: act in acts ==> LeavesUnbacked(x, act)
    ensures ShutOut(x, end)
    decreases |acts|
  {
    hide ShutOut, Allowed, Follow, LeavesUnbacked;
    if acts != [] {
      ShutOutStays(x, c, acts[0]);
      CourseStaysShut(x, Follow(x, c, acts[0]), acts[1..], end);
    }
  }

  /** Whoever is shut out receives nothing. */
  lemma ShutOutReceivesNothing(x: Setting, c: Scene, l: Letter, newKey: Bytes)
    requires ShutOut(x, c) && l in c.letters && l.from == Alice
    ensures ReceptionOf(x, c, Bob, l.payload, newKey).outcome.Failed?
  {
    hide Plausible, Reachable, Backs, Establish, AliceOk, LettersOk, ReceiptsOk, SpendingOk, PacketsAreLetters, Padded,
         OfHandshake, GoodKey, InitialiseResponder;
    LetterFacts(x, c, l);
    LetterKey(x, c, l);
    UnbackedRefuses(x, c.store, l.message, newKey);
  }

  /** The failing input behind the second condition: once a first message beyond
      the skip bound was handed over, nothing of Alice's is ever received under this
      bundle. However the run goes on, as long as Bob's store does not get the wiped
      secret back, he gets no session and no plaintext, and any letter written by
      then, the ones within the bound included, is refused. */
  lemma TooFarShutsOut(x: Setting, c: Scene, far: Letter, newKey: Bytes, acts: seq<Act>, end: Scene)
    requires Possible(x, c) && Shaped(c.world) && !Established(x, c)
    requires far in c.letters && far.from == Alice && far.message.header.messageNumber > MAX_SKIP_PER_CHAIN
    requires GoodKey(newKey) && newKey !in c.world.keys
    requires forall act :: act in acts ==> LeavesUnbacked(x, act)
    ensures Allowed(x, c, Hand(Bob, far, newKey))
    ensures var d := Follow(x, c, Hand(Bob, far, newKey));
      Shaped(d.world) && Course(x, d, acts, end) ==>
        && !Established(x, end) && !Backs(x.bundle, end.store)
        && (forall r :: r in end.receipts ==> r.to == Alice)
        && forall l, nextKey :: l in end.letters && l.from == Alice ==>
             ReceptionOf(x, end, Bob, l.payload, nextKey).outcome.Failed?
  {
    hide Possible, Plausible, Decrypt, Permitted, GoodKey, Backs, InitialiseResponder, SceneOk, Establish, Course,
         LeavesUnbacked, Receive;
    PossibleOk(x, c);
    FirstArrivalCreatesIff(x, c, far, newKey);
    TooFarRefused(x, far.message, newKey);
    FirstRefused(x, c, far, newKey);
    FollowKeeps(x, c, Hand(Bob, far, newKey));
    var d := Follow(x, c, Hand(Bob, far, newKey));
    if Shaped(d.world) && Course(x, d, acts, end) {
      CourseStaysShut(x, d, acts, end);
      ShutOutGotNothing(x, end);
      forall l, nextKey | l in end.letters && l.from == Alice
        ensures ReceptionOf(x, end, Bob, l.payload, nextKey).outcome.Failed?
      {
        ShutOutReceivesNothing(x, end, l, nextKey);
      }
    }
  }

  lemma ShutOutGotNothing(x: Setting, c: Scene)
    requires ShutOut(x, c)
    ensures forall r :: r in c.receipts ==> r.to == Alice
  {
    hide Plausible, Reachable, Backs, AliceOk, LettersOk, ReceiptsOk, SpendingOk, PacketsAreLetters;
  }

  lemma {:induction false} CourseExtend(x: Setting, c: Scene, acts: seq<Act>, mid: Scene, act: Act)
    requires Shaped(c.world) && Course(x, c, acts, mid)
    requires Shaped(mid.world) && Allowed(x, mid, act) && Shaped(Follow(x, mid, act).world)
    ensures Course(x, c, acts + [act], Follow(x, mid, act))
    decreases |acts|
  {
    hide Allowed, Follow;
    if acts == [] {
      assert ([act])[1..] == [];
      assert acts + [act] == [act];
    } else {
      CourseExtend(x, Follow(x, c, acts[0]), acts[1..], mid, act);
      assert (acts + [act])[1..] == acts[1..] + [act];
    }
  }

  lemma PossibleNext(x: Setting, c: Scene, act: Act)
    requires Possible(x, c) && Allowed(x, c, act)
    ensures Shaped(c.world) && Possible(x, Follow(x, c, act))
  {
    hide Allowed, Follow, SceneOk;
    PossibleOk(x, c);
    SceneShaped(x, c);
    FollowKeeps(x, c, act);
    SceneShaped(x, Follow(x, c, act));
    var start, acts :| Opening(x, start) && Course(x, start, acts, c);
    CourseExtend(x, start, acts, c, act);
  }

  /** Nothing has happened yet but that Alice wrote `n` letters. */
  ghost predicate Writing(x: Setting, c: Scene, n: nat) {
    && Possible(x, c) && !Established(x, c) && Backs(x.bundle, c.store)
    && c.alice.ratchet.sendingChainKey.Some? && c.alice.ratchet.sentCount == n
    && c.alice.ratchet.previousSentCount == 0
    && forall k :: 0 <= k < n ==> HasLetter(c, k)
  }

  ghost predicate HasLetter(c: Scene, number: nat) {
    exists l :: l in c.letters && l.from == Alice && l.message.header.messageNumber == number
  }

  lemma WriteOne(x: Setting, c: Scene, n: nat)
    requires Writing(x, c, n) && n < 0x1_0000_0000
    ensures Allowed(x, c, Write(Alice, [])) && Shaped(c.world)
    ensures Writing(x, Follow(x, c, Write(Alice, [])), n + 1)
  {
    hide Possible, Backs, Padded, Next, MessageAd;
    PossibleNext(x, c, Write(Alice, []));
    var d := Follow(x, c, Write(Alice, []));
    var m := Encrypt(c.alice.ratchet, Padded([])).1.message;
    var l := Letter(Alice, PayloadFor(c.alice, m), m, []);
    assert l in d.letters && l.message.header.messageNumber == n;
    assert HasLetter(d, n);
    forall k | 0 <= k < n ensures HasLetter(d, k) {
      assert HasLetter(c, k);
    }
    assert d.store == c.store && d.bob == c.bob;
  }

  lemma {:induction false} WriteMany(x: Setting, start: Scene, n: nat) returns (c: Scene)
    requires Opening(x, start) && n < 0x1_0000_0000
    ensures Writing(x, c, n)
  {
    hide Writing, Opening, Follow;
    if n == 0 {
      OpeningFacts(x, start);
      OpeningPossible(x, start);
      c := start;
      NothingWritten(x, c);
    } else {
      var before := WriteMany(x, start, n - 1);
      WriteOne(x, before, n - 1);
      c := Follow(x, before, Write(Alice, []));
    }
  }

  lemma OpeningPossible(x: Setting, c: Scene)
    requires Opening(x, c)
    ensures Possible(x, c)
  {
    hide Opening;
    OpeningOk(x, c);
    SceneShaped(x, c);
    assert Course(x, c, [], c);
  }

  lemma NothingWritten(x: Setting, c: Scene)
    requires Possible(x, c) && Backs(x.bundle, c.store) && !Established(x, c)
    requires c.alice.ratchet.sendingChainKey.Some?
    requires c.alice.ratchet.sentCount == 0 && c.alice.ratchet.previousSentCount == 0
    ensures Writing(x, c, 0)
  {
  }

  /** Such a message comes about in every run that begins with enough letters:
      number 1001 is out of reach, number 0 is not. */
  lemma FarLetterExists(x: Setting, start: Scene) returns (c: Scene, far: Letter, near: Letter)
    requires Opening(x, start)
    ensures Possible(x, c) && !Established(x, c) && Backs(x.bundle, c.store)
    ensures far in c.letters && far.from == Alice && far.message.header.messageNumber == MAX_SKIP_PER_CHAIN + 1
    ensures near in c.letters && near.from == Alice && near.message.header.messageNumber == 0
  {
    hide Opening, Possible, Backs;
    c := WriteMany(x, start, MAX_SKIP_PER_CHAIN + 2);
    assert HasLetter(c, MAX_SKIP_PER_CHAIN + 1) && HasLetter(c, 0);
    far :| far in c.letters && far.from == Alice && far.message.header.messageNumber == MAX_SKIP_PER_CHAIN + 1;
    near :| near in c.letters && near.from == Alice && near.message.header.messageNumber == 0;
  }

  lemma OpeningFacts(x: Setting, c: Scene)
    requires Opening(x, c)
    ensures Backs(x.bundle, c.store) && !Established(x, c)
    ensures c.alice.ratchet.sendingChainKey.Some?
    ensures c.alice.ratchet.sentCount == 0 && c.alice.ratchet.previousSentCount == 0
  {
    hide Transcript, AssociatedData, Agreement, Backs, GoodKey;
  }

  lemma TooFarRefused(x: Setting, m: Message, newKey: Bytes)
    requires m.header.messageNumber > MAX_SKIP_PER_CHAIN
    ensures Decrypt(NewBob(x), m, newKey).1.Refused?
  {
    hide Decrypt;
    ResponderAnswers(x.agreed.rootSecret, x.bundle.signedPreKey.publicKey, x.agreed.associatedData, m, newKey);
    var out := Decrypt(NewBob(x), m, newKey).1;
    assert out.Plain? ==> SealsFirst(NewBob(x), m, out.plaintext);
  }

  /** What it takes for a first message to fail and still cost one-time keys, in
      terms of what was sealed: for every message sealed as the key schedule
      prescribes at its number, some one-time key is named, the number is within
      the skip bound, and what was sealed is not some plaintext, the marker and
      zeros. */
  lemma FirstMessageSpendsIff(x: Setting, store: PreKeyStore.Store, existing: Option<Session>, m: Message, raw: Bytes,
                              newKey: Bytes)
    requires Plausible(x) && Backs(x.bundle, store) && !Repeats(existing, x.preamble)
    requires GoodKey(m.header.ratchetPublicKey)
    requires m.ciphertext == Sealed(FirstKey(NewBob(x), m.header), MessageAd(x.agreed.associatedData, m.header), raw)
    ensures var r := Receive(x.bob, store, existing, x.alice, None, PreKeyPayload(x.preamble, Ok(m)), newKey);
      && (r.outcome.Failed? && !SameOneTimeKeys(r.store, store) <==>
            && NamesOneTimeKey(x.preamble.keyIds)
            && m.header.messageNumber <= MAX_SKIP_PER_CHAIN
            && forall plaintext :: !IsPadded(raw, plaintext))
      && (r.outcome.Failed? ==> r.session == existing)
  {
    hide Plausible, Backs, Decrypt, Admit, IsPadded, GoodKey, MessageAd, FirstKey, Receive, ConsumeNamed;
    var payload := PreKeyPayload(x.preamble, Ok(m));
    BackedResponder(x, store, Ok(m));
    NewSessionIff(x.bob, store, existing, x.alice, None, payload, newKey);
    if m.header.messageNumber <= MAX_SKIP_PER_CHAIN {
      assert SealsFirst(NewBob(x), m, raw);
    }
    var r := Receive(x.bob, store, existing, x.alice, None, payload, newKey);
    if r.outcome.Failed? {
      FailureSpendsIff(x.bob, store, existing, x.alice, None, payload, newKey);
    } else {
      RepeatsOnlyHere(x, store, existing, m, newKey);
    }
  }

  lemma RepeatsOnlyHere(x: Setting, store: PreKeyStore.Store, existing: Option<Session>, m: Message, newKey: Bytes)
    requires !Repeats(existing, x.preamble)
    ensures var r := Receive(x.bob, store, existing, x.alice, None, PreKeyPayload(x.preamble, Ok(m)), newKey);
      r.outcome.Received? ==> r.outcome.isNewSession
  {
    hide Decrypt, Admit, ConsumeNamed;
  }

  /** A replayed prekey message replaces a live session with another handshake
      exactly while Bob's store still answers for its bundle. */
  lemma StaleReplayResetsIff(x: Setting, store: PreKeyStore.Store, live: Session, m: Message, plaintext: Bytes,
                             newKey: Bytes)
    requires Plausible(x) && live.establishedBy != Some(x.preamble.ephemeralPublicKey)
    requires SealsFirst(NewBob(x), m, Padded(plaintext))
    ensures var r := Receive(x.bob, store, Some(live), x.alice, None, PreKeyPayload(x.preamble, Ok(m)), newKey);
      && (r.session != Some(live) <==> Backs(x.bundle, store))
      && (r.session != Some(live) ==> r.outcome == Received(plaintext, true))
  {
    hide Plausible, Backs, Decrypt, Admit, Stripped, Padded, GoodKey, FirstKey, MessageAd, ConsumeNamed, StartsTurn,
         InitialiseResponder;
    ResponderAnswers(x.agreed.rootSecret, x.bundle.signedPreKey.publicKey, x.agreed.associatedData, m, newKey);
    UnpadPad(plaintext);
    FirstKeySeed(NewBob(x), m.header);
    NewBobRoot(x);
    if Backs(x.bundle, store) {
      BackedResponder(x, store, Ok(m));
    } else {
      UnbackedRefuses(x, store, m, newKey);
    }
  }

  lemma NewBobRoot(x: Setting)
    requires Plausible(x)
    ensures NewBob(x).rootKey == x.agreed.rootSecret && Seed(x.agreed.rootSecret) == x.agreed.rootSecret
  {
    hide Transcript, AssociatedData, Agreement, GoodKey;
  }

  /** So once a first message under its signed prekey has been answered, and be it
      the original, no replay of it ever resets a live session. */
  lemma AnsweredReplayNeverResets(pair: PreKeyStore.KeyPair, kemPair: PreKeyStore.KeyPair,
                                  pairs: seq<PreKeyStore.KeyPair>, kemPairs: seq<PreKeyStore.KeyPair>,
                                  ops: seq<PreKeyStore.Op>, x: Setting, live: Session, m: Message, plaintext: Bytes,
                                  newKey: Bytes)
    requires x.bundle.signedPreKey.id in
               PreKeyStore.Lifetime(PreKeyStore.Born(pair, kemPair, pairs, kemPairs), ops).wiped
    requires Plausible(x) && live.establishedBy != Some(x.preamble.ephemeralPublicKey)
    requires SealsFirst(NewBob(x), m, Padded(plaintext))
    ensures var store := PreKeyStore.Lifetime(PreKeyStore.Born(pair, kemPair, pairs, kemPairs), ops).store;
      Receive(x.bob, store, Some(live), x.alice, None, PreKeyPayload(x.preamble, Ok(m)), newKey).session == Some(live)
  {
    hide PreKeyStore.Lifetime, PreKeyStore.Born, PreKeyStore.Newest, Plausible, Backs, Decrypt, Receive, SealsFirst,
         GoodKey;
    var l := PreKeyStore.Lifetime(PreKeyStore.Born(pair, kemPair, pairs, kemPairs), ops);
    PreKeyStore.NewestGenerationsHeld(pair, kemPair, pairs, kemPairs, ops);
    PlausibleFacts(x);
    WipedDoesNotBack(x.bundle, l.store);
    StaleReplayResetsIff(x, l.store, live, m, plaintext, newKey);
  }
}
