/** Two ratchets and a network between them.

    The network delivers, in any order and any number of times, whatever
    messages it likes: genuine ones, replays, ones with altered headers, and
    ciphertexts of its own making that do not use the session's keys. The one
    thing it must respect is stated in `Permitted`: a message that makes the
    receiver commit a ratchet step names the key and the previous chain length
    its peer is sending under. */
module Conversation {
  import opened Wire
  import opened Keys
  import opened DoubleRatchet
  import opened KeyMap

  datatype Party = Alice | Bob

  function Other(p: Party): Party {
    if p == Alice then Bob else Alice
  }

  datatype Packet = Packet(from: Party, message: Message, plaintext: Bytes)

  datatype Delivery = Delivery(to: Party, header: Header, plaintext: Bytes)

  /** `keys` and `counts` are history variables: the ratchet keys in the order
      in which they came into use, and how many chain steps were taken under
      each. `root` and `ad` are what the handshake gave both sides. */
  datatype World = World(
    root: Key,
    ad: Bytes,
    alice: Ratchet,
    bob: Ratchet,
    keys: seq<Bytes>,
    counts: seq<nat>,
    sent: set<Packet>,
    delivered: seq<Delivery>)

  function StateOf(w: World, p: Party): Ratchet {
    if p == Alice then w.alice else w.bob
  }

  function WithState(w: World, p: Party, s: Ratchet): World {
    if p == Alice then w.(alice := s) else w.(bob := s)
  }

  /** Bob's signed prekey is turn 0, Alice's first key turn 1, and so on. */
  function Owner(turn: nat): Party {
    if turn % 2 == 1 then Alice else Bob
  }

  /** The latest turn that belongs to `p`. */
  function OwnTurn(p: Party, keys: seq<Bytes>): nat
    requires |keys| >= 2
  {
    if Owner(|keys| - 1) == p then |keys| - 1 else |keys| - 2
  }

  function Start(root: Key, ad: Bytes, signedPreKey: Bytes, first: Bytes): World {
    World(root, ad, InitialiseInitiator(root, signedPreKey, ad, first),
          InitialiseResponder(root, signedPreKey, ad), [signedPreKey, first], [0, 0], {}, [])
  }

  // -------------------------------------------------------------------------
  // Steps
  // -------------------------------------------------------------------------

  datatype Step = Send(from: Party, plaintext: Bytes) | Deliver(to: Party, message: Message, newKey: Bytes)

  ghost function Next(w: World, step: Step): World
    requires |w.keys| >= 2 && |w.counts| == |w.keys|
  {
    match step
    case Send(p, plaintext) =>
      var (s, r) := Encrypt(StateOf(w, p), plaintext);
      WithState(w, p, s).(
        counts := w.counts[OwnTurn(p, w.keys) := s.sentCount],
        sent := if r.Sent? then w.sent + {Packet(p, r.message, plaintext)} else w.sent)
    case Deliver(p, m, newKey) =>
      var (s, out) := Decrypt(StateOf(w, p), m, newKey);
      var turned := s.sending != StateOf(w, p).sending;
      WithState(w, p, s).(
        keys := if turned then w.keys + [s.sending] else w.keys,
        counts := if turned then w.counts + [0] else w.counts,
        delivered := if out.Plain? then w.delivered + [Delivery(p, m.header, out.plaintext)] else w.delivered)
  }

  /** Whoever does not know the root secret can only repeat the session's
      ciphertexts or seal under keys of other sessions. */
  ghost predicate Constructible(w: World, c: Ciphertext) {
    c.Sealed? && Seed(c.key) == Seed(w.root) ==> exists q :: q in w.sent && q.message.ciphertext == c
  }

  /** The header names the peer's current ratchet key and the length of the
      peer's previous chain. */
  predicate NamesCurrentTurn(peer: Ratchet, h: Header) {
    h.ratchetPublicKey == peer.sending && h.previousChainLength == peer.previousSentCount
  }

  ghost predicate Permitted(w: World, step: Step) {
    match step
    case Send(_, _) => true
    case Deliver(p, m, newKey) =>
      && GoodKey(newKey) && newKey !in w.keys
      && Constructible(w, m.ciphertext)
      && (StartsTurn(StateOf(w, p), m.header) ==> NamesCurrentTurn(StateOf(w, Other(p)), m.header))
  }

  ghost predicate Shaped(w: World) {
    |w.keys| >= 2 && |w.counts| == |w.keys|
  }

  ghost predicate Run(w: World, steps: seq<Step>, end: World)
    requires Shaped(w)
    decreases |steps|
  {
    if steps == [] then end == w
    else Permitted(w, steps[0]) && Shaped(Next(w, steps[0])) && Run(Next(w, steps[0]), steps[1..], end)
  }

  /** Everything that can come about between an initiator and a responder that
      agree on a root secret. */
  ghost predicate Reachable(w: World) {
    exists root, ad, signedPreKey, first, steps ::
      && GoodKey(signedPreKey) && GoodKey(first) && signedPreKey != first
      && Run(Start(root, ad, signedPreKey, first), steps, w)
  }

  // -------------------------------------------------------------------------
  // The common key schedule
  // -------------------------------------------------------------------------

  /** The one root-key sequence on which both parties' root keys lie. */
  function SharedRoot(root: Key, keys: seq<Bytes>, turn: nat): Key
    requires turn < |keys|
  {
    if turn == 0 then root
    else RootStep(SharedRoot(root, keys, turn - 1), Agreement(keys[turn - 1], keys[turn]))
  }

  function TurnChain(root: Key, keys: seq<Bytes>, turn: nat): Key
    requires 0 < turn < |keys|
  {
    ChainStart(SharedRoot(root, keys, turn - 1), Agreement(keys[turn - 1], keys[turn]))
  }

  function KeyAt(root: Key, keys: seq<Bytes>, turn: nat, number: nat): Key
    requires 0 < turn < |keys|
  {
    MessageKey(Advance(TurnChain(root, keys, turn), number))
  }

  lemma AgreementCommutes(a: Bytes, b: Bytes)
    ensures Agreement(a, b) == Agreement(b, a)
  {
    assert {a, b} == {b, a};
  }

  lemma {:induction false} SharedRootSeed(root: Key, keys: seq<Bytes>, turn: nat)
    requires turn < |keys|
    ensures Seed(SharedRoot(root, keys, turn)) == Seed(root)
  {
    if turn > 0 {
      SharedRootSeed(root, keys, turn - 1);
    }
  }

  lemma KeyAtSeed(root: Key, keys: seq<Bytes>, turn: nat, number: nat)
    requires 0 < turn < |keys|
    ensures Seed(KeyAt(root, keys, turn, number)) == Seed(root)
  {
    SharedRootSeed(root, keys, turn - 1);
    AdvanceMeasures(TurnChain(root, keys, turn), number);
  }

  lemma {:induction false} SharedRootStable(root: Key, keys: seq<Bytes>, newKey: Bytes, turn: nat)
    requires turn < |keys|
    ensures SharedRoot(root, keys + [newKey], turn) == SharedRoot(root, keys, turn)
  {
    if turn > 0 {
      SharedRootStable(root, keys, newKey, turn - 1);
    }
  }

  lemma TurnChainStable(root: Key, keys: seq<Bytes>, newKey: Bytes, turn: nat)
    requires 0 < turn < |keys|
    ensures TurnChain(root, keys + [newKey], turn) == TurnChain(root, keys, turn)
  {
    SharedRootStable(root, keys, newKey, turn - 1);
  }

  // -------------------------------------------------------------------------
  // The invariant, party by party
  // -------------------------------------------------------------------------

  ghost predicate KeysOk(keys: seq<Bytes>, counts: seq<nat>) {
    && |keys| >= 2 && |counts| == |keys| && counts[0] == 0
    && (forall i :: 0 <= i < |keys| ==> GoodKey(keys[i]))
    && (forall i, j :: 0 <= i < j < |keys| ==> keys[i] != keys[j])
  }

  function PreviousLength(counts: seq<nat>, turn: nat): nat
    requires turn < |counts|
  {
    if turn >= 2 then counts[turn - 2] else 0
  }

  /** Fields of a party whose own latest turn is `own`: its sending side lies at
      `own`, its receiving side at the turn before. */
  ghost predicate Side(root: Key, ad: Bytes, keys: seq<Bytes>, counts: seq<nat>, own: nat, s: Ratchet)
    requires own < |keys| == |counts|
  {
    && s.associatedData == ad
    && s.sending == keys[own]
    && s.rootKey == SharedRoot(root, keys, own)
    && s.sentCount == counts[own]
    && s.previousSentCount == PreviousLength(counts, own)
    && s.sendingChainKey == (if own == 0 then None else Some(Advance(TurnChain(root, keys, own), counts[own])))
    && s.receiving == (if own == 0 then None else Some(keys[own - 1]))
    && s.receivingChainKey
       == (if own <= 1 then None else Some(Advance(TurnChain(root, keys, own - 1), s.receivedCount)))
    && (own <= 1 ==> s.receivedCount == 0)
  }

  /** A peer's turn that the party with own turn `own` has opened. */
  predicate Heard(own: nat, turn: nat) {
    0 < turn < own && turn % 2 != own % 2
  }

  /** Every key the receiver can produce is the right one and still unused. */
  ghost predicate Sound(root: Key, keys: seq<Bytes>, own: nat, s: Ratchet, done: set<SkippedId>) {
    forall key, number: nat :: Lookup(s, key, number).Some? ==>
      && key in keys && SkippedId(key, number) !in done
      && forall turn :: 0 <= turn < |keys| && keys[turn] == key ==>
           Heard(own, turn) && Lookup(s, key, number) == Some(KeyAt(root, keys, turn, number))
  }

  /** Everything sent so far under the turns it has opened, it can decrypt,
      except what it has decrypted already and what its cache has evicted. */
  ghost predicate Complete(root: Key, keys: seq<Bytes>, counts: seq<nat>, own: nat, s: Ratchet, done: set<SkippedId>)
    requires |keys| == |counts|
  {
    forall turn, number: nat ::
      && 0 <= turn < |keys| && Heard(own, turn)
      && (turn < own - 1 ==> number < counts[turn])
      && SkippedId(keys[turn], number) !in done
      && SkippedId(keys[turn], number) !in s.cache.evicted
      ==> Lookup(s, keys[turn], number) == Some(KeyAt(root, keys, turn, number))
  }

  ghost predicate DoneIsHeard(keys: seq<Bytes>, own: nat, done: set<SkippedId>) {
    forall id :: id in done ==>
      && id.ratchetPublicKey in keys
      && forall turn :: 0 <= turn < |keys| && keys[turn] == id.ratchetPublicKey ==> Heard(own, turn)
  }

  ghost predicate Receiver(root: Key, keys: seq<Bytes>, counts: seq<nat>, own: nat, s: Ratchet, done: set<SkippedId>)
    requires |keys| == |counts|
  {
    && Coherent(s)
    && Sound(root, keys, own, s, done)
    && Complete(root, keys, counts, own, s, done)
    && DoneIsHeard(keys, own, done)
  }

  // -------------------------------------------------------------------------
  // What one decryption does to a receiver
  // -------------------------------------------------------------------------

  function IdOf(h: Header): SkippedId {
    SkippedId(h.ratchetPublicKey, h.messageNumber)
  }

  lemma RefusedKeepsReceiver(root: Key, keys: seq<Bytes>, counts: seq<nat>, own: nat, s: Ratchet,
                             t: Ratchet, done: set<SkippedId>)
    requires |keys| == |counts|
    requires Receiver(root, keys, counts, own, s, done)
    requires Coherent(t) && OnlyEvicted(s, t)
    ensures Receiver(root, keys, counts, own, t, done)
  {
    hide CacheOk, Lookup, KeyAt, Heard;
    forall key, number: nat | Lookup(t, key, number).Some? ensures Kept(s, t, key, number) {}
    assert Sound(root, keys, own, t, done);
    forall turn, number: nat
      | 0 <= turn < |keys| && SkippedId(keys[turn], number) !in done ensures Kept(s, t, keys[turn], number) {}
    assert Complete(root, keys, counts, own, t, done);
  }

  lemma PlainKeepsReceiver(root: Key, keys: seq<Bytes>, counts: seq<nat>, own: nat, s: Ratchet,
                           t: Ratchet, done: set<SkippedId>, h: Header)
    requires |keys| == |counts|
    requires Receiver(root, keys, counts, own, s, done)
    requires Coherent(t) && RemovesOnly(s, t, h)
    requires Lookup(s, h.ratchetPublicKey, h.messageNumber).Some?
    ensures Receiver(root, keys, counts, own, t, done + {IdOf(h)})
  {
    hide CacheOk, Lookup, KeyAt, Heard;
    forall key, number: nat | Lookup(t, key, number).Some?
      ensures Kept(s, t, key, number) && SkippedId(key, number) != IdOf(h) {}
    assert Sound(root, keys, own, t, done + {IdOf(h)});
    forall turn, number: nat | 0 <= turn < |keys| && SkippedId(keys[turn], number) != IdOf(h)
      ensures Kept(s, t, keys[turn], number) {}
    assert Complete(root, keys, counts, own, t, done + {IdOf(h)});
  }

  lemma ForwardKeepsSide(root: Key, ad: Bytes, keys: seq<Bytes>, counts: seq<nat>, own: nat, s: Ratchet, t: Ratchet)
    requires own < |keys| == |counts|
    requires Side(root, ad, keys, counts, own, s)
    requires SameButReceived(s, t) && ChainForward(s, t)
    ensures Side(root, ad, keys, counts, own, t)
  {
    if own > 1 {
      AdvanceSum(TurnChain(root, keys, own - 1), s.receivedCount, t.receivedCount - s.receivedCount);
    }
  }

  // -------------------------------------------------------------------------
  // The ratchet step
  // -------------------------------------------------------------------------

  /** A step to the peer's newest key puts the receiver two turns further on the
      common key schedule. */
  lemma TurnKeepsSide(root: Key, ad: Bytes, keys: seq<Bytes>, counts: seq<nat>, s: Ratchet, h: Header, newKey: Bytes)
    requires KeysOk(keys, counts)
    requires Side(root, ad, keys, counts, |keys| - 2, s)
    requires h.ratchetPublicKey == keys[|keys| - 1]
    ensures Side(root, ad, keys + [newKey], counts + [0], |keys|, Turn(s, h, newKey))
  {
    var n := |keys| - 1;
    var keys' := keys + [newKey];
    SkipFrame(s, h.previousChainLength);
    SharedRootStable(root, keys, newKey, n - 1);
    assert SharedRoot(root, keys', n) == RootStep(SharedRoot(root, keys, n - 1), Agreement(keys[n - 1], keys[n]));
    assert SharedRoot(root, keys', n + 1) == RootStep(SharedRoot(root, keys', n), Agreement(keys[n], newKey));
    AgreementCommutes(keys[n], newKey);
  }

  lemma OtherSideStable(root: Key, ad: Bytes, keys: seq<Bytes>, counts: seq<nat>, own: nat, s: Ratchet, newKey: Bytes)
    requires own < |keys| == |counts|
    requires Side(root, ad, keys, counts, own, s)
    ensures Side(root, ad, keys + [newKey], counts + [0], own, s)
  {
    SharedRootStable(root, keys, newKey, own);
    if own > 0 {
      TurnChainStable(root, keys, newKey, own);
    }
    if own > 1 {
      TurnChainStable(root, keys, newKey, own - 1);
    }
  }

  lemma OtherReceiverStable(root: Key, keys: seq<Bytes>, counts: seq<nat>, own: nat, s: Ratchet,
                            done: set<SkippedId>, newKey: Bytes)
    requires KeysOk(keys, counts) && own < |keys| && newKey !in keys
    requires Receiver(root, keys, counts, own, s, done)
    ensures Receiver(root, keys + [newKey], counts + [0], own, s, done)
  {
    hide CacheOk, Lookup, TurnChain;
    forall turn | 0 < turn < |keys| ensures TurnChain(root, keys + [newKey], turn) == TurnChain(root, keys, turn) {
      TurnChainStable(root, keys, newKey, turn);
    }
  }

  lemma TurnKeepsSound(root: Key, ad: Bytes, keys: seq<Bytes>, counts: seq<nat>, s: Ratchet, done: set<SkippedId>,
                       h: Header, newKey: Bytes, key: Bytes, number: nat)
    requires KeysOk(keys, counts) && newKey !in keys
    requires Side(root, ad, keys, counts, |keys| - 2, s)
    requires Receiver(root, keys, counts, |keys| - 2, s, done)
    requires h.ratchetPublicKey == keys[|keys| - 1]
    requires Coherent(Turn(s, h, newKey))
    ensures var t := Turn(s, h, newKey); Lookup(t, key, number).Some? ==>
      && key in keys && SkippedId(key, number) !in done
      && forall turn :: 0 <= turn < |keys| && keys[turn] == key ==>
           Heard(|keys|, turn) && Lookup(t, key, number) == Some(KeyAt(root, keys, turn, number))
  {
    hide CacheOk, Turn;
    var n := |keys| - 1;
    var t := Turn(s, h, newKey);
    TurnMap(s, h, newKey, key, number);
    TurnReceives(s, h, newKey);
    if key == keys[n] {
      assert SkippedId(key, number) !in t.cache.skipped;
    } else if Lookup(t, key, number).Some? {
      assert Kept(s, t, key, number);
    }
  }

  lemma TurnKeepsComplete(root: Key, ad: Bytes, keys: seq<Bytes>, counts: seq<nat>, s: Ratchet, done: set<SkippedId>,
                          h: Header, newKey: Bytes, turn: nat, number: nat)
    requires KeysOk(keys, counts)
    requires Side(root, ad, keys, counts, |keys| - 2, s)
    requires Receiver(root, keys, counts, |keys| - 2, s, done)
    requires h.ratchetPublicKey == keys[|keys| - 1]
    requires h.previousChainLength == PreviousLength(counts, |keys| - 1)
    requires Coherent(Turn(s, h, newKey)) && EvictedGrows(s, Turn(s, h, newKey))
    requires turn < |keys| && Heard(|keys|, turn) && (turn < |keys| - 1 ==> number < counts[turn])
    requires SkippedId(keys[turn], number) !in done
    requires SkippedId(keys[turn], number) !in Turn(s, h, newKey).cache.evicted
    ensures Lookup(Turn(s, h, newKey), keys[turn], number) == Some(KeyAt(root, keys, turn, number))
  {
    hide CacheOk, Turn, KeyAt, Sound, Lookup, SharedRoot, GoodKey;
    var n := |keys| - 1;
    TurnMap(s, h, newKey, keys[turn], number);
    if turn == n {
      OpenedChain(root, ad, keys, counts, s, h, newKey, number);
    } else {
      assert Heard(n - 1, turn);
      assert !GivenUp(s, h, keys[turn], number);
      assert Kept(s, Turn(s, h, newKey), keys[turn], number);
    }
  }

  /** The chain a turn opens is the one on the common key schedule. */
  lemma OpenedChain(root: Key, ad: Bytes, keys: seq<Bytes>, counts: seq<nat>, s: Ratchet, h: Header, newKey: Bytes,
                    number: nat)
    requires KeysOk(keys, counts)
    requires Side(root, ad, keys, counts, |keys| - 2, s) && Coherent(s)
    requires h.ratchetPublicKey == keys[|keys| - 1]
    requires Coherent(Turn(s, h, newKey))
    ensures Lookup(Turn(s, h, newKey), keys[|keys| - 1], number) == Some(KeyAt(root, keys, |keys| - 1, number))
  {
    hide CacheOk, Turn, GoodKey;
    var n := |keys| - 1;
    TurnMap(s, h, newKey, keys[n], number);
    TurnReceives(s, h, newKey);
    assert SkippedId(keys[n], number) !in Turn(s, h, newKey).cache.skipped;
  }

  lemma TurnKeepsReceiver(root: Key, ad: Bytes, keys: seq<Bytes>, counts: seq<nat>, s: Ratchet, done: set<SkippedId>,
                          h: Header, newKey: Bytes)
    requires KeysOk(keys, counts) && newKey !in keys
    requires Side(root, ad, keys, counts, |keys| - 2, s)
    requires Receiver(root, keys, counts, |keys| - 2, s, done)
    requires h.ratchetPublicKey == keys[|keys| - 1]
    requires h.previousChainLength == PreviousLength(counts, |keys| - 1)
    ensures Receiver(root, keys + [newKey], counts + [0], |keys|, Turn(s, h, newKey), done)
    ensures forall number: nat :: Lookup(s, h.ratchetPublicKey, number) == None
  {
    hide CacheOk, Turn, Lookup, TurnChain;
    var t := Turn(s, h, newKey);
    var n := |keys| - 1;
    var keys' := keys + [newKey];
    assert s.receiving != Some(keys[n]);
    forall number: nat ensures Lookup(s, keys[n], number) == None {
      assert !Heard(n - 1, n);
    }
    TurnCoherent(s, h, newKey);
    forall turn | 0 < turn <= n ensures TurnChain(root, keys', turn) == TurnChain(root, keys, turn) {
      TurnChainStable(root, keys, newKey, turn);
    }
    forall key, number: nat | Lookup(t, key, number).Some?
      ensures key in keys && SkippedId(key, number) !in done
      ensures forall turn :: 0 <= turn < |keys'| && keys'[turn] == key ==>
                Heard(n + 1, turn) && Lookup(t, key, number) == Some(KeyAt(root, keys', turn, number))
    {
      TurnKeepsSound(root, ad, keys, counts, s, done, h, newKey, key, number);
    }
    forall turn, number: nat
      | 0 <= turn < |keys'| && Heard(n + 1, turn) && (turn < n ==> number < (counts + [0])[turn])
        && SkippedId(keys'[turn], number) !in done && SkippedId(keys'[turn], number) !in t.cache.evicted
      ensures Lookup(t, keys'[turn], number) == Some(KeyAt(root, keys', turn, number))
    {
      TurnKeepsComplete(root, ad, keys, counts, s, done, h, newKey, turn, number);
    }
  }

  // -------------------------------------------------------------------------
  // Packets and deliveries
  // -------------------------------------------------------------------------

  /** A packet carries what its sender's chain prescribes at its position. */
  ghost predicate Genuine(root: Key, ad: Bytes, keys: seq<Bytes>, counts: seq<nat>, q: Packet)
    requires |keys| == |counts|
  {
    var h := q.message.header;
    && h.ratchetPublicKey in keys
    && forall turn :: 0 <= turn < |keys| && keys[turn] == h.ratchetPublicKey ==>
         && turn > 0 && Owner(turn) == q.from
         && h.previousChainLength == PreviousLength(counts, turn)
         && h.messageNumber < counts[turn]
         && q.message.ciphertext == Sealed(KeyAt(root, keys, turn, h.messageNumber), MessageAd(ad, h), q.plaintext)
  }

  ghost predicate AllGenuine(root: Key, ad: Bytes, keys: seq<Bytes>, counts: seq<nat>, sent: set<Packet>)
    requires |keys| == |counts|
  {
    forall q :: q in sent ==> Genuine(root, ad, keys, counts, q)
  }

  /** What was delivered to `p` under some header is what the peer sent under it. */
  ghost predicate WasSent(sent: set<Packet>, p: Party, h: Header, plaintext: Bytes) {
    exists q :: q in sent && q.from == Other(p) && q.message.header == h && q.plaintext == plaintext
  }

  /** The answer of a receiver in good standing: it stays in good standing, and a
      plaintext it returns was sent by the peer under this header and is new. */
  lemma AnswerKeepsReceiver(root: Key, ad: Bytes, keys: seq<Bytes>, counts: seq<nat>, own: nat, s: Ratchet,
                            t: Ratchet, done: set<SkippedId>, m: Message, out: Outcome, sent: set<Packet>)
    requires KeysOk(keys, counts) && own < |keys|
    requires Side(root, ad, keys, counts, own, s)
    requires Receiver(root, keys, counts, own, s, done)
    requires MapStep(s, m, t, out)
    requires AllGenuine(root, ad, keys, counts, sent)
    requires m.ciphertext.Sealed? && Seed(m.ciphertext.key) == Seed(root) ==>
               exists q :: q in sent && q.message.ciphertext == m.ciphertext
    ensures Side(root, ad, keys, counts, own, t)
    ensures out.Refused? ==> Receiver(root, keys, counts, own, t, done)
    ensures out.Plain? ==>
              && Receiver(root, keys, counts, own, t, done + {IdOf(m.header)})
              && IdOf(m.header) !in done
              && WasSent(sent, Owner(own), m.header, out.plaintext)
  {
    hide CacheOk, Lookup, Side, KeyAt, MessageAd, Sound, Complete, NothingAhead, Genuine, WasSent;
    ForwardKeepsSide(root, ad, keys, counts, own, s, t);
    if MapAnswer(s, m) == None {
      RefusedKeepsReceiver(root, keys, counts, own, s, t, done);
    } else {
      PlainKeepsReceiver(root, keys, counts, own, s, t, done, m.header);
      assert s.associatedData == ad by { SideAd(root, ad, keys, counts, own, s); }
      PlainWasSent(root, ad, keys, counts, own, s, done, m, sent);
    }
  }

  lemma SideAd(root: Key, ad: Bytes, keys: seq<Bytes>, counts: seq<nat>, own: nat, s: Ratchet)
    requires own < |keys| == |counts| && Side(root, ad, keys, counts, own, s)
    ensures s.associatedData == ad && s.sending == keys[own] && s.rootKey == SharedRoot(root, keys, own)
    ensures s.previousSentCount == PreviousLength(counts, own)
    ensures s.receiving == if own == 0 then None else Some(keys[own - 1])
  {
  }

  /** What the map answers is what the ciphertext was sealed from. */
  lemma MapAnswerOpens(s: Ratchet, m: Message)
    requires MapAnswer(s, m).Some?
    ensures var k := Lookup(s, m.header.ratchetPublicKey, m.header.messageNumber);
      && |m.header.ratchetPublicKey| == X25519_PUBLIC_LEN && k.Some?
      && m.ciphertext == Sealed(k.value, MessageAd(s.associatedData, m.header), MapAnswer(s, m).value)
  {
    hide Lookup, MessageAd, WithinReach;
  }

  lemma PlainWasSent(root: Key, ad: Bytes, keys: seq<Bytes>, counts: seq<nat>, own: nat, s: Ratchet,
                     done: set<SkippedId>, m: Message, sent: set<Packet>)
    requires KeysOk(keys, counts) && own < |keys| && s.associatedData == ad
    requires Sound(root, keys, own, s, done)
    requires MapAnswer(s, m).Some?
    requires AllGenuine(root, ad, keys, counts, sent)
    requires m.ciphertext.Sealed? && Seed(m.ciphertext.key) == Seed(root) ==>
               exists q :: q in sent && q.message.ciphertext == m.ciphertext
    ensures IdOf(m.header) !in done
    ensures WasSent(sent, Owner(own), m.header, MapAnswer(s, m).value)
  {
    hide Lookup, KeyAt, MessageAd, EncodeHeader, MapAnswer, Degenerate;
    var h := m.header;
    MapAnswerOpens(s, m);
    var turn :| 0 <= turn < |keys| && keys[turn] == h.ratchetPublicKey;
    assert Heard(own, turn);
    KeyAtSeed(root, keys, turn, h.messageNumber);
    var q :| q in sent && q.message.ciphertext == m.ciphertext;
    SealedUnderHeader(root, ad, keys, counts, q, turn, h);
    assert q.from == Owner(turn) && q.message.header == h && q.plaintext == MapAnswer(s, m).value;
  }

  /** The ciphertext of a genuine packet belongs to its header alone. */
  lemma SealedUnderHeader(root: Key, ad: Bytes, keys: seq<Bytes>, counts: seq<nat>, q: Packet, turn: nat, h: Header)
    requires KeysOk(keys, counts) && Genuine(root, ad, keys, counts, q)
    requires turn < |keys| && keys[turn] == h.ratchetPublicKey
    requires q.message.ciphertext.Sealed? && q.message.ciphertext.associatedData == MessageAd(ad, h)
    ensures q.message.header == h && q.from == Owner(turn)
  {
    hide KeyAt, MessageAd, Degenerate;
    var at :| 0 <= at < |keys| && keys[at] == q.message.header.ratchetPublicKey;
    MessageAdInjective(ad, q.message.header, h);
  }

  // -------------------------------------------------------------------------
  // The invariant of the whole world
  // -------------------------------------------------------------------------

  /** The headers under which `p` has already been delivered a message. */
  function Done(delivered: seq<Delivery>, p: Party): set<SkippedId> {
    set d | d in delivered && d.to == p :: IdOf(d.header)
  }

  lemma DoneAppend(delivered: seq<Delivery>, d: Delivery, p: Party)
    ensures Done(delivered + [d], p)
         == if d.to == p then Done(delivered, p) + {IdOf(d.header)} else Done(delivered, p)
  {
    var more := delivered + [d];
    assert more[|delivered|] == d;
    forall x ensures x in more <==> x in delivered || x == d {}
  }

  ghost predicate PartyOk(w: World, p: Party)
    requires Shaped(w)
  {
    && Side(w.root, w.ad, w.keys, w.counts, OwnTurn(p, w.keys), StateOf(w, p))
    && Receiver(w.root, w.keys, w.counts, OwnTurn(p, w.keys), StateOf(w, p), Done(w.delivered, p))
  }

  ghost predicate AllWasSent(sent: set<Packet>, delivered: seq<Delivery>) {
    forall d :: d in delivered ==> WasSent(sent, d.to, d.header, d.plaintext)
  }

  predicate NoRepeats(delivered: seq<Delivery>) {
    forall i, j :: 0 <= i < j < |delivered| && delivered[i].to == delivered[j].to
      ==> IdOf(delivered[i].header) != IdOf(delivered[j].header)
  }

  ghost predicate Inv(w: World) {
    && KeysOk(w.keys, w.counts)
    && PartyOk(w, Alice) && PartyOk(w, Bob)
    && AllGenuine(w.root, w.ad, w.keys, w.counts, w.sent)
    && AllWasSent(w.sent, w.delivered)
    && NoRepeats(w.delivered)
  }

  lemma StartInv(root: Key, ad: Bytes, signedPreKey: Bytes, first: Bytes)
    requires GoodKey(signedPreKey) && GoodKey(first) && signedPreKey != first
    ensures Inv(Start(root, ad, signedPreKey, first))
  {
    hide GoodKey;
    var w := Start(root, ad, signedPreKey, first);
    AgreementCommutes(signedPreKey, first);
    assert SharedRoot(root, w.keys, 1) == RootStep(SharedRoot(root, w.keys, 0), Agreement(w.keys[0], w.keys[1]));
    assert PartyOk(w, Alice);
    assert PartyOk(w, Bob);
  }

  // -------------------------------------------------------------------------
  // Sending keeps it
  // -------------------------------------------------------------------------

  /** The sender's own count moves on; nothing the receiver side of either party
      relies on is a count of the sender's latest turn. */
  lemma CountKeepsReceiver(root: Key, keys: seq<Bytes>, counts: seq<nat>, own: nat, s: Ratchet,
                           done: set<SkippedId>, at: nat, count: nat)
    requires |keys| == |counts| && at < |counts|
    requires Receiver(root, keys, counts, own, s, done)
    requires own <= at + 1
    ensures Receiver(root, keys, counts[at := count], own, s, done)
  {
    hide CacheOk, Lookup, KeyAt, NothingAhead;
  }

  lemma CountKeepsOtherSide(root: Key, ad: Bytes, keys: seq<Bytes>, counts: seq<nat>, own: nat, s: Ratchet,
                            at: nat, count: nat)
    requires own < |keys| == |counts| && at < |counts|
    requires Side(root, ad, keys, counts, own, s)
    requires own <= at + 1 && own != at
    ensures Side(root, ad, keys, counts[at := count], own, s)
  {
  }

  lemma EncryptKeepsSide(root: Key, ad: Bytes, keys: seq<Bytes>, counts: seq<nat>, own: nat, s: Ratchet,
                         plaintext: Bytes)
    requires own < |keys| == |counts|
    requires Side(root, ad, keys, counts, own, s)
    ensures var (t, r) := Encrypt(s, plaintext);
      && Side(root, ad, keys, counts[own := t.sentCount], own, t)
      && t.sentCount >= s.sentCount
      && (own == 0 ==> t == s)
      && t == s.(sendingChainKey := t.sendingChainKey, sentCount := t.sentCount)
      && (r.Sent? ==>
            && own > 0 && t.sentCount > counts[own]
            && r.message.header.ratchetPublicKey == keys[own]
            && r.message.header.previousChainLength == PreviousLength(counts, own)
            && r.message.header.messageNumber == counts[own]
            && r.message.ciphertext
               == Sealed(KeyAt(root, keys, own, counts[own]), MessageAd(ad, r.message.header), plaintext))
  {
    hide MessageAd;
  }

  lemma SendKeepsPackets(root: Key, ad: Bytes, keys: seq<Bytes>, counts: seq<nat>, own: nat, count: nat,
                         sent: set<Packet>)
    requires |keys| == |counts| && own < |keys| <= own + 2 && count >= counts[own]
    requires AllGenuine(root, ad, keys, counts, sent)
    ensures AllGenuine(root, ad, keys, counts[own := count], sent)
  {
    hide KeyAt, MessageAd;
    forall q | q in sent ensures Genuine(root, ad, keys, counts[own := count], q) {
      assert Genuine(root, ad, keys, counts, q);
    }
  }

  /** Receiving-side facts do not mention the sending fields. */
  lemma SendingFieldsKeepReceiver(root: Key, keys: seq<Bytes>, counts: seq<nat>, own: nat, s: Ratchet, t: Ratchet,
                                  done: set<SkippedId>)
    requires |keys| == |counts|
    requires t == s.(sendingChainKey := t.sendingChainKey, sentCount := t.sentCount)
    requires Receiver(root, keys, counts, own, s, done)
    ensures Receiver(root, keys, counts, own, t, done)
  {
    hide CacheOk, KeyAt;
    forall key, number: nat ensures Lookup(t, key, number) == Lookup(s, key, number) {}
  }

  lemma SendKeepsInv(w: World, p: Party, plaintext: Bytes)
    requires Inv(w)
    ensures Inv(Next(w, Send(p, plaintext)))
  {
    hide Side, Receiver, Encrypt, Genuine, WasSent, KeyAt, MessageAd;
    var w' := Next(w, Send(p, plaintext));
    var own, s := OwnTurn(p, w.keys), StateOf(w, p);
    var (t, r) := Encrypt(s, plaintext);
    EncryptKeepsSide(w.root, w.ad, w.keys, w.counts, own, s, plaintext);
    assert s.sentCount == w.counts[own] by { SideCount(w.root, w.ad, w.keys, w.counts, own, s); }
    SendingFieldsKeepReceiver(w.root, w.keys, w.counts, own, s, t, Done(w.delivered, p));
    CountKeepsReceiver(w.root, w.keys, w.counts, own, t, Done(w.delivered, p), own, t.sentCount);
    assert PartyOk(w', p);
    var o := OwnTurn(Other(p), w.keys);
    CountKeepsReceiver(w.root, w.keys, w.counts, o, StateOf(w, Other(p)), Done(w.delivered, Other(p)), own,
                       t.sentCount);
    CountKeepsOtherSide(w.root, w.ad, w.keys, w.counts, o, StateOf(w, Other(p)), own, t.sentCount);
    assert PartyOk(w', Other(p));
    SendKeepsPackets(w.root, w.ad, w.keys, w.counts, own, t.sentCount, w.sent);
    if r.Sent? {
      NewPacketGenuine(w, p, own, t.sentCount, Packet(p, r.message, plaintext));
    }
    MoreSent(w.sent, w'.sent, w.delivered);
  }

  lemma SideCount(root: Key, ad: Bytes, keys: seq<Bytes>, counts: seq<nat>, own: nat, s: Ratchet)
    requires own < |keys| == |counts| && Side(root, ad, keys, counts, own, s)
    ensures s.sentCount == counts[own]
  {
  }

  lemma NewPacketGenuine(w: World, p: Party, own: nat, count: nat, q: Packet)
    requires KeysOk(w.keys, w.counts) && own == OwnTurn(p, w.keys) && own > 0 && count > w.counts[own]
    requires q.from == p && q.message.header.ratchetPublicKey == w.keys[own]
    requires q.message.header.previousChainLength == PreviousLength(w.counts, own)
    requires q.message.header.messageNumber == w.counts[own]
    requires q.message.ciphertext
          == Sealed(KeyAt(w.root, w.keys, own, w.counts[own]), MessageAd(w.ad, q.message.header), q.plaintext)
    ensures Genuine(w.root, w.ad, w.keys, w.counts[own := count], q)
  {
    hide KeyAt, MessageAd, GoodKey;
  }

  lemma MoreSent(sent: set<Packet>, more: set<Packet>, delivered: seq<Delivery>)
    requires sent <= more && AllWasSent(sent, delivered)
    ensures AllWasSent(more, delivered)
  {
    forall d | d in delivered ensures WasSent(more, d.to, d.header, d.plaintext) {
      assert WasSent(sent, d.to, d.header, d.plaintext);
    }
  }

  // -------------------------------------------------------------------------
  // Delivering keeps it
  // -------------------------------------------------------------------------

  /** `w` with `p`'s state replaced by that after a committed ratchet step. */
  function Turned(w: World, p: Party, t: Ratchet): World {
    WithState(w, p, t).(keys := w.keys + [t.sending], counts := w.counts + [0])
  }

  lemma GenuineStable(root: Key, ad: Bytes, keys: seq<Bytes>, counts: seq<nat>, newKey: Bytes, sent: set<Packet>)
    requires KeysOk(keys, counts) && newKey !in keys
    requires AllGenuine(root, ad, keys, counts, sent)
    ensures AllGenuine(root, ad, keys + [newKey], counts + [0], sent)
  {
    hide TurnChain, MessageAd, GoodKey;
    forall q | q in sent ensures Genuine(root, ad, keys + [newKey], counts + [0], q) {
      assert Genuine(root, ad, keys, counts, q);
      forall turn | 0 < turn < |keys| ensures TurnChain(root, keys + [newKey], turn) == TurnChain(root, keys, turn) {
        TurnChainStable(root, keys, newKey, turn);
      }
    }
  }

  /** The header that starts a turn names the newest key of all. */
  lemma StartsNewest(w: World, p: Party, h: Header)
    requires Inv(w) && StartsTurn(StateOf(w, p), h) && NamesCurrentTurn(StateOf(w, Other(p)), h)
    ensures OwnTurn(p, w.keys) == |w.keys| - 2 && OwnTurn(Other(p), w.keys) == |w.keys| - 1
    ensures h.ratchetPublicKey == w.keys[|w.keys| - 1]
    ensures h.previousChainLength == PreviousLength(w.counts, |w.keys| - 1)
  {
    hide Side, Receiver, AllGenuine, AllWasSent, NoRepeats, GoodKey;
    SideAd(w.root, w.ad, w.keys, w.counts, OwnTurn(p, w.keys), StateOf(w, p));
    SideAd(w.root, w.ad, w.keys, w.counts, OwnTurn(Other(p), w.keys), StateOf(w, Other(p)));
  }

  lemma TurnKeepsInv(w: World, p: Party, h: Header, newKey: Bytes)
    requires Inv(w) && GoodKey(newKey) && newKey !in w.keys
    requires StartsTurn(StateOf(w, p), h) && NamesCurrentTurn(StateOf(w, Other(p)), h)
    ensures Inv(Turned(w, p, Turn(StateOf(w, p), h, newKey)))
    ensures forall number: nat :: Lookup(StateOf(w, p), h.ratchetPublicKey, number) == None
  {
    hide Side, Receiver, Turn, Genuine, AllWasSent, NoRepeats, GoodKey;
    StartsNewest(w, p, h);
    var s, o := StateOf(w, p), Other(p);
    var t := Turn(s, h, newKey);
    assert t.sending == newKey by { TurnSending(s, h, newKey); }
    var w' := Turned(w, p, t);
    TurnKeepsSide(w.root, w.ad, w.keys, w.counts, s, h, newKey);
    TurnKeepsReceiver(w.root, w.ad, w.keys, w.counts, s, Done(w.delivered, p), h, newKey);
    assert PartyOk(w', p);
    OtherSideStable(w.root, w.ad, w.keys, w.counts, |w.keys| - 1, StateOf(w, o), newKey);
    OtherReceiverStable(w.root, w.keys, w.counts, |w.keys| - 1, StateOf(w, o), Done(w.delivered, o), newKey);
    assert PartyOk(w', o);
    GenuineStable(w.root, w.ad, w.keys, w.counts, newKey, w.sent);
  }

  lemma TurnSending(s: Ratchet, h: Header, newKey: Bytes)
    ensures Turn(s, h, newKey).sending == newKey
  {
  }

  /** Delivery once a possible ratchet step is done. */
  function Answered(w: World, p: Party, m: Message, t: Ratchet, out: Outcome): World {
    WithState(w, p, t).(
      delivered := if out.Plain? then w.delivered + [Delivery(p, m.header, out.plaintext)] else w.delivered)
  }

  lemma AnswerKeepsInv(w: World, p: Party, m: Message, t: Ratchet, out: Outcome)
    requires Inv(w) && MapStep(StateOf(w, p), m, t, out) && Constructible(w, m.ciphertext)
    ensures Inv(Answered(w, p, m, t, out))
  {
    hide Side, Receiver, MapStep, Genuine, WasSent, GoodKey;
    var own, s := OwnTurn(p, w.keys), StateOf(w, p);
    var w' := Answered(w, p, m, t, out);
    AnswerKeepsReceiver(w.root, w.ad, w.keys, w.counts, own, s, t, Done(w.delivered, p), m, out, w.sent);
    if out.Plain? {
      var d := Delivery(p, m.header, out.plaintext);
      DoneAppend(w.delivered, d, p);
      DoneAppend(w.delivered, d, Other(p));
      assert forall x :: x in w'.delivered ==> x in w.delivered || x == d;
      forall i | 0 <= i < |w.delivered| && w.delivered[i].to == p
        ensures IdOf(w.delivered[i].header) != IdOf(m.header)
      {
        assert IdOf(w.delivered[i].header) in Done(w.delivered, p);
      }
    }
    assert PartyOk(w', p);
    assert PartyOk(w', Other(p));
  }

  lemma DeliverKeepsInv(w: World, p: Party, m: Message, newKey: Bytes)
    requires Inv(w) && Permitted(w, Deliver(p, m, newKey))
    ensures Inv(Next(w, Deliver(p, m, newKey)))
  {
    hide Inv, MapStep, Decrypt, GoodKey, Turn, NamesCurrentTurn;
    InvShaped(w);
    var s := StateOf(w, p);
    var (t, out) := Decrypt(s, m, newKey);
    assert Coherent(s) && s.sending != newKey by { InvCoherent(w, p); }
    if StartsTurn(s, m.header) {
      TurnKeepsInv(w, p, m.header, newKey);
      DecryptRefinesMap(s, m, newKey);
      var b := Turn(s, m.header, newKey);
      TurnSending(s, m.header, newKey);
      AnswerKeepsInv(Turned(w, p, b), p, m, t, out);
      assert t.sending == b.sending by { MapStepSending(b, m, t, out); }
      assert Next(w, Deliver(p, m, newKey)) == Answered(Turned(w, p, b), p, m, t, out);
    } else {
      DecryptRefinesMap(s, m, newKey);
      AnswerKeepsInv(w, p, m, t, out);
      assert t.sending == s.sending by { MapStepSending(s, m, t, out); }
      assert Next(w, Deliver(p, m, newKey)) == Answered(w, p, m, t, out);
    }
  }

  lemma MapStepSending(s: Ratchet, m: Message, t: Ratchet, out: Outcome)
    requires MapStep(s, m, t, out)
    ensures t.sending == s.sending
  {
  }

  lemma InvShaped(w: World)
    requires Inv(w)
    ensures Shaped(w)
  {
  }

  lemma InvCoherent(w: World, p: Party)
    requires Inv(w)
    ensures Coherent(StateOf(w, p)) && StateOf(w, p).sending in w.keys
  {
    hide CacheOk, NothingAhead, Sound, Complete;
    assert PartyOk(w, p);
  }

  // -------------------------------------------------------------------------
  // Every reachable world
  // -------------------------------------------------------------------------

  lemma {:induction false} RunKeepsInv(w: World, steps: seq<Step>, end: World)
    requires Inv(w) && Run(w, steps, end)
    ensures Inv(end)
    decreases |steps|
  {
    hide Inv, Permitted, Next;
    if steps != [] {
      InvShaped(w);
      match steps[0] {
        case Send(p, plaintext) => SendKeepsInv(w, p, plaintext);
        case Deliver(p, m, newKey) => DeliverKeepsInv(w, p, m, newKey);
      }
      RunKeepsInv(Next(w, steps[0]), steps[1..], end);
    }
  }

  lemma {:induction false} RunExtend(w: World, steps: seq<Step>, mid: World, step: Step)
    requires Shaped(w) && Run(w, steps, mid)
    requires Shaped(mid) && Permitted(mid, step) && Shaped(Next(mid, step))
    ensures Run(w, steps + [step], Next(mid, step))
    decreases |steps|
  {
    hide Permitted, Next;
    if steps == [] {
      assert ([step])[1..] == [];
      assert steps + [step] == [step];
    } else {
      RunExtend(Next(w, steps[0]), steps[1..], mid, step);
      assert (steps + [step])[1..] == steps[1..] + [step];
    }
  }

  /** A permitted step leads from a reachable world to another. */
  lemma ReachableNext(w: World, step: Step)
    requires Reachable(w)
    ensures Shaped(w)
    ensures Permitted(w, step) ==> Reachable(Next(w, step)) && Shaped(Next(w, step))
  {
    hide Permitted, Next, Inv;
    ReachableInv(w);
    InvShaped(w);
    if Permitted(w, step) {
      match step {
        case Send(p, plaintext) => SendKeepsInv(w, p, plaintext);
        case Deliver(p, m, newKey) => DeliverKeepsInv(w, p, m, newKey);
      }
      InvShaped(Next(w, step));
      var root, ad, signedPreKey, first, steps :|
        && GoodKey(signedPreKey) && GoodKey(first) && signedPreKey != first
        && Run(Start(root, ad, signedPreKey, first), steps, w);
      RunExtend(Start(root, ad, signedPreKey, first), steps, w, step);
    }
  }

  lemma ReachableInv(w: World)
    requires Reachable(w)
    ensures Inv(w)
  {
    hide Inv;
    var root, ad, signedPreKey, first, steps :|
      && GoodKey(signedPreKey) && GoodKey(first) && signedPreKey != first
      && Run(Start(root, ad, signedPreKey, first), steps, w);
    StartInv(root, ad, signedPreKey, first);
    RunKeepsInv(Start(root, ad, signedPreKey, first), steps, w);
  }

  /** Integrity and at-most-once: whatever the network did within `Permitted`,
      each plaintext a party returned is what its peer sent under exactly that
      header, and no (ratchet key, number) was delivered to it twice. */
  lemma DeliveredOnceAsSent(w: World)
    requires Reachable(w)
    ensures forall d :: d in w.delivered ==> WasSent(w.sent, d.to, d.header, d.plaintext)
    ensures forall i, j :: 0 <= i < j < |w.delivered| && w.delivered[i].to == w.delivered[j].to
              ==> IdOf(w.delivered[i].header) != IdOf(w.delivered[j].header)
  {
    hide PartyOk, AllGenuine, WasSent;
    ReachableInv(w);
  }

  /** The gaps a message asks the receiver to close are within the bound: the
      one in its own chain and, if it opens a turn, the one left in the chain
      before. */
  predicate CanCatchUp(s: Ratchet, h: Header) {
    if Cached(s, h) then true
    else if s.receiving == Some(h.ratchetPublicKey) then WithinSkip(s, h.messageNumber)
    else WithinSkip(s, h.previousChainLength) && h.messageNumber <= MAX_SKIP_PER_CHAIN
  }

  /** Delivery: in every reachable world, a packet that was not delivered before
      and whose key was not evicted may be delivered, and decrypts to its
      plaintext exactly when its gaps are within the bound - whatever was lost,
      reordered, replayed or forged before. */
  lemma DeliversIff(w: World, q: Packet, newKey: Bytes)
    requires Reachable(w) && q in w.sent
    requires forall d :: d in w.delivered && d.to == Other(q.from) ==> IdOf(d.header) != IdOf(q.message.header)
    requires IdOf(q.message.header) !in StateOf(w, Other(q.from)).cache.evicted
    ensures Decrypt(StateOf(w, Other(q.from)), q.message, newKey).1 == Plain(q.plaintext)
       <==> CanCatchUp(StateOf(w, Other(q.from)), q.message.header)
    ensures GoodKey(newKey) && newKey !in w.keys ==> Permitted(w, Deliver(Other(q.from), q.message, newKey))
  {
    hide Inv, Decrypt, Turn, GoodKey, Lookup;
    ReachableInv(w);
    var p := Other(q.from);
    var s, h := StateOf(w, p), q.message.header;
    var turn := PacketTurn(w, q);
    var own := OwnTurn(p, w.keys);
    if turn < own {
      HeardPacket(w, p, q, turn);
      DecryptRefinesMap(s, q.message, newKey);
    } else {
      NewestPacket(w, p, q, turn);
      NewestPacketAnswer(w, q, s, turn, newKey);
      DecryptRefinesMap(s, q.message, newKey);
      NotCached(s, h);
    }
  }

  // A run in which the network only ever delivers what was sent, each packet at
  // most once, in any order and with any losses

  datatype Move = Utter(from: Party, plaintext: Bytes) | Pass(packet: Packet, newKey: Bytes)

  function StepOf(move: Move): Step {
    match move
    case Utter(p, plaintext) => Send(p, plaintext)
    case Pass(q, newKey) => Deliver(Other(q.from), q.message, newKey)
  }

  ghost predicate Fair(w: World, move: Move) {
    match move
    case Utter(_, _) => true
    case Pass(q, newKey) =>
      var s, h := StateOf(w, Other(q.from)), q.message.header;
      && q in w.sent && GoodKey(newKey) && newKey !in w.keys
      && (forall d :: d in w.delivered && d.to == Other(q.from) ==> IdOf(d.header) != IdOf(h))
      && IdOf(h) !in s.cache.evicted && CanCatchUp(s, h)
  }

  ghost predicate FairRun(w: World, moves: seq<Move>, end: World)
    requires Shaped(w)
    decreases |moves|
  {
    if moves == [] then end == w
    else
      var next := Next(w, StepOf(moves[0]));
      Fair(w, moves[0]) && Shaped(next) && FairRun(next, moves[1..], end)
  }

  function Passed(moves: seq<Move>): seq<Delivery> {
    if moves == [] then []
    else
      match moves[0]
      case Utter(_, _) => Passed(moves[1..])
      case Pass(q, _) => [Delivery(Other(q.from), q.message.header, q.plaintext)] + Passed(moves[1..])
  }

  lemma FairStep(w: World, move: Move)
    requires Reachable(w) && Fair(w, move)
    ensures Shaped(w) && Permitted(w, StepOf(move))
    ensures Next(w, StepOf(move)).delivered == w.delivered + Passed([move])
  {
    hide Reachable, Decrypt, CanCatchUp, GoodKey, NamesCurrentTurn, Constructible, StartsTurn, Encrypt;
    ReachableNext(w, StepOf(move));
    if move.Pass? {
      DeliversIff(w, move.packet, move.newKey);
    }
  }

  /** Delivery over whole runs: every packet passed on comes out as the plaintext
      that was sent under its header, in whatever order packets are passed on. */
  lemma {:induction false} EveryPassDelivers(w: World, moves: seq<Move>, end: World)
    requires Reachable(w) && Shaped(w) && FairRun(w, moves, end)
    ensures Reachable(end) && end.delivered == w.delivered + Passed(moves)
    decreases |moves|
  {
    hide Reachable, Fair, Permitted, Next, Passed;
    if moves == [] {
      assert Passed(moves) == [] by { NothingPassed(); }
      assert w.delivered + [] == w.delivered;
    } else {
      var next := Next(w, StepOf(moves[0]));
      FairStep(w, moves[0]);
      ReachableNext(w, StepOf(moves[0]));
      EveryPassDelivers(next, moves[1..], end);
      PassedUnfold(moves);
      Regroup(w.delivered, Passed([moves[0]]), Passed(moves[1..]));
    }
  }

  lemma NothingPassed()
    ensures Passed([]) == []
  {
  }

  lemma PassedUnfold(moves: seq<Move>)
    requires moves != []
    ensures Passed(moves) == Passed([moves[0]]) + Passed(moves[1..])
  {
  }

  lemma Regroup(a: seq<Delivery>, b: seq<Delivery>, c: seq<Delivery>)
    ensures a + b + c == a + (b + c)
  {
  }

  /** The turn a packet was sent in. */
  lemma PacketTurn(w: World, q: Packet) returns (turn: nat)
    requires Inv(w) && q in w.sent
    ensures 0 < turn < |w.keys| == |w.counts| && w.keys[turn] == q.message.header.ratchetPublicKey
    ensures Owner(turn) == q.from && |q.message.header.ratchetPublicKey| == X25519_PUBLIC_LEN
    ensures q.message.header.previousChainLength == PreviousLength(w.counts, turn)
    ensures q.message.header.messageNumber < w.counts[turn]
    ensures q.message.ciphertext == Sealed(KeyAt(w.root, w.keys, turn, q.message.header.messageNumber),
                                           MessageAd(w.ad, q.message.header), q.plaintext)
  {
    hide PartyOk, KeyAt, MessageAd, AllWasSent, NoRepeats;
    assert Genuine(w.root, w.ad, w.keys, w.counts, q);
    turn :| 0 <= turn < |w.keys| && w.keys[turn] == q.message.header.ratchetPublicKey;
  }

  lemma NotDone(w: World, q: Packet, p: Party)
    requires forall d :: d in w.delivered && d.to == p ==> IdOf(d.header) != IdOf(q.message.header)
    ensures IdOf(q.message.header) !in Done(w.delivered, p)
  {
  }

  /** A packet of an opened turn is in the receiver's map. */
  lemma HeardPacketLookup(w: World, p: Party, q: Packet, turn: nat)
    requires Inv(w) && q in w.sent && p == Other(q.from)
    requires forall d :: d in w.delivered && d.to == p ==> IdOf(d.header) != IdOf(q.message.header)
    requires IdOf(q.message.header) !in StateOf(w, p).cache.evicted
    requires 0 < turn < OwnTurn(p, w.keys) && w.keys[turn] == q.message.header.ratchetPublicKey
    ensures StateOf(w, p).associatedData == w.ad && Coherent(StateOf(w, p))
    ensures var h := q.message.header;
      && |h.ratchetPublicKey| == X25519_PUBLIC_LEN
      && var k := Lookup(StateOf(w, p), h.ratchetPublicKey, h.messageNumber);
         k.Some? && q.message.ciphertext == Sealed(k.value, MessageAd(w.ad, h), q.plaintext)
  {
    hide KeyAt, MessageAd, CacheOk, NothingAhead, AllWasSent, NoRepeats, Sound, Complete, Done, Lookup, AllGenuine,
         Side, SharedRoot, Genuine, GoodKey, DoneIsHeard;
    var h := q.message.header;
    NotDone(w, q, p);
    var at := PacketTurn(w, q);
    assert at == turn;
    assert PartyOk(w, p);
    SideAd(w.root, w.ad, w.keys, w.counts, OwnTurn(p, w.keys), StateOf(w, p));
    CompleteAt(w.root, w.keys, w.counts, OwnTurn(p, w.keys), StateOf(w, p), Done(w.delivered, p), turn,
               h.messageNumber);
  }

  lemma CompleteAt(root: Key, keys: seq<Bytes>, counts: seq<nat>, own: nat, s: Ratchet, done: set<SkippedId>,
                   turn: nat, number: nat)
    requires |keys| == |counts| && Complete(root, keys, counts, own, s, done)
    requires turn < |keys| && Heard(own, turn) && number < counts[turn]
    requires SkippedId(keys[turn], number) !in done && SkippedId(keys[turn], number) !in s.cache.evicted
    ensures Lookup(s, keys[turn], number) == Some(KeyAt(root, keys, turn, number))
  {
  }

  lemma HeardPacket(w: World, p: Party, q: Packet, turn: nat)
    requires Inv(w) && q in w.sent && p == Other(q.from)
    requires forall d :: d in w.delivered && d.to == p ==> IdOf(d.header) != IdOf(q.message.header)
    requires IdOf(q.message.header) !in StateOf(w, p).cache.evicted
    requires 0 < turn < OwnTurn(p, w.keys) && w.keys[turn] == q.message.header.ratchetPublicKey
    ensures Coherent(StateOf(w, p)) && !StartsTurn(StateOf(w, p), q.message.header)
    ensures var s, h := StateOf(w, p), q.message.header;
      && (Cached(s, h) || s.receiving == Some(h.ratchetPublicKey))
      && MapAnswer(s, q.message) == if WithinReach(s, h) then Some(q.plaintext) else None
  {
    hide Inv, Coherent, WithinReach, MessageAd;
    HeardPacketLookup(w, p, q, turn);
  }

  /** A packet of an unopened turn opens the peer's newest one. */
  lemma NewestPacket(w: World, p: Party, q: Packet, turn: nat)
    requires Inv(w) && q in w.sent && p == Other(q.from)
    requires OwnTurn(p, w.keys) <= turn < |w.keys| && w.keys[turn] == q.message.header.ratchetPublicKey
    ensures turn == |w.keys| - 1 && OwnTurn(p, w.keys) == turn - 1
    ensures Coherent(StateOf(w, p)) && !Cached(StateOf(w, p), q.message.header)
    ensures StateOf(w, p).receiving != Some(q.message.header.ratchetPublicKey)
    ensures StartsTurn(StateOf(w, p), q.message.header)
       <==> WithinSkip(StateOf(w, p), q.message.header.previousChainLength)
    ensures NamesCurrentTurn(StateOf(w, Other(p)), q.message.header)
    ensures forall number: nat :: Lookup(StateOf(w, p), q.message.header.ratchetPublicKey, number) == None
    ensures StateOf(w, p).rootKey == SharedRoot(w.root, w.keys, turn - 1)
    ensures StateOf(w, p).sending == w.keys[turn - 1] && StateOf(w, p).associatedData == w.ad
  {
    hide KeyAt, MessageAd, CacheOk, NothingAhead, AllGenuine, AllWasSent, NoRepeats, Complete, WithinSkip, Side, Lookup,
         SharedRoot, Degenerate, DoneIsHeard, Done;
    var h := q.message.header;
    var at := PacketTurn(w, q);
    assert at == turn;
    assert PartyOk(w, p) && PartyOk(w, Other(p));
    SideAd(w.root, w.ad, w.keys, w.counts, OwnTurn(p, w.keys), StateOf(w, p));
    SideAd(w.root, w.ad, w.keys, w.counts, OwnTurn(Other(p), w.keys), StateOf(w, Other(p)));
    forall number: nat ensures Lookup(StateOf(w, p), w.keys[turn], number) == None {
      assert !Heard(OwnTurn(p, w.keys), turn);
    }
    assert Lookup(StateOf(w, p), w.keys[turn], h.messageNumber) == None;
    NotCached(StateOf(w, p), h);
  }

  lemma NotCached(s: Ratchet, h: Header)
    requires Lookup(s, h.ratchetPublicKey, h.messageNumber) == None
    ensures !Cached(s, h)
  {
  }

  lemma NewestPacketAnswer(w: World, q: Packet, s: Ratchet, turn: nat, newKey: Bytes)
    requires Inv(w) && q in w.sent && 0 < turn < |w.keys|
    requires w.keys[turn] == q.message.header.ratchetPublicKey
    requires s.rootKey == SharedRoot(w.root, w.keys, turn - 1) && s.sending == w.keys[turn - 1]
    requires s.associatedData == w.ad && Coherent(s)
    requires s.receiving != Some(q.message.header.ratchetPublicKey)
    requires forall number: nat :: Lookup(s, q.message.header.ratchetPublicKey, number) == None
    ensures var h := q.message.header;
      var b := Turn(s, h, newKey);
      MapAnswer(b, q.message) == if h.messageNumber <= MAX_SKIP_PER_CHAIN then Some(q.plaintext) else None
  {
    hide MessageAd, CacheOk, PartyOk, AllGenuine, AllWasSent, NoRepeats, Lookup, SharedRoot, Skip;
    var h := q.message.header;
    var at := PacketTurn(w, q);
    assert at == turn;
    TurnMap(s, h, newKey, h.ratchetPublicKey, h.messageNumber);
    SkipFrame(s, h.previousChainLength);
    TurnCoherent(s, h, newKey);
  }

  /** Lockstep: the party holding the newest key is exactly one root step ahead
      of its peer, its receiving key is the peer's sending key, and its receiving
      chain is the peer's sending chain, each advanced by its own counter. */
  lemma Lockstep(w: World, p: Party)
    requires Reachable(w) && |w.keys| >= 2 && OwnTurn(p, w.keys) == |w.keys| - 1
    ensures var s, peer := StateOf(w, p), StateOf(w, Other(p));
      && s.rootKey == RootStep(peer.rootKey, Agreement(peer.sending, s.sending))
      && s.receiving == Some(peer.sending)
      && s.associatedData == peer.associatedData
      && (peer.sendingChainKey.Some? <==> s.receivingChainKey.Some?)
      && (s.receivingChainKey.Some? ==> exists chain ::
            && peer.sendingChainKey == Some(Advance(chain, peer.sentCount))
            && s.receivingChainKey == Some(Advance(chain, s.receivedCount)))
  {
    hide Receiver, AllGenuine, AllWasSent, NoRepeats, GoodKey;
    ReachableInv(w);
    assert PartyOk(w, p) && PartyOk(w, Other(p));
    var own := OwnTurn(p, w.keys);
    if own > 1 {
      assert StateOf(w, p).receivingChainKey
          == Some(Advance(TurnChain(w.root, w.keys, own - 1), StateOf(w, p).receivedCount));
    }
  }

  /** Who can send: everybody whose turn has come at least once, which is the
      initiator from the start and the responder from its first received message on,
      as long as the counters fit 32 bits. */
  lemma CanSendIff(w: World, p: Party, plaintext: Bytes)
    requires Reachable(w) && Shaped(w)
    ensures var own := OwnTurn(p, w.keys);
      Encrypt(StateOf(w, p), plaintext).1.Sent?
      <==> own > 0 && w.counts[own] < 0x1_0000_0000 && PreviousLength(w.counts, own) < 0x1_0000_0000
  {
    hide Reachable, Receiver, AllGenuine, AllWasSent, NoRepeats, GoodKey, MessageAd, SharedRoot, TurnChain;
    ReachableInv(w);
    assert PartyOk(w, p);
  }
}
