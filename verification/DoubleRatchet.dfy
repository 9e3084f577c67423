/** One party's Double Ratchet: the value functions that specify each
    operation, and the class that performs it in place.

    Randomness is a parameter: `newKey` is the public half of the key pair that
    the key generator would return. */
module DoubleRatchet {
  import opened Wire
  import opened Keys

  const MAX_SKIP_PER_CHAIN: nat := 1000
  const MAX_SKIPPED_KEYS: nat := 2000

  datatype Header = Header(ratchetPublicKey: Bytes, previousChainLength: u32, messageNumber: u32)

  datatype Message = Message(header: Header, ciphertext: Ciphertext)

  /** The cache index; the source spells it `hex(key):number`. */
  datatype SkippedId = SkippedId(ratchetPublicKey: Bytes, messageNumber: nat)

  datatype SkippedKey = SkippedKey(sequence: nat, messageKey: Key)

  datatype Error =
    | NoSendingChain
    | CounterOutOfRange
    | WrongKeyLength
    | DegenerateKey
    | TooManySkipped
    | NoReceivingChain
    | AlreadyConsumed
    | AuthenticationFailed

  datatype Outcome = Plain(plaintext: Bytes) | Refused(error: Error)

  datatype Sealing = Sent(message: Message) | NotSent(error: Error)

  /** The skipped-key cache and its insertion counter. `evicted` is a history
      variable: which keys were dropped for lack of room, with their sequence
      numbers. */
  datatype Cache = Cache(skipped: map<SkippedId, SkippedKey>, next: nat, evicted: map<SkippedId, nat>)

  const EMPTY_CACHE := Cache(map[], 0, map[])

  /** The value of a `RatchetState`. */
  datatype Ratchet = Ratchet(
    rootKey: Key,
    sending: Bytes,
    receiving: Option<Bytes>,
    sendingChainKey: Option<Key>,
    receivingChainKey: Option<Key>,
    sentCount: nat,
    receivedCount: nat,
    previousSentCount: nat,
    cache: Cache,
    associatedData: Bytes)

  // -------------------------------------------------------------------------
  // Header and associated data
  // -------------------------------------------------------------------------

  function HeaderFields(h: Header): (fs: seq<Field>)
    ensures AllInRange(fs)
  {
    PowWidths();
    [Fixed(h.ratchetPublicKey), Uint(4, h.previousChainLength), Uint(4, h.messageNumber)]
  }

  function EncodeHeader(h: Header): Bytes {
    Encode(HeaderFields(h))
  }

  /** What every AEAD of the session binds: both identities, then the header. */
  function MessageAd(sessionAd: Bytes, h: Header): Bytes {
    sessionAd + EncodeHeader(h)
  }

  /** The header's bytes determine it. */
  lemma MessageAdInjective(ad: Bytes, g: Header, h: Header)
    requires |g.ratchetPublicKey| == |h.ratchetPublicKey|
    requires MessageAd(ad, g) == MessageAd(ad, h)
    ensures g == h
  {
    var x, y := MessageAd(ad, g), MessageAd(ad, h);
    assert EncodeHeader(g) == x[|ad|..] && EncodeHeader(h) == y[|ad|..];
    assert EncodeHeader(g) + [] == EncodeHeader(g) && EncodeHeader(h) + [] == EncodeHeader(h);
    Unambiguous(HeaderFields(g), HeaderFields(h), [], []);
    assert HeaderFields(g)[0] == HeaderFields(h)[0];
    assert HeaderFields(g)[1] == HeaderFields(h)[1];
    assert HeaderFields(g)[2] == HeaderFields(h)[2];
  }

  /** So do the session's bytes: nothing bound by one session's message is bound by
      a message of another, or by another message of the same. */
  lemma MessageAdBinds(ad: Bytes, other: Bytes, g: Header, h: Header)
    requires |g.ratchetPublicKey| == |h.ratchetPublicKey|
    requires MessageAd(ad, g) == MessageAd(other, h)
    ensures ad == other && g == h
  {
    HeaderLength(g);
    HeaderLength(h);
    assert ad == MessageAd(ad, g)[..|ad|] && other == MessageAd(other, h)[..|other|];
    MessageAdInjective(ad, g, h);
  }

  lemma HeaderLength(h: Header)
    ensures |EncodeHeader(h)| == |h.ratchetPublicKey| + 8
  {
    var fs := HeaderFields(h);
    assert Encode(fs) == EncodeField(fs[0]) + Encode(fs[1..]);
    assert Encode(fs[1..]) == EncodeField(fs[1]) + Encode(fs[1..][1..]);
    assert fs[1..][1..] == [fs[2]];
    assert Encode([fs[2]]) == EncodeField(fs[2]) + Encode([fs[2]][1..]);
  }

  /** The header is the ratchet key, then the two counters in four bytes each. */
  lemma HeaderLayout(h: Header)
    ensures Parse(EncodeHeader(h), [FixedShape(|h.ratchetPublicKey|), UintShape(4), UintShape(4)])
         == Ok(([Fixed(h.ratchetPublicKey), Uint(4, h.previousChainLength), Uint(4, h.messageNumber)], []))
  {
    hide Parse, Encode;
    RoundTrip(HeaderFields(h), []);
    assert EncodeHeader(h) + [] == EncodeHeader(h);
    assert HeaderFields(h)
        == [Fixed(h.ratchetPublicKey), Uint(4, h.previousChainLength), Uint(4, h.messageNumber)];
    assert ShapesOf(HeaderFields(h)) == [FixedShape(|h.ratchetPublicKey|), UintShape(4), UintShape(4)];
  }

  // -------------------------------------------------------------------------
  // The skipped-key cache
  // -------------------------------------------------------------------------

  ghost predicate IsOldest(skipped: map<SkippedId, SkippedKey>, id: SkippedId) {
    && id in skipped
    && forall other :: other in skipped ==> skipped[id].sequence <= skipped[other].sequence
  }

  lemma {:induction false} OldestExists(skipped: map<SkippedId, SkippedKey>)
    requires |skipped| > 0
    ensures exists id :: IsOldest(skipped, id)
    decreases |skipped|
  {
    assert |skipped.Keys| == |skipped|;
    var id :| id in skipped;
    var others := skipped - {id};
    assert skipped.Keys == others.Keys + {id};
    if |others| == 0 {
      assert |others.Keys| == 0;
      assert IsOldest(skipped, id);
    } else {
      assert |others.Keys| == |others|;
      OldestExists(others);
      var best :| IsOldest(others, best);
      assert IsOldest(skipped, if skipped[id].sequence <= skipped[best].sequence then id else best);
    }
  }

  ghost function OldestId(skipped: map<SkippedId, SkippedKey>): (id: SkippedId)
    requires |skipped| > 0
    ensures IsOldest(skipped, id)
  {
    OldestExists(skipped);
    var id :| IsOldest(skipped, id);
    id
  }

  ghost function Evict(c: Cache): Cache
    requires |c.skipped| > 0
  {
    var oldest := OldestId(c.skipped);
    c.(skipped := c.skipped - {oldest}, evicted := c.evicted[oldest := c.skipped[oldest].sequence])
  }

  ghost function MakeRoom(c: Cache): Cache {
    if |c.skipped| >= MAX_SKIPPED_KEYS then Evict(c) else c
  }

  function Insert(c: Cache, id: SkippedId, messageKey: Key): Cache {
    c.(skipped := c.skipped[id := SkippedKey(c.next, messageKey)], next := c.next + 1)
  }

  ghost function Remember(c: Cache, id: SkippedId, messageKey: Key): Cache {
    Insert(MakeRoom(c), id, messageKey)
  }

  function Forget(c: Cache, id: SkippedId): Cache {
    c.(skipped := c.skipped - {id})
  }

  ghost predicate DistinctSequences(skipped: map<SkippedId, SkippedKey>) {
    forall a, b {:trigger skipped[a].sequence, skipped[b].sequence} ::
      a in skipped && b in skipped && skipped[a].sequence == skipped[b].sequence ==> a == b
  }

  ghost predicate AllBefore(skipped: map<SkippedId, SkippedKey>, bound: nat) {
    forall id :: id in skipped ==> skipped[id].sequence < bound
  }

  ghost predicate AllAfter(skipped: map<SkippedId, SkippedKey>, bound: nat) {
    forall id :: id in skipped ==> skipped[id].sequence > bound
  }

  ghost predicate EvictedAreOlder(c: Cache) {
    forall gone :: gone in c.evicted ==> c.evicted[gone] < c.next && AllAfter(c.skipped, c.evicted[gone])
  }

  /** What the cache keeps over every operation: it is bounded, sequence
      numbers are distinct, and whatever was evicted is older than whatever is
      still held. */
  ghost predicate CacheOk(c: Cache) {
    && |c.skipped| <= MAX_SKIPPED_KEYS
    && AllBefore(c.skipped, c.next)
    && DistinctSequences(c.skipped)
    && EvictedAreOlder(c)
  }

  lemma RemoveSize(skipped: map<SkippedId, SkippedKey>, id: SkippedId)
    requires id in skipped
    ensures |skipped - {id}| == |skipped| - 1
  {
    var rest := skipped - {id};
    assert skipped.Keys == rest.Keys + {id};
    assert |skipped| == |skipped.Keys| && |rest| == |rest.Keys|;
  }

  lemma InsertSize(skipped: map<SkippedId, SkippedKey>, id: SkippedId, entry: SkippedKey)
    ensures |skipped[id := entry]| <= |skipped| + 1
  {
    var more := skipped[id := entry];
    assert more.Keys == skipped.Keys + {id};
    assert |skipped| == |skipped.Keys| && |more| == |more.Keys|;
  }

  lemma MakeRoomKeepsCache(c: Cache)
    requires CacheOk(c)
    ensures CacheOk(MakeRoom(c)) && |MakeRoom(c).skipped| < MAX_SKIPPED_KEYS
    ensures c.evicted.Keys <= MakeRoom(c).evicted.Keys
  {
    if |c.skipped| >= MAX_SKIPPED_KEYS {
      var oldest := OldestId(c.skipped);
      RemoveSize(c.skipped, oldest);
      assert AllAfter(c.skipped - {oldest}, c.skipped[oldest].sequence);
    }
  }

  lemma InsertKeepsCache(c: Cache, id: SkippedId, messageKey: Key)
    requires CacheOk(c) && |c.skipped| < MAX_SKIPPED_KEYS
    ensures CacheOk(Insert(c, id, messageKey))
  {
    InsertSize(c.skipped, id, SkippedKey(c.next, messageKey));
    InsertKeepsOrder(c, id, messageKey);
    var d := Insert(c, id, messageKey);
    forall gone | gone in d.evicted ensures d.evicted[gone] < d.next && AllAfter(d.skipped, d.evicted[gone]) {
      assert AllAfter(c.skipped, c.evicted[gone]);
    }
  }

  lemma InsertKeepsOrder(c: Cache, id: SkippedId, messageKey: Key)
    requires AllBefore(c.skipped, c.next) && DistinctSequences(c.skipped)
    ensures AllBefore(Insert(c, id, messageKey).skipped, c.next + 1)
    ensures DistinctSequences(Insert(c, id, messageKey).skipped)
  {
  }

  lemma RememberKeepsCache(c: Cache, id: SkippedId, messageKey: Key)
    requires CacheOk(c)
    ensures CacheOk(Remember(c, id, messageKey))
    ensures c.evicted.Keys <= Remember(c, id, messageKey).evicted.Keys
  {
    MakeRoomKeepsCache(c);
    InsertKeepsCache(MakeRoom(c), id, messageKey);
  }

  lemma ForgetKeepsCache(c: Cache, id: SkippedId)
    requires CacheOk(c) && id in c.skipped
    ensures CacheOk(Forget(c, id))
  {
    RemoveSize(c.skipped, id);
  }

  // -------------------------------------------------------------------------
  // Catching up within the receiving chain
  // -------------------------------------------------------------------------

  predicate Receiving(s: Ratchet) {
    s.receivingChainKey.Some? && s.receiving.Some?
  }

  /** Derive one message key, cache it, step the chain. */
  ghost function SkipOne(s: Ratchet): Ratchet
    requires Receiving(s)
  {
    var chain := s.receivingChainKey.value;
    var id := SkippedId(s.receiving.value, s.receivedCount);
    s.(cache := Remember(s.cache, id, MessageKey(chain)),
       receivingChainKey := Some(NextChain(chain)),
       receivedCount := s.receivedCount + 1)
  }

  ghost function SkipTo(s: Ratchet, until: nat): Ratchet
    requires Receiving(s)
    decreases until - s.receivedCount
  {
    if s.receivedCount >= until then s else SkipTo(SkipOne(s), until)
  }

  predicate WithinSkip(s: Ratchet, until: nat) {
    Receiving(s) && until >= s.receivedCount ==> until - s.receivedCount <= MAX_SKIP_PER_CHAIN
  }

  ghost function Skip(s: Ratchet, until: nat): Ratchet {
    if Receiving(s) then SkipTo(s, until) else s
  }

  // -------------------------------------------------------------------------
  // Initialisation
  // -------------------------------------------------------------------------

  function InitialiseInitiator(rootSecret: Key, peer: Bytes, associatedData: Bytes, newKey: Bytes): Ratchet
  {
    var dh := Agreement(newKey, peer);
    Ratchet(RootStep(rootSecret, dh), newKey, Some(peer), Some(ChainStart(rootSecret, dh)), None,
            0, 0, 0, EMPTY_CACHE, associatedData)
  }

  function InitialiseResponder(rootSecret: Key, signedPreKey: Bytes, associatedData: Bytes): Ratchet {
    Ratchet(rootSecret, signedPreKey, None, None, None, 0, 0, 0, EMPTY_CACHE, associatedData)
  }

  // -------------------------------------------------------------------------
  // Sending
  // -------------------------------------------------------------------------

  /** The chain steps even when the header's counters no longer fit 32 bits:
      the encoder refuses only after the state was advanced. */
  function Encrypt(s: Ratchet, plaintext: Bytes): (Ratchet, Sealing) {
    if s.sendingChainKey.None? then (s, NotSent(NoSendingChain))
    else
      var chain := s.sendingChainKey.value;
      var s' := s.(sendingChainKey := Some(NextChain(chain)), sentCount := s.sentCount + 1);
      if s.previousSentCount >= 0x1_0000_0000 || s.sentCount >= 0x1_0000_0000
      then (s', NotSent(CounterOutOfRange))
      else
        var header := Header(s.sending, s.previousSentCount, s.sentCount);
        var ad := MessageAd(s.associatedData, header);
        (s', Sent(Message(header, Sealed(MessageKey(chain), ad, plaintext))))
  }

  // -------------------------------------------------------------------------
  // Receiving
  // -------------------------------------------------------------------------

  predicate Cached(s: Ratchet, h: Header) {
    SkippedId(h.ratchetPublicKey, h.messageNumber) in s.cache.skipped
  }

  /** The header makes `Decrypt` commit a Diffie-Hellman ratchet step. */
  predicate StartsTurn(s: Ratchet, h: Header) {
    && |h.ratchetPublicKey| == X25519_PUBLIC_LEN
    && !Cached(s, h)
    && s.receiving != Some(h.ratchetPublicKey)
    && !Degenerate(h.ratchetPublicKey)
    && WithinSkip(s, h.previousChainLength)
  }

  /** Both halves of the ratchet step: the receiving chain from the peer's new
      key and our current one, then the sending chain from a brand-new key. */
  function Rekey(s: Ratchet, peer: Bytes, newKey: Bytes): Ratchet {
    var receivingDh := Agreement(s.sending, peer);
    var sendingDh := Agreement(newKey, peer);
    var middle := RootStep(s.rootKey, receivingDh);
    Ratchet(RootStep(middle, sendingDh), newKey, Some(peer), Some(ChainStart(middle, sendingDh)),
            Some(ChainStart(s.rootKey, receivingDh)), 0, 0, s.sentCount, s.cache, s.associatedData)
  }

  /** The ratchet step, once agreement and skip bound have passed: close the old
      receiving chain, then re-key. */
  ghost function Turn(s: Ratchet, h: Header, newKey: Bytes): Ratchet {
    Rekey(Skip(s, h.previousChainLength), h.ratchetPublicKey, newKey)
  }

  ghost function PerformDhRatchet(s: Ratchet, h: Header, newKey: Bytes): (Ratchet, Option<Error>) {
    if Degenerate(h.ratchetPublicKey) then (s, Some(DegenerateKey))
    else if !WithinSkip(s, h.previousChainLength) then (s, Some(TooManySkipped))
    else (Turn(s, h, newKey), None)
  }

  function DecryptCached(s: Ratchet, m: Message): (Ratchet, Outcome)
    requires Cached(s, m.header)
  {
    var id := SkippedId(m.header.ratchetPublicKey, m.header.messageNumber);
    match Open(s.cache.skipped[id].messageKey, m.ciphertext, MessageAd(s.associatedData, m.header))
    case Some(p) => (s.(cache := Forget(s.cache, id)), Plain(p))
    case None => (s, Refused(AuthenticationFailed))
  }

  /** Step 3: the header names the current receiving key. */
  ghost function DecryptCurrent(s: Ratchet, m: Message): (Ratchet, Outcome) {
    if !WithinSkip(s, m.header.messageNumber) then (s, Refused(TooManySkipped))
    else
      var t := Skip(s, m.header.messageNumber);
      if t.receivingChainKey.None? then (t, Refused(NoReceivingChain))
      else if m.header.messageNumber != t.receivedCount then (t, Refused(AlreadyConsumed))
      else
        var chain := t.receivingChainKey.value;
        match Open(MessageKey(chain), m.ciphertext, MessageAd(t.associatedData, m.header))
        case Some(p) =>
          (t.(receivingChainKey := Some(NextChain(chain)), receivedCount := t.receivedCount + 1), Plain(p))
        case None => (t, Refused(AuthenticationFailed))
  }

  ghost function Decrypt(s: Ratchet, m: Message, newKey: Bytes): (Ratchet, Outcome) {
    if |m.header.ratchetPublicKey| != X25519_PUBLIC_LEN then (s, Refused(WrongKeyLength))
    else if Cached(s, m.header) then DecryptCached(s, m)
    else if s.receiving != Some(m.header.ratchetPublicKey) then
      var (t, error) := PerformDhRatchet(s, m.header, newKey);
      if error.Some? then (t, Refused(error.value)) else DecryptCurrent(t, m)
    else DecryptCurrent(s, m)
  }

  // -------------------------------------------------------------------------
  // The object
  // -------------------------------------------------------------------------

  class RatchetState {
    var rootKey: Key
    var sending: SharedKeyPair
    var receiving: Option<Bytes>
    var sendingChainKey: Option<Key>
    var receivingChainKey: Option<Key>
    var sentCount: nat
    var receivedCount: nat
    var previousSentCount: nat
    var skipped: map<SkippedId, SkippedKey>
    var skippedSequence: nat
    var associatedData: Bytes
    ghost var evicted: map<SkippedId, nat>

    ghost function CacheView(): Cache
      reads this`skipped, this`skippedSequence, this`evicted
    {
      Cache(skipped, skippedSequence, evicted)
    }

    ghost function View(): Ratchet
      reads this, sending
    {
      Ratchet(rootKey, sending.secretKey, receiving, sendingChainKey, receivingChainKey, sentCount,
              receivedCount, previousSentCount, CacheView(), associatedData)
    }

    ghost predicate CacheValid()
      reads this`skipped, this`skippedSequence, this`evicted
    {
      CacheOk(CacheView())
    }

    /** A state that can send holds an intact pair. */
    ghost predicate Valid()
      reads this, sending
    {
      CacheValid() && (sendingChainKey.Some? ==> sending.secretKey == sending.publicKey)
    }

    constructor Initiator(rootSecret: Key, peer: Bytes, associatedData: Bytes, newKey: Bytes)
      ensures View() == InitialiseInitiator(rootSecret, peer, associatedData, newKey)
      ensures Valid() && fresh(sending)
    {
      var dh := Agreement(newKey, peer);
      sending := new SharedKeyPair(newKey);
      rootKey, receiving := RootStep(rootSecret, dh), Some(peer);
      sendingChainKey, receivingChainKey := Some(ChainStart(rootSecret, dh)), None;
      sentCount, receivedCount, previousSentCount := 0, 0, 0;
      skipped, skippedSequence, evicted := map[], 0, map[];
      this.associatedData := associatedData;
    }

    /** The signed prekey pair becomes the ratchet pair, and stays the object that
        the prekey store holds. */
    constructor Responder(rootSecret: Key, signedPreKey: SharedKeyPair, associatedData: Bytes)
      ensures View() == InitialiseResponder(rootSecret, signedPreKey.secretKey, associatedData)
      ensures Valid() && sending == signedPreKey
    {
      rootKey, sending, receiving := rootSecret, signedPreKey, None;
      sendingChainKey, receivingChainKey := None, None;
      sentCount, receivedCount, previousSentCount := 0, 0, 0;
      skipped, skippedSequence, evicted := map[], 0, map[];
      this.associatedData := associatedData;
    }

    method RatchetEncrypt(plaintext: Bytes) returns (r: Sealing)
      requires Valid()
      modifies this
      ensures (View(), r) == Encrypt(old(View()), plaintext)
      ensures Valid() && sending == old(sending)
    {
      if sendingChainKey.None? {
        return NotSent(NoSendingChain);
      }
      var messageKey := MessageKey(sendingChainKey.value);
      sendingChainKey := Some(NextChain(sendingChainKey.value));
      var number := sentCount;
      sentCount := sentCount + 1;
      if previousSentCount >= 0x1_0000_0000 || number >= 0x1_0000_0000 {
        return NotSent(CounterOutOfRange);
      }
      var header := Header(sending.publicKey, previousSentCount, number);
      r := Sent(Message(header, Sealed(messageKey, MessageAd(associatedData, header), plaintext)));
    }

    /** The scan for the entry with the least sequence number. */
    method FindOldest() returns (oldest: Option<SkippedId>)
      requires CacheValid()
      ensures oldest.None? <==> |skipped| == 0
      ensures oldest.Some? ==> oldest.value == OldestId(skipped)
    {
      assert |skipped.Keys| == |skipped|;
      oldest := None;
      var oldestSequence := 0;
      var remaining := skipped.Keys;
      while remaining != {}
        invariant remaining <= skipped.Keys
        invariant oldest.None? ==> remaining == skipped.Keys
        invariant oldest.Some? ==>
                    oldest.value in skipped && oldestSequence == skipped[oldest.value].sequence
        invariant forall id :: id in skipped.Keys - remaining ==>
                    oldest.Some? && oldestSequence <= skipped[id].sequence
        decreases remaining
      {
        var id :| id in remaining;
        remaining := remaining - {id};
        if oldest.None? || skipped[id].sequence < oldestSequence {
          oldestSequence := skipped[id].sequence;
          oldest := Some(id);
        }
      }
      if oldest.Some? {
        assert IsOldest(skipped, oldest.value);
        assert IsOldest(skipped, OldestId(skipped));
      }
    }

    method RememberSkipped(ratchetPublicKey: Bytes, messageNumber: nat, messageKey: Key)
      requires CacheValid()
      modifies this`skipped, this`skippedSequence, this`evicted
      ensures CacheView() == Remember(old(CacheView()), SkippedId(ratchetPublicKey, messageNumber), messageKey)
      ensures CacheValid()
    {
      RememberKeepsCache(CacheView(), SkippedId(ratchetPublicKey, messageNumber), messageKey);
      if |skipped| >= MAX_SKIPPED_KEYS {
        var oldest := FindOldest();
        if oldest.Some? {
          evicted := evicted[oldest.value := skipped[oldest.value].sequence];
          skipped := skipped - {oldest.value};
        }
      }
      skipped := skipped[SkippedId(ratchetPublicKey, messageNumber) := SkippedKey(skippedSequence, messageKey)];
      skippedSequence := skippedSequence + 1;
    }

    /** The body of the catch-up loop. */
    method StashNext()
      requires Valid() && Receiving(View())
      modifies this
      ensures View() == SkipOne(old(View()))
      ensures Valid() && Receiving(View()) && sending == old(sending)
    {
      hide Remember, CacheOk;
      var messageKey := MessageKey(receivingChainKey.value);
      receivingChainKey := Some(NextChain(receivingChainKey.value));
      RememberSkipped(receiving.value, receivedCount, messageKey);
      receivedCount := receivedCount + 1;
    }

    method SkipReceivingKeys(until: nat) returns (error: Option<Error>)
      requires Valid()
      modifies this
      ensures error == if WithinSkip(old(View()), until) then None else Some(TooManySkipped)
      ensures View() == if error.None? then Skip(old(View()), until) else old(View())
      ensures Valid() && sending == old(sending)
    {
      if receivingChainKey.None? || receiving.None? {
        return None;
      }
      if until < receivedCount {
        return None;
      }
      if until - receivedCount > MAX_SKIP_PER_CHAIN {
        return Some(TooManySkipped);
      }
      while receivedCount < until
        invariant Valid() && Receiving(View()) && sending == old(sending)
        invariant SkipTo(View(), until) == SkipTo(old(View()), until)
        decreases until - receivedCount
      {
        StashNext();
      }
      error := None;
    }

    method DhRatchet(header: Header, newKey: Bytes) returns (error: Option<Error>)
      requires Valid()
      modifies this, sending
      ensures (View(), error) == PerformDhRatchet(old(View()), header, newKey)
      ensures Valid()
      ensures error.None? ==> fresh(sending) && old(sending).secretKey == WIPED
      ensures error.Some? ==> sending == old(sending) && sending.secretKey == old(sending.secretKey)
    {
      hide CacheOk, Degenerate, Rekey;
      if Degenerate(header.ratchetPublicKey) {
        return Some(DegenerateKey);
      }
      var receivingDh := Agreement(sending.secretKey, header.ratchetPublicKey);
      error := SkipReceivingKeys(header.previousChainLength);
      if error.None? {
        SkipFrame(old(View()), header.previousChainLength);
        CommitTurn(header.ratchetPublicKey, receivingDh, newKey);
      }
    }

    /** The part of the ratchet step that cannot fail. The old pair is zero-filled
        for whoever else holds it. */
    method CommitTurn(peer: Bytes, receivingDh: Secret, newKey: Bytes)
      requires receivingDh == Agreement(sending.secretKey, peer)
      modifies this, sending
      ensures View() == Rekey(old(View()), peer, newKey)
      ensures CacheView() == old(CacheView())
      ensures sending.secretKey == sending.publicKey
      ensures fresh(sending) && old(sending).secretKey == WIPED
    {
      EnterReceiving(peer, receivingDh);
      RenewSending(peer, newKey);
    }

    method EnterReceiving(peer: Bytes, receivingDh: Secret)
      modifies this`previousSentCount, this`sentCount, this`receivedCount, this`receiving, this`receivingChainKey,
               this`rootKey
      ensures previousSentCount == old(sentCount) && sentCount == receivedCount == 0 && receiving == Some(peer)
      ensures receivingChainKey == Some(ChainStart(old(rootKey), receivingDh))
      ensures rootKey == RootStep(old(rootKey), receivingDh)
    {
      previousSentCount, sentCount, receivedCount, receiving := sentCount, 0, 0, Some(peer);
      receivingChainKey, rootKey := Some(ChainStart(rootKey, receivingDh)), RootStep(rootKey, receivingDh);
    }

    method RenewSending(peer: Bytes, newKey: Bytes)
      modifies this`sending, this`sendingChainKey, this`rootKey, sending
      ensures sending.secretKey == sending.publicKey == newKey
      ensures fresh(sending) && old(sending).secretKey == WIPED
      ensures sendingChainKey == Some(ChainStart(old(rootKey), Agreement(newKey, peer)))
      ensures rootKey == RootStep(old(rootKey), Agreement(newKey, peer))
    {
      sending.Wipe();
      sending := new SharedKeyPair(newKey);
      var sendingDh := Agreement(sending.secretKey, peer);
      sendingChainKey, rootKey := Some(ChainStart(rootKey, sendingDh)), RootStep(rootKey, sendingDh);
    }

    method TryDecryptWithSkipped(m: Message) returns (r: Option<Outcome>)
      requires Valid()
      modifies this`skipped
      ensures r.None? <==> !Cached(old(View()), m.header)
      ensures r.Some? ==> (View(), r.value) == DecryptCached(old(View()), m)
      ensures r.None? ==> View() == old(View())
      ensures Valid()
    {
      var id := SkippedId(m.header.ratchetPublicKey, m.header.messageNumber);
      if id !in skipped {
        return None;
      }
      var plain := Open(skipped[id].messageKey, m.ciphertext, MessageAd(associatedData, m.header));
      if plain.None? {
        return Some(Refused(AuthenticationFailed));
      }
      ForgetKeepsCache(CacheView(), id);
      skipped := skipped - {id};
      r := Some(Plain(plain.value));
    }

    method RatchetDecrypt(m: Message, newKey: Bytes) returns (r: Outcome)
      requires Valid()
      modifies this, sending
      ensures (View(), r) == Decrypt(old(View()), m, newKey)
      ensures Valid()
      ensures StartsTurn(old(View()), m.header) ==> fresh(sending) && old(sending).secretKey == WIPED
      ensures !StartsTurn(old(View()), m.header) ==>
                sending == old(sending) && sending.secretKey == old(sending.secretKey)
    {
      hide CacheOk, Degenerate, Rekey, MessageAd, DecryptCurrent, DecryptCached, Turn, WithinSkip;
      if |m.header.ratchetPublicKey| != X25519_PUBLIC_LEN {
        return Refused(WrongKeyLength);
      }
      var fromSkipped := TryDecryptWithSkipped(m);
      if fromSkipped.Some? {
        return fromSkipped.value;
      }
      if receiving != Some(m.header.ratchetPublicKey) {
        var refused := DhRatchet(m.header, newKey);
        if refused.Some? {
          return Refused(refused.value);
        }
      }
      r := DecryptInChain(m);
    }

    /** Step 3: catch up within the current chain, then use its next key. */
    method DecryptInChain(m: Message) returns (r: Outcome)
      requires Valid()
      modifies this
      ensures (View(), r) == DecryptCurrent(old(View()), m)
      ensures Valid() && sending == old(sending)
    {
      hide CacheOk, MessageAd;
      var tooFar := SkipReceivingKeys(m.header.messageNumber);
      if tooFar.Some? {
        return Refused(tooFar.value);
      }
      if receivingChainKey.None? {
        return Refused(NoReceivingChain);
      }
      if m.header.messageNumber != receivedCount {
        return Refused(AlreadyConsumed);
      }
      var chain := receivingChainKey.value;
      var plain := Open(MessageKey(chain), m.ciphertext, MessageAd(associatedData, m.header));
      if plain.None? {
        return Refused(AuthenticationFailed);
      }
      receivingChainKey := Some(NextChain(chain));
      receivedCount := receivedCount + 1;
      r := Plain(plain.value);
    }
  }

  // -------------------------------------------------------------------------
  // What catching up leaves alone
  // -------------------------------------------------------------------------

  /** `t` differs from `s` at most in the cache and the receiving chain. */
  ghost predicate SameButReceived(s: Ratchet, t: Ratchet) {
    && t.rootKey == s.rootKey && t.sending == s.sending && t.receiving == s.receiving
    && t.sendingChainKey == s.sendingChainKey && t.sentCount == s.sentCount
    && t.previousSentCount == s.previousSentCount && t.associatedData == s.associatedData
  }

  lemma SkipOneFrame(s: Ratchet)
    requires Receiving(s)
    ensures SameButReceived(s, SkipOne(s)) && Receiving(SkipOne(s))
    ensures SkipOne(s).receivedCount == s.receivedCount + 1
    ensures SkipOne(s).receivingChainKey == Some(NextChain(s.receivingChainKey.value))
  {
  }

  /** Catching up touches only the receiving chain and the cache. */
  lemma {:induction false} SkipToFrame(s: Ratchet, until: nat)
    requires Receiving(s)
    ensures SameButReceived(s, SkipTo(s, until))
    ensures SkipTo(s, until).receivedCount == if until <= s.receivedCount then s.receivedCount else until
    ensures SkipTo(s, until).receivingChainKey
         == Some(Advance(s.receivingChainKey.value, SkipTo(s, until).receivedCount - s.receivedCount))
    decreases until - s.receivedCount
  {
    if s.receivedCount < until {
      var one := SkipOne(s);
      SkipOneFrame(s);
      SkipToFrame(one, until);
      assert SkipTo(s, until) == SkipTo(one, until);
      AdvanceSum(s.receivingChainKey.value, 1, until - one.receivedCount);
      assert Advance(s.receivingChainKey.value, 1) == NextChain(s.receivingChainKey.value);
    }
  }

  lemma SkipFrame(s: Ratchet, until: nat)
    ensures SameButReceived(s, Skip(s, until))
    ensures Receiving(s) ==>
              && Skip(s, until).receivedCount == (if until <= s.receivedCount then s.receivedCount else until)
              && Skip(s, until).receivingChainKey
                 == Some(Advance(s.receivingChainKey.value, Skip(s, until).receivedCount - s.receivedCount))
    ensures !Receiving(s) ==> Skip(s, until) == s
  {
    if Receiving(s) {
      SkipToFrame(s, until);
    }
  }
}
