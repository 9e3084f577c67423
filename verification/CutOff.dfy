/** The lasting damage of a stray ratchet step: what its receiver can still
    decrypt, right after the step and for ever after. */
module CutOff {
  import opened Wire
  import opened Keys
  import opened DoubleRatchet
  import opened KeyMap
  import opened Conversation
  import opened StrayTurns

  // -------------------------------------------------------------------------
  // Which cache entries catching up writes
  // -------------------------------------------------------------------------

  /** Catching up from `s` to `until` caches a key under this id. */
  predicate Writes(s: Ratchet, until: nat, id: SkippedId) {
    && Receiving(s) && s.receiving.value == id.ratchetPublicKey
    && s.receivedCount <= id.messageNumber < until
  }

  /** Entries that are not written stay unless evicted, and none appear; entries
      that are written come from the chain, whatever was cached before. */
  ghost predicate Entries(s: Ratchet, until: nat, t: Ratchet, id: SkippedId) {
    && s.cache.evicted.Keys <= t.cache.evicted.Keys
    && (id !in t.cache.evicted && (Writes(s, until, id) || id in s.cache.skipped) ==> id in t.cache.skipped)
    && (id in t.cache.skipped ==>
          if Writes(s, until, id) then
            t.cache.skipped[id].messageKey
              == MessageKey(Advance(s.receivingChainKey.value, id.messageNumber - s.receivedCount))
          else id in s.cache.skipped && t.cache.skipped[id] == s.cache.skipped[id])
  }

  lemma SkipOneEntries(s: Ratchet, id: SkippedId)
    requires Receiving(s)
    ensures Entries(s, s.receivedCount + 1, SkipOne(s), id)
  {
  }

  lemma {:induction false} SkipToEntries(s: Ratchet, until: nat, id: SkippedId)
    requires Receiving(s)
    ensures Entries(s, until, SkipTo(s, until), id)
    decreases until - s.receivedCount
  {
    hide SkipOne;
    if s.receivedCount < until {
      var one := SkipOne(s);
      SkipOneFrame(s);
      SkipOneEntries(s, id);
      SkipToEntries(one, until, id);
      if Writes(one, until, id) {
        AdvanceSum(s.receivingChainKey.value, 1, id.messageNumber - one.receivedCount);
        assert Advance(s.receivingChainKey.value, 1) == NextChain(s.receivingChainKey.value);
      }
    }
  }

  lemma SkipEntries(s: Ratchet, until: nat, id: SkippedId)
    ensures Entries(s, until, Skip(s, until), id)
  {
    if Receiving(s) {
      SkipToEntries(s, until, id);
    }
  }

  // -------------------------------------------------------------------------
  // Keys that are none of the conversation's
  // -------------------------------------------------------------------------

  /** Where a chain key started. */
  function Base(chain: Key): Key {
    match chain
    case NextChain(c) => Base(c)
    case _ => chain
  }

  lemma {:induction false} AdvanceBase(chain: Key, n: nat)
    ensures Base(Advance(chain, n)) == Base(chain)
  {
    if n > 0 {
      AdvanceBase(chain, n - 1);
    }
  }

  /** The chain is that of no turn of the conversation. */
  ghost predicate Foreign(root: Key, keys: seq<Bytes>, chain: Key) {
    forall turn :: 0 < turn < |keys| ==> Base(chain) != TurnChain(root, keys, turn)
  }

  ghost predicate ForeignKey(root: Key, keys: seq<Bytes>, key: Key) {
    key.MessageKey? && Foreign(root, keys, key.chain)
  }

  lemma KeyAtIsNotForeign(root: Key, keys: seq<Bytes>, turn: nat, number: nat)
    requires 0 < turn < |keys|
    ensures !ForeignKey(root, keys, KeyAt(root, keys, turn, number))
  {
    AdvanceBase(TurnChain(root, keys, turn), number);
  }

  lemma DeepChainIsForeign(root: Key, keys: seq<Bytes>, chain: Key)
    requires chain.ChainStart? && Depth(chain) >= Depth(root) + |keys|
    ensures Foreign(root, keys, chain)
  {
    forall turn | 0 < turn < |keys| ensures chain != TurnChain(root, keys, turn) {
      SharedRootDepth(root, keys, turn - 1);
    }
  }

  // -------------------------------------------------------------------------
  // A receiver gone astray
  // -------------------------------------------------------------------------

  /** The receiver's chain is foreign, its root lies deeper than every turn, and
      each key it has cached is foreign or was there in `kept`. */
  ghost predicate Astray(root: Key, keys: seq<Bytes>, kept: map<SkippedId, SkippedKey>, t: Ratchet) {
    && Receiving(t) && Foreign(root, keys, t.receivingChainKey.value)
    && Depth(t.rootKey) >= Depth(root) + |keys|
    && forall id :: id in t.cache.skipped ==> OldOrForeign(root, keys, kept, id, t.cache.skipped[id].messageKey)
  }

  ghost predicate OldOrForeign(root: Key, keys: seq<Bytes>, kept: map<SkippedId, SkippedKey>, id: SkippedId, key: Key) {
    (id in kept && kept[id].messageKey == key) || ForeignKey(root, keys, key)
  }

  lemma AstrayAdvance(root: Key, keys: seq<Bytes>, chain: Key, n: nat)
    requires Foreign(root, keys, chain)
    ensures Foreign(root, keys, Advance(chain, n)) && ForeignKey(root, keys, MessageKey(Advance(chain, n)))
  {
    AdvanceBase(chain, n);
  }

  lemma SkipKeepsAstray(root: Key, keys: seq<Bytes>, kept: map<SkippedId, SkippedKey>, t: Ratchet, until: nat)
    requires Astray(root, keys, kept, t)
    ensures Astray(root, keys, kept, Skip(t, until))
  {
    hide Skip, Foreign, ForeignKey;
    var u := Skip(t, until);
    SkipFrame(t, until);
    AstrayAdvance(root, keys, t.receivingChainKey.value, u.receivedCount - t.receivedCount);
    forall id | id in u.cache.skipped ensures OldOrForeign(root, keys, kept, id, u.cache.skipped[id].messageKey) {
      SkipEntries(t, until, id);
      if Writes(t, until, id) {
        AstrayAdvance(root, keys, t.receivingChainKey.value, id.messageNumber - t.receivedCount);
      }
    }
  }

  lemma TurnCache(t: Ratchet, h: Header, newKey: Bytes)
    ensures Turn(t, h, newKey).cache == Skip(t, h.previousChainLength).cache
  {
  }

  lemma TurnKeepsAstray(root: Key, keys: seq<Bytes>, kept: map<SkippedId, SkippedKey>, t: Ratchet, h: Header,
                        newKey: Bytes)
    requires Astray(root, keys, kept, t)
    ensures Astray(root, keys, kept, Turn(t, h, newKey))
  {
    hide Skip, Foreign, OldOrForeign, Turn;
    SkipKeepsAstray(root, keys, kept, t, h.previousChainLength);
    StrayAgain(t, h, newKey);
    TurnCache(t, h, newKey);
    DeepChainIsForeign(root, keys, ChainStart(t.rootKey, Agreement(t.sending, h.ratchetPublicKey)));
  }

  lemma CurrentKeepsAstray(root: Key, keys: seq<Bytes>, kept: map<SkippedId, SkippedKey>, t: Ratchet, m: Message)
    requires Astray(root, keys, kept, t)
    ensures Astray(root, keys, kept, DecryptCurrent(t, m).0)
  {
    hide Skip, Foreign, OldOrForeign, MessageAd;
    SkipKeepsAstray(root, keys, kept, t, m.header.messageNumber);
    var u := Skip(t, m.header.messageNumber);
    AstrayAdvance(root, keys, u.receivingChainKey.value, 1);
    assert Advance(u.receivingChainKey.value, 1) == NextChain(u.receivingChainKey.value);
  }

  lemma DecryptKeepsAstray(root: Key, keys: seq<Bytes>, kept: map<SkippedId, SkippedKey>, t: Ratchet, m: Message,
                           newKey: Bytes)
    requires Astray(root, keys, kept, t)
    ensures Astray(root, keys, kept, Decrypt(t, m, newKey).0)
  {
    hide Skip, Foreign, OldOrForeign, MessageAd, Turn, DecryptCurrent, WithinSkip, Degenerate;
    if StartsTurn(t, m.header) {
      TurnKeepsAstray(root, keys, kept, t, m.header, newKey);
      CurrentKeepsAstray(root, keys, kept, Turn(t, m.header, newKey), m);
    } else {
      CurrentKeepsAstray(root, keys, kept, t, m);
    }
  }

  /** A foreign chain opens nothing of the conversation. */
  lemma ForeignChainRefuses(root: Key, keys: seq<Bytes>, t: Ratchet, m: Message, turn: nat, number: nat)
    requires Receiving(t) && Foreign(root, keys, t.receivingChainKey.value) && 0 < turn < |keys|
    requires m.ciphertext.Sealed? && m.ciphertext.key == KeyAt(root, keys, turn, number)
    ensures DecryptCurrent(t, m).1.Refused?
  {
    hide Skip, Foreign, MessageAd, KeyAt, ForeignKey;
    var u := Skip(t, m.header.messageNumber);
    SkipFrame(t, m.header.messageNumber);
    AstrayAdvance(root, keys, t.receivingChainKey.value, u.receivedCount - t.receivedCount);
    KeyAtIsNotForeign(root, keys, turn, number);
  }

  /** A receiver gone astray opens a message of the conversation only with a key
      that it had kept. */
  lemma AstrayOpensKept(root: Key, keys: seq<Bytes>, kept: map<SkippedId, SkippedKey>, t: Ratchet, m: Message,
                        newKey: Bytes, turn: nat, number: nat)
    requires Astray(root, keys, kept, t) && 0 < turn < |keys|
    requires m.ciphertext.Sealed? && m.ciphertext.key == KeyAt(root, keys, turn, number)
    ensures Decrypt(t, m, newKey).1.Plain? ==>
              && Cached(t, m.header)
              && IdOf(m.header) in kept && kept[IdOf(m.header)].messageKey == m.ciphertext.key
  {
    hide Skip, Foreign, ForeignKey, MessageAd, KeyAt, Turn, DecryptCurrent, WithinSkip, Degenerate;
    if Cached(t, m.header) {
      KeyAtIsNotForeign(root, keys, turn, number);
    } else if StartsTurn(t, m.header) {
      TurnKeepsAstray(root, keys, kept, t, m.header, newKey);
      ForeignChainRefuses(root, keys, Turn(t, m.header, newKey), m, turn, number);
    } else {
      ForeignChainRefuses(root, keys, t, m, turn, number);
    }
  }

  // -------------------------------------------------------------------------
  // The stray step itself
  // -------------------------------------------------------------------------

  /** Every message handed over in turn, whatever becomes of it. */
  ghost function HandAll(t: Ratchet, later: seq<(Message, Bytes)>): Ratchet {
    if later == [] then t
    else
      var (m, newKey) := later[|later| - 1];
      Decrypt(HandAll(t, later[..|later| - 1]), m, newKey).0
  }

  lemma {:induction false} HandAllKeepsAstray(root: Key, keys: seq<Bytes>, kept: map<SkippedId, SkippedKey>, t: Ratchet,
                                              later: seq<(Message, Bytes)>)
    requires Astray(root, keys, kept, t)
    ensures Astray(root, keys, kept, HandAll(t, later))
    decreases |later|
  {
    hide Astray, Decrypt;
    if later != [] {
      var (m, newKey) := later[|later| - 1];
      HandAllKeepsAstray(root, keys, kept, t, later[..|later| - 1]);
      DecryptKeepsAstray(root, keys, kept, HandAll(t, later[..|later| - 1]), m, newKey);
    }
  }

  /** The chain a stray step opens is that of no turn. */
  lemma StrayChainIsForeign(w: World, p: Party, key: Bytes)
    requires Inv(w) && key != StateOf(w, Other(p)).sending
    ensures Foreign(w.root, w.keys, ChainStart(StateOf(w, p).rootKey, Agreement(StateOf(w, p).sending, key)))
    ensures Shaped(w) && Depth(StateOf(w, p).rootKey) + 2 >= Depth(w.root) + |w.keys|
  {
    hide Inv, SharedRoot;
    RootsOf(w, p);
    OwnKey(w, p);
    var s, own := StateOf(w, p), OwnTurn(p, w.keys);
    var chain := ChainStart(s.rootKey, Agreement(s.sending, key));
    SharedRootDepth(w.root, w.keys, own);
    forall turn | 0 < turn < |w.keys| ensures chain != TurnChain(w.root, w.keys, turn) {
      SharedRootDepth(w.root, w.keys, turn - 1);
      if turn == own + 1 {
        OtherKeyOtherChain(w, own, turn, s.sending, key);
      }
    }
  }

  lemma OtherKeyOtherChain(w: World, own: nat, turn: nat, sending: Bytes, key: Bytes)
    requires turn == own + 1 && turn < |w.keys| && sending == w.keys[own] && key != w.keys[turn]
    ensures Agreement(sending, key) != Agreement(w.keys[own], w.keys[turn])
  {
  }

  lemma OwnKey(w: World, p: Party)
    requires Inv(w)
    ensures Shaped(w) && StateOf(w, p).sending == w.keys[OwnTurn(p, w.keys)]
  {
    hide Receiver, AllGenuine, AllWasSent, NoRepeats, GoodKey, SharedRoot;
    assert PartyOk(w, p);
  }

  lemma StrayIsAstray(w: World, p: Party, m: Message, newKey: Bytes)
    requires Inv(w) && StartsTurn(StateOf(w, p), m.header)
    requires m.header.ratchetPublicKey != StateOf(w, Other(p)).sending
    ensures var t := Decrypt(StateOf(w, p), m, newKey).0;
      Astray(w.root, w.keys, t.cache.skipped, t)
  {
    hide Inv, Foreign, ForeignKey, Decrypt, StartsTurn;
    var s := StateOf(w, p);
    var t := Decrypt(s, m, newKey).0;
    StrayState(s, m, newKey);
    StrayChainIsForeign(w, p, m.header.ratchetPublicKey);
    AstrayAdvance(w.root, w.keys, StrayChain(s, m.header), t.receivedCount);
  }

  /** A committed ratchet step to a key that is not the peer's current one, even by
      a message that is then refused, cuts the receiver off for good. Whatever it is
      handed afterwards, of all the messages sealed in any turn of the conversation,
      those the peer has yet to send in its current turn included, it opens only
      those whose right key lay in its cache right after the step. */
  lemma StrayTurnCutsOff(w: World, p: Party, m: Message, newKey: Bytes, later: seq<(Message, Bytes)>, x: Message,
                         nextKey: Bytes, turn: nat, number: nat)
    requires Reachable(w) && StartsTurn(StateOf(w, p), m.header)
    requires m.header.ratchetPublicKey != StateOf(w, Other(p)).sending
    requires 0 < turn < |w.keys|
    requires x.ciphertext.Sealed? && x.ciphertext.key == KeyAt(w.root, w.keys, turn, number)
    ensures var t := Decrypt(StateOf(w, p), m, newKey).0;
      Decrypt(HandAll(t, later), x, nextKey).1.Plain? ==>
        && Cached(HandAll(t, later), x.header)
        && Cached(t, x.header) && t.cache.skipped[IdOf(x.header)].messageKey == x.ciphertext.key
  {
    hide Reachable, Inv, Astray, Decrypt, StartsTurn, KeyAt;
    ReachableInv(w);
    var t := Decrypt(StateOf(w, p), m, newKey).0;
    StrayIsAstray(w, p, m, newKey);
    HandAllKeepsAstray(w.root, w.keys, t.cache.skipped, t, later);
    AstrayOpensKept(w.root, w.keys, t.cache.skipped, HandAll(t, later), x, nextKey, turn, number);
  }

  // -------------------------------------------------------------------------
  // What lies in the cache right after the step
  // -------------------------------------------------------------------------

  /** The cache after a step: first the old chain is closed, then the new one is
      caught up with, unless the message claims too high a number. */
  lemma StepEntries(s: Ratchet, m: Message, newKey: Bytes, id: SkippedId)
    requires StartsTurn(s, m.header)
    ensures var c := Skip(s, m.header.previousChainLength);
      var b := Turn(s, m.header, newKey);
      var t := Decrypt(s, m, newKey).0;
      && Entries(s, m.header.previousChainLength, c, id) && b.cache == c.cache
      && (if m.header.messageNumber <= MAX_SKIP_PER_CHAIN then Entries(b, m.header.messageNumber, t, id)
          else t == b)
  {
    hide Skip, MessageAd, Degenerate, Entries;
    var h := m.header;
    var b := Turn(s, h, newKey);
    SkipFrame(s, h.previousChainLength);
    SkipEntries(s, h.previousChainLength, id);
    SkipEntries(b, h.messageNumber, id);
    SkipFrame(b, h.messageNumber);
    EntriesOfCache(b, h.messageNumber, Skip(b, h.messageNumber), Decrypt(s, m, newKey).0, id);
  }

  lemma EntriesOfCache(s: Ratchet, until: nat, t: Ratchet, u: Ratchet, id: SkippedId)
    requires Entries(s, until, t, id)
    ensures u.cache == t.cache ==> Entries(s, until, u, id)
  {
  }

  /** The receiving chain a step to the header's key starts. */
  function StrayChain(s: Ratchet, m: Header): Key {
    ChainStart(s.rootKey, Agreement(s.sending, m.ratchetPublicKey))
  }

  /** The step writes stray keys under the ratchet key it steps to. */
  predicate Overwrites(m: Header, h: Header) {
    && h.ratchetPublicKey == m.ratchetPublicKey
    && h.messageNumber < m.messageNumber <= MAX_SKIP_PER_CHAIN
  }

  /** The key lay in the cache, or lies in the part of the old chain that the claimed
      length makes the step cache. */
  predicate HeldBefore(s: Ratchet, m: Header, h: Header) {
    Cached(s, h) || Writes(s, m.previousChainLength, IdOf(h))
  }

  /** Either way the receiver could derive it, and rightly so. */
  lemma HeldIsRight(w: World, p: Party, m: Header, q: Packet, turn: nat)
    requires Inv(w) && q in w.sent && q.from == Other(p) && Shaped(w) && |w.counts| == |w.keys|
    requires 0 < turn < |w.keys| && w.keys[turn] == q.message.header.ratchetPublicKey
    ensures var h := q.message.header;
      HeldBefore(StateOf(w, p), m, h) ==>
        Lookup(StateOf(w, p), h.ratchetPublicKey, h.messageNumber) == Some(KeyAt(w.root, w.keys, turn, h.messageNumber))
  {
    hide Inv, CacheOk, NothingAhead, Complete, DoneIsHeard, KeyAt, SharedRoot, TurnChain, GoodKey, Side, Heard;
    ReceiverFacts(w, p);
  }

  /** What the step leaves of such a key. */
  lemma HeldSurvives(s: Ratchet, m: Message, newKey: Bytes, h: Header, key: Key)
    requires Coherent(s) && StartsTurn(s, m.header)
    requires HeldBefore(s, m.header, h) ==> Lookup(s, h.ratchetPublicKey, h.messageNumber) == Some(key)
    requires IdOf(h) !in Decrypt(s, m, newKey).0.cache.evicted
    ensures var t := Decrypt(s, m, newKey).0;
      && (!Overwrites(m.header, h) ==>
            && (Cached(t, h) <==> HeldBefore(s, m.header, h))
            && (Cached(t, h) ==> t.cache.skipped[IdOf(h)].messageKey == key))
      && (Overwrites(m.header, h) && Cached(t, h) ==>
            t.cache.skipped[IdOf(h)].messageKey == MessageKey(Advance(StrayChain(s, m.header), h.messageNumber)))
  {
    hide CacheOk, Skip, Turn, Decrypt, StartsTurn;
    StepEntries(s, m, newKey, IdOf(h));
    StrayAgain(s, m.header, newKey);
    var b := Turn(s, m.header, newKey);
    assert Overwrites(m.header, h)
      <==> Writes(b, m.header.messageNumber, IdOf(h)) && m.header.messageNumber <= MAX_SKIP_PER_CHAIN;
  }

  lemma CachedOpens(t: Ratchet, q: Packet, nextKey: Bytes)
    requires |q.message.header.ratchetPublicKey| == X25519_PUBLIC_LEN && Cached(t, q.message.header)
    requires q.message.ciphertext == Sealed(t.cache.skipped[IdOf(q.message.header)].messageKey,
                                            MessageAd(t.associatedData, q.message.header), q.plaintext)
    ensures Decrypt(t, q.message, nextKey).1 == Plain(q.plaintext)
  {
    hide MessageAd, Turn, DecryptCurrent;
  }

  /** The other half. After a step to a key that is not the peer's current one, a
      message of the peer that was neither delivered nor evicted still decrypts
      exactly if its key was held before and is not overwritten: a step back to a
      closed chain with claimed number n writes stray keys over all numbers below n
      of that chain, the genuine cached ones included. */
  lemma CachedPacketSurvivesIff(w: World, p: Party, m: Message, newKey: Bytes, q: Packet, nextKey: Bytes)
    requires Reachable(w) && StartsTurn(StateOf(w, p), m.header)
    requires m.header.ratchetPublicKey != StateOf(w, Other(p)).sending
    requires q in w.sent && q.from == Other(p)
    requires IdOf(q.message.header) !in Decrypt(StateOf(w, p), m, newKey).0.cache.evicted
    ensures var s, h := StateOf(w, p), q.message.header;
      Decrypt(Decrypt(s, m, newKey).0, q.message, nextKey).1 == Plain(q.plaintext)
      <==> HeldBefore(s, m.header, h) && !Overwrites(m.header, h)
  {
    hide Reachable, Inv, Decrypt, StartsTurn, KeyAt, MessageAd, Lookup, HeldBefore, Overwrites, Coherent;
    ReachableInv(w);
    var s, h := StateOf(w, p), q.message.header;
    var t := Decrypt(s, m, newKey).0;
    var turn := PacketTurn(w, q);
    CoherentState(w, p);
    HeldIsRight(w, p, m.header, q, turn);
    HeldSurvives(s, m, newKey, h, KeyAt(w.root, w.keys, turn, h.messageNumber));
    StrayTurnCutsOff(w, p, m, newKey, [], q.message, nextKey, turn, h.messageNumber);
    assert HandAll(t, []) == t;
    StrayAd(w, p, m, newKey);
    if Overwrites(m.header, h) {
      StrayChainIsForeign(w, p, m.header.ratchetPublicKey);
      AstrayAdvance(w.root, w.keys, StrayChain(s, m.header), h.messageNumber);
      KeyAtIsNotForeign(w.root, w.keys, turn, h.messageNumber);
    } else if HeldBefore(s, m.header, h) {
      CachedOpens(t, q, nextKey);
    }
  }

  lemma StrayAd(w: World, p: Party, m: Message, newKey: Bytes)
    requires Inv(w) && StartsTurn(StateOf(w, p), m.header)
    ensures Decrypt(StateOf(w, p), m, newKey).0.associatedData == w.ad
  {
    hide Inv, Decrypt, StartsTurn, Side, Receiver;
    ReceiverFacts(w, p);
    SideAd(w.root, w.ad, w.keys, w.counts, OwnTurn(p, w.keys), StateOf(w, p));
    StepKeepsAd(StateOf(w, p), m, newKey);
  }
}
