/** What a message may do that the network of `Conversation` must not deliver: one
    that makes the receiver commit a ratchet step without naming its peer's
    current key, or with another length than that of its peer's previous chain. */
module StrayTurns {
  import opened Wire
  import opened Keys
  import opened DoubleRatchet
  import opened KeyMap
  import opened Conversation

  // -------------------------------------------------------------------------
  // Chains and roots apart
  // -------------------------------------------------------------------------

  lemma {:induction false} AdvanceInjective(a: Key, b: Key, m: nat, n: nat)
    requires a.ChainStart? && b.ChainStart?
    requires Advance(a, m) == Advance(b, n)
    ensures a == b && m == n
  {
    AdvanceMeasures(a, m);
    AdvanceMeasures(b, n);
    if m > 0 {
      AdvanceInjective(a, b, m - 1, n - 1);
    }
  }

  lemma {:induction false} SharedRootDepth(root: Key, keys: seq<Bytes>, turn: nat)
    requires turn < |keys|
    ensures Depth(SharedRoot(root, keys, turn)) == Depth(root) + turn
  {
    if turn > 0 {
      SharedRootDepth(root, keys, turn - 1);
    }
  }

  /** A chain that starts elsewhere opens no packet of this conversation. */
  lemma WrongChainRefuses(t: Ratchet, m: Message, start: Key, right: Key, number: nat)
    requires t.receivingChainKey.Some? && t.receiving.Some? && start.ChainStart? && right.ChainStart? && start != right
    requires t.receivingChainKey.value == Advance(start, t.receivedCount)
    requires m.ciphertext.Sealed? && m.ciphertext.key == MessageKey(Advance(right, number))
    ensures DecryptCurrent(t, m).1.Refused?
  {
    hide Skip, MessageAd;
    var u := Skip(t, m.header.messageNumber);
    SkipFrame(t, m.header.messageNumber);
    AdvanceSum(start, t.receivedCount, u.receivedCount - t.receivedCount);
    if u.receivingChainKey.value == Advance(right, number) {
      AdvanceInjective(start, right, u.receivedCount, number);
    }
  }

  lemma RootsOf(w: World, p: Party)
    requires Inv(w)
    ensures Shaped(w)
    ensures StateOf(w, p).rootKey == SharedRoot(w.root, w.keys, OwnTurn(p, w.keys))
    ensures StateOf(w, Other(p)).sending == w.keys[OwnTurn(Other(p), w.keys)]
  {
    hide Receiver, AllGenuine, AllWasSent, NoRepeats, GoodKey, SharedRoot;
    assert PartyOk(w, p) && PartyOk(w, Other(p));
  }

  lemma StrayAgain(s: Ratchet, h: Header, newKey: Bytes)
    ensures var b := Turn(s, h, newKey);
      && b.receiving == Some(h.ratchetPublicKey) && b.receivedCount == 0
      && b.receivingChainKey == Some(ChainStart(s.rootKey, Agreement(s.sending, h.ratchetPublicKey)))
      && Depth(b.rootKey) == Depth(s.rootKey) + 2
  {
    SkipFrame(s, h.previousChainLength);
  }

  /** Where a stray step leaves the receiver, whatever became of the message. */
  lemma StrayState(s: Ratchet, m: Message, newKey: Bytes)
    requires StartsTurn(s, m.header)
    ensures var t := Decrypt(s, m, newKey).0;
      && t.receiving == Some(m.header.ratchetPublicKey)
      && t.receivingChainKey
         == Some(Advance(ChainStart(s.rootKey, Agreement(s.sending, m.header.ratchetPublicKey)), t.receivedCount))
      && Depth(t.rootKey) == Depth(s.rootKey) + 2
  {
    hide Turn, MessageAd, WithinSkip, Degenerate;
    StrayAgain(s, m.header, newKey);
    DecryptCurrentForward(Turn(s, m.header, newKey), m);
  }

  // -------------------------------------------------------------------------
  // Messages that start a stray turn
  // -------------------------------------------------------------------------

  /** What the invariant says of a receiver, in the terms used here. */
  lemma ReceiverFacts(w: World, p: Party)
    requires Inv(w)
    ensures KeysOk(w.keys, w.counts) && Shaped(w)
    ensures var own := OwnTurn(p, w.keys);
      && Side(w.root, w.ad, w.keys, w.counts, own, StateOf(w, p))
      && Receiver(w.root, w.keys, w.counts, own, StateOf(w, p), Done(w.delivered, p))
  {
    hide Side, Receiver, AllGenuine, AllWasSent, NoRepeats, GoodKey;
    assert PartyOk(w, p);
  }

  /** A ratchet key that was never in use is neither cached nor current. */
  lemma UnknownKey(w: World, p: Party, key: Bytes, number: nat)
    requires Inv(w) && key !in w.keys
    ensures Lookup(StateOf(w, p), key, number) == None && StateOf(w, p).receiving != Some(key)
  {
    hide Inv, CacheOk, NothingAhead, Complete, DoneIsHeard, KeyAt, Lookup, SharedRoot, TurnChain;
    ReceiverFacts(w, p);
  }

  /** Anyone who can seal nothing at all can still do it: in every reachable world
      a forged message with an unused ratchet key is refused and changes the root.
      By `StrayTurnCutsOff` the receiver is then cut off. */
  lemma ForgedTurnStrays(w: World, p: Party, key: Bytes, bytes: Bytes, newKey: Bytes)
    requires Reachable(w) && GoodKey(key) && key !in w.keys
    ensures var s := StateOf(w, p);
      var m := Message(Header(key, 0, 0), Forged(bytes));
      && StartsTurn(s, m.header) && key != StateOf(w, Other(p)).sending
      && Decrypt(s, m, newKey).1.Refused? && Decrypt(s, m, newKey).0.rootKey != s.rootKey
  {
    hide Reachable, Inv, Lookup, Turn, Skip, MessageAd;
    ReachableInv(w);
    var s, m := StateOf(w, p), Message(Header(key, 0, 0), Forged(bytes));
    UnknownKey(w, p, key, 0);
    NotCached(s, m.header);
    SendingKnown(w, Other(p));
    ForgedRefused(s, m, newKey);
    RejectionKeepsRootIff(s, m, newKey);
  }

  lemma SendingKnown(w: World, p: Party)
    requires Inv(w)
    ensures StateOf(w, p).sending in w.keys
  {
    hide Inv;
    InvCoherent(w, p);
  }

  lemma ForgedRefused(s: Ratchet, m: Message, newKey: Bytes)
    requires m.ciphertext.Forged?
    ensures Decrypt(s, m, newKey).1.Refused?
  {
    hide Turn, Skip, MessageAd;
  }

  /** Where a packet that was delivered already stands. */
  lemma DeliveredPacket(w: World, p: Party, q: Packet) returns (turn: nat)
    requires Inv(w) && q in w.sent && q.from == Other(p)
    requires exists d :: d in w.delivered && d.to == p && IdOf(d.header) == IdOf(q.message.header)
    requires StateOf(w, p).receiving != Some(q.message.header.ratchetPublicKey)
    ensures Shaped(w) && 0 < turn && turn + 1 < OwnTurn(p, w.keys)
    ensures w.keys[turn] == q.message.header.ratchetPublicKey && GoodKey(w.keys[turn])
    ensures Lookup(StateOf(w, p), q.message.header.ratchetPublicKey, q.message.header.messageNumber) == None
    ensures w.keys[turn] != StateOf(w, Other(p)).sending
    ensures q.message.ciphertext == Sealed(KeyAt(w.root, w.keys, turn, q.message.header.messageNumber),
                                           MessageAd(w.ad, q.message.header), q.plaintext)
  {
    hide Inv, CacheOk, NothingAhead, Complete, KeyAt, Lookup, SharedRoot, TurnChain, MessageAd, GoodKey, Heard, Side,
         Sound;
    ReceiverFacts(w, p);
    ReceiverFacts(w, Other(p));
    turn := PacketTurn(w, q);
    var own, s := OwnTurn(p, w.keys), StateOf(w, p);
    var id := IdOf(q.message.header);
    assert id in Done(w.delivered, p);
    assert Heard(own, turn);
    ConsumedIsGone(w.root, w.keys, own, s, Done(w.delivered, p), id);
    SideAd(w.root, w.ad, w.keys, w.counts, own, s);
    SideAd(w.root, w.ad, w.keys, w.counts, OwnTurn(Other(p), w.keys), StateOf(w, Other(p)));
    HeardBefore(own, turn);
  }

  lemma HeardBefore(own: nat, turn: nat)
    requires Heard(own, turn)
    ensures turn == own - 1 || turn + 1 < own - 1
  {
  }

  lemma ConsumedIsGone(root: Key, keys: seq<Bytes>, own: nat, s: Ratchet, done: set<SkippedId>, id: SkippedId)
    requires Sound(root, keys, own, s, done) && id in done
    ensures Lookup(s, id.ratchetPublicKey, id.messageNumber) == None
  {
    hide Lookup, KeyAt;
  }

  /** Replaying genuine traffic does it too: a message delivered before, sent in a
      chain that is no longer the receiver's current one, starts a turn exactly if
      its claimed gap is within the skip bound. The turn is always a stray one, and
      the replay is refused all the same. */
  lemma ReplayStraysIff(w: World, p: Party, q: Packet, newKey: Bytes)
    requires Reachable(w) && q in w.sent && q.from == Other(p)
    requires exists d :: d in w.delivered && d.to == p && IdOf(d.header) == IdOf(q.message.header)
    requires StateOf(w, p).receiving != Some(q.message.header.ratchetPublicKey)
    ensures var s, h := StateOf(w, p), q.message.header;
      && (StartsTurn(s, h) <==> WithinSkip(s, h.previousChainLength))
      && h.ratchetPublicKey != StateOf(w, Other(p)).sending
      && Decrypt(s, q.message, newKey).1.Refused?
      && (Decrypt(s, q.message, newKey).0.rootKey != s.rootKey <==> StartsTurn(s, h))
  {
    hide Reachable, Inv, Lookup, Turn, Skip, MessageAd, DecryptCurrent, KeyAt, WithinSkip, Degenerate;
    ReachableInv(w);
    var s, h := StateOf(w, p), q.message.header;
    var turn := DeliveredPacket(w, p, q);
    NotCached(s, h);
    if StartsTurn(s, h) {
      RootsOf(w, p);
      var own := OwnTurn(p, w.keys);
      OlderChainRefuses(w.root, w.keys, turn, Depth(w.root) + own, s, q.message, newKey) by {
        SharedRootDepth(w.root, w.keys, own);
        KeyAtChain(w.root, w.keys, turn, h.messageNumber);
      }
    }
    RejectionKeepsRootIff(s, q.message, newKey);
  }

  lemma KeyAtChain(root: Key, keys: seq<Bytes>, turn: nat, number: nat)
    requires 0 < turn < |keys|
    ensures KeyAt(root, keys, turn, number) == MessageKey(Advance(TurnChain(root, keys, turn), number))
  {
  }

  /** A turn taken from a root further on opens no message of an earlier turn. */
  lemma OlderChainRefuses(root: Key, keys: seq<Bytes>, turn: nat, depth: nat, s: Ratchet, m: Message, newKey: Bytes)
    requires 0 < turn < |keys| && Depth(s.rootKey) == depth && Depth(root) + turn <= depth
    requires StartsTurn(s, m.header)
    requires m.ciphertext.Sealed?
    requires m.ciphertext.key == MessageKey(Advance(TurnChain(root, keys, turn), m.header.messageNumber))
    ensures Decrypt(s, m, newKey).1.Refused?
  {
    hide Turn, MessageAd, DecryptCurrent, Degenerate, WithinSkip, SharedRoot;
    var b := Turn(s, m.header, newKey);
    StrayAgain(s, m.header, newKey);
    SharedRootDepth(root, keys, turn - 1);
    var start := ChainStart(s.rootKey, Agreement(s.sending, m.header.ratchetPublicKey));
    assert Depth(start) > Depth(TurnChain(root, keys, turn));
    WrongChainRefuses(b, m, start, TurnChain(root, keys, turn), m.header.messageNumber);
  }

  // -------------------------------------------------------------------------
  // The right key with the wrong length
  // -------------------------------------------------------------------------

  /** A step to the peer's current key is to the newest key of all, from the turn
      before it. */
  lemma NewestTurn(w: World, p: Party, h: Header)
    requires Inv(w) && StartsTurn(StateOf(w, p), h) && h.ratchetPublicKey == StateOf(w, Other(p)).sending
    ensures Shaped(w) && OwnTurn(p, w.keys) == |w.keys| - 2 && h.ratchetPublicKey == w.keys[|w.keys| - 1]
    ensures forall number: nat :: Lookup(StateOf(w, p), h.ratchetPublicKey, number) == None
  {
    hide Inv, CacheOk, NothingAhead, Complete, DoneIsHeard, KeyAt, Lookup, SharedRoot, TurnChain, GoodKey, Side, Heard;
    ReceiverFacts(w, p);
    ReceiverFacts(w, Other(p));
    var own := OwnTurn(p, w.keys);
    SideAd(w.root, w.ad, w.keys, w.counts, own, StateOf(w, p));
    SideAd(w.root, w.ad, w.keys, w.counts, OwnTurn(Other(p), w.keys), StateOf(w, Other(p)));
    assert !Heard(own, |w.keys| - 1) by { NotHeardAhead(own, |w.keys| - 1); }
  }

  lemma NotHeardAhead(own: nat, turn: nat)
    requires turn > own
    ensures !Heard(own, turn)
  {
  }

  /** The message keys of the chain before survive a step and what follows it,
      except for those the claimed length gives up. */
  lemma StepKeepsPair(s: Ratchet, m: Message, newKey: Bytes, key: Bytes, number: nat)
    requires Coherent(s) && StartsTurn(s, m.header) && key != m.header.ratchetPublicKey
    requires forall k: nat :: Lookup(s, m.header.ratchetPublicKey, k) == None
    ensures var t := Decrypt(s, m, newKey).0;
      && EvictedGrows(s, t)
      && (GivenUp(s, m.header, key, number) ==> Lookup(t, key, number) == None)
      && (!GivenUp(s, m.header, key, number) && SkippedId(key, number) !in t.cache.evicted ==>
            Lookup(t, key, number) == Lookup(s, key, number))
  {
    hide CacheOk, Turn, Decrypt, MessageAd, Lookup, NothingAhead, GivenUp;
    var b := Turn(s, m.header, newKey);
    TurnMap(s, m.header, newKey, key, number);
    TurnCoherent(s, m.header, newKey);
    DecryptRefinesMap(s, m, newKey);
    assert Kept(b, Decrypt(s, m, newKey).0, key, number);
  }

  /** Why the length matters as well. After a step to the peer's current key under
      whatever length the header claims, a message of an earlier turn that was not
      delivered and not evicted still decrypts exactly if it is not in the chain
      just closed, or its number is below the claimed length or below what was
      received there. */
  lemma EarlierPacketSurvivesIff(w: World, p: Party, m: Message, newKey: Bytes, q: Packet, nextKey: Bytes)
    requires Reachable(w) && StartsTurn(StateOf(w, p), m.header)
    requires m.header.ratchetPublicKey == StateOf(w, Other(p)).sending
    requires q in w.sent && q.from == Other(p) && q.message.header.ratchetPublicKey != m.header.ratchetPublicKey
    requires forall d :: d in w.delivered && d.to == p ==> IdOf(d.header) != IdOf(q.message.header)
    requires IdOf(q.message.header) !in Decrypt(StateOf(w, p), m, newKey).0.cache.evicted
    ensures var s, h := StateOf(w, p), q.message.header;
      var t := Decrypt(s, m, newKey).0;
      Decrypt(t, q.message, nextKey).1 == Plain(q.plaintext)
      <==> || s.receiving != Some(h.ratchetPublicKey)
           || h.messageNumber < m.header.previousChainLength
           || h.messageNumber < s.receivedCount
  {
    hide Reachable, Inv, Lookup, Turn, Skip, MessageAd, Decrypt, KeyAt, WithinSkip, Degenerate, Coherent, EvictedGrows;
    ReachableInv(w);
    var s, h := StateOf(w, p), q.message.header;
    var t := Decrypt(s, m, newKey).0;
    NewestTurn(w, p, m.header);
    var turn := PacketTurn(w, q);
    CoherentState(w, p);
    StepKeepsPair(s, m, newKey, h.ratchetPublicKey, h.messageNumber);
    GrownHistory(s, t, IdOf(h));
    HeardPacketLookup(w, p, q, turn);
    GivesUpIff(w, p, m.header, q);
    AfterStep(w, p, m, newKey);
    if GivenUp(s, m.header, h.ratchetPublicKey, h.messageNumber) {
      KeyAtChain(w.root, w.keys, turn, h.messageNumber);
      LostRefuses(w, t, q.message, turn, nextKey);
    } else {
      CachedDelivers(t, q, nextKey);
    }
  }

  lemma CoherentState(w: World, p: Party)
    requires Inv(w)
    ensures Coherent(StateOf(w, p))
  {
    hide Inv;
    InvCoherent(w, p);
  }

  lemma GrownHistory(s: Ratchet, t: Ratchet, id: SkippedId)
    requires EvictedGrows(s, t) && id !in t.cache.evicted
    ensures id !in s.cache.evicted
  {
  }

  /** What is given up, spelled out for a packet. */
  lemma GivesUpIff(w: World, p: Party, h: Header, q: Packet)
    requires Inv(w) && q in w.sent && q.from == Other(p) && Shaped(w)
    requires OwnTurn(p, w.keys) == |w.keys| - 2
    ensures var s := StateOf(w, p);
      GivenUp(s, h, q.message.header.ratchetPublicKey, q.message.header.messageNumber)
      <==> && s.receiving == Some(q.message.header.ratchetPublicKey)
           && q.message.header.messageNumber >= h.previousChainLength
           && q.message.header.messageNumber >= s.receivedCount
  {
    hide Inv, Receiver, SharedRoot, TurnChain, GoodKey, KeyAt, MessageAd;
    ReceiverFacts(w, p);
    var turn := PacketTurn(w, q);
  }

  /** The receiver after a step, whatever became of the message that made it. */
  lemma AfterStep(w: World, p: Party, m: Message, newKey: Bytes)
    requires Inv(w) && StartsTurn(StateOf(w, p), m.header) && Shaped(w) && OwnTurn(p, w.keys) == |w.keys| - 2
    ensures var t := Decrypt(StateOf(w, p), m, newKey).0;
      && t.receiving == Some(m.header.ratchetPublicKey)
      && Depth(t.rootKey) == Depth(w.root) + |w.keys|
      && t.associatedData == w.ad
  {
    hide Inv, Turn, MessageAd, DecryptCurrent, WithinSkip, Degenerate, SharedRoot, Receiver;
    var s := StateOf(w, p);
    StrayState(s, m, newKey);
    RootsOf(w, p);
    SharedRootDepth(w.root, w.keys, OwnTurn(p, w.keys));
    ReceiverFacts(w, p);
    SideAd(w.root, w.ad, w.keys, w.counts, OwnTurn(p, w.keys), s);
    StepKeepsAd(s, m, newKey);
  }

  lemma StepKeepsAd(s: Ratchet, m: Message, newKey: Bytes)
    requires StartsTurn(s, m.header)
    ensures Decrypt(s, m, newKey).0.associatedData == s.associatedData
  {
    hide Turn, MessageAd, WithinSkip, Degenerate;
    var b := Turn(s, m.header, newKey);
    StrayAgain(s, m.header, newKey);
    TurnKeepsAd(s, m.header, newKey);
    DecryptCurrentForward(b, m);
  }

  lemma TurnKeepsAd(s: Ratchet, h: Header, newKey: Bytes)
    ensures Turn(s, h, newKey).associatedData == s.associatedData
  {
    SkipFrame(s, h.previousChainLength);
  }

  lemma LostRefuses(w: World, t: Ratchet, m: Message, turn: nat, nextKey: Bytes)
    requires 0 < turn < |w.keys| && Depth(t.rootKey) == Depth(w.root) + |w.keys|
    requires Lookup(t, m.header.ratchetPublicKey, m.header.messageNumber) == None
    requires t.receiving != Some(m.header.ratchetPublicKey)
    requires m.ciphertext.Sealed?
    requires m.ciphertext.key == MessageKey(Advance(TurnChain(w.root, w.keys, turn), m.header.messageNumber))
    ensures Decrypt(t, m, nextKey).1.Refused?
  {
    hide Turn, MessageAd, DecryptCurrent, Degenerate, WithinSkip, SharedRoot, Lookup, TurnChain;
    NotCached(t, m.header);
    if StartsTurn(t, m.header) {
      OlderChainRefuses(w.root, w.keys, turn, Depth(t.rootKey), t, m, nextKey);
    }
  }

  /** A key the receiver holds outside its current chain is in the cache. */
  lemma CachedDelivers(t: Ratchet, q: Packet, nextKey: Bytes)
    requires |q.message.header.ratchetPublicKey| == X25519_PUBLIC_LEN
    requires t.receiving != Some(q.message.header.ratchetPublicKey)
    requires var k := Lookup(t, q.message.header.ratchetPublicKey, q.message.header.messageNumber);
      k.Some? && q.message.ciphertext == Sealed(k.value, MessageAd(t.associatedData, q.message.header), q.plaintext)
    ensures Decrypt(t, q.message, nextKey).1 == Plain(q.plaintext)
  {
    hide MessageAd, Turn, Skip, DecryptCurrent;
  }
}
