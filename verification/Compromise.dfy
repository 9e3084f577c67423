/** What someone learns who gets hold of a party's whole ratchet state: nothing of
    the messages it has sent or received, and of later turns the next one only. */
module Compromise {
  import opened Wire
  import opened Keys
  import opened DoubleRatchet
  import opened KeyMap
  import opened Conversation
  import opened StrayTurns

  /** The keys in a ratchet's fields. */
  predicate Holds(s: Ratchet, k: Key) {
    || k == s.rootKey
    || Some(k) == s.sendingChainKey
    || Some(k) == s.receivingChainKey
    || exists id :: id in s.cache.skipped && s.cache.skipped[id].messageKey == k
  }

  /** Everything that follows from them for someone who can run the key schedule
      and knows every Diffie-Hellman secret besides. */
  predicate Derivable(s: Ratchet, k: Key) {
    || Holds(s, k)
    || match k
       case Handshake(_, _) => false
       case RootStep(r, _) => Derivable(s, r)
       case ChainStart(r, _) => Derivable(s, r)
       case NextChain(c) => Derivable(s, c)
       case MessageKey(c) => Derivable(s, c)
  }

  // -------------------------------------------------------------------------
  // What lies under a message key
  // -------------------------------------------------------------------------

  /** No key held by `s` is as shallow as `depth`. */
  ghost predicate HoldsOnlyDeeper(s: Ratchet, depth: nat) {
    forall k :: Holds(s, k) ==> Depth(k) > depth
  }

  /** Derivation never leads to a shallower key than those held. */
  lemma {:induction false} ShallowIsUnderivable(s: Ratchet, k: Key)
    requires HoldsOnlyDeeper(s, Depth(k))
    ensures !Derivable(s, k)
  {
    assert !Holds(s, k);
    match k
    case Handshake(_, _) =>
    case RootStep(r, _) => ShallowIsUnderivable(s, r);
    case ChainStart(r, _) => ShallowIsUnderivable(s, r);
    case NextChain(c) => ShallowIsUnderivable(s, c);
    case MessageKey(c) => ShallowIsUnderivable(s, c);
  }

  /** None of the keys on the way from the start of a chain to one of its message
      keys is held. */
  ghost predicate ChainGone(s: Ratchet, start: Key, number: nat) {
    && !Holds(s, MessageKey(Advance(start, number)))
    && forall j: nat :: j <= number ==> !Holds(s, Advance(start, j))
  }

  lemma {:induction false} AdvanceUnderivable(s: Ratchet, start: Key, number: nat)
    requires start.ChainStart? && !Derivable(s, start.root)
    requires forall j: nat :: j <= number ==> !Holds(s, Advance(start, j))
    ensures !Derivable(s, Advance(start, number))
  {
    hide Holds;
    assert !Holds(s, Advance(start, number));
    if number > 0 {
      AdvanceUnderivable(s, start, number - 1);
    }
  }

  lemma GoneIsUnderivable(s: Ratchet, start: Key, number: nat)
    requires start.ChainStart? && !Derivable(s, start.root) && ChainGone(s, start, number)
    ensures !Derivable(s, MessageKey(Advance(start, number)))
  {
    hide Holds;
    AdvanceUnderivable(s, start, number);
  }

  // -------------------------------------------------------------------------
  // What a party of a conversation holds
  // -------------------------------------------------------------------------

  /** The message key of a turn the party has heard is in its cache. */
  ghost predicate CachedAt(w: World, p: Party, turn: nat, number: nat)
    requires Shaped(w)
  {
    && turn < |w.keys| && Heard(OwnTurn(p, w.keys), turn)
    && SkippedId(w.keys[turn], number) in StateOf(w, p).cache.skipped
  }

  /** A party's keys, by turn: its root at its own turn, its sending chain at the
      current count, its receiving chain one turn before, and cached message keys. */
  ghost predicate HeldForm(w: World, p: Party, k: Key)
    requires Shaped(w)
  {
    var own, s := OwnTurn(p, w.keys), StateOf(w, p);
    || k == SharedRoot(w.root, w.keys, own)
    || (own > 0 && k == Advance(TurnChain(w.root, w.keys, own), w.counts[own]))
    || (own > 1 && k == Advance(TurnChain(w.root, w.keys, own - 1), s.receivedCount))
    || exists turn, number: nat :: CachedAt(w, p, turn, number) && k == KeyAt(w.root, w.keys, turn, number)
  }

  lemma CachedForm(w: World, p: Party, id: SkippedId) returns (turn: nat)
    requires Inv(w) && id in StateOf(w, p).cache.skipped
    ensures Shaped(w) && CachedAt(w, p, turn, id.messageNumber)
    ensures StateOf(w, p).cache.skipped[id].messageKey == KeyAt(w.root, w.keys, turn, id.messageNumber)
  {
    hide Inv, CacheOk, NothingAhead, Complete, DoneIsHeard, KeyAt, SharedRoot, TurnChain, GoodKey, Side, Heard, Done;
    ReceiverFacts(w, p);
    assert Lookup(StateOf(w, p), id.ratchetPublicKey, id.messageNumber).Some?;
    turn :| 0 <= turn < |w.keys| && w.keys[turn] == id.ratchetPublicKey;
  }

  lemma HeldHasForm(w: World, p: Party, k: Key)
    requires Inv(w) && Holds(StateOf(w, p), k)
    ensures Shaped(w) && HeldForm(w, p, k)
  {
    hide Inv, Receiver, KeyAt, SharedRoot, TurnChain, GoodKey, CachedAt;
    ReceiverFacts(w, p);
    var s := StateOf(w, p);
    if k != s.rootKey && Some(k) != s.sendingChainKey && Some(k) != s.receivingChainKey {
      var id :| id in s.cache.skipped && s.cache.skipped[id].messageKey == k;
      var turn := CachedForm(w, p, id);
    }
  }

  lemma ChainMeasures(root: Key, keys: seq<Bytes>, turn: nat, n: nat)
    requires 0 < turn < |keys|
    ensures TurnChain(root, keys, turn).ChainStart?
    ensures TurnChain(root, keys, turn).root == SharedRoot(root, keys, turn - 1)
    ensures var k := Advance(TurnChain(root, keys, turn), n);
      && Depth(k) == Depth(root) + turn && Steps(k) == n && (k.ChainStart? || k.NextChain?)
      && KeyAt(root, keys, turn, n) == MessageKey(k)
  {
    hide SharedRoot;
    SharedRootDepth(root, keys, turn - 1);
    AdvanceMeasures(TurnChain(root, keys, turn), n);
  }

  predicate Measures(w: World, k: Key, turn: nat, number: nat) {
    turn > 0 && Depth(k) == Depth(w.root) + turn && Steps(k) == number
  }

  /** The kinds of keys held, with their measures. */
  lemma HeldMeasures(w: World, p: Party, k: Key)
    requires Inv(w) && Holds(StateOf(w, p), k) && Shaped(w) && OwnTurn(p, w.keys) > 0
    ensures var own, s := OwnTurn(p, w.keys), StateOf(w, p);
      || (k.RootStep? && Depth(k) == Depth(w.root) + own)
      || ((k.ChainStart? || k.NextChain?) && Depth(k) == Depth(w.root) + own && Steps(k) == w.counts[own])
      || (&& own > 1 && (k.ChainStart? || k.NextChain?)
          && Depth(k) == Depth(w.root) + own - 1 && Steps(k) == s.receivedCount)
      || (k.MessageKey? && exists turn, number: nat :: CachedAt(w, p, turn, number) && Measures(w, k, turn, number))
  {
    hide Inv, SharedRoot, TurnChain, KeyAt, Holds;
    var own, s := OwnTurn(p, w.keys), StateOf(w, p);
    HeldHasForm(w, p, k);
    RootIsStep(w, own);
    SharedRootDepth(w.root, w.keys, own);
    ChainMeasures(w.root, w.keys, own, w.counts[own]);
    if own > 1 {
      ChainMeasures(w.root, w.keys, own - 1, s.receivedCount);
    }
    if turn, number: nat :| CachedAt(w, p, turn, number) && k == KeyAt(w.root, w.keys, turn, number) {
      ChainMeasures(w.root, w.keys, turn, number);
    }
  }

  lemma RootIsStep(w: World, own: nat)
    requires 0 < own < |w.keys|
    ensures SharedRoot(w.root, w.keys, own).RootStep?
    ensures SharedRoot(w.root, w.keys, own).root == SharedRoot(w.root, w.keys, own - 1)
  {
  }

  // -------------------------------------------------------------------------
  // What is out of reach
  // -------------------------------------------------------------------------

  /** No earlier root comes back. */
  lemma {:induction false} EarlierRootUnderivable(w: World, p: Party, turn: nat)
    requires Inv(w) && Shaped(w) && turn < OwnTurn(p, w.keys)
    ensures !Derivable(StateOf(w, p), SharedRoot(w.root, w.keys, turn))
  {
    hide Inv, Holds, CachedAt;
    var s := StateOf(w, p);
    var k := SharedRoot(w.root, w.keys, turn);
    SharedRootDepth(w.root, w.keys, turn);
    if turn == 0 {
      forall held | Holds(s, held) ensures Depth(held) > Depth(w.root) {
        HeldMeasures(w, p, held);
      }
      ShallowIsUnderivable(s, k);
    } else {
      RootIsStep(w, turn);
      EarlierRootUnderivable(w, p, turn - 1);
      if Holds(s, k) {
        HeldMeasures(w, p, k);
      }
    }
  }

  /** The position lies behind the party: sent by its own chain already, or used or
      lost by its receiving side. */
  ghost predicate Behind(w: World, p: Party, turn: nat, number: nat)
    requires Shaped(w)
  {
    var own, s := OwnTurn(p, w.keys), StateOf(w, p);
    && 0 < turn <= own
    && (turn == own ==> number < w.counts[own])
    && (turn + 1 == own ==> number < s.receivedCount)
    && !CachedAt(w, p, turn, number)
  }

  lemma BehindIsUnderivable(w: World, p: Party, turn: nat, number: nat)
    requires Inv(w) && Shaped(w) && Behind(w, p, turn, number)
    ensures !Derivable(StateOf(w, p), KeyAt(w.root, w.keys, turn, number))
  {
    hide Inv, Holds, CachedAt, Derivable, SharedRoot, TurnChain, KeyAt;
    var s, start := StateOf(w, p), TurnChain(w.root, w.keys, turn);
    ChainMeasures(w.root, w.keys, turn, number);
    EarlierRootUnderivable(w, p, turn - 1);
    forall j: nat | j <= number ensures !Holds(s, Advance(start, j)) {
      ChainMeasures(w.root, w.keys, turn, j);
      if Holds(s, Advance(start, j)) {
        HeldMeasures(w, p, Advance(start, j));
      }
    }
    var k := MessageKey(Advance(start, number));
    if Holds(s, k) {
      HeldMeasures(w, p, k);
    }
    GoneIsUnderivable(s, start, number);
  }

  lemma {:induction false} AdvanceDerivable(s: Ratchet, chain: Key, n: nat)
    requires Derivable(s, chain)
    ensures Derivable(s, Advance(chain, n))
  {
    hide Holds;
    if n > 0 {
      AdvanceDerivable(s, chain, n - 1);
    }
  }

  lemma LookupDerivable(s: Ratchet, key: Bytes, number: nat)
    requires Lookup(s, key, number).Some?
    ensures Derivable(s, Lookup(s, key, number).value)
  {
    var id := SkippedId(key, number);
    if id !in s.cache.skipped {
      AdvanceDerivable(s, s.receivingChainKey.value, number - s.receivedCount);
    }
  }

  lemma LostIsBehind(w: World, p: Party, turn: nat, number: nat)
    requires Inv(w) && Shaped(w) && turn < |w.keys| && Heard(OwnTurn(p, w.keys), turn)
    requires Lookup(StateOf(w, p), w.keys[turn], number) == None
    ensures Behind(w, p, turn, number)
  {
    hide Inv, Receiver, KeyAt, SharedRoot, TurnChain, GoodKey;
    ReceiverFacts(w, p);
  }

  lemma LookupIsRight(w: World, p: Party, turn: nat, number: nat)
    requires Inv(w) && Shaped(w) && turn < |w.keys| && Lookup(StateOf(w, p), w.keys[turn], number).Some?
    ensures Lookup(StateOf(w, p), w.keys[turn], number) == Some(KeyAt(w.root, w.keys, turn, number))
  {
    hide Inv, CacheOk, NothingAhead, Complete, DoneIsHeard, KeyAt, SharedRoot, TurnChain, GoodKey, Side, Heard, Lookup;
    ReceiverFacts(w, p);
  }

  // -------------------------------------------------------------------------
  // The results
  // -------------------------------------------------------------------------

  /** What a party's keys reveal of its peer's opened turns is exactly what it can
      still decrypt of them. */
  lemma RevealsExactlyTheMap(w: World, p: Party, turn: nat, number: nat)
    requires Reachable(w) && Shaped(w) && turn < |w.keys| && Heard(OwnTurn(p, w.keys), turn)
    ensures Derivable(StateOf(w, p), KeyAt(w.root, w.keys, turn, number))
       <==> Lookup(StateOf(w, p), w.keys[turn], number).Some?
  {
    hide Reachable, Inv, Derivable, KeyAt, Lookup, Heard;
    ReachableInv(w);
    if Lookup(StateOf(w, p), w.keys[turn], number).Some? {
      LookupIsRight(w, p, turn, number);
      LookupDerivable(StateOf(w, p), w.keys[turn], number);
    } else {
      LostIsBehind(w, p, turn, number);
      BehindIsUnderivable(w, p, turn, number);
    }
  }

  /** Forward secrecy: from everything a party holds, with every Diffie-Hellman
      secret known besides, neither the key of a message it has sent nor the key of
      a message delivered to it can be derived. */
  lemma PastKeysUnderivable(w: World, p: Party, q: Packet)
    requires Reachable(w) && q in w.sent
    requires q.from == p || exists d :: d in w.delivered && d.to == p && IdOf(d.header) == IdOf(q.message.header)
    ensures q.message.ciphertext.Sealed? && !Derivable(StateOf(w, p), q.message.ciphertext.key)
  {
    hide Reachable, Inv, Derivable, KeyAt, MessageAd;
    ReachableInv(w);
    var turn := PacketTurn(w, q);
    if q.from == p {
      OwnIsBehind(w, p, turn, q.message.header.messageNumber);
    } else {
      DeliveredIsLost(w, p, q, turn);
      LostIsBehind(w, p, turn, q.message.header.messageNumber);
    }
    BehindIsUnderivable(w, p, turn, q.message.header.messageNumber);
  }

  lemma OwnIsBehind(w: World, p: Party, turn: nat, number: nat)
    requires Shaped(w) && 0 < turn < |w.keys| && Owner(turn) == p && number < w.counts[turn]
    ensures Behind(w, p, turn, number)
  {
  }

  lemma DeliveredIsLost(w: World, p: Party, q: Packet, turn: nat)
    requires Inv(w) && Shaped(w) && 0 < turn < |w.keys| && w.keys[turn] == q.message.header.ratchetPublicKey
    requires exists d :: d in w.delivered && d.to == p && IdOf(d.header) == IdOf(q.message.header)
    ensures Heard(OwnTurn(p, w.keys), turn)
    ensures Lookup(StateOf(w, p), w.keys[turn], q.message.header.messageNumber) == None
  {
    hide Inv, CacheOk, NothingAhead, Complete, KeyAt, SharedRoot, TurnChain, GoodKey, Side, Heard, Lookup, Sound;
    ReceiverFacts(w, p);
    assert IdOf(q.message.header) in Done(w.delivered, p);
    ConsumedIsGone(w.root, w.keys, OwnTurn(p, w.keys), StateOf(w, p), Done(w.delivered, p), IdOf(q.message.header));
  }

  // -------------------------------------------------------------------------
  // Break-in recovery
  // -------------------------------------------------------------------------

  /** A Diffie-Hellman secret that can be computed with one of its two halves. */
  predicate KnownDh(secret: Bytes, dh: Secret) {
    dh.DhShared? && secret in dh.pair
  }

  /** What follows from a stolen state, its ratchet secret included, for someone who
      only listens from then on. */
  predicate Learnt(s: Ratchet, k: Key) {
    || Holds(s, k)
    || match k
       case Handshake(_, _) => false
       case RootStep(r, dh) => Learnt(s, r) && KnownDh(s.sending, dh)
       case ChainStart(r, dh) => Learnt(s, r) && KnownDh(s.sending, dh)
       case NextChain(c) => Learnt(s, c)
       case MessageKey(c) => Learnt(s, c)
  }

  lemma HeldIsShallow(w: World, p: Party, k: Key)
    requires Inv(w) && Shaped(w) && Holds(StateOf(w, p), k)
    ensures Depth(k) <= Depth(w.root) + OwnTurn(p, w.keys)
  {
    hide Inv, SharedRoot, TurnChain, KeyAt, Holds;
    var own, s := OwnTurn(p, w.keys), StateOf(w, p);
    HeldHasForm(w, p, k);
    SharedRootDepth(w.root, w.keys, own);
    if own > 0 {
      ChainMeasures(w.root, w.keys, own, w.counts[own]);
    }
    if own > 1 {
      ChainMeasures(w.root, w.keys, own - 1, s.receivedCount);
    }
    if turn, number: nat :| CachedAt(w, p, turn, number) && k == KeyAt(w.root, w.keys, turn, number) {
      ChainMeasures(w.root, w.keys, turn, number);
    }
  }

  lemma {:induction false} SharedRootPrefix(root: Key, keys: seq<Bytes>, more: seq<Bytes>, turn: nat)
    requires keys <= more && turn < |keys|
    ensures SharedRoot(root, more, turn) == SharedRoot(root, keys, turn)
  {
    if turn > 0 {
      SharedRootPrefix(root, keys, more, turn - 1);
    }
  }

  predicate AllDistinct(keys: seq<Bytes>) {
    forall i, j :: 0 <= i < j < |keys| ==> keys[i] != keys[j]
  }

  /** The own secret opens no step between two other keys. */
  lemma OtherStep(w: World, p: Party, keys: seq<Bytes>, turn: nat)
    requires Inv(w) && Shaped(w) && w.keys <= keys && AllDistinct(keys)
    requires OwnTurn(p, w.keys) + 2 <= turn < |keys|
    ensures turn == OwnTurn(p, w.keys) + 2 ==> !KnownDh(StateOf(w, p).sending, Agreement(keys[turn - 1], keys[turn]))
  {
    hide Inv;
    var own := OwnTurn(p, w.keys);
    ReceiverSending(w, p);
    assert keys[own] == w.keys[own];
  }

  lemma ReceiverSending(w: World, p: Party)
    requires Inv(w) && Shaped(w)
    ensures StateOf(w, p).sending == w.keys[OwnTurn(p, w.keys)]
    ensures StateOf(w, p).rootKey == SharedRoot(w.root, w.keys, OwnTurn(p, w.keys))
  {
    hide Inv, Receiver, SharedRoot, TurnChain, GoodKey;
    ReceiverFacts(w, p);
  }

  lemma {:induction false} LaterRootSafe(w: World, p: Party, keys: seq<Bytes>, turn: nat)
    requires Inv(w) && Shaped(w) && w.keys <= keys && AllDistinct(keys)
    requires OwnTurn(p, w.keys) + 2 <= turn < |keys|
    ensures !Learnt(StateOf(w, p), SharedRoot(w.root, keys, turn))
  {
    hide Inv, Holds, KnownDh, AllDistinct;
    var s, k := StateOf(w, p), SharedRoot(w.root, keys, turn);
    SharedRootDepth(w.root, keys, turn);
    if Holds(s, k) {
      HeldIsShallow(w, p, k);
    }
    OtherStep(w, p, keys, turn);
    if turn > OwnTurn(p, w.keys) + 2 {
      LaterRootSafe(w, p, keys, turn - 1);
    }
  }

  lemma {:induction false} ChainNotLearnt(w: World, p: Party, start: Key, number: nat)
    requires Inv(w) && Shaped(w) && Depth(start) > Depth(w.root) + OwnTurn(p, w.keys)
    requires !Learnt(StateOf(w, p), start)
    ensures !Learnt(StateOf(w, p), Advance(start, number))
    ensures !Learnt(StateOf(w, p), MessageKey(Advance(start, number)))
  {
    hide Inv, Holds;
    var s, chain := StateOf(w, p), Advance(start, number);
    AdvanceMeasures(start, number);
    if Holds(s, chain) {
      HeldIsShallow(w, p, chain);
    }
    if Holds(s, MessageKey(chain)) {
      HeldIsShallow(w, p, MessageKey(chain));
    }
    if number > 0 {
      ChainNotLearnt(w, p, start, number - 1);
    }
  }

  lemma LaterChainSafe(w: World, p: Party, keys: seq<Bytes>, turn: nat)
    requires Inv(w) && Shaped(w) && w.keys <= keys && AllDistinct(keys)
    requires OwnTurn(p, w.keys) + 2 <= turn < |keys|
    ensures !Learnt(StateOf(w, p), TurnChain(w.root, keys, turn))
    ensures Depth(TurnChain(w.root, keys, turn)) > Depth(w.root) + OwnTurn(p, w.keys)
  {
    hide Inv, Holds, KnownDh, AllDistinct, SharedRoot;
    var k := TurnChain(w.root, keys, turn);
    SharedRootDepth(w.root, keys, turn - 1);
    if Holds(StateOf(w, p), k) {
      HeldIsShallow(w, p, k);
    }
    OtherStep(w, p, keys, turn);
    if turn > OwnTurn(p, w.keys) + 2 {
      LaterRootSafe(w, p, keys, turn - 1);
    }
  }

  lemma {:induction false} AdvanceLearnt(s: Ratchet, chain: Key, n: nat)
    requires Learnt(s, chain)
    ensures Learnt(s, Advance(chain, n))
  {
    hide Holds;
    if n > 0 {
      AdvanceLearnt(s, chain, n - 1);
    }
  }

  lemma NextTurnLearnt(w: World, p: Party, keys: seq<Bytes>)
    requires Inv(w) && Shaped(w) && w.keys <= keys && OwnTurn(p, w.keys) + 1 < |keys|
    ensures Learnt(StateOf(w, p), TurnChain(w.root, keys, OwnTurn(p, w.keys) + 1))
  {
    hide Inv, SharedRoot;
    var own, s := OwnTurn(p, w.keys), StateOf(w, p);
    ReceiverSending(w, p);
    SharedRootPrefix(w.root, w.keys, keys, own);
    assert keys[own] == w.keys[own];
    assert Holds(s, s.rootKey);
  }

  /** Break-in recovery: of all turns the conversation takes after a party's own
      current one, a stolen state reveals those messages that belong to the very
      next turn, and no others. `keys` is any continuation of the ratchet keys. */
  lemma RevealsOnlyTheNextTurn(w: World, p: Party, keys: seq<Bytes>, turn: nat, number: nat)
    requires Reachable(w) && Shaped(w) && w.keys <= keys && AllDistinct(keys)
    requires OwnTurn(p, w.keys) < turn < |keys|
    ensures Learnt(StateOf(w, p), KeyAt(w.root, keys, turn, number)) <==> turn == OwnTurn(p, w.keys) + 1
  {
    hide Reachable, Inv, TurnChain, AllDistinct, Holds;
    ReachableInv(w);
    if turn == OwnTurn(p, w.keys) + 1 {
      NextTurnLearnt(w, p, keys);
      AdvanceLearnt(StateOf(w, p), TurnChain(w.root, keys, turn), number);
    } else {
      LaterChainSafe(w, p, keys, turn);
      ChainNotLearnt(w, p, TurnChain(w.root, keys, turn), number);
    }
  }
}
