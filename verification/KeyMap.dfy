/** A receiver's chain and cache refine one simple map: from (ratchet key,
    message number) to the message key the receiver can still produce. */
module KeyMap {
  import opened Wire
  import opened Keys
  import opened DoubleRatchet

  /** The message key this state can produce for a ratchet key and a number. */
  function Lookup(s: Ratchet, key: Bytes, number: nat): Option<Key> {
    var id := SkippedId(key, number);
    if id in s.cache.skipped then Some(s.cache.skipped[id].messageKey)
    else if Receiving(s) && s.receiving.value == key && number >= s.receivedCount then
      Some(MessageKey(Advance(s.receivingChainKey.value, number - s.receivedCount)))
    else None
  }

  /** No cached key lies ahead of the receiving chain under its own ratchet key. */
  ghost predicate NothingAhead(s: Ratchet) {
    forall id :: id in s.cache.skipped && s.receiving == Some(id.ratchetPublicKey)
      ==> id.messageNumber < s.receivedCount
  }

  ghost predicate Coherent(s: Ratchet) {
    CacheOk(s.cache) && NothingAhead(s)
  }

  /** Evictions only ever add to the history, with later sequence numbers. */
  ghost predicate EvictedGrows(s: Ratchet, t: Ratchet) {
    forall id :: id in s.cache.evicted ==> id in t.cache.evicted && s.cache.evicted[id] <= t.cache.evicted[id]
  }

  predicate NewlyEvicted(s: Ratchet, t: Ratchet, id: SkippedId) {
    && id in t.cache.evicted
    && (id in s.cache.evicted ==> s.cache.evicted[id] < t.cache.evicted[id])
  }

  /** Between `s` and `t` a pair kept its key, or lost it to eviction. */
  predicate Kept(s: Ratchet, t: Ratchet, key: Bytes, number: nat) {
    || Lookup(t, key, number) == Lookup(s, key, number)
    || (Lookup(t, key, number) == None && NewlyEvicted(s, t, SkippedId(key, number)))
  }

  ghost predicate OnlyEvicted(s: Ratchet, t: Ratchet) {
    && EvictedGrows(s, t)
    && forall key, number: nat :: Kept(s, t, key, number)
  }

  lemma OnlyEvictedTransitive(s: Ratchet, t: Ratchet, u: Ratchet)
    requires OnlyEvicted(s, t) && OnlyEvicted(t, u)
    ensures OnlyEvicted(s, u)
  {
    forall key, number: nat ensures Kept(s, u, key, number) {
      assert Kept(s, t, key, number) && Kept(t, u, key, number);
    }
  }

  // -------------------------------------------------------------------------
  // Catching up
  // -------------------------------------------------------------------------

  lemma SkipOneKeeps(s: Ratchet, key: Bytes, number: nat)
    requires Receiving(s) && Coherent(s)
    ensures Kept(s, SkipOne(s), key, number)
  {
    var chain := s.receivingChainKey.value;
    if key == s.receiving.value && number > s.receivedCount {
      AdvanceSum(chain, 1, number - s.receivedCount - 1);
      assert Advance(chain, 1) == NextChain(chain);
    }
  }

  lemma SkipOneCoherent(s: Ratchet)
    requires Receiving(s) && Coherent(s)
    ensures Coherent(SkipOne(s)) && EvictedGrows(s, SkipOne(s))
  {
    RememberKeepsCache(s.cache, SkippedId(s.receiving.value, s.receivedCount), MessageKey(s.receivingChainKey.value));
  }

  lemma {:induction false} SkipToKeeps(s: Ratchet, until: nat)
    requires Receiving(s) && Coherent(s)
    ensures Coherent(SkipTo(s, until)) && OnlyEvicted(s, SkipTo(s, until))
    decreases until - s.receivedCount
  {
    hide SkipOne, CacheOk, Lookup, NewlyEvicted;
    if s.receivedCount < until {
      var one := SkipOne(s);
      SkipOneFrame(s);
      SkipOneCoherent(s);
      forall key, number: nat ensures Kept(s, one, key, number) {
        SkipOneKeeps(s, key, number);
      }
      SkipToKeeps(one, until);
      OnlyEvictedTransitive(s, one, SkipTo(one, until));
    }
  }

  /** Catching up leaves the map unchanged, up to evictions. */
  lemma SkipKeepsMap(s: Ratchet, until: nat)
    requires Coherent(s)
    ensures Coherent(Skip(s, until)) && OnlyEvicted(s, Skip(s, until))
  {
    if Receiving(s) {
      SkipToKeeps(s, until);
    }
  }

  /** How many keys catching up to `until` would cache. */
  function Gap(s: Ratchet, until: nat): nat {
    if Receiving(s) && until > s.receivedCount then until - s.receivedCount else 0
  }

  predicate HasRoom(s: Ratchet, until: nat) {
    |s.cache.skipped| + Gap(s, until) <= MAX_SKIPPED_KEYS
  }

  /** While the cache has room nothing is evicted at all. */
  lemma {:induction false} SkipToWithRoom(s: Ratchet, until: nat)
    requires Receiving(s) && HasRoom(s, until)
    ensures SkipTo(s, until).cache.evicted == s.cache.evicted
    decreases until - s.receivedCount
  {
    if s.receivedCount < until {
      InsertSize(s.cache.skipped, SkippedId(s.receiving.value, s.receivedCount),
                 SkippedKey(s.cache.next, MessageKey(s.receivingChainKey.value)));
      SkipToWithRoom(SkipOne(s), until);
    }
  }

  lemma SkipWithRoom(s: Ratchet, until: nat)
    requires HasRoom(s, until)
    ensures Skip(s, until).cache.evicted == s.cache.evicted
  {
    if Receiving(s) {
      SkipToWithRoom(s, until);
    }
  }

  // -------------------------------------------------------------------------
  // The Diffie-Hellman ratchet step
  // -------------------------------------------------------------------------

  /** The old receiving chain is closed at `previousChainLength`: a number at or
      beyond both it and what was already received is given up. */
  predicate GivenUp(s: Ratchet, h: Header, key: Bytes, number: nat) {
    && Receiving(s) && s.receiving.value == key
    && number >= s.receivedCount && number >= h.previousChainLength
  }

  /** A ratchet step keeps every pair of the old map except the ones it gives
      up (and evictions), and opens the whole new chain. */
  lemma TurnMap(s: Ratchet, h: Header, newKey: Bytes, key: Bytes, number: nat)
    requires Coherent(s) && s.receiving != Some(h.ratchetPublicKey)
    ensures var t := Turn(s, h, newKey);
      && (key != h.ratchetPublicKey && !GivenUp(s, h, key, number) ==> Kept(s, t, key, number))
      && (key != h.ratchetPublicKey && GivenUp(s, h, key, number) ==> Lookup(t, key, number) == None)
      && (key == h.ratchetPublicKey && SkippedId(key, number) !in t.cache.skipped ==>
            Lookup(t, key, number)
              == Some(MessageKey(Advance(ChainStart(s.rootKey, Agreement(s.sending, key)), number))))
  {
    var closed := Skip(s, h.previousChainLength);
    SkipFrame(s, h.previousChainLength);
    SkipKeepsMap(s, h.previousChainLength);
    assert Kept(s, closed, key, number);
    assert Turn(s, h, newKey).cache == closed.cache;
  }

  /** A step to a ratchet key with nothing cached under it is coherent again. */
  lemma TurnCoherent(s: Ratchet, h: Header, newKey: Bytes)
    requires Coherent(s) && s.receiving != Some(h.ratchetPublicKey)
    requires forall number: nat :: Lookup(s, h.ratchetPublicKey, number) == None
    ensures Coherent(Turn(s, h, newKey)) && EvictedGrows(s, Turn(s, h, newKey))
  {
    var closed := Skip(s, h.previousChainLength);
    SkipFrame(s, h.previousChainLength);
    SkipKeepsMap(s, h.previousChainLength);
    var t := Turn(s, h, newKey);
    forall id | id in t.cache.skipped ensures id.ratchetPublicKey != h.ratchetPublicKey {
      assert Kept(s, closed, id.ratchetPublicKey, id.messageNumber);
    }
  }

  // -------------------------------------------------------------------------
  // Decryption against the map
  // -------------------------------------------------------------------------

  /** The state `Decrypt` works on once a possible ratchet step is done. */
  ghost function Prepared(s: Ratchet, h: Header, newKey: Bytes): Ratchet {
    if StartsTurn(s, h) then Turn(s, h, newKey) else s
  }

  /** The gap up to this message is one the receiver is willing to close. */
  predicate WithinReach(s: Ratchet, h: Header) {
    Cached(s, h) || WithinSkip(s, h.messageNumber)
  }

  /** What a receiver that simply held the map would answer. */
  function MapAnswer(s: Ratchet, m: Message): Option<Bytes> {
    if |m.header.ratchetPublicKey| != X25519_PUBLIC_LEN || !WithinReach(s, m.header) then None
    else
      match Lookup(s, m.header.ratchetPublicKey, m.header.messageNumber)
      case None => None
      case Some(k) => Open(k, m.ciphertext, MessageAd(s.associatedData, m.header))
  }

  /** The map of `t` is that of `s` without the pair named by `h`. */
  ghost predicate RemovesOnly(s: Ratchet, t: Ratchet, h: Header) {
    && EvictedGrows(s, t)
    && Lookup(t, h.ratchetPublicKey, h.messageNumber) == None
    && forall key, number: nat :: key != h.ratchetPublicKey || number != h.messageNumber
         ==> Kept(s, t, key, number)
  }

  /** The receiving chain only ever steps forward. */
  predicate ChainForward(s: Ratchet, t: Ratchet) {
    if Receiving(s) then
      && t.receivedCount >= s.receivedCount
      && t.receivingChainKey == Some(Advance(s.receivingChainKey.value, t.receivedCount - s.receivedCount))
    else t.receivingChainKey == s.receivingChainKey && t.receivedCount == s.receivedCount
  }

  /** What one decryption does, seen through the map. */
  ghost predicate MapStep(s: Ratchet, m: Message, t: Ratchet, out: Outcome) {
    && Coherent(t) && SameButReceived(s, t) && ChainForward(s, t)
    && (MapAnswer(s, m) == None ==> out.Refused? && OnlyEvicted(s, t))
    && (forall p :: MapAnswer(s, m) == Some(p) ==> out == Plain(p) && RemovesOnly(s, t, m.header))
  }

  lemma DecryptCachedMap(s: Ratchet, m: Message)
    requires Coherent(s) && Cached(s, m.header) && |m.header.ratchetPublicKey| == X25519_PUBLIC_LEN
    ensures MapStep(s, m, DecryptCached(s, m).0, DecryptCached(s, m).1)
  {
    hide MessageAd, CacheOk, NothingAhead, RemovesOnly;
    ForgetMap(s, m.header);
  }

  /** Consuming a cached key removes exactly that pair. */
  lemma ForgetMap(s: Ratchet, h: Header)
    requires Coherent(s) && Cached(s, h)
    ensures var t := s.(cache := Forget(s.cache, SkippedId(h.ratchetPublicKey, h.messageNumber)));
      Coherent(t) && RemovesOnly(s, t, h)
  {
    hide CacheOk, EvictedAreOlder;
    var id := SkippedId(h.ratchetPublicKey, h.messageNumber);
    ForgetKeepsCache(s.cache, id);
    var t := s.(cache := Forget(s.cache, id));
    forall key, number: nat | key != h.ratchetPublicKey || number != h.messageNumber
      ensures Kept(s, t, key, number)
    {
      assert SkippedId(key, number) != id;
    }
  }

  lemma DecryptCurrentForward(s: Ratchet, m: Message)
    requires s.receiving.Some?
    ensures SameButReceived(s, DecryptCurrent(s, m).0) && ChainForward(s, DecryptCurrent(s, m).0)
  {
    hide MessageAd, Skip;
    SkipFrame(s, m.header.messageNumber);
  }

  lemma DecryptCurrentMap(s: Ratchet, m: Message)
    requires Coherent(s) && !Cached(s, m.header) && |m.header.ratchetPublicKey| == X25519_PUBLIC_LEN
    requires s.receiving == Some(m.header.ratchetPublicKey)
    ensures MapStep(s, m, DecryptCurrent(s, m).0, DecryptCurrent(s, m).1)
  {
    hide MessageAd, CacheOk, NewlyEvicted, SameButReceived, ChainForward, RemovesOnly;
    var key, number := m.header.ratchetPublicKey, m.header.messageNumber;
    DecryptCurrentForward(s, m);
    if Receiving(s) && WithinSkip(s, number) {
      var t := Skip(s, number);
      SkipFrame(s, number);
      SkipKeepsMap(s, number);
      if number >= s.receivedCount {
        assert Kept(s, t, key, number);
        if MapAnswer(s, m).Some? {
          AdvanceOneMap(t, m.header);
          RemovesOnlyAfter(s, t, DecryptCurrent(s, m).0, m.header);
        }
      }
    }
  }

  lemma RemovesOnlyAfter(s: Ratchet, t: Ratchet, u: Ratchet, h: Header)
    requires OnlyEvicted(s, t) && RemovesOnly(t, u, h)
    ensures RemovesOnly(s, u, h)
  {
    forall key, number: nat | key != h.ratchetPublicKey || number != h.messageNumber
      ensures Kept(s, u, key, number)
    {
      assert Kept(s, t, key, number) && Kept(t, u, key, number);
    }
  }

  /** Consuming the next key of the chain removes exactly that pair. */
  lemma AdvanceOneMap(s: Ratchet, h: Header)
    requires Coherent(s) && Receiving(s) && s.receiving.value == h.ratchetPublicKey
    requires h.messageNumber == s.receivedCount
    ensures var t := s.(receivingChainKey := Some(NextChain(s.receivingChainKey.value)),
                        receivedCount := s.receivedCount + 1);
      Coherent(t) && RemovesOnly(s, t, h)
  {
    var chain := s.receivingChainKey.value;
    var t := s.(receivingChainKey := Some(NextChain(chain)), receivedCount := s.receivedCount + 1);
    forall key, number: nat | key != h.ratchetPublicKey || number != h.messageNumber
      ensures Kept(s, t, key, number)
    {
      if key == h.ratchetPublicKey && number > s.receivedCount {
        AdvanceSum(chain, 1, number - s.receivedCount - 1);
        assert Advance(chain, 1) == NextChain(chain);
      }
    }
  }

  /** Chain plus cache answer every message exactly as the map would, and a
      successful decryption removes exactly the pair it used. A ratchet step, if
      the header starts one, happens first. */
  lemma DecryptRefinesMap(s: Ratchet, m: Message, newKey: Bytes)
    requires Coherent(s)
    requires StartsTurn(s, m.header) ==>
               forall number: nat :: Lookup(s, m.header.ratchetPublicKey, number) == None
    ensures MapStep(Prepared(s, m.header, newKey), m, Decrypt(s, m, newKey).0, Decrypt(s, m, newKey).1)
  {
    hide CacheOk, MessageAd, NewlyEvicted, RemovesOnly, Turn, DecryptCached, DecryptCurrent;
    var h := m.header;
    if |h.ratchetPublicKey| != X25519_PUBLIC_LEN {
    } else if Cached(s, h) {
      DecryptCachedMap(s, m);
    } else if StartsTurn(s, h) {
      var t := Turn(s, h, newKey);
      TurnCoherent(s, h, newKey);
      assert t.receiving == Some(h.ratchetPublicKey) && t.receivedCount == 0 by { TurnReceives(s, h, newKey); }
      DecryptCurrentMap(t, m);
    } else if s.receiving == Some(h.ratchetPublicKey) {
      DecryptCurrentMap(s, m);
    }
  }

  lemma TurnReceives(s: Ratchet, h: Header, newKey: Bytes)
    ensures Turn(s, h, newKey).receiving == Some(h.ratchetPublicKey)
    ensures Turn(s, h, newKey).receivedCount == 0
  {
  }

  /** A refused message whose header starts no ratchet step costs nothing but
      evictions, and with room in the cache nothing at all: every message that
      could be decrypted before still can be. */
  lemma HarmlessRejection(s: Ratchet, m: Message, newKey: Bytes, later: Message)
    requires Coherent(s) && !StartsTurn(s, m.header)
    requires Decrypt(s, m, newKey).1.Refused?
    ensures var t := Decrypt(s, m, newKey).0;
      && Coherent(t) && SameButReceived(s, t) && OnlyEvicted(s, t)
      && (HasRoom(s, m.header.messageNumber) ==>
            && Lookup(t, later.header.ratchetPublicKey, later.header.messageNumber)
               == Lookup(s, later.header.ratchetPublicKey, later.header.messageNumber)
            && (MapAnswer(s, later).Some? ==> MapAnswer(t, later) == MapAnswer(s, later)))
  {
    hide CacheOk, MessageAd;
    var t := Decrypt(s, m, newKey).0;
    DecryptRefinesMap(s, m, newKey);
    assert MapAnswer(s, m) == None;
    var key, number := later.header.ratchetPublicKey, later.header.messageNumber;
    assert Kept(s, t, key, number);
    RejectedIsSkipped(s, m, newKey);
    SkipFrame(s, m.header.messageNumber);
    if HasRoom(s, m.header.messageNumber) {
      SkipWithRoom(s, m.header.messageNumber);
      assert !NewlyEvicted(s, t, SkippedId(key, number));
    }
  }

  /** All that a refused message without a ratchet step can have done is to
      catch up towards its claimed number. */
  lemma RejectedIsSkipped(s: Ratchet, m: Message, newKey: Bytes)
    requires !StartsTurn(s, m.header) && Decrypt(s, m, newKey).1.Refused?
    ensures Decrypt(s, m, newKey).0 == s || Decrypt(s, m, newKey).0 == Skip(s, m.header.messageNumber)
  {
    hide MessageAd, Skip;
  }

  /** The exact condition under which a refused message leaves the root key, and
      with it both chains' lineage, alone: its header starts no ratchet step. */
  lemma RejectionKeepsRootIff(s: Ratchet, m: Message, newKey: Bytes)
    requires Decrypt(s, m, newKey).1.Refused?
    ensures Decrypt(s, m, newKey).0.rootKey == s.rootKey <==> !StartsTurn(s, m.header)
  {
    hide MessageAd, Skip;
    if StartsTurn(s, m.header) {
      var t := Turn(s, m.header, newKey);
      SkipFrame(s, m.header.previousChainLength);
      SkipFrame(t, m.header.messageNumber);
      assert Decrypt(s, m, newKey).0.rootKey == t.rootKey;
      assert Depth(t.rootKey) == Depth(s.rootKey) + 2;
    } else {
      RejectedIsSkipped(s, m, newKey);
      SkipFrame(s, m.header.messageNumber);
    }
  }
}
