/** What a message can cost its receiver, and why one is refused: the limits on
    catching up and on the cache, and the exact reason and effect of each refusal. */
module Bounds {
  import opened Wire
  import opened Keys
  import opened DoubleRatchet
  import opened KeyMap

  // -------------------------------------------------------------------------
  // Eviction
  // -------------------------------------------------------------------------

  function Least(a: nat, b: nat): nat {
    if a < b then a else b
  }

  /** At most `gone` is missing from `d`, and it was the oldest in `c`. */
  ghost predicate DropsOnly(c: Cache, d: Cache, gone: SkippedId) {
    && IsOldest(c.skipped, gone)
    && c.skipped.Keys - d.skipped.Keys <= {gone} && d.evicted.Keys == c.evicted.Keys + {gone}
  }

  /** Remembering a key drops nothing while there is room, and otherwise at most the
      oldest one. Whatever else was cached stays as it was. */
  lemma RememberDropsAtMostOldest(c: Cache, id: SkippedId, messageKey: Key)
    ensures var r := Remember(c, id, messageKey);
      && id in r.skipped && r.skipped[id].messageKey == messageKey
      && (forall other :: other in r.skipped && other != id ==>
            other in c.skipped && r.skipped[other] == c.skipped[other])
      && (|c.skipped| < MAX_SKIPPED_KEYS ==> c.skipped.Keys <= r.skipped.Keys && r.evicted == c.evicted)
      && (|c.skipped| >= MAX_SKIPPED_KEYS ==>
            exists gone :: DropsOnly(c, r, gone))
  {
    if |c.skipped| >= MAX_SKIPPED_KEYS {
      assert DropsOnly(c, Remember(c, id, messageKey), OldestId(c.skipped));
    }
  }

  lemma RememberNewSize(c: Cache, id: SkippedId, messageKey: Key)
    requires |c.skipped| <= MAX_SKIPPED_KEYS && id !in c.skipped
    ensures |Remember(c, id, messageKey).skipped| == Least(MAX_SKIPPED_KEYS, |c.skipped| + 1)
  {
    if |c.skipped| >= MAX_SKIPPED_KEYS {
      var gone := OldestId(c.skipped);
      RemoveSize(c.skipped, gone);
      NewSize(c.skipped - {gone}, id, SkippedKey(c.next, messageKey));
    } else {
      NewSize(c.skipped, id, SkippedKey(c.next, messageKey));
    }
  }

  lemma NewSize(skipped: map<SkippedId, SkippedKey>, id: SkippedId, entry: SkippedKey)
    requires id !in skipped
    ensures |skipped[id := entry]| == |skipped| + 1
  {
    var more := skipped[id := entry];
    assert more.Keys == skipped.Keys + {id};
    assert |skipped| == |skipped.Keys| && |more| == |more.Keys|;
  }

  lemma MissingAdds(a: set<SkippedId>, b: set<SkippedId>, c: set<SkippedId>)
    ensures |a - c| <= |a - b| + |b - c|
  {
    var both := (a - b) + (b - c);
    assert |both| <= |a - b| + |b - c|;
    Subset(a - c, both);
  }

  lemma {:induction false} Subset(a: set<SkippedId>, b: set<SkippedId>)
    requires a <= b
    ensures |a| <= |b|
  {
    if a != {} {
      var x :| x in a;
      Subset(a - {x}, b - {x});
    }
  }

  function Excess(s: Ratchet, until: nat): nat {
    var wanted := |s.cache.skipped| + Gap(s, until);
    if wanted > MAX_SKIPPED_KEYS then wanted - MAX_SKIPPED_KEYS else 0
  }

  lemma SkipOneMissing(s: Ratchet)
    requires Receiving(s) && CacheOk(s.cache)
    ensures |s.cache.skipped.Keys - SkipOne(s).cache.skipped.Keys|
         <= if |s.cache.skipped| < MAX_SKIPPED_KEYS then 0 else 1
  {
    hide CacheOk, Remember;
    var id, key := SkippedId(s.receiving.value, s.receivedCount), MessageKey(s.receivingChainKey.value);
    RememberDropsAtMostOldest(s.cache, id, key);
    SkipOneCache(s);
    var r := Remember(s.cache, id, key);
    if |s.cache.skipped| < MAX_SKIPPED_KEYS {
      assert s.cache.skipped.Keys - r.skipped.Keys == {};
    } else {
      var gone :| DropsOnly(s.cache, r, gone);
      Subset(s.cache.skipped.Keys - r.skipped.Keys, {gone});
    }
  }

  lemma SkipOneSize(s: Ratchet)
    requires Receiving(s) && Coherent(s)
    ensures |SkipOne(s).cache.skipped| == Least(MAX_SKIPPED_KEYS, |s.cache.skipped| + 1)
  {
    SkipOneCache(s);
    RememberNewSize(s.cache, SkippedId(s.receiving.value, s.receivedCount), MessageKey(s.receivingChainKey.value));
  }

  lemma {:induction false} SkipToSize(s: Ratchet, until: nat)
    requires Receiving(s) && Coherent(s)
    ensures |SkipTo(s, until).cache.skipped| == Least(MAX_SKIPPED_KEYS, |s.cache.skipped| + Gap(s, until))
    ensures |s.cache.skipped.Keys - SkipTo(s, until).cache.skipped.Keys| <= Excess(s, until)
    decreases until - s.receivedCount
  {
    if s.receivedCount < until {
      SkipOneCoherent(s);
      SkipOneFrame(s);
      SkipOneSize(s);
      SkipOneMissing(s);
      assert |s.cache.skipped| <= MAX_SKIPPED_KEYS;
      hide SkipOne, CacheOk;
      var one := SkipOne(s);
      SkipToSize(one, until);
      MissingAdds(s.cache.skipped.Keys, one.cache.skipped.Keys, SkipTo(one, until).cache.skipped.Keys);
    } else {
      assert s.cache.skipped.Keys - s.cache.skipped.Keys == {};
      assert |s.cache.skipped| <= MAX_SKIPPED_KEYS;
    }
  }

  lemma SkipOneCache(s: Ratchet)
    requires Receiving(s)
    ensures SkipOne(s).cache
         == Remember(s.cache, SkippedId(s.receiving.value, s.receivedCount), MessageKey(s.receivingChainKey.value))
  {
  }

  /** Catching up drops exactly as many keys as do not fit: the cache ends up with
      everything it held and everything skipped, or is full, and of what it held at
      most the excess is missing. */
  lemma SkipDropsNoMore(s: Ratchet, until: nat)
    requires Coherent(s)
    ensures |Skip(s, until).cache.skipped| == Least(MAX_SKIPPED_KEYS, |s.cache.skipped| + Gap(s, until))
    ensures |s.cache.skipped.Keys - Skip(s, until).cache.skipped.Keys| <= Excess(s, until)
  {
    if Receiving(s) {
      SkipToSize(s, until);
    } else {
      assert s.cache.skipped.Keys - s.cache.skipped.Keys == {};
    }
  }

  /** Between `c` and `d` something was evicted only if the cache is full in the end,
      up to one entry. */
  ghost predicate EvictsOnlyFull(c: Cache, d: Cache) {
    d.evicted != c.evicted ==> |d.skipped| >= MAX_SKIPPED_KEYS - 1
  }

  lemma RememberEvictsFull(c: Cache, id: SkippedId, messageKey: Key)
    requires |c.skipped| <= MAX_SKIPPED_KEYS
    ensures var r := Remember(c, id, messageKey);
      && EvictsOnlyFull(c, r)
      && (|c.skipped| >= MAX_SKIPPED_KEYS - 1 ==> |r.skipped| >= MAX_SKIPPED_KEYS - 1)
  {
    var room := MakeRoom(c);
    if |c.skipped| >= MAX_SKIPPED_KEYS {
      RemoveSize(c.skipped, OldestId(c.skipped));
    }
    if id !in room.skipped {
      NewSize(room.skipped, id, SkippedKey(c.next, messageKey));
    } else {
      SameSize(room.skipped, id, SkippedKey(c.next, messageKey));
    }
  }

  lemma SameSize(skipped: map<SkippedId, SkippedKey>, id: SkippedId, entry: SkippedKey)
    requires id in skipped
    ensures |skipped[id := entry]| == |skipped|
  {
    var more := skipped[id := entry];
    assert more.Keys == skipped.Keys;
    assert |skipped| == |skipped.Keys| && |more| == |more.Keys|;
  }

  lemma {:induction false} SkipToEvictsFull(s: Ratchet, until: nat)
    requires Receiving(s) && CacheOk(s.cache)
    ensures var t := SkipTo(s, until);
      && CacheOk(t.cache) && EvictsOnlyFull(s.cache, t.cache)
      && (|s.cache.skipped| >= MAX_SKIPPED_KEYS - 1 ==> |t.cache.skipped| >= MAX_SKIPPED_KEYS - 1)
    decreases until - s.receivedCount
  {
    if s.receivedCount < until {
      var id, key := SkippedId(s.receiving.value, s.receivedCount), MessageKey(s.receivingChainKey.value);
      RememberKeepsCache(s.cache, id, key);
      RememberEvictsFull(s.cache, id, key);
      SkipOneCache(s);
      SkipOneFrame(s);
      hide SkipOne, CacheOk, Remember;
      SkipToEvictsFull(SkipOne(s), until);
    }
  }

  lemma SkipEvictsFull(s: Ratchet, until: nat)
    requires CacheOk(s.cache)
    ensures var t := Skip(s, until);
      && CacheOk(t.cache) && EvictsOnlyFull(s.cache, t.cache)
      && (|s.cache.skipped| >= MAX_SKIPPED_KEYS - 1 ==> |t.cache.skipped| >= MAX_SKIPPED_KEYS - 1)
  {
    if Receiving(s) {
      SkipToEvictsFull(s, until);
    }
  }

  /** Whatever message arrives, in whatever state: a key is evicted only if the
      cache ends up full, up to the one entry that an overwritten id may free. */
  lemma DecryptEvictsFull(s: Ratchet, m: Message, newKey: Bytes)
    requires CacheOk(s.cache)
    ensures EvictsOnlyFull(s.cache, Decrypt(s, m, newKey).0.cache)
  {
    hide CacheOk, Skip, MessageAd, Degenerate, EvictsOnlyFull;
    SkipEvictsFull(s, m.header.previousChainLength);
    SkipEvictsFull(s, m.header.messageNumber);
    var b := Turn(s, m.header, newKey);
    SkipEvictsFull(b, m.header.messageNumber);
    var (c, d, e) := (s.cache, b.cache, Skip(b, m.header.messageNumber).cache);
    FullTwice(c, d, e);
    NothingEvicted(s.cache, Decrypt(s, m, newKey).0.cache);
  }

  lemma NothingEvicted(c: Cache, d: Cache)
    ensures d.evicted == c.evicted ==> EvictsOnlyFull(c, d)
  {
  }

  lemma FullTwice(c: Cache, d: Cache, e: Cache)
    requires EvictsOnlyFull(c, d) && EvictsOnlyFull(d, e)
    requires |d.skipped| >= MAX_SKIPPED_KEYS - 1 ==> |e.skipped| >= MAX_SKIPPED_KEYS - 1
    ensures EvictsOnlyFull(c, e)
  {
  }

  // -------------------------------------------------------------------------
  // Work
  // -------------------------------------------------------------------------

  lemma {:induction false} SkipToWork(s: Ratchet, until: nat)
    requires Receiving(s)
    ensures SkipTo(s, until).cache.next == s.cache.next + Gap(s, until)
    decreases until - s.receivedCount
  {
    if s.receivedCount < until {
      SkipOneFrame(s);
      SkipToWork(SkipOne(s), until);
    }
  }

  lemma SkipWork(s: Ratchet, until: nat)
    ensures Skip(s, until).cache.next == s.cache.next + Gap(s, until)
  {
    if Receiving(s) {
      SkipToWork(s, until);
    }
  }

  /** No message makes the receiver derive more than MAX_SKIP_PER_CHAIN skipped keys
      in one chain, hence twice as many if it also closes a chain. */
  lemma WorkBounded(s: Ratchet, m: Message, newKey: Bytes)
    ensures var t := Decrypt(s, m, newKey).0;
      s.cache.next <= t.cache.next
      <= s.cache.next + if StartsTurn(s, m.header) then 2 * MAX_SKIP_PER_CHAIN else MAX_SKIP_PER_CHAIN
  {
    hide Skip, MessageAd, Degenerate;
    SkipWork(s, m.header.previousChainLength);
    SkipWork(s, m.header.messageNumber);
    SkipFrame(s, m.header.previousChainLength);
    SkipWork(Turn(s, m.header, newKey), m.header.messageNumber);
  }

  // -------------------------------------------------------------------------
  // The size of the cache
  // -------------------------------------------------------------------------

  /** `t` holds what `s` held and what was cached since, up to the limit. */
  predicate Grown(s: Ratchet, t: Ratchet) {
    && s.cache.next <= t.cache.next
    && |t.cache.skipped| == Least(MAX_SKIPPED_KEYS, |s.cache.skipped| + t.cache.next - s.cache.next)
  }

  lemma SkipGrows(s: Ratchet, until: nat)
    requires Coherent(s)
    ensures Grown(s, Skip(s, until))
  {
    SkipDropsNoMore(s, until);
    SkipWork(s, until);
  }

  lemma GrownTwice(s: Ratchet, t: Ratchet, u: Ratchet)
    requires Grown(s, t) && Grown(t, u)
    ensures Grown(s, u)
  {
  }

  lemma SameCacheGrown(s: Ratchet, t: Ratchet)
    requires CacheOk(s.cache)
    ensures t.cache == s.cache ==> Grown(s, t)
  {
  }

  lemma CurrentGrows(s: Ratchet, m: Message)
    requires Coherent(s)
    ensures Grown(s, DecryptCurrent(s, m).0)
  {
    hide Skip, MessageAd, Grown, CacheOk;
    var u := Skip(s, m.header.messageNumber);
    SkipGrows(s, m.header.messageNumber);
    SameCacheGrown(s, DecryptCurrent(s, m).0);
    SameGrown(s, u, DecryptCurrent(s, m).0);
  }

  lemma SameGrown(s: Ratchet, t: Ratchet, u: Ratchet)
    requires Grown(s, t)
    ensures u.cache == t.cache ==> Grown(s, u)
  {
  }

  lemma TurnGrows(s: Ratchet, h: Header, newKey: Bytes)
    requires Coherent(s)
    ensures Grown(s, Turn(s, h, newKey))
  {
    hide Skip, Grown;
    SkipGrows(s, h.previousChainLength);
    SameGrown(s, Skip(s, h.previousChainLength), Turn(s, h, newKey));
  }

  /** The cache after any message holds what it held and every key cached meanwhile,
      up to the limit, less the cached key that was used, if one was. */
  lemma CacheSizeLaw(s: Ratchet, m: Message, newKey: Bytes)
    requires Coherent(s)
    requires StartsTurn(s, m.header) ==>
               forall number: nat :: Lookup(s, m.header.ratchetPublicKey, number) == None
    ensures var (t, out) := Decrypt(s, m, newKey);
      if Cached(s, m.header) && out.Plain?
      then |t.cache.skipped| == |s.cache.skipped| - 1 && t.cache.next == s.cache.next
      else Grown(s, t)
  {
    hide Grown, MessageAd, DecryptCurrent, Turn, CacheOk, NothingAhead;
    var t := Decrypt(s, m, newKey).0;
    SameCacheGrown(s, t) by { CoherentCache(s); }
    if Cached(s, m.header) {
      RemoveSize(s.cache.skipped, SkippedId(m.header.ratchetPublicKey, m.header.messageNumber));
    } else if StartsTurn(s, m.header) {
      var b := Turn(s, m.header, newKey);
      TurnCoherent(s, m.header, newKey);
      TurnGrows(s, m.header, newKey);
      CurrentGrows(b, m);
      GrownTwice(s, b, DecryptCurrent(b, m).0);
    } else {
      CurrentGrows(s, m);
    }
  }

  lemma CoherentCache(s: Ratchet)
    requires Coherent(s)
    ensures CacheOk(s.cache)
  {
  }

  // -------------------------------------------------------------------------
  // Refusals
  // -------------------------------------------------------------------------

  /** The number lies further ahead in the current chain than may be skipped. */
  predicate TooFar(s: Ratchet, number: nat) {
    s.receivingChainKey.Some? && s.receiving.Some? && number > s.receivedCount + MAX_SKIP_PER_CHAIN
  }

  /** The reason of every refusal, from the state and the header alone, except that
      authentication is what remains. */
  lemma RefusalReasons(s: Ratchet, m: Message, newKey: Bytes)
    ensures var out := Decrypt(s, m, newKey).1;
      var h := m.header;
      var current := s.receiving == Some(h.ratchetPublicKey);
      var fits := |h.ratchetPublicKey| == X25519_PUBLIC_LEN;
      && (out == Refused(WrongKeyLength) <==> !fits)
      && (out == Refused(DegenerateKey) <==> fits && !Cached(s, h) && !current && Degenerate(h.ratchetPublicKey))
      && (out == Refused(TooManySkipped) <==>
            && fits && !Cached(s, h)
            && if current then TooFar(s, h.messageNumber)
               else && !Degenerate(h.ratchetPublicKey)
                    && (TooFar(s, h.previousChainLength) || h.messageNumber > MAX_SKIP_PER_CHAIN))
      && (out == Refused(NoReceivingChain) <==> fits && !Cached(s, h) && current && s.receivingChainKey.None?)
      && (out == Refused(AlreadyConsumed) <==>
            fits && !Cached(s, h) && current && s.receivingChainKey.Some? && h.messageNumber < s.receivedCount)
      && out != Refused(NoSendingChain) && out != Refused(CounterOutOfRange)
  {
    hide Skip, MessageAd, Degenerate;
    SkipFrame(s, m.header.previousChainLength);
    SkipFrame(s, m.header.messageNumber);
    SkipFrame(Turn(s, m.header, newKey), m.header.messageNumber);
  }

  /** What a refusal leaves behind: nothing has changed unless authentication failed
      in the chain, which leaves the receiver caught up, or a ratchet step was
      committed before. */
  lemma RefusalEffects(s: Ratchet, m: Message, newKey: Bytes)
    requires Decrypt(s, m, newKey).1.Refused?
    ensures var (t, out) := Decrypt(s, m, newKey);
      var b := if StartsTurn(s, m.header) then Turn(s, m.header, newKey) else s;
      t == if out == Refused(AuthenticationFailed) && !Cached(s, m.header) then Skip(b, m.header.messageNumber) else b
  {
    hide Skip, MessageAd, Degenerate, Turn;
    var b := Turn(s, m.header, newKey);
    TurnReceives(s, m.header, newKey);
    SkipBack(s, m.header.messageNumber);
    SkipFrame(s, m.header.messageNumber);
    SkipFrame(b, m.header.messageNumber);
    TurnChains(s, m.header, newKey);
  }

  lemma TurnChains(s: Ratchet, h: Header, newKey: Bytes)
    ensures Turn(s, h, newKey).receivingChainKey.Some?
  {
  }

  lemma SkipBack(s: Ratchet, until: nat)
    ensures until <= s.receivedCount ==> Skip(s, until) == s
  {
  }

  /** A party can send exactly if it has a sending chain and its counters fit. */
  lemma SendsIff(s: Ratchet, plaintext: Bytes)
    ensures var (t, r) := Encrypt(s, plaintext);
      && (r == NotSent(NoSendingChain) <==> s.sendingChainKey.None?)
      && (r.Sent? <==> s.sendingChainKey.Some? && s.sentCount < 0x1_0000_0000 && s.previousSentCount < 0x1_0000_0000)
      && (r == NotSent(NoSendingChain) ==> t == s)
  {
    hide MessageAd;
  }
}
