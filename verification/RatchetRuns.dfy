/** Whole runs of one party: any interleaving of encryptions with decryptions
    of arbitrary messages, genuine or not, successful or not. */
module RatchetRuns {
  import opened Wire
  import opened Keys
  import opened DoubleRatchet

  datatype Event = Send(plaintext: Bytes) | Receive(message: Message, newKey: Bytes)

  /** One encryption: what the header says and which message key sealed it. */
  datatype Encryption = Encryption(header: Header, messageKey: Key)

  ghost function Step(s: Ratchet, e: Event): (Ratchet, seq<Encryption>) {
    match e
    case Send(p) =>
      var (t, r) := Encrypt(s, p);
      (t, if r.Sent? then [Encryption(r.message.header, r.message.ciphertext.key)] else [])
    case Receive(m, newKey) => (Decrypt(s, m, newKey).0, [])
  }

  ghost function Run(s: Ratchet, events: seq<Event>): (Ratchet, seq<Encryption>) {
    if events == [] then (s, [])
    else
      var (t, before) := Run(s, events[..|events| - 1]);
      var (u, last) := Step(t, events[|events| - 1]);
      (u, before + last)
  }

  /** The own ratchet keys a run may have used. */
  function OwnKeys(s: Ratchet, events: seq<Event>): set<Bytes> {
    {s.sending} + (set e | e in events && e.Receive? :: e.newKey)
  }

  /** The key generator never returns a key twice. */
  ghost predicate FreshKeys(s: Ratchet, events: seq<Event>) {
    forall i :: 0 <= i < |events| && events[i].Receive? ==> events[i].newKey !in OwnKeys(s, events[..i])
  }

  ghost predicate Initial(s: Ratchet) {
    || (exists root, peer, ad, own :: s == InitialiseInitiator(root, peer, ad, own))
    || (exists root, own, ad :: s == InitialiseResponder(root, own, ad))
  }

  // -------------------------------------------------------------------------
  // The cache over whole runs
  // -------------------------------------------------------------------------

  lemma {:induction false} SkipToCache(s: Ratchet, until: nat)
    requires Receiving(s) && CacheOk(s.cache)
    ensures CacheOk(SkipTo(s, until).cache)
    decreases until - s.receivedCount
  {
    hide CacheOk;
    if s.receivedCount < until {
      RememberKeepsCache(s.cache, SkippedId(s.receiving.value, s.receivedCount), MessageKey(s.receivingChainKey.value));
      SkipToCache(SkipOne(s), until);
    }
  }

  lemma SkipCache(s: Ratchet, until: nat)
    requires CacheOk(s.cache)
    ensures CacheOk(Skip(s, until).cache)
  {
    if Receiving(s) {
      SkipToCache(s, until);
    }
  }

  lemma DecryptCache(s: Ratchet, m: Message, newKey: Bytes)
    requires CacheOk(s.cache)
    ensures CacheOk(Decrypt(s, m, newKey).0.cache)
  {
    hide CacheOk, Skip, MessageAd;
    if Cached(s, m.header) {
      ForgetKeepsCache(s.cache, SkippedId(m.header.ratchetPublicKey, m.header.messageNumber));
    } else {
      SkipCache(s, m.header.previousChainLength);
      SkipCache(Turn(s, m.header, newKey), m.header.messageNumber);
      SkipCache(s, m.header.messageNumber);
    }
  }

  /** After every run the cache holds at most MAX_SKIPPED_KEYS keys, their
      sequence numbers are distinct, and every key ever evicted is older than
      every key still held. */
  lemma {:induction false} CacheOverRuns(s: Ratchet, events: seq<Event>)
    requires Initial(s)
    ensures CacheOk(Run(s, events).0.cache)
    decreases |events|
  {
    if events != [] {
      var e := events[|events| - 1];
      CacheOverRuns(s, events[..|events| - 1]);
      var t := Run(s, events[..|events| - 1]).0;
      if e.Receive? {
        DecryptCache(t, e.message, e.newKey);
      }
    }
  }

  // -------------------------------------------------------------------------
  // No message key is used twice
  // -------------------------------------------------------------------------

  /** The sending side either stays or starts afresh two root steps deeper. */
  lemma DecryptSendingSide(s: Ratchet, m: Message, newKey: Bytes)
    ensures var t := Decrypt(s, m, newKey).0;
      if StartsTurn(s, m.header) then
        && t.sending == newKey && t.sentCount == 0 && Depth(t.rootKey) == Depth(s.rootKey) + 2
        && t.sendingChainKey.Some? && Steps(t.sendingChainKey.value) == 0
        && Depth(t.sendingChainKey.value) == Depth(t.rootKey)
      else
        && t.sending == s.sending && t.sentCount == s.sentCount && t.rootKey == s.rootKey
        && t.sendingChainKey == s.sendingChainKey
  {
    hide Skip, MessageAd;
    SkipFrame(s, m.header.previousChainLength);
    SkipFrame(s, m.header.messageNumber);
    SkipFrame(Turn(s, m.header, newKey), m.header.messageNumber);
  }

  ghost predicate ChainOk(s: Ratchet) {
    s.sendingChainKey.Some? ==>
      && Steps(s.sendingChainKey.value) == s.sentCount
      && Depth(s.sendingChainKey.value) == Depth(s.rootKey)
  }

  /** Where one past encryption stands relative to the present state. */
  predicate Accounted(s: Ratchet, own: set<Bytes>, x: Encryption) {
    && x.header.ratchetPublicKey in own
    && Steps(x.messageKey) == x.header.messageNumber
    && Depth(x.messageKey) <= Depth(s.rootKey)
    && (x.header.ratchetPublicKey == s.sending ==> Depth(x.messageKey) == Depth(s.rootKey))
    && (Depth(x.messageKey) == Depth(s.rootKey) ==> x.header.messageNumber < s.sentCount)
  }

  predicate Distinct(x: Encryption, y: Encryption) {
    && x.messageKey != y.messageKey
    && (x.header.ratchetPublicKey != y.header.ratchetPublicKey || x.header.messageNumber != y.header.messageNumber)
  }

  ghost predicate SenderInv(s: Ratchet, own: set<Bytes>, log: seq<Encryption>) {
    && ChainOk(s) && s.sending in own
    && (forall x :: x in log ==> Accounted(s, own, x))
    && (forall i, j :: 0 <= i < j < |log| ==> Distinct(log[i], log[j]))
  }

  lemma SendStep(s: Ratchet, own: set<Bytes>, log: seq<Encryption>, p: Bytes)
    requires SenderInv(s, own, log)
    ensures SenderInv(Step(s, Send(p)).0, own, log + Step(s, Send(p)).1)
  {
    hide MessageAd;
    var (t, last) := Step(s, Send(p));
    if last != [] {
      var x := last[0];
      assert Accounted(t, own, x);
      forall i | 0 <= i < |log| ensures Distinct(log[i], x) {
        assert Accounted(s, own, log[i]);
      }
    }
  }

  lemma ReceiveStep(s: Ratchet, own: set<Bytes>, log: seq<Encryption>, m: Message, newKey: Bytes)
    requires SenderInv(s, own, log) && newKey !in own
    ensures SenderInv(Decrypt(s, m, newKey).0, own + {newKey}, log)
  {
    hide Decrypt;
    DecryptSendingSide(s, m, newKey);
    var t := Decrypt(s, m, newKey).0;
    forall x | x in log ensures Accounted(t, own + {newKey}, x) {
      assert Accounted(s, own, x);
    }
  }

  lemma FreshKeysPrefix(s: Ratchet, events: seq<Event>, n: nat)
    requires FreshKeys(s, events) && n <= |events|
    ensures FreshKeys(s, events[..n])
  {
    forall i | 0 <= i < n && events[..n][i].Receive? ensures events[..n][i].newKey !in OwnKeys(s, events[..n][..i]) {
      assert events[..n][..i] == events[..i];
    }
  }

  lemma OwnKeysAppend(s: Ratchet, events: seq<Event>, e: Event)
    ensures OwnKeys(s, events + [e]) == OwnKeys(s, events) + if e.Receive? then {e.newKey} else {}
  {
    assert forall x :: x in events + [e] <==> x in events || x == e;
  }

  lemma NothingSentYet(s: Ratchet)
    requires Initial(s)
    ensures SenderInv(s, OwnKeys(s, []), [])
  {
  }

  lemma {:induction false} RunKeepsSenderInv(s: Ratchet, events: seq<Event>)
    requires Initial(s) && FreshKeys(s, events)
    ensures SenderInv(Run(s, events).0, OwnKeys(s, events), Run(s, events).1)
    decreases |events|
  {
    hide SenderInv, OwnKeys, Decrypt;
    if events == [] {
      NothingSentYet(s);
    } else {
      var n := |events| - 1;
      var e := events[n];
      FreshKeysPrefix(s, events, n);
      RunKeepsSenderInv(s, events[..n]);
      var (t, log) := Run(s, events[..n]);
      assert events == events[..n] + [e];
      OwnKeysAppend(s, events[..n], e);
      match e {
        case Send(p) =>
          SendStep(t, OwnKeys(s, events[..n]), log, p);
          assert OwnKeys(s, events[..n]) + {} == OwnKeys(s, events[..n]);
        case Receive(m, newKey) =>
          ReceiveStep(t, OwnKeys(s, events[..n]), log, m, newKey);
          assert log + [] == log;
      }
    }
  }

  /** No two encryptions of a run share a (ratchet key, message number) header
      or a message key, whatever was delivered in between. */
  lemma NoMessageKeyTwice(s: Ratchet, events: seq<Event>, i: nat, j: nat)
    requires Initial(s) && FreshKeys(s, events)
    requires i < j < |Run(s, events).1|
    ensures var x, y := Run(s, events).1[i], Run(s, events).1[j];
      && x.messageKey != y.messageKey
      && (x.header.ratchetPublicKey, x.header.messageNumber) != (y.header.ratchetPublicKey, y.header.messageNumber)
  {
    RunKeepsSenderInv(s, events);
    assert Distinct(Run(s, events).1[i], Run(s, events).1[j]);
  }
}
