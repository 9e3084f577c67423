/** The device's prekeys: which exist, when they rotate, and that a one-time key
    is used once. Key material is a parameter of the operations that generate
    it; ids are what the properties are about. */
module PreKeyStore {
  import opened Wire
  import opened Protocol
  import opened Keys

  const ONE_TIME_PREKEY_TARGET: nat := 100
  const ONE_TIME_PREKEY_LOW_WATER: nat := 20
  const SIGNED_PREKEY_GENERATIONS: nat := 3

  /** The value of a key pair: whose secret it holds, `WIPED` once zero-filled. */
  datatype KeyPair = KeyPair(publicKey: Bytes)

  datatype Bundle = Bundle(
    signedPreKey: PreKey,
    signedKemPreKey: PreKey,
    oneTimePreKey: Option<PreKey>,
    oneTimeKemPreKey: Option<PreKey>)

  /** One kind of one-time key: the secrets by id, and the ids still on offer. */
  datatype Pool = Pool(secrets: map<nat, KeyPair>, published: seq<PreKey>)

  /** One kind of signed key: the secrets by id, and the ids by age. */
  datatype Generations = Generations(secrets: map<nat, KeyPair>, order: seq<nat>)

  // -------------------------------------------------------------------------
  // What each operation does to a pool or a list of generations
  // -------------------------------------------------------------------------

  function Pruned<V>(secrets: map<nat, V>, order: seq<nat>): (map<nat, V>, seq<nat>)
    decreases |order|
  {
    if |order| > SIGNED_PREKEY_GENERATIONS then Pruned(secrets - {order[0]}, order[1..]) else (secrets, order)
  }

  function Forget(secrets: map<nat, KeyPair>, order: seq<nat>): Generations {
    var (kept, rest) := Pruned(secrets, order);
    Generations(kept, rest)
  }

  function Append(g: Generations, id: nat, pair: KeyPair): Generations {
    Generations(g.secrets[id := pair], g.order + [id])
  }

  function Rotate(g: Generations, id: nat, pair: KeyPair): Generations {
    var more := Append(g, id, pair);
    Forget(more.secrets, more.order)
  }

  /** Fresh keys get consecutive ids from `from` on. */
  function Fresh(from: nat, pairs: seq<KeyPair>): (keys: seq<PreKey>)
    ensures |keys| == |pairs|
    ensures forall i :: 0 <= i < |keys| ==> keys[i] == PreKey(from + i, pairs[i].publicKey)
  {
    if pairs == [] then []
    else Fresh(from, pairs[..|pairs| - 1]) + [PreKey(from + |pairs| - 1, pairs[|pairs| - 1].publicKey)]
  }

  function Add(p: Pool, from: nat, pairs: seq<KeyPair>): Pool {
    if pairs == [] then p
    else
      var n := |pairs| - 1;
      var q := Add(p, from, pairs[..n]);
      Pool(q.secrets[from + n := pairs[n]], q.published + [PreKey(from + n, pairs[n].publicKey)])
  }

  function Issue(p: Pool): (Pool, Option<PreKey>) {
    if p.published == [] then (p, None) else (p.(published := p.published[1..]), Some(p.published[0]))
  }

  function WithoutId(keys: seq<PreKey>, id: nat): seq<PreKey> {
    if keys == [] then []
    else
      var last := keys[|keys| - 1];
      WithoutId(keys[..|keys| - 1], id) + if last.id != id then [last] else []
  }

  function Consume(p: Pool, id: nat): Pool {
    Pool(p.secrets - {id}, WithoutId(p.published, id))
  }

  // -------------------------------------------------------------------------
  // The object
  // -------------------------------------------------------------------------

  /** The store's whole value. */
  datatype Store = Store(
    signed: Generations,
    signedKem: Generations,
    current: PreKey,
    currentKem: PreKey,
    oneTime: Pool,
    oneTimeKem: Pool,
    nextId: nat)

  function RotateStore(s: Store, pair: KeyPair, kemPair: KeyPair): Store {
    Store(Rotate(s.signed, s.nextId, pair), Rotate(s.signedKem, s.nextId + 1, kemPair),
          PreKey(s.nextId, pair.publicKey), PreKey(s.nextId + 1, kemPair.publicKey),
          s.oneTime, s.oneTimeKem, s.nextId + 2)
  }

  function ReplenishStore(s: Store, pairs: seq<KeyPair>, kemPairs: seq<KeyPair>): Store {
    s.(oneTime := Add(s.oneTime, s.nextId, pairs),
       oneTimeKem := Add(s.oneTimeKem, s.nextId + |pairs|, kemPairs),
       nextId := s.nextId + |pairs| + |kemPairs|)
  }

  function IssueStore(s: Store): (Store, Bundle) {
    var (p, key) := Issue(s.oneTime);
    var (q, kemKey) := Issue(s.oneTimeKem);
    (s.(oneTime := p, oneTimeKem := q), Bundle(s.current, s.currentKem, key, kemKey))
  }

  /** The first message of a session retires the signed prekey it used: the
      ratchet zero-fills its key pair, which is the store's own. */
  function WipeSigned(s: Store, id: nat): Store {
    if id in s.signed.secrets
    then s.(signed := s.signed.(secrets := s.signed.secrets[id := KeyPair(WIPED)]))
    else s
  }

  function EmptyStore(): Store {
    Store(Generations(map[], []), Generations(map[], []), PreKey(0, []), PreKey(0, []),
          Pool(map[], []), Pool(map[], []), 1)
  }

  /** A new store has one signed generation and a full set of one-time keys. */
  function NewStore(pair: KeyPair, kemPair: KeyPair, pairs: seq<KeyPair>, kemPairs: seq<KeyPair>): Store {
    ReplenishStore(RotateStore(EmptyStore(), pair, kemPair), pairs, kemPairs)
  }

  /** What the pairs of a map hold at the moment. */
  ghost function Secrets(pairs: map<nat, SharedKeyPair>): (secrets: map<nat, KeyPair>)
    reads pairs.Values
    ensures secrets.Keys == pairs.Keys
  {
    map id | id in pairs :: KeyPair(pairs[id].secretKey)
  }

  lemma {:induction false} SecretsPruned(pairs: map<nat, SharedKeyPair>, order: seq<nat>)
    ensures Pruned(Secrets(pairs), order) == (Secrets(Pruned(pairs, order).0), Pruned(pairs, order).1)
    ensures Pruned(pairs, order).0.Keys <= pairs.Keys
    ensures forall id :: id in Pruned(pairs, order).0 ==> Pruned(pairs, order).0[id] == pairs[id]
    decreases |order|
  {
    if |order| > SIGNED_PREKEY_GENERATIONS {
      assert Secrets(pairs - {order[0]}) == Secrets(pairs) - {order[0]};
      SecretsPruned(pairs - {order[0]}, order[1..]);
    }
  }

  lemma SecretsWith(pairs: map<nat, SharedKeyPair>, id: nat, pair: SharedKeyPair)
    ensures Secrets(pairs[id := pair]) == Secrets(pairs)[id := KeyPair(pair.secretKey)]
  {
  }

  class InMemoryPreKeyStore {
    var signedPreKeys: map<nat, SharedKeyPair>
    var signedKemPreKeys: map<nat, KeyPair>
    var oneTimePreKeys: map<nat, KeyPair>
    var oneTimeKemPreKeys: map<nat, KeyPair>
    var signedPreKeyOrder: seq<nat>
    var signedKemPreKeyOrder: seq<nat>
    var currentSignedPreKey: PreKey
    var currentSignedKemPreKey: PreKey
    var publishedOneTime: seq<PreKey>
    var publishedOneTimeKem: seq<PreKey>
    var nextId: nat

    /** No two ids share a pair. */
    ghost predicate Valid()
      reads this`signedPreKeys
    {
      forall a, b :: a in signedPreKeys && b in signedPreKeys && signedPreKeys[a] == signedPreKeys[b] ==> a == b
    }

    ghost function View(): Store
      reads this, signedPreKeys.Values
    {
      Store(Generations(Secrets(signedPreKeys), signedPreKeyOrder), Generations(signedKemPreKeys, signedKemPreKeyOrder),
            currentSignedPreKey, currentSignedKemPreKey,
            Pool(oneTimePreKeys, publishedOneTime), Pool(oneTimeKemPreKeys, publishedOneTimeKem), nextId)
    }

    constructor (pair: KeyPair, kemPair: KeyPair, pairs: seq<KeyPair>, kemPairs: seq<KeyPair>)
      requires |pairs| == |kemPairs| == ONE_TIME_PREKEY_TARGET
      ensures Valid() && View() == NewStore(pair, kemPair, pairs, kemPairs)
      ensures fresh(signedPreKeys.Values)
    {
      signedPreKeys, signedKemPreKeys, oneTimePreKeys, oneTimeKemPreKeys := map[], map[], map[], map[];
      signedPreKeyOrder, signedKemPreKeyOrder := [], [];
      currentSignedPreKey, currentSignedKemPreKey := PreKey(0, []), PreKey(0, []);
      publishedOneTime, publishedOneTimeKem := [], [];
      nextId := 1;
      new;
      RotateSignedPreKeys(pair, kemPair);
      var _, _ := ReplenishOneTimePreKeys(pairs, kemPairs);
    }

    method RotateSignedPreKeys(pair: KeyPair, kemPair: KeyPair)
      requires Valid()
      modifies this
      ensures Valid() && View() == RotateStore(old(View()), pair, kemPair)
      ensures fresh(signedPreKeys.Values - old(signedPreKeys.Values))
    {
      hide Pruned, Secrets, Valid;
      AddGeneration(pair, kemPair);
      PruneSigned();
      signedKemPreKeys, signedKemPreKeyOrder := PruneGenerations(signedKemPreKeys, signedKemPreKeyOrder);
    }

    /** One more generation of each kind, the older ones still in place. */
    method AddGeneration(pair: KeyPair, kemPair: KeyPair)
      requires Valid()
      modifies this`signedPreKeys, this`signedPreKeyOrder, this`currentSignedPreKey, this`nextId,
               this`signedKemPreKeys, this`signedKemPreKeyOrder, this`currentSignedKemPreKey
      ensures Valid()
      ensures Generations(Secrets(signedPreKeys), signedPreKeyOrder)
           == Append(Generations(old(Secrets(signedPreKeys)), old(signedPreKeyOrder)), old(nextId), pair)
      ensures Generations(signedKemPreKeys, signedKemPreKeyOrder)
           == Append(Generations(old(signedKemPreKeys), old(signedKemPreKeyOrder)), old(nextId) + 1, kemPair)
      ensures currentSignedPreKey == PreKey(old(nextId), pair.publicKey)
      ensures currentSignedKemPreKey == PreKey(old(nextId) + 1, kemPair.publicKey) && nextId == old(nextId) + 2
      ensures fresh(signedPreKeys.Values - old(signedPreKeys.Values))
    {
      hide Secrets, Valid, Append;
      AppendSigned(pair);
      AppendSignedKem(kemPair);
    }

    method PruneSigned()
      requires Valid()
      modifies this`signedPreKeys, this`signedPreKeyOrder
      ensures Valid()
      ensures Generations(Secrets(signedPreKeys), signedPreKeyOrder) == Forget(old(Secrets(signedPreKeys)),
                                                                               old(signedPreKeyOrder))
      ensures signedPreKeys.Values <= old(signedPreKeys.Values)
    {
      hide Pruned, Secrets;
      SecretsPruned(signedPreKeys, signedPreKeyOrder);
      signedPreKeys, signedPreKeyOrder := PruneGenerations(signedPreKeys, signedPreKeyOrder);
    }

    method AppendSigned(pair: KeyPair)
      requires Valid()
      modifies this`signedPreKeys, this`signedPreKeyOrder, this`currentSignedPreKey, this`nextId
      ensures Valid()
      ensures Generations(Secrets(signedPreKeys), signedPreKeyOrder)
           == Append(Generations(old(Secrets(signedPreKeys)), old(signedPreKeyOrder)), old(nextId), pair)
      ensures currentSignedPreKey == PreKey(old(nextId), pair.publicKey) && nextId == old(nextId) + 1
      ensures fresh(signedPreKeys.Values - old(signedPreKeys.Values))
    {
      hide Secrets;
      var id := nextId;
      nextId := nextId + 1;
      var secret := new SharedKeyPair(pair.publicKey);
      SecretsWith(signedPreKeys, id, secret);
      assert forall k :: k in signedPreKeys ==> signedPreKeys[k] != secret;
      signedPreKeys := signedPreKeys[id := secret];
      signedPreKeyOrder := signedPreKeyOrder + [id];
      currentSignedPreKey := PreKey(id, pair.publicKey);
    }

    method AppendSignedKem(pair: KeyPair)
      modifies this`signedKemPreKeys, this`signedKemPreKeyOrder, this`currentSignedKemPreKey, this`nextId
      ensures Generations(signedKemPreKeys, signedKemPreKeyOrder)
           == Append(Generations(old(signedKemPreKeys), old(signedKemPreKeyOrder)), old(nextId), pair)
      ensures currentSignedKemPreKey == PreKey(old(nextId), pair.publicKey) && nextId == old(nextId) + 1
    {
      var id := nextId;
      nextId := nextId + 1;
      signedKemPreKeys := signedKemPreKeys[id := pair];
      signedKemPreKeyOrder := signedKemPreKeyOrder + [id];
      currentSignedKemPreKey := PreKey(id, pair.publicKey);
    }

    /** The loop that forgets the oldest generations. */
    static method PruneGenerations<V>(secrets: map<nat, V>, order: seq<nat>) returns (kept: map<nat, V>, rest: seq<nat>)
      ensures (kept, rest) == Pruned(secrets, order)
    {
      kept, rest := secrets, order;
      while |rest| > SIGNED_PREKEY_GENERATIONS
        invariant Pruned(kept, rest) == Pruned(secrets, order)
        decreases |rest|
      {
        kept, rest := kept - {rest[0]}, rest[1..];
      }
    }

    method ReplenishOneTimePreKeys(pairs: seq<KeyPair>, kemPairs: seq<KeyPair>)
      returns (keys: seq<PreKey>, kemKeys: seq<PreKey>)
      requires |pairs| == |kemPairs|
      modifies this`oneTimePreKeys, this`publishedOneTime, this`oneTimeKemPreKeys, this`publishedOneTimeKem, this`nextId
      ensures View() == ReplenishStore(old(View()), pairs, kemPairs)
      ensures keys == Fresh(old(nextId), pairs) && kemKeys == Fresh(old(nextId) + |pairs|, kemPairs)
    {
      var first := nextId;
      nextId := nextId + |pairs|;
      var firstKem := nextId;
      nextId := nextId + |kemPairs|;
      AddOneTime(first, pairs);
      AddOneTimeKem(firstKem, kemPairs);
      keys, kemKeys := Fresh(first, pairs), Fresh(firstKem, kemPairs);
    }

    method AddOneTime(first: nat, pairs: seq<KeyPair>)
      modifies this`oneTimePreKeys, this`publishedOneTime
      ensures View() == old(View()).(oneTime := Add(old(View()).oneTime, first, pairs))
    {
      ghost var was := Pool(oneTimePreKeys, publishedOneTime);
      for i := 0 to |pairs|
        invariant Pool(oneTimePreKeys, publishedOneTime) == Add(was, first, pairs[..i])
      {
        assert pairs[..i + 1][..i] == pairs[..i];
        oneTimePreKeys := oneTimePreKeys[first + i := pairs[i]];
        publishedOneTime := publishedOneTime + [PreKey(first + i, pairs[i].publicKey)];
      }
      assert pairs[..|pairs|] == pairs;
    }

    method AddOneTimeKem(first: nat, pairs: seq<KeyPair>)
      modifies this`oneTimeKemPreKeys, this`publishedOneTimeKem
      ensures View() == old(View()).(oneTimeKem := Add(old(View()).oneTimeKem, first, pairs))
    {
      ghost var was := Pool(oneTimeKemPreKeys, publishedOneTimeKem);
      for i := 0 to |pairs|
        invariant Pool(oneTimeKemPreKeys, publishedOneTimeKem) == Add(was, first, pairs[..i])
      {
        assert pairs[..i + 1][..i] == pairs[..i];
        oneTimeKemPreKeys := oneTimeKemPreKeys[first + i := pairs[i]];
        publishedOneTimeKem := publishedOneTimeKem + [PreKey(first + i, pairs[i].publicKey)];
      }
      assert pairs[..|pairs|] == pairs;
    }

    method NeedsReplenishment() returns (low: bool)
      ensures low == NeedsMore(View())
      ensures !low <==> forall n :: 0 <= n < ONE_TIME_PREKEY_LOW_WATER ==> CarriesBoth(View(), n)
    {
      NoNeedMeansStock(View());
      low := |publishedOneTime| < ONE_TIME_PREKEY_LOW_WATER || |publishedOneTimeKem| < ONE_TIME_PREKEY_LOW_WATER;
    }

    method IssueBundle() returns (bundle: Bundle)
      modifies this`publishedOneTime, this`publishedOneTimeKem
      ensures (View(), bundle) == IssueStore(old(View()))
    {
      var oneTime, oneTimeKem := None, None;
      if publishedOneTime != [] {
        oneTime, publishedOneTime := Some(publishedOneTime[0]), publishedOneTime[1..];
      }
      if publishedOneTimeKem != [] {
        oneTimeKem, publishedOneTimeKem := Some(publishedOneTimeKem[0]), publishedOneTimeKem[1..];
      }
      bundle := Bundle(currentSignedPreKey, currentSignedKemPreKey, oneTime, oneTimeKem);
    }

    method ConsumeOneTimePreKey(id: nat)
      modifies this`oneTimePreKeys, this`publishedOneTime
      ensures View() == old(View()).(oneTime := Consume(old(View()).oneTime, id))
    {
      oneTimePreKeys := oneTimePreKeys - {id};
      publishedOneTime := WithoutId(publishedOneTime, id);
    }

    method ConsumeOneTimeKemPreKey(id: nat)
      modifies this`oneTimeKemPreKeys, this`publishedOneTimeKem
      ensures View() == old(View()).(oneTimeKem := Consume(old(View()).oneTimeKem, id))
    {
      oneTimeKemPreKeys := oneTimeKemPreKeys - {id};
      publishedOneTimeKem := WithoutId(publishedOneTimeKem, id);
    }
  }

  // -------------------------------------------------------------------------
  // One store lifetime
  // -------------------------------------------------------------------------

  datatype Op =
    | RotateSigned(pair: KeyPair, kemPair: KeyPair)
    | Replenish(pairs: seq<KeyPair>, kemPairs: seq<KeyPair>)
    | IssueOne
    | ConsumeOne(id: nat)
    | ConsumeOneKem(id: nat)
    | AnswerUnder(id: nat)   // a first message under a signed prekey

  /** What happened to one kind of one-time key: everything ever published, what
      was issued in bundles, and which existing ids were consumed. */
  datatype Past = Past(uploaded: seq<PreKey>, issued: seq<PreKey>, consumed: set<nat>)

  /** `rotations` and `kemRotations` list the ids of all signed prekeys ever made,
      `wiped` those under which a first message was answered. */
  datatype Life = Life(
    store: Store,
    past: Past,
    pastKem: Past,
    rotations: seq<nat>,
    kemRotations: seq<nat>,
    wiped: set<nat>)

  function Uploading(h: Past, from: nat, pairs: seq<KeyPair>): Past {
    h.(uploaded := h.uploaded + Fresh(from, pairs))
  }

  function Issuing(h: Past, key: Option<PreKey>): Past {
    h.(issued := h.issued + if key.Some? then [key.value] else [])
  }

  function Consuming(h: Past, p: Pool, id: nat): Past {
    h.(consumed := h.consumed + if id in p.secrets then {id} else {})
  }

  function Born(pair: KeyPair, kemPair: KeyPair, pairs: seq<KeyPair>, kemPairs: seq<KeyPair>): Life {
    Life(NewStore(pair, kemPair, pairs, kemPairs),
         Past(Fresh(3, pairs), [], {}), Past(Fresh(3 + |pairs|, kemPairs), [], {}), [1], [2], {})
  }

  function Live(l: Life, op: Op): Life {
    var s := l.store;
    match op
    case RotateSigned(pair, kemPair) =>
      l.(store := RotateStore(s, pair, kemPair), rotations := l.rotations + [s.nextId],
         kemRotations := l.kemRotations + [s.nextId + 1])
    case Replenish(pairs, kemPairs) =>
      l.(store := ReplenishStore(s, pairs, kemPairs),
         past := Uploading(l.past, s.nextId, pairs), pastKem := Uploading(l.pastKem, s.nextId + |pairs|, kemPairs))
    case IssueOne =>
      var (t, b) := IssueStore(s);
      l.(store := t, past := Issuing(l.past, b.oneTimePreKey), pastKem := Issuing(l.pastKem, b.oneTimeKemPreKey))
    case ConsumeOne(id) =>
      l.(store := s.(oneTime := Consume(s.oneTime, id)), past := Consuming(l.past, s.oneTime, id))
    case ConsumeOneKem(id) =>
      l.(store := s.(oneTimeKem := Consume(s.oneTimeKem, id)), pastKem := Consuming(l.pastKem, s.oneTimeKem, id))
    case AnswerUnder(id) =>
      l.(store := WipeSigned(s, id), wiped := l.wiped + if id in s.signed.secrets then {id} else {})
  }

  function Lifetime(l: Life, ops: seq<Op>): Life {
    if ops == [] then l else Live(Lifetime(l, ops[..|ops| - 1]), ops[|ops| - 1])
  }

  // One pool of one-time keys

  predicate Increasing(keys: seq<PreKey>, bound: nat) {
    && (forall i, j :: 0 <= i < j < |keys| ==> keys[i].id < keys[j].id)
    && (forall i :: 0 <= i < |keys| ==> keys[i].id < bound)
  }

  predicate Holds(secrets: map<nat, KeyPair>, key: PreKey) {
    key.id in secrets && secrets[key.id] == KeyPair(key.publicKey)
  }

  ghost predicate PoolOk(p: Pool, h: Past, bound: nat) {
    // every key ever published has a larger id than those before it, and its
    // secret is held until consumed
    && Increasing(h.uploaded, bound)
    && (forall i :: 0 <= i < |h.uploaded| ==> h.uploaded[i].id in h.consumed || Holds(p.secrets, h.uploaded[i]))
    && (forall id :: id in p.secrets ==> id < bound)
    // a consumed id is gone for good
    && (forall id :: id in h.consumed ==> id < bound && id !in p.secrets)
    // published keys have their secrets
    && (forall i :: 0 <= i < |p.published| ==> Holds(p.secrets, p.published[i]))
    // what is on offer was not issued before
    && Increasing(h.issued, bound) && Increasing(p.published, bound)
    && (forall i, j :: 0 <= i < |h.issued| && 0 <= j < |p.published| ==> h.issued[i].id < p.published[j].id)
    && (forall i :: 0 <= i < |h.issued| ==> h.issued[i] in h.uploaded)
    && (forall i :: 0 <= i < |p.published| ==> p.published[i] in h.uploaded)
    // and nothing else ever leaves the offer
    && OfferComplete(p, h)
  }

  ghost predicate OfferComplete(p: Pool, h: Past) {
    forall key :: key in h.uploaded ==> Accounted(p, h, key)
  }

  predicate Accounted(p: Pool, h: Past, key: PreKey) {
    key in p.published || key in h.issued || key.id in h.consumed
  }

  lemma PoolOkLater(p: Pool, h: Past, bound: nat, later: nat)
    requires PoolOk(p, h, bound) && bound <= later
    ensures PoolOk(p, h, later)
  {
  }

  lemma {:induction false} AddKeepsPool(p: Pool, h: Past, from: nat, pairs: seq<KeyPair>)
    requires PoolOk(p, h, from)
    ensures PoolOk(Add(p, from, pairs), Uploading(h, from, pairs), from + |pairs|)
    decreases |pairs|
  {
    hide PoolOk;
    if pairs == [] {
      assert h.uploaded + [] == h.uploaded;
    } else {
      var n := |pairs| - 1;
      AddKeepsPool(p, h, from, pairs[..n]);
      AddOneKeepsPool(Add(p, from, pairs[..n]), Uploading(h, from, pairs[..n]), from + n, pairs[n]);
      assert h.uploaded + Fresh(from, pairs)
          == h.uploaded + Fresh(from, pairs[..n]) + [PreKey(from + n, pairs[n].publicKey)];
    }
  }

  lemma AddOneKeepsPool(p: Pool, h: Past, id: nat, pair: KeyPair)
    requires PoolOk(p, h, id)
    ensures var key := PreKey(id, pair.publicKey);
      PoolOk(Pool(p.secrets[id := pair], p.published + [key]), h.(uploaded := h.uploaded + [key]), id + 1)
  {
    var key := PreKey(id, pair.publicKey);
    var more := h.uploaded + [key];
    assert forall k :: k in more <==> k in h.uploaded || k == key;
  }

  lemma IssueKeepsOffer(p: Pool, h: Past)
    requires OfferComplete(p, h)
    ensures OfferComplete(Issue(p).0, Issuing(h, Issue(p).1))
  {
    if p.published != [] {
      assert p.published == [p.published[0]] + p.published[1..];
    } else {
      assert h.issued + [] == h.issued;
    }
  }

  lemma IssueKeepsPool(p: Pool, h: Past, bound: nat)
    requires PoolOk(p, h, bound)
    ensures PoolOk(Issue(p).0, Issuing(h, Issue(p).1), bound)
  {
    IssueKeepsOffer(p, h);
    hide OfferComplete;
    if p.published == [] {
      assert h.issued + [] == h.issued;
    }
  }

  lemma {:induction false} WithoutIdSelects(keys: seq<PreKey>, id: nat)
    ensures forall key :: key in WithoutId(keys, id) ==> key in keys && key.id != id
    decreases |keys|
  {
    if keys != [] {
      WithoutIdSelects(keys[..|keys| - 1], id);
    }
  }

  lemma {:induction false} WithoutIdKeeps(keys: seq<PreKey>, id: nat)
    ensures forall key :: key in keys && key.id != id ==> key in WithoutId(keys, id)
    decreases |keys|
  {
    if keys != [] {
      WithoutIdKeeps(keys[..|keys| - 1], id);
      assert keys == keys[..|keys| - 1] + [keys[|keys| - 1]];
    }
  }

  lemma {:induction false} WithoutIdIncreasing(keys: seq<PreKey>, id: nat, bound: nat)
    requires Increasing(keys, bound)
    ensures Increasing(WithoutId(keys, id), bound)
    decreases |keys|
  {
    if keys != [] {
      var n := |keys| - 1;
      var rest := WithoutId(keys[..n], id);
      WithoutIdIncreasing(keys[..n], id, keys[n].id);
      assert WithoutId(keys, id) == if keys[n].id != id then rest + [keys[n]] else rest;
      IncreasingAppend(rest, keys[n], bound);
    }
  }

  lemma IncreasingAppend(keys: seq<PreKey>, key: PreKey, bound: nat)
    requires Increasing(keys, key.id) && key.id < bound
    ensures Increasing(keys, bound) && Increasing(keys + [key], bound)
  {
  }

  lemma ConsumeKeepsPool(p: Pool, h: Past, bound: nat, id: nat)
    requires PoolOk(p, h, bound)
    ensures PoolOk(Consume(p, id), Consuming(h, p, id), bound)
  {
    WithoutIdSelects(p.published, id);
    WithoutIdKeeps(p.published, id);
    WithoutIdIncreasing(p.published, id, bound);
    var q := Consume(p, id);
    forall i | 0 <= i < |q.published|
      ensures Holds(q.secrets, q.published[i]) && q.published[i] in h.uploaded
      ensures forall k :: 0 <= k < |h.issued| ==> h.issued[k].id < q.published[i].id
    {
      var j :| 0 <= j < |p.published| && p.published[j] == q.published[i];
    }
  }

  // The signed generations

  /** The newest SIGNED_PREKEY_GENERATIONS of a list. */
  function Newest(ids: seq<nat>): seq<nat> {
    if |ids| > SIGNED_PREKEY_GENERATIONS then ids[|ids| - SIGNED_PREKEY_GENERATIONS..] else ids
  }

  predicate Ascending(ids: seq<nat>, bound: nat) {
    && (forall i, j :: 0 <= i < j < |ids| ==> ids[i] < ids[j])
    && (forall i :: 0 <= i < |ids| ==> ids[i] < bound)
  }

  /** Exactly the newest generations are held, whatever the number of rotations. */
  ghost predicate GenerationsOk(g: Generations, ids: seq<nat>) {
    && g.order == Newest(ids)
    && SameIds(g)
  }

  lemma RotateKeepsGenerations(g: Generations, ids: seq<nat>, bound: nat, id: nat, pair: KeyPair)
    requires GenerationsOk(g, ids) && Ascending(ids, bound) && bound <= id
    ensures GenerationsOk(Rotate(g, id, pair), ids + [id])
    ensures id in Rotate(g, id, pair).secrets && Rotate(g, id, pair).secrets[id] == pair
  {
    hide Forget, Newest, SameIds;
    var more := Append(g, id, pair);
    NewestAppend(ids, id);
    NewestAscending(ids, bound);
    AppendSameIds(g, id, pair);
    ForgetAtMostOne(more);
    if |more.order| > SIGNED_PREKEY_GENERATIONS {
      assert more.order[|more.order| - 1] == id;
      DropFirstSameIds(more, id + 1);
    }
  }

  lemma ForgetAtMostOne(g: Generations)
    requires |g.order| <= SIGNED_PREKEY_GENERATIONS + 1
    ensures Forget(g.secrets, g.order)
         == if |g.order| > SIGNED_PREKEY_GENERATIONS then Generations(g.secrets - {g.order[0]}, g.order[1..]) else g
  {
    if |g.order| > SIGNED_PREKEY_GENERATIONS {
      assert Forget(g.secrets - {g.order[0]}, g.order[1..]) == Generations(g.secrets - {g.order[0]}, g.order[1..]);
    }
  }

  ghost predicate SameIds(g: Generations) {
    forall id :: id in g.secrets <==> id in g.order
  }

  lemma AppendSameIds(g: Generations, id: nat, pair: KeyPair)
    requires SameIds(g)
    ensures SameIds(Append(g, id, pair))
  {
    assert forall x :: x in g.order + [id] <==> x in g.order || x == id;
  }

  lemma DropFirstSameIds(g: Generations, bound: nat)
    requires SameIds(g) && g.order != [] && Ascending(g.order, bound)
    ensures SameIds(Generations(g.secrets - {g.order[0]}, g.order[1..]))
  {
    assert g.order == [g.order[0]] + g.order[1..];
    assert forall x :: x in g.order <==> x == g.order[0] || x in g.order[1..];
  }

  lemma NewestAscending(ids: seq<nat>, bound: nat)
    requires Ascending(ids, bound)
    ensures Ascending(Newest(ids), bound) && |Newest(ids)| <= SIGNED_PREKEY_GENERATIONS
  {
  }

  lemma NewestAppend(ids: seq<nat>, id: nat)
    ensures var order := Newest(ids) + [id];
      Newest(ids + [id]) == if |order| > SIGNED_PREKEY_GENERATIONS then order[1..] else order
  {
  }

  lemma AscendingAppend(ids: seq<nat>, bound: nat, id: nat)
    requires Ascending(ids, bound) && bound <= id
    ensures Ascending(ids + [id], id + 1)
  {
  }

  // How long the one-time keys last

  predicate NeedsMore(s: Store) {
    |s.oneTime.published| < ONE_TIME_PREKEY_LOW_WATER || |s.oneTimeKem.published| < ONE_TIME_PREKEY_LOW_WATER
  }

  function IssueTimes(s: Store, n: nat): Store {
    if n == 0 then s else IssueStore(IssueTimes(s, n - 1)).0
  }

  lemma {:induction false} StockAfter(s: Store, n: nat)
    requires n <= |s.oneTime.published| && n <= |s.oneTimeKem.published|
    ensures IssueTimes(s, n).oneTime.published == s.oneTime.published[n..]
    ensures IssueTimes(s, n).oneTimeKem.published == s.oneTimeKem.published[n..]
  {
    if n > 0 {
      StockAfter(s, n - 1);
    }
  }

  /** While no replenishment is needed, each of the next bundles up to the low-water
      mark carries a one-time key of both kinds; the mark itself is exact. */
  lemma NoNeedMeansStock(s: Store)
    ensures !NeedsMore(s) <==> forall n :: 0 <= n < ONE_TIME_PREKEY_LOW_WATER ==> CarriesBoth(s, n)
  {
    var classical, kem := |s.oneTime.published|, |s.oneTimeKem.published|;
    var shorter := if classical < kem then classical else kem;
    forall n | 0 <= n < ONE_TIME_PREKEY_LOW_WATER && n < shorter ensures CarriesBoth(s, n) {
      StockAfter(s, n);
    }
    if shorter < ONE_TIME_PREKEY_LOW_WATER {
      StockAfter(s, shorter);
      assert !CarriesBoth(s, shorter);
    }
  }

  /** The bundle issued after `n` others has one-time keys of both kinds. */
  predicate CarriesBoth(s: Store, n: nat) {
    var (_, bundle) := IssueStore(IssueTimes(s, n));
    bundle.oneTimePreKey.Some? && bundle.oneTimeKemPreKey.Some?
  }

  // The whole store

  ghost predicate LifeOk(l: Life) {
    var s := l.store;
    && PoolOk(s.oneTime, l.past, s.nextId)
    && PoolOk(s.oneTimeKem, l.pastKem, s.nextId)
    && GenerationsOk(s.signed, l.rotations) && Ascending(l.rotations, s.nextId)
    && GenerationsOk(s.signedKem, l.kemRotations) && Ascending(l.kemRotations, s.nextId)
    && SignedOk(l) && Holds(s.signedKem.secrets, s.currentKem)
    && FourApart(s)
  }

  /** The current signed prekey is held, intact unless it was answered under; a
      secret once wiped stays so. */
  ghost predicate SignedOk(l: Life) {
    var s := l.store;
    && l.rotations != [] && s.current.id == l.rotations[|l.rotations| - 1]
    && l.kemRotations != [] && s.currentKem.id == l.kemRotations[|l.kemRotations| - 1]
    && s.current.id in s.signed.secrets
    && (s.current.id !in l.wiped ==> Holds(s.signed.secrets, s.current))
    && forall id :: id in l.wiped ==>
         id < s.nextId && (id in s.signed.secrets ==> s.signed.secrets[id] == KeyPair(WIPED))
  }

  /** No id names keys of two kinds. */
  ghost predicate FourApart(s: Store) {
    && s.signed.secrets.Keys !! s.signedKem.secrets.Keys
    && s.signed.secrets.Keys !! s.oneTime.secrets.Keys
    && s.signed.secrets.Keys !! s.oneTimeKem.secrets.Keys
    && s.signedKem.secrets.Keys !! s.oneTime.secrets.Keys
    && s.signedKem.secrets.Keys !! s.oneTimeKem.secrets.Keys
    && s.oneTime.secrets.Keys !! s.oneTimeKem.secrets.Keys
  }

  lemma RotateKeys(g: Generations, ids: seq<nat>, id: nat, pair: KeyPair)
    requires GenerationsOk(g, ids)
    ensures Rotate(g, id, pair).secrets.Keys <= g.secrets.Keys + {id}
    ensures forall k :: k in Rotate(g, id, pair).secrets && k != id ==> Rotate(g, id, pair).secrets[k] == g.secrets[k]
  {
    hide Forget, SameIds;
    ForgetAtMostOne(Append(g, id, pair));
  }

  lemma {:induction false} AddKeys(p: Pool, from: nat, pairs: seq<KeyPair>)
    ensures forall id :: id in Add(p, from, pairs).secrets ==> id in p.secrets || from <= id < from + |pairs|
    decreases |pairs|
  {
    if pairs != [] {
      AddKeys(p, from, pairs[..|pairs| - 1]);
    }
  }

  lemma GenerationsBelow(g: Generations, ids: seq<nat>, bound: nat)
    requires GenerationsOk(g, ids) && Ascending(ids, bound)
    ensures forall id :: id in g.secrets ==> id < bound
  {
    NewestAscending(ids, bound);
  }

  predicate IdsBelow(secrets: map<nat, KeyPair>, bound: nat) {
    forall id :: id in secrets ==> id < bound
  }

  /** Every id in use is below `nextId`. */
  predicate AllIdsBelow(s: Store) {
    && IdsBelow(s.signed.secrets, s.nextId) && IdsBelow(s.signedKem.secrets, s.nextId)
    && IdsBelow(s.oneTime.secrets, s.nextId) && IdsBelow(s.oneTimeKem.secrets, s.nextId)
  }

  lemma AllBelow(l: Life)
    requires LifeOk(l)
    ensures AllIdsBelow(l.store)
  {
    GenerationsBelow(l.store.signed, l.rotations, l.store.nextId);
    GenerationsBelow(l.store.signedKem, l.kemRotations, l.store.nextId);
  }

  lemma RotateKeepsLife(l: Life, pair: KeyPair, kemPair: KeyPair)
    requires LifeOk(l)
    ensures LifeOk(Live(l, RotateSigned(pair, kemPair)))
  {
    hide PoolOk, GenerationsOk, Ascending, Rotate;
    var s := l.store;
    AllBelow(l);
    RotateKeepsGenerations(s.signed, l.rotations, s.nextId, s.nextId, pair);
    RotateKeepsGenerations(s.signedKem, l.kemRotations, s.nextId, s.nextId + 1, kemPair);
    RotateKeys(s.signed, l.rotations, s.nextId, pair);
    RotateKeys(s.signedKem, l.kemRotations, s.nextId + 1, kemPair);
    AscendingAppend(l.rotations, s.nextId, s.nextId);
    AscendingLater(l.rotations + [s.nextId], s.nextId + 1, s.nextId + 2);
    AscendingAppend(l.kemRotations, s.nextId, s.nextId + 1);
    PoolOkLater(s.oneTime, l.past, s.nextId, s.nextId + 2);
    PoolOkLater(s.oneTimeKem, l.pastKem, s.nextId, s.nextId + 2);
  }

  lemma AscendingLater(ids: seq<nat>, bound: nat, later: nat)
    requires Ascending(ids, bound) && bound <= later
    ensures Ascending(ids, later)
  {
  }

  lemma ReplenishKeepsLife(l: Life, pairs: seq<KeyPair>, kemPairs: seq<KeyPair>)
    requires LifeOk(l)
    ensures LifeOk(Live(l, Replenish(pairs, kemPairs)))
  {
    hide PoolOk, GenerationsOk, Ascending, Holds, Add;
    var s := l.store;
    var middle := s.nextId + |pairs|;
    var end := middle + |kemPairs|;
    AllBelow(l);
    AddKeepsPool(s.oneTime, l.past, s.nextId, pairs);
    PoolOkLater(Add(s.oneTime, s.nextId, pairs), Uploading(l.past, s.nextId, pairs), middle, end);
    PoolOkLater(s.oneTimeKem, l.pastKem, s.nextId, middle);
    AddKeepsPool(s.oneTimeKem, l.pastKem, middle, kemPairs);
    AddKeys(s.oneTime, s.nextId, pairs);
    AddKeys(s.oneTimeKem, middle, kemPairs);
    AscendingLater(l.rotations, s.nextId, end);
    AscendingLater(l.kemRotations, s.nextId, end);
  }

  lemma WipeKeepsLife(l: Life, id: nat)
    requires LifeOk(l)
    ensures LifeOk(Live(l, AnswerUnder(id)))
  {
    hide PoolOk, Ascending, GenerationsOk, SignedOk, Holds;
    WipeKeepsSigned(l, id);
    assert Live(l, AnswerUnder(id)).store.signed.secrets.Keys == l.store.signed.secrets.Keys;
  }

  lemma WipeKeepsSigned(l: Life, id: nat)
    requires LifeOk(l)
    ensures SignedOk(Live(l, AnswerUnder(id)))
    ensures GenerationsOk(Live(l, AnswerUnder(id)).store.signed, l.rotations)
  {
    hide PoolOk, FourApart, Newest;
    AllBelow(l);
  }

  lemma OtherOpsKeepLife(l: Life, op: Op)
    requires LifeOk(l) && !op.RotateSigned? && !op.Replenish?
    ensures LifeOk(Live(l, op))
  {
    hide PoolOk, GenerationsOk, Ascending, Holds, WithoutId;
    var s := l.store;
    match op {
      case IssueOne =>
        IssueKeepsPool(s.oneTime, l.past, s.nextId);
        IssueKeepsPool(s.oneTimeKem, l.pastKem, s.nextId);
      case ConsumeOne(id) => ConsumeKeepsPool(s.oneTime, l.past, s.nextId, id);
      case ConsumeOneKem(id) => ConsumeKeepsPool(s.oneTimeKem, l.pastKem, s.nextId, id);
      case AnswerUnder(id) => WipeKeepsLife(l, id);
      case _ =>
    }
  }

  lemma EmptyPoolOk(bound: nat)
    ensures PoolOk(Pool(map[], []), Past([], [], {}), bound)
  {
  }

  /** A store with its first signed generation and nothing else. */
  function FirstLife(pair: KeyPair, kemPair: KeyPair): Life {
    Life(RotateStore(EmptyStore(), pair, kemPair), Past([], [], {}), Past([], [], {}), [1], [2], {})
  }

  lemma FirstStore(pair: KeyPair, kemPair: KeyPair)
    ensures FirstLife(pair, kemPair).store
         == Store(Generations(map[1 := pair], [1]), Generations(map[2 := kemPair], [2]),
                  PreKey(1, pair.publicKey), PreKey(2, kemPair.publicKey), Pool(map[], []), Pool(map[], []), 3)
  {
  }

  lemma FirstLifeOk(pair: KeyPair, kemPair: KeyPair)
    ensures LifeOk(FirstLife(pair, kemPair))
  {
    hide PoolOk, RotateStore;
    EmptyPoolOk(3);
    FirstStore(pair, kemPair);
  }

  lemma BornOk(pair: KeyPair, kemPair: KeyPair, pairs: seq<KeyPair>, kemPairs: seq<KeyPair>)
    ensures LifeOk(Born(pair, kemPair, pairs, kemPairs))
  {
    hide LifeOk, RotateStore, Add, Fresh;
    FirstLifeOk(pair, kemPair);
    FirstStore(pair, kemPair);
    ReplenishKeepsLife(FirstLife(pair, kemPair), pairs, kemPairs);
    assert [] + Fresh(3, pairs) == Fresh(3, pairs) && [] + Fresh(3 + |pairs|, kemPairs) == Fresh(3 + |pairs|, kemPairs);
  }

  lemma {:induction false} LifetimeOk(l: Life, ops: seq<Op>)
    requires LifeOk(l)
    ensures LifeOk(Lifetime(l, ops))
    decreases |ops|
  {
    hide LifeOk, Live;
    if ops != [] {
      var now, op := Lifetime(l, ops[..|ops| - 1]), ops[|ops| - 1];
      LifetimeOk(l, ops[..|ops| - 1]);
      if op.RotateSigned? {
        RotateKeepsLife(now, op.pair, op.kemPair);
      } else if op.Replenish? {
        ReplenishKeepsLife(now, op.pairs, op.kemPairs);
      } else {
        OtherOpsKeepLife(now, op);
      }
    }
  }

  // What that means over one store lifetime

  /** Exactly the newest generations of signed keys are held, the current ones
      being the newest of all. The current signed secret is intact as long as no first message
      was answered under it, and wiped secrets never come back. */
  lemma NewestGenerationsHeld(pair: KeyPair, kemPair: KeyPair, pairs: seq<KeyPair>, kemPairs: seq<KeyPair>,
                              ops: seq<Op>)
    ensures var l := Lifetime(Born(pair, kemPair, pairs, kemPairs), ops);
      && (forall id :: id in l.store.signed.secrets <==> id in Newest(l.rotations))
      && (forall id :: id in l.store.signedKem.secrets <==> id in Newest(l.kemRotations))
      && l.rotations != [] && l.store.current.id == l.rotations[|l.rotations| - 1]
      && l.kemRotations != [] && l.store.currentKem.id == l.kemRotations[|l.kemRotations| - 1]
      && l.store.current.id in l.store.signed.secrets
      && (l.store.current.id !in l.wiped ==> Holds(l.store.signed.secrets, l.store.current))
      && (forall id :: id in l.wiped && id in l.store.signed.secrets ==> l.store.signed.secrets[id] == KeyPair(WIPED))
      && Holds(l.store.signedKem.secrets, l.store.currentKem)
  {
    hide PoolOk, Newest, Ascending, Holds;
    BornOk(pair, kemPair, pairs, kemPairs);
    LifetimeOk(Born(pair, kemPair, pairs, kemPairs), ops);
  }

  /** Ids of the four kinds never meet and stay below `nextId`; every key on
      offer has its secret. */
  lemma IdsApartAndBacked(pair: KeyPair, kemPair: KeyPair, pairs: seq<KeyPair>, kemPairs: seq<KeyPair>, ops: seq<Op>)
    ensures var s := Lifetime(Born(pair, kemPair, pairs, kemPairs), ops).store;
      && FourApart(s)
      && AllIdsBelow(s)
      && (forall i :: 0 <= i < |s.oneTime.published| ==> Holds(s.oneTime.secrets, s.oneTime.published[i]))
      && (forall i :: 0 <= i < |s.oneTimeKem.published| ==> Holds(s.oneTimeKem.secrets, s.oneTimeKem.published[i]))
  {
    hide GenerationsOk, Ascending, Holds, Increasing;
    BornOk(pair, kemPair, pairs, kemPairs);
    LifetimeOk(Born(pair, kemPair, pairs, kemPairs), ops);
    AllBelow(Lifetime(Born(pair, kemPair, pairs, kemPairs), ops));
  }

  /** No one-time id is issued in two bundles, and a consumed id never returns,
      neither as a secret nor on offer. */
  lemma IssuedOnceConsumedForGood(pair: KeyPair, kemPair: KeyPair, pairs: seq<KeyPair>, kemPairs: seq<KeyPair>,
                                  ops: seq<Op>)
    ensures var l := Lifetime(Born(pair, kemPair, pairs, kemPairs), ops);
      && DistinctIds(l.past.issued) && DistinctIds(l.pastKem.issued)
      && (forall id :: id in l.past.consumed ==> id !in l.store.oneTime.secrets)
      && (forall id :: id in l.pastKem.consumed ==> id !in l.store.oneTimeKem.secrets)
      && (forall i :: 0 <= i < |l.store.oneTime.published| ==> l.store.oneTime.published[i].id !in l.past.consumed)
      && (forall i :: 0 <= i < |l.store.oneTimeKem.published| ==>
            l.store.oneTimeKem.published[i].id !in l.pastKem.consumed)
  {
    hide GenerationsOk, Ascending;
    BornOk(pair, kemPair, pairs, kemPairs);
    LifetimeOk(Born(pair, kemPair, pairs, kemPairs), ops);
  }

  /** Every key ever uploaded has its own id, and its secret is held until it is
      consumed. */
  lemma UploadsBacked(pair: KeyPair, kemPair: KeyPair, pairs: seq<KeyPair>, kemPairs: seq<KeyPair>, ops: seq<Op>)
    ensures var l := Lifetime(Born(pair, kemPair, pairs, kemPairs), ops);
      && Backed(l.past, l.store.oneTime) && Backed(l.pastKem, l.store.oneTimeKem)
  {
    hide GenerationsOk, Ascending, PoolOk, Backed, FourApart;
    BornOk(pair, kemPair, pairs, kemPairs);
    LifetimeOk(Born(pair, kemPair, pairs, kemPairs), ops);
    var l := Lifetime(Born(pair, kemPair, pairs, kemPairs), ops);
    PoolBacked(l.store.oneTime, l.past, l.store.nextId);
    PoolBacked(l.store.oneTimeKem, l.pastKem, l.store.nextId);
  }

  /** A key that was uploaded is on offer exactly until it is issued or consumed:
      neither issuing nor consuming one key takes another off the offer. */
  lemma OnOfferIff(pair: KeyPair, kemPair: KeyPair, pairs: seq<KeyPair>, kemPairs: seq<KeyPair>, ops: seq<Op>,
                   key: PreKey)
    ensures var l := Lifetime(Born(pair, kemPair, pairs, kemPairs), ops);
      && (key in l.past.uploaded ==>
            (key in l.store.oneTime.published <==> key !in l.past.issued && key.id !in l.past.consumed))
      && (key in l.pastKem.uploaded ==>
            (key in l.store.oneTimeKem.published <==> key !in l.pastKem.issued && key.id !in l.pastKem.consumed))
  {
    hide GenerationsOk, Ascending, PoolOk, FourApart;
    BornOk(pair, kemPair, pairs, kemPairs);
    LifetimeOk(Born(pair, kemPair, pairs, kemPairs), ops);
    var l := Lifetime(Born(pair, kemPair, pairs, kemPairs), ops);
    OfferExact(l.store.oneTime, l.past, l.store.nextId, key);
    OfferExact(l.store.oneTimeKem, l.pastKem, l.store.nextId, key);
  }

  lemma OfferExact(p: Pool, h: Past, bound: nat, key: PreKey)
    requires PoolOk(p, h, bound)
    ensures key in h.uploaded ==> (key in p.published <==> key !in h.issued && key.id !in h.consumed)
  {
  }

  lemma PoolBacked(p: Pool, h: Past, bound: nat)
    requires PoolOk(p, h, bound)
    ensures Backed(h, p)
  {
    hide Holds;
  }

  ghost predicate Backed(h: Past, p: Pool) {
    && DistinctIds(h.uploaded)
    && forall key :: key in h.uploaded ==> key.id in h.consumed || Holds(p.secrets, key)
  }
}
