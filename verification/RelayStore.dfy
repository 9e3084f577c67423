/** The relay's in-memory storage: a bounded queue per recipient and, per
    account, two pools of one-time prekeys. */
module RelayStore {
  import opened Wire
  import opened Protocol

  const MAX_QUEUE_LENGTH: nat := 2000
  const MAX_ONE_TIME_PREKEYS: nat := 500
  const MESSAGE_TTL_MS: int := 30 * 24 * 60 * 60 * 1000

  datatype QueuedMessage = QueuedMessage(id: string, recipient: string, envelope: Bytes, receivedAt: int)

  type Queue = seq<QueuedMessage>
  type Queues = map<string, Queue>

  datatype Account = Account(
    identity: Bytes,
    signedPreKey: PreKey,
    signedKemPreKey: PreKey,
    oneTimePreKeys: seq<PreKey>,
    oneTimeKemPreKeys: seq<PreKey>)

  /** Fields that are `None` are left alone by an update. */
  datatype Update = Update(
    signedPreKey: Option<PreKey>,
    signedKemPreKey: Option<PreKey>,
    oneTimePreKeys: Option<seq<PreKey>>,
    oneTimeKemPreKeys: Option<seq<PreKey>>)

  datatype Taken = Taken(oneTimePreKey: Option<PreKey>, oneTimeKemPreKey: Option<PreKey>)

  // -------------------------------------------------------------------------
  // Queues
  // -------------------------------------------------------------------------

  function QueueOf(queues: Queues, address: string): Queue {
    if address in queues then queues[address] else []
  }

  function Filter(q: Queue, keep: QueuedMessage -> bool): Queue {
    if q == [] then []
    else
      var last := q[|q| - 1];
      Filter(q[..|q| - 1], keep) + if keep(last) then [last] else []
  }

  /** Over the limit, the oldest go. */
  function Newest(q: Queue): Queue {
    if |q| > MAX_QUEUE_LENGTH then q[|q| - MAX_QUEUE_LENGTH..] else q
  }

  function Enqueue(queues: Queues, m: QueuedMessage): Queues {
    queues[m.recipient := Newest(QueueOf(queues, m.recipient) + [m])]
  }

  function Unacknowledged(ids: seq<string>): QueuedMessage -> bool {
    (m: QueuedMessage) => m.id !in ids
  }

  function Acknowledge(queues: Queues, address: string, ids: seq<string>): Queues {
    if address in queues then queues[address := Filter(queues[address], Unacknowledged(ids))] else queues
  }

  function Current(now: int): QueuedMessage -> bool {
    (m: QueuedMessage) => now - m.receivedAt < MESSAGE_TTL_MS
  }

  function Expire(queues: Queues, now: int): Queues {
    map address | address in queues :: Filter(queues[address], Current(now))
  }

  // Total number of queued messages

  ghost function Total(queues: Queues): nat
    decreases |queues|
  {
    if |queues| == 0 then 0
    else
      NonEmpty(queues);
      var address :| address in queues;
      RemoveOne(queues, address);
      |queues[address]| + Total(queues - {address})
  }

  lemma NonEmpty(queues: Queues)
    requires |queues| > 0
    ensures exists address :: address in queues
  {
    assert |queues.Keys| == |queues|;
    var address :| address in queues.Keys;
  }

  lemma RemoveOne(queues: Queues, address: string)
    requires address in queues
    ensures |queues - {address}| == |queues| - 1
  {
    var rest := queues - {address};
    assert queues.Keys == rest.Keys + {address};
    assert |queues| == |queues.Keys| && |rest| == |rest.Keys|;
  }

  lemma TotalUnfold(queues: Queues) returns (first: string)
    requires |queues| > 0
    ensures first in queues && Total(queues) == |queues[first]| + Total(queues - {first})
  {
    NonEmpty(queues);
    first :| first in queues && Total(queues) == |queues[first]| + Total(queues - {first});
  }

  /** The sum does not depend on the order of summation. */
  lemma {:induction false} TotalSplit(queues: Queues, address: string)
    requires address in queues
    ensures Total(queues) == |queues[address]| + Total(queues - {address})
    decreases |queues|
  {
    hide Total;
    RemoveOne(queues, address);
    var first := TotalUnfold(queues);
    if first != address {
      RemoveOne(queues, first);
      TotalSplit(queues - {first}, address);
      TotalSplit(queues - {address}, first);
      assert queues - {first} - {address} == queues - {address} - {first};
    }
  }

  lemma TotalUpdate(queues: Queues, address: string, q: Queue)
    requires address in queues
    ensures Total(queues[address := q]) == Total(queues) - |queues[address]| + |q|
  {
    hide Total;
    TotalSplit(queues, address);
    TotalSplit(queues[address := q], address);
    assert queues[address := q] - {address} == queues - {address};
  }

  // -------------------------------------------------------------------------
  // One-time prekey pools
  // -------------------------------------------------------------------------

  /** Appended uploads beyond the cap are dropped. */
  function Extend(pool: seq<PreKey>, uploaded: Option<seq<PreKey>>): seq<PreKey> {
    match uploaded
    case None => pool
    case Some(more) =>
      var all := pool + more;
      if |all| > MAX_ONE_TIME_PREKEYS then all[..MAX_ONE_TIME_PREKEYS] else all
  }

  function ApplyUpdate(a: Account, u: Update): Account {
    Account(a.identity,
            if u.signedPreKey.Some? then u.signedPreKey.value else a.signedPreKey,
            if u.signedKemPreKey.Some? then u.signedKemPreKey.value else a.signedKemPreKey,
            Extend(a.oneTimePreKeys, u.oneTimePreKeys),
            Extend(a.oneTimeKemPreKeys, u.oneTimeKemPreKeys))
  }

  function Head(pool: seq<PreKey>): Option<PreKey> {
    if pool == [] then None else Some(pool[0])
  }

  function Tail(pool: seq<PreKey>): seq<PreKey> {
    if pool == [] then [] else pool[1..]
  }

  function TakeFrom(a: Account): (Account, Taken) {
    (a.(oneTimePreKeys := Tail(a.oneTimePreKeys), oneTimeKemPreKeys := Tail(a.oneTimeKemPreKeys)),
     Taken(Head(a.oneTimePreKeys), Head(a.oneTimeKemPreKeys)))
  }

  // -------------------------------------------------------------------------
  // The object
  // -------------------------------------------------------------------------

  class InMemoryRelayStore {
    var accounts: map<string, Account>
    var queues: Queues

    constructor ()
      ensures accounts == map[] && queues == map[]
    {
      accounts, queues := map[], map[];
    }

    method CreateAccount(address: string, record: Account)
      modifies this`accounts
      ensures accounts == AccountStep(old(accounts), Register(address, record)).0
    {
      accounts := accounts[address := record];
    }

    method UpdatePreKeys(address: string, update: Update)
      modifies this`accounts
      ensures accounts == AccountStep(old(accounts), Renew(address, update)).0
    {
      if address !in accounts {
        return;
      }
      var account := accounts[address];
      if update.signedPreKey.Some? {
        account := account.(signedPreKey := update.signedPreKey.value);
      }
      if update.signedKemPreKey.Some? {
        account := account.(signedKemPreKey := update.signedKemPreKey.value);
      }
      account := account.(oneTimePreKeys := Extend(account.oneTimePreKeys, update.oneTimePreKeys));
      account := account.(oneTimeKemPreKeys := Extend(account.oneTimeKemPreKeys, update.oneTimeKemPreKeys));
      accounts := accounts[address := account];
    }

    method TakeOneTimePreKeys(address: string) returns (taken: Taken)
      modifies this`accounts
      ensures (accounts, taken) == AccountStep(old(accounts), Fetch(address))
    {
      if address !in accounts {
        return Taken(None, None);
      }
      var account := accounts[address];
      taken := Taken(Head(account.oneTimePreKeys), Head(account.oneTimeKemPreKeys));
      accounts := accounts[address := account.(oneTimePreKeys := Tail(account.oneTimePreKeys),
                                               oneTimeKemPreKeys := Tail(account.oneTimeKemPreKeys))];
    }

    method EnqueueMessage(message: QueuedMessage)
      modifies this`queues
      ensures queues == Enqueue(old(queues), message)
    {
      var queue := QueueOf(queues, message.recipient) + [message];
      ghost var all := queue;
      while |queue| > MAX_QUEUE_LENGTH
        invariant |queue| <= |all| && queue == all[|all| - |queue|..]
        invariant |all| > MAX_QUEUE_LENGTH ==> |queue| >= MAX_QUEUE_LENGTH
        invariant |all| <= MAX_QUEUE_LENGTH ==> queue == all
        decreases |queue|
      {
        queue := queue[1..];
      }
      queues := queues[message.recipient := queue];
    }

    method AcknowledgeMessages(address: string, ids: seq<string>) returns (removed: int)
      modifies this`queues
      ensures queues == Acknowledge(old(queues), address, ids)
      ensures removed == |QueueOf(old(queues), address)| - |QueueOf(queues, address)|
    {
      if address !in queues {
        return 0;
      }
      var kept := Filter(queues[address], Unacknowledged(ids));
      removed := |queues[address]| - |kept|;
      queues := queues[address := kept];
    }

    method ExpireMessages(now: int) returns (removed: int)
      modifies this`queues
      ensures queues == Expire(old(queues), now)
      ensures removed == Total(old(queues)) - Total(queues)
    {
      hide Total, Filter;
      removed := 0;
      var remaining := queues.Keys;
      while remaining != {}
        invariant remaining <= queues.Keys == old(queues).Keys
        invariant forall address :: address in queues ==>
                    queues[address] == if address in remaining then old(queues)[address]
                                       else Filter(old(queues)[address], Current(now))
        invariant removed == Total(old(queues)) - Total(queues)
        decreases remaining
      {
        var address :| address in remaining;
        remaining := remaining - {address};
        var kept := Filter(queues[address], Current(now));
        removed := removed + |queues[address]| - |kept|;
        TotalUpdate(queues, address, kept);
        queues := queues[address := kept];
      }
    }

    method TotalQueued() returns (total: nat)
      ensures total == Total(queues)
    {
      assert Total(map[]) == 0;
      hide Total;
      total := 0;
      var rest := queues;
      while |rest| > 0
        invariant total + Total(rest) == Total(queues)
        decreases |rest|
      {
        NonEmpty(rest);
        var address :| address in rest;
        RemoveOne(rest, address);
        TotalSplit(rest, address);
        total := total + |rest[address]|;
        rest := rest - {address};
      }
    }
  }

  // -------------------------------------------------------------------------
  // The mailbox over whole runs
  // -------------------------------------------------------------------------

  datatype Op = Arrive(message: QueuedMessage) | Ack(address: string, ids: seq<string>) | Tick(now: int)

  function Apply(queues: Queues, op: Op): Queues {
    match op
    case Arrive(m) => Enqueue(queues, m)
    case Ack(address, ids) => Acknowledge(queues, address, ids)
    case Tick(now) => Expire(queues, now)
  }

  function Run(ops: seq<Op>): Queues {
    if ops == [] then map[] else Apply(Run(ops[..|ops| - 1]), ops[|ops| - 1])
  }

  /** Everything that ever became of one recipient's messages. */
  datatype Ledger = Ledger(
    arrived: Queue,
    overflowed: multiset<QueuedMessage>,
    acknowledged: multiset<QueuedMessage>,
    expired: multiset<QueuedMessage>)

  function Book(ops: seq<Op>, address: string): Ledger {
    if ops == [] then Ledger([], multiset{}, multiset{}, multiset{})
    else
      var rest := ops[..|ops| - 1];
      BookStep(Book(rest, address), QueueOf(Run(rest), address), ops[|ops| - 1], address)
  }

  /** `a` is what is left of `b` when some elements are struck out. */
  predicate Subsequence(a: Queue, b: Queue)
    decreases |b|
  {
    if a == [] then true
    else if b == [] then false
    else
      || Subsequence(a, b[..|b| - 1])
      || (a[|a| - 1] == b[|b| - 1] && Subsequence(a[..|a| - 1], b[..|b| - 1]))
  }

  lemma {:induction false} SubsequenceTransitive(a: Queue, b: Queue, c: Queue)
    requires Subsequence(a, b) && Subsequence(b, c)
    ensures Subsequence(a, c)
    decreases |c|
  {
    if a != [] && b != [] && c != [] {
      var c' := c[..|c| - 1];
      if Subsequence(b, c') {
        SubsequenceTransitive(a, b, c');
      } else if Subsequence(a, b[..|b| - 1]) {
        SubsequenceTransitive(a, b[..|b| - 1], c');
      } else {
        SubsequenceTransitive(a[..|a| - 1], b[..|b| - 1], c');
      }
    }
  }

  lemma SubsequenceAppend(a: Queue, b: Queue, m: QueuedMessage)
    requires Subsequence(a, b)
    ensures Subsequence(a + [m], b + [m])
  {
    assert (a + [m])[..|a|] == a && (b + [m])[..|b|] == b;
  }

  lemma {:induction false} FilterSubsequence(q: Queue, keep: QueuedMessage -> bool)
    ensures Subsequence(Filter(q, keep), q)
    ensures multiset(Filter(q, keep)) <= multiset(q)
    ensures |Filter(q, keep)| <= |q|
  {
    hide Subsequence;
    if q == [] {
      EmptySubsequence(q);
    } else {
      var rest, last := q[..|q| - 1], q[|q| - 1];
      FilterSubsequence(rest, keep);
      assert q == rest + [last];
      if keep(last) {
        SubsequenceAppend(Filter(rest, keep), rest, last);
      } else {
        SubsequenceSkip(Filter(rest, keep), rest, last);
        assert Filter(q, keep) == Filter(rest, keep);
      }
    }
  }

  lemma EmptySubsequence(q: Queue)
    ensures Subsequence([], q)
  {
  }

  lemma SubsequenceSkip(a: Queue, b: Queue, m: QueuedMessage)
    requires Subsequence(a, b)
    ensures Subsequence(a, b + [m])
  {
    assert (b + [m])[..|b|] == b;
  }

  lemma {:induction false} SuffixSubsequence(q: Queue, k: nat)
    requires k <= |q|
    ensures Subsequence(q[k..], q)
    decreases |q|
  {
    hide Subsequence;
    if k == |q| {
      EmptySubsequence(q);
    } else {
      var rest, last := q[..|q| - 1], q[|q| - 1];
      SuffixSubsequence(rest, k);
      SubsequenceAppend(rest[k..], rest, last);
      assert rest[k..] + [last] == q[k..] && rest + [last] == q;
    }
  }

  lemma NewestSubsequence(q: Queue)
    ensures Subsequence(Newest(q), q) && multiset(Newest(q)) <= multiset(q)
  {
    var k := if |q| > MAX_QUEUE_LENGTH then |q| - MAX_QUEUE_LENGTH else 0;
    SuffixSubsequence(q, k);
    assert q == q[..k] + q[k..] && Newest(q) == q[k..];
  }

  /** What one address's queue is made of when an operation is applied. */
  function Offered(q: Queue, op: Op, address: string): Queue {
    if op.Arrive? && op.message.recipient == address then q + [op.message] else q
  }

  /** What an operation makes of the queue of one address. */
  function QueueStep(q: Queue, op: Op, address: string): Queue {
    match op
    case Arrive(m) => if m.recipient == address then Newest(q + [m]) else q
    case Ack(a, ids) => if a == address then Filter(q, Unacknowledged(ids)) else q
    case Tick(now) => Filter(q, Current(now))
  }

  lemma ApplyIsQueueStep(queues: Queues, op: Op, address: string)
    ensures QueueOf(Apply(queues, op), address) == QueueStep(QueueOf(queues, address), op, address)
  {
    hide Newest;
  }

  /** One step takes a queue to a subsequence of what it held plus what arrived. */
  lemma StepShrinks(q: Queue, op: Op, address: string)
    ensures Subsequence(QueueStep(q, op, address), Offered(q, op, address))
    ensures multiset(QueueStep(q, op, address)) <= multiset(Offered(q, op, address))
    ensures |q| <= MAX_QUEUE_LENGTH ==> |QueueStep(q, op, address)| <= MAX_QUEUE_LENGTH
  {
    hide Subsequence, Filter;
    SuffixSubsequence(q, 0);
    assert q[0..] == q;
    match op {
      case Arrive(m) => NewestSubsequence(q + [m]);
      case Ack(_, ids) => FilterSubsequence(q, Unacknowledged(ids));
      case Tick(now) => FilterSubsequence(q, Current(now));
    }
  }

  ghost predicate Conserved(q: Queue, l: Ledger) {
    && |q| <= MAX_QUEUE_LENGTH
    && Subsequence(q, l.arrived)
    && Balanced(l, q)
  }

  /** What an arrival pushes out of a full queue: the oldest beyond the limit. */
  function Overflow(q: Queue): Queue {
    if |q| > MAX_QUEUE_LENGTH then q[..|q| - MAX_QUEUE_LENGTH] else []
  }

  function Named(ids: seq<string>): QueuedMessage -> bool {
    (m: QueuedMessage) => m.id in ids
  }

  function TooOld(now: int): QueuedMessage -> bool {
    (m: QueuedMessage) => now - m.receivedAt >= MESSAGE_TTL_MS
  }

  /** Each column by its cause: pushed out by an arrival, named in an
      acknowledgement, or past its time to live. */
  function BookStep(l: Ledger, q: Queue, op: Op, address: string): Ledger {
    match op
    case Arrive(m) =>
      if m.recipient == address
      then l.(arrived := l.arrived + [m], overflowed := l.overflowed + multiset(Overflow(q + [m])))
      else l
    case Ack(a, ids) =>
      if a == address then l.(acknowledged := l.acknowledged + multiset(Filter(q, Named(ids)))) else l
    case Tick(now) => l.(expired := l.expired + multiset(Filter(q, TooOld(now))))
  }

  /** A queue is what one condition keeps and what its opposite keeps. */
  lemma {:induction false} FilterSplit(q: Queue, keep: QueuedMessage -> bool, drop: QueuedMessage -> bool)
    requires forall m :: keep(m) <==> !drop(m)
    ensures multiset(q) == multiset(Filter(q, keep)) + multiset(Filter(q, drop))
  {
    hide Filter;
    if q == [] {
      FilterNone(keep);
      FilterNone(drop);
    } else {
      var rest, last := q[..|q| - 1], q[|q| - 1];
      FilterSplit(rest, keep, drop);
      FilterLast(q, keep);
      FilterLast(q, drop);
      assert q == rest + [last];
      Regroup(multiset(rest), multiset(Filter(rest, keep)), multiset(Filter(rest, drop)), last, keep(last));
    }
  }

  lemma Regroup(all: multiset<QueuedMessage>, kept: multiset<QueuedMessage>, dropped: multiset<QueuedMessage>,
                last: QueuedMessage, keeps: bool)
    requires all == kept + dropped
    ensures all + multiset{last}
         == (if keeps then kept + multiset{last} else kept) + (if keeps then dropped else dropped + multiset{last})
  {
  }

  lemma FilterNone(keep: QueuedMessage -> bool)
    ensures Filter([], keep) == []
  {
  }

  lemma FilterLast(q: Queue, keep: QueuedMessage -> bool)
    requires q != []
    ensures var rest, last := q[..|q| - 1], q[|q| - 1];
      multiset(Filter(q, keep))
      == if keep(last) then multiset(Filter(rest, keep)) + multiset{last} else multiset(Filter(rest, keep))
  {
    var kept := Filter(q[..|q| - 1], keep);
    assert kept + [] == kept;
  }

  lemma NewestSplit(q: Queue)
    ensures multiset(q) == multiset(Newest(q)) + multiset(Overflow(q))
  {
    assert q == Overflow(q) + Newest(q);
  }

  /** What came in and what was there is what stays and what goes. */
  ghost predicate Balanced(l: Ledger, q: Queue) {
    multiset(l.arrived) == multiset(q) + l.overflowed + l.acknowledged + l.expired
  }

  lemma StepAccounts(l: Ledger, q: Queue, op: Op, address: string)
    requires Balanced(l, q)
    ensures Balanced(BookStep(l, q, op, address), QueueStep(q, op, address))
  {
    hide Filter, Newest, Overflow;
    match op
    case Arrive(m) =>
      var full := q + [m];
      NewestSplit(full);
      if m.recipient == address {
        assert multiset(l.arrived + [m]) == multiset(full) + l.overflowed + l.acknowledged + l.expired;
      }
    case Ack(_, ids) => FilterSplit(q, Unacknowledged(ids), Named(ids));
    case Tick(now) => FilterSplit(q, Current(now), TooOld(now));
  }

  lemma BookStepConserves(l: Ledger, q: Queue, op: Op, address: string)
    requires Conserved(q, l)
    ensures Conserved(QueueStep(q, op, address), BookStep(l, q, op, address))
  {
    hide Subsequence, QueueStep, Overflow, Filter, Balanced;
    StepShrinks(q, op, address);
    StepAccounts(l, q, op, address);
    var after := QueueStep(q, op, address);
    if op.Arrive? && op.message.recipient == address {
      SubsequenceAppend(q, l.arrived, op.message);
      SubsequenceTransitive(after, q + [op.message], l.arrived + [op.message]);
    } else {
      SubsequenceTransitive(after, q, l.arrived);
      if op.Arrive? { ArriveElsewhere(q, op, address); }
    }
  }

  lemma ArriveElsewhere(q: Queue, op: Op, address: string)
    requires op.Arrive? && op.message.recipient != address
    ensures QueueStep(q, op, address) == q
  {
  }

  /** Over every sequence of operations: a recipient's queue is bounded, keeps
      arrival order, and every arrival is exactly once either still queued, or
      acknowledged by its id, or expired by its age, or pushed out as the oldest. */
  lemma {:induction false} MailboxConservation(ops: seq<Op>, address: string)
    ensures var q, l := QueueOf(Run(ops), address), Book(ops, address);
      && |q| <= MAX_QUEUE_LENGTH
      && Subsequence(q, l.arrived)
      && multiset(l.arrived) == multiset(q) + l.overflowed + l.acknowledged + l.expired
    decreases |ops|
  {
    hide Apply, Subsequence, BookStep, QueueStep;
    if ops == [] {
      EmptySubsequence([]);
    } else {
      var rest, op := ops[..|ops| - 1], ops[|ops| - 1];
      MailboxConservation(rest, address);
      ApplyIsQueueStep(Run(rest), op, address);
      BookStepConserves(Book(rest, address), QueueOf(Run(rest), address), op, address);
    }
  }

  /** Overflow drops the oldest: what an arrival pushes out stood before
      everything that stays, and nothing is pushed out of a queue with room. */
  lemma OverflowDropsOldest(queues: Queues, m: QueuedMessage)
    ensures var full, after := QueueOf(queues, m.recipient) + [m], QueueOf(Enqueue(queues, m), m.recipient);
      && |after| <= |full|
      && full == full[..|full| - |after|] + after
      && (|after| < |full| ==> |after| == MAX_QUEUE_LENGTH)
  {
    var full := QueueOf(queues, m.recipient) + [m];
    var after := Newest(full);
    assert full == full[..|full| - |after|] + after;
  }

  /** Operations that mention an address, and clock ticks. */
  predicate Concerns(op: Op, address: string) {
    match op
    case Arrive(m) => m.recipient == address
    case Ack(a, _) => a == address
    case Tick(_) => true
  }

  function Concerning(ops: seq<Op>, address: string): seq<Op> {
    if ops == [] then []
    else
      Concerning(ops[..|ops| - 1], address)
      + if Concerns(ops[|ops| - 1], address) then [ops[|ops| - 1]] else []
  }

  lemma Unconcerned(q: Queue, op: Op, address: string)
    requires !Concerns(op, address)
    ensures QueueStep(q, op, address) == q
  {
  }

  /** No operation on one address changes another's queue: a queue is what the
      operations on its own address and the clock alone would have made it. */
  lemma {:induction false} AddressesIndependent(ops: seq<Op>, address: string)
    ensures QueueOf(Run(ops), address) == QueueOf(Run(Concerning(ops, address)), address)
    decreases |ops|
  {
    hide Apply, QueueStep, Concerns;
    if ops != [] {
      var rest, op := ops[..|ops| - 1], ops[|ops| - 1];
      AddressesIndependent(rest, address);
      var own := Concerning(rest, address);
      ApplyIsQueueStep(Run(rest), op, address);
      if Concerns(op, address) {
        assert (own + [op])[..|own|] == own;
        ApplyIsQueueStep(Run(own), op, address);
      } else {
        Unconcerned(QueueOf(Run(rest), address), op, address);
        assert Concerning(ops, address) == own;
      }
    }
  }

  // Which messages stay

  lemma {:induction false} FilterMembers(q: Queue, keep: QueuedMessage -> bool, m: QueuedMessage)
    ensures m in Filter(q, keep) <==> m in q && keep(m)
  {
    if q != [] {
      FilterMembers(q[..|q| - 1], keep, m);
      assert q == q[..|q| - 1] + [q[|q| - 1]];
    }
  }

  /** Expiry keeps a message exactly if it is younger than thirty days. */
  lemma ExpiryKeepsIff(queues: Queues, now: int, address: string, m: QueuedMessage)
    ensures m in QueueOf(Expire(queues, now), address)
       <==> m in QueueOf(queues, address) && now - m.receivedAt < 2_592_000_000
  {
    if address in queues {
      FilterMembers(queues[address], Current(now), m);
    }
  }

  /** An acknowledgement removes exactly the messages it names, of its own address. */
  lemma AcknowledgementKeepsIff(queues: Queues, address: string, ids: seq<string>, other: string, m: QueuedMessage)
    ensures m in QueueOf(Acknowledge(queues, address, ids), other)
       <==> m in QueueOf(queues, other) && !(other == address && m.id in ids)
  {
    if address in queues {
      FilterMembers(queues[address], Unacknowledged(ids), m);
    }
  }

  // -------------------------------------------------------------------------
  // One-time prekeys over whole runs
  // -------------------------------------------------------------------------

  /** One account's pool of one kind, and what was handed out of it. */
  datatype PoolState = PoolState(pool: seq<PreKey>, handedOut: seq<PreKey>)

  /** Keys with distinct ids, all of them uploaded. */
  ghost predicate Selection(keys: seq<PreKey>, uploaded: seq<PreKey>) {
    && DistinctIds(keys)
    && forall i :: 0 <= i < |keys| ==> keys[i] in uploaded
  }

  lemma SelectionExtends(keys: seq<PreKey>, before: seq<PreKey>, more: seq<PreKey>)
    requires Selection(keys, before) && DistinctIds(before + more)
    ensures Selection(keys + more, before + more)
  {
    forall i, j | 0 <= i < |keys| && 0 <= j < |more| ensures keys[i].id != more[j].id {
      var k :| 0 <= k < |before| && before[k] == keys[i];
      assert (before + more)[k].id != (before + more)[|before| + j].id;
    }
    forall i, j | 0 <= i < j < |more| ensures more[i].id != more[j].id {
      assert (before + more)[|before| + i].id != (before + more)[|before| + j].id;
    }
  }

  lemma SelectionPrefix(keys: seq<PreKey>, uploaded: seq<PreKey>, n: nat)
    requires Selection(keys, uploaded) && n <= |keys|
    ensures Selection(keys[..n], uploaded)
  {
  }

  ghost predicate PoolOk(s: PoolState, uploaded: seq<PreKey>) {
    Selection(s.handedOut + s.pool, uploaded)
  }

  lemma CreateKeeps(s: PoolState, before: seq<PreKey>, keys: seq<PreKey>)
    requires PoolOk(s, before) && DistinctIds(before + keys)
    ensures PoolOk(s.(pool := keys), before + keys)
  {
    hide Selection, DistinctIds;
    var all := s.handedOut + s.pool;
    SelectionPrefix(all, before, |s.handedOut|);
    assert all[..|s.handedOut|] == s.handedOut;
    SelectionExtends(s.handedOut, before, keys);
  }

  lemma UploadKeeps(s: PoolState, before: seq<PreKey>, keys: seq<PreKey>)
    requires PoolOk(s, before) && DistinctIds(before + keys)
    ensures PoolOk(s.(pool := Extend(s.pool, Some(keys))), before + keys)
  {
    hide Selection, DistinctIds, Extend;
    var all := s.handedOut + s.pool;
    var pool := Extend(s.pool, Some(keys));
    SelectionExtends(all, before, keys);
    ExtendPrefix(s.pool, keys);
    SelectionPrefix(all + keys, before + keys, |s.handedOut + pool|);
    assert all + keys == s.handedOut + (s.pool + keys);
    assert (all + keys)[..|s.handedOut + pool|] == s.handedOut + pool;
  }

  lemma TakeKeeps(s: PoolState, before: seq<PreKey>)
    requires PoolOk(s, before)
    ensures PoolOk(PoolState(Tail(s.pool), s.handedOut + if s.pool == [] then [] else [s.pool[0]]), before)
  {
    hide Selection;
    var t := PoolState(Tail(s.pool), s.handedOut + if s.pool == [] then [] else [s.pool[0]]);
    assert t.handedOut + t.pool == s.handedOut + s.pool;
  }

  lemma ExtendPrefix(pool: seq<PreKey>, keys: seq<PreKey>)
    ensures Extend(pool, Some(keys)) <= pool + keys
  {
  }

  lemma DistinctPrefix(before: seq<PreKey>, more: seq<PreKey>)
    requires DistinctIds(before + more)
    ensures DistinctIds(before)
  {
    forall i, j | 0 <= i < j < |before| ensures before[i].id != before[j].id {
      assert (before + more)[i].id != (before + more)[j].id;
    }
  }

  // The same for the store's accounts

  datatype AccountOp =
    | Register(address: string, record: Account)
    | Renew(address: string, update: Update)
    | Fetch(address: string)

  datatype Kind = Classical | Kem

  function PoolOf(a: Account, kind: Kind): seq<PreKey> {
    if kind == Classical then a.oneTimePreKeys else a.oneTimeKemPreKeys
  }

  function AccountStep(accounts: map<string, Account>, op: AccountOp): (map<string, Account>, Taken) {
    match op
    case Register(address, record) => (accounts[address := record], Taken(None, None))
    case Renew(address, update) =>
      if address in accounts then (accounts[address := ApplyUpdate(accounts[address], update)], Taken(None, None))
      else (accounts, Taken(None, None))
    case Fetch(address) =>
      if address in accounts
      then (accounts[address := TakeFrom(accounts[address]).0], TakeFrom(accounts[address]).1)
      else (accounts, Taken(None, None))
  }

  function RunAccounts(ops: seq<AccountOp>): map<string, Account> {
    if ops == [] then map[] else AccountStep(RunAccounts(ops[..|ops| - 1]), ops[|ops| - 1]).0
  }

  function TakenKey(t: Taken, kind: Kind): seq<PreKey> {
    var k := if kind == Classical then t.oneTimePreKey else t.oneTimeKemPreKey;
    if k.Some? then [k.value] else []
  }

  /** The one-time keys of one kind that fetches of one address were given. */
  function GivenTo(ops: seq<AccountOp>, address: string, kind: Kind): seq<PreKey> {
    if ops == [] then []
    else
      var op := ops[|ops| - 1];
      GivenTo(ops[..|ops| - 1], address, kind)
      + if op.address == address then TakenKey(AccountStep(RunAccounts(ops[..|ops| - 1]), op).1, kind) else []
  }

  function OfferedKeys(op: AccountOp, address: string, kind: Kind): seq<PreKey> {
    if op.address != address then []
    else
      match op
      case Register(_, record) => PoolOf(record, kind)
      case Renew(_, u) =>
        var keys := if kind == Classical then u.oneTimePreKeys else u.oneTimeKemPreKeys;
        if keys.Some? then keys.value else []
      case Fetch(_) => []
  }

  /** Every key of one kind that was ever offered for one address, in order. */
  function OfferedTo(ops: seq<AccountOp>, address: string, kind: Kind): seq<PreKey> {
    if ops == [] then []
    else OfferedTo(ops[..|ops| - 1], address, kind) + OfferedKeys(ops[|ops| - 1], address, kind)
  }

  function PoolAt(accounts: map<string, Account>, address: string, kind: Kind): seq<PreKey> {
    if address in accounts then PoolOf(accounts[address], kind) else []
  }

  lemma AccountStepKeepsPool(accounts: map<string, Account>, op: AccountOp, given: seq<PreKey>, before: seq<PreKey>,
                             address: string, kind: Kind)
    requires PoolOk(PoolState(PoolAt(accounts, address, kind), given), before)
    requires DistinctIds(before + OfferedKeys(op, address, kind))
    ensures var (after, taken) := AccountStep(accounts, op);
      PoolOk(PoolState(PoolAt(after, address, kind),
                       given + if op.address == address then TakenKey(taken, kind) else []),
             before + OfferedKeys(op, address, kind))
  {
    hide PoolOk, Extend, DistinctIds;
    var s := PoolState(PoolAt(accounts, address, kind), given);
    assert before + [] == before && given + [] == given;
    if op.address == address {
      match op {
        case Register(_, record) => CreateKeeps(s, before, PoolOf(record, kind));
        case Renew(_, u) =>
          if address in accounts {
            UploadKeeps(s, before, OfferedKeys(op, address, kind));
            NoUpload(s.pool);
          } else {
            IgnoredUpload(s, before, OfferedKeys(op, address, kind));
          }
        case Fetch(_) => TakeKeeps(s, before);
      }
    }
  }

  lemma NoUpload(pool: seq<PreKey>)
    ensures Extend(pool, None) == pool
  {
  }

  lemma IgnoredUpload(s: PoolState, before: seq<PreKey>, keys: seq<PreKey>)
    requires PoolOk(s, before) && DistinctIds(before + keys)
    ensures PoolOk(s, before + keys)
  {
    var all := s.handedOut + s.pool;
    SelectionExtends(all, before, keys);
    SelectionPrefix(all + keys, before + keys, |all|);
    assert (all + keys)[..|all|] == all;
  }

  /** If a client never offers an id twice, the relay never gives a one-time key
      of that client to two fetches, and gives only keys that were offered. */
  lemma RelayGivesEachKeyOnce(ops: seq<AccountOp>, address: string, kind: Kind)
    requires DistinctIds(OfferedTo(ops, address, kind))
    ensures DistinctIds(GivenTo(ops, address, kind))
    ensures forall i :: 0 <= i < |GivenTo(ops, address, kind)| ==>
              GivenTo(ops, address, kind)[i] in OfferedTo(ops, address, kind)
  {
    AccountsKeepPool(ops, address, kind);
    var given, pool := GivenTo(ops, address, kind), PoolAt(RunAccounts(ops), address, kind);
    assert forall i :: 0 <= i < |given| ==> (given + pool)[i] == given[i];
  }

  lemma {:induction false} AccountsKeepPool(ops: seq<AccountOp>, address: string, kind: Kind)
    requires DistinctIds(OfferedTo(ops, address, kind))
    ensures PoolOk(PoolState(PoolAt(RunAccounts(ops), address, kind), GivenTo(ops, address, kind)),
                   OfferedTo(ops, address, kind))
    decreases |ops|
  {
    if ops == [] {
      assert Selection([], []);
    } else {
      hide PoolOk, AccountStep, OfferedKeys, TakenKey, DistinctIds;
      var rest, op := ops[..|ops| - 1], ops[|ops| - 1];
      var before := OfferedTo(rest, address, kind);
      DistinctPrefix(before, OfferedKeys(op, address, kind));
      AccountsKeepPool(rest, address, kind);
      AccountStepKeepsPool(RunAccounts(rest), op, GivenTo(rest, address, kind), before, address, kind);
    }
  }

  // Nothing offered is lost

  /** An upload is kept whole while there is room, and up to the cap otherwise,
      behind what the pool already holds. */
  lemma UploadExact(accounts: map<string, Account>, address: string, update: Update, kind: Kind)
    requires address in accounts
    ensures var before := PoolAt(accounts, address, kind);
      var more := OfferedKeys(Renew(address, update), address, kind);
      var after := PoolAt(AccountStep(accounts, Renew(address, update)).0, address, kind);
      && after <= before + more
      && (|before + more| <= 500 ==> after == before + more)
      && (|before + more| > 500 && more != [] ==> |after| == 500)
  {
    assert PoolAt(accounts, address, kind) + [] == PoolAt(accounts, address, kind);
  }

  /** Registered once, and never uploading more than fits. */
  predicate Modest(ops: seq<AccountOp>, address: string, kind: Kind) {
    if ops == [] then true
    else
      var rest, op := ops[..|ops| - 1], ops[|ops| - 1];
      && Modest(rest, address, kind)
      && (op.address == address && op.Register? ==> address !in RunAccounts(rest))
      && (op.address == address && op.Renew? ==>
            && address in RunAccounts(rest)
            && |PoolAt(RunAccounts(rest), address, kind)| + |OfferedKeys(op, address, kind)| <= 500)
  }

  lemma {:induction false} NothingBeforeRegistration(ops: seq<AccountOp>, address: string, kind: Kind)
    requires address !in RunAccounts(ops)
    ensures GivenTo(ops, address, kind) == []
    decreases |ops|
  {
    if ops != [] {
      NothingBeforeRegistration(ops[..|ops| - 1], address, kind);
    }
  }

  /** Every key offered is either given, in order, or still in the pool. */
  lemma {:induction false} GivenThenPooled(ops: seq<AccountOp>, address: string, kind: Kind)
    requires Modest(ops, address, kind)
    ensures GivenTo(ops, address, kind) + PoolAt(RunAccounts(ops), address, kind) == OfferedTo(ops, address, kind)
    decreases |ops|
  {
    hide AccountStep, PoolAt, OfferedKeys, TakenKey;
    if ops == [] {
      NothingAtFirst(address, kind);
      assert GivenTo(ops, address, kind) == [] && OfferedTo(ops, address, kind) == [] && RunAccounts(ops) == map[];
    } else {
      var rest, op := ops[..|ops| - 1], ops[|ops| - 1];
      GivenThenPooled(rest, address, kind);
      StepAccountsForKeys(RunAccounts(rest), op, address, kind);
      var given := GivenTo(rest, address, kind);
      var more := if op.address == address then TakenKey(AccountStep(RunAccounts(rest), op).1, kind) else [];
      assert given + more + PoolAt(RunAccounts(ops), address, kind)
          == given + (more + PoolAt(RunAccounts(ops), address, kind));
      assert given + (PoolAt(RunAccounts(rest), address, kind) + OfferedKeys(op, address, kind))
          == given + PoolAt(RunAccounts(rest), address, kind) + OfferedKeys(op, address, kind);
    }
  }

  lemma NothingAtFirst(address: string, kind: Kind)
    ensures PoolAt(map[], address, kind) == []
  {
  }

  lemma StepAccountsForKeys(accounts: map<string, Account>, op: AccountOp, address: string, kind: Kind)
    requires op.address == address && op.Register? ==> address !in accounts
    requires op.address == address && op.Renew? ==>
               address in accounts && |PoolAt(accounts, address, kind)| + |OfferedKeys(op, address, kind)| <= 500
    ensures var (after, taken) := AccountStep(accounts, op);
      var given := if op.address == address then TakenKey(taken, kind) else [];
      given + PoolAt(after, address, kind) == PoolAt(accounts, address, kind) + OfferedKeys(op, address, kind)
  {
    hide Extend;
    if op.address != address {
      OtherAddressKeepsPool(accounts, op, address, kind);
    } else {
      match op
      case Register(_, record) =>
      case Renew(_, update) => UploadExact(accounts, address, update, kind);
      case Fetch(_) => FetchTakesFirst(accounts, address, kind);
    }
  }

  lemma OtherAddressKeepsPool(accounts: map<string, Account>, op: AccountOp, address: string, kind: Kind)
    requires op.address != address
    ensures PoolAt(AccountStep(accounts, op).0, address, kind) == PoolAt(accounts, address, kind)
    ensures OfferedKeys(op, address, kind) == []
  {
    hide Extend, Tail;
  }

  /** A fetch hands out the first key of the pool and leaves the rest. */
  lemma FetchTakesFirst(accounts: map<string, Account>, address: string, kind: Kind)
    ensures var (after, taken) := AccountStep(accounts, Fetch(address));
      TakenKey(taken, kind) + PoolAt(after, address, kind) == PoolAt(accounts, address, kind)
    ensures PoolAt(accounts, address, kind) != [] ==> |TakenKey(AccountStep(accounts, Fetch(address)).1, kind)| == 1
  {
    var pool := PoolAt(accounts, address, kind);
    if pool != [] {
      assert [pool[0]] + pool[1..] == pool;
    }
  }

  /** A fetch goes without a key exactly if all keys offered were given before. */
  lemma FetchGoesWithoutIff(ops: seq<AccountOp>, address: string, kind: Kind)
    requires Modest(ops, address, kind)
    ensures TakenKey(AccountStep(RunAccounts(ops), Fetch(address)).1, kind) == []
       <==> GivenTo(ops, address, kind) == OfferedTo(ops, address, kind)
  {
    GivenThenPooled(ops, address, kind);
    var given, pool := GivenTo(ops, address, kind), PoolAt(RunAccounts(ops), address, kind);
    assert given + pool == given <==> pool == [];
  }

  // The rest of an account

  datatype Profile = Profile(identity: Bytes, signedPreKey: PreKey, signedKemPreKey: PreKey)

  /** What an address last registered and renewed, read off the operations. */
  function LatestProfile(ops: seq<AccountOp>, address: string): Option<Profile> {
    if ops == [] then None
    else
      var before := LatestProfile(ops[..|ops| - 1], address);
      var op := ops[|ops| - 1];
      if op.address != address then before
      else
        match op
        case Register(_, r) => Some(Profile(r.identity, r.signedPreKey, r.signedKemPreKey))
        case Renew(_, u) =>
          if before.None? then None
          else
            var signed := if u.signedPreKey.Some? then u.signedPreKey.value else before.value.signedPreKey;
            var signedKem := if u.signedKemPreKey.Some? then u.signedKemPreKey.value else before.value.signedKemPreKey;
            Some(Profile(before.value.identity, signed, signedKem))
        case Fetch(_) => before
  }

  /** An address has an account exactly once it was registered, with the identity it
      registered last and the signed keys it gave last; operations on other
      addresses, fetches and renewals of unknown addresses change nothing of that. */
  lemma {:induction false} AccountIsLatest(ops: seq<AccountOp>, address: string)
    ensures var accounts, latest := RunAccounts(ops), LatestProfile(ops, address);
      && (address in accounts <==> latest.Some?)
      && (address in accounts ==>
            var a := accounts[address];
            latest == Some(Profile(a.identity, a.signedPreKey, a.signedKemPreKey)))
    decreases |ops|
  {
    hide Extend, Tail;
    if ops != [] {
      AccountIsLatest(ops[..|ops| - 1], address);
    }
  }
}
