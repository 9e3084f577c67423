/** The fixed-window rate limiter, with its bounded bucket map. The clock is a
    parameter of each call. */
module RateLimit {

  const MAX_TRACKED_KEYS: nat := 100_000

  datatype Bucket = Bucket(count: int, windowStart: int)

  type Buckets = map<string, Bucket>

  predicate Live(b: Bucket, windowMs: int, timestamp: int) {
    timestamp - b.windowStart < windowMs
  }

  function DropStale(buckets: Buckets, windowMs: int, timestamp: int): Buckets {
    map key | key in buckets && Live(buckets[key], windowMs, timestamp) :: buckets[key]
  }

  /** `kept` is `buckets` without some `count` of its oldest entries. Ties may be
      broken either way. */
  ghost predicate DropsOldest(buckets: Buckets, kept: Buckets, count: nat) {
    && kept.Keys <= buckets.Keys
    && (forall key :: key in kept ==> kept[key] == buckets[key])
    && |buckets| - |kept| == count
    && forall gone, key :: gone in buckets && gone !in kept && key in kept
         ==> buckets[gone].windowStart <= buckets[key].windowStart
  }

  /** Eviction: first everything stale, then, if that was not enough, the oldest
      tenth of the allowed number. */
  ghost predicate Evicts(before: Buckets, windowMs: int, timestamp: int, after: Buckets) {
    var live := DropStale(before, windowMs, timestamp);
    if |live| < MAX_TRACKED_KEYS then after == live else DropsOldest(live, after, MAX_TRACKED_KEYS / 10)
  }

  ghost predicate MakesRoom(before: Buckets, windowMs: int, timestamp: int, after: Buckets) {
    if |before| < MAX_TRACKED_KEYS then after == before else Evicts(before, windowMs, timestamp, after)
  }

  /** One call of `allow`. */
  ghost predicate Allows(limit: int, windowMs: int, before: Buckets, key: string, timestamp: int,
                         after: Buckets, allowed: bool) {
    if key in before && Live(before[key], windowMs, timestamp) then
      && allowed == (before[key].count < limit)
      && after == (if allowed then before[key := before[key].(count := before[key].count + 1)] else before)
    else
      && allowed
      && exists room :: MakesRoom(before, windowMs, timestamp, room) && after == room[key := Bucket(1, timestamp)]
  }

  class RateLimiter {
    const limit: int
    const windowMs: int
    var buckets: Buckets

    constructor (limit: int, windowMs: int)
      ensures this.limit == limit && this.windowMs == windowMs && buckets == map[]
    {
      this.limit, this.windowMs, buckets := limit, windowMs, map[];
    }

    method Allow(key: string, timestamp: int) returns (allowed: bool)
      modifies this
      ensures Allows(limit, windowMs, old(buckets), key, timestamp, buckets, allowed)
    {
      if key !in buckets || timestamp - buckets[key].windowStart >= windowMs {
        if |buckets| >= MAX_TRACKED_KEYS {
          EvictStale(timestamp);
        }
        ghost var room := buckets;
        assert MakesRoom(old(buckets), windowMs, timestamp, room);
        buckets := buckets[key := Bucket(1, timestamp)];
        return true;
      }
      if buckets[key].count >= limit {
        return false;
      }
      buckets := buckets[key := buckets[key].(count := buckets[key].count + 1)];
      allowed := true;
    }

    method EvictStale(timestamp: int)
      modifies this
      ensures Evicts(old(buckets), windowMs, timestamp, buckets)
    {
      var remaining := buckets.Keys;
      while remaining != {}
        invariant remaining <= buckets.Keys <= old(buckets).Keys
        invariant forall key :: key in buckets ==> buckets[key] == old(buckets)[key]
        invariant forall key :: key in old(buckets).Keys - remaining ==>
                    (key in buckets <==> Live(old(buckets)[key], windowMs, timestamp))
        decreases remaining
      {
        var key :| key in remaining;
        remaining := remaining - {key};
        if timestamp - buckets[key].windowStart >= windowMs {
          buckets := buckets - {key};
        }
      }
      assert buckets == DropStale(old(buckets), windowMs, timestamp);
      if |buckets| >= MAX_TRACKED_KEYS {
        var oldest := KeysOldestFirst(buckets);
        DropFirst(oldest, MAX_TRACKED_KEYS / 10);
      }
    }

    /** Deletes the first `count` keys of the sorted list. */
    method DropFirst(oldest: seq<string>, count: nat)
      requires SortedKeys(buckets, oldest) && count <= |oldest|
      modifies this
      ensures DropsOldest(old(buckets), buckets, count)
    {
      for i := 0 to count
        invariant Remains(old(buckets), oldest, i, buckets)
      {
        RemainsStep(old(buckets), oldest, i, buckets);
        buckets := buckets - {oldest[i]};
      }
      RemainsOldest(old(buckets), oldest, count, buckets);
    }
  }

  /** What is left after the first `i` keys of the list are deleted. */
  ghost predicate Remains(buckets: Buckets, order: seq<string>, i: nat, left: Buckets)
    requires i <= |order|
  {
    && left.Keys <= buckets.Keys && |left| == |buckets| - i
    && (forall key :: key in left ==> left[key] == buckets[key])
    && (forall j :: 0 <= j < |order| ==> (order[j] in left <==> i <= j))
  }

  lemma RemainsStep(buckets: Buckets, order: seq<string>, i: nat, left: Buckets)
    requires SortedKeys(buckets, order) && i < |order| && Remains(buckets, order, i, left)
    ensures Remains(buckets, order, i + 1, left - {order[i]})
  {
    RemoveOne(left, order[i]);
  }

  lemma RemainsOldest(buckets: Buckets, order: seq<string>, count: nat, left: Buckets)
    requires SortedKeys(buckets, order) && count <= |order| && Remains(buckets, order, count, left)
    ensures DropsOldest(buckets, left, count)
  {
    forall gone, key | gone in buckets && gone !in left && key in left
      ensures buckets[gone].windowStart <= buckets[key].windowStart
    {
      assert gone in order && key in order;
      var i :| 0 <= i < |order| && order[i] == gone;
      var j :| 0 <= j < |order| && order[j] == key;
    }
  }

  lemma RemoveOne(buckets: Buckets, key: string)
    requires key in buckets
    ensures |buckets - {key}| == |buckets| - 1
  {
    var rest := buckets - {key};
    assert buckets.Keys == rest.Keys + {key};
    assert |buckets| == |buckets.Keys| && |rest| == |rest.Keys|;
  }

  /** The keys of `buckets`, each once, by non-decreasing window start. */
  ghost predicate SortedKeys(buckets: Buckets, order: seq<string>) {
    && |order| == |buckets|
    && (forall key :: key in order <==> key in buckets)
    && (forall i, j :: 0 <= i < j < |order| ==> order[i] != order[j])
    && (forall i, j :: 0 <= i < j < |order| ==> buckets[order[i]].windowStart <= buckets[order[j]].windowStart)
  }

  /** The library sort over the map's entries, here by repeated selection. */
  method KeysOldestFirst(buckets: Buckets) returns (order: seq<string>)
    ensures SortedKeys(buckets, order)
  {
    order := [];
    var rest := buckets;
    while |rest| > 0
      invariant Selected(buckets, order, rest)
      decreases |rest|
    {
      var key := OldestKey(rest);
      SelectStep(buckets, order, rest, key);
      RemoveOne(rest, key);
      rest := rest - {key};
      order := order + [key];
    }
  }

  /** `order` lists the part of `buckets` taken out so far; `rest` is the rest. */
  ghost predicate Divided(buckets: Buckets, order: seq<string>, rest: Buckets) {
    && rest.Keys <= buckets.Keys && |order| + |rest| == |buckets|
    && (forall key :: key in rest ==> rest[key] == buckets[key])
    && (forall key :: key in order <==> key in buckets && key !in rest)
    && (forall i, j :: 0 <= i < j < |order| ==> order[i] != order[j])
  }

  /** The part taken out is sorted, and nothing in the rest is older. */
  ghost predicate Selected(buckets: Buckets, order: seq<string>, rest: Buckets) {
    && Divided(buckets, order, rest)
    && (forall i, j :: 0 <= i < j < |order| ==> buckets[order[i]].windowStart <= buckets[order[j]].windowStart)
    && (forall i, later :: 0 <= i < |order| && later in rest ==>
          buckets[order[i]].windowStart <= buckets[later].windowStart)
  }

  lemma DivideStep(buckets: Buckets, order: seq<string>, rest: Buckets, key: string)
    requires Divided(buckets, order, rest) && key in rest
    ensures Divided(buckets, order + [key], rest - {key})
  {
    RemoveOne(rest, key);
    assert forall x :: x in order + [key] <==> x in order || x == key;
  }

  lemma SelectStep(buckets: Buckets, order: seq<string>, rest: Buckets, key: string)
    requires Selected(buckets, order, rest) && key in rest
    requires forall other :: other in rest ==> rest[key].windowStart <= rest[other].windowStart
    ensures Selected(buckets, order + [key], rest - {key})
  {
    DivideStep(buckets, order, rest, key);
    assert rest[key] == buckets[key];
    hide Divided;
  }

  method OldestKey(buckets: Buckets) returns (oldest: string)
    requires |buckets| > 0
    ensures oldest in buckets
    ensures forall key :: key in buckets ==> buckets[oldest].windowStart <= buckets[key].windowStart
  {
    assert |buckets.Keys| == |buckets|;
    oldest :| oldest in buckets.Keys;
    var remaining := buckets.Keys;
    while remaining != {}
      invariant remaining <= buckets.Keys && oldest in buckets
      invariant forall key :: key in buckets.Keys - remaining ==>
                  buckets[oldest].windowStart <= buckets[key].windowStart
      decreases remaining
    {
      var key :| key in remaining;
      remaining := remaining - {key};
      if buckets[key].windowStart < buckets[oldest].windowStart {
        oldest := key;
      }
    }
  }

  // -------------------------------------------------------------------------
  // Whole runs
  // -------------------------------------------------------------------------

  datatype Call = Call(key: string, time: int, allowed: bool)

  /** `states[i]` is the bucket map before call `i`; the clock never goes back. */
  ghost predicate Trace(limit: int, windowMs: int, states: seq<Buckets>, calls: seq<Call>) {
    && |states| == |calls| + 1 && states[0] == map[]
    && (forall i :: 0 <= i < |calls| ==>
          Allows(limit, windowMs, states[i], calls[i].key, calls[i].time, states[i + 1], calls[i].allowed))
    && (forall i, j :: 0 <= i < j < |calls| ==> calls[i].time <= calls[j].time)
  }

  lemma StaleSize(before: Buckets, windowMs: int, timestamp: int)
    ensures |DropStale(before, windowMs, timestamp)| <= |before|
  {
    var live := DropStale(before, windowMs, timestamp);
    assert live.Keys <= before.Keys;
    SubsetSize(live.Keys, before.Keys);
    assert |live| == |live.Keys| && |before| == |before.Keys|;
  }

  lemma {:induction false} SubsetSize(a: set<string>, b: set<string>)
    requires a <= b
    ensures |a| <= |b|
  {
    if a != {} {
      var x :| x in a;
      SubsetSize(a - {x}, b - {x});
    }
  }

  lemma AllowKeepsSize(limit: int, windowMs: int, before: Buckets, key: string, timestamp: int, after: Buckets,
                       allowed: bool)
    requires Allows(limit, windowMs, before, key, timestamp, after, allowed)
    requires |before| <= MAX_TRACKED_KEYS
    ensures |after| <= MAX_TRACKED_KEYS
  {
    StaleSize(before, windowMs, timestamp);
    if key in before && Live(before[key], windowMs, timestamp) {
      assert after.Keys == before.Keys;
      assert |after| == |after.Keys| && |before| == |before.Keys|;
    } else {
      var room :| MakesRoom(before, windowMs, timestamp, room) && after == room[key := Bucket(1, timestamp)];
      assert |room| < MAX_TRACKED_KEYS;
      assert after.Keys == room.Keys + {key};
      assert |after| == |after.Keys| && |room| == |room.Keys|;
    }
  }

  /** The bucket map never holds more than MAX_TRACKED_KEYS keys. */
  lemma {:induction false} TrackedKeysBounded(limit: int, windowMs: int, states: seq<Buckets>, calls: seq<Call>, n: nat)
    requires Trace(limit, windowMs, states, calls) && n <= |calls|
    ensures |states[n]| <= MAX_TRACKED_KEYS
  {
    if n > 0 {
      TrackedKeysBounded(limit, windowMs, states, calls, n - 1);
      AllowKeepsSize(limit, windowMs, states[n - 1], calls[n - 1].key, calls[n - 1].time, states[n],
                     calls[n - 1].allowed);
    }
  }

  // -------------------------------------------------------------------------
  // The rate bound
  // -------------------------------------------------------------------------

  function Counts(c: Call, key: string, from: int): nat {
    if c.key == key && c.allowed && c.time >= from then 1 else 0
  }

  /** Allowed calls of `key` at or after `from`. */
  function AllowedFrom(calls: seq<Call>, key: string, from: int): nat {
    if calls == [] then 0
    else AllowedFrom(calls[..|calls| - 1], key, from) + Counts(calls[|calls| - 1], key, from)
  }

  /** Allowed calls of `key` in [from, to). */
  function AllowedIn(calls: seq<Call>, key: string, from: int, to: int): nat {
    if calls == [] then 0
    else
      var c := calls[|calls| - 1];
      AllowedIn(calls[..|calls| - 1], key, from, to) + (if c.time < to then Counts(c, key, from) else 0)
  }

  lemma {:induction false} AllowedFromMonotone(calls: seq<Call>, key: string, from: int, later: int)
    requires from <= later
    ensures AllowedFrom(calls, key, later) <= AllowedFrom(calls, key, from)
  {
    if calls != [] {
      AllowedFromMonotone(calls[..|calls| - 1], key, from, later);
    }
  }

  lemma {:induction false} AllowedInBound(calls: seq<Call>, key: string, from: int, to: int)
    ensures AllowedIn(calls, key, from, to) <= AllowedFrom(calls, key, from)
    ensures to <= from ==> AllowedIn(calls, key, from, to) == 0
  {
    if calls != [] {
      AllowedInBound(calls[..|calls| - 1], key, from, to);
    }
  }

  /** A live bucket of `key` disappeared in this call. */
  predicate ForcedOut(windowMs: int, before: Buckets, time: int, after: Buckets, key: string) {
    key in before && Live(before[key], windowMs, time) && key !in after
  }

  /** Even a limit of zero lets the first call of a window through. */
  function PerWindow(limit: int): nat {
    if limit >= 1 then limit else 1
  }

  /** What the bucket of `key`, or its absence, says about the past. */
  ghost predicate BucketTells(limit: int, windowMs: int, calls: seq<Call>, buckets: Buckets, now: int, key: string) {
    if key in buckets then
      var b := buckets[key];
      && b.windowStart <= now
      && 1 <= b.count == AllowedFrom(calls, key, b.windowStart) <= PerWindow(limit)
      && AllowedFrom(calls, key, b.windowStart - windowMs) <= PerWindow(limit) + b.count
      && AllowedFrom(calls, key, b.windowStart + windowMs) == 0
    else
      && AllowedFrom(calls, key, now - windowMs) <= PerWindow(limit)
      && AllowedFrom(calls, key, now) == 0
  }

  predicate IntervalOk(limit: int, windowMs: int, calls: seq<Call>, key: string, from: int) {
    AllowedIn(calls, key, from, from + windowMs) <= 2 * PerWindow(limit)
  }

  ghost predicate Bounded(limit: int, windowMs: int, calls: seq<Call>, key: string) {
    forall from :: IntervalOk(limit, windowMs, calls, key, from)
  }

  /** Time passing without a call of `key`, and buckets going stale, keep it. */
  lemma TimePasses(limit: int, windowMs: int, calls: seq<Call>, before: Buckets, after: Buckets, now: int, time: int,
                   key: string)
    requires windowMs > 0 && now <= time
    requires BucketTells(limit, windowMs, calls, before, now, key)
    requires key in after ==> key in before && after[key] == before[key]
    requires key in before && key !in after ==> !Live(before[key], windowMs, time)
    ensures BucketTells(limit, windowMs, calls, after, time, key)
  {
    if key !in after {
      if key in before {
        var b := before[key];
        AllowedFromMonotone(calls, key, b.windowStart + windowMs, time);
        AllowedFromMonotone(calls, key, b.windowStart, time - windowMs);
      } else {
        AllowedFromMonotone(calls, key, now, time);
        AllowedFromMonotone(calls, key, now - windowMs, time - windowMs);
      }
    }
  }

  /** A call of another key. */
  lemma OtherKey(calls: seq<Call>, c: Call, key: string, from: int, to: int)
    requires c.key != key || !c.allowed
    ensures AllowedFrom(calls + [c], key, from) == AllowedFrom(calls, key, from)
    ensures AllowedIn(calls + [c], key, from, to) == AllowedIn(calls, key, from, to)
  {
    assert (calls + [c])[..|calls|] == calls;
  }

  /** An allowed call of `key` whose window is the only one, or the second of
      two, that reach into the last `windowMs`. */
  lemma NewCallBounded(limit: int, windowMs: int, calls: seq<Call>, c: Call, key: string, recent: int)
    requires Bounded(limit, windowMs, calls, key)
    requires c.key == key && c.allowed && recent <= c.time - windowMs + 1
    requires AllowedFrom(calls + [c], key, recent) <= 2 * PerWindow(limit)
    ensures Bounded(limit, windowMs, calls + [c], key)
  {
    forall from ensures IntervalOk(limit, windowMs, calls + [c], key, from) {
      assert (calls + [c])[..|calls|] == calls;
      if from <= c.time < from + windowMs {
        AllowedInBound(calls + [c], key, from, from + windowMs);
        AllowedFromMonotone(calls + [c], key, recent, from);
      } else {
        assert IntervalOk(limit, windowMs, calls, key, from);
      }
    }
  }

  lemma OwnCall(limit: int, windowMs: int, calls: seq<Call>, before: Buckets, after: Buckets, c: Call, now: int)
    requires windowMs > 0 && now <= c.time
    requires BucketTells(limit, windowMs, calls, before, now, c.key) && Bounded(limit, windowMs, calls, c.key)
    requires Allows(limit, windowMs, before, c.key, c.time, after, c.allowed)
    ensures BucketTells(limit, windowMs, calls + [c], after, c.time, c.key)
    ensures Bounded(limit, windowMs, calls + [c], c.key)
  {
    hide MakesRoom;
    var key := c.key;
    assert (calls + [c])[..|calls|] == calls;
    if key in before && Live(before[key], windowMs, c.time) {
      var start := before[key].windowStart;
      if c.allowed {
        NewCallBounded(limit, windowMs, calls, c, key, start - windowMs);
      } else {
        forall from ensures IntervalOk(limit, windowMs, calls + [c], key, from) {
          OtherKey(calls, c, key, from, from + windowMs);
          assert IntervalOk(limit, windowMs, calls, key, from);
        }
      }
    } else {
      TimePasses(limit, windowMs, calls, before, map[], now, c.time, key);
      AllowedFromMonotone(calls, key, c.time, c.time + windowMs);
      NewCallBounded(limit, windowMs, calls, c, key, c.time - windowMs);
    }
  }

  /** What a call of one key can do to the bucket of another. */
  lemma OthersBucket(limit: int, windowMs: int, before: Buckets, c: Call, after: Buckets, key: string)
    requires Allows(limit, windowMs, before, c.key, c.time, after, c.allowed) && key != c.key
    requires !ForcedOut(windowMs, before, c.time, after, key)
    ensures key in after ==> key in before && after[key] == before[key]
    ensures key in before && key !in after ==> !Live(before[key], windowMs, c.time)
  {
  }

  lemma {:induction false} TraceTells(limit: int, windowMs: int, states: seq<Buckets>, calls: seq<Call>, key: string,
                                      n: nat)
    requires Trace(limit, windowMs, states, calls) && windowMs > 0 && 0 < n <= |calls|
    requires forall i :: 0 <= i < |calls| ==> !ForcedOut(windowMs, states[i], calls[i].time, states[i + 1], key)
    ensures BucketTells(limit, windowMs, calls[..n], states[n], calls[n - 1].time, key)
    ensures Bounded(limit, windowMs, calls[..n], key)
  {
    hide Allows, Bounded;
    var c := calls[n - 1];
    var past := calls[..n - 1];
    assert calls[..n] == past + [c];
    var now := if n == 1 then c.time else calls[n - 2].time;
    if n == 1 {
      NothingYet(limit, windowMs, states[0], c.time, key);
      assert past == [];
    } else {
      TraceTells(limit, windowMs, states, calls, key, n - 1);
    }
    if c.key == key {
      OwnCall(limit, windowMs, past, states[n - 1], states[n], c, now);
    } else {
      OthersBucket(limit, windowMs, states[n - 1], c, states[n], key);
      TimePasses(limit, windowMs, past, states[n - 1], states[n], now, c.time, key);
      OtherCall(limit, windowMs, past, c, states[n], c.time, key);
    }
  }

  lemma NothingYet(limit: int, windowMs: int, buckets: Buckets, now: int, key: string)
    requires buckets == map[]
    ensures BucketTells(limit, windowMs, [], buckets, now, key) && Bounded(limit, windowMs, [], key)
  {
  }

  lemma OtherCall(limit: int, windowMs: int, calls: seq<Call>, c: Call, buckets: Buckets, now: int, key: string)
    requires c.key != key
    requires BucketTells(limit, windowMs, calls, buckets, now, key) && Bounded(limit, windowMs, calls, key)
    ensures BucketTells(limit, windowMs, calls + [c], buckets, now, key)
    ensures Bounded(limit, windowMs, calls + [c], key)
  {
    forall from ensures AllowedFrom(calls + [c], key, from) == AllowedFrom(calls, key, from) {
      OtherKey(calls, c, key, from, from);
    }
    forall from ensures IntervalOk(limit, windowMs, calls + [c], key, from) {
      OtherKey(calls, c, key, from, from + windowMs);
      assert IntervalOk(limit, windowMs, calls, key, from);
    }
  }

  /** In any time interval [from, from + windowMs) a key whose live bucket is
      never forced out gets at most twice the limit. */
  lemma RateBound(limit: int, windowMs: int, states: seq<Buckets>, calls: seq<Call>, key: string, from: int)
    requires Trace(limit, windowMs, states, calls)
    requires forall i :: 0 <= i < |calls| ==> !ForcedOut(windowMs, states[i], calls[i].time, states[i + 1], key)
    ensures AllowedIn(calls, key, from, from + windowMs) <= 2 * PerWindow(limit)
  {
    if windowMs <= 0 || calls == [] {
      AllowedInBound(calls, key, from, from + windowMs);
    } else {
      TraceTells(limit, windowMs, states, calls, key, |calls|);
      assert calls[..|calls|] == calls;
      assert IntervalOk(limit, windowMs, calls, key, from);
    }
  }

  // -------------------------------------------------------------------------
  // What is allowed for certain
  // -------------------------------------------------------------------------

  /** A bucket counts no more calls than were allowed since it was opened. */
  ghost predicate CountsAllowed(calls: seq<Call>, buckets: Buckets, now: int, key: string) {
    key in buckets ==>
      && buckets[key].windowStart <= now
      && 1 <= buckets[key].count <= AllowedFrom(calls, key, buckets[key].windowStart)
  }

  lemma CallKeepsCounts(limit: int, windowMs: int, calls: seq<Call>, before: Buckets, after: Buckets, c: Call, now: int,
                        key: string)
    requires now <= c.time && CountsAllowed(calls, before, now, key)
    requires Allows(limit, windowMs, before, c.key, c.time, after, c.allowed)
    ensures CountsAllowed(calls + [c], after, c.time, key)
  {
    assert (calls + [c])[..|calls|] == calls;
    if key != c.key {
      OthersAfter(limit, windowMs, before, c, after, key);
    }
  }

  /** A call leaves the bucket of another key as it is, or removes it. */
  lemma OthersAfter(limit: int, windowMs: int, before: Buckets, c: Call, after: Buckets, key: string)
    requires Allows(limit, windowMs, before, c.key, c.time, after, c.allowed) && key != c.key
    ensures key in after ==> key in before && after[key] == before[key]
  {
  }

  lemma {:induction false} TraceCounts(limit: int, windowMs: int, states: seq<Buckets>, calls: seq<Call>, key: string,
                                       n: nat, now: int)
    requires Trace(limit, windowMs, states, calls) && n <= |calls|
    requires n > 0 ==> now >= calls[n - 1].time
    ensures CountsAllowed(calls[..n], states[n], now, key)
  {
    hide Allows;
    if n > 0 {
      var c := calls[n - 1];
      assert calls[..n] == calls[..n - 1] + [c];
      TraceCounts(limit, windowMs, states, calls, key, n - 1, c.time);
      CallKeepsCounts(limit, windowMs, calls[..n - 1], states[n - 1], states[n], c, c.time, key);
    }
  }

  /** The limiter refuses only who has had the limit: when a call is refused, at
      least `limit` calls of that key, and at least one, were allowed at times later
      than `windowMs` before it. So whoever had fewer is allowed. */
  lemma RefusedHadLimit(limit: int, windowMs: int, states: seq<Buckets>, calls: seq<Call>, i: nat)
    requires Trace(limit, windowMs, states, calls) && i < |calls| && !calls[i].allowed
    ensures AllowedFrom(calls[..i], calls[i].key, calls[i].time - windowMs + 1) >= limit
    ensures AllowedFrom(calls[..i], calls[i].key, calls[i].time - windowMs + 1) >= 1
  {
    var c := calls[i];
    assert Allows(limit, windowMs, states[i], c.key, c.time, states[i + 1], c.allowed);
    TraceCounts(limit, windowMs, states, calls, c.key, i, c.time);
    AllowedFromMonotone(calls[..i], c.key, c.time - windowMs + 1, states[i][c.key].windowStart);
  }

  function LiveKeys(buckets: Buckets, windowMs: int, time: int): set<string> {
    set key | key in buckets && time - buckets[key].windowStart < windowMs
  }

  /** Making room drops live buckets only from a full map of live ones. */
  lemma RoomIsModest(before: Buckets, windowMs: int, time: int, room: Buckets)
    requires MakesRoom(before, windowMs, time, room)
    ensures var live := LiveKeys(before, windowMs, time);
      && (live - room.Keys != {} ==> |live| >= 100_000 && |live - room.Keys| == 10_000)
      && (forall lost, kept :: lost in live - room.Keys && kept in live && kept in room ==>
            before[lost].windowStart <= before[kept].windowStart)
  {
    var live, keys := DropStale(before, windowMs, time), LiveKeys(before, windowMs, time);
    assert live.Keys == keys && |live| == |live.Keys|;
    if |before| >= MAX_TRACKED_KEYS && |live| >= MAX_TRACKED_KEYS {
      assert |room| == |room.Keys| && keys == room.Keys + (keys - room.Keys);
    }
  }

  /** Forced eviction is modest: a call makes live buckets disappear only if 100 000
      of them were live, then exactly 10 000 of them, and none that is newer than one
      that stays. */
  lemma ForcedEvictionModest(limit: int, windowMs: int, before: Buckets, c: Call, after: Buckets)
    requires Allows(limit, windowMs, before, c.key, c.time, after, c.allowed)
    ensures var live := LiveKeys(before, windowMs, c.time);
      && (live - after.Keys != {} ==> |live| >= 100_000 && |live - after.Keys| == 10_000)
      && (forall lost, kept :: lost in live - after.Keys && kept in live && kept in after ==>
            before[lost].windowStart <= before[kept].windowStart)
  {
    hide MakesRoom;
    var keys := LiveKeys(before, windowMs, c.time);
    if c.key in before && Live(before[c.key], windowMs, c.time) {
      assert keys - after.Keys == {};
    } else {
      var room :| MakesRoom(before, windowMs, c.time, room) && after == room[c.key := Bucket(1, c.time)];
      RoomIsModest(before, windowMs, c.time, room);
      assert keys - after.Keys == keys - room.Keys;
    }
  }
}
