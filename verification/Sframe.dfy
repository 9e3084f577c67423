/** Media frames: a counter per frame on the sending side, a pruned set and a
    high-water mark against replay on the receiving side. */
module Sframe {
  import opened Wire

  const MAX_FRAME_COUNTER: nat := 0xFFFF_FFFF_FFFF
  const REPLAY_WINDOW: nat := 1024

  /** The (key, nonce) pair derived for one frame of a call key. */
  datatype FrameKey = FrameKey(callKey: Bytes, counter: int)

  datatype Payload =
    | Sealed(key: FrameKey, associatedData: Bytes, plaintext: Bytes)
    | Forged(bytes: Bytes)

  datatype Frame = Frame(counter: int, payload: Payload)

  datatype Verdict = Accepted(plaintext: Bytes) | OutOfRange | Replayed | TooOld | NotAuthentic

  /** The frame counter in eight bytes, then what the caller wants bound. */
  function FrameAd(counter: nat, additionalData: Bytes): Bytes {
    BigEndian(counter, 8) + additionalData
  }

  lemma FrameAdInjective(counter: nat, a: Bytes, b: Bytes)
    requires FrameAd(counter, a) == FrameAd(counter, b)
    ensures a == b
  {
    assert a == FrameAd(counter, a)[8..] && b == FrameAd(counter, b)[8..];
  }

  /** The bytes bound to a frame determine its counter and its additional data. */
  lemma FrameAdBinds(counter: nat, other: nat, a: Bytes, b: Bytes)
    requires counter <= MAX_FRAME_COUNTER && other <= MAX_FRAME_COUNTER
    requires FrameAd(counter, a) == FrameAd(other, b)
    ensures counter == other && a == b
  {
    PowWidths();
    BigEndianRoundTrip(counter, 8);
    BigEndianRoundTrip(other, 8);
    assert BigEndian(counter, 8) == FrameAd(counter, a)[..8] && BigEndian(other, 8) == FrameAd(other, b)[..8];
    assert a == FrameAd(counter, a)[8..] && b == FrameAd(other, b)[8..];
  }

  // -------------------------------------------------------------------------
  // The sender
  // -------------------------------------------------------------------------

  function EncryptAt(key: Bytes, counter: nat, plaintext: Bytes, additionalData: Bytes): Option<Frame> {
    if counter > MAX_FRAME_COUNTER then None
    else Some(Frame(counter, Sealed(FrameKey(key, counter), FrameAd(counter, additionalData), plaintext)))
  }

  class Sender {
    const key: Bytes
    var counter: nat

    constructor (key: Bytes)
      ensures this.key == key && counter == 0
    {
      this.key, counter := key, 0;
    }

    /** Refuses rather than wraps. */
    method EncryptFrame(plaintext: Bytes, additionalData: Bytes) returns (r: Option<Frame>)
      modifies this
      ensures r == EncryptAt(key, old(counter), plaintext, additionalData)
      ensures counter == old(counter) + if r.Some? then 1 else 0
    {
      if counter > MAX_FRAME_COUNTER {
        return None;
      }
      var used := counter;
      counter := counter + 1;
      r := Some(Frame(used, Sealed(FrameKey(key, used), FrameAd(used, additionalData), plaintext)));
    }
  }

  // -------------------------------------------------------------------------
  // The receiver
  // -------------------------------------------------------------------------

  /** `highest` is -1 before the first accepted frame. */
  datatype Window = Window(highest: int, seen: set<nat>)

  function Open(key: Bytes, frame: Frame, additionalData: Bytes): Option<Bytes>
    requires frame.counter >= 0
  {
    var p := frame.payload;
    if p.Sealed? && p.key == FrameKey(key, frame.counter) && p.associatedData == FrameAd(frame.counter, additionalData)
    then Some(p.plaintext) else None
  }

  /** Counters at or below the cutoff are dropped, once the cutoff is positive. */
  function Prune(seen: set<nat>, highest: int): set<nat> {
    var cutoff := highest - REPLAY_WINDOW;
    if cutoff > 0 then set v | v in seen && v > cutoff else seen
  }

  function Accept(w: Window, counter: nat): Window {
    var highest := if counter > w.highest then counter else w.highest;
    Window(highest, Prune(w.seen + {counter}, highest))
  }

  function Decrypt(key: Bytes, w: Window, frame: Frame, additionalData: Bytes): (Window, Verdict) {
    var c := frame.counter;
    if c < 0 || c > MAX_FRAME_COUNTER then (w, OutOfRange)
    else if c in w.seen then (w, Replayed)
    else if w.highest >= 0 && c + REPLAY_WINDOW <= w.highest then (w, TooOld)
    else
      match Open(key, frame, additionalData)
      case None => (w, NotAuthentic)
      case Some(p) => (Accept(w, c), Accepted(p))
  }

  class Receiver {
    const key: Bytes
    var highestCounter: int
    var seen: set<nat>

    ghost function View(): Window
      reads this
    {
      Window(highestCounter, seen)
    }

    constructor (key: Bytes)
      ensures this.key == key && View() == Window(-1, {})
    {
      this.key, highestCounter, seen := key, -1, {};
    }

    method DecryptFrame(frame: Frame, additionalData: Bytes) returns (r: Verdict)
      modifies this
      ensures (View(), r) == Decrypt(key, old(View()), frame, additionalData)
    {
      var counter := frame.counter;
      if counter < 0 || counter > MAX_FRAME_COUNTER {
        return OutOfRange;
      }
      if counter in seen {
        return Replayed;
      }
      if highestCounter >= 0 && counter + REPLAY_WINDOW <= highestCounter {
        return TooOld;
      }
      var plaintext := Open(key, frame, additionalData);
      if plaintext.None? {
        return NotAuthentic;
      }
      seen := seen + {counter};
      if counter > highestCounter {
        highestCounter := counter;
      }
      var cutoff := highestCounter - REPLAY_WINDOW;
      if cutoff > 0 {
        DropUpTo(cutoff);
      }
      r := Accepted(plaintext.value);
    }

    /** The loop that prunes `seen`. */
    method DropUpTo(cutoff: int)
      modifies this`seen
      ensures seen == set v | v in old(seen) && v > cutoff
    {
      var remaining := seen;
      while remaining != {}
        invariant remaining <= seen <= old(seen)
        invariant forall v :: v in old(seen) - remaining ==> (v in seen <==> v > cutoff)
        decreases remaining
      {
        var value :| value in remaining;
        remaining := remaining - {value};
        if value <= cutoff {
          seen := seen - {value};
        }
      }
    }
  }

  // -------------------------------------------------------------------------
  // The ideal receiver
  // -------------------------------------------------------------------------

  /** A receiver that remembers every accepted counter for ever: it accepts an
      authentic frame in range whose counter is new and less than REPLAY_WINDOW
      below every accepted one. */
  ghost predicate IdealAccepts(key: Bytes, accepted: set<nat>, frame: Frame, additionalData: Bytes) {
    && 0 <= frame.counter <= MAX_FRAME_COUNTER
    && frame.counter !in accepted
    && (forall a :: a in accepted ==> a < frame.counter + REPLAY_WINDOW)
    && Open(key, frame, additionalData).Some?
  }

  /** The window stands for the set of all counters accepted so far. */
  ghost predicate Represents(w: Window, accepted: set<nat>) {
    && (forall a :: a in accepted ==> 0 <= a <= w.highest)
    && (if accepted == {} then w.highest == -1 else w.highest in accepted)
    && w.seen == Prune(accepted, w.highest)
  }

  /** Pruned or not, the verdict is the ideal one and the window goes on standing
      for what was accepted. */
  lemma WindowIsIdeal(key: Bytes, w: Window, accepted: set<nat>, frame: Frame, additionalData: Bytes)
    requires Represents(w, accepted)
    ensures var (w', verdict) := Decrypt(key, w, frame, additionalData);
      && (verdict.Accepted? <==> IdealAccepts(key, accepted, frame, additionalData))
      && (verdict.Accepted? ==> Some(verdict.plaintext) == Open(key, frame, additionalData))
      && (if verdict.Accepted? then Represents(w', accepted + {frame.counter}) else w' == w)
  {
    var c := frame.counter;
    var (w', verdict) := Decrypt(key, w, frame, additionalData);
    if verdict.Accepted? {
      assert w'.seen == Prune(accepted + {c}, w'.highest);
    }
  }

  /** Why a frame is refused: its counter is out of range, or was accepted before or
      lies 1024 or more below an accepted one, or it does not authenticate; and of
      the two kinds of replay, what is still in the window is told from what is not. */
  lemma VerdictReasons(key: Bytes, w: Window, accepted: set<nat>, frame: Frame, additionalData: Bytes)
    requires Represents(w, accepted)
    ensures var c := frame.counter;
      var verdict := Decrypt(key, w, frame, additionalData).1;
      var inRange := 0 <= c <= 0xFFFF_FFFF_FFFF;
      var tooOld := exists a :: a in accepted && a >= c + 1024;
      && (verdict == OutOfRange <==> !inRange)
      && (verdict == Replayed || verdict == TooOld <==> inRange && (c in accepted || tooOld))
      && (verdict == Replayed ==> c in accepted)
      && (inRange && c in accepted && !tooOld ==> verdict == Replayed)
      && (verdict == NotAuthentic <==>
            inRange && c !in accepted && !tooOld && Open(key, frame, additionalData) == None)
  {
  }

  datatype Output = Output(counter: nat, plaintext: Bytes, additionalData: Bytes)

  datatype Arrival = Arrival(frame: Frame, additionalData: Bytes)

  datatype Received = Received(window: Window, outputs: seq<Output>)

  /** A whole run of the real receiver, and what it accepted on the way. */
  function Receive(key: Bytes, arrivals: seq<Arrival>): Received {
    if arrivals == [] then Received(Window(-1, {}), [])
    else
      var a := arrivals[|arrivals| - 1];
      var r := Receive(key, arrivals[..|arrivals| - 1]);
      var (w, verdict) := Decrypt(key, r.window, a.frame, a.additionalData);
      var more := if verdict.Accepted? then [Output(a.frame.counter, verdict.plaintext, a.additionalData)] else [];
      Received(w, r.outputs + more)
  }

  function Counters(outputs: seq<Output>): set<nat> {
    set o | o in outputs :: o.counter
  }

  /** The same run of the ideal receiver. */
  ghost function ReceiveIdeally(key: Bytes, arrivals: seq<Arrival>): seq<Output> {
    if arrivals == [] then []
    else
      var a := arrivals[|arrivals| - 1];
      var before := ReceiveIdeally(key, arrivals[..|arrivals| - 1]);
      if IdealAccepts(key, Counters(before), a.frame, a.additionalData)
      then before + [Output(a.frame.counter, Open(key, a.frame, a.additionalData).value, a.additionalData)]
      else before
  }

  lemma CountersAppend(outputs: seq<Output>, o: Output)
    ensures Counters(outputs + [o]) == Counters(outputs) + {o.counter}
  {
    var more := outputs + [o];
    assert more[|outputs|] == o;
    forall x ensures x in more <==> x in outputs || x == o {}
  }

  /** Over every run the bounded window decides exactly as unbounded memory. */
  lemma {:induction false} BoundedEqualsUnbounded(key: Bytes, arrivals: seq<Arrival>)
    ensures Receive(key, arrivals).outputs == ReceiveIdeally(key, arrivals)
    ensures Represents(Receive(key, arrivals).window, Counters(ReceiveIdeally(key, arrivals)))
    decreases |arrivals|
  {
    hide Prune, IdealAccepts, Represents, Decrypt, Open;
    if arrivals == [] {
      EmptyRepresents();
    } else {
      var rest, a := arrivals[..|arrivals| - 1], arrivals[|arrivals| - 1];
      var before := ReceiveIdeally(key, rest);
      BoundedEqualsUnbounded(key, rest);
      var w := Receive(key, rest).window;
      WindowIsIdeal(key, w, Counters(before), a.frame, a.additionalData);
      if IdealAccepts(key, Counters(before), a.frame, a.additionalData) {
        CountersAppend(before, Output(a.frame.counter, Open(key, a.frame, a.additionalData).value, a.additionalData));
      }
    }
  }

  lemma EmptyRepresents()
    ensures Represents(Window(-1, {}), Counters([]))
  {
    assert Counters([]) == {};
  }

  /** Hence no counter is ever accepted twice. */
  lemma {:induction false} NoCounterTwice(key: Bytes, arrivals: seq<Arrival>, i: nat, j: nat)
    requires i < j < |Receive(key, arrivals).outputs|
    ensures Receive(key, arrivals).outputs[i].counter != Receive(key, arrivals).outputs[j].counter
    decreases |arrivals|
  {
    hide IdealAccepts, Represents, Decrypt, Open;
    var rest := arrivals[..|arrivals| - 1];
    BoundedEqualsUnbounded(key, arrivals);
    BoundedEqualsUnbounded(key, rest);
    var before := ReceiveIdeally(key, rest);
    if j < |before| {
      NoCounterTwice(key, rest, i, j);
    } else {
      assert before[i] in before && before[i].counter in Counters(before);
      IdealIsNew(key, Counters(before), arrivals[|arrivals| - 1]);
    }
  }

  lemma IdealIsNew(key: Bytes, accepted: set<nat>, a: Arrival)
    requires IdealAccepts(key, accepted, a.frame, a.additionalData)
    ensures a.frame.counter >= 0 && a.frame.counter !in accepted
  {
  }

  lemma {:induction false} IntervalSize(s: set<nat>, lo: nat, size: nat)
    requires forall v :: v in s ==> lo <= v < lo + size
    ensures |s| <= size
    decreases size
  {
    if size == 0 {
      assert s == {};
    } else {
      var top := lo + size - 1;
      IntervalSize(s - {top}, lo, size - 1);
      if top in s {
        assert |s| == |s - {top}| + 1;
      } else {
        assert s - {top} == s;
      }
    }
  }

  /** And the set stays bounded. */
  lemma SeenStaysBounded(key: Bytes, arrivals: seq<Arrival>)
    ensures |Receive(key, arrivals).window.seen| <= REPLAY_WINDOW + 1
  {
    BoundedEqualsUnbounded(key, arrivals);
    var w := Receive(key, arrivals).window;
    IntervalSize(w.seen, if w.highest > REPLAY_WINDOW then w.highest - REPLAY_WINDOW + 1 else 0, REPLAY_WINDOW + 1);
  }

  // -------------------------------------------------------------------------
  // One sender, one receiver, and a channel between them
  // -------------------------------------------------------------------------

  datatype SentFrame = SentFrame(frame: Frame, plaintext: Bytes, additionalData: Bytes)

  datatype Call = Call(
    key: Bytes,
    next: nat,                    // the sender's counter
    sent: seq<SentFrame>,
    arrivals: seq<Arrival>)       // everything the channel handed to the receiver

  datatype Step = Send(plaintext: Bytes, additionalData: Bytes) | Hand(arrival: Arrival)

  function Next(c: Call, step: Step): Call {
    match step
    case Send(p, ad) =>
      (match EncryptAt(c.key, c.next, p, ad)
       case None => c
       case Some(f) => c.(next := c.next + 1, sent := c.sent + [SentFrame(f, p, ad)]))
    case Hand(a) => c.(arrivals := c.arrivals + [a])
  }

  /** The channel loses, repeats, reorders and alters frames, but seals nothing
      under the call key. */
  ghost predicate Permitted(c: Call, step: Step) {
    step.Hand? && step.arrival.frame.payload.Sealed? && step.arrival.frame.payload.key.callKey == c.key ==>
      exists i :: 0 <= i < |c.sent| && c.sent[i].frame.payload == step.arrival.frame.payload
  }

  function Begin(key: Bytes): Call {
    Call(key, 0, [], [])
  }

  function Run(c: Call, steps: seq<Step>): Call {
    if steps == [] then c else Next(Run(c, steps[..|steps| - 1]), steps[|steps| - 1])
  }

  ghost predicate AllPermitted(c: Call, steps: seq<Step>) {
    forall i :: 0 <= i < |steps| ==> Permitted(Run(c, steps[..i]), steps[i])
  }

  ghost predicate CallInv(c: Call) {
    && c.next == |c.sent| <= MAX_FRAME_COUNTER + 1
    && (forall i :: 0 <= i < |c.sent| ==>
          Some(c.sent[i].frame) == EncryptAt(c.key, i, c.sent[i].plaintext, c.sent[i].additionalData))
    && (forall a :: a in c.arrivals && a.frame.payload.Sealed? && a.frame.payload.key.callKey == c.key ==>
          exists i :: 0 <= i < |c.sent| && c.sent[i].frame.payload == a.frame.payload)
  }

  lemma {:induction false} CallKeepsInv(key: Bytes, steps: seq<Step>)
    requires AllPermitted(Begin(key), steps)
    ensures CallInv(Run(Begin(key), steps)) && Run(Begin(key), steps).key == key
    decreases |steps|
  {
    hide Next, CallInv, Permitted;
    if steps == [] {
      BeginInv(key);
    } else {
      var n := |steps| - 1;
      forall i | 0 <= i < n ensures Permitted(Run(Begin(key), steps[..n][..i]), steps[..n][i]) {
        assert steps[..n][..i] == steps[..i];
        assert Permitted(Run(Begin(key), steps[..i]), steps[i]);
      }
      CallKeepsInv(key, steps[..n]);
      assert Permitted(Run(Begin(key), steps[..n]), steps[n]);
      StepKeepsInv(Run(Begin(key), steps[..n]), steps[n]);
    }
  }

  lemma BeginInv(key: Bytes)
    ensures CallInv(Begin(key)) && Begin(key).key == key
  {
  }

  lemma StepKeepsInv(c: Call, step: Step)
    requires CallInv(c) && Permitted(c, step)
    ensures CallInv(Next(c, step)) && Next(c, step).key == c.key
  {
    var d := Next(c, step);
    forall i | 0 <= i < |c.sent| ensures d.sent[i] == c.sent[i] {}
  }

  /** The sender never repeats a counter, and once past the limit it refuses for
      ever: the frame at position i of a call carries counter i. */
  lemma SenderNeverRepeats(key: Bytes, steps: seq<Step>, i: nat, j: nat)
    requires AllPermitted(Begin(key), steps)
    requires i < j < |Run(Begin(key), steps).sent|
    ensures var c := Run(Begin(key), steps);
      && c.sent[i].frame.counter == i && c.sent[j].frame.counter == j
      && c.sent[i].frame.payload.Sealed? && c.sent[j].frame.payload.Sealed?
      && c.sent[i].frame.payload.key != c.sent[j].frame.payload.key
      && forall p, ad :: EncryptAt(key, c.next, p, ad) == None <==> |c.sent| == MAX_FRAME_COUNTER + 1
  {
    CallKeepsInv(key, steps);
  }

  /** What an authentic arrival under the call key must be. */
  lemma AuthenticWasSent(c: Call, a: Arrival)
    requires CallInv(c) && a in c.arrivals && a.frame.counter >= 0
    requires Open(c.key, a.frame, a.additionalData).Some?
    ensures a.frame.counter < |c.sent|
    ensures c.sent[a.frame.counter].plaintext == Open(c.key, a.frame, a.additionalData).value
    ensures c.sent[a.frame.counter].additionalData == a.additionalData
  {
    var i :| 0 <= i < |c.sent| && c.sent[i].frame.payload == a.frame.payload;
    assert Some(c.sent[i].frame) == EncryptAt(c.key, i, c.sent[i].plaintext, c.sent[i].additionalData);
    FrameAdInjective(i, c.sent[i].additionalData, a.additionalData);
  }

  lemma {:induction false} LogWasSent(c: Call, n: nat)
    requires CallInv(c) && n <= |c.arrivals|
    ensures forall o :: o in Receive(c.key, c.arrivals[..n]).outputs ==>
              && o.counter < |c.sent| && c.sent[o.counter].plaintext == o.plaintext
              && c.sent[o.counter].additionalData == o.additionalData
  {
    hide CallInv, Prune, EncryptAt;
    if n > 0 {
      LogWasSent(c, n - 1);
      assert c.arrivals[..n][..n - 1] == c.arrivals[..n - 1];
      var a := c.arrivals[n - 1];
      var verdict := Decrypt(c.key, Receive(c.key, c.arrivals[..n - 1]).window, a.frame, a.additionalData).1;
      if verdict.Accepted? {
        AuthenticWasSent(c, a);
      }
    }
  }

  /** End to end: the receiver's outputs are among the sent frames, each at most
      once and each the frame sent at its counter with the data sent along. */
  lemma OutputsAreSentFrames(key: Bytes, steps: seq<Step>, i: nat)
    requires AllPermitted(Begin(key), steps)
    requires i < |Receive(key, Run(Begin(key), steps).arrivals).outputs|
    ensures var c := Run(Begin(key), steps);
      var out := Receive(key, c.arrivals).outputs;
      && out[i].counter < |c.sent| && c.sent[out[i].counter].plaintext == out[i].plaintext
      && c.sent[out[i].counter].additionalData == out[i].additionalData
      && forall j :: 0 <= j < i ==> out[j].counter != out[i].counter
  {
    hide CallInv, Receive, Run;
    CallKeepsInv(key, steps);
    var c := Run(Begin(key), steps);
    LogWasSent(c, |c.arrivals|);
    assert c.arrivals[..|c.arrivals|] == c.arrivals;
    var out := Receive(key, c.arrivals).outputs;
    assert out[i] in out;
    forall j | 0 <= j < i ensures out[j].counter != out[i].counter {
      NoCounterTwice(key, c.arrivals, j, i);
    }
  }

  /** A sent frame that reaches the receiver is output exactly when its counter
      was not output before and lies in the window of everything output before. */
  lemma FrameOutputIff(key: Bytes, steps: seq<Step>, counter: nat)
    requires AllPermitted(Begin(key), steps)
    requires counter < |Run(Begin(key), steps).sent|
    ensures var c := Run(Begin(key), steps);
      var r := Receive(key, c.arrivals);
      Decrypt(key, r.window, c.sent[counter].frame, c.sent[counter].additionalData).1
        == Accepted(c.sent[counter].plaintext)
      <==> forall o :: o in r.outputs ==> o.counter != counter && o.counter < counter + REPLAY_WINDOW
  {
    hide Receive, Run, Represents, Decrypt;
    CallKeepsInv(key, steps);
    var c := Run(Begin(key), steps);
    BoundedEqualsUnbounded(key, c.arrivals);
    var r := Receive(key, c.arrivals);
    var f := c.sent[counter];
    assert Some(f.frame) == EncryptAt(key, counter, f.plaintext, f.additionalData);
    WindowIsIdeal(key, r.window, Counters(r.outputs), f.frame, f.additionalData);
    assert Open(key, f.frame, f.additionalData) == Some(f.plaintext);
    forall o | o in r.outputs ensures o.counter in Counters(r.outputs) {}
  }
}
