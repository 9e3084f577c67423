/** Length-hiding padding: append the marker 0x80, then zeros up to a bucket of a
    geometric schedule. */
module Padding {
  import opened Wire

  const PADDING_MARKER: byte := 0x80
  const MIN_BUCKET: nat := 128

  /** ceil(1.25 * n) */
  function Grow(n: nat): nat {
    (5 * n + 3) / 4
  }

  /** The k-th bucket of the schedule. */
  function Schedule(k: nat): nat {
    if k == 0 then MIN_BUCKET else Grow(Schedule(k - 1))
  }

  lemma {:induction false} ScheduleGrows(i: nat, k: nat)
    requires i < k
    ensures MIN_BUCKET <= Schedule(i) < Schedule(k)
  {
    if i + 1 < k {
      ScheduleGrows(i, k - 1);
    } else if i > 0 {
      ScheduleGrows(i - 1, i);
    }
  }

  /** The position of the least bucket that holds `needed` bytes, looked for from
      position `k` on. */
  function LeastFrom(k: nat, needed: nat): (r: nat)
    ensures r >= k && Schedule(r) >= needed
    ensures forall i :: k <= i < r ==> Schedule(i) < needed
    decreases if needed > Schedule(k) then needed - Schedule(k) else 0
  {
    if Schedule(k) >= needed then k
    else
      ScheduleGrows(k, k + 1);
      LeastFrom(k + 1, needed)
  }

  function BucketFor(length: nat): nat {
    Schedule(LeastFrom(0, length + 1))
  }

  method BucketSize(length: int) returns (r: Result<nat>)
    ensures r == if length < 0 then Malformed else Ok(BucketFor(length))
  {
    if length < 0 {
      return Malformed;
    }
    var needed := length + 1;
    var bucket := MIN_BUCKET;
    ghost var k := 0;
    while bucket < needed
      invariant bucket == Schedule(k) && LeastFrom(k, needed) == LeastFrom(0, needed)
      decreases needed - bucket
    {
      ScheduleGrows(k, k + 1);
      bucket := Grow(bucket);
      k := k + 1;
    }
    r := Ok(bucket);
  }

  /** The bucket is the least in the schedule that holds the plaintext and one
      byte more. */
  lemma BucketIsLeast(length: nat)
    ensures exists k: nat :: BucketFor(length) == Schedule(k) && forall i :: 0 <= i < k ==> Schedule(i) <= length
    ensures BucketFor(length) > length
  {
    var k := LeastFrom(0, length + 1);
    assert BucketFor(length) == Schedule(k);
  }

  lemma BucketMonotone(a: nat, b: nat)
    requires a <= b
    ensures BucketFor(a) <= BucketFor(b)
  {
    var i, k := LeastFrom(0, a + 1), LeastFrom(0, b + 1);
    if i < k {
      ScheduleGrows(i, k);
    }
  }

  /** Buckets start at 128 and grow by a quarter, rounded up. */
  lemma ScheduleSteps(k: nat)
    ensures Schedule(0) == 128
    ensures 5 * Schedule(k) <= 4 * Schedule(k + 1) <= 5 * Schedule(k) + 3
  {
  }

  /** Padding costs at most a quarter, rounded up, above the smallest bucket. */
  lemma OverheadBound(length: nat)
    ensures BucketFor(length) <= 128 || 4 * BucketFor(length) <= 5 * length + 3
  {
    var k := LeastFrom(0, length + 1);
    if k > 0 {
      assert Schedule(k - 1) < length + 1;
    }
  }

  // -------------------------------------------------------------------------
  // Padding and stripping
  // -------------------------------------------------------------------------

  function Zeros(n: nat): (z: Bytes)
    ensures |z| == n && forall i :: 0 <= i < n ==> z[i] == 0
  {
    seq(n, i => 0)
  }

  function Padded(plaintext: Bytes): Bytes {
    BucketIsLeast(|plaintext|);
    plaintext + [PADDING_MARKER] + Zeros(BucketFor(|plaintext|) - |plaintext| - 1)
  }

  method Pad(plaintext: Bytes) returns (padded: array<byte>)
    ensures fresh(padded) && padded[..] == Padded(plaintext)
  {
    var size := BucketSize(|plaintext|);
    BucketIsLeast(|plaintext|);
    padded := new byte[size.value](_ => 0);
    forall i | 0 <= i < |plaintext| {
      padded[i] := plaintext[i];
    }
    padded[|plaintext|] := PADDING_MARKER;
  }

  /** What stripping does, from the back. */
  function Stripped(padded: Bytes): Result<Bytes> {
    if padded == [] then Malformed
    else
      var n := |padded| - 1;
      if padded[n] == 0 then Stripped(padded[..n])
      else if padded[n] == PADDING_MARKER then Ok(padded[..n])
      else Malformed
  }

  method Unpad(padded: array<byte>) returns (r: Result<Bytes>)
    ensures r == Stripped(padded[..])
  {
    var i := padded.Length - 1;
    assert padded[..padded.Length] == padded[..];
    while i >= 0
      invariant -1 <= i < padded.Length
      invariant Stripped(padded[..i + 1]) == Stripped(padded[..])
    {
      assert padded[..i + 1][..i] == padded[..i];
      var b := padded[i];
      if b != 0 {
        if b == PADDING_MARKER {
          return Ok(padded[..i]);
        }
        return Malformed;
      }
      i := i - 1;
    }
    r := Malformed;
  }

  lemma {:induction false} StripZeros(x: Bytes, n: nat)
    requires x != [] && x[|x| - 1] == PADDING_MARKER
    ensures Stripped(x + Zeros(n)) == Ok(x[..|x| - 1])
  {
    if n == 0 {
      assert x + Zeros(0) == x;
    } else {
      StripZeros(x, n - 1);
      assert (x + Zeros(n))[..|x| + n - 1] == x + Zeros(n - 1);
    }
  }

  /** Every plaintext survives padding, whatever bytes it ends in. */
  lemma UnpadPad(plaintext: Bytes)
    ensures Stripped(Padded(plaintext)) == Ok(plaintext)
    ensures |Padded(plaintext)| == BucketFor(|plaintext|)
  {
    BucketIsLeast(|plaintext|);
    StripZeros(plaintext + [PADDING_MARKER], BucketFor(|plaintext|) - |plaintext| - 1);
  }

  /** Stripping answers `plaintext` exactly on `plaintext`, the marker, and zeros. */
  lemma {:induction false} StrippedIff(padded: Bytes, plaintext: Bytes)
    ensures Stripped(padded) == Ok(plaintext)
       <==> |plaintext| < |padded| && padded == plaintext + [PADDING_MARKER] + Zeros(|padded| - |plaintext| - 1)
    decreases |padded|
  {
    if Stripped(padded) == Ok(plaintext) {
      StrippedShape(padded);
    }
    if |plaintext| < |padded| && padded == plaintext + [PADDING_MARKER] + Zeros(|padded| - |plaintext| - 1) {
      StripZeros(plaintext + [PADDING_MARKER], |padded| - |plaintext| - 1);
    }
  }

  lemma {:induction false} StrippedShape(padded: Bytes)
    requires Stripped(padded).Ok?
    ensures var n := |Stripped(padded).value|;
      n < |padded| && padded == Stripped(padded).value + [PADDING_MARKER] + Zeros(|padded| - n - 1)
    decreases |padded|
  {
    var k := |padded| - 1;
    assert padded == padded[..k] + [padded[k]];
    if padded[k] == 0 {
      StrippedShape(padded[..k]);
      var n := |Stripped(padded).value|;
      assert Zeros(k - n) == Zeros(k - n - 1) + [0];
    }
  }
}
