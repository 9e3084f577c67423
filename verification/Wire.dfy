/** The binary codec: big-endian integers, raw fields and length-prefixed fields.

    `Encode` says which bytes a list of fields stands for and `Parse` what a
    bounds-checking reader makes of some bytes. The two classes are the
    source's stateful `Writer` and `Reader`, tied to those functions. */
module Wire {

  type byte = x: int | 0 <= x < 0x100
  type Bytes = seq<byte>
  type u32 = x: int | 0 <= x < 0x1_0000_0000

  datatype Option<+T> = None | Some(value: T)

  /** `Malformed` stands for the source's MalformedInputError. */
  datatype Result<+T> = Ok(value: T) | Malformed
  {
    predicate IsFailure() { Malformed? }
    function PropagateFailure<U>(): Result<U> requires Malformed? { Malformed }
    function Extract(): T requires Ok? { value }
  }

  // -------------------------------------------------------------------------
  // Big-endian integers
  // -------------------------------------------------------------------------

  function Pow256(n: nat): (p: nat)
    ensures p >= 1
  {
    if n == 0 then 1 else 256 * Pow256(n - 1)
  }

  function BigEndian(value: nat, width: nat): (b: Bytes)
    ensures |b| == width
  {
    if width == 0 then [] else BigEndian(value / 256, width - 1) + [value % 256]
  }

  function Value(b: Bytes): nat {
    if b == [] then 0 else 256 * Value(b[..|b| - 1]) + b[|b| - 1]
  }

  lemma {:induction false} BigEndianRoundTrip(value: nat, width: nat)
    requires value < Pow256(width)
    ensures Value(BigEndian(value, width)) == value
  {
    if width > 0 {
      BigEndianRoundTrip(value / 256, width - 1);
      var b := BigEndian(value, width);
      assert b[..|b| - 1] == BigEndian(value / 256, width - 1);
    }
  }

  lemma {:induction false} ValueBound(b: Bytes)
    ensures Value(b) < Pow256(|b|)
  {
    if b != [] {
      ValueBound(b[..|b| - 1]);
    }
  }

  lemma {:induction false} ValueInjective(a: Bytes, b: Bytes)
    requires |a| == |b| && Value(a) == Value(b)
    ensures a == b
  {
    if a != [] {
      var k := |a| - 1;
      assert Value(a) % 256 == a[k] && Value(b) % 256 == b[k];
      ValueInjective(a[..k], b[..k]);
      assert a == a[..k] + [a[k]] && b == b[..k] + [b[k]];
    }
  }

  lemma PowWidths()
    ensures Pow256(1) == 0x100
    ensures Pow256(4) == 0x1_0000_0000
    ensures Pow256(8) == 0x1_0000_0000_0000_0000
  {
    assert Pow256(2) == 0x1_0000;
    assert Pow256(3) == 0x100_0000;
    assert Pow256(5) == 0x100_0000_0000;
    assert Pow256(6) == 0x1_0000_0000_0000;
    assert Pow256(7) == 0x100_0000_0000_0000;
  }

  // -------------------------------------------------------------------------
  // Fields and their encoding
  // -------------------------------------------------------------------------

  datatype Field =
    | Uint(width: nat, value: int)   // u8, u32 or u64
    | Fixed(bytes: Bytes)            // raw, no length prefix
    | Prefixed(bytes: Bytes)         // length-prefixed

  predicate InRange(f: Field) {
    match f
    case Uint(w, v) => 0 <= v < Pow256(w)
    case Fixed(_) => true
    case Prefixed(b) => |b| < Pow256(4)
  }

  /** One, four and eight bytes, and a four-byte length. */
  lemma RangeLimits(v: int, b: Bytes)
    ensures InRange(Uint(1, v)) <==> 0 <= v < 0x100
    ensures InRange(Uint(4, v)) <==> 0 <= v < 0x1_0000_0000
    ensures InRange(Uint(8, v)) <==> 0 <= v < 0x1_0000_0000_0000_0000
    ensures InRange(Prefixed(b)) <==> |b| < 0x1_0000_0000
    ensures InRange(Fixed(b))
  {
    PowWidths();
  }

  predicate AllInRange(fs: seq<Field>) {
    forall f :: f in fs ==> InRange(f)
  }

  function EncodeField(f: Field): Bytes
    requires InRange(f)
  {
    match f
    case Uint(w, v) => BigEndian(v, w)
    case Fixed(b) => b
    case Prefixed(b) => BigEndian(|b|, 4) + b
  }

  function Encode(fs: seq<Field>): Bytes
    requires AllInRange(fs)
  {
    if fs == [] then [] else EncodeField(fs[0]) + Encode(fs[1..])
  }

  /** What a reader has to know beforehand about a field. */
  datatype Shape = UintShape(width: nat) | FixedShape(length: nat) | PrefixedShape

  function ShapeOf(f: Field): Shape {
    match f
    case Uint(w, _) => UintShape(w)
    case Fixed(b) => FixedShape(|b|)
    case Prefixed(_) => PrefixedShape
  }

  function ShapesOf(fs: seq<Field>): (shapes: seq<Shape>)
    ensures |shapes| == |fs|
    ensures forall i :: 0 <= i < |fs| ==> shapes[i] == ShapeOf(fs[i])
  {
    seq(|fs|, i requires 0 <= i < |fs| => ShapeOf(fs[i]))
  }

  // -------------------------------------------------------------------------
  // Reading
  // -------------------------------------------------------------------------

  /** The first `n` bytes and what is left of them. */
  function Take(b: Bytes, n: int): Result<(Bytes, Bytes)> {
    if n < 0 || n > |b| then Malformed else Ok((b[..n], b[n..]))
  }

  function ReadUint(b: Bytes, width: nat): Result<(nat, Bytes)> {
    var (head, rest) :- Take(b, width);
    Ok((Value(head), rest))
  }

  function ReadPrefixed(b: Bytes): Result<(Bytes, Bytes)> {
    var (length, rest) :- ReadUint(b, 4);
    Take(rest, length)
  }

  function ReadField(b: Bytes, shape: Shape): Result<(Field, Bytes)> {
    match shape
    case UintShape(w) => var (v, rest) :- ReadUint(b, w); Ok((Uint(w, v), rest))
    case FixedShape(n) => var (x, rest) :- Take(b, n); Ok((Fixed(x), rest))
    case PrefixedShape => var (x, rest) :- ReadPrefixed(b); Ok((Prefixed(x), rest))
  }

  function Parse(b: Bytes, shapes: seq<Shape>): Result<(seq<Field>, Bytes)> {
    if shapes == [] then Ok(([], b))
    else
      var (f, rest) :- ReadField(b, shapes[0]);
      var (fs, end) :- Parse(rest, shapes[1..]);
      Ok(([f] + fs, end))
  }

  lemma ReadUintBack(value: nat, width: nat, rest: Bytes)
    requires value < Pow256(width)
    ensures ReadUint(BigEndian(value, width) + rest, width) == Ok((value, rest))
  {
    BigEndianRoundTrip(value, width);
    var b := BigEndian(value, width) + rest;
    assert b[..width] == BigEndian(value, width) && b[width..] == rest;
  }

  lemma ReadPrefixedBack(x: Bytes, rest: Bytes)
    requires |x| < Pow256(4)
    ensures ReadPrefixed(EncodeField(Prefixed(x)) + rest) == Ok((x, rest))
  {
    assert EncodeField(Prefixed(x)) + rest == BigEndian(|x|, 4) + (x + rest);
    ReadUintBack(|x|, 4, x + rest);
    assert (x + rest)[..|x|] == x && (x + rest)[|x|..] == rest;
  }

  lemma ReadFieldBack(f: Field, rest: Bytes)
    requires InRange(f)
    ensures ReadField(EncodeField(f) + rest, ShapeOf(f)) == Ok((f, rest))
  {
    match f
    case Uint(w, v) => ReadUintBack(v, w, rest);
    case Fixed(x) => assert (x + rest)[..|x|] == x && (x + rest)[|x|..] == rest;
    case Prefixed(x) => ReadPrefixedBack(x, rest);
  }

  /** Reading back what was written recovers every field and stops exactly at
      the end of what was written, whatever follows. */
  lemma {:induction false} RoundTrip(fs: seq<Field>, rest: Bytes)
    requires AllInRange(fs)
    ensures Parse(Encode(fs) + rest, ShapesOf(fs)) == Ok((fs, rest))
  {
    if fs == [] {
      assert Encode(fs) + rest == rest;
    } else {
      assert Encode(fs) + rest == EncodeField(fs[0]) + (Encode(fs[1..]) + rest);
      ReadFieldBack(fs[0], Encode(fs[1..]) + rest);
      RoundTrip(fs[1..], rest);
      assert ShapesOf(fs)[1..] == ShapesOf(fs[1..]);
      assert [fs[0]] + fs[1..] == fs;
    }
  }

  /** Two encodings of the same layout that agree as bytes agree in every
      field, even when each is followed by something else. */
  lemma Unambiguous(fs: seq<Field>, gs: seq<Field>, fRest: Bytes, gRest: Bytes)
    requires AllInRange(fs) && AllInRange(gs)
    requires ShapesOf(fs) == ShapesOf(gs)
    requires Encode(fs) + fRest == Encode(gs) + gRest
    ensures fs == gs && fRest == gRest
  {
    RoundTrip(fs, fRest);
    RoundTrip(gs, gRest);
  }

  // Reading never goes past the end: what a shorter input yields, a longer one
  // yields as well, so a truncated encoding is refused

  lemma ReadUintExtends(b: Bytes, width: nat, more: Bytes)
    ensures var r := ReadUint(b, width);
      r.Ok? ==> ReadUint(b + more, width) == Ok((r.value.0, r.value.1 + more))
  {
    if width <= |b| {
      assert (b + more)[..width] == b[..width] && (b + more)[width..] == b[width..] + more;
    }
  }

  lemma ReadPrefixedExtends(b: Bytes, more: Bytes)
    ensures var r := ReadPrefixed(b);
      r.Ok? ==> ReadPrefixed(b + more) == Ok((r.value.0, r.value.1 + more))
  {
    ReadUintExtends(b, 4, more);
    var l := ReadUint(b, 4);
    if l.Ok? && l.value.0 <= |l.value.1| {
      var (n, rest) := l.value;
      assert (rest + more)[..n] == rest[..n] && (rest + more)[n..] == rest[n..] + more;
    }
  }

  lemma ReadFieldExtends(b: Bytes, shape: Shape, more: Bytes)
    ensures var r := ReadField(b, shape);
      r.Ok? ==> ReadField(b + more, shape) == Ok((r.value.0, r.value.1 + more))
  {
    match shape
    case UintShape(w) => ReadUintExtends(b, w, more);
    case FixedShape(n) =>
      if n <= |b| {
        assert (b + more)[..n] == b[..n] && (b + more)[n..] == b[n..] + more;
      }
    case PrefixedShape => ReadPrefixedExtends(b, more);
  }

  lemma {:induction false} ParseExtends(b: Bytes, shapes: seq<Shape>, more: Bytes)
    ensures var r := Parse(b, shapes);
      r.Ok? ==> Parse(b + more, shapes) == Ok((r.value.0, r.value.1 + more))
    decreases |shapes|
  {
    hide ReadField;
    if shapes != [] {
      ReadFieldExtends(b, shapes[0], more);
      var r := ReadField(b, shapes[0]);
      if r.Ok? {
        ParseExtends(r.value.1, shapes[1..], more);
      }
    }
  }

  /** Every proper prefix of an encoding is refused. */
  lemma TruncatedRefused(fs: seq<Field>, k: nat)
    requires AllInRange(fs) && k < |Encode(fs)|
    ensures Parse(Encode(fs)[..k], ShapesOf(fs)).Malformed?
  {
    hide Encode, Parse;
    var b := Encode(fs);
    ParseExtends(b[..k], ShapesOf(fs), b[k..]);
    assert b[..k] + b[k..] == b && b + [] == b;
    RoundTrip(fs, []);
  }

  // -------------------------------------------------------------------------
  // The stateful writer
  // -------------------------------------------------------------------------

  function Flatten(chunks: seq<Bytes>): Bytes {
    if chunks == [] then [] else Flatten(chunks[..|chunks| - 1]) + chunks[|chunks| - 1]
  }

  class Writer {
    var chunks: seq<Bytes>
    var length: nat

    ghost predicate Valid()
      reads this
    {
      length == |Flatten(chunks)|
    }

    ghost function Contents(): Bytes
      reads this
    {
      Flatten(chunks)
    }

    constructor ()
      ensures Valid() && Contents() == []
    {
      chunks, length := [], 0;
    }

    method Push(chunk: Bytes)
      requires Valid()
      modifies this
      ensures Valid() && Contents() == old(Contents()) + chunk
    {
      chunks := chunks + [chunk];
      length := length + |chunk|;
      assert chunks[..|chunks| - 1] == old(chunks);
    }

    /** `width` is 1, 4 or 8. Out-of-range values are refused, never truncated. */
    method PutUint(width: nat, value: int) returns (ok: bool)
      requires Valid()
      modifies this
      ensures Valid()
      ensures ok == InRange(Uint(width, value))
      ensures Contents() == old(Contents()) + if ok then EncodeField(Uint(width, value)) else []
    {
      ok := 0 <= value < Pow256(width);
      if ok {
        Push(BigEndian(value, width));
      }
    }

    method PutFixed(bytes: Bytes)
      requires Valid()
      modifies this
      ensures Valid() && Contents() == old(Contents()) + EncodeField(Fixed(bytes))
    {
      Push(bytes);
    }

    method PutPrefixed(bytes: Bytes) returns (ok: bool)
      requires Valid()
      modifies this
      ensures Valid()
      ensures ok == InRange(Prefixed(bytes))
      ensures Contents() == old(Contents()) + if ok then EncodeField(Prefixed(bytes)) else []
    {
      ok := PutUint(4, |bytes|);
      if ok {
        Push(bytes);
      }
    }

    /** Copies the chunks one after the other into a buffer of the tracked length. */
    method Finish() returns (out: array<byte>)
      requires Valid()
      ensures fresh(out) && out[..] == Contents()
    {
      out := new byte[length];
      var offset := 0;
      for i := 0 to |chunks|
        invariant offset == |Flatten(chunks[..i])| <= length
        invariant out[..offset] == Flatten(chunks[..i])
      {
        var chunk := chunks[i];
        assert chunks[..i + 1][..i] == chunks[..i];
        FlattenPrefix(chunks, i + 1);
        forall k | 0 <= k < |chunk| {
          out[offset + k] := chunk[k];
        }
        assert out[..offset + |chunk|] == out[..offset] + out[offset..offset + |chunk|];
        assert out[offset..offset + |chunk|] == chunk;
        offset := offset + |chunk|;
      }
      assert chunks[..|chunks|] == chunks;
      assert out[..] == out[..offset];
    }
  }

  lemma {:induction false} FlattenPrefix(chunks: seq<Bytes>, i: nat)
    requires i <= |chunks|
    ensures |Flatten(chunks[..i])| <= |Flatten(chunks)|
    decreases |chunks| - i
  {
    if i == |chunks| {
      assert chunks[..i] == chunks;
    } else {
      assert chunks[..i + 1][..i] == chunks[..i];
      FlattenPrefix(chunks, i + 1);
    }
  }

  // -------------------------------------------------------------------------
  // The stateful reader
  // -------------------------------------------------------------------------

  class Reader {
    const buffer: Bytes
    var offset: nat

    ghost predicate Valid()
      reads this
    {
      offset <= |buffer|
    }

    /** What is still unread. */
    ghost function Rest(): Bytes
      requires Valid()
      reads this
    {
      buffer[offset..]
    }

    constructor (buffer: Bytes)
      ensures Valid() && Rest() == buffer
    {
      this.buffer := buffer;
      offset := 0;
    }

    method TakeBytes(length: int) returns (r: Result<Bytes>)
      requires Valid()
      modifies this
      ensures Valid()
      ensures match Take(old(Rest()), length)
              case Ok((x, rest)) => r == Ok(x) && Rest() == rest
              case Malformed => r.Malformed? && Rest() == old(Rest())
    {
      if length < 0 || offset + length > |buffer| {
        return Malformed;
      }
      r := Ok(buffer[offset..offset + length]);
      assert buffer[offset..][..length] == buffer[offset..offset + length];
      assert buffer[offset..][length..] == buffer[offset + length..];
      offset := offset + length;
    }

    method GetUint(width: nat) returns (r: Result<nat>)
      requires Valid()
      modifies this
      ensures Valid()
      ensures match ReadUint(old(Rest()), width)
              case Ok((v, rest)) => r == Ok(v) && Rest() == rest
              case Malformed => r.Malformed? && Rest() == old(Rest())
    {
      var b := TakeBytes(width);
      r := match b case Ok(x) => Ok(Value(x)) case Malformed => Malformed;
    }

    method GetPrefixed() returns (r: Result<Bytes>)
      requires Valid()
      modifies this
      ensures Valid()
      ensures match ReadPrefixed(old(Rest()))
              case Ok((x, rest)) => r == Ok(x) && Rest() == rest
              case Malformed => r.Malformed?
    {
      var length := GetUint(4);
      if length.Malformed? {
        return Malformed;
      }
      r := TakeBytes(length.value);
    }

    /** Refuses trailing bytes. */
    method End() returns (ok: bool)
      requires Valid()
      ensures ok <==> Rest() == []
    {
      ok := offset == |buffer|;
    }
  }
}
