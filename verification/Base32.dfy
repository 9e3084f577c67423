/** The address encoder. Its accumulator is a 32-bit word that overflows on any
    input of more than four bytes; its output is exact all the same. */
module Base32 {
  import opened Wire

  const WORD: nat := 0x1_0000_0000

  const ALPHABET: string := "abcdefghijkmnpqrstuvwxyz23456789"

  type digit = d: int | 0 <= d < 32

  function Pow2(n: nat): (p: nat)
    ensures p >= 1
  {
    if n == 0 then 1 else 2 * Pow2(n - 1)
  }

  /** The last `n` base-32 digits of `value`, most significant first. */
  function Digits(value: nat, n: nat): (ds: seq<digit>)
    ensures |ds| == n
  {
    if n == 0 then [] else Digits(value / 32, n - 1) + [value % 32]
  }

  function Spell(ds: seq<digit>): (text: string)
    ensures |text| == |ds|
    ensures forall i :: 0 <= i < |ds| ==> text[i] == ALPHABET[ds[i]]
  {
    seq(|ds|, i requires 0 <= i < |ds| => ALPHABET[ds[i]])
  }

  /** Five bits a digit, the last digit padded with zero bits. */
  function Length(bytes: nat): nat {
    (8 * bytes + 4) / 5
  }

  function Padding(bytes: nat): nat {
    5 * Length(bytes) - 8 * bytes
  }

  /** What the encoding of `bytes` should be: the whole input as one number,
      padded to a multiple of five bits, in base 32. */
  function Encoded(bytes: Bytes): string {
    Spell(Digits(Value(bytes) * Pow2(Padding(|bytes|)), Length(|bytes|)))
  }

  lemma {:induction false} Pow2Sum(m: nat, n: nat)
    ensures Pow2(m + n) == Pow2(m) * Pow2(n)
  {
    if m > 0 {
      Pow2Sum(m - 1, n);
      assert 2 * (Pow2(m - 1) * Pow2(n)) == 2 * Pow2(m - 1) * Pow2(n);
    }
  }

  lemma Pow2Values()
    ensures Pow2(5) == 32 && Pow2(8) == 256 && Pow2(27) * 32 == WORD && Pow2(32) == WORD
  {
    assert Pow2(2) == 4 && Pow2(3) == 8;
    Pow2Sum(5, 3);
    Pow2Sum(8, 8);
    Pow2Sum(16, 16);
    Pow2Sum(27, 5);
  }

  lemma {:induction false} Scale(a: nat, b: nat, m: nat)
    ensures a < b ==> a * m + m <= b * m
  {
    if a < b {
      AtLeast(b - a - 1, m);
      assert b * m == (a + 1 + (b - a - 1)) * m == a * m + m + (b - a - 1) * m;
    }
  }

  lemma AtLeast(a: nat, m: nat)
    ensures a * m >= 0
  {
  }

  /** Quotient and remainder are unique. */
  lemma Remainder(x: nat, m: nat, q: nat, r: nat)
    requires m > 0 && x == q * m + r && r < m
    ensures x / m == q && x % m == r
  {
    Scale(q, x / m, m);
    Scale(x / m, q, m);
  }

  /** Reducing modulo a multiple of `m` first changes nothing modulo `m`. */
  lemma ModShrink(x: nat, m: nat, k: nat, whole: nat)
    requires m > 0 && whole > 0 && whole == m * k
    ensures x % whole % m == x % m
  {
    var q, r := x / whole, x % whole;
    Regroup(q, whole, m, k);
    assert (q * k + r / m) * m == q * k * m + r / m * m;
    Remainder(x, m, q * k + r / m, r % m);
  }

  lemma Regroup(q: nat, whole: nat, m: nat, k: nat)
    requires whole == m * k
    ensures q * whole == q * k * m
  {
  }

  /** Cutting all but five of its `32 * low` low bits off a number. */
  lemma TopPart(value: nat, low: nat)
    requires low > 0
    ensures value % (32 * low) == value / low % 32 * low + value % low
  {
    var top := value / low;
    var q, d := top / 32, top % 32;
    assert top * low == q * (32 * low) + d * low by {
      assert (q * 32 + d) * low == q * 32 * low + d * low;
    }
    Scale(d, 32, low);
    Remainder(value, 32 * low, q, d * low + value % low);
  }

  /** Shifting `value` left by a factor keeps its pending bits. */
  lemma ShiftPart(value: nat, p: nat, s: nat, b: nat)
    requires p > 0 && b < s
    ensures p * s > 0 && (value * s + b) % (p * s) == value % p * s + b
  {
    var q, r := value / p, value % p;
    assert value * s == q * (p * s) + r * s by {
      assert (q * p + r) * s == q * p * s + r * s;
      assert q * p * s == q * (p * s);
    }
    Scale(r, p, s);
    Remainder(value * s + b, p * s, q, r * s + b);
  }

  /** Cutting `bits - 5` low bits off a word of `bits` bits leaves its top digit. */
  lemma TopDigit(value: nat, bits: nat)
    requires 5 <= bits
    ensures value % Pow2(bits) == value / Pow2(bits - 5) % 32 * Pow2(bits - 5) + value % Pow2(bits - 5)
  {
    Pow2Values();
    Pow2Sum(5, bits - 5);
    TopPart(value, Pow2(bits - 5));
  }

  /** Shifting in a byte keeps the pending bits, whatever overflows the word. */
  lemma ShiftIn(value: nat, b: byte, bits: nat)
    requires bits <= 24
    ensures (value * 256 + b) % WORD % Pow2(bits + 8) == value % Pow2(bits) * 256 + b
  {
    hide Pow2;
    Pow2Values();
    Pow2Sum(bits, 8);
    Pow2Sum(bits + 8, 24 - bits);
    ModShrink(value * 256 + b, Pow2(bits + 8), Pow2(24 - bits), WORD);
    ShiftPart(value, Pow2(bits), 256, b);
  }

  lemma SpellAppend(ds: seq<digit>, d: digit)
    ensures Spell(ds + [d]) == Spell(ds) + [ALPHABET[d]]
  {
  }

  /** What a run of the encoder has established: the digits written so far are
      those of `spelled`, and with the pending bits they make up `total`. */
  ghost predicate Pending(out: string, spelled: nat, value: nat, bits: nat, total: nat) {
    && out == Spell(Digits(spelled, |out|))
    && spelled * Pow2(bits) + value % Pow2(bits) == total
  }

  lemma TakeByte(out: string, spelled: nat, value: nat, bits: nat, total: nat, b: byte)
    requires bits <= 24 && Pending(out, spelled, value, bits, total)
    ensures Pending(out, spelled, (value * 256 + b) % WORD, bits + 8, 256 * total + b)
  {
    hide Pow2, Digits, Spell;
    Pow2Values();
    Pow2Sum(bits, 8);
    ShiftIn(value, b, bits);
    assert spelled * (Pow2(bits) * 256) == spelled * Pow2(bits) * 256;
  }

  lemma GiveDigit(out: string, spelled: nat, value: nat, bits: nat, total: nat, d: digit)
    requires 5 <= bits && Pending(out, spelled, value, bits, total)
    requires d == value / Pow2(bits - 5) % 32
    ensures Pending(out + [ALPHABET[d]], spelled * 32 + d, value, bits - 5, total)
  {
    SpellAppend(Digits(spelled, |out|), d);
    DigitsAppend(spelled, |out|, d);
    hide Pow2, Digits, Spell;
    var low := Pow2(bits - 5);
    Pow2Values();
    Pow2Sum(5, bits - 5);
    TopDigit(value, bits);
    Carry(spelled, d, low);
  }

  lemma Carry(spelled: nat, d: nat, low: nat)
    ensures (spelled * 32 + d) * low == spelled * (32 * low) + d * low
  {
  }

  lemma DigitsAppend(spelled: nat, n: nat, d: digit)
    ensures Digits(spelled * 32 + d, n + 1) == Digits(spelled, n) + [d]
  {
  }

  /** The last digit carries the pending bits, padded with zeros. */
  lemma GiveLastDigit(out: string, spelled: nat, value: nat, bits: nat, total: nat, d: digit)
    requires 0 < bits <= 4 && Pending(out, spelled, value, bits, total)
    requires d == value * Pow2(5 - bits) % WORD % 32
    ensures out + [ALPHABET[d]] == Spell(Digits(total * Pow2(5 - bits), |out| + 1))
  {
    hide Pow2, Digits, Spell;
    SpellAppend(Digits(spelled, |out|), d);
    DigitsAppend(spelled, |out|, d);
    LastNumber(spelled, value, bits);
  }

  lemma LastNumber(spelled: nat, value: nat, bits: nat)
    requires 0 < bits <= 4
    ensures (spelled * Pow2(bits) + value % Pow2(bits)) * Pow2(5 - bits)
         == spelled * 32 + value * Pow2(5 - bits) % WORD % 32
  {
    hide Pow2;
    Pow2Values();
    Pow2Sum(bits, 5 - bits);
    LowDigit(value, Pow2(bits), Pow2(5 - bits));
    Spread(spelled, Pow2(bits), value % Pow2(bits), Pow2(5 - bits));
  }

  /** The five low bits of a shifted word, although the shift overflows it. */
  lemma LowDigit(value: nat, p: nat, s: nat)
    requires p > 0 && s > 0 && p * s == 32
    ensures value * s % WORD % 32 == value % p * s
  {
    hide Pow2;
    Pow2Values();
    ModShrink(value * s, 32, Pow2(27), WORD);
    ShiftPart(value, p, s, 0);
  }

  lemma Spread(spelled: nat, p: nat, rest: nat, s: nat)
    ensures (spelled * p + rest) * s == spelled * (p * s) + rest * s
  {
  }

  lemma NothingPending(out: string, spelled: nat, value: nat, total: nat)
    requires Pending(out, spelled, value, 0, total)
    ensures out == Spell(Digits(total, |out|))
  {
    Pow2Zero();
    hide Pow2, Digits, Spell;
    assert value % 1 == 0;
  }

  method ToBase32(bytes: Bytes) returns (out: string)
    ensures out == Encoded(bytes)
    ensures |out| == Length(|bytes|)
  {
    hide Pending, Pow2, Spell, Digits;
    var bits: nat, value: nat := 0, 0;
    out := "";
    ghost var spelled: nat := 0;   // the digits written so far, as one number
    NothingWritten();
    for i := 0 to |bytes|
      invariant bits <= 4 && 5 * |out| + bits == 8 * i
      invariant Pending(out, spelled, value, bits, Value(bytes[..i]))
    {
      assert bytes[..i + 1][..i] == bytes[..i];
      TakeByte(out, spelled, value, bits, Value(bytes[..i]), bytes[i]);
      value := (value * 256 + bytes[i]) % WORD;
      bits := bits + 8;
      while bits >= 5
        invariant bits <= 12 && 5 * |out| + bits == 8 * (i + 1)
        invariant Pending(out, spelled, value, bits, Value(bytes[..i + 1]))
      {
        var d: digit := value / Pow2(bits - 5) % 32;
        GiveDigit(out, spelled, value, bits, Value(bytes[..i + 1]), d);
        out := out + [ALPHABET[d]];
        spelled := spelled * 32 + d;
        bits := bits - 5;
      }
    }
    assert bytes[..|bytes|] == bytes;
    if bits > 0 {
      var d: digit := value * Pow2(5 - bits) % WORD % 32;
      GiveLastDigit(out, spelled, value, bits, Value(bytes), d);
      out := out + [ALPHABET[d]];
    } else {
      NothingPending(out, spelled, value, Value(bytes));
      Pow2Zero();
    }
  }

  lemma NothingWritten()
    ensures Pending("", 0, 0, 0, Value([]))
  {
  }

  lemma Pow2Zero()
    ensures Pow2(0) == 1
  {
  }

  // -------------------------------------------------------------------------
  // Different addresses for different inputs
  // -------------------------------------------------------------------------

  lemma {:induction false} DigitsInjective(a: nat, b: nat, n: nat)
    requires a < Pow2(5 * n) && b < Pow2(5 * n) && Digits(a, n) == Digits(b, n)
    ensures a == b
  {
    if n > 0 {
      Pow2Values();
      Pow2Sum(5, 5 * (n - 1));
      var da, db := Digits(a / 32, n - 1), Digits(b / 32, n - 1);
      assert da == Digits(a, n)[..n - 1] && db == Digits(b, n)[..n - 1];
      assert Digits(a, n)[n - 1] == a % 32 && Digits(b, n)[n - 1] == b % 32;
      DigitsInjective(a / 32, b / 32, n - 1);
    }
  }

  /** The alphabet is `a` to `k`, `m` and `n`, `p` to `z`, then `2` to `9`. */
  lemma AlphabetRuns(d: digit)
    ensures ALPHABET[d] as int
         == if d < 11 then 'a' as int + d else if d < 13 then 'm' as int + d - 11
            else if d < 24 then 'p' as int + d - 13 else '2' as int + d - 24
  {
  }

  lemma SpellInjective(ds: seq<digit>, es: seq<digit>)
    requires Spell(ds) == Spell(es)
    ensures ds == es
  {
    hide ALPHABET;
    forall i | 0 <= i < |ds| ensures ds[i] == es[i] {
      assert Spell(ds)[i] == Spell(es)[i];
      AlphabetRuns(ds[i]);
      AlphabetRuns(es[i]);
    }
  }

  lemma {:induction false} Pow256IsPow2(n: nat)
    ensures Pow256(n) == Pow2(8 * n)
  {
    if n > 0 {
      Pow256IsPow2(n - 1);
      Pow2Values();
      Pow2Sum(8, 8 * (n - 1));
    }
  }

  /** No two inputs of the same length share an encoding. */
  lemma EncodedInjective(a: Bytes, b: Bytes)
    requires |a| == |b| && Encoded(a) == Encoded(b)
    ensures a == b
  {
    hide Pow2, Digits, Spell, Value, Pow256;
    var n, s := Length(|a|), Pow2(Padding(|a|));
    SpellInjective(Digits(Value(a) * s, n), Digits(Value(b) * s, n));
    Padded(a);
    Padded(b);
    DigitsInjective(Value(a) * s, Value(b) * s, n);
    Scale(Value(a), Value(b), s);
    Scale(Value(b), Value(a), s);
    ValueInjective(a, b);
  }

  lemma Padded(a: Bytes)
    ensures Value(a) * Pow2(Padding(|a|)) < Pow2(5 * Length(|a|))
  {
    hide Pow2, Value, Pow256;
    ValueBound(a);
    Pow256IsPow2(|a|);
    Pow2Sum(8 * |a|, Padding(|a|));
    Scale(Value(a), Pow2(8 * |a|), Pow2(Padding(|a|)));
  }

  // -------------------------------------------------------------------------
  // Reading an address back
  // -------------------------------------------------------------------------

  /** The number a string of base-32 digits stands for. */
  function Number(ds: seq<digit>): nat {
    if ds == [] then 0 else 32 * Number(ds[..|ds| - 1]) + ds[|ds| - 1]
  }

  lemma {:induction false} NumberOfDigits(value: nat, n: nat)
    requires value < Pow2(5 * n)
    ensures Number(Digits(value, n)) == value
  {
    if n > 0 {
      Pow2Values();
      Pow2Sum(5, 5 * (n - 1));
      NumberOfDigits(value / 32, n - 1);
      assert Digits(value, n)[..n - 1] == Digits(value / 32, n - 1);
    }
  }

  /** The output consists of as many characters as groups of five bits are needed,
      and read as base-32 digits it is the input followed by fewer than five zero
      bits. */
  lemma EncodedReadsBack(bytes: Bytes) returns (ds: seq<digit>, zeros: nat)
    ensures zeros < 5 && 5 * |ds| == 8 * |bytes| + zeros
    ensures |Encoded(bytes)| == |ds| && forall i :: 0 <= i < |ds| ==> Encoded(bytes)[i] == ALPHABET[ds[i]]
    ensures Number(ds) == Value(bytes) * Pow2(zeros)
  {
    hide Pow2, Value, ALPHABET;
    zeros := Padding(|bytes|);
    ds := Digits(Value(bytes) * Pow2(zeros), Length(|bytes|));
    Padded(bytes);
    NumberOfDigits(Value(bytes) * Pow2(zeros), Length(|bytes|));
  }
}
