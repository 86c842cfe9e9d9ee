/** The payload and header checksum of chunk files (src/v3/chunk_file_store.cpp): FNV-1a's step, with the
    repository's own starting value. */
module Checksums {
  import opened Common
  import opened Arithmetic

  const TWO64: nat := 0x1_0000_0000_0000_0000
  const PRIME: nat := 1099511628211
  const START: nat := 1469598103934665603

  /** PRIME's inverse modulo 2^64: there is one because PRIME is odd. */
  const INVERSE: nat := 14886173955864302971

  // ---------------------------------------------------------------- exclusive or of bytes

  /** Exclusive or, bit by bit, of the low `bits` bits. */
  function Xor(a: nat, b: nat, bits: nat): (r: nat)
    ensures r < Pow2(bits)
  {
    if bits == 0 then 0 else (a + b) % 2 + 2 * Xor(a / 2, b / 2, bits - 1)
  }

  function Pow2(n: nat): (p: nat)
    ensures p > 0
  {
    if n == 0 then 1 else 2 * Pow2(n - 1)
  }

  /** Applying it twice with the same operand gives the other one back. */
  lemma {:induction false} XorInvolutive(a: nat, b: nat, bits: nat)
    requires a < Pow2(bits) && b < Pow2(bits)
    ensures Xor(a, Xor(a, b, bits), bits) == b && Xor(Xor(a, b, bits), b, bits) == a
  {
    if bits > 0 {
      XorInvolutive(a / 2, b / 2, bits - 1);
      XorHalves(a, b, bits);
      XorHalves(a, Xor(a, b, bits), bits);
      XorHalves(Xor(a, b, bits), b, bits);
      Parity(a, b);
      SameParity(a, Xor(a, b, bits), (a + b) % 2);
      SameParity(b, Xor(a, b, bits), (a + b) % 2);
      SameHalves(Xor(a, Xor(a, b, bits), bits), b);
      SameHalves(Xor(Xor(a, b, bits), b, bits), a);
    }
  }

  lemma XorHalves(a: nat, b: nat, bits: nat)
    requires bits > 0
    ensures Xor(a, b, bits) / 2 == Xor(a / 2, b / 2, bits - 1) && Xor(a, b, bits) % 2 == (a + b) % 2
  {
  }

  lemma Parity(a: nat, b: nat)
    ensures (a + (a + b) % 2) % 2 == b % 2 && ((a + b) % 2 + b) % 2 == a % 2
  {
  }

  lemma SameParity(a: nat, x: nat, p: nat)
    requires x % 2 == p
    ensures (a + x) % 2 == (a + p) % 2 && (x + a) % 2 == (p + a) % 2
  {
  }

  lemma SameHalves(x: nat, y: nat)
    requires x / 2 == y / 2 && x % 2 == y % 2
    ensures x == y
  {
  }

  lemma ByteBits()
    ensures Pow2(8) == 256
  {
    assert Pow2(4) == 16 && Pow2(8) == 2 * (2 * (2 * (2 * Pow2(4))));
  }

  // ---------------------------------------------------------------- one step

  /** `h ^= b` touches the low byte only. */
  function MixIn(h: nat, b: Byte): (r: nat)
    ensures r / 256 == h / 256 && r % 256 == Xor(h % 256, b, 8)
  {
    ByteBits();
    h - h % 256 + Xor(h % 256, b, 8)
  }

  function Step(h: nat, b: Byte): (r: nat)
    ensures r < TWO64
  {
    (MixIn(h, b) * PRIME) % TWO64
  }

  /** Multiplying by PRIME loses nothing modulo 2^64. */
  lemma TimesPrimeInvertible(x: nat)
    requires x < TWO64
    ensures (((x * PRIME) % TWO64) * INVERSE) % TWO64 == x
  {
    var p := x * PRIME;
    var q, r := p / TWO64, p % TWO64;
    assert p == q * TWO64 + r;
    assert PRIME * INVERSE == 887285111055 * TWO64 + 1;
    var n := r * INVERSE;
    assert p * INVERSE == x * (PRIME * INVERSE);
    assert n == (x * 887285111055 - q * INVERSE) * TWO64 + x;
    var k := x * 887285111055 - q * INVERSE;
    assert k >= 0;
    DivModUnique(n, TWO64, k, x);
  }

  lemma MixInBelow(h: nat, b: Byte)
    requires h < TWO64
    ensures MixIn(h, b) < TWO64
  {
    assert h / 256 < TWO64 / 256;
  }

  lemma MixInInjective(h1: nat, b1: Byte, h2: nat, b2: Byte)
    requires MixIn(h1, b1) == MixIn(h2, b2)
    ensures h1 == h2 <==> b1 == b2
  {
    ByteBits();
    XorInvolutive(h1 % 256, b1, 8);
    XorInvolutive(h2 % 256, b2, 8);
  }

  /** Whichever of its two operands changes, a step's result changes. */
  lemma StepDiffers(h1: nat, b1: Byte, h2: nat, b2: Byte)
    requires h1 < TWO64 && h2 < TWO64 && ((h1 == h2) != (b1 == b2))
    ensures Step(h1, b1) != Step(h2, b2)
  {
    MixInBelow(h1, b1);
    MixInBelow(h2, b2);
    TimesPrimeInvertible(MixIn(h1, b1));
    TimesPrimeInvertible(MixIn(h2, b2));
    if MixIn(h1, b1) == MixIn(h2, b2) { MixInInjective(h1, b1, h2, b2); }
  }

  /** For each byte a step is a bijection on the 64-bit values. */
  lemma StepOnto(y: nat, b: Byte)
    requires y < TWO64
    ensures exists h: nat :: h < TWO64 && Step(h, b) == y
  {
    var m := (y * INVERSE) % TWO64;
    TimesInverse(y);
    ByteBits();
    XorInvolutive(m % 256, b, 8);
    var h := MixIn(m, b);
    MixInBelow(m, b);
    assert MixIn(h, b) == m;
    assert Step(h, b) == y;
  }

  lemma TimesInverse(y: nat)
    requires y < TWO64
    ensures (((y * INVERSE) % TWO64) * PRIME) % TWO64 == y
  {
    var p := y * INVERSE;
    var q, r := p / TWO64, p % TWO64;
    assert p == q * TWO64 + r;
    assert PRIME * INVERSE == 887285111055 * TWO64 + 1;
    var n := r * PRIME;
    assert p * PRIME == y * (PRIME * INVERSE);
    assert n == (y * 887285111055 - q * PRIME) * TWO64 + y;
    var k := y * 887285111055 - q * PRIME;
    assert k >= 0;
    DivModUnique(n, TWO64, k, y);
  }

  // ---------------------------------------------------------------- whole payloads

  function Fold(h: nat, data: seq<Byte>): (r: nat)
    requires h < TWO64
    ensures r < TWO64
    decreases |data|
  {
    if data == [] then h else Fold(Step(h, data[0]), data[1..])
  }

  function Checksum(data: seq<Byte>): (r: nat)
    ensures r < TWO64
  {
    Fold(START, data)
  }

  method ComputeChecksum(data: seq<Byte>) returns (h: nat)
    ensures h == Checksum(data)
  {
    h := START;
    for i := 0 to |data|
      invariant h < TWO64 && Fold(h, data[i..]) == Checksum(data)
    {
      assert data[i..][1..] == data[i + 1..];
      h := Step(h, data[i]);
    }
  }

  lemma {:induction false} FoldConcat(h: nat, a: seq<Byte>, b: seq<Byte>)
    requires h < TWO64
    ensures Fold(h, a + b) == Fold(Fold(h, a), b)
    decreases |a|
  {
    if a == [] {
      assert a + b == b;
    } else {
      assert (a + b)[1..] == a[1..] + b;
      FoldConcat(Step(h, a[0]), a[1..], b);
    }
  }

  lemma {:induction false} FoldInjective(h: nat, g: nat, data: seq<Byte>)
    requires h < TWO64 && g < TWO64 && h != g
    ensures Fold(h, data) != Fold(g, data)
    decreases |data|
  {
    if data != [] {
      StepDiffers(h, data[0], g, data[0]);
      FoldInjective(Step(h, data[0]), Step(g, data[0]), data[1..]);
    }
  }

  /** Changing one byte, anywhere in a payload of any length, changes the checksum. */
  lemma OneByteShows(data: seq<Byte>, i: nat, b: Byte)
    requires i < |data| && b != data[i]
    ensures Checksum(data[i := b]) != Checksum(data)
  {
    var before, after := data[..i], data[i + 1..];
    assert data == before + ([data[i]] + after) && data[i := b] == before + ([b] + after);
    FoldConcat(START, before, [data[i]] + after);
    FoldConcat(START, before, [b] + after);
    var h := Fold(START, before);
    assert ([data[i]] + after)[1..] == after && ([b] + after)[1..] == after;
    StepDiffers(h, data[i], h, b);
    FoldInjective(Step(h, data[i]), Step(h, b), after);
  }

  /** The checksum of two bytes, in numbers: a step first mixes the byte in and then multiplies. */
  lemma KnownChecksums()
    ensures Checksum([]) == 1469598103934665603
    ensures Checksum([107, 118]) == 11223083524433935754
  {
    KnownSteps();
    assert [107, 118][1..] == [118] && [118][1..] == [];
    assert Fold(START, [107, 118]) == Fold(Step(START, 107), [118]);
  }

  lemma KnownSteps()
    ensures Step(START, 107) == 4953274407327736632
    ensures Step(4953274407327736632, 118) == 11223083524433935754
  {
    KnownMixes();
    StepInNumbers(START, 107, 1469598103934665704, 87594872982, 4953274407327736632);
    StepInNumbers(4953274407327736632, 118, 4953274407327736654, 295238161640, 11223083524433935754);
  }

  lemma KnownMixes()
    ensures MixIn(START, 107) == 1469598103934665704
    ensures MixIn(4953274407327736632, 118) == 4953274407327736654
  {
    assert Xor(131, 107, 8) == 232 && Xor(56, 118, 8) == 78;
    assert START % 256 == 131 && 4953274407327736632 % 256 == 56;
  }

  lemma StepInNumbers(h: nat, b: Byte, mixed: nat, wraps: nat, r: nat)
    requires MixIn(h, b) == mixed && mixed * PRIME == wraps * TWO64 + r && r < TWO64
    ensures Step(h, b) == r
  {
    DivModUnique(mixed * PRIME, TWO64, wraps, r);
  }
}
