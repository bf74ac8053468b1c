/** Numbers as bit-vectors and back. */
module Bits {
  lemma Narrow(p: int)
    requires 0 <= p < 0x100
    ensures (p as bv8) as int == p
  {
  }

  lemma Faithful(p: bv8, q: bv8)
    requires p as int == q as int
    ensures p == q
  {
  }

  lemma Halved(x: bv8)
    ensures (x >> 1) as int == (x as int) / 2
    ensures x & 1 == 1 <==> (x as int) % 2 == 1
  {
  }

  lemma HalvedWide(x: bv8)
    ensures (x as bv32) >> 1 == (x >> 1) as bv32
    ensures x & 1 == 1 <==> (x as bv32) & 1 == 1
  {
  }

  lemma NarrowWidened(p: bv8, q: bv8)
    requires p as bv32 == q as bv32
    ensures p == q
  {
  }
}

/** Bytes and 32-bit words as bit-vectors. */
module Octets {
  import opened Base
  import opened Bits

  function Widen(b: byte): (w: bv32)
    ensures w <= 0xFF
  {
    (b as bv8) as bv32
  }

  lemma WidenInjective(p: byte, q: byte)
    requires Widen(p) == Widen(q)
    ensures p == q
  {
    NarrowWidened(p as bv8, q as bv8);
    Narrow(p);
    Narrow(q);
  }

  /** The four bytes of a word, from the lowest. */
  function Octet(x: bv32, j: nat): bv8
    requires j < 4
  {
    var moved := if j == 0 then x else if j == 1 then x >> 8 else if j == 2 then x >> 16 else x >> 24;
    (moved & 0xFF) as bv8
  }

  function Number(c: bv8): byte {
    c as int
  }

  /** The register read back as an unsigned number, byte by byte. */
  function Word(x: bv32): u32 {
    hide Number, Octet;
    Number(Octet(x, 0)) + 0x100 * Number(Octet(x, 1)) + 0x1_0000 * Number(Octet(x, 2)) + 0x100_0000 * Number(Octet(x, 3))
  }

  lemma OctetsInjective(x: bv32, y: bv32)
    requires Octet(x, 0) == Octet(y, 0) && Octet(x, 1) == Octet(y, 1)
    requires Octet(x, 2) == Octet(y, 2) && Octet(x, 3) == Octet(y, 3)
    ensures x == y
  {
  }

  lemma WordInjective(x: bv32, y: bv32)
    requires Word(x) == Word(y)
    ensures x == y
  {
    hide Octet, Number;
    SumsOfBytes(Number(Octet(x, 0)), Number(Octet(x, 1)), Number(Octet(x, 2)), Number(Octet(x, 3)),
                Number(Octet(y, 0)), Number(Octet(y, 1)), Number(Octet(y, 2)), Number(Octet(y, 3)));
    NumberInjective(Octet(x, 0), Octet(y, 0));
    NumberInjective(Octet(x, 1), Octet(y, 1));
    NumberInjective(Octet(x, 2), Octet(y, 2));
    NumberInjective(Octet(x, 3), Octet(y, 3));
    OctetsInjective(x, y);
  }

  lemma NumberInjective(p: bv8, q: bv8)
    requires Number(p) == Number(q)
    ensures p == q
  {
    Faithful(p, q);
  }

  lemma SumsOfBytes(a: byte, b: byte, c: byte, d: byte, e: byte, f: byte, g: byte, h: byte)
    requires a + 0x100 * b + 0x1_0000 * c + 0x100_0000 * d == e + 0x100 * f + 0x1_0000 * g + 0x100_0000 * h
    ensures a == e && b == f && c == g && d == h
  {
  }
}

/** The CRC-32 of include/dpufabric/wire.h (IEEE 802.3, reflected) and the
    bursts it always detects. */
module Crc32 {
  import opened Base
  import opened Octets

  const POLYNOMIAL: bv32 := 0xEDB88320
  const SEED: bv32 := 0xFFFFFFFF

  /** One shift of the register: the body of the inner loop. */
  function Shift(crc: bv32): bv32 {
    var mask: bv32 := 0 - (crc & 1);
    (crc >> 1) ^ (POLYNOMIAL & mask)
  }

  function Xor(p: bv32, q: bv32): bv32 {
    p ^ q
  }

  function Iterate<T>(f: T -> T, x: T, n: nat): T {
    if n == 0 then x else f(Iterate(f, x, n - 1))
  }

  function Step(crc: bv32, b: byte): bv32 {
    Iterate(Shift, Xor(crc, Widen(b)), 8)
  }

  /** The register after all of data has been fed in. */
  function Register(data: seq<byte>, seed: bv32): bv32 {
    if data == [] then seed else Step(Register(data[..|data| - 1], seed), data[|data| - 1])
  }

  /** The final complement, read as a number. */
  function Finish(crc: bv32): u32 {
    Word(!crc)
  }

  function Checksum(data: seq<byte>): u32 {
    Finish(Register(data, SEED))
  }

  method FeedByte(crc0: bv32, b: byte) returns (crc: bv32)
    ensures crc == Step(crc0, b)
  {
    crc := Xor(crc0, Widen(b));
    ghost var start := crc;
    for k := 0 to 8
      invariant crc == Iterate(Shift, start, k)
    {
      ghost var before := crc;
      var mask: bv32 := 0 - (crc & 1);
      crc := (crc >> 1) ^ (POLYNOMIAL & mask);
      assert crc == Shift(before);
    }
  }

  method Compute(data: seq<byte>) returns (checksum: u32)
    ensures checksum == Checksum(data)
  {
    var crc := SEED;
    for i := 0 to |data|
      invariant crc == Register(data[..i], SEED)
    {
      assert data[..i + 1][..i] == data[..i];
      crc := FeedByte(crc, data[i]);
    }
    assert data[..|data|] == data;
    checksum := Finish(crc);
  }

  // A shift is linear over xor and loses no information.

  lemma XorShuffle(p: bv32, q: bv32, r: bv32)
    ensures (p ^ r) ^ (q ^ r) == p ^ q
    ensures (p ^ r) ^ q == (p ^ q) ^ r
    ensures p ^ (q ^ r) == (p ^ q) ^ r
  {
  }

  lemma LowBit(a: bv32, b: bv32)
    ensures a & 1 == 0 || a & 1 == 1
    ensures (a ^ b) & 1 == (a & 1) ^ (b & 1)
    ensures (a ^ b) >> 1 == (a >> 1) ^ (b >> 1)
  {
  }

  lemma ShiftCases(a: bv32)
    ensures a & 1 == 0 ==> Shift(a) == a >> 1
    ensures a & 1 == 1 ==> Shift(a) == (a >> 1) ^ POLYNOMIAL
  {
  }

  lemma ShiftLinear(a: bv32, b: bv32)
    ensures Shift(a ^ b) == Shift(a) ^ Shift(b)
  {
    LowBit(a, b);
    LowBit(b, a);
    XorShuffle(a >> 1, b >> 1, POLYNOMIAL);
    ShiftCases(a);
    ShiftCases(b);
    ShiftCases(a ^ b);
  }

  lemma ShiftKernel(a: bv32)
    requires Shift(a) == 0
    ensures a == 0
  {
  }

  lemma {:induction false} IterateHomomorphism<T(!new)>(f: T -> T, plus: (T, T) -> T, x: T, y: T, n: nat)
    requires Homomorphism(f, plus)
    ensures Iterate(f, plus(x, y), n) == plus(Iterate(f, x, n), Iterate(f, y, n))
  {
    if n != 0 {
      IterateHomomorphism(f, plus, x, y, n - 1);
    }
  }

  lemma {:induction false} IterateKernel<T>(f: T -> T, zero: T, x: T, n: nat)
    requires forall p :: f(p) == zero ==> p == zero
    requires Iterate(f, x, n) == zero
    ensures x == zero
  {
    if n != 0 {
      IterateKernel(f, zero, x, n - 1);
    }
  }

  lemma {:induction false} IterateSum<T>(f: T -> T, x: T, m: nat, n: nat)
    ensures Iterate(f, x, m + n) == Iterate(f, Iterate(f, x, m), n)
  {
    if n != 0 {
      IterateSum(f, x, m, n - 1);
    }
  }

  ghost predicate Homomorphism<T(!new)>(f: T -> T, plus: (T, T) -> T) {
    forall p, q :: f(plus(p, q)) == plus(f(p), f(q))
  }

  lemma ShiftHomomorphism()
    ensures Homomorphism(Shift, Xor)
  {
    forall p, q ensures Shift(Xor(p, q)) == Xor(Shift(p), Shift(q)) {
      ShiftLinear(p, q);
    }
  }

  lemma ShiftsLinear(x: bv32, y: bv32, n: nat)
    ensures Iterate(Shift, Xor(x, y), n) == Xor(Iterate(Shift, x, n), Iterate(Shift, y, n))
  {
    ShiftHomomorphism();
    IterateHomomorphism(Shift, Xor, x, y, n);
  }

  lemma ShiftsKernel(x: bv32, n: nat)
    requires Iterate(Shift, x, n) == 0
    ensures x == 0
  {
    forall p | Shift(p) == 0 ensures p == 0 {
      ShiftKernel(p);
    }
    IterateKernel(Shift, 0, x, n);
  }

  function Up(x: bv32): bv32 {
    x << 8
  }

  /** Bits moved up by a byte come back down unchanged: none of them reaches the polynomial. */
  lemma ByteDown(x: bv32)
    requires x <= 0xFFFFFF
    ensures Iterate(Shift, Up(x), 8) == x
  {
    ByteDownShifts(x);
    assert forall y, n: nat {:trigger Iterate(Shift, y, n)} :: Iterate(Shift, y, n + 1) == Shift(Iterate(Shift, y, n));
  }

  lemma ByteDownShifts(x: bv32)
    requires x <= 0xFFFFFF
    ensures Shift(Shift(Shift(Shift(Shift(Shift(Shift(Shift(Up(x))))))))) == x
  {
  }

  // Two registers fed different bytes differ by what those bytes alone would leave.

  function Difference(a: seq<byte>, b: seq<byte>, k: nat): bv32
    requires k < |a| == |b|
  {
    Xor(Widen(a[k]), Widen(b[k]))
  }

  /** How far apart the two registers are after k bytes. */
  function Gap(a: seq<byte>, b: seq<byte>, k: nat, seed: bv32): bv32
    requires k <= |a| == |b|
  {
    Xor(Register(a[..k], seed), Register(b[..k], seed))
  }

  lemma XorZero(x: bv32, y: bv32)
    requires Xor(x, y) == 0
    ensures x == y
  {
  }

  lemma XorSelf(x: bv32)
    ensures Xor(x, x) == 0 && Xor(x, 0) == x
  {
  }

  lemma RegroupXor(p: bv32, q: bv32, x: bv32, y: bv32)
    ensures Xor(Xor(p, x), Xor(q, y)) == Xor(Xor(p, q), Xor(x, y))
  {
    hide Xor;
    XorAssociative(p, x, Xor(q, y));
    XorAssociative(x, q, y);
    XorCommutative(x, q);
    XorAssociative(q, x, y);
    XorAssociative(p, q, Xor(x, y));
  }

  lemma XorAssociative(x: bv32, y: bv32, z: bv32)
    ensures Xor(Xor(x, y), z) == Xor(x, Xor(y, z))
  {
  }

  lemma XorCommutative(x: bv32, y: bv32)
    ensures Xor(x, y) == Xor(y, x)
  {
  }

  lemma GapStep(a: seq<byte>, b: seq<byte>, k: nat, seed: bv32)
    requires k < |a| == |b|
    ensures Gap(a, b, k + 1, seed) == Iterate(Shift, Xor(Gap(a, b, k, seed), Difference(a, b, k)), 8)
  {
    hide Shift, Widen, Xor;
    assert a[..k + 1][..k] == a[..k] && b[..k + 1][..k] == b[..k];
    var p, q := Register(a[..k], seed), Register(b[..k], seed);
    ShiftsLinear(Xor(p, Widen(a[k])), Xor(q, Widen(b[k])), 8);
    RegroupXor(p, q, Widen(a[k]), Widen(b[k]));
  }

  /** A byte moved up to lane j of the register. */
  function Lane(x: bv32, j: nat): bv32
    requires j < 4
  {
    if j == 0 then x
    else if j == 1 then Up(x)
    else if j == 2 then Up(Up(x))
    else Up(Up(Up(x)))
  }

  lemma UpBound(x: bv32)
    ensures x <= 0xFF ==> Up(x) <= 0xFFFF
    ensures x <= 0xFFFF ==> Up(x) <= 0xFFFFFF
  {
  }

  lemma LaneDown(x: bv32, j: nat)
    requires j < 4 && x <= 0xFF
    ensures Iterate(Shift, Lane(x, j), 8 * j) == x
  {
    hide Shift, Up;
    UpBound(x);
    UpBound(Up(x));
    ByteDown(x);
    ByteDown(Up(x));
    ByteDown(Up(Up(x)));
    IterateSum(Shift, Up(Up(x)), 8, 8);
    IterateSum(Shift, Up(Up(Up(x))), 8, 16);
  }

  /** The first n differences from i on, one per lane. */
  function Burst(a: seq<byte>, b: seq<byte>, i: nat, n: nat): bv32
    requires i + n <= |a| == |b| && n <= 4
  {
    if n == 0 then 0 else Xor(Burst(a, b, i, n - 1), Lane(Difference(a, b, i + n - 1), n - 1))
  }

  lemma {:induction false} GapOfEqualPrefix(a: seq<byte>, b: seq<byte>, k: nat, seed: bv32)
    requires k <= |a| == |b|
    requires a[..k] == b[..k]
    ensures Gap(a, b, k, seed) == 0
  {
    var r := Register(a[..k], seed);
    XorSelf(r);
  }

  lemma {:induction false} GapOfBurst(a: seq<byte>, b: seq<byte>, i: nat, n: nat, seed: bv32)
    requires i + n <= |a| == |b| && n <= 4
    requires a[..i] == b[..i]
    ensures Gap(a, b, i + n, seed) == Iterate(Shift, Burst(a, b, i, n), 8 * n)
  {
    hide Shift, Widen, Xor, Gap, Difference, Lane;
    if n == 0 {
      GapOfEqualPrefix(a, b, i, seed);
    } else {
      GapOfBurst(a, b, i, n - 1, seed);
      var k, m := i + n - 1, 8 * (n - 1);
      var d := Difference(a, b, k);
      GapStep(a, b, k, seed);
      DifferenceBound(a, b, k);
      LaneDown(d, n - 1);
      ShiftsLinear(Burst(a, b, i, n - 1), Lane(d, n - 1), m);
      IterateSum(Shift, Burst(a, b, i, n), m, 8);
    }
  }

  lemma DifferenceBound(a: seq<byte>, b: seq<byte>, k: nat)
    requires k < |a| == |b|
    ensures Difference(a, b, k) <= 0xFF
  {
    XorBound(Widen(a[k]), Widen(b[k]));
  }

  lemma XorBound(x: bv32, y: bv32)
    requires x <= 0xFF && y <= 0xFF
    ensures Xor(x, y) <= 0xFF
  {
  }

  lemma LanesDisjoint(x: bv32, lower: bv32, j: nat)
    requires j < 4 && x <= 0xFF
    requires j == 0 ==> lower == 0
    requires j == 1 ==> lower <= 0xFF
    requires j == 2 ==> lower <= 0xFFFF
    requires j == 3 ==> lower <= 0xFFFFFF
    ensures Xor(lower, Lane(x, j)) == 0 ==> lower == 0 && x == 0
    ensures j == 0 ==> Xor(lower, Lane(x, j)) <= 0xFF
    ensures j == 1 ==> Xor(lower, Lane(x, j)) <= 0xFFFF
    ensures j == 2 ==> Xor(lower, Lane(x, j)) <= 0xFFFFFF
  {
    hide Xor, Up;
    if j == 0 {
      FirstLane(x);
    } else if j == 1 {
      SecondLane(x, lower);
    } else if j == 2 {
      ThirdLane(x, lower);
    } else {
      FourthLane(x, lower);
    }
  }

  lemma FirstLane(x: bv32)
    ensures Xor(0, x) == x
  {
  }

  lemma SecondLane(x: bv32, lower: bv32)
    requires x <= 0xFF && lower <= 0xFF
    ensures Xor(lower, Up(x)) == 0 ==> lower == 0 && x == 0
    ensures Xor(lower, Up(x)) <= 0xFFFF
  {
  }

  lemma ThirdLane(x: bv32, lower: bv32)
    requires x <= 0xFF && lower <= 0xFFFF
    ensures Xor(lower, Up(Up(x))) == 0 ==> lower == 0 && x == 0
    ensures Xor(lower, Up(Up(x))) <= 0xFFFFFF
  {
  }

  lemma FourthLane(x: bv32, lower: bv32)
    requires x <= 0xFF && lower <= 0xFFFFFF
    ensures Xor(lower, Up(Up(Up(x)))) == 0 ==> lower == 0 && x == 0
  {
  }

  lemma LastByte(a: seq<byte>, i: nat, n: nat)
    requires i + n <= |a| && n > 0
    ensures a[i..i + n] == a[i..i + n - 1] + [a[i + n - 1]]
  {
  }

  lemma {:induction false} BurstNonzero(a: seq<byte>, b: seq<byte>, i: nat, n: nat)
    requires i + n <= |a| == |b| && n <= 4
    ensures Burst(a, b, i, n) == 0 ==> a[i..i + n] == b[i..i + n]
    ensures n == 1 ==> Burst(a, b, i, n) <= 0xFF
    ensures n == 2 ==> Burst(a, b, i, n) <= 0xFFFF
    ensures n == 3 ==> Burst(a, b, i, n) <= 0xFFFFFF
  {
    hide Shift, Widen, Xor;
    if n != 0 {
      BurstNonzero(a, b, i, n - 1);
      DifferenceBound(a, b, i + n - 1);
      LanesDisjoint(Difference(a, b, i + n - 1), Burst(a, b, i, n - 1), n - 1);
      if Burst(a, b, i, n) == 0 {
        XorZero(Widen(a[i + n - 1]), Widen(b[i + n - 1]));
        WidenInjective(a[i + n - 1], b[i + n - 1]);
        LastByte(a, i, n);
        LastByte(b, i, n);
      }
    }
  }

  lemma {:induction false} GapSurvives(a: seq<byte>, b: seq<byte>, from: nat, k: nat, seed: bv32)
    requires from <= k <= |a| == |b|
    requires a[from..] == b[from..]
    requires Gap(a, b, from, seed) != 0
    ensures Gap(a, b, k, seed) != 0
  {
    hide Shift, Widen, Xor, Gap;
    if from < k {
      GapSurvives(a, b, from, k - 1, seed);
      GapStep(a, b, k - 1, seed);
      assert a[k - 1] == a[from..][k - 1 - from] == b[k - 1];
      XorSelf(Widen(a[k - 1]));
      XorSelf(Gap(a, b, k - 1, seed));
      if Gap(a, b, k, seed) == 0 {
        ShiftsKernel(Gap(a, b, k - 1, seed), 8);
      }
    }
  }

  lemma SameParts(a: seq<byte>, b: seq<byte>, i: nat, n: nat)
    requires i + n <= |a| == |b|
    requires a[..i] == b[..i] && a[i..i + n] == b[i..i + n] && a[i + n..] == b[i + n..]
    ensures a == b
  {
    assert a == a[..i] + a[i..i + n] + a[i + n..];
    assert b == b[..i] + b[i..i + n] + b[i + n..];
  }

  lemma BurstLeavesGap(a: seq<byte>, b: seq<byte>, i: nat, n: nat, seed: bv32)
    requires i + n <= |a| == |b| && n <= 4
    requires a[..i] == b[..i] && a[i + n..] == b[i + n..]
    requires a != b
    ensures Gap(a, b, |a|, seed) != 0
  {
    hide Shift, Widen, Xor, Gap, Burst, Iterate;
    if a[i..i + n] == b[i..i + n] {
      SameParts(a, b, i, n);
    }
    BurstNonzero(a, b, i, n);
    GapOfBurst(a, b, i, n, seed);
    if Gap(a, b, i + n, seed) == 0 {
      ShiftsKernel(Burst(a, b, i, n), 8 * n);
    }
    GapSurvives(a, b, i + n, |a|, seed);
  }

  /** Buffers of one length that differ, and only inside four consecutive bytes, never share a checksum. */
  lemma BurstDetected(a: seq<byte>, b: seq<byte>, i: nat, n: nat)
    requires i + n <= |a| == |b| && n <= 4
    requires a[..i] == b[..i] && a[i + n..] == b[i + n..]
    requires a != b
    ensures Checksum(a) != Checksum(b)
  {
    hide Register, Finish, Xor;
    BurstLeavesGap(a, b, i, n, SEED);
    assert a[..|a|] == a && b[..|b|] == b;
    if Checksum(a) == Checksum(b) {
      FinishInjective(Register(a, SEED), Register(b, SEED));
      XorSelf(Register(a, SEED));
    }
  }

  lemma FinishInjective(x: bv32, y: bv32)
    requires Finish(x) == Finish(y)
    ensures x == y
  {
    hide Word;
    WordInjective(!x, !y);
    NegateInjective(x, y);
  }

  lemma NegateInjective(x: bv32, y: bv32)
    requires !x == !y
    ensures x == y
  {
  }
}
