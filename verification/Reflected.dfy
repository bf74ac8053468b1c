/** What the checksum is: the complemented remainder of the message, in the order in which its bits are sent. */
module Reflected {
  import opened Base
  import opened Bits
  import opened Octets
  import opened Crc32
  import opened Division

  /** The low n bits of a number, the lowest first: the order in which a byte is sent. */
  function BitsOf(x: nat, n: nat): (b: seq<bool>)
    ensures |b| == n
  {
    if n == 0 then [] else [x % 2 == 1] + BitsOf(x / 2, n - 1)
  }

  function Message(data: seq<byte>): seq<bool> {
    if data == [] then [] else BitsOf(data[0], 8) + Message(data[1..])
  }

  /** The coefficients of p with those of v added to the leading ones. */
  function Mix(v: seq<bool>, p: seq<bool>): (r: seq<bool>)
    requires |v| == WIDTH <= |p|
    ensures |r| == |p|
  {
    Plus(v + Zeros(|p| - WIDTH), p)
  }

  /** The message times x^32, its first 32 coefficients complemented. */
  function Dividend(data: seq<byte>): (p: seq<bool>)
    ensures |p| >= WIDTH
  {
    Mix(Ones(WIDTH), Message(data) + Zeros(WIDTH))
  }

  // ---- the register as a polynomial ----

  function Low(x: bv32): bool {
    x & 1 == 1
  }

  function Half(x: bv32): bv32 {
    x >> 1
  }

  /** The n lowest bits of x, the lowest first. */
  function View(x: bv32, n: nat): (v: seq<bool>)
    ensures |v| == n
  {
    if n == 0 then [] else [Low(x)] + View(Half(x), n - 1)
  }

  function Grown(m: bv32): bv32 {
    (m << 1) | 1
  }

  /** n ones. */
  function Mask(n: nat): bv32 {
    if n == 0 then 0 else Grown(Mask(n - 1))
  }

  function And(x: bv32, m: bv32): bv32 {
    x & m
  }

  predicate Inside(x: bv32, m: bv32) {
    x & !m == 0
  }

  lemma HalfXor(x: bv32, y: bv32)
    ensures Half(Xor(x, y)) == Xor(Half(x), Half(y)) && Low(Xor(x, y)) == (Low(x) != Low(y))
  {
  }

  lemma HalfMasked(x: bv32, m: bv32)
    ensures Inside(x, Grown(m)) ==> Inside(Half(x), m)
    ensures Half(And(x, Grown(m))) == And(Half(x), m) && Low(And(x, Grown(m))) == Low(x)
  {
  }

  lemma {:induction false} ViewXor(x: bv32, y: bv32, n: nat)
    ensures View(Xor(x, y), n) == Plus(View(x, n), View(y, n))
    decreases n
  {
    hide Low, Half, Xor;
    if n > 0 {
      HalfXor(x, y);
      ViewXor(Half(x), Half(y), n - 1);
    }
  }

  lemma {:induction false} ViewShort(x: bv32, n: nat)
    requires Inside(x, Mask(n))
    ensures View(x, n + 1) == View(x, n) + [false]
    decreases n
  {
    hide Low, Half, Grown, And, Inside;
    if n == 0 {
      NoBits(x);
      assert View(Half(x), 0) == [];
    } else {
      HalfMasked(x, Mask(n - 1));
      ViewShort(Half(x), n - 1);
    }
  }

  lemma NoBits(x: bv32)
    requires Inside(x, 0)
    ensures x == 0 && !Low(x)
  {
  }

  lemma Masks()
    ensures Mask(8) == 0xFF && Mask(31) == 0x7FFFFFFF
  {
    assert Mask(4) == 0xF;
    assert Mask(8) == 0xFF;
    assert Mask(12) == 0xFFF;
    assert Mask(16) == 0xFFFF;
    assert Mask(20) == 0xFFFFF;
    assert Mask(24) == 0xFFFFFF;
    assert Mask(28) == 0xFFFFFFF;
  }

  lemma TopClear(x: bv32)
    ensures Inside(Half(x), 0x7FFFFFFF)
  {
  }

  /** Shifted down, the register is the same polynomial times x, without its leading coefficient. */
  lemma ViewDown(x: bv32)
    ensures View(Half(x), 32) == View(x, 32)[1..] + [false]
  {
    Masks();
    TopClear(x);
    ViewShort(Half(x), 31);
    hide Low, Half;
    assert View(x, 32)[1..] == View(Half(x), 31);
  }

  lemma Four(x: bv32, n: nat)
    ensures View(x, n + 4) == [Low(x), Low(x >> 1), Low(x >> 2), Low(x >> 3)] + View(x >> 4, n)
  {
    Halves(x);
    hide Low, Half;
    assert View(x, n + 4) == [Low(x)] + View(Half(x), n + 3);
    assert View(Half(x), n + 3) == [Low(Half(x))] + View(Half(Half(x)), n + 2);
    assert View(Half(Half(x)), n + 2) == [Low(Half(Half(x)))] + View(Half(Half(Half(x))), n + 1);
  }

  lemma Halves(x: bv32)
    ensures Half(x) == x >> 1 && Half(Half(x)) == x >> 2 && Half(Half(Half(x))) == x >> 3 && Half(Half(Half(Half(x)))) == x >> 4
  {
  }

  /** The constant of the source is the generator without its leading coefficient. */
  lemma PolynomialIsGenerator()
    ensures View(POLYNOMIAL, 32) == Generator()[1..]
  {
    hide View;
    Four(0xEDB88320, 28);
    Four(0xEDB8832, 24);
    Four(0xEDB883, 20);
    Four(0xEDB88, 16);
    Four(0xEDB8, 12);
    Four(0xEDB, 8);
    Four(0xED, 4);
    Four(0xE, 0);
    NoView();
  }

  lemma NoView()
    ensures View(0, 0) == []
  {
  }

  // ---- one shift is one step of the division ----

  function Bit(b: bool): bv32 {
    if b then 1 else 0
  }

  /** The leading coefficients after one step: v has met the next coefficient b of the dividend. */
  function Next(v: seq<bool>, b: bool): (r: seq<bool>)
    requires |v| == WIDTH
    ensures |r| == WIDTH
  {
    if v[0] != b then Plus(v[1..] + [false], Generator()[1..]) else v[1..] + [false]
  }

  lemma ShiftIs(x: bv32)
    ensures Shift(x) == if Low(x) then Xor(Half(x), POLYNOMIAL) else Half(x)
  {
    ShiftCases(x);
    LowIsBit(x);
  }

  lemma LowIsBit(x: bv32)
    ensures Low(x) <==> x & 1 == 1
    ensures !Low(x) <==> x & 1 == 0
  {
  }

  lemma WithBit(x: bv32, b: bool)
    ensures Low(Xor(x, Bit(b))) == (Low(x) != b) && Half(Xor(x, Bit(b))) == Half(x)
  {
  }

  lemma NextIsShift(x: bv32, b: bool)
    ensures View(Shift(Xor(x, Bit(b))), 32) == Next(View(x, 32), b)
  {
    hide Shift, Xor, Low, Half, Bit, Generator;
    ShiftIs(Xor(x, Bit(b)));
    WithBit(x, b);
    ViewDown(x);
    ViewXor(Half(x), POLYNOMIAL, 32);
    PolynomialIsGenerator();
    assert View(x, 32)[0] == Low(x);
  }

  lemma DivisionStep(v: seq<bool>, b: bool, p: seq<bool>)
    requires |v| == WIDTH <= |p|
    ensures Remainder(Mix(v, [b] + p)) == Remainder(Mix(Next(v, b), p))
  {
    var d := Mix(v, [b] + p);
    assert d[0] == (v[0] != b);
    MixedDown(v, b, p);
    hide Generator;
    var g, z := Generator(), Zeros(|p| - WIDTH);
    var w := v[1..] + [false];
    assert d[1..] == Mix(w, p);
    if d[0] {
      assert Reduced(d) == Plus(d[1..], (g + z)[1..]);
      assert (g + z)[1..] == g[1..] + z;
      assert Plus(Mix(w, p), g[1..] + z) == Mix(Plus(w, g[1..]), p);
    }
  }

  lemma MixedDown(v: seq<bool>, b: bool, p: seq<bool>)
    requires |v| == WIDTH <= |p|
    ensures Mix(v, [b] + p)[1..] == Mix(v[1..] + [false], p)
  {
  }

  // ---- a byte, a message, the checksum ----

  /** All but the lowest bit. */
  function Upper(y: bv32): bv32 {
    y & !1
  }

  lemma Peeled(x: bv32, y: bv32)
    ensures Shift(Xor(x, y)) == Xor(Shift(Xor(x, Bit(Low(y)))), Half(y))
  {
    hide Low, Half, Shift, Bit, Xor, Upper;
    Parts(y);
    XorAssociative(x, Bit(Low(y)), Upper(y));
    ShiftSum(Xor(x, Bit(Low(y))), Upper(y));
    UpperShifts(y);
  }

  lemma ShiftSum(x: bv32, y: bv32)
    ensures Shift(Xor(x, y)) == Xor(Shift(x), Shift(y))
  {
    hide Shift, Xor;
    ShiftsLinear(x, y, 1);
    assert forall z :: Iterate(Shift, z, 1) == Shift(Iterate(Shift, z, 0));
  }

  lemma Parts(y: bv32)
    ensures y == Xor(Bit(Low(y)), Upper(y))
  {
  }

  lemma UpperShifts(y: bv32)
    ensures Shift(Upper(y)) == Half(y)
  {
    ShiftCases(Upper(y));
    EvenUpper(y);
  }

  lemma EvenUpper(y: bv32)
    ensures Upper(y) & 1 == 0 && Upper(y) >> 1 == Half(y)
  {
  }

  /** y has no more than n bits. */
  predicate Short(y: bv32, n: nat) {
    Inside(y, Mask(n))
  }

  lemma ShortHalf(y: bv32, n: nat)
    requires n > 0 && Short(y, n)
    ensures Short(Half(y), n - 1)
  {
    HalfMasked(y, Mask(n - 1));
  }

  lemma ShortNone(x: bv32, y: bv32)
    requires Short(y, 0)
    ensures Xor(x, y) == x
  {
    NoBits(y);
    XorSelf(x);
  }

  /** Feeding n bits of y, one shift each, takes the division n steps further. */
  lemma {:induction false} FeedBits(x: bv32, y: bv32, n: nat, p: seq<bool>)
    requires Short(y, n) && |p| >= WIDTH
    ensures Remainder(Mix(View(x, 32), View(y, n) + p)) == Remainder(Mix(View(Iterate(Shift, Xor(x, y), n), 32), p))
    decreases n
  {
    hide Shift, Xor, Low, Half, Bit, Next, Mix, Short;
    if n == 0 {
      ShortNone(x, y);
      assert View(y, 0) + p == p;
    } else {
      var b, x1 := Low(y), Shift(Xor(x, Bit(Low(y))));
      assert View(y, n) + p == [b] + (View(Half(y), n - 1) + p);
      DivisionStep(View(x, 32), b, View(Half(y), n - 1) + p);
      NextIsShift(x, b);
      ShortHalf(y, n);
      FeedBits(x1, Half(y), n - 1, p);
      Peeled(x, y);
      FirstShift(Xor(x, y), n);
    }
  }

  lemma FirstShift(x: bv32, n: nat)
    requires n > 0
    ensures Iterate(Shift, x, n) == Iterate(Shift, Shift(x), n - 1)
  {
    hide Shift;
    IterateSum(Shift, x, 1, n - 1);
  }

  lemma {:induction false} SameBits(c: bv8, n: nat)
    ensures BitsOf(c as int, n) == View(c as bv32, n)
    decreases n
  {
    if n > 0 {
      Halved(c);
      HalvedWide(c);
      SameBits(c >> 1, n - 1);
    }
  }

  lemma ByteBits(b: byte)
    ensures BitsOf(b, 8) == View(Widen(b), 8) && Short(Widen(b), 8)
  {
    Narrow(b);
    SameBits(b as bv8, 8);
    Masks();
    WidenFits(b as bv8);
  }

  lemma WidenFits(c: bv8)
    ensures Inside(c as bv32, 0xFF)
  {
  }

  /** What is left to divide after k bytes: the register over the leading coefficients of the rest. */
  function Left(data: seq<byte>, k: nat): (p: seq<bool>)
    requires k <= |data|
    ensures |p| >= WIDTH
  {
    Mix(View(Register(data[..k], SEED), 32), Message(data[k..]) + Zeros(WIDTH))
  }

  lemma {:induction false} DividesOn(data: seq<byte>, k: nat)
    requires k <= |data|
    ensures Remainder(Left(data, k)) == Remainder(Dividend(data))
  {
    hide Shift, Xor, Mix, View, Widen;
    if k == 0 {
      SeedIsOnes();
      assert data[..0] == [] && data[0..] == data;
    } else {
      DividesOn(data, k - 1);
      var b, r, p := data[k - 1], Register(data[..k - 1], SEED), Message(data[k..]) + Zeros(WIDTH);
      assert data[..k][..k - 1] == data[..k - 1];
      assert data[k - 1..] == [b] + data[k..];
      assert Message(data[k - 1..]) + Zeros(WIDTH) == BitsOf(b, 8) + p;
      ByteBits(b);
      FeedBits(r, Widen(b), 8, p);
    }
  }

  lemma SeedIsOnes()
    ensures View(SEED, 32) == Ones(WIDTH)
  {
    hide View;
    NoView();
    FourOnes(0xF, 0);
    FourOnes(0xFF, 4);
    FourOnes(0xFFF, 8);
    FourOnes(0xFFFF, 12);
    FourOnes(0xFFFFF, 16);
    FourOnes(0xFFFFFF, 20);
    FourOnes(0xFFFFFFF, 24);
    FourOnes(0xFFFFFFFF, 28);
    assert View(SEED, 32) == Ones(WIDTH);
  }

  predicate AllSet(v: seq<bool>) {
    forall i :: 0 <= i < |v| ==> v[i]
  }

  lemma FourOnes(x: bv32, n: nat)
    requires x & 0xF == 0xF && AllSet(View(x >> 4, n))
    ensures AllSet(View(x, n + 4))
  {
    hide View;
    Four(x, n);
    LowFour(x);
  }

  lemma LowFour(x: bv32)
    requires x & 0xF == 0xF
    ensures Low(x) && Low(x >> 1) && Low(x >> 2) && Low(x >> 3)
  {
  }

  lemma WholeRegister(data: seq<byte>)
    ensures View(Register(data, SEED), 32) == Remainder(Dividend(data))
  {
    hide View, Register;
    DividesOn(data, |data|);
    assert data[..|data|] == data && data[|data|..] == [];
    var v := View(Register(data, SEED), 32);
    assert Mix(v, Zeros(WIDTH)) == v;
    assert [] + Zeros(WIDTH) == Zeros(WIDTH);
  }

  lemma Complements(x: bv32)
    ensures Xor(x, SEED) == !x
  {
  }

  lemma {:induction false} BitsConcat(a: nat, b: nat, k: nat, n: nat)
    requires a < Pow2(k)
    ensures BitsOf(a + Pow2(k) * b, k + n) == BitsOf(a, k) + BitsOf(b, n)
    decreases k
  {
    if k > 0 {
      var x, half := a + Pow2(k) * b, Pow2(k - 1) * b;
      assert Pow2(k) * b == 2 * half;
      assert x / 2 == a / 2 + half && x % 2 == a % 2;
      BitsConcat(a / 2, b, k - 1, n);
    }
  }

  function Pow2(n: nat): nat {
    if n == 0 then 1 else 2 * Pow2(n - 1)
  }

  lemma NumberBits(c: bv8)
    ensures BitsOf(Number(c), 8) == View(c as bv32, 8)
  {
    SameBits(c, 8);
  }

  lemma {:induction false} ViewMasked(x: bv32, n: nat)
    ensures View(And(x, Mask(n)), n) == View(x, n)
    decreases n
  {
    hide Low, Half, And, Grown;
    if n > 0 {
      HalfMasked(x, Mask(n - 1));
      ViewMasked(Half(x), n - 1);
    }
  }

  lemma ViewByte(x: bv32)
    ensures View(x & 0xFF, 8) == View(x, 8)
  {
    hide View, Mask;
    Masks();
    ViewMasked(x, 8);
  }

  function Down(x: bv32, n: nat): bv32 {
    if n == 0 then x else Down(Half(x), n - 1)
  }

  lemma {:induction false} DownSum(x: bv32, m: nat, n: nat)
    ensures Down(x, m + n) == Down(Down(x, m), n)
    decreases m
  {
    hide Half;
    if m > 0 {
      DownSum(Half(x), m - 1, n);
    }
  }

  function Nibble(x: bv32): bv32 {
    x >> 4
  }

  lemma DownFour(x: bv32)
    ensures Down(x, 4) == Nibble(x)
  {
    hide Half;
    Halves(x);
    assert Down(x, 4) == Down(Half(x), 3);
    assert Down(Half(x), 3) == Down(Half(Half(x)), 2);
    assert Down(Half(Half(x)), 2) == Down(Half(Half(Half(x))), 1);
    assert Down(Half(Half(Half(x))), 1) == Down(Half(Half(Half(Half(x)))), 0);
  }

  lemma DownEight(x: bv32)
    ensures Down(x, 8) == Nibble(Nibble(x))
  {
    hide Down, Nibble;
    DownSum(x, 4, 4);
    DownFour(x);
    DownFour(Nibble(x));
  }

  /** Each octet is a view of the word moved down. */
  lemma OctetsDown(x: bv32)
    ensures Octet(x, 0) as bv32 == x & 0xFF && Octet(x, 1) as bv32 == Down(x, 8) & 0xFF
    ensures Octet(x, 2) as bv32 == Down(Down(x, 8), 8) & 0xFF
    ensures Octet(x, 3) as bv32 == Down(Down(Down(x, 8), 8), 8) & 0xFF
  {
    hide Down;
    DownEight(x);
    DownEight(Down(x, 8));
    DownEight(Down(Down(x, 8), 8));
  }

  lemma OneOctet(c: bv8, x: bv32)
    requires c as bv32 == x & 0xFF
    ensures BitsOf(Number(c), 8) == View(x, 8)
  {
    hide View, Number, BitsOf;
    NumberBits(c);
    ViewByte(x);
  }

  lemma {:induction false} ViewSplit(x: bv32, m: nat, n: nat)
    ensures View(x, m + n) == View(x, m) + View(Down(x, m), n)
    decreases m
  {
    hide Low, Half;
    if m > 0 {
      ViewSplit(Half(x), m - 1, n);
    }
  }

  lemma WordBits(x: bv32)
    ensures BitsOf(Word(x), 32) == View(x, 32)
  {
    hide BitsOf, View, Octet, Number, Down;
    var b0: nat, b1: nat, b2: nat, b3: nat :=
      Number(Octet(x, 0)), Number(Octet(x, 1)), Number(Octet(x, 2)), Number(Octet(x, 3));
    FourBytes(b0, b1, b2, b3);
    OctetsViewed(x);
    WordView(x);
  }

  lemma OctetsViewed(x: bv32)
    ensures BitsOf(Number(Octet(x, 0)), 8) == View(x, 8)
    ensures BitsOf(Number(Octet(x, 1)), 8) == View(Down(x, 8), 8)
    ensures BitsOf(Number(Octet(x, 2)), 8) == View(Down(Down(x, 8), 8), 8)
    ensures BitsOf(Number(Octet(x, 3)), 8) == View(Down(Down(Down(x, 8), 8), 8), 8)
  {
    hide BitsOf, View, Octet, Number, Down;
    OctetsDown(x);
    OneOctet(Octet(x, 0), x);
    OneOctet(Octet(x, 1), Down(x, 8));
    OneOctet(Octet(x, 2), Down(Down(x, 8), 8));
    OneOctet(Octet(x, 3), Down(Down(Down(x, 8), 8), 8));
  }

  lemma FourBytes(b0: nat, b1: nat, b2: nat, b3: nat)
    requires b0 < 256 && b1 < 256 && b2 < 256
    ensures BitsOf(b0 + 0x100 * b1 + 0x1_0000 * b2 + 0x100_0000 * b3, 32) ==
            BitsOf(b0, 8) + BitsOf(b1, 8) + BitsOf(b2, 8) + BitsOf(b3, 8)
  {
    hide BitsOf;
    assert Pow2(8) == 256;
    BitsConcat(b2, b3, 8, 8);
    BitsConcat(b1, b2 + 256 * b3, 8, 16);
    BitsConcat(b0, b1 + 256 * (b2 + 256 * b3), 8, 24);
    assert BitsOf(b0, 8) + (BitsOf(b1, 8) + (BitsOf(b2, 8) + BitsOf(b3, 8))) ==
           BitsOf(b0, 8) + BitsOf(b1, 8) + BitsOf(b2, 8) + BitsOf(b3, 8);
  }

  lemma WordView(x: bv32)
    ensures View(x, 32) == View(x, 8) + View(Down(x, 8), 8) + View(Down(Down(x, 8), 8), 8) + View(Down(Down(Down(x, 8), 8), 8), 8)
  {
    hide View, Down;
    var d1, d2 := Down(x, 8), Down(Down(x, 8), 8);
    ViewSplit(x, 8, 24);
    ViewSplit(d1, 8, 16);
    ViewSplit(d2, 8, 8);
  }

  lemma FinishBits(x: bv32)
    ensures BitsOf(Finish(x), 32) == Plus(Ones(WIDTH), View(x, 32))
  {
    hide BitsOf, View, Word, Xor;
    WordBits(!x);
    Complements(x);
    ViewXor(x, SEED, 32);
    SeedIsOnes();
    assert Plus(View(x, 32), Ones(WIDTH)) == Plus(Ones(WIDTH), View(x, 32));
  }

  /** The checksum, its lowest bit first, is the complemented remainder of the dividend by the generator. */
  lemma ChecksumIsRemainder(data: seq<byte>)
    ensures BitsOf(Checksum(data), 32) == Plus(Ones(WIDTH), Remainder(Dividend(data)))
  {
    hide BitsOf, View, Finish, Register, Remainder, Dividend;
    WholeRegister(data);
    FinishBits(Register(data, SEED));
  }

  lemma {:induction false} BitsInjective(x: nat, y: nat, n: nat)
    requires x < Pow2(n) && y < Pow2(n) && BitsOf(x, n) == BitsOf(y, n)
    ensures x == y
    decreases n
  {
    if n > 0 {
      assert BitsOf(x / 2, n - 1) == BitsOf(x, n)[1..] && BitsOf(y / 2, n - 1) == BitsOf(y, n)[1..];
      assert BitsOf(x, n)[0] == BitsOf(y, n)[0];
      BitsInjective(x / 2, y / 2, n - 1);
    }
  }

  lemma {:induction false} PowSum(m: nat, n: nat)
    ensures Pow2(m + n) == Pow2(m) * Pow2(n)
  {
    if m > 0 {
      PowSum(m - 1, n);
      assert 2 * Pow2(m - 1) * Pow2(n) == 2 * (Pow2(m - 1) * Pow2(n));
    }
  }

  lemma WordRange()
    ensures Pow2(32) == 0x1_0000_0000
  {
    hide Pow2;
    PowEight();
    PowSum(8, 8);
    PowSum(16, 16);
  }

  lemma PowEight()
    ensures Pow2(8) == 256
  {
  }

  lemma ComplementTwice(v: seq<bool>, r: seq<bool>)
    requires |v| == |r| == WIDTH
    ensures v == Plus(Ones(WIDTH), r) <==> Plus(Ones(WIDTH), v) == r
  {
    var o := Ones(WIDTH);
    if v == Plus(o, r) {
      assert Plus(o, v) == r;
    }
    if Plus(o, v) == r {
      assert v == Plus(o, r);
    }
  }

  /** Which checksum it is: the one number whose complemented bits leave a multiple of the generator when they
      are taken from the dividend. */
  lemma ChecksumExactly(data: seq<byte>, c: u32)
    ensures c == Checksum(data) <==> exists q :: Divides(Dividend(data), q, Plus(Ones(WIDTH), BitsOf(c, 32)))
  {
    hide BitsOf, Checksum, Dividend, Divides, Pow2, Plus, Ones;
    ChecksumIsRemainder(data);
    RemainderExactly(Dividend(data), Plus(Ones(WIDTH), BitsOf(c, 32)));
    ComplementTwice(BitsOf(c, 32), Remainder(Dividend(data)));
    WordRange();
    if BitsOf(c, 32) == BitsOf(Checksum(data), 32) {
      BitsInjective(c, Checksum(data), 32);
    }
  }
}
