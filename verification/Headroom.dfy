/** Remaining headroom: the ledger's integer percentage and the exact one used for ranking. */
module Headroom {
  import opened Base
  import opened Resource

  /** Percentage left in one dimension, with the source's 64-bit product. */
  function DimensionHeadroom(used: u64, cap: u64): int {
    if cap == 0 then 100
    else if used >= cap then 0
    else Percentage(cap - used, cap)
  }

  function Percentage(left: u64, cap: u64): int
    requires 0 < left <= cap
  {
    (left * 100) % TWO_64 / cap
  }

  function MinInt(a: int, b: int): int {
    if b < a then b else a
  }

  function MinReal(a: real, b: real): real {
    if b < a then b else a
  }

  /** ResourceLedger::headroom. */
  function LedgerHeadroom(cap: Resources, used: Resources): int {
    var h := MinInt(100, DimensionHeadroom(used.memoryBytes, cap.memoryBytes));
    var h := MinInt(h, DimensionHeadroom(used.queues, cap.queues));
    var h := MinInt(h, DimensionHeadroom(used.functions, cap.functions));
    var h := MinInt(h, DimensionHeadroom(used.slots, cap.slots));
    MinInt(h, DimensionHeadroom(used.contexts, cap.contexts))
  }

  /** The fraction of one dimension that is left. */
  function Fraction(used: u64, cap: u64): real {
    if cap == 0 then 1.0
    else if used >= cap then 0.0
    else (cap - used) as real / cap as real
  }

  /** headroom_pct of src/eligibility.cpp, in exact arithmetic. */
  function HeadroomPct(cap: Resources, used: Resources): real {
    var h := MinReal(1.0, Fraction(used.memoryBytes, cap.memoryBytes));
    var h := MinReal(h, Fraction(used.queues, cap.queues));
    var h := MinReal(h, Fraction(used.functions, cap.functions));
    var h := MinReal(h, Fraction(used.slots, cap.slots));
    MinReal(h, Fraction(used.contexts, cap.contexts)) * 100.0
  }

  /** The ledger's percentage in one dimension is exact. */
  predicate FitsProduct(used: u64, cap: u64) {
    cap == 0 || used >= cap || (cap - used) * 100 <= U64_MAX
  }

  ghost predicate IsFloor(n: int, x: real) {
    n as real <= x < n as real + 1.0
  }

  lemma DivisionBounds(p: int, c: int, q: int)
    requires c > 0 && q == p / c
    ensures q * c <= p < (q + 1) * c
  {
  }

  lemma ScaledFraction(left: int, cap: int, n: int)
    requires cap > 0
    requires n * cap <= left * 100 < (n + 1) * cap
    ensures IsFloor(n, left as real / cap as real * 100.0)
  {
    var x, l, c := left as real / cap as real * 100.0, left as real, cap as real;
    var q := l / c;
    assert q * c == l;
    assert x * c == l * 100.0 by {
      assert x * c == q * 100.0 * c;
      assert q * 100.0 * c == q * c * 100.0;
    }
    assert (n * cap) as real == n as real * c;
    assert ((n + 1) * cap) as real == (n as real + 1.0) * c;
    if x < n as real {
      ScaleLess(x, n as real, c);
    }
    if n as real + 1.0 <= x {
      ScaleLess(n as real + 1.0, x, c);
    }
  }

  lemma ScaleLess(x: real, y: real, c: real)
    requires c > 0.0
    ensures x < y ==> x * c < y * c
    ensures x <= y ==> x * c <= y * c
  {
  }

  lemma FloorUnique(n: int, m: int, x: real)
    requires IsFloor(n, x) && IsFloor(m, x)
    ensures n == m
  {
  }

  lemma PercentageExact(left: u64, cap: u64)
    requires 0 < left <= cap && left * 100 <= U64_MAX
    ensures IsFloor(Percentage(left, cap), left as real / cap as real * 100.0)
  {
    hide IsFloor;
    DivisionBounds(left * 100, cap, left * 100 / cap);
    ScaledFraction(left, cap, left * 100 / cap);
  }

  lemma PercentageWrapped(left: u64, cap: u64)
    requires 0 < left <= cap && left * 100 > U64_MAX
    ensures !IsFloor(Percentage(left, cap), left as real / cap as real * 100.0)
  {
    hide IsFloor;
    var p: int, c: int := left * 100, cap;
    DivisionBounds(p, c, p / c);
    ScaledFraction(left, cap, p / c);
    WrappedQuotient(p, c);
    if IsFloor(Percentage(left, cap), left as real / cap as real * 100.0) {
      FloorUnique(Percentage(left, cap), p / c, left as real / cap as real * 100.0);
    }
  }

  /** In one dimension the integer percentage is the floor of the exact one exactly when the product fits 64 bits. */
  lemma DimensionFloor(used: u64, cap: u64)
    ensures IsFloor(DimensionHeadroom(used, cap), Fraction(used, cap) * 100.0) <==> FitsProduct(used, cap)
  {
    hide Percentage;
    if cap != 0 && used < cap {
      hide IsFloor;
      if FitsProduct(used, cap) {
        PercentageExact(cap - used, cap);
      } else {
        PercentageWrapped(cap - used, cap);
      }
    }
  }

  lemma WrappedQuotient(p: int, c: int)
    requires 0 < c <= U64_MAX && p > U64_MAX
    ensures p % TWO_64 / c < p / c
  {
    var m := p % TWO_64;
    assert m <= p - TWO_64;
    DivisionBounds(m, c, m / c);
    DivisionBounds(p, c, p / c);
  }

  lemma PercentageNotOver(left: u64, cap: u64)
    requires 0 < left <= cap
    ensures Percentage(left, cap) as real <= left as real / cap as real * 100.0
    ensures Percentage(left, cap) <= 100
  {
    var p: int, c: int := left * 100, cap;
    DivisionBounds(p, c, p / c);
    ScaledFraction(left, cap, p / c);
    if p > U64_MAX {
      WrappedQuotient(p, c);
    }
    NoMoreThan(p / c, c, 100);
  }

  lemma NoMoreThan(q: int, c: int, n: int)
    requires c > 0 && q * c <= n * c
    ensures q <= n
  {
    assert q >= n + 1 ==> q * c >= (n + 1) * c;
  }

  lemma DimensionNotOver(used: u64, cap: u64)
    ensures DimensionHeadroom(used, cap) as real <= Fraction(used, cap) * 100.0
    ensures DimensionHeadroom(used, cap) <= 100
  {
    hide Percentage;
    if cap != 0 && used < cap {
      PercentageNotOver(cap - used, cap);
    }
  }

  /** One dimension's share of the ledger's headroom. */
  function HeadroomAt(cap: Resources, used: Resources, d: Dimension): int {
    DimensionHeadroom(used.At(d), cap.At(d))
  }

  function FractionAt(cap: Resources, used: Resources, d: Dimension): real {
    Fraction(used.At(d), cap.At(d))
  }

  lemma LedgerIsLeast(cap: Resources, used: Resources)
    ensures forall d: Dimension :: LedgerHeadroom(cap, used) <= HeadroomAt(cap, used, d)
    ensures exists d: Dimension :: LedgerHeadroom(cap, used) == HeadroomAt(cap, used, d)
  {
    hide DimensionHeadroom, Fraction;
    DimensionNotOver(used.memoryBytes, cap.memoryBytes);
    var l := LedgerHeadroom(cap, used);
    assert l == HeadroomAt(cap, used, Memory) || l == HeadroomAt(cap, used, Queues) || l == HeadroomAt(cap, used, Functions)
           || l == HeadroomAt(cap, used, Slots) || l == HeadroomAt(cap, used, Contexts);
  }

  lemma FractionIsUnit(used: u64, cap: u64)
    ensures Fraction(used, cap) <= 1.0
  {
    if cap != 0 && used < cap {
      var x, c := (cap - used) as real / cap as real, cap as real;
      assert x * c == (cap - used) as real <= c;
      if 1.0 < x {
        ScaleLess(1.0, x, c);
        assert false;
      }
    }
  }

  lemma ExactIsLeast(cap: Resources, used: Resources)
    ensures forall d: Dimension :: HeadroomPct(cap, used) <= FractionAt(cap, used, d) * 100.0
    ensures exists d: Dimension :: HeadroomPct(cap, used) == FractionAt(cap, used, d) * 100.0
  {
    hide Fraction;
    FractionIsUnit(used.memoryBytes, cap.memoryBytes);
    var x := HeadroomPct(cap, used);
    assert x == FractionAt(cap, used, Memory) * 100.0 || x == FractionAt(cap, used, Queues) * 100.0
           || x == FractionAt(cap, used, Functions) * 100.0 || x == FractionAt(cap, used, Slots) * 100.0
           || x == FractionAt(cap, used, Contexts) * 100.0;
  }

  /** A dimension that decides the ledger's headroom, with a product inside 64 bits. */
  predicate Decides(cap: Resources, used: Resources, d: Dimension) {
    FitsProduct(used.At(d), cap.At(d)) && HeadroomAt(cap, used, d) == LedgerHeadroom(cap, used)
  }

  /** The ledger's headroom is the floor of the exact one exactly when a dimension that decides it has not
      wrapped; when it is not the floor, it is too small. */
  lemma LedgerFloor(cap: Resources, used: Resources)
    ensures LedgerHeadroom(cap, used) as real <= HeadroomPct(cap, used)
    ensures IsFloor(LedgerHeadroom(cap, used), HeadroomPct(cap, used)) <==> exists d: Dimension :: Decides(cap, used, d)
  {
    hide LedgerHeadroom, HeadroomPct, DimensionHeadroom, Fraction, FitsProduct;
    LedgerIsLeast(cap, used);
    ExactIsLeast(cap, used);
    var least: Dimension :| HeadroomPct(cap, used) == FractionAt(cap, used, least) * 100.0;
    DimensionNotOver(used.At(least), cap.At(least));
    DimensionFloor(used.At(least), cap.At(least));
    assert HeadroomAt(cap, used, least) >= LedgerHeadroom(cap, used);
    if d: Dimension :| Decides(cap, used, d) {
      DimensionFloor(used.At(d), cap.At(d));
      assert HeadroomPct(cap, used) <= FractionAt(cap, used, d) * 100.0;
    }
    if IsFloor(LedgerHeadroom(cap, used), HeadroomPct(cap, used)) {
      assert Decides(cap, used, least);
    }
  }

  /** What is left of one dimension, and never less than nothing. */
  function Free(used: u64, cap: u64): nat {
    if used < cap then cap - used else 0
  }

  lemma FractionAtLeast(used: u64, cap: u64, m: nat)
    requires cap != 0
    ensures Fraction(used, cap) * 100.0 >= m as real <==> Free(used, cap) * 100 >= m * cap
  {
    var free, c: int := Free(used, cap), cap;
    var x := Fraction(used, cap);
    Scaled(x, free, c, m);
  }

  lemma Scaled(x: real, free: int, c: int, m: int)
    requires c > 0 && x == free as real / c as real
    ensures x * 100.0 >= m as real <==> free * 100 >= m * c
  {
    var y, z := x * 100.0, c as real;
    assert x * z == free as real;
    assert y * z == (free * 100) as real by {
      assert y * z == x * z * 100.0;
    }
    assert (m * c) as real == m as real * z;
    ScaleLess(m as real, y, z);
    ScaleLess(y, m as real, z);
  }

  /** The exact percentage against an integer limit, without fractions: each bounded dimension has that much left. */
  lemma HeadroomAtLeast(cap: Resources, used: Resources, m: nat)
    ensures HeadroomPct(cap, used) >= m as real <==>
            m <= 100 && forall d: Dimension :: cap.At(d) == 0 || Free(used.At(d), cap.At(d)) * 100 >= m * cap.At(d)
  {
    hide HeadroomPct, Fraction, Free;
    ExactIsLeast(cap, used);
    NeverOver(cap, used);
    forall d: Dimension ensures FractionAt(cap, used, d) * 100.0 >= m as real <==>
                                if cap.At(d) == 0 then m <= 100 else Free(used.At(d), cap.At(d)) * 100 >= m * cap.At(d) {
      if cap.At(d) == 0 {
        Unbounded(used.At(d));
      } else {
        FractionAtLeast(used.At(d), cap.At(d), m);
      }
    }
  }

  lemma Unbounded(used: u64)
    ensures Fraction(used, 0) == 1.0
  {
  }

  lemma NeverOver(cap: Resources, used: Resources)
    ensures HeadroomPct(cap, used) <= 100.0
  {
    hide Fraction;
    FractionIsUnit(used.memoryBytes, cap.memoryBytes);
  }

  /** Capacities up to (2^64 - 1) / 100 always fit, and then both forms agree on every integer threshold. */
  lemma SameVerdict(cap: Resources, used: Resources, threshold: int)
    requires forall d: Dimension :: cap.At(d) <= U64_MAX / 100
    ensures LedgerHeadroom(cap, used) < threshold <==> HeadroomPct(cap, used) < threshold as real
  {
    forall d: Dimension ensures FitsProduct(used.At(d), cap.At(d)) {
      assert cap.At(d) <= U64_MAX / 100;
    }
    LedgerFloor(cap, used);
    LedgerIsLeast(cap, used);
    var d: Dimension :| LedgerHeadroom(cap, used) == HeadroomAt(cap, used, d);
    assert Decides(cap, used, d);
    hide LedgerHeadroom, HeadroomPct;
    FloorVerdict(LedgerHeadroom(cap, used), HeadroomPct(cap, used), threshold);
  }

  lemma FloorVerdict(n: int, x: real, threshold: int)
    requires IsFloor(n, x)
    ensures n < threshold <==> x < threshold as real
  {
    if n < threshold {
      assert n + 1 <= threshold;
      assert (n + 1) as real <= threshold as real;
    } else {
      assert threshold as real <= n as real;
    }
  }

  /** Above that bound the product can wrap: an untouched capacity of 2^63 bytes reports no headroom at all. */
  lemma WrappedHeadroomWitness()
    ensures var cap := NOTHING.(memoryBytes := 0x8000_0000_0000_0000);
            LedgerHeadroom(cap, NOTHING) == 0 && HeadroomPct(cap, NOTHING) == 100.0
  {
    assert (0x8000_0000_0000_0000 * 100) % TWO_64 == 0;
    assert Fraction(0, 0x8000_0000_0000_0000) == 1.0;
  }
}
