/** Long division of polynomials over the field of two elements. A sequence of bits is a polynomial, the
    coefficient of the highest power first. */
module Division {
  type Bits = seq<bool>

  const WIDTH := 32

  /** The powers in the generator polynomial of IEEE Std 802.3-2018, clause 3.2.9. */
  const POWERS: set<int> := {32, 26, 23, 22, 16, 12, 11, 10, 8, 7, 5, 4, 2, 1, 0}

  function Generator(): (g: Bits)
    ensures |g| == WIDTH + 1 && g[0]
  {
    seq(WIDTH + 1, i => (WIDTH - i) in POWERS)
  }

  function Zeros(n: nat): (z: Bits)
    ensures |z| == n && forall i :: 0 <= i < n ==> !z[i]
  {
    seq(n, i => false)
  }

  function Ones(n: nat): (o: Bits)
    ensures |o| == n && forall i :: 0 <= i < n ==> o[i]
  {
    seq(n, i => true)
  }

  /** The sum, which is also the difference. */
  function Plus(p: Bits, q: Bits): (r: Bits)
    requires |p| == |q|
    ensures |r| == |p| && forall i :: 0 <= i < |p| ==> r[i] == (p[i] != q[i])
  {
    seq(|p|, i requires 0 <= i < |p| => p[i] != q[i])
  }

  /** One step of the division: the leading coefficient is cancelled, and dropped. */
  function Reduced(p: Bits): (r: Bits)
    requires |p| > WIDTH
    ensures |r| == |p| - 1
  {
    if p[0] then Plus(p, Generator() + Zeros(|p| - WIDTH - 1))[1..] else p[1..]
  }

  function Remainder(p: Bits): (r: Bits)
    requires |p| >= WIDTH
    ensures |r| == WIDTH
    decreases |p|
  {
    if |p| == WIDTH then p else Remainder(Reduced(p))
  }

  /** The product of q and the generator. */
  function Times(q: Bits): (r: Bits)
    ensures |r| == |q| + WIDTH
  {
    if q == [] then Zeros(WIDTH)
    else Plus(if q[0] then Generator() + Zeros(|q| - 1) else Zeros(|q| + WIDTH), [false] + Times(q[1..]))
  }

  /** p is q times the generator, plus r. */
  ghost predicate Divides(p: Bits, q: Bits, r: Bits) {
    |r| == WIDTH && |p| == |q| + WIDTH && p == Plus(Times(q), Zeros(|q|) + r)
  }

  /** The generator, if b, over the leading powers of a polynomial of n more coefficients. */
  function Subtrahend(b: bool, n: nat): (s: Bits)
    ensures |s| == n + 1 + WIDTH && s[0] == b
  {
    if b then Generator() + Zeros(n) else Zeros(n + 1 + WIDTH)
  }

  lemma PlusMoves(p: Bits, s: Bits, x: Bits)
    requires |p| == |s| == |x|
    ensures p == Plus(s, x) <==> Plus(p, s) == x
  {
    if p == Plus(s, x) {
      assert Plus(p, s) == x;
    }
    if Plus(p, s) == x {
      assert forall i :: 0 <= i < |p| ==> x[i] == (p[i] != s[i]);
      assert p == Plus(s, x);
    }
  }

  lemma ReducedIs(p: Bits)
    requires |p| > WIDTH
    ensures Reduced(p) == Plus(p, Subtrahend(p[0], |p| - WIDTH - 1))[1..]
  {
    if !p[0] {
      assert Plus(p, Zeros(|p|)) == p;
    }
  }

  lemma WholeIs(q: Bits, r: Bits)
    requires |r| == WIDTH && q != []
    ensures Plus(Times(q), Zeros(|q|) + r) ==
            Plus(Subtrahend(q[0], |q| - 1), [false] + Plus(Times(q[1..]), Zeros(|q| - 1) + r))
  {
    hide Subtrahend, Times, Plus, Zeros;
    var s, t := Subtrahend(q[0], |q| - 1), Times(q[1..]);
    TimesIs(q);
    Shifted(t, |q| - 1, r);
    PlusAssociative(s, [false] + t, Zeros(|q|) + r);
  }

  lemma Shifted(t: Bits, n: nat, r: Bits)
    requires |t| == n + |r|
    ensures [false] + Plus(t, Zeros(n) + r) == Plus([false] + t, Zeros(n + 1) + r)
  {
    var lhs, rhs := [false] + Plus(t, Zeros(n) + r), Plus([false] + t, Zeros(n + 1) + r);
    forall i | 0 <= i < |lhs| ensures lhs[i] == rhs[i] {
      assert i > 0 ==> (Zeros(n + 1) + r)[i] == (Zeros(n) + r)[i - 1];
    }
  }

  lemma TimesIs(q: Bits)
    requires q != []
    ensures Times(q) == Plus(Subtrahend(q[0], |q| - 1), [false] + Times(q[1..]))
  {
  }

  lemma PlusAssociative(x: Bits, y: Bits, z: Bits)
    requires |x| == |y| == |z|
    ensures Plus(Plus(x, y), z) == Plus(x, Plus(y, z))
  {
  }

  lemma DividesStep(p: Bits, q: Bits, r: Bits)
    requires |p| > WIDTH && |q| == |p| - WIDTH && |r| == WIDTH
    ensures Divides(p, q, r) <==> q[0] == p[0] && Divides(Reduced(p), q[1..], r)
  {
    hide Times, Subtrahend, Reduced;
    var s, rest := Subtrahend(q[0], |q| - 1), Plus(Times(q[1..]), Zeros(|q| - 1) + r);
    WholeIs(q, r);
    PlusMoves(p, s, [false] + rest);
    ReducedIs(p);
    assert Plus(p, s) == [p[0] != s[0]] + Plus(p, s)[1..];
    assert ([false] + rest)[1..] == rest;
  }

  /** The quotient: the leading coefficients that were cancelled. */
  function Quotient(p: Bits): (q: Bits)
    requires |p| >= WIDTH
    ensures |q| == |p| - WIDTH
    decreases |p|
  {
    if |p| == WIDTH then [] else [p[0]] + Quotient(Reduced(p))
  }

  lemma {:induction false} QuotientDivides(p: Bits)
    requires |p| >= WIDTH
    ensures Divides(p, Quotient(p), Remainder(p))
    decreases |p|
  {
    if |p| > WIDTH {
      QuotientDivides(Reduced(p));
      assert Quotient(p)[1..] == Quotient(Reduced(p));
      DividesStep(p, Quotient(p), Remainder(p));
    }
  }

  lemma {:induction false} RemainderUnique(p: Bits, q: Bits, r: Bits)
    requires Divides(p, q, r)
    ensures r == Remainder(p)
    decreases |p|
  {
    if |p| > WIDTH {
      DividesStep(p, q, r);
      RemainderUnique(Reduced(p), q[1..], r);
    }
  }

  /** Long division finds the one remainder there is. */
  lemma RemainderExactly(p: Bits, r: Bits)
    requires |p| >= WIDTH
    ensures r == Remainder(p) <==> exists q :: Divides(p, q, r)
  {
    QuotientDivides(p);
    if q :| Divides(p, q, r) {
      RemainderUnique(p, q, r);
    }
  }
}
