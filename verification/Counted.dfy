/** Counted lists on the wire: a 32-bit count, then the elements one after the other. */
module Counted {
  import opened Base
  import opened Wire

  type Put<!T> = (T, seq<byte>) -> seq<byte>
  type Get<!T> = seq<byte> -> Result<Taken<T>>

  function PutMany<T>(put: Put<T>, vs: seq<T>, t: seq<byte>): seq<byte>
    decreases |vs|
  {
    if vs == [] then t else PutMany(put, vs[..|vs| - 1], put(vs[|vs| - 1], t))
  }

  function GetMany<T>(get: Get<T>, n: nat, bs: seq<byte>): Result<Taken<seq<T>>> {
    if n == 0 then Ok(Taken([], bs))
    else
      var most :- GetMany(get, n - 1, bs);
      var last :- get(most.rest);
      Ok(Taken(most.value + [last.value], last.rest))
  }

  function PutCounted<T>(put: Put<T>, vs: seq<T>, t: seq<byte>): seq<byte> {
    PutU32(|vs| % 0x1_0000_0000, PutMany(put, vs, t))
  }

  function GetCounted<T>(get: Get<T>, bound: nat, bs: seq<byte>): Result<Taken<seq<T>>> {
    var n :- GetU32(bs);
    if n.value > bound then Err(CORRUPT_STATE) else GetMany(get, n.value, n.rest)
  }

  /** What is put for v, in front of anything, is what get takes off again. */
  ghost predicate Exact<T(!new)>(put: Put<T>, get: Get<T>, v: T) {
    forall t: seq<byte> :: get(put(v, t)) == Ok(Taken(v, t))
  }

  lemma {:induction false} ManyExact<T(!new)>(put: Put<T>, get: Get<T>, vs: seq<T>, t: seq<byte>)
    requires forall i :: 0 <= i < |vs| ==> Exact(put, get, vs[i])
    ensures GetMany(get, |vs|, PutMany(put, vs, t)) == Ok(Taken(vs, t))
    decreases |vs|
  {
    if vs != [] {
      var most, last := vs[..|vs| - 1], vs[|vs| - 1];
      assert Exact(put, get, last);
      ManyExact(put, get, most, put(last, t));
      assert most + [last] == vs;
    }
  }

  lemma CountedExact<T(!new)>(put: Put<T>, get: Get<T>, bound: nat, vs: seq<T>, t: seq<byte>)
    requires forall i :: 0 <= i < |vs| ==> Exact(put, get, vs[i])
    requires |vs| <= bound < 0x1_0000_0000
    ensures GetCounted(get, bound, PutCounted(put, vs, t)) == Ok(Taken(vs, t))
  {
    hide PutU32, GetU32;
    ManyExact(put, get, vs, t);
  }

  // ---- for the loops that write and read such lists ----

  /** Writing one more element. */
  lemma PutOneMore<T>(put: Put<T>, vs: seq<T>, i: nat)
    requires i < |vs|
    ensures forall t: seq<byte> :: PutMany(put, vs[..i + 1], t) == PutMany(put, vs[..i], put(vs[i], t))
  {
    assert vs[..i + 1][..i] == vs[..i];
  }

  lemma PutLast<T>(put: Put<T>, vs: seq<T>, v: T)
    ensures forall t: seq<byte> :: PutMany(put, vs + [v], t) == PutMany(put, vs, put(v, t))
  {
    assert (vs + [v])[..|vs|] == vs;
  }

  /** What holds of each element written. */
  predicate Every<T>(ok: T -> bool, vs: seq<T>) {
    forall i :: 0 <= i < |vs| ==> ok(vs[i])
  }

  lemma EveryOneMore<T>(ok: T -> bool, vs: seq<T>, i: nat)
    requires i < |vs| && Every(ok, vs[..i])
    ensures ok(vs[i]) ==> Every(ok, vs[..i + 1])
    ensures !ok(vs[i]) ==> !Every(ok, vs)
  {
    forall j | 0 <= j < i ensures ok(vs[j]) {
      assert vs[..i][j] == vs[j];
    }
  }

  lemma EveryNone<T>(ok: T -> bool, vs: seq<T>)
    ensures Every(ok, vs[..0])
  {
  }

  /** Reading fails where one of its elements does. */
  lemma {:induction false} GetFails<T>(get: Get<T>, i: nat, n: nat, bs: seq<byte>)
    requires i <= n
    ensures GetMany(get, i, bs).Err? ==> GetMany(get, n, bs) == Err(GetMany(get, i, bs).error)
  {
    if i < n {
      GetFails(get, i, n - 1, bs);
    }
  }
}
