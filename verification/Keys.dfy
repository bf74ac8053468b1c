/** Maps as stored: listed in the order in which std::map iterates, and indexed again by key. */
module Keys {
  import opened Base

  /** std::string order: byte by byte, a proper prefix first. */
  predicate Before(a: Str, b: Str) {
    if b == [] then false
    else if a == [] then true
    else a[0] < b[0] || (a[0] == b[0] && Before(a[1..], b[1..]))
  }

  lemma {:induction false} BeforeTotal(a: Str, b: Str)
    ensures a == b || Before(a, b) || Before(b, a)
    decreases |a|
  {
    if a != [] && b != [] && a[0] == b[0] {
      BeforeTotal(a[1..], b[1..]);
      assert a == [a[0]] + a[1..] && b == [b[0]] + b[1..];
    }
  }

  lemma {:induction false} BeforeTransitive(a: Str, b: Str, c: Str)
    requires Before(a, b) && Before(b, c)
    ensures Before(a, c)
    decreases |a|
  {
    if a != [] && a[0] == b[0] == c[0] {
      BeforeTransitive(a[1..], b[1..], c[1..]);
    }
  }

  predicate IsFirst(s: set<Str>, m: Str) {
    m in s && forall x :: x in s && x != m ==> Before(m, x)
  }

  lemma {:induction false} FirstExists(s: set<Str>)
    requires s != {}
    ensures exists m :: IsFirst(s, m)
    decreases |s|
  {
    var x :| x in s;
    if s == {x} {
      assert IsFirst(s, x);
    } else {
      FirstExists(s - {x});
      var m :| IsFirst(s - {x}, m);
      BeforeTotal(x, m);
      if Before(x, m) {
        forall y | y in s && y != x ensures Before(x, y) {
          if y != m {
            BeforeTransitive(x, m, y);
          }
        }
        assert IsFirst(s, x);
      } else {
        assert IsFirst(s, m);
      }
    }
  }

  lemma {:induction false} BeforeAsymmetric(a: Str, b: Str)
    requires Before(a, b)
    ensures !Before(b, a) && a != b
    decreases |a|
  {
    if a != [] && a[0] == b[0] {
      BeforeAsymmetric(a[1..], b[1..]);
    }
  }

  lemma FirstUnique(s: set<Str>, m: Str, n: Str)
    requires IsFirst(s, m) && IsFirst(s, n)
    ensures m == n
  {
    if m != n {
      BeforeAsymmetric(m, n);
    }
  }

  function First(s: set<Str>): (m: Str)
    requires s != {}
    ensures IsFirst(s, m)
  {
    FirstExists(s);
    assert forall m, n :: IsFirst(s, m) && IsFirst(s, n) ==> m == n by {
      forall m, n | IsFirst(s, m) && IsFirst(s, n) ensures m == n {
        FirstUnique(s, m, n);
      }
    }
    var m :| IsFirst(s, m);
    m
  }

  /** The keys of a std::map in iteration order. */
  function InOrder(s: set<Str>): (keys: seq<Str>)
    ensures |keys| == |s|
    ensures forall k :: k in s <==> k in keys
  {
    if s == {} then []
    else
      var m := First(s);
      var rest := InOrder(s - {m});
      [m] + rest
  }

  function ValuesAt<K, V>(m: map<K, V>, keys: seq<K>): (vs: seq<V>)
    requires forall k :: k in keys ==> k in m
    ensures |vs| == |keys|
    ensures forall i :: 0 <= i < |vs| ==> vs[i] == m[keys[i]]
  {
    seq(|keys|, i requires 0 <= i < |keys| => m[keys[i]])
  }

  /** Entering records one after the other under the key each of them carries. */
  function Indexed<K, V>(key: V -> K, vs: seq<V>): map<K, V>
    decreases |vs|
  {
    if vs == [] then map[] else Indexed(key, vs[..|vs| - 1])[key(vs[|vs| - 1]) := vs[|vs| - 1]]
  }

  lemma IndexedOneMore<K, V>(key: V -> K, vs: seq<V>, v: V)
    ensures Indexed(key, vs + [v]) == Indexed(key, vs)[key(v) := v]
  {
    assert (vs + [v])[..|vs|] == vs;
  }

  lemma MergeOneMore<K, V>(base: map<K, V>, m: map<K, V>, k: K, v: V)
    ensures base + m[k := v] == (base + m)[k := v]
  {
    assert (base + m[k := v]).Keys == (base + m)[k := v].Keys;
  }

  /** The same, into tables that already hold something. */
  lemma EnteredOneMore<K, V>(key: V -> K, base: map<K, V>, vs: seq<V>, v: V)
    ensures base + Indexed(key, vs + [v]) == (base + Indexed(key, vs))[key(v) := v]
  {
    IndexedOneMore(key, vs, v);
    MergeOneMore(base, Indexed(key, vs), key(v), v);
  }

  lemma {:induction false} IndexedPrefix<K, V>(key: V -> K, m: map<K, V>, keys: seq<K>)
    requires forall k :: k in keys ==> k in m && key(m[k]) == k
    ensures forall k :: k in Indexed(key, ValuesAt(m, keys)) ==> k in keys && Indexed(key, ValuesAt(m, keys))[k] == m[k]
    ensures forall k :: k in keys ==> k in Indexed(key, ValuesAt(m, keys))
    decreases |keys|
  {
    if keys != [] {
      var most := keys[..|keys| - 1];
      IndexedPrefix(key, m, most);
      assert ValuesAt(m, keys)[..|keys| - 1] == ValuesAt(m, most);
      assert keys == most + [keys[|keys| - 1]];
    }
  }

  lemma SameMap<K, V>(a: map<K, V>, b: map<K, V>)
    requires (forall k :: k in a ==> k in b) && (forall k :: k in b ==> k in a)
    requires forall k :: k in a ==> a[k] == b[k]
    ensures a == b
  {
    assert a.Keys == b.Keys;
  }

  /** A map whose records carry their keys survives being listed and indexed again, in any order. */
  lemma IndexedListing<K, V>(key: V -> K, m: map<K, V>, keys: seq<K>)
    requires forall k :: k in m ==> key(m[k]) == k
    requires (forall k :: k in keys ==> k in m) && (forall k :: k in m ==> k in keys)
    ensures Indexed(key, ValuesAt(m, keys)) == m
  {
    IndexedPrefix(key, m, keys);
    var index := Indexed(key, ValuesAt(m, keys));
    SameMap(index, m);
  }
}
