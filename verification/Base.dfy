/** Machine integers, results and ordered keys shared by the whole model. */
module Base {

  const TWO_64: int := 0x1_0000_0000_0000_0000
  const U64_MAX: int := 0xFFFF_FFFF_FFFF_FFFF

  type byte = x: int | 0 <= x < 0x100
  type u16 = x: int | 0 <= x < 0x1_0000
  type u32 = x: int | 0 <= x < 0x1_0000_0000
  type u64 = x: int | 0 <= x < 0x1_0000_0000_0000_0000

  /** A C++ std::string: a run of bytes. */
  type Str = seq<byte>

  datatype Option<+T> = None | Some(value: T)

  /** The error codes that the modelled operations throw. */
  datatype ErrorCode =
    | INVALID_ARGUMENT
    | NOT_FOUND
    | ALREADY_EXISTS
    | INVALID_STATE
    | INVALID_TRANSITION
    | DEVICE_NOT_READY
    | STALE_WORKER
    | STALE_PROGRAM_GENERATION
    | RESOURCE_EXHAUSTED
    | PROTOCOL_ERROR
    | FRAME_TOO_LARGE
    | CHECKSUM_FAILURE
    | CORRUPT_STATE
    | EMPTY_DEREFERENCE // not thrown: stands for dereferencing an empty std::optional

  /** A C++ call that either returns or throws. */
  datatype Result<+T> = Ok(value: T) | Err(error: ErrorCode) {
    predicate IsFailure() {
      Err?
    }

    function PropagateFailure<U>(): Result<U>
      requires Err?
    {
      Err(error)
    }

    function Extract(): T
      requires Ok?
    {
      value
    }
  }

  /** Unsigned 64-bit addition: wraps around. */
  function WrapAdd(a: u64, b: u64): (r: u64)
    ensures r == a + b || r == a + b - TWO_64
    ensures r == a + b <==> a + b < TWO_64
  {
    (a + b) % TWO_64
  }

  /** Generation counters stop at the largest 64-bit value instead of wrapping. */
  function NextGeneration(cur: u64): (r: u64)
    ensures cur <= r
    ensures cur < r <==> cur != U64_MAX
  {
    if cur == U64_MAX then cur else cur + 1
  }

  // Ordered keys: std::map visits its keys in ascending order.

  lemma {:induction false} LeastExists(s: set<u64>, y: u64)
    requires y in s
    ensures exists m :: m in s && forall x :: x in s ==> m <= x
    decreases y
  {
    if z :| z in s && z < y {
      LeastExists(s, z);
    }
  }

  /** The key a std::map iterator visits first. */
  function Least(s: set<u64>): (m: u64)
    requires s != {}
    ensures m in s
    ensures forall x :: x in s ==> m <= x
  {
    assert exists m :: m in s && forall x :: x in s ==> m <= x by {
      var y :| y in s;
      LeastExists(s, y);
    }
    var m :| m in s && forall x :: x in s ==> m <= x;
    m
  }

  /** The keys of a std::map in visiting order. */
  function Ascending(s: set<u64>): (keys: seq<u64>)
    ensures |keys| == |s|
    ensures forall k :: k in s <==> k in keys
    ensures forall i, j :: 0 <= i < j < |keys| ==> keys[i] < keys[j]
  {
    if s == {} then []
    else
      var m := Least(s);
      var rest := Ascending(s - {m});
      assert forall k :: k in rest ==> k in s && m < k;
      [m] + rest
  }

  predicate Distinct<T(==)>(xs: seq<T>) {
    forall i, j :: 0 <= i < j < |xs| ==> xs[i] != xs[j]
  }
}
