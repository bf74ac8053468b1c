/** The bounded little-endian wire format of include/dpufabric/wire.h.

    Put functions give the bytes a write adds in front of whatever follows (t);
    Get functions give the value a read takes off the front of the unread bytes. */
module Wire {
  import opened Base

  const MAX_STRING_BYTES := 0x10_0000
  const MAX_CONTAINER_COUNT := 0x10_0000
  const MAX_BLOB_BYTES := 0x400_0000

  datatype Taken<+T> = Taken(value: T, rest: seq<byte>)

  function At(bs: seq<byte>, i: nat): int
    requires i < |bs|
  {
    bs[i]
  }

  function GetU8(bs: seq<byte>): (r: Result<Taken<byte>>)
    ensures r.Ok? <==> |bs| >= 1
    ensures r.Ok? ==> |bs| == |r.value.rest| + 1
  {
    if |bs| < 1 then Err(PROTOCOL_ERROR) else Ok(Taken(bs[0], bs[1..]))
  }

  function GetU16(bs: seq<byte>): (r: Result<Taken<u16>>)
    ensures r.Ok? <==> |bs| >= 2
    ensures r.Ok? ==> |bs| == |r.value.rest| + 2
  {
    if |bs| < 2 then Err(PROTOCOL_ERROR) else Ok(Taken(At(bs, 0) + 0x100 * At(bs, 1), bs[2..]))
  }

  function GetU32(bs: seq<byte>): (r: Result<Taken<u32>>)
    ensures r.Ok? <==> |bs| >= 4
    ensures r.Ok? ==> |bs| == |r.value.rest| + 4
  {
    if |bs| < 4 then Err(PROTOCOL_ERROR)
    else Ok(Taken(At(bs, 0) + 0x100 * At(bs, 1) + 0x1_0000 * At(bs, 2) + 0x100_0000 * At(bs, 3), bs[4..]))
  }

  function GetU64(bs: seq<byte>): Result<Taken<u64>> {
    var lo :- GetU32(bs);
    var hi :- GetU32(lo.rest);
    Ok(Taken(lo.value + 0x1_0000_0000 * hi.value, hi.rest))
  }

  function GetRaw(bs: seq<byte>, n: nat): Result<Taken<seq<byte>>> {
    if |bs| < n then Err(PROTOCOL_ERROR) else Ok(Taken(bs[..n], bs[n..]))
  }

  function GetBounded(bs: seq<byte>, bound: nat): Result<Taken<Str>> {
    var len :- GetU32(bs);
    if len.value > bound then Err(INVALID_ARGUMENT) else GetRaw(len.rest, len.value)
  }

  function GetStr(bs: seq<byte>): Result<Taken<Str>> {
    GetBounded(bs, MAX_STRING_BYTES)
  }

  function GetBlob(bs: seq<byte>): Result<Taken<Str>> {
    GetBounded(bs, MAX_BLOB_BYTES)
  }

  function PutU8(v: byte, t: seq<byte>): (r: seq<byte>)
    ensures GetU8(r) == Ok(Taken(v, t))
  {
    [v] + t
  }

  function PutU16(v: u16, t: seq<byte>): (r: seq<byte>)
    ensures GetU16(r) == Ok(Taken(v, t))
  {
    PutU8(v % 0x100, PutU8(v / 0x100, t))
  }

  function PutU32(v: u32, t: seq<byte>): (r: seq<byte>)
    ensures GetU32(r) == Ok(Taken(v, t))
  {
    var hi := PutU16(v / 0x1_0000, t);
    var lo := PutU16(v % 0x1_0000, hi);
    assert lo[2..] == hi && lo[4..] == t;
    lo
  }

  function PutU64(v: u64, t: seq<byte>): (r: seq<byte>)
    ensures GetU64(r) == Ok(Taken(v, t))
  {
    PutU32(v % 0x1_0000_0000, PutU32(v / 0x1_0000_0000, t))
  }

  lemma PutAppend(v: u32, s: seq<byte>, t: seq<byte>)
    ensures PutU32(v, s + t) == PutU32(v, s) + t
    ensures v < 0x1_0000 ==> PutU16(v, s + t) == PutU16(v, s) + t
  {
    var lo, hi := v % 0x1_0000, v / 0x1_0000;
    PutU16Append(hi, s, t);
    PutU16Append(lo, PutU16(hi, s), t);
    if v < 0x1_0000 {
      PutU16Append(v, s, t);
    }
  }

  lemma PutU16Append(v: u16, s: seq<byte>, t: seq<byte>)
    ensures PutU16(v, s + t) == PutU16(v, s) + t
  {
    assert [v / 0x100] + (s + t) == ([v / 0x100] + s) + t;
  }

  function PutRaw(s: seq<byte>, t: seq<byte>): (r: seq<byte>)
    ensures GetRaw(r, |s|) == Ok(Taken(s, t))
  {
    s + t
  }

  function PutStr(s: Str, t: seq<byte>): (r: seq<byte>)
    ensures |s| <= MAX_STRING_BYTES ==> GetStr(r) == Ok(Taken(s, t))
    ensures |s| <= MAX_BLOB_BYTES ==> GetBlob(r) == Ok(Taken(s, t))
  {
    PutU32(|s| % 0x1_0000_0000, PutRaw(s, t))
  }

  // A fixed-width read leaves no room for a second encoding of the same value.

  lemma U16Canonical(bs: seq<byte>)
    requires GetU16(bs).Ok?
    ensures bs == PutU16(GetU16(bs).value.value, GetU16(bs).value.rest)
  {
  }

  lemma U32Canonical(bs: seq<byte>)
    requires GetU32(bs).Ok?
    ensures bs == PutU32(GetU32(bs).value.value, GetU32(bs).value.rest)
  {
    var v, t := GetU32(bs).value.value, GetU32(bs).value.rest;
    var lo: int, hi: int := At(bs, 0) + 0x100 * At(bs, 1), At(bs, 2) + 0x100 * At(bs, 3);
    assert v / 0x1_0000 == hi && v % 0x1_0000 == lo;
    assert PutU16(hi, t) == bs[2..];
  }

  /** A growing output buffer. */
  class Writer {
    var buf: seq<byte>

    constructor ()
      ensures buf == []
    {
      buf := [];
    }

    method U8(v: byte)
      modifies this
      ensures forall t: seq<byte> {:trigger buf + t} :: buf + t == old(buf) + PutU8(v, t)
    {
      buf := buf + [v];
    }

    method U16(v: u16)
      modifies this
      ensures forall t: seq<byte> {:trigger buf + t} :: buf + t == old(buf) + PutU16(v, t)
    {
      U8(v % 0x100);
      U8(v / 0x100);
    }

    method U32(v: u32)
      modifies this
      ensures forall t: seq<byte> {:trigger buf + t} :: buf + t == old(buf) + PutU32(v, t)
    {
      U16(v % 0x1_0000);
      U16(v / 0x1_0000);
    }

    method U64(v: u64)
      modifies this
      ensures forall t: seq<byte> {:trigger buf + t} :: buf + t == old(buf) + PutU64(v, t)
    {
      U32(v % 0x1_0000_0000);
      U32(v / 0x1_0000_0000);
    }

    method Raw(s: seq<byte>)
      modifies this
      ensures forall t: seq<byte> {:trigger buf + t} :: buf + t == old(buf) + PutRaw(s, t)
    {
      buf := buf + s;
    }

    method String(s: Str) returns (r: Result<()>)
      modifies this
      ensures r.Ok? <==> |s| <= MAX_STRING_BYTES
      ensures r.Ok? ==> forall t: seq<byte> {:trigger buf + t} :: buf + t == old(buf) + PutStr(s, t)
      ensures r.Err? ==> r.error == INVALID_ARGUMENT && buf == old(buf)
    {
      if |s| > MAX_STRING_BYTES {
        return Err(INVALID_ARGUMENT);
      }
      U32(|s|);
      Raw(s);
      return Ok(());
    }
  }

  /** A cursor over received bytes. */
  class Reader {
    const data: seq<byte>
    var pos: nat

    ghost predicate Valid()
      reads this
    {
      pos <= |data|
    }

    function Rest(): seq<byte>
      requires Valid()
      reads this
    {
      data[pos..]
    }

    /** What a read promises when g is the value that should have been taken. */
    ghost predicate Follows<T>(r: Result<T>, g: Result<Taken<T>>)
      reads this
    {
      && Valid()
      && (g.Ok? ==> r.Ok? && r.value == g.value.value && Rest() == g.value.rest)
      && (g.Err? ==> r.Err? && r.error == g.error)
    }

    constructor (data: seq<byte>)
      ensures Valid() && this.data == data && Rest() == data
    {
      this.data := data;
      pos := 0;
    }

    method Require(n: nat) returns (r: Result<()>)
      requires Valid()
      ensures r == if n > |Rest()| then Err(PROTOCOL_ERROR) else Ok(())
    {
      if n > |data| - pos {
        return Err(PROTOCOL_ERROR);
      }
      return Ok(());
    }

    method U8() returns (r: Result<byte>)
      requires Valid()
      modifies this
      ensures Follows(r, GetU8(old(Rest())))
    {
      var _ :- Require(1);
      pos := pos + 1;
      return Ok(data[pos - 1]);
    }

    method U16() returns (r: Result<u16>)
      requires Valid()
      modifies this
      ensures Follows(r, GetU16(old(Rest())))
    {
      var _ :- Require(2);
      var lo: int, hi: int := data[pos], data[pos + 1];
      pos := pos + 2;
      return Ok(lo + 0x100 * hi);
    }

    method U32() returns (r: Result<u32>)
      requires Valid()
      modifies this
      ensures Follows(r, GetU32(old(Rest())))
    {
      var _ :- Require(4);
      var b0: int, b1: int, b2: int, b3: int := data[pos], data[pos + 1], data[pos + 2], data[pos + 3];
      pos := pos + 4;
      return Ok(b0 + 0x100 * b1 + 0x1_0000 * b2 + 0x100_0000 * b3);
    }

    method U64() returns (r: Result<u64>)
      requires Valid()
      modifies this
      ensures Follows(r, GetU64(old(Rest())))
    {
      var lo :- U32();
      var hi :- U32();
      var low: int, high: int := lo, hi;
      return Ok(low + 0x1_0000_0000 * high);
    }

    method Raw(n: nat) returns (r: Result<seq<byte>>)
      requires Valid()
      modifies this
      ensures Follows(r, GetRaw(old(Rest()), n))
    {
      var _ :- Require(n);
      pos := pos + n;
      assert data[pos - n..pos] == old(Rest())[..n];
      return Ok(data[pos - n..pos]);
    }

    method String() returns (r: Result<Str>)
      requires Valid()
      modifies this
      ensures Follows(r, GetStr(old(Rest())))
    {
      var len :- U32();
      if len > MAX_STRING_BYTES {
        return Err(INVALID_ARGUMENT);
      }
      r := Raw(len);
    }

    method Blob() returns (r: Result<Str>)
      requires Valid()
      modifies this
      ensures Follows(r, GetBlob(old(Rest())))
    {
      var len :- U32();
      if len > MAX_BLOB_BYTES {
        return Err(INVALID_ARGUMENT);
      }
      var _ :- Require(len);
      var out := [];
      for i := 0 to len
        invariant out == data[pos..pos + i]
      {
        out := out + [data[pos + i]];
      }
      assert out == Rest()[..len];
      pos := pos + len;
      return Ok(out);
    }

    method ExpectEnd() returns (r: Result<()>)
      requires Valid()
      ensures r == if Rest() == [] then Ok(()) else Err(PROTOCOL_ERROR)
    {
      if pos < |data| {
        assert Rest()[0] == data[pos];
        return Err(PROTOCOL_ERROR);
      }
      return Ok(());
    }
  }
}
