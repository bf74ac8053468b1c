/** Versioned, checksummed, bounded frames: include/dpufabric/protocol.h. */
module Frame {
  import opened Base
  import opened Wire
  import Crc32

  const MAGIC: u32 := 0x44504657
  const VERSION: u16 := 1
  const HEADER_SIZE := 16
  const MAX_PAYLOAD := 0x40_0000
  const MAX_FRAME_SIZE := HEADER_SIZE + MAX_PAYLOAD

  /** A decoded frame; the type is any 16-bit code. */
  datatype Frame = Frame(kind: u16, payload: seq<byte>, checksum: u32)

  function HeaderBytes(kind: u16, length: u32, checksum: u32, t: seq<byte>): seq<byte> {
    PutU32(MAGIC, PutU16(VERSION, PutU16(kind, PutU32(length, PutU32(checksum, t)))))
  }

  function FrameBytes(kind: u16, payload: seq<byte>): seq<byte>
    requires |payload| <= MAX_PAYLOAD
  {
    HeaderBytes(kind, |payload|, Crc32.Checksum(payload), PutRaw(payload, []))
  }

  method Encode(kind: u16, payload: seq<byte>) returns (r: Result<seq<byte>>)
    ensures r == if |payload| > MAX_PAYLOAD then Err(FRAME_TOO_LARGE) else Ok(FrameBytes(kind, payload))
  {
    if |payload| > MAX_PAYLOAD {
      return Err(FRAME_TOO_LARGE);
    }
    hide PutU16, PutU32, PutRaw, Crc32.Checksum;
    var w := new Writer();
    w.U32(MAGIC);
    w.U16(VERSION);
    w.U16(kind);
    w.U32(|payload|);
    var crc := Crc32.Compute(payload);
    w.U32(crc);
    w.Raw(payload);
    assert w.buf + [] == FrameBytes(kind, payload);
    assert w.buf + [] == w.buf;
    return Ok(w.buf);
  }

  datatype Header = Header(kind: u16, length: u32, checksum: u32)

  /** The header and what follows it. The subtraction is the source's unsigned one. */
  function GetHeader(buf: seq<byte>): Result<Taken<Header>> {
    var magic :- GetU32(buf);
    if magic.value != MAGIC then Err(PROTOCOL_ERROR) else
    var version :- GetU16(magic.rest);
    if version.value != VERSION then Err(PROTOCOL_ERROR) else
    var kind :- GetU16(version.rest);
    var length :- GetU32(kind.rest);
    if length.value > MAX_PAYLOAD then Err(FRAME_TOO_LARGE)
    else if length.value > (|length.rest| - 4) % TWO_64 then Err(PROTOCOL_ERROR)
    else
      var checksum :- GetU32(length.rest);
      Ok(Taken(Header(kind.value, length.value, checksum.value), checksum.rest))
  }

  function DecodeBytes(buf: seq<byte>): Result<Frame> {
    if |buf| < HEADER_SIZE then Err(PROTOCOL_ERROR)
    else if |buf| > MAX_FRAME_SIZE then Err(FRAME_TOO_LARGE)
    else
      var header :- GetHeader(buf);
      var payload :- GetRaw(header.rest, header.value.length);
      if Crc32.Checksum(payload.value) != header.value.checksum then Err(CHECKSUM_FAILURE)
      else if payload.rest != [] then Err(PROTOCOL_ERROR)
      else Ok(Frame(header.value.kind, payload.value, header.value.checksum))
  }

  method ReadHeader(reader: Reader) returns (r: Result<Header>)
    requires reader.Valid()
    modifies reader
    ensures reader.Follows(r, GetHeader(old(reader.Rest())))
  {
    hide GetU16, GetU32;
    var magic :- reader.U32();
    if magic != MAGIC {
      return Err(PROTOCOL_ERROR);
    }
    var version :- reader.U16();
    if version != VERSION {
      return Err(PROTOCOL_ERROR);
    }
    var kind :- reader.U16();
    var length :- reader.U32();
    if length > MAX_PAYLOAD {
      return Err(FRAME_TOO_LARGE);
    }
    var remaining := |reader.data| - reader.pos;
    if length > (remaining - 4) % TWO_64 {
      return Err(PROTOCOL_ERROR);
    }
    var checksum :- reader.U32();
    return Ok(Header(kind, length, checksum));
  }

  method Decode(buf: seq<byte>) returns (r: Result<Frame>)
    ensures r == DecodeBytes(buf)
  {
    hide GetHeader, GetRaw, Crc32.Checksum;
    if |buf| < HEADER_SIZE {
      return Err(PROTOCOL_ERROR);
    }
    if |buf| > MAX_FRAME_SIZE {
      return Err(FRAME_TOO_LARGE);
    }
    var reader := new Reader(buf);
    var header :- ReadHeader(reader);
    var payload :- reader.Raw(header.length);
    var crc := Crc32.Compute(payload);
    if crc != header.checksum {
      return Err(CHECKSUM_FAILURE);
    }
    var _ :- reader.ExpectEnd();
    return Ok(Frame(header.kind, payload, header.checksum));
  }

  lemma HeaderFirst(kind: u16, length: u32, checksum: u32, t: seq<byte>)
    ensures |HeaderBytes(kind, length, checksum, [])| == HEADER_SIZE
    ensures HeaderBytes(kind, length, checksum, t) == HeaderBytes(kind, length, checksum, []) + t
  {
    hide PutU16, PutU32;
    var s4 := PutU32(checksum, []);
    var s3 := PutU32(length, s4);
    var s2 := PutU16(kind, s3);
    var s1 := PutU16(VERSION, s2);
    assert [] + t == t;
    PutAppend(checksum, [], t);
    PutAppend(length, s4, t);
    PutAppend(kind, s3, t);
    PutAppend(VERSION, s2, t);
    PutAppend(MAGIC, s1, t);
  }

  lemma HeaderRead(kind: u16, length: u32, checksum: u32, t: seq<byte>)
    requires |t| == length <= MAX_PAYLOAD
    ensures |HeaderBytes(kind, length, checksum, t)| == HEADER_SIZE + |t|
    ensures GetHeader(HeaderBytes(kind, length, checksum, t)) == Ok(Taken(Header(kind, length, checksum), t))
  {
    hide PutU16, PutU32, GetU16, GetU32;
    HeaderFirst(kind, length, checksum, t);
  }

  lemma HeaderCanonical(buf: seq<byte>)
    requires GetHeader(buf).Ok?
    ensures var h := GetHeader(buf).value;
            buf == HeaderBytes(h.value.kind, h.value.length, h.value.checksum, h.rest) && h.value.length <= MAX_PAYLOAD
  {
    hide PutU16, PutU32, GetU16, GetU32;
    var magic := GetU32(buf).value;
    var version := GetU16(magic.rest).value;
    var kind := GetU16(version.rest).value;
    var length := GetU32(kind.rest).value;
    U32Canonical(buf);
    U16Canonical(magic.rest);
    U16Canonical(version.rest);
    U32Canonical(kind.rest);
    U32Canonical(length.rest);
  }

  /** Decoding an encoded frame gives back its type and payload. */
  lemma DecodeEncoded(kind: u16, payload: seq<byte>)
    requires |payload| <= MAX_PAYLOAD
    ensures DecodeBytes(FrameBytes(kind, payload)) == Ok(Frame(kind, payload, Crc32.Checksum(payload)))
  {
    hide Crc32.Checksum, HeaderBytes, GetHeader;
    HeaderRead(kind, |payload|, Crc32.Checksum(payload), PutRaw(payload, []));
  }

  /** Whatever decodes is, byte for byte, the encoding of what it decodes to. */
  lemma EncodeDecoded(buf: seq<byte>)
    requires DecodeBytes(buf).Ok?
    ensures var f := DecodeBytes(buf).value;
            |f.payload| <= MAX_PAYLOAD && buf == FrameBytes(f.kind, f.payload)
  {
    hide Crc32.Checksum, HeaderBytes, GetHeader;
    var header := GetHeader(buf).value;
    HeaderCanonical(buf);
    var payload := GetRaw(header.rest, header.value.length).value;
    assert header.rest == PutRaw(payload.value, []);
  }

  /** Which error a buffer that is no frame is refused with. */
  lemma Refuses(buf: seq<byte>)
    ensures |buf| < 16 ==> DecodeBytes(buf) == Err(PROTOCOL_ERROR)
    ensures |buf| > 16 + 0x40_0000 ==> DecodeBytes(buf) == Err(FRAME_TOO_LARGE)
    ensures DecodeBytes(buf).Err? ==> DecodeBytes(buf).error in {PROTOCOL_ERROR, FRAME_TOO_LARGE, CHECKSUM_FAILURE}
  {
    hide Crc32.Checksum;
  }

  /** A frame of another protocol, or of another version, is refused whatever else it holds. */
  lemma RefusesForeign(buf: seq<byte>)
    requires 16 <= |buf| <= 16 + 0x40_0000
    ensures buf[..4] != [0x57, 0x46, 0x50, 0x44] ==> DecodeBytes(buf) == Err(PROTOCOL_ERROR)
    ensures buf[4..6] != [1, 0] ==> DecodeBytes(buf) == Err(PROTOCOL_ERROR)
  {
    hide Crc32.Checksum, PutU32, GetU32, PutU16, GetU16;
    var magic := GetU32(buf).value;
    if magic.value == MAGIC {
      U32Canonical(buf);
      MagicBytes(magic.rest);
      FourTaken(buf);
      if GetU16(magic.rest).value.value == VERSION {
        U16Canonical(magic.rest);
        VersionBytes(GetU16(magic.rest).value.rest);
        assert buf[4..6] == magic.rest[..2];
      }
    }
  }

  lemma FourTaken(buf: seq<byte>)
    requires GetU32(buf).Ok?
    ensures |buf| >= 4 && GetU32(buf).value.rest == buf[4..]
  {
  }

  lemma VersionBytes(t: seq<byte>)
    ensures PutU16(VERSION, t)[..2] == [1, 0]
  {
  }

  lemma MagicBytes(t: seq<byte>)
    ensures PutU32(MAGIC, t)[..4] == [0x57, 0x46, 0x50, 0x44]
  {
  }

  /** In a buffer that passed the size checks the unsigned subtraction never wraps,
      so an accepted header is always followed by the whole payload. */
  lemma SubtractionExact(buf: seq<byte>)
    requires HEADER_SIZE <= |buf| <= MAX_FRAME_SIZE && GetHeader(buf).Ok?
    ensures GetHeader(buf).value.value.length <= |GetHeader(buf).value.rest| == |buf| - HEADER_SIZE
  {
    hide GetU16, GetU32;
  }

  /** A frame whose payload was damaged inside four consecutive bytes is rejected by its checksum. */
  lemma DamagedPayloadRejected(kind: u16, payload: seq<byte>, damaged: seq<byte>, i: nat, n: nat)
    requires i + n <= |payload| == |damaged| <= MAX_PAYLOAD && n <= 4
    requires payload[..i] == damaged[..i] && payload[i + n..] == damaged[i + n..]
    requires payload != damaged
    ensures DecodeBytes(FrameBytes(kind, payload)[..HEADER_SIZE] + damaged) == Err(CHECKSUM_FAILURE)
  {
    hide Crc32.Checksum, HeaderBytes, GetHeader;
    var crc := Crc32.Checksum(payload);
    Crc32.BurstDetected(payload, damaged, i, n);
    HeaderFirst(kind, |payload|, crc, PutRaw(payload, []));
    HeaderFirst(kind, |payload|, crc, PutRaw(damaged, []));
    HeaderRead(kind, |payload|, crc, PutRaw(damaged, []));
    assert PutRaw(damaged, []) == damaged;
    assert FrameBytes(kind, payload)[..HEADER_SIZE] == HeaderBytes(kind, |payload|, crc, []);
  }
}
