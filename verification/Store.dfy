/** The state file: PersistenceStore::save and load of src/persistence.cpp, on the file's bytes. */
module Store {
  import opened Base
  import opened Wire
  import Crc32

  // ---- the container ----

  const MAGIC: u32 := 0x44504652
  const FORMAT_VERSION: u16 := 1
  const RESERVED: u16 := 0
  const HEADER_CRC_LEN := 16
  const FIXED_HEAD := 20
  const TRAILER := 4
  const MAX_FILE_BYTES := 0x4000_0000

  function Head(length: u64, t: seq<byte>): seq<byte> {
    PutU32(MAGIC, PutU16(FORMAT_VERSION, PutU16(RESERVED, PutU64(length, t))))
  }

  /** The bytes of a state file around a payload. */
  function Container(payload: seq<byte>): seq<byte> {
    var length := |payload| % TWO_64;
    Head(length, PutU32(Crc32.Checksum(Head(length, [])), PutRaw(payload, PutU32(Crc32.Checksum(payload), []))))
  }

  datatype FileHead = FileHead(length: u64, crc: u32)

  function GetHead(file: seq<byte>): Result<Taken<FileHead>> {
    var magic :- GetU32(file);
    if magic.value != MAGIC then Err(CORRUPT_STATE) else
    var version :- GetU16(magic.rest);
    if version.value != FORMAT_VERSION then Err(CORRUPT_STATE) else
    var reserved :- GetU16(version.rest);
    if reserved.value != RESERVED then Err(CORRUPT_STATE) else
    var length :- GetU64(reserved.rest);
    if length.value > MAX_FILE_BYTES then Err(CORRUPT_STATE) else
    var crc :- GetU32(length.rest);
    Ok(Taken(FileHead(length.value, crc.value), crc.rest))
  }

  /** The payload and the checksum behind it. */
  function GetBody(length: nat, bs: seq<byte>): Result<Taken<seq<byte>>> {
    var payload :- GetRaw(bs, length);
    var crc :- GetU32(payload.rest);
    if Crc32.Checksum(payload.value) != crc.value then Err(CHECKSUM_FAILURE) else Ok(Taken(payload.value, crc.rest))
  }

  /** The head is undamaged and announces a payload that fills the file exactly. */
  function Intact(file: seq<byte>, head: FileHead): Result<()>
    requires |file| >= FIXED_HEAD
  {
    if Crc32.Checksum(file[..HEADER_CRC_LEN]) != head.crc then Err(CHECKSUM_FAILURE)
    else if |file| != FIXED_HEAD + head.length + TRAILER then Err(CORRUPT_STATE)
    else Ok(())
  }

  /** The payload of a state file, or the error that load throws. */
  function Opened(file: seq<byte>): Result<seq<byte>> {
    if |file| > MAX_FILE_BYTES || |file| < FIXED_HEAD + TRAILER then Err(CORRUPT_STATE)
    else
      var head :- GetHead(file);
      var _ :- Intact(file, head.value);
      var body :- GetBody(head.value.length, head.rest);
      Ok(body.value)
  }

  lemma HeadFirst(length: u64, t: seq<byte>)
    ensures |Head(length, [])| == HEADER_CRC_LEN
    ensures Head(length, t) == Head(length, []) + t
  {
    hide PutU16, PutU32;
    var lo, hi := length % 0x1_0000_0000, length / 0x1_0000_0000;
    var s5 := PutU32(hi, []);
    var s4 := PutU32(lo, s5);
    var s3 := PutU16(RESERVED, s4);
    var s2 := PutU16(FORMAT_VERSION, s3);
    assert [] + t == t;
    PutAppend(hi, [], t);
    PutAppend(lo, s5, t);
    PutAppend(RESERVED, s4, t);
    PutAppend(FORMAT_VERSION, s3, t);
    PutAppend(MAGIC, s2, t);
  }

  lemma HeadRead(length: u64, crc: u32, t: seq<byte>)
    requires length <= MAX_FILE_BYTES
    ensures var file := Head(length, PutU32(crc, t));
            && |file| == FIXED_HEAD + |t|
            && file[..HEADER_CRC_LEN] == Head(length, [])
            && GetHead(file) == Ok(Taken(FileHead(length, crc), t))
  {
    HeadFirst(length, PutU32(crc, t));
    hide PutU16, GetU16, PutU64, GetU64;
    assert |PutU32(crc, t)| == 4 + |t|;
    hide PutU32, GetU32;
  }

  predicate FitsFile(payload: seq<byte>) {
    FIXED_HEAD + |payload| + TRAILER <= MAX_FILE_BYTES
  }

  /** A file with an intact head around any body of the announced length. */
  function FileWith(body: seq<byte>, crc: u32): seq<byte>
    requires FitsFile(body)
  {
    Head(|body|, PutU32(Crc32.Checksum(Head(|body|, [])), body + PutU32(crc, [])))
  }

  lemma OpenFile(body: seq<byte>, crc: u32)
    requires FitsFile(body)
    ensures |FileWith(body, crc)| == FIXED_HEAD + |body| + TRAILER
    ensures Opened(FileWith(body, crc)) == if Crc32.Checksum(body) == crc then Ok(body) else Err(CHECKSUM_FAILURE)
  {
    hide Crc32.Checksum, Head, GetHead, PutU32, GetU32;
    var tail := PutU32(crc, []);
    TailLength(crc);
    HeadRead(|body|, Crc32.Checksum(Head(|body|, [])), body + tail);
    assert (body + tail)[..|body|] == body && (body + tail)[|body|..] == tail;
  }

  lemma ContainerIsFile(payload: seq<byte>)
    requires FitsFile(payload)
    ensures Container(payload) == FileWith(payload, Crc32.Checksum(payload))
  {
    hide Crc32.Checksum, Head, PutU32;
  }

  /** Opening what was written gives the payload back. */
  lemma OpenWritten(payload: seq<byte>)
    requires FitsFile(payload)
    ensures Opened(Container(payload)) == Ok(payload)
  {
    hide Crc32.Checksum, FileWith, Container, Opened;
    ContainerIsFile(payload);
    OpenFile(payload, Crc32.Checksum(payload));
  }

  lemma TailLength(v: u32)
    ensures |PutU32(v, [])| == TRAILER
  {
  }

  /** The fixed head of a file does not depend on the body, only on its length. */
  lemma FileHeadOnly(a: seq<byte>, b: seq<byte>, crc: u32)
    requires FitsFile(a) && |a| == |b|
    ensures |FileWith(a, crc)| == FIXED_HEAD + |a| + TRAILER
    ensures FileWith(b, crc) == FileWith(a, crc)[..FIXED_HEAD] + b + FileWith(a, crc)[FIXED_HEAD + |a|..]
  {
    hide Crc32.Checksum, Head, PutU32;
    var tail, head := PutU32(crc, []), Crc32.Checksum(Head(|a|, []));
    TailLength(crc);
    HeadWithCrc(|a|, head, a + tail);
    HeadWithCrc(|a|, head, b + tail);
    assert FileWith(a, crc)[..FIXED_HEAD] == Head(|a|, PutU32(head, []));
    assert FileWith(a, crc)[FIXED_HEAD + |a|..] == tail;
  }

  lemma HeadWithCrc(length: u64, crc: u32, t: seq<byte>)
    ensures |Head(length, PutU32(crc, []))| == FIXED_HEAD
    ensures Head(length, PutU32(crc, t)) == Head(length, PutU32(crc, [])) + t
  {
    hide Head, PutU32;
    HeadFirst(length, PutU32(crc, t));
    HeadFirst(length, PutU32(crc, []));
    TailLength(crc);
    PutAppend(crc, [], t);
    assert [] + t == t;
    Associate(Head(length, []), PutU32(crc, []), t);
  }

  lemma Associate(a: seq<byte>, b: seq<byte>, c: seq<byte>)
    ensures a + (b + c) == (a + b) + c
  {
  }

  lemma U64Canonical(bs: seq<byte>)
    requires GetU64(bs).Ok?
    ensures bs == PutU64(GetU64(bs).value.value, GetU64(bs).value.rest)
  {
    hide PutU32, GetU32;
    U32Canonical(bs);
    U32Canonical(GetU32(bs).value.rest);
  }

  lemma HeadCanonical(file: seq<byte>)
    requires GetHead(file).Ok?
    ensures var h := GetHead(file).value;
            file == Head(h.value.length, PutU32(h.value.crc, h.rest)) && h.value.length <= MAX_FILE_BYTES
  {
    hide PutU16, PutU32, PutU64, GetU16, GetU32, GetU64;
    var magic := GetU32(file).value;
    var version := GetU16(magic.rest).value;
    var reserved := GetU16(version.rest).value;
    var length := GetU64(reserved.rest).value;
    U32Canonical(file);
    U16Canonical(magic.rest);
    U16Canonical(version.rest);
    U64Canonical(reserved.rest);
    U32Canonical(length.rest);
  }

  lemma BodyCanonical(length: nat, bs: seq<byte>)
    requires GetBody(length, bs).Ok? && |bs| == length + TRAILER
    ensures bs == PutRaw(GetBody(length, bs).value.value, PutU32(Crc32.Checksum(GetBody(length, bs).value.value), []))
    ensures |GetBody(length, bs).value.value| == length
  {
    hide Crc32.Checksum, PutU32, GetU32;
    var payload := GetRaw(bs, length).value;
    U32Canonical(payload.rest);
    assert GetU32(payload.rest).value.rest == [];
  }

  lemma IntactMeans(file: seq<byte>, head: FileHead)
    requires |file| >= FIXED_HEAD && Intact(file, head).Ok?
    ensures Crc32.Checksum(file[..HEADER_CRC_LEN]) == head.crc && |file| == FIXED_HEAD + head.length + TRAILER
  {
    hide Crc32.Checksum;
  }

  lemma ContainerIs(payload: seq<byte>)
    requires |payload| < TWO_64
    ensures Container(payload) ==
            Head(|payload|, PutU32(Crc32.Checksum(Head(|payload|, [])), PutRaw(payload, PutU32(Crc32.Checksum(payload), []))))
  {
    hide Crc32.Checksum, Head, PutU32, PutRaw;
  }

  /** Whatever opens is, byte for byte, the container of what it holds: nothing is missing, damaged or left over. */
  lemma OpenedIsContainer(file: seq<byte>)
    requires Opened(file).Ok?
    ensures FitsFile(Opened(file).value) && file == Container(Opened(file).value)
  {
    hide Crc32.Checksum, Head, GetHead, PutU32, PutRaw, GetBody, Intact, Container;
    var head := GetHead(file).value;
    HeadCanonical(file);
    HeadRead(head.value.length, head.value.crc, head.rest);
    IntactMeans(file, head.value);
    BodyCanonical(head.value.length, head.rest);
    ContainerIs(GetBody(head.value.length, head.rest).value.value);
  }

  /** What is too long, too short, or begins with other bytes is refused as corrupt. */
  lemma OpenRefuses(file: seq<byte>)
    ensures |file| > 0x4000_0000 || |file| < 24 ==> Opened(file) == Err(CORRUPT_STATE)
    ensures |file| >= 4 && file[..4] != [0x52, 0x46, 0x50, 0x44] ==> Opened(file) == Err(CORRUPT_STATE)
  {
    hide Intact, GetBody;
    if 24 <= |file| && GetU32(file).value.value == MAGIC {
      U32Canonical(file);
      MagicBytes(GetU32(file).value.rest);
    }
    hide GetU32, GetU16, GetU64, PutU32;
  }

  lemma MagicBytes(t: seq<byte>)
    ensures PutU32(MAGIC, t)[..4] == [0x52, 0x46, 0x50, 0x44]
  {
  }

  /** A state file whose payload was damaged inside four consecutive bytes is rejected by its checksum. */
  lemma DamageDetected(payload: seq<byte>, damaged: seq<byte>, i: nat, n: nat)
    requires FitsFile(payload) && i + n <= |payload| == |damaged| && n <= 4
    requires payload[..i] == damaged[..i] && payload[i + n..] == damaged[i + n..] && payload != damaged
    ensures var file := Container(payload);
            && |file| == FIXED_HEAD + |payload| + TRAILER
            && Opened(file[..FIXED_HEAD] + damaged + file[FIXED_HEAD + |payload|..]) == Err(CHECKSUM_FAILURE)
  {
    hide Crc32.Checksum, FileWith, Container, Opened;
    var crc := Crc32.Checksum(payload);
    Crc32.BurstDetected(payload, damaged, i, n);
    ContainerIsFile(payload);
    FileHeadOnly(payload, damaged, crc);
    OpenFile(damaged, crc);
  }

  // ---- writing and opening the container ----

  method Enclose(payload: seq<byte>) returns (file: seq<byte>)
    ensures file == Container(payload)
  {
    hide PutU64, PutU32, PutU16, PutRaw, Crc32.Checksum;
    var w := new Writer();
    w.U32(MAGIC);
    w.U16(FORMAT_VERSION);
    w.U16(RESERVED);
    var length := |payload| % TWO_64;
    w.U64(length);
    assert w.buf + [] == w.buf == Head(length, []);
    var headerCrc := Crc32.Compute(w.buf);
    w.U32(headerCrc);
    w.Raw(payload);
    var payloadCrc := Crc32.Compute(payload);
    w.U32(payloadCrc);
    assert w.buf + [] == w.buf;
    return w.buf;
  }

  method ReadHead(r: Reader) returns (res: Result<FileHead>)
    requires r.Valid()
    modifies r
    ensures r.Follows(res, GetHead(old(r.Rest())))
  {
    hide GetU64, GetU32, GetU16;
    var magic :- r.U32();
    if magic != MAGIC {
      return Err(CORRUPT_STATE);
    }
    var version :- r.U16();
    if version != FORMAT_VERSION {
      return Err(CORRUPT_STATE);
    }
    var reserved :- r.U16();
    if reserved != RESERVED {
      return Err(CORRUPT_STATE);
    }
    var length :- r.U64();
    if length > MAX_FILE_BYTES {
      return Err(CORRUPT_STATE);
    }
    var crc :- r.U32();
    return Ok(FileHead(length, crc));
  }

  method ReadBody(r: Reader, length: nat) returns (res: Result<seq<byte>>)
    requires r.Valid()
    modifies r
    ensures r.Follows(res, GetBody(length, old(r.Rest())))
  {
    hide GetRaw, GetU32, Crc32.Checksum;
    var payload :- r.Raw(length);
    var crc :- r.U32();
    var payloadCrc := Crc32.Compute(payload);
    if payloadCrc != crc {
      return Err(CHECKSUM_FAILURE);
    }
    return Ok(payload);
  }

  method CheckIntact(file: seq<byte>, head: FileHead) returns (res: Result<()>)
    requires |file| >= FIXED_HEAD
    ensures res == Intact(file, head)
  {
    hide Crc32.Checksum;
    var headerCrc := Crc32.Compute(file[..HEADER_CRC_LEN]);
    if headerCrc != head.crc {
      return Err(CHECKSUM_FAILURE);
    }
    if |file| != FIXED_HEAD + head.length + TRAILER {
      return Err(CORRUPT_STATE);
    }
    return Ok(());
  }

  method Open(file: seq<byte>) returns (res: Result<seq<byte>>)
    ensures res == Opened(file)
  {
    hide GetHead, GetBody, Intact, GetU32;
    if |file| == 0 {
      return Err(CORRUPT_STATE);
    }
    if |file| > MAX_FILE_BYTES {
      return Err(CORRUPT_STATE);
    }
    if |file| < FIXED_HEAD + TRAILER {
      return Err(CORRUPT_STATE);
    }
    res := OpenIntact(file);
  }

  method OpenIntact(file: seq<byte>) returns (res: Result<seq<byte>>)
    requires FIXED_HEAD + TRAILER <= |file| <= MAX_FILE_BYTES
    ensures res == Opened(file)
  {
    hide GetHead, GetBody, Intact;
    var r := new Reader(file);
    assert r.Rest() == file;
    var head :- ReadHead(r);
    var _ :- CheckIntact(file, head);
    res := ReadBody(r, head.length);
  }
}
