/** The bytes themselves: numbers, frames, state files and digits, position by position. */
module Formats {
  import opened Base
  import opened Wire
  import Crc32
  import Frame
  import Ids
  import Store

  // ---- little-endian numbers ----

  function Two(v: u16): seq<byte> {
    [v % 0x100, v / 0x100]
  }

  function Four(v: u32): seq<byte> {
    [v % 0x100, v / 0x100 % 0x100, v / 0x1_0000 % 0x100, v / 0x100_0000]
  }

  function Eight(v: u64): seq<byte> {
    Four(v % 0x1_0000_0000) + Four(v / 0x1_0000_0000)
  }

  lemma TwoBytes(v: u16, t: seq<byte>)
    ensures PutU16(v, t) == Two(v) + t
  {
  }

  lemma FourBytes(v: u32, t: seq<byte>)
    ensures PutU32(v, t) == Four(v) + t
  {
    hide PutU16;
    var lo: int, hi: int := v % 0x1_0000, v / 0x1_0000;
    TwoBytes(hi, t);
    TwoBytes(lo, PutU16(hi, t));
    assert lo % 0x100 == v % 0x100 && lo / 0x100 == v / 0x100 % 0x100;
    assert hi % 0x100 == v / 0x1_0000 % 0x100 && hi / 0x100 == v / 0x100_0000;
    assert Four(v) == Two(lo) + Two(hi);
  }

  lemma EightBytes(v: u64, t: seq<byte>)
    ensures PutU64(v, t) == Eight(v) + t
  {
    hide PutU32, Four;
    FourBytes(v / 0x1_0000_0000, t);
    FourBytes(v % 0x1_0000_0000, PutU32(v / 0x1_0000_0000, t));
  }

  // ---- frames ----

  /** A frame: magic, version 1, type, length, checksum, payload. */
  lemma FrameLayout(kind: u16, payload: seq<byte>)
    requires |payload| <= 0x40_0000
    ensures Frame.FrameBytes(kind, payload) ==
            [0x57, 0x46, 0x50, 0x44] + ([1, 0] + (Two(kind) + (Four(|payload|) + (Four(Crc32.Checksum(payload)) + payload))))
  {
    hide PutU16, PutU32, Crc32.Checksum, Two, Four;
    var crc := Crc32.Checksum(payload);
    var t4 := PutRaw(payload, []);
    var t3 := PutU32(crc, t4);
    var t2 := PutU32(|payload|, t3);
    var t1 := PutU16(kind, t2);
    var t0 := PutU16(1, t1);
    FourBytes(crc, t4);
    FourBytes(|payload|, t3);
    TwoBytes(kind, t2);
    TwoBytes(1, t1);
    FourBytes(0x44504657, t0);
    Constants();
    assert payload + [] == payload;
  }

  lemma Constants()
    ensures Two(1) == [1, 0] && Two(0) == [0, 0]
    ensures Four(0x44504657) == [0x57, 0x46, 0x50, 0x44] && Four(0x44504652) == [0x52, 0x46, 0x50, 0x44]
  {
  }

  // ---- state files ----

  /** The first sixteen bytes of a state file: magic, version 1, a reserved field, the payload's length. */
  function FileHead(length: u64): seq<byte> {
    [0x52, 0x46, 0x50, 0x44] + ([1, 0] + ([0, 0] + Eight(length)))
  }

  lemma HeadLayout(length: u64, t: seq<byte>)
    ensures Store.Head(length, t) == FileHead(length) + t
  {
    hide PutU16, PutU32, PutU64, Two, Four, Eight;
    var t2 := PutU64(length, t);
    var t1 := PutU16(0, t2);
    var t0 := PutU16(1, t1);
    EightBytes(length, t);
    TwoBytes(0, t2);
    TwoBytes(1, t1);
    FourBytes(0x44504652, t0);
    Constants();
  }

  /** A state file: its head, the head's checksum, the payload, and the payload's. */
  lemma FileLayout(payload: seq<byte>)
    requires |payload| < TWO_64
    ensures Store.Container(payload) ==
            FileHead(|payload|) + (Four(Crc32.Checksum(FileHead(|payload|))) + (payload + Four(Crc32.Checksum(payload))))
  {
    hide PutU32, Crc32.Checksum, Four, FileHead, Store.Head;
    var head := FileHead(|payload|);
    HeadLayout(|payload|, []);
    assert head + [] == head;
    var tail := PutU32(Crc32.Checksum(payload), []);
    FourBytes(Crc32.Checksum(payload), []);
    FourBytes(Crc32.Checksum(head), PutRaw(payload, tail));
    HeadLayout(|payload|, PutU32(Crc32.Checksum(head), PutRaw(payload, tail)));
    assert Four(Crc32.Checksum(payload)) + [] == Four(Crc32.Checksum(payload));
  }

  // ---- digits ----

  /** "0123456789abcdef" */
  const HEX: Str := [48, 49, 50, 51, 52, 53, 54, 55, 56, 57, 97, 98, 99, 100, 101, 102]

  /** A digit is what one of the sixteen stands for, in either case. */
  lemma DigitsAre(c: byte, d: int)
    requires 0 <= d < 16
    ensures Ids.IsDigit(c) && Ids.DigitValue(c) == d <==> c == HEX[d] || (d >= 10 && c == HEX[d] - 32)
    ensures Ids.Digit(d) == HEX[d]
  {
  }
}
