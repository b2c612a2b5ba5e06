/**
  What the checksum of the write-ahead log (src/storage/wal.cpp) is for: one changed byte in the payload or the
  checksum of a record ends the replay right before that record.
*/
module WalIntegrity {
  import opened RaftTypes
  import opened Codec
  import opened Wire
  import opened Wal

  // ---------------------------------------------------------------- the checksum loses no difference

  /** The polynomial has its top bit set, so the top bit tells whether it was mixed in. */
  function Unshift(crc: bv32): bv32 {
    if crc & 0x8000_0000 == 0 then crc << 1 else ((crc ^ 0x82F6_3B78) << 1) | 1
  }

  lemma ShiftBack(a: bv32)
    ensures Unshift(CrcShift(a)) == a
  {
  }

  lemma ShiftKeepsApart(a: bv32, b: bv32)
    requires a != b
    ensures CrcShift(a) != CrcShift(b)
  {
    hide CrcShift, Unshift;
    ShiftBack(a);
    ShiftBack(b);
  }

  lemma {:induction false} BitsKeepApart(a: bv32, b: bv32, n: nat)
    requires a != b
    ensures CrcBits(a, n) != CrcBits(b, n)
    decreases n
  {
    hide CrcShift;
    if n > 0 {
      ShiftKeepsApart(a, b);
      BitsKeepApart(CrcShift(a), CrcShift(b), n - 1);
    }
  }

  function Xor(a: bv32, b: bv32): bv32 { a ^ b }

  lemma XorBack(a: bv32, x: bv32)
    ensures Xor(Xor(a, x), x) == a && Xor(x, Xor(x, a)) == a
  {
  }

  lemma XorApart(a: bv32, b: bv32, x: bv32)
    requires a != b
    ensures Xor(a, x) != Xor(b, x) && Xor(x, a) != Xor(x, b)
  {
    hide Xor;
    XorBack(a, x);
    XorBack(b, x);
  }

  lemma MixIs(crc: bv32, b: byte)
    ensures CrcMix(crc, b) == Xor(crc, Widened(b as bv8))
  {
  }

  lemma MixKeepsApart(a: bv32, b: bv32, x: byte)
    requires a != b
    ensures CrcMix(a, x) != CrcMix(b, x)
  {
    hide CrcMix, Xor, Widened;
    MixIs(a, x);
    MixIs(b, x);
    XorApart(a, b, Widened(x as bv8));
  }

  function Widened(x: bv8): bv32 { x as bv32 }

  lemma NarrowBack(x: bv8)
    ensures (Widened(x) & 0xFF) as bv8 == x
  {
  }

  lemma Doubled(v: bv8)
    requires v as int < 128
    ensures (v << 1) as int == 2 * (v as int) && ((v << 1) | 1) as int == 2 * (v as int) + 1
  {
    assert v < 0x80;
  }

  /** Every number below 256 is that of some eight bits. */
  lemma {:induction false} BitsOf(x: int) returns (v: bv8)
    requires 0 <= x < 256
    ensures v as int == x
    decreases x
  {
    if x == 0 {
      v := 0;
    } else {
      var half := BitsOf(x / 2);
      Doubled(half);
      v := if x % 2 == 0 then half << 1 else (half << 1) | 1;
    }
  }

  lemma EightBack(v: bv8)
    ensures (v as int) as bv8 == v
  {
  }

  lemma ByteIsBits(x: int)
    requires 0 <= x < 256
    ensures (x as bv8) as int == x
  {
    var v := BitsOf(x);
    EightBack(v);
  }

  lemma BytesKeepApart(crc: bv32, x: byte, y: byte)
    requires x != y
    ensures CrcMix(crc, x) != CrcMix(crc, y)
  {
    hide CrcMix, Xor, Widened;
    ByteIsBits(x as int);
    ByteIsBits(y as int);
    NarrowBack(x as bv8);
    NarrowBack(y as bv8);
    MixIs(crc, x);
    MixIs(crc, y);
    XorApart(Widened(x as bv8), Widened(y as bv8), crc);
  }

  /** Two registers that differ still differ after any bytes. */
  lemma {:induction false} FromKeepsApart(a: bv32, b: bv32, s: bytes)
    requires a != b
    ensures CrcFrom(a, s) != CrcFrom(b, s)
    decreases |s|
  {
    hide CrcMix, CrcBits;
    if s != [] {
      MixKeepsApart(a, b, s[0]);
      BitsKeepApart(CrcMix(a, s[0]), CrcMix(b, s[0]), 8);
      FromKeepsApart(CrcBits(CrcMix(a, s[0]), 8), CrcBits(CrcMix(b, s[0]), 8), s[1..]);
    }
  }

  /** One changed byte changes the register. */
  lemma {:induction false} ChangeShows(crc: bv32, s: bytes, i: nat, x: byte)
    requires i < |s| && s[i] != x
    ensures CrcFrom(crc, s) != CrcFrom(crc, s[i := x])
    decreases |s|
  {
    hide CrcMix, CrcBits;
    var t := s[i := x];
    if i == 0 {
      BytesKeepApart(crc, s[0], x);
      BitsKeepApart(CrcMix(crc, s[0]), CrcMix(crc, x), 8);
      assert t[1..] == s[1..];
      FromKeepsApart(CrcBits(CrcMix(crc, s[0]), 8), CrcBits(CrcMix(crc, x), 8), s[1..]);
    } else {
      assert t[1..] == s[1..][i - 1 := x];
      ChangeShows(CrcBits(CrcMix(crc, s[0]), 8), s[1..], i - 1, x);
    }
  }

  lemma BackAgain(a: bv32)
    ensures (a as nat) as bv32 == a
  {
  }

  lemma FlipBack(a: bv32)
    ensures Flipped(Flipped(a)) == a
  {
  }

  lemma ValuesApart(a: bv32, b: bv32)
    requires a != b
    ensures CrcValue(a) != CrcValue(b)
  {
    hide Flipped;
    FlipBack(a);
    FlipBack(b);
    BackAgain(Flipped(a));
    BackAgain(Flipped(b));
  }

  /** One changed byte changes the checksum. */
  lemma ChecksumShows(s: bytes, i: nat, x: byte)
    requires i < |s| && s[i] != x
    ensures Crc32c(s) != Crc32c(s[i := x])
  {
    hide CrcFrom, CrcValue;
    ChangeShows(0xFFFF_FFFF, s, i, x);
    ValuesApart(CrcFrom(0xFFFF_FFFF, s), CrcFrom(0xFFFF_FFFF, s[i := x]));
  }

  // ---------------------------------------------------------------- a changed record is not read

  lemma {:induction false} NatShows(s: bytes, i: nat, x: byte)
    requires i < |s| && s[i] != x
    ensures ToNat(s) != ToNat(s[i := x])
    decreases |s|
  {
    var t := s[i := x];
    if i == 0 {
      assert t[1..] == s[1..];
    } else {
      assert t[1..] == s[1..][i - 1 := x];
      NatShows(s[1..], i - 1, x);
    }
  }

  /** The record at `pos` with one byte of its payload or its checksum changed. */
  lemma ChangedRecord(s: bytes, pos: nat, cmd: Command, i: nat, x: byte)
    requires CommandFits(cmd) && HasAt(s, pos, Frame(cmd)) && pos + 4 <= i < pos + |Frame(cmd)| && s[i] != x
    ensures GetRecord(s[i := x], pos) == Malformed
  {
    hide LittleEndian, EncodeCommand, DecodeCommand, Crc32c, ToNat, CommandFits;
    var payload, t := EncodeCommand(cmd), s[i := x];
    PayloadFits(cmd);
    var n, crc := |payload|, Crc32c(payload);
    Parts(s, pos, payload, crc);
    assert t[pos..pos + 4] == s[pos..pos + 4];
    NumberAt(s, pos, n);
    NumberAt(s, pos + 4 + n, crc);
    assert GetBlob(t, pos) == Got(t[pos + 4..pos + 4 + n], pos + 4 + n);
    if i < pos + 4 + n {
      assert t[pos + 4..pos + 4 + n] == payload[i - pos - 4 := x];
      assert t[pos + 4 + n..pos + 8 + n] == s[pos + 4 + n..pos + 8 + n];
      ChecksumShows(payload, i - pos - 4, x);
    } else {
      assert t[pos + 4..pos + 4 + n] == payload;
      assert t[pos + 4 + n..pos + 8 + n] == s[pos + 4 + n..pos + 8 + n][i - pos - 4 - n := x];
      NatShows(s[pos + 4 + n..pos + 8 + n], i - pos - 4 - n, x);
    }
  }

  lemma Parts(s: bytes, pos: nat, payload: bytes, crc: nat)
    requires HasAt(s, pos, Blob(payload) + U32(crc))
    ensures pos + 8 + |payload| <= |s| && s[pos..pos + 4] == U32(|payload|)
    ensures s[pos + 4..pos + 4 + |payload|] == payload && s[pos + 4 + |payload|..pos + 8 + |payload|] == U32(crc)
  {
    hide LittleEndian;
    HasParts(s, pos, Blob(payload), U32(crc));
    HasParts(s, pos, U32(|payload|), payload);
  }

  lemma NumberAt(s: bytes, pos: nat, v: nat)
    requires v < TWO32 && pos + 4 <= |s| && s[pos..pos + 4] == U32(v)
    ensures ToNat(s[pos..pos + 4]) == v
  {
    hide LittleEndian, ToNat;
    assert HasAt(s, pos, U32(v) + []) by { assert U32(v) + [] == U32(v); }
    ReadU32(s, pos, v, []);
  }

  /** One changed byte in a record's payload or checksum: the replay yields exactly the commands before it. */
  lemma {:induction false} ReplayStopsAtChange(s: bytes, pos: nat, before: seq<Command>, cmd: Command, i: nat, x: byte)
    requires CommandsFit(before) && CommandFits(cmd)
    requires HasAt(s, pos, Frames(before)) && HasAt(s, pos + |Frames(before)|, Frame(cmd))
    requires var start := pos + |Frames(before)|; start + 4 <= i < start + |Frame(cmd)| && s[i] != x
    ensures ReplayFrom(s[i := x], pos) == before
    decreases |before|
  {
    hide Frame, GetRecord, HasAt, CommandFits, ReplayFrom;
    Within(s, pos + |Frames(before)|, Frame(cmd));
    if before == [] {
      ChangedRecord(s, pos, cmd, i, x);
      StopsHere(s[i := x], pos);
    } else {
      var f, more := Frame(before[0]), Frames(before[1..]);
      HasParts(s, pos, f, more);
      Untouched(s, pos, f, i, x);
      GoesOn(s[i := x], pos, before[0]);
      ReplayStopsAtChange(s, pos + |f|, before[1..], cmd, i, x);
      assert before == [before[0]] + before[1..];
    }
  }

  lemma Within(s: bytes, pos: nat, b: bytes)
    requires HasAt(s, pos, b)
    ensures pos + |b| <= |s|
  {
  }

  lemma StopsHere(s: bytes, pos: nat)
    requires GetRecord(s, pos) == Malformed
    ensures ReplayFrom(s, pos) == []
  {
    hide GetRecord;
  }

  lemma GoesOn(s: bytes, pos: nat, cmd: Command)
    requires CommandFits(cmd) && HasAt(s, pos, Frame(cmd))
    ensures ReplayFrom(s, pos) == [cmd] + ReplayFrom(s, pos + |Frame(cmd)|)
  {
    hide Frame, GetRecord, HasAt, CommandFits;
    Within(s, pos, Frame(cmd));
    FrameNotEmpty(cmd);
    var f := Frame(cmd);
    assert f + [] == f;
    ReadRecord(s, pos, cmd, []);
  }

  lemma Untouched(s: bytes, pos: nat, f: bytes, i: nat, x: byte)
    requires HasAt(s, pos, f) && pos + |f| <= i < |s|
    ensures HasAt(s[i := x], pos, f) && pos + |f| <= |s|
  {
    assert s[i := x][pos..pos + |f|] == s[pos..pos + |f|];
  }

  // ---------------------------------------------------------------- the checksum is CRC-32c

  /** The register after one more byte. */
  function Next(crc: bv32, b: byte): bv32 { CrcBits(CrcMix(crc, b), 8) }

  lemma OneByte(crc: bv32, mixed: bv32, b: byte, next: bv32)
    requires mixed == CrcMix(crc, b)
    requires next == CrcShift(CrcShift(CrcShift(CrcShift(CrcShift(CrcShift(CrcShift(CrcShift(mixed))))))))
    ensures Next(crc, b) == next
  {
    hide CrcShift, CrcMix;
    var four := CrcShift(CrcShift(CrcShift(CrcShift(mixed))));
    assert CrcBits(mixed, 8) == CrcBits(CrcShift(CrcShift(mixed)), 6) == CrcBits(four, 4);
    assert CrcBits(four, 4) == CrcBits(CrcShift(CrcShift(four)), 2);
  }

  function Three(crc: bv32, s: bytes): bv32
    requires |s| >= 3
  {
    Next(Next(Next(crc, s[0]), s[1]), s[2])
  }

  lemma FromThree(s: bytes, crc: bv32)
    requires |s| >= 3
    ensures CrcFrom(crc, s) == CrcFrom(Three(crc, s), s[3..])
  {
    hide CrcBits, CrcMix;
    assert s[1..][1..] == s[2..] && s[2..][1..] == s[3..];
    assert CrcFrom(crc, s) == CrcFrom(Next(crc, s[0]), s[1..]);
    assert CrcFrom(Next(crc, s[0]), s[1..]) == CrcFrom(Next(Next(crc, s[0]), s[1]), s[2..]);
  }

  lemma FromDigits(s: bytes, crc: bv32)
    requires |s| == 9
    ensures CrcFrom(crc, s) == Three(Three(Three(crc, s), s[3..]), s[6..])
  {
    hide Next;
    FromThree(s, crc);
    FromThree(s[3..], Three(crc, s));
    assert s[3..][3..] == s[6..];
    FromThree(s[6..], Three(Three(crc, s), s[3..]));
    assert s[6..][3..] == [];
  }

  /** The check value of the Castagnoli polynomial, of the nine digits "123456789". */
  lemma CheckValue()
    ensures Crc32c([0x31, 0x32, 0x33, 0x34, 0x35, 0x36, 0x37, 0x38, 0x39]) == 0xE306_9283
  {
    hide CrcFrom, Next;
    var s: bytes := [0x31, 0x32, 0x33, 0x34, 0x35, 0x36, 0x37, 0x38, 0x39];
    OneByte(0xFFFF_FFFF, 0xFFFF_FFCE, 0x31, 0x6F0A_661C);
    OneByte(0x6F0A_661C, 0x6F0A_662E, 0x32, 0x8CAA_3B9F);
    OneByte(0x8CAA_3B9F, 0x8CAA_3BAC, 0x33, 0xEF84_D04D);
    OneByte(0xEF84_D04D, 0xEF84_D079, 0x34, 0x09C5_0B11);
    OneByte(0x09C5_0B11, 0x09C5_0B24, 0x35, 0xE72E_DCCA);
    OneByte(0xE72E_DCCA, 0xE72E_DCFC, 0x36, 0xBECA_8E79);
    OneByte(0xBECA_8E79, 0xBECA_8E4E, 0x37, 0xEDBD_6815);
    OneByte(0xEDBD_6815, 0xEDBD_682D, 0x38, 0x9F78_7F65);
    OneByte(0x9F78_7F65, 0x9F78_7F5C, 0x39, 0x1CF9_6D7C);
    FromDigits(s, 0xFFFF_FFFF);
  }

}
