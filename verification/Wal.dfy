/**
  The simulated disk (src/storage/durable_store.cpp) and the write-ahead log on top of it
  (src/storage/wal.cpp): framed records, lost tails and recovery.
*/
module Wal {
  import opened RaftTypes
  import opened Codec
  import opened Wire

  // ---------------------------------------------------------------- the disk

  /** Bytes written so far, of which the first `flushed` survive a crash. */
  datatype Disk = Disk(data: bytes, flushed: nat) {
    ghost predicate Valid() { flushed <= |data| }
    function Append(b: bytes): Disk { this.(data := data + b) }
    function Flush(): Disk { this.(flushed := |data|) }
    function Crash(): Disk requires flushed <= |data| { this.(data := data[..flushed]) }
    function Durable(): bytes requires flushed <= |data| { data[..flushed] }

    function TruncateTo(offset: nat): Disk {
      Disk(if offset <= |data| then data[..offset] else data, if offset <= flushed then offset else flushed)
    }
  }

  class DurableStore {
    var data: bytes
    var flushedEnd: nat

    ghost predicate Valid()
      reads this
    {
      flushedEnd <= |data|
    }

    ghost function Value(): Disk
      reads this
    {
      Disk(data, flushedEnd)
    }

    constructor ()
      ensures Valid() && Value() == Disk([], 0)
    {
      data, flushedEnd := [], 0;
    }

    method Append(b: bytes)
      requires Valid()
      modifies this
      ensures Valid() && Value() == old(Value()).Append(b)
    {
      data := data + b;
    }

    method Flush()
      requires Valid()
      modifies this
      ensures Valid() && Value() == old(Value()).Flush()
    {
      flushedEnd := |data|;
    }

    method Crash()
      requires Valid()
      modifies this
      ensures Valid() && Value() == old(Value()).Crash()
    {
      data := data[..flushedEnd];
    }

    method TruncateTo(offset: nat)
      requires Valid()
      modifies this
      ensures Valid() && Value() == old(Value()).TruncateTo(offset)
    {
      if offset <= flushedEnd { flushedEnd := offset; }
      if offset <= |data| { data := data[..offset]; }
    }
  }

  /** A truncation keeps every byte before the offset, flushed or not, drops the rest, and may as well come after a
      crash as before it. */
  lemma TruncationKeeps(d: Disk, offset: nat)
    requires d.Valid()
    ensures var t := d.TruncateTo(offset);
            && t.Valid() && t.Crash() == d.Crash().TruncateTo(offset)
            && IsStart(t.data, d.data) && IsStart(t.Durable(), d.Durable())
            && (if offset < |d.data| then |t.data| == offset else t.data == d.data)
            && (if offset < d.flushed then t.flushed == offset else t.Durable() == d.Durable())
  {
  }

  predicate IsStart(a: bytes, b: bytes) { |a| <= |b| && a == b[..|a|] }

  // ---------------------------------------------------------------- checksums

  function CrcShift(crc: bv32): bv32 { (crc >> 1) ^ (0x82F6_3B78 & (0 - (crc & 1))) }

  function CrcMix(crc: bv32, b: byte): bv32 { crc ^ (b as bv8 as bv32) }

  function CrcBits(crc: bv32, n: nat): bv32
    decreases n
  {
    if n == 0 then crc else CrcBits(CrcShift(crc), n - 1)
  }

  function CrcFrom(crc: bv32, b: bytes): bv32
    decreases |b|
  {
    if b == [] then crc else CrcFrom(CrcBits(CrcMix(crc, b[0]), 8), b[1..])
  }

  function CrcValue(crc: bv32): (c: nat)
    ensures c < TWO32
  {
    Flipped(crc) as nat
  }

  function Flipped(crc: bv32): bv32 { crc ^ 0xFFFF_FFFF }

  /** CRC-32c (Castagnoli). */
  function Crc32c(b: bytes): (c: nat)
    ensures c < TWO32
  {
    CrcValue(CrcFrom(0xFFFF_FFFF, b))
  }

  method ComputeCrc(b: bytes) returns (c: nat)
    ensures c == Crc32c(b)
  {
    hide CrcShift, CrcMix;
    var crc: bv32, i: nat := 0xFFFF_FFFF, 0;
    while i < |b|
      invariant i <= |b|
      invariant CrcFrom(crc, b[i..]) == CrcFrom(0xFFFF_FFFF, b)
    {
      assert b[i..][1..] == b[i + 1..];
      crc := CrcMix(crc, b[i]);
      ghost var start := crc;
      var j: nat := 0;
      while j < 8
        invariant j <= 8
        invariant CrcBits(crc, 8 - j) == CrcBits(start, 8)
      {
        crc := CrcShift(crc);
        j := j + 1;
      }
      i := i + 1;
    }
    assert b[i..] == [];
    c := (crc ^ 0xFFFF_FFFF) as nat;
  }

  // ---------------------------------------------------------------- records

  /** [length][payload][checksum] */
  function Frame(cmd: Command): bytes {
    Blob(EncodeCommand(cmd)) + U32(Crc32c(EncodeCommand(cmd)))
  }

  function Frames(cmds: seq<Command>): bytes {
    if cmds == [] then [] else Frame(cmds[0]) + Frames(cmds[1..])
  }

  /** The record at `pos`, unless the bytes end, the checksum is wrong or the command is malformed. */
  function GetRecord(s: bytes, pos: nat): (r: Parse<Command>)
    ensures r.Got? ==> r.next >= pos + 8
  {
    var (payload, p) :- GetBlob(s, pos);
    var (crc, p) :- GetU32(s, p);
    if Crc32c(payload) != crc then Malformed
    else match DecodeCommand(payload)
         case Malformed => Malformed
         case Got(cmd, _) => Got(cmd, p)
  }

  function ReplayFrom(s: bytes, pos: nat): seq<Command>
    decreases |s| - pos
  {
    if pos >= |s| then []
    else match GetRecord(s, pos)
         case Malformed => []
         case Got(cmd, next) => [cmd] + ReplayFrom(s, next)
  }

  lemma PayloadFits(cmd: Command)
    requires CommandFits(cmd)
    ensures |EncodeCommand(cmd)| < TWO32
  {
  }

  method FourBytesOf(v: nat) returns (b: bytes)
    requires v < TWO32
    ensures b == U32(v)
  {
    hide LittleEndian;
    var enc := new Encoder();
    enc.PutU32(v);
    b := enc.buf;
  }

  class WriteAheadLog {
    const store: DurableStore

    constructor (store: DurableStore)
      ensures this.store == store
    {
      this.store := store;
    }

    method Append(cmd: Command)
      requires store.Valid() && CommandFits(cmd)
      modifies store
      ensures store.Valid() && store.Value() == old(store.Value()).Append(Frame(cmd))
    {
      hide EncodeCommand, CommandFits, Crc32c, LittleEndian;
      PayloadFits(cmd);
      var payload := EncodeCommand(cmd);
      var crc := ComputeCrc(payload);
      var header := FourBytesOf(|payload|);
      store.Append(header);
      store.Append(payload);
      var trailer := FourBytesOf(crc);
      store.Append(trailer);
      assert old(store.data) + header + payload + trailer == old(store.data) + Frame(cmd);
    }

    method Flush()
      requires store.Valid()
      modifies store
      ensures store.Valid() && store.Value() == old(store.Value()).Flush()
    {
      store.Flush();
    }

    method Replay() returns (cmds: seq<Command>)
      requires store.Valid()
      ensures cmds == ReplayFrom(store.Value().Durable(), 0)
    {
      hide DecodeCommand, Crc32c, ToNat;
      var s := store.data[..store.flushedEnd];
      var p: nat := 0;
      cmds := [];
      while p < |s|
        invariant cmds + ReplayFrom(s, p) == ReplayFrom(s, 0)
        decreases |s| - p
      {
        if |s| - p < 4 { break; }
        var len := ToNat(s[p..p + 4]);
        if |s| - (p + 4) < len + 4 { break; }
        var payload := s[p + 4..p + 4 + len];
        var stored := ToNat(s[p + 4 + len..p + 8 + len]);
        var computed := ComputeCrc(payload);
        if computed != stored { break; }
        match DecodeCommand(payload) {
          case Malformed => break;
          case Got(cmd, _) =>
            assert GetRecord(s, p) == Got(cmd, p + 8 + len);
            cmds := cmds + [cmd];
            p := p + 8 + len;
        }
      }
    }
  }

  // ---------------------------------------------------------------- recovery

  lemma ReadRecord(s: bytes, pos: nat, cmd: Command, rest: bytes)
    requires CommandFits(cmd) && HasAt(s, pos, Frame(cmd) + rest)
    ensures GetRecord(s, pos) == Got(cmd, pos + |Frame(cmd)|) && HasAt(s, pos + |Frame(cmd)|, rest)
  {
    hide HasAt, LittleEndian, GetBlob, GetU32, EncodeCommand, DecodeCommand, Crc32c;
    var payload := EncodeCommand(cmd);
    var crc := U32(Crc32c(payload));
    assert Frame(cmd) + rest == Blob(payload) + (crc + rest);
    ReadBlob(s, pos, payload, crc + rest);
    ReadU32(s, pos + 4 + |payload|, Crc32c(payload), rest);
    CommandRoundTrip(cmd);
  }

  /** A record of which only some bytes are there is not read. */
  lemma CutRecord(s: bytes, pos: nat, cmd: Command)
    requires CommandFits(cmd) && pos <= |s| < pos + |Frame(cmd)| && s[pos..] == Frame(cmd)[..|s| - pos]
    ensures GetRecord(s, pos) == Malformed
  {
    hide LittleEndian, EncodeCommand, DecodeCommand, Crc32c;
    var payload := EncodeCommand(cmd);
    if pos + 4 <= |s| {
      assert s[pos..pos + 4] == s[pos..][..4] == Frame(cmd)[..4] == U32(|payload|);
      ReadU32(s, pos, |payload|, []);
    }
  }

  /** `w` is the number of leading records that fit entirely into `k` bytes. */
  ghost predicate WholeRecords(cmds: seq<Command>, k: nat, w: nat) {
    && w <= |cmds| && |Frames(cmds[..w])| <= k
    && (w < |cmds| ==> k < |Frames(cmds[..w + 1])|)
  }

  predicate CommandsFit(cmds: seq<Command>) { forall j | 0 <= j < |cmds| :: CommandFits(cmds[j]) }

  lemma {:induction false} FramesStep(cmds: seq<Command>, w: nat)
    requires 0 < w <= |cmds|
    ensures Frames(cmds[..w]) == Frame(cmds[0]) + Frames(cmds[1..][..w - 1])
  {
    assert cmds[..w][1..] == cmds[1..][..w - 1];
  }

  lemma {:induction false} ReplayCut(s: bytes, pos: nat, cmds: seq<Command>) returns (w: nat)
    requires CommandsFit(cmds) && pos <= |s| <= pos + |Frames(cmds)| && s[pos..] == Frames(cmds)[..|s| - pos]
    ensures WholeRecords(cmds, |s| - pos, w) && ReplayFrom(s, pos) == cmds[..w]
    decreases |cmds|
  {
    hide CommandFits, Frame, GetRecord;
    if pos == |s| {
      w := 0;
      if cmds != [] { FramesStep(cmds, 1); FrameNotEmpty(cmds[0]); }
    } else {
      var f := |Frame(cmds[0])|;
      if |s| < pos + f {
        w := 0;
        FramesStep(cmds, 1);
        assert s[pos..] == Frame(cmds[0])[..|s| - pos];
        CutRecord(s, pos, cmds[0]);
      } else {
        var rest := Frames(cmds[1..])[..|s| - pos - f];
        assert s[pos..] == Frame(cmds[0]) + rest;
        WholeRecord(s, pos, cmds[0], rest);
        assert s[pos + f..] == rest;
        var v := ReplayCut(s, pos + f, cmds[1..]);
        w := v + 1;
        FramesStep(cmds, w);
        if w < |cmds| { FramesStep(cmds, w + 1); }
        assert cmds[..w] == [cmds[0]] + cmds[1..][..v];
      }
    }
  }

  lemma FrameNotEmpty(cmd: Command)
    ensures |Frame(cmd)| >= 8
  {
  }

  lemma WholeRecord(s: bytes, pos: nat, cmd: Command, rest: bytes)
    requires CommandFits(cmd) && pos <= |s| && s[pos..] == Frame(cmd) + rest
    ensures GetRecord(s, pos) == Got(cmd, pos + |Frame(cmd)|) && |Frame(cmd)| >= 8
  {
    hide CommandFits, Frame, GetRecord;
    assert HasAt(s, pos, Frame(cmd) + rest);
    ReadRecord(s, pos, cmd, rest);
    FrameNotEmpty(cmd);
  }

  /** However a well-formed log is cut, replay yields exactly the commands whose records are whole. */
  lemma TruncatedReplay(cmds: seq<Command>, k: nat) returns (w: nat)
    requires CommandsFit(cmds) && k <= |Frames(cmds)|
    ensures WholeRecords(cmds, k, w) && ReplayFrom(Frames(cmds)[..k], 0) == cmds[..w]
  {
    hide Frames, CommandsFit, ReplayFrom;
    var s := Frames(cmds)[..k];
    assert s[0..] == s;
    w := ReplayCut(s, 0, cmds);
  }

  // ---------------------------------------------------------------- any interleaving

  datatype Op = AppendOp(cmd: Command) | FlushOp | CrashOp

  function Write(d: Disk, op: Op): Disk
    requires d.flushed <= |d.data|
  {
    match op
    case AppendOp(cmd) => d.Append(Frame(cmd))
    case FlushOp => d.Flush()
    case CrashOp => d.Crash()
  }

  function WriteAll(ops: seq<Op>): (d: Disk)
    ensures d.flushed <= |d.data|
  {
    if ops == [] then Disk([], 0) else Write(WriteAll(ops[..|ops| - 1]), ops[|ops| - 1])
  }

  /** What should survive: a flush saves the commands appended since, a crash forgets them. */
  datatype Expected = Expected(saved: seq<Command>, unsaved: seq<Command>)

  function Expect(ops: seq<Op>): Expected {
    if ops == [] then Expected([], [])
    else
      var e := Expect(ops[..|ops| - 1]);
      match ops[|ops| - 1]
      case AppendOp(cmd) => e.(unsaved := e.unsaved + [cmd])
      case FlushOp => Expected(e.saved + e.unsaved, [])
      case CrashOp => Expected(e.saved, [])
  }

  lemma {:induction false} FramesOfSum(a: seq<Command>, b: seq<Command>)
    ensures Frames(a + b) == Frames(a) + Frames(b)
  {
    if a == [] {
      assert a + b == b;
    } else {
      assert (a + b)[1..] == a[1..] + b;
      FramesOfSum(a[1..], b);
    }
  }

  lemma {:induction false} DiskHolds(ops: seq<Op>)
    ensures var d, e := WriteAll(ops), Expect(ops);
            d.data == Frames(e.saved) + Frames(e.unsaved) && d.flushed == |Frames(e.saved)|
  {
    hide Frame;
    if ops != [] {
      DiskHolds(ops[..|ops| - 1]);
      var e := Expect(ops[..|ops| - 1]);
      match ops[|ops| - 1]
      case AppendOp(cmd) =>
        FramesOfSum(e.unsaved, [cmd]);
        assert [cmd][1..] == [] && Frames([cmd]) == Frame(cmd) + [];
      case FlushOp => FramesOfSum(e.saved, e.unsaved);
      case CrashOp =>
    }
  }

  /** After any interleaving of appends, flushes and crashes, replay returns the flushed commands in order. */
  lemma RecoversFlushed(ops: seq<Op>)
    requires CommandsFit(Expect(ops).saved)
    ensures ReplayFrom(WriteAll(ops).Durable(), 0) == Expect(ops).saved
  {
    hide Frames, ReplayFrom;
    DiskHolds(ops);
    var saved := Expect(ops).saved;
    var w := TruncatedReplay(saved, |Frames(saved)|);
    assert Frames(saved)[..|Frames(saved)|] == Frames(saved);
    assert WriteAll(ops).Durable() == Frames(saved);
    AllWhole(saved, w);
  }

  lemma AllWhole(cmds: seq<Command>, w: nat)
    requires WholeRecords(cmds, |Frames(cmds)|, w)
    ensures cmds[..w] == cmds
  {
    hide Frame;
    if w < |cmds| {
      assert cmds[..w + 1] + cmds[w + 1..] == cmds;
      FramesOfSum(cmds[..w + 1], cmds[w + 1..]);
    }
  }
}
