/**
  The encoders and decoders with loops in them (src/raft/rpc.cpp): byte runs, log entries and
  AppendEntries, pushing to a buffer and moving a cursor, as `Wire` describes them.
*/
module RpcCode {
  import opened RaftTypes
  import opened Codec
  import opened Wire

  /** A length prefix and the bytes, one at a time. */
  method PutBlob(enc: Encoder, b: bytes)
    modifies enc
    ensures enc.buf == old(enc.buf) + Blob(b)
  {
    enc.PutU32(|b|);
    ghost var head := enc.buf;
    for i := 0 to |b|
      invariant enc.buf == head + b[..i]
    {
      enc.PutU8(b[i] as nat);
      assert b[..i + 1] == b[..i] + [b[i]];
    }
    assert b[..|b|] == b;
  }

  method PutEntry(enc: Encoder, e: LogEntry)
    modifies enc
    ensures enc.buf == old(enc.buf) + EncodeEntry(e)
  {
    hide U64, Blob, EncodeCommand;
    enc.PutU64(e.term);
    enc.PutU64(e.index);
    PutBlob(enc, EncodeCommand(e.cmd));
  }

  method PutEntries(enc: Encoder, es: seq<LogEntry>)
    modifies enc
    ensures enc.buf == old(enc.buf) + Counted(es)
  {
    hide U32, EncodeEntry;
    enc.PutU32(|es|);
    ghost var head := enc.buf;
    assert es[0..] == es;
    for i := 0 to |es|
      invariant enc.buf + EncodeEntries(es[i..]) == head + EncodeEntries(es)
    {
      assert es[i..][1..] == es[i + 1..];
      PutEntry(enc, es[i]);
    }
    assert enc.buf + [] == enc.buf;
  }

  method EncodeAppendEntries(m: Message) returns (b: bytes)
    requires m.AppendEntries?
    ensures b == Encode(m)
  {
    hide U8, U64, U32, Counted;
    var enc := new Encoder();
    enc.PutU8(3);
    enc.PutU64(m.term);
    enc.PutU32(m.leader);
    enc.PutU64(m.prevIndex);
    enc.PutU64(m.prevTerm);
    enc.PutU64(m.leaderCommit);
    PutEntries(enc, m.entries);
    b := enc.buf;
    Regroup(U8(3), U64(m.term), U32(m.leader), U64(m.prevIndex), U64(m.prevTerm), U64(m.leaderCommit), Counted(m.entries));
  }

  lemma Regroup(a: bytes, b: bytes, c: bytes, d: bytes, e: bytes, f: bytes, g: bytes)
    ensures [] + a + b + c + d + e + f + g == a + (b + (c + (d + (e + (f + g)))))
  {
    assert e + f + g == e + (f + g);
    assert c + d + (e + (f + g)) == c + (d + (e + (f + g)));
    assert [] + a + b + (c + (d + (e + (f + g)))) == a + (b + (c + (d + (e + (f + g)))));
  }

  /** The sub-decoder of a length-prefixed run, drained byte by byte; `None` is the underrun exception. */
  method TakeBlob(dec: Decoder) returns (r: Option<bytes>)
    modifies dec
    ensures dec.Read(r, GetBlob(dec.data, old(dec.ptr)))
  {
    hide GetU32;
    var len := dec.TakeU32();
    if len.None? { return None; }
    if dec.ptr + len.value > |dec.data| { return None; }
    var start, out: bytes := dec.ptr, [];
    while dec.ptr < start + len.value
      invariant start <= dec.ptr <= start + len.value <= |dec.data| && out == dec.data[start..dec.ptr]
    {
      out := out + [dec.data[dec.ptr]];
      dec.ptr := dec.ptr + 1;
    }
    r := Some(out);
  }

  method TakeEntry(dec: Decoder) returns (r: Option<LogEntry>)
    modifies dec
    ensures dec.Read(r, GetEntry(dec.data, old(dec.ptr)))
  {
    hide GetU64, GetBlob, DecodeCommand;
    var term := dec.TakeU64();
    if term.None? { return None; }
    var index := dec.TakeU64();
    if index.None? { return None; }
    var b := TakeBlob(dec);
    if b.None? { return None; }
    match DecodeCommand(b.value) {
      case Malformed => return None;
      case Got(cmd, _) => r := Some(LogEntry(term.value, index.value, cmd));
    }
  }

  method TakeEntries(dec: Decoder) returns (r: Option<seq<LogEntry>>)
    modifies dec
    ensures dec.Read(r, GetCounted(dec.data, old(dec.ptr)))
  {
    hide GetU32, GetEntry;
    var count := dec.TakeU32();
    if count.None? { return None; }
    var es: seq<LogEntry> := [];
    ghost var start := dec.ptr;
    Follows([], GetEntries(dec.data, start, count.value));
    for i := 0 to count.value
      invariant GetEntries(dec.data, start, count.value) == After(es, GetEntries(dec.data, dec.ptr, count.value - i))
    {
      var e := TakeEntry(dec);
      if e.None? { return None; }
      Grows(es, e.value, GetEntries(dec.data, dec.ptr, count.value - i - 1));
      es := es + [e.value];
    }
    Follows(es, Got([], dec.ptr));
    r := Some(es);
  }

  /** What was read before, then the rest. */
  ghost function After(es: seq<LogEntry>, rest: Parse<seq<LogEntry>>): Parse<seq<LogEntry>> {
    match rest
    case Malformed => Malformed
    case Got(more, next) => Got(es + more, next)
  }

  lemma Follows(es: seq<LogEntry>, rest: Parse<seq<LogEntry>>)
    ensures es == [] ==> After(es, rest) == rest
    ensures rest.Got? && rest.value == [] ==> After(es, rest) == Got(es, rest.next)
  {
    if rest.Got? { assert [] + rest.value == rest.value && es + [] == es; }
  }

  lemma Grows(es: seq<LogEntry>, e: LogEntry, rest: Parse<seq<LogEntry>>)
    ensures After(es, After([e], rest)) == After(es + [e], rest)
  {
    if rest.Got? { assert es + ([e] + rest.value) == es + [e] + rest.value; }
  }

  /** The tag is skipped, not checked. */
  function Untagged(b: bytes): Parse<Message> {
    var (_, p) :- GetU8(b, 0);
    GetAppendEntries(b, p)
  }

  lemma ReadsBack(m: Message)
    requires m.AppendEntries? && MessageFits(m)
    ensures Untagged(Encode(m)) == Got(m, |Encode(m)|)
  {
    hide EncodeBody, GetAppendEntries, MessageFits;
    MessageRoundTrip(m);
    HasWhole(Encode(m));
    ReadU8(Encode(m), 0, 3, EncodeBody(m));
  }

  /** Decoding what was encoded gives the message back. */
  method DecodeAppendEntries(b: bytes) returns (r: Option<Message>)
    ensures r == match Untagged(b) case Got(m, _) => Some(m) case Malformed => None
    ensures forall m: Message | m.AppendEntries? && MessageFits(m) && b == Encode(m) :: r == Some(m)
  {
    hide GetU8, GetU64, GetU32, GetCounted, MessageFits, Encode;
    var dec := new Decoder(b);
    forall m: Message | m.AppendEntries? && MessageFits(m) && b == Encode(m)
      ensures Untagged(b) == Got(m, |b|)
    {
      ReadsBack(m);
    }
    var tag := dec.TakeU8();
    if tag.None? { return None; }
    var term := dec.TakeU64();
    if term.None? { return None; }
    var leader := dec.TakeU32();
    if leader.None? { return None; }
    var prevIndex := dec.TakeU64();
    if prevIndex.None? { return None; }
    var prevTerm := dec.TakeU64();
    if prevTerm.None? { return None; }
    var leaderCommit := dec.TakeU64();
    if leaderCommit.None? { return None; }
    var es := TakeEntries(dec);
    if es.None? { return None; }
    r := Some(AppendEntries(term.value, leader.value, prevIndex.value, prevTerm.value, es.value, leaderCommit.value));
  }
}
