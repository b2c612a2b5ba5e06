/**
  Everything that is written to disk or put on the wire: commands (src/storage/wal.cpp), log
  entries and the ten messages (src/raft/rpc.cpp), whole logs (src/raft/log.cpp) and the node's
  term and vote (src/raft/node.cpp).  Each decoder is the exact inverse of its encoder on values
  that fit the field widths, and stops right behind the encoded bytes.
*/
module Wire {
  import opened RaftTypes
  import opened Codec
  import L = CompactedLog

  // ---------------------------------------------------------------- commands

  function EncodeCommand(cmd: Command): bytes {
    match cmd
    case Put(key, value) => U8(1) + (Str(key) + Str(value))
    case Delete(key) => U8(2) + Str(key)
    case Cas(key, expected, value) => U8(3) + (Str(key) + (Str(expected) + Str(value)))
    case Get(key) => U8(4) + Str(key)
    case AddServer(id) => U8(5) + U32(id)
    case RemoveServer(id) => U8(6) + U32(id)
  }

  /** Reads a command from the start of its own buffer; what may follow it is ignored. */
  function DecodeCommand(s: bytes): Parse<Command> {
    var (tag, p) :- GetU8(s, 0);
    if tag == 1 then
      var (key, p) :- GetStr(s, p);
      var (value, p) :- GetStr(s, p);
      Got(Put(key, value), p)
    else if tag == 2 then
      var (key, p) :- GetStr(s, p);
      Got(Delete(key), p)
    else if tag == 3 then
      var (key, p) :- GetStr(s, p);
      var (expected, p) :- GetStr(s, p);
      var (value, p) :- GetStr(s, p);
      Got(Cas(key, expected, value), p)
    else if tag == 4 then
      var (key, p) :- GetStr(s, p);
      Got(Get(key), p)
    else if tag == 5 then
      var (id, p) :- GetU32(s, p);
      Got(AddServer(id), p)
    else if tag == 6 then
      var (id, p) :- GetU32(s, p);
      Got(RemoveServer(id), p)
    else Malformed
  }

  predicate StringFits(s: string) { |s| < TWO32 && IsByteString(s) }

  predicate CommandFits(cmd: Command) {
    && |EncodeCommand(cmd)| < TWO32
    && match cmd
       case Put(key, value) => StringFits(key) && StringFits(value)
       case Delete(key) => StringFits(key)
       case Cas(key, expected, value) => StringFits(key) && StringFits(expected) && StringFits(value)
       case Get(key) => StringFits(key)
       case AddServer(id) => id < TWO32
       case RemoveServer(id) => id < TWO32
  }

  lemma CommandRoundTrip(cmd: Command)
    requires CommandFits(cmd)
    ensures DecodeCommand(EncodeCommand(cmd)) == Got(cmd, |EncodeCommand(cmd)|)
  {
    if cmd.Put? || cmd.Cas? { WriteRoundTrip(cmd); } else { SmallRoundTrip(cmd); }
  }

  lemma WriteRoundTrip(cmd: Command)
    requires CommandFits(cmd) && (cmd.Put? || cmd.Cas?)
    ensures DecodeCommand(EncodeCommand(cmd)) == Got(cmd, |EncodeCommand(cmd)|)
  {
    hide GetU8, GetU32, GetStr, HasAt, Chars, IsByteString, LittleEndian;
    var s := EncodeCommand(cmd);
    HasWhole(s);
    match cmd
    case Put(key, value) =>
      ReadU8(s, 0, 1, Str(key) + Str(value));
      ReadStr(s, 1, key, Str(value));
      ReadStr(s, 5 + |key|, value, []);
    case Cas(key, expected, value) =>
      ReadU8(s, 0, 3, Str(key) + (Str(expected) + Str(value)));
      ReadStr(s, 1, key, Str(expected) + Str(value));
      ReadStr(s, 5 + |key|, expected, Str(value));
      ReadStr(s, 9 + |key| + |expected|, value, []);
  }

  lemma SmallRoundTrip(cmd: Command)
    requires CommandFits(cmd) && !cmd.Put? && !cmd.Cas?
    ensures DecodeCommand(EncodeCommand(cmd)) == Got(cmd, |EncodeCommand(cmd)|)
  {
    hide GetU8, GetU32, GetStr, HasAt, Chars, IsByteString, LittleEndian;
    var s := EncodeCommand(cmd);
    HasWhole(s);
    match cmd
    case Delete(key) =>
      ReadU8(s, 0, 2, Str(key));
      ReadStr(s, 1, key, []);
    case Get(key) =>
      ReadU8(s, 0, 4, Str(key));
      ReadStr(s, 1, key, []);
    case AddServer(id) =>
      ReadU8(s, 0, 5, U32(id));
      ReadU32(s, 1, id, []);
    case RemoveServer(id) =>
      ReadU8(s, 0, 6, U32(id));
      ReadU32(s, 1, id, []);
  }

  // ---------------------------------------------------------------- log entries

  /** A command nested by length prefix. */
  function GetCommand(s: bytes, pos: nat): Parse<Command> {
    var (b, p) :- GetBlob(s, pos);
    match DecodeCommand(b)
    case Malformed => Malformed
    case Got(cmd, _) => Got(cmd, p)
  }

  lemma ReadCommand(s: bytes, pos: nat, cmd: Command, rest: bytes)
    requires CommandFits(cmd) && HasAt(s, pos, Blob(EncodeCommand(cmd)) + rest)
    ensures var next := pos + 4 + |EncodeCommand(cmd)|;
            GetCommand(s, pos) == Got(cmd, next) && HasAt(s, next, rest)
  {
    ReadBlob(s, pos, EncodeCommand(cmd), rest);
    CommandRoundTrip(cmd);
  }

  function EncodeEntry(e: LogEntry): bytes {
    U64(e.term) + (U64(e.index) + Blob(EncodeCommand(e.cmd)))
  }

  function GetEntry(s: bytes, pos: nat): Parse<LogEntry> {
    var (term, p) :- GetU64(s, pos);
    var (index, p) :- GetU64(s, p);
    var (cmd, p) :- GetCommand(s, p);
    Got(LogEntry(term, index, cmd), p)
  }

  predicate EntryFits(e: LogEntry) { e.term < TWO64 && e.index < TWO64 && CommandFits(e.cmd) }

  lemma ReadEntry(s: bytes, pos: nat, e: LogEntry, rest: bytes)
    requires EntryFits(e) && HasAt(s, pos, EncodeEntry(e) + rest)
    ensures GetEntry(s, pos) == Got(e, pos + |EncodeEntry(e)|) && HasAt(s, pos + |EncodeEntry(e)|, rest)
  {
    hide GetU64, GetCommand, HasAt, CommandFits, EncodeCommand, LittleEndian;
    var c := Blob(EncodeCommand(e.cmd));
    assert EncodeEntry(e) + rest == U64(e.term) + (U64(e.index) + (c + rest));
    ReadU64(s, pos, e.term, U64(e.index) + (c + rest));
    ReadU64(s, pos + 8, e.index, c + rest);
    ReadCommand(s, pos + 16, e.cmd, rest);
  }

  function EncodeEntries(es: seq<LogEntry>): bytes {
    if es == [] then [] else EncodeEntry(es[0]) + EncodeEntries(es[1..])
  }

  function GetEntries(s: bytes, pos: nat, count: nat): Parse<seq<LogEntry>>
    decreases count
  {
    if count == 0 then Got([], pos)
    else
      var (e, p) :- GetEntry(s, pos);
      var (es, p) :- GetEntries(s, p, count - 1);
      Got([e] + es, p)
  }

  predicate EntriesFit(es: seq<LogEntry>) {
    |es| < TWO32 && forall k | 0 <= k < |es| :: EntryFits(es[k])
  }

  lemma {:induction false} ReadEntries(s: bytes, pos: nat, es: seq<LogEntry>, rest: bytes)
    requires EntriesFit(es) && HasAt(s, pos, EncodeEntries(es) + rest)
    ensures var next := pos + |EncodeEntries(es)|;
            GetEntries(s, pos, |es|) == Got(es, next) && HasAt(s, next, rest)
    decreases |es|
  {
    hide GetEntry, HasAt, EncodeEntry, EntryFits;
    if es == [] {
      assert EncodeEntries(es) + rest == rest;
    } else {
      assert EncodeEntries(es) + rest == EncodeEntry(es[0]) + (EncodeEntries(es[1..]) + rest);
      ReadEntry(s, pos, es[0], EncodeEntries(es[1..]) + rest);
      ReadEntries(s, pos + |EncodeEntry(es[0])|, es[1..], rest);
      assert es == [es[0]] + es[1..];
    }
  }

  function Counted(es: seq<LogEntry>): bytes { U32(|es|) + EncodeEntries(es) }

  function GetCounted(s: bytes, pos: nat): Parse<seq<LogEntry>> {
    var (count, p) :- GetU32(s, pos);
    GetEntries(s, p, count)
  }

  lemma ReadCounted(s: bytes, pos: nat, es: seq<LogEntry>, rest: bytes)
    requires EntriesFit(es) && HasAt(s, pos, Counted(es) + rest)
    ensures var next := pos + |Counted(es)|;
            GetCounted(s, pos) == Got(es, next) && HasAt(s, next, rest)
  {
    hide GetEntries, EncodeEntries, HasAt, EntryFits, LittleEndian;
    assert Counted(es) + rest == U32(|es|) + (EncodeEntries(es) + rest);
    ReadU32(s, pos, |es|, EncodeEntries(es) + rest);
    ReadEntries(s, pos + 4, es, rest);
  }

  // ---------------------------------------------------------------- what a node persists

  function EncodeLog(l: L.Log): bytes { U64(l.baseIndex) + (U64(l.baseTerm) + Counted(l.entries)) }

  function DecodeLog(s: bytes): Parse<L.Log> {
    var (baseIndex, p) :- GetU64(s, 0);
    var (baseTerm, p) :- GetU64(s, p);
    var (entries, p) :- GetCounted(s, p);
    Got(L.Log(baseIndex, baseTerm, entries), p)
  }

  predicate LogFits(l: L.Log) { l.baseIndex < TWO64 && l.baseTerm < TWO64 && EntriesFit(l.entries) }

  lemma LogRoundTrip(l: L.Log)
    requires LogFits(l)
    ensures DecodeLog(EncodeLog(l)) == Got(l, |EncodeLog(l)|)
  {
    hide GetU64, GetCounted, HasAt, EntriesFit;
    var s := EncodeLog(l);
    HasWhole(s);
    ReadU64(s, 0, l.baseIndex, U64(l.baseTerm) + Counted(l.entries));
    ReadU64(s, 8, l.baseTerm, Counted(l.entries));
    ReadCounted(s, 16, l.entries, []);
  }

  datatype Meta = Meta(term: nat, votedFor: Option<NodeId>)

  function EncodeMeta(m: Meta): bytes {
    U64(m.term) + (match m.votedFor case None => Bool(false) case Some(v) => Bool(true) + U32(v))
  }

  function DecodeMeta(s: bytes): Parse<Meta> {
    var (term, p) :- GetU64(s, 0);
    var (voted, p) :- GetBool(s, p);
    if !voted then Got(Meta(term, None), p)
    else
      var (v, p) :- GetU32(s, p);
      Got(Meta(term, Some(v)), p)
  }

  predicate MetaFits(m: Meta) { m.term < TWO64 && (m.votedFor.Some? ==> m.votedFor.value < TWO32) }

  lemma MetaRoundTrip(m: Meta)
    requires MetaFits(m)
    ensures DecodeMeta(EncodeMeta(m)) == Got(m, |EncodeMeta(m)|)
  {
    hide GetU64, GetU32, GetBool, HasAt;
    var s := EncodeMeta(m);
    HasWhole(s);
    match m.votedFor
    case None =>
      ReadU64(s, 0, m.term, Bool(false));
      ReadBool(s, 8, false, []);
    case Some(v) =>
      ReadU64(s, 0, m.term, Bool(true) + U32(v));
      ReadBool(s, 8, true, U32(v));
      ReadU32(s, 9, v, []);
  }

  // ---------------------------------------------------------------- messages

  function Tag(m: Message): nat {
    match m
    case RequestVote(_, _, _, _) => 1
    case RequestVoteReply(_, _) => 2
    case AppendEntries(_, _, _, _, _, _) => 3
    case AppendEntriesReply(_, _, _, _) => 4
    case ClientRequest(_, _, _) => 5
    case ClientReply(_, _, _, _, _) => 6
    case InstallSnapshot(_, _, _, _, _) => 7
    case InstallSnapshotReply(_, _) => 8
    case ReadIndexRequest(_, _, _) => 9
    case ReadIndexReply(_, _) => 10
  }

  function EncodeBody(m: Message): bytes {
    match m
    case RequestVote(term, candidate, lastIndex, lastTerm) =>
      U64(term) + (U32(candidate) + (U64(lastIndex) + U64(lastTerm)))
    case RequestVoteReply(term, granted) => U64(term) + Bool(granted)
    case AppendEntries(term, leader, prevIndex, prevTerm, entries, leaderCommit) =>
      U64(term) + (U32(leader) + (U64(prevIndex) + (U64(prevTerm) + (U64(leaderCommit) + Counted(entries)))))
    case AppendEntriesReply(term, success, conflictIndex, conflictTerm) =>
      U64(term) + (Bool(success) + (U64(conflictIndex) + U64(conflictTerm)))
    case ClientRequest(clientId, requestId, cmd) =>
      U64(clientId) + (U64(requestId) + Blob(EncodeCommand(cmd)))
    case ClientReply(clientId, requestId, success, result, leaderHint) =>
      U64(clientId) + (U64(requestId) + (Bool(success) + (Bool(result.ok)
      + (Str(result.value) + (Str(result.error) + U32(leaderHint))))))
    case InstallSnapshot(term, leader, lastIndex, lastTerm, data) =>
      U64(term) + (U32(leader) + (U64(lastIndex) + (U64(lastTerm) + Blob(data))))
    case InstallSnapshotReply(term, lastIndex) => U64(term) + U64(lastIndex)
    case ReadIndexRequest(term, leader, round) => U64(term) + (U32(leader) + U64(round))
    case ReadIndexReply(term, round) => U64(term) + U64(round)
  }

  function Encode(m: Message): bytes { U8(Tag(m)) + EncodeBody(m) }

  function GetRequestVote(s: bytes, p: nat): Parse<Message> {
    var (term, p) :- GetU64(s, p);
    var (candidate, p) :- GetU32(s, p);
    var (lastIndex, p) :- GetU64(s, p);
    var (lastTerm, p) :- GetU64(s, p);
    Got(RequestVote(term, candidate, lastIndex, lastTerm), p)
  }

  function GetRequestVoteReply(s: bytes, p: nat): Parse<Message> {
    var (term, p) :- GetU64(s, p);
    var (granted, p) :- GetBool(s, p);
    Got(RequestVoteReply(term, granted), p)
  }

  function GetAppendEntries(s: bytes, p: nat): Parse<Message> {
    var (term, p) :- GetU64(s, p);
    var (leader, p) :- GetU32(s, p);
    var (prevIndex, p) :- GetU64(s, p);
    var (prevTerm, p) :- GetU64(s, p);
    var (leaderCommit, p) :- GetU64(s, p);
    var (entries, p) :- GetCounted(s, p);
    Got(AppendEntries(term, leader, prevIndex, prevTerm, entries, leaderCommit), p)
  }

  function GetAppendEntriesReply(s: bytes, p: nat): Parse<Message> {
    var (term, p) :- GetU64(s, p);
    var (success, p) :- GetBool(s, p);
    var (conflictIndex, p) :- GetU64(s, p);
    var (conflictTerm, p) :- GetU64(s, p);
    Got(AppendEntriesReply(term, success, conflictIndex, conflictTerm), p)
  }

  function GetClientRequest(s: bytes, p: nat): Parse<Message> {
    var (clientId, p) :- GetU64(s, p);
    var (requestId, p) :- GetU64(s, p);
    var (cmd, p) :- GetCommand(s, p);
    Got(ClientRequest(clientId, requestId, cmd), p)
  }

  function GetClientReply(s: bytes, p: nat): Parse<Message> {
    var (clientId, p) :- GetU64(s, p);
    var (requestId, p) :- GetU64(s, p);
    var (success, p) :- GetBool(s, p);
    var (ok, p) :- GetBool(s, p);
    var (value, p) :- GetStr(s, p);
    var (error, p) :- GetStr(s, p);
    var (leaderHint, p) :- GetU32(s, p);
    Got(ClientReply(clientId, requestId, success, CmdResult(ok, value, error), leaderHint), p)
  }

  function GetInstallSnapshot(s: bytes, p: nat): Parse<Message> {
    var (term, p) :- GetU64(s, p);
    var (leader, p) :- GetU32(s, p);
    var (lastIndex, p) :- GetU64(s, p);
    var (lastTerm, p) :- GetU64(s, p);
    var (data, p) :- GetBlob(s, p);
    Got(InstallSnapshot(term, leader, lastIndex, lastTerm, data), p)
  }

  function GetInstallSnapshotReply(s: bytes, p: nat): Parse<Message> {
    var (term, p) :- GetU64(s, p);
    var (lastIndex, p) :- GetU64(s, p);
    Got(InstallSnapshotReply(term, lastIndex), p)
  }

  function GetReadIndexRequest(s: bytes, p: nat): Parse<Message> {
    var (term, p) :- GetU64(s, p);
    var (leader, p) :- GetU32(s, p);
    var (round, p) :- GetU64(s, p);
    Got(ReadIndexRequest(term, leader, round), p)
  }

  function GetReadIndexReply(s: bytes, p: nat): Parse<Message> {
    var (term, p) :- GetU64(s, p);
    var (round, p) :- GetU64(s, p);
    Got(ReadIndexReply(term, round), p)
  }

  /** Dispatch on the tag byte, then the decoder of that message. */
  function Decode(s: bytes): Parse<Message> {
    var (tag, p) :- GetU8(s, 0);
    match tag
    case 1 => GetRequestVote(s, p)
    case 2 => GetRequestVoteReply(s, p)
    case 3 => GetAppendEntries(s, p)
    case 4 => GetAppendEntriesReply(s, p)
    case 5 => GetClientRequest(s, p)
    case 6 => GetClientReply(s, p)
    case 7 => GetInstallSnapshot(s, p)
    case 8 => GetInstallSnapshotReply(s, p)
    case 9 => GetReadIndexRequest(s, p)
    case 10 => GetReadIndexReply(s, p)
    case _ => Malformed
  }

  predicate MessageFits(m: Message) {
    match m
    case RequestVote(term, candidate, lastIndex, lastTerm) =>
      term < TWO64 && candidate < TWO32 && lastIndex < TWO64 && lastTerm < TWO64
    case RequestVoteReply(term, _) => term < TWO64
    case AppendEntries(term, leader, prevIndex, prevTerm, entries, leaderCommit) =>
      && term < TWO64 && leader < TWO32 && prevIndex < TWO64 && prevTerm < TWO64 && leaderCommit < TWO64
      && EntriesFit(entries)
    case AppendEntriesReply(term, _, conflictIndex, conflictTerm) =>
      term < TWO64 && conflictIndex < TWO64 && conflictTerm < TWO64
    case ClientRequest(clientId, requestId, cmd) => clientId < TWO64 && requestId < TWO64 && CommandFits(cmd)
    case ClientReply(clientId, requestId, _, result, leaderHint) =>
      && clientId < TWO64 && requestId < TWO64 && leaderHint < TWO32
      && StringFits(result.value) && StringFits(result.error)
    case InstallSnapshot(term, leader, lastIndex, lastTerm, data) =>
      term < TWO64 && leader < TWO32 && lastIndex < TWO64 && lastTerm < TWO64 && |data| < TWO32
    case InstallSnapshotReply(term, lastIndex) => term < TWO64 && lastIndex < TWO64
    case ReadIndexRequest(term, leader, round) => term < TWO64 && leader < TWO32 && round < TWO64
    case ReadIndexReply(term, round) => term < TWO64 && round < TWO64
  }

  lemma ReadRequestVote(s: bytes, m: Message)
    requires m.RequestVote? && MessageFits(m) && HasAt(s, 1, EncodeBody(m))
    ensures GetRequestVote(s, 1) == Got(m, 1 + |EncodeBody(m)|)
  {
    hide GetU64, GetU32, HasAt, LittleEndian;
    HasWhole(s);
    ReadU64(s, 1, m.term, U32(m.candidate) + (U64(m.lastIndex) + U64(m.lastTerm)));
    ReadU32(s, 9, m.candidate, U64(m.lastIndex) + U64(m.lastTerm));
    ReadU64(s, 13, m.lastIndex, U64(m.lastTerm));
    ReadU64(s, 21, m.lastTerm, []);
  }

  lemma ReadAppendEntries(s: bytes, m: Message)
    requires m.AppendEntries? && MessageFits(m) && HasAt(s, 1, EncodeBody(m))
    ensures GetAppendEntries(s, 1) == Got(m, 1 + |EncodeBody(m)|)
  {
    hide GetU64, GetU32, GetCounted, HasAt, LittleEndian, Counted, EntriesFit;
    HasWhole(s);
    var c := Counted(m.entries);
    ReadU64(s, 1, m.term, U32(m.leader) + (U64(m.prevIndex) + (U64(m.prevTerm) + (U64(m.leaderCommit) + c))));
    ReadU32(s, 9, m.leader, U64(m.prevIndex) + (U64(m.prevTerm) + (U64(m.leaderCommit) + c)));
    ReadU64(s, 13, m.prevIndex, U64(m.prevTerm) + (U64(m.leaderCommit) + c));
    ReadU64(s, 21, m.prevTerm, U64(m.leaderCommit) + c);
    ReadU64(s, 29, m.leaderCommit, c);
    ReadCounted(s, 37, m.entries, []);
  }

  lemma ReadAppendEntriesReply(s: bytes, m: Message)
    requires m.AppendEntriesReply? && MessageFits(m) && HasAt(s, 1, EncodeBody(m))
    ensures GetAppendEntriesReply(s, 1) == Got(m, 1 + |EncodeBody(m)|)
  {
    hide GetU64, GetBool, HasAt, LittleEndian;
    HasWhole(s);
    ReadU64(s, 1, m.term, Bool(m.success) + (U64(m.conflictIndex) + U64(m.conflictTerm)));
    ReadBool(s, 9, m.success, U64(m.conflictIndex) + U64(m.conflictTerm));
    ReadU64(s, 10, m.conflictIndex, U64(m.conflictTerm));
    ReadU64(s, 18, m.conflictTerm, []);
  }

  lemma ReadClientRequest(s: bytes, m: Message)
    requires m.ClientRequest? && MessageFits(m) && HasAt(s, 1, EncodeBody(m))
    ensures GetClientRequest(s, 1) == Got(m, 1 + |EncodeBody(m)|)
  {
    hide GetU64, GetCommand, HasAt, LittleEndian, EncodeCommand, CommandFits;
    HasWhole(s);
    ReadU64(s, 1, m.clientId, U64(m.requestId) + Blob(EncodeCommand(m.cmd)));
    ReadU64(s, 9, m.requestId, Blob(EncodeCommand(m.cmd)));
    ReadCommand(s, 17, m.cmd, []);
  }

  lemma ReadClientReply(s: bytes, m: Message)
    requires m.ClientReply? && MessageFits(m) && HasAt(s, 1, EncodeBody(m))
    ensures GetClientReply(s, 1) == Got(m, 1 + |EncodeBody(m)|)
  {
    hide GetU64, GetU32, GetBool, GetStr, HasAt, LittleEndian, Chars, IsByteString;
    HasWhole(s);
    var v, e, h := m.result.value, m.result.error, U32(m.leaderHint);
    ReadU64(s, 1, m.clientId, U64(m.requestId) + (Bool(m.success) + (Bool(m.result.ok) + (Str(v) + (Str(e) + h)))));
    ReadU64(s, 9, m.requestId, Bool(m.success) + (Bool(m.result.ok) + (Str(v) + (Str(e) + h))));
    ReadBool(s, 17, m.success, Bool(m.result.ok) + (Str(v) + (Str(e) + h)));
    ReadBool(s, 18, m.result.ok, Str(v) + (Str(e) + h));
    ReadStr(s, 19, v, Str(e) + h);
    ReadStr(s, 23 + |v|, e, h);
    ReadU32(s, 27 + |v| + |e|, m.leaderHint, []);
  }

  lemma ReadInstallSnapshot(s: bytes, m: Message)
    requires m.InstallSnapshot? && MessageFits(m) && HasAt(s, 1, EncodeBody(m))
    ensures GetInstallSnapshot(s, 1) == Got(m, 1 + |EncodeBody(m)|)
  {
    hide GetU64, GetU32, GetBlob, HasAt, LittleEndian;
    HasWhole(s);
    var d := Blob(m.data);
    ReadU64(s, 1, m.term, U32(m.leader) + (U64(m.lastIndex) + (U64(m.lastTerm) + d)));
    ReadU32(s, 9, m.leader, U64(m.lastIndex) + (U64(m.lastTerm) + d));
    ReadU64(s, 13, m.lastIndex, U64(m.lastTerm) + d);
    ReadU64(s, 21, m.lastTerm, d);
    ReadBlob(s, 29, m.data, []);
  }

  lemma ReadShort(s: bytes, m: Message)
    requires MessageFits(m) && HasAt(s, 1, EncodeBody(m))
    ensures var next := 1 + |EncodeBody(m)|;
            && (m.RequestVoteReply? ==> GetRequestVoteReply(s, 1) == Got(m, next))
            && (m.InstallSnapshotReply? ==> GetInstallSnapshotReply(s, 1) == Got(m, next))
            && (m.ReadIndexRequest? ==> GetReadIndexRequest(s, 1) == Got(m, next))
            && (m.ReadIndexReply? ==> GetReadIndexReply(s, 1) == Got(m, next))
  {
    hide GetU64, GetU32, GetBool, HasAt, LittleEndian;
    HasWhole(s);
    match m
    case RequestVoteReply(term, granted) =>
      ReadU64(s, 1, term, Bool(granted));
      ReadBool(s, 9, granted, []);
    case InstallSnapshotReply(term, lastIndex) =>
      ReadU64(s, 1, term, U64(lastIndex));
      ReadU64(s, 9, lastIndex, []);
    case ReadIndexRequest(term, leader, round) =>
      ReadU64(s, 1, term, U32(leader) + U64(round));
      ReadU32(s, 9, leader, U64(round));
      ReadU64(s, 13, round, []);
    case ReadIndexReply(term, round) =>
      ReadU64(s, 1, term, U64(round));
      ReadU64(s, 9, round, []);
    case _ =>
  }

  /** Every message survives the wire, and its decoder consumes exactly its bytes. */
  lemma MessageRoundTrip(m: Message)
    requires MessageFits(m)
    ensures Decode(Encode(m)) == Got(m, |Encode(m)|)
  {
    hide HasAt, EncodeBody, MessageFits, LittleEndian, GetU8, GetRequestVote, GetRequestVoteReply, GetAppendEntries,
         GetAppendEntriesReply, GetClientRequest, GetClientReply, GetInstallSnapshot, GetInstallSnapshotReply,
         GetReadIndexRequest, GetReadIndexReply;
    var s := Encode(m);
    HasWhole(s);
    ReadU8(s, 0, Tag(m), EncodeBody(m));
    match m
    case RequestVote(_, _, _, _) => ReadRequestVote(s, m);
    case AppendEntries(_, _, _, _, _, _) => ReadAppendEntries(s, m);
    case AppendEntriesReply(_, _, _, _) => ReadAppendEntriesReply(s, m);
    case ClientRequest(_, _, _) => ReadClientRequest(s, m);
    case ClientReply(_, _, _, _, _) => ReadClientReply(s, m);
    case InstallSnapshot(_, _, _, _, _) => ReadInstallSnapshot(s, m);
    case _ => ReadShort(s, m);
  }
}
