/**
  Snapshots on one node (src/raft/node.cpp:603-662, 52-101): the map written out and read back, the log
  compacted behind it, and what a crash and a restart restore.
*/
module Snapshot {
  import opened RaftTypes
  import opened Codec
  import opened Wire
  import L = CompactedLog
  import K = KvStore
  import W = Wal
  import KeyOrder

  // ---------------------------------------------------------------- the map as bytes

  type Pairs = seq<(string, string)>

  function ToMap(ps: Pairs): K.Map {
    if ps == [] then map[] else ToMap(ps[..|ps| - 1])[ps[|ps| - 1].0 := ps[|ps| - 1].1]
  }

  function EncodePairs(ps: Pairs): bytes {
    if ps == [] then [] else Str(ps[0].0) + (Str(ps[0].1) + EncodePairs(ps[1..]))
  }

  function GetPairs(s: bytes, pos: nat, count: nat): Parse<Pairs>
    decreases count
  {
    if count == 0 then Got([], pos)
    else
      var (k, p) :- GetStr(s, pos);
      var (v, p) :- GetStr(s, p);
      var (ps, p) :- GetPairs(s, p, count - 1);
      Got([(k, v)] + ps, p)
  }

  /** The map as it iterates: `ps` lists it. */
  function Dump(ps: Pairs): bytes { U32(|ps|) + EncodePairs(ps) }

  function Load(s: bytes): Parse<K.Map> {
    var (count, p) :- GetU32(s, 0);
    var (ps, p) :- GetPairs(s, p, count);
    Got(ToMap(ps), p)
  }

  predicate PairsFit(ps: Pairs) {
    |ps| < TWO32 && forall i | 0 <= i < |ps| :: StringFits(ps[i].0) && StringFits(ps[i].1)
  }

  lemma {:induction false} ReadPairs(s: bytes, pos: nat, ps: Pairs)
    requires PairsFit(ps) && HasAt(s, pos, EncodePairs(ps))
    ensures GetPairs(s, pos, |ps|) == Got(ps, pos + |EncodePairs(ps)|)
    decreases |ps|
  {
    hide GetStr, HasAt, Chars, IsByteString, LittleEndian;
    if ps != [] {
      var (k, v) := ps[0];
      ReadStr(s, pos, k, Str(v) + EncodePairs(ps[1..]));
      ReadStr(s, pos + 4 + |k|, v, EncodePairs(ps[1..]));
      ReadPairs(s, pos + 8 + |k| + |v|, ps[1..]);
      assert ps == [(k, v)] + ps[1..];
    }
  }

  /** Whatever the iteration order, the map comes back. */
  lemma DumpRoundTrip(ps: Pairs)
    requires PairsFit(ps)
    ensures Load(Dump(ps)) == Got(ToMap(ps), |Dump(ps)|)
  {
    hide GetPairs, EncodePairs, ToMap, HasAt, LittleEndian, StringFits;
    HasWhole(Dump(ps));
    ReadU32(Dump(ps), 0, |ps|, EncodePairs(ps));
    ReadPairs(Dump(ps), 4, ps);
  }

  // ---------------------------------------------------------------- the snapshot file

  function File(index: nat, term: nat, data: bytes): bytes { U64(index) + (U64(term) + Blob(data)) }

  datatype Saved = Saved(index: nat, term: nat, data: bytes)

  function GetFile(s: bytes): Parse<Saved> {
    var (index, p) :- GetU64(s, 0);
    var (term, p) :- GetU64(s, p);
    var (data, p) :- GetBlob(s, p);
    Got(Saved(index, term, data), p)
  }

  lemma FileRoundTrip(index: nat, term: nat, data: bytes)
    requires index < TWO64 && term < TWO64 && |data| < TWO32
    ensures GetFile(File(index, term, data)) == Got(Saved(index, term, data), |File(index, term, data)|)
  {
    hide GetU64, GetBlob, HasAt, LittleEndian;
    var s := File(index, term, data);
    HasWhole(s);
    ReadU64(s, 0, index, U64(term) + Blob(data));
    ReadU64(s, 8, term, Blob(data));
    ReadBlob(s, 16, data, []);
  }

  // ---------------------------------------------------------------- one node

  datatype Local = Local(running: bool, log: L.Log, commit: nat, applied: nat, kv: K.Map,
                         snap: Saved, snapStore: W.Disk, logStore: W.Disk)

  predicate StoresOk(n: Local) { n.snapStore.flushed <= |n.snapStore.data| && n.logStore.flushed <= |n.logStore.data| }

  function Rewritten(d: W.Disk, b: bytes): W.Disk { d.TruncateTo(0).Append(b).Flush() }

  function Persist(n: Local): Local { n.(logStore := Rewritten(n.logStore, EncodeLog(n.log))) }

  function Applying(kv: K.Map, log: L.Log, lo: nat, hi: nat): K.Map
    decreases hi - lo
  {
    if lo >= hi then kv
    else if lo + 1 <= log.baseIndex then Applying(kv, log, lo + 1, hi)
    else match log.At(lo + 1)
         case None => kv // out-of-range exception
         case Some(e) => Applying(K.Apply(kv, e.cmd).data, log, lo + 1, hi)
  }

  function Advance(n: Local, hi: nat): Local {
    n.(commit := hi, applied := L.Max(n.applied, hi), kv := Applying(n.kv, n.log, n.applied, hi))
  }

  /** `ps` is the map in iteration order. */
  function TakeSnapshot(n: Local, ps: Pairs): Local {
    if n.applied <= n.snap.index then n
    else match n.log.TermAt(n.applied)
         case None => n // out-of-range exception
         case Some(term) =>
           var snap := Saved(n.applied, term, Dump(ps));
           Persist(n.(snap := snap, log := n.log.SetSnapshot(n.applied, term),
                      snapStore := Rewritten(n.snapStore, File(snap.index, snap.term, snap.data))))
  }

  function Loaded(data: bytes): K.Map {
    match Load(data)
    case Got(m, _) => m
    case Malformed => map[] // decoding exception
  }

  function Crash(n: Local): Local
    requires StoresOk(n)
  {
    n.(running := false, snapStore := n.snapStore.Crash(), logStore := n.logStore.Crash(),
       commit := n.snap.index, applied := n.snap.index,
       kv := if n.snap.data == [] then map[] else Loaded(n.snap.data))
  }

  function LoadSnapshot(n: Local): Local
    requires StoresOk(n)
  {
    if n.snapStore.Durable() == [] then n
    else match GetFile(n.snapStore.Durable())
         case Malformed => n // decoding exception
         case Got(saved, _) =>
           n.(snap := saved, kv := Loaded(saved.data), commit := saved.index, applied := saved.index,
              log := n.log.SetSnapshot(saved.index, saved.term))
  }

  function Restart(n: Local): Local
    requires StoresOk(n)
  {
    var n1 := LoadSnapshot(n.(running := true, log := L.EMPTY, kv := map[]));
    if n1.logStore.Durable() == [] then n1
    else match DecodeLog(n1.logStore.Durable())
         case Malformed => n1 // decoding exception
         case Got(log, _) => n1.(log := log)
  }

  // ---------------------------------------------------------------- runs

  /** The log grows and is cut anywhere; the commit index is set to any index of the log and what is newly
      committed is applied; the node takes snapshots at any time, crashes and restarts. */
  datatype Step =
    | Append(term: nat, cmd: Command)
    | Truncate(from: nat)
    | Commit(to: nat)
    | Compact(ps: Pairs)
    | Fail
    | Recover

  ghost predicate Enabled(n: Local, step: Step) {
    && StoresOk(n)
    && match step
       case Append(_, _) => n.running
       case Truncate(_) => n.running
       case Commit(to) => n.running && to <= n.log.LastIndex()
       case Compact(ps) => n.running && ToMap(ps) == n.kv && PairsFit(ps)
       case Fail => n.running
       case Recover => !n.running
  }

  function Take(n: Local, step: Step): Local
    requires StoresOk(n)
  {
    match step
    case Append(term, cmd) => Persist(n.(log := n.log.Append(LogEntry(term, n.log.LastIndex() + 1, cmd))))
    case Truncate(from) => Persist(n.(log := n.log.TruncateFrom(from)))
    case Commit(to) => Advance(n, to)
    case Compact(ps) => TakeSnapshot(n, ps)
    case Fail => Crash(n)
    case Recover => Restart(n)
  }

  /** What the run remembers beside the node: the log as it would be had nothing been compacted, and the map
      that the last snapshot captured. */
  datatype Past = Past(full: seq<LogEntry>, captured: K.Map)

  const NO_PAST := Past([], map[])

  function PastAfter(past: Past, n: Local, step: Step): Past {
    match step
    case Append(term, cmd) => past.(full := past.full + [LogEntry(term, |past.full| + 1, cmd)])
    case Truncate(from) =>
      past.(full := if n.log.baseIndex < from <= |past.full| then past.full[..from - 1] else past.full)
    case Compact(_) => if n.snap.index < n.applied <= n.log.LastIndex() then past.(captured := n.kv) else past
    case _ => past
  }

  /** The sizes fit the fields they are written to. */
  predicate Fits(n: Local) {
    LogFits(n.log) && n.snap.index < TWO64 && n.snap.term < TWO64 && |n.snap.data| < TWO32
  }

  const FRESH := Local(true, L.EMPTY, 0, 0, map[], Saved(0, 0, []), W.Disk([], 0), W.Disk([], 0))

  ghost predicate IsRun(ns: seq<Local>, pasts: seq<Past>, steps: seq<Step>) {
    && |ns| == |pasts| == |steps| + 1
    && ns[0] == FRESH && pasts[0] == NO_PAST
    && (forall i | 0 <= i < |steps| ::
          Enabled(ns[i], steps[i]) && ns[i + 1] == Take(ns[i], steps[i]) && pasts[i + 1] == PastAfter(pasts[i], ns[i], steps[i]))
    && forall i | 0 <= i < |ns| :: Fits(ns[i])
  }

  // ---------------------------------------------------------------- alignment

  /** The store holds exactly `b`, all of it flushed. */
  predicate Holds(d: W.Disk, b: bytes) { d == W.Disk(b, |b|) }

  /** The snapshot is the captured map, in memory and on disk. */
  ghost predicate SnapOk(snap: Saved, store: W.Disk, past: Past) {
    && snap.index <= |past.full|
    && if snap.index == 0 then snap == Saved(0, 0, []) && Holds(store, []) && past.captured == map[]
       else
         && snap.term == L.PlainTerm(past.full, snap.index)
         && snap.data != [] && Load(snap.data).Got? && Load(snap.data).value == past.captured
         && Holds(store, File(snap.index, snap.term, snap.data))
  }

  ghost predicate LogOk(log: L.Log, store: W.Disk, full: seq<LogEntry>) {
    && L.Compacts(log, full)
    && (Holds(store, EncodeLog(log)) || (Holds(store, []) && log == L.EMPTY))
  }

  ghost predicate Inv(n: Local, past: Past) {
    && SnapOk(n.snap, n.snapStore, past)
    && LogOk(n.log, n.logStore, past.full)
    && n.log.baseIndex == n.snap.index <= n.applied
    && (!n.running ==> n.commit == n.applied == n.snap.index && n.kv == past.captured)
  }

  lemma AppendKeeps(n: Local, past: Past, term: nat, cmd: Command)
    requires Inv(n, past) && StoresOk(n) && n.running
    ensures Inv(Take(n, Append(term, cmd)), PastAfter(past, n, Append(term, cmd)))
  {
    hide EncodeLog, Load, File;
    L.ApplyCompacts(n.log, past.full, L.AppendOp(term, cmd));
  }

  lemma TruncateKeeps(n: Local, past: Past, from: nat)
    requires Inv(n, past) && StoresOk(n) && n.running
    ensures Inv(Take(n, Truncate(from)), PastAfter(past, n, Truncate(from)))
  {
    hide EncodeLog, Load, File;
    L.ApplyCompacts(n.log, past.full, L.TruncateOp(from));
  }

  lemma CompactKeeps(n: Local, past: Past, ps: Pairs)
    requires Inv(n, past) && n.running && ToMap(ps) == n.kv && PairsFit(ps)
    ensures Inv(TakeSnapshot(n, ps), PastAfter(past, n, Compact(ps)))
  {
    hide EncodeLog, Load, File, ToMap, EncodePairs, LittleEndian;
    L.QueriesAgree(n.log, past.full);
    L.ApplyCompacts(n.log, past.full, L.SnapshotOp(n.applied));
    DumpRoundTrip(ps);
  }

  lemma FailKeeps(n: Local, past: Past)
    requires Inv(n, past) && StoresOk(n)
    ensures Inv(Crash(n), past) && Crash(n).log == n.log && Crash(n).snap == n.snap
  {
    hide EncodeLog, Load, File;
  }

  /** Loading what was saved gives back the snapshot and the log of before the crash. */
  lemma RecoverRestores(n: Local, past: Past)
    requires Inv(n, past) && StoresOk(n) && Fits(n) && !n.running
    ensures Restart(n) == n.(running := true)
  {
    hide EncodeLog, DecodeLog, Load, File, GetFile, LogFits;
    assert n.snapStore.Durable() == n.snapStore.data && n.logStore.Durable() == n.logStore.data;
    NotEmpty(n.snap, n.log);
    FileRoundTrip(n.snap.index, n.snap.term, n.snap.data);
    LogRoundTrip(n.log);
  }

  lemma NotEmpty(snap: Saved, log: L.Log)
    ensures File(snap.index, snap.term, snap.data) != [] && EncodeLog(log) != []
  {
  }

  lemma TakeKeeps(n: Local, past: Past, step: Step)
    requires Inv(n, past) && Enabled(n, step) && Fits(n)
    ensures Inv(Take(n, step), PastAfter(past, n, step))
  {
    hide Inv, TakeSnapshot, Crash, Restart, Fits, ToMap, PairsFit, Advance;
    match step
    case Append(term, cmd) => AppendKeeps(n, past, term, cmd);
    case Truncate(from) => TruncateKeeps(n, past, from);
    case Commit(to) => CommitKeeps(n, past, to);
    case Compact(ps) => CompactKeeps(n, past, ps);
    case Fail => FailKeeps(n, past);
    case Recover =>
      RecoverRestores(n, past);
      Running(n, past);
  }

  lemma CommitKeeps(n: Local, past: Past, hi: nat)
    requires Inv(n, past) && n.running
    ensures Inv(Advance(n, hi), past)
  {
  }

  lemma Running(n: Local, past: Past)
    requires Inv(n, past)
    ensures Inv(n.(running := true), past)
  {
  }

  /** In every reachable state the log base is the snapshot index and the stores hold snapshot and log,
      wherever the log is truncated. */
  lemma {:induction false} RunAligned(ns: seq<Local>, pasts: seq<Past>, steps: seq<Step>, i: nat)
    requires IsRun(ns, pasts, steps) && i < |ns|
    ensures Inv(ns[i], pasts[i])
    decreases i
  {
    hide Enabled, Take, PastAfter, Fits;
    if i == 0 {
      NothingYet();
    } else {
      RunAligned(ns, pasts, steps, i - 1);
      TakeKeeps(ns[i - 1], pasts[i - 1], steps[i - 1]);
    }
  }

  lemma NothingYet()
    ensures Inv(FRESH, NO_PAST)
  {
  }

  /** A crash and a restart bring back the map the last snapshot captured, with everything up to its index
      applied and committed, and the whole log. */
  lemma CrashAndRestart(ns: seq<Local>, pasts: seq<Past>, steps: seq<Step>, i: nat)
    requires IsRun(ns, pasts, steps) && i + 1 < |steps| && steps[i] == Fail && steps[i + 1] == Recover
    ensures var before, after := ns[i], ns[i + 2];
            && after.running && after.log == before.log && after.snap == before.snap
            && after.applied == after.commit == before.snap.index == after.log.baseIndex
            && after.kv == pasts[i].captured
  {
    hide TakeSnapshot, Fits, Load, Restart, Crash, SnapOk, LogOk;
    RunAligned(ns, pasts, steps, i);
    RunAligned(ns, pasts, steps, i + 1);
    assert ns[i + 1] == Crash(ns[i]) && ns[i + 2] == Restart(ns[i + 1]) && pasts[i + 1] == pasts[i];
    FailKeeps(ns[i], pasts[i]);
    Crashed(ns[i]);
    RecoverRestores(ns[i + 1], pasts[i + 1]);
  }

  lemma Crashed(n: Local)
    requires StoresOk(n)
    ensures !Crash(n).running
  {
  }

  // ---------------------------------------------------------------- what the map is

  /** Nothing committed is cut and the commit index does not go back. */
  predicate Orderly(n: Local, step: Step) {
    match step
    case Truncate(from) => n.commit < from
    case Commit(to) => n.commit <= to
    case _ => true
  }

  /** The map is the replay of the applied log, and so was the captured one. */
  ghost predicate Replays(n: Local, past: Past) {
    && n.snap.index <= n.applied == n.commit <= |past.full|
    && n.kv == K.Replay(past.full[..n.applied])
    && past.captured == K.Replay(past.full[..n.snap.index])
  }

  lemma {:induction false} ApplyingReplays(log: L.Log, full: seq<LogEntry>, lo: nat, hi: nat)
    requires L.Compacts(log, full) && log.baseIndex <= lo <= hi <= |full|
    ensures Applying(K.Replay(full[..lo]), log, lo, hi) == K.Replay(full[..hi])
    decreases hi - lo
  {
    hide K.Apply;
    if lo < hi {
      assert full[..lo + 1][..lo] == full[..lo];
      ApplyingReplays(log, full, lo + 1, hi);
    }
  }

  lemma SamePrefixes(n: Local, past: Past, past': Past)
    requires Replays(n, past) && past'.captured == past.captured
    requires n.applied <= |past'.full| && past'.full[..n.applied] == past.full[..n.applied]
    ensures past'.full[..n.snap.index] == past.full[..n.snap.index]
  {
    assert past'.full[..n.snap.index] == past'.full[..n.applied][..n.snap.index];
    assert past.full[..n.snap.index] == past.full[..n.applied][..n.snap.index];
  }

  lemma GrowReplays(n: Local, past: Past, step: Step)
    requires Inv(n, past) && Replays(n, past) && Enabled(n, step) && Orderly(n, step) && (step.Append? || step.Truncate?)
    ensures Replays(Take(n, step), PastAfter(past, n, step))
  {
    hide K.Replay, EncodeLog, Load, File;
    var past' := PastAfter(past, n, step);
    assert past'.full[..n.applied] == past.full[..n.applied];
    SamePrefixes(n, past, past');
  }

  lemma CompactReplays(n: Local, past: Past, ps: Pairs)
    requires Inv(n, past) && Replays(n, past)
    ensures Replays(TakeSnapshot(n, ps), PastAfter(past, n, Compact(ps)))
  {
    hide K.Replay, EncodeLog, Load, File, Dump;
    L.QueriesAgree(n.log, past.full);
  }

  lemma StepReplays(n: Local, past: Past, step: Step)
    requires Inv(n, past) && Replays(n, past) && Enabled(n, step) && Fits(n) && Orderly(n, step)
    ensures Replays(Take(n, step), PastAfter(past, n, step))
  {
    hide K.Replay, EncodeLog, Load, File, ToMap, Applying, TakeSnapshot, Fits, PairsFit;
    match step
    case Append(_, _) => GrowReplays(n, past, step);
    case Truncate(_) => GrowReplays(n, past, step);
    case Commit(to) => ApplyingReplays(n.log, past.full, n.applied, to);
    case Compact(ps) => CompactReplays(n, past, ps);
    case Fail => CrashReplays(n, past);
    case Recover => RecoverRestores(n, past);
  }

  lemma CrashReplays(n: Local, past: Past)
    requires Inv(n, past) && Replays(n, past) && StoresOk(n)
    ensures Replays(Crash(n), past)
  {
    hide EncodeLog, Load, File;
    FailKeeps(n, past);
  }

  /** As long as nothing committed is cut, the map is the replay of what has been applied, and what a crash
      and a restart bring back is the replay up to the snapshot. */
  lemma {:induction false} RunReplays(ns: seq<Local>, pasts: seq<Past>, steps: seq<Step>, i: nat)
    requires IsRun(ns, pasts, steps) && i < |ns| && forall k | 0 <= k < |steps| :: Orderly(ns[k], steps[k])
    ensures Replays(ns[i], pasts[i])
    decreases i
  {
    hide Enabled, Take, PastAfter, Fits, Orderly, Inv;
    if i == 0 {
      assert NO_PAST.full[..0] == [];
    } else {
      RunReplays(ns, pasts, steps, i - 1);
      RunAligned(ns, pasts, steps, i - 1);
      StepReplays(ns[i - 1], pasts[i - 1], steps[i - 1]);
    }
  }

  /** Committing further applies every entry up to there, in order, and a snapshot is taken of all that has been
      applied and leaves only what comes after it in the log. */
  lemma Progresses(n: Local, past: Past, hi: nat, ps: Pairs)
    requires Inv(n, past) && Replays(n, past) && n.running && ToMap(ps) == n.kv && PairsFit(ps)
    ensures n.applied <= hi <= |past.full| ==>
              Advance(n, hi).commit == Advance(n, hi).applied == hi && Advance(n, hi).kv == K.Replay(past.full[..hi])
    ensures n.snap.index < n.applied ==>
              var n' := TakeSnapshot(n, ps);
              && n'.snap.index == n'.log.baseIndex == n.applied && n'.log.entries == past.full[n.applied..]
              && Loaded(n'.snap.data) == n'.kv == n.kv && n'.applied == n.applied
  {
    hide EncodeLog, File, ToMap, EncodePairs, LittleEndian, K.Replay, Applying, GetPairs;
    if n.applied <= hi <= |past.full| { ApplyingReplays(n.log, past.full, n.applied, hi); }
    L.QueriesAgree(n.log, past.full);
    DumpRoundTrip(ps);
    if n.snap.index < n.applied { L.DropThenSlice(past.full, n.log.baseIndex, n.applied, |past.full|); }
  }

  // ---------------------------------------------------------------- the code

  lemma {:induction false} EncodeSnoc(ps: Pairs, k: string, v: string)
    ensures EncodePairs(ps + [(k, v)]) == EncodePairs(ps) + (Str(k) + Str(v))
    decreases |ps|
  {
    hide LittleEndian, Chars;
    if ps == [] {
      assert ([] + [(k, v)])[0] == (k, v) && ([] + [(k, v)])[1..] == [];
    } else {
      assert (ps + [(k, v)])[1..] == ps[1..] + [(k, v)];
      EncodeSnoc(ps[1..], k, v);
    }
  }

  predicate MapFits(kv: K.Map) {
    |kv| < TWO32 && forall k | k in kv :: StringFits(k) && StringFits(kv[k])
  }

  /** The keys come in ascending order, each once. */
  ghost predicate Ascending(ps: Pairs) {
    forall i, j | 0 <= i < j < |ps| :: KeyOrder.Less(ps[i].0, ps[j].0)
  }

  /** The number of keys, then each key with its value. */
  method Serialize(kv: K.Map) returns (b: bytes, ghost ps: Pairs)
    ensures ToMap(ps) == kv && Ascending(ps) && b == Dump(ps) && (MapFits(kv) ==> PairsFit(ps))
  {
    hide EncodePairs, MapFits, PairsFit, ToMap, Ascending, Str, U32, Written, KeyOrder.IsLeast;
    var enc := new Encoder();
    enc.PutU32(|kv|);
    ghost var head := enc.buf;
    ps := [];
    Nothing(kv);
    var left := kv.Keys;
    while left != {}
      invariant Written(kv, left, ps)
      invariant enc.buf == head + EncodePairs(ps)
      decreases |left|
    {
      var k := KeyOrder.Least(left);
      OneMore(kv, left, ps, k);
      left := left - {k};
      ghost var before := enc.buf;
      enc.PutStr(k);
      enc.PutStr(kv[k]);
      EncodeSnoc(ps, k, kv[k]);
      Append3(before, head, EncodePairs(ps), Str(k), Str(kv[k]));
      ps := ps + [(k, kv[k])];
    }
    b := enc.buf;
    AllWritten(kv, ps);
  }

  lemma Append3(buf: bytes, head: bytes, a: bytes, b: bytes, c: bytes)
    requires buf == head + a
    ensures buf + b + c == head + (a + (b + c))
  {
  }

  /** `ps` lists the keys of `kv` that are not left. */
  ghost predicate Written(kv: K.Map, left: set<string>, ps: Pairs) {
    && left <= kv.Keys && |ps| + |left| == |kv|
    && ToMap(ps) == kv - left && Ascending(ps)
    && (forall i | 0 <= i < |ps| :: ps[i].0 in kv && kv[ps[i].0] == ps[i].1)
    && forall i, k | 0 <= i < |ps| && k in left :: KeyOrder.Less(ps[i].0, k)
  }

  lemma Nothing(kv: K.Map)
    ensures EncodePairs([]) == [] && Written(kv, kv.Keys, [])
  {
  }

  lemma OneMore(kv: K.Map, left: set<string>, ps: Pairs, k: string)
    requires KeyOrder.IsLeast(k, left) && Written(kv, left, ps)
    ensures k in kv && Written(kv, left - {k}, ps + [(k, kv[k])])
  {
  }

  lemma AllWritten(kv: K.Map, ps: Pairs)
    requires Written(kv, {}, ps)
    ensures ToMap(ps) == kv && Ascending(ps) && |ps| == |kv| && (MapFits(kv) ==> PairsFit(ps))
  {
  }

  /** `None` is the decoder's exception. */
  method Deserialize(b: bytes) returns (r: Option<K.Map>)
    ensures r == match Load(b) case Got(m, _) => Some(m) case Malformed => None
  {
    hide GetStr, GetU32;
    var dec := new Decoder(b);
    var count := dec.TakeU32();
    if count.None? { return None; }
    var m: K.Map := map[];
    ghost var ps: Pairs := [];
    ghost var start := dec.ptr;
    PrependNothing(GetPairs(b, start, count.value));
    var i := 0;
    while i < count.value
      invariant 0 <= i <= count.value && m == ToMap(ps) && |ps| == i
      invariant GetPairs(b, start, count.value) == Prepend(ps, GetPairs(b, dec.ptr, count.value - i))
    {
      ghost var at := dec.ptr;
      var k := dec.TakeStr();
      if k.None? { return None; }
      var v := dec.TakeStr();
      if v.None? { return None; }
      m := m[k.value := v.value];
      PrependMore(ps, (k.value, v.value), GetPairs(b, dec.ptr, count.value - i - 1));
      assert (ps + [(k.value, v.value)])[..|ps|] == ps;
      ps := ps + [(k.value, v.value)];
      i := i + 1;
    }
    assert ps + [] == ps;
    r := Some(m);
  }

  ghost function Prepend(ps: Pairs, rest: Parse<Pairs>): Parse<Pairs> {
    match rest
    case Malformed => Malformed
    case Got(more, next) => Got(ps + more, next)
  }

  lemma PrependNothing(rest: Parse<Pairs>)
    ensures Prepend([], rest) == rest
  {
    if rest.Got? { assert [] + rest.value == rest.value; }
  }

  lemma PrependMore(ps: Pairs, p: (string, string), rest: Parse<Pairs>)
    ensures Prepend(ps, Prepend([p], rest)) == Prepend(ps + [p], rest)
  {
    if rest.Got? { assert ps + ([p] + rest.value) == ps + [p] + rest.value; }
  }

  /** The part of the node that snapshots touch. */
  class SnapshotNode {
    var n: Local

    method ApplyCommitted(to: nat)
      requires n.log.baseIndex <= n.applied && to <= n.log.LastIndex()
      modifies this
      ensures n == Advance(old(n), to)
    {
      n := n.(commit := to);
      while n.applied < n.commit
        invariant old(n.applied) <= n.applied <= L.Max(old(n.applied), to)
        invariant n == old(n).(commit := to, applied := n.applied, kv := n.kv)
        invariant Applying(n.kv, n.log, n.applied, to) == Applying(old(n).kv, n.log, old(n.applied), to)
        decreases n.commit - n.applied
      {
        n := n.(applied := n.applied + 1);
        if n.applied <= n.log.baseIndex { continue; }
        n := n.(kv := K.Apply(n.kv, n.log.At(n.applied).value.cmd).data);
      }
    }

    method Save()
      modifies this
      ensures n == old(n).(snapStore := Rewritten(old(n).snapStore, File(n.snap.index, n.snap.term, n.snap.data)))
    {
      var enc := new Encoder();
      enc.PutU64(n.snap.index);
      enc.PutU64(n.snap.term);
      enc.PutU32(|n.snap.data|);
      enc.buf := enc.buf + n.snap.data;
      Assembled(n.snap, enc.buf);
      n := n.(snapStore := n.snapStore.TruncateTo(0).Append(enc.buf).Flush());
    }

    /** `ok` is false when the entry to snapshot at is missing: the out-of-range exception. */
    method Take() returns (ok: bool, ghost ps: Pairs)
      modifies this
      ensures ToMap(ps) == old(n).kv && Ascending(ps) && (MapFits(old(n).kv) ==> PairsFit(ps))
      ensures n == TakeSnapshot(old(n), ps)
      ensures ok <==> old(n.applied <= n.snap.index || n.log.TermAt(n.applied).Some?)
    {
      hide Rewritten, MapFits, PairsFit, ToMap, Ascending, Dump, EncodeLog, File;
      var b;
      b, ps := Serialize(n.kv);
      if n.applied <= n.snap.index { return true, ps; }
      var term := n.log.TermAt(n.applied);
      if term.None? { return false, ps; }
      n := n.(snap := Saved(n.applied, term.value, b), log := n.log.SetSnapshot(n.applied, term.value));
      Save();
      n := n.(logStore := Rewritten(n.logStore, EncodeLog(n.log)));
      ok := true;
    }

    method CrashNode()
      requires StoresOk(n)
      modifies this
      ensures n == Crash(old(n))
    {
      n := n.(running := false, snapStore := n.snapStore.Crash(), logStore := n.logStore.Crash(),
              commit := n.snap.index, applied := n.snap.index, kv := map[]);
      if n.snap.data != [] {
        var m := Deserialize(n.snap.data);
        if m.Some? { n := n.(kv := m.value); }
      }
    }

    method LoadSaved()
      requires StoresOk(n)
      modifies this
      ensures n == LoadSnapshot(old(n))
    {
      var raw := n.snapStore.Durable();
      if raw == [] { return; }
      var file := GetFile(raw);
      if file.Malformed? { return; }
      n := n.(snap := file.value, kv := map[]);
      var m := Deserialize(n.snap.data);
      if m.Some? { n := n.(kv := m.value); }
      n := n.(commit := n.snap.index, applied := n.snap.index, log := n.log.SetSnapshot(n.snap.index, n.snap.term));
    }

    method RestartNode()
      requires StoresOk(n)
      modifies this
      ensures n == Restart(old(n))
    {
      n := n.(running := true, log := L.EMPTY, kv := map[]);
      LoadSaved();
      var raw := n.logStore.Durable();
      if raw == [] { return; }
      var log := DecodeLog(raw);
      if log.Got? { n := n.(log := log.value); }
    }
  }

  lemma Assembled(snap: Saved, b: bytes)
    requires b == [] + U64(snap.index) + U64(snap.term) + U32(|snap.data|) + snap.data
    ensures b == File(snap.index, snap.term, snap.data)
  {
  }
}
