/**
  The Raft log container: entries with a compaction offset (src/raft/log.cpp).
  `Log` is its value, with one function per operation; `RaftLog` is the object
  that updates itself in place; the lemmas relate both to a plain, uncompacted
  1-based log.
*/
module CompactedLog {
  import opened RaftTypes

  function Min(a: nat, b: nat): nat { if a < b then a else b }
  function Max(a: nat, b: nat): nat { if a < b then b else a }

  datatype Log = Log(baseIndex: nat, baseTerm: nat, entries: seq<LogEntry>) {

    function LastIndex(): nat { baseIndex + |entries| }

    function LastTerm(): nat { if entries == [] then baseTerm else entries[|entries| - 1].term }

    function Append(e: LogEntry): Log { this.(entries := entries + [e]) }

    /** Drop everything from `from` on; the compacted region cannot be touched. */
    function TruncateFrom(from: nat): Log {
      if from <= baseIndex || from > LastIndex() then this
      else this.(entries := entries[..from - baseIndex - 1])
    }

    function SetSnapshot(index: nat, term: nat): Log {
      if index <= baseIndex then this
      else Log(index, term, if index >= LastIndex() then [] else entries[index - baseIndex..])
    }

    /** `None` is the out-of-range exception. */
    function At(i: nat): Option<LogEntry> {
      if i <= baseIndex || i > LastIndex() then None else Some(entries[i - baseIndex - 1])
    }

    function TermAt(i: nat): Option<nat> {
      if i == baseIndex then Some(baseTerm)
      else match At(i) case None => None case Some(e) => Some(e.term)
    }

    predicate Contains(index: nat, term: nat) {
      if index == 0 then true
      else if index == baseIndex then term == baseTerm
      else if index < baseIndex || index > LastIndex() then false
      else entries[index - baseIndex - 1].term == term
    }

    /** The entries in (lo, hi], clamped to what is available. */
    function Slice(lo: nat, hi: nat): seq<LogEntry> {
      if lo >= hi then []
      else
        var start, end := Max(lo + 1, baseIndex + 1), Min(hi, LastIndex());
        if start > end then [] else entries[start - baseIndex - 1..end - baseIndex]
    }

    function LastIndexForTerm(term: nat): nat {
      SearchBack(term, |entries|)
    }

    /** Search the first `n` entries from the back, then the snapshot boundary. */
    function SearchBack(term: nat, n: nat): nat
      requires n <= |entries|
    {
      if n == 0 then (if baseIndex > 0 && baseTerm == term then baseIndex else 0)
      else if entries[n - 1].term == term then entries[n - 1].index
      else SearchBack(term, n - 1)
    }
  }

  const EMPTY := Log(0, 0, [])

  /** The log as an object whose fields change in place. */
  class RaftLog {
    var entries: seq<LogEntry>
    var baseIndex: nat
    var baseTerm: nat

    ghost function Value(): Log
      reads this
    {
      Log(baseIndex, baseTerm, entries)
    }

    constructor ()
      ensures Value() == EMPTY
    {
      entries, baseIndex, baseTerm := [], 0, 0;
    }

    method Append(e: LogEntry)
      requires e.index == Value().LastIndex() + 1
      modifies this
      ensures Value() == old(Value()).Append(e)
    {
      entries := entries + [e];
    }

    method TruncateFrom(from: nat)
      modifies this
      ensures Value() == old(Value()).TruncateFrom(from)
    {
      if from <= baseIndex { return; }
      if from > baseIndex + |entries| { return; }
      entries := entries[..from - baseIndex - 1];
    }

    method SetSnapshot(index: nat, term: nat)
      modifies this
      ensures Value() == old(Value()).SetSnapshot(index, term)
    {
      if index <= baseIndex { return; }
      if index >= baseIndex + |entries| {
        entries := [];
      } else {
        entries := entries[index - baseIndex..];
      }
      baseIndex, baseTerm := index, term;
    }

    method LastIndexForTerm(term: nat) returns (index: nat)
      ensures index == Value().LastIndexForTerm(term)
    {
      var n: nat := |entries|;
      while n > 0
        invariant n <= |entries|
        invariant Value().LastIndexForTerm(term) == Value().SearchBack(term, n)
      {
        if entries[n - 1].term == term { return entries[n - 1].index; }
        n := n - 1;
      }
      if baseIndex > 0 && baseTerm == term { return baseIndex; }
      return 0;
    }
  }

  // ---------------------------------------------------------------- the plain log it stands for

  /** `full` is the log `l` would be had nothing been compacted. */
  ghost predicate Compacts(l: Log, full: seq<LogEntry>) {
    && l.baseIndex <= |full|
    && l.entries == full[l.baseIndex..]
    && l.baseTerm == PlainTerm(full, l.baseIndex)
    && forall k | 0 <= k < |full| :: full[k].index == k + 1
  }

  /** The term at a 1-based index of a plain log; 0 at the sentinel. */
  ghost function PlainTerm(full: seq<LogEntry>, i: nat): nat
    requires i <= |full|
  {
    if i == 0 then 0 else full[i - 1].term
  }

  datatype Op = AppendOp(term: nat, cmd: Command) | TruncateOp(from: nat) | SnapshotOp(index: nat)

  /** What an operation does to the compacted log; a snapshot carries the term found at its index. */
  function Apply(l: Log, op: Op): Log {
    match op
    case AppendOp(term, cmd) => l.Append(LogEntry(term, l.LastIndex() + 1, cmd))
    case TruncateOp(from) => l.TruncateFrom(from)
    case SnapshotOp(index) =>
      match l.TermAt(index)
      case None => l // no such entry to snapshot at
      case Some(term) => l.SetSnapshot(index, term)
  }

  /** The same operation on the plain log: compaction is invisible, and a truncation inside the
      compacted region is refused. */
  function ApplyPlain(full: seq<LogEntry>, base: nat, op: Op): seq<LogEntry> {
    match op
    case AppendOp(term, cmd) => full + [LogEntry(term, |full| + 1, cmd)]
    case TruncateOp(from) => if base < from <= |full| then full[..from - 1] else full
    case SnapshotOp(_) => full
  }

  function Run(ops: seq<Op>): Log {
    if ops == [] then EMPTY else Apply(Run(ops[..|ops| - 1]), ops[|ops| - 1])
  }

  function RunPlain(ops: seq<Op>): seq<LogEntry> {
    if ops == [] then []
    else ApplyPlain(RunPlain(ops[..|ops| - 1]), Run(ops[..|ops| - 1]).baseIndex, ops[|ops| - 1])
  }

  /** After any sequence of operations the compacted log stands for the plain one. */
  lemma {:induction false} RunCompacts(ops: seq<Op>)
    ensures Compacts(Run(ops), RunPlain(ops))
  {
    if ops != [] {
      RunCompacts(ops[..|ops| - 1]);
      ApplyCompacts(Run(ops[..|ops| - 1]), RunPlain(ops[..|ops| - 1]), ops[|ops| - 1]);
    }
  }

  lemma ApplyCompacts(l: Log, full: seq<LogEntry>, op: Op)
    requires Compacts(l, full)
    ensures Compacts(Apply(l, op), ApplyPlain(full, l.baseIndex, op))
  {
  }

  /** The greatest index in [max(base, 1), |full|] whose entry has `term`, or 0. */
  ghost predicate IsLastOfTerm(full: seq<LogEntry>, base: nat, term: nat, i: nat) {
    && (i > 0 ==> base <= i <= |full| && full[i - 1].term == term)
    && forall k | Max(base, 1) - 1 <= k < |full| && full[k].term == term :: k + 1 <= i
  }

  lemma {:induction false} SearchBackFinds(l: Log, full: seq<LogEntry>, term: nat, n: nat)
    requires Compacts(l, full) && n <= |l.entries|
    requires forall k | l.baseIndex + n <= k < |full| :: full[k].term != term
    ensures IsLastOfTerm(full, l.baseIndex, term, l.SearchBack(term, n))
  {
    if n > 0 && l.entries[n - 1].term != term {
      SearchBackFinds(l, full, term, n - 1);
    }
  }

  /** Every query on the compacted log gives the plain log's answer wherever it is not compacted away. */
  lemma QueriesAgree(l: Log, full: seq<LogEntry>)
    requires Compacts(l, full)
    ensures l.LastIndex() == |full| && l.LastTerm() == PlainTerm(full, |full|)
    ensures forall i: nat ::
      l.At(i) == if l.baseIndex < i <= |full| then Some(full[i - 1]) else None
    ensures forall i: nat ::
      l.TermAt(i) == if l.baseIndex <= i <= |full| then Some(PlainTerm(full, i)) else None
    ensures forall i: nat, t: nat ::
      l.Contains(i, t) <==> i == 0 || (l.baseIndex <= i <= |full| && PlainTerm(full, i) == t)
    ensures forall lo: nat, hi: nat ::
      l.Slice(lo, hi) == if Max(lo, l.baseIndex) < Min(hi, |full|)
                         then full[Max(lo, l.baseIndex)..Min(hi, |full|)] else []
    ensures forall t: nat :: IsLastOfTerm(full, l.baseIndex, t, l.LastIndexForTerm(t))
  {
    forall t: nat ensures IsLastOfTerm(full, l.baseIndex, t, l.LastIndexForTerm(t)) {
      SearchBackFinds(l, full, t, |l.entries|);
    }
    forall lo: nat, hi: nat
      ensures l.Slice(lo, hi) == if Max(lo, l.baseIndex) < Min(hi, |full|)
                                 then full[Max(lo, l.baseIndex)..Min(hi, |full|)] else []
    {
      SliceAgrees(l, full, lo, hi);
    }
  }

  lemma SliceAgrees(l: Log, full: seq<LogEntry>, lo: nat, hi: nat)
    requires Compacts(l, full)
    ensures l.Slice(lo, hi) == if Max(lo, l.baseIndex) < Min(hi, |full|)
                               then full[Max(lo, l.baseIndex)..Min(hi, |full|)] else []
  {
    var a, b := Max(lo, l.baseIndex), Min(hi, |full|);
    if a < b {
      assert l.Slice(lo, hi) == l.entries[a - l.baseIndex..b - l.baseIndex];
      DropThenSlice(full, l.baseIndex, a, b);
    }
  }

  lemma DropThenSlice<T>(s: seq<T>, base: nat, a: nat, b: nat)
    requires base <= a <= b <= |s|
    ensures s[base..][a - base..b - base] == s[a..b]
  {
  }
}
