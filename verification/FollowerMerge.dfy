/**
  What a follower does to its log with an accepted AppendEntries (src/raft/node.cpp, the loop of
  handle_append_entries), for any compacted log and any contiguous entries.
*/
module FollowerMerge {
  import opened RaftTypes
  import opened CompactedLog
  import N = RaftNode

  /** The entries continue the log after index `prev`. */
  predicate Contiguous(entries: seq<LogEntry>, prev: nat) {
    forall k | 0 <= k < |entries| :: entries[k].index == prev + 1 + k
  }

  /** The log already has this entry: it is compacted away, or the term at its index is the same. */
  predicate Has(l: Log, e: LogEntry) {
    e.index <= l.baseIndex || (l.At(e.index).Some? && l.At(e.index).value.term == e.term)
  }

  /** How many leading entries the log already has. */
  function Known(l: Log, entries: seq<LogEntry>): (m: nat)
    ensures m <= |entries|
    ensures forall k | 0 <= k < m :: Has(l, entries[k])
    ensures m < |entries| ==> !Has(l, entries[m])
  {
    if entries == [] || !Has(l, entries[0]) then 0
    else
      var m := Known(l, entries[1..]);
      assert forall k | 0 < k <= m :: entries[k] == entries[1..][k - 1];
      m + 1
  }

  lemma {:induction false} MergeTail(l: Log, prev: nat, entries: seq<LogEntry>)
    requires Contiguous(entries, prev) && prev == l.LastIndex()
    ensures N.MergeEntries(l, entries) == l.(entries := l.entries + entries)
    decreases |entries|
  {
    if entries != [] {
      MergeTail(l.Append(entries[0]), prev + 1, entries[1..]);
      assert l.entries + [entries[0]] + entries[1..] == l.entries + entries;
    } else {
      assert l.entries + entries == l.entries;
    }
  }

  lemma Skipped(l: Log, e: LogEntry)
    requires Has(l, e)
    ensures e.index <= l.LastIndex() && N.MergeOne(l, e) == l
  {
  }

  lemma CutAndAppend(l: Log, e: LogEntry)
    requires 0 < e.index <= l.LastIndex() + 1 && !Has(l, e)
    ensures l.baseIndex < e.index
    ensures N.MergeOne(l, e) == l.(entries := l.entries[..e.index - 1 - l.baseIndex] + [e])
  {
    if e.index == l.LastIndex() + 1 { assert l.entries[..e.index - 1 - l.baseIndex] == l.entries; }
  }

  /** The first entry is new: the log is cut there and the entries follow. */
  lemma MergeFrom(l: Log, prev: nat, entries: seq<LogEntry>)
    requires Contiguous(entries, prev) && prev <= l.LastIndex() && entries != [] && !Has(l, entries[0])
    ensures l.baseIndex <= prev
    ensures N.MergeEntries(l, entries) == l.(entries := l.entries[..prev - l.baseIndex] + entries)
  {
    hide N.MergeOne, Has;
    var e, rest := entries[0], entries[1..];
    CutAndAppend(l, e);
    MergeTail(N.MergeOne(l, e), prev + 1, rest);
    assert l.entries[..prev - l.baseIndex] + [e] + rest == l.entries[..prev - l.baseIndex] + entries;
  }

  /** The outcome in closed form: nothing changes if everything is known; otherwise the log is kept up
      to the first unknown entry, and from there on it is what was received. */
  lemma {:induction false} MergeOutcome(l: Log, prev: nat, entries: seq<LogEntry>)
    requires Contiguous(entries, prev) && prev <= l.LastIndex()
    ensures var m := Known(l, entries);
            && (m < |entries| ==> l.baseIndex <= prev + m <= l.LastIndex())
            && N.MergeEntries(l, entries) ==
               if m == |entries| then l
               else l.(entries := l.entries[..prev + m - l.baseIndex] + entries[m..])
    decreases |entries|
  {
    hide Has, N.MergeOne;
    if entries != [] {
      var e, rest := entries[0], entries[1..];
      if Has(l, e) {
        Skipped(l, e);
        MergeOutcome(l, prev + 1, rest);
        assert entries[Known(l, entries)..] == rest[Known(l, rest)..];
      } else {
        MergeFrom(l, prev, entries);
        assert entries[0..] == entries;
      }
    }
  }

  lemma AtSplit(l: Log, kept: seq<LogEntry>, more: seq<LogEntry>, i: nat)
    requires l.entries == kept + more && l.baseIndex < i <= l.LastIndex()
    ensures l.At(i) == Some(if i <= l.baseIndex + |kept| then kept[i - l.baseIndex - 1] else more[i - l.baseIndex - 1 - |kept|])
  {
  }

  /** An accepted request leaves the log agreeing with it through its last entry. */
  lemma AgreesAfterwards(l: Log, prev: nat, entries: seq<LogEntry>, k: nat)
    requires Contiguous(entries, prev) && prev <= l.LastIndex() && k < |entries| && entries[k].index > l.baseIndex
    ensures var r, e := N.MergeEntries(l, entries), entries[k];
            && r.baseIndex == l.baseIndex && r.baseTerm == l.baseTerm
            && r.At(e.index).Some? && r.At(e.index).value.term == e.term
            && (k >= Known(l, entries) ==> r.At(e.index).value == e)
  {
    hide N.MergeEntries, Log.At;
    MergeOutcome(l, prev, entries);
    var r, m, i := N.MergeEntries(l, entries), Known(l, entries), entries[k].index;
    if m < |entries| {
      var n := prev + m - l.baseIndex;
      AtSplit(r, l.entries[..n], entries[m..], i);
      if k < m { AtSplit(l, l.entries[..n], l.entries[n..], i); }
    }
  }

  /** Everything before the first entry the follower did not have is kept. */
  lemma KeepsKnown(l: Log, prev: nat, entries: seq<LogEntry>, i: nat)
    requires Contiguous(entries, prev) && prev <= l.LastIndex()
    requires l.baseIndex < i <= l.LastIndex() && (Known(l, entries) < |entries| ==> i <= prev + Known(l, entries))
    ensures N.MergeEntries(l, entries).At(i) == l.At(i)
  {
    hide N.MergeEntries;
    MergeOutcome(l, prev, entries);
  }

  /** An entry is replaced or dropped only if at or before it a received entry has another term than the
      one the log had there. */
  lemma ChangesOnlyAtConflict(l: Log, prev: nat, entries: seq<LogEntry>, i: nat) returns (k: nat)
    requires Contiguous(entries, prev) && prev <= l.LastIndex()
    requires l.baseIndex < i <= l.LastIndex() && N.MergeEntries(l, entries).At(i) != l.At(i)
    ensures k < |entries| && entries[k].index <= i
    ensures l.At(entries[k].index).Some? && l.At(entries[k].index).value.term != entries[k].term
  {
    hide N.MergeEntries;
    MergeOutcome(l, prev, entries);
    k := Known(l, entries);
    if k == |entries| || i <= prev + k { KeepsKnown(l, prev, entries, i); }
  }

  /** A later request that carries nothing new changes nothing: it reaches back to entries the log had
      before the first one, and no further than the first one did. */
  lemma StaleIsHarmless(l: Log, prev: nat, entries: seq<LogEntry>, prev': nat, entries': seq<LogEntry>)
    requires Contiguous(entries, prev) && prev <= l.LastIndex() && Contiguous(entries', prev')
    requires prev' + |entries'| <= prev + |entries|
    requires forall k | 0 <= k < |entries'| ::
               if entries'[k].index <= prev then Has(l, entries'[k]) else entries'[k] == entries[prev' + k - prev]
    ensures var r := N.MergeEntries(l, entries); N.MergeEntries(r, entries') == r
  {
    hide N.MergeEntries, Known;
    var r := N.MergeEntries(l, entries);
    forall k | 0 <= k < |entries'| ensures Has(r, entries'[k]) {
      var e := entries'[k];
      SameBase(l, prev, entries);
      if e.index <= prev {
        if e.index > l.baseIndex { KeepsKnown(l, prev, entries, e.index); }
        StillHas(l, r, e);
      } else if e.index > l.baseIndex {
        AgreesAfterwards(l, prev, entries, prev' + k - prev);
      }
    }
    AllKnown(r, entries');
  }

  lemma {:induction false} AllKnown(l: Log, entries: seq<LogEntry>)
    requires forall k | 0 <= k < |entries| :: Has(l, entries[k])
    ensures N.MergeEntries(l, entries) == l
    decreases |entries|
  {
    hide Has, N.MergeOne;
    if entries != [] {
      Skipped(l, entries[0]);
      AllKnown(l, entries[1..]);
    }
  }

  lemma SameBase(l: Log, prev: nat, entries: seq<LogEntry>)
    requires Contiguous(entries, prev) && prev <= l.LastIndex()
    ensures N.MergeEntries(l, entries).baseIndex == l.baseIndex
  {
    MergeOutcome(l, prev, entries);
  }

  lemma StillHas(l: Log, r: Log, e: LogEntry)
    requires r.baseIndex == l.baseIndex && Has(l, e) && (e.index > l.baseIndex ==> r.At(e.index) == l.At(e.index))
    ensures Has(r, e)
  {
  }

  /** Delivering the same request again changes nothing. */
  lemma RedeliveryIsHarmless(l: Log, prev: nat, entries: seq<LogEntry>)
    requires Contiguous(entries, prev) && prev <= l.LastIndex()
    ensures N.MergeEntries(N.MergeEntries(l, entries), entries) == N.MergeEntries(l, entries)
  {
    StaleIsHarmless(l, prev, entries, prev, entries);
  }

  /** What a refusal tells the leader: where the log ends, or the last index of the term that does not
      match, which is never before the index asked about. */
  lemma RefusalHint(n: N.Node, full: seq<LogEntry>, term: nat, m: Message)
    requires Compacts(n.log, full) && m.AppendEntries? && !n.log.Contains(m.prevIndex, m.prevTerm)
    ensures var r := N.ConflictReply(n, term, m);
            && r.AppendEntriesReply? && r.term == term && !r.success && m.prevIndex > 0
            && if m.prevIndex > |full| then r.conflictIndex == |full| + 1 && r.conflictTerm == 0
               else if m.prevIndex <= n.log.baseIndex then r.conflictIndex == n.log.baseIndex + 1 && r.conflictTerm == 0
               else
                 && r.conflictTerm == full[m.prevIndex - 1].term != m.prevTerm
                 && m.prevIndex <= r.conflictIndex <= |full|
                 && IsLastOfTerm(full, n.log.baseIndex, r.conflictTerm, r.conflictIndex)
  {
    hide Log.SearchBack;
    if n.log.baseIndex < m.prevIndex <= |full| {
      SearchBackFinds(n.log, full, full[m.prevIndex - 1].term, |n.log.entries|);
    }
  }
}
