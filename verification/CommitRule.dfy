/**
  The commit rule and the application of committed entries (src/raft/node.cpp:550-597), for any
  compacted log.
*/
module CommitRule {
  import opened RaftTypes
  import L = CompactedLog
  import K = KvStore
  import N = RaftNode

  /** The downward search finds the highest committable index above the commit index, or there is none. */
  lemma {:induction false} CommitPointIsHighest(n: N.Node, hi: nat)
    ensures match N.CommitPoint(n, hi)
            case None => forall k | L.Max(n.commitIndex, n.log.baseIndex) < k <= hi :: !N.Commits(n, k)
            case Some(k) => L.Max(n.commitIndex, n.log.baseIndex) < k <= hi && N.Commits(n, k)
                            && forall j | k < j <= hi :: !N.Commits(n, j)
    decreases hi
  {
    hide N.Commits;
    if L.Max(n.commitIndex, n.log.baseIndex) < hi && !N.Commits(n, hi) {
      CommitPointIsHighest(n, hi - 1);
    }
  }

  /** Applying leaves the map as the replay of the whole log up to the commit index, and nothing else changed. */
  lemma {:induction false} AppliesInOrder(n: N.Node, full: seq<LogEntry>)
    requires L.Compacts(n.log, full) && n.log.baseIndex <= n.lastApplied <= n.commitIndex <= |full|
    requires n.kv == K.Replay(full[..n.lastApplied])
    ensures N.ApplyCommitted(n) == n.(lastApplied := n.commitIndex, kv := K.Replay(full[..n.commitIndex]))
    decreases n.commitIndex - n.lastApplied
  {
    hide K.Apply;
    if n.lastApplied < n.commitIndex {
      var k := n.lastApplied;
      assert full[..k + 1][..k] == full[..k];
      AppliesInOrder(n.(lastApplied := k + 1, kv := K.Apply(n.kv, full[k].cmd).data), full);
    }
  }

  /** A leader that advances does so to the highest index it may, and has then applied all of it. */
  lemma AdvanceCommits(n: N.Node, full: seq<LogEntry>)
    requires L.Compacts(n.log, full) && n.log.baseIndex <= n.lastApplied <= n.commitIndex <= |full|
    requires n.kv == K.Replay(full[..n.lastApplied])
    ensures var m := N.MaybeAdvanceCommit(n);
            if m.commitIndex == n.commitIndex then
              m == n && forall k | n.commitIndex < k <= |full| :: !N.Commits(n, k)
            else
              && n.commitIndex < m.commitIndex <= |full| && N.Commits(n, m.commitIndex)
              && (forall k | m.commitIndex < k <= |full| :: !N.Commits(n, k))
              && full[m.commitIndex - 1].term == n.term
              && m.lastApplied == m.commitIndex && m.kv == K.Replay(full[..m.commitIndex])
  {
    hide N.ApplyCommitted, N.CommitPoint, K.Replay, N.Matched;
    CommitPointIsHighest(n, n.log.LastIndex());
    var k := N.CommitPoint(n, n.log.LastIndex());
    if k.Some? { AppliesInOrder(n.(commitIndex := k.value), full); }
  }
}
