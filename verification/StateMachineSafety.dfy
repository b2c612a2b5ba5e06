/**
  State Machine Safety for every node (section 5.4.3 of the extended Raft paper), with the two conditions
  under which this code has it: success replies are credited with what was stored (src/raft/node.cpp:307),
  and a follower has, at the index it commits, the term its leader had there (src/raft/node.cpp:292).  The
  second is exact for runs that meet the first.
*/
module StateMachineSafety {
  import opened RaftTypes
  import opened RaftProtocol
  import opened RaftSafety
  import opened RaftCluster
  import opened StepEffects
  import opened RaftTheorems
  import opened CommitSafety
  import CommitRule
  import N = RaftNode
  import L = CompactedLog
  import K = KvStore

  /** Step `k` makes a follower commit, on a request that it accepts. */
  predicate FollowerCommits(run: seq<Cluster>, steps: seq<Step>, k: nat)
    requires k < |steps| && k < |run|
  {
    && steps[k].Deliver? && steps[k].packet.to in run[k].nodes
    && Accepts(run[k].nodes[steps[k].packet.to], steps[k])
    && steps[k].packet.msg.leaderCommit > run[k].nodes[steps[k].packet.to].commitIndex
  }

  /** The log the follower then has, and the index it commits (line 292). */
  function MergedLog(run: seq<Cluster>, steps: seq<Step>, k: nat): seq<LogEntry>
    requires k < |steps| && k < |run| && FollowerCommits(run, steps, k)
  {
    Merge(run[k].nodes[steps[k].packet.to].log.entries, steps[k].packet.msg.entries)
  }

  function CommitOf(run: seq<Cluster>, steps: seq<Step>, k: nat): nat
    requires k < |steps| && k < |run| && FollowerCommits(run, steps, k)
  {
    L.Min(steps[k].packet.msg.leaderCommit, |MergedLog(run, steps, k)|)
  }

  /** State `b` has the sender leading its term, with the term of the log `log` at index `c`. */
  predicate SameTermAt(run: seq<Cluster>, b: nat, p: Packet, log: seq<LogEntry>, c: nat)
    requires 0 < c <= |log| && p.msg.AppendEntries?
  {
    LeadsAt(run, b, p.from, p.msg.term) && c <= |LogAt(run, b, p.from)| && LogAt(run, b, p.from)[c - 1].term == log[c - 1].term
  }

  /** If step `k` makes a follower commit, its log has at the committed index the term that the sender had
      there as leader. */
  ghost predicate Matches(run: seq<Cluster>, steps: seq<Step>, k: nat)
    requires k < |steps| && k < |run|
  {
    FollowerCommits(run, steps, k) && CommitOf(run, steps, k) > 0 ==>
      exists b: nat :: b <= k && SameTermAt(run, b, steps[k].packet, MergedLog(run, steps, k), CommitOf(run, steps, k))
  }

  ghost predicate AllMatch(run: seq<Cluster>, steps: seq<Step>) {
    |steps| <= |run| && forall k | 0 <= k < |steps| :: Matches(run, steps, k)
  }

  /** What the node has applied is what it has committed of its log, and its map is the replay of it. */
  predicate InOrderNode(n: N.Node) {
    n.lastApplied == n.commitIndex <= |n.log.entries| && n.kv == K.Replay(n.log.entries[..n.lastApplied])
  }

  ghost predicate Agree(n: N.Node, m: N.Node)
    requires InOrderNode(n) && InOrderNode(m)
  {
    var x, y := n.log.entries[..n.lastApplied], m.log.entries[..m.lastApplied];
    IsPrefix(x, y) || IsPrefix(y, x)
  }

  /** State Machine Safety: what any two nodes have applied, at any two moments, agrees. */
  ghost predicate AppliedAgree(run: seq<Cluster>) {
    && (forall a, i | 0 <= a < |run| && i in run[a].nodes :: InOrderNode(run[a].nodes[i]))
    && forall a, i, b, j | 0 <= a < |run| && i in run[a].nodes && 0 <= b < |run| && j in run[b].nodes ::
         Agree(run[a].nodes[i], run[b].nodes[j])
  }

  // ---------------------------------------------------------------- durable prefixes

  /** The prefix is part of what a majority stored of the log of some leader, of a term up to `bound`. */
  ghost predicate Durable(members: set<NodeId>, h: History, prefix: seq<LogEntry>, bound: nat) {
    prefix == [] || exists t: nat, k: nat, q :: IsDurable(members, h, prefix, bound, t, k, q)
  }

  ghost predicate IsDurable(members: set<NodeId>, h: History, prefix: seq<LogEntry>, bound: nat, t: nat, k: nat, q: set<NodeId>) {
    && t <= bound && StoredByMajority(members, h, t, k, q)
    && |prefix| <= k && t in h.leaderLog && IsPrefix(prefix, h.leaderLog[t])
  }

  lemma DurablePart(members: set<NodeId>, h: History, prefix: seq<LogEntry>, part: seq<LogEntry>, bound: nat, bound': nat)
    requires Durable(members, h, prefix, bound) && IsPrefix(part, prefix) && bound <= bound'
    ensures Durable(members, h, part, bound')
  {
    hide StoredByMajority;
    if part != [] {
      var t: nat, k: nat, q :| IsDurable(members, h, prefix, bound, t, k, q);
      assert IsDurable(members, h, part, bound', t, k, q);
    }
  }

  /** `h` is the history of the whole run. */
  ghost predicate Recorded(members: set<NodeId>, run: seq<Cluster>, hs: seq<History>, h: History) {
    IsHistoryOf(members, run, hs) && |run| == |hs| > 0 && h == hs[|run| - 1]
  }

  lemma Last(members: set<NodeId>, run: seq<Cluster>, hs: seq<History>) returns (h: History)
    requires IsHistoryOf(members, run, hs) && |run| > 0
    ensures Recorded(members, run, hs, h)
  {
    h := hs[|run| - 1];
  }

  /** A leader of a term at or after the bound has a durable prefix in its log. */
  lemma DurableInLeader(members: set<NodeId>, run: seq<Cluster>, hs: seq<History>, h: History, prefix: seq<LogEntry>, bound: nat, u: nat)
    requires Recorded(members, run, hs, h) && bound <= u && u in h.elections
    requires Durable(members, h, prefix, bound)
    ensures u in h.leaderLog && IsPrefix(prefix, h.leaderLog[u])
  {
    hide ClusterInv, StoredByMajority;
    ElectedWith(members, run, hs, |run| - 1, u);
    if prefix != [] {
      var t: nat, k: nat, q :| IsDurable(members, h, prefix, bound, t, k, q);
      if t < u {
        LaterLeadersHold(members, run, hs, t, k, q, u);
        assert IsPrefix(prefix, h.leaderLog[t][..k]);
      }
    }
  }

  /** Two durable prefixes are comparable. */
  lemma DurableAgree(members: set<NodeId>, run: seq<Cluster>, hs: seq<History>, h: History, x: seq<LogEntry>, y: seq<LogEntry>, bx: nat, by_: nat)
    requires Recorded(members, run, hs, h)
    requires Durable(members, h, x, bx) && Durable(members, h, y, by_)
    ensures IsPrefix(x, y) || IsPrefix(y, x)
  {
    hide IsHistoryOf, StoredByMajority;
    if x != [] && y != [] {
      var t: nat, k: nat, q :| IsDurable(members, h, x, bx, t, k, q);
      var u: nat, m: nat, r :| IsDurable(members, h, y, by_, u, m, r);
      assert IsDurable(members, h, x, t, t, k, q) && IsDurable(members, h, y, u, u, m, r);
      SameKeys(members, run, hs, h);
      if t <= u { DurableInLeader(members, run, hs, h, x, t, u); } else { DurableInLeader(members, run, hs, h, y, u, t); }
    }
  }

  lemma SameKeys(members: set<NodeId>, run: seq<Cluster>, hs: seq<History>, h: History)
    requires Recorded(members, run, hs, h)
    ensures h.elections.Keys == h.leaderLog.Keys
  {
    assert ClusterInv(members, run[|run| - 1], h);
  }

  // ---------------------------------------------------------------- what every state keeps

  /** What the node has applied is durable, and its map is the replay of it. */
  ghost predicate SafeNode(members: set<NodeId>, h: History, n: N.Node) {
    && n.lastApplied == n.commitIndex <= |n.log.entries|
    && Durable(members, h, n.log.entries[..n.commitIndex], n.term)
    && n.kv == K.Replay(n.log.entries[..n.commitIndex])
    && (!n.running ==> n.commitIndex == 0)
  }

  /** The commit index a leader sends covers a durable prefix of its log. */
  ghost predicate SafePacket(members: set<NodeId>, h: History, p: Packet) {
    p.msg.AppendEntries? ==>
      && p.msg.term in h.leaderLog && p.msg.leaderCommit <= |h.leaderLog[p.msg.term]|
      && Durable(members, h, h.leaderLog[p.msg.term][..p.msg.leaderCommit], p.msg.term)
      && (|p.msg.entries| != N.MAX_ENTRIES_PER_AE ==> p.msg.leaderCommit <= p.msg.prevIndex + |p.msg.entries|)
  }

  ghost predicate SafeState(members: set<NodeId>, h: History, c: Cluster) {
    && (forall i | i in c.nodes :: SafeNode(members, h, c.nodes[i]))
    && (forall p | p in c.net :: SafePacket(members, h, p))
  }

  lemma StillSafe(members: set<NodeId>, h: History, n: N.Node, n': N.Node)
    requires SafeNode(members, h, n) && Still(n, n')
    ensures SafeNode(members, h, n')
  {
    hide Durable;
    assert n'.log.entries[..n.commitIndex] == n.log.entries[..n.commitIndex];
    DurablePart(members, h, n.log.entries[..n.commitIndex], n'.log.entries[..n.commitIndex], n.term, n'.term);
  }

  lemma RestartSafe(members: set<NodeId>, h: History, n: N.Node)
    requires SafeNode(members, h, n)
    ensures SafeNode(members, h, N.Crash(n))
    ensures !n.running && n.disk == N.Disk(n.term, n.votedFor, n.log) ==> SafeNode(members, h, N.Restart(n))
  {
    assert n.log.entries[..0] == [];
  }

  /** A leader that commits has a majority behind it. */
  lemma AdvanceSafe(members: set<NodeId>, run: seq<Cluster>, hs: seq<History>, h: History, a: nat, i: NodeId, m: N.Node)
    requires Recorded(members, run, hs, h) && a < |run| && i in run[a].nodes && Backed(members, run, a)
    requires SafeNode(members, h, m) && m.running && m.role == Leader && run[a].nodes[i] == N.MaybeAdvanceCommit(m)
    ensures SafeNode(members, h, run[a].nodes[i])
  {
    hide IsHistoryOf, Backed, N.MaybeAdvanceCommit, N.Commits, K.Replay, Durable;
    var n' := run[a].nodes[i];
    MaybeAdvanceOnly(m);
    PlainLog(members, run, hs, h, a, i);
    CommitRule.AdvanceCommits(m, m.log.entries);
    if n'.commitIndex != m.commitIndex {
      SameGuard(m, n', n'.commitIndex);
      var q, at := CommitHasMajority(members, run, hs, a, i, n'.term, n'.commitIndex);
      MajorityIsDurable(members, run, hs, h, a, i, n'.commitIndex, q, at);
    }
  }

  lemma PlainLog(members: set<NodeId>, run: seq<Cluster>, hs: seq<History>, h: History, a: nat, i: NodeId)
    requires Recorded(members, run, hs, h) && a < |run| && i in run[a].nodes
    ensures L.Compacts(run[a].nodes[i].log, run[a].nodes[i].log.entries)
    ensures run[a].nodes[i].log.baseIndex == 0
  {
    hide Inv, Extends;
    LogsRooted(members, run, hs, a, i);
    assert ClusterInv(members, run[a], hs[a]);
    assert LocalOk(members, i, run[a].nodes[i]);
  }

  lemma SameGuard(m: N.Node, n': N.Node, k: nat)
    requires n' == m.(commitIndex := n'.commitIndex, lastApplied := n'.lastApplied, kv := n'.kv) && N.Commits(m, k)
    ensures N.Commits(n', k)
  {
    assert N.Matched(n', k) == N.Matched(m, k);
  }

  lemma MajorityIsDurable(members: set<NodeId>, run: seq<Cluster>, hs: seq<History>, h: History, a: nat, i: NodeId, k: nat,
                          q: set<NodeId>, at: map<NodeId, nat>)
    requires Recorded(members, run, hs, h) && a < |run| && i in run[a].nodes && run[a].nodes[i].role == Leader
    requires 0 < k <= |LogAt(run, a, i)| && IsQuorum(q, members)
    requires forall v | v in q :: v in at && StoresAt(run, at[v], v, run[a].nodes[i].term, k)
    ensures Durable(members, h, LogAt(run, a, i)[..k], run[a].nodes[i].term)
  {
    hide ClusterInv, StoresAt;
    var t := run[a].nodes[i].term;
    forall v | v in q ensures Copy(v, t, k) in h.stored { CopyOnRecord(members, run, hs, at[v], v, t, k); }
    LeaderOnRecord(members, run, hs, a, i, t);
    assert Extends(hs[a], h);
    assert IsDurable(members, h, LogAt(run, a, i)[..k], t, t, k, q);
  }

  // ---------------------------------------------------------------- followers

  /** What an accepted request has in common with the final log of its leader. */
  lemma AcceptedPiece(members: set<NodeId>, run: seq<Cluster>, hs: seq<History>, h: History, a: nat, p: Packet)
    requires Recorded(members, run, hs, h) && a < |run| && p in run[a].net && p.to in run[a].nodes
    requires Accepts(run[a].nodes[p.to], Deliver(p))
    ensures var m, log := p.msg, LogAt(run, a, p.to);
            && m.term in h.elections && m.term in h.leaderLog
            && m.prevIndex + |m.entries| <= |h.leaderLog[m.term]|
            && m.entries == h.leaderLog[m.term][m.prevIndex..m.prevIndex + |m.entries|]
            && m.prevIndex <= |log| && log[..m.prevIndex] == h.leaderLog[m.term][..m.prevIndex]
            && Rooted(log, h.leaderLog) && Rooted(h.leaderLog[m.term], h.leaderLog)
  {
    hide IsHistoryOf, Inv, Rooted, IsPrefix;
    var m, log := p.msg, LogAt(run, a, p.to);
    PacketAt(members, run, hs, h, a, p);
    PlainLog(members, run, hs, h, a, p.to);
    PieceStays(hs[a].leaderLog[m.term], h.leaderLog[m.term], m.prevIndex, m.prevTerm, m.entries);
    LogsRooted(members, run, hs, a, p.to);
    LeaderRooted(members, run, hs, h, m.term);
    if m.prevIndex > 0 { Matching(log, h.leaderLog[m.term], m.prevIndex, h.leaderLog); }
  }

  lemma PacketAt(members: set<NodeId>, run: seq<Cluster>, hs: seq<History>, h: History, a: nat, p: Packet)
    requires Recorded(members, run, hs, h) && a < |run| && p in run[a].net && p.msg.AppendEntries?
    ensures AppendSound(p, hs[a]) && p.msg.term in h.elections && p.msg.term in h.leaderLog
    ensures IsPrefix(hs[a].leaderLog[p.msg.term], h.leaderLog[p.msg.term])
  {
    hide Inv, IsPiece, IsPrefix;
    PacketOnRecord(members, run[a], hs[a], p);
    assert Extends(hs[a], h);
  }

  lemma PieceStays(a: seq<LogEntry>, b: seq<LogEntry>, prev: nat, prevTerm: nat, entries: seq<LogEntry>)
    requires IsPiece(a, prev, prevTerm, entries) && IsPrefix(a, b)
    ensures IsPiece(b, prev, prevTerm, entries)
  {
    assert a[prev..prev + |entries|] == b[prev..prev + |entries|];
  }

  lemma LeaderRooted(members: set<NodeId>, run: seq<Cluster>, hs: seq<History>, h: History, t: nat)
    requires Recorded(members, run, hs, h) && t in h.leaderLog && t in h.elections
    ensures Rooted(h.leaderLog[t], h.leaderLog)
  {
    assert ClusterInv(members, run[|run| - 1], h);
    assert Sound(h.leaderLog[t], t, h.leaderLog);
  }

  /** A merge keeps what the follower has committed, and brings in line with the leader what it verified. */
  lemma MergeSafe(members: set<NodeId>, run: seq<Cluster>, hs: seq<History>, h: History, a: nat, p: Packet, n2: N.Node)
    requires Recorded(members, run, hs, h) && a < |run| && p in run[a].net && p.to in run[a].nodes
    requires Accepts(run[a].nodes[p.to], Deliver(p)) && Merged(run[a].nodes[p.to], p.msg, n2)
    requires SafeNode(members, h, run[a].nodes[p.to])
    ensures SafeNode(members, h, n2)
    ensures var whole, m := h.leaderLog, p.msg.prevIndex + |p.msg.entries|;
            p.msg.term in whole && m <= |whole[p.msg.term]| && IsPrefix(whole[p.msg.term][..m], n2.log.entries)
  {
    hide IsHistoryOf, Durable, K.Replay, Merge, Rooted;
    var n, m := run[a].nodes[p.to], p.msg;
    var log, c := n.log.entries, n.commitIndex;
    AcceptedPiece(members, run, hs, h, a, p);
    var whole := h.leaderLog[m.term];
    DurableInLeader(members, run, hs, h, log[..c], n.term, m.term);
    assert whole[..c] == log[..c];
    MergeKeepsAgreement(log, whole, m.prevIndex, m.entries, h.leaderLog, c);
    MergeOutcome(log, whole, m.prevIndex, m.entries, h.leaderLog);
    assert n2.log.entries[..c] == log[..c];
    DurablePart(members, h, log[..c], n2.log.entries[..c], n.term, n2.term);
  }

  lemma FollowSafe(members: set<NodeId>, h: History, n2: N.Node, whole: seq<LogEntry>, leaderCommit: nat)
    requires SafeNode(members, h, n2) && L.Compacts(n2.log, n2.log.entries) && n2.log.baseIndex == 0 && n2.running
    requires leaderCommit <= |whole| && Durable(members, h, whole[..leaderCommit], n2.term)
    requires leaderCommit > n2.commitIndex ==>
               var c := L.Min(leaderCommit, |n2.log.entries|); n2.log.entries[..c] == whole[..c]
    ensures SafeNode(members, h, FollowCommit(n2, leaderCommit))
  {
    hide Durable, K.Replay, N.ApplyCommitted;
    if leaderCommit > n2.commitIndex {
      var c := L.Min(leaderCommit, |n2.log.entries|);
      CommitRule.AppliesInOrder(n2.(commitIndex := c), n2.log.entries);
      assert IsPrefix(whole[..c], whole[..leaderCommit]);
      DurablePart(members, h, whole[..leaderCommit], n2.log.entries[..c], n2.term, n2.term);
    }
  }

  // ---------------------------------------------------------------- one step

  /** By Log Matching, the same term at an index is the same log up to it. */
  lemma MatchedPrefix(members: set<NodeId>, run: seq<Cluster>, hs: seq<History>, h: History, a: nat, i: NodeId, b: nat, p: Packet, c: nat)
    requires Recorded(members, run, hs, h) && a < |run| && i in run[a].nodes && p.msg.AppendEntries?
    requires 0 < c <= |LogAt(run, a, i)| && SameTermAt(run, b, p, LogAt(run, a, i), c)
    ensures p.msg.term in h.leaderLog && c <= |h.leaderLog[p.msg.term]|
    ensures LogAt(run, a, i)[..c] == h.leaderLog[p.msg.term][..c]
  {
    hide IsHistoryOf, Rooted;
    LeaderOnRecord(members, run, hs, b, p.from, p.msg.term);
    GrowsTo(members, run, hs, h, b);
    LogsRooted(members, run, hs, a, i);
    LeaderRooted(members, run, hs, h, p.msg.term);
    assert h.leaderLog[p.msg.term][c - 1] == LogAt(run, b, p.from)[c - 1];
    Matching(LogAt(run, a, i), h.leaderLog[p.msg.term], c, h.leaderLog);
  }

  lemma AcceptSafe(members: set<NodeId>, run: seq<Cluster>, steps: seq<Step>, hs: seq<History>, h: History, k: nat, n2: N.Node)
    requires k + 1 < |run| && k < |steps| && steps[k].Deliver? && Matches(run, steps, k)
    requires SafeState(members, h, run[k]) && Recorded(members, run, hs, h)
    requires Enabled(run[k], steps[k]) && run[k + 1] == Take(run[k], steps[k])
    requires var p := steps[k].packet; var n := run[k].nodes[p.to];
             && Accepts(n, steps[k]) && Merged(n, p.msg, n2) && run[k + 1].nodes[p.to] == FollowCommit(n2, p.msg.leaderCommit)
    ensures SafeNode(members, h, run[k + 1].nodes[steps[k].packet.to])
  {
    hide IsHistoryOf, SafeNode, Effect, FollowCommit, Merge, SameTermAt;
    var p := steps[k].packet;
    MergeSafe(members, run, hs, h, k, p, n2);
    PlainLog(members, run, hs, h, k + 1, p.to);
    FollowKeepsLog(n2, p.msg.leaderCommit);
    var whole := h.leaderLog[p.msg.term];
    if p.msg.leaderCommit > n2.commitIndex {
      var c := L.Min(p.msg.leaderCommit, |n2.log.entries|);
      assert FollowerCommits(run, steps, k) && MergedLog(run, steps, k) == n2.log.entries == LogAt(run, k + 1, p.to);
      if c > 0 {
        var b: nat :| b <= k && SameTermAt(run, b, p, n2.log.entries, c);
        MatchedPrefix(members, run, hs, h, k + 1, p.to, b, p, c);
      } else {
        assert n2.log.entries[..0] == whole[..0];
      }
    }
    FollowSafe(members, h, n2, whole, p.msg.leaderCommit);
  }

  lemma FollowKeepsLog(n: N.Node, leaderCommit: nat)
    ensures FollowCommit(n, leaderCommit).log == n.log
  {
    ApplyCommittedOnly(n.(commitIndex := L.Min(leaderCommit, n.log.LastIndex())));
  }

  lemma ActorSafe(members: set<NodeId>, run: seq<Cluster>, steps: seq<Step>, hs: seq<History>, h: History, k: nat, i: NodeId)
    requires k < |steps| && k + 1 < |run| && i in run[k].nodes && i in run[k + 1].nodes && i == steps[k].Actor()
    requires Matches(run, steps, k) && Backed(members, run, k + 1) && SafeState(members, h, run[k])
    requires Enabled(run[k], steps[k]) && run[k + 1] == Take(run[k], steps[k]) && Recorded(members, run, hs, h)
    ensures SafeNode(members, h, run[k + 1].nodes[i])
  {
    hide IsHistoryOf, SafeNode, Effect, Matches, Backed, Merged, FollowCommit, Still, LocalOk;
    var n := run[k].nodes[i];
    LocalAt(members, run, hs, h, k);
    var m := StepKind(members, i, n, steps[k]);
    var n' := run[k + 1].nodes[i];
    DiskInStep(members, i, n);
    RestartSafe(members, h, n);
    if Still(n, n') {
      StillSafe(members, h, n, n');
    } else if steps[k].Deliver? && steps[k].packet.msg.AppendEntries? && Accepts(n, steps[k])
              && Merged(n, steps[k].packet.msg, m) && n' == FollowCommit(m, steps[k].packet.msg.leaderCommit) {
      AcceptSafe(members, run, steps, hs, h, k, m);
    } else if Still(n, m) && m.running && m.role == Leader && n' == N.MaybeAdvanceCommit(m) {
      StillSafe(members, h, n, m);
      AdvanceSafe(members, run, hs, h, k + 1, i, m);
    }
  }

  lemma DiskInStep(members: set<NodeId>, i: NodeId, n: N.Node)
    requires LocalOk(members, i, n)
    ensures n.disk == N.Disk(n.term, n.votedFor, n.log)
  {
  }

  lemma LocalAt(members: set<NodeId>, run: seq<Cluster>, hs: seq<History>, h: History, k: nat)
    requires Recorded(members, run, hs, h) && k < |run|
    ensures LocalsOk(members, run[k])
  {
    hide Inv;
    assert ClusterInv(members, run[k], hs[k]);
  }

  /** What the acting node sends. */
  lemma SentSafe(members: set<NodeId>, run: seq<Cluster>, hs: seq<History>, h: History, k: nat, i: NodeId, n: N.Node, p: Packet)
    requires Recorded(members, run, hs, h) && k < |run| && i in run[k].nodes && SafeNode(members, h, n)
    requires SentByLeader(i, n, run[k].nodes[i], p) && n.term <= run[k].nodes[i].term && run[k].nodes[i].log.baseIndex == 0
    ensures SafePacket(members, h, p)
  {
    hide IsHistoryOf, Durable, K.Replay;
    if p.msg.AppendEntries? {
      var n', c := run[k].nodes[i], n.commitIndex;
      LeaderOnRecord(members, run, hs, k, i, n'.term);
      GrowsTo(members, run, hs, h, k);
      assert IsPrefix(n'.log.entries, h.leaderLog[n'.term]);
      assert h.leaderLog[n'.term][..c] == n.log.entries[..c];
      DurablePart(members, h, n.log.entries[..c], h.leaderLog[n'.term][..c], n.term, n'.term);
    }
  }

  lemma GrowsTo(members: set<NodeId>, run: seq<Cluster>, hs: seq<History>, h: History, k: nat)
    requires Recorded(members, run, hs, h) && k < |run|
    ensures Extends(hs[k], h)
  {
  }

  lemma StepSafe(members: set<NodeId>, run: seq<Cluster>, steps: seq<Step>, hs: seq<History>, h: History, k: nat)
    requires k < |steps| && k + 1 < |run| && Matches(run, steps, k) && Backed(members, run, k + 1)
    requires SafeState(members, h, run[k]) && IsRunBy(members, run, steps) && Recorded(members, run, hs, h)
    ensures SafeState(members, h, run[k + 1])
  {
    hide IsHistoryOf, SafeNode, SafePacket, Effect, Matches, Backed, Init, LocalOk, SentByLeader;
    var step := steps[k];
    var i := step.Actor();
    var n, e := run[k].nodes[i], Effect(run[k].nodes[i], step);
    assert Enabled(run[k], step) && run[k + 1] == Take(run[k], step);
    ActorSafe(members, run, steps, hs, h, k, i);
    LocalAt(members, run, hs, h, k);
    Sends(members, i, n, step);
    ByIsRun(members, run, steps);
    TermsNeverDecrease(members, run, k, k + 1, i);
    PlainLog(members, run, hs, h, k + 1, i);
    forall p | p in run[k + 1].net ensures SafePacket(members, h, p) {
      if p !in run[k].net { SentSafe(members, run, hs, h, k + 1, i, n, p); }
    }
  }

  lemma InitSafe(members: set<NodeId>, h: History, c: Cluster)
    requires Init(members, c)
    ensures SafeState(members, h, c)
  {
  }

  lemma {:induction false} RunSafe(members: set<NodeId>, run: seq<Cluster>, steps: seq<Step>, hs: seq<History>, h: History, a: nat)
    requires IsRunBy(members, run, steps) && Recorded(members, run, hs, h) && a < |run|
    requires AllBacked(members, run) && AllMatch(run, steps)
    ensures SafeState(members, h, run[a])
    decreases a
  {
    hide IsHistoryOf, SafeState, Matches, Backed, Init, Take, Enabled;
    if a == 0 {
      InitSafe(members, h, run[0]);
    } else {
      RunSafe(members, run, steps, hs, h, a - 1);
      StepSafe(members, run, steps, hs, h, a - 1);
    }
  }

  lemma SafePair(members: set<NodeId>, run: seq<Cluster>, hs: seq<History>, h: History, n: N.Node, m: N.Node)
    requires Recorded(members, run, hs, h) && SafeNode(members, h, n) && SafeNode(members, h, m)
    ensures InOrderNode(n) && InOrderNode(m) && Agree(n, m)
  {
    hide IsHistoryOf, Durable, K.Replay;
    DurableAgree(members, run, hs, h, n.log.entries[..n.lastApplied], m.log.entries[..m.lastApplied], n.term, m.term);
  }

  lemma MatchingRunsAgree(members: set<NodeId>, run: seq<Cluster>, steps: seq<Step>)
    requires IsRunBy(members, run, steps) && AllCredited(members, run, steps) && AllMatch(run, steps)
    ensures AppliedAgree(run)
  {
    hide IsHistoryOf, SafeNode, Matches, Backed, Credited, IsRunBy, IsRun, InOrderNode;
    ByIsRun(members, run, steps);
    LengthOf(members, run, steps);
    BackedIffCredited(members, run, steps);
    var hs := HistoryOf(members, run);
    var h := Last(members, run, hs);
    forall a, i | 0 <= a < |run| && i in run[a].nodes ensures SafeNode(members, h, run[a].nodes[i]) {
      RunSafe(members, run, steps, hs, h, a);
    }
    forall a, i | 0 <= a < |run| && i in run[a].nodes ensures InOrderNode(run[a].nodes[i]) {
      SafePair(members, run, hs, h, run[a].nodes[i], run[a].nodes[i]);
    }
    forall a, i, b, j | 0 <= a < |run| && i in run[a].nodes && 0 <= b < |run| && j in run[b].nodes
      ensures Agree(run[a].nodes[i], run[b].nodes[j])
    {
      SafePair(members, run, hs, h, run[a].nodes[i], run[b].nodes[j]);
    }
  }

  // ---------------------------------------------------------------- the condition is exact

  /** A request on the network was sent in a step that found its sender with the commit index it carries and
      left it leading its term. */
  lemma {:induction false} SentWith(members: set<NodeId>, run: seq<Cluster>, a: nat, p: Packet) returns (b: nat)
    requires IsRun(members, run) && a < |run| && p in run[a].net && p.msg.AppendEntries?
    ensures b + 1 <= a && LeadsAt(run, b + 1, p.from, p.msg.term) && p.from in run[b].nodes
    ensures run[b].nodes[p.from].commitIndex == p.msg.leaderCommit
    ensures IsPrefix(LogAt(run, b, p.from), LogAt(run, b + 1, p.from))
    decreases a
  {
    hide Effect, LocalOk, IsPiece;
    InOrder(members, run, a);
    if a == 0 {
      assert false;
    } else {
      InOrder(members, run, a - 1);
      var step := SentOrThere(members, run, a - 1, p);
      if p in run[a - 1].net {
        b := SentWith(members, run, a - 1, p);
      } else {
        b := a - 1;
        Sends(members, step.Actor(), run[b].nodes[step.Actor()], step);
      }
    }
  }

  /** The follower after the step has committed that index of the merged log. */
  lemma FollowerAfter(members: set<NodeId>, run: seq<Cluster>, steps: seq<Step>, k: nat)
    requires k < |steps| && k + 1 < |run| && FollowerCommits(run, steps, k) && LocalsOk(members, run[k])
    requires Enabled(run[k], steps[k]) && run[k + 1] == Take(run[k], steps[k])
    ensures var i := steps[k].packet.to;
            && i in run[k + 1].nodes && run[k + 1].nodes[i].commitIndex == CommitOf(run, steps, k)
            && run[k + 1].nodes[i].log.entries == MergedLog(run, steps, k)
  {
    hide Effect, LocalOk, Merge;
    var p := steps[k].packet;
    var m := AcceptKind(members, p.to, run[k].nodes[p.to], p);
    ApplyCommittedOnly(m.(commitIndex := CommitOf(run, steps, k)));
  }

  /** Of two applied prefixes that agree, the shorter is found in the longer. */
  lemma AgreeAt(s: N.Node, f: N.Node, c: nat)
    requires InOrderNode(s) && InOrderNode(f) && Agree(s, f) && 0 < c == f.commitIndex <= s.commitIndex
    ensures s.log.entries[c - 1] == f.log.entries[c - 1]
  {
    hide K.Replay;
    var x, y := s.log.entries[..s.lastApplied], f.log.entries[..c];
    assert x[c - 1] == y[c - 1];
  }

  lemma AgreeGivesMatch(members: set<NodeId>, run: seq<Cluster>, steps: seq<Step>, k: nat)
    requires IsRunBy(members, run, steps) && AppliedAgree(run) && k < |steps|
    ensures Matches(run, steps, k)
  {
    hide Init, Take, InOrderNode, LocalsOk, MergedLog, Agree;
    ByIsRun(members, run, steps);
    if FollowerCommits(run, steps, k) && CommitOf(run, steps, k) > 0 {
      assert Enabled(run[k], steps[k]) && run[k + 1] == Take(run[k], steps[k]);
      var p, c := steps[k].packet, CommitOf(run, steps, k);
      InOrder(members, run, k);
      FollowerAfter(members, run, steps, k);
      var b := SentWith(members, run, k, p);
      AgreeAt(run[b].nodes[p.from], run[k + 1].nodes[p.to], c);
      Within(run[b].nodes[p.from]);
      assert LogAt(run, b + 1, p.from)[c - 1] == LogAt(run, b, p.from)[c - 1];
      assert SameTermAt(run, b + 1, p, MergedLog(run, steps, k), c);
    }
  }

  lemma Within(n: N.Node)
    requires InOrderNode(n)
    ensures n.commitIndex <= |n.log.entries|
  {
  }

  /** In a run whose success replies are all credited, State Machine Safety holds if and only if every
      follower that commits has at that index the term its leader had there. */
  lemma AgreeIffMatch(members: set<NodeId>, run: seq<Cluster>, steps: seq<Step>)
    requires IsRunBy(members, run, steps) && AllCredited(members, run, steps)
    ensures AppliedAgree(run) <==> AllMatch(run, steps)
  {
    hide IsRunBy, AppliedAgree, Matches, Credited;
    LengthOf(members, run, steps);
    if AppliedAgree(run) {
      forall k | 0 <= k < |steps| ensures Matches(run, steps, k) { AgreeGivesMatch(members, run, steps, k); }
    }
    if AllMatch(run, steps) { MatchingRunsAgree(members, run, steps); }
  }

  // ---------------------------------------------------------------- only full requests can do harm

  /** If step `k` makes a follower commit on a full request, it commits no index past the request's last entry. */
  predicate Vouched(run: seq<Cluster>, steps: seq<Step>, k: nat)
    requires k < |steps| && k < |run|
  {
    FollowerCommits(run, steps, k) && |steps[k].packet.msg.entries| == N.MAX_ENTRIES_PER_AE ==>
      CommitOf(run, steps, k) <= steps[k].packet.msg.prevIndex + |steps[k].packet.msg.entries|
  }

  lemma VouchedMatches(members: set<NodeId>, run: seq<Cluster>, steps: seq<Step>, hs: seq<History>, h: History, k: nat)
    requires k < |steps| && k + 1 < |run| && Vouched(run, steps, k) && SafeState(members, h, run[k])
    requires IsRunBy(members, run, steps) && Recorded(members, run, hs, h)
    ensures Matches(run, steps, k)
  {
    hide Init, Effect, SafeNode, LocalOk, IsHistoryOf, Merge, IsPiece, Durable;
    if FollowerCommits(run, steps, k) && CommitOf(run, steps, k) > 0 {
      assert Enabled(run[k], steps[k]);
      var p, c := steps[k].packet, CommitOf(run, steps, k);
      LocalAt(members, run, hs, h, k);
      var m := AcceptKind(members, p.to, run[k].nodes[p.to], p);
      MergeSafe(members, run, hs, h, k, p, m);
      ByIsRun(members, run, steps);
      var b := AppendsArePieces(members, run, k, p);
      PieceFits(LogAt(run, b, p.from), p.msg);
      LeaderOnRecord(members, run, hs, b, p.from, p.msg.term);
      GrowsTo(members, run, hs, h, b);
      var whole, z := h.leaderLog[p.msg.term], p.msg.prevIndex + |p.msg.entries|;
      assert SafePacket(members, h, p) && c <= z;
      assert m.log.entries[c - 1] == whole[..z][c - 1] && LogAt(run, b, p.from)[c - 1] == whole[c - 1];
      assert SameTermAt(run, b, p, MergedLog(run, steps, k), c);
    }
  }

  lemma PieceFits(log: seq<LogEntry>, m: Message)
    requires m.AppendEntries? && IsPiece(log, m.prevIndex, m.prevTerm, m.entries)
    ensures m.prevIndex + |m.entries| <= |log|
  {
  }

  lemma {:induction false} VouchedSafe(members: set<NodeId>, run: seq<Cluster>, steps: seq<Step>, hs: seq<History>, h: History, a: nat)
    requires |steps| < |run| && (forall k | 0 <= k < |steps| :: Vouched(run, steps, k)) && AllBacked(members, run)
    requires IsRunBy(members, run, steps) && Recorded(members, run, hs, h) && a < |run|
    ensures SafeState(members, h, run[a])
    decreases a
  {
    hide IsHistoryOf, SafeState, Matches, Vouched, Backed, Init, Take, Enabled;
    if a == 0 {
      InitSafe(members, h, run[0]);
    } else {
      VouchedSafe(members, run, steps, hs, h, a - 1);
      VouchedMatches(members, run, steps, hs, h, a - 1);
      StepSafe(members, run, steps, hs, h, a - 1);
    }
  }

  /** If full requests make no follower commit past their last entry, State Machine Safety holds: a request
      that is not full cannot break it. */
  lemma VouchedRunsAgree(members: set<NodeId>, run: seq<Cluster>, steps: seq<Step>)
    requires IsRunBy(members, run, steps) && AllCredited(members, run, steps)
    requires |steps| < |run| && forall k | 0 <= k < |steps| :: Vouched(run, steps, k)
    ensures AppliedAgree(run)
  {
    hide IsRunBy, IsRun, AppliedAgree, Matches, Vouched, Credited, IsHistoryOf, SafeState, Backed;
    ByIsRun(members, run, steps);
    BackedIffCredited(members, run, steps);
    var hs := HistoryOf(members, run);
    var h := Last(members, run, hs);
    forall k | 0 <= k < |steps| ensures Matches(run, steps, k) {
      VouchedSafe(members, run, steps, hs, h, k);
      VouchedMatches(members, run, steps, hs, h, k);
    }
    MatchingRunsAgree(members, run, steps);
  }
}
