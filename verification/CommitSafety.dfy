/**
  When the leader's commit rule is right (src/raft/node.cpp:301-321, 550-565).  A match point is taken from
  the next index, so a success reply may credit a follower with entries it never stored.  The match points
  of a run are backed by real storage exactly when every success reply is credited with no more than the
  follower has stored by then, and commit points of such runs never disagree.
*/
module CommitSafety {
  import opened RaftTypes
  import opened RaftProtocol
  import opened RaftSafety
  import opened RaftCluster
  import opened StepEffects
  import opened RaftTheorems
  import N = RaftNode
  import L = CompactedLog

  // ---------------------------------------------------------------- backed match points

  /** By state `a`, node `f` has stored the term-`t` entry at `j` while in term `t`. */
  ghost predicate StoredBy(run: seq<Cluster>, a: nat, f: NodeId, t: nat, j: nat) {
    exists b: nat :: b <= a && StoresAt(run, b, f, t, j)
  }

  /** Every entry of the leader's term up to `point` has been stored by `f`. */
  ghost predicate PointBacked(members: set<NodeId>, run: seq<Cluster>, a: nat, i: NodeId, f: NodeId, point: nat)
    requires a < |run| && i in run[a].nodes
  {
    var log, t := LogAt(run, a, i), run[a].nodes[i].term;
    && f in members && point <= |log|
    && forall j | 0 <= j < point && log[j].term == t :: StoredBy(run, a, f, t, j + 1)
  }

  ghost predicate Backed(members: set<NodeId>, run: seq<Cluster>, a: nat)
    requires a < |run|
  {
    forall i, f | i in run[a].nodes && run[a].nodes[i].role == Leader && f in run[a].nodes[i].matchIndex ::
      PointBacked(members, run, a, i, f, run[a].nodes[i].matchIndex[f])
  }

  /** If step `k` delivers a success reply of its term to a leader, the follower has by now stored what the
      leader has sent it: the next index minus one, the point line 307 credits. */
  ghost predicate Credited(members: set<NodeId>, run: seq<Cluster>, steps: seq<Step>, k: nat)
    requires k < |steps| && k < |run|
  {
    steps[k].Deliver? ==>
      var i, f := steps[k].packet.to, steps[k].packet.from;
      i in run[k].nodes && IsAck(run[k].nodes[i], steps[k], f) ==>
        PointBacked(members, run, k, i, f, N.SentUpTo(run[k].nodes[i], f))
  }

  ghost predicate AllBacked(members: set<NodeId>, run: seq<Cluster>) { forall a | 0 <= a < |run| :: Backed(members, run, a) }

  ghost predicate AllCredited(members: set<NodeId>, run: seq<Cluster>, steps: seq<Step>) {
    |steps| <= |run| && forall k | 0 <= k < |steps| :: Credited(members, run, steps, k)
  }

  lemma Later(run: seq<Cluster>, a: nat, b: nat, f: NodeId, t: nat, j: nat)
    requires StoredBy(run, a, f, t, j) && a <= b
    ensures StoredBy(run, b, f, t, j)
  {
  }

  /** What a point is backed by stays, as long as the leader keeps its term and its entries. */
  lemma StillBacked(members: set<NodeId>, run: seq<Cluster>, k: nat, i: NodeId, f: NodeId, point: nat)
    requires k + 1 < |run| && i in run[k].nodes && i in run[k + 1].nodes
    requires run[k].nodes[i].term == run[k + 1].nodes[i].term && IsPrefix(LogAt(run, k, i), LogAt(run, k + 1, i))
    requires PointBacked(members, run, k, i, f, point)
    ensures PointBacked(members, run, k + 1, i, f, point)
  {
    hide StoresAt;
    var log, t := LogAt(run, k + 1, i), run[k].nodes[i].term;
    forall j | 0 <= j < point && log[j].term == t ensures StoredBy(run, k + 1, f, t, j + 1) {
      assert log[j] == LogAt(run, k, i)[j];
      Later(run, k, k + 1, f, t, j + 1);
    }
  }

  lemma OwnBacked(members: set<NodeId>, run: seq<Cluster>, a: nat, i: NodeId, point: nat)
    requires a < |run| && i in run[a].nodes && i in members && point <= |LogAt(run, a, i)|
    ensures PointBacked(members, run, a, i, i, point)
  {
    var log, t := LogAt(run, a, i), run[a].nodes[i].term;
    forall j | 0 <= j < point && log[j].term == t ensures StoredBy(run, a, i, t, j + 1) {
      assert StoresAt(run, a, i, t, j + 1);
    }
  }

  lemma MaxBacked(members: set<NodeId>, run: seq<Cluster>, a: nat, i: NodeId, f: NodeId, x: nat, y: nat)
    requires a < |run| && i in run[a].nodes
    requires PointBacked(members, run, a, i, f, x) && (y == 0 || PointBacked(members, run, a, i, f, y))
    ensures PointBacked(members, run, a, i, f, L.Max(x, y))
  {
  }

  /** The acting node's own points after a step. */
  lemma ActorBacked(members: set<NodeId>, run: seq<Cluster>, steps: seq<Step>, k: nat, f: NodeId)
    requires k + 1 < |run| && k < |steps| && steps[k].Actor() in run[k].nodes && run[k + 1] == Take(run[k], steps[k])
    requires var i := steps[k].Actor();
             && i in members && Backed(members, run, k) && Credited(members, run, steps, k)
             && run[k + 1].nodes[i].role == Leader && f in run[k + 1].nodes[i].matchIndex
             && PointFrom(members, i, run[k].nodes[i], steps[k], run[k + 1].nodes[i], f)
    ensures var i := steps[k].Actor(); PointBacked(members, run, k + 1, i, f, run[k + 1].nodes[i].matchIndex[f])
  {
    hide PointBacked, Effect, N.SentUpTo;
    var i := steps[k].Actor();
    var n, n' := run[k].nodes[i], run[k + 1].nodes[i];
    if f == i && n'.matchIndex[f] <= |n'.log.entries| {
      OwnBacked(members, run, k + 1, i, n'.matchIndex[f]);
    } else if f in members && n'.matchIndex[f] == 0 {
      NothingToBack(members, run, k + 1, i, f);
    } else if IsAck(n, steps[k], f) && n'.log == n.log && n'.matchIndex[f] == Acked(n, f).matchIndex[f] {
      var before := N.IndexOf(n.matchIndex, f);
      MaxBacked(members, run, k, i, f, N.SentUpTo(n, f), before);
      AckedPoint(n, f);
      StillBacked(members, run, k, i, f, n'.matchIndex[f]);
    } else {
      StillBacked(members, run, k, i, f, n'.matchIndex[f]);
    }
  }

  lemma NothingToBack(members: set<NodeId>, run: seq<Cluster>, a: nat, i: NodeId, f: NodeId)
    requires a < |run| && i in run[a].nodes && f in members
    ensures PointBacked(members, run, a, i, f, 0)
  {
  }

  lemma AckedPoint(n: N.Node, f: NodeId)
    ensures Acked(n, f).matchIndex[f] == L.Max(N.SentUpTo(n, f), N.IndexOf(n.matchIndex, f))
  {
  }

  lemma StepBacked(members: set<NodeId>, run: seq<Cluster>, steps: seq<Step>, k: nat)
    requires IsRunBy(members, run, steps) && k < |steps| && Backed(members, run, k) && Credited(members, run, steps, k)
    ensures Backed(members, run, k + 1)
  {
    hide PointBacked, PointFrom, Effect, LocalOk, Init;
    ByIsRun(members, run, steps);
    InOrder(members, run, k);
    var step := steps[k];
    var i := step.Actor();
    StepPoints(members, i, run[k].nodes[i], step);
    var c := run[k + 1];
    forall j, f | j in c.nodes && c.nodes[j].role == Leader && f in c.nodes[j].matchIndex
      ensures PointBacked(members, run, k + 1, j, f, c.nodes[j].matchIndex[f])
    {
      if j == i {
        ActorBacked(members, run, steps, k, f);
      } else {
        assert run[k + 1].nodes[j] == run[k].nodes[j];
        StillBacked(members, run, k, j, f, run[k].nodes[j].matchIndex[f]);
      }
    }
  }

  /** If the point credited by a reply is backed, the follower had stored it before the reply came. */
  lemma AckCredited(members: set<NodeId>, run: seq<Cluster>, steps: seq<Step>, k: nat, i: NodeId, f: NodeId)
    requires k + 1 < |run| && k < |steps| && i in run[k].nodes && steps[k].Actor() == i && run[k + 1] == Take(run[k], steps[k])
    requires f != i && IsAck(run[k].nodes[i], steps[k], f) && Backed(members, run, k + 1)
    ensures PointBacked(members, run, k, i, f, N.SentUpTo(run[k].nodes[i], f))
  {
    hide Effect, N.MaybeAdvanceCommit, N.SentUpTo;
    var n, n' := run[k].nodes[i], run[k + 1].nodes[i];
    AckIs(n, steps[k], f);
    MaybeAdvanceOnly(Acked(n, f));
    var log, t, point := n.log.entries, n.term, N.SentUpTo(n, f);
    assert PointBacked(members, run, k + 1, i, f, n'.matchIndex[f]);
    forall j | 0 <= j < point && log[j].term == t ensures StoredBy(run, k, f, t, j + 1) {
      assert n'.log.entries[j].term == t;
      assert StoredBy(run, k + 1, f, t, j + 1);
      var b: nat :| b <= k + 1 && StoresAt(run, b, f, t, j + 1);
      if b == k + 1 { assert StoresAt(run, k, f, t, j + 1); }
    }
  }

  /** Match points are backed by past storage in every state of a run if and only if every success reply
      is credited with what its sender has stored. */
  lemma BackedIffCredited(members: set<NodeId>, run: seq<Cluster>, steps: seq<Step>)
    requires IsRunBy(members, run, steps)
    ensures AllBacked(members, run) <==> AllCredited(members, run, steps)
  {
    hide Backed, Take, Enabled, Init;
    if AllBacked(members, run) {
      forall k | 0 <= k < |steps| ensures Credited(members, run, steps, k) { BackedGivesCredit(members, run, steps, k); }
    }
    if AllCredited(members, run, steps) {
      forall a | 0 <= a < |run| ensures Backed(members, run, a) { CreditGivesBacked(members, run, steps, a); }
    }
  }

  lemma BackedGivesCredit(members: set<NodeId>, run: seq<Cluster>, steps: seq<Step>, k: nat)
    requires IsRunBy(members, run, steps) && k < |steps| && Backed(members, run, k + 1)
    ensures Credited(members, run, steps, k)
  {
    hide Backed, Take, Init, PointBacked, IsAck, N.SentUpTo;
    ByIsRun(members, run, steps);
    if steps[k].Deliver? {
      var i, f := steps[k].packet.to, steps[k].packet.from;
      assert Enabled(run[k], steps[k]);
      SendersAreMembers(members, run, k, steps[k].packet);
      if IsAck(run[k].nodes[i], steps[k], f) { AckCredited(members, run, steps, k, i, f); }
    }
  }

  lemma {:induction false} CreditGivesBacked(members: set<NodeId>, run: seq<Cluster>, steps: seq<Step>, a: nat)
    requires IsRunBy(members, run, steps) && AllCredited(members, run, steps) && a < |run|
    ensures Backed(members, run, a)
    decreases a
  {
    hide Take, Enabled, PointBacked, Credited;
    if a > 0 {
      CreditGivesBacked(members, run, steps, a - 1);
      StepBacked(members, run, steps, a - 1);
    }
  }

  // ---------------------------------------------------------------- commit points

  /** The leader of term `t` may commit index `k`: the guard of the commit rule. */
  ghost predicate CommitsAt(run: seq<Cluster>, a: nat, i: NodeId, t: nat, k: nat) {
    LeadsAt(run, a, i, t) && 0 < k <= |LogAt(run, a, i)| && N.Commits(run[a].nodes[i], k)
  }

  lemma NodeInOrder(members: set<NodeId>, c: Cluster, h: History, i: NodeId)
    requires ClusterInv(members, c, h) && i in c.nodes
    ensures c.nodes[i].log.baseIndex == 0 && N.Quorum(c.nodes[i]) == |members| / 2 + 1
  {
  }

  /** A commit point of a backed state is one a majority has stored. */
  lemma CommitHasMajority(members: set<NodeId>, run: seq<Cluster>, hs: seq<History>, a: nat, i: NodeId, t: nat, k: nat)
    returns (q: set<NodeId>, at: map<NodeId, nat>)
    requires IsHistoryOf(members, run, hs) && CommitsAt(run, a, i, t, k) && Backed(members, run, a)
    ensures IsQuorum(q, members) && q != {} && LogAt(run, a, i)[k - 1].term == t
    ensures forall v | v in q :: v in at && StoresAt(run, at[v], v, t, k)
  {
    hide ClusterInv, StoresAt;
    var n := run[a].nodes[i];
    NodeInOrder(members, run[a], hs[a], i);
    q := N.Matched(n, k);
    forall p | p in q ensures p in members && exists x: nat :: StoresAt(run, x, p, t, k) {
      assert PointBacked(members, run, a, i, p, n.matchIndex[p]);
      assert LogAt(run, a, i)[k - 1].term == t;
      assert StoredBy(run, a, p, t, k - 1 + 1);
    }
    at := map p | p in q :: var x: nat :| StoresAt(run, x, p, t, k); x;
  }

  lemma CommittedIsCarried(members: set<NodeId>, run: seq<Cluster>, hs: seq<History>, a: nat, b: nat,
                           i: NodeId, j: NodeId, t: nat, u: nat, k: nat)
    requires IsRun(members, run) && IsHistoryOf(members, run, hs) && a < |run| && Backed(members, run, a)
    requires CommitsAt(run, a, i, t, k) && LeadsAt(run, b, j, u) && t < u
    ensures IsPrefix(LogAt(run, a, i)[..k], LogAt(run, b, j))
  {
    hide IsRun, IsHistoryOf, N.Commits, Backed;
    var q, at := CommitHasMajority(members, run, hs, a, i, t, k);
    LeaderCompleteness(members, run, t, k, q, at, b, j, u);
    var v :| v in q;
    LogMatching(members, run, a, at[v], i, v, k);
  }

  /** In a run whose success replies are all credited, the leaders' commit points never disagree. */
  lemma CreditedCommitsAgree(members: set<NodeId>, run: seq<Cluster>, steps: seq<Step>, a: nat, b: nat, i: NodeId, j: NodeId,
                             t: nat, u: nat, k: nat, m: nat)
    requires IsRunBy(members, run, steps) && AllCredited(members, run, steps) && t <= u
    requires CommitsAt(run, a, i, t, k) && CommitsAt(run, b, j, u, m)
    ensures var x, y := LogAt(run, a, i)[..k], LogAt(run, b, j)[..m]; IsPrefix(x, y) || IsPrefix(y, x)
  {
    hide IsRun, IsRunBy, ClusterInv, N.Commits, Backed, Credited;
    ByIsRun(members, run, steps);
    BackedIffCredited(members, run, steps);
    var hs := HistoryOf(members, run);
    if t < u {
      CommittedIsCarried(members, run, hs, a, b, i, j, t, u, k);
    } else {
      LeaderOnRecord(members, run, hs, a, i, t);
      LeaderOnRecord(members, run, hs, b, j, t);
      assert Extends(hs[a], hs[|run| - 1]) && Extends(hs[b], hs[|run| - 1]);
    }
  }
}
