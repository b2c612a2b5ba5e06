/**
  Raft's safety properties (Figure 3 of the extended Raft paper), for every run of
  the cluster: any number of members, any interleaving of handlers and timers, any loss,
  duplication, delay and reordering of packets, any crashes and restarts.
*/
module RaftTheorems {
  import opened RaftTypes
  import opened RaftProtocol
  import opened RaftSafety
  import opened RaftCluster
  import opened StepEffects
  import N = RaftNode

  // ---------------------------------------------------------------- the history of a run

  ghost predicate IsHistoryOf(members: set<NodeId>, run: seq<Cluster>, hs: seq<History>) {
    && |hs| == |run|
    && (forall k | 0 <= k < |run| :: ClusterInv(members, run[k], hs[k]))
    && (forall j, k | 0 <= j <= k < |run| :: Extends(hs[j], hs[k]))
  }

  lemma {:induction false} HistoryOf(members: set<NodeId>, run: seq<Cluster>) returns (hs: seq<History>)
    requires IsRun(members, run)
    ensures IsHistoryOf(members, run, hs)
  {
    hide ClusterInv, Extends, Init, Take;
    var last := |run| - 1;
    if last == 0 {
      InitHolds(members, run[0]);
      hs := [NOTHING_YET];
      ExtendsRefl(NOTHING_YET);
    } else {
      var before := run[..last];
      assert before[last - 1] == run[last - 1];
      var gs := HistoryOf(members, before);
      assert Next(run[last - 1], run[last - 1 + 1]);
      var step :| Enabled(run[last - 1], step) && run[last] == Take(run[last - 1], step);
      var h := TakeKeeps(members, run[last - 1], gs[last - 1], step);
      hs := gs + [h];
      forall j, k | 0 <= j <= k < |run| ensures Extends(hs[j], hs[k]) {
        if j == last { ExtendsRefl(h); }
        else if k == last { ExtendsTrans(gs[j], gs[last - 1], h); }
      }
    }
  }

  predicate LeadsAt(run: seq<Cluster>, a: nat, i: NodeId, t: nat) {
    a < |run| && i in run[a].nodes && run[a].nodes[i].role == Leader && run[a].nodes[i].term == t
  }

  function LogAt(run: seq<Cluster>, a: nat, i: NodeId): seq<LogEntry>
    requires a < |run| && i in run[a].nodes
  {
    run[a].nodes[i].log.entries
  }

  /** What a state tells about its history: the leader of a term is the one on record. */
  lemma LeaderOnRecord(members: set<NodeId>, run: seq<Cluster>, hs: seq<History>, a: nat, i: NodeId, t: nat)
    requires IsHistoryOf(members, run, hs) && LeadsAt(run, a, i, t)
    ensures t in hs[a].elections && hs[a].elections[t].leader == i
    ensures t in hs[a].leaderLog && hs[a].leaderLog[t] == LogAt(run, a, i)
  {
    var s := Abstract(run[a]);
    assert ClusterInv(members, run[a], hs[a]) && s.servers[i] == View(run[a].nodes[i]);
    assert LeaderKept(s, hs[a], t);
  }

  lemma LogsRooted(members: set<NodeId>, run: seq<Cluster>, hs: seq<History>, a: nat, i: NodeId)
    requires IsHistoryOf(members, run, hs) && a < |run| && i in run[a].nodes
    ensures Sound(LogAt(run, a, i), run[a].nodes[i].term, hs[|run| - 1].leaderLog)
  {
    var s := Abstract(run[a]);
    assert ClusterInv(members, run[a], hs[a]) && s.servers[i] == View(run[a].nodes[i]);
    assert Extends(hs[a], hs[|run| - 1]);
    RootedStable(LogAt(run, a, i), hs[a].leaderLog, hs[|run| - 1].leaderLog);
  }

  // ---------------------------------------------------------------- election safety

  /** At most one node is ever leader in a given term. */
  lemma ElectionSafety(members: set<NodeId>, run: seq<Cluster>, a: nat, b: nat, i: NodeId, j: NodeId, t: nat)
    requires IsRun(members, run) && LeadsAt(run, a, i, t) && LeadsAt(run, b, j, t)
    ensures i == j
  {
    hide IsRun, ClusterInv;
    var hs := HistoryOf(members, run);
    LeaderOnRecord(members, run, hs, a, i, t);
    LeaderOnRecord(members, run, hs, b, j, t);
    assert Extends(hs[a], hs[|run| - 1]) && Extends(hs[b], hs[|run| - 1]);
  }

  /** A node's term never decreases, not even across crashes and restarts. */
  lemma {:induction false} TermsNeverDecrease(members: set<NodeId>, run: seq<Cluster>, a: nat, b: nat, i: NodeId)
    requires IsRun(members, run) && a <= b < |run| && i in run[a].nodes
    ensures i in run[b].nodes && run[a].nodes[i].term <= run[b].nodes[i].term
    decreases b
  {
    hide IsRun;
    if a < b {
      TermsNeverDecrease(members, run, a, b - 1, i);
      StepRaisesTerms(members, run, b - 1, i);
    }
  }

  lemma StepRaisesTerms(members: set<NodeId>, run: seq<Cluster>, k: nat, i: NodeId)
    requires IsRun(members, run) && k + 1 < |run| && i in run[k].nodes
    ensures i in run[k + 1].nodes && run[k].nodes[i].term <= run[k + 1].nodes[i].term
  {
    hide ClusterInv, Init;
    var hs := HistoryOf(members, run);
    assert Next(run[k], run[k + 1]);
    var step :| Enabled(run[k], step) && run[k + 1] == Take(run[k], step);
    var _ := TakeKeeps(members, run[k], hs[k], step);
  }

  /** Within a term a vote, once cast, is never withdrawn or changed. */
  lemma VotesAreFinal(members: set<NodeId>, run: seq<Cluster>, a: nat, b: nat, i: NodeId)
    requires IsRun(members, run) && a <= b < |run| && i in run[a].nodes && i in run[b].nodes
    requires run[a].nodes[i].term == run[b].nodes[i].term && run[a].nodes[i].votedFor.Some?
    ensures run[b].nodes[i].votedFor == run[a].nodes[i].votedFor
  {
    hide IsRun, Inv;
    var hs := HistoryOf(members, run);
    VoteOnRecord(members, run[a], hs[a], i);
    VoteOnRecord(members, run[b], hs[b], i);
    assert Extends(hs[a], hs[b]);
  }

  lemma VoteOnRecord(members: set<NodeId>, c: Cluster, h: History, i: NodeId)
    requires ClusterInv(members, c, h) && i in c.nodes
    ensures VoteRecorded(i, View(c.nodes[i]), h)
  {
  }

  /** Between handlers, the disk holds exactly the term, vote and log in memory; so a crash followed
      by a restart loses none of them. */
  lemma CrashTransparency(members: set<NodeId>, run: seq<Cluster>, a: nat, i: NodeId)
    requires IsRun(members, run) && a < |run| && i in run[a].nodes
    ensures var n := run[a].nodes[i];
            var m := N.Restart(N.Crash(n));
            && n.disk == N.Disk(n.term, n.votedFor, n.log)
            && m.term == n.term && m.votedFor == n.votedFor && m.log == n.log && m.disk == n.disk
  {
    hide IsRun, Inv;
    var hs := HistoryOf(members, run);
    assert ClusterInv(members, run[a], hs[a]);
    assert LocalOk(members, i, run[a].nodes[i]);
  }

  // ---------------------------------------------------------------- leader append-only

  /** From the moment it leads term `t`, a node only adds to its log while it stays in that term,
      whether it goes on leading, steps down or crashes and comes back. */
  lemma LeaderAppendOnly(members: set<NodeId>, run: seq<Cluster>, a: nat, b: nat, i: NodeId, t: nat)
    requires IsRun(members, run) && LeadsAt(run, a, i, t) && a <= b < |run|
    requires i in run[b].nodes && run[b].nodes[i].term == t
    ensures IsPrefix(LogAt(run, a, i), LogAt(run, b, i))
  {
    hide IsRun, ClusterInv;
    var hs := HistoryOf(members, run);
    LeaderOnRecord(members, run, hs, a, i, t);
    assert Extends(hs[a], hs[b]);
    LeaderKeepsLog(members, run[b], hs[b], i, t);
  }

  lemma LeaderKeepsLog(members: set<NodeId>, c: Cluster, h: History, i: NodeId, t: nat)
    requires ClusterInv(members, c, h) && t in h.elections && h.elections[t].leader == i
    requires i in c.nodes && c.nodes[i].term == t
    ensures t in h.leaderLog && c.nodes[i].log.entries == h.leaderLog[t]
  {
    assert LeaderKept(Abstract(c), h, t);
  }

  // ---------------------------------------------------------------- log matching

  /** If two logs, on any nodes at any times, have the same term at an index, they are identical up to it. */
  lemma LogMatching(members: set<NodeId>, run: seq<Cluster>, a: nat, b: nat, i: NodeId, j: NodeId, n: nat)
    requires IsRun(members, run) && a < |run| && b < |run| && i in run[a].nodes && j in run[b].nodes
    requires 0 < n <= |LogAt(run, a, i)| && n <= |LogAt(run, b, j)|
    requires LogAt(run, a, i)[n - 1].term == LogAt(run, b, j)[n - 1].term
    ensures LogAt(run, a, i)[..n] == LogAt(run, b, j)[..n]
  {
    hide IsRun, ClusterInv;
    var hs := HistoryOf(members, run);
    LogsRooted(members, run, hs, a, i);
    LogsRooted(members, run, hs, b, j);
    Matching(LogAt(run, a, i), LogAt(run, b, j), n, hs[|run| - 1].leaderLog);
  }

  /** Terms never decrease along a log and never exceed the node's own, and positions are indices. */
  lemma LogsAreOrdered(members: set<NodeId>, run: seq<Cluster>, a: nat, i: NodeId)
    requires IsRun(members, run) && a < |run| && i in run[a].nodes
    ensures Ordered(LogAt(run, a, i)) && Bounded(LogAt(run, a, i), run[a].nodes[i].term)
    ensures forall k | 0 <= k < |LogAt(run, a, i)| :: LogAt(run, a, i)[k].index == k + 1
  {
    hide IsRun, ClusterInv;
    var hs := HistoryOf(members, run);
    LogsRooted(members, run, hs, a, i);
  }

  /** A packet on the network was there before the last step, or that step sent it. */
  lemma SentOrThere(members: set<NodeId>, run: seq<Cluster>, a: nat, p: Packet) returns (step: Step)
    requires IsRun(members, run) && a + 1 < |run| && p in run[a + 1].net
    ensures Enabled(run[a], step) && run[a + 1] == Take(run[a], step)
    ensures p in run[a].net || p in Effect(run[a].nodes[step.Actor()], step).sent
  {
    hide Init, Effect;
    assert Next(run[a], run[a + 1]);
    step :| Enabled(run[a], step) && run[a + 1] == Take(run[a], step);
  }

  lemma InOrder(members: set<NodeId>, run: seq<Cluster>, a: nat)
    requires IsRun(members, run) && a < |run|
    ensures LocalsOk(members, run[a])
  {
    hide IsRun, Inv, LocalsOk;
    var hs := HistoryOf(members, run);
    assert ClusterInv(members, run[a], hs[a]);
  }

  /** Every AppendEntries on the network was sent by a node that led its term, and is a contiguous piece of
      the log that node had. */
  lemma {:induction false} AppendsArePieces(members: set<NodeId>, run: seq<Cluster>, a: nat, p: Packet) returns (b: nat)
    requires IsRun(members, run) && a < |run| && p in run[a].net && p.msg.AppendEntries?
    ensures b <= a && LeadsAt(run, b, p.from, p.msg.term)
    ensures IsPiece(LogAt(run, b, p.from), p.msg.prevIndex, p.msg.prevTerm, p.msg.entries)
    decreases a
  {
    hide Effect, IsPiece, LocalOk;
    InOrder(members, run, a);
    if a == 0 {
      assert false;
    } else {
      InOrder(members, run, a - 1);
      var step := SentOrThere(members, run, a - 1, p);
      if p in run[a - 1].net {
        b := AppendsArePieces(members, run, a - 1, p);
      } else {
        b := a;
        Sends(members, step.Actor(), run[a - 1].nodes[step.Actor()], step);
      }
    }
  }

  /** Packets come from members. */
  lemma {:induction false} SendersAreMembers(members: set<NodeId>, run: seq<Cluster>, a: nat, p: Packet)
    requires IsRun(members, run) && a < |run| && p in run[a].net
    ensures p.from in members && p.from != p.to
    decreases a
  {
    hide Effect, LocalOk;
    InOrder(members, run, a);
    if a == 0 {
      assert false;
    } else {
      InOrder(members, run, a - 1);
      var step := SentOrThere(members, run, a - 1, p);
      if p in run[a - 1].net {
        SendersAreMembers(members, run, a - 1, p);
      } else {
        EffectAddressed(members, step.Actor(), run[a - 1].nodes[step.Actor()], step);
      }
    }
  }

  lemma NoLeaderYet(members: set<NodeId>, c: Cluster, i: NodeId)
    requires Init(members, c) && i in c.nodes
    ensures NextKnown(members, c.nodes[i])
  {
  }

  /** A leader has a positive next index for every peer, so what it has sent is that index minus one. */
  lemma {:induction false} LeadersKnowNext(members: set<NodeId>, run: seq<Cluster>, a: nat, i: NodeId)
    requires IsRun(members, run) && a < |run| && i in run[a].nodes
    ensures NextKnown(members, run[a].nodes[i])
    decreases a
  {
    hide Effect, LocalOk, NextKnown, Init;
    if a == 0 {
      NoLeaderYet(members, run[0], i);
    } else {
      InOrder(members, run, a - 1);
      assert Next(run[a - 1], run[a - 1 + 1]);
      var step :| Enabled(run[a - 1], step) && run[a] == Take(run[a - 1], step);
      LeadersKnowNext(members, run, a - 1, i);
      if i == step.Actor() { StepNext(members, i, run[a - 1].nodes[i], step); }
    }
  }

  /** It is a piece of the log of whoever leads that term at any moment, once that log is long enough. */
  lemma PiecesOfTheLeader(members: set<NodeId>, run: seq<Cluster>, a: nat, b: nat, i: NodeId, p: Packet)
    requires IsRun(members, run) && a < |run| && p in run[a].net && p.msg.AppendEntries?
    requires LeadsAt(run, b, i, p.msg.term) && p.msg.prevIndex + |p.msg.entries| <= |LogAt(run, b, i)|
    ensures p.from == i && IsPiece(LogAt(run, b, i), p.msg.prevIndex, p.msg.prevTerm, p.msg.entries)
  {
    hide IsRun, Inv, IsPiece, IsPrefix, Extends, LogAt;
    var hs := HistoryOf(members, run);
    LeaderOnRecord(members, run, hs, b, i, p.msg.term);
    PacketOnRecord(members, run[a], hs[a], p);
    assert Extends(hs[a], hs[|run| - 1]) && Extends(hs[b], hs[|run| - 1]);
    PieceOfLeader(hs[a], hs[b], hs[|run| - 1], p);
  }

  lemma PieceOfLeader(g: History, g': History, h: History, p: Packet)
    requires Extends(g, h) && Extends(g', h) && p.msg.AppendEntries? && AppendSound(p, g)
    requires p.msg.term in g'.elections && p.msg.term in g'.leaderLog
    requires p.msg.prevIndex + |p.msg.entries| <= |g'.leaderLog[p.msg.term]|
    ensures p.from == g'.elections[p.msg.term].leader
    ensures IsPiece(g'.leaderLog[p.msg.term], p.msg.prevIndex, p.msg.prevTerm, p.msg.entries)
  {
  }

  lemma PacketOnRecord(members: set<NodeId>, c: Cluster, h: History, p: Packet)
    requires ClusterInv(members, c, h) && p in c.net && p.msg.AppendEntries?
    ensures AppendSound(p, h)
  {
  }

  // ---------------------------------------------------------------- leader completeness

  /** At state `a` node `i` is in term `t` and holds a term-`t` entry at index `n`. */
  predicate StoresAt(run: seq<Cluster>, a: nat, i: NodeId, t: nat, n: nat) {
    && a < |run| && i in run[a].nodes && run[a].nodes[i].term == t
    && 0 < n <= |LogAt(run, a, i)| && LogAt(run, a, i)[n - 1].term == t
  }

  /** The first `n` entries node `i` has at state `a` open the log `log`. */
  ghost predicate Carries(run: seq<Cluster>, a: nat, i: NodeId, n: nat, log: seq<LogEntry>) {
    a < |run| && i in run[a].nodes && n <= |LogAt(run, a, i)| && IsPrefix(LogAt(run, a, i)[..n], log)
  }

  lemma CopyOnRecord(members: set<NodeId>, run: seq<Cluster>, hs: seq<History>, a: nat, i: NodeId, t: nat, n: nat)
    requires IsHistoryOf(members, run, hs) && StoresAt(run, a, i, t, n)
    ensures Copy(i, t, n) in hs[|run| - 1].stored
  {
    var s := Abstract(run[a]);
    assert ClusterInv(members, run[a], hs[a]) && s.servers[i] == View(run[a].nodes[i]);
    assert s.servers[i].log[n - 1].term == t;
    assert Extends(hs[a], hs[|run| - 1]);
  }

  /** If every member of a majority `q` at some moment (`at`) stored the term-`t` entry at `n` while in
      term `t`, then every leader of every later term, at any time, has that entry and all before it. */
  lemma LeaderCompleteness(members: set<NodeId>, run: seq<Cluster>, t: nat, n: nat, q: set<NodeId>,
                           at: map<NodeId, nat>, b: nat, i: NodeId, u: nat)
    requires IsRun(members, run) && IsQuorum(q, members)
    requires forall v | v in q :: v in at && StoresAt(run, at[v], v, t, n)
    requires LeadsAt(run, b, i, u) && t < u
    ensures forall v | v in q :: v in at && Carries(run, at[v], v, n, LogAt(run, b, i))
  {
    hide IsRun, ClusterInv;
    var hs := HistoryOf(members, run);
    var h := hs[|run| - 1];
    forall v | v in q ensures Copy(v, t, n) in h.stored { CopyOnRecord(members, run, hs, at[v], v, t, n); }
    LeaderOnRecord(members, run, hs, b, i, u);
    assert Extends(hs[b], h);
    LaterLeadersHold(members, run, hs, t, n, q, u);
    forall v | v in q ensures Carries(run, at[v], v, n, LogAt(run, b, i)) {
      StoredIsLeaders(members, run, hs, at[v], v, t, n);
      ElectedWith(members, run, hs, b, u);
    }
  }

  lemma LaterLeadersHold(members: set<NodeId>, run: seq<Cluster>, hs: seq<History>, t: nat, n: nat, q: set<NodeId>, u: nat)
    requires IsHistoryOf(members, run, hs) && |run| > 0 && t < u && u in hs[|run| - 1].elections
    requires StoredByMajority(members, hs[|run| - 1], t, n, q)
    ensures var h := hs[|run| - 1];
            t in h.leaderLog && n <= |h.leaderLog[t]| && IsPrefix(h.leaderLog[t][..n], h.elections[u].start)
  {
    assert ClusterInv(members, run[|run| - 1], hs[|run| - 1]);
    LaterLeadersHave(members, Abstract(run[|run| - 1]), hs[|run| - 1], t, n, q, u);
  }

  /** What a node stored of term `t` is what the leader of `t` had. */
  lemma StoredIsLeaders(members: set<NodeId>, run: seq<Cluster>, hs: seq<History>, a: nat, v: NodeId, t: nat, n: nat)
    requires IsHistoryOf(members, run, hs) && StoresAt(run, a, v, t, n)
    ensures t in hs[|run| - 1].leaderLog && IsPrefix(LogAt(run, a, v)[..n], hs[|run| - 1].leaderLog[t])
  {
    hide ClusterInv;
    LogsRooted(members, run, hs, a, v);
    var log := LogAt(run, a, v);
    assert IsPrefix(log[..n - 1 + 1], hs[|run| - 1].leaderLog[log[n - 1].term]);
  }

  /** A leader's log always begins with the log it was elected with. */
  lemma ElectedWith(members: set<NodeId>, run: seq<Cluster>, hs: seq<History>, b: nat, u: nat)
    requires IsHistoryOf(members, run, hs) && b < |run| && u in hs[b].elections
    ensures u in hs[b].leaderLog && IsPrefix(hs[b].elections[u].start, hs[b].leaderLog[u])
    ensures u in hs[|run| - 1].elections && hs[|run| - 1].elections[u] == hs[b].elections[u]
  {
    assert ClusterInv(members, run[b], hs[b]) && Extends(hs[b], hs[|run| - 1]);
    assert GrownFrom(hs[b].elections[u].start, hs[b].leaderLog[u], u);
  }
}
