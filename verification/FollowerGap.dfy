/**
  A follower commits the smaller of the leader's commit index and its own last index
  (src/raft/node.cpp:292), although an accepted request only vouches for the entries it carries.  A leader
  that sends its log again in a full request can therefore make a follower commit an entry behind it that
  another leader left there.  Here is such a run, with every reply credited with what was stored.
*/
module FollowerGap {
  import opened RaftTypes
  import opened RaftProtocol
  import opened RaftCluster
  import opened StepEffects
  import opened RaftTheorems
  import opened CommitSafety
  import opened StateMachineSafety
  import opened Scenario
  import CommitRule
  import FollowerMerge
  import N = RaftNode
  import L = CompactedLog
  import K = KvStore

  const B := N.MAX_ENTRIES_PER_AE
  const WRITE := Put("k", "v")

  /** A log of `n` writes of term 1. */
  predicate Bulk(log: seq<LogEntry>, n: nat) {
    |log| == n && forall k | 0 <= k < n :: log[k] == LogEntry(1, k + 1, WRITE)
  }

  /** What the leader of term 2 leaves in node 3, and what the leader of term 3 has at the same index. */
  const STALE := LogEntry(2, B + 1, Put("k", "stale"))
  const FRESH := LogEntry(3, B + 1, Put("k", "fresh"))

  // ---------------------------------------------------------------- three more steps of a node

  /** A request of an earlier term is refused and changes nothing. */
  lemma Refuses(n: N.Node, id: NodeId, peers: seq<NodeId>, t: nat, log: seq<LogEntry>)
    requires Foll(n, id, peers, t, log) && 1 < t
    ensures N.OnMessage(n, 1, HELLO) == N.Effect(n, [Packet(id, 1, AppendEntriesReply(t, false, 0, 0))])
  {
  }

  /** A refusal that names no conflict makes the leader start again from its first entry. */
  lemma StartsOver(n: N.Node, id: NodeId, peers: seq<NodeId>, t: nat, log: seq<LogEntry>, x: LogEntry, from: NodeId)
    requires Done(n, id, peers, t, log + [x]) && |log| == B && Indexed(log)
    ensures var e := N.OnMessage(n, from, AppendEntriesReply(t, false, 0, 0));
            && Done(e.node, id, peers, t, log + [x])
            && e.sent == [Packet(id, from, AppendEntries(t, id, 0, 0, log, B + 1))]
  {
    hide K.Replay, L.Log.LastIndexForTerm, L.Log.Slice;
    FirstBatch(log, x);
  }

  lemma FirstBatch(log: seq<LogEntry>, x: LogEntry)
    requires |log| == B
    ensures L.Log(0, 0, log + [x]).Slice(0, L.Min(0 + B, B + 1)) == log
  {
    assert (log + [x])[..B] == log;
  }

  /** A follower that has all the entries of a full request commits by the length of its own log. */
  lemma CommitsTooFar(n: N.Node, id: NodeId, peers: seq<NodeId>, t: nat, log: seq<LogEntry>, x: LogEntry, from: NodeId)
    requires Foll(n, id, peers, t, log + [x]) && |log| == B && Indexed(log + [x])
    ensures var n' := N.OnMessage(n, from, AppendEntries(t, from, 0, 0, log, B + 1)).node;
            n'.running && n'.lastApplied == n'.commitIndex == B + 1 && n'.log.entries == log + [x] && n'.kv == K.Replay(log + [x])
  {
    hide N.MergeEntries, N.ApplyCommitted, K.Replay;
    var l := L.Log(0, 0, log + [x]);
    forall k | 0 <= k < |log| ensures FollowerMerge.Has(l, log[k]) { assert (log + [x])[k] == log[k]; }
    FollowerMerge.AllKnown(l, log);
    NoReplay(log + [x]);
    var m := N.Persist(N.BecomeFollower(n, t, Some(from))).(commitIndex := B + 1);
    assert (log + [x])[..B + 1] == log + [x] && (log + [x])[0..] == log + [x];
    CommitRule.AppliesInOrder(m, log + [x]);
  }

  // ---------------------------------------------------------------- the run, step by step

  /** A credited run of three nodes, in which the first announcement to node 3 can still be delivered again. */
  ghost predicate At(w: Trace, c: Cluster) {
    Reached(w, c) && SoFarCredited(w) && c.nodes.Keys == TRIO && Packet(1, 3, HELLO) in c.net
  }

  lemma Move(w: Trace, c: Cluster, step: Step) returns (w': Trace, c': Cluster)
    requires At(w, c) && Enabled(c, step) && (IsSuccess(step) ==> StoredNow(c, step))
    ensures At(w', c') && c' == Take(c, step) && w' == Trace(w.run + [c'], w.steps + [step])
  {
    hide Reached, SoFarCredited, StoredNow;
    w', c' := Go(w, c, step);
  }

  /** Node 1 leads term 1 and all three nodes have the log. */
  ghost predicate InStep(c: Cluster, log: seq<LogEntry>)
    requires c.nodes.Keys == TRIO
  {
    Lead(c.nodes[1], 1, [2, 3], 1, log) && Foll(c.nodes[2], 2, [1, 3], 1, log) && Foll(c.nodes[3], 3, [1, 2], 1, log)
  }

  lemma Opening() returns (w: Trace, c: Cluster)
    ensures At(w, c) && InStep(c, [])
  {
    hide Reached, SoFarCredited, TwoIsEmpty, N.OnMessage;
    w, c := OneLeads();
    Takes(c.nodes[3], 3, [1, 2], 0, [], 1, 1, []);
    w, c := Go(w, c, Deliver(Packet(1, 3, HELLO)));
  }

  lemma OneMore(w0: Trace, c0: Cluster, log: seq<LogEntry>) returns (w: Trace, c: Cluster)
    requires At(w0, c0) && InStep(c0, log)
    ensures At(w, c) && InStep(c, log + [LogEntry(1, |log| + 1, WRITE)])
  {
    hide Reached, SoFarCredited, N.OnMessage, N.Submit;
    var x := LogEntry(1, |log| + 1, WRITE);
    var m := AppendEntries(1, 1, |log|, LastTerm(log), [x], 0);
    Submits(c0.nodes[1], 1, [2, 3], 1, log, WRITE);
    w, c := Move(w0, c0, Client(1, WRITE));
    Takes(c.nodes[2], 2, [1, 3], 1, log, 1, 1, [x]);
    w, c := Move(w, c, Deliver(Packet(1, 2, m)));
    Takes(c.nodes[3], 3, [1, 2], 1, log, 1, 1, [x]);
    w, c := Move(w, c, Deliver(Packet(1, 3, m)));
  }

  lemma {:induction false} Filled(n: nat) returns (w: Trace, c: Cluster, log: seq<LogEntry>)
    ensures At(w, c) && InStep(c, log) && Bulk(log, n)
  {
    hide At, InStep;
    if n == 0 {
      w, c := Opening();
      log := [];
    } else {
      w, c, log := Filled(n - 1);
      w, c := OneMore(w, c, log);
      log := log + [LogEntry(1, |log| + 1, WRITE)];
    }
  }

  /** Node 3 wins term 2 with node 2's vote. */
  lemma ThreeLeads(w0: Trace, c0: Cluster, log: seq<LogEntry>) returns (w: Trace, c: Cluster)
    requires At(w0, c0) && InStep(c0, log)
    ensures At(w, c) && Lead(c.nodes[1], 1, [2, 3], 1, log)
    ensures Foll(c.nodes[2], 2, [1, 3], 2, log) && Lead(c.nodes[3], 3, [1, 2], 2, log)
    ensures Packet(3, 1, RequestVote(2, 3, |log|, LastTerm(log))) in c.net
  {
    hide Reached, SoFarCredited, N.OnMessage, N.OnElectionTimer;
    var ask := RequestVote(2, 3, |log|, LastTerm(log));
    Stands(c0.nodes[3], 3, [1, 2], 1, log);
    w, c := Move(w0, c0, Timer(3, c0.nodes[3].timer.gen));
    Votes(c.nodes[2], 2, [1, 3], 1, log, 3, 2, |log|, LastTerm(log));
    w, c := Move(w, c, Deliver(Packet(3, 2, ask)));
    TakesOffice(c.nodes[3], 3, [1, 2], 2, log, 2);
    w, c := Move(w, c, Deliver(Packet(2, 3, RequestVoteReply(2, true))));
  }

  /** Node 3 appends an entry that reaches nobody, and node 1 steps down. */
  lemma ThreeAppends(w0: Trace, c0: Cluster, log: seq<LogEntry>) returns (w: Trace, c: Cluster)
    requires At(w0, c0) && Lead(c0.nodes[1], 1, [2, 3], 1, log) && |log| == B
    requires Foll(c0.nodes[2], 2, [1, 3], 2, log) && Lead(c0.nodes[3], 3, [1, 2], 2, log)
    requires Packet(3, 1, RequestVote(2, 3, |log|, LastTerm(log))) in c0.net
    ensures At(w, c) && Foll(c.nodes[1], 1, [2, 3], 2, log)
    ensures Foll(c.nodes[2], 2, [1, 3], 2, log) && Lead(c.nodes[3], 3, [1, 2], 2, log + [STALE])
  {
    hide Reached, SoFarCredited, N.OnMessage, N.Submit;
    Submits(c0.nodes[3], 3, [1, 2], 2, log, STALE.cmd);
    w, c := Move(w0, c0, Client(3, STALE.cmd));
    Votes(c.nodes[1], 1, [2, 3], 1, log, 3, 2, |log|, LastTerm(log));
    w, c := Move(w, c, Deliver(Packet(3, 1, RequestVote(2, 3, |log|, LastTerm(log)))));
  }

  /** Node 1 wins term 3 with node 2's vote. */
  lemma OneReturns(w0: Trace, c0: Cluster, log: seq<LogEntry>) returns (w: Trace, c: Cluster)
    requires At(w0, c0) && Foll(c0.nodes[1], 1, [2, 3], 2, log)
    requires Foll(c0.nodes[2], 2, [1, 3], 2, log) && Lead(c0.nodes[3], 3, [1, 2], 2, log + [STALE])
    ensures At(w, c) && Lead(c.nodes[1], 1, [2, 3], 3, log)
    ensures Foll(c.nodes[2], 2, [1, 3], 3, log) && Foll(c.nodes[3], 3, [1, 2], 3, log + [STALE])
  {
    hide Reached, SoFarCredited, N.OnMessage, N.OnElectionTimer;
    var ask := RequestVote(3, 1, |log|, LastTerm(log));
    Stands(c0.nodes[1], 1, [2, 3], 2, log);
    w, c := Move(w0, c0, Timer(1, c0.nodes[1].timer.gen));
    Votes(c.nodes[2], 2, [1, 3], 2, log, 1, 3, |log|, LastTerm(log));
    w, c := Move(w, c, Deliver(Packet(1, 2, ask)));
    TakesOffice(c.nodes[1], 1, [2, 3], 3, log, 2);
    w, c := Move(w, c, Deliver(Packet(2, 1, RequestVoteReply(3, true))));
    Votes(c.nodes[3], 3, [1, 2], 2, log + [STALE], 1, 3, |log|, LastTerm(log));
    w, c := Move(w, c, Deliver(Packet(1, 3, ask)));
  }

  const ACK := Packet(2, 1, AppendEntriesReply(3, true, 0, 0))

  /** Node 1 appends an entry, which node 2 stores and answers. */
  lemma OneAppends(w0: Trace, c0: Cluster, log: seq<LogEntry>) returns (w: Trace, c: Cluster)
    requires At(w0, c0) && Lead(c0.nodes[1], 1, [2, 3], 3, log) && |log| == B
    requires Foll(c0.nodes[2], 2, [1, 3], 3, log) && Foll(c0.nodes[3], 3, [1, 2], 3, log + [STALE])
    ensures At(w, c) && Lead(c.nodes[1], 1, [2, 3], 3, log + [FRESH]) && ACK in c.net
    ensures Foll(c.nodes[2], 2, [1, 3], 3, log + [FRESH]) && Foll(c.nodes[3], 3, [1, 2], 3, log + [STALE])
  {
    hide Reached, SoFarCredited, N.OnMessage, N.Submit;
    Submits(c0.nodes[1], 1, [2, 3], 3, log, FRESH.cmd);
    w, c := Move(w0, c0, Client(1, FRESH.cmd));
    Takes(c.nodes[2], 2, [1, 3], 3, log, 1, 3, [FRESH]);
    w, c := Move(w, c, Deliver(Packet(1, 2, AppendEntries(3, 1, |log|, LastTerm(log), [FRESH], 0))));
  }

  /** With that answer, the only one of the run, node 1 commits its log. */
  lemma OneCommits(w0: Trace, c0: Cluster, log: seq<LogEntry>) returns (w: Trace, c: Cluster)
    requires At(w0, c0) && Lead(c0.nodes[1], 1, [2, 3], 3, log + [FRESH]) && ACK in c0.net && Bulk(log, B)
    requires Foll(c0.nodes[2], 2, [1, 3], 3, log + [FRESH]) && Foll(c0.nodes[3], 3, [1, 2], 3, log + [STALE])
    ensures At(w, c) && Done(c.nodes[1], 1, [2, 3], 3, log + [FRESH])
    ensures Foll(c.nodes[3], 3, [1, 2], 3, log + [STALE])
  {
    hide Reached, SoFarCredited, N.OnMessage, K.Replay;
    Commits(c0.nodes[1], 1, [2, 3], 3, log + [FRESH], 2);
    w, c := Move(w0, c0, Deliver(ACK));
  }

  const REFUSAL := Packet(3, 1, AppendEntriesReply(3, false, 0, 0))

  /** The first announcement, delivered again, makes node 1 send node 3 a full request. */
  lemma OneResends(w0: Trace, c0: Cluster, log: seq<LogEntry>) returns (w: Trace, c: Cluster)
    requires At(w0, c0) && Done(c0.nodes[1], 1, [2, 3], 3, log + [FRESH]) && Bulk(log, B)
    requires Foll(c0.nodes[3], 3, [1, 2], 3, log + [STALE])
    ensures At(w, c) && Done(c.nodes[1], 1, [2, 3], 3, log + [FRESH])
    ensures Foll(c.nodes[3], 3, [1, 2], 3, log + [STALE])
    ensures Packet(1, 3, AppendEntries(3, 1, 0, 0, log, B + 1)) in c.net
  {
    hide Reached, SoFarCredited, N.OnMessage, K.Replay;
    Refuses(c0.nodes[3], 3, [1, 2], 3, log + [STALE]);
    w, c := Move(w0, c0, Deliver(Packet(1, 3, HELLO)));
    StartsOver(c.nodes[1], 1, [2, 3], 3, log, FRESH, 3);
    w, c := Move(w, c, Deliver(REFUSAL));
  }

  // ---------------------------------------------------------------- two nodes that have applied different entries

  /** All of the above: one step away from the end. */
  lemma Prepared() returns (w: Trace, c: Cluster, log: seq<LogEntry>)
    ensures At(w, c) && Done(c.nodes[1], 1, [2, 3], 3, log + [FRESH]) && Bulk(log, B)
    ensures Foll(c.nodes[3], 3, [1, 2], 3, log + [STALE])
    ensures Packet(1, 3, AppendEntries(3, 1, 0, 0, log, B + 1)) in c.net
  {
    hide Reached, SoFarCredited, Lead, Foll, Done;
    w, c, log := Filled(B);
    w, c := ThreeLeads(w, c, log);
    w, c := ThreeAppends(w, c, log);
    w, c := OneReturns(w, c, log);
    w, c := OneAppends(w, c, log);
    w, c := OneCommits(w, c, log);
    w, c := OneResends(w, c, log);
  }

  lemma LastValue(log: seq<LogEntry>, x: LogEntry)
    requires x.cmd.Put?
    ensures x.cmd.key in K.Replay(log + [x]) && K.Replay(log + [x])[x.cmd.key] == x.cmd.value
  {
    assert (log + [x])[..|log|] == log;
  }

  /** The full request is a step at which the follower's log does not match its leader's. */
  lemma DoesNotMatch(w: Trace, c: Cluster, log: seq<LogEntry>, k: nat)
    requires Reached(w, c) && k + 1 < |w.run| && k < |w.steps| && Bulk(log, B) && w.run[k].nodes.Keys == TRIO
    requires w.steps[k] == Deliver(Packet(1, 3, AppendEntries(3, 1, 0, 0, log, B + 1)))
    requires Done(w.run[k].nodes[1], 1, [2, 3], 3, log + [FRESH]) && Foll(w.run[k].nodes[3], 3, [1, 2], 3, log + [STALE])
    ensures !Matches(w.run, w.steps, k)
  {
    hide Reached, IsRunBy, IsRun, Merge, K.Replay;
    ReachedRun(w, c);
    ByIsRun(TRIO, w.run, w.steps);
    KeepsAll(log + [STALE], log);
    forall b: nat | b <= k && LeadsAt(w.run, b, 1, 3) && B + 1 <= |LogAt(w.run, b, 1)|
      ensures LogAt(w.run, b, 1)[B].term == 3
    {
      LeaderAppendOnly(TRIO, w.run, b, k, 1, 3);
      assert LogAt(w.run, k, 1)[B] == FRESH;
    }
    assert MergedLog(w.run, w.steps, k) == log + [STALE] && CommitOf(w.run, w.steps, k) == B + 1;
  }

  lemma {:induction false} KeepsAll(log: seq<LogEntry>, es: seq<LogEntry>)
    requires forall k | 0 <= k < |es| :: 0 < es[k].index <= |log| && log[es[k].index - 1].term == es[k].term
    ensures Merge(log, es) == log
    decreases |es|
  {
    if es != [] { KeepsAll(log, es[1..]); }
  }

  /** State Machine Safety fails without `Matches`: here is a run in which every reply is credited with what
      was stored, and nodes 1 and 3 have both applied an entry at index 65, not the same one.  The step at
      which it goes wrong is the last, where node 3's log does not match its leader's. */
  lemma AppliedDisagree() returns (w: Trace)
    ensures IsRunBy(TRIO, w.run, w.steps) && AllCredited(TRIO, w.run, w.steps) && |w.run| == |w.steps| + 1 && |w.steps| > 0
    ensures !Matches(w.run, w.steps, |w.steps| - 1)
    ensures !AppliedAgree(w.run)
    ensures var c := w.run[|w.steps|];
            && 1 in c.nodes && 3 in c.nodes && c.nodes[1].running && c.nodes[3].running
            && c.nodes[1].lastApplied == c.nodes[3].lastApplied == N.MAX_ENTRIES_PER_AE + 1
            && "k" in c.nodes[1].kv && c.nodes[1].kv["k"] == "fresh"
            && "k" in c.nodes[3].kv && c.nodes[3].kv["k"] == "stale"
  {
    hide Reached, IsRunBy, AllCredited, AppliedAgree, Matches, N.OnMessage, K.Replay;
    var c, log;
    w, c, log := Prepared();
    ReachedRun(w, c);
    CommitsTooFar(c.nodes[3], 3, [1, 2], 3, log, STALE, 1);
    w, c := Move(w, c, Deliver(Packet(1, 3, AppendEntries(3, 1, 0, 0, log, B + 1))));
    ReachedRun(w, c);
    LastValue(log, FRESH);
    LastValue(log, STALE);
    DoesNotMatch(w, c, log, |w.steps| - 1);
    AgreeIffMatch(TRIO, w.run, w.steps);
  }
}
