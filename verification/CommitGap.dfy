/**
  Leader Completeness is about what a majority stored.  The leader's own commit rule goes by its
  match points instead, and a match point is taken from `next_index_`, which moves when entries are
  sent.  Any success reply of the current term is therefore credited with everything sent so far,
  whichever request it answers, and an index can be committed that only the leader holds.
*/
module CommitGap {
  import opened RaftTypes
  import opened RaftCluster
  import opened StepEffects
  import opened CommitSafety
  import opened Scenario
  import RaftTheorems
  import N = RaftNode
  import L = CompactedLog

  /** A success reply credits the follower with everything sent to it, not with what it answers. */
  lemma ReplyCreditsWhatWasSent(n: N.Node, from: NodeId, conflictIndex: nat, conflictTerm: nat)
    requires n.role == Leader
    ensures var n' := N.HandleAppendEntriesReply(n, from, AppendEntriesReply(n.term, true, conflictIndex, conflictTerm)).node;
            N.IndexOf(n'.matchIndex, from) == L.Max(N.IndexOf(n.matchIndex, from), N.SentUpTo(n, from))
  {
    hide N.MaybeAdvanceCommit;
    MaybeAdvanceOnly(Acked(n, from));
  }

  // ---------------------------------------------------------------- a run that loses a committed entry

  const WRITE := Put("k", "v")
  const ENTRY := LogEntry(1, 1, WRITE)
  const REPLY := Packet(2, 1, AppendEntriesReply(1, true, 0, 0))

  /** Node 2 answers the empty request, node 1 sends an entry that never arrives. */
  lemma EntrySent() returns (w: Trace, c: Cluster)
    ensures Reached(w, c) && TwoIsEmpty(w) && c.nodes.Keys == TRIO && REPLY in c.net
    ensures Lead(c.nodes[1], 1, [2, 3], 1, [ENTRY])
    ensures Foll(c.nodes[2], 2, [1, 3], 1, []) && Foll(c.nodes[3], 3, [1, 2], 0, [])
  {
    hide Reached, TwoIsEmpty, SoFarCredited, N.OnMessage, N.Submit;
    w, c := OneLeads();
    Takes(c.nodes[2], 2, [1, 3], 1, [], 1, 1, []);
    w, c := Go(w, c, Deliver(Packet(1, 2, HELLO)));
    Submits(c.nodes[1], 1, [2, 3], 1, [], WRITE);
    w, c := Go(w, c, Client(1, WRITE));
  }

  /** The late answer to the empty request commits the entry. */
  lemma BadCommit() returns (w: Trace, c: Cluster)
    ensures Reached(w, c) && TwoIsEmpty(w) && c.nodes.Keys == TRIO && Done(c.nodes[1], 1, [2, 3], 1, [ENTRY])
    ensures Foll(c.nodes[2], 2, [1, 3], 1, []) && Foll(c.nodes[3], 3, [1, 2], 0, [])
    ensures |w.run| >= 2 && |w.steps| == |w.run| - 1 && w.steps[|w.steps| - 1] == Deliver(REPLY)
    ensures var before := w.run[|w.run| - 2]; 1 in before.nodes && Lead(before.nodes[1], 1, [2, 3], 1, [ENTRY])
  {
    hide Reached, TwoIsEmpty, SoFarCredited, N.OnMessage, Lead, Done;
    w, c := EntrySent();
    ReachedRun(w, c);
    Commits(c.nodes[1], 1, [2, 3], 1, [ENTRY], 2);
    w, c := Go(w, c, Deliver(REPLY));
  }

  lemma NotCredited(w: Trace, c: Cluster, k: nat)
    requires Reached(w, c) && TwoIsEmpty(w) && k < |w.steps| && w.steps[k] == Deliver(REPLY)
    requires 1 in w.run[k].nodes && Lead(w.run[k].nodes[1], 1, [2, 3], 1, [ENTRY])
    ensures !Credited(TRIO, w.run, w.steps, k)
  {
    hide IsRunBy;
    ReachedRun(w, c);
    var run := w.run;
    forall b: nat | b <= k ensures !RaftTheorems.StoresAt(run, b, 2, 1, 1) { assert run[b].nodes[2].log == L.EMPTY; }
    assert !StoredBy(run, k, 2, 1, 0 + 1);
    assert RaftTheorems.LogAt(run, k, 1)[0].term == 1;
    assert !PointBacked(TRIO, run, k, 1, 2, 1);
  }

  /** Node 2, whose log is empty, wins term 2 with node 3's vote. */
  lemma TwoLeads(w0: Trace, c0: Cluster) returns (w: Trace, c: Cluster)
    requires Reached(w0, c0) && TwoIsEmpty(w0) && c0.nodes.Keys == TRIO
    requires Foll(c0.nodes[2], 2, [1, 3], 1, []) && Foll(c0.nodes[3], 3, [1, 2], 0, [])
    ensures Reached(w, c) && TwoIsEmpty(w) && Extended(w0, w) && |w0.run| < |w.run|
    ensures 2 in c.nodes && Lead(c.nodes[2], 2, [1, 3], 2, [])
  {
    hide Reached, TwoIsEmpty, SoFarCredited, N.OnMessage, N.OnElectionTimer;
    Stands(c0.nodes[2], 2, [1, 3], 1, []);
    w, c := Go(w0, c0, Timer(2, c0.nodes[2].timer.gen));
    Votes(c.nodes[3], 3, [1, 2], 0, [], 2, 2, 0, 0);
    w, c := Go(w, c, Deliver(Packet(2, 3, RequestVote(2, 2, 0, 0))));
    TakesOffice(c.nodes[2], 2, [1, 3], 2, [], 3);
    w, c := Go(w, c, Deliver(Packet(3, 2, RequestVoteReply(2, true))));
  }

  /** State Machine Safety is not a property of this code: here is a run in which the leader of term 1
      commits an entry at index 1 and the leader of term 2 has an empty log.  The step that commits is a
      reply credited with an entry that its sender never stored. */
  lemma CommittedEntryLost() returns (w: Trace, a: nat, b: nat)
    ensures IsRunBy(TRIO, w.run, w.steps) && 0 < a < b < |w.run| && 1 in w.run[a].nodes && 2 in w.run[b].nodes
    ensures w.run[a].nodes[1].role == Leader && w.run[a].nodes[1].term == 1
    ensures w.run[a].nodes[1].commitIndex == 1 && w.run[a].nodes[1].log.entries == [ENTRY]
    ensures w.run[b].nodes[2].role == Leader && w.run[b].nodes[2].term == 2 && w.run[b].nodes[2].log == L.EMPTY
    ensures !Credited(TRIO, w.run, w.steps, a - 1)
  {
    hide Reached, TwoIsEmpty, IsRunBy, Foll, Credited;
    var early, d := BadCommit();
    var c;
    w, c := TwoLeads(early, d);
    ReachedRun(early, d);
    ReachedRun(w, c);
    a, b := |early.run| - 1, |w.run| - 1;
    assert w.run[a] == early.run[a] && w.run[a - 1] == early.run[a - 1] && w.steps[a - 1] == early.steps[a - 1];
    NotCredited(w, c, a - 1);
  }
}
