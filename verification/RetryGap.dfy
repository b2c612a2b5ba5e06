/**
  Retries that never find the divergence point: a leader whose first request to a node is lost, and a node with
  two entries of a term that the leader does not have.
*/
module RetryGap {
  import opened RaftTypes
  import opened RaftProtocol
  import opened RaftCluster
  import opened RaftTheorems
  import opened HandlerRules
  import opened Scenario
  import Backtracking
  import N = RaftNode

  const WRITE := Put("k", "v")
  const OLD := [LogEntry(1, 1, WRITE), LogEntry(1, 2, WRITE)]
  const NEW := [LogEntry(2, 1, WRITE)]

  /** Node 1, leading term 1, appends two entries that reach nobody. */
  lemma TwoEntries() returns (w: Trace, c: Cluster)
    ensures Reached(w, c) && c.nodes.Keys == TRIO && Lead(c.nodes[1], 1, [2, 3], 1, OLD)
    ensures Foll(c.nodes[2], 2, [1, 3], 1, []) && Foll(c.nodes[3], 3, [1, 2], 0, [])
  {
    hide Reached, TwoIsEmpty, SoFarCredited, N.Submit;
    w, c := OneLeads();
    Submits(c.nodes[1], 1, [2, 3], 1, [], WRITE);
    w, c := Go(w, c, Client(1, WRITE));
    assert [] + [LogEntry(1, 1, WRITE)] == [LogEntry(1, 1, WRITE)];
    Submits(c.nodes[1], 1, [2, 3], 1, [LogEntry(1, 1, WRITE)], WRITE);
    w, c := Go(w, c, Client(1, WRITE));
    assert [LogEntry(1, 1, WRITE)] + [LogEntry(1, 2, WRITE)] == OLD;
  }

  /** Node 2 wins term 2 with node 3's vote. */
  lemma TwoWins() returns (w: Trace, c: Cluster)
    ensures Reached(w, c) && c.nodes.Keys == TRIO && Lead(c.nodes[1], 1, [2, 3], 1, OLD) && Lead(c.nodes[2], 2, [1, 3], 2, [])
    ensures Packet(2, 1, RequestVote(2, 2, 0, 0)) in c.net
  {
    hide Reached, TwoIsEmpty, SoFarCredited, N.OnMessage, N.OnElectionTimer;
    w, c := TwoEntries();
    Stands(c.nodes[2], 2, [1, 3], 1, []);
    w, c := Go(w, c, Timer(2, c.nodes[2].timer.gen));
    Votes(c.nodes[3], 3, [1, 2], 0, [], 2, 2, 0, 0);
    w, c := Go(w, c, Deliver(Packet(2, 3, RequestVote(2, 2, 0, 0))));
    TakesOffice(c.nodes[2], 2, [1, 3], 2, [], 3);
    w, c := Go(w, c, Deliver(Packet(3, 2, RequestVoteReply(2, true))));
  }

  /** Node 1 steps down, and node 2 sends its first entry. */
  lemma FirstEntrySent() returns (w: Trace, c: Cluster)
    ensures Reached(w, c) && c.nodes.Keys == TRIO && Lead(c.nodes[2], 2, [1, 3], 2, NEW) && Foll(c.nodes[1], 1, [2, 3], 2, OLD)
  {
    hide Reached, TwoIsEmpty, SoFarCredited, N.OnMessage, N.Submit;
    w, c := TwoWins();
    Votes(c.nodes[1], 1, [2, 3], 1, OLD, 2, 2, 0, 0);
    w, c := Go(w, c, Deliver(Packet(2, 1, RequestVote(2, 2, 0, 0))));
    Submits(c.nodes[2], 2, [1, 3], 2, [], WRITE);
    w, c := Go(w, c, Client(2, WRITE));
    assert [] + NEW == NEW;
  }

  lemma Repeats()
    ensures !Backtracking.Unrepeated(NEW, OLD, 1)
  {
    var lead, log := NEW, OLD;
    assert !Backtracking.Knows(lead, 1);
    assert Backtracking.Foreign(lead, log, 0, 1) && log[0].term == log[0 + 1].term;
  }

  /** A run after which every heartbeat of the leader asks node 1 for a predecessor it lacks, and no number of
      refusals and retries comes to one it has. */
  lemma RetriesForever() returns (w: Trace, c: Cluster)
    ensures IsRunBy(TRIO, w.run, w.steps) && |w.run| == |w.steps| + 1 && w.run[|w.steps|] == c && 1 in c.nodes && 2 in c.nodes
    ensures c.nodes[2].running && c.nodes[2].role == Leader && c.nodes[1].running && c.nodes[1].term == c.nodes[2].term
    ensures c.nodes[2].log.entries == NEW && c.nodes[1].log.entries == OLD && InRange(c.nodes[2], 1)
    ensures Packet(2, 1, Request(c.nodes[2], 1)) in N.OnHeartbeat(c.nodes[2]).sent
    ensures forall rounds: nat :: !Backtracking.Succeeds(c.nodes[2], c.nodes[1], Request(c.nodes[2], 1), rounds)
  {
    hide Reached, N.OnHeartbeat, N.OnMessage, IsRunBy, IsRun;
    w, c := FirstEntrySent();
    ReachedRun(w, c);
    ByIsRun(TRIO, w.run, w.steps);
    var n := c.nodes[2];
    var k := HeartbeatRule(n);
    assert n.peers == [1, 3] && n.peers[0] == 1 && n.peers[1] == 3 && k == 2;
    assert N.OnHeartbeat(n).sent[0] == Packet(2, 1, Request(n, 1));
    Repeats();
    Backtracking.BacktrackingIff(TRIO, w.run, |w.steps|, 2, 1, Request(n, 1), 1);
  }
}
