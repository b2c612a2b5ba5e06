/**
  Building blocks for concrete runs of three nodes: what the handlers of `RaftNode` do to a follower, a
  candidate and a leader with a given log and nothing committed.
*/
module Scenario {
  import opened RaftTypes
  import opened RaftProtocol
  import opened RaftCluster
  import opened StepEffects
  import opened RaftTheorems
  import opened CommitSafety
  import CommitRule
  import N = RaftNode
  import L = CompactedLog
  import K = KvStore

  // ---------------------------------------------------------------- nodes

  predicate TwoPeers(id: NodeId, peers: seq<NodeId>) {
    |peers| == 2 && peers[0] != id && peers[1] != id && peers[0] != peers[1]
  }

  predicate Indexed(log: seq<LogEntry>) { forall k | 0 <= k < |log| :: log[k].index == k + 1 }

  /** A running node of term `t` with this log and nothing committed. */
  predicate Up(n: N.Node, id: NodeId, peers: seq<NodeId>, t: nat, log: seq<LogEntry>) {
    && n.id == id && n.peers == peers && n.running && n.term == t && n.log == L.Log(0, 0, log)
    && n.commitIndex == 0 && n.lastApplied == 0 && n.kv == map[]
  }

  predicate Foll(n: N.Node, id: NodeId, peers: seq<NodeId>, t: nat, log: seq<LogEntry>) {
    Up(n, id, peers, t, log) && n.role == Follower && n.timer.gen in n.timer.pending
  }

  predicate Cand(n: N.Node, id: NodeId, peers: seq<NodeId>, t: nat, log: seq<LogEntry>) {
    Up(n, id, peers, t, log) && n.role == Candidate && n.electionTerm == t && n.votes == {}
  }

  /** A leader that has sent its whole log to both peers and heard nothing back. */
  predicate Lead(n: N.Node, id: NodeId, peers: seq<NodeId>, t: nat, log: seq<LogEntry>) {
    && Up(n, id, peers, t, log) && n.role == Leader && |peers| == 2
    && N.IndexOf(n.nextIndex, peers[0]) == |log| + 1 && N.IndexOf(n.nextIndex, peers[1]) == |log| + 1
    && id in n.matchIndex && n.matchIndex[id] == |log|
    && forall p | p in n.matchIndex && p != id :: n.matchIndex[p] == 0
  }

  /** A leader that has committed and applied its whole log. */
  predicate Done(n: N.Node, id: NodeId, peers: seq<NodeId>, t: nat, log: seq<LogEntry>) {
    && n.id == id && n.peers == peers && n.running && n.role == Leader && n.term == t && n.log == L.Log(0, 0, log)
    && n.commitIndex == n.lastApplied == |log| && n.kv == K.Replay(log)
  }

  // ---------------------------------------------------------------- elections

  lemma Starts(id: NodeId, peers: seq<NodeId>)
    ensures Foll(N.Restart(N.Created(id, peers)), id, peers, 0, [])
  {
  }

  lemma Stands(n: N.Node, id: NodeId, peers: seq<NodeId>, t: nat, log: seq<LogEntry>)
    requires Foll(n, id, peers, t, log) && TwoPeers(id, peers)
    ensures var e, ask := N.OnElectionTimer(n, n.timer.gen), RequestVote(t + 1, id, |log|, LastTerm(log));
            && Cand(e.node, id, peers, t + 1, log)
            && Packet(id, peers[0], ask) in e.sent && Packet(id, peers[1], ask) in e.sent
  {
    var e, ask := N.OnElectionTimer(n, n.timer.gen), RequestVote(t + 1, id, |log|, LastTerm(log));
    assert e.sent[0] == Packet(id, peers[0], ask) && e.sent[1] == Packet(id, peers[1], ask);
  }

  /** A request of a later term makes any node a follower, which votes by its log alone. */
  lemma Votes(n: N.Node, id: NodeId, peers: seq<NodeId>, t: nat, log: seq<LogEntry>, c: NodeId, t': nat, index: nat, term: nat)
    requires Up(n, id, peers, t, log) && t < t'
    ensures var e := N.OnMessage(n, c, RequestVote(t', c, index, term));
            && Foll(e.node, id, peers, t', log)
            && e.sent == [Packet(id, c, RequestVoteReply(t', UpToDate(index, term, log)))]
  {
  }

  lemma Wins(n: N.Node, id: NodeId, peers: seq<NodeId>, t: nat, log: seq<LogEntry>, v: NodeId)
    requires Cand(n, id, peers, t, log) && TwoPeers(id, peers)
    ensures N.OnMessage(n, v, RequestVoteReply(t, true)) == N.ReplicateAll(N.Elected(n.(votes := {v})), peers).effect
  {
  }

  /** Sending to both peers, one after the other. */
  lemma SendsBoth(n: N.Node, peers: seq<NodeId>, m: Message, next: nat)
    requires |peers| == 2
    requires N.ReplicateTo(n, peers[0]) == N.Replicated(N.SendTo(n.(nextIndex := n.nextIndex[peers[0] := next]), peers[0], m), false)
    requires var n1 := n.(nextIndex := n.nextIndex[peers[0] := next]);
             N.ReplicateTo(n1, peers[1]) == N.Replicated(N.SendTo(n1.(nextIndex := n1.nextIndex[peers[1] := next]), peers[1], m), false)
    ensures var r := N.ReplicateAll(n, peers);
            && !r.threw
            && r.effect.node == n.(nextIndex := n.nextIndex[peers[0] := next][peers[1] := next])
            && Packet(n.id, peers[0], m) in r.effect.sent && Packet(n.id, peers[1], m) in r.effect.sent
  {
    hide N.ReplicateTo;
    assert peers[1..][0] == peers[1] && peers[1..][1..] == [];
    var n1 := n.(nextIndex := n.nextIndex[peers[0] := next]);
    var n2 := n1.(nextIndex := n1.nextIndex[peers[1] := next]);
    assert N.ReplicateAll(n2, []) == N.Replicated(N.Effect(n2, []), false);
    assert N.ReplicateAll(n1, peers[1..]) == N.Replicated(N.Effect(n2, [Packet(n.id, peers[1], m)] + []), false);
    assert N.ReplicateAll(n, peers).effect.sent == [Packet(n.id, peers[0], m)] + ([Packet(n.id, peers[1], m)] + []);
  }

  /** A leader with nothing new to send sends an empty request, and its next index stays. */
  lemma SendsEmpty(n: N.Node, peer: NodeId, log: seq<LogEntry>)
    requires n.role == Leader && n.log == L.Log(0, 0, log) && peer in n.nextIndex && n.nextIndex[peer] == |log| + 1
    ensures N.ReplicateTo(n, peer) ==
            N.Replicated(N.SendTo(n, peer, AppendEntries(n.term, n.id, |log|, LastTerm(log), [], n.commitIndex)), false)
    ensures n == n.(nextIndex := n.nextIndex[peer := |log| + 1])
  {
    assert n.nextIndex == n.nextIndex[peer := |log| + 1];
  }

  lemma TakesOffice(n: N.Node, id: NodeId, peers: seq<NodeId>, t: nat, log: seq<LogEntry>, v: NodeId)
    requires Cand(n, id, peers, t, log) && TwoPeers(id, peers)
    ensures var e, m := N.OnMessage(n, v, RequestVoteReply(t, true)), AppendEntries(t, id, |log|, LastTerm(log), [], 0);
            && Lead(e.node, id, peers, t, log)
            && Packet(id, peers[0], m) in e.sent && Packet(id, peers[1], m) in e.sent
  {
    hide N.OnMessage, N.ReplicateTo, N.ReplicateAll;
    Wins(n, id, peers, t, log, v);
    var l := N.Elected(n.(votes := {v}));
    assert peers[0] in peers && peers[1] in peers;
    SendsEmpty(l, peers[0], log);
    SendsEmpty(l, peers[1], log);
    SendsBoth(l, peers, AppendEntries(t, id, |log|, LastTerm(log), [], 0), |log| + 1);
  }

  // ---------------------------------------------------------------- replication

  lemma SendsOne(n: N.Node, peer: NodeId, log: seq<LogEntry>, e: LogEntry)
    requires n.role == Leader && n.log == L.Log(0, 0, log + [e]) && N.IndexOf(n.nextIndex, peer) == |log| + 1
    requires e.index == |log| + 1
    ensures N.ReplicateTo(n, peer) ==
            N.Replicated(N.SendTo(n.(nextIndex := n.nextIndex[peer := |log| + 2]), peer,
                                  AppendEntries(n.term, n.id, |log|, LastTerm(log), [e], n.commitIndex)), false)
  {
    assert n.log.Slice(|log|, L.Min(|log| + N.MAX_ENTRIES_PER_AE, |log| + 1)) == [e];
  }

  lemma AppendsOne(n: N.Node, id: NodeId, peers: seq<NodeId>, t: nat, log: seq<LogEntry>, cmd: Command)
    requires Lead(n, id, peers, t, log) && TwoPeers(id, peers)
    ensures var r, x := Submitted(n, cmd), LogEntry(t, |log| + 1, cmd);
            var m := AppendEntries(t, id, |log|, LastTerm(log), [x], 0);
            && !r.threw && Lead(r.effect.node, id, peers, t, log + [x])
            && Packet(id, peers[0], m) in r.effect.sent && Packet(id, peers[1], m) in r.effect.sent
  {
    hide N.ReplicateTo, N.ReplicateAll;
    var x := LogEntry(t, |log| + 1, cmd);
    var l := N.Appended(n, cmd);
    SendsOne(l, peers[0], log, x);
    SendsOne(l.(nextIndex := l.nextIndex[peers[0] := |log| + 2]), peers[1], log, x);
    SendsBoth(l, peers, AppendEntries(t, id, |log|, LastTerm(log), [x], 0), |log| + 2);
  }

  /** With no match point but its own, the leader commits nothing. */
  lemma {:induction false} NotYet(n: N.Node, id: NodeId, peers: seq<NodeId>, t: nat, log: seq<LogEntry>, hi: nat)
    requires Lead(n, id, peers, t, log)
    ensures N.CommitPoint(n, hi) == None
    decreases hi
  {
    if hi > 0 {
      assert N.Matched(n, hi) <= {id};
      SizeOfSubset(N.Matched(n, hi), id);
      NotYet(n, id, peers, t, log, hi - 1);
    }
  }

  lemma SizeOfSubset(a: set<NodeId>, x: NodeId)
    requires a <= {x}
    ensures |a| <= 1
  {
    if x in a { assert a == {x}; } else { assert a == {}; }
  }

  lemma Submits(n: N.Node, id: NodeId, peers: seq<NodeId>, t: nat, log: seq<LogEntry>, cmd: Command)
    requires Lead(n, id, peers, t, log) && TwoPeers(id, peers)
    ensures var e, x := N.Submit(n, cmd), LogEntry(t, |log| + 1, cmd);
            var m := AppendEntries(t, id, |log|, LastTerm(log), [x], 0);
            && Lead(e.node, id, peers, t, log + [x])
            && Packet(id, peers[0], m) in e.sent && Packet(id, peers[1], m) in e.sent
  {
    hide N.ReplicateAll, N.CommitPoint, Lead;
    AppendsOne(n, id, peers, t, log, cmd);
    RunningLeader(n, id, peers, t, log);
    var l := Submitted(n, cmd).effect.node;
    NotYet(l, id, peers, t, log + [LogEntry(t, |log| + 1, cmd)], l.log.LastIndex());
  }

  lemma RunningLeader(n: N.Node, id: NodeId, peers: seq<NodeId>, t: nat, log: seq<LogEntry>)
    requires Lead(n, id, peers, t, log)
    ensures n.running && n.role == Leader && n.peers == peers
  {
  }

  /** A follower takes a request that continues its log. */
  lemma Takes(n: N.Node, id: NodeId, peers: seq<NodeId>, t: nat, log: seq<LogEntry>, l: NodeId, t': nat, es: seq<LogEntry>)
    requires Up(n, id, peers, t, log) && t <= t' && |es| <= 1 && (|es| == 1 ==> es[0].index == |log| + 1)
    ensures var e := N.OnMessage(n, l, AppendEntries(t', l, |log|, LastTerm(log), es, 0));
            && Foll(e.node, id, peers, t', log + es)
            && e.sent == [Packet(id, l, AppendEntriesReply(t', true, 0, 0))]
  {
    hide N.MergeEntries;
    MergesOn(log, es);
  }

  lemma MergesOn(log: seq<LogEntry>, es: seq<LogEntry>)
    requires |es| <= 1 && (|es| == 1 ==> es[0].index == |log| + 1)
    ensures N.MergeEntries(L.Log(0, 0, log), es) == L.Log(0, 0, log + es)
  {
    if es == [] {
      assert log + es == log;
    } else {
      assert es[1..] == [] && es == [es[0]];
      assert N.MergeEntries(L.Log(0, 0, log + es), []) == L.Log(0, 0, log + es);
    }
  }

  // ---------------------------------------------------------------- committing

  lemma PairSize(a: set<NodeId>, x: NodeId, y: NodeId)
    requires x in a && y in a && x != y
    ensures |a| >= 2
  {
    assert |a - {x}| == |a| - 1 && y in a - {x};
  }

  /** A success reply of one peer makes a leader whose last entry is its own commit its whole log. */
  lemma Commits(n: N.Node, id: NodeId, peers: seq<NodeId>, t: nat, log: seq<LogEntry>, from: NodeId)
    requires Lead(n, id, peers, t, log) && from in peers && from != id && Indexed(log) && log != [] && LastTerm(log) == t
    ensures var e := N.OnMessage(n, from, AppendEntriesReply(t, true, 0, 0)); Done(e.node, id, peers, t, log)
  {
    hide N.MaybeAdvanceCommit, N.OnMessage, K.Replay;
    AckIs(n, Deliver(Packet(from, id, AppendEntriesReply(t, true, 0, 0))), from);
    var m := Acked(n, from);
    assert {id, from} <= N.Matched(m, |log|);
    PairSize(N.Matched(m, |log|), id, from);
    NoReplay(log);
    CommitRule.AdvanceCommits(m, log);
    MaybeAdvanceOnly(m);
    assert N.Commits(m, |log|) && log[..|log|] == log;
  }

  lemma NoReplay(log: seq<LogEntry>)
    ensures K.Replay(log[..0]) == map[]
  {
  }

  // ---------------------------------------------------------------- runs

  const TRIO: set<NodeId> := {1, 2, 3}

  datatype Trace = Trace(run: seq<Cluster>, steps: seq<Step>)

  /** A run of three nodes that has reached `c`. */
  ghost predicate Reached(w: Trace, c: Cluster) {
    IsRunBy(TRIO, w.run, w.steps) && w.run[|w.run| - 1] == c
  }

  ghost predicate Extended(w: Trace, w': Trace) { IsPrefix(w.run, w'.run) && IsPrefix(w.steps, w'.steps) }

  /** Node 2 has not stored anything in the whole run. */
  ghost predicate TwoIsEmpty(w: Trace) {
    forall b | 0 <= b < |w.run| :: 2 in w.run[b].nodes && w.run[b].nodes[2].log == L.EMPTY
  }

  ghost predicate SoFarCredited(w: Trace) { AllCredited(TRIO, w.run, w.steps) }

  predicate IsSuccess(step: Step) {
    step.Deliver? && step.packet.msg.AppendEntriesReply? && step.packet.msg.success
  }

  /** What the leader has sent of its own term, the sender of the reply has now. */
  predicate StoredNow(c: Cluster, step: Step)
    requires IsSuccess(step)
  {
    var i, f := step.packet.to, step.packet.from;
    && i in c.nodes && f in c.nodes && f in TRIO
    && var n, m := c.nodes[i], c.nodes[f];
    && N.SentUpTo(n, f) <= |n.log.entries|
    && forall j | 0 <= j < N.SentUpTo(n, f) && n.log.entries[j].term == n.term ::
         m.term == n.term && j < |m.log.entries| && m.log.entries[j].term == n.term
  }

  lemma Go(w: Trace, c: Cluster, step: Step) returns (w': Trace, c': Cluster)
    requires Reached(w, c) && Enabled(c, step)
    ensures Reached(w', c') && c' == Take(c, step) && w' == Trace(w.run + [c'], w.steps + [step]) && Extended(w, w')
    ensures TwoIsEmpty(w) && 2 in c'.nodes && c'.nodes[2].log == L.EMPTY ==> TwoIsEmpty(w')
    ensures SoFarCredited(w) && (IsSuccess(step) ==> StoredNow(c, step)) ==> SoFarCredited(w')
  {
    hide Init, Take, SoFarCredited, StoredNow;
    c' := Take(c, step);
    w' := Trace(w.run + [c'], w.steps + [step]);
    forall k | 0 <= k < |w'.steps|
      ensures Enabled(w'.run[k], w'.steps[k]) && w'.run[k + 1] == Take(w'.run[k], w'.steps[k])
    {
      if k < |w.steps| { assert Enabled(w.run[k], w.steps[k]) && w.run[k + 1] == Take(w.run[k], w.steps[k]); }
    }
    if SoFarCredited(w) && (IsSuccess(step) ==> StoredNow(c, step)) { StaysCredited(w, w', c, step); }
  }

  lemma SameStores(run: seq<Cluster>, run': seq<Cluster>, a: nat, f: NodeId, t: nat, j: nat)
    requires IsPrefix(run, run') && a < |run| && StoredBy(run, a, f, t, j)
    ensures StoredBy(run', a, f, t, j)
  {
    var b: nat :| b <= a && StoresAt(run, b, f, t, j);
    assert StoresAt(run', b, f, t, j);
  }

  lemma SamePoint(run: seq<Cluster>, run': seq<Cluster>, a: nat, i: NodeId, f: NodeId, point: nat)
    requires IsPrefix(run, run') && a < |run| && i in run[a].nodes && PointBacked(TRIO, run, a, i, f, point)
    ensures PointBacked(TRIO, run', a, i, f, point)
  {
    hide StoredBy;
    var log, t := LogAt(run', a, i), run'[a].nodes[i].term;
    forall j | 0 <= j < point && log[j].term == t ensures StoredBy(run', a, f, t, j + 1) {
      assert LogAt(run, a, i)[j].term == t;
      SameStores(run, run', a, f, t, j + 1);
    }
  }

  lemma PointNow(run: seq<Cluster>, a: nat, step: Step)
    requires a < |run| && IsSuccess(step) && StoredNow(run[a], step)
    ensures PointBacked(TRIO, run, a, step.packet.to, step.packet.from, N.SentUpTo(run[a].nodes[step.packet.to], step.packet.from))
  {
    var i, f := step.packet.to, step.packet.from;
    var log, t := LogAt(run, a, i), run[a].nodes[i].term;
    forall j | 0 <= j < N.SentUpTo(run[a].nodes[i], f) && log[j].term == t ensures StoredBy(run, a, f, t, j + 1) {
      assert StoresAt(run, a, f, t, j + 1);
    }
  }

  lemma StaysCredited(w: Trace, w': Trace, c: Cluster, step: Step)
    requires Reached(w, c) && SoFarCredited(w) && (IsSuccess(step) ==> StoredNow(c, step))
    requires |w'.run| == |w.run| + 1 && IsPrefix(w.run, w'.run) && w'.steps == w.steps + [step]
    ensures SoFarCredited(w')
  {
    hide Init, Take, Enabled, PointBacked, StoredNow, N.SentUpTo;
    forall k | 0 <= k < |w'.steps| ensures Credited(TRIO, w'.run, w'.steps, k) {
      assert w'.run[k] == w.run[k];
      if w'.steps[k].Deliver? {
        var i, f := w'.steps[k].packet.to, w'.steps[k].packet.from;
        if i in w'.run[k].nodes && IsAck(w'.run[k].nodes[i], w'.steps[k], f) {
          if k < |w.steps| {
            assert Credited(TRIO, w.run, w.steps, k);
            SamePoint(w.run, w'.run, k, i, f, N.SentUpTo(w.run[k].nodes[i], f));
          } else {
            PointNow(w'.run, k, step);
          }
        }
      }
    }
  }

  lemma ReachedRun(w: Trace, c: Cluster)
    requires Reached(w, c)
    ensures IsRunBy(TRIO, w.run, w.steps) && |w.run| == |w.steps| + 1 && w.run[|w.run| - 1] == c
  {
  }

  const CREATED :=
    Cluster(map[1 := N.Created(1, [2, 3]), 2 := N.Created(2, [1, 3]), 3 := N.Created(3, [1, 2])], {})

  lemma PeersOfOne()
    ensures PeersOf(TRIO, 1, [2, 3])
  {
  }

  lemma PeersOfTwo()
    ensures PeersOf(TRIO, 2, [1, 3])
  {
  }

  lemma PeersOfThree()
    ensures PeersOf(TRIO, 3, [1, 2])
  {
  }

  lemma Boot() returns (w: Trace)
    ensures Reached(w, CREATED) && TwoIsEmpty(w) && SoFarCredited(w)
  {
    hide Init;
    AtFirst();
    w := Trace([CREATED], []);
  }

  lemma AtFirst()
    ensures Init(TRIO, CREATED)
  {
    hide PeersOf, N.Created;
    PeersOfOne();
    PeersOfTwo();
    PeersOfThree();
    forall i | i in TRIO ensures exists peers :: PeersOf(TRIO, i, peers) && CREATED.nodes[i] == N.Created(i, peers) {
      if i == 1 {
        assert CREATED.nodes[i] == N.Created(i, [2, 3]);
      } else if i == 2 {
        assert CREATED.nodes[i] == N.Created(i, [1, 3]);
      } else {
        assert CREATED.nodes[i] == N.Created(i, [1, 2]);
      }
    }
  }

  const HELLO := AppendEntries(1, 1, 0, 0, [], 0)

  lemma AllStart() returns (w: Trace, c: Cluster)
    ensures Reached(w, c) && TwoIsEmpty(w) && SoFarCredited(w) && c.nodes.Keys == TRIO
    ensures Foll(c.nodes[1], 1, [2, 3], 0, []) && Foll(c.nodes[2], 2, [1, 3], 0, []) && Foll(c.nodes[3], 3, [1, 2], 0, [])
  {
    hide Reached, TwoIsEmpty, SoFarCredited;
    Starts(1, [2, 3]);
    Starts(2, [1, 3]);
    Starts(3, [1, 2]);
    w := Boot();
    w, c := Go(w, CREATED, Restart(1));
    w, c := Go(w, c, Restart(2));
    w, c := Go(w, c, Restart(3));
  }

  /** Node 1 wins term 1 with node 2's vote and announces itself. */
  lemma OneLeads() returns (w: Trace, c: Cluster)
    ensures Reached(w, c) && TwoIsEmpty(w) && SoFarCredited(w) && c.nodes.Keys == TRIO
    ensures Lead(c.nodes[1], 1, [2, 3], 1, []) && Foll(c.nodes[2], 2, [1, 3], 1, []) && Foll(c.nodes[3], 3, [1, 2], 0, [])
    ensures Packet(1, 2, HELLO) in c.net && Packet(1, 3, HELLO) in c.net
  {
    hide Reached, TwoIsEmpty, SoFarCredited, N.OnElectionTimer, N.OnMessage;
    w, c := AllStart();
    Stands(c.nodes[1], 1, [2, 3], 0, []);
    w, c := Go(w, c, Timer(1, c.nodes[1].timer.gen));
    Votes(c.nodes[2], 2, [1, 3], 0, [], 1, 1, 0, 0);
    w, c := Go(w, c, Deliver(Packet(1, 2, RequestVote(1, 1, 0, 0))));
    TakesOffice(c.nodes[1], 1, [2, 3], 1, [], 2);
    w, c := Go(w, c, Deliver(Packet(2, 1, RequestVoteReply(1, true))));
  }
}
