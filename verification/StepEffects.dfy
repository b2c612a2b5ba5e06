/**
  What one step of a node does beyond the protocol's moves: what a leader sends and with which commit
  index, and where a match point comes from (src/raft/node.cpp:301-321, 494-544).
*/
module StepEffects {
  import opened RaftTypes
  import opened RaftProtocol
  import opened RaftCluster
  import N = RaftNode
  import L = CompactedLog

  // ---------------------------------------------------------------- replication

  ghost predicate OnlyNext(n: N.Node, n': N.Node) { n' == n.(nextIndex := n'.nextIndex) }

  /** A request that is not full reaches the end of the log it was cut from. */
  predicate Reaches(log: L.Log, m: Message)
    requires m.AppendEntries?
  {
    log.baseIndex == 0 ==> |m.entries| == N.MAX_ENTRIES_PER_AE || m.prevIndex + |m.entries| == |log.entries|
  }

  /** Every packet is an AppendEntries of this leader, with its commit index. */
  ghost predicate CarryCommit(sent: seq<Packet>, n: N.Node) {
    forall p | p in sent :: p.msg.AppendEntries? && p.msg.leaderCommit == n.commitIndex && Reaches(n.log, p.msg)
  }

  lemma ReplicateToOnly(n: N.Node, peer: NodeId)
    ensures var e := N.ReplicateTo(n, peer).effect; OnlyNext(n, e.node) && CarryCommit(e.sent, n)
  {
  }

  lemma {:induction false} ReplicateAllOnly(n: N.Node, peers: seq<NodeId>)
    ensures var e := N.ReplicateAll(n, peers).effect; OnlyNext(n, e.node) && CarryCommit(e.sent, n)
    decreases |peers|
  {
    hide N.ReplicateTo, Reaches;
    if peers != [] {
      ReplicateToOnly(n, peers[0]);
      ReplicateAllOnly(N.ReplicateTo(n, peers[0]).effect.node, peers[1..]);
    }
  }

  /** Taking office sets the match points and nothing the state machine depends on. */
  lemma OfficeOnly(n: N.Node)
    requires n.role != Leader
    ensures var e := N.BecomeLeader(n); OnlyNext(N.Elected(n), e.node) && CarryCommit(e.sent, n)
  {
    hide N.ReplicateAll;
    ReplicateAllOnly(N.Elected(n), n.peers);
  }

  lemma {:induction false} ApplyCommittedOnly(n: N.Node)
    ensures var n' := N.ApplyCommitted(n); n' == n.(lastApplied := n'.lastApplied, kv := n'.kv)
    decreases n.commitIndex - n.lastApplied
  {
    if n.lastApplied < n.commitIndex {
      var n1 := n.(lastApplied := n.lastApplied + 1);
      if n1.lastApplied <= n.log.baseIndex {
        ApplyCommittedOnly(n1);
      } else if n.log.At(n1.lastApplied).Some? {
        ApplyCommittedOnly(n1.(kv := N.KvStore.Apply(n.kv, n.log.At(n1.lastApplied).value.cmd).data));
      }
    }
  }

  lemma MaybeAdvanceOnly(n: N.Node)
    ensures var n' := N.MaybeAdvanceCommit(n);
            n' == n.(commitIndex := n'.commitIndex, lastApplied := n'.lastApplied, kv := n'.kv)
  {
    hide N.ApplyCommitted;
    var k := N.CommitPoint(n, n.log.LastIndex());
    if k.Some? { ApplyCommittedOnly(n.(commitIndex := k.value)); }
  }

  /** The leader after a success reply from `from`, before it looks for a commit point. */
  function Acked(n: N.Node, from: NodeId): N.Node {
    var point := L.Max(N.IndexOf(n.matchIndex, from), N.SentUpTo(n, from));
    n.(matchIndex := n.matchIndex[from := point], nextIndex := n.nextIndex[from := point + 1])
  }

  /** The step is a success reply of its own term, from `from`, to a running leader. */
  predicate IsAck(n: N.Node, step: Step, from: NodeId) {
    && step.Deliver? && step.packet.from == from && step.packet.msg.AppendEntriesReply?
    && step.packet.msg.success && step.packet.msg.term == n.term && n.running && n.role == Leader
  }

  lemma AckIs(n: N.Node, step: Step, from: NodeId)
    requires IsAck(n, step, from)
    ensures Effect(n, step) == N.Effect(N.MaybeAdvanceCommit(Acked(n, from)), [])
  {
    hide N.MaybeAdvanceCommit;
  }

  /** The leader after a client command, before it looks for a commit point. */
  function Submitted(n: N.Node, cmd: Command): N.Replicated { N.ReplicateAll(N.Appended(n, cmd), n.peers) }

  // ---------------------------------------------------------------- what is sent

  /** An AppendEntries comes from a leader of its term and is a piece of the log it then has; it carries
      the commit index of before the step. */
  ghost predicate SentByLeader(i: NodeId, n: N.Node, n': N.Node, p: Packet) {
    p.msg.AppendEntries? ==>
      && n'.role == Leader && IsAppendOf(i, View(n'), p)
      && p.msg.leaderCommit == n.commitIndex && IsPrefix(n.log.entries, n'.log.entries) && Reaches(n'.log, p.msg)
  }

  lemma OfficeSends(members: set<NodeId>, i: NodeId, n: N.Node)
    requires LocalOk(members, i, n) && n.role == Candidate
    ensures var e := N.BecomeLeader(n); forall p | p in e.sent :: SentByLeader(i, n, e.node, p)
  {
    hide N.BecomeLeader;
    LeaderView(members, i, n);
    OfficeOnly(n);
  }

  lemma MessageSends(members: set<NodeId>, i: NodeId, n: N.Node, from: NodeId, m: Message)
    requires LocalOk(members, i, n) && from != i
    ensures var e := N.OnMessage(n, from, m); forall p | p in e.sent :: SentByLeader(i, n, e.node, p)
  {
    hide N.BecomeFollower, N.BecomeLeader, N.ReplicateTo, N.MergeEntries, N.ApplyCommitted, N.MaybeAdvanceCommit, IsAppendOf;
    if m.RequestVoteReply? && n.role == Candidate {
      OfficeSends(members, i, n.(votes := n.votes + {from}));
    } else if m.AppendEntriesReply? && n.role == Leader && m.term == n.term && !m.success {
      var lastInTerm := n.log.LastIndexForTerm(m.conflictTerm);
      var next := if m.conflictTerm == 0 || lastInTerm == 0 then m.conflictIndex else lastInTerm + 1;
      var n1 := n.(nextIndex := n.nextIndex[from := L.Max(next, 1)]);
      ReplicateToSends(members, i, n1, from);
      ReplicateToOnly(n1, from);
    }
  }

  lemma TimerSends(members: set<NodeId>, i: NodeId, n: N.Node, gen: nat)
    requires LocalOk(members, i, n)
    ensures var e := N.OnElectionTimer(n, gen); forall p | p in e.sent :: SentByLeader(i, n, e.node, p)
  {
    hide N.BecomeLeader, N.Candidacy, N.Canvass, IsAppendOf;
    var n2 := n.(timer := N.Timer(false, n.timer.gen, n.timer.pending - {gen}));
    CandidateView(members, i, n2);
    OfficeSends(members, i, N.Candidacy(n2));
    SameCommit(n2);
  }

  lemma SameCommit(n: N.Node)
    ensures N.Candidacy(n).commitIndex == n.commitIndex
  {
  }

  lemma SubmitSends(members: set<NodeId>, i: NodeId, n: N.Node, cmd: Command)
    requires LocalOk(members, i, n) && n.running && n.role == Leader
    ensures var e := N.Submit(n, cmd); forall p | p in e.sent :: SentByLeader(i, n, e.node, p)
  {
    hide N.ReplicateAll, N.MaybeAdvanceCommit, IsAppendOf;
    SubmitView(members, i, n, cmd);
    ReplicateAllOnly(N.Appended(n, cmd), n.peers);
  }

  lemma Sends(members: set<NodeId>, i: NodeId, n: N.Node, step: Step)
    requires LocalOk(members, i, n) && (step.Deliver? ==> step.packet.from != i)
    ensures var e := Effect(n, step); forall p | p in e.sent :: SentByLeader(i, n, e.node, p)
  {
    hide N.OnMessage, N.OnElectionTimer, N.ReplicateAll, N.Submit, IsAppendOf;
    match step
    case Deliver(p) => MessageSends(members, i, n, p.from, p.msg);
    case Timer(_, gen) => TimerSends(members, i, n, gen);
    case Heartbeat(_) =>
      ReplicateAllSends(members, i, n, n.peers);
      ReplicateAllOnly(n, n.peers);
    case Client(_, cmd) => if n.running && n.role == Leader { SubmitSends(members, i, n, cmd); } else { Idle(n, cmd); }
    case Read(_, round) => BroadcastTo(members, i, n, ReadIndexRequest(n.term, n.id, round));
    case Crash(_) =>
    case Restart(_) =>
  }

  lemma Idle(n: N.Node, cmd: Command)
    requires !n.running || n.role != Leader
    ensures N.Submit(n, cmd) == N.Effect(n, [])
  {
  }

  // ---------------------------------------------------------------- where match points come from

  /** The match point of `p` is the node's own, none yet, the one it had, or the one a reply gave it. */
  ghost predicate PointFrom(members: set<NodeId>, i: NodeId, n: N.Node, step: Step, n': N.Node, p: NodeId)
    requires p in n'.matchIndex
  {
    || (p == i && n'.matchIndex[p] <= |n'.log.entries|)
    || (p in members && n'.matchIndex[p] == 0)
    || (n.role == Leader && n.term == n'.term && IsPrefix(n.log.entries, n'.log.entries)
        && p in n.matchIndex && n'.matchIndex[p] == n.matchIndex[p])
    || (IsAck(n, step, p) && n'.term == n.term && n'.log == n.log && n'.matchIndex[p] == Acked(n, p).matchIndex[p])
  }

  ghost predicate Points(members: set<NodeId>, i: NodeId, n: N.Node, step: Step, n': N.Node) {
    n'.role == Leader ==> forall p | p in n'.matchIndex :: PointFrom(members, i, n, step, n', p)
  }

  lemma OfficePoints(members: set<NodeId>, i: NodeId, n: N.Node, step: Step, n0: N.Node)
    requires LocalOk(members, i, n) && n.role == Candidate
    ensures Points(members, i, n0, step, N.BecomeLeader(n).node)
  {
    hide N.BecomeLeader;
    OfficeOnly(n);
  }

  lemma MessagePoints(members: set<NodeId>, i: NodeId, n: N.Node, p: Packet)
    requires LocalOk(members, i, n) && p.from != i
    ensures Points(members, i, n, Deliver(p), N.OnMessage(n, p.from, p.msg).node)
  {
    hide N.BecomeLeader, N.ReplicateTo, N.MergeEntries, N.ApplyCommitted, N.MaybeAdvanceCommit;
    var m, from := p.msg, p.from;
    if m.RequestVoteReply? && n.role == Candidate {
      OfficePoints(members, i, n.(votes := n.votes + {from}), Deliver(p), n);
    } else if m.AppendEntries? {
      AcceptView(members, i, n, from, m);
    } else if m.AppendEntriesReply? && n.role == Leader && m.term == n.term {
      if m.success {
        MaybeAdvanceOnly(Acked(n, from));
      } else {
        var lastInTerm := n.log.LastIndexForTerm(m.conflictTerm);
        var next := if m.conflictTerm == 0 || lastInTerm == 0 then m.conflictIndex else lastInTerm + 1;
        ReplicateToOnly(n.(nextIndex := n.nextIndex[from := L.Max(next, 1)]), from);
      }
    }
  }

  lemma SubmitPoints(members: set<NodeId>, i: NodeId, n: N.Node, step: Step, cmd: Command)
    requires LocalOk(members, i, n) && n.running && n.role == Leader
    ensures Points(members, i, n, step, N.Submit(n, cmd).node)
  {
    hide N.ReplicateAll, N.MaybeAdvanceCommit;
    ReplicateAllOnly(N.Appended(n, cmd), n.peers);
    MaybeAdvanceOnly(Submitted(n, cmd).effect.node);
  }

  lemma StepPoints(members: set<NodeId>, i: NodeId, n: N.Node, step: Step)
    requires LocalOk(members, i, n) && (step.Deliver? ==> step.packet.from != i)
    ensures Points(members, i, n, step, Effect(n, step).node)
  {
    hide N.OnMessage, N.BecomeLeader, N.Candidacy, N.Canvass, N.ReplicateAll, N.Submit;
    match step
    case Deliver(p) => MessagePoints(members, i, n, p);
    case Timer(_, gen) =>
      var n2 := n.(timer := N.Timer(false, n.timer.gen, n.timer.pending - {gen}));
      CandidateView(members, i, n2);
      OfficePoints(members, i, N.Candidacy(n2), step, n);
    case Heartbeat(_) => ReplicateAllOnly(n, n.peers);
    case Client(_, cmd) => if n.running && n.role == Leader { SubmitPoints(members, i, n, step, cmd); } else { Idle(n, cmd); }
    case Read(_, round) =>
    case Crash(_) =>
    case Restart(_) =>
  }

  // ---------------------------------------------------------------- next indices

  /** A leader has a positive next index for every other member. */
  ghost predicate NextKnown(members: set<NodeId>, n: N.Node) {
    n.role == Leader ==> forall p | p in members && p != n.id :: p in n.nextIndex && n.nextIndex[p] > 0
  }

  lemma ReplicateToNext(members: set<NodeId>, n: N.Node, peer: NodeId)
    requires NextKnown(members, n)
    ensures NextKnown(members, N.ReplicateTo(n, peer).effect.node)
  {
    hide L.Log.Slice, L.Log.TermAt;
  }

  lemma {:induction false} ReplicateAllNext(members: set<NodeId>, n: N.Node, peers: seq<NodeId>)
    requires NextKnown(members, n)
    ensures NextKnown(members, N.ReplicateAll(n, peers).effect.node)
    decreases |peers|
  {
    hide N.ReplicateTo, NextKnown;
    if peers != [] {
      ReplicateToNext(members, n, peers[0]);
      ReplicateAllNext(members, N.ReplicateTo(n, peers[0]).effect.node, peers[1..]);
    }
  }

  lemma OfficeNext(members: set<NodeId>, i: NodeId, n: N.Node)
    requires LocalOk(members, i, n) && n.role == Candidate
    ensures NextKnown(members, N.BecomeLeader(n).node)
  {
    hide N.ReplicateAll;
    assert NextKnown(members, N.Elected(n));
    ReplicateAllNext(members, N.Elected(n), n.peers);
  }

  lemma MessageNext(members: set<NodeId>, i: NodeId, n: N.Node, from: NodeId, m: Message)
    requires LocalOk(members, i, n) && NextKnown(members, n)
    ensures NextKnown(members, N.OnMessage(n, from, m).node)
  {
    hide N.BecomeLeader, N.ReplicateTo, N.MergeEntries, N.ApplyCommitted, N.MaybeAdvanceCommit;
    if m.RequestVoteReply? && n.role == Candidate {
      OfficeNext(members, i, n.(votes := n.votes + {from}));
    } else if m.AppendEntries? {
      AcceptView(members, i, n, from, m);
    } else if m.AppendEntriesReply? && n.role == Leader && m.term == n.term {
      MaybeAdvanceOnly(Acked(n, from));
      var lastInTerm := n.log.LastIndexForTerm(m.conflictTerm);
      var next := if m.conflictTerm == 0 || lastInTerm == 0 then m.conflictIndex else lastInTerm + 1;
      ReplicateToNext(members, n.(nextIndex := n.nextIndex[from := L.Max(next, 1)]), from);
    }
  }

  lemma StepNext(members: set<NodeId>, i: NodeId, n: N.Node, step: Step)
    requires LocalOk(members, i, n) && NextKnown(members, n)
    ensures NextKnown(members, Effect(n, step).node)
  {
    hide N.OnMessage, N.BecomeLeader, N.Candidacy, N.Canvass, N.ReplicateAll, N.MaybeAdvanceCommit;
    match step
    case Deliver(p) => MessageNext(members, i, n, p.from, p.msg);
    case Timer(_, gen) =>
      var n2 := n.(timer := N.Timer(false, n.timer.gen, n.timer.pending - {gen}));
      CandidateView(members, i, n2);
      OfficeNext(members, i, N.Candidacy(n2));
    case Heartbeat(_) => ReplicateAllNext(members, n, n.peers);
    case Client(_, cmd) =>
      ReplicateAllNext(members, N.Appended(n, cmd), n.peers);
      MaybeAdvanceOnly(Submitted(n, cmd).effect.node);
    case Read(_, round) =>
    case Crash(_) =>
    case Restart(_) =>
  }

  // ---------------------------------------------------------------- what happens to the state machine

  /** Nothing is committed or applied, and the log only grows. */
  ghost predicate Still(n: N.Node, n': N.Node) {
    && n'.commitIndex == n.commitIndex && n'.lastApplied == n.lastApplied && n'.kv == n.kv
    && n'.running == n.running && n.term <= n'.term && IsPrefix(n.log.entries, n'.log.entries)
  }

  /** The step is an AppendEntries that the node merges. */
  predicate Accepts(n: N.Node, step: Step) {
    && step.Deliver? && step.packet.msg.AppendEntries? && n.running && n.term <= step.packet.msg.term
    && n.log.Contains(step.packet.msg.prevIndex, step.packet.msg.prevTerm)
  }

  /** The follower after the merge, before it looks at the leader's commit index. */
  ghost predicate Merged(n: N.Node, m: Message, n': N.Node)
    requires m.AppendEntries?
  {
    && n'.commitIndex == n.commitIndex && n'.lastApplied == n.lastApplied && n'.kv == n.kv && n'.running
    && n'.term == m.term && n'.log == L.Log(0, 0, Merge(n.log.entries, m.entries))
  }

  /** The follower's commit index becomes the leader's, but no more than its own last index (line 292). */
  function FollowCommit(n: N.Node, leaderCommit: nat): N.Node {
    if leaderCommit > n.commitIndex then N.ApplyCommitted(n.(commitIndex := L.Min(leaderCommit, n.log.LastIndex()))) else n
  }

  lemma OfficeStill(n: N.Node)
    requires n.role == Candidate
    ensures Still(n, N.BecomeLeader(n).node)
  {
    hide N.BecomeLeader;
    OfficeOnly(n);
  }

  lemma AcceptKind(members: set<NodeId>, i: NodeId, n: N.Node, p: Packet) returns (m: N.Node)
    requires LocalOk(members, i, n) && Accepts(n, Deliver(p))
    ensures Merged(n, p.msg, m) && Effect(n, Deliver(p)).node == FollowCommit(m, p.msg.leaderCommit)
  {
    hide N.ApplyCommitted;
    var n1 := N.BecomeFollower(n, p.msg.term, Some(p.from));
    MergeMatches(n1.log, p.msg.entries);
    m := N.Persist(n1.(log := N.MergeEntries(n1.log, p.msg.entries)));
  }

  /** What a step does to the commit index, the applied index and the map. */
  ghost predicate Kind(n: N.Node, step: Step, n': N.Node, m: N.Node) {
    || Still(n, n')
    || (step.Crash? && n' == N.Crash(n))
    || (step.Restart? && n' == N.Restart(n))
    || (Still(n, m) && m.running && m.role == Leader && n' == N.MaybeAdvanceCommit(m))
    || (Accepts(n, step) && Merged(n, step.packet.msg, m) && n' == FollowCommit(m, step.packet.msg.leaderCommit))
  }

  lemma MessageKind(members: set<NodeId>, i: NodeId, n: N.Node, p: Packet) returns (m: N.Node)
    requires LocalOk(members, i, n) && p.from != i
    ensures Kind(n, Deliver(p), N.OnMessage(n, p.from, p.msg).node, m)
  {
    hide N.BecomeLeader, N.ReplicateTo, N.MergeEntries, N.ApplyCommitted, N.MaybeAdvanceCommit;
    m := n;
    var msg, from := p.msg, p.from;
    if Accepts(n, Deliver(p)) {
      m := AcceptKind(members, i, n, p);
    } else if msg.RequestVoteReply? && n.role == Candidate {
      OfficeStill(n.(votes := n.votes + {from}));
    } else if msg.AppendEntriesReply? && n.role == Leader && msg.term == n.term {
      if msg.success {
        m := Acked(n, from);
      } else {
        var lastInTerm := n.log.LastIndexForTerm(msg.conflictTerm);
        var next := if msg.conflictTerm == 0 || lastInTerm == 0 then msg.conflictIndex else lastInTerm + 1;
        ReplicateToOnly(n.(nextIndex := n.nextIndex[from := L.Max(next, 1)]), from);
      }
    }
  }

  lemma SubmitKind(n: N.Node, cmd: Command) returns (m: N.Node)
    requires n.running && n.role == Leader
    ensures Still(n, m) && m.role == Leader && N.Submit(n, cmd).node in {m, N.MaybeAdvanceCommit(m)}
  {
    hide N.ReplicateAll, N.MaybeAdvanceCommit;
    ReplicateAllOnly(N.Appended(n, cmd), n.peers);
    m := Submitted(n, cmd).effect.node;
  }

  lemma StepKind(members: set<NodeId>, i: NodeId, n: N.Node, step: Step) returns (m: N.Node)
    requires LocalOk(members, i, n) && (step.Deliver? ==> step.packet.from != i)
    ensures Kind(n, step, Effect(n, step).node, m)
  {
    hide N.OnMessage, N.BecomeLeader, N.Canvass, N.ReplicateAll, N.Submit, N.MaybeAdvanceCommit, N.ApplyCommitted;
    m := n;
    match step
    case Deliver(p) => m := MessageKind(members, i, n, p);
    case Timer(_, gen) =>
      var n2 := n.(timer := N.Timer(false, n.timer.gen, n.timer.pending - {gen}));
      OfficeStill(N.Candidacy(n2));
    case Heartbeat(_) => ReplicateAllOnly(n, n.peers);
    case Client(_, cmd) => if n.running && n.role == Leader { m := SubmitKind(n, cmd); } else { Idle(n, cmd); }
    case Read(_, round) =>
    case Crash(_) =>
    case Restart(_) =>
  }
}
