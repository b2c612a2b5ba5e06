/**
  The election timer (src/raft/node.cpp): although the clock may deliver a callback after it was
  cancelled, in every reachable state a running non-leader has exactly one pending callback that
  passes the generation check, and a leader has none.
*/
module ElectionTimer {
  import opened RaftTypes
  import opened RaftCluster
  import opened StepEffects
  import RaftTheorems
  import RaftProtocol
  import N = RaftNode
  import L = CompactedLog

  /** No callback carries a generation from the future. */
  ghost predicate Issued(t: N.Timer) {
    forall g | g in t.pending :: g <= t.gen
  }

  ghost predicate Armed(t: N.Timer) {
    Issued(t) && t.on && t.gen in t.pending
  }

  ghost predicate Disarmed(t: N.Timer) {
    Issued(t) && !t.on && t.gen !in t.pending
  }

  ghost predicate TimerOk(n: N.Node) {
    && Issued(n.timer)
    && (n.running && n.role != Leader ==> Armed(n.timer))
    && (n.role == Leader ==> n.running && Disarmed(n.timer))
    && (!n.running ==> !n.timer.on)
    && (n.role != Follower ==> n.votedFor == Some(n.id))
  }

  lemma RearmArms(t: N.Timer)
    requires Issued(t)
    ensures Armed(t.Rearm()) && Armed(t.Schedule()) == (t.on ==> t.gen in t.pending)
    ensures Armed(t) ==> Disarmed(t.Cancel())
  {
  }

  lemma FollowerTimer(n: N.Node, t: nat, leader: Option<NodeId>)
    requires TimerOk(n) && n.running
    ensures TimerOk(N.BecomeFollower(n, t, leader))
  {
  }

  lemma LeaderTimer(members: set<NodeId>, i: NodeId, n: N.Node)
    requires LocalOk(members, i, n) && TimerOk(n) && n.running && n.role == Candidate
    ensures TimerOk(N.BecomeLeader(n).node)
  {
    hide N.ReplicateAll;
    RearmArms(n.timer);
    ElectedView(members, i, n);
    ReplicateAllSends(members, i, N.Elected(n), n.peers);
  }

  lemma VoteRequestTimer(members: set<NodeId>, i: NodeId, n: N.Node, from: NodeId, m: Message)
    requires LocalOk(members, i, n) && TimerOk(n) && n.running && m.RequestVote? && m.candidate != i
    ensures TimerOk(N.HandleRequestVote(n, from, m).node)
  {
    FollowerTimer(n, m.term, None);
    RearmArms(n.timer);
    RearmArms(N.BecomeFollower(n, m.term, None).timer);
  }

  lemma VoteReplyTimer(members: set<NodeId>, i: NodeId, n: N.Node, from: NodeId, m: Message)
    requires LocalOk(members, i, n) && TimerOk(n) && n.running && m.RequestVoteReply?
    ensures TimerOk(N.HandleRequestVoteReply(n, from, m).node)
  {
    hide N.BecomeLeader, N.BecomeFollower;
    FollowerTimer(n, m.term, None);
    if n.role == Candidate { LeaderTimer(members, i, n.(votes := n.votes + {from})); }
  }

  lemma AppendTimer(members: set<NodeId>, i: NodeId, n: N.Node, from: NodeId, m: Message)
    requires LocalOk(members, i, n) && TimerOk(n) && n.running && m.AppendEntries?
    ensures TimerOk(N.HandleAppendEntries(n, from, m).node)
  {
    hide N.BecomeFollower, N.ApplyCommitted, N.MergeEntries;
    var n1 := N.BecomeFollower(n, m.term, Some(from));
    FollowerTimer(n, m.term, Some(from));
    var n2 := N.Persist(n1.(log := N.MergeEntries(n1.log, m.entries)));
    ApplyCommittedKeepsCore(n2.(commitIndex := L.Min(m.leaderCommit, n2.log.LastIndex())));
  }

  lemma MessageTimer(members: set<NodeId>, i: NodeId, n: N.Node, from: NodeId, m: Message)
    requires LocalOk(members, i, n) && TimerOk(n) && PacketOk(Packet(from, i, m))
    ensures TimerOk(N.OnMessage(n, from, m).node)
  {
    hide N.HandleRequestVote, N.HandleRequestVoteReply, N.HandleAppendEntries, N.HandleAppendEntriesReply, N.BecomeFollower;
    if !n.running { return; }
    match m
    case RequestVote(_, _, _, _) => VoteRequestTimer(members, i, n, from, m);
    case RequestVoteReply(_, _) => VoteReplyTimer(members, i, n, from, m);
    case AppendEntries(_, _, _, _, _, _) => AppendTimer(members, i, n, from, m);
    case AppendEntriesReply(_, _, _, _) => AppendReplyTimer(members, i, n, from, m);
    case ReadIndexRequest(t, _, _) => FollowerTimer(n, t, Some(from));
    case ReadIndexReply(t, _) => FollowerTimer(n, t, None);
    case _ =>
  }

  lemma AppendReplyTimer(members: set<NodeId>, i: NodeId, n: N.Node, from: NodeId, m: Message)
    requires LocalOk(members, i, n) && TimerOk(n) && n.running && m.AppendEntriesReply? && from != i
    ensures TimerOk(N.HandleAppendEntriesReply(n, from, m).node)
  {
    hide N.BecomeFollower, N.ReplicateTo, N.MaybeAdvanceCommit;
    if n.role == Leader && m.term > n.term {
      FollowerTimer(n, m.term, None);
    } else {
      AppendReplyView(members, i, n, from, m);
    }
  }

  lemma CallbackTimer(members: set<NodeId>, i: NodeId, n: N.Node, gen: nat)
    requires LocalOk(members, i, n) && TimerOk(n)
    ensures TimerOk(N.OnElectionTimer(n, gen).node)
  {
    hide N.BecomeLeader, N.Canvass;
    var n1 := n.(timer := N.Timer(false, n.timer.gen, n.timer.pending - {gen}));
    RearmArms(n1.timer);
    CandidateView(members, i, n1);
    if gen == n.timer.gen && n.running && n.role != Leader {
      assert TimerOk(N.Candidacy(n1));
      LeaderTimer(members, i, N.Candidacy(n1));
    }
  }

  lemma SubmitTimer(members: set<NodeId>, i: NodeId, n: N.Node, cmd: Command)
    requires LocalOk(members, i, n) && TimerOk(n)
    ensures TimerOk(N.Submit(n, cmd).node)
  {
    hide N.ReplicateAll, N.MaybeAdvanceCommit;
    ReplicateAllSends(members, i, N.Appended(n, cmd), n.peers);
    MaybeAdvanceKeepsCore(N.ReplicateAll(N.Appended(n, cmd), n.peers).effect.node);
  }

  lemma EffectTimer(members: set<NodeId>, i: NodeId, n: N.Node, step: Step)
    requires LocalOk(members, i, n) && TimerOk(n)
    requires step.Deliver? ==> PacketOk(step.packet) && step.packet.to == i
    requires step.Restart? ==> !n.running
    ensures TimerOk(Effect(n, step).node)
  {
    hide N.OnMessage, N.OnElectionTimer, N.Submit, N.ReplicateAll;
    match step
    case Deliver(p) => MessageTimer(members, i, n, p.from, p.msg);
    case Timer(_, gen) => CallbackTimer(members, i, n, gen);
    case Heartbeat(_) => ReplicateAllSends(members, i, n, n.peers);
    case Client(_, cmd) => SubmitTimer(members, i, n, cmd);
    case Read(_, _) =>
    case Crash(_) =>
    case Restart(_) => RearmArms(n.timer);
  }

  ghost predicate TimersOk(c: Cluster) {
    forall i | i in c.nodes :: TimerOk(c.nodes[i])
  }

  lemma StepTimers(members: set<NodeId>, c: Cluster, step: Step)
    requires LocalsOk(members, c) && TimersOk(c) && Enabled(c, step)
    ensures TimersOk(Take(c, step))
  {
    hide LocalOk, TimerOk, Effect;
    EffectTimer(members, step.Actor(), c.nodes[step.Actor()], step);
  }

  lemma {:induction false} RunTimers(members: set<NodeId>, run: seq<Cluster>, hs: seq<RaftProtocol.History>, a: nat)
    requires IsRun(members, run) && a < |run| && RaftTheorems.IsHistoryOf(members, run, hs)
    ensures TimersOk(run[a])
  {
    hide RaftProtocol.Inv, LocalsOk;
    if a > 0 {
      RunTimers(members, run, hs, a - 1);
      assert Next(run[a - 1], run[a - 1 + 1]) && ClusterInv(members, run[a - 1], hs[a - 1]);
      var step :| Enabled(run[a - 1], step) && run[a] == Take(run[a - 1], step);
      StepTimers(members, run[a - 1], step);
    }
  }

  /** The callbacks of a node that would be heeded if delivered now. */
  function Live(n: N.Node): set<nat> {
    set g | g in n.timer.pending && g == n.timer.gen
  }

  /** In every run, a running non-leader has exactly one live callback and a leader none. */
  lemma OneLiveCallback(members: set<NodeId>, run: seq<Cluster>, a: nat, i: NodeId)
    requires IsRun(members, run) && a < |run| && i in run[a].nodes && run[a].nodes[i].running
    ensures |Live(run[a].nodes[i])| == if run[a].nodes[i].role == Leader then 0 else 1
  {
    hide IsRun;
    var hs := RaftTheorems.HistoryOf(members, run);
    RunTimers(members, run, hs, a);
    var n := run[a].nodes[i];
    assert TimerOk(n);
    assert Live(n) == if n.role == Leader then {} else {n.timer.gen};
  }

  // ---------------------------------------------------------------- hearing from others puts the timeout off

  /** The node grants the vote it is asked for. */
  predicate Grants(n: N.Node, step: Step) {
    var sent := Effect(n, step).sent;
    |sent| == 1 && sent[0].msg.RequestVoteReply? && sent[0].msg.granted
  }

  /** The node steps down, hears from a leader that is not behind, grants a vote, stands, or takes office. */
  predicate Resets(n: N.Node, step: Step) {
    && n.running
    && match step
       case Timer(_, gen) => gen == n.timer.gen && n.role != Leader
       case Deliver(p) =>
         (match p.msg
          case AppendEntries(t, _, _, _, _, _) => t >= n.term
          case ReadIndexRequest(t, _, _) => t >= n.term
          case RequestVote(t, _, _, _) => t > n.term || Grants(n, step)
          case RequestVoteReply(t, _) => n.role == Candidate && (t > n.term || Effect(n, step).node.role == Leader)
          case AppendEntriesReply(t, _, _, _) => n.role == Leader && t > n.term
          case ReadIndexReply(t, _) => t > n.term
          case _ => false)
       case _ => false
  }

  /** `u` is not behind `t`, and if `reset` it comes after every callback that `t` has pending. */
  ghost predicate Beyond(t: N.Timer, u: N.Timer, reset: bool) {
    t.gen <= u.gen && (reset ==> forall g | g in t.pending :: g < u.gen)
  }

  lemma RearmIsBeyond(n: N.Node)
    requires TimerOk(n) && n.running
    ensures Beyond(n.timer, n.timer.Rearm(), true) && (n.role != Leader ==> Beyond(n.timer, n.timer.Cancel(), true))
    ensures Beyond(n.timer, n.timer.Rearm().Rearm(), true) && Beyond(n.timer, n.timer.Rearm().Cancel(), true)
  {
  }

  lemma MessageBeyond(n: N.Node, from: NodeId, m: Message)
    requires TimerOk(n)
    ensures Beyond(n.timer, N.OnMessage(n, from, m).node.timer, Resets(n, Deliver(Packet(from, n.id, m))))
    ensures N.OnMessage(n, from, m).node.running == n.running
  {
    hide N.BecomeLeader, N.ReplicateTo, N.MergeEntries, N.ApplyCommitted, N.MaybeAdvanceCommit, N.Timer.Rearm, Beyond;
    Unmoved(n.timer);
    if n.running {
      RearmIsBeyond(n);
      if m.AppendEntries? {
        AppendBeyond(n, from, m);
      } else if m.RequestVoteReply? && n.role == Candidate {
        OfficeOnly(n.(votes := n.votes + {from}));
      } else if m.AppendEntriesReply? && n.role == Leader && m.term == n.term {
        if m.success {
          MaybeAdvanceOnly(Acked(n, from));
        } else {
          var lastInTerm := n.log.LastIndexForTerm(m.conflictTerm);
          var next := if m.conflictTerm == 0 || lastInTerm == 0 then m.conflictIndex else lastInTerm + 1;
          ReplicateToOnly(n.(nextIndex := n.nextIndex[from := L.Max(next, 1)]), from);
        }
      }
    }
  }

  lemma Unmoved(t: N.Timer)
    ensures Beyond(t, t, false)
  {
  }

  lemma AppendBeyond(n: N.Node, from: NodeId, m: Message)
    requires TimerOk(n) && n.running && m.AppendEntries?
    ensures Beyond(n.timer, N.HandleAppendEntries(n, from, m).node.timer, m.term >= n.term)
    ensures N.HandleAppendEntries(n, from, m).node.running
  {
    hide N.MergeEntries, N.ApplyCommitted, N.Timer.Rearm;
    RearmIsBeyond(n);
    var n1 := N.BecomeFollower(n, m.term, Some(from));
    var n2 := N.Persist(n1.(log := N.MergeEntries(n1.log, m.entries)));
    ApplyCommittedOnly(n2.(commitIndex := L.Min(m.leaderCommit, n2.log.LastIndex())));
  }

  lemma CallbackBeyond(n: N.Node, gen: nat)
    requires TimerOk(n)
    ensures Beyond(n.timer, N.OnElectionTimer(n, gen).node.timer, n.running && gen == n.timer.gen && n.role != Leader)
    ensures N.OnElectionTimer(n, gen).node.running == n.running
  {
    hide N.BecomeLeader, N.Canvass;
    var n1 := n.(timer := N.Timer(false, n.timer.gen, n.timer.pending - {gen}));
    OfficeOnly(N.Candidacy(n1));
  }

  /** A step that resets the timer leaves every callback that was pending behind, and no step goes back. */
  lemma StepBeyond(n: N.Node, step: Step)
    requires TimerOk(n) && (step.Deliver? ==> step.packet.to == n.id)
    ensures Beyond(n.timer, Effect(n, step).node.timer, Resets(n, step)) && (Resets(n, step) ==> Effect(n, step).node.running)
  {
    hide N.OnMessage, N.OnElectionTimer, N.ReplicateAll, N.MaybeAdvanceCommit, Grants;
    match step
    case Deliver(p) => MessageBeyond(n, p.from, p.msg);
    case Timer(_, gen) => CallbackBeyond(n, gen);
    case Heartbeat(_) => ReplicateAllOnly(n, n.peers);
    case Client(_, cmd) =>
      ReplicateAllOnly(N.Appended(n, cmd), n.peers);
      MaybeAdvanceOnly(Submitted(n, cmd).effect.node);
    case Read(_, _) =>
    case Crash(_) =>
    case Restart(_) =>
  }

  lemma TimerAt(members: set<NodeId>, run: seq<Cluster>, a: nat, i: NodeId)
    requires IsRun(members, run) && a < |run| && i in run[a].nodes
    ensures TimerOk(run[a].nodes[i]) && run[a].nodes[i].id == i
  {
    hide IsRun, TimerOk;
    var hs := RaftTheorems.HistoryOf(members, run);
    RunTimers(members, run, hs, a);
    RaftTheorems.InOrder(members, run, a);
    assert LocalOk(members, i, run[a].nodes[i]);
  }

  /** Generations never go back. */
  lemma {:induction false} NeverBack(members: set<NodeId>, run: seq<Cluster>, steps: seq<Step>, a: nat, b: nat, i: NodeId)
    requires IsRunBy(members, run, steps) && i in members && a <= b < |run|
    ensures i in run[a].nodes && i in run[b].nodes && run[a].nodes[i].timer.gen <= run[b].nodes[i].timer.gen
    decreases b
  {
    hide IsRunBy, Effect, TimerOk, Resets;
    LengthOf(members, run, steps);
    NodesStay(members, run, steps, i, a);
    NodesStay(members, run, steps, i, b);
    if a < b {
      NeverBack(members, run, steps, a, b - 1, i);
      StepIs(members, run, steps, b - 1);
      ByIsRun(members, run, steps);
      TimerAt(members, run, b - 1, i);
      if steps[b - 1].Actor() == i { StepBeyond(run[b - 1].nodes[i], steps[b - 1]); }
    }
  }

  /** In every run: after a step that resets a node's timer, exactly one callback is live unless the node leads,
      it is none of those that were pending before, and none of those ever makes the node stand. */
  lemma StaleNeverStands(members: set<NodeId>, run: seq<Cluster>, steps: seq<Step>, a: nat, b: nat, i: NodeId, g: nat)
    requires IsRunBy(members, run, steps) && i in members && a < |steps| && i in run[a].nodes && i == steps[a].Actor()
    requires Resets(run[a].nodes[i], steps[a]) && g in run[a].nodes[i].timer.pending && a < b < |run|
    ensures i in run[a + 1].nodes && i in run[b].nodes
    ensures run[a + 1].nodes[i].role != Leader ==>
              exists live :: Live(run[a + 1].nodes[i]) == {live} && forall h | h in run[a].nodes[i].timer.pending :: h < live
    ensures g !in Live(run[b].nodes[i])
    ensures var e := N.OnElectionTimer(run[b].nodes[i], g);
            e.sent == [] && e.node == run[b].nodes[i].(timer := e.node.timer)
  {
    hide IsRunBy, IsRun, Effect, Resets;
    ByIsRun(members, run, steps);
    TimerAt(members, run, a, i);
    StepIs(members, run, steps, a);
    var n, n' := run[a].nodes[i], run[a + 1].nodes[i];
    StepBeyond(n, steps[a]);
    NeverBack(members, run, steps, a + 1, b, i);
    TimerAt(members, run, a + 1, i);
    if n'.role != Leader {
      assert Live(n') == {n'.timer.gen};
    }
  }
}
