/**
  A whole cluster: nodes running the handlers of `RaftNode` over a network that may lose,
  duplicate, delay and reorder, with crashes and restarts at any time.  Each step is one
  handler or timer callback; each is shown to be a short sequence of the moves of
  `RaftProtocol`, and the safety theorems follow for every run.
*/
module RaftCluster {
  import opened RaftTypes
  import opened RaftProtocol
  import opened RaftSafety
  import N = RaftNode
  import L = CompactedLog

  datatype Cluster = Cluster(nodes: map<NodeId, N.Node>, net: set<Packet>)

  datatype Step =
    | Deliver(packet: Packet)
    | Timer(node: NodeId, gen: nat)
    | Heartbeat(node: NodeId)
    | Client(node: NodeId, cmd: Command)
    | Read(node: NodeId, round: nat)
    | Crash(node: NodeId)
    | Restart(node: NodeId)
  {
    function Actor(): NodeId { if Deliver? then packet.to else node }
  }

  predicate Enabled(c: Cluster, step: Step) {
    && step.Actor() in c.nodes
    && match step
       case Deliver(p) => p in c.net
       case Timer(i, gen) => gen in c.nodes[i].timer.pending
       case Crash(i) => c.nodes[i].running
       case Restart(i) => !c.nodes[i].running
       case _ => true
  }

  function Effect(n: N.Node, step: Step): N.Effect {
    match step
    case Deliver(p) => N.OnMessage(n, p.from, p.msg)
    case Timer(_, gen) => N.OnElectionTimer(n, gen)
    case Heartbeat(_) => N.OnHeartbeat(n)
    case Client(_, cmd) => N.Submit(n, cmd)
    case Read(_, round) => N.ReadIndex(n, round)
    case Crash(_) => N.Effect(N.Crash(n), [])
    case Restart(_) => N.Effect(N.Restart(n), [])
  }

  function Take(c: Cluster, step: Step): Cluster
    requires step.Actor() in c.nodes
  {
    var e := Effect(c.nodes[step.Actor()], step);
    Cluster(c.nodes[step.Actor() := e.node], c.net + set p | p in e.sent)
  }

  ghost predicate Init(members: set<NodeId>, c: Cluster) {
    && c.nodes.Keys == members && c.net == {}
    && forall i | i in members :: exists peers :: PeersOf(members, i, peers) && c.nodes[i] == N.Created(i, peers)
  }

  /** Every other member, once. */
  ghost predicate PeersOf(members: set<NodeId>, i: NodeId, peers: seq<NodeId>) {
    && (forall p | p in peers :: p in members && p != i) && |peers| + 1 == |members|
    && forall p | p in members && p != i :: p in peers
  }

  ghost predicate Next(c: Cluster, c': Cluster) {
    exists step :: Enabled(c, step) && c' == Take(c, step)
  }

  /** Every finite execution from the initial state. */
  ghost predicate IsRun(members: set<NodeId>, run: seq<Cluster>) {
    && |run| > 0 && Init(members, run[0])
    && forall k | 0 <= k < |run| - 1 :: Next(run[k], run[k + 1])
  }

  // ---------------------------------------------------------------- runs that name their steps

  ghost predicate IsRunBy(members: set<NodeId>, run: seq<Cluster>, steps: seq<Step>) {
    && |run| == |steps| + 1 && Init(members, run[0])
    && forall k | 0 <= k < |steps| :: Enabled(run[k], steps[k]) && run[k + 1] == Take(run[k], steps[k])
  }

  lemma ByIsRun(members: set<NodeId>, run: seq<Cluster>, steps: seq<Step>)
    requires IsRunBy(members, run, steps)
    ensures IsRun(members, run)
  {
    hide Init, Take;
    forall k | 0 <= k < |run| - 1 ensures Next(run[k], run[k + 1]) {
      assert Enabled(run[k], steps[k]) && run[k + 1] == Take(run[k], steps[k]);
    }
  }

  lemma {:induction false} StepsOf(members: set<NodeId>, run: seq<Cluster>) returns (steps: seq<Step>)
    requires IsRun(members, run)
    ensures IsRunBy(members, run, steps)
  {
    hide Init, Take;
    var last := |run| - 1;
    if last == 0 {
      steps := [];
    } else {
      var before := StepsOf(members, run[..last]);
      assert Next(run[last - 1], run[last - 1 + 1]);
      var step :| Enabled(run[last - 1], step) && run[last] == Take(run[last - 1], step);
      steps := before + [step];
    }
  }

  lemma LengthOf(members: set<NodeId>, run: seq<Cluster>, steps: seq<Step>)
    requires IsRunBy(members, run, steps)
    ensures |run| == |steps| + 1
  {
  }

  lemma StepIs(members: set<NodeId>, run: seq<Cluster>, steps: seq<Step>, k: nat)
    requires IsRunBy(members, run, steps) && k < |steps|
    ensures |run| == |steps| + 1 && Enabled(run[k], steps[k]) && run[k + 1] == Take(run[k], steps[k])
  {
  }

  lemma {:induction false} NodesStay(members: set<NodeId>, run: seq<Cluster>, steps: seq<Step>, i: NodeId, k: nat)
    requires IsRunBy(members, run, steps) && k <= |steps| && i in members
    ensures |run| == |steps| + 1 && i in run[k].nodes
    decreases k
  {
    hide Effect;
    if k > 0 { NodesStay(members, run, steps, i, k - 1); }
  }

  // ---------------------------------------------------------------- what each node keeps locally

  ghost predicate LocalOk(members: set<NodeId>, i: NodeId, n: N.Node) {
    && n.id == i && PeersOf(members, i, n.peers)
    && n.log.baseIndex == 0 && n.log.baseTerm == 0
    && n.disk == N.Disk(n.term, n.votedFor, n.log)
    && (n.role == Candidate ==> n.electionTerm == n.term)
  }

  /** Nobody writes to itself, and a candidate asks for votes in its own name. */
  ghost predicate PacketOk(p: Packet) {
    p.from != p.to && (p.msg.RequestVote? ==> p.msg.candidate == p.from)
  }

  ghost predicate LocalsOk(members: set<NodeId>, c: Cluster) {
    && c.nodes.Keys == members
    && (forall i | i in c.nodes :: LocalOk(members, i, c.nodes[i]))
    && (forall p | p in c.net :: PacketOk(p))
  }

  function View(n: N.Node): Server {
    Server(n.term, n.votedFor, n.log.entries, n.role, n.votes)
  }

  function Abstract(c: Cluster): State {
    State(map i | i in c.nodes :: View(c.nodes[i]), c.net)
  }

  /** The protocol state after node `i` takes effect `e`. */
  function After(s: State, i: NodeId, e: N.Effect): State {
    State(s.servers[i := View(e.node)], s.net + set p | p in e.sent)
  }

  /** The bookkeeping the protocol does not look at may differ. */
  ghost predicate SameCore(a: N.Node, b: N.Node) {
    b == a.(commitIndex := b.commitIndex, lastApplied := b.lastApplied, kv := b.kv,
            nextIndex := b.nextIndex, matchIndex := b.matchIndex)
  }

  lemma {:induction false} ApplyCommittedKeepsCore(n: N.Node)
    ensures SameCore(n, N.ApplyCommitted(n))
    decreases n.commitIndex - n.lastApplied
  {
    if n.lastApplied < n.commitIndex {
      var n1 := n.(lastApplied := n.lastApplied + 1);
      if n1.lastApplied <= n.log.baseIndex {
        ApplyCommittedKeepsCore(n1);
      } else if n.log.At(n1.lastApplied).Some? {
        ApplyCommittedKeepsCore(n1.(kv := N.KvStore.Apply(n.kv, n.log.At(n1.lastApplied).value.cmd).data));
      }
    }
  }

  lemma MaybeAdvanceKeepsCore(n: N.Node)
    ensures SameCore(n, N.MaybeAdvanceCommit(n))
  {
    var k := N.CommitPoint(n, n.log.LastIndex());
    if k.Some? { ApplyCommittedKeepsCore(n.(commitIndex := k.value)); }
  }

  // ---------------------------------------------------------------- replication sends pieces of the leader's log

  lemma SliceIsPiece(l: L.Log, prev: nat, hi: nat)
    requires l.baseIndex == 0 && hi <= l.LastIndex() && (prev == 0 || l.TermAt(prev).Some?)
    ensures IsPiece(l.entries, prev, if prev == 0 then 0 else l.TermAt(prev).value, l.Slice(prev, hi))
  {
  }

  lemma ReplicateToSends(members: set<NodeId>, i: NodeId, n: N.Node, peer: NodeId)
    requires LocalOk(members, i, n) && peer != i
    ensures var e := N.ReplicateTo(n, peer).effect;
            SameCore(n, e.node) && forall p | p in e.sent :: n.role == Leader && IsAppendOf(i, View(n), p)
  {
    hide L.Log.Slice, L.Log.TermAt, IsPiece;
    var next := N.IndexOf(n.nextIndex, peer);
    if next == 1 || (next > 1 && n.log.TermAt(next - 1).Some?) {
      SliceIsPiece(n.log, next - 1, L.Min(next - 1 + N.MAX_ENTRIES_PER_AE, n.log.LastIndex()));
    }
  }

  lemma {:induction false} ReplicateAllSends(members: set<NodeId>, i: NodeId, n: N.Node, peers: seq<NodeId>)
    requires LocalOk(members, i, n) && forall p | p in peers :: p != i
    ensures var e := N.ReplicateAll(n, peers).effect;
            SameCore(n, e.node) && forall p | p in e.sent :: n.role == Leader && IsAppendOf(i, View(n), p)
    decreases |peers|
  {
    if peers != [] {
      assert peers[0] in peers;
      ReplicateToSends(members, i, n, peers[0]);
      forall p | p in peers[1..] ensures p != i { assert p in peers; }
      ReplicateAllSends(members, i, N.ReplicateTo(n, peers[0]).effect.node, peers[1..]);
    }
  }

  // ---------------------------------------------------------------- handlers are sequences of moves

  lemma {:induction false} MergeMatches(l: L.Log, entries: seq<LogEntry>)
    requires l.baseIndex == 0
    ensures N.MergeEntries(l, entries) == l.(entries := Merge(l.entries, entries))
    decreases |entries|
  {
    if entries != [] {
      var e := entries[0];
      if e.index > l.LastIndex() {
        MergeMatches(l.Append(e), entries[1..]);
      } else if e.index == 0 || l.entries[e.index - 1].term == e.term {
        MergeMatches(l, entries[1..]);
      } else {
        MergeMatches(l.TruncateFrom(e.index).Append(e), entries[1..]);
      }
    }
  }

  /** Stepping down changes what the protocol sees exactly as its move does. */
  lemma FollowerView(members: set<NodeId>, i: NodeId, n: N.Node, t: nat, leader: Option<NodeId>)
    requires LocalOk(members, i, n) && n.term <= t
    ensures var n' := N.BecomeFollower(n, t, leader);
            && View(n') == Server(t, if t > n.term then None else n.votedFor, n.log.entries, Follower, {})
            && LocalOk(members, i, n') && n'.log == n.log
  {
  }

  /** The node is in order after an effect, and its term has not gone back. */
  ghost predicate Follows(members: set<NodeId>, n: N.Node, n': N.Node) {
    LocalOk(members, n.id, n') && n.term <= n'.term
  }

  ghost predicate Sees(members: set<NodeId>, s: State, h: History, n: N.Node) {
    Inv(members, s, h) && n.id in s.servers && s.servers[n.id] == View(n) && LocalOk(members, n.id, n)
  }

  /** Stepping down, then possibly sending inert packets. */
  lemma StepDownMoves(members: set<NodeId>, s: State, h: History, n: N.Node, t: nat, leader: Option<NodeId>,
                      sent: seq<Packet>)
    requires Sees(members, s, h, n) && n.term <= t && forall p | p in sent :: IsInert(p)
    ensures var n' := N.BecomeFollower(n, t, leader);
            Inv(members, After(s, n.id, N.Effect(n', sent)), h) && Follows(members, n, n')
  {
    hide Inv, LocalOk, N.BecomeFollower;
    FollowerView(members, n.id, n, t, leader);
    StepDownKeeps(members, s, h, n.id, t);
    SendKeeps(members, StepDown(s, n.id, t), h, n.id, set p | p in sent);
  }

  lemma GrantView(members: set<NodeId>, i: NodeId, n: N.Node, from: NodeId, m: Message)
    requires LocalOk(members, i, n) && m.RequestVote?
    ensures var e, n1 := N.HandleRequestVote(n, from, m), if m.term > n.term then N.BecomeFollower(n, m.term, None) else n;
            && |e.sent| == 1 && e.sent[0].msg.RequestVoteReply?
            && e.sent[0] == Packet(i, from, RequestVoteReply(n1.term, e.sent[0].msg.granted))
            && LocalOk(members, i, e.node)
            && if e.sent[0].msg.granted then
                 && View(e.node) == View(n1).(votedFor := Some(m.candidate))
                 && m.term == n1.term && n1.votedFor in {None, Some(m.candidate)}
                 && UpToDate(m.lastIndex, m.lastTerm, n1.log.entries)
               else View(e.node) == View(n1)
  {
  }

  lemma VoteRequestMoves(members: set<NodeId>, s: State, h: History, n: N.Node, p: Packet) returns (h': History)
    requires Sees(members, s, h, n) && p in s.net && p.to == n.id && p.msg.RequestVote?
    ensures var e := N.HandleRequestVote(n, p.from, p.msg);
            Inv(members, After(s, n.id, e), h') && Extends(h, h') && Follows(members, n, e.node)
  {
    hide Inv, LocalOk, N.BecomeFollower, N.HandleRequestVote;
    var i, m, e := n.id, p.msg, N.HandleRequestVote(n, p.from, p.msg);
    var s1 := if m.term > n.term then StepDown(s, i, m.term) else s;
    if m.term > n.term {
      FollowerView(members, i, n, m.term, None);
      StepDownKeeps(members, s, h, i, m.term);
    }
    GrantView(members, i, n, p.from, m);
    if e.sent[0].msg.granted {
      h' := GrantKeeps(members, s1, h, i, p);
      assert After(s, i, e) == Grant(s1, i, p);
    } else {
      h' := h;
      SendKeeps(members, s1, h, i, {e.sent[0]});
      assert After(s, i, e) == Send(s1, {e.sent[0]});
    }
  }

  lemma ElectedView(members: set<NodeId>, i: NodeId, n: N.Node)
    requires LocalOk(members, i, n) && n.role == Candidate
    ensures var n' := N.Elected(n);
            View(n') == View(n).(role := Leader, votes := {}) && LocalOk(members, i, n') && n'.peers == n.peers
  {
  }

  lemma LeaderView(members: set<NodeId>, i: NodeId, n: N.Node)
    requires LocalOk(members, i, n) && n.role == Candidate
    ensures var e := N.BecomeLeader(n);
            && View(e.node) == View(n).(role := Leader, votes := {}) && LocalOk(members, i, e.node)
            && forall p | p in e.sent :: IsAppendOf(i, View(n).(role := Leader, votes := {}), p)
  {
    hide N.ReplicateAll, N.Elected;
    ElectedView(members, i, n);
    ReplicateAllSends(members, i, N.Elected(n), n.peers);
  }

  /** Winning an election and announcing it. */
  lemma WinMoves(members: set<NodeId>, s: State, h: History, n: N.Node) returns (h': History)
    requires Sees(members, s, h, n) && n.role == Candidate && |n.votes| + 1 >= |members| / 2 + 1
    ensures var e := N.BecomeLeader(n);
            Inv(members, After(s, n.id, e), h') && Extends(h, h') && Follows(members, n, e.node)
  {
    hide Inv, LocalOk, N.BecomeLeader;
    var i, e := n.id, N.BecomeLeader(n);
    LeaderView(members, i, n);
    h' := WinKeeps(members, s, h, i);
    SendKeeps(members, Win(s, i), h', i, set p | p in e.sent);
  }

  lemma VoteReplyMoves(members: set<NodeId>, s: State, h: History, n: N.Node, p: Packet) returns (h': History)
    requires Sees(members, s, h, n) && p in s.net && p.to == n.id && p.msg.RequestVoteReply?
    ensures var e := N.HandleRequestVoteReply(n, p.from, p.msg);
            Inv(members, After(s, n.id, e), h') && Extends(h, h') && Follows(members, n, e.node)
  {
    hide Inv, N.BecomeLeader, N.BecomeFollower;
    var i, m, e := n.id, p.msg, N.HandleRequestVoteReply(n, p.from, p.msg);
    h' := h;
    if n.role != Candidate || (m.term <= n.term && (m.term < n.term || !m.granted)) {
      assert After(s, i, e) == s;
    } else if m.term > n.term {
      StepDownMoves(members, s, h, n, m.term, None, []);
    } else {
      CountKeeps(members, s, h, i, p);
      var n1 := n.(votes := n.votes + {p.from});
      if |n1.votes| + 1 >= N.Quorum(n) {
        h' := WinMoves(members, Count(s, i, p), h, n1);
        assert After(s, i, e) == After(Count(s, i, p), i, e);
      } else {
        assert After(s, i, e) == Count(s, i, p);
      }
    }
  }

  lemma AcceptView(members: set<NodeId>, i: NodeId, n: N.Node, from: NodeId, m: Message)
    requires LocalOk(members, i, n) && m.AppendEntries?
    ensures var e, n1 := N.HandleAppendEntries(n, from, m), N.BecomeFollower(n, m.term, Some(from));
            && |e.sent| == 1 && IsInert(e.sent[0]) && LocalOk(members, i, e.node)
            && if m.term < n.term then e.node == n
               else if HoldsAt(n.log.entries, m.prevIndex, m.prevTerm)
               then View(e.node) == View(n1).(log := Merge(n.log.entries, m.entries))
               else e.node == n1
  {
    hide N.BecomeFollower, N.ApplyCommitted;
    var n1 := N.BecomeFollower(n, m.term, Some(from));
    if m.term < n.term { return; }
    FollowerView(members, i, n, m.term, Some(from));
    MergeMatches(n1.log, m.entries);
    var n2 := N.Persist(n1.(log := N.MergeEntries(n1.log, m.entries)));
    ApplyCommittedKeepsCore(n2.(commitIndex := L.Min(m.leaderCommit, n2.log.LastIndex())));
  }

  lemma AppendMoves(members: set<NodeId>, s: State, h: History, n: N.Node, p: Packet) returns (h': History)
    requires Sees(members, s, h, n) && p in s.net && p.to == n.id && p.msg.AppendEntries?
    ensures var e := N.HandleAppendEntries(n, p.from, p.msg);
            Inv(members, After(s, n.id, e), h') && Extends(h, h') && Follows(members, n, e.node)
  {
    hide Inv, LocalOk, N.BecomeFollower, N.HandleAppendEntries;
    var i, m, e := n.id, p.msg, N.HandleAppendEntries(n, p.from, p.msg);
    AcceptView(members, i, n, p.from, m);
    h' := h;
    if m.term < n.term {
      SendsOnly(members, s, h, n, e);
    } else {
      FollowerView(members, i, n, m.term, Some(p.from));
      StepDownKeeps(members, s, h, i, m.term);
      var s1 := StepDown(s, i, m.term);
      if HoldsAt(n.log.entries, m.prevIndex, m.prevTerm) {
        h' := AcceptKeeps(members, s1, h, i, p);
        s1 := Accept(s1, i, p);
      }
      SendKeeps(members, s1, h', i, {e.sent[0]});
      assert After(s, i, e) == Send(s1, {e.sent[0]});
    }
  }

  lemma AppendReplyView(members: set<NodeId>, i: NodeId, n: N.Node, from: NodeId, m: Message)
    requires LocalOk(members, i, n) && from != i && m.AppendEntriesReply?
    requires n.role != Leader || m.term <= n.term
    ensures var e := N.HandleAppendEntriesReply(n, from, m);
            SameCore(n, e.node) && forall p | p in e.sent :: n.role == Leader && IsAppendOf(i, View(n), p)
  {
    hide N.ReplicateTo, N.MaybeAdvanceCommit;
    if n.role == Leader && m.term == n.term {
      if m.success {
        var match_ := L.Max(N.IndexOf(n.matchIndex, from), N.SentUpTo(n, from));
        MaybeAdvanceKeepsCore(n.(matchIndex := n.matchIndex[from := match_],
                                 nextIndex := n.nextIndex[from := match_ + 1]));
      } else {
        var lastInTerm := n.log.LastIndexForTerm(m.conflictTerm);
        var next := if m.conflictTerm == 0 || lastInTerm == 0 then m.conflictIndex else lastInTerm + 1;
        ReplicateToSends(members, i, n.(nextIndex := n.nextIndex[from := L.Max(next, 1)]), from);
      }
    }
  }

  lemma AppendReplyMoves(members: set<NodeId>, s: State, h: History, n: N.Node, p: Packet)
    requires Sees(members, s, h, n) && p.to == n.id && p.from != p.to && p.msg.AppendEntriesReply?
    ensures var e := N.HandleAppendEntriesReply(n, p.from, p.msg);
            Inv(members, After(s, n.id, e), h) && Follows(members, n, e.node)
  {
    hide Inv, N.HandleAppendEntriesReply, N.BecomeFollower;
    if n.role == Leader && p.msg.term > n.term {
      ReplyStepsDown(n, p.from, p.msg);
      StepDownMoves(members, s, h, n, p.msg.term, None, []);
    } else {
      AppendReplyView(members, n.id, n, p.from, p.msg);
      SendsOnly(members, s, h, n, N.HandleAppendEntriesReply(n, p.from, p.msg));
    }
  }

  lemma ReplyStepsDown(n: N.Node, from: NodeId, m: Message)
    requires m.AppendEntriesReply? && n.role == Leader && m.term > n.term
    ensures N.HandleAppendEntriesReply(n, from, m) == N.Effect(N.BecomeFollower(n, m.term, None), [])
  {
  }

  /** An effect that leaves the protocol's view alone and sends only what a leader may. */
  lemma SendsOnly(members: set<NodeId>, s: State, h: History, n: N.Node, e: N.Effect)
    requires Sees(members, s, h, n) && View(e.node) == View(n)
    requires forall p | p in e.sent :: IsInert(p) || (n.role == Leader && IsAppendOf(n.id, View(n), p))
    ensures Inv(members, After(s, n.id, e), h)
  {
    hide Inv, LocalOk;
    SendKeeps(members, s, h, n.id, set p | p in e.sent);
    assert After(s, n.id, e) == Send(s, set p | p in e.sent);
  }

  lemma ReadMoves(members: set<NodeId>, s: State, h: History, n: N.Node, p: Packet)
    requires Sees(members, s, h, n) && (p.msg.ReadIndexRequest? || p.msg.ReadIndexReply?)
    ensures var e := N.OnMessage(n, p.from, p.msg);
            Inv(members, After(s, n.id, e), h) && Follows(members, n, e.node)
  {
    hide Inv, LocalOk, N.BecomeFollower;
    var e, t := N.OnMessage(n, p.from, p.msg), p.msg.term;
    if !n.running || t < n.term || (p.msg.ReadIndexReply? && t == n.term) {
      SendsOnly(members, s, h, n, e);
    } else {
      StepDownMoves(members, s, h, n, t, if p.msg.ReadIndexRequest? then Some(p.from) else None, e.sent);
    }
  }

  lemma CandidateView(members: set<NodeId>, i: NodeId, n: N.Node)
    requires LocalOk(members, i, n)
    ensures var n' := N.Candidacy(n);
            && View(n') == Server(n.term + 1, Some(i), n.log.entries, Candidate, {}) && LocalOk(members, i, n')
            && n'.peers == n.peers
            && forall p | p in N.Canvass(n) :: IsRequestOf(i, View(n).(term := n.term + 1), p)
  {
    BroadcastTo(members, i, n, RequestVote(n.term + 1, n.id, n.log.LastIndex(), n.log.LastTerm()));
  }

  lemma BroadcastTo(members: set<NodeId>, i: NodeId, n: N.Node, m: Message)
    requires LocalOk(members, i, n)
    ensures forall p | p in N.Broadcast(n.id, n.peers, m) :: p.from == i && p.to != i && p.msg == m
  {
    forall p | p in N.Broadcast(n.id, n.peers, m) ensures p.from == i && p.to != i && p.msg == m {
      var k :| 0 <= k < |n.peers| && p == Packet(n.id, n.peers[k], m);
      assert n.peers[k] in n.peers;
    }
  }

  lemma CampaignMoves(members: set<NodeId>, s: State, h: History, n: N.Node) returns (h': History)
    requires Sees(members, s, h, n)
    ensures var e := N.BecomeCandidate(n);
            Inv(members, After(s, n.id, e), h') && Extends(h, h') && Follows(members, n, e.node)
  {
    hide Inv, LocalOk, N.Candidacy, N.Canvass, N.BecomeLeader;
    var i, e := n.id, N.BecomeCandidate(n);
    h' := h;
    if !n.running {
      assert After(s, i, e) == s;
    } else {
      var n1, ps := N.Candidacy(n), set p | p in N.Canvass(n);
      CandidateView(members, i, n);
      h' := CampaignKeeps(members, s, h, i, ps);
      var s1 := Campaign(s, i, ps);
      if 1 >= N.Quorum(n) {
        var h1 := h';
        SoleMember(members, i, n);
        h' := WinMoves(members, s1, h1, n1);
        ExtendsTrans(h, h1, h');
        assert After(s, i, e) == After(s1, i, N.BecomeLeader(n1));
      } else {
        assert After(s, i, e) == s1;
      }
    }
  }

  lemma SoleMember(members: set<NodeId>, i: NodeId, n: N.Node)
    requires LocalOk(members, i, n)
    ensures N.Quorum(n) == |members| / 2 + 1
  {
  }

  lemma TimerMoves(members: set<NodeId>, s: State, h: History, n: N.Node, gen: nat) returns (h': History)
    requires Sees(members, s, h, n)
    ensures var e := N.OnElectionTimer(n, gen);
            Inv(members, After(s, n.id, e), h') && Extends(h, h') && Follows(members, n, e.node)
  {
    hide Inv, N.BecomeCandidate;
    var i, e := n.id, N.OnElectionTimer(n, gen);
    var n2 := n.(timer := N.Timer(false, n.timer.gen, n.timer.pending - {gen}));
    if gen == n.timer.gen && n.running && n.role != Leader {
      h' := CampaignMoves(members, s, h, n2);
    } else {
      h' := h;
      assert After(s, i, e) == s;
    }
  }

  lemma SubmitView(members: set<NodeId>, i: NodeId, n: N.Node, cmd: Command)
    requires LocalOk(members, i, n) && n.running && n.role == Leader
    ensures var e, v := N.Submit(n, cmd), View(n).(log := n.log.entries + [LogEntry(n.term, |n.log.entries| + 1, cmd)]);
            View(e.node) == v && LocalOk(members, i, e.node) && forall p | p in e.sent :: IsAppendOf(i, v, p)
  {
    hide N.ReplicateAll, N.MaybeAdvanceCommit;
    var n1 := N.Appended(n, cmd);
    ReplicateAllSends(members, i, n1, n.peers);
    MaybeAdvanceKeepsCore(N.ReplicateAll(n1, n.peers).effect.node);
  }

  lemma SubmitMoves(members: set<NodeId>, s: State, h: History, n: N.Node, cmd: Command) returns (h': History)
    requires Sees(members, s, h, n)
    ensures var e := N.Submit(n, cmd);
            Inv(members, After(s, n.id, e), h') && Extends(h, h') && Follows(members, n, e.node)
  {
    var i, e := n.id, N.Submit(n, cmd);
    h' := h;
    if n.running && n.role == Leader {
      hide Inv, LocalOk, N.Submit;
      SubmitView(members, i, n, cmd);
      h' := ExtendKeeps(members, s, h, i, cmd);
      SendKeeps(members, Extend(s, i, cmd), h', i, set p | p in e.sent);
      assert After(s, i, e) == Send(Extend(s, i, cmd), set p | p in e.sent);
    } else {
      hide Inv, LocalOk;
      assert After(s, i, e) == s;
    }
  }

  lemma HeartbeatMoves(members: set<NodeId>, s: State, h: History, n: N.Node)
    requires Sees(members, s, h, n)
    ensures var e := N.OnHeartbeat(n);
            Inv(members, After(s, n.id, e), h) && Follows(members, n, e.node)
  {
    hide Inv, N.ReplicateAll;
    ReplicateAllSends(members, n.id, n, n.peers);
    SendsOnly(members, s, h, n, N.OnHeartbeat(n));
  }

  lemma ReadIndexMoves(members: set<NodeId>, s: State, h: History, n: N.Node, round: nat)
    requires Sees(members, s, h, n)
    ensures var e := N.ReadIndex(n, round);
            Inv(members, After(s, n.id, e), h) && Follows(members, n, e.node)
  {
    hide Inv, LocalOk;
    SendsOnly(members, s, h, n, N.ReadIndex(n, round));
  }

  /** A crash is a step down in place, and a restart finds on disk what memory held. */
  lemma CrashMoves(members: set<NodeId>, s: State, h: History, n: N.Node)
    requires Sees(members, s, h, n)
    ensures Inv(members, After(s, n.id, N.Effect(N.Crash(n), [])), h) && Follows(members, n, N.Crash(n))
    ensures Inv(members, After(s, n.id, N.Effect(N.Restart(n), [])), h) && Follows(members, n, N.Restart(n))
    ensures View(N.Restart(n)) == View(n)
  {
    hide Inv;
    StepDownKeeps(members, s, h, n.id, n.term);
    assert After(s, n.id, N.Effect(N.Crash(n), [])) == StepDown(s, n.id, n.term);
    assert After(s, n.id, N.Effect(N.Restart(n), [])) == s;
  }

  // ---------------------------------------------------------------- packets on the wire

  ghost predicate Addressed(i: NodeId, sent: seq<Packet>) {
    forall p | p in sent :: p.from == i && PacketOk(p)
  }

  lemma ReplicationAddressed(members: set<NodeId>, i: NodeId, n: N.Node)
    requires LocalOk(members, i, n)
    ensures Addressed(i, N.ReplicateAll(n, n.peers).effect.sent)
  {
    ReplicateAllSends(members, i, n, n.peers);
  }

  lemma LeaderAddressed(members: set<NodeId>, i: NodeId, n: N.Node)
    requires LocalOk(members, i, n) && n.role == Candidate
    ensures Addressed(i, N.BecomeLeader(n).sent)
  {
    hide N.BecomeLeader;
    LeaderView(members, i, n);
  }

  lemma MessageAddressed(members: set<NodeId>, i: NodeId, n: N.Node, from: NodeId, m: Message)
    requires LocalOk(members, i, n) && from != i
    ensures Addressed(i, N.OnMessage(n, from, m).sent)
  {
    hide N.BecomeFollower, N.BecomeLeader, N.ReplicateTo, N.MergeEntries, N.ApplyCommitted, N.MaybeAdvanceCommit;
    if !m.ClientRequest? && !m.ClientReply? && m.term >= n.term {
      FollowerView(members, i, n, m.term, None);
      FollowerView(members, i, n, m.term, Some(from));
    }
    if m.AppendEntries? {
      AcceptView(members, i, n, from, m);
    } else if m.AppendEntriesReply? && (n.role != Leader || m.term <= n.term) {
      AppendReplyView(members, i, n, from, m);
    } else if m.RequestVoteReply? && n.role == Candidate {
      LeaderAddressed(members, i, n.(votes := n.votes + {from}));
    }
  }

  lemma EffectAddressed(members: set<NodeId>, i: NodeId, n: N.Node, step: Step)
    requires LocalOk(members, i, n) && (step.Deliver? ==> step.packet.from != i)
    ensures Addressed(i, Effect(n, step).sent)
  {
    hide N.OnMessage, N.BecomeLeader, N.ReplicateAll, N.MaybeAdvanceCommit, N.Candidacy, N.Appended;
    match step
    case Deliver(p) => MessageAddressed(members, i, n, p.from, p.msg);
    case Timer(_, gen) => TimerAddressed(members, i, n, gen);
    case Heartbeat(_) => ReplicationAddressed(members, i, n);
    case Client(_, cmd) => if n.running && n.role == Leader { SubmitView(members, i, n, cmd); }
    case Read(_, round) => BroadcastTo(members, i, n, ReadIndexRequest(n.term, n.id, round));
    case Crash(_) =>
    case Restart(_) =>
  }

  lemma TimerAddressed(members: set<NodeId>, i: NodeId, n: N.Node, gen: nat)
    requires LocalOk(members, i, n)
    ensures Addressed(i, N.OnElectionTimer(n, gen).sent)
  {
    hide N.BecomeLeader, N.Candidacy, N.Canvass;
    var n2 := n.(timer := N.Timer(false, n.timer.gen, n.timer.pending - {gen}));
    CandidateView(members, i, n2);
    LeaderAddressed(members, i, N.Candidacy(n2));
  }

  // ---------------------------------------------------------------- every run

  ghost predicate ClusterInv(members: set<NodeId>, c: Cluster, h: History) {
    LocalsOk(members, c) && Inv(members, Abstract(c), h)
  }

  lemma MessageMoves(members: set<NodeId>, s: State, h: History, n: N.Node, p: Packet) returns (h': History)
    requires Sees(members, s, h, n) && p in s.net && p.to == n.id && p.from != p.to
    ensures var e := N.OnMessage(n, p.from, p.msg);
            Inv(members, After(s, n.id, e), h') && Extends(h, h') && Follows(members, n, e.node)
  {
    hide Inv, LocalOk, N.HandleRequestVote, N.HandleRequestVoteReply, N.HandleAppendEntries, N.HandleAppendEntriesReply,
         N.HandleReadIndexRequest, N.HandleReadIndexReply, N.BecomeFollower;
    h' := h;
    if !n.running {
      assert After(s, n.id, N.OnMessage(n, p.from, p.msg)) == s;
    } else {
      match p.msg
      case RequestVote(_, _, _, _) => h' := VoteRequestMoves(members, s, h, n, p);
      case RequestVoteReply(_, _) => h' := VoteReplyMoves(members, s, h, n, p);
      case AppendEntries(_, _, _, _, _, _) => h' := AppendMoves(members, s, h, n, p);
      case AppendEntriesReply(_, _, _, _) => AppendReplyMoves(members, s, h, n, p);
      case ReadIndexRequest(_, _, _) => ReadMoves(members, s, h, n, p);
      case ReadIndexReply(_, _) => ReadMoves(members, s, h, n, p);
      case _ => assert After(s, n.id, N.OnMessage(n, p.from, p.msg)) == s;
    }
  }

  lemma EffectMoves(members: set<NodeId>, s: State, h: History, n: N.Node, step: Step) returns (h': History)
    requires Sees(members, s, h, n)
    requires step.Deliver? ==> step.packet in s.net && step.packet.to == n.id && step.packet.from != step.packet.to
    ensures Inv(members, After(s, n.id, Effect(n, step)), h') && Extends(h, h')
    ensures Follows(members, n, Effect(n, step).node)
  {
    hide Inv, LocalOk, N.OnMessage, N.OnElectionTimer, N.OnHeartbeat, N.Submit, N.ReadIndex, N.Crash, N.Restart;
    h' := h;
    match step
    case Deliver(p) => h' := MessageMoves(members, s, h, n, p);
    case Timer(_, gen) => h' := TimerMoves(members, s, h, n, gen);
    case Heartbeat(_) => HeartbeatMoves(members, s, h, n);
    case Client(_, cmd) => h' := SubmitMoves(members, s, h, n, cmd);
    case Read(_, round) => ReadIndexMoves(members, s, h, n, round);
    case Crash(_) => CrashMoves(members, s, h, n);
    case Restart(_) => CrashMoves(members, s, h, n);
  }

  /** One step of any node preserves the invariant and only adds to the history. */
  lemma TakeKeeps(members: set<NodeId>, c: Cluster, h: History, step: Step) returns (h': History)
    requires ClusterInv(members, c, h) && Enabled(c, step)
    ensures ClusterInv(members, Take(c, step), h') && Extends(h, h')
    ensures forall j | j in c.nodes :: c.nodes[j].term <= Take(c, step).nodes[j].term
  {
    hide Inv, LocalOk, Effect;
    var i, s := step.Actor(), Abstract(c);
    var n := c.nodes[i];
    NodeHasItsId(members, i, n);
    h' := EffectMoves(members, s, h, n, step);
    EffectAddressed(members, i, n, step);
    assert Abstract(Take(c, step)) == After(s, i, Effect(n, step));
  }

  lemma NodeHasItsId(members: set<NodeId>, i: NodeId, n: N.Node)
    requires LocalOk(members, i, n)
    ensures n.id == i
  {
  }

  const NOTHING_YET := History(map[], map[], map[], {})

  const BLANK := Server(0, None, [], Follower, {})

  lemma CreatedNode(members: set<NodeId>, c: Cluster, i: NodeId)
    requires Init(members, c) && i in members
    ensures LocalOk(members, i, c.nodes[i]) && View(c.nodes[i]) == BLANK
  {
    var peers :| PeersOf(members, i, peers) && c.nodes[i] == N.Created(i, peers);
  }

  /** Empty followers and an empty network meet the invariant. */
  lemma BlankHolds(members: set<NodeId>, s: State)
    requires s.servers.Keys == members && s.net == {} && forall i | i in members :: s.servers[i] == BLANK
    ensures Inv(members, s, NOTHING_YET)
  {
  }

  lemma InitHolds(members: set<NodeId>, c: Cluster)
    requires Init(members, c)
    ensures ClusterInv(members, c, NOTHING_YET)
  {
    hide Inv, LocalOk, View;
    forall i | i in members ensures LocalOk(members, i, c.nodes[i]) && View(c.nodes[i]) == BLANK { CreatedNode(members, c, i); }
    BlankHolds(members, Abstract(c));
  }
}
