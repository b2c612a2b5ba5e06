/**
  The node's event handlers (src/raft/node.cpp) as functions from the node's
  state to its new state and the packets it sends, in sending order.  Membership
  is fixed, snapshots are off and both bug flags are off, as the runner builds it.
*/
module RaftNode {
  import opened RaftTypes
  import opened CompactedLog
  import KvStore

  const MAX_ENTRIES_PER_AE: nat := 64

  /** What the meta and log stores hold durably; `NodeObject.StoredAs` relates it to their bytes. */
  datatype Disk = Disk(term: nat, votedFor: Option<NodeId>, log: Log)

  datatype Node = Node(
    id: NodeId, peers: seq<NodeId>, running: bool,
    term: nat, votedFor: Option<NodeId>, log: Log, disk: Disk,
    role: Role, commitIndex: nat, lastApplied: nat, leaderId: Option<NodeId>, kv: KvStore.Map,
    votes: set<NodeId>, electionTerm: nat,
    nextIndex: map<NodeId, nat>, matchIndex: map<NodeId, nat>,
    timer: Timer
  )

  /** The election timer: whether a timeout is scheduled, the generation a callback must carry to
      be heeded, and the generations of the callbacks the clock has not delivered yet. */
  datatype Timer = Timer(on: bool, gen: nat, pending: set<nat>) {

    function Schedule(): Timer {
      if on then this else Timer(true, gen + 1, pending + {gen + 1})
    }

    /** The clock may still deliver a cancelled callback: its generation stays pending. */
    function Cancel(): Timer {
      if on then Timer(false, gen + 1, pending) else this
    }

    function Rearm(): Timer { Cancel().Schedule() }
  }

  datatype Effect = Effect(node: Node, sent: seq<Packet>)

  function Created(id: NodeId, peers: seq<NodeId>): Node {
    Node(id, peers, false, 0, None, EMPTY, Disk(0, None, EMPTY), Follower, 0, 0, None, map[],
         {}, 0, map[], map[], Timer(false, 0, {}))
  }

  function Quorum(n: Node): nat { (|n.peers| + 1) / 2 + 1 }

  function Persist(n: Node): Node { n.(disk := Disk(n.term, n.votedFor, n.log)) }

  function SendTo(n: Node, to: NodeId, msg: Message): Effect { Effect(n, [Packet(n.id, to, msg)]) }

  function Broadcast(from: NodeId, peers: seq<NodeId>, msg: Message): seq<Packet> {
    seq(|peers|, k requires 0 <= k < |peers| => Packet(from, peers[k], msg))
  }

  predicate IsLogUpToDate(n: Node, lastIndex: nat, lastTerm: nat) {
    if lastTerm != n.log.LastTerm() then lastTerm > n.log.LastTerm() else lastIndex >= n.log.LastIndex()
  }

  // ---------------------------------------------------------------- lifecycle

  function Crash(n: Node): Node {
    n.(running := false, timer := n.timer.(on := false), role := Follower, commitIndex := 0, lastApplied := 0,
       leaderId := None, votes := {}, nextIndex := map[], matchIndex := map[], electionTerm := 0, kv := map[])
  }

  function Restart(n: Node): Node {
    n.(running := true, term := n.disk.term, votedFor := n.disk.votedFor, log := n.disk.log, kv := map[],
       timer := n.timer.Schedule())
  }

  // ---------------------------------------------------------------- roles

  function BecomeFollower(n: Node, t: nat, leader: Option<NodeId>): Node {
    var n1 := if t > n.term then Persist(n.(term := t, votedFor := None)) else n;
    n1.(role := Follower, leaderId := leader, votes := {}, timer := n.timer.Rearm())
  }

  /** The state of a fresh candidate. */
  function Candidacy(n: Node): Node {
    Persist(n.(term := n.term + 1, role := Candidate, votedFor := Some(n.id), votes := {},
               electionTerm := n.term + 1, leaderId := None, timer := n.timer.Rearm()))
  }

  function Canvass(n: Node): seq<Packet> {
    Broadcast(n.id, n.peers, RequestVote(n.term + 1, n.id, n.log.LastIndex(), n.log.LastTerm()))
  }

  function BecomeCandidate(n: Node): Effect {
    if !n.running then Effect(n, [])
    else if 1 >= Quorum(n) then
      var e := BecomeLeader(Candidacy(n));
      Effect(e.node, Canvass(n) + e.sent)
    else Effect(Candidacy(n), Canvass(n))
  }

  /** The state of a fresh leader, before it replicates. */
  function Elected(n: Node): Node {
    var last := n.log.LastIndex();
    n.(role := Leader, leaderId := Some(n.id), votes := {}, timer := n.timer.Cancel(),
       nextIndex := PerPeer(n.peers, last + 1, n.id, last + 1), matchIndex := PerPeer(n.peers, 0, n.id, last))
  }

  function PerPeer(peers: seq<NodeId>, theirs: nat, id: NodeId, own: nat): map<NodeId, nat> {
    (map p | p in peers :: theirs)[id := own]
  }

  function BecomeLeader(n: Node): Effect {
    if n.role == Leader then Effect(n, []) else ReplicateAll(Elected(n), n.peers).effect
  }

  // ---------------------------------------------------------------- replication

  /** `threw` is the out-of-range exception of a match point beyond the leader's own log. */
  datatype Replicated = Replicated(effect: Effect, threw: bool)

  function IndexOf(m: map<NodeId, nat>, peer: NodeId): nat { if peer in m then m[peer] else 0 }

  /** The last index sent to a peer, as far as its next index tells. */
  function SentUpTo(n: Node, peer: NodeId): nat {
    var next := IndexOf(n.nextIndex, peer);
    if next == 0 then 0 else next - 1
  }

  function ReplicateTo(n: Node, peer: NodeId): Replicated {
    var next := IndexOf(n.nextIndex, peer);
    if n.role != Leader || next == 0 then Replicated(Effect(n, []), false)
    else
      var prev := next - 1;
      match (if prev > 0 then n.log.TermAt(prev) else Some(0))
      case None => Replicated(Effect(n, []), true)
      case Some(prevTerm) =>
        var entries := n.log.Slice(prev, Min(prev + MAX_ENTRIES_PER_AE, n.log.LastIndex()));
        var n1 := if entries == [] then n
                  else n.(nextIndex := n.nextIndex[peer := entries[|entries| - 1].index + 1]);
        Replicated(SendTo(n1, peer, AppendEntries(n.term, n.id, prev, prevTerm, entries, n.commitIndex)), false)
  }

  /** One peer after the other; an exception abandons the peers that are left. */
  function ReplicateAll(n: Node, peers: seq<NodeId>): Replicated
    decreases |peers|
  {
    if peers == [] then Replicated(Effect(n, []), false)
    else
      var r := ReplicateTo(n, peers[0]);
      if r.threw then r
      else
        var rest := ReplicateAll(r.effect.node, peers[1..]);
        Replicated(Effect(rest.effect.node, r.effect.sent + rest.effect.sent), rest.threw)
  }

  function Matched(n: Node, k: nat): set<NodeId> { set p | p in n.matchIndex && n.matchIndex[p] >= k }

  predicate Commits(n: Node, k: nat) {
    n.log.At(k).Some? && n.log.At(k).value.term == n.term && |Matched(n, k)| >= Quorum(n)
  }

  /** The greatest committable index in (commitIndex, k], if any. */
  function CommitPoint(n: Node, k: nat): Option<nat> {
    if k <= n.commitIndex || k <= n.log.baseIndex then None
    else if Commits(n, k) then Some(k)
    else CommitPoint(n, k - 1)
  }

  function MaybeAdvanceCommit(n: Node): Node {
    match CommitPoint(n, n.log.LastIndex())
    case None => n
    case Some(k) => ApplyCommitted(n.(commitIndex := k))
  }

  function ApplyCommitted(n: Node): Node
    decreases n.commitIndex - n.lastApplied
  {
    if n.lastApplied >= n.commitIndex then n
    else
      var n1 := n.(lastApplied := n.lastApplied + 1);
      if n1.lastApplied <= n.log.baseIndex then ApplyCommitted(n1)
      else match n.log.At(n1.lastApplied)
           case None => n1 // out-of-range exception
           case Some(e) => ApplyCommitted(n1.(kv := KvStore.Apply(n.kv, e.cmd).data))
  }

  // ---------------------------------------------------------------- message handlers

  function HandleRequestVote(n: Node, from: NodeId, m: Message): Effect
    requires m.RequestVote?
  {
    var n1 := if m.term > n.term then BecomeFollower(n, m.term, None) else n;
    var grant := m.term >= n1.term && (n1.votedFor.None? || n1.votedFor == Some(m.candidate))
                 && IsLogUpToDate(n1, m.lastIndex, m.lastTerm);
    var n2 := if grant then Persist(n1.(votedFor := Some(m.candidate), timer := n1.timer.Rearm())) else n1;
    SendTo(n2, from, RequestVoteReply(n2.term, grant))
  }

  function HandleRequestVoteReply(n: Node, from: NodeId, m: Message): Effect
    requires m.RequestVoteReply?
  {
    if n.role != Candidate then Effect(n, [])
    else if m.term > n.term then Effect(BecomeFollower(n, m.term, None), [])
    else if m.term < n.term || m.term != n.electionTerm || !m.granted then Effect(n, [])
    else
      var n1 := n.(votes := n.votes + {from});
      if |n1.votes| + 1 >= Quorum(n) then BecomeLeader(n1) else Effect(n1, [])
  }

  /** One received entry: skip what is there, cut at a conflict, append. */
  function MergeOne(l: Log, e: LogEntry): Log {
    if e.index <= l.LastIndex() then
      if e.index <= l.baseIndex || l.entries[e.index - l.baseIndex - 1].term == e.term then l
      else l.TruncateFrom(e.index).Append(e)
    else l.Append(e)
  }

  function MergeEntries(l: Log, entries: seq<LogEntry>): Log
    decreases |entries|
  {
    if entries == [] then l else MergeEntries(MergeOne(l, entries[0]), entries[1..])
  }

  /** The refusal a follower sends when it lacks the predecessor entry. */
  function ConflictReply(n: Node, term: nat, m: Message): Message
    requires m.AppendEntries?
  {
    if m.prevIndex > n.log.LastIndex() then AppendEntriesReply(term, false, n.log.LastIndex() + 1, 0)
    else match n.log.At(m.prevIndex)
         case Some(e) =>
           var last := n.log.LastIndexForTerm(e.term);
           AppendEntriesReply(term, false, if last == 0 then 1 else last, e.term)
         case None => AppendEntriesReply(term, false, n.log.baseIndex + 1, 0)
  }

  function HandleAppendEntries(n: Node, from: NodeId, m: Message): Effect
    requires m.AppendEntries?
  {
    if m.term < n.term then SendTo(n, from, AppendEntriesReply(n.term, false, 0, 0))
    else
      var n1 := BecomeFollower(n, m.term, Some(from));
      if !n1.log.Contains(m.prevIndex, m.prevTerm) then SendTo(n1, from, ConflictReply(n1, n.term, m))
      else
        var n2 := Persist(n1.(log := MergeEntries(n1.log, m.entries)));
        var n3 := if m.leaderCommit > n2.commitIndex
                  then ApplyCommitted(n2.(commitIndex := Min(m.leaderCommit, n2.log.LastIndex()))) else n2;
        SendTo(n3, from, AppendEntriesReply(n3.term, true, 0, 0))
  }

  function HandleAppendEntriesReply(n: Node, from: NodeId, m: Message): Effect
    requires m.AppendEntriesReply?
  {
    if n.role != Leader then Effect(n, [])
    else if m.term > n.term then Effect(BecomeFollower(n, m.term, None), [])
    else if m.term < n.term then Effect(n, [])
    else if m.success then
      var match_ := Max(IndexOf(n.matchIndex, from), SentUpTo(n, from));
      Effect(MaybeAdvanceCommit(n.(matchIndex := n.matchIndex[from := match_],
                                   nextIndex := n.nextIndex[from := match_ + 1])), [])
    else
      var lastInTerm := n.log.LastIndexForTerm(m.conflictTerm);
      var next := if m.conflictTerm == 0 || lastInTerm == 0 then m.conflictIndex else lastInTerm + 1;
      ReplicateTo(n.(nextIndex := n.nextIndex[from := Max(next, 1)]), from).effect
  }

  /** Read-index rounds only matter here for the terms they carry. */
  function HandleReadIndexRequest(n: Node, from: NodeId, m: Message): Effect
    requires m.ReadIndexRequest?
  {
    if m.term < n.term then Effect(n, [])
    else
      var n1 := BecomeFollower(n, m.term, Some(from));
      SendTo(n1, from, ReadIndexReply(n1.term, m.round))
  }

  function HandleReadIndexReply(n: Node, m: Message): Effect
    requires m.ReadIndexReply?
  {
    if m.term > n.term then Effect(BecomeFollower(n, m.term, None), []) else Effect(n, [])
  }

  /** Client commands arrive through `Submit`; with snapshots off no other message is ever sent. */
  function OnMessage(n: Node, from: NodeId, m: Message): Effect {
    if !n.running then Effect(n, [])
    else match m
         case RequestVote(_, _, _, _) => HandleRequestVote(n, from, m)
         case RequestVoteReply(_, _) => HandleRequestVoteReply(n, from, m)
         case AppendEntries(_, _, _, _, _, _) => HandleAppendEntries(n, from, m)
         case AppendEntriesReply(_, _, _, _) => HandleAppendEntriesReply(n, from, m)
         case ReadIndexRequest(_, _, _) => HandleReadIndexRequest(n, from, m)
         case ReadIndexReply(_, _) => HandleReadIndexReply(n, m)
         case _ => Effect(n, [])
  }

  // ---------------------------------------------------------------- local events

  function OnElectionTimer(n: Node, gen: nat): Effect {
    var pending := n.timer.pending - {gen};
    if gen != n.timer.gen then Effect(n.(timer := n.timer.(pending := pending)), [])
    else
      var n1 := n.(timer := Timer(false, n.timer.gen, pending));
      if !n1.running || n1.role == Leader then Effect(n1, []) else BecomeCandidate(n1)
  }

  function OnHeartbeat(n: Node): Effect {
    if !n.running || n.role != Leader then Effect(n, []) else ReplicateAll(n, n.peers).effect
  }

  /** The leader's state with a new entry, before it replicates. */
  function Appended(n: Node, cmd: Command): Node {
    var index := n.log.LastIndex() + 1;
    Persist(n.(log := n.log.Append(LogEntry(n.term, index, cmd)))).(
      matchIndex := n.matchIndex[n.id := index], nextIndex := n.nextIndex[n.id := index + 1])
  }

  /** Client command; a non-leader refuses it. */
  function Submit(n: Node, cmd: Command): Effect {
    if !n.running || n.role != Leader then Effect(n, [])
    else
      var r := ReplicateAll(Appended(n, cmd), n.peers);
      Effect(if r.threw then r.effect.node else MaybeAdvanceCommit(r.effect.node), r.effect.sent)
  }

  function ReadIndex(n: Node, round: nat): Effect {
    if !n.running || n.role != Leader then Effect(n, [])
    else Effect(n, Broadcast(n.id, n.peers, ReadIndexRequest(n.term, n.id, round)))
  }
}
