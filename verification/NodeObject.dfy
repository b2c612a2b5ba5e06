/**
  The node as the object it is in src/raft/node.cpp: handlers that update its state in place, loops
  over entries, peers and indices, and a meta and a log store rewritten by `Persist`.  Every method
  is proved against the function of `RaftNode` of the same name, and `Perform` does any step of the
  cluster, so what holds of those functions in every run of a cluster holds of this object.  `AtRest`
  is the crash-transparency invariant: whenever no handler is running, the bytes on disk are the
  encoding of the term, the vote and the log in memory.
*/
module NodeObject {
  import opened RaftTypes
  import opened Wire
  import opened RaftCluster
  import opened StepEffects
  import opened RaftTheorems
  import N = RaftNode
  import L = CompactedLog
  import K = KvStore
  import Codec
  import Wal

  /** Everything written is flushed, and is the encoding of what was persisted last. */
  ghost predicate StoredAs(metaStore: Wal.Disk, logStore: Wal.Disk, d: N.Disk) {
    && metaStore.flushed == |metaStore.data| && logStore.flushed == |logStore.data|
    && if metaStore.data == [] then logStore.data == [] && d == N.Disk(0, None, L.EMPTY)
       else metaStore.data == EncodeMeta(Meta(d.term, d.votedFor)) && logStore.data == EncodeLog(d.log)
  }

  /** A crash loses nothing of the stores, and they are empty or decode to the term, vote and log of `n`. */
  predicate ReadsBackAs(metaStore: Wal.Disk, logStore: Wal.Disk, n: N.Node) {
    && metaStore.flushed <= |metaStore.data| && logStore.flushed <= |logStore.data|
    && metaStore.Crash() == metaStore && logStore.Crash() == logStore
    && if metaStore.data == [] then
         logStore.data == [] && n.term == 0 && n.votedFor == None && n.log == L.EMPTY
       else
         && DecodeMeta(metaStore.Durable()) == Codec.Got(Meta(n.term, n.votedFor), metaStore.flushed)
         && DecodeLog(logStore.Durable()) == Codec.Got(n.log, logStore.flushed)
  }

  /** What a restart of node `i` reads from disk fits the encoding. */
  ghost predicate RestartsFit(run: seq<Cluster>, steps: seq<Step>, i: NodeId) {
    forall k | 0 <= k < |steps| && k < |run| && steps[k] == Restart(i) && i in run[k].nodes ::
      MetaFits(Meta(run[k].nodes[i].term, run[k].nodes[i].votedFor)) && LogFits(run[k].nodes[i].log)
  }

  /** Memory holds nothing that is not on disk. */
  predicate InStep(n: N.Node) { n.disk == N.Disk(n.term, n.votedFor, n.log) }

  class RaftNode {
    var node: N.Node         // the fields the handlers read and write
    var metaStore: Wal.Disk  // term and vote
    var logStore: Wal.Disk   // the log
    var outbox: seq<Packet>  // what has been handed to the network

    ghost predicate Stored()
      reads this
    {
      StoredAs(metaStore, logStore, node.disk)
    }

    /** Between handlers: the stores hold the encoded term, vote and log of the node itself. */
    ghost predicate AtRest()
      reads this
    {
      StoredAs(metaStore, logStore, N.Disk(node.term, node.votedFor, node.log)) && InStep(node)
    }

    constructor (id: NodeId, peers: seq<NodeId>)
      ensures AtRest() && node == N.Created(id, peers) && outbox == []
    {
      node, outbox := N.Created(id, peers), [];
      metaStore, logStore := Wal.Disk([], 0), Wal.Disk([], 0);
    }

    // -------------------------------------------------------------- persistence, crash, restart

    method Persist()
      requires Stored()
      modifies this`node, this`metaStore, this`logStore
      ensures Stored() && node == N.Persist(old(node))
    {
      hide EncodeMeta, EncodeLog;
      MetaNotEmpty(Meta(node.term, node.votedFor));
      metaStore := metaStore.TruncateTo(0).Append(EncodeMeta(Meta(node.term, node.votedFor))).Flush();
      logStore := logStore.TruncateTo(0).Append(EncodeLog(node.log)).Flush();
      node := node.(disk := N.Disk(node.term, node.votedFor, node.log));
    }

    method Crash()
      requires Stored()
      modifies this`node, this`metaStore, this`logStore
      ensures Stored() && node == N.Crash(old(node))
    {
      hide EncodeMeta, EncodeLog;
      node := node.(running := false, timer := node.timer.(on := false));
      metaStore, logStore := metaStore.Crash(), logStore.Crash();
      node := node.(role := Follower, commitIndex := 0, lastApplied := 0, leaderId := None);
      node := node.(votes := {}, nextIndex := map[], matchIndex := map[], electionTerm := 0, kv := map[]);
    }

    /** Forget what is in memory and read the two stores back. */
    method Restart() returns (ok: bool)
      requires Stored() && !node.running
      modifies this`node
      ensures var d := old(node.disk);
              MetaFits(Meta(d.term, d.votedFor)) && LogFits(d.log) ==> ok && Stored() && node == N.Restart(old(node))
    {
      hide EncodeMeta, EncodeLog, DecodeMeta, DecodeLog, MetaFits, LogFits;
      ghost var d := node.disk;
      if MetaFits(Meta(d.term, d.votedFor)) && LogFits(d.log) { ReadBack(metaStore, logStore, d); }
      node := node.(term := 0, votedFor := None, log := L.EMPTY, kv := map[], running := true);
      if metaStore.flushed > 0 {
        match DecodeMeta(metaStore.data[..metaStore.flushed]) {
          case Malformed => return false;
          case Got(m, _) => node := node.(term := m.term, votedFor := m.votedFor);
        }
      }
      if logStore.flushed > 0 {
        match DecodeLog(logStore.data[..logStore.flushed]) {
          case Malformed => return false;
          case Got(l, _) => node := node.(log := l);
        }
      }
      node := node.(timer := node.timer.Schedule());
      ok := true;
    }

    // -------------------------------------------------------------- roles

    method Send(to: NodeId, m: Message)
      modifies this`outbox
      ensures outbox == old(outbox) + [Packet(node.id, to, m)]
    {
      outbox := outbox + [Packet(node.id, to, m)];
    }

    method BecomeFollower(t: nat, leader: Option<NodeId>)
      requires Stored()
      modifies this`node, this`metaStore, this`logStore
      ensures Stored() && node == N.BecomeFollower(old(node), t, leader)
    {
      hide StoredAs, N.Timer.Cancel, N.Timer.Schedule;
      if t > node.term {
        node := node.(term := t, votedFor := None);
        Persist();
      }
      if node.role != Follower { node := node.(role := Follower); }
      node := node.(leaderId := leader, votes := {});
      node := node.(timer := node.timer.Cancel());
      node := node.(timer := node.timer.Schedule());
    }

    method BecomeCandidate()
      requires Stored()
      modifies this
      ensures Stored() && node == N.BecomeCandidate(old(node)).node
      ensures outbox == old(outbox) + N.BecomeCandidate(old(node)).sent
    {
      hide StoredAs, N.Timer.Cancel, N.Timer.Schedule;
      if !node.running { return; }
      ghost var before := node;
      node := node.(term := node.term + 1, role := Candidate, votedFor := Some(node.id), votes := {});
      node := node.(electionTerm := node.term, leaderId := None);
      Persist();
      var ask := RequestVote(node.term, node.id, node.log.LastIndex(), node.log.LastTerm());
      BroadcastAll(ask);
      node := node.(timer := node.timer.Cancel());
      node := node.(timer := node.timer.Schedule());
      assert node == N.Candidacy(before) && outbox == old(outbox) + N.Canvass(before);
      if 1 >= N.Quorum(node) { BecomeLeader(); }
    }

    method BroadcastAll(m: Message)
      modifies this`outbox
      ensures outbox == old(outbox) + N.Broadcast(node.id, node.peers, m)
    {
      var k := 0;
      while k < |node.peers|
        invariant 0 <= k <= |node.peers|
        invariant outbox == old(outbox) + N.Broadcast(node.id, node.peers, m)[..k]
      {
        Send(node.peers[k], m);
        k := k + 1;
      }
    }

    method BecomeLeader()
      requires Stored()
      modifies this`node, this`outbox
      ensures Stored() && node == N.BecomeLeader(old(node)).node
      ensures outbox == old(outbox) + N.BecomeLeader(old(node)).sent
    {
      hide N.ReplicateAll, N.PerPeer, StoredAs, N.Timer.Cancel, N.Timer.Schedule;
      if node.role == Leader { return; }
      ghost var before := node;
      var last := node.log.LastIndex();
      node := node.(role := Leader, leaderId := Some(node.id), votes := {});
      node := node.(timer := node.timer.Cancel());
      node := node.(nextIndex := N.PerPeer(node.peers, last + 1, node.id, last + 1));
      node := node.(matchIndex := N.PerPeer(node.peers, 0, node.id, last));
      assert node == N.Elected(before);
      var _ := ReplicateAll();
    }

    // -------------------------------------------------------------- replication

    method ReplicateTo(peer: NodeId) returns (threw: bool)
      requires Stored()
      modifies this`node, this`outbox
      ensures var r := N.ReplicateTo(old(node), peer);
              Stored() && node == r.effect.node && outbox == old(outbox) + r.effect.sent && threw == r.threw
    {
      hide StoredAs, L.Log.Slice, L.Log.TermAt;
      if node.role != Leader { return false; }
      var next := N.IndexOf(node.nextIndex, peer);
      if next == 0 { return false; }
      var prev: nat := next - 1;
      var prevTerm := if prev > 0 then node.log.TermAt(prev) else Some(0);
      if prevTerm.None? { return true; }
      var entries := node.log.Slice(prev, L.Min(prev + N.MAX_ENTRIES_PER_AE, node.log.LastIndex()));
      if entries != [] {
        node := node.(nextIndex := node.nextIndex[peer := entries[|entries| - 1].index + 1]);
      }
      Send(peer, AppendEntries(node.term, node.id, prev, prevTerm.value, entries, node.commitIndex));
      threw := false;
    }

    method ReplicateAll() returns (threw: bool)
      requires Stored()
      modifies this`node, this`outbox
      ensures var r := N.ReplicateAll(old(node), old(node.peers));
              Stored() && node == r.effect.node && outbox == old(outbox) + r.effect.sent && threw == r.threw
    {
      hide StoredAs, N.ReplicateTo;
      var peers, k := node.peers, 0;
      ghost var r := N.ReplicateAll(node, peers);
      assert peers[0..] == peers;
      while k < |peers|
        invariant 0 <= k <= |peers| && Stored()
        invariant var rest := N.ReplicateAll(node, peers[k..]);
                  && rest.effect.node == r.effect.node && rest.threw == r.threw
                  && outbox + rest.effect.sent == old(outbox) + r.effect.sent
      {
        assert peers[k..][1..] == peers[k + 1..];
        threw := ReplicateTo(peers[k]);
        if threw { return; }
        k := k + 1;
      }
      threw := false;
    }

    method MaybeAdvanceCommit()
      requires Stored()
      modifies this`node
      ensures Stored() && node == N.MaybeAdvanceCommit(old(node))
    {
      hide StoredAs;
      var n: nat := node.log.LastIndex();
      while n > node.commitIndex
        invariant node == old(node)
        invariant N.CommitPoint(node, n) == N.CommitPoint(node, node.log.LastIndex())
      {
        if n <= node.log.baseIndex { break; }
        var e := node.log.At(n);
        if e.Some? && e.value.term == node.term {
          var count := |N.Matched(node, n)|;
          if count >= N.Quorum(node) {
            node := node.(commitIndex := n);
            ApplyCommitted();
            return;
          }
        }
        n := n - 1;
      }
    }

    method ApplyCommitted()
      requires Stored()
      modifies this`node
      ensures Stored() && node == N.ApplyCommitted(old(node))
    {
      hide StoredAs;
      while node.lastApplied < node.commitIndex
        invariant N.ApplyCommitted(node) == N.ApplyCommitted(old(node)) && node.disk == old(node.disk)
        decreases node.commitIndex - node.lastApplied
      {
        node := node.(lastApplied := node.lastApplied + 1);
        if node.lastApplied > node.log.baseIndex {
          var e := node.log.At(node.lastApplied);
          if e.None? { return; }
          node := node.(kv := K.Apply(node.kv, e.value.cmd).data);
        }
      }
    }

    // -------------------------------------------------------------- messages

    method HandleRequestVote(from: NodeId, m: Message)
      requires Stored() && m.RequestVote?
      modifies this
      ensures Stored() && node == N.HandleRequestVote(old(node), from, m).node
      ensures outbox == old(outbox) + N.HandleRequestVote(old(node), from, m).sent
    {
      hide StoredAs, N.Timer.Cancel, N.Timer.Schedule;
      if m.term > node.term { BecomeFollower(m.term, None); }
      var grant := false;
      if m.term >= node.term {
        var canVote := node.votedFor.None? || node.votedFor == Some(m.candidate);
        if canVote && N.IsLogUpToDate(node, m.lastIndex, m.lastTerm) {
          grant := true;
          node := node.(votedFor := Some(m.candidate));
          Persist();
          node := node.(timer := node.timer.Cancel());
          node := node.(timer := node.timer.Schedule());
        }
      }
      Send(from, RequestVoteReply(node.term, grant));
    }

    method HandleRequestVoteReply(from: NodeId, m: Message)
      requires Stored() && m.RequestVoteReply?
      modifies this
      ensures Stored() && node == N.HandleRequestVoteReply(old(node), from, m).node
      ensures outbox == old(outbox) + N.HandleRequestVoteReply(old(node), from, m).sent
    {
      hide StoredAs;
      if node.role != Candidate { return; }
      if m.term > node.term { BecomeFollower(m.term, None); return; }
      if m.term < node.term || m.term != node.electionTerm { return; }
      if m.granted {
        node := node.(votes := node.votes + {from});
        if |node.votes| + 1 >= N.Quorum(node) { BecomeLeader(); }
      }
    }

    /** The loop over the received entries. */
    method MergeEntries(entries: seq<LogEntry>)
      requires Stored()
      modifies this`node
      ensures Stored() && node == old(node).(log := N.MergeEntries(old(node.log), entries))
    {
      hide StoredAs;
      var k := 0;
      assert entries[0..] == entries;
      while k < |entries|
        invariant 0 <= k <= |entries|
        invariant node == old(node).(log := node.log)
        invariant N.MergeEntries(node.log, entries[k..]) == N.MergeEntries(old(node.log), entries)
      {
        assert entries[k..][1..] == entries[k + 1..];
        var e := entries[k];
        k := k + 1;
        if e.index <= node.log.LastIndex() {
          if e.index <= node.log.baseIndex { continue; }
          if node.log.entries[e.index - node.log.baseIndex - 1].term == e.term { continue; }
          node := node.(log := node.log.TruncateFrom(e.index));
        }
        node := node.(log := node.log.Append(e));
      }
    }

    method HandleAppendEntries(from: NodeId, m: Message)
      requires Stored() && m.AppendEntries?
      modifies this
      ensures Stored() && node == N.HandleAppendEntries(old(node), from, m).node
      ensures outbox == old(outbox) + N.HandleAppendEntries(old(node), from, m).sent
    {
      hide StoredAs, N.BecomeFollower, N.MergeEntries, N.ApplyCommitted;
      var term := node.term;
      if m.term < node.term {
        Send(from, AppendEntriesReply(term, false, 0, 0));
        return;
      }
      BecomeFollower(m.term, Some(from));
      if !node.log.Contains(m.prevIndex, m.prevTerm) {
        Send(from, N.ConflictReply(node, term, m));
        return;
      }
      MergeEntries(m.entries);
      Persist();
      if m.leaderCommit > node.commitIndex {
        node := node.(commitIndex := L.Min(m.leaderCommit, node.log.LastIndex()));
        ApplyCommitted();
      }
      Send(from, AppendEntriesReply(node.term, true, 0, 0));
    }

    method HandleAppendEntriesReply(from: NodeId, m: Message)
      requires Stored() && m.AppendEntriesReply?
      modifies this
      ensures Stored() && node == N.HandleAppendEntriesReply(old(node), from, m).node
      ensures outbox == old(outbox) + N.HandleAppendEntriesReply(old(node), from, m).sent
    {
      hide StoredAs, N.BecomeFollower, N.ReplicateTo, N.MaybeAdvanceCommit;
      if node.role != Leader { return; }
      if m.term > node.term { BecomeFollower(m.term, None); return; }
      if m.term < node.term { return; }
      var next := N.IndexOf(node.nextIndex, from);
      if m.success {
        var point := L.Max(N.IndexOf(node.matchIndex, from), N.SentUpTo(node, from));
        node := node.(matchIndex := node.matchIndex[from := point]);
        node := node.(nextIndex := node.nextIndex[from := point + 1]);
        MaybeAdvanceCommit();
      } else {
        if m.conflictTerm == 0 {
          next := m.conflictIndex;
        } else {
          var lastInTerm := node.log.LastIndexForTerm(m.conflictTerm);
          next := if lastInTerm > 0 then lastInTerm + 1 else m.conflictIndex;
        }
        if next < 1 { next := 1; }
        node := node.(nextIndex := node.nextIndex[from := next]);
        var _ := ReplicateTo(from);
      }
    }

    method HandleReadIndexRequest(from: NodeId, m: Message)
      requires Stored() && m.ReadIndexRequest?
      modifies this
      ensures Stored() && node == N.HandleReadIndexRequest(old(node), from, m).node
      ensures outbox == old(outbox) + N.HandleReadIndexRequest(old(node), from, m).sent
    {
      hide StoredAs, N.BecomeFollower;
      if m.term < node.term { return; }
      BecomeFollower(m.term, Some(from));
      Send(from, ReadIndexReply(node.term, m.round));
    }

    method HandleReadIndexReply(m: Message)
      requires Stored() && m.ReadIndexReply?
      modifies this
      ensures Stored() && node == N.HandleReadIndexReply(old(node), m).node && outbox == old(outbox)
    {
      hide StoredAs, N.BecomeFollower;
      if m.term > node.term { BecomeFollower(m.term, None); }
    }

    method OnMessage(from: NodeId, m: Message)
      requires Stored()
      modifies this
      ensures Stored() && node == N.OnMessage(old(node), from, m).node
      ensures outbox == old(outbox) + N.OnMessage(old(node), from, m).sent
    {
      hide StoredAs, N.HandleRequestVote, N.HandleRequestVoteReply, N.HandleAppendEntries, N.HandleAppendEntriesReply,
           N.HandleReadIndexRequest, N.BecomeFollower;
      if !node.running { return; }
      match m {
        case RequestVote(_, _, _, _) => HandleRequestVote(from, m);
        case RequestVoteReply(_, _) => HandleRequestVoteReply(from, m);
        case AppendEntries(_, _, _, _, _, _) => HandleAppendEntries(from, m);
        case AppendEntriesReply(_, _, _, _) => HandleAppendEntriesReply(from, m);
        case ReadIndexRequest(_, _, _) => HandleReadIndexRequest(from, m);
        case ReadIndexReply(_, _) => HandleReadIndexReply(m);
        case _ =>
      }
    }

    // -------------------------------------------------------------- local events

    method OnHeartbeat()
      requires Stored()
      modifies this`node, this`outbox
      ensures Stored() && node == N.OnHeartbeat(old(node)).node && outbox == old(outbox) + N.OnHeartbeat(old(node)).sent
    {
      hide StoredAs, N.ReplicateAll;
      if !node.running || node.role != Leader { return; }
      var _ := ReplicateAll();
    }

    method ReadIndex(round: nat) returns (accepted: bool)
      requires Stored()
      modifies this`outbox
      ensures Stored() && outbox == old(outbox) + N.ReadIndex(node, round).sent
      ensures accepted <==> node.running && node.role == Leader
    {
      hide StoredAs, N.Broadcast;
      if !node.running || node.role != Leader { return false; }
      BroadcastAll(ReadIndexRequest(node.term, node.id, round));
      accepted := true;
    }

    method OnElectionTimer(gen: nat)
      requires Stored()
      modifies this
      ensures Stored() && node == N.OnElectionTimer(old(node), gen).node
      ensures outbox == old(outbox) + N.OnElectionTimer(old(node), gen).sent
    {
      hide StoredAs, N.BecomeCandidate;
      node := node.(timer := node.timer.(pending := node.timer.pending - {gen}));
      if gen != node.timer.gen { return; }
      node := node.(timer := node.timer.(on := false));
      if !node.running { return; }
      if node.role == Leader { return; }
      BecomeCandidate();
    }

    method Submit(cmd: Command) returns (accepted: bool)
      requires Stored()
      modifies this
      ensures Stored() && node == N.Submit(old(node), cmd).node && outbox == old(outbox) + N.Submit(old(node), cmd).sent
      ensures accepted <==> old(node.running) && old(node.role) == Leader
    {
      hide StoredAs, N.ReplicateAll, N.MaybeAdvanceCommit;
      if !node.running || node.role != Leader { return false; }
      ghost var before := node;
      var index := node.log.LastIndex() + 1;
      node := node.(log := node.log.Append(LogEntry(node.term, index, cmd)));
      Persist();
      node := node.(matchIndex := node.matchIndex[node.id := index]);
      node := node.(nextIndex := node.nextIndex[node.id := index + 1]);
      assert node == N.Appended(before, cmd);
      var threw := ReplicateAll();
      if !threw { MaybeAdvanceCommit(); }
      accepted := true;
    }

    /** Any step of the cluster, done by the object. */
    method Perform(step: Step)
      requires AtRest() && (step.Crash? ==> node.running)
      requires step.Restart? ==> !node.running && MetaFits(Meta(node.term, node.votedFor)) && LogFits(node.log)
      modifies this
      ensures AtRest() && node == Effect(old(node), step).node && outbox == old(outbox) + Effect(old(node), step).sent
    {
      hide StoredAs, N.OnMessage, N.OnElectionTimer, N.OnHeartbeat, N.Submit, N.ReadIndex, N.Crash, N.Restart, MetaFits, LogFits;
      KeepsInStep(node, step);
      match step {
        case Deliver(p) => OnMessage(p.from, p.msg);
        case Timer(_, gen) => OnElectionTimer(gen);
        case Heartbeat(_) => OnHeartbeat();
        case Client(_, cmd) => var _ := Submit(cmd);
        case Read(_, round) =>
          ReadKeepsNode(node, round);
          var _ := ReadIndex(round);
        case Crash(_) => Crash();
        case Restart(_) => var _ := Restart();
      }
    }

    /** The object lives through a whole run of the cluster: after every step it is the node of that run and at
        rest, what it has sent is on the network, and its durable bytes decode to the node's term, vote and log. */
    method Live(members: set<NodeId>, run: seq<Cluster>, steps: seq<Step>, i: NodeId)
      requires IsRunBy(members, run, steps) && i in members && RestartsFit(run, steps, i)
      requires AtRest() && node == run[0].nodes[i] && outbox == []
      modifies this
      ensures AtRest() && |run| == |steps| + 1 && i in run[|steps|].nodes && node == run[|steps|].nodes[i]
      ensures forall p | p in outbox :: p in run[|steps|].net
      ensures MetaFits(Meta(node.term, node.votedFor)) && LogFits(node.log) ==> ReadsBackAs(metaStore, logStore, node)
    {
      hide IsRunBy, StoredAs, Effect, MetaFits, LogFits, ReadsBackAs;
      NodesStay(members, run, steps, i, 0);
      for k := 0 to |steps|
        invariant AtRest() && |run| == |steps| + 1 && i in run[k].nodes && node == run[k].nodes[i]
        invariant forall p | p in outbox :: p in run[k].net
      {
        NodesStay(members, run, steps, i, k + 1);
        StepIs(members, run, steps, k);
        if steps[k].Actor() == i { Perform(steps[k]); }
      }
      ByIsRun(members, run, steps);
      if MetaFits(Meta(node.term, node.votedFor)) && LogFits(node.log) {
        DurableBytes(members, run, |steps|, i, metaStore, logStore);
      }
    }
  }

  lemma ReadKeepsNode(n: N.Node, round: nat)
    ensures N.ReadIndex(n, round).node == n
  {
  }

  // ---------------------------------------------------------------- every step persists what it changes

  lemma MessageKeepsInStep(n: N.Node, from: NodeId, m: Message)
    requires InStep(n)
    ensures InStep(N.OnMessage(n, from, m).node)
  {
    hide N.BecomeLeader, N.ReplicateTo, N.MergeEntries, N.ApplyCommitted, N.MaybeAdvanceCommit;
    if m.RequestVoteReply? && n.role == Candidate {
      OfficeOnly(n.(votes := n.votes + {from}));
    } else if m.AppendEntries? && m.term >= n.term {
      var n1 := N.BecomeFollower(n, m.term, Some(from));
      var n2 := N.Persist(n1.(log := N.MergeEntries(n1.log, m.entries)));
      ApplyCommittedOnly(n2.(commitIndex := L.Min(m.leaderCommit, n2.log.LastIndex())));
    } else if m.AppendEntriesReply? && n.role == Leader && m.term == n.term {
      MaybeAdvanceOnly(Acked(n, from));
      var lastInTerm := n.log.LastIndexForTerm(m.conflictTerm);
      var next := if m.conflictTerm == 0 || lastInTerm == 0 then m.conflictIndex else lastInTerm + 1;
      ReplicateToOnly(n.(nextIndex := n.nextIndex[from := L.Max(next, 1)]), from);
    }
  }

  lemma KeepsInStep(n: N.Node, step: Step)
    requires InStep(n)
    ensures InStep(Effect(n, step).node)
  {
    hide N.OnMessage, N.BecomeLeader, N.Canvass, N.ReplicateAll, N.MaybeAdvanceCommit;
    match step
    case Deliver(p) => MessageKeepsInStep(n, p.from, p.msg);
    case Timer(_, gen) => OfficeOnly(N.Candidacy(n.(timer := N.Timer(false, n.timer.gen, n.timer.pending - {gen}))));
    case Heartbeat(_) => ReplicateAllOnly(n, n.peers);
    case Client(_, cmd) =>
      ReplicateAllOnly(N.Appended(n, cmd), n.peers);
      MaybeAdvanceOnly(Submitted(n, cmd).effect.node);
    case Read(_, _) =>
    case Crash(_) =>
    case Restart(_) =>
  }

  lemma MetaNotEmpty(m: Meta)
    ensures EncodeMeta(m) != []
  {
  }

  /** Crash transparency: what was persisted is what is read back. */
  lemma ReadBack(metaStore: Wal.Disk, logStore: Wal.Disk, d: N.Disk)
    requires metaStore.flushed == |metaStore.data| && logStore.flushed == |logStore.data|
    requires MetaFits(Meta(d.term, d.votedFor)) && LogFits(d.log)
    requires metaStore.data != [] ==>
               metaStore.data == EncodeMeta(Meta(d.term, d.votedFor)) && logStore.data == EncodeLog(d.log)
    ensures metaStore.data != [] ==>
              && DecodeMeta(metaStore.Durable()) == Codec.Got(Meta(d.term, d.votedFor), metaStore.flushed)
              && logStore.flushed > 0 && DecodeLog(logStore.Durable()) == Codec.Got(d.log, logStore.flushed)
  {
    hide DecodeMeta, DecodeLog;
    if metaStore.data != [] {
      assert metaStore.Durable() == metaStore.data && logStore.Durable() == logStore.data;
      MetaRoundTrip(Meta(d.term, d.votedFor));
      LogRoundTrip(d.log);
    }
  }

  /** Stores that hold a node's disk record, in any state of any run, decode to the term, the vote and the log
      the node has in memory.  That they do hold it, run by run, is `RaftNode.Live`. */
  lemma DurableBytes(members: set<NodeId>, run: seq<Cluster>, a: nat, i: NodeId, metaStore: Wal.Disk, logStore: Wal.Disk)
    requires IsRun(members, run) && a < |run| && i in run[a].nodes && StoredAs(metaStore, logStore, run[a].nodes[i].disk)
    requires var n := run[a].nodes[i]; MetaFits(Meta(n.term, n.votedFor)) && LogFits(n.log)
    ensures ReadsBackAs(metaStore, logStore, run[a].nodes[i])
  {
    hide IsRun, EncodeMeta, EncodeLog, DecodeMeta, DecodeLog, MetaFits, LogFits, N.Crash, N.Restart;
    CrashTransparency(members, run, a, i);
    ReadBack(metaStore, logStore, run[a].nodes[i].disk);
  }
}
