/**
  What each handler of a node (src/raft/node.cpp) does, in terms of messages, plain logs and counts: when a
  vote is given, when a candidate has won, what every peer is sent, and how a follower answers.
*/
module HandlerRules {
  import opened RaftTypes
  import opened RaftCluster
  import opened RaftTheorems
  import opened StepEffects
  import CommitRule
  import FollowerMerge
  import N = RaftNode
  import L = CompactedLog
  import K = KvStore

  /** The term of the last entry, or of the compacted part. */
  function TermAtEnd(n: N.Node): nat {
    if n.log.entries == [] then n.log.baseTerm else n.log.entries[|n.log.entries| - 1].term
  }

  function EndOf(n: N.Node): nat { n.log.baseIndex + |n.log.entries| }

  predicate OnDisk(n: N.Node) { n.disk == N.Disk(n.term, n.votedFor, n.log) }

  /** `n'` has the log, the map and the indices of `n`. */
  predicate SameData(n: N.Node, n': N.Node) {
    && n'.id == n.id && n'.peers == n.peers && n'.running == n.running && n'.log == n.log
    && n'.commitIndex == n.commitIndex && n'.lastApplied == n.lastApplied && n'.kv == n.kv
  }

  // ---------------------------------------------------------------- votes

  /** A vote is given if and only if the request is not behind, the node has no other vote in that term, and
      the candidate's log is at least as recent; it is on disk before the answer leaves. */
  lemma VoteRule(n: N.Node, from: NodeId, m: Message)
    requires n.running && m.RequestVote?
    ensures var e := N.OnMessage(n, from, m);
            var term, vote := L.Max(m.term, n.term), if m.term > n.term then None else n.votedFor;
            var recent := m.lastTerm > TermAtEnd(n) || (m.lastTerm == TermAtEnd(n) && m.lastIndex >= EndOf(n));
            var grant := m.term >= n.term && (vote == None || vote == Some(m.candidate)) && recent;
            && e.sent == [Packet(n.id, from, RequestVoteReply(term, grant))]
            && e.node.term == term && e.node.votedFor == (if grant then Some(m.candidate) else vote)
            && SameData(n, e.node)
            && (grant || m.term > n.term ==> OnDisk(e.node))
            && if m.term > n.term then e.node.role == Follower && e.node.leaderId == None && e.node.votes == {}
               else if grant then e.node == n.(votedFor := Some(m.candidate), disk := e.node.disk, timer := e.node.timer)
               else e.node == n
  {
    hide N.Timer.Rearm;
  }

  /** A node stands on its live callback only, with the next term and its own vote on disk, and asks every
      peer once; alone it has won. */
  lemma StandRule(n: N.Node, gen: nat)
    ensures var e := N.OnElectionTimer(n, gen);
            if n.running && n.role != Leader && gen == n.timer.gen then
              && e.node.term == n.term + 1 && e.node.votedFor == Some(n.id) && SameData(n, e.node) && OnDisk(e.node)
              && (n.peers == [] ==> e.node.role == Leader && e.sent == [])
              && (n.peers != [] ==> e.node.role == Candidate && e.node.electionTerm == n.term + 1
                                    && e.node.votes == {} && e.node.leaderId == None && |e.sent| == |n.peers|
                                    && forall k | 0 <= k < |n.peers| ::
                                         e.sent[k] == Packet(n.id, n.peers[k], RequestVote(n.term + 1, n.id, EndOf(n), TermAtEnd(n))))
            else e.sent == [] && e.node == n.(timer := e.node.timer)
  {
    if n.peers == [] {
      assert N.Broadcast(n.id, n.peers, RequestVote(n.term + 1, n.id, n.log.LastIndex(), n.log.LastTerm())) == [];
    }
  }

  /** A candidate has won if and only if it and the voters it has heard from, each counted once, are more than
      half of the cluster; only answers of its own election count. */
  lemma ElectionRule(n: N.Node, from: NodeId, t: nat, granted: bool)
    requires n.running && n.role == Candidate
    ensures var e, voters := N.OnMessage(n, from, RequestVoteReply(t, granted)), n.votes + {from};
            if t > n.term then
              && e.sent == [] && SameData(n, e.node) && OnDisk(e.node)
              && e.node.role == Follower && e.node.term == t && e.node.votedFor == None
            else if t == n.term == n.electionTerm && granted then
              && e.node.term == n.term && e.node.votedFor == n.votedFor && SameData(n, e.node)
              && if 2 * (|voters| + 1) > |n.peers| + 1 then e.node.role == Leader && e.node.leaderId == Some(n.id)
                 else e == N.Effect(n.(votes := voters), [])
            else e == N.Effect(n, [])
  {
    hide N.ReplicateAll;
    ReplicateAllOnly(N.Elected(n.(votes := n.votes + {from})), n.peers);
  }

  // ---------------------------------------------------------------- what every peer is sent

  /** Nothing is compacted, and positions are indices. */
  predicate Plain(n: N.Node) {
    n.log.baseIndex == 0 && n.log.baseTerm == 0 && forall k | 0 <= k < |n.log.entries| :: n.log.entries[k].index == k + 1
  }

  predicate Distinct(peers: seq<NodeId>) { forall j, k | 0 <= j < k < |peers| :: peers[j] != peers[k] }

  /** The peer's next index is at most one past the log. */
  predicate InRange(n: N.Node, peer: NodeId) { 1 <= N.IndexOf(n.nextIndex, peer) <= |n.log.entries| + 1 }

  /** The next entries for the peer, at most 64. */
  function Batch(n: N.Node, peer: NodeId): seq<LogEntry>
    requires InRange(n, peer)
  {
    var sent := N.IndexOf(n.nextIndex, peer) - 1;
    n.log.entries[sent..if |n.log.entries| - sent < 64 then |n.log.entries| else sent + 64]
  }

  /** They follow the entry before the peer's next index, and carry that entry's term. */
  function Request(n: N.Node, peer: NodeId): Message
    requires InRange(n, peer)
  {
    var prev := N.IndexOf(n.nextIndex, peer) - 1;
    AppendEntries(n.term, n.id, prev, if prev == 0 then 0 else n.log.entries[prev - 1].term, Batch(n, peer), n.commitIndex)
  }

  /** The first `k` peers, and no others, are each sent their next entries, and their next index moves behind
      what was sent. */
  ghost predicate Serves(n: N.Node, peers: seq<NodeId>, k: nat, e: N.Effect)
    requires k <= |peers| && forall j | 0 <= j < k :: InRange(n, peers[j])
  {
    && |e.sent| == k && (forall j | 0 <= j < k :: e.sent[j] == Packet(n.id, peers[j], Request(n, peers[j])))
    && e.node == n.(nextIndex := e.node.nextIndex)
    && (forall j | 0 <= j < k ::
          N.IndexOf(e.node.nextIndex, peers[j]) == N.IndexOf(n.nextIndex, peers[j]) + |Batch(n, peers[j])|)
    && forall p | p !in peers[..k] :: N.IndexOf(e.node.nextIndex, p) == N.IndexOf(n.nextIndex, p)
  }

  lemma SliceIsBatch(n: N.Node, peer: NodeId)
    requires Plain(n) && InRange(n, peer)
    ensures var prev := N.IndexOf(n.nextIndex, peer) - 1;
            n.log.Slice(prev, L.Min(prev + N.MAX_ENTRIES_PER_AE, n.log.LastIndex())) == Batch(n, peer)
  {
  }

  lemma BatchEnd(n: N.Node, peer: NodeId)
    requires Plain(n) && InRange(n, peer)
    ensures Batch(n, peer) != [] ==>
              Batch(n, peer)[|Batch(n, peer)| - 1].index == N.IndexOf(n.nextIndex, peer) + |Batch(n, peer)| - 1
  {
  }

  lemma ServesOne(n: N.Node, peer: NodeId)
    requires n.role == Leader && Plain(n) && N.IndexOf(n.nextIndex, peer) > 0
    ensures var r := N.ReplicateTo(n, peer);
            if InRange(n, peer) then
              && !r.threw && r.effect.sent == [Packet(n.id, peer, Request(n, peer))]
              && r.effect.node == n.(nextIndex := r.effect.node.nextIndex)
              && N.IndexOf(r.effect.node.nextIndex, peer) == N.IndexOf(n.nextIndex, peer) + |Batch(n, peer)|
              && forall p | p != peer :: N.IndexOf(r.effect.node.nextIndex, p) == N.IndexOf(n.nextIndex, p)
            else r == N.Replicated(N.Effect(n, []), true)
  {
    hide L.Log.Slice, Batch, Plain;
    if N.IndexOf(n.nextIndex, peer) > 1 { PrevTerm(n, peer); }
    if InRange(n, peer) {
      SliceIsBatch(n, peer);
      BatchEnd(n, peer);
    }
  }

  /** The term before the peer's next index is there exactly for a peer in range. */
  lemma PrevTerm(n: N.Node, peer: NodeId)
    requires Plain(n) && N.IndexOf(n.nextIndex, peer) > 1
    ensures n.log.TermAt(N.IndexOf(n.nextIndex, peer) - 1) ==
            if InRange(n, peer) then Some(n.log.entries[N.IndexOf(n.nextIndex, peer) - 2].term) else None
  {
  }

  /** A first peer served, and then the rest from there. */
  ghost predicate ServedRest(n: N.Node, peers: seq<NodeId>, m: N.Node, k: nat, e: N.Effect) {
    && k < |peers| && Distinct(peers) && InRange(n, peers[0]) && m == n.(nextIndex := m.nextIndex)
    && N.IndexOf(m.nextIndex, peers[0]) == N.IndexOf(n.nextIndex, peers[0]) + |Batch(n, peers[0])|
    && (forall p | p != peers[0] :: N.IndexOf(m.nextIndex, p) == N.IndexOf(n.nextIndex, p))
    && (forall j | 0 <= j < k :: InRange(m, peers[1..][j])) && Serves(m, peers[1..], k, e)
  }

  lemma ServedLater(n: N.Node, peers: seq<NodeId>, m: N.Node, k: nat, e: N.Effect, j: nat)
    requires ServedRest(n, peers, m, k, e) && 0 < j <= k
    ensures InRange(n, peers[j]) && e.sent[j - 1] == Packet(n.id, peers[j], Request(n, peers[j]))
    ensures N.IndexOf(e.node.nextIndex, peers[j]) == N.IndexOf(n.nextIndex, peers[j]) + |Batch(n, peers[j])|
  {
    hide N.IndexOf, Batch, Request;
    assert peers[j] == peers[1..][j - 1] && peers[0] != peers[j];
    SameRest(n, m, peers[j]);
  }

  lemma NotServed(n: N.Node, peers: seq<NodeId>, m: N.Node, k: nat, e: N.Effect, p: NodeId)
    requires ServedRest(n, peers, m, k, e) && p !in peers[1..][..k]
    ensures N.IndexOf(e.node.nextIndex, p) == N.IndexOf(m.nextIndex, p)
  {
    hide N.IndexOf, Batch, Request;
  }

  lemma FirstNotLater(peers: seq<NodeId>, k: nat)
    requires k < |peers| && Distinct(peers)
    ensures peers[0] !in peers[1..][..k] && peers[..k + 1] == [peers[0]] + peers[1..][..k]
  {
  }

  lemma ServesFirst(n: N.Node, peers: seq<NodeId>, m: N.Node, k: nat, e: N.Effect)
    requires ServedRest(n, peers, m, k, e)
    ensures forall j | 0 <= j < k + 1 :: InRange(n, peers[j])
    ensures Serves(n, peers, k + 1, N.Effect(e.node, [Packet(n.id, peers[0], Request(n, peers[0]))] + e.sent))
  {
    hide N.IndexOf, Batch, Request, Distinct;
    var sent := [Packet(n.id, peers[0], Request(n, peers[0]))] + e.sent;
    assert |sent| == k + 1 && e.node == n.(nextIndex := e.node.nextIndex) && Distinct(peers);
    FirstNotLater(peers, k);
    NotServed(n, peers, m, k, e, peers[0]);
    forall j | 0 <= j < k + 1
      ensures InRange(n, peers[j]) && sent[j] == Packet(n.id, peers[j], Request(n, peers[j]))
              && N.IndexOf(e.node.nextIndex, peers[j]) == N.IndexOf(n.nextIndex, peers[j]) + |Batch(n, peers[j])|
    {
      if j > 0 { ServedLater(n, peers, m, k, e, j); }
    }
    forall p | p !in peers[..k + 1] ensures N.IndexOf(e.node.nextIndex, p) == N.IndexOf(n.nextIndex, p) {
      assert p !in peers[1..][..k] && p != peers[0];
      NotServed(n, peers, m, k, e, p);
    }
  }

  predicate SameRequest(n: N.Node, m: N.Node, p: NodeId) {
    InRange(n, p) && InRange(m, p) && Batch(n, p) == Batch(m, p) && Request(n, p) == Request(m, p)
  }

  lemma SameRest(n: N.Node, m: N.Node, p: NodeId)
    requires InRange(m, p) && m == n.(nextIndex := m.nextIndex) && N.IndexOf(m.nextIndex, p) == N.IndexOf(n.nextIndex, p)
    ensures SameRequest(n, m, p)
  {
  }

  /** One peer after the other is served, up to the first whose next index has run past the log. */
  lemma {:induction false} ServesAll(n: N.Node, peers: seq<NodeId>) returns (k: nat)
    requires n.role == Leader && Plain(n) && Distinct(peers) && forall p | p in peers :: N.IndexOf(n.nextIndex, p) > 0
    ensures k <= |peers| && (forall j | 0 <= j < k :: InRange(n, peers[j])) && (k < |peers| ==> !InRange(n, peers[k]))
    ensures Serves(n, peers, k, N.ReplicateAll(n, peers).effect) && N.ReplicateAll(n, peers).threw == (k < |peers|)
    decreases |peers|
  {
    hide N.ReplicateTo, Request, Batch;
    if peers == [] {
      k := 0;
    } else {
      ServesOne(n, peers[0]);
      k := 0;
      if InRange(n, peers[0]) {
        hide Serves;
        var m, rest := N.ReplicateTo(n, peers[0]).effect.node, peers[1..];
        forall p | p in rest ensures N.IndexOf(m.nextIndex, p) > 0 { assert p in peers && p != peers[0]; }
        k := ServesAll(m, rest);
        ServesFirst(n, peers, m, k, N.ReplicateAll(m, rest).effect);
        if k < |rest| { assert peers[k + 1] == rest[k] && peers[0] != peers[k + 1]; }
        k := k + 1;
      }
    }
  }

  /** A heartbeat of a leader serves every peer that is in range, up to the first that is not. */
  lemma HeartbeatRule(n: N.Node) returns (k: nat)
    requires n.running && n.role == Leader && Plain(n) && Distinct(n.peers)
    requires forall p | p in n.peers :: N.IndexOf(n.nextIndex, p) > 0
    ensures k <= |n.peers| && (forall j | 0 <= j < k :: InRange(n, n.peers[j])) && (k < |n.peers| ==> !InRange(n, n.peers[k]))
    ensures Serves(n, n.peers, k, N.OnHeartbeat(n))
    ensures forall m: N.Node | !m.running || m.role != Leader :: N.OnHeartbeat(m) == N.Effect(m, [])
  {
    hide N.ReplicateAll, Serves;
    k := ServesAll(n, n.peers);
  }

  lemma Wins(n: N.Node, from: NodeId)
    requires n.running && n.role == Candidate && n.electionTerm == n.term && 2 * (|n.votes + {from}| + 1) > |n.peers| + 1
    ensures N.OnMessage(n, from, RequestVoteReply(n.term, true)) ==
            N.ReplicateAll(N.Elected(n.(votes := n.votes + {from})), n.peers).effect
  {
  }

  lemma InOffice(n: N.Node, p: NodeId)
    requires p in n.peers && Plain(n) && n.id !in n.peers
    ensures var l := N.Elected(n);
            && InRange(l, p) && Batch(l, p) == [] && N.IndexOf(l.nextIndex, p) == EndOf(n) + 1
            && Request(l, p) == AppendEntries(n.term, n.id, EndOf(n), TermAtEnd(n), [], n.commitIndex)
            && N.IndexOf(l.matchIndex, p) == 0 && N.IndexOf(l.matchIndex, n.id) == EndOf(n)
            && l.id == n.id && l.role == Leader && l.peers == n.peers && Plain(l)
  {
  }

  lemma Announces(n: N.Node)
    requires Plain(n) && Distinct(n.peers) && n.id !in n.peers
    ensures var e := N.ReplicateAll(N.Elected(n), n.peers).effect;
            && |e.sent| == |n.peers|
            && (forall k | 0 <= k < |n.peers| ::
                  e.sent[k] == Packet(n.id, n.peers[k], AppendEntries(n.term, n.id, EndOf(n), TermAtEnd(n), [], n.commitIndex)))
            && (forall p | p in n.peers :: N.IndexOf(e.node.nextIndex, p) == EndOf(n) + 1)
            && e.node.matchIndex == N.Elected(n).matchIndex
  {
    hide N.ReplicateAll, N.Elected, Request, Batch, N.IndexOf, EndOf, TermAtEnd;
    var l := N.Elected(n);
    forall p | p in n.peers ensures InRange(l, p) { InOffice(n, p); }
    ElectedPlain(n);
    var k := ServesAll(l, n.peers);
    forall j | 0 <= j < |n.peers|
      ensures InRange(l, n.peers[j]) && Batch(l, n.peers[j]) == [] && N.IndexOf(l.nextIndex, n.peers[j]) == EndOf(n) + 1
              && Request(l, n.peers[j]) == AppendEntries(n.term, n.id, EndOf(n), TermAtEnd(n), [], n.commitIndex)
    {
      InOffice(n, n.peers[j]);
    }
  }

  lemma ElectedPlain(n: N.Node)
    requires Plain(n)
    ensures Plain(N.Elected(n)) && N.Elected(n).role == Leader && N.Elected(n).id == n.id
  {
  }

  /** The winner of an election tells every peer so, with its last entry as predecessor and no entries, and
      starts from there with nothing acknowledged. */
  lemma OfficeRule(n: N.Node, from: NodeId)
    requires n.running && n.role == Candidate && n.electionTerm == n.term && 2 * (|n.votes + {from}| + 1) > |n.peers| + 1
    requires Plain(n) && Distinct(n.peers) && n.id !in n.peers
    ensures var e := N.OnMessage(n, from, RequestVoteReply(n.term, true));
            && |e.sent| == |n.peers|
            && (forall k | 0 <= k < |n.peers| ::
                  e.sent[k] == Packet(n.id, n.peers[k], AppendEntries(n.term, n.id, EndOf(n), TermAtEnd(n), [], n.commitIndex)))
            && (forall p | p in n.peers :: N.IndexOf(e.node.nextIndex, p) == EndOf(n) + 1 && N.IndexOf(e.node.matchIndex, p) == 0)
            && N.IndexOf(e.node.matchIndex, n.id) == EndOf(n)
  {
    hide N.ReplicateAll, N.OnMessage;
    Wins(n, from);
    var c := n.(votes := n.votes + {from});
    Announces(c);
    forall p | p in n.peers ensures N.IndexOf(N.Elected(c).matchIndex, p) == 0 { InOffice(c, p); }
  }

  /** The node with the command behind its log. */
  function Longer(n: N.Node, cmd: Command): N.Node {
    n.(log := L.Log(0, 0, n.log.entries + [LogEntry(n.term, |n.log.entries| + 1, cmd)]))
  }

  lemma SameWhenLonger(n: N.Node, cmd: Command, p: NodeId)
    requires Plain(n) && p != n.id
    ensures InRange(N.Appended(n, cmd), p) <==> InRange(Longer(n, cmd), p)
    ensures InRange(Longer(n, cmd), p) ==> SameRequest(N.Appended(n, cmd), Longer(n, cmd), p)
    ensures N.IndexOf(N.Appended(n, cmd).nextIndex, p) == N.IndexOf(n.nextIndex, p)
  {
  }

  /** A leader puts a command behind its log and on disk, and sends its peers what they are still missing, the new
      entry included when it fits, up to the first that is out of range; then it commits what a majority has
      reached, unless a peer was out of range.  Anyone else refuses. */
  lemma SubmitRule(n: N.Node, cmd: Command) returns (k: nat)
    requires n.running && n.role == Leader ==>
               && Plain(n) && Distinct(n.peers) && n.id !in n.peers && forall p | p in n.peers :: N.IndexOf(n.nextIndex, p) > 0
    ensures k <= |n.peers|
    ensures var e, m := N.Submit(n, cmd), Longer(n, cmd);
            if n.running && n.role == Leader then
              && e.node.log == m.log && e.node.disk == N.Disk(n.term, n.votedFor, m.log)
              && e.node.term == n.term && e.node.role == Leader && N.IndexOf(e.node.matchIndex, n.id) == |m.log.entries|
              && |e.sent| == k && (k < |n.peers| ==> !InRange(m, n.peers[k]) && e.node.commitIndex == n.commitIndex)
              && forall j | 0 <= j < k :: InRange(m, n.peers[j])
                   && e.sent[j] == Packet(n.id, n.peers[j], Request(m, n.peers[j]))
                   && N.IndexOf(e.node.nextIndex, n.peers[j]) == N.IndexOf(n.nextIndex, n.peers[j]) + |Batch(m, n.peers[j])|
            else e == N.Effect(n, [])
    ensures n.running && n.role == Leader && n.lastApplied == n.commitIndex <= |n.log.entries|
            && n.kv == K.Replay(n.log.entries[..n.commitIndex]) && k == |n.peers| ==>
              var n' := N.Submit(n, cmd).node;
              && n.commitIndex <= n'.commitIndex <= |n'.log.entries| && (n'.commitIndex > n.commitIndex ==> HasMajority(n', n'.commitIndex))
              && forall j | n'.commitIndex < j <= |n'.log.entries| :: !HasMajority(n', j)
  {
    hide N.ReplicateAll, N.MaybeAdvanceCommit, K.Replay, InRange, Request, Batch, HasMajority;
    k := 0;
    if n.running && n.role == Leader {
      var l := N.Appended(n, cmd);
      forall p | p in n.peers ensures N.IndexOf(l.nextIndex, p) > 0 { SameWhenLonger(n, cmd, p); }
      k := ServesAll(l, n.peers);
      forall j | 0 <= j < |n.peers| && j <= k
        ensures (InRange(l, n.peers[j]) <==> InRange(Longer(n, cmd), n.peers[j])) && (j < k ==> SameRequest(l, Longer(n, cmd), n.peers[j]))
                && N.IndexOf(l.nextIndex, n.peers[j]) == N.IndexOf(n.nextIndex, n.peers[j])
      {
        assert n.peers[j] in n.peers;
        SameWhenLonger(n, cmd, n.peers[j]);
      }
      var r := N.ReplicateAll(l, n.peers).effect.node;
      MaybeAdvanceOnly(r);
      if n.lastApplied == n.commitIndex <= |n.log.entries| && n.kv == K.Replay(n.log.entries[..n.commitIndex]) {
        assert r.log.entries[..n.commitIndex] == n.log.entries[..n.commitIndex];
        Advances(r);
      }
    }
  }

  /** Advancing stops at the highest index that a majority has reached. */
  lemma Advances(n: N.Node)
    requires Plain(n) && n.lastApplied == n.commitIndex <= |n.log.entries| && n.kv == K.Replay(n.log.entries[..n.commitIndex])
    ensures var n' := N.MaybeAdvanceCommit(n);
            && n.commitIndex <= n'.commitIndex == n'.lastApplied <= |n.log.entries|
            && (n'.commitIndex > n.commitIndex ==> HasMajority(n', n'.commitIndex))
            && (forall k | n'.commitIndex < k <= |n.log.entries| :: !HasMajority(n', k))
            && n'.kv == K.Replay(n.log.entries[..n'.commitIndex])
  {
    hide N.MaybeAdvanceCommit, K.Replay, Plain;
    PlainCompacts(n);
    CommitRule.AdvanceCommits(n, n.log.entries);
    MaybeAdvanceOnly(n);
    forall k | 0 < k <= |n.log.entries| ensures N.Commits(n, k) <==> HasMajority(N.MaybeAdvanceCommit(n), k) { MajorityRule(n, k); }
  }

  // ---------------------------------------------------------------- how a follower answers

  /** The log has the predecessor entry that a request names. */
  predicate HasPrev(log: seq<LogEntry>, prev: nat, term: nat) {
    prev == 0 || (prev <= |log| && log[prev - 1].term == term)
  }

  /** The node follows `leader` in term `t`; a later term clears its vote and is on disk. */
  predicate Obeys(n: N.Node, t: nat, leader: Option<NodeId>, n': N.Node) {
    && n'.role == Follower && n'.term == t && n'.leaderId == leader && n'.votes == {}
    && n'.votedFor == (if t > n.term then None else n.votedFor)
    && (t > n.term ==> OnDisk(n')) && (t <= n.term ==> n'.disk == n.disk)
  }

  /** A refusal names the end of a log that is too short, or the term found in place of the predecessor's and
      the last index that has it. */
  ghost predicate IsHint(log: seq<LogEntry>, prev: nat, term: nat, r: Message) {
    && r.AppendEntriesReply? && r.term == term && !r.success && prev > 0
    && if prev > |log| then r.conflictIndex == |log| + 1 && r.conflictTerm == 0
       else r.conflictTerm == log[prev - 1].term && prev <= r.conflictIndex && L.IsLastOfTerm(log, 0, r.conflictTerm, r.conflictIndex)
  }

  /** A request that is behind is refused, and so is one whose predecessor the log lacks, which makes the node
      follow its sender all the same. */
  lemma RefuseRule(n: N.Node, from: NodeId, m: Message)
    requires n.running && m.AppendEntries? && Plain(n)
    requires m.term < n.term || !HasPrev(n.log.entries, m.prevIndex, m.prevTerm)
    ensures var e, log := N.OnMessage(n, from, m), n.log.entries;
            if m.term < n.term then e == N.Effect(n, [Packet(n.id, from, AppendEntriesReply(n.term, false, 0, 0))])
            else
              && SameData(n, e.node) && Obeys(n, m.term, Some(from), e.node)
              && |e.sent| == 1 && e.sent[0].from == n.id && e.sent[0].to == from
              && IsHint(log, m.prevIndex, n.term, e.sent[0].msg)
  {
    hide N.ConflictReply;
    var n1 := N.BecomeFollower(n, m.term, Some(from));
    if m.term >= n.term {
      assert n.log.entries[0..] == n.log.entries && L.Compacts(n.log, n.log.entries);
      FollowerMerge.RefusalHint(n1, n.log.entries, n.term, m);
    }
  }

  predicate HasEntry(log: seq<LogEntry>, prev: nat, entries: seq<LogEntry>, k: nat)
    requires k < |entries|
  {
    prev + k < |log| && log[prev + k].term == entries[k].term
  }

  /** The log is kept up to the `known`-th received entry, the first it did not have, and is what was received
      from there on; if it had them all it is kept whole. */
  ghost predicate IsMerge(log: seq<LogEntry>, prev: nat, entries: seq<LogEntry>, known: nat, log': seq<LogEntry>) {
    && known <= |entries| && (forall k | 0 <= k < known :: HasEntry(log, prev, entries, k))
    && if known == |entries| then log' == log
       else !HasEntry(log, prev, entries, known) && prev + known <= |log| && log' == log[..prev + known] + entries[known..]
  }

  lemma HasIs(n: N.Node, prev: nat, entries: seq<LogEntry>, k: nat)
    requires Plain(n) && FollowerMerge.Contiguous(entries, prev) && k < |entries|
    ensures HasEntry(n.log.entries, prev, entries, k) == FollowerMerge.Has(n.log, entries[k])
  {
  }

  lemma JoinPlain(n: N.Node, prev: nat, entries: seq<LogEntry>, known: nat)
    requires Plain(n) && FollowerMerge.Contiguous(entries, prev) && known <= |entries| && prev + known <= |n.log.entries|
    ensures Plain(n.(log := n.log.(entries := n.log.entries[..prev + known] + entries[known..])))
  {
  }

  lemma MergesPlain(n: N.Node, prev: nat, entries: seq<LogEntry>) returns (known: nat)
    requires Plain(n) && FollowerMerge.Contiguous(entries, prev) && prev <= |n.log.entries|
    ensures var l := N.MergeEntries(n.log, entries);
            IsMerge(n.log.entries, prev, entries, known, l.entries) && Plain(n.(log := l))
  {
    hide N.MergeEntries, HasEntry, FollowerMerge.Has, FollowerMerge.Contiguous;
    FollowerMerge.MergeOutcome(n.log, prev, entries);
    known := FollowerMerge.Known(n.log, entries);
    forall k | 0 <= k < |entries| ensures HasEntry(n.log.entries, prev, entries, k) == FollowerMerge.Has(n.log, entries[k]) {
      HasIs(n, prev, entries, k);
    }
    if known < |entries| { JoinPlain(n, prev, entries, known); }
  }

  /** A request that is neither is accepted: the log is merged with what was received and is on disk, and what
      the leader has committed of it is applied. */
  lemma AcceptRule(n: N.Node, from: NodeId, m: Message) returns (known: nat)
    requires n.running && m.AppendEntries? && Plain(n) && n.term <= m.term && HasPrev(n.log.entries, m.prevIndex, m.prevTerm)
    requires FollowerMerge.Contiguous(m.entries, m.prevIndex)
    ensures var e := N.OnMessage(n, from, m);
            var log := e.node.log.entries;
            && e.sent == [Packet(n.id, from, AppendEntriesReply(m.term, true, 0, 0))]
            && Plain(e.node) && IsMerge(n.log.entries, m.prevIndex, m.entries, known, log)
            && OnDisk(e.node) && Obeys(n, m.term, Some(from), e.node.(disk := if m.term > n.term then e.node.disk else n.disk))
            && e.node.commitIndex == (if m.leaderCommit > n.commitIndex then L.Min(m.leaderCommit, |log|) else n.commitIndex)
            && (n.lastApplied == n.commitIndex <= |log| && n.kv == K.Replay(log[..n.commitIndex]) ==>
                  e.node.lastApplied == e.node.commitIndex && e.node.kv == K.Replay(log[..e.node.commitIndex]))
  {
    hide N.MergeEntries, N.ApplyCommitted, N.BecomeFollower, N.OnMessage, K.Replay, IsMerge;
    var n1 := N.BecomeFollower(n, m.term, Some(from));
    StepsDown(n, m.term, Some(from));
    known := MergesPlain(n, m.prevIndex, m.entries);
    var n2 := N.Persist(n1.(log := N.MergeEntries(n.log, m.entries)));
    Accepted(n, from, m);
    var n3 := n2.(commitIndex := L.Min(m.leaderCommit, |n2.log.entries|));
    ApplyCommittedOnly(n3);
    if m.leaderCommit > n.commitIndex && n.lastApplied == n.commitIndex <= |n2.log.entries|
       && n.kv == K.Replay(n2.log.entries[..n.commitIndex]) {
      assert n2.log.entries[0..] == n2.log.entries;
      CommitRule.AppliesInOrder(n3, n2.log.entries);
    }
  }

  lemma StepsDown(n: N.Node, t: nat, leader: Option<NodeId>)
    requires n.term <= t
    ensures var n' := N.BecomeFollower(n, t, leader); SameData(n, n') && Obeys(n, t, leader, n')
  {
  }

  lemma Accepted(n: N.Node, from: NodeId, m: Message)
    requires n.running && m.AppendEntries? && Plain(n) && n.term <= m.term && HasPrev(n.log.entries, m.prevIndex, m.prevTerm)
    ensures var n1 := N.BecomeFollower(n, m.term, Some(from));
            var n2 := N.Persist(n1.(log := N.MergeEntries(n.log, m.entries)));
            var n3 := if m.leaderCommit > n.commitIndex
                      then N.ApplyCommitted(n2.(commitIndex := L.Min(m.leaderCommit, n2.log.LastIndex()))) else n2;
            N.OnMessage(n, from, m) == N.Effect(n3, [Packet(n3.id, from, AppendEntriesReply(n3.term, true, 0, 0))])
  {
    hide N.MergeEntries, N.ApplyCommitted;
  }

  // ---------------------------------------------------------------- reads, commits, crashes

  /** A read round of a leader is asked of every peer once; a peer that is not ahead follows and answers with
      the round. */
  lemma ReadRule(n: N.Node, from: NodeId, t: nat, round: nat)
    ensures var e := N.ReadIndex(n, round);
            && e.node == n
            && if n.running && n.role == Leader then
                 && |e.sent| == |n.peers|
                 && forall k | 0 <= k < |n.peers| :: e.sent[k] == Packet(n.id, n.peers[k], ReadIndexRequest(n.term, n.id, round))
               else e.sent == []
    ensures n.running ==>
              var e := N.OnMessage(n, from, ReadIndexRequest(t, from, round));
              if t < n.term then e == N.Effect(n, [])
              else SameData(n, e.node) && Obeys(n, t, Some(from), e.node) && e.sent == [Packet(n.id, from, ReadIndexReply(t, round))]
    ensures n.running ==>
              var e := N.OnMessage(n, from, ReadIndexReply(t, round));
              if t <= n.term then e == N.Effect(n, [])
              else SameData(n, e.node) && Obeys(n, t, None, e.node) && e.sent == []
  {
  }

  /** The entry at `k` is of the node's term, and more than half of the cluster has reached it. */
  predicate HasMajority(n: N.Node, k: nat) {
    && 0 < k <= |n.log.entries| && n.log.entries[k - 1].term == n.term
    && 2 * |set p | p in n.matchIndex && n.matchIndex[p] >= k| > |n.peers| + 1
  }

  /** An index may be committed if and only if its entry is of the leader's term and more than half of the
      cluster has reached it. */
  lemma MajorityRule(n: N.Node, k: nat)
    requires Plain(n)
    ensures N.Commits(n, k) <==> HasMajority(n, k)
  {
    assert N.Matched(n, k) == set p | p in n.matchIndex && n.matchIndex[p] >= k;
  }

  /** A crash loses everything but the disk; a restart begins as a follower with what is on it, nothing
      committed, and a live timer. */
  lemma RestartRule(n: N.Node)
    requires forall g | g in n.timer.pending :: g <= n.timer.gen
    ensures var d := N.Crash(n);
            && !d.running && d.disk == n.disk && d.role == Follower && d.commitIndex == d.lastApplied == 0
            && d.kv == map[] && d.votes == {} && d.nextIndex == d.matchIndex == map[] && d.leaderId == None && !d.timer.on
            && var r := N.Restart(d);
            && r.running && r.term == n.disk.term && r.votedFor == n.disk.votedFor && r.log == n.disk.log
            && r.role == Follower && r.commitIndex == r.lastApplied == 0 && r.kv == map[] && r.disk == n.disk
            && r.timer.gen in r.timer.pending && r.timer.gen > n.timer.gen
  {
  }

  /** A refusal sends the leader behind its own last entry of the term that was found, or else to the index
      named, and makes it send from there at once if it can. */
  lemma RetryRule(n: N.Node, from: NodeId, index: nat, term: nat, last: nat)
    requires n.running && n.role == Leader && Plain(n) && L.IsLastOfTerm(n.log.entries, 0, term, last)
    ensures var e, next := N.OnMessage(n, from, AppendEntriesReply(n.term, false, index, term)),
                           if term == 0 || last == 0 then L.Max(index, 1) else last + 1;
            var m := n.(nextIndex := n.nextIndex[from := next]);
            if InRange(m, from) then
              && e.sent == [Packet(n.id, from, Request(m, from))] && e.node == n.(nextIndex := e.node.nextIndex)
              && N.IndexOf(e.node.nextIndex, from) == next + |Batch(m, from)|
              && forall p | p != from :: N.IndexOf(e.node.nextIndex, p) == N.IndexOf(n.nextIndex, p)
            else e == N.Effect(m, [])
  {
    hide N.ReplicateTo, Request, Batch, L.Log.SearchBack;
    assert n.log.entries[0..] == n.log.entries && L.Compacts(n.log, n.log.entries);
    L.SearchBackFinds(n.log, n.log.entries, term, |n.log.entries|);
    assert n.log.LastIndexForTerm(term) == last by { OneLast(n.log.entries, term, last, n.log.LastIndexForTerm(term)); }
    var next := if term == 0 || last == 0 then L.Max(index, 1) else last + 1;
    ServesOne(n.(nextIndex := n.nextIndex[from := next]), from);
  }

  lemma OneLast(log: seq<LogEntry>, term: nat, a: nat, b: nat)
    requires L.IsLastOfTerm(log, 0, term, a) && L.IsLastOfTerm(log, 0, term, b)
    ensures a == b
  {
    if a > 0 { assert log[a - 1].term == term; }
    if b > 0 { assert log[b - 1].term == term; }
  }

  /** A success answer of the leader's term raises the follower's match point to what was sent to it, moves its
      next index behind that, and commits what a majority has reached; an answer of an earlier term, or to a
      node that does not lead, is ignored; one of a later term makes the leader step down. */
  lemma AckRule(n: N.Node, from: NodeId, t: nat, index: nat, term: nat)
    requires n.running && Plain(n) && n.lastApplied == n.commitIndex <= |n.log.entries|
    requires n.kv == K.Replay(n.log.entries[..n.commitIndex])
    ensures var e, log := N.OnMessage(n, from, AppendEntriesReply(t, true, index, term)), n.log.entries;
            if n.role != Leader || t < n.term then e == N.Effect(n, [])
            else if t > n.term then e.sent == [] && SameData(n, e.node) && Obeys(n, t, None, e.node)
            else
              var point := L.Max(N.IndexOf(n.matchIndex, from), N.SentUpTo(n, from));
              && e.sent == [] && e.node.matchIndex == n.matchIndex[from := point] && e.node.nextIndex == n.nextIndex[from := point + 1]
              && e.node.log == n.log && e.node.term == n.term && e.node.role == Leader && OnDisk(n) == OnDisk(e.node)
              && n.commitIndex <= e.node.commitIndex == e.node.lastApplied <= |log|
              && (e.node.commitIndex > n.commitIndex ==> HasMajority(e.node, e.node.commitIndex))
              && (forall k | e.node.commitIndex < k <= |log| :: !HasMajority(e.node, k))
              && e.node.kv == K.Replay(log[..e.node.commitIndex])
  {
    hide N.MaybeAdvanceCommit, K.Replay, N.OnMessage, Plain;
    var m := AppendEntriesReply(t, true, index, term);
    if n.role == Leader && t == n.term {
      AckIs(n, Deliver(Packet(from, n.id, m)), from);
      var a := Acked(n, from);
      SamePlain(n, a);
      Advances(a);
      MaybeAdvanceOnly(a);
    } else {
      OtherAck(n, from, t, index, term);
    }
  }

  lemma SamePlain(n: N.Node, n': N.Node)
    requires Plain(n) && n'.log == n.log
    ensures Plain(n')
  {
  }

  lemma PlainCompacts(n: N.Node)
    requires Plain(n)
    ensures L.Compacts(n.log, n.log.entries) && n.log.baseIndex == 0
  {
    assert n.log.entries[0..] == n.log.entries;
  }

  lemma OtherAck(n: N.Node, from: NodeId, t: nat, index: nat, term: nat)
    requires n.running && (n.role != Leader || t != n.term)
    ensures var e := N.OnMessage(n, from, AppendEntriesReply(t, true, index, term));
            if n.role != Leader || t < n.term then e == N.Effect(n, [])
            else e.sent == [] && SameData(n, e.node) && Obeys(n, t, None, e.node)
  {
  }

  // ---------------------------------------------------------------- in every run

  lemma PlainAt(members: set<NodeId>, run: seq<Cluster>, a: nat, i: NodeId)
    requires IsRun(members, run) && a < |run| && i in run[a].nodes
    ensures Plain(run[a].nodes[i])
  {
    hide IsRun;
    LogsAreOrdered(members, run, a, i);
    InOrder(members, run, a);
    assert LocalOk(members, i, run[a].nodes[i]);
  }

  function Ids(s: seq<NodeId>): set<NodeId> { set p | p in s }

  lemma {:induction false} DistinctIfMany(s: seq<NodeId>)
    ensures |Ids(s)| <= |s| && (|Ids(s)| == |s| ==> Distinct(s))
    decreases |s|
  {
    if s != [] {
      var n := |s| - 1;
      DistinctIfMany(s[..n]);
      assert s == s[..n] + [s[n]];
      assert Ids(s) == Ids(s[..n]) + {s[n]};
      if s[n] in s[..n] { assert Ids(s) == Ids(s[..n]); }
    }
  }

  lemma PeersAre(members: set<NodeId>, i: NodeId, peers: seq<NodeId>)
    requires PeersOf(members, i, peers) && i in members
    ensures Distinct(peers) && |peers| == |members| - 1 && forall p :: p in peers <==> p in members && p != i
  {
    assert Ids(peers) == members - {i};
    DistinctIfMany(peers);
  }

  /** A node that leads knows where each other member stands. */
  lemma LeaderReady(members: set<NodeId>, run: seq<Cluster>, a: nat, i: NodeId)
    requires IsRun(members, run) && a < |run| && i in run[a].nodes && run[a].nodes[i].role == Leader
    ensures var n := run[a].nodes[i];
            && Plain(n) && Distinct(n.peers) && n.id == i && i in members && |n.peers| == |members| - 1
            && (forall p :: p in n.peers <==> p in members && p != i)
            && forall p | p in n.peers :: N.IndexOf(n.nextIndex, p) > 0
  {
    hide IsRun, Plain, Distinct, PeersOf;
    PlainAt(members, run, a, i);
    LeadersKnowNext(members, run, a, i);
    InOrder(members, run, a);
    assert LocalOk(members, i, run[a].nodes[i]);
    PeersAre(members, i, run[a].nodes[i].peers);
  }

  /** In every run, a heartbeat of a leader whose peers are all in range sends every other member exactly what it
      is still missing, and nothing else. */
  lemma EveryMemberServed(members: set<NodeId>, run: seq<Cluster>, a: nat, i: NodeId)
    requires IsRun(members, run) && a < |run| && i in run[a].nodes && run[a].nodes[i].running && run[a].nodes[i].role == Leader
    requires forall p | p in members && p != i :: InRange(run[a].nodes[i], p)
    ensures var n, e := run[a].nodes[i], N.OnHeartbeat(run[a].nodes[i]);
            && |e.sent| == |members| - 1
            && forall p | p in members && p != i :: Packet(i, p, Request(n, p)) in e.sent
  {
    hide IsRun, Plain, Distinct, N.OnHeartbeat, InRange, Request;
    LeaderReady(members, run, a, i);
    var n, e := run[a].nodes[i], N.OnHeartbeat(run[a].nodes[i]);
    var k := HeartbeatRule(n);
    assert k == |n.peers|;
    forall p | p in members && p != i ensures Packet(i, p, Request(n, p)) in e.sent {
      assert p in n.peers;
      var j :| 0 <= j < |n.peers| && n.peers[j] == p;
      assert e.sent[j] == Packet(n.id, n.peers[j], Request(n, n.peers[j]));
    }
  }
}
