/**
  Where a leader's retries lead (src/raft/node.cpp:265-279 and 311-320).  The follower names the term it has in
  place of the predecessor's and the last index with that term; the leader goes behind its own last entry
  of that term, or to the index named.  docs/design.md:120 promises a direct jump to the divergence point.
*/
module Backtracking {
  import opened RaftTypes
  import opened RaftProtocol
  import opened RaftSafety
  import opened RaftCluster
  import opened StepEffects
  import opened RaftTheorems
  import opened HandlerRules
  import N = RaftNode
  import L = CompactedLog

  /** The greatest index of the term, or 0. */
  function Last(log: seq<LogEntry>, term: nat): (i: nat)
    ensures L.IsLastOfTerm(log, 0, term, i)
  {
    if log == [] then 0 else if log[|log| - 1].term == term then |log| else Last(log[..|log| - 1], term)
  }

  predicate Found(lead: seq<LogEntry>, log: seq<LogEntry>, prev: nat)
    requires prev <= |lead|
  {
    HasPrev(log, prev, if prev == 0 then 0 else lead[prev - 1].term)
  }

  /** The predecessor of the request that follows a refusal of the one with predecessor `prev`. */
  function Retry(lead: seq<LogEntry>, log: seq<LogEntry>, prev: nat): nat
    requires prev > 0
  {
    if prev > |log| then |log|
    else
      var term := log[prev - 1].term;
      if Last(lead, term) > 0 then Last(lead, term) else Last(log, term) - 1
  }

  /** Within `rounds` refusals the leader comes to a predecessor that the follower has; past the end of its
      own log it sends nothing any more. */
  predicate Reaches(lead: seq<LogEntry>, log: seq<LogEntry>, prev: nat, rounds: nat)
    requires prev <= |lead|
    decreases rounds
  {
    Found(lead, log, prev)
    || (rounds > 0 && Retry(lead, log, prev) <= |lead| && Reaches(lead, log, Retry(lead, log, prev), rounds - 1))
  }

  predicate Knows(lead: seq<LogEntry>, term: nat) { exists k :: 0 <= k < |lead| && lead[k].term == term }

  predicate Foreign(lead: seq<LogEntry>, log: seq<LogEntry>, lo: nat, hi: nat)
    requires lo <= hi <= |log|
  {
    forall k | lo <= k < hi :: !Knows(lead, log[k].term)
  }

  /** Of the follower's first `prev` entries, those behind its last one of a term the leader has are each the last
      of their term. */
  predicate Unrepeated(lead: seq<LogEntry>, log: seq<LogEntry>, prev: nat) {
    var hi := L.Min(prev, |log|);
    forall k | 0 <= k < hi && Foreign(lead, log, k, hi) :: k + 1 == |log| || log[k + 1].term != log[k].term
  }

  /** The same term anywhere means the same log up to the shorter position. */
  ghost predicate Kindred(a: seq<LogEntry>, b: seq<LogEntry>) {
    forall j, k | 0 <= j < |a| && 0 <= k < |b| && a[j].term == b[k].term :: a[..L.Min(j, k) + 1] == b[..L.Min(j, k) + 1]
  }

  predicate Ascending(log: seq<LogEntry>) { forall j, k | 0 <= j < k < |log| :: log[j].term <= log[k].term }

  /** A conflicting term that the leader knows is found at once. */
  lemma KnownTermIsFound(lead: seq<LogEntry>, log: seq<LogEntry>, prev: nat)
    requires Kindred(lead, log) && 0 < prev <= |lead| && prev <= |log| && !Found(lead, log, prev)
    requires Knows(lead, log[prev - 1].term)
    ensures Retry(lead, log, prev) < prev && Found(lead, log, Retry(lead, log, prev))
  {
    var t := log[prev - 1].term;
    var j := Last(lead, t);
    var k :| 0 <= k < |lead| && lead[k].term == t;
    assert j > 0 && lead[j - 1].term == t;
    var m := L.Min(j - 1, prev - 1);
    assert lead[..m + 1] == log[..m + 1];
    assert lead[m] == lead[..m + 1][m] == log[..m + 1][m] == log[m];
  }

  /** A repeated term that the leader does not know is asked for again and again. */
  lemma {:induction false} NeverReached(lead: seq<LogEntry>, log: seq<LogEntry>, prev: nat, rounds: nat)
    requires Ascending(log) && 0 < prev < |log| && prev <= |lead|
    requires !Knows(lead, log[prev - 1].term) && log[prev].term == log[prev - 1].term
    ensures !Reaches(lead, log, prev, rounds)
    decreases rounds
  {
    var t := log[prev - 1].term;
    assert Last(lead, t) == 0;
    var s := Last(log, t);
    assert prev + 1 <= s;
    assert lead[prev - 1].term != t;
    if rounds > 0 && s - 1 <= |lead| {
      assert log[s - 1].term == t && log[s - 2].term == t;
      NeverReached(lead, log, s - 1, rounds - 1);
    }
  }

  lemma {:induction false} ReachesIn(lead: seq<LogEntry>, log: seq<LogEntry>, prev: nat)
    requires Kindred(lead, log) && Ascending(log) && prev <= |lead| && Unrepeated(lead, log, prev)
    ensures Reaches(lead, log, prev, prev + 1)
    decreases prev
  {
    hide Kindred, Ascending, Unrepeated, Knows, Found, Last;
    if !Found(lead, log, prev) {
      AskedFor(lead, log, prev);
      if prev > |log| {
        StillUnrepeated(lead, log, prev);
        ReachesIn(lead, log, |log|);
        More(lead, log, |log|, |log| + 1, prev);
      } else if Knows(lead, log[prev - 1].term) {
        KnownTermIsFound(lead, log, prev);
      } else {
        NotKnown(lead, log[prev - 1].term);
        OneBack(lead, log, prev);
        ReachesIn(lead, log, prev - 1);
      }
    }
  }

  lemma AskedFor(lead: seq<LogEntry>, log: seq<LogEntry>, prev: nat)
    requires prev <= |lead| && !Found(lead, log, prev)
    ensures prev > 0
  {
  }

  lemma StillUnrepeated(lead: seq<LogEntry>, log: seq<LogEntry>, prev: nat)
    requires Unrepeated(lead, log, prev) && prev > |log|
    ensures Unrepeated(lead, log, |log|)
  {
  }

  lemma OneBack(lead: seq<LogEntry>, log: seq<LogEntry>, prev: nat)
    requires Ascending(log) && 0 < prev <= |log| && Unrepeated(lead, log, prev) && !Knows(lead, log[prev - 1].term)
    ensures Last(log, log[prev - 1].term) == prev && Unrepeated(lead, log, prev - 1)
  {
    hide Knows, Last, Ascending;
    assert Foreign(lead, log, prev - 1, prev);
    LastHere(log, prev);
    forall k | 0 <= k < prev - 1 && Foreign(lead, log, k, prev - 1)
      ensures k + 1 == |log| || log[k + 1].term != log[k].term
    {
      assert Foreign(lead, log, k, prev);
    }
  }

  lemma LastHere(log: seq<LogEntry>, q: nat)
    requires Ascending(log) && 0 < q <= |log| && (q == |log| || log[q].term != log[q - 1].term)
    ensures Last(log, log[q - 1].term) == q
  {
    var s := Last(log, log[q - 1].term);
    assert s >= q && log[s - 1].term == log[q - 1].term;
  }

  lemma {:induction false} More(lead: seq<LogEntry>, log: seq<LogEntry>, prev: nat, a: nat, b: nat)
    requires prev <= |lead| && Reaches(lead, log, prev, a) && a <= b
    ensures Reaches(lead, log, prev, b)
    decreases a
  {
    if !Found(lead, log, prev) { More(lead, log, Retry(lead, log, prev), a - 1, b - 1); }
  }

  lemma {:induction false} ReachesOnlyIf(lead: seq<LogEntry>, log: seq<LogEntry>, prev: nat, rounds: nat)
    requires Kindred(lead, log) && Ascending(log) && prev <= |lead| && Reaches(lead, log, prev, rounds)
    ensures Unrepeated(lead, log, prev)
    decreases rounds
  {
    hide Knows;
    if Found(lead, log, prev) {
      if prev > 0 { assert Knows(lead, log[prev - 1].term) by { KnowsAt(lead, prev - 1); } }
    } else if prev > |log| {
      ReachesOnlyIf(lead, log, |log|, rounds - 1);
    } else if !Knows(lead, log[prev - 1].term) {
      if prev < |log| && log[prev].term == log[prev - 1].term {
        NeverReached(lead, log, prev, rounds);
        assert false;
      }
      LastHere(log, prev);
      NotKnown(lead, log[prev - 1].term);
      ReachesOnlyIf(lead, log, prev - 1, rounds - 1);
      forall k | 0 <= k < prev && Foreign(lead, log, k, prev) ensures k + 1 == |log| || log[k + 1].term != log[k].term {
        if k < prev - 1 { assert Foreign(lead, log, k, prev - 1); }
      }
    }
  }

  lemma KnowsAt(lead: seq<LogEntry>, k: nat)
    requires k < |lead|
    ensures Knows(lead, lead[k].term)
  {
  }

  lemma NotKnown(lead: seq<LogEntry>, term: nat)
    requires !Knows(lead, term)
    ensures Last(lead, term) == 0
  {
  }

  /** The retries come to a predecessor that the follower has if and only if no term that the leader lacks is
      repeated where they pass; then at most one per entry is needed. */
  lemma ReachesIff(lead: seq<LogEntry>, log: seq<LogEntry>, prev: nat)
    requires Kindred(lead, log) && Ascending(log) && prev <= |lead|
    ensures (exists rounds: nat :: Reaches(lead, log, prev, rounds)) <==> Unrepeated(lead, log, prev)
    ensures Unrepeated(lead, log, prev) ==> Reaches(lead, log, prev, prev + 1)
  {
    hide Unrepeated, Kindred, Ascending;
    if Unrepeated(lead, log, prev) {
      ReachesIn(lead, log, prev);
      var rounds := prev + 1;
      assert Reaches(lead, log, prev, rounds);
    } else {
      forall rounds: nat ensures !Reaches(lead, log, prev, rounds) {
        if Reaches(lead, log, prev, rounds) { ReachesOnlyIf(lead, log, prev, rounds); }
      }
    }
  }

  // ---------------------------------------------------------------- logs of a cluster, and the handlers

  lemma LogsAreKindred(members: set<NodeId>, run: seq<Cluster>, a: nat, b: nat, i: NodeId, j: NodeId)
    requires IsRun(members, run) && a < |run| && b < |run| && i in run[a].nodes && j in run[b].nodes
    ensures Kindred(LogAt(run, a, i), LogAt(run, b, j)) && Ascending(LogAt(run, b, j))
  {
    hide IsRun, ClusterInv;
    var hs := HistoryOf(members, run);
    LogsRooted(members, run, hs, a, i);
    LogsRooted(members, run, hs, b, j);
  }

  // ---------------------------------------------------------------- no entry has term 0

  predicate Positive(log: seq<LogEntry>) { forall k | 0 <= k < |log| :: log[k].term > 0 }

  predicate PositiveNode(n: N.Node) { Positive(n.log.entries) && (n.role != Follower ==> n.term > 0) }

  ghost predicate PositivePacket(p: Packet) { p.msg.AppendEntries? ==> Positive(p.msg.entries) }

  lemma {:induction false} MergePositive(log: seq<LogEntry>, entries: seq<LogEntry>)
    requires Positive(log) && Positive(entries)
    ensures Positive(Merge(log, entries))
    decreases |entries|
  {
    if entries != [] {
      var e := entries[0];
      if e.index > |log| {
        MergePositive(log + [e], entries[1..]);
      } else if e.index == 0 || log[e.index - 1].term == e.term {
        MergePositive(log, entries[1..]);
      } else {
        MergePositive(log[..e.index - 1] + [e], entries[1..]);
      }
    }
  }

  lemma AcceptPositive(members: set<NodeId>, i: NodeId, n: N.Node, p: Packet)
    requires LocalOk(members, i, n) && PositiveNode(n) && PositivePacket(p) && Accepts(n, Deliver(p))
    ensures PositiveNode(N.OnMessage(n, p.from, p.msg).node)
  {
    hide N.MergeEntries, N.ApplyCommitted, Merge, Positive;
    MergePositive(n.log.entries, p.msg.entries);
    var n1 := N.BecomeFollower(n, p.msg.term, Some(p.from));
    MergeMatches(n1.log, p.msg.entries);
    var m := N.Persist(n1.(log := N.MergeEntries(n1.log, p.msg.entries)));
    ApplyCommittedOnly(m.(commitIndex := L.Min(p.msg.leaderCommit, m.log.LastIndex())));
  }

  lemma MessagePositive(members: set<NodeId>, i: NodeId, n: N.Node, p: Packet)
    requires LocalOk(members, i, n) && PositiveNode(n) && PositivePacket(p) && p.from != i
    ensures PositiveNode(N.OnMessage(n, p.from, p.msg).node)
  {
    hide N.BecomeLeader, N.ReplicateTo, N.MergeEntries, N.ApplyCommitted, N.MaybeAdvanceCommit, N.Timer.Rearm, Positive;
    var msg, from := p.msg, p.from;
    if msg.AppendEntries? && Accepts(n, Deliver(p)) {
      AcceptPositive(members, i, n, p);
    } else if msg.RequestVoteReply? && n.role == Candidate {
      OfficeOnly(n.(votes := n.votes + {from}));
    } else if msg.AppendEntriesReply? && n.role == Leader && msg.term == n.term {
      if msg.success {
        MaybeAdvanceOnly(Acked(n, from));
      } else {
        var lastInTerm := n.log.LastIndexForTerm(msg.conflictTerm);
        var next := if msg.conflictTerm == 0 || lastInTerm == 0 then msg.conflictIndex else lastInTerm + 1;
        ReplicateToOnly(n.(nextIndex := n.nextIndex[from := L.Max(next, 1)]), from);
      }
    }
  }

  lemma StepPositive(members: set<NodeId>, i: NodeId, n: N.Node, step: Step)
    requires LocalOk(members, i, n) && PositiveNode(n)
    requires step.Deliver? ==> PositivePacket(step.packet) && step.packet.from != i
    ensures PositiveNode(Effect(n, step).node)
  {
    hide N.OnMessage, N.BecomeLeader, N.Canvass, N.ReplicateAll, N.MaybeAdvanceCommit;
    match step
    case Deliver(p) => MessagePositive(members, i, n, p);
    case Timer(_, gen) =>
      var n1 := n.(timer := N.Timer(false, n.timer.gen, n.timer.pending - {gen}));
      OfficeOnly(N.Candidacy(n1));
    case Heartbeat(_) => ReplicateAllOnly(n, n.peers);
    case Client(_, cmd) =>
      ReplicateAllOnly(N.Appended(n, cmd), n.peers);
      MaybeAdvanceOnly(Submitted(n, cmd).effect.node);
    case Read(_, _) =>
    case Crash(_) =>
    case Restart(_) =>
  }

  /** Terms of entries start at 1. */
  lemma {:induction false} LogsArePositive(members: set<NodeId>, run: seq<Cluster>, a: nat, i: NodeId)
    requires IsRun(members, run) && a < |run| && i in run[a].nodes
    ensures PositiveNode(run[a].nodes[i])
    decreases a
  {
    hide Effect, LocalOk, PositiveNode, IsPiece;
    if a == 0 {
      StartsPositive(members, run[0], i);
    } else {
      InOrder(members, run, a - 1);
      assert Next(run[a - 1], run[a - 1 + 1]);
      var step :| Enabled(run[a - 1], step) && run[a] == Take(run[a - 1], step);
      LogsArePositive(members, run, a - 1, i);
      if step.Actor() == i {
        if step.Deliver? && step.packet.msg.AppendEntries? {
          var b := AppendsArePieces(members, run, a - 1, step.packet);
          LogsArePositive(members, run, b, step.packet.from);
          PiecePositive(run[b].nodes[step.packet.from], step.packet.msg);
        }
        StepPositive(members, i, run[a - 1].nodes[i], step);
      }
    }
  }

  lemma StartsPositive(members: set<NodeId>, c: Cluster, i: NodeId)
    requires Init(members, c) && i in c.nodes
    ensures PositiveNode(c.nodes[i])
  {
  }

  lemma PiecePositive(n: N.Node, m: Message)
    requires PositiveNode(n) && m.AppendEntries? && IsPiece(n.log.entries, m.prevIndex, m.prevTerm, m.entries)
    ensures Positive(m.entries)
  {
  }

  // ---------------------------------------------------------------- the handlers, exchange by exchange

  /** A request of leader `n` with this predecessor. */
  predicate Asks(n: N.Node, m: Message, prev: nat) {
    && m.AppendEntries? && m.term == n.term && m.prevIndex == prev <= |n.log.entries|
    && m.prevTerm == if prev == 0 then 0 else n.log.entries[prev - 1].term
  }

  /** Follower `f` accepts `m`, or within `rounds` refusals what leader `n` sends instead. */
  predicate Succeeds(n: N.Node, f: N.Node, m: Message, rounds: nat)
    decreases rounds
  {
    var e := N.OnMessage(f, n.id, m);
    && |e.sent| == 1 && e.sent[0].msg.AppendEntriesReply?
    && (e.sent[0].msg.success
        || (rounds > 0
            && var s := N.OnMessage(n, f.id, e.sent[0].msg);
            |s.sent| == 1 && Succeeds(s.node, e.node, s.sent[0].msg, rounds - 1)))
  }

  /** The pair of a leader and a node of the same term. */
  predicate Pair(n: N.Node, f: N.Node) {
    && n.running && n.role == Leader && Plain(n) && f.running && Plain(f) && f.term == n.term
    && Positive(f.log.entries)
  }

  lemma Answers(n: N.Node, f: N.Node, m: Message, prev: nat)
    requires Pair(n, f) && Asks(n, m, prev) && Found(n.log.entries, f.log.entries, prev)
    ensures var e := N.OnMessage(f, n.id, m); |e.sent| == 1 && e.sent[0].msg.AppendEntriesReply? && e.sent[0].msg.success
  {
    hide N.MergeEntries, N.ApplyCommitted, N.OnMessage, N.BecomeFollower;
    Accepted(f, n.id, m);
  }

  lemma Exchange(n: N.Node, f: N.Node, m: Message, prev: nat)
    requires Pair(n, f) && Asks(n, m, prev) && !Found(n.log.entries, f.log.entries, prev)
    ensures var e, retry := N.OnMessage(f, n.id, m), Retry(n.log.entries, f.log.entries, prev);
            && |e.sent| == 1 && e.sent[0].msg.AppendEntriesReply? && !e.sent[0].msg.success
            && e.node.id == f.id && e.node.log == f.log
            && var s := N.OnMessage(n, f.id, e.sent[0].msg);
            && Pair(s.node, e.node) && s.node.id == n.id && s.node.log == n.log
            && if retry <= |n.log.entries| then |s.sent| == 1 && Asks(s.node, s.sent[0].msg, retry) else s.sent == []
  {
    hide N.OnMessage, Last, Plain, Positive, Batch;
    var lead, log := n.log.entries, f.log.entries;
    RefuseRule(f, n.id, m);
    var r := N.OnMessage(f, n.id, m).sent[0].msg;
    RetryRule(n, f.id, r.conflictIndex, r.conflictTerm, Last(lead, r.conflictTerm));
    if prev <= |log| {
      assert r.conflictTerm > 0 by { PositiveAt(log, prev - 1); }
      OneLast(log, r.conflictTerm, r.conflictIndex, Last(log, r.conflictTerm));
    }
    SamePlain(n, N.OnMessage(n, f.id, r).node);
    SamePlain(f, N.OnMessage(f, n.id, m).node);
  }

  lemma PositiveAt(log: seq<LogEntry>, k: nat)
    requires Positive(log) && k < |log|
    ensures log[k].term > 0
  {
  }

  lemma {:induction false} SucceedsAsLogs(n: N.Node, f: N.Node, m: Message, prev: nat, rounds: nat)
    requires Pair(n, f) && Asks(n, m, prev)
    ensures Succeeds(n, f, m, rounds) <==> Reaches(n.log.entries, f.log.entries, prev, rounds)
    decreases rounds
  {
    hide N.OnMessage, Pair;
    if Found(n.log.entries, f.log.entries, prev) {
      Answers(n, f, m, prev);
    } else {
      Exchange(n, f, m, prev);
      var e, retry := N.OnMessage(f, n.id, m), Retry(n.log.entries, f.log.entries, prev);
      var s := N.OnMessage(n, f.id, e.sent[0].msg);
      if rounds > 0 && retry <= |n.log.entries| {
        SucceedsAsLogs(s.node, e.node, s.sent[0].msg, retry, rounds - 1);
      }
    }
  }

  /** In every run: a node of the leader's term that is sent a request, and answered refusal by refusal, comes to
      accept one if and only if its log does not repeat a term that the leader lacks where the retries pass. */
  lemma BacktrackingIff(members: set<NodeId>, run: seq<Cluster>, a: nat, i: NodeId, j: NodeId, m: Message, prev: nat)
    requires IsRun(members, run) && a < |run| && i in run[a].nodes && j in run[a].nodes
    requires run[a].nodes[i].running && run[a].nodes[i].role == Leader
    requires run[a].nodes[j].running && run[a].nodes[j].term == run[a].nodes[i].term && Asks(run[a].nodes[i], m, prev)
    ensures (exists rounds: nat :: Succeeds(run[a].nodes[i], run[a].nodes[j], m, rounds)) <==>
            Unrepeated(LogAt(run, a, i), LogAt(run, a, j), prev)
  {
    hide IsRun, N.OnMessage, Unrepeated, Kindred, Ascending, Asks;
    var n, f := run[a].nodes[i], run[a].nodes[j];
    PlainAt(members, run, a, i);
    PlainAt(members, run, a, j);
    LogsArePositive(members, run, a, j);
    LogsAreKindred(members, run, a, a, i, j);
    AsksWithin(n, m, prev);
    ReachesIff(n.log.entries, f.log.entries, prev);
    if Unrepeated(n.log.entries, f.log.entries, prev) {
      SucceedsAsLogs(n, f, m, prev, prev + 1);
      var rounds := prev + 1;
      assert Succeeds(n, f, m, rounds);
    } else {
      forall rounds: nat ensures !Succeeds(n, f, m, rounds) {
        SucceedsAsLogs(n, f, m, prev, rounds);
        assert !Reaches(n.log.entries, f.log.entries, prev, rounds);
      }
    }
  }

  lemma AsksWithin(n: N.Node, m: Message, prev: nat)
    requires Asks(n, m, prev)
    ensures prev <= |n.log.entries|
  {
  }
}
