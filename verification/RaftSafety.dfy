/** Every move of `RaftProtocol` preserves `Inv`, and `Inv` implies Raft's safety properties. */
module RaftSafety {
  import opened RaftTypes
  import opened RaftProtocol

  // ---------------------------------------------------------------- quorums

  lemma {:induction false} SubsetSize(a: set<NodeId>, b: set<NodeId>)
    requires a <= b
    ensures |a| <= |b|
  {
    if a != {} {
      var x :| x in a;
      SubsetSize(a - {x}, b - {x});
    }
  }

  /** Two majorities of the same membership share a member. */
  lemma QuorumsMeet(a: set<NodeId>, b: set<NodeId>, members: set<NodeId>) returns (v: NodeId)
    requires IsQuorum(a, members) && IsQuorum(b, members)
    ensures v in a && v in b
  {
    SubsetSize(a + b, members);
    assert |a + b| + |a * b| == |a| + |b|;
    v :| v in a * b;
  }

  // ---------------------------------------------------------------- stability of the history

  lemma RootedStable(log: seq<LogEntry>, a: map<nat, seq<LogEntry>>, b: map<nat, seq<LogEntry>>)
    requires Rooted(log, a) && Grows(a, b)
    ensures Rooted(log, b)
  {
  }

  /** Two rooted logs that agree on the term at an index agree on everything before it. */
  lemma Matching(a: seq<LogEntry>, b: seq<LogEntry>, n: nat, leaderLog: map<nat, seq<LogEntry>>)
    requires Rooted(a, leaderLog) && Rooted(b, leaderLog)
    requires n <= |a| && n <= |b|
    requires n > 0 ==> a[n - 1].term == b[n - 1].term
    ensures a[..n] == b[..n]
  {
  }

  lemma KeptStable(g: History, h: History, c: Copy, log: seq<LogEntry>, bound: int)
    requires Extends(g, h) && Kept(g, c, log, bound)
    requires c.term in g.leaderLog && c.index <= |g.leaderLog[c.term]|
    ensures Kept(h, c, log, bound)
    ensures Stretch(h, c) == Stretch(g, c)
  {
    assert IsPrefix(g.leaderLog[c.term], h.leaderLog[c.term]);
    assert Stretch(h, c) == Stretch(g, c);
    if !IsPrefix(Stretch(g, c), log) {
      var u :| c.term < u <= bound && Lost(g, c, u);
      assert Lost(h, c, u);
    }
  }

  lemma KeptMonotone(h: History, c: Copy, log: seq<LogEntry>, log': seq<LogEntry>, bound: int, bound': int)
    requires Kept(h, c, log, bound) && IsPrefix(log, log') && bound <= bound'
    ensures Kept(h, c, log', bound')
  {
  }

  lemma ExtendsRefl(h: History)
    ensures Extends(h, h)
  {
  }

  lemma ExtendsTrans(f: History, g: History, h: History)
    requires Extends(f, g) && Extends(g, h)
    ensures Extends(f, h)
  {
  }

  // ---------------------------------------------------------------- moves that keep every log

  /** Logs are unchanged and terms do not go back. */
  ghost predicate SameLogs(s: State, s': State) {
    && s.servers.Keys == s'.servers.Keys
    && forall i | i in s.servers ::
         s'.servers[i].log == s.servers[i].log && s.servers[i].term <= s'.servers[i].term
  }

  lemma SameLogsKeep(s: State, s': State, h: History)
    requires SameLogs(s, s') && InvLogs(s, h) && InvStored(s, h) && InvHeld(s, h)
    ensures InvLogs(s', h) && InvStored(s', h) && InvHeld(s', h)
  {
  }

  lemma SameLogsCovered(s: State, s': State, h: History)
    requires SameLogs(s, s') && InvLogs(s, h) && InvCovered(s, h)
    ensures InvCovered(s', h)
  {
  }

  lemma SameLogsLeaders(s: State, s': State, h: History)
    requires SameLogs(s, s') && forall t | t in h.elections :: LeaderKept(s, h, t)
    ensures forall t | t in h.elections :: LeaderKept(s', h, t)
  {
  }

  // ---------------------------------------------------------------- moves that cast no vote

  /** No server casts a vote, and none becomes a candidate. */
  ghost predicate CalmServer(n: Server, n': Server) {
    && n.term <= n'.term
    && n'.votedFor == (if n.term == n'.term then n.votedFor else None)
    && (n'.role != Follower ==> n.role != Follower && n'.term == n.term)
    && (n'.role == Candidate ==> n.role == Candidate && n'.log == n.log)
  }

  ghost predicate Calm(s: State, s': State) {
    && s.servers.Keys == s'.servers.Keys
    && forall i | i in s.servers :: CalmServer(s.servers[i], s'.servers[i])
  }

  lemma CalmKeepsVotes(s: State, s': State, h: History)
    requires Calm(s, s') && InvVotes(s, h) && InvBallots(s, h) && InvUpToDate(s, h)
    ensures InvVotes(s', h) && InvBallots(s', h) && InvUpToDate(s', h)
  {
  }

  lemma CalmKeepsRequests(s: State, s': State)
    requires Calm(s, s') && InvRequests(s)
    requires forall p | p in s'.net && p.msg.RequestVote? :: p in s.net
    ensures InvRequests(s')
  {
  }

  lemma CalmKeepsCandidates(s: State, s': State, h: History)
    requires Calm(s, s') && InvCandidates(s, h)
    requires forall i | i in s'.servers && s'.servers[i].role == Candidate :: s'.servers[i].votes == s.servers[i].votes
    ensures InvCandidates(s', h)
  {
  }

  lemma StepDownKeeps(members: set<NodeId>, s: State, h: History, i: NodeId, t: nat)
    requires Inv(members, s, h) && i in s.servers && s.servers[i].term <= t
    ensures Inv(members, StepDown(s, i, t), h)
  {
    hide InvLogs, InvLeaderLogs, InvAppends, InvVotes, InvBallots, InvGrants, InvCandidates, InvRequests,
         InvUpToDate, InvElections, InvStored, InvCovered, InvHeld, InvBallotHeld, InvElectionHeld;
    var s' := StepDown(s, i, t);
    SameLogsKeep(s, s', h);
    SameLogsCovered(s, s', h);
    SameLogsLeaders(s, s', h);
    CalmKeepsVotes(s, s', h);
    CalmKeepsRequests(s, s');
    CalmKeepsCandidates(s, s', h);
  }

  lemma SendKeepsAppends(s: State, h: History, i: NodeId, ps: set<Packet>)
    requires InvLeaders(s, h) && InvAppends(s.net, h) && h.elections.Keys == h.leaderLog.Keys && CanSend(s, i, ps)
    ensures InvAppends(s.net + ps, h)
  {
  }

  lemma SendKeepsGrants(s: State, h: History, i: NodeId, ps: set<Packet>)
    requires InvGrants(s.net, h) && CanSend(s, i, ps)
    ensures InvGrants(s.net + ps, h)
  {
  }

  lemma SendKeeps(members: set<NodeId>, s: State, h: History, i: NodeId, ps: set<Packet>)
    requires Inv(members, s, h) && CanSend(s, i, ps)
    ensures Inv(members, Send(s, ps), h)
  {
    hide InvLogs, InvLeaderLogs, InvAppends, InvVotes, InvBallots, InvGrants, InvCandidates, InvRequests,
         InvUpToDate, InvElections, InvStored, InvCovered, InvHeld, InvBallotHeld, InvElectionHeld;
    var s' := Send(s, ps);
    SameLogsKeep(s, s', h);
    SameLogsCovered(s, s', h);
    SameLogsLeaders(s, s', h);
    CalmKeepsVotes(s, s', h);
    CalmKeepsRequests(s, s');
    CalmKeepsCandidates(s, s', h);
    SendKeepsAppends(s, h, i, ps);
    SendKeepsGrants(s, h, i, ps);
  }

  lemma CountKeepsCandidates(s: State, h: History, i: NodeId, p: Packet)
    requires CanCount(s, i, p) && InvCandidates(s, h) && InvGrants(s.net, h)
    ensures InvCandidates(Count(s, i, p), h)
  {
  }

  lemma CountKeeps(members: set<NodeId>, s: State, h: History, i: NodeId, p: Packet)
    requires Inv(members, s, h) && CanCount(s, i, p)
    ensures Inv(members, Count(s, i, p), h)
  {
    hide InvLogs, InvLeaderLogs, InvAppends, InvVotes, InvBallots, InvGrants, InvCandidates, InvRequests,
         InvUpToDate, InvElections, InvStored, InvCovered, InvHeld, InvBallotHeld, InvElectionHeld;
    var s' := Count(s, i, p);
    SameLogsKeep(s, s', h);
    SameLogsCovered(s, s', h);
    SameLogsLeaders(s, s', h);
    CalmKeepsVotes(s, s', h);
    CalmKeepsRequests(s, s');
    CountKeepsCandidates(s, h, i, p);
  }

  // ---------------------------------------------------------------- casting a ballot

  /** Record a ballot unless that voter already has one in that term. */
  ghost function Record(h: History, k: Slot, b: Ballot): History {
    if k in h.ballots then h else h.(ballots := h.ballots[k := b])
  }

  lemma RecordKeepsLogs(s: State, h: History, k: Slot, b: Ballot)
    requires InvLogs(s, h) && InvLeaderLogs(h) && InvLeaders(s, h) && InvAppends(s.net, h)
    requires InvStored(s, h) && InvCovered(s, h)
    ensures var h' := Record(h, k, b);
            && InvLogs(s, h') && InvLeaderLogs(h') && InvLeaders(s, h') && InvAppends(s.net, h')
            && InvStored(s, h') && InvCovered(s, h') && Extends(h, h')
  {
  }

  lemma RecordKeepsElections(members: set<NodeId>, s: State, h: History, k: Slot, b: Ballot)
    requires InvElections(members, h) && InvGrants(s.net, h)
    ensures InvElections(members, Record(h, k, b)) && InvGrants(s.net, Record(h, k, b))
  {
  }

  lemma RecordKeepsHeld(s: State, h: History, k: Slot, b: Ballot)
    requires InvStored(s, h) && InvHeld(s, h)
    ensures InvHeld(s, Record(h, k, b))
  {
    var h' := Record(h, k, b);
    forall c | c in h'.stored && c.node in s.servers
      ensures Kept(h', c, s.servers[c.node].log, s.servers[c.node].term)
    {
      assert CopySound(s, h, c);
      KeptStable(h, h', c, s.servers[c.node].log, s.servers[c.node].term);
    }
  }

  lemma RecordKeepsElectionHeld(members: set<NodeId>, s: State, h: History, k: Slot, b: Ballot)
    requires InvStored(s, h) && InvElections(members, h) && InvElectionHeld(h)
    ensures InvElectionHeld(Record(h, k, b))
  {
    var h' := Record(h, k, b);
    forall c, t | c in h'.stored && t in h'.elections
      ensures c.node in h'.elections[t].voters && c.term < t && Slot(t, c.node) in h'.ballots ==>
                Kept(h', c, h'.ballots[Slot(t, c.node)].log, t - 1)
    {
      if c.node in h'.elections[t].voters && c.term < t {
        assert CopySound(s, h, c) && ElectionSound(members, t, h.elections[t], h.ballots);
        KeptStable(h, h', c, h.ballots[Slot(t, c.node)].log, t - 1);
      }
    }
  }

  /** What server `i` has kept at the time it votes in term `t` is what the ballot records. */
  lemma RecordKeepsBallotHeld(s: State, h: History, i: NodeId, t: nat, candidate: NodeId)
    requires i in s.servers && s.servers[i].term <= t
    requires InvStored(s, h) && InvHeld(s, h) && InvBallotHeld(h)
    ensures InvBallotHeld(Record(h, Slot(t, i), Ballot(candidate, s.servers[i].log)))
  {
    var h' := Record(h, Slot(t, i), Ballot(candidate, s.servers[i].log));
    forall c, k | c in h'.stored && k in h'.ballots
      ensures k.voter == c.node && c.term < k.term ==> Kept(h', c, h'.ballots[k].log, k.term)
    {
      if k.voter == c.node && c.term < k.term {
        assert CopySound(s, h, c);
        if k !in h.ballots {
          KeptMonotone(h, c, s.servers[i].log, s.servers[i].log, s.servers[i].term, t);
        }
        KeptStable(h, h', c, h'.ballots[k].log, k.term);
      }
    }
  }

  // ---------------------------------------------------------------- granting a vote

  /** Only a follower that has not voted for someone else can be in a position to grant. */
  lemma GranterIsFollower(s: State, h: History, i: NodeId, p: Packet)
    requires CanGrant(s, i, p) && InvRequests(s) && InvVotes(s, h)
    ensures s.servers[i].role == Follower && p.msg.candidate == p.from != i
    ensures p.from in s.servers && s.servers[i].term <= s.servers[p.from].term
  {
  }

  ghost function GrantHistory(s: State, h: History, i: NodeId, p: Packet): History
    requires i in s.servers && p.msg.RequestVote?
  {
    Record(h, Slot(s.servers[i].term, i), Ballot(p.msg.candidate, s.servers[i].log))
  }

  lemma GrantKeepsVotes(s: State, h: History, i: NodeId, p: Packet)
    requires CanGrant(s, i, p) && InvRequests(s) && InvVotes(s, h)
    ensures InvVotes(Grant(s, i, p), GrantHistory(s, h, i, p))
  {
  }

  lemma GrantKeepsBallots(s: State, h: History, i: NodeId, p: Packet)
    requires CanGrant(s, i, p) && InvRequests(s) && InvVotes(s, h) && InvLogs(s, h) && InvBallots(s, h)
    ensures InvBallots(Grant(s, i, p), GrantHistory(s, h, i, p))
  {
    GranterIsFollower(s, h, i, p);
  }

  lemma GrantKeepsUpToDate(s: State, h: History, i: NodeId, p: Packet)
    requires CanGrant(s, i, p) && InvRequests(s) && InvVotes(s, h) && InvUpToDate(s, h)
    ensures InvUpToDate(Grant(s, i, p), GrantHistory(s, h, i, p))
  {
  }

  lemma GrantKeepsCandidates(s: State, h: History, i: NodeId, p: Packet)
    requires CanGrant(s, i, p) && InvRequests(s) && InvVotes(s, h) && InvCandidates(s, h)
    ensures InvCandidates(Grant(s, i, p), GrantHistory(s, h, i, p))
    ensures InvRequests(Grant(s, i, p))
  {
  }

  lemma GrantKeepsNet(s: State, h: History, i: NodeId, p: Packet)
    requires CanGrant(s, i, p) && InvRequests(s) && InvVotes(s, h)
    requires InvGrants(s.net, GrantHistory(s, h, i, p)) && InvAppends(s.net, GrantHistory(s, h, i, p))
    ensures InvGrants(Grant(s, i, p).net, GrantHistory(s, h, i, p))
    ensures InvAppends(Grant(s, i, p).net, GrantHistory(s, h, i, p))
  {
  }

  lemma GrantKeeps(members: set<NodeId>, s: State, h: History, i: NodeId, p: Packet) returns (h': History)
    requires Inv(members, s, h) && CanGrant(s, i, p)
    ensures Inv(members, Grant(s, i, p), h') && Extends(h, h')
  {
    hide InvLogs, InvLeaderLogs, InvAppends, InvVotes, InvBallots, InvGrants, InvCandidates, InvRequests,
         InvUpToDate, InvElections, InvStored, InvCovered, InvHeld, InvBallotHeld, InvElectionHeld;
    var s' := Grant(s, i, p);
    h' := GrantHistory(s, h, i, p);
    var k, b := Slot(s.servers[i].term, i), Ballot(p.msg.candidate, s.servers[i].log);
    GranterIsFollower(s, h, i, p);
    RecordKeepsLogs(s, h, k, b);
    RecordKeepsElections(members, s, h, k, b);
    RecordKeepsHeld(s, h, k, b);
    RecordKeepsElectionHeld(members, s, h, k, b);
    RecordKeepsBallotHeld(s, h, i, s.servers[i].term, p.msg.candidate);
    GrantKeepsVotes(s, h, i, p);
    GrantKeepsBallots(s, h, i, p);
    GrantKeepsUpToDate(s, h, i, p);
    GrantKeepsCandidates(s, h, i, p);
    GrantKeepsNet(s, h, i, p);
    SameLogsKeep(s, s', h');
    SameLogsCovered(s, s', h');
    SameLogsLeaders(s, s', h');
  }

  // ---------------------------------------------------------------- starting an election

  ghost function CampaignHistory(s: State, h: History, i: NodeId): History
    requires i in s.servers
  {
    Record(h, Slot(s.servers[i].term + 1, i), Ballot(i, s.servers[i].log))
  }

  lemma CampaignKeepsVotes(s: State, h: History, i: NodeId, ps: set<Packet>)
    requires CanCampaign(s, i, ps) && InvVotes(s, h) && InvBallots(s, h)
    ensures InvVotes(Campaign(s, i, ps), CampaignHistory(s, h, i))
  {
  }

  lemma CampaignKeepsBallots(s: State, h: History, i: NodeId, ps: set<Packet>)
    requires CanCampaign(s, i, ps) && InvLogs(s, h) && InvBallots(s, h)
    ensures InvBallots(Campaign(s, i, ps), CampaignHistory(s, h, i))
  {
  }

  lemma CampaignKeepsUpToDate(s: State, h: History, i: NodeId, ps: set<Packet>)
    requires CanCampaign(s, i, ps) && InvBallots(s, h) && InvUpToDate(s, h)
    ensures InvUpToDate(Campaign(s, i, ps), CampaignHistory(s, h, i))
  {
  }

  lemma CampaignKeepsCandidates(s: State, h: History, i: NodeId, ps: set<Packet>)
    requires CanCampaign(s, i, ps) && InvLogs(s, h) && InvLeaders(s, h) && InvCandidates(s, h)
    ensures InvCandidates(Campaign(s, i, ps), CampaignHistory(s, h, i))
  {
  }

  lemma CampaignKeepsNet(s: State, h: History, i: NodeId, ps: set<Packet>)
    requires CanCampaign(s, i, ps) && InvRequests(s)
    requires InvGrants(s.net, h) && InvAppends(s.net, h)
    ensures InvRequests(Campaign(s, i, ps)) && InvGrants(s.net + ps, h) && InvAppends(s.net + ps, h)
  {
  }

  lemma CampaignKeeps(members: set<NodeId>, s: State, h: History, i: NodeId, ps: set<Packet>) returns (h': History)
    requires Inv(members, s, h) && CanCampaign(s, i, ps)
    ensures Inv(members, Campaign(s, i, ps), h') && Extends(h, h')
  {
    hide InvLogs, InvLeaderLogs, InvAppends, InvVotes, InvBallots, InvGrants, InvCandidates, InvRequests,
         InvUpToDate, InvElections, InvStored, InvCovered, InvHeld, InvBallotHeld, InvElectionHeld;
    var s' := Campaign(s, i, ps);
    h' := CampaignHistory(s, h, i);
    var k, b := Slot(s.servers[i].term + 1, i), Ballot(i, s.servers[i].log);
    RecordKeepsLogs(s, h, k, b);
    RecordKeepsElections(members, s, h, k, b);
    RecordKeepsHeld(s, h, k, b);
    RecordKeepsElectionHeld(members, s, h, k, b);
    RecordKeepsBallotHeld(s, h, i, s.servers[i].term + 1, i);
    CampaignKeepsVotes(s, h, i, ps);
    CampaignKeepsBallots(s, h, i, ps);
    CampaignKeepsUpToDate(s, h, i, ps);
    CampaignKeepsCandidates(s, h, i, ps);
    CampaignKeepsNet(s, h', i, ps);
    SameLogsKeep(s, s', h');
    SameLogsCovered(s, s', h');
    SameLogsLeaders(s, s', h');
  }

  // ---------------------------------------------------------------- leader logs that grow

  lemma GrowthKeepsLogs(s: State, g: History, h: History)
    requires Extends(g, h) && h.ballots == g.ballots
    requires InvLogs(s, g) && InvBallots(s, g)
    ensures InvLogs(s, h) && InvBallots(s, h)
  {
    forall i | i in s.servers ensures Sound(s.servers[i].log, s.servers[i].term, h.leaderLog) {
      RootedStable(s.servers[i].log, g.leaderLog, h.leaderLog);
    }
    forall k | k in h.ballots ensures Sound(h.ballots[k].log, k.term, h.leaderLog) {
      RootedStable(h.ballots[k].log, g.leaderLog, h.leaderLog);
    }
  }

  lemma GrowthKeepsAppends(s: State, g: History, h: History)
    requires Extends(g, h) && InvAppends(s.net, g)
    ensures InvAppends(s.net, h)
  {
  }

  lemma GrowthKeepsHeld(s: State, g: History, h: History)
    requires Extends(g, h) && h.ballots == g.ballots && h.stored == g.stored
    requires InvStored(s, g) && InvHeld(s, g) && InvBallotHeld(g)
    ensures InvStored(s, h) && InvHeld(s, h) && InvBallotHeld(h)
  {
    forall c | c in h.stored ensures CopySound(s, h, c) {
      assert CopySound(s, g, c) && IsPrefix(g.leaderLog[c.term], h.leaderLog[c.term]);
    }
    forall c | c in h.stored && c.node in s.servers
      ensures Kept(h, c, s.servers[c.node].log, s.servers[c.node].term)
    {
      assert CopySound(s, g, c);
      KeptStable(g, h, c, s.servers[c.node].log, s.servers[c.node].term);
    }
    forall c, k | c in h.stored && k in h.ballots
      ensures k.voter == c.node && c.term < k.term ==> Kept(h, c, h.ballots[k].log, k.term)
    {
      assert CopySound(s, g, c);
      if k.voter == c.node && c.term < k.term { KeptStable(g, h, c, h.ballots[k].log, k.term); }
    }
  }

  lemma GrowthKeepsLeaderLogs(g: History, h: History, t: nat)
    requires Extends(g, h) && InvLeaderLogs(g)
    requires t in h.leaderLog && t in h.elections
    requires h.leaderLog.Keys == g.leaderLog.Keys + {t} && h.elections.Keys == g.elections.Keys + {t}
    requires g.elections.Keys == g.leaderLog.Keys
    requires forall u | u in g.leaderLog && u != t :: h.leaderLog[u] == g.leaderLog[u]
    requires Sound(h.leaderLog[t], t, h.leaderLog) && GrownFrom(h.elections[t].start, h.leaderLog[t], t)
    ensures InvLeaderLogs(h)
  {
    forall u | u in h.leaderLog && u in h.elections
      ensures Sound(h.leaderLog[u], u, h.leaderLog) && GrownFrom(h.elections[u].start, h.leaderLog[u], u)
    {
      if u != t {
        assert Sound(g.leaderLog[u], u, g.leaderLog) && GrownFrom(g.elections[u].start, g.leaderLog[u], u);
        RootedStable(h.leaderLog[u], g.leaderLog, h.leaderLog);
      }
    }
  }

  // ---------------------------------------------------------------- winning an election

  /** A candidate that reaches a majority is the first and only winner of its term. */
  lemma TermIsOpen(members: set<NodeId>, s: State, h: History, i: NodeId)
    requires InvShape(members, s, h) && CanWin(s, i, members)
    requires InvCandidates(s, h) && InvVotes(s, h) && InvBallots(s, h) && InvElections(members, h)
    ensures s.servers[i].term !in h.elections && IsQuorum(s.servers[i].votes + {i}, members)
  {
    var n := s.servers[i];
    assert CandidateSound(i, n, h) && VoteRecorded(i, n, h);
    assert n.votes <= members by {
      forall v | v in n.votes ensures v in members { assert Slot(n.term, v) in h.ballots; }
    }
    assert |n.votes + {i}| == |n.votes| + 1;
    if n.term in h.elections {
      assert ElectionSound(members, n.term, h.elections[n.term], h.ballots);
      var _ := QuorumsMeet(n.votes + {i}, h.elections[n.term].voters, members);
    }
  }

  ghost function WinHistory(s: State, h: History, i: NodeId): History
    requires i in s.servers
  {
    var n := s.servers[i];
    h.(elections := h.elections[n.term := Election(i, n.log, n.votes + {i})],
       leaderLog := h.leaderLog[n.term := n.log])
  }

  lemma WinKeepsLeaders(s: State, h: History, i: NodeId)
    requires i in s.servers && s.servers[i].role == Candidate && s.servers[i].term !in h.elections
    requires h.elections.Keys == h.leaderLog.Keys && InvLeaders(s, h)
    ensures InvLeaders(Win(s, i), WinHistory(s, h, i)) && Extends(h, WinHistory(s, h, i))
  {
    var s', h' := Win(s, i), WinHistory(s, h, i);
    forall t | t in h'.elections ensures LeaderKept(s', h', t) {
      if t in h.elections { assert LeaderKept(s, h, t); }
    }
  }

  lemma WinKeepsLeaderLogs(s: State, h: History, i: NodeId)
    requires i in s.servers && s.servers[i].role == Candidate && s.servers[i].term !in h.elections
    requires h.elections.Keys == h.leaderLog.Keys && Extends(h, WinHistory(s, h, i))
    requires InvLogs(s, h) && InvLeaderLogs(h) && InvCandidates(s, h)
    ensures InvLeaderLogs(WinHistory(s, h, i))
  {
    var n, h' := s.servers[i], WinHistory(s, h, i);
    assert CandidateSound(i, n, h) && Sound(n.log, n.term, h.leaderLog);
    RootedStable(n.log, h.leaderLog, h'.leaderLog);
    GrowthKeepsLeaderLogs(h, h', n.term);
  }

  lemma WinKeepsVotes(s: State, h: History, i: NodeId)
    requires i in s.servers && s.servers[i].role == Candidate
    requires InvVotes(s, h) && InvCandidates(s, h) && InvGrants(s.net, h)
    ensures var s', h' := Win(s, i), WinHistory(s, h, i);
            InvVotes(s', h') && InvCandidates(s', h') && InvGrants(s'.net, h')
  {
  }

  lemma WinKeepsElections(members: set<NodeId>, s: State, h: History, i: NodeId)
    requires i in s.servers && s.servers[i].role == Candidate
    requires IsQuorum(s.servers[i].votes + {i}, members)
    requires InvVotes(s, h) && InvCandidates(s, h) && InvUpToDate(s, h) && InvElections(members, h)
    ensures InvElections(members, WinHistory(s, h, i))
  {
  }

  lemma WinKeepsElectionHeld(s: State, h: History, i: NodeId)
    requires i in s.servers && s.servers[i].term !in h.elections && Extends(h, WinHistory(s, h, i))
    requires InvStored(s, h) && InvBallotHeld(h) && InvElectionHeld(h)
    ensures InvElectionHeld(WinHistory(s, h, i))
  {
    var n, h' := s.servers[i], WinHistory(s, h, i);
    forall c, t | c in h'.stored && t in h'.elections
      ensures c.node in h'.elections[t].voters && c.term < t && Slot(t, c.node) in h'.ballots ==>
                Kept(h', c, h'.ballots[Slot(t, c.node)].log, t - 1)
    {
      var k := Slot(t, c.node);
      assert CopySound(s, h, c);
      if c.node in h'.elections[t].voters && c.term < t && k in h'.ballots {
        if t == n.term {
          BallotPredatesTerm(h, c, h.ballots[k].log, t);
        }
        KeptStable(h, h', c, h.ballots[k].log, t - 1);
      }
    }
  }

  /** A term without a leader cannot be the one that lost the copy. */
  lemma BallotPredatesTerm(h: History, c: Copy, log: seq<LogEntry>, t: nat)
    requires Kept(h, c, log, t) && t !in h.elections
    ensures Kept(h, c, log, t - 1)
  {
  }

  lemma WinKeeps(members: set<NodeId>, s: State, h: History, i: NodeId) returns (h': History)
    requires Inv(members, s, h) && CanWin(s, i, members)
    ensures Inv(members, Win(s, i), h') && Extends(h, h')
  {
    hide InvLogs, InvLeaderLogs, InvAppends, InvVotes, InvBallots, InvGrants, InvCandidates, InvRequests,
         InvUpToDate, InvElections, InvStored, InvCovered, InvHeld, InvBallotHeld, InvElectionHeld;
    var s' := Win(s, i);
    h' := WinHistory(s, h, i);
    TermIsOpen(members, s, h, i);
    WinKeepsLeaders(s, h, i);
    WinKeepsLeaderLogs(s, h, i);
    WinKeepsVotes(s, h, i);
    WinKeepsElections(members, s, h, i);
    WinKeepsElectionHeld(s, h, i);
    GrowthKeepsLogs(s, h, h');
    GrowthKeepsAppends(s, h, h');
    GrowthKeepsHeld(s, h, h');
    CalmKeepsVotes(s, s', h);
    CalmKeepsRequests(s, s');
    WinKeepsRest(s, h, i);
    SameLogsKeep(s, s', h');
  }

  lemma WinKeepsRest(s: State, h: History, i: NodeId)
    requires i in s.servers && s.servers[i].role == Candidate
    requires InvUpToDate(Win(s, i), h) && InvBallots(s, WinHistory(s, h, i)) && InvCovered(s, h)
    ensures InvUpToDate(Win(s, i), WinHistory(s, h, i))
    ensures InvBallots(Win(s, i), WinHistory(s, h, i))
    ensures InvCovered(Win(s, i), WinHistory(s, h, i))
  {
  }

  // ---------------------------------------------------------------- storing new copies

  /** Server `i` now holds these entries of its own term. */
  ghost function Store(s: State, h: History, i: NodeId): History
    requires i in s.servers
  {
    var n := s.servers[i];
    h.(stored := h.stored + set k | 0 <= k < |n.log| && n.log[k].term == n.term :: Copy(i, n.term, k + 1))
  }

  /** A copy server `i` gains now stands for a stretch it really holds. */
  lemma NewCopy(s: State, h: History, i: NodeId, c: Copy)
    requires i in s.servers && InvLogs(s, h) && c in Store(s, h, i).stored && c !in h.stored
    ensures c.node == i && c.term == s.servers[i].term
    ensures CopySound(s, h, c) && IsPrefix(Stretch(h, c), s.servers[i].log)
  {
  }

  lemma StoreKeepsStored(s: State, h: History, i: NodeId)
    requires i in s.servers && InvLogs(s, h) && InvStored(s, h)
    ensures InvStored(s, Store(s, h, i))
  {
  }

  lemma StoreKeepsHeld(s: State, h: History, i: NodeId)
    requires i in s.servers && InvLogs(s, h) && InvStored(s, h) && InvHeld(s, h)
    ensures InvHeld(s, Store(s, h, i)) && Extends(h, Store(s, h, i))
  {
    var h' := Store(s, h, i);
    forall c | c in h'.stored && c.node in s.servers
      ensures Kept(h', c, s.servers[c.node].log, s.servers[c.node].term)
    {
      if c in h.stored {
        assert CopySound(s, h, c);
        KeptStable(h, h', c, s.servers[c.node].log, s.servers[c.node].term);
      } else {
        NewCopy(s, h, i, c);
      }
    }
  }

  lemma StoreKeepsBallotHeld(s: State, h: History, i: NodeId)
    requires i in s.servers && InvLogs(s, h) && InvStored(s, h) && InvBallots(s, h)
    requires InvBallotHeld(h) && Extends(h, Store(s, h, i))
    ensures InvBallotHeld(Store(s, h, i))
  {
    var h' := Store(s, h, i);
    forall c, k | c in h'.stored && k in h'.ballots
      ensures k.voter == c.node && c.term < k.term ==> Kept(h', c, h'.ballots[k].log, k.term)
    {
      if k.voter == c.node && c.term < k.term {
        if c !in h.stored { NewCopy(s, h, i, c); }
        assert CopySound(s, h, c);
        KeptStable(h, h', c, h.ballots[k].log, k.term);
      }
    }
  }

  lemma StoreKeepsElectionHeld(s: State, h: History, i: NodeId)
    requires i in s.servers && InvLogs(s, h) && InvStored(s, h) && InvBallots(s, h)
    requires InvElectionHeld(h) && Extends(h, Store(s, h, i))
    ensures InvElectionHeld(Store(s, h, i))
  {
    var h' := Store(s, h, i);
    forall c, t | c in h'.stored && t in h'.elections
      ensures c.node in h'.elections[t].voters && c.term < t && Slot(t, c.node) in h'.ballots ==>
                Kept(h', c, h'.ballots[Slot(t, c.node)].log, t - 1)
    {
      if c.node in h'.elections[t].voters && c.term < t && Slot(t, c.node) in h'.ballots {
        if c !in h.stored { NewCopy(s, h, i, c); }
        assert CopySound(s, h, c);
        KeptStable(h, h', c, h.ballots[Slot(t, c.node)].log, t - 1);
      }
    }
  }

  lemma StoreKeepsRest(members: set<NodeId>, s: State, h: History, i: NodeId)
    requires i in s.servers && InvLogs(s, h) && InvLeaderLogs(h) && InvLeaders(s, h) && InvAppends(s.net, h)
    requires InvVotes(s, h) && InvBallots(s, h) && InvElections(members, h)
    ensures var h' := Store(s, h, i);
            && InvLogs(s, h') && InvLeaderLogs(h') && InvLeaders(s, h') && InvAppends(s.net, h')
            && InvVotes(s, h') && InvBallots(s, h') && InvElections(members, h')
  {
  }

  lemma StoreKeepsCandidates(s: State, h: History, i: NodeId)
    requires i in s.servers && InvCandidates(s, h) && InvGrants(s.net, h) && InvUpToDate(s, h)
    ensures var h' := Store(s, h, i); InvCandidates(s, h') && InvGrants(s.net, h') && InvUpToDate(s, h')
  {
  }

  /** Everything except that the newest copies are on record yet. */
  ghost predicate InvUncovered(members: set<NodeId>, s: State, h: History) {
    && InvShape(members, s, h)
    && InvLogs(s, h) && InvLeaderLogs(h) && InvLeaders(s, h) && InvAppends(s.net, h)
    && InvVotes(s, h) && InvBallots(s, h) && InvGrants(s.net, h) && InvCandidates(s, h)
    && InvRequests(s) && InvUpToDate(s, h) && InvElections(members, h)
    && InvStored(s, h) && InvHeld(s, h) && InvBallotHeld(h) && InvElectionHeld(h)
  }

  /** Recording the copies server `i` holds restores the invariant once its log has changed. */
  lemma StoreKeeps(members: set<NodeId>, s: State, h: History, i: NodeId)
    requires i in s.servers && InvUncovered(members, s, h) && InvCovered(s, Store(s, h, i))
    ensures Inv(members, s, Store(s, h, i)) && Extends(h, Store(s, h, i))
  {
    hide InvLogs, InvLeaderLogs, InvAppends, InvVotes, InvBallots, InvGrants, InvCandidates, InvRequests,
         InvUpToDate, InvElections, InvStored, InvCovered, InvHeld, InvBallotHeld, InvElectionHeld;
    StoreKeepsStored(s, h, i);
    StoreKeepsHeld(s, h, i);
    StoreKeepsBallotHeld(s, h, i);
    StoreKeepsElectionHeld(s, h, i);
    StoreKeepsRest(members, s, h, i);
    StoreKeepsCandidates(s, h, i);
  }

  lemma StoreCovers(s: State, s': State, h: History, h': History, i: NodeId)
    requires i in s'.servers && s.servers.Keys == s'.servers.Keys && InvCovered(s, h) && h.stored == h'.stored
    requires forall j | j in s.servers && j != i :: s'.servers[j] == s.servers[j]
    ensures InvCovered(s', Store(s', h', i))
  {
  }

  // ---------------------------------------------------------------- a leader appends

  ghost function ExtendHistory(s: State, h: History, i: NodeId, cmd: Command): History
    requires i in s.servers
  {
    h.(leaderLog := h.leaderLog[s.servers[i].term := Extend(s, i, cmd).servers[i].log])
  }

  lemma ExtendKeepsLeaders(s: State, h: History, i: NodeId, cmd: Command)
    requires i in s.servers && s.servers[i].role == Leader && InvLeaders(s, h) && h.elections.Keys == h.leaderLog.Keys
    ensures InvLeaders(Extend(s, i, cmd), ExtendHistory(s, h, i, cmd))
    ensures Extends(h, ExtendHistory(s, h, i, cmd)) && h.leaderLog[s.servers[i].term] == s.servers[i].log
  {
  }

  lemma ExtendedIsSound(s: State, h: History, i: NodeId, cmd: Command)
    requires i in s.servers && InvLogs(s, h) && Extends(h, ExtendHistory(s, h, i, cmd))
    ensures Sound(Extend(s, i, cmd).servers[i].log, s.servers[i].term, ExtendHistory(s, h, i, cmd).leaderLog)
  {
    var n, h' := s.servers[i], ExtendHistory(s, h, i, cmd);
    var log' := Extend(s, i, cmd).servers[i].log;
    assert Sound(n.log, n.term, h.leaderLog);
    RootedStable(n.log, h.leaderLog, h'.leaderLog);
    forall k | 0 <= k < |log'|
      ensures log'[k].index == k + 1 && log'[k].term in h'.leaderLog && IsPrefix(log'[..k + 1], h'.leaderLog[log'[k].term])
    {
      if k < |n.log| {
        assert log'[k] == n.log[k] && log'[..k + 1] == n.log[..k + 1];
      }
    }
  }

  lemma ExtendKeepsLogs(s: State, h: History, i: NodeId, cmd: Command)
    requires i in s.servers && InvLogs(s, h) && InvBallots(s, h) && Extends(h, ExtendHistory(s, h, i, cmd))
    ensures InvLogs(Extend(s, i, cmd), ExtendHistory(s, h, i, cmd))
    ensures InvBallots(Extend(s, i, cmd), ExtendHistory(s, h, i, cmd))
  {
    var s', h' := Extend(s, i, cmd), ExtendHistory(s, h, i, cmd);
    GrowthKeepsLogs(s, h, h');
    ExtendedIsSound(s, h, i, cmd);
  }

  lemma ExtendKeepsLeaderLogs(s: State, h: History, i: NodeId, cmd: Command)
    requires i in s.servers && s.servers[i].role == Leader && h.elections.Keys == h.leaderLog.Keys
    requires InvLogs(s, h) && InvLeaderLogs(h) && InvLeaders(s, h) && Extends(h, ExtendHistory(s, h, i, cmd))
    ensures InvLeaderLogs(ExtendHistory(s, h, i, cmd))
  {
    hide Sound;
    var n, h' := s.servers[i], ExtendHistory(s, h, i, cmd);
    ExtendedIsSound(s, h, i, cmd);
    assert LeaderKept(s, h, n.term);
    assert GrownFrom(h.elections[n.term].start, n.log, n.term);
    GrowthKeepsLeaderLogs(h, h', n.term);
  }

  lemma ExtendKeepsHeld(s: State, h: History, i: NodeId, cmd: Command)
    requires i in s.servers && InvStored(s, h) && InvHeld(s, h)
    ensures InvStored(Extend(s, i, cmd), h) && InvHeld(Extend(s, i, cmd), h)
  {
  }

  lemma ExtendKeepsVotes(members: set<NodeId>, s: State, h: History, i: NodeId, cmd: Command)
    requires i in s.servers && s.servers[i].role == Leader
    requires InvVotes(s, h) && InvCandidates(s, h) && InvGrants(s.net, h) && InvUpToDate(s, h) && InvElections(members, h)
    ensures var s', h' := Extend(s, i, cmd), ExtendHistory(s, h, i, cmd);
            && InvVotes(s', h') && InvCandidates(s', h') && InvGrants(s'.net, h') && InvUpToDate(s', h')
            && InvElections(members, h')
  {
  }

  lemma GrowthKeepsElectionHeld(s: State, g: History, h: History)
    requires Extends(g, h) && h.ballots == g.ballots && h.stored == g.stored && h.elections == g.elections
    requires InvStored(s, g) && InvElectionHeld(g)
    ensures InvElectionHeld(h)
  {
    forall c, t | c in h.stored && t in h.elections
      ensures c.node in h.elections[t].voters && c.term < t && Slot(t, c.node) in h.ballots ==>
                Kept(h, c, h.ballots[Slot(t, c.node)].log, t - 1)
    {
      assert CopySound(s, g, c);
      if c.node in h.elections[t].voters && c.term < t && Slot(t, c.node) in h.ballots {
        KeptStable(g, h, c, h.ballots[Slot(t, c.node)].log, t - 1);
      }
    }
  }

  lemma ExtendKeeps(members: set<NodeId>, s: State, h: History, i: NodeId, cmd: Command) returns (h': History)
    requires Inv(members, s, h) && i in s.servers && s.servers[i].role == Leader
    ensures Inv(members, Extend(s, i, cmd), h') && Extends(h, h')
  {
    hide InvLogs, InvLeaderLogs, InvAppends, InvVotes, InvBallots, InvGrants, InvCandidates, InvRequests,
         InvUpToDate, InvElections, InvStored, InvCovered, InvHeld, InvBallotHeld, InvElectionHeld;
    var s', g := Extend(s, i, cmd), ExtendHistory(s, h, i, cmd);
    ExtendKeepsLeaders(s, h, i, cmd);
    ExtendKeepsLogs(s, h, i, cmd);
    ExtendKeepsLeaderLogs(s, h, i, cmd);
    ExtendKeepsVotes(members, s, h, i, cmd);
    ExtendKeepsHeld(s, h, i, cmd);
    CalmKeepsRequests(s, s');
    GrowthKeepsAppends(s, h, g);
    GrowthKeepsHeld(s', h, g);
    GrowthKeepsElectionHeld(s, h, g);
    StoreCovers(s, s', h, g, i);
    StoreKeeps(members, s', g, i);
    h' := Store(s', g, i);
    ExtendsTrans(h, g, h');
  }

  // ---------------------------------------------------------------- a follower accepts entries

  lemma {:induction false} MergeAppends(whole: seq<LogEntry>, prev: nat, entries: seq<LogEntry>)
    requires prev + |entries| <= |whole| && entries == whole[prev..prev + |entries|]
    requires forall k | 0 <= k < |whole| :: whole[k].index == k + 1
    ensures Merge(whole[..prev], entries) == whole[..prev + |entries|]
    decreases |entries|
  {
    if entries != [] {
      assert whole[..prev] + [entries[0]] == whole[..prev + 1];
      MergeAppends(whole, prev + 1, entries[1..]);
    }
  }

  /** Merging a piece of the leader's log either finds everything already there, or leaves
      exactly the leader's log up to the end of the piece.  Whatever the two logs already
      had in common survives either way. */
  lemma {:induction false} MergeOutcome(log: seq<LogEntry>, whole: seq<LogEntry>, prev: nat,
                                        entries: seq<LogEntry>, leaderLog: map<nat, seq<LogEntry>>)
    requires Rooted(log, leaderLog) && Rooted(whole, leaderLog)
    requires prev + |entries| <= |whole| && entries == whole[prev..prev + |entries|]
    requires prev <= |log| && log[..prev] == whole[..prev]
    ensures var m, log' := prev + |entries|, Merge(log, entries);
            || (log' == log && IsPrefix(whole[..m], log))
            || (log' == whole[..m] && !IsPrefix(whole[..m], log))
    decreases |entries|
  {
    if entries != [] {
      var e, m := entries[0], prev + |entries|;
      assert e == whole[prev] && e.index == prev + 1 && entries[1..] == whole[prev + 1..m];
      if prev < |log| && log[prev].term == e.term {
        Matching(log, whole, prev + 1, leaderLog);
        MergeOutcome(log, whole, prev + 1, entries[1..], leaderLog);
      } else {
        assert log[..prev] + [e] == whole[..prev + 1];
        if prev == |log| { assert log[..prev] == log; }
        MergeAppends(whole, prev + 1, entries[1..]);
        assert whole[..m][prev] == e;
      }
    }
  }

  /** What a follower shares with the leader is not undone, not even by a delayed, shorter request. */
  lemma MergeKeepsAgreement(log: seq<LogEntry>, whole: seq<LogEntry>, prev: nat, entries: seq<LogEntry>,
                            leaderLog: map<nat, seq<LogEntry>>, n: nat)
    requires Rooted(log, leaderLog) && Rooted(whole, leaderLog)
    requires prev + |entries| <= |whole| && entries == whole[prev..prev + |entries|]
    requires prev <= |log| && log[..prev] == whole[..prev]
    requires n <= |whole| && IsPrefix(whole[..n], log)
    ensures IsPrefix(whole[..n], Merge(log, entries))
  {
    MergeOutcome(log, whole, prev, entries, leaderLog);
    var m := prev + |entries|;
    assert n >= m ==> whole[..m] == whole[..n][..m];
  }

  lemma AcceptedAgrees(s: State, h: History, i: NodeId, p: Packet)
    requires CanAccept(s, i, p) && InvAppends(s.net, h) && InvLogs(s, h) && InvLeaderLogs(h)
    ensures AppendSound(p, h) && Sound(h.leaderLog[p.msg.term], p.msg.term, h.leaderLog)
    ensures p.msg.prevIndex <= |s.servers[i].log|
    ensures s.servers[i].log[..p.msg.prevIndex] == h.leaderLog[p.msg.term][..p.msg.prevIndex]
    ensures Sound(s.servers[i].log, s.servers[i].term, h.leaderLog)
  {
  }

  lemma AcceptKeepsLogs(s: State, h: History, i: NodeId, p: Packet)
    requires CanAccept(s, i, p) && InvAppends(s.net, h) && InvLogs(s, h) && InvLeaderLogs(h)
    ensures InvLogs(Accept(s, i, p), h)
  {
    hide Sound;
    AcceptedAgrees(s, h, i, p);
    var whole := h.leaderLog[p.msg.term];
    MergeOutcome(s.servers[i].log, whole, p.msg.prevIndex, p.msg.entries, h.leaderLog);
    SoundPrefix(whole, p.msg.prevIndex + |p.msg.entries|, p.msg.term, h.leaderLog);
  }

  lemma SoundPrefix(log: seq<LogEntry>, n: nat, t: nat, leaderLog: map<nat, seq<LogEntry>>)
    requires n <= |log| && Sound(log, t, leaderLog)
    ensures Sound(log[..n], t, leaderLog)
  {
  }

  lemma AcceptKeepsHeld(s: State, h: History, i: NodeId, p: Packet)
    requires CanAccept(s, i, p) && InvAppends(s.net, h) && InvLogs(s, h) && InvLeaderLogs(h)
    requires InvStored(s, h) && InvHeld(s, h)
    ensures InvStored(Accept(s, i, p), h) && InvHeld(Accept(s, i, p), h)
  {
    var s' := Accept(s, i, p);
    forall c | c in h.stored ensures CopySound(s', h, c) { assert CopySound(s, h, c); }
    forall c | c in h.stored && c.node in s'.servers
      ensures Kept(h, c, s'.servers[c.node].log, s'.servers[c.node].term)
    {
      if c.node == i { AcceptKeepsCopy(s, h, i, p, c); }
    }
  }

  /** Accepting from the leader of term t can only drop a copy that this leader lacked. */
  lemma AcceptKeepsCopy(s: State, h: History, i: NodeId, p: Packet, c: Copy)
    requires CanAccept(s, i, p) && InvAppends(s.net, h) && InvLogs(s, h) && InvLeaderLogs(h)
    requires c in h.stored && c.node == i && InvStored(s, h)
    requires Kept(h, c, s.servers[i].log, s.servers[i].term)
    ensures Kept(h, c, Merge(s.servers[i].log, p.msg.entries), s.servers[i].term)
  {
    AcceptedAgrees(s, h, i, p);
    var t, n := p.msg.term, s.servers[i];
    var whole := h.leaderLog[t];
    assert CopySound(s, h, c);
    if IsPrefix(Stretch(h, c), n.log) && !(c.term < t && Lost(h, c, t)) {
      assert GrownFrom(h.elections[t].start, whole, t);
      assert Stretch(h, c) == whole[..c.index];
      MergeKeepsAgreement(n.log, whole, p.msg.prevIndex, p.msg.entries, h.leaderLog, c.index);
    }
  }

  lemma AcceptKeepsLeaders(s: State, h: History, i: NodeId, p: Packet)
    requires CanAccept(s, i, p) && InvAppends(s.net, h) && InvLeaders(s, h)
    ensures InvLeaders(Accept(s, i, p), h)
  {
  }

  lemma AcceptKeeps(members: set<NodeId>, s: State, h: History, i: NodeId, p: Packet) returns (h': History)
    requires Inv(members, s, h) && CanAccept(s, i, p)
    ensures Inv(members, Accept(s, i, p), h') && Extends(h, h')
  {
    hide InvLogs, InvLeaderLogs, InvAppends, InvVotes, InvBallots, InvGrants, InvCandidates, InvRequests,
         InvUpToDate, InvElections, InvStored, InvCovered, InvHeld, InvBallotHeld, InvElectionHeld;
    var s' := Accept(s, i, p);
    AcceptKeepsLogs(s, h, i, p);
    AcceptKeepsHeld(s, h, i, p);
    AcceptKeepsLeaders(s, h, i, p);
    CalmKeepsVotes(s, s', h);
    CalmKeepsRequests(s, s');
    CalmKeepsCandidates(s, s', h);
    StoreCovers(s, s', h, h, i);
    StoreKeeps(members, s', h, i);
    h' := Store(s', h, i);
  }

  // ---------------------------------------------------------------- what the invariant buys

  /** A majority stored the term-`t` entry at `n` while in term `t`. */
  ghost predicate StoredByMajority(members: set<NodeId>, h: History, t: nat, n: nat, q: set<NodeId>) {
    IsQuorum(q, members) && forall i | i in q :: Copy(i, t, n) in h.stored
  }

  /** Leader Completeness: whatever a majority stored in term `t`, every later leader started with. */
  lemma {:induction false} LaterLeadersHave(members: set<NodeId>, s: State, h: History, t: nat, n: nat,
                                            q: set<NodeId>, u: nat)
    requires InvLeaderLogs(h) && InvBallots(s, h) && InvElections(members, h)
    requires InvStored(s, h) && InvElectionHeld(h) && h.elections.Keys == h.leaderLog.Keys
    requires StoredByMajority(members, h, t, n, q) && t < u && u in h.elections
    ensures t in h.leaderLog && n <= |h.leaderLog[t]| && IsPrefix(h.leaderLog[t][..n], h.elections[u].start)
    decreases u
  {
    var e := h.elections[u];
    assert ElectionSound(members, u, e, h.ballots);
    var v := QuorumsMeet(q, e.voters, members);
    var c, b := Copy(v, t, n), h.ballots[Slot(u, v)];
    assert CopySound(s, h, c) && Kept(h, c, b.log, u - 1);
    forall w | t < w < u && w in h.elections ensures !Lost(h, c, w) {
      LaterLeadersHave(members, s, h, t, n, q, w);
    }
    assert IsPrefix(Stretch(h, c), b.log);
    RecentEnough(members, s, h, c, u, b.log);
  }

  /** A log at least as recent as one that holds the copy holds it too. */
  lemma RecentEnough(members: set<NodeId>, s: State, h: History, c: Copy, u: nat, log: seq<LogEntry>)
    requires InvLeaderLogs(h) && h.elections.Keys == h.leaderLog.Keys && u in h.elections
    requires CopySound(s, h, c) && c.term < u && IsPrefix(Stretch(h, c), log) && Sound(log, u, h.leaderLog)
    requires UpToDate(|h.elections[u].start|, LastTerm(h.elections[u].start), log)
    requires forall w | c.term < w < u && w in h.elections :: !Lost(h, c, w)
    ensures IsPrefix(Stretch(h, c), h.elections[u].start)
  {
    hide Sound, GrownFrom, UpToDate, Lost;
    var start := h.elections[u].start;
    StartSound(h, u);
    AtLeastAsRecent(start, log, c, u, h.leaderLog, Stretch(h, c));
    var w := LastTerm(start);
    LastRooted(start, u, h.leaderLog);
    LastRooted(log, u, h.leaderLog);
    if w != LastTerm(log) {
      assert !Lost(h, c, w);
      ShorterStart(h, c, w, start);
    }
  }

  lemma StartSound(h: History, u: nat)
    requires InvLeaderLogs(h) && h.elections.Keys == h.leaderLog.Keys && u in h.elections
    ensures Sound(h.elections[u].start, u, h.leaderLog)
    ensures h.elections[u].start != [] ==> LastTerm(h.elections[u].start) < u
  {
  }

  lemma LastRooted(log: seq<LogEntry>, t: nat, leaderLog: map<nat, seq<LogEntry>>)
    requires Sound(log, t, leaderLog) && log != []
    ensures LastTerm(log) in leaderLog && IsPrefix(log, leaderLog[LastTerm(log)])
  {
  }

  /** By the vote rule the candidate's last term is at least that of the copy. */
  lemma AtLeastAsRecent(start: seq<LogEntry>, log: seq<LogEntry>, c: Copy, u: nat, leaderLog: map<nat, seq<LogEntry>>,
                        stretch: seq<LogEntry>)
    requires Sound(log, u, leaderLog) && UpToDate(|start|, LastTerm(start), log)
    requires stretch != [] && IsPrefix(stretch, log) && LastTerm(stretch) == c.term
    ensures log != [] && start != [] && c.term <= LastTerm(log) <= LastTerm(start)
    ensures LastTerm(start) == LastTerm(log) ==> |log| <= |start|
  {
  }

  /** A leader of term `w` started with less than a log that ends in an entry of that term. */
  lemma ShorterStart(h: History, c: Copy, w: nat, start: seq<LogEntry>)
    requires InvLeaderLogs(h) && w in h.elections && w in h.leaderLog && !Lost(h, c, w)
    requires start != [] && LastTerm(start) == w && IsPrefix(start, h.leaderLog[w])
    ensures IsPrefix(Stretch(h, c), start)
  {
  }
}
