/**
  Raft reduced to nine atomic moves of one server, together with the history
  variables its safety argument needs.  Every handler of `RaftNode` is a short
  sequence of these moves (see `RaftCluster`), so what the moves preserve holds
  of every run of the real handlers.
*/
module RaftProtocol {
  import opened RaftTypes

  datatype Server = Server(term: nat, votedFor: Option<NodeId>, log: seq<LogEntry>,
                           role: Role, votes: set<NodeId>)

  /** `net` holds every packet ever sent: delivery never removes one, so a packet may
      be delivered late, twice, out of order or not at all. */
  datatype State = State(servers: map<NodeId, Server>, net: set<Packet>)

  function LastTerm(log: seq<LogEntry>): nat {
    if log == [] then 0 else log[|log| - 1].term
  }

  /** The vote rule: is a log ending in (`lastIndex`, `lastTerm`) at least as recent as `log`? */
  predicate UpToDate(lastIndex: nat, lastTerm: nat, log: seq<LogEntry>) {
    if lastTerm != LastTerm(log) then lastTerm > LastTerm(log) else lastIndex >= |log|
  }

  ghost predicate IsQuorum(q: set<NodeId>, members: set<NodeId>) {
    q <= members && |q| >= |members| / 2 + 1
  }

  // ---------------------------------------------------------------- moves

  function StepDown(s: State, i: NodeId, t: nat): State
    requires i in s.servers && s.servers[i].term <= t
  {
    var n := s.servers[i];
    s.(servers := s.servers[i := Server(t, if t > n.term then None else n.votedFor, n.log, Follower, {})])
  }

  ghost predicate CanGrant(s: State, i: NodeId, p: Packet) {
    && i in s.servers && p in s.net && p.to == i && p.msg.RequestVote?
    && p.msg.term == s.servers[i].term
    && s.servers[i].votedFor in {None, Some(p.msg.candidate)}
    && UpToDate(p.msg.lastIndex, p.msg.lastTerm, s.servers[i].log)
  }

  function Grant(s: State, i: NodeId, p: Packet): State
    requires i in s.servers && p.msg.RequestVote?
  {
    var n := s.servers[i];
    State(s.servers[i := n.(votedFor := Some(p.msg.candidate))],
          s.net + {Packet(i, p.from, RequestVoteReply(n.term, true))})
  }

  ghost predicate IsRequestOf(i: NodeId, n: Server, p: Packet) {
    p.from == i && p.to != i && p.msg == RequestVote(n.term, i, |n.log|, LastTerm(n.log))
  }

  /** Start an election: next term, vote for oneself, ask the others (packets `ps`). */
  function Campaign(s: State, i: NodeId, ps: set<Packet>): State
    requires i in s.servers
  {
    var n := s.servers[i];
    State(s.servers[i := Server(n.term + 1, Some(i), n.log, Candidate, {})], s.net + ps)
  }

  ghost predicate CanCampaign(s: State, i: NodeId, ps: set<Packet>) {
    && i in s.servers
    && forall p | p in ps :: IsRequestOf(i, s.servers[i].(term := s.servers[i].term + 1), p)
  }

  ghost predicate CanCount(s: State, i: NodeId, p: Packet) {
    && i in s.servers && p in s.net && p.to == i
    && s.servers[i].role == Candidate
    && p.msg == RequestVoteReply(s.servers[i].term, true)
  }

  function Count(s: State, i: NodeId, p: Packet): State
    requires i in s.servers
  {
    s.(servers := s.servers[i := s.servers[i].(votes := s.servers[i].votes + {p.from})])
  }

  ghost predicate CanWin(s: State, i: NodeId, members: set<NodeId>) {
    && i in s.servers && s.servers[i].role == Candidate
    && |s.servers[i].votes| + 1 >= |members| / 2 + 1
  }

  function Win(s: State, i: NodeId): State
    requires i in s.servers
  {
    s.(servers := s.servers[i := s.servers[i].(role := Leader, votes := {})])
  }

  function Extend(s: State, i: NodeId, cmd: Command): State
    requires i in s.servers
  {
    var n := s.servers[i];
    s.(servers := s.servers[i := n.(log := n.log + [LogEntry(n.term, |n.log| + 1, cmd)])])
  }

  /** `p` carries a contiguous piece of `log` with the right predecessor. */
  ghost predicate IsPiece(log: seq<LogEntry>, prev: nat, prevTerm: nat, entries: seq<LogEntry>) {
    && prev + |entries| <= |log|
    && entries == log[prev..prev + |entries|]
    && (prev > 0 ==> prevTerm == log[prev - 1].term)
  }

  ghost predicate IsAppendOf(i: NodeId, n: Server, p: Packet) {
    && p.from == i && p.to != i && p.msg.AppendEntries? && p.msg.term == n.term
    && IsPiece(n.log, p.msg.prevIndex, p.msg.prevTerm, p.msg.entries)
  }

  /** Packets that carry neither a vote nor a piece of log. */
  predicate IsInert(p: Packet) {
    !p.msg.RequestVote? && !p.msg.AppendEntries? && !(p.msg.RequestVoteReply? && p.msg.granted)
  }

  ghost predicate CanSend(s: State, i: NodeId, ps: set<Packet>) {
    && i in s.servers
    && forall p | p in ps :: IsInert(p) || (s.servers[i].role == Leader && IsAppendOf(i, s.servers[i], p))
  }

  function Send(s: State, ps: set<Packet>): State {
    s.(net := s.net + ps)
  }

  predicate HoldsAt(log: seq<LogEntry>, index: nat, term: nat) {
    index == 0 || (index <= |log| && log[index - 1].term == term)
  }

  /** What a follower's log becomes: walk the received entries, cut at the first one whose
      term differs, append from there on. */
  function Merge(log: seq<LogEntry>, entries: seq<LogEntry>): seq<LogEntry>
    decreases |entries|
  {
    if entries == [] then log
    else
      var e := entries[0];
      if e.index > |log| then Merge(log + [e], entries[1..])
      else if e.index == 0 || log[e.index - 1].term == e.term then Merge(log, entries[1..])
      else Merge(log[..e.index - 1] + [e], entries[1..])
  }

  ghost predicate CanAccept(s: State, i: NodeId, p: Packet) {
    && i in s.servers && p in s.net && p.to == i && p.msg.AppendEntries?
    && s.servers[i].role == Follower && s.servers[i].term == p.msg.term
    && HoldsAt(s.servers[i].log, p.msg.prevIndex, p.msg.prevTerm)
  }

  function Accept(s: State, i: NodeId, p: Packet): State
    requires i in s.servers && p.msg.AppendEntries?
  {
    var n := s.servers[i];
    s.(servers := s.servers[i := n.(log := Merge(n.log, p.msg.entries))])
  }

  // ---------------------------------------------------------------- history

  /** Voter `voter` cast a ballot in term `term`. */
  datatype Slot = Slot(term: nat, voter: NodeId)
  /** Whom it was for, and the voter's log at that moment. */
  datatype Ballot = Ballot(candidate: NodeId, log: seq<LogEntry>)
  /** Who won a term, with which log, and whose votes. */
  datatype Election = Election(leader: NodeId, start: seq<LogEntry>, voters: set<NodeId>)
  /** Node `node` held a term-`term` entry at `index` while its own term was `term`. */
  datatype Copy = Copy(node: NodeId, term: nat, index: nat)

  datatype History = History(ballots: map<Slot, Ballot>, elections: map<nat, Election>,
                             leaderLog: map<nat, seq<LogEntry>>, stored: set<Copy>)

  ghost predicate Grows(a: map<nat, seq<LogEntry>>, b: map<nat, seq<LogEntry>>) {
    forall t | t in a :: t in b && IsPrefix(a[t], b[t])
  }

  /** History is only ever added to. */
  ghost predicate Extends(g: History, h: History) {
    && (forall k | k in g.ballots :: k in h.ballots && h.ballots[k] == g.ballots[k])
    && (forall t | t in g.elections :: t in h.elections && h.elections[t] == g.elections[t])
    && Grows(g.leaderLog, h.leaderLog)
    && g.stored <= h.stored
  }

  // ---------------------------------------------------------------- log invariants

  /** Up to each of its entries, `log` is what the leader of that entry's term had. */
  ghost predicate Rooted(log: seq<LogEntry>, leaderLog: map<nat, seq<LogEntry>>) {
    forall k | 0 <= k < |log| ::
      && log[k].index == k + 1
      && log[k].term in leaderLog
      && IsPrefix(log[..k + 1], leaderLog[log[k].term])
  }

  ghost predicate Ordered(log: seq<LogEntry>) {
    forall j, k | 0 <= j <= k < |log| :: log[j].term <= log[k].term
  }

  ghost predicate Bounded(log: seq<LogEntry>, t: nat) {
    forall k | 0 <= k < |log| :: log[k].term <= t
  }

  ghost predicate Sound(log: seq<LogEntry>, t: nat, leaderLog: map<nat, seq<LogEntry>>) {
    Rooted(log, leaderLog) && Ordered(log) && Bounded(log, t)
  }

  ghost predicate InvShape(members: set<NodeId>, s: State, h: History) {
    s.servers.Keys == members && h.elections.Keys == h.leaderLog.Keys
  }

  ghost predicate InvLogs(s: State, h: History) {
    forall i | i in s.servers :: Sound(s.servers[i].log, s.servers[i].term, h.leaderLog)
  }

  /** A leader's log is its log at election time followed by entries of its own term only. */
  ghost predicate GrownFrom(start: seq<LogEntry>, log: seq<LogEntry>, t: nat) {
    && IsPrefix(start, log)
    && (forall k | 0 <= k < |start| :: start[k].term < t)
    && (forall k | |start| <= k < |log| :: log[k].term == t)
  }

  ghost predicate InvLeaderLogs(h: History) {
    forall t | t in h.leaderLog && t in h.elections ::
      Sound(h.leaderLog[t], t, h.leaderLog) && GrownFrom(h.elections[t].start, h.leaderLog[t], t)
  }

  ghost predicate LeaderKept(s: State, h: History, t: nat)
    requires t in h.elections
  {
    var l := h.elections[t].leader;
    && l in s.servers && t <= s.servers[l].term
    && (s.servers[l].term == t ==> t in h.leaderLog && s.servers[l].log == h.leaderLog[t])
  }

  ghost predicate InvLeaders(s: State, h: History) {
    && (forall t | t in h.elections :: LeaderKept(s, h, t))
    && (forall i | i in s.servers && s.servers[i].role == Leader ::
          s.servers[i].term in h.elections && h.elections[s.servers[i].term].leader == i)
  }

  ghost predicate AppendSound(p: Packet, h: History)
    requires p.msg.AppendEntries?
  {
    && p.msg.term in h.leaderLog && p.msg.term in h.elections
    && p.from == h.elections[p.msg.term].leader && p.to != p.from
    && IsPiece(h.leaderLog[p.msg.term], p.msg.prevIndex, p.msg.prevTerm, p.msg.entries)
  }

  ghost predicate InvAppends(net: set<Packet>, h: History) {
    forall p | p in net && p.msg.AppendEntries? :: AppendSound(p, h)
  }

  // ---------------------------------------------------------------- vote invariants

  ghost predicate VoteRecorded(i: NodeId, n: Server, h: History) {
    && (n.votedFor.None? ==> Slot(n.term, i) !in h.ballots)
    && (n.votedFor.Some? ==> Slot(n.term, i) in h.ballots
                             && h.ballots[Slot(n.term, i)].candidate == n.votedFor.value)
    && (n.role != Follower ==> n.votedFor == Some(i))
  }

  ghost predicate InvVotes(s: State, h: History) {
    forall i | i in s.servers :: VoteRecorded(i, s.servers[i], h)
  }

  ghost predicate InvBallots(s: State, h: History) {
    forall k | k in h.ballots ::
      && k.voter in s.servers && k.term <= s.servers[k.voter].term
      && h.ballots[k].candidate in s.servers && k.term <= s.servers[h.ballots[k].candidate].term
      && Sound(h.ballots[k].log, k.term, h.leaderLog)
  }

  ghost predicate InvGrants(net: set<Packet>, h: History) {
    forall p | p in net && p.msg.RequestVoteReply? && p.msg.granted ::
      && Slot(p.msg.term, p.from) in h.ballots
      && h.ballots[Slot(p.msg.term, p.from)].candidate == p.to && p.from != p.to
  }

  ghost predicate CandidateSound(i: NodeId, n: Server, h: History) {
    && (forall k | 0 <= k < |n.log| :: n.log[k].term < n.term)
    && (n.term in h.elections ==> h.elections[n.term].leader != i)
    && (forall v | v in n.votes :: v != i && Slot(n.term, v) in h.ballots
                                   && h.ballots[Slot(n.term, v)].candidate == i)
  }

  ghost predicate InvCandidates(s: State, h: History) {
    forall i | i in s.servers && s.servers[i].role == Candidate :: CandidateSound(i, s.servers[i], h)
  }

  ghost predicate RequestSound(s: State, p: Packet)
    requires p.msg.RequestVote?
  {
    && p.msg.candidate == p.from && p.from in s.servers && p.from != p.to
    && p.msg.term <= s.servers[p.from].term
    && (s.servers[p.from].term == p.msg.term && s.servers[p.from].role == Candidate ==>
          p.msg.lastIndex == |s.servers[p.from].log| && p.msg.lastTerm == LastTerm(s.servers[p.from].log))
  }

  ghost predicate InvRequests(s: State) {
    forall p | p in s.net && p.msg.RequestVote? :: RequestSound(s, p)
  }

  /** A running candidate is at least as up to date as everyone who voted for it. */
  ghost predicate InvUpToDate(s: State, h: History) {
    forall k | k in h.ballots && h.ballots[k].candidate in s.servers ::
      var c := s.servers[h.ballots[k].candidate];
      c.term == k.term && c.role == Candidate ==> UpToDate(|c.log|, LastTerm(c.log), h.ballots[k].log)
  }

  ghost predicate ElectionSound(members: set<NodeId>, t: nat, e: Election, ballots: map<Slot, Ballot>) {
    && IsQuorum(e.voters, members)
    && forall v | v in e.voters ::
         && Slot(t, v) in ballots && ballots[Slot(t, v)].candidate == e.leader
         && UpToDate(|e.start|, LastTerm(e.start), ballots[Slot(t, v)].log)
  }

  ghost predicate InvElections(members: set<NodeId>, h: History) {
    forall t | t in h.elections :: ElectionSound(members, t, h.elections[t], h.ballots)
  }

  // ---------------------------------------------------------------- storage invariants

  ghost predicate CopySound(s: State, h: History, c: Copy) {
    && c.node in s.servers && c.term <= s.servers[c.node].term
    && c.term in h.leaderLog && 1 <= c.index <= |h.leaderLog[c.term]|
    && h.leaderLog[c.term][c.index - 1].term == c.term
  }

  ghost predicate InvStored(s: State, h: History) {
    forall c | c in h.stored :: CopySound(s, h, c)
  }

  ghost predicate InvCovered(s: State, h: History) {
    forall i, k | i in s.servers && 0 <= k < |s.servers[i].log| ::
      s.servers[i].log[k].term == s.servers[i].term ==> Copy(i, s.servers[i].term, k + 1) in h.stored
  }

  /** The stretch of log the copy `c` stands for. */
  ghost function Stretch(h: History, c: Copy): seq<LogEntry> {
    if c.term in h.leaderLog && c.index <= |h.leaderLog[c.term]| then h.leaderLog[c.term][..c.index] else []
  }

  ghost predicate Lost(h: History, c: Copy, u: nat) {
    u in h.elections && !IsPrefix(Stretch(h, c), h.elections[u].start)
  }

  /** `log` still has what `c` stored, or a leader of a term in (c.term, bound] lacked it. */
  ghost predicate Kept(h: History, c: Copy, log: seq<LogEntry>, bound: int) {
    IsPrefix(Stretch(h, c), log) || exists u :: c.term < u <= bound && Lost(h, c, u)
  }

  ghost predicate InvHeld(s: State, h: History) {
    forall c | c in h.stored && c.node in s.servers ::
      Kept(h, c, s.servers[c.node].log, s.servers[c.node].term)
  }

  ghost predicate InvBallotHeld(h: History) {
    forall c, k | c in h.stored && k in h.ballots ::
      k.voter == c.node && c.term < k.term ==> Kept(h, c, h.ballots[k].log, k.term)
  }

  ghost predicate InvElectionHeld(h: History) {
    forall c, t | c in h.stored && t in h.elections ::
      c.node in h.elections[t].voters && c.term < t && Slot(t, c.node) in h.ballots ==>
        Kept(h, c, h.ballots[Slot(t, c.node)].log, t - 1)
  }

  /** The inductive invariant of the protocol. */
  ghost predicate Inv(members: set<NodeId>, s: State, h: History) {
    && InvShape(members, s, h)
    && InvLogs(s, h) && InvLeaderLogs(h) && InvLeaders(s, h) && InvAppends(s.net, h)
    && InvVotes(s, h) && InvBallots(s, h) && InvGrants(s.net, h) && InvCandidates(s, h)
    && InvRequests(s) && InvUpToDate(s, h) && InvElections(members, h)
    && InvStored(s, h) && InvCovered(s, h)
    && InvHeld(s, h) && InvBallotHeld(h) && InvElectionHeld(h)
  }
}
