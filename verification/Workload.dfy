/**
  The closed-loop clients (src/harness/workload.cpp) that produce the history the checker reads: one
  outstanding operation per client, completed by a reply or by a timer.
*/
module Workload {
  import opened RaftTypes
  import opened Checker
  import opened History
  import Locality

  const CLIENT_BASE: nat := 100

  datatype Config = Config(nodes: seq<NodeId>, totalOps: nat)

  datatype Client = Client(leader: NodeId, nextRequest: nat, waiting: bool, handle: nat, timer: nat)

  /** `timers` maps the live timeouts to their clients; `armed[h]` is the timer set for entry `h`. */
  datatype World = World(clients: seq<Client>, issued: nat, completed: nat, pending: int, history: seq<HistoryEntry>,
                         clock: nat, nextTimer: nat, timers: map<nat, nat>, armed: seq<nat>)

  /** What an operation is about. */
  datatype Request = Request(kind: OpKind, key: string, value: string, expected: string)

  // ---------------------------------------------------------------- the callbacks

  function Rotate(nodes: seq<NodeId>, current: NodeId): NodeId {
    if nodes == [] then current else if nodes[0] != current then nodes[0] else Rotate(nodes[1..], current)
  }

  function Issue(c: Config, w: World, ci: nat, r: Request): World
    requires ci < |w.clients|
  {
    var cs := w.clients[ci];
    if w.issued >= c.totalOps || cs.waiting then w
    else
      w.(clients := w.clients[ci := cs.(nextRequest := cs.nextRequest + 1, waiting := true, handle := |w.history|,
                                        timer := w.nextTimer)],
         issued := w.issued + 1, pending := w.pending + 1,
         history := w.history + [Invoked(CLIENT_BASE + ci, cs.nextRequest, r.kind, r.key, w.clock, r.value, r.expected)],
         nextTimer := w.nextTimer + 1, timers := w.timers[w.nextTimer := ci], armed := w.armed + [w.nextTimer])
  }

  predicate HandlesOk(w: World) {
    forall ci | 0 <= ci < |w.clients| && w.clients[ci].waiting :: w.clients[ci].handle < |w.history|
  }

  /** The entry of client `ci` gets its return, and the client its next believed leader. */
  function Complete(w: World, ci: nat, ok: bool, response: string, leader: NodeId, timers: map<nat, nat>): World
    requires ci < |w.clients| && w.clients[ci].handle < |w.history|
  {
    var cs := w.clients[ci];
    w.(clients := w.clients[ci := cs.(waiting := false, leader := leader)],
       completed := w.completed + 1, pending := w.pending - 1,
       history := w.history[cs.handle := Returned(w.history[cs.handle], w.clock, ok, response)],
       timers := timers)
  }

  function Response(kind: OpKind, r: CmdResult): string {
    match kind
    case OpGet => r.value
    case OpPut => if r.ok then "ok" else r.error
    case OpCas => if r.ok then "ok" else "cas_mismatch"
  }

  predicate Fresh(cs: Client, m: Message) { cs.waiting && m.ClientReply? && m.requestId == cs.nextRequest - 1 }

  function Reply(c: Config, w: World, ci: nat, m: Message): World
    requires ci < |w.clients| && HandlesOk(w)
  {
    var cs := w.clients[ci];
    if !Fresh(cs, m) then w
    else
      var hinted := m.leaderHint != 0;
      if !m.success then
        Complete(w, ci, false, "not_leader", if hinted then m.leaderHint else Rotate(c.nodes, cs.leader), w.timers - {cs.timer})
      else
        Complete(w, ci, m.result.ok, Response(w.history[cs.handle].kind, m.result),
                 if hinted then m.leaderHint else cs.leader, w.timers - {cs.timer})
  }

  function Timeout(c: Config, w: World, ci: nat): World
    requires ci < |w.clients| && HandlesOk(w)
  {
    var cs := w.clients[ci];
    if !cs.waiting then w else Complete(w, ci, false, "timeout", Rotate(c.nodes, cs.leader), w.timers)
  }

  // ---------------------------------------------------------------- runs

  /** Time passes and other parts of the simulation use up ids; replies come in any order, any number of times. */
  datatype Step =
    | Start(ci: nat, request: Request)
    | Deliver(ci: nat, msg: Message)
    | Fire(timer: nat)
    | Tick(clock: nat, nextTimer: nat)

  predicate Enabled(w: World, step: Step) {
    && HandlesOk(w)
    && match step
       case Start(ci, _) => ci < |w.clients|
       case Deliver(ci, _) => ci < |w.clients|
       case Fire(timer) => timer in w.timers && w.timers[timer] < |w.clients|
       case Tick(clock, nextTimer) => w.clock <= clock && w.nextTimer <= nextTimer
  }

  function Take(c: Config, w: World, step: Step): World
    requires Enabled(w, step)
  {
    match step
    case Start(ci, request) => Issue(c, w, ci, request)
    case Deliver(ci, m) => Reply(c, w, ci, m)
    case Fire(timer) => Timeout(c, w.(timers := w.timers - {timer}), w.timers[timer])
    case Tick(clock, nextTimer) => w.(clock := clock, nextTimer := nextTimer)
  }

  /** The worlds along a run. */
  ghost predicate IsRun(c: Config, ws: seq<World>, steps: seq<Step>) {
    && |ws| == |steps| + 1
    && forall i | 0 <= i < |steps| :: Enabled(ws[i], steps[i]) && ws[i + 1] == Take(c, ws[i], steps[i])
  }

  ghost predicate Init(w: World) {
    && w.issued == 0 && w.completed == 0 && w.pending == 0 && w.history == [] && w.timers == map[] && w.armed == []
    && forall ci | 0 <= ci < |w.clients| :: !w.clients[ci].waiting
  }

  // ---------------------------------------------------------------- the invariant

  function CountWaiting(cs: seq<Client>): nat {
    if cs == [] then 0 else CountWaiting(cs[..|cs| - 1]) + if cs[|cs| - 1].waiting then 1 else 0
  }

  /** A waiting client's entry is its own and open; an open entry belongs to a client that waits for it. */
  ghost predicate Owned(cs: seq<Client>, h: seq<HistoryEntry>) {
    && (forall ci | 0 <= ci < |cs| && cs[ci].waiting ::
          && cs[ci].handle < |h| && cs[ci].nextRequest >= 1
          && h[cs[ci].handle].pending && h[cs[ci].handle].clientId == CLIENT_BASE + ci
          && h[cs[ci].handle].requestId == cs[ci].nextRequest - 1)
    && (forall k | 0 <= k < |h| ::
          var ci := h[k].clientId - CLIENT_BASE;
          && 0 <= ci < |cs| && h[k].requestId < cs[ci].nextRequest
          && (h[k].pending ==> cs[ci].waiting && cs[ci].handle == k))
  }

  /** Operations end after they start, and one client's operations do not overlap. */
  ghost predicate Ordered(h: seq<HistoryEntry>, clock: nat) {
    && (forall k | 0 <= k < |h| :: h[k].invoke <= clock && (!h[k].pending ==> h[k].invoke <= h[k].ret <= clock))
    && (forall j, k | 0 <= j < k < |h| && h[j].clientId == h[k].clientId ::
          !h[j].pending && h[j].ret <= h[k].invoke && h[j].requestId < h[k].requestId)
  }

  /** The live timers are exactly those of the waiting clients. */
  ghost predicate TimersOk(cs: seq<Client>, timers: map<nat, nat>, armed: seq<nat>, nextTimer: nat) {
    && (forall ci | 0 <= ci < |cs| && cs[ci].waiting ::
          && cs[ci].timer in timers && timers[cs[ci].timer] == ci
          && cs[ci].handle < |armed| && armed[cs[ci].handle] == cs[ci].timer)
    && (forall t | t in timers ::
          t < nextTimer && timers[t] < |cs| && cs[timers[t]].waiting && cs[timers[t]].timer == t)
  }

  ghost predicate Balanced(c: Config, w: World) {
    && w.issued == w.completed + w.pending && w.pending == CountWaiting(w.clients)
    && |w.history| == w.issued == |w.armed| && w.issued <= c.totalOps
  }

  ghost predicate Inv(c: Config, w: World) {
    && Owned(w.clients, w.history)
    && Ordered(w.history, w.clock)
    && TimersOk(w.clients, w.timers, w.armed, w.nextTimer)
    && Balanced(c, w)
  }

  lemma {:induction false} CountUpdate(cs: seq<Client>, i: nat, c: Client)
    requires i < |cs|
    ensures CountWaiting(cs[i := c]) + (if cs[i].waiting then 1 else 0) == CountWaiting(cs) + if c.waiting then 1 else 0
  {
    var n := |cs| - 1;
    if i < n {
      CountUpdate(cs[..n], i, c);
      assert cs[i := c][..n] == cs[..n][i := c];
    } else {
      assert cs[i := c][..n] == cs[..n];
    }
  }

  lemma IssueOwned(cs: seq<Client>, h: seq<HistoryEntry>, ci: nat, b: Client, e: HistoryEntry)
    requires Owned(cs, h) && ci < |cs| && !cs[ci].waiting
    requires b.waiting && b.handle == |h| && b.nextRequest == cs[ci].nextRequest + 1
    requires e.pending && e.clientId == CLIENT_BASE + ci && e.requestId == cs[ci].nextRequest
    ensures Owned(cs[ci := b], h + [e])
  {
  }

  lemma IssueOrdered(cs: seq<Client>, h: seq<HistoryEntry>, clock: nat, ci: nat, e: HistoryEntry)
    requires Owned(cs, h) && Ordered(h, clock) && ci < |cs| && !cs[ci].waiting
    requires e.pending && e.clientId == CLIENT_BASE + ci && e.requestId == cs[ci].nextRequest && e.invoke == clock
    ensures Ordered(h + [e], clock)
  {
  }

  lemma IssueTimers(cs: seq<Client>, timers: map<nat, nat>, armed: seq<nat>, nextTimer: nat, ci: nat, b: Client)
    requires TimersOk(cs, timers, armed, nextTimer) && ci < |cs| && !cs[ci].waiting
    requires b.waiting && b.handle == |armed| && b.timer == nextTimer
    ensures TimersOk(cs[ci := b], timers[nextTimer := ci], armed + [nextTimer], nextTimer + 1)
  {
  }

  lemma IssueKeeps(c: Config, w: World, ci: nat, r: Request)
    requires Inv(c, w) && ci < |w.clients|
    ensures Inv(c, Issue(c, w, ci, r))
  {
    hide CountWaiting, Owned, Ordered, TimersOk;
    var cs, w' := w.clients[ci], Issue(c, w, ci, r);
    if w.issued < c.totalOps && !cs.waiting {
      var b, e := w'.clients[ci], w'.history[|w.history|];
      CountUpdate(w.clients, ci, b);
      IssueOwned(w.clients, w.history, ci, b, e);
      IssueOrdered(w.clients, w.history, w.clock, ci, e);
      IssueTimers(w.clients, w.timers, w.armed, w.nextTimer, ci, b);
    }
  }

  lemma CompleteOwned(cs: seq<Client>, h: seq<HistoryEntry>, ci: nat, b: Client, e: HistoryEntry)
    requires Owned(cs, h) && ci < |cs| && cs[ci].waiting && cs[ci].handle < |h|
    requires !b.waiting && b.nextRequest == cs[ci].nextRequest
    requires !e.pending && e.clientId == h[cs[ci].handle].clientId && e.requestId == h[cs[ci].handle].requestId
    ensures Owned(cs[ci := b], h[cs[ci].handle := e])
  {
  }

  lemma CompleteOrdered(h: seq<HistoryEntry>, clock: nat, k: nat, e: HistoryEntry)
    requires Ordered(h, clock) && k < |h| && h[k].pending
    requires e == Returned(h[k], clock, e.ok, e.response)
    ensures Ordered(h[k := e], clock)
  {
  }

  lemma CompleteTimers(cs: seq<Client>, timers: map<nat, nat>, armed: seq<nat>, nextTimer: nat, ci: nat, b: Client)
    requires TimersOk(cs, timers, armed, nextTimer) && ci < |cs| && cs[ci].waiting && !b.waiting
    ensures TimersOk(cs[ci := b], timers - {cs[ci].timer}, armed, nextTimer)
  {
  }

  lemma CompleteKeeps(c: Config, w: World, ci: nat, ok: bool, response: string, leader: NodeId)
    requires Inv(c, w) && ci < |w.clients| && w.clients[ci].waiting && w.clients[ci].handle < |w.history|
    ensures Inv(c, Complete(w, ci, ok, response, leader, w.timers - {w.clients[ci].timer}))
  {
    hide CountWaiting, Ordered, TimersOk, Owned;
    var cs, w' := w.clients[ci], Complete(w, ci, ok, response, leader, w.timers - {w.clients[ci].timer});
    var b, e := w'.clients[ci], w'.history[cs.handle];
    CountUpdate(w.clients, ci, b);
    OpenEntry(w.clients, w.history, ci);
    CompleteOwned(w.clients, w.history, ci, b, e);
    CompleteOrdered(w.history, w.clock, cs.handle, e);
    CompleteTimers(w.clients, w.timers, w.armed, w.nextTimer, ci, b);
  }

  lemma OpenEntry(cs: seq<Client>, h: seq<HistoryEntry>, ci: nat)
    requires Owned(cs, h) && ci < |cs| && cs[ci].waiting
    ensures cs[ci].handle < |h| && h[cs[ci].handle].pending
  {
  }

  lemma TakeKeeps(c: Config, w: World, step: Step)
    requires Inv(c, w) && Enabled(w, step)
    ensures Inv(c, Take(c, w, step))
  {
    hide Owned, Ordered, TimersOk, Balanced, Issue, Complete;
    match step
    case Start(ci, request) => IssueKeeps(c, w, ci, request);
    case Deliver(ci, m) =>
      if Fresh(w.clients[ci], m) {
        var cs := w.clients[ci];
        if m.success {
          CompleteKeeps(c, w, ci, m.result.ok, Response(w.history[cs.handle].kind, m.result),
                        if m.leaderHint != 0 then m.leaderHint else cs.leader);
        } else {
          CompleteKeeps(c, w, ci, false, "not_leader", if m.leaderHint != 0 then m.leaderHint else Rotate(c.nodes, cs.leader));
        }
      }
    case Fire(timer) =>
      var ci := w.timers[timer];
      TimerOwner(w.clients, w.timers, w.armed, w.nextTimer, timer);
      CompleteKeeps(c, w, ci, false, "timeout", Rotate(c.nodes, w.clients[ci].leader));
      FiredFirst(w, ci, "timeout", Rotate(c.nodes, w.clients[ci].leader));
    case Tick(clock, nextTimer) => TickKeeps(c, w, clock, nextTimer);
  }

  lemma TimerOwner(cs: seq<Client>, timers: map<nat, nat>, armed: seq<nat>, nextTimer: nat, t: nat)
    requires TimersOk(cs, timers, armed, nextTimer) && t in timers
    ensures timers[t] < |cs| && cs[timers[t]].waiting && cs[timers[t]].timer == t
    ensures cs[timers[t]].handle < |armed| && armed[cs[timers[t]].handle] == t
  {
  }

  /** Taking the fired timer off the queue first makes no difference. */
  lemma FiredFirst(w: World, ci: nat, response: string, leader: NodeId)
    requires ci < |w.clients| && w.clients[ci].handle < |w.history|
    ensures var t := w.timers - {w.clients[ci].timer};
            Complete(w.(timers := t), ci, false, response, leader, t) == Complete(w, ci, false, response, leader, t)
  {
  }

  lemma TickKeeps(c: Config, w: World, clock: nat, nextTimer: nat)
    requires Inv(c, w) && w.clock <= clock && w.nextTimer <= nextTimer
    ensures Inv(c, w.(clock := clock, nextTimer := nextTimer))
  {
  }

  // ---------------------------------------------------------------- what holds over every run

  lemma {:induction false} RunKeeps(c: Config, ws: seq<World>, steps: seq<Step>, i: nat)
    requires IsRun(c, ws, steps) && Init(ws[0]) && i < |ws|
    ensures Inv(c, ws[i])
    decreases i
  {
    hide Enabled, Take;
    if i == 0 {
      assert ws[0].clients == [] || !ws[0].clients[0].waiting;
      NoneWaiting(ws[0].clients);
    } else {
      RunKeeps(c, ws, steps, i - 1);
      TakeKeeps(c, ws[i - 1], steps[i - 1]);
    }
  }

  lemma {:induction false} NoneWaiting(cs: seq<Client>)
    ensures CountWaiting(cs) == 0 <==> forall ci | 0 <= ci < |cs| :: !cs[ci].waiting
  {
    if cs != [] {
      var n := |cs| - 1;
      NoneWaiting(cs[..n]);
      assert cs == cs[..n] + [cs[n]];
    }
  }

  predicate Done(c: Config, w: World) { w.issued >= c.totalOps && w.pending == 0 }

  /** The counters balance, the history is one a checker may trust, and at the end nothing is left open. */
  lemma Conservation(c: Config, ws: seq<World>, steps: seq<Step>, i: nat)
    requires IsRun(c, ws, steps) && Init(ws[0]) && i < |ws|
    ensures ws[i].issued == ws[i].completed + ws[i].pending && ws[i].pending == CountWaiting(ws[i].clients)
    ensures |ws[i].history| == ws[i].issued <= c.totalOps
    ensures Locality.Timed(ws[i].history)
    ensures Done(c, ws[i]) ==>
              |ws[i].history| == c.totalOps && forall k | 0 <= k < |ws[i].history| :: !ws[i].history[k].pending
  {
    hide Enabled, Take, CountWaiting;
    RunKeeps(c, ws, steps, i);
    NoneWaiting(ws[i].clients);
  }

  /** Of two operations of one client, the earlier has returned before the later starts. */
  lemma NoOverlap(c: Config, ws: seq<World>, steps: seq<Step>, i: nat, j: nat, k: nat)
    requires IsRun(c, ws, steps) && Init(ws[0]) && i < |ws| && j < k < |ws[i].history|
    requires ws[i].history[j].clientId == ws[i].history[k].clientId
    ensures var a, b := ws[i].history[j], ws[i].history[k];
            !a.pending && a.invoke <= a.ret <= b.invoke && a.requestId != b.requestId
  {
    hide Enabled, Take, CountWaiting;
    RunKeeps(c, ws, steps, i);
  }

  /** What one step may do to entry `k`: nothing, or close it on its own reply or its own timeout. */
  ghost predicate Closes(w: World, step: Step, k: nat)
    requires k < |w.history|
  {
    && w.history[k].pending
    && match step
       case Deliver(ci, m) =>
         w.history[k].clientId == CLIENT_BASE + ci && m.ClientReply? && m.requestId == w.history[k].requestId
       case Fire(timer) => k < |w.armed| && w.armed[k] == timer
       case _ => false
  }

  lemma TakeCloses(c: Config, w: World, step: Step, k: nat)
    requires Inv(c, w) && Enabled(w, step) && k < |w.history|
    ensures var h, h' := w.history, Take(c, w, step).history;
            && |h| <= |h'|
            && (h'[k] == h[k]
                || (Closes(w, step, k) && h'[k] == Returned(h[k], w.clock, h'[k].ok, h'[k].response)))
  {
    hide CountWaiting, Ordered, Balanced;
    match step
    case Start(ci, request) =>
    case Deliver(ci, m) =>
    case Fire(timer) => TimerOwner(w.clients, w.timers, w.armed, w.nextTimer, timer);
    case Tick(clock, nextTimer) =>
  }

  /** An entry that has returned never changes again. */
  lemma {:induction false} CompletedOnce(c: Config, ws: seq<World>, steps: seq<Step>, i: nat, j: nat, k: nat)
    requires IsRun(c, ws, steps) && Init(ws[0]) && i <= j < |ws| && k < |ws[i].history| && !ws[i].history[k].pending
    ensures k < |ws[j].history| && ws[j].history[k] == ws[i].history[k]
    decreases j
  {
    hide Enabled, Take;
    if i < j {
      CompletedOnce(c, ws, steps, i, j - 1, k);
      RunKeeps(c, ws, steps, j - 1);
      TakeCloses(c, ws[j - 1], steps[j - 1], k);
    }
  }

  // ---------------------------------------------------------------- whom a client turns to

  /** `leader` is the first of the nodes that is not `current`; with no such node it stays. */
  ghost predicate TurnsFrom(nodes: seq<NodeId>, current: NodeId, leader: NodeId) {
    if forall k | 0 <= k < |nodes| :: nodes[k] == current then leader == current
    else leader != current && exists k :: 0 <= k < |nodes| && nodes[k] == leader && forall j | 0 <= j < k :: nodes[j] == current
  }

  lemma {:induction false} RotateTurns(nodes: seq<NodeId>, current: NodeId)
    ensures TurnsFrom(nodes, current, Rotate(nodes, current))
    decreases |nodes|
  {
    if nodes != [] {
      if nodes[0] == current {
        var rest := nodes[1..];
        RotateTurns(rest, current);
        if !(forall k | 0 <= k < |rest| :: rest[k] == current) {
          var k :| 0 <= k < |rest| && rest[k] == Rotate(nodes, current) && forall j | 0 <= j < k :: rest[j] == current;
          assert nodes[k + 1] == Rotate(nodes, current);
          forall j | 0 <= j < k + 1 ensures nodes[j] == current { if j > 0 { assert nodes[j] == rest[j - 1]; } }
        } else {
          forall j | 0 <= j < |nodes| ensures nodes[j] == current { if j > 0 { assert nodes[j] == rest[j - 1]; } }
        }
      } else {
        assert nodes[0] == Rotate(nodes, current);
      }
    }
  }

  /** The step ends the operation that client `ci` waits for. */
  predicate Ends(w: World, step: Step, ci: nat) {
    && ci < |w.clients| && w.clients[ci].waiting
    && match step
       case Deliver(cj, m) => cj == ci && m.ClientReply? && m.requestId == w.clients[ci].nextRequest - 1
       case Fire(timer) => timer in w.timers && w.timers[timer] == ci
       case _ => false
  }

  /** A client changes its mind only when an operation ends: on a hint it believes the hint, on a refusal
      without one or on a timeout it turns to the next node, and otherwise it stays. */
  lemma Belief(c: Config, w: World, step: Step, ci: nat)
    requires Enabled(w, step) && ci < |w.clients|
    ensures var w' := Take(c, w, step);
            && |w'.clients| == |w.clients|
            && var was, now := w.clients[ci].leader, w'.clients[ci].leader;
            if !Ends(w, step, ci) then now == was
            else if step.Deliver? && step.msg.leaderHint != 0 then now == step.msg.leaderHint
            else if step.Deliver? && step.msg.success then now == was
            else TurnsFrom(c.nodes, was, now)
  {
    RotateTurns(c.nodes, w.clients[ci].leader);
  }

  /** The request that an idle client sends: to the node it believes in, under its next id, with the command
      it records. */
  function Sent(c: Config, w: World, ci: nat, r: Request): Option<Packet>
    requires ci < |w.clients|
  {
    var cs := w.clients[ci];
    if w.issued >= c.totalOps || cs.waiting then None
    else
      var cmd := match r.kind
                 case OpPut => Put(r.key, r.value)
                 case OpGet => Get(r.key)
                 case OpCas => Cas(r.key, r.expected, r.value);
      Some(Packet(CLIENT_BASE + ci, cs.leader, ClientRequest(CLIENT_BASE + ci, cs.nextRequest, cmd)))
  }

  /** Over any stretch of a run in which none of its operations ends, a client believes in the same node. */
  lemma {:induction false} BeliefKept(c: Config, ws: seq<World>, steps: seq<Step>, a: nat, b: nat, ci: nat)
    requires IsRun(c, ws, steps) && a <= b < |ws| && ci < |ws[a].clients|
    requires forall k | a <= k < b :: !Ends(ws[k], steps[k], ci)
    ensures ci < |ws[b].clients| && ws[b].clients[ci].leader == ws[a].clients[ci].leader
    decreases b
  {
    hide Take, Enabled, Ends;
    if a < b {
      BeliefKept(c, ws, steps, a, b - 1, ci);
      assert Enabled(ws[b - 1], steps[b - 1]) && ws[b - 1 + 1] == Take(c, ws[b - 1], steps[b - 1]);
      Belief(c, ws[b - 1], steps[b - 1], ci);
    }
  }

  /** In every run: after a timeout, or a refusal without a hint, the client's next request goes to the first
      node other than the one it had asked, if there is one; after a hint it goes to the hint. */
  lemma NextRequestGoes(c: Config, ws: seq<World>, steps: seq<Step>, a: nat, b: nat, ci: nat, r: Request)
    requires IsRun(c, ws, steps) && a < b < |ws| && ci < |ws[a].clients| && Ends(ws[a], steps[a], ci)
    requires forall k | a < k < b :: !Ends(ws[k], steps[k], ci)
    ensures ci < |ws[b].clients|
    ensures var sent, was := Sent(c, ws[b], ci, r), ws[a].clients[ci].leader;
            sent.Some? ==>
              if steps[a].Deliver? && steps[a].msg.leaderHint != 0 then sent.value.to == steps[a].msg.leaderHint
              else if steps[a].Deliver? && steps[a].msg.success then sent.value.to == was
              else TurnsFrom(c.nodes, was, sent.value.to)
  {
    hide Take, Enabled, Ends, TurnsFrom;
    assert Enabled(ws[a], steps[a]) && ws[a + 1] == Take(c, ws[a], steps[a]);
    Belief(c, ws[a], steps[a], ci);
    BeliefKept(c, ws, steps, a + 1, b, ci);
  }

  /** What is recorded when an operation ends: its return time, and for a reply of the leader the value read, or
      whether the write took effect. */
  lemma EndIsRecorded(c: Config, w: World, step: Step, ci: nat)
    requires Inv(c, w) && Enabled(w, step) && Ends(w, step, ci)
    ensures var w', k := Take(c, w, step), w.clients[ci].handle;
            && k < |w.history| == |w'.history| && (forall j | 0 <= j < |w.history| && j != k :: w'.history[j] == w.history[j])
            && var e, was := w'.history[k], w.history[k];
            && e == was.(ret := w.clock, pending := false, ok := e.ok, response := e.response)
            && if step.Fire? then !e.ok && e.response == "timeout"
               else if !step.msg.success then !e.ok && e.response == "not_leader"
               else
                 && e.ok == step.msg.result.ok
                 && (was.kind == OpGet ==> e.response == step.msg.result.value)
                 && (was.kind != OpGet && e.ok ==> e.response == "ok")
                 && (was.kind == OpPut && !e.ok ==> e.response == step.msg.result.error)
                 && (was.kind == OpCas && !e.ok ==> e.response == "cas_mismatch")
  {
    hide CountWaiting, Balanced, Ordered;
  }

  // ---------------------------------------------------------------- the object

  class Workload {
    const c: Config
    var clients: seq<Client>
    var issued: nat
    var completed: nat
    var pending: int
    var history: seq<HistoryEntry>
    var clock: nat
    var nextTimer: nat
    var timers: map<nat, nat>
    var armed: seq<nat>

    function State(): World
      reads this
    {
      World(clients, issued, completed, pending, history, clock, nextTimer, timers, armed)
    }

    /** Every client starts out believing in the first node. */
    constructor (c: Config, numClients: nat)
      requires c.nodes != []
      ensures this.c == c && |clients| == numClients && Init(State())
      ensures forall ci | 0 <= ci < numClients :: clients[ci].leader == c.nodes[0] && clients[ci].nextRequest == 0
    {
      this.c := c;
      clients := seq(numClients, _ => Client(c.nodes[0], 0, false, 0, 0));
      issued, completed, pending, history := 0, 0, 0, [];
      clock, nextTimer, timers, armed := 0, 0, map[], [];
    }

    method RecordReturn(handle: nat, now: nat, ok: bool, response: string)
      requires handle < |history|
      modifies this`history
      ensures history == old(history)[handle := Returned(old(history)[handle], now, ok, response)]
    {
      history := history[handle := history[handle].(ret := now, ok := ok, response := response, pending := false)];
    }

    method IssueOp(ci: nat, r: Request) returns (sent: Option<Packet>)
      requires ci < |clients|
      modifies this
      ensures State() == Issue(c, old(State()), ci, r)
      ensures sent == Sent(c, old(State()), ci, r)
      ensures sent.Some? ==> |history| == old(|history|) + 1 && sent.value.msg.cmd == Locality.CommandOf(history[old(|history|)])
    {
      if issued >= c.totalOps { return None; }
      var cs := clients[ci];
      if cs.waiting { return None; }
      issued := issued + 1;
      pending := pending + 1;
      var request := cs.nextRequest;
      var e := Invoked(CLIENT_BASE + ci, request, r.kind, r.key, clock, r.value, r.expected);
      history := history + [e];
      sent := Some(Packet(CLIENT_BASE + ci, cs.leader, ClientRequest(CLIENT_BASE + ci, request, Locality.CommandOf(e))));
      timers := timers[nextTimer := ci];
      armed := armed + [nextTimer];
      clients := clients[ci := cs.(waiting := true, nextRequest := request + 1, handle := |history| - 1, timer := nextTimer)];
      nextTimer := nextTimer + 1;
    }

    /** The first node other than the believed leader. */
    method NextLeader(current: NodeId) returns (leader: NodeId)
      ensures leader == Rotate(c.nodes, current) && TurnsFrom(c.nodes, current, leader)
    {
      RotateTurns(c.nodes, current);
      var i := 0;
      assert c.nodes[0..] == c.nodes;
      while i < |c.nodes|
        invariant 0 <= i <= |c.nodes| && Rotate(c.nodes, current) == Rotate(c.nodes[i..], current)
      {
        assert c.nodes[i..][1..] == c.nodes[i + 1..];
        if c.nodes[i] != current { return c.nodes[i]; }
        i := i + 1;
      }
      return current;
    }

    method OnReply(ci: nat, m: Message)
      requires ci < |clients| && HandlesOk(State())
      modifies this
      ensures State() == Reply(c, old(State()), ci, m)
    {
      var cs := clients[ci];
      if !cs.waiting { return; }
      if !m.ClientReply? { return; }
      if m.requestId != cs.nextRequest - 1 { return; }
      timers := timers - {cs.timer};
      pending := pending - 1;
      var leader := cs.leader;
      if !m.success {
        RecordReturn(cs.handle, clock, false, "not_leader");
        if m.leaderHint != 0 { leader := m.leaderHint; } else { leader := NextLeader(cs.leader); }
      } else {
        RecordReturn(cs.handle, clock, m.result.ok, Response(history[cs.handle].kind, m.result));
        if m.leaderHint != 0 { leader := m.leaderHint; }
      }
      clients := clients[ci := cs.(waiting := false, leader := leader)];
      completed := completed + 1;
    }

    method OnTimeout(ci: nat)
      requires ci < |clients| && HandlesOk(State())
      modifies this
      ensures State() == Timeout(c, old(State()), ci)
    {
      var cs := clients[ci];
      if !cs.waiting { return; }
      pending := pending - 1;
      RecordReturn(cs.handle, clock, false, "timeout");
      completed := completed + 1;
      var leader := NextLeader(cs.leader);
      clients := clients[ci := cs.(waiting := false, leader := leader)];
    }
  }
}
