/**
  The simulator's event queue and run loop (src/sim/event_queue.cpp, src/sim/simulator.cpp). What a fired
  action does to the simulator, the calls it makes, is a parameter of each step.
*/
module EventLoop {
  /** `id` is the source's seq: the tie-breaker and the id used for cancelling. */
  datatype Event = Event(time: nat, id: nat)

  predicate Before(a: Event, b: Event) { a.time < b.time || (a.time == b.time && a.id < b.id) }

  datatype Call = Schedule(delay: nat) | Cancel(id: nat)

  /** `fired` lists the events whose action ran: what the trace fingerprint digests. */
  datatype Sim = Sim(clock: nat, nextSeq: nat, heap: set<Event>, cancelled: set<nat>, fired: seq<Event>)

  const FRESH := Sim(0, 0, {}, {}, [])

  function Do(s: Sim, call: Call): Sim {
    match call
    case Schedule(delay) => s.(nextSeq := s.nextSeq + 1, heap := s.heap + {Event(s.clock + delay, s.nextSeq)})
    case Cancel(id) => s.(cancelled := s.cancelled + {id})
  }

  function DoAll(s: Sim, calls: seq<Call>): Sim
    decreases |calls|
  {
    if calls == [] then s else DoAll(Do(s, calls[0]), calls[1..])
  }

  ghost predicate IsMin(e: Event, heap: set<Event>) {
    e in heap && forall f | f in heap :: f == e || Before(e, f)
  }

  /** Take `e` off the queue; its action runs unless it was cancelled. */
  function Process(s: Sim, e: Event, calls: seq<Call>): Sim {
    var popped := s.(clock := e.time, heap := s.heap - {e}, cancelled := s.cancelled - {e.id});
    if e.id in s.cancelled then popped else DoAll(popped.(fired := s.fired + [e]), calls)
  }

  lemma {:induction false} MinExists(heap: set<Event>) returns (e: Event)
    requires heap != {}
    ensures IsMin(e, heap)
    decreases |heap|
  {
    var f :| f in heap;
    if heap - {f} == {} {
      e := f;
    } else {
      e := MinExists(heap - {f});
      if Before(f, e) { e := f; }
    }
    forall g | g in heap ensures g == e || Before(e, g) {
      if g != f { assert g in heap - {f}; }
    }
  }

  // ---------------------------------------------------------------- runs

  /** A call from outside the loop, one pass of the loop, or the end of `run_for` at a deadline. */
  datatype Step = Outside(call: Call) | One(e: Event, calls: seq<Call>) | Settle(deadline: nat)

  ghost predicate Enabled(s: Sim, step: Step) {
    match step
    case Outside(_) => true
    case One(e, _) => IsMin(e, s.heap)
    case Settle(deadline) => s.clock <= deadline && forall e | e in s.heap :: deadline < e.time
  }

  function Take(s: Sim, step: Step): Sim {
    match step
    case Outside(call) => Do(s, call)
    case One(e, calls) => Process(s, e, calls)
    case Settle(deadline) => s.(clock := deadline)
  }

  ghost predicate IsRun(s: Sim, steps: seq<Step>)
    decreases |steps|
  {
    steps == [] || (Enabled(s, steps[0]) && IsRun(Take(s, steps[0]), steps[1..]))
  }

  function Run(s: Sim, steps: seq<Step>): Sim
    decreases |steps|
  {
    if steps == [] then s else Run(Take(s, steps[0]), steps[1..])
  }

  ghost predicate Increasing(fired: seq<Event>) {
    forall i, j | 0 <= i < j < |fired| :: Before(fired[i], fired[j])
  }

  /** Ids are issued once; nothing queued is in the past or before anything that ran. */
  ghost predicate Inv(s: Sim) {
    && (forall e | e in s.heap :: s.clock <= e.time && e.id < s.nextSeq)
    && (forall e, f | e in s.heap && f in s.heap && e.id == f.id :: e == f)
    && Increasing(s.fired)
    && (forall i | 0 <= i < |s.fired| :: s.fired[i].time <= s.clock && s.fired[i].id < s.nextSeq)
    && (forall i, e | 0 <= i < |s.fired| && e in s.heap :: Before(s.fired[i], e))
  }

  lemma DoKeeps(s: Sim, call: Call)
    requires Inv(s)
    ensures Inv(Do(s, call))
  {
  }

  lemma {:induction false} DoAllKeeps(s: Sim, calls: seq<Call>)
    requires Inv(s)
    ensures Inv(DoAll(s, calls))
    decreases |calls|
  {
    hide Inv, Do;
    if calls != [] {
      DoKeeps(s, calls[0]);
      DoAllKeeps(Do(s, calls[0]), calls[1..]);
    }
  }

  lemma {:induction false} DoAllClock(s: Sim, calls: seq<Call>)
    ensures DoAll(s, calls).clock == s.clock && DoAll(s, calls).fired == s.fired
    decreases |calls|
  {
    if calls != [] { DoAllClock(Do(s, calls[0]), calls[1..]); }
  }

  lemma PopKeeps(s: Sim, e: Event)
    requires Inv(s) && IsMin(e, s.heap)
    ensures Inv(Process(s, e, [])) && s.clock <= e.time
  {
    hide Increasing;
    var s' := Process(s, e, []);
    assert s'.heap <= s.heap;
    IncreasingSnoc(s.fired, e);
  }

  lemma IncreasingSnoc(fired: seq<Event>, e: Event)
    requires Increasing(fired) && forall i | 0 <= i < |fired| :: Before(fired[i], e)
    ensures Increasing(fired + [e])
  {
  }

  lemma TakeKeeps(s: Sim, step: Step)
    requires Inv(s) && Enabled(s, step)
    ensures Inv(Take(s, step)) && s.clock <= Take(s, step).clock && s.fired <= Take(s, step).fired
  {
    match step
    case Outside(call) => DoKeeps(s, call);
    case One(e, calls) =>
      PopKeeps(s, e);
      DoAllKeeps(Process(s, e, []), calls);
      DoAllClock(Process(s, e, []), calls);
    case Settle(deadline) =>
  }

  /** Over any run the actions run strictly in (time, seq) order and the clock never goes back. */
  lemma {:induction false} RunInOrder(s: Sim, steps: seq<Step>)
    requires Inv(s) && IsRun(s, steps)
    ensures Inv(Run(s, steps)) && Increasing(Run(s, steps).fired)
    ensures s.clock <= Run(s, steps).clock && s.fired <= Run(s, steps).fired
    decreases |steps|
  {
    hide Enabled, Take;
    if steps != [] {
      TakeKeeps(s, steps[0]);
      RunInOrder(Take(s, steps[0]), steps[1..]);
    }
  }

  // ---------------------------------------------------------------- cancelling

  /** Queued but cancelled, or already off the queue without having run. */
  ghost predicate Dead(s: Sim, e: Event) {
    && e.id < s.nextSeq && e !in s.fired
    && (e in s.heap ==> e.id in s.cancelled)
  }

  lemma {:induction false} DoAllStaysDead(s: Sim, calls: seq<Call>, e: Event)
    requires Dead(s, e)
    ensures Dead(DoAll(s, calls), e)
    decreases |calls|
  {
    if calls != [] { DoAllStaysDead(Do(s, calls[0]), calls[1..], e); }
  }

  lemma ProcessStaysDead(s: Sim, f: Event, calls: seq<Call>, e: Event)
    requires Inv(s) && IsMin(f, s.heap) && Dead(s, e)
    ensures Dead(Process(s, f, calls), e)
  {
    hide DoAll;
    if f.id !in s.cancelled {
      DoAllStaysDead(s.(clock := f.time, heap := s.heap - {f}, cancelled := s.cancelled - {f.id}, fired := s.fired + [f]), calls, e);
    }
  }

  /** An event cancelled while it is queued never runs, whatever happens afterwards. */
  lemma {:induction false} CancelledNeverRuns(s: Sim, steps: seq<Step>, e: Event)
    requires Inv(s) && IsRun(s, steps) && Dead(s, e)
    ensures e !in Run(s, steps).fired
    decreases |steps|
  {
    hide Inv, Process;
    if steps != [] {
      TakeKeeps(s, steps[0]);
      match steps[0]
      case Outside(call) => CancelledNeverRuns(Do(s, call), steps[1..], e);
      case One(f, calls) =>
        ProcessStaysDead(s, f, calls, e);
        CancelledNeverRuns(Process(s, f, calls), steps[1..], e);
      case Settle(deadline) => CancelledNeverRuns(s.(clock := deadline), steps[1..], e);
    }
  }

  predicate Spares(step: Step, id: nat) {
    match step
    case Outside(call) => call != Cancel(id)
    case One(_, calls) => Cancel(id) !in calls
    case Settle(_) => true
  }

  /** Still due, or it ran. */
  ghost predicate Alive(s: Sim, e: Event) { e in s.fired || (e in s.heap && e.id !in s.cancelled) }

  lemma {:induction false} DoAllStaysAlive(s: Sim, calls: seq<Call>, e: Event)
    requires Alive(s, e) && Cancel(e.id) !in calls
    ensures Alive(DoAll(s, calls), e)
    decreases |calls|
  {
    if calls != [] {
      assert calls[0] != Cancel(e.id);
      DoAllStaysAlive(Do(s, calls[0]), calls[1..], e);
    }
  }

  lemma TakeStaysAlive(s: Sim, step: Step, e: Event)
    requires Enabled(s, step) && Alive(s, e) && Spares(step, e.id)
    ensures Alive(Take(s, step), e)
  {
    hide DoAll;
    if step.One? && step.e.id !in s.cancelled {
      var f := step.e;
      DoAllStaysAlive(s.(clock := f.time, heap := s.heap - {f}, cancelled := s.cancelled - {f.id}, fired := s.fired + [f]), step.calls, e);
    }
  }

  /** An event nobody cancels is never dropped: when it has left the queue, it ran. */
  lemma {:induction false} UncancelledRuns(s: Sim, steps: seq<Step>, e: Event)
    requires IsRun(s, steps) && Alive(s, e) && forall i | 0 <= i < |steps| :: Spares(steps[i], e.id)
    ensures Alive(Run(s, steps), e)
    decreases |steps|
  {
    hide Alive, Take, Enabled;
    if steps != [] {
      TakeStaysAlive(s, steps[0], e);
      UncancelledRuns(Take(s, steps[0]), steps[1..], e);
    }
  }

  /** What is scheduled is due after the delay, and runs then unless its id is cancelled: once the clock has
      passed that time it has run. */
  lemma ScheduledRuns(s: Sim, delay: nat, steps: seq<Step>)
    requires Inv(s) && s.nextSeq !in s.cancelled && IsRun(Do(s, Schedule(delay)), steps)
    requires forall i | 0 <= i < |steps| :: Spares(steps[i], s.nextSeq)
    ensures var e, t := Event(s.clock + delay, s.nextSeq), Run(Do(s, Schedule(delay)), steps);
            Alive(t, e) && (t.clock > e.time ==> e in t.fired)
  {
    hide Run, IsRun;
    var e := Event(s.clock + delay, s.nextSeq);
    DoKeeps(s, Schedule(delay));
    RunInOrder(Do(s, Schedule(delay)), steps);
    UncancelledRuns(Do(s, Schedule(delay)), steps, e);
  }

  /** How many ids the first `k` calls use up. */
  function Issued(calls: seq<Call>, k: nat): nat
    requires k <= |calls|
  {
    if k == 0 then 0 else (if calls[0].Schedule? then 1 else 0) + Issued(calls[1..], k - 1)
  }

  lemma {:induction false} EveryCallCounts(s: Sim, calls: seq<Call>, k: nat)
    requires k < |calls|
    ensures var t := DoAll(s, calls);
            && s.heap <= t.heap && s.cancelled <= t.cancelled && t.clock == s.clock && t.fired == s.fired
            && match calls[k]
               case Schedule(delay) => Event(s.clock + delay, s.nextSeq + Issued(calls, k)) in t.heap
               case Cancel(id) => id in t.cancelled
    decreases |calls|
  {
    var t := Do(s, calls[0]);
    if k > 0 { EveryCallCounts(t, calls[1..], k - 1); } else { KeepsHeap(t, calls[1..]); }
  }

  lemma {:induction false} KeepsHeap(s: Sim, calls: seq<Call>)
    ensures var t := DoAll(s, calls); s.heap <= t.heap && s.cancelled <= t.cancelled && t.clock == s.clock && t.fired == s.fired
    decreases |calls|
  {
    if calls != [] { KeepsHeap(Do(s, calls[0]), calls[1..]); }
  }

  /** When an event runs, everything its action asks for takes effect, at the time of the event. */
  lemma ActionTakesEffect(s: Sim, e: Event, calls: seq<Call>, k: nat)
    requires e.id !in s.cancelled && k < |calls|
    ensures var t := Process(s, e, calls);
            && t.clock == e.time && t.fired == s.fired + [e]
            && match calls[k]
               case Schedule(delay) => Event(e.time + delay, s.nextSeq + Issued(calls, k)) in t.heap
               case Cancel(id) => id in t.cancelled
  {
    hide DoAll, Issued;
    EveryCallCounts(s.(clock := e.time, heap := s.heap - {e}, cancelled := s.cancelled - {e.id}, fired := s.fired + [e]), calls, k);
  }

  /** Equal but for a cancelled id that is not queued and will not be issued again. */
  ghost predicate SameBut(s: Sim, t: Sim, id: nat) {
    && t == s.(cancelled := t.cancelled)
    && t.cancelled == s.cancelled + {id} && id < s.nextSeq
    && forall e | e in s.heap :: e.id != id
  }

  lemma {:induction false} DoAllSame(s: Sim, t: Sim, calls: seq<Call>, id: nat)
    requires SameBut(s, t, id)
    ensures SameBut(DoAll(s, calls), DoAll(t, calls), id)
    decreases |calls|
  {
    if calls != [] { DoAllSame(Do(s, calls[0]), Do(t, calls[0]), calls[1..], id); }
  }

  lemma TakeSame(s: Sim, t: Sim, step: Step, id: nat)
    requires SameBut(s, t, id) && Enabled(s, step)
    ensures Enabled(t, step) && SameBut(Take(s, step), Take(t, step), id)
  {
    hide DoAll;
    match step
    case Outside(call) =>
    case One(e, calls) =>
      var s1 := s.(clock := e.time, heap := s.heap - {e}, cancelled := s.cancelled - {e.id});
      var t1 := t.(clock := e.time, heap := t.heap - {e}, cancelled := t.cancelled - {e.id});
      var s2, t2 := s1.(fired := s.fired + [e]), t1.(fired := t.fired + [e]);
      assert t1.cancelled == s1.cancelled + {id};
      DoAllSame(s1, t1, calls, id);
      DoAllSame(s2, t2, calls, id);
    case Settle(deadline) =>
  }

  /** Cancelling an event that already left the queue changes nothing about what runs, and when. */
  lemma {:induction false} LateCancelIsHarmless(s: Sim, t: Sim, steps: seq<Step>, id: nat)
    requires SameBut(s, t, id) && IsRun(s, steps)
    ensures IsRun(t, steps) && Run(t, steps).fired == Run(s, steps).fired && Run(t, steps).clock == Run(s, steps).clock
    decreases |steps|
  {
    hide Take, Enabled;
    if steps != [] {
      TakeSame(s, t, steps[0], id);
      LateCancelIsHarmless(Take(s, steps[0]), Take(t, steps[0]), steps[1..], id);
    }
  }

  // ---------------------------------------------------------------- the objects

  class EventQueue {
    var heap: set<Event>
    var cancelled: set<nat>

    constructor ()
      ensures heap == {} && cancelled == {}
    {
      heap, cancelled := {}, {};
    }

    method Push(time: nat, id: nat)
      modifies this
      ensures heap == old(heap) + {Event(time, id)} && cancelled == old(cancelled)
    {
      heap := heap + {Event(time, id)};
    }

    method MarkCancelled(id: nat)
      modifies this
      ensures heap == old(heap) && cancelled == old(cancelled) + {id}
    {
      cancelled := cancelled + {id};
    }

    /** The top of the heap; `dropped` says that it was cancelled. */
    method PopMin() returns (e: Event, dropped: bool)
      requires heap != {}
      modifies this
      ensures IsMin(e, old(heap)) && heap == old(heap) - {e}
      ensures dropped <==> e.id in old(cancelled)
      ensures cancelled == old(cancelled) - {e.id}
    {
      ghost var least := MinExists(heap);
      e :| e in heap && forall f | f in heap :: f == e || Before(e, f);
      heap := heap - {e};
      dropped := e.id in cancelled;
      if dropped { cancelled := cancelled - {e.id}; }
    }

    method PeekTime() returns (time: nat)
      requires heap != {}
      ensures exists e :: IsMin(e, heap) && e.time == time
    {
      ghost var least := MinExists(heap);
      var e :| e in heap && forall f | f in heap :: f == e || Before(e, f);
      time := e.time;
      assert IsMin(e, heap);
    }
  }

  class Simulator {
    var clock: nat
    var nextSeq: nat
    const queue: EventQueue
    /** What the trace fingerprint has digested. */
    var fired: seq<Event>

    function State(): Sim
      reads this, queue
    {
      Sim(clock, nextSeq, queue.heap, queue.cancelled, fired)
    }

    constructor ()
      ensures fresh(queue) && State() == FRESH && Inv(State())
    {
      clock, nextSeq, fired := 0, 0, [];
      queue := new EventQueue();
    }

    method ScheduleAt(when: nat) returns (id: nat)
      modifies this, queue
      ensures id == old(nextSeq)
      ensures State() == old(State()).(nextSeq := id + 1, heap := old(queue.heap) + {Event(when, id)})
    {
      id := nextSeq;
      nextSeq := nextSeq + 1;
      queue.Push(when, id);
    }

    method ScheduleAfter(delay: nat) returns (id: nat)
      modifies this, queue
      ensures id == old(nextSeq) && State() == Do(old(State()), Schedule(delay))
    {
      id := ScheduleAt(clock + delay);
    }

    method CancelEvent(id: nat)
      modifies queue
      ensures State() == Do(old(State()), Cancel(id))
    {
      queue.MarkCancelled(id);
    }

    /** What an action does: its calls, one by one. */
    method Act(calls: seq<Call>)
      modifies this, queue
      ensures State() == DoAll(old(State()), calls)
    {
      var i := 0;
      assert calls[0..] == calls;
      while i < |calls|
        invariant 0 <= i <= |calls|
        invariant DoAll(State(), calls[i..]) == DoAll(old(State()), calls)
      {
        assert calls[i..][1..] == calls[i + 1..];
        match calls[i] {
          case Schedule(delay) => var _ := ScheduleAfter(delay);
          case Cancel(id) => CancelEvent(id);
        }
        i := i + 1;
      }
    }

    method ProcessOne(calls: seq<Call>) returns (e: Event)
      requires queue.heap != {}
      modifies this, queue
      ensures IsMin(e, old(queue.heap)) && State() == Process(old(State()), e, calls)
    {
      var dropped;
      e, dropped := queue.PopMin();
      clock := e.time;
      if dropped { return; }
      fired := fired + [e];
      Act(calls);
    }

    /** `script` gives the calls of the action popped by each pass; `finished` says the loop ended by itself. */
    method RunFor(duration: nat, script: seq<seq<Call>>) returns (finished: bool, ghost steps: seq<Step>)
      requires Inv(State())
      modifies this, queue
      ensures IsRun(old(State()), steps) && State() == Run(old(State()), steps) && Inv(State())
      ensures finished ==> clock == old(clock) + duration && forall e | e in queue.heap :: e.time > clock
      ensures !finished ==> |steps| == |script| && exists e :: IsMin(e, queue.heap) && e.time <= old(clock) + duration
    {
      hide Run, IsRun, Process, Inv, IsMin;
      var deadline := clock + duration;
      steps := [];
      NoSteps(State());
      var i := 0;
      while queue.heap != {}
        invariant 0 <= i == |steps| <= |script|
        invariant IsRun(old(State()), steps) && State() == Run(old(State()), steps)
        invariant Inv(State()) && clock <= deadline
        decreases |script| - i
      {
        var next := queue.PeekTime();
        if next > deadline { break; }
        if i == |script| { return false, steps; }
        ghost var s := State();
        var e := ProcessOne(script[i]);
        SameTime(s, e, script[i], next);
        ghost var step := One(e, script[i]);
        TakeKeeps(s, step);
        RunSnoc(old(State()), steps, step);
        steps := steps + [step];
        i := i + 1;
      }
      ghost var s := State();
      AllLater(s.heap, deadline);
      clock := deadline;
      finished := true;
      TakeKeeps(s, Settle(deadline));
      RunSnoc(old(State()), steps, Settle(deadline));
      steps := steps + [Settle(deadline)];
    }
  }

  lemma NoSteps(s: Sim)
    ensures IsRun(s, []) && Run(s, []) == s
  {
  }

  lemma SameTime(s: Sim, e: Event, calls: seq<Call>, time: nat)
    requires IsMin(e, s.heap) && exists f :: IsMin(f, s.heap) && f.time == time
    ensures e.time == time && Process(s, e, calls).clock == time
  {
    DoAllClock(s.(clock := e.time, heap := s.heap - {e}, cancelled := s.cancelled - {e.id}, fired := s.fired + [e]), calls);
  }

  /** If the least event is past the deadline, all are. */
  lemma AllLater(heap: set<Event>, deadline: nat)
    requires heap == {} || exists f :: IsMin(f, heap) && f.time > deadline
    ensures forall e | e in heap :: deadline < e.time
  {
  }

  lemma {:induction false} RunSnoc(s: Sim, steps: seq<Step>, step: Step)
    ensures Run(s, steps + [step]) == Take(Run(s, steps), step)
    ensures IsRun(s, steps + [step]) <==> IsRun(s, steps) && Enabled(Run(s, steps), step)
    decreases |steps|
  {
    if steps == [] {
      assert ([] + [step])[1..] == [] && ([] + [step])[0] == step;
    } else {
      assert (steps + [step])[1..] == steps[1..] + [step];
      RunSnoc(Take(s, steps[0]), steps[1..], step);
    }
  }
}
