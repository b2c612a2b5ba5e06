/**
  What the verdict is worth on the histories that the clients record.  A crash answers every open command of
  the node (src/raft/node.cpp:87-89), but the client keeps that answer for puts only: a crashed cas is
  recorded as a mismatch and a crashed read as a read of nothing (src/harness/workload.cpp:112-126).
*/
module ClientRecord {
  import opened RaftTypes
  import opened Checker
  import opened History
  import opened Lifting
  import opened Locality
  import opened Linearizability
  import CheckerLimit
  import LostWrites
  import KvStore
  import W = Workload

  /** The answer of a node that crashes. */
  predicate IsCrash(m: Message) {
    m.ClientReply? && m.success && m.result == CmdResult(false, "", "node_crashed")
  }

  /** Of the operations that a crash answers, only the puts are recorded with an unknown outcome. */
  lemma CrashIsRecorded(c: W.Config, w: W.World, ci: nat, m: Message)
    requires ci < |w.clients| && W.HandlesOk(w) && W.Fresh(w.clients[ci], m) && IsCrash(m)
    ensures var e := W.Reply(c, w, ci, m).history[w.clients[ci].handle];
            && !e.pending && !e.ok && (Unknown(e) <==> e.kind == OpPut)
            && (e.kind == OpGet ==> e.response == "") && (e.kind == OpCas ==> e.response == "cas_mismatch")
  {
  }

  // ---------------------------------------------------------------- what happened, and what was recorded

  /** Step `j` closes entry `k` with the answer of a crash. */
  predicate CrashAt(ws: seq<W.World>, steps: seq<W.Step>, j: nat, k: nat) {
    && j < |steps| && j + 1 < |ws| && steps[j].Deliver? && IsCrash(steps[j].msg)
    && k < |ws[j].history| && ws[j].history[k].pending && k < |ws[j + 1].history| && !ws[j + 1].history[k].pending
  }

  ghost predicate CrashedBy(ws: seq<W.World>, steps: seq<W.Step>, i: nat, k: nat) {
    exists j: nat :: j < i && CrashAt(ws, steps, j, k)
  }

  /** The history with every crashed operation of unknown outcome. */
  ghost function Truth(ws: seq<W.World>, steps: seq<W.Step>, i: nat): seq<HistoryEntry>
    requires i < |ws|
  {
    var h := ws[i].history;
    seq(|h|, k requires 0 <= k < |h| =>
      if CrashedBy(ws, steps, i, k) then h[k].(response := "node_crashed") else h[k])
  }

  /** A definite record of an operation that had no effect. */
  predicate NoEffect(e: HistoryEntry) {
    !Unknown(e) && !Refused(e) && (e.kind == OpGet || (e.kind == OpCas && !e.ok))
  }

  /** `h'` is `h` with some records of operations without effect made unknown. */
  ghost predicate Blurs(h: seq<HistoryEntry>, h': seq<HistoryEntry>) {
    |h| == |h'| && forall k | 0 <= k < |h| :: h'[k] == h[k] || (NoEffect(h[k]) && h'[k] == h[k].(response := "node_crashed"))
  }

  lemma CrashedEntry(c: W.Config, ws: seq<W.World>, steps: seq<W.Step>, i: nat, k: nat)
    requires W.IsRun(c, ws, steps) && W.Init(ws[0]) && i < |ws| && k < |ws[i].history| && CrashedBy(ws, steps, i, k)
    ensures var e := ws[i].history[k]; if e.kind == OpPut then e.response == "node_crashed" else NoEffect(e)
  {
    hide W.IsRun, W.CountWaiting, W.Ordered, W.TimersOk, W.Balanced;
    var j: nat :| j < i && CrashAt(ws, steps, j, k);
    W.RunKeeps(c, ws, steps, j);
    StepOf(c, ws, steps, j);
    W.CompletedOnce(c, ws, steps, j + 1, i, k);
  }

  lemma StepOf(c: W.Config, ws: seq<W.World>, steps: seq<W.Step>, j: nat)
    requires W.IsRun(c, ws, steps) && j + 1 < |ws|
    ensures |ws| == |steps| + 1 && W.Enabled(ws[j], steps[j]) && ws[j + 1] == W.Take(c, ws[j], steps[j])
  {
  }

  lemma RecordBlurs(c: W.Config, ws: seq<W.World>, steps: seq<W.Step>, i: nat)
    requires W.IsRun(c, ws, steps) && W.Init(ws[0]) && i < |ws|
    ensures Blurs(ws[i].history, Truth(ws, steps, i))
  {
    hide W.IsRun, CrashedBy, NoEffect;
    var h, t := ws[i].history, Truth(ws, steps, i);
    forall k | 0 <= k < |h| ensures t[k] == h[k] || (NoEffect(h[k]) && t[k] == h[k].(response := "node_crashed")) {
      if CrashedBy(ws, steps, i, k) { CrashedEntry(c, ws, steps, i, k); }
    }
  }

  // ---------------------------------------------------------------- operations without effect can be forgotten

  lemma SeenSnoc(h: seq<HistoryEntry>, e: HistoryEntry)
    ensures multiset(SeenActs(h + [e])) ==
            multiset(SeenActs(h)) + if Unknown(e) || Refused(e) then multiset{} else multiset{Seen(e)}
    ensures multiset(UnseenActs(h + [e])) == multiset(UnseenActs(h)) + if Unknown(e) then multiset{Unseen(e)} else multiset{}
  {
    hide SeenActs, UnseenActs;
    LostWrites.ActsSnoc(h, e);
  }

  lemma {:induction false} ActsUpdate(h: seq<HistoryEntry>, k: nat, e: HistoryEntry)
    requires k < |h| && NoEffect(h[k]) && e == h[k].(response := "node_crashed")
    ensures multiset(SeenActs(h)) == multiset(SeenActs(h[k := e])) + multiset{Seen(h[k])}
    ensures multiset(UnseenActs(h)) <= multiset(UnseenActs(h[k := e]))
  {
    hide SeenActs, UnseenActs;
    var n := |h| - 1;
    var front, last := h[..n], h[n];
    assert h == front + [last];
    SeenSnoc(front, last);
    if k == n {
      assert h[k := e] == front + [e];
      SeenSnoc(front, e);
    } else {
      assert h[k := e] == front[k := e] + [last];
      SeenSnoc(front[k := e], last);
      ActsUpdate(front, k, e);
    }
  }

  lemma {:induction false} RunsWithout(order: seq<Act>, j: nat, data: KvStore.Map)
    requires RunsOn(order, data) && j < |order| && order[j].Seen? && NoEffect(order[j].entry)
    ensures RunsOn(order[..j] + order[j + 1..], data)
    decreases j
  {
    if j == 0 {
      assert order[..0] + order[1..] == order[1..];
    } else {
      RunsWithout(order[1..], j - 1, KvStore.Apply(data, CommandOf(order[0].entry)).data);
      assert (order[..j] + order[j + 1..])[1..] == order[1..][..j - 1] + order[1..][j..];
    }
  }

  lemma InTimeWithout(order: seq<Act>, j: nat)
    requires RealTime(order) && j < |order|
    ensures RealTime(order[..j] + order[j + 1..])
  {
    hide Preceded;
    var rest := order[..j] + order[j + 1..];
    forall a, b | 0 <= a < b < |rest| ensures !Preceded(rest[b], rest[a]) {
      var a', b' := if a < j then a else a + 1, if b < j then b else b + 1;
      assert rest[a] == order[a'] && rest[b] == order[b'];
    }
  }

  lemma OneLess<T>(s: seq<T>, j: nat)
    requires j < |s|
    ensures multiset(s) == multiset(s[..j] + s[j + 1..]) + multiset{s[j]}
  {
    assert s == s[..j] + [s[j]] + s[j + 1..];
  }

  lemma Cancel<T>(a: multiset<T>, b: multiset<T>, c: multiset<T>, x: T)
    requires a + multiset{x} == (b + multiset{x}) + c
    ensures a == b + c
  {
    forall y ensures a[y] == (b + c)[y] { assert (a + multiset{x})[y] == ((b + multiset{x}) + c)[y]; }
  }

  /** An explanation survives the loss of a record without effect. */
  lemma Forget(h: seq<HistoryEntry>, k: nat, e: HistoryEntry)
    requires k < |h| && NoEffect(h[k]) && e == h[k].(response := "node_crashed") && IsLinearizable(h)
    ensures IsLinearizable(h[k := e])
  {
    hide SeenActs, UnseenActs, RunsOn, RealTime, NoEffect;
    var chosen, order :| IsExplanation(h, chosen, order);
    ActsUpdate(h, k, e);
    assert Seen(h[k]) in multiset(order);
    var j :| 0 <= j < |order| && order[j] == Seen(h[k]);
    var rest := order[..j] + order[j + 1..];
    RunsWithout(order, j, map[]);
    InTimeWithout(order, j);
    OneLess(order, j);
    Cancel(multiset(rest), multiset(SeenActs(h[k := e])), chosen, order[j]);
    assert IsExplanation(h[k := e], chosen, rest);
  }

  lemma {:induction false} ForgetUpTo(h: seq<HistoryEntry>, h': seq<HistoryEntry>, n: nat)
    requires Blurs(h, h') && n <= |h| && IsLinearizable(h)
    ensures IsLinearizable(h'[..n] + h[n..])
    decreases n
  {
    hide IsLinearizable, NoEffect;
    if n == 0 {
      assert h'[..0] + h[0..] == h;
    } else {
      ForgetUpTo(h, h', n - 1);
      var g := h'[..n - 1] + h[n - 1..];
      assert h'[..n] + h[n..] == g[n - 1 := h'[n - 1]];
      if h'[n - 1] == h[n - 1] { assert g[n - 1 := h'[n - 1]] == g; } else { Forget(g, n - 1, h'[n - 1]); }
    }
  }

  // ---------------------------------------------------------------- the verdict on a recorded history

  /** Replies and timeouts come after time zero. */
  predicate Ticking(ws: seq<W.World>, steps: seq<W.Step>) {
    |steps| < |ws| && forall j | 0 <= j < |steps| && (steps[j].Deliver? || steps[j].Fire?) :: 0 < ws[j].clock
  }

  lemma {:induction false} RunClocked(c: W.Config, ws: seq<W.World>, steps: seq<W.Step>, i: nat)
    requires W.IsRun(c, ws, steps) && W.Init(ws[0]) && Ticking(ws, steps) && i < |ws|
    ensures Clocked(ws[i].history)
    decreases i
  {
    hide W.IsRun, W.Take, W.Enabled, W.Inv;
    if i > 0 {
      RunClocked(c, ws, steps, i - 1);
      W.RunKeeps(c, ws, steps, i - 1);
      StepOf(c, ws, steps, i - 1);
      forall k | 0 <= k < |ws[i].history| && !ws[i].history[k].pending ensures 0 < ws[i].history[k].ret {
        NewIsOpen(c, ws[i - 1], steps[i - 1], k);
        if k < |ws[i - 1].history| { W.TakeCloses(c, ws[i - 1], steps[i - 1], k); }
      }
    }
  }

  lemma NewIsOpen(c: W.Config, w: W.World, step: W.Step, k: nat)
    requires W.Inv(c, w) && W.Enabled(w, step) && k < |W.Take(c, w, step).history|
    ensures k < |w.history| || W.Take(c, w, step).history[k].pending
  {
  }

  /** A positive verdict on a recorded history is right about what happened, crashed operations included.  A
      negative one is right if no operation was answered by a crash and only reads timed out or are open. */
  lemma VerdictOnRun(c: W.Config, ws: seq<W.World>, steps: seq<W.Step>, i: nat)
    requires W.IsRun(c, ws, steps) && W.Init(ws[0]) && Ticking(ws, steps) && i < |ws|
    ensures var h, truth := ws[i].history, Truth(ws, steps, i);
            && Timed(h) && Clocked(h)
            && (HistoryLinearizable(h) ==> IsLinearizable(h) && IsLinearizable(truth))
            && ((forall k | 0 <= k < |h| :: !CrashedBy(ws, steps, i, k)) && NoLostWrites(h) ==>
                  FewCrashed(h) && (HistoryLinearizable(h) <==> IsLinearizable(truth)))
  {
    hide W.IsRun, IsLinearizable, HistoryLinearizable, NoLostWrites, FewCrashed, CrashedBy, Timed, Clocked, Blurs;
    var h, truth := ws[i].history, Truth(ws, steps, i);
    W.Conservation(c, ws, steps, i);
    RunClocked(c, ws, steps, i);
    VerdictMeans(h);
    if HistoryLinearizable(h) {
      RecordBlurs(c, ws, steps, i);
      ForgetUpTo(h, truth, |h|);
      assert truth[..|h|] + h[|h|..] == truth;
    }
    if forall k | 0 <= k < |h| :: !CrashedBy(ws, steps, i, k) { assert truth == h; }
  }

  // ---------------------------------------------------------------- a crashed cas that took effect

  const CONFIG := W.Config([1], 3)
  const IDLE := W.World([W.Client(1, 0, false, 0, 0)], 0, 0, 0, [], 1, 0, map[], [])

  const PUT := W.Request(OpPut, "k", "v1", "")
  const CAS := W.Request(OpCas, "k", "v2", "v1")
  const GET := W.Request(OpGet, "k", "", "")

  function Answer(id: nat, result: CmdResult): W.Step { W.Deliver(0, ClientReply(100, id, true, result, 1)) }

  const STEPS := [
    W.Start(0, PUT), Answer(0, CmdResult(true, "", "")),
    W.Start(0, CAS), Answer(1, CmdResult(false, "", "node_crashed")),
    W.Start(0, GET), Answer(2, CmdResult(true, "v2", ""))
  ]

  /** The client waits for nothing and has recorded `h`. */
  predicate Rests(w: W.World, h: seq<HistoryEntry>) {
    && |w.clients| == 1 && !w.clients[0].waiting && w.clients[0].nextRequest == |h| && w.clients[0].leader == 1
    && w.history == h && w.clock == 1 && w.issued == |h|
  }

  /** One operation and its answer. */
  function Record(id: nat, r: W.Request, result: CmdResult): HistoryEntry {
    HistoryEntry(100, id, r.kind, r.key, r.value, r.expected, 1, 1, W.Response(r.kind, result), result.ok, false)
  }

  lemma Exchange(w: W.World, h: seq<HistoryEntry>, r: W.Request, result: CmdResult) returns (w1: W.World, w2: W.World)
    requires Rests(w, h) && |h| < 3
    ensures W.Enabled(w, W.Start(0, r)) && w1 == W.Take(CONFIG, w, W.Start(0, r)) && w1.clock == 1
    ensures W.Enabled(w1, Answer(|h|, result)) && w2 == W.Take(CONFIG, w1, Answer(|h|, result))
    ensures Rests(w2, h + [Record(|h|, r, result)])
    ensures |w1.history| == |h| + 1 && w1.history[|h|].pending
  {
    w1 := W.Take(CONFIG, w, W.Start(0, r));
    w2 := W.Take(CONFIG, w1, Answer(|h|, result));
    assert w2.history == h + [Record(|h|, r, result)];
  }

  const FIRST := Record(0, PUT, CmdResult(true, "", ""))
  const MISSED := Record(1, CAS, CmdResult(false, "", "node_crashed"))
  const LAST := Record(2, GET, CmdResult(true, "v2", ""))

  lemma CrashedCasRun() returns (ws: seq<W.World>)
    ensures W.IsRun(CONFIG, ws, STEPS) && W.Init(ws[0]) && Ticking(ws, STEPS)
    ensures |ws| == 7 && ws[6].history == [FIRST, MISSED, LAST] && CrashedBy(ws, STEPS, 6, 1)
  {
    hide W.Take, W.Enabled, W.Response;
    var w1, w2 := Exchange(IDLE, [], PUT, CmdResult(true, "", ""));
    var w3, w4 := Exchange(w2, [FIRST], CAS, CmdResult(false, "", "node_crashed"));
    var w5, w6 := Exchange(w4, [FIRST, MISSED], GET, CmdResult(true, "v2", ""));
    ws := [IDLE, w1, w2, w3, w4, w5, w6];
    assert CrashAt(ws, STEPS, 3, 1);
  }

  lemma MissedSorted(a: KeyOp, b: KeyOp, c: KeyOp)
    requires a == Op(FIRST) && b == Op(MISSED) && c == Op(LAST)
    ensures Certain(Ops([FIRST, MISSED, LAST])) == [a, b, c] && AllCommitted(Crashed(Ops([FIRST, MISSED, LAST]))) == []
  {
    hide Certain, Crashed, AllCommitted;
    assert Ops([FIRST, MISSED, LAST]) == [] + [a] + [b] + [c];
    SortSnoc([], a);
    SortSnoc([] + [a], b);
    SortSnoc([] + [a] + [b], c);
    LostWrites.Empty();
  }

  lemma MissedKey()
    ensures !KeyLinearizable(Ops([FIRST, MISSED, LAST]))
  {
    hide Linearizable, Ops, Certain, Crashed, AllCommitted;
    var ops := [Op(FIRST), Op(MISSED), Op(LAST)];
    MissedSorted(ops[0], ops[1], ops[2]);
    CheckerLimit.NoWriter(ops, 2);
    forall chosen ensures !Explains(Ops([FIRST, MISSED, LAST]), chosen) {
      if chosen <= multiset{} { assert multiset(ops) + chosen == multiset(ops); }
    }
  }

  lemma LostActs(a: HistoryEntry, b: HistoryEntry, c: HistoryEntry)
    requires a == FIRST && b == MISSED.(response := "node_crashed") && c == LAST
    ensures SeenActs([a, b, c]) == [Seen(a), Seen(c)] && UnseenActs([a, b, c]) == [Unseen(b)]
  {
    hide SeenActs, UnseenActs;
    assert [a, b, c] == [] + [a] + [b] + [c];
    LostWrites.ActsSnoc([], a);
    LostWrites.ActsSnoc([] + [a], b);
    LostWrites.ActsSnoc([] + [a] + [b], c);
    LostWrites.NoActsYet();
  }

  lemma LostRuns(a: HistoryEntry, b: HistoryEntry, c: HistoryEntry)
    requires a == FIRST && b == MISSED.(response := "node_crashed") && c == LAST
    ensures RunsOn([Seen(a), Unseen(b), Seen(c)], map[])
  {
    var order := [Seen(a), Unseen(b), Seen(c)];
    assert order[1..] == [Unseen(b), Seen(c)] && order[1..][1..] == [Seen(c)] && [Seen(c)][1..] == [];
    assert RunsOn([Seen(c)], map["k" := "v2"]);
    assert RunsOn([Unseen(b), Seen(c)], map["k" := "v1"]);
  }

  lemma LostExplained(a: HistoryEntry, b: HistoryEntry, c: HistoryEntry)
    requires a == FIRST && b == MISSED.(response := "node_crashed") && c == LAST
    ensures IsLinearizable([a, b, c])
  {
    hide SeenActs, UnseenActs, RunsOn;
    LostActs(a, b, c);
    LostRuns(a, b, c);
    assert IsExplanation([a, b, c], multiset{Unseen(b)}, [Seen(a), Unseen(b), Seen(c)]);
  }

  /** A cas that took effect although its node crashed: the recorded history has no order, by the checker or
      by any other reading, what happened has one, and no write is recorded as lost. */
  lemma CrashedCasRejected() returns (ws: seq<W.World>)
    ensures W.IsRun(CONFIG, ws, STEPS) && W.Init(ws[0]) && Ticking(ws, STEPS) && |ws| == 7
    ensures var h := ws[6].history;
            && NoLostWrites(h) && !HistoryLinearizable(h) && !IsLinearizable(h)
            && IsLinearizable(Truth(ws, STEPS, 6))
  {
    hide W.IsRun, Ticking, KeyLinearizable, HistoryLinearizable, IsLinearizable, CrashedBy, FewCrashed, Ops;
    ws := CrashedCasRun();
    var h, truth := ws[6].history, Truth(ws, STEPS, 6);
    MissedKey();
    LostWrites.KeyFails(h);
    VerdictMeans(h);
    RecordBlurs(CONFIG, ws, STEPS, 6);
    var lost := [FIRST, truth[1], LAST];
    LostExplained(FIRST, truth[1], LAST);
    ForgetUpTo(lost, truth, 3);
    assert truth[..3] + lost[3..] == truth;
  }
}
