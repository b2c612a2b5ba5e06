/**
  Two linearizable histories that the checker rejects, each with one write whose outcome nobody saw
  (src/checker/own_checker.cpp:105-130): a put that timed out is dropped, and a crashed put is held to the
  time of the crash although a later leader may still commit it.
*/
module LostWrites {
  import opened RaftTypes
  import opened Checker
  import opened History
  import opened Lifting
  import opened Locality
  import opened Linearizability
  import CheckerLimit
  import KvStore

  const KEY := "k"

  function Write(response: string): HistoryEntry {
    HistoryEntry(100, 0, OpPut, KEY, "a", "", 1, 2, response, false, false)
  }

  function Read(value: string, invoke: nat, ret: nat): HistoryEntry {
    HistoryEntry(101, invoke, OpGet, KEY, "", "", invoke, ret, value, true, false)
  }

  /** The checker answers no, with few crashed puts on every key and sound times, and a real order exists. */
  ghost predicate WronglyRejected(h: seq<HistoryEntry>) {
    && Timed(h) && Clocked(h) && FewCrashed(h) && IsLinearizable(h)
    && !KeyLinearizable(Ops(On(Finished(h), KEY))) && !HistoryLinearizable(h)
  }

  // ---------------------------------------------------------------- lists of two and three

  lemma Lists(h: seq<HistoryEntry>)
    requires forall i | 0 <= i < |h| :: h[i].key == KEY && !h[i].pending
    ensures Finished(h) == h && On(h, KEY) == h
  {
    OnAll(h, KEY);
    AllFinished(h);
  }

  lemma {:induction false} AllFinished(h: seq<HistoryEntry>)
    requires forall i | 0 <= i < |h| :: !h[i].pending
    ensures Finished(h) == h
  {
    if h != [] {
      var n := |h| - 1;
      AllFinished(h[..n]);
      assert h == h[..n] + [h[n]];
    }
  }

  lemma ActsSnoc(h: seq<HistoryEntry>, e: HistoryEntry)
    ensures SeenActs(h + [e]) == SeenActs(h) + if Unknown(e) || Refused(e) then [] else [Seen(e)]
    ensures UnseenActs(h + [e]) == UnseenActs(h) + if Unknown(e) then [Unseen(e)] else []
  {
    assert (h + [e])[..|h|] == h;
  }

  /** The key fails, so the whole history does. */
  lemma KeyFails(h: seq<HistoryEntry>)
    requires forall i | 0 <= i < |h| :: h[i].key == KEY && !h[i].pending
    requires !KeyLinearizable(Ops(h))
    ensures !KeyLinearizable(Ops(On(Finished(h), KEY))) && !HistoryLinearizable(h)
  {
    hide KeyLinearizable, HistoryLinearizable;
    Lists(h);
    LocalityTheorem(h);
    assert EveryKeyLinearizable(h) ==> KeyLinearizable(Ops(On(Finished(h), KEY)));
  }

  lemma {:induction false} FewOfFew(h: seq<HistoryEntry>)
    requires |h| <= CAP
    ensures FewCrashed(h)
  {
    forall k ensures |Crashed(Ops(On(Finished(h), k)))| <= CAP {
      FinishedFits(h);
      OnFits(Finished(h), k);
      CrashedFits(Ops(On(Finished(h), k)));
    }
  }

  lemma {:induction false} FinishedFits(h: seq<HistoryEntry>)
    ensures |Finished(h)| <= |h|
  {
    if h != [] { FinishedFits(h[..|h| - 1]); }
  }

  lemma {:induction false} OnFits(h: seq<HistoryEntry>, k: string)
    ensures |On(h, k)| <= |h|
  {
    if h != [] { OnFits(h[..|h| - 1], k); }
  }

  lemma {:induction false} CrashedFits(ops: seq<KeyOp>)
    ensures |Crashed(ops)| <= |ops|
  {
    if ops != [] { CrashedFits(ops[..|ops| - 1]); }
  }

  // ---------------------------------------------------------------- a put that timed out

  function TimedOut(): seq<HistoryEntry> { [Write("timeout"), Read("a", 10, 11)] }

  lemma TimedOutSorted(w: KeyOp, r: KeyOp)
    requires w == Op(Write("timeout")) && r == Op(Read("a", 10, 11))
    ensures Certain(Ops(TimedOut())) == [r] && AllCommitted(Crashed(Ops(TimedOut()))) == []
  {
    hide Certain, Crashed, AllCommitted;
    assert Ops(TimedOut()) == [] + [w] + [r];
    SortSnoc([], w);
    SortSnoc([] + [w], r);
    Empty();
  }

  lemma TimedOutKey()
    ensures !KeyLinearizable(Ops(TimedOut()))
  {
    hide Linearizable, Ops, Certain, Crashed, AllCommitted;
    var r := Op(Read("a", 10, 11));
    TimedOutSorted(Op(Write("timeout")), r);
    CheckerLimit.NoWriter([r], 0);
    forall chosen ensures !Explains(Ops(TimedOut()), chosen) {
      if chosen <= multiset{} { assert multiset([r]) + chosen == multiset([r]); }
    }
  }

  lemma Empty()
    ensures Certain([]) == [] && AllCommitted(Crashed([])) == []
  {
  }

  lemma TimedOutActs(w: HistoryEntry, r: HistoryEntry)
    requires w == Write("timeout") && r == Read("a", 10, 11)
    ensures SeenActs(TimedOut()) == [Seen(r)] && UnseenActs(TimedOut()) == [Unseen(w)]
  {
    hide SeenActs, UnseenActs;
    assert TimedOut() == [] + [w] + [r];
    ActsSnoc([], w);
    ActsSnoc([] + [w], r);
    NoActsYet();
  }

  lemma NoActsYet()
    ensures SeenActs([]) == [] && UnseenActs([]) == []
  {
  }

  lemma WriteThenRead(w: HistoryEntry, r: HistoryEntry)
    requires w.kind == OpPut && w.key == KEY && w.value == "a" && r.kind == OpGet && r.key == KEY && r.response == "a"
    ensures RunsOn([Unseen(w), Seen(r)], map[])
  {
    assert [Unseen(w), Seen(r)][1..] == [Seen(r)] && [Seen(r)][1..] == [];
    assert RunsOn([Seen(r)], map[KEY := "a"]);
  }

  lemma TimedOutExplained()
    ensures IsLinearizable(TimedOut())
  {
    hide SeenActs, UnseenActs, RunsOn;
    var w, r := Write("timeout"), Read("a", 10, 11);
    TimedOutActs(w, r);
    WriteThenRead(w, r);
    assert IsExplanation(TimedOut(), multiset{Unseen(w)}, [Unseen(w), Seen(r)]);
  }

  /** A put that timed out and took effect: its value is read, and the checker has dropped the put. */
  lemma TimedOutPutRejected()
    ensures WronglyRejected(TimedOut())
  {
    hide KeyLinearizable, HistoryLinearizable, IsLinearizable, FewCrashed;
    TimedOutKey();
    TimedOutExplained();
    KeyFails(TimedOut());
    FewOfFew(TimedOut());
  }

  // ---------------------------------------------------------------- a crashed put committed later

  function CrashedLate(): seq<HistoryEntry> { [Write("node_crashed"), Read("", 10, 11), Read("a", 20, 21)] }

  /** After a write of `v`, with no other value ever written, reads return `v`. */
  lemma {:induction false} ReadsLatest(order: seq<KeyOp>, state: KvState, p: int, g: nat, v: string)
    requires Replays(order, state) && -1 <= p < g < |order| && order[g].kind == OpGet
    requires if p == -1 then state == Some(v) else order[p].kind == OpPut
    requires forall i | 0 <= i < |order| :: order[i].kind == OpGet || (order[i].kind == OpPut && order[i].value == v)
    ensures order[g].response == v
    decreases g
  {
    if g > 0 {
      var t, state' := order[1..], ApplyModel(state, order[0]).state;
      if p <= 0 || order[0].kind == OpPut {
        ReadsLatest(t, state', -1, g - 1, v);
      } else {
        ReadsLatest(t, state', p - 1, g - 1, v);
      }
    }
  }

  lemma CrashedLateSorted(w: KeyOp, r: KeyOp, s: KeyOp)
    requires w == Op(Write("node_crashed")) && r == Op(Read("", 10, 11)) && s == Op(Read("a", 20, 21))
    ensures Certain(Ops(CrashedLate())) == [r, s] && AllCommitted(Crashed(Ops(CrashedLate()))) == [Committed(w)]
  {
    hide Certain, Crashed, AllCommitted;
    assert Ops(CrashedLate()) == [] + [w] + [r] + [s];
    SortSnoc([], w);
    SortSnoc([] + [w], r);
    SortSnoc([] + [w] + [r], s);
    Empty();
  }

  lemma CrashedLateKey()
    ensures !KeyLinearizable(Ops(CrashedLate()))
  {
    hide Linearizable, Ops, Certain, Crashed, AllCommitted;
    var w, r, s := Op(Write("node_crashed")), Op(Read("", 10, 11)), Op(Read("a", 20, 21));
    CrashedLateSorted(w, r, s);
    CheckerLimit.NoWriter([r, s], 1);
    NotInTime(w, r, s);
    forall chosen ensures !Explains(Ops(CrashedLate()), chosen) {
      if chosen <= multiset{Committed(w)} {
        if Committed(w) in chosen {
          assert multiset([r, s]) + chosen == multiset([r, s, Committed(w)]);
        } else {
          assert multiset([r, s]) + chosen == multiset([r, s]);
        }
      }
    }
  }

  /** By the time of the crash the put would have to come before the read that missed it. */
  lemma NotInTime(w: KeyOp, r: KeyOp, s: KeyOp)
    requires w == Op(Write("node_crashed")) && r == Op(Read("", 10, 11)) && s == Op(Read("a", 20, 21))
    ensures !Linearizable(multiset([r, s, Committed(w)]), None)
  {
    var ops := [r, s, Committed(w)];
    hide Replays;
    if order :| IsLinearization(order, multiset(ops), None) {
      forall i | 0 <= i < |order| ensures order[i] in ops { assert order[i] in multiset(order); }
      var g := CheckerLimit.Place(order, ops, 0);
      var p := CheckerLimit.Place(order, ops, 2);
      assert !Precedes(order[p], order[g]) || !(g < p);
      ReadsLatest(order, None, p, g, "a");
      assert false;
    }
  }

  lemma CrashedLateActs(w: HistoryEntry, r: HistoryEntry, s: HistoryEntry)
    requires w == Write("node_crashed") && r == Read("", 10, 11) && s == Read("a", 20, 21)
    ensures SeenActs(CrashedLate()) == [Seen(r), Seen(s)] && UnseenActs(CrashedLate()) == [Unseen(w)]
  {
    hide SeenActs, UnseenActs;
    assert CrashedLate() == [] + [w] + [r] + [s];
    ActsSnoc([], w);
    ActsSnoc([] + [w], r);
    ActsSnoc([] + [w] + [r], s);
    NoActsYet();
  }

  lemma ReadThenRest(r: HistoryEntry, rest: seq<Act>)
    requires r.kind == OpGet && r.response == "" && RunsOn(rest, map[])
    ensures RunsOn([Seen(r)] + rest, map[])
  {
    assert ([Seen(r)] + rest)[1..] == rest;
  }

  lemma CrashedLateExplained()
    ensures IsLinearizable(CrashedLate())
  {
    hide SeenActs, UnseenActs, RunsOn;
    var w, r, s := Write("node_crashed"), Read("", 10, 11), Read("a", 20, 21);
    CrashedLateActs(w, r, s);
    WriteThenRead(w, s);
    ReadThenRest(r, [Unseen(w), Seen(s)]);
    assert [Seen(r)] + [Unseen(w), Seen(s)] == [Seen(r), Unseen(w), Seen(s)];
    assert IsExplanation(CrashedLate(), multiset{Unseen(w)}, [Seen(r), Unseen(w), Seen(s)]);
  }

  /** A crashed put that took effect after its recorded return. */
  lemma CrashedPutRejected()
    ensures WronglyRejected(CrashedLate())
  {
    hide KeyLinearizable, HistoryLinearizable, IsLinearizable, FewCrashed;
    CrashedLateKey();
    CrashedLateExplained();
    KeyFails(CrashedLate());
    FewOfFew(CrashedLate());
  }
}
