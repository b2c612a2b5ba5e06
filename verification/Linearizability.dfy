/**
  Linearizability of a recorded history, whatever the checker drops from it, and what the checker's
  verdict (src/checker/own_checker.cpp:181-199) says about it.
*/
module Linearizability {
  import opened RaftTypes
  import opened Checker
  import opened History
  import opened Lifting
  import opened Locality
  import KvStore
  import KeyOrder

  // ---------------------------------------------------------------- what a history means

  /** The client never learnt the outcome: the operation may take effect at any time after it was invoked,
      or never. */
  predicate Unknown(e: HistoryEntry) { e.pending || e.response == "timeout" || e.response == "node_crashed" }

  /** The operation was turned away: it never takes effect. */
  predicate Refused(e: HistoryEntry) { !e.pending && e.response == "not_leader" }

  /** An operation taking effect, with its recorded outcome or with one nobody saw. */
  datatype Act = Seen(entry: HistoryEntry) | Unseen(entry: HistoryEntry)

  function SeenActs(h: seq<HistoryEntry>): seq<Act> {
    if h == [] then []
    else
      var n := |h| - 1;
      SeenActs(h[..n]) + if Unknown(h[n]) || Refused(h[n]) then [] else [Seen(h[n])]
  }

  function UnseenActs(h: seq<HistoryEntry>): seq<Act> {
    if h == [] then []
    else
      var n := |h| - 1;
      UnseenActs(h[..n]) + if Unknown(h[n]) then [Unseen(h[n])] else []
  }

  /** `a` returned before `b` was invoked. */
  predicate Preceded(a: Act, b: Act) { a.Seen? && a.entry.ret < b.entry.invoke }

  ghost predicate RealTime(order: seq<Act>) {
    forall i, j | 0 <= i < j < |order| :: !Preceded(order[j], order[i])
  }

  /** One after the other on the store, the acts that were seen give what was observed. */
  predicate RunsOn(order: seq<Act>, data: KvStore.Map) {
    order == []
    || (var a := KvStore.Apply(data, CommandOf(order[0].entry));
        (order[0].Seen? ==> Observed(order[0].entry, a.result)) && RunsOn(order[1..], a.data))
  }

  /** All the seen acts and some of the unseen ones, in one order that respects real time and that a single
      copy of the store could have gone through. */
  ghost predicate IsExplanation(h: seq<HistoryEntry>, chosen: multiset<Act>, order: seq<Act>) {
    && chosen <= multiset(UnseenActs(h)) && multiset(order) == multiset(SeenActs(h)) + chosen
    && RealTime(order) && RunsOn(order, map[])
  }

  ghost predicate IsLinearizable(h: seq<HistoryEntry>) {
    exists chosen, order :: IsExplanation(h, chosen, order)
  }

  // ---------------------------------------------------------------- what the checker accepts is linearizable

  /** The entry as the checker takes it. */
  function Taken(a: Act): HistoryEntry { if a.Seen? then a.entry else a.entry.(ok := true) }

  function CrashedPuts(h: seq<HistoryEntry>): seq<Act> {
    if h == [] then []
    else
      var n := |h| - 1;
      CrashedPuts(h[..n]) +
      if !h[n].pending && h[n].response == "node_crashed" && h[n].kind == OpPut then [Unseen(h[n])] else []
  }

  /** The checker's two lists are the seen acts and some of the unseen ones. */
  lemma {:induction false} ListsAre(h: seq<HistoryEntry>)
    ensures Map(Taken, SeenActs(h)) == Sure(h)
    ensures Map(Taken, CrashedPuts(h)) == Maybe(h)
    ensures multiset(CrashedPuts(h)) <= multiset(UnseenActs(h))
  {
    hide Map;
    if h == [] {
      NoActs();
    } else {
      var n := |h| - 1;
      var e, t := h[n], h[..n];
      ListsAre(t);
      Snoc(Taken, SeenActs(t), Seen(e));
      Snoc(Taken, CrashedPuts(t), Unseen(e));
      assert forall s: seq<HistoryEntry> :: s + [] == s;
      assert forall s: seq<Act> :: s + [] == s;
    }
  }

  lemma NoActs()
    ensures Map(Taken, []) == []
  {
  }

  /** Every finished operation has a return time; 0 is how the record spells that there is none. */
  ghost predicate Clocked(h: seq<HistoryEntry>) { forall i | 0 <= i < |h| && !h[i].pending :: 0 < h[i].ret }

  lemma {:induction false} SeenClocked(h: seq<HistoryEntry>, a: Act)
    requires Clocked(h) && a in multiset(SeenActs(h))
    ensures a.Seen? && 0 < a.entry.ret
  {
    var n := |h| - 1;
    if a in multiset(SeenActs(h[..n])) { SeenClocked(h[..n], a); }
  }

  lemma {:induction false} UnseenAre(h: seq<HistoryEntry>, a: Act)
    requires a in multiset(UnseenActs(h))
    ensures a.Unseen? && a.entry in h && Unknown(a.entry)
  {
    var n := |h| - 1;
    if a in multiset(UnseenActs(h[..n])) { UnseenAre(h[..n], a); }
  }

  lemma {:induction false} TakenRuns(order: seq<Act>, data: KvStore.Map)
    requires ReplaysStore(Map(Taken, order), data)
    ensures RunsOn(order, data)
    decreases |order|
  {
    hide Map, KvStore.Apply;
    if order != [] {
      var a, t := order[0], order[1..];
      assert order == [a] + t;
      Front(Taken, a, t);
      assert ([Taken(a)] + Map(Taken, t))[1..] == Map(Taken, t);
      SameCommand(a);
      TakenRuns(t, KvStore.Apply(data, CommandOf(a.entry)).data);
    }
  }

  lemma SameCommand(a: Act)
    ensures CommandOf(Taken(a)) == CommandOf(a.entry)
  {
  }

  lemma TakenInTime(order: seq<Act>)
    requires InRealTime(Ops(Map(Taken, order)))
    requires forall i | 0 <= i < |order| :: order[i].Seen? ==> 0 < order[i].entry.ret
    ensures RealTime(order)
  {
    var ops := Ops(Map(Taken, order));
    forall i, j | 0 <= i < j < |order| ensures !Preceded(order[j], order[i]) {
      assert ops[i] == Op(Taken(order[i])) && ops[j] == Op(Taken(order[j]));
      assert !Precedes(ops[j], ops[i]);
    }
  }

  /** A history that passes the checker's own definition is linearizable. */
  lemma AcceptedIsLinearizable(h: seq<HistoryEntry>)
    requires HistoryLinearizable(h) && Clocked(h)
    ensures IsLinearizable(h)
  {
    hide Map, Sure, Maybe, SeenActs, UnseenActs, CrashedPuts, InRealTime, ReplaysStore, RealTime, RunsOn, Clocked;
    var chosen, order :| chosen <= multiset(Maybe(h)) && IsGlobal(order, multiset(Sure(h)) + chosen);
    ListsAre(h);
    var c, d := Choose(Taken, CrashedPuts(h), chosen);
    var xs := SeenActs(h) + c;
    Concat(Taken, SeenActs(h), c);
    var ys := Arrange(Taken, xs, order);
    forall i | 0 <= i < |ys| ensures ys[i].Seen? ==> 0 < ys[i].entry.ret {
      assert ys[i] in multiset(ys);
      assert ys[i] in multiset(SeenActs(h)) || ys[i] in multiset(c);
      if ys[i] in multiset(SeenActs(h)) {
        SeenClocked(h, ys[i]);
      } else {
        assert ys[i] in multiset(CrashedPuts(h));
        UnseenAre(h, ys[i]);
      }
    }
    TakenInTime(ys);
    TakenRuns(ys, map[]);
    assert IsExplanation(h, multiset(c), ys);
  }

  // ---------------------------------------------------------------- when the checker's verdict is exact

  /** The only operations whose outcome nobody saw are reads. */
  predicate NoLostWrites(h: seq<HistoryEntry>) { forall i | 0 <= i < |h| :: Unknown(h[i]) ==> h[i].kind == OpGet }

  function SeenOf(order: seq<Act>): seq<HistoryEntry> {
    if order == [] then [] else (if order[0].Seen? then [order[0].entry] else []) + SeenOf(order[1..])
  }

  lemma {:induction false} CountSeen(order: seq<Act>, e: HistoryEntry)
    ensures multiset(SeenOf(order))[e] == multiset(order)[Seen(e)]
  {
    if order != [] {
      CountSeen(order[1..], e);
      assert order == [order[0]] + order[1..];
    }
  }

  /** A read changes nothing, so the unseen ones can be left out. */
  lemma {:induction false} DropReads(order: seq<Act>, data: KvStore.Map)
    requires RunsOn(order, data)
    requires forall i | 0 <= i < |order| :: if order[i].Seen? then !order[i].entry.pending else order[i].entry.kind == OpGet
    ensures ReplaysStore(SeenOf(order), data)
    decreases |order|
  {
    if order != [] {
      var a := KvStore.Apply(data, CommandOf(order[0].entry));
      DropReads(order[1..], a.data);
      if order[0].Seen? {
        assert SeenOf(order)[1..] == SeenOf(order[1..]);
      } else {
        assert SeenOf(order) == SeenOf(order[1..]) && a.data == data;
      }
    }
  }

  lemma {:induction false} SeenIn(order: seq<Act>, e: HistoryEntry)
    requires e in SeenOf(order)
    ensures Seen(e) in order
  {
    if !(order[0].Seen? && order[0].entry == e) { SeenIn(order[1..], e); }
  }

  lemma {:induction false} SeenInTime(order: seq<Act>)
    requires RealTime(order)
    ensures InRealTime(Ops(SeenOf(order)))
    decreases |order|
  {
    hide Map, InRealTime;
    if order == [] {
      NothingInTime();
    } else {
      var a, t := order[0], order[1..];
      forall i, j | 0 <= i < j < |t| ensures !Preceded(t[j], t[i]) { assert !Preceded(order[j + 1], order[i + 1]); }
      SeenInTime(t);
      if a.Seen? {
        forall k | 0 <= k < |SeenOf(t)| ensures !Precedes(Op(SeenOf(t)[k]), Op(a.entry)) {
          SeenIn(t, SeenOf(t)[k]);
          var i :| 0 <= i < |t| && t[i] == Seen(SeenOf(t)[k]);
          assert !Preceded(order[i + 1], order[0]);
        }
        FirstOf(a.entry, SeenOf(t));
      } else {
        assert SeenOf(order) == SeenOf(t);
      }
    }
  }

  lemma NothingInTime()
    ensures InRealTime(Ops(SeenOf([])))
  {
  }

  lemma {:induction false} SeenOfHistory(h: seq<HistoryEntry>, e: HistoryEntry)
    ensures multiset(SeenActs(h))[Seen(e)] == multiset(Sure(h))[e]
    ensures multiset(SeenActs(h))[Seen(e)] > 0 ==> !e.pending
  {
    if h != [] { SeenOfHistory(h[..|h| - 1], e); }
  }

  lemma LinearizableIsAccepted(h: seq<HistoryEntry>)
    requires IsLinearizable(h) && NoLostWrites(h)
    ensures HistoryLinearizable(h)
  {
    hide Map, Sure, Maybe, SeenActs, UnseenActs, SeenOf, InRealTime, ReplaysStore, RunsOn;
    var chosen: multiset<Act>, order: seq<Act> :| IsExplanation(h, chosen, order);
    var seen := SeenOf(order);
    forall e: HistoryEntry ensures multiset(seen)[e] == multiset(Sure(h))[e] {
      CountSeen(order, e);
      SeenOfHistory(h, e);
      if Seen(e) in chosen { UnseenAre(h, Seen(e)); }
    }
    forall i | 0 <= i < |order|
      ensures if order[i].Seen? then !order[i].entry.pending else order[i].entry.kind == OpGet
    {
      assert order[i] in multiset(order);
      if order[i] in multiset(SeenActs(h)) {
        IsSeen(h, order[i]);
      } else {
        assert order[i] in multiset(UnseenActs(h));
        UnseenAre(h, order[i]);
      }
    }
    DropReads(order, map[]);
    SeenInTime(order);
    assert multiset(seen) == multiset(Sure(h)) + multiset{};
    assert multiset{} <= multiset(Maybe(h)) && IsGlobal(seen, multiset(Sure(h)) + multiset{});
  }

  lemma {:induction false} IsSeen(h: seq<HistoryEntry>, a: Act)
    requires a in multiset(SeenActs(h))
    ensures a.Seen? && !a.entry.pending
  {
    var n := |h| - 1;
    if a in multiset(SeenActs(h[..n])) { IsSeen(h[..n], a); }
  }

  // ---------------------------------------------------------------- the checker

  lemma GroupSnoc(h: seq<HistoryEntry>, e: HistoryEntry, k: string)
    ensures Ops(On(Finished(h + [e]), k)) ==
            Ops(On(Finished(h), k)) + if !e.pending && e.key == k then [Op(e)] else []
  {
    hide Map, On;
    assert (h + [e])[..|h|] == h;
    OnSnoc(Finished(h), e, k);
    Snoc(Op, On(Finished(h), k), e);
    assert Finished(h) + [] == Finished(h) && On(Finished(h), k) + [] == On(Finished(h), k);
  }

  lemma NothingToGroup(h: seq<HistoryEntry>, k: string)
    requires h == []
    ensures Ops(On(Finished(h), k)) == []
  {
  }

  method GroupByKey(history: seq<HistoryEntry>) returns (perKey: map<string, seq<KeyOp>>)
    ensures forall k :: (if k in perKey then perKey[k] else []) == Ops(On(Finished(history), k))
  {
    hide Map, On, Op, Finished;
    perKey := map[];
    forall k ensures Ops(On(Finished(history[..0]), k)) == [] { NothingToGroup(history[..0], k); }
    for i := 0 to |history|
      invariant forall k :: (if k in perKey then perKey[k] else []) == Ops(On(Finished(history[..i]), k))
    {
      var e := history[i];
      assert history[..i + 1] == history[..i] + [e];
      forall k ensures Ops(On(Finished(history[..i + 1]), k)) ==
                       Ops(On(Finished(history[..i]), k)) + if !e.pending && e.key == k then [Op(e)] else []
      {
        GroupSnoc(history[..i], e, k);
      }
      if e.pending { continue; }
      var soFar := if e.key in perKey then perKey[e.key] else [];
      perKey := perKey[e.key := soFar + [Op(e)]];
    }
    assert history[..|history|] == history;
  }

  /** Few enough crashed puts on every key for the enumeration to be complete. */
  ghost predicate FewCrashed(h: seq<HistoryEntry>) {
    forall k :: |Crashed(Ops(On(Finished(h), k)))| <= 15
  }

  /** Without lost writes there are no crashed puts to enumerate. */
  lemma NoLostWritesFew(h: seq<HistoryEntry>)
    requires NoLostWrites(h)
    ensures FewCrashed(h)
  {
    hide Map, On, Finished, Crashed;
    forall k ensures |Crashed(Ops(On(Finished(h), k)))| <= CAP {
      Views(h, k);
      NoMaybe(h);
      assert |AllCommitted(Crashed(Ops(On(Finished(h), k))))| == |On(Maybe(h), k)|;
      OnNothing(Maybe(h), k);
    }
  }

  lemma {:induction false} NoMaybe(h: seq<HistoryEntry>)
    requires NoLostWrites(h)
    ensures Maybe(h) == []
  {
    if h != [] { NoMaybe(h[..|h| - 1]); }
  }

  /** A positive verdict is never wrong.  When the only outcomes nobody saw are those of reads, a negative
      verdict is not either; otherwise it is a verdict on the operations the checker keeps. */
  method CheckLinearizable(history: seq<HistoryEntry>) returns (ok: bool, failing: string)
    ensures ok ==> EveryKeyLinearizable(history)
    ensures ok && Timed(history) ==> HistoryLinearizable(history)
    ensures ok && Timed(history) && Clocked(history) ==> IsLinearizable(history)
    ensures !ok && FewCrashed(history) ==>
              !KeyLinearizable(Ops(On(Finished(history), failing))) && !HistoryLinearizable(history)
    ensures NoLostWrites(history) && Timed(history) && Clocked(history) ==> (ok <==> IsLinearizable(history))
    ensures !ok ==> forall k | KeyOrder.Less(k, failing) :: KeyLinearizable(Ops(On(Finished(history), k)))
  {
    hide Map, On, Finished, Timed, Clocked, KeyLinearizable, HistoryLinearizable, Crashed, SampleLinearizable, FewCrashed,
         IsLinearizable, NoLostWrites;
    LocalityTheorem(history);
    VerdictMeans(history);
    var perKey := GroupByKey(history);
    var left := perKey.Keys;
    while left != {}
      invariant left <= perKey.Keys
      invariant forall k | k in perKey.Keys - left :: KeyLinearizable(perKey[k])
      decreases |left|
    {
      var key := KeyOrder.Least(left);
      ghost var rest := left;
      left := left - {key};
      ok := CheckKeyLinearizable(perKey[key]);
      if !ok {
        failing := key;
        FewOn(history, key);
        assert perKey[key] == Ops(On(Finished(history), key));
        forall k | KeyOrder.Less(k, key) ensures KeyLinearizable(Ops(On(Finished(history), k))) {
          NotLeft(k, key, rest);
          Passed(history, perKey, rest, k);
        }
        return;
      }
    }
    ok, failing := true, "";
    forall k ensures KeyLinearizable(Ops(On(Finished(history), k))) { Passed(history, perKey, left, k); }
  }

  /** A key that is not left has passed, or has no operations. */
  lemma Passed(h: seq<HistoryEntry>, perKey: map<string, seq<KeyOp>>, left: set<string>, k: string)
    requires k !in left && forall j | j in perKey.Keys - left :: KeyLinearizable(perKey[j])
    requires (if k in perKey then perKey[k] else []) == Ops(On(Finished(h), k))
    ensures KeyLinearizable(Ops(On(Finished(h), k)))
  {
    hide Map, On, Finished, KeyLinearizable;
    if k in perKey {
      assert k in perKey.Keys - left;
    } else {
      NoCrash();
      NothingToExplain(Ops(On(Finished(h), k)));
    }
  }

  lemma NotLeft(k: string, key: string, left: set<string>)
    requires KeyOrder.IsLeast(key, left) && KeyOrder.Less(k, key)
    ensures k !in left
  {
    KeyOrder.Irreflexive(key);
    if k in left && k != key {
      KeyOrder.Transitive(k, key, k);
      KeyOrder.Irreflexive(k);
    }
  }

  lemma FewOn(h: seq<HistoryEntry>, k: string)
    ensures FewCrashed(h) ==> |Crashed(Ops(On(Finished(h), k)))| <= CAP
  {
  }

  lemma VerdictMeans(h: seq<HistoryEntry>)
    ensures HistoryLinearizable(h) && Clocked(h) ==> IsLinearizable(h)
    ensures NoLostWrites(h) ==> FewCrashed(h) && (IsLinearizable(h) ==> HistoryLinearizable(h))
  {
    hide HistoryLinearizable, IsLinearizable, FewCrashed, NoLostWrites, Clocked;
    if HistoryLinearizable(h) && Clocked(h) { AcceptedIsLinearizable(h); }
    if NoLostWrites(h) {
      NoLostWritesFew(h);
      if IsLinearizable(h) { LinearizableIsAccepted(h); }
    }
  }

  lemma NoCrash()
    ensures Certain([]) == [] && Crashed([]) == []
  {
  }
}
