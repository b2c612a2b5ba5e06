/**
  Checking a whole history key by key (src/checker/own_checker.cpp, check_linearizable) is the same
  as checking it on the whole store: the locality theorem of Herlihy and Wing, for the key-value
  store of src/storage/kv_store.cpp.
*/
module Locality {
  import opened RaftTypes
  import opened Checker
  import opened History
  import opened Lifting
  import KvStore

  // ---------------------------------------------------------------- a history on the whole store

  function CommandOf(e: HistoryEntry): Command {
    match e.kind
    case OpPut => Put(e.key, e.value)
    case OpGet => Get(e.key)
    case OpCas => Cas(e.key, e.expected, e.value)
  }

  /** The observation recorded in `e` is what the store answered. */
  predicate Observed(e: HistoryEntry, r: CmdResult) {
    if e.kind == OpGet then e.response == r.value else e.ok == r.ok
  }

  predicate ReplaysStore(order: seq<HistoryEntry>, data: KvStore.Map) {
    order == []
    || (var a := KvStore.Apply(data, CommandOf(order[0]));
        !order[0].pending && Observed(order[0], a.result) && ReplaysStore(order[1..], a.data))
  }

  function Ops(h: seq<HistoryEntry>): seq<KeyOp> { Map(Op, h) }

  /** The entries on key `k`, in order. */
  function On(h: seq<HistoryEntry>, k: string): seq<HistoryEntry> {
    if h == [] then []
    else
      var n := |h| - 1;
      On(h[..n], k) + if h[n].key == k then [h[n]] else []
  }

  function Finished(h: seq<HistoryEntry>): seq<HistoryEntry> {
    if h == [] then []
    else
      var n := |h| - 1;
      Finished(h[..n]) + if h[n].pending then [] else [h[n]]
  }

  /** The entries with a definite outcome, and the crashed puts as if they had succeeded. */
  function Sure(h: seq<HistoryEntry>): seq<HistoryEntry> {
    if h == [] then []
    else
      var n := |h| - 1;
      Sure(h[..n]) + if Counts(Op(h[n])) && h[n].response != "node_crashed" then [h[n]] else []
  }

  function Maybe(h: seq<HistoryEntry>): seq<HistoryEntry> {
    if h == [] then []
    else
      var n := |h| - 1;
      Maybe(h[..n]) + if Counts(Op(h[n])) && h[n].response == "node_crashed" && h[n].kind == OpPut
                      then [h[n].(ok := true)] else []
  }

  /** One order of all the sure entries and some of the crashed puts, on all keys together, respects
      real time and replays on the store. */
  ghost predicate IsGlobal(order: seq<HistoryEntry>, kept: multiset<HistoryEntry>) {
    multiset(order) == kept && InRealTime(Ops(order)) && ReplaysStore(order, map[])
  }

  ghost predicate HistoryLinearizable(h: seq<HistoryEntry>) {
    exists chosen, order :: chosen <= multiset(Maybe(h)) && IsGlobal(order, multiset(Sure(h)) + chosen)
  }

  ghost predicate EveryKeyLinearizable(h: seq<HistoryEntry>) {
    forall k :: KeyLinearizable(Ops(On(Finished(h), k)))
  }

  // ---------------------------------------------------------------- one key of the store is the checker's register

  /** The checker's model of a key is the exact projection of the store. */
  lemma Projection(e: HistoryEntry, data: KvStore.Map)
    ensures var a, m := KvStore.Apply(data, CommandOf(e)), ApplyModel(KvStore.Lookup(data, e.key), Op(e));
            && KvStore.Lookup(a.data, e.key) == m.state
            && (Observed(e, a.result) <==> ResponseMatches(Op(e), m.response))
            && forall k | k != e.key :: KvStore.Lookup(a.data, k) == KvStore.Lookup(data, k)
  {
  }

  lemma {:induction false} OnConcat(a: seq<HistoryEntry>, b: seq<HistoryEntry>, k: string)
    ensures On(a + b, k) == On(a, k) + On(b, k)
    decreases |b|
  {
    if b == [] {
      assert a + b == a;
    } else {
      var n := |b| - 1;
      assert (a + b)[..|a + b| - 1] == a + b[..n];
      OnConcat(a, b[..n], k);
    }
  }

  lemma OnFront(e: HistoryEntry, t: seq<HistoryEntry>, k: string)
    ensures On([e] + t, k) == (if e.key == k then [e] else []) + On(t, k)
  {
    OnConcat([e], t, k);
    assert [e][..0] == [] && On([e], k) == On([], k) + if e.key == k then [e] else [];
  }

  /** A sequential run of the store is a sequential run of every key. */
  lemma {:induction false} ReplayByKey(order: seq<HistoryEntry>, data: KvStore.Map)
    ensures ReplaysStore(order, data) <==> forall k :: Replays(Ops(On(order, k)), KvStore.Lookup(data, k))
    decreases |order|
  {
    hide ApplyModel, ResponseMatches, KvStore.Apply, Observed, Map, On;
    if order == [] {
      forall k ensures Replays(Ops(On(order, k)), KvStore.Lookup(data, k)) { OnNothing(order, k); }
    } else {
      var e, t := order[0], order[1..];
      var data' := KvStore.Apply(data, CommandOf(e)).data;
      assert order == [e] + t;
      Projection(e, data);
      ReplayByKey(t, data');
      forall k ensures Replays(Ops(On(order, k)), KvStore.Lookup(data, k)) <==>
                       (k == e.key ==> CanTake(Op(e), KvStore.Lookup(data, k)))
                       && Replays(Ops(On(t, k)), KvStore.Lookup(data', k))
      {
        ReplayHead(e, t, k, KvStore.Lookup(data, k));
      }
      if ReplaysStore(order, data) { assert Replays(Ops(On(order, e.key)), KvStore.Lookup(data, e.key)); }
    }
  }

  lemma OnNothing(h: seq<HistoryEntry>, k: string)
    requires h == []
    ensures Ops(On(h, k)) == []
  {
  }

  lemma ReplayHead(e: HistoryEntry, t: seq<HistoryEntry>, k: string, state: KvState)
    ensures Replays(Ops(On([e] + t, k)), state) <==>
            if k == e.key then CanTake(Op(e), state) && Replays(Ops(On(t, k)), ApplyModel(state, Op(e)).state)
            else Replays(Ops(On(t, k)), state)
  {
    hide On, ApplyModel, ResponseMatches;
    OnFront(e, t, k);
    if k == e.key {
      Concat(Op, [e], On(t, k));
      assert Ops([e]) == [Op(e)];
      var r := Ops([e] + On(t, k));
      assert r[0] == Op(e) && r[1..] == Ops(On(t, k));
    } else {
      assert [] + On(t, k) == On(t, k);
    }
  }

  // ---------------------------------------------------------------- entries and what the checker sees of them

  /** The per-key view commutes with the sorting into certain operations and crashed puts. */
  lemma {:induction false} Views(h: seq<HistoryEntry>, k: string)
    ensures Certain(Ops(On(Finished(h), k))) == Ops(On(Sure(h), k))
    ensures AllCommitted(Crashed(Ops(On(Finished(h), k)))) == Ops(On(Maybe(h), k))
  {
    hide Map, On, Certain, Crashed, AllCommitted, Op;
    if h == [] {
      NoViews(k);
    } else {
      var n := |h| - 1;
      var e, t := h[n], h[..n];
      Views(t, k);
      SeenAs(e);
      assert forall s: seq<HistoryEntry> :: s + [] == s;
      assert forall s: seq<KeyOp> :: s + [] == s;
      if !e.pending {
        OnSnoc(Finished(t), e, k);
        OnSnoc(Sure(t), e, k);
        OnSnoc(Maybe(t), e.(ok := true), k);
        SortSnoc(Ops(On(Finished(t), k)), Op(e));
        Snoc(Op, On(Finished(t), k), e);
        Snoc(Op, On(Sure(t), k), e);
        Snoc(Op, On(Maybe(t), k), e.(ok := true));
      }
    }
  }

  lemma NoViews(k: string)
    ensures On([], k) == [] && Ops([]) == [] && Certain([]) == [] && AllCommitted(Crashed([])) == []
  {
  }

  lemma SeenAs(e: HistoryEntry)
    ensures Op(e).kind == e.kind && Op(e).response == e.response && Op(e).pending == e.pending
    ensures Op(e.(ok := true)) == Committed(Op(e))
  {
  }

  lemma OnSnoc(h: seq<HistoryEntry>, e: HistoryEntry, k: string)
    ensures On(h + [e], k) == On(h, k) + if e.key == k then [e] else []
  {
  }

  lemma {:induction false} CountOn(s: seq<HistoryEntry>, k: string, e: HistoryEntry)
    ensures multiset(On(s, k))[e] == if e.key == k then multiset(s)[e] else 0
  {
    if s != [] {
      var n := |s| - 1;
      CountOn(s[..n], k, e);
      assert s == s[..n] + [s[n]];
    }
  }

  lemma {:induction false} Listed(m: multiset<HistoryEntry>) returns (s: seq<HistoryEntry>)
    ensures multiset(s) == m
    decreases |m|
  {
    if m == multiset{} {
      s := [];
    } else {
      var e :| e in m;
      s := Listed(m - multiset{e});
      s := s + [e];
    }
  }

  // ---------------------------------------------------------------- one key at a time, all keys together

  /** `o` holds the sure entries on the keys `ks` and the crashed puts `c`, nothing else. */
  ghost predicate Covers(h: seq<HistoryEntry>, ks: set<string>, c: seq<HistoryEntry>, o: seq<HistoryEntry>) {
    forall e: HistoryEntry ::
      if e.key in ks then
        multiset(c)[e] <= multiset(Maybe(h))[e] && multiset(o)[e] == multiset(Sure(h))[e] + multiset(c)[e]
      else
        multiset(c)[e] == 0 && multiset(o)[e] == 0
  }

  ghost predicate Solves(h: seq<HistoryEntry>, ks: set<string>, c: seq<HistoryEntry>, o: seq<HistoryEntry>) {
    && Covers(h, ks, c, o)
    && InRealTime(Ops(o))
    && forall k :: Replays(Ops(On(o, k)), None)
  }

  lemma LiftKey(h: seq<HistoryEntry>, k: string) returns (c: seq<HistoryEntry>, o: seq<HistoryEntry>)
    requires KeyLinearizable(Ops(On(Finished(h), k)))
    ensures Solves(h, {k}, c, o)
  {
    hide Map, On, Finished, Sure, Maybe, Certain, Crashed, AllCommitted, Replays, InRealTime;
    var ops := Ops(On(Finished(h), k));
    var chosen :| Explains(ops, chosen);
    var order :| IsLinearization(order, multiset(Certain(ops)) + chosen, None);
    Views(h, k);
    var d;
    c, d := Choose(Op, On(Maybe(h), k), chosen);
    Concat(Op, On(Sure(h), k), c);
    o := Arrange(Op, On(Sure(h), k) + c, order);
    forall e: HistoryEntry
      ensures if e.key == k then multiset(c)[e] <= multiset(Maybe(h))[e] && multiset(o)[e] == multiset(Sure(h))[e] + multiset(c)[e]
              else multiset(c)[e] == 0 && multiset(o)[e] == 0
    {
      CountOn(Sure(h), k, e);
      CountOn(Maybe(h), k, e);
      assert multiset(On(Maybe(h), k))[e] == multiset(c)[e] + multiset(d)[e];
    }
    assert Covers(h, {k}, c, o);
    OneKey(o, k);
  }

  lemma OneKey(o: seq<HistoryEntry>, k: string)
    requires forall e: HistoryEntry | e.key != k :: multiset(o)[e] == 0
    requires Replays(Ops(o), None)
    ensures forall k' :: Replays(Ops(On(o, k')), None)
  {
    forall i | 0 <= i < |o| ensures o[i].key == k { assert o[i] in multiset(o); }
    forall k' ensures Replays(Ops(On(o, k')), None) {
      if k' == k { OnAll(o, k); } else { OnNone(o, k'); OnNothing([], k'); }
    }
  }

  lemma {:induction false} OnAll(o: seq<HistoryEntry>, k: string)
    requires forall i | 0 <= i < |o| :: o[i].key == k
    ensures On(o, k) == o
  {
    if o != [] {
      var n := |o| - 1;
      OnAll(o[..n], k);
      assert o == o[..n] + [o[n]];
    }
  }

  lemma {:induction false} OnNone(o: seq<HistoryEntry>, k: string)
    requires forall i | 0 <= i < |o| :: o[i].key != k
    ensures On(o, k) == []
  {
    if o != [] { OnNone(o[..|o| - 1], k); }
  }

  /** Restricting a solution to one of its keys explains that key. */
  lemma LowerKey(h: seq<HistoryEntry>, ks: set<string>, c: seq<HistoryEntry>, o: seq<HistoryEntry>, k: string)
    requires Solves(h, ks, c, o) && k in ks
    ensures KeyLinearizable(Ops(On(Finished(h), k)))
  {
    hide Map, On, Finished, Sure, Maybe, Certain, Crashed, AllCommitted, Replays, InRealTime;
    var d := Listed(multiset(On(Maybe(h), k)) - multiset(On(c, k)));
    forall e: HistoryEntry
      ensures multiset(On(o, k))[e] == multiset(On(Sure(h), k) + On(c, k))[e]
      ensures multiset(On(c, k) + d)[e] == multiset(On(Maybe(h), k))[e]
    {
      CountOn(o, k, e);
      CountOn(c, k, e);
      CountOn(Sure(h), k, e);
      CountOn(Maybe(h), k, e);
    }
    Permute(Op, On(o, k), On(Sure(h), k) + On(c, k));
    Permute(Op, On(c, k) + d, On(Maybe(h), k));
    Concat(Op, On(Sure(h), k), On(c, k));
    Concat(Op, On(c, k), d);
    Views(h, k);
    OnRealTime(o, k);
    var ops := Ops(On(Finished(h), k));
    var chosen := multiset(Ops(On(c, k)));
    assert IsLinearization(Ops(On(o, k)), multiset(Certain(ops)) + chosen, None);
    assert Explains(ops, chosen);
  }

  lemma {:induction false} OnRealTime(o: seq<HistoryEntry>, k: string)
    requires InRealTime(Ops(o))
    ensures InRealTime(Ops(On(o, k)))
    decreases |o|
  {
    hide Map, On, InRealTime;
    if o == [] {
      OnNothing(o, k);
    } else {
      var e, t := o[0], o[1..];
      assert o == [e] + t;
      Front(Op, e, t);
      FirstInRealTime(Op(e), Ops(t));
      OnRealTime(t, k);
      OnFront(e, t, k);
      if e.key == k {
        Front(Op, e, On(t, k));
        FirstInRealTime(Op(e), Ops(On(t, k)));
        forall i | 0 <= i < |On(t, k)| ensures !Precedes(Ops(On(t, k))[i], Op(e)) {
          NotBefore(e, t, k, i);
        }
      } else {
        assert [] + On(t, k) == On(t, k);
      }
    }
  }

  lemma NotBefore(e: HistoryEntry, t: seq<HistoryEntry>, k: string, i: nat)
    requires i < |On(t, k)| && forall j | 0 <= j < |t| :: !Precedes(Ops(t)[j], Op(e))
    ensures !Precedes(Ops(On(t, k))[i], Op(e))
  {
    var x := On(t, k)[i];
    assert x in multiset(On(t, k));
    CountOn(t, k, x);
    assert x in multiset(t);
    var j :| 0 <= j < |t| && t[j] == x;
    assert !Precedes(Ops(t)[j], Op(e));
  }

  // ---------------------------------------------------------------- merging the orders of different keys

  /** Take the head that was invoked first. */
  ghost function Merge(a: seq<HistoryEntry>, b: seq<HistoryEntry>): seq<HistoryEntry>
    decreases |a| + |b|
  {
    if a == [] then b
    else if b == [] then a
    else if a[0].invoke <= b[0].invoke then [a[0]] + Merge(a[1..], b)
    else [b[0]] + Merge(a, b[1..])
  }

  ghost predicate AllTimed(s: seq<HistoryEntry>) {
    forall i | 0 <= i < |s| :: s[i].invoke <= s[i].ret
  }

  lemma {:induction false} MergeKeepsAll(a: seq<HistoryEntry>, b: seq<HistoryEntry>)
    ensures multiset(Merge(a, b)) == multiset(a) + multiset(b)
    decreases |a| + |b|
  {
    if a != [] && b != [] {
      assert a == [a[0]] + a[1..] && b == [b[0]] + b[1..];
      if a[0].invoke <= b[0].invoke { MergeKeepsAll(a[1..], b); } else { MergeKeepsAll(a, b[1..]); }
    }
  }

  lemma {:induction false} MergeKeepsOrder(a: seq<HistoryEntry>, b: seq<HistoryEntry>, k: string)
    ensures On(a, k) == [] ==> On(Merge(a, b), k) == On(b, k)
    ensures On(b, k) == [] ==> On(Merge(a, b), k) == On(a, k)
    decreases |a| + |b|
  {
    hide On;
    OnNothing([], k);
    if a != [] && b != [] {
      assert a == [a[0]] + a[1..] && b == [b[0]] + b[1..];
      if a[0].invoke <= b[0].invoke {
        MergeKeepsOrder(a[1..], b, k);
        OnFront(a[0], a[1..], k);
        OnFront(a[0], Merge(a[1..], b), k);
      } else {
        MergeKeepsOrder(a, b[1..], k);
        OnFront(b[0], b[1..], k);
        OnFront(b[0], Merge(a, b[1..]), k);
      }
    }
  }

  /** Nothing in `s` returned before `e` was invoked. */
  ghost predicate NoneBefore(s: seq<HistoryEntry>, e: HistoryEntry) {
    forall i | 0 <= i < |s| :: !Precedes(Op(s[i]), Op(e))
  }

  lemma LaterHead(e: HistoryEntry, s: seq<HistoryEntry>)
    requires s != [] && e.invoke <= s[0].invoke && AllTimed(s) && InRealTime(Ops(s))
    ensures NoneBefore(s, e)
  {
    forall i | 0 <= i < |s| ensures !Precedes(Op(s[i]), Op(e)) {
      assert Ops(s)[i] == Op(s[i]) && Ops(s)[0] == Op(s[0]);
      if i > 0 { assert !Precedes(Ops(s)[i], Ops(s)[0]); }
    }
  }

  lemma FirstOf(e: HistoryEntry, s: seq<HistoryEntry>)
    ensures InRealTime(Ops([e] + s)) <==> InRealTime(Ops(s)) && NoneBefore(s, e)
  {
    Front(Op, e, s);
    FirstInRealTime(Op(e), Ops(s));
    if forall k | 0 <= k < |Ops(s)| :: !Precedes(Ops(s)[k], Op(e)) {
      forall i | 0 <= i < |s| ensures !Precedes(Op(s[i]), Op(e)) { assert Ops(s)[i] == Op(s[i]); }
    }
  }

  lemma NoneBeforeMerge(e: HistoryEntry, a: seq<HistoryEntry>, b: seq<HistoryEntry>)
    requires NoneBefore(a, e) && NoneBefore(b, e)
    ensures NoneBefore(Merge(a, b), e)
  {
    var m := Merge(a, b);
    MergeKeepsAll(a, b);
    forall i | 0 <= i < |m| ensures !Precedes(Op(m[i]), Op(e)) {
      assert m[i] in multiset(m);
      assert m[i] in a || m[i] in b;
    }
  }

  /** The heart of locality: the merge respects real time across keys. */
  lemma {:induction false} MergeInRealTime(a: seq<HistoryEntry>, b: seq<HistoryEntry>)
    requires InRealTime(Ops(a)) && InRealTime(Ops(b)) && AllTimed(a) && AllTimed(b)
    ensures InRealTime(Ops(Merge(a, b)))
    decreases |a| + |b|
  {
    hide Map, InRealTime, NoneBefore;
    if a != [] && b != [] {
      assert a == [a[0]] + a[1..] && b == [b[0]] + b[1..];
      FirstOf(a[0], a[1..]);
      FirstOf(b[0], b[1..]);
      if a[0].invoke <= b[0].invoke {
        MergeInRealTime(a[1..], b);
        LaterHead(a[0], b);
        NoneBeforeMerge(a[0], a[1..], b);
        FirstOf(a[0], Merge(a[1..], b));
      } else {
        MergeInRealTime(a, b[1..]);
        LaterHead(b[0], a);
        NoneBeforeMerge(b[0], a, b[1..]);
        FirstOf(b[0], Merge(a, b[1..]));
      }
    }
  }

  // ---------------------------------------------------------------- locality

  /** Every finished entry returned no earlier than it was invoked. */
  ghost predicate Timed(h: seq<HistoryEntry>) {
    forall i | 0 <= i < |h| && !h[i].pending :: h[i].invoke <= h[i].ret
  }

  lemma {:induction false} SortedFrom(h: seq<HistoryEntry>, e: HistoryEntry)
    requires Timed(h) && (e in multiset(Sure(h)) || e in multiset(Maybe(h)))
    ensures e.invoke <= e.ret
  {
    var n := |h| - 1;
    if e in multiset(Sure(h[..n])) || e in multiset(Maybe(h[..n])) { SortedFrom(h[..n], e); }
  }

  lemma SolutionTimed(h: seq<HistoryEntry>, ks: set<string>, c: seq<HistoryEntry>, o: seq<HistoryEntry>)
    requires Timed(h) && Covers(h, ks, c, o)
    ensures AllTimed(o)
  {
    hide Sure, Maybe, Timed;
    forall i | 0 <= i < |o| ensures o[i].invoke <= o[i].ret {
      assert o[i] in multiset(o);
      SortedFrom(h, o[i]);
    }
  }

  /** Solutions for different keys merge into one. */
  lemma Join(h: seq<HistoryEntry>, k: string, c: seq<HistoryEntry>, o: seq<HistoryEntry>,
             ks: set<string>, cs: seq<HistoryEntry>, os: seq<HistoryEntry>)
    requires Timed(h) && k !in ks && Solves(h, {k}, c, o) && Solves(h, ks, cs, os)
    ensures Solves(h, ks + {k}, c + cs, Merge(o, os))
  {
    hide Map, On, Sure, Maybe, Timed, InRealTime, Replays;
    var m := Merge(o, os);
    MergeKeepsAll(o, os);
    assert Covers(h, ks + {k}, c + cs, m) by {
      assert multiset(c + cs) == multiset(c) + multiset(cs);
    }
    SolutionTimed(h, {k}, c, o);
    SolutionTimed(h, ks, cs, os);
    MergeInRealTime(o, os);
    forall j ensures Replays(Ops(On(m, j)), None) {
      MergeKeepsOrder(o, os, j);
      if j == k { Absent(h, ks, cs, os, j); } else { Absent(h, {k}, c, o, j); }
    }
  }

  lemma Absent(h: seq<HistoryEntry>, ks: set<string>, c: seq<HistoryEntry>, o: seq<HistoryEntry>, k: string)
    requires Covers(h, ks, c, o) && k !in ks
    ensures On(o, k) == []
  {
    hide On, Sure, Maybe;
    forall i | 0 <= i < |o| ensures o[i].key != k { assert o[i] in multiset(o); }
    OnNone(o, k);
  }

  lemma {:induction false} SolveKeys(h: seq<HistoryEntry>, ks: set<string>)
    returns (c: seq<HistoryEntry>, o: seq<HistoryEntry>)
    requires Timed(h) && forall k | k in ks :: KeyLinearizable(Ops(On(Finished(h), k)))
    ensures Solves(h, ks, c, o)
    decreases |ks|
  {
    hide Map, On, Sure, Maybe, Finished, Timed, KeyLinearizable, Replays, Solves;
    if ks == {} {
      c, o := [], [];
      SolveNothing(h);
    } else {
      var k :| k in ks;
      var c1, o1 := LiftKey(h, k);
      var c2, o2 := SolveKeys(h, ks - {k});
      Join(h, k, c1, o1, ks - {k}, c2, o2);
      assert ks - {k} + {k} == ks;
      c, o := c1 + c2, Merge(o1, o2);
    }
  }

  lemma SolveNothing(h: seq<HistoryEntry>)
    ensures Solves(h, {}, [], [])
  {
  }

  ghost function KeysOf(h: seq<HistoryEntry>): set<string> { set e | e in Sure(h) + Maybe(h) :: e.key }

  /** One order of the whole history exists if and only if every key passes on its own. */
  lemma LocalityTheorem(h: seq<HistoryEntry>)
    ensures HistoryLinearizable(h) ==> EveryKeyLinearizable(h)
    ensures Timed(h) ==> (HistoryLinearizable(h) <==> EveryKeyLinearizable(h))
  {
    hide Map, On, Sure, Maybe, Finished, Timed, KeyLinearizable, Replays, InRealTime, KeysOf, ReplaysStore;
    if HistoryLinearizable(h) {
      GlobalRestricts(h);
    }
    if Timed(h) && EveryKeyLinearizable(h) {
      var c, o := SolveKeys(h, KeysOf(h));
      SolutionIsGlobal(h, c, o);
    }
  }

  lemma SolutionIsGlobal(h: seq<HistoryEntry>, c: seq<HistoryEntry>, o: seq<HistoryEntry>)
    requires Solves(h, KeysOf(h), c, o)
    ensures HistoryLinearizable(h)
  {
    hide Map, On, Sure, Maybe, Replays, InRealTime, ReplaysStore;
    forall e: HistoryEntry
      ensures multiset(c)[e] <= multiset(Maybe(h))[e] && multiset(o)[e] == multiset(Sure(h))[e] + multiset(c)[e]
    {
      if e.key !in KeysOf(h) { assert e !in Sure(h) + Maybe(h) && e !in Sure(h) && e !in Maybe(h); }
    }
    forall k ensures Replays(Ops(On(o, k)), KvStore.Lookup(map[], k)) { }
    ReplayByKey(o, map[]);
    assert multiset(c) <= multiset(Maybe(h)) && IsGlobal(o, multiset(Sure(h)) + multiset(c));
  }

  lemma GlobalRestricts(h: seq<HistoryEntry>)
    requires HistoryLinearizable(h)
    ensures EveryKeyLinearizable(h)
  {
    hide Map, On, Sure, Maybe, Finished, KeyLinearizable, Replays, InRealTime, ReplaysStore;
    var chosen, order :| chosen <= multiset(Maybe(h)) && IsGlobal(order, multiset(Sure(h)) + chosen);
    var c := Listed(chosen);
    ReplayByKey(order, map[]);
    forall k ensures KeyLinearizable(Ops(On(Finished(h), k))) {
      forall j ensures Replays(Ops(On(On(order, k), j)), None) {
        assert Replays(Ops(On(order, k)), KvStore.Lookup(map[], k));
        OnOn(order, k, j);
      }
      forall e: HistoryEntry
        ensures if e.key == k then multiset(On(c, k))[e] <= multiset(Maybe(h))[e]
                     && multiset(On(order, k))[e] == multiset(Sure(h))[e] + multiset(On(c, k))[e]
                else multiset(On(c, k))[e] == 0 && multiset(On(order, k))[e] == 0
      {
        CountOn(c, k, e);
        CountOn(order, k, e);
      }
      assert Covers(h, {k}, On(c, k), On(order, k));
      OnRealTime(order, k);
      LowerKey(h, {k}, On(c, k), On(order, k), k);
    }
  }

  lemma OnOn(o: seq<HistoryEntry>, k: string, j: string)
    requires Replays(Ops(On(o, k)), None)
    ensures Replays(Ops(On(On(o, k), j)), None)
  {
    var s := On(o, k);
    forall i | 0 <= i < |s| ensures s[i].key == k {
      assert s[i] in multiset(s);
      CountOn(o, k, s[i]);
    }
    if j == k { OnAll(s, k); } else { OnNone(s, j); }
  }
}
