/**
  Past 15 crashed puts on one key the checker tries a sample of the subsets only
  (src/checker/own_checker.cpp:148-172), and may then reject a history that has a linearization.
*/
module CheckerLimit {
  import opened RaftTypes
  import opened Checker

  function Crash(value: string, invoke: nat, ret: nat): KeyOp {
    KeyOp(OpPut, value, "", invoke, ret, "node_crashed", false, false)
  }

  function Read(value: string, invoke: nat, ret: nat): KeyOp {
    KeyOp(OpGet, "", "", invoke, ret, value, true, false)
  }

  /** Sixteen crashed puts: the reads below need the first and the last, and none of the rest. */
  function Puts(): seq<KeyOp> {
    [Crash("a", 1, 2)] + seq(14, _ => Crash("c", 3, 4)) + [Crash("b", 15, 16)]
  }

  function Reads(): seq<KeyOp> { [Read("a", 10, 11), Read("b", 20, 21)] }

  predicate Writes(op: KeyOp) { op.kind == OpPut }

  /** What a read returns was written by the last write before it. */
  lemma {:induction false} ReadHasWriter(order: seq<KeyOp>, state: KvState, g: nat) returns (p: int)
    requires Replays(order, state) && g < |order| && order[g].kind == OpGet && order[g].response != ""
    requires forall i | 0 <= i < |order| :: order[i].kind == OpCas ==> !order[i].ok
    ensures -1 <= p < g
    ensures if p == -1 then state == Some(order[g].response) else order[p].kind == OpPut && order[p].value == order[g].response
    ensures forall i | p < i < g :: !Writes(order[i])
    decreases g
  {
    if g == 0 {
      p := -1;
    } else {
      p := ReadHasWriter(order[1..], ApplyModel(state, order[0]).state, g - 1);
      forall i | p + 1 < i < g ensures !Writes(order[i]) { assert order[i] == order[1..][i - 1]; }
      p := if p >= 0 || Writes(order[0]) then p + 1 else -1;
    }
  }

  /** A value nobody wrote cannot have been read. */
  lemma NoWriter(ops: seq<KeyOp>, r: nat)
    requires r < |ops| && ops[r].kind == OpGet && ops[r].response != ""
    requires forall i | 0 <= i < |ops| ::
               if ops[i].kind == OpPut then ops[i].value != ops[r].response else ops[i].kind == OpCas ==> !ops[i].ok
    ensures !Linearizable(multiset(ops), None)
  {
    hide InRealTime, Replays;
    if order :| IsLinearization(order, multiset(ops), None) {
      forall i | 0 <= i < |order| ensures order[i] in ops { assert order[i] in multiset(order); }
      var g := Place(order, ops, r);
      var p := ReadHasWriter(order, None, g);
      assert false;
    }
  }

  lemma Place(order: seq<KeyOp>, ops: seq<KeyOp>, i: nat) returns (g: nat)
    requires multiset(order) == multiset(ops) && i < |ops|
    ensures g < |order| && order[g] == ops[i]
  {
    assert ops[i] in multiset(order);
    g :| g < |order| && order[g] == ops[i];
  }

  /** A write that must come between the only writer and the read spoils the read. */
  lemma Overwritten(ops: seq<KeyOp>, r: nat, w: nat, between: nat)
    requires r < |ops| && ops[r].kind == OpGet && ops[r].response != ""
    requires w < |ops| && between < |ops| && Writes(ops[between]) && ops[between].value != ops[r].response
    requires Precedes(ops[w], ops[between]) && Precedes(ops[between], ops[r])
    requires forall i | 0 <= i < |ops| :: ops[i].kind != OpCas
    requires forall i | 0 <= i < |ops| && ops[i].kind == OpPut && ops[i].value == ops[r].response :: ops[i] == ops[w]
    ensures !Linearizable(multiset(ops), None)
  {
    hide Replays;
    if order :| IsLinearization(order, multiset(ops), None) {
      forall i | 0 <= i < |order| ensures order[i] in ops { assert order[i] in multiset(order); }
      var g := Place(order, ops, r);
      var b := Place(order, ops, between);
      var p := ReadHasWriter(order, None, g);
      assert false;
    }
  }

  lemma {:induction false} AllCrashed(ops: seq<KeyOp>)
    requires forall i | 0 <= i < |ops| :: ops[i].kind == OpPut && ops[i].response == "node_crashed" && !ops[i].pending
    ensures Certain(ops) == [] && Crashed(ops) == ops
  {
    if ops != [] {
      var k := |ops| - 1;
      AllCrashed(ops[..k]);
      assert ops == ops[..k] + [ops[k]];
    }
  }

  lemma Sorted()
    ensures Certain(Puts() + Reads()) == Reads() && Crashed(Puts() + Reads()) == Puts()
  {
    hide Puts, Certain, Crashed, AllCommitted;
    var ps, g1, g2 := Puts(), Read("a", 10, 11), Read("b", 20, 21);
    ArePuts();
    AllCrashed(ps);
    SortedSnoc(ps, g1);
    SortedSnoc(ps + [g1], g2);
    assert ps + Reads() == ps + [g1] + [g2];
  }

  lemma ArePuts()
    ensures |Puts()| == 16
    ensures forall i | 0 <= i < |Puts()| :: Puts()[i] == Crash("a", 1, 2) || Puts()[i] == Crash("b", 15, 16) || Puts()[i] == Crash("c", 3, 4)
    ensures Puts()[0] == Crash("a", 1, 2) && Puts()[1] == Crash("c", 3, 4) && Puts()[15] == Crash("b", 15, 16)
  {
  }

  lemma SortedSnoc(ops: seq<KeyOp>, op: KeyOp)
    requires Counts(op) && op.response != "node_crashed"
    ensures Certain(ops + [op]) == Certain(ops) + [op] && Crashed(ops + [op]) == Crashed(ops)
  {
  }

  /** None, all, or one of the puts: no linearization. */
  lemma SampleFails()
    ensures !SampleLinearizable(Reads(), Puts())
  {
    hide Linearizable, Puts;
    ArePuts();
    NoWriter(Reads(), 0);
    var all := Reads() + AllCommitted(Puts());
    assert all[2] == Committed(Puts()[0]) && all[3] == Committed(Puts()[1]);
    Overwritten(all, 0, 2, 3);
    forall i | 0 <= i < |Puts()| ensures !Linearizable(multiset(Reads() + [Committed(Puts()[i])]), None) {
      NoWriter(Reads() + [Committed(Puts()[i])], if Puts()[i].value == "a" then 1 else 0);
    }
  }

  /** Just the first and the last put. */
  lemma Explained()
    ensures KeyLinearizable(Puts() + Reads())
  {
    hide Certain, Crashed, Puts;
    Sorted();
    ArePuts();
    var a, b := Committed(Crash("a", 1, 2)), Committed(Crash("b", 15, 16));
    var order := [a, Reads()[0], b, Reads()[1]];
    assert InRealTime(order);
    Replaying(a, b);
    var chosen := multiset{a, b};
    var all := AllCommitted(Puts());
    assert all == [a] + all[1..15] + [b];
    assert multiset(all) == multiset{a} + multiset(all[1..15]) + multiset{b};
    assert multiset(order) == multiset(Reads()) + chosen;
    assert IsLinearization(order, multiset(Reads()) + chosen, None);
    assert Explains(Puts() + Reads(), chosen);
  }

  lemma Replaying(a: KeyOp, b: KeyOp)
    requires a == Committed(Crash("a", 1, 2)) && b == Committed(Crash("b", 15, 16))
    ensures Replays([a, Reads()[0], b, Reads()[1]], None)
  {
    var g1, g2 := Reads()[0], Reads()[1];
    assert [a, g1, b, g2][1..] == [g1, b, g2] && [g1, b, g2][1..] == [b, g2] && [b, g2][1..] == [g2] && [g2][1..] == [];
    assert Replays([g2], Some("b"));
    assert Replays([b, g2], Some("a"));
    assert Replays([g1, b, g2], Some("a"));
  }

  /** The checker answers no on these eighteen operations, and a linearization exists. */
  lemma SampleMissesWitness()
    ensures var ops := Puts() + Reads();
            |Crashed(ops)| > CAP && KeyLinearizable(ops) && !SampleLinearizable(Certain(ops), Crashed(ops))
  {
    hide Puts, Reads, Certain, Crashed, KeyLinearizable, SampleLinearizable;
    Sorted();
    ArePuts();
    SampleFails();
    Explained();
  }
}
