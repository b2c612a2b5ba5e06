/**
  The Wing-Gong linearizability checker for one key (src/checker/own_checker.cpp): the search over a
  mutable bitmap, and the enumeration of the puts whose outcome a crash left open.
*/
module Checker {
  import opened RaftTypes
  import opened Lifting

  datatype OpKind = OpPut | OpGet | OpCas

  datatype KeyOp = KeyOp(kind: OpKind, value: string, expected: string, invoke: nat, ret: nat,
                         response: string, ok: bool, pending: bool)

  type KvState = Option<string>

  datatype Outcome = Outcome(state: KvState, response: string)

  function ApplyModel(state: KvState, op: KeyOp): Outcome {
    var current := if state.Some? then state.value else "";
    match op.kind
    case OpPut => Outcome(Some(op.value), "ok")
    case OpGet => Outcome(state, current)
    case OpCas => if current == op.expected then Outcome(Some(op.value), "ok") else Outcome(state, "cas_mismatch")
  }

  predicate ResponseMatches(op: KeyOp, expected: string) {
    match op.kind
    case OpGet => op.response == expected
    case OpPut => op.ok
    case OpCas => op.ok == (expected == "ok")
  }

  // ---------------------------------------------------------------- what it means to be linearizable

  /** `a` returned before `b` was invoked, so it must take effect first. */
  predicate Precedes(a: KeyOp, b: KeyOp) { 0 < a.ret < b.invoke }

  ghost predicate InRealTime(order: seq<KeyOp>) {
    forall i, j | 0 <= i < j < |order| :: !Precedes(order[j], order[i])
  }

  /** Run one after the other from `state`, the operations give the observed responses. */
  predicate Replays(order: seq<KeyOp>, state: KvState) {
    order == [] || (CanTake(order[0], state) && Replays(order[1..], ApplyModel(state, order[0]).state))
  }

  predicate CanTake(op: KeyOp, state: KvState) {
    !op.pending && ResponseMatches(op, ApplyModel(state, op).response)
  }

  ghost predicate IsLinearization(order: seq<KeyOp>, ops: multiset<KeyOp>, state: KvState) {
    multiset(order) == ops && InRealTime(order) && Replays(order, state)
  }

  ghost predicate Linearizable(ops: multiset<KeyOp>, state: KvState) {
    exists order :: IsLinearization(order, ops, state)
  }

  // ---------------------------------------------------------------- the search

  /** The operations not placed yet. */
  ghost function Unplaced(ops: seq<KeyOp>, placed: seq<bool>): multiset<KeyOp>
    requires |placed| == |ops|
  {
    if ops == [] then multiset{}
    else
      var k := |ops| - 1;
      Unplaced(ops[..k], placed[..k]) + if placed[k] then multiset{} else multiset{ops[k]}
  }

  lemma {:induction false} UnplacedHas(ops: seq<KeyOp>, placed: seq<bool>, i: nat)
    requires |placed| == |ops| && i < |ops| && !placed[i]
    ensures Unplaced(ops, placed) == Unplaced(ops, placed[i := true]) + multiset{ops[i]}
  {
    var k := |ops| - 1;
    if i < k {
      UnplacedHas(ops[..k], placed[..k], i);
      assert placed[i := true][..k] == placed[..k][i := true];
    } else {
      assert placed[i := true][..k] == placed[..k];
    }
  }

  lemma {:induction false} UnplacedFrom(ops: seq<KeyOp>, placed: seq<bool>, op: KeyOp) returns (i: nat)
    requires |placed| == |ops| && op in Unplaced(ops, placed)
    ensures i < |ops| && !placed[i] && ops[i] == op
  {
    var k := |ops| - 1;
    if !placed[k] && ops[k] == op { i := k; } else { i := UnplacedFrom(ops[..k], placed[..k], op); }
  }

  /** No unplaced operation has to come before `i`. */
  predicate Eligible(ops: seq<KeyOp>, placed: seq<bool>, i: nat)
    requires |placed| == |ops| && i < |ops|
  {
    forall j | 0 <= j < |ops| && j != i && !placed[j] && !ops[j].pending :: !Precedes(ops[j], ops[i])
  }

  /** Operation `i` may be placed next, and what is left can then be linearized. */
  ghost predicate Works(ops: seq<KeyOp>, placed: seq<bool>, state: KvState, i: nat)
    requires |placed| == |ops| && i < |ops|
  {
    && !placed[i] && Eligible(ops, placed, i) && CanTake(ops[i], state)
    && Linearizable(Unplaced(ops, placed[i := true]), ApplyModel(state, ops[i]).state)
  }

  lemma {:induction false} ReplaysComplete(order: seq<KeyOp>, state: KvState, k: nat)
    requires Replays(order, state) && k < |order|
    ensures !order[k].pending
  {
    if k > 0 { ReplaysComplete(order[1..], ApplyModel(state, order[0]).state, k - 1); }
  }

  /** Putting an operation first respects real time if none of the others had to precede it. */
  lemma FirstInRealTime(op: KeyOp, rest: seq<KeyOp>)
    ensures InRealTime([op] + rest) <==> InRealTime(rest) && forall k | 0 <= k < |rest| :: !Precedes(rest[k], op)
  {
    hide Precedes;
    var order := [op] + rest;
    if InRealTime(order) {
      forall a, b | 0 <= a < b < |rest| ensures !Precedes(rest[b], rest[a]) { assert !Precedes(order[b + 1], order[a + 1]); }
      forall k | 0 <= k < |rest| ensures !Precedes(rest[k], op) { assert !Precedes(order[k + 1], order[0]); }
    }
  }

  /** Soundness of a step: what works extends to a linearization of everything unplaced. */
  lemma StepIsSound(ops: seq<KeyOp>, placed: seq<bool>, state: KvState, i: nat)
    requires |placed| == |ops| && i < |ops| && Works(ops, placed, state, i)
    ensures Linearizable(Unplaced(ops, placed), state)
  {
    hide Precedes, Unplaced, ApplyModel, InRealTime, CanTake;
    var s', left := ApplyModel(state, ops[i]).state, Unplaced(ops, placed[i := true]);
    var rest :| IsLinearization(rest, left, s');
    var order := [ops[i]] + rest;
    UnplacedHas(ops, placed, i);
    forall k | 0 <= k < |rest| ensures !Precedes(rest[k], ops[i]) {
      assert rest[k] in multiset(rest);
      var j := UnplacedFrom(ops, placed[i := true], rest[k]);
      ReplaysComplete(rest, s', k);
    }
    FirstInRealTime(ops[i], rest);
    assert order[1..] == rest;
    assert IsLinearization(order, Unplaced(ops, placed), state);
  }

  /** Completeness of a step: if anything is left and can be linearized, some operation works. */
  lemma StepIsComplete(ops: seq<KeyOp>, placed: seq<bool>, state: KvState) returns (i: nat)
    requires |placed| == |ops| && Unplaced(ops, placed) != multiset{} && Linearizable(Unplaced(ops, placed), state)
    ensures i < |ops| && Works(ops, placed, state, i)
  {
    hide Precedes, Unplaced, ApplyModel, InRealTime, CanTake;
    var order :| IsLinearization(order, Unplaced(ops, placed), state);
    var rest := order[1..];
    assert order == [order[0]] + rest;
    FirstInRealTime(order[0], rest);
    assert order[0] in multiset(order);
    i := UnplacedFrom(ops, placed, order[0]);
    UnplacedHas(ops, placed, i);
    assert multiset(order) == multiset(rest) + multiset{order[0]};
    Cancel(Unplaced(ops, placed[i := true]), multiset(rest), ops[i]);
    forall j | 0 <= j < |ops| && j != i && !placed[j] ensures !Precedes(ops[j], ops[i]) {
      UnplacedHas(ops, placed[i := true], j);
      assert ops[j] in multiset(rest);
    }
    assert IsLinearization(rest, Unplaced(ops, placed[i := true]), ApplyModel(state, ops[i]).state);
  }

  lemma NothingLeft(state: KvState)
    ensures Linearizable(multiset{}, state)
  {
    assert IsLinearization([], multiset{}, state);
  }

  method IsEligible(ops: seq<KeyOp>, placed: array<bool>, i: nat) returns (eligible: bool)
    requires placed.Length == |ops| && i < |ops|
    ensures eligible <==> Eligible(ops, placed[..], i)
  {
    eligible := true;
    var j := 0;
    while j < |ops|
      invariant 0 <= j <= |ops|
      invariant eligible <==> forall k | 0 <= k < j && k != i && !placed[k] && !ops[k].pending :: !Precedes(ops[k], ops[i])
    {
      if j != i && !placed[j] && !ops[j].pending && ops[j].ret > 0 && ops[j].ret < ops[i].invoke {
        eligible := false;
        assert Precedes(ops[j], ops[i]) && !placed[..][j];
        return;
      }
      j := j + 1;
    }
  }

  /** The backtracking search answers exactly whether the unplaced operations can be linearized, and
      leaves the bitmap as it found it when they cannot. */
  method WgCheck(ops: seq<KeyOp>, placed: array<bool>, nDone: nat, state: KvState) returns (found: bool)
    requires placed.Length == |ops| && nDone + |Unplaced(ops, placed[..])| == |ops|
    modifies placed
    ensures found <==> Linearizable(Unplaced(ops, old(placed[..])), state)
    ensures !found ==> placed[..] == old(placed[..])
    decreases |ops| - nDone
  {
    hide Unplaced, Linearizable, Eligible, ApplyModel, ResponseMatches;
    ghost var before := placed[..];
    if nDone == |ops| {
      assert Unplaced(ops, before) == multiset{};
      NothingLeft(state);
      return true;
    }
    var i := 0;
    while i < |ops|
      invariant 0 <= i <= |ops| && placed[..] == before
      invariant forall k | 0 <= k < i :: !Works(ops, before, state, k)
    {
      if !placed[i] && !ops[i].pending {
        var eligible := IsEligible(ops, placed, i);
        if eligible {
          var next := ApplyModel(state, ops[i]);
          if ResponseMatches(ops[i], next.response) {
            UnplacedHas(ops, before, i);
            placed[i] := true;
            assert placed[..] == before[i := true];
            found := WgCheck(ops, placed, nDone + 1, next.state);
            if found {
              assert Works(ops, before, state, i);
              StepIsSound(ops, before, state, i);
              return;
            }
            placed[i] := false;
            assert placed[..] == before;
          }
        }
      }
      i := i + 1;
    }
    found := false;
    if Linearizable(Unplaced(ops, before), state) { var _ := StepIsComplete(ops, before, state); }
  }

  // ---------------------------------------------------------------- operations with an open outcome

  const CAP: nat := 15

  predicate Counts(op: KeyOp) { !op.pending && op.response != "timeout" && op.response != "not_leader" }

  /** The operations with a definite response. */
  function Certain(ops: seq<KeyOp>): seq<KeyOp> {
    if ops == [] then []
    else
      var k := |ops| - 1;
      Certain(ops[..k]) + if Counts(ops[k]) && ops[k].response != "node_crashed" then [ops[k]] else []
  }

  /** The puts cut off by a crash: each may or may not have taken effect. */
  function Crashed(ops: seq<KeyOp>): seq<KeyOp> {
    if ops == [] then []
    else
      var k := |ops| - 1;
      Crashed(ops[..k])
      + if Counts(ops[k]) && ops[k].response == "node_crashed" && ops[k].kind == OpPut then [ops[k]] else []
  }

  function Committed(op: KeyOp): KeyOp { op.(ok := true) }

  function AllCommitted(us: seq<KeyOp>): (r: seq<KeyOp>)
    ensures |r| == |us|
  {
    seq(|us|, k requires 0 <= k < |us| => Committed(us[k]))
  }

  lemma SortSnoc(ops: seq<KeyOp>, op: KeyOp)
    ensures Certain(ops + [op]) == Certain(ops) + if Counts(op) && op.response != "node_crashed" then [op] else []
    ensures AllCommitted(Crashed(ops + [op])) == AllCommitted(Crashed(ops)) +
            if Counts(op) && op.response == "node_crashed" && op.kind == OpPut then [Committed(op)] else []
  {
    assert (ops + [op])[..|ops|] == ops;
  }

  /** Some of the crashed puts took effect, and together with the certain operations they linearize. */
  ghost predicate KeyLinearizable(ops: seq<KeyOp>) {
    exists chosen :: Explains(ops, chosen)
  }

  ghost predicate Explains(ops: seq<KeyOp>, chosen: multiset<KeyOp>) {
    && chosen <= multiset(AllCommitted(Crashed(ops)))
    && Linearizable(multiset(Certain(ops)) + chosen, None)
  }

  // ---------------------------------------------------------------- bit masks reach every subset

  function Pow2(n: nat): nat { if n == 0 then 1 else 2 * Pow2(n - 1) }

  /** The puts whose bit is set, lowest bit first. */
  function Pick(us: seq<KeyOp>, mask: nat): seq<KeyOp>
    decreases |us|
  {
    if us == [] then []
    else (if mask % 2 == 1 then [Committed(us[0])] else []) + Pick(us[1..], mask / 2)
  }

  lemma CommittedHead(us: seq<KeyOp>)
    requires us != []
    ensures AllCommitted(us) == [Committed(us[0])] + AllCommitted(us[1..])
  {
  }

  lemma {:induction false} PickIsSubset(us: seq<KeyOp>, mask: nat)
    ensures multiset(Pick(us, mask)) <= multiset(AllCommitted(us))
    decreases |us|
  {
    hide AllCommitted;
    if us != [] {
      CommittedHead(us);
      PickIsSubset(us[1..], mask / 2);
    }
  }

  lemma PickBits(us: seq<KeyOp>, m: nat)
    requires us != []
    ensures Pick(us, 2 * m) == Pick(us[1..], m) && Pick(us, 2 * m + 1) == [Committed(us[0])] + Pick(us[1..], m)
  {
    assert (2 * m + 1) / 2 == m && (2 * m) / 2 == m && (2 * m) % 2 == 0;
  }

  lemma {:induction false} EverySubsetHasMask(us: seq<KeyOp>, chosen: multiset<KeyOp>) returns (mask: nat)
    requires chosen <= multiset(AllCommitted(us))
    ensures mask < Pow2(|us|) && multiset(Pick(us, mask)) == chosen
    decreases |us|
  {
    hide AllCommitted, Committed, Pick;
    if us == [] {
      mask := 0;
      NothingToPick(us, chosen);
    } else {
      CommittedHead(us);
      var u, rest := Committed(us[0]), AllCommitted(us[1..]);
      SplitChoice(chosen, u, rest);
      if u in chosen {
        var m := EverySubsetHasMask(us[1..], chosen - multiset{u});
        mask := 2 * m + 1;
        PickBits(us, m);
        assert multiset([u] + Pick(us[1..], m)) == multiset{u} + multiset(Pick(us[1..], m));
      } else {
        var m := EverySubsetHasMask(us[1..], chosen);
        mask := 2 * m;
        PickBits(us, m);
      }
    }
  }

  lemma NothingToPick(us: seq<KeyOp>, chosen: multiset<KeyOp>)
    requires us == [] && chosen <= multiset(AllCommitted(us))
    ensures multiset(Pick(us, 0)) == chosen
  {
  }

  lemma {:induction false} AllUnplaced(ops: seq<KeyOp>, placed: seq<bool>)
    requires |placed| == |ops| && forall k | 0 <= k < |ops| :: !placed[k]
    ensures Unplaced(ops, placed) == multiset(ops)
  {
    if ops != [] {
      var k := |ops| - 1;
      AllUnplaced(ops[..k], placed[..k]);
      assert ops == ops[..k] + [ops[k]];
    }
  }

  method TrySubset(ops: seq<KeyOp>) returns (found: bool)
    ensures found <==> Linearizable(multiset(ops), None)
  {
    if ops == [] {
      NothingLeft(None);
      return true;
    }
    var placed := new bool[|ops|](_ => false);
    AllUnplaced(ops, placed[..]);
    found := WgCheck(ops, placed, 0, None);
  }

  method Combine(certain: seq<KeyOp>, us: seq<KeyOp>, mask: nat) returns (combined: seq<KeyOp>)
    ensures combined == certain + Pick(us, mask)
  {
    combined := certain;
    var i, bits := 0, mask;
    assert us[0..] == us;
    while i < |us|
      invariant 0 <= i <= |us|
      invariant combined + Pick(us[i..], bits) == certain + Pick(us, mask)
    {
      assert us[i..][1..] == us[i + 1..];
      if bits % 2 == 1 { combined := combined + [Committed(us[i])]; }
      i, bits := i + 1, bits / 2;
    }
  }

  method Separate(ops: seq<KeyOp>) returns (certain: seq<KeyOp>, us: seq<KeyOp>)
    ensures certain == Certain(ops) && us == Crashed(ops)
  {
    certain, us := [], [];
    var i := 0;
    while i < |ops|
      invariant 0 <= i <= |ops|
      invariant certain == Certain(ops[..i]) && us == Crashed(ops[..i])
    {
      assert ops[..i + 1][..i] == ops[..i];
      var op := ops[i];
      i := i + 1;
      if op.pending { continue; }
      if op.response == "timeout" || op.response == "not_leader" { continue; }
      if op.response == "node_crashed" {
        if op.kind == OpPut { us := us + [op]; }
        continue;
      }
      certain := certain + [op];
    }
    assert ops[..i] == ops;
  }

  /** What is tried when there are too many crashed puts: none, all, and each of the first few alone. */
  ghost predicate SampleLinearizable(certain: seq<KeyOp>, us: seq<KeyOp>) {
    || Linearizable(multiset(certain), None)
    || Linearizable(multiset(certain + AllCommitted(us)), None)
    || exists i | 0 <= i < |us| && i < 15 :: Linearizable(multiset(certain + [Committed(us[i])]), None)
  }

  ghost predicate MaskWorks(certain: seq<KeyOp>, us: seq<KeyOp>, mask: nat) {
    Linearizable(multiset(certain + Pick(us, mask)), None)
  }

  /** Trying every mask is trying every subset. */
  lemma MasksDecide(ops: seq<KeyOp>)
    ensures KeyLinearizable(ops) <==> SomeMaskWorks(Certain(ops), Crashed(ops))
  {
    hide Linearizable, AllCommitted;
    var c, us := Certain(ops), Crashed(ops);
    if SomeMaskWorks(c, us) {
      var mask: nat :| mask < Pow2(|us|) && MaskWorks(c, us, mask);
      PickIsSubset(us, mask);
      assert multiset(c + Pick(us, mask)) == multiset(c) + multiset(Pick(us, mask));
      assert Explains(ops, multiset(Pick(us, mask)));
    }
    if KeyLinearizable(ops) {
      var chosen :| Explains(ops, chosen);
      var mask := EverySubsetHasMask(us, chosen);
      assert multiset(c + Pick(us, mask)) == multiset(c) + chosen;
      assert MaskWorks(c, us, mask);
    }
  }

  ghost predicate SomeMaskWorks(certain: seq<KeyOp>, us: seq<KeyOp>) {
    exists mask: nat :: mask < Pow2(|us|) && MaskWorks(certain, us, mask)
  }

  method TryMasks(certain: seq<KeyOp>, us: seq<KeyOp>) returns (ok: bool)
    ensures ok <==> SomeMaskWorks(certain, us)
  {
    hide Linearizable;
    var mask: nat := 0;
    while mask < Pow2(|us|)
      invariant forall m: nat | m < mask :: !MaskWorks(certain, us, m)
      decreases Pow2(|us|) - mask
    {
      var combined := Combine(certain, us, mask);
      ok := TrySubset(combined);
      if ok {
        assert MaskWorks(certain, us, mask);
        return;
      }
      mask := mask + 1;
    }
    ok := false;
  }

  method TrySample(certain: seq<KeyOp>, us: seq<KeyOp>) returns (ok: bool)
    ensures ok <==> SampleLinearizable(certain, us)
  {
    hide Linearizable;
    ok := TrySubset(certain);
    if ok { return; }
    ok := TrySubset(certain + AllCommitted(us));
    if ok { return; }
    var i := 0;
    while i < |us| && i < CAP
      invariant 0 <= i <= |us| && i <= CAP && !ok
      invariant forall k | 0 <= k < i :: !Linearizable(multiset(certain + [Committed(us[k])]), None)
    {
      ok := TrySubset(certain + [Committed(us[i])]);
      if ok { return; }
      i := i + 1;
    }
  }

  /** With at most 15 crashed puts the verdict is exact. Beyond that it is exact for the subsets tried, and
      a positive verdict still has a real witness. */
  method CheckKeyLinearizable(ops: seq<KeyOp>) returns (ok: bool)
    ensures |Crashed(ops)| <= 15 ==> (ok <==> KeyLinearizable(ops))
    ensures |Crashed(ops)| > 15 ==> (ok <==> SampleLinearizable(Certain(ops), Crashed(ops)))
    ensures ok ==> KeyLinearizable(ops)
  {
    hide Linearizable, KeyLinearizable, SampleLinearizable, SomeMaskWorks;
    MasksDecide(ops);
    SampleIsSound(ops);
    var certain, us := Separate(ops);
    if certain == [] && us == [] {
      NothingToExplain(ops);
      return true;
    }
    if |us| <= CAP {
      ok := TryMasks(certain, us);
    } else {
      ok := TrySample(certain, us);
    }
  }

  lemma NothingToExplain(ops: seq<KeyOp>)
    requires Certain(ops) == [] && Crashed(ops) == []
    ensures KeyLinearizable(ops)
  {
    NothingLeft(None);
    assert multiset(Certain(ops)) + multiset{} == multiset{};
    assert Explains(ops, multiset{});
  }

  lemma SampleIsSound(ops: seq<KeyOp>)
    ensures SampleLinearizable(Certain(ops), Crashed(ops)) ==> KeyLinearizable(ops)
  {
    hide Linearizable;
    var c, us := Certain(ops), Crashed(ops);
    if Linearizable(multiset(c), None) {
      assert multiset(c) + multiset{} == multiset(c);
      assert Explains(ops, multiset{});
    } else if Linearizable(multiset(c + AllCommitted(us)), None) {
      assert multiset(c + AllCommitted(us)) == multiset(c) + multiset(AllCommitted(us));
      assert Explains(ops, multiset(AllCommitted(us)));
    } else if i :| 0 <= i < |us| && i < CAP && Linearizable(multiset(c + [Committed(us[i])]), None) {
      assert AllCommitted(us)[i] == Committed(us[i]);
      assert multiset(c + [Committed(us[i])]) == multiset(c) + multiset{Committed(us[i])};
      assert Explains(ops, multiset{Committed(us[i])});
    }
  }
}
