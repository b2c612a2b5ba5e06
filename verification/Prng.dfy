/**
  The bounded draw and the shuffle of the simulator's generator (src/sim/prng.cpp, src/sim/prng.hpp).
  The raw 64-bit words are a given stream.
*/
module Prng {
  import opened RaftTypes

  const WORD: nat := 0x1_0000_0000_0000_0000

  // ---------------------------------------------------------------- which words a draw accepts

  /** The high and the low word of the 128-bit product. */
  function High(x: nat, n: nat): nat { x * n / WORD }
  function Low(x: nat, n: nat): nat { x * n % WORD }

  /** 64-bit negation modulo `n`. */
  function Threshold(n: nat): nat
    requires 0 < n < WORD
  {
    (WORD - n) % n
  }

  predicate Accepted(x: nat, n: nat)
    requires 0 < n < WORD
  {
    Low(x, n) >= Threshold(n)
  }

  /** The 64-bit words that the draw turns into `v`. */
  function Preimage(n: nat, v: nat): set<nat>
    requires 0 < n < WORD
  {
    set x: nat | x < WORD && High(x, n) == v && Accepted(x, n)
  }

  lemma QuotientIs(y: nat, b: nat, v: nat)
    requires 0 < b && v * b <= y < v * b + b
    ensures y / b == v && y % b == y - v * b
  {
    var q := y / b;
    assert y == q * b + y % b;
    assert q < v ==> (q + 1) * b <= v * b;
    assert q > v ==> (v + 1) * b <= q * b;
  }

  lemma InWindow(y: nat, b: nat, v: nat, t: nat)
    requires t < b
    ensures y / b == v && y % b >= t <==> v * b + t <= y < v * b + b
  {
    assert y == (y / b) * b + y % b;
    if v * b + t <= y < v * b + b { QuotientIs(y, b, v); }
  }

  function CeilDiv(a: nat, n: nat): nat
    requires 0 < n
  {
    (a + n - 1) / n
  }

  lemma CeilBounds(a: nat, n: nat, x: nat)
    requires 0 < n
    ensures a <= x * n <==> CeilDiv(a, n) <= x
  {
    var q := CeilDiv(a, n);
    var r := (a + n - 1) % n;
    assert a + n - 1 == q * n + r;
    if q <= x { assert q * n <= x * n; }
    if x < q { assert x * n + n <= q * n by { assert (x + 1) * n <= q * n; } }
  }

  lemma CeilShift(a: nat, n: nat, q: nat)
    requires 0 < n
    ensures CeilDiv(a + q * n, n) == CeilDiv(a, n) + q
  {
    var p := CeilDiv(a, n);
    assert a + n - 1 == p * n + (a + n - 1) % n;
    assert (p + q) * n == p * n + q * n;
    QuotientIs(a + q * n + n - 1, n, p + q);
  }

  lemma ModAfterSubtract(b: nat, n: nat)
    requires 0 < n <= b
    ensures (b - n) % n == b % n
  {
    var q := b / n;
    assert b == q * n + b % n;
    assert q == 0 ==> q * n == 0;
    assert (q - 1) * n == q * n - n;
    QuotientIs(b - n, n, q - 1);
  }

  /** The first word that yields `v`. */
  function First(n: nat, v: nat): nat
    requires 0 < n
  {
    CeilDiv(v * WORD + WORD % n, n)
  }

  /** The words that yield `v` are an interval of length floor(2^64 / n). */
  lemma Window(n: nat, v: nat, x: nat)
    requires 0 < n < WORD
    ensures High(x, n) == v && Accepted(x, n) <==> First(n, v) <= x < First(n, v) + WORD / n
  {
    var t, q := WORD % n, WORD / n;
    assert WORD == q * n + t;
    ModAfterSubtract(WORD, n);
    InWindow(x * n, WORD, v, t);
    CeilBounds(v * WORD + t, n, x);
    CeilBounds(v * WORD + t + q * n, n, x);
    CeilShift(v * WORD + t, n, q);
  }

  lemma WindowFits(n: nat, v: nat)
    requires 0 < n < WORD && v < n
    ensures First(n, v) + WORD / n <= WORD
  {
    var t, q := WORD % n, WORD / n;
    assert WORD == q * n + t;
    CeilShift(v * WORD + t, n, q);
    assert (v + 1) * WORD <= n * WORD;
    CeilBounds(v * WORD + t + q * n, n, WORD);
  }

  lemma {:induction false} IntervalSize(s: set<nat>, lo: nat, len: nat)
    requires forall x :: x in s <==> lo <= x < lo + len
    ensures |s| == len
    decreases len
  {
    if len == 0 {
      assert s == {};
    } else {
      IntervalSize(s - {lo}, lo + 1, len - 1);
    }
  }

  /** The draw is unbiased: every value below `n` comes from the same number of accepted words. */
  lemma Unbiased(n: nat, v: nat)
    requires 0 < n < WORD && v < n
    ensures |Preimage(n, v)| == WORD / n
  {
    forall x: nat ensures x in Preimage(n, v) <==> First(n, v) <= x < First(n, v) + WORD / n {
      Window(n, v, x);
      WindowFits(n, v);
    }
    IntervalSize(Preimage(n, v), First(n, v), WORD / n);
  }

  lemma HighBelow(x: nat, n: nat)
    requires 0 < n && x < WORD
    ensures High(x, n) < n
  {
    assert x * n < WORD * n;
    assert x * n == High(x, n) * WORD + Low(x, n);
    assert High(x, n) >= n ==> High(x, n) * WORD >= n * WORD;
  }

  // ---------------------------------------------------------------- shuffling

  /** Draws for shuffling the first `i` elements, from the back, perhaps not all of them. */
  predicate IsDraws(draws: seq<nat>, i: nat) {
    |draws| < (if i == 0 then 1 else i) && forall k | 0 <= k < |draws| :: draws[k] < i - k
  }

  function Swapped<T>(s: seq<T>, i: nat, j: nat): (r: seq<T>)
    requires i < |s| && j < |s|
    ensures |r| == |s|
  {
    s[i := s[j]][j := s[i]]
  }

  /** Swap the last of the first `i` elements with a drawn one, then go on with one fewer. */
  function Shuffled<T>(s: seq<T>, i: nat, draws: seq<nat>): (p: seq<T>)
    requires i <= |s| && IsDraws(draws, i)
    ensures |p| == |s| && p[i..] == s[i..]
    ensures draws != [] ==> p[i - 1] == s[draws[0]]
    decreases |draws|
  {
    if draws == [] then s else Shuffled(Swapped(s, draws[0], i - 1), i - 1, draws[1..])
  }

  lemma SwapKeepsAll<T>(s: seq<T>, i: nat, j: nat)
    requires i < |s| && j < |s|
    ensures multiset(Swapped(s, i, j)) == multiset(s)
  {
  }

  lemma {:induction false} ShuffleKeepsAll<T>(s: seq<T>, i: nat, draws: seq<nat>)
    requires i <= |s| && IsDraws(draws, i)
    ensures multiset(Shuffled(s, i, draws)) == multiset(s)
    decreases |draws|
  {
    if draws != [] {
      SwapKeepsAll(s, draws[0], i - 1);
      ShuffleKeepsAll(Swapped(s, draws[0], i - 1), i - 1, draws[1..]);
    }
  }

  lemma NoDraws<T>(s: seq<T>, i: nat)
    requires i <= |s|
    ensures Shuffled(s, i, []) == s
  {
  }

  lemma {:induction false} OneMoreDraw<T>(s: seq<T>, i: nat, draws: seq<nat>, j: nat)
    requires i <= |s| && IsDraws(draws, i) && |draws| + 1 < i && j < i - |draws|
    ensures Shuffled(s, i, draws + [j]) == Swapped(Shuffled(s, i, draws), j, i - |draws| - 1)
    decreases |draws|
  {
    if draws != [] {
      assert (draws + [j])[1..] == draws[1..] + [j];
      OneMoreDraw(Swapped(s, draws[0], i - 1), i - 1, draws[1..], j);
    } else {
      assert ([] + [j])[1..] == [] && ([] + [j])[0] == j;
    }
  }

  lemma DropLast<T>(s: seq<T>)
    requires s != []
    ensures multiset(s[..|s| - 1]) == multiset(s) - multiset{s[|s| - 1]}
  {
    assert s == s[..|s| - 1] + [s[|s| - 1]];
  }

  /** One swap brings the wanted element to the end. */
  lemma BringLast<T>(s: seq<T>, p: seq<T>) returns (j: nat)
    requires s != [] && multiset(s) == multiset(p) && |s| == |p|
    ensures j < |s|
    ensures var i, s' := |s| - 1, Swapped(s, j, |s| - 1); s'[i] == p[i] && multiset(s'[..i]) == multiset(p[..i])
  {
    hide Swapped;
    var i := |s| - 1;
    assert p[i] in multiset(s);
    j :| j < |s| && s[j] == p[i];
    SwapKeepsAll(s, j, i);
    LastAfterSwap(s, j);
    DropLast(Swapped(s, j, i));
    DropLast(p);
  }

  lemma LastAfterSwap<T>(s: seq<T>, j: nat)
    requires j < |s|
    ensures Swapped(s, j, |s| - 1)[|s| - 1] == s[j]
  {
  }

  lemma SwapWithin<T>(s: seq<T>, i: nat, j: nat)
    requires j < i <= |s|
    ensures var s', f := Swapped(s, j, i - 1), Swapped(s[..i], j, i - 1);
            s'[..i - 1] == f[..i - 1] && s'[i - 1..] == [f[i - 1]] + s[i..]
  {
  }

  /** Every order is reached by some draws. */
  lemma {:induction false} EveryOrderDrawn<T>(s: seq<T>, p: seq<T>, i: nat) returns (draws: seq<nat>)
    requires i <= |s| == |p| && multiset(s[..i]) == multiset(p[..i]) && s[i..] == p[i..]
    ensures IsDraws(draws, i) && (i > 0 ==> |draws| == i - 1) && Shuffled(s, i, draws) == p
    decreases i
  {
    hide Swapped, Shuffled;
    if i <= 1 {
      draws := [];
      LastOne(s, p, i);
      NoDraws(s, i);
    } else {
      var j := BringLast(s[..i], p[..i]);
      SwapWithin(s, i, j);
      assert p[i - 1..] == [p[i - 1]] + p[i..] && p[..i][..i - 1] == p[..i - 1];
      var rest := EveryOrderDrawn(Swapped(s, j, i - 1), p, i - 1);
      draws := [j] + rest;
      OneDraw(s, i, j, rest);
    }
  }

  lemma OneDraw<T>(s: seq<T>, i: nat, j: nat, rest: seq<nat>)
    requires j < i <= |s| && 1 < i && IsDraws(rest, i - 1)
    ensures IsDraws([j] + rest, i) && Shuffled(s, i, [j] + rest) == Shuffled(Swapped(s, j, i - 1), i - 1, rest)
  {
  }

  lemma LastOne<T>(s: seq<T>, p: seq<T>, i: nat)
    requires i <= 1 && i <= |s| == |p| && multiset(s[..i]) == multiset(p[..i]) && s[i..] == p[i..]
    ensures s == p
  {
    assert s == s[..i] + s[i..] && p == p[..i] + p[i..];
    if i == 1 { assert s[..1] == [s[0]] && p[..1] == [p[0]] && p[0] in multiset(s[..1]); }
  }

  ghost predicate Distinct<T>(s: seq<T>) { forall a, b | 0 <= a < b < |s| :: s[a] != s[b] }

  lemma SwapKeepsDistinct<T>(s: seq<T>, i: nat, j: nat)
    requires i < |s| && j < |s| && Distinct(s)
    ensures Distinct(Swapped(s, i, j))
  {
  }

  /** Different draws give different orders of distinct elements. */
  lemma {:induction false} DrawsAreDistinct<T>(s: seq<T>, i: nat, d: seq<nat>, e: seq<nat>)
    requires i <= |s| && IsDraws(d, i) && IsDraws(e, i) && |d| == |e| && Distinct(s)
    requires Shuffled(s, i, d) == Shuffled(s, i, e)
    ensures d == e
    decreases |d|
  {
    hide Swapped, Distinct;
    if d != [] {
      SameElement(s, d[0], e[0]);
      SwapKeepsDistinct(s, d[0], i - 1);
      DrawsAreDistinct(Swapped(s, d[0], i - 1), i - 1, d[1..], e[1..]);
      assert d == [d[0]] + d[1..] && e == [e[0]] + e[1..];
    }
  }

  lemma SameElement<T>(s: seq<T>, a: nat, b: nat)
    requires Distinct(s) && a < |s| && b < |s| && s[a] == s[b]
    ensures a == b
  {
  }

  // ---------------------------------------------------------------- the generator

  /** How many words are thrown away before the first accepted one. */
  function Rejected(words: seq<nat>, n: nat): (k: nat)
    requires 0 < n < WORD
    ensures k <= |words|
    ensures forall i | 0 <= i < k :: !Accepted(words[i], n)
    ensures k < |words| ==> Accepted(words[k], n)
  {
    if words == [] || Accepted(words[0], n) then 0 else 1 + Rejected(words[1..], n)
  }

  class Generator {
    /** The raw words still to come. */
    var words: seq<nat>

    ghost predicate Valid()
      reads this
    {
      forall i | 0 <= i < |words| :: words[i] < WORD
    }

    /** None when the words run out. */
    method Range(lo: nat, hi: nat) returns (r: Option<nat>)
      requires Valid() && lo < hi < WORD
      modifies this
      ensures Valid()
      ensures var n, k := hi - lo, Rejected(old(words), hi - lo);
              if k < |old(words)| then
                r == Some(lo + High(old(words)[k], n)) && words == old(words)[k + 1..]
              else
                r == None && words == []
      ensures r.Some? ==> lo <= r.value < hi
    {
      var n := hi - lo;
      ghost var k := 0;
      if words == [] { return None; }
      var x := words[0];
      words := words[1..];
      var m := x * n;
      var l := m % WORD;
      if l < n {
        var t := (WORD - n) % n;
        while l < t
          invariant k < |old(words)| && x == old(words)[k] && words == old(words)[k + 1..]
          invariant m == x * n && l == Low(x, n)
          invariant Rejected(old(words), n) == k + Rejected(old(words)[k..], n)
          decreases |words|
        {
          assert old(words)[k..][1..] == old(words)[k + 1..];
          if words == [] { return None; }
          x := words[0];
          words := words[1..];
          m := x * n;
          l := m % WORD;
          k := k + 1;
        }
      }
      HighBelow(x, n);
      r := Some(m / WORD + lo);
    }

    static method Exchange<T>(v: array<T>, i: nat, j: nat)
      requires i < v.Length && j < v.Length
      modifies v
      ensures v[..] == Swapped(old(v[..]), i, j)
    {
      v[i], v[j] := v[j], v[i];
    }

    /** Fisher-Yates, from the back; stops early only when the words run out. */
    method Shuffle<T>(v: array<T>) returns (done: bool, ghost draws: seq<nat>)
      requires Valid() && v.Length < WORD
      modifies this, v
      ensures Valid() && multiset(v[..]) == multiset(old(v[..]))
      ensures IsDraws(draws, v.Length) && v[..] == Shuffled(old(v[..]), v.Length, draws)
      ensures done && v.Length > 0 ==> |draws| == v.Length - 1
    {
      hide Shuffled, Rejected, High, Swapped;
      draws := [];
      NoDraws(v[..], v.Length);
      var i := v.Length;
      while i > 1
        invariant 0 <= i <= v.Length && Valid() && |draws| == v.Length - i
        invariant IsDraws(draws, v.Length) && v[..] == Shuffled(old(v[..]), v.Length, draws)
      {
        var j := Range(0, i);
        if j == None {
          ShuffleKeepsAll(old(v[..]), v.Length, draws);
          return false, draws;
        }
        Exchange(v, j.value, i - 1);
        OneMoreDraw(old(v[..]), v.Length, draws, j.value);
        draws := draws + [j.value];
        i := i - 1;
      }
      ShuffleKeepsAll(old(v[..]), v.Length, draws);
      return true, draws;
    }
  }
}
