/** Choices and orders of the images of a list come from choices and orders of the list itself. */
module Lifting {
  function Map<A, B>(f: A -> B, xs: seq<A>): (ys: seq<B>)
    ensures |ys| == |xs|
  {
    seq(|xs|, k requires 0 <= k < |xs| => f(xs[k]))
  }

  lemma Front<A, B>(f: A -> B, x: A, xs: seq<A>)
    ensures Map(f, [x] + xs) == [f(x)] + Map(f, xs)
  {
  }

  lemma Snoc<A, B>(f: A -> B, xs: seq<A>, x: A)
    ensures Map(f, xs + [x]) == Map(f, xs) + [f(x)]
  {
  }

  lemma Concat<A, B>(f: A -> B, xs: seq<A>, ys: seq<A>)
    ensures Map(f, xs + ys) == Map(f, xs) + Map(f, ys)
    ensures multiset(Map(f, xs + ys)) == multiset(Map(f, xs)) + multiset(Map(f, ys))
  {
    assert Map(f, xs + ys) == Map(f, xs) + Map(f, ys);
  }

  lemma Cancel<T>(a: multiset<T>, b: multiset<T>, x: T)
    requires a + multiset{x} == b + multiset{x}
    ensures a == b
  {
    assert a == a + multiset{x} - multiset{x} && b == b + multiset{x} - multiset{x};
  }

  lemma SplitChoice<T>(chosen: multiset<T>, u: T, rest: seq<T>)
    requires chosen <= multiset([u] + rest)
    ensures u in chosen ==> chosen - multiset{u} <= multiset(rest) && multiset{u} + (chosen - multiset{u}) == chosen
    ensures u !in chosen ==> chosen <= multiset(rest)
  {
  }

  lemma TakeOut<T>(s: seq<T>, i: nat)
    requires i < |s|
    ensures multiset(s) == multiset(s[..i] + s[i + 1..]) + multiset{s[i]}
  {
    assert s == s[..i] + [s[i]] + s[i + 1..];
  }

  lemma MapTakeOut<A, B>(f: A -> B, xs: seq<A>, i: nat)
    requires i < |xs|
    ensures multiset(Map(f, xs)) == multiset(Map(f, xs[..i] + xs[i + 1..])) + multiset{f(xs[i])}
  {
    TakeOut(Map(f, xs), i);
    assert Map(f, xs)[..i] + Map(f, xs)[i + 1..] == Map(f, xs[..i] + xs[i + 1..]);
  }

  lemma Find<A, B>(f: A -> B, xs: seq<A>, y: B) returns (i: nat)
    requires y in multiset(Map(f, xs))
    ensures i < |xs| && f(xs[i]) == y
  {
    i :| i < |xs| && Map(f, xs)[i] == y;
  }

  /** Permuting a list permutes its images. */
  lemma {:induction false} Permute<A, B>(f: A -> B, a: seq<A>, b: seq<A>)
    requires multiset(a) == multiset(b)
    ensures multiset(Map(f, a)) == multiset(Map(f, b))
    decreases |a|
  {
    hide Map;
    assert |a| == |multiset(a)| == |multiset(b)| == |b|;
    if a == [] {
      assert b == [];
    } else {
      assert a[0] in multiset(b);
      var i :| 0 <= i < |b| && b[i] == a[0];
      TakeOut(a, 0);
      TakeOut(b, i);
      Cancel(multiset(a[..0] + a[1..]), multiset(b[..i] + b[i + 1..]), a[0]);
      Permute(f, a[..0] + a[1..], b[..i] + b[i + 1..]);
      MapTakeOut(f, a, 0);
      MapTakeOut(f, b, i);
    }
  }

  /** A choice among the images comes from a choice among the elements. */
  lemma {:induction false} Choose<A, B>(f: A -> B, xs: seq<A>, chosen: multiset<B>) returns (c: seq<A>, d: seq<A>)
    requires chosen <= multiset(Map(f, xs))
    ensures multiset(c) + multiset(d) == multiset(xs) && multiset(Map(f, c)) == chosen
  {
    hide Map;
    if xs == [] {
      c, d := [], [];
    } else {
      var x, t := xs[0], xs[1..];
      assert xs == [x] + t;
      Front(f, x, t);
      SplitChoice(chosen, f(x), Map(f, t));
      AddHead(x, t);
      if f(x) in chosen {
        var c', d' := Choose(f, t, chosen - multiset{f(x)});
        Front(f, x, c');
        c, d := [x] + c', d';
        AddHead(x, c');
        AddHead(f(x), Map(f, c'));
        AddLeft(multiset{x}, multiset(c'), multiset(d'));
      } else {
        var c', d' := Choose(f, t, chosen);
        c, d := c', [x] + d';
        AddHead(x, d');
        AddLeft(multiset{x}, multiset(d'), multiset(c'));
      }
    }
  }

  lemma AddHead<T>(x: T, s: seq<T>)
    ensures multiset([x] + s) == multiset{x} + multiset(s)
  {
  }

  lemma AddLeft<T>(x: multiset<T>, a: multiset<T>, b: multiset<T>)
    ensures (x + a) + b == x + (a + b) && b + (x + a) == x + (b + a)
  {
  }

  /** An order of the images comes from an order of the elements. */
  lemma {:induction false} Arrange<A, B>(f: A -> B, xs: seq<A>, order: seq<B>) returns (ys: seq<A>)
    requires multiset(order) == multiset(Map(f, xs))
    ensures multiset(ys) == multiset(xs) && Map(f, ys) == order
    decreases |order|
  {
    hide Map;
    assert |order| == |multiset(order)| == |multiset(Map(f, xs))| == |xs|;
    if order == [] {
      ys := [];
    } else {
      assert order[0] in multiset(Map(f, xs));
      var i := Find(f, xs, order[0]);
      var rest := xs[..i] + xs[i + 1..];
      TakeMatching(f, xs, order, i);
      var zs := Arrange(f, rest, order[1..]);
      TakeOut(xs, i);
      Front(f, xs[i], zs);
      ys := [xs[i]] + zs;
      assert order == [order[0]] + order[1..];
      assert multiset(ys) == multiset{xs[i]} + multiset(zs);
    }
  }

  lemma TakeMatching<A, B>(f: A -> B, xs: seq<A>, order: seq<B>, i: nat)
    requires multiset(order) == multiset(Map(f, xs)) && order != [] && i < |xs| && f(xs[i]) == order[0]
    ensures multiset(order[1..]) == multiset(Map(f, xs[..i] + xs[i + 1..]))
  {
    hide Map;
    MapTakeOut(f, xs, i);
    TakeOut(order, 0);
    assert order[..0] + order[1..] == order[1..];
    Cancel(multiset(order[1..]), multiset(Map(f, xs[..i] + xs[i + 1..])), order[0]);
  }
}
