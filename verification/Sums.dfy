/** Sums over the actors and queues of a protocol, and how one actor's move changes them. */
module Sums {

  /** `ys` is `xs` with at most position `i` replaced. */
  ghost predicate OnlyChanges<X>(xs: seq<X>, ys: seq<X>, i: nat) {
    i < |xs| && |xs| == |ys| && (ys == xs || ys == xs[i := ys[i]])
  }

  /** How many of whatever `f` counts the members of `xs` hold between them. */
  ghost function Total<X>(f: X -> nat, xs: seq<X>): nat {
    if xs == [] then 0 else f(xs[0]) + Total(f, xs[1..])
  }

  lemma TotalChange<X>(f: X -> nat, xs: seq<X>, ys: seq<X>, i: nat)
    requires OnlyChanges(xs, ys, i)
    ensures Total(f, ys) + f(xs[i]) == Total(f, xs) + f(ys[i])
  {
    TotalUpdate(f, xs, i, ys[i]);
    assert xs[i := xs[i]] == xs;
  }

  lemma {:induction false} TotalUpdate<X>(f: X -> nat, xs: seq<X>, i: nat, x: X)
    requires i < |xs|
    ensures Total(f, xs[i := x]) + f(xs[i]) == Total(f, xs) + f(x)
  {
    if i == 0 {
      assert xs[i := x][1..] == xs[1..];
    } else {
      TotalUpdate(f, xs[1..], i - 1, x);
      assert xs[i := x][1..] == xs[1..][i - 1 := x];
    }
  }

  lemma {:induction false} TotalAtLeast<X>(f: X -> nat, xs: seq<X>, i: nat)
    requires i < |xs|
    ensures f(xs[i]) <= Total(f, xs)
  {
    if i != 0 {
      TotalAtLeast(f, xs[1..], i - 1);
    }
  }

  /** Two different members count separately. */
  lemma {:induction false} TotalOfTwo<X>(f: X -> nat, xs: seq<X>, i: nat, j: nat)
    requires i < j < |xs|
    ensures f(xs[i]) + f(xs[j]) <= Total(f, xs)
  {
    if i == 0 {
      TotalAtLeast(f, xs[1..], j - 1);
    } else {
      TotalOfTwo(f, xs[1..], i - 1, j - 1);
    }
  }

  lemma {:induction false} TotalZero<X>(f: X -> nat, xs: seq<X>)
    requires forall i :: 0 <= i < |xs| ==> f(xs[i]) == 0
    ensures Total(f, xs) == 0
  {
    if xs != [] {
      TotalZero(f, xs[1..]);
    }
  }

  /** A positive total has a positive member. */
  lemma {:induction false} TotalPositive<X>(f: X -> nat, xs: seq<X>) returns (i: nat)
    requires Total(f, xs) > 0
    ensures i < |xs| && f(xs[i]) > 0
  {
    if f(xs[0]) > 0 {
      i := 0;
    } else {
      i := TotalPositive(f, xs[1..]);
      i := i + 1;
    }
  }

  lemma {:induction false} TotalAppend<X>(f: X -> nat, xs: seq<X>, x: X)
    ensures Total(f, xs + [x]) == Total(f, xs) + f(x)
  {
    if xs == [] {
      assert xs + [x] == [x];
    } else {
      TotalAppend(f, xs[1..], x);
      assert (xs + [x])[1..] == xs[1..] + [x];
    }
  }

  lemma {:induction false} TotalRemove<X>(f: X -> nat, xs: seq<X>, i: nat)
    requires i < |xs|
    ensures Total(f, xs) == Total(f, xs[..i] + xs[i + 1..]) + f(xs[i])
  {
    if i == 0 {
      assert xs[..0] + xs[1..] == xs[1..];
    } else {
      TotalRemove(f, xs[1..], i - 1);
      assert (xs[..i] + xs[i + 1..])[1..] == xs[1..][..i - 1] + xs[1..][i..];
    }
  }

  /** The order of the members does not matter. */
  lemma {:induction false} TotalPermuted<X>(f: X -> nat, xs: seq<X>, ys: seq<X>)
    requires multiset(xs) == multiset(ys)
    ensures Total(f, xs) == Total(f, ys)
    decreases |xs|
  {
    if xs == [] {
      assert |multiset(ys)| == 0;
    } else {
      TakeFirst(xs);
      assert xs[0] in multiset(ys);
      var i :| 0 <= i < |ys| && ys[i] == xs[0];
      assert ys == ys[..i] + [ys[i]] + ys[i + 1..];
      assert multiset(ys) == multiset(ys[..i] + ys[i + 1..]) + multiset{xs[0]};
      assert multiset(ys[..i] + ys[i + 1..]) == multiset(ys) - multiset{xs[0]} == multiset(xs[1..]);
      TotalRemove(f, ys, i);
      TotalPermuted(f, xs[1..], ys[..i] + ys[i + 1..]);
    }
  }

  lemma TotalOne<X>(f: X -> nat, x: X)
    ensures Total(f, [x]) == f(x)
  {
  }

  lemma {:induction false} TotalConcat<X>(f: X -> nat, xs: seq<X>, ys: seq<X>)
    ensures Total(f, xs + ys) == Total(f, xs) + Total(f, ys)
  {
    if xs == [] {
      assert xs + ys == ys;
    } else {
      TotalConcat(f, xs[1..], ys);
      assert (xs + ys)[1..] == xs[1..] + ys;
    }
  }

  /** Everything the members of `xs` hold, with multiplicity. */
  ghost function Gather<X, Y>(f: X -> multiset<Y>, xs: seq<X>): multiset<Y> {
    if xs == [] then multiset{} else f(xs[0]) + Gather(f, xs[1..])
  }

  lemma GatherChange<X, Y>(f: X -> multiset<Y>, xs: seq<X>, ys: seq<X>, i: nat)
    requires OnlyChanges(xs, ys, i)
    ensures Gather(f, ys) + f(xs[i]) == Gather(f, xs) + f(ys[i])
  {
    GatherUpdate(f, xs, i, ys[i]);
    assert xs[i := xs[i]] == xs;
  }

  lemma {:induction false} GatherUpdate<X, Y>(f: X -> multiset<Y>, xs: seq<X>, i: nat, x: X)
    requires i < |xs|
    ensures Gather(f, xs[i := x]) + f(xs[i]) == Gather(f, xs) + f(x)
  {
    if i == 0 {
      assert xs[i := x][1..] == xs[1..];
    } else {
      var tail, tail' := Gather(f, xs[1..]), Gather(f, xs[1..][i - 1 := x]);
      assert xs[i := x][1..] == xs[1..][i - 1 := x];
      assert tail' + f(xs[i]) == tail + f(x) by { GatherUpdate(f, xs[1..], i - 1, x); }
      assert (f(xs[0]) + tail') + f(xs[i]) == f(xs[0]) + (tail' + f(xs[i]));
    }
  }

  lemma {:induction false} GatherEmpty<X, Y>(f: X -> multiset<Y>, xs: seq<X>)
    requires forall i :: 0 <= i < |xs| ==> f(xs[i]) == multiset{}
    ensures Gather(f, xs) == multiset{}
  {
    if xs != [] {
      GatherEmpty(f, xs[1..]);
    }
  }

  lemma {:induction false} GatherAppend<X, Y>(f: X -> multiset<Y>, xs: seq<X>, x: X)
    ensures Gather(f, xs + [x]) == Gather(f, xs) + f(x)
  {
    if xs == [] {
      assert xs + [x] == [x];
    } else {
      GatherAppend(f, xs[1..], x);
      assert (xs + [x])[1..] == xs[1..] + [x];
    }
  }

  lemma {:induction false} GatherConcat<X, Y>(f: X -> multiset<Y>, xs: seq<X>, ys: seq<X>)
    ensures Gather(f, xs + ys) == Gather(f, xs) + Gather(f, ys)
  {
    if xs == [] {
      assert xs + ys == ys;
    } else {
      GatherConcat(f, xs[1..], ys);
      assert (xs + ys)[1..] == xs[1..] + ys;
    }
  }

  lemma {:induction false} GatherOfTwo<X, Y>(f: X -> multiset<Y>, xs: seq<X>, i: nat, j: nat)
    requires i < j < |xs|
    ensures f(xs[i]) + f(xs[j]) <= Gather(f, xs)
  {
    if i == 0 {
      GatherHas(f, xs[1..], j - 1);
    } else {
      GatherOfTwo(f, xs[1..], i - 1, j - 1);
    }
  }

  lemma {:induction false} GatherHas<X, Y>(f: X -> multiset<Y>, xs: seq<X>, i: nat)
    requires i < |xs|
    ensures f(xs[i]) <= Gather(f, xs)
  {
    if i != 0 {
      GatherHas(f, xs[1..], i - 1);
    }
  }

  /** If two holders exchange their contents evenly with a third, the three together hold what they held. */
  lemma Rebalance<Y>(a: multiset<Y>, a': multiset<Y>, x: multiset<Y>, x': multiset<Y>,
                     b: multiset<Y>, b': multiset<Y>, y: multiset<Y>, y': multiset<Y>,
                     c: multiset<Y>, c': multiset<Y>)
    requires a' + x == a + x' && b' + y == b + y'
    requires x' + y' + c' == x + y + c
    ensures a' + b' + c' == a + b + c
  {
    forall h ensures (a' + b' + c')[h] == (a + b + c)[h] {
      assert (a' + x)[h] == (a + x')[h] && (b' + y)[h] == (b + y')[h] && (x' + y' + c')[h] == (x + y + c)[h];
    }
  }

  /** The same with one other and the rest untouched. */
  lemma Exchange<Y>(rest: multiset<Y>, a: multiset<Y>, a': multiset<Y>, x: multiset<Y>, x': multiset<Y>,
                    c: multiset<Y>, c': multiset<Y>)
    requires a' + x == a + x' && x' + c' == x + c
    ensures rest + a' + c' == rest + a + c
  {
    forall h ensures (rest + a' + c')[h] == (rest + a + c)[h] {
      assert (a' + x)[h] == (a + x')[h] && (x' + c')[h] == (x + c)[h];
    }
  }

  lemma Regroup<Y>(a: multiset<Y>, a': multiset<Y>, b: multiset<Y>, b': multiset<Y>,
                   c: multiset<Y>, c': multiset<Y>, d: multiset<Y>)
    requires a' + b' + c == a + b + c'
    ensures c == a + b + d ==> c' == a' + b' + d
  {
    if c == a + b + d {
      forall h ensures c'[h] == (a' + b' + d)[h] {
        assert (a' + b' + c)[h] == (a + b + c')[h] && c[h] == (a + b + d)[h];
      }
    }
  }

  lemma TakeFirst<Y>(q: seq<Y>)
    requires q != []
    ensures multiset(q) == multiset{q[0]} + multiset(q[1..])
  {
    assert q == [q[0]] + q[1..];
  }

  lemma TakeLast<Y>(q: seq<Y>)
    requires q != []
    ensures multiset(q) == multiset{q[|q| - 1]} + multiset(q[..|q| - 1])
  {
    assert q == q[..|q| - 1] + [q[|q| - 1]];
  }

  /** Moving the head of a queue to the end of what has been taken from it. */
  lemma MoveHead<Y>(taken: seq<Y>, q: seq<Y>)
    requires q != []
    ensures (taken + [q[0]]) + q[1..] == taken + q
    ensures multiset(taken + [q[0]]) == multiset(taken) + multiset{q[0]}
  {
  }
}
