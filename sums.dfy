/** Sums of money over a list, as JavaScript's
    `xs.reduce((sum, x) => sum + f(x), 0)` computes them: a left fold
    starting at zero. With exact money the order of the list does not
    matter (SumByPermutation). */
module Sums {
  import opened Records

  /** `f(xs[0]) + f(xs[1]) + ... + f(xs[|xs|-1])`, folded from the left. */
  function SumBy<T>(xs: seq<T>, f: T -> Money): Money
  {
    if xs == [] then 0.0 else SumBy(xs[..|xs| - 1], f) + f(xs[|xs| - 1])
  }

  /** The sum over a concatenation is the sum of the sums. */
  lemma {:induction false} SumByAppend<T>(xs: seq<T>, ys: seq<T>, f: T -> Money)
    ensures SumBy(xs + ys, f) == SumBy(xs, f) + SumBy(ys, f)
    decreases |ys|
  {
    if ys == [] {
      assert xs + ys == xs;
    } else {
      var zs := xs + ys;
      assert zs[..|zs| - 1] == xs + ys[..|ys| - 1];
      SumByAppend(xs, ys[..|ys| - 1], f);
    }
  }

  /** Reordering the list leaves the sum unchanged. */
  lemma {:induction false} SumByPermutation<T>(xs: seq<T>, ys: seq<T>, f: T -> Money)
    requires multiset(xs) == multiset(ys)
    ensures SumBy(xs, f) == SumBy(ys, f)
    decreases |xs|
  {
    if xs == [] {
      assert |ys| == |multiset(ys)| == 0;
    } else {
      var x, rest := xs[|xs| - 1], xs[..|xs| - 1];
      assert xs == rest + [x];
      assert x in multiset(ys);
      var j :| 0 <= j < |ys| && ys[j] == x;
      var before, after := ys[..j], ys[j + 1..];
      assert ys == before + [x] + after;
      assert multiset(xs) == multiset(rest) + multiset{x} by {
        assert xs == rest + [x];
      }
      RetirarUm(ys, j, rest);
      SumByPermutation(rest, before + after, f);
      SumByAppend(before, [x], f);
      SumByAppend(before + [x], after, f);
      SumByAppend(before, after, f);
      assert SumBy([x], f) == f(x) by {
        assert [x][..0] == [];
      }
    }
  }

  /** Taking element `j` out of `ys` leaves the multiset that remains once it is cancelled. */
  lemma RetirarUm<T>(ys: seq<T>, j: nat, rest: seq<T>)
    requires j < |ys| && multiset(ys) == multiset(rest) + multiset{ys[j]}
    ensures multiset(ys[..j] + ys[j + 1..]) == multiset(rest)
  {
    var before, after := ys[..j], ys[j + 1..];
    assert ys == (before + [ys[j]]) + after;
    var m := multiset(before + after);
    assert m + multiset{ys[j]} == multiset(rest) + multiset{ys[j]};
    assert m == (m + multiset{ys[j]}) - multiset{ys[j]};
  }

  /** A list whose every element is worth `c` sums to `|xs| * c`. */
  lemma {:induction false} SumByConstant<T>(xs: seq<T>, f: T -> Money, c: Money)
    requires forall k :: 0 <= k < |xs| ==> f(xs[k]) == c
    ensures SumBy(xs, f) == |xs| as real * c
    decreases |xs|
  {
    if xs != [] {
      SumByConstant(xs[..|xs| - 1], f, c);
    }
  }
}
