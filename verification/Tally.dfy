/** Adding up a weight over the elements of a sequence. */
module Tally {

  ghost function Sum<T, K>(xs: seq<T>, weight: (T, K) -> nat, key: K): nat
  {
    if xs == [] then 0 else weight(xs[0], key) + Sum(xs[1..], weight, key)
  }

  lemma {:induction false} SumConcat<T, K(!new)>(xs: seq<T>, ys: seq<T>, weight: (T, K) -> nat)
    ensures forall key :: Sum(xs + ys, weight, key) == Sum(xs, weight, key) + Sum(ys, weight, key)
  {
    if xs == [] {
      assert xs + ys == ys;
    } else {
      assert (xs + ys)[1..] == xs[1..] + ys;
      SumConcat(xs[1..], ys, weight);
    }
  }

  lemma {:induction false} SumSingle<T, K(!new)>(x: T, weight: (T, K) -> nat)
    ensures forall key :: Sum([x], weight, key) == weight(x, key)
  {
    assert [x][1..] == [];
  }

  lemma {:induction false} SumPush<T, K(!new)>(xs: seq<T>, x: T, weight: (T, K) -> nat)
    ensures forall key :: Sum(xs + [x], weight, key) == Sum(xs, weight, key) + weight(x, key)
  {
    SumConcat(xs, [x], weight);
    SumSingle(x, weight);
  }

  lemma {:induction false} SumAt<T, K(!new)>(xs: seq<T>, i: nat, weight: (T, K) -> nat)
    requires i < |xs|
    ensures forall key :: Sum(xs, weight, key)
                       == Sum(xs[..i], weight, key) + weight(xs[i], key) + Sum(xs[i + 1..], weight, key)
  {
    assert xs == xs[..i] + ([xs[i]] + xs[i + 1..]);
    SumConcat(xs[..i], [xs[i]] + xs[i + 1..], weight);
    SumConcat([xs[i]], xs[i + 1..], weight);
    SumSingle(xs[i], weight);
  }

  lemma {:induction false} SumUpdate<T, K(!new)>(xs: seq<T>, i: nat, x: T, weight: (T, K) -> nat)
    requires i < |xs|
    ensures forall key :: Sum(xs[i := x], weight, key)
                       == Sum(xs, weight, key) - weight(xs[i], key) + weight(x, key)
  {
    SumAt(xs, i, weight);
    SumAt(xs[i := x], i, weight);
    assert xs[i := x][..i] == xs[..i] && xs[i := x][i + 1..] == xs[i + 1..];
  }

  lemma {:induction false} SumRemove<T, K(!new)>(xs: seq<T>, i: nat, weight: (T, K) -> nat)
    requires i < |xs|
    ensures forall key :: Sum(xs[..i] + xs[i + 1..], weight, key) == Sum(xs, weight, key) - weight(xs[i], key)
  {
    SumAt(xs, i, weight);
    SumConcat(xs[..i], xs[i + 1..], weight);
  }

  /** Sequences whose elements weigh the same weigh the same. */
  lemma {:induction false} SumPointwise<T, K>(xs: seq<T>, ys: seq<T>, weight: (T, K) -> nat, key: K)
    requires |xs| == |ys|
    requires forall i :: 0 <= i < |xs| ==> weight(xs[i], key) == weight(ys[i], key)
    ensures Sum(xs, weight, key) == Sum(ys, weight, key)
  {
    if xs != [] {
      SumPointwise(xs[1..], ys[1..], weight, key);
    }
  }

  /** A weight that is nowhere larger adds up to no more. */
  lemma {:induction false} SumMonotone<T, K>(xs: seq<T>, weight: (T, K) -> nat, low: K, high: K)
    requires forall x :: x in xs ==> weight(x, low) <= weight(x, high)
    ensures Sum(xs, weight, low) <= Sum(xs, weight, high)
  {
    if xs != [] {
      SumMonotone(xs[1..], weight, low, high);
    }
  }

  lemma {:induction false} SumPositive<T, K>(xs: seq<T>, weight: (T, K) -> nat, key: K)
    ensures Sum(xs, weight, key) > 0 <==> exists i :: 0 <= i < |xs| && weight(xs[i], key) > 0
  {
    if xs != [] {
      SumPositive(xs[1..], weight, key);
      if Sum(xs[1..], weight, key) > 0 {
        var i :| 0 <= i < |xs[1..]| && weight(xs[1..][i], key) > 0;
        assert weight(xs[i + 1], key) > 0;
      }
      if exists i :: 0 < i < |xs| && weight(xs[i], key) > 0 {
        var i :| 0 < i < |xs| && weight(xs[i], key) > 0;
        assert weight(xs[1..][i - 1], key) > 0;
      }
    }
  }

  /** Two different positions that weigh something weigh at least two together. */
  lemma {:induction false} SumPair<T, K(!new)>(xs: seq<T>, i: nat, j: nat, weight: (T, K) -> nat, key: K)
    requires i < j < |xs|
    requires weight(xs[i], key) > 0 && weight(xs[j], key) > 0
    ensures Sum(xs, weight, key) >= 2
  {
    SumAt(xs, i, weight);
    assert xs[i + 1..][j - i - 1] == xs[j];
    SumPositive(xs[i + 1..], weight, key);
  }
}
