/** `xs.reduce((acc, x) => acc + x, 0)`: the left-to-right integer sum both
    cart totals are computed with, and its algebra. */
module Sums {

  /** The left fold: the last element is added last. Non-negative terms give a
      non-negative sum. */
  function SumLeft(xs: seq<int>): (r: int)
    ensures (forall i :: 0 <= i < |xs| ==> xs[i] >= 0) ==> r >= 0
  {
    if |xs| == 0 then 0 else SumLeft(xs[..|xs| - 1]) + xs[|xs| - 1]
  }

  /** An independent reference: the right fold. */
  function SumRight(xs: seq<int>): int {
    if |xs| == 0 then 0 else xs[0] + SumRight(xs[1..])
  }

  /** The sum of a concatenation is the sum of the parts. */
  lemma {:induction false} SumLeftAppend(a: seq<int>, b: seq<int>)
    ensures SumLeft(a + b) == SumLeft(a) + SumLeft(b)
    decreases |b|
  {
    if |b| == 0 {
      assert a + b == a;
    } else {
      SumLeftAppend(a, b[..|b| - 1]);
      assert (a + b)[..|a + b| - 1] == a + b[..|b| - 1];
    }
  }

  /** Folding from either end gives the same total. */
  lemma {:induction false} SumLeftIsSumRight(xs: seq<int>)
    ensures SumLeft(xs) == SumRight(xs)
    decreases |xs|
  {
    if |xs| > 0 {
      SumLeftIsSumRight(xs[1..]);
      SumLeftAppend([xs[0]], xs[1..]);
      assert [xs[0]] + xs[1..] == xs;
      assert SumLeft([xs[0]]) == xs[0] by {
        assert [xs[0]][..0] == [];
      }
    }
  }

  /** A sum of non-negative terms bounds each of them. */
  lemma {:induction false} SumLeftBoundsTerms(xs: seq<int>, i: nat)
    requires forall j :: 0 <= j < |xs| ==> xs[j] >= 0
    requires i < |xs|
    ensures xs[i] <= SumLeft(xs)
    decreases |xs|
  {
    if i < |xs| - 1 {
      SumLeftBoundsTerms(xs[..|xs| - 1], i);
    } else {
      assert SumLeft(xs[..|xs| - 1]) >= 0;
    }
  }
}
