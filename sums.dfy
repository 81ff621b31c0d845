/** Finite sums of reals, used to state that gradients over a group cancel. */
module Sums {
  /** The sum of `xs`, peeled from the back so that extending a prefix by one element adds it. */
  function Sum(xs: seq<real>): real
  {
    if |xs| == 0 then 0.0 else Sum(xs[..|xs| - 1]) + xs[|xs| - 1]
  }

  /** The sum of the prefix `xs[..k]`. */
  function SumTo(xs: seq<real>, k: int): real
    requires 0 <= k <= |xs|
  {
    Sum(xs[..k])
  }

  lemma SumToStep(xs: seq<real>, k: int)
    requires 0 <= k < |xs|
    ensures SumTo(xs, k + 1) == SumTo(xs, k) + xs[k]
  {
    assert xs[..k + 1][..k] == xs[..k];
  }

  lemma SumToAll(xs: seq<real>)
    ensures SumTo(xs, |xs|) == Sum(xs)
  {
    assert xs[..|xs|] == xs;
  }
}
