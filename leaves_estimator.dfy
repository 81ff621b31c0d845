/** The leaf update of the GPU pairwise oblivious-tree leaf estimator once its Newton-like
    walker has returned
    (catboost/cuda/methods/pairwise_oblivious_trees/non_diagonal_leaves_estimator.cpp). The
    walker and the derivative oracle's leaf weights are inputs of the model. */
module LeavesEstimator {
  import opened Wrappers
  import opened Sums

  /** The fatal size check between the estimated point and the oracle's leaf weights. */
  datatype EstimateError = PointWeightsSizeMismatch

  /** The part of the tree model the estimator writes: a fixed number of leaves, and the leaf
      values and leaf weights it replaces. */
  class ObliviousTreeModel {
    const leavesCount: nat
    var leaves: seq<real>
    var leavesWeights: seq<real>

    constructor (leavesCount: nat, leaves: seq<real>, leavesWeights: seq<real>)
      ensures this.leavesCount == leavesCount
      ensures this.leaves == leaves && this.leavesWeights == leavesWeights
    {
      this.leavesCount := leavesCount;
      this.leaves := leaves;
      this.leavesWeights := leavesWeights;
    }
  }

  /** The walker's starting point: `n` zeros. */
  function Zeros(n: nat): (r: seq<real>)
    ensures |r| == n
    ensures forall i :: 0 <= i < n ==> r[i] == 0.0
  {
    if n == 0 then [] else Zeros(n - 1) + [0.0]
  }

  /** `resize(n)` of a vector: extra entries are dropped, missing ones are zeros. */
  function Resized(s: seq<real>, n: nat): (r: seq<real>)
    ensures |r| == n
    ensures forall i :: 0 <= i < n ==> r[i] == if i < |s| then s[i] else 0.0
  {
    if n <= |s| then s[..n] else s + Zeros(n - |s|)
  }

  /** The point with `bias` added to every leaf. */
  function Shifted(point: seq<real>, bias: real): (r: seq<real>)
    ensures |r| == |point|
    ensures forall i :: 0 <= i < |point| ==> r[i] == point[i] + bias
  {
    if |point| == 0 then [] else Shifted(point[..|point| - 1], bias) + [point[|point| - 1] + bias]
  }

  /** The bias of `MakeZeroAverage`: minus the unweighted mean of the leaves (the leaf weights
      play no part), or 0 for an empty point. */
  function ZeroAverageBias(point: seq<real>): (r: real)
    ensures |point| > 0 ==> Times(|point|, r) == -Sum(point)
    ensures |point| == 0 ==> r == 0.0
  {
    if |point| > 0 then -Sum(point) / (|point| as real) else 0.0
  }

  /** `n` copies of `b` added up. */
  function Times(n: nat, b: real): real
  {
    (n as real) * b
  }

  lemma TimesStep(n: nat, b: real)
    ensures Times(n + 1, b) == Times(n, b) + b
  {
  }

  /** Shifting every leaf by `bias` shifts the sum by the leaf count times `bias`. */
  lemma {:induction false} SumShifted(point: seq<real>, bias: real)
    ensures Sum(Shifted(point, bias)) == Sum(point) + Times(|point|, bias)
  {
    if |point| > 0 {
      var n := |point|;
      var front := point[..n - 1];
      var shifted := Shifted(point, bias);
      SumShifted(front, bias);
      assert shifted[..n - 1] == Shifted(front, bias);
      assert Sum(shifted) == Sum(Shifted(front, bias)) + (point[n - 1] + bias);
      TimesStep(n - 1, bias);
    }
  }

  lemma CancelMean(s: real, n: real)
    requires n > 0.0
    ensures s + n * (-s / n) == 0.0
  {
  }

  /** After the zero-average shift the leaves sum to zero. */
  lemma ZeroAverageSumsToZero(point: seq<real>)
    ensures Sum(Shifted(point, ZeroAverageBias(point))) == 0.0
  {
    SumShifted(point, ZeroAverageBias(point));
    if |point| > 0 {
      assert Times(|point|, ZeroAverageBias(point)) == (|point| as real) * (-Sum(point) / (|point| as real));
      CancelMean(Sum(point), |point| as real);
    }
  }

  /** The shift is idempotent: a zero-average point needs no further shift. */
  lemma ZeroAverageIsIdempotent(point: seq<real>)
    ensures ZeroAverageBias(Shifted(point, ZeroAverageBias(point))) == 0.0
  {
    ZeroAverageSumsToZero(point);
  }

  /** [1, 2, 3] is shifted by -2 to [-1, 0, 1]; an empty point gets bias 0. */
  lemma ZeroAverageExamples()
    ensures ZeroAverageBias([1.0, 2.0, 3.0]) == -2.0
    ensures Shifted([1.0, 2.0, 3.0], ZeroAverageBias([1.0, 2.0, 3.0])) == [-1.0, 0.0, 1.0]
    ensures ZeroAverageBias([]) == 0.0 && Shifted([], ZeroAverageBias([])) == []
  {
    var p := [1.0, 2.0, 3.0];
    assert p[..2] == [1.0, 2.0] && [1.0, 2.0][..1] == [1.0] && [1.0][..0] == [];
    assert Sum([1.0]) == 1.0;
    assert Sum([1.0, 2.0]) == 3.0;
    assert Sum(p) == 6.0;
  }

  /** The first loop of the zero-average step: the sum of the leaves and their count. */
  method PointSum(point: array<real>) returns (sum: real, weight: real)
    ensures sum == Sum(point[..])
    ensures weight == point.Length as real
  {
    sum, weight := 0.0, 0.0;
    for i := 0 to point.Length
      invariant sum == SumTo(point[..], i)
      invariant weight == i as real
    {
      SumToStep(point[..], i);
      sum := sum + point[i];
      weight := weight + 1.0;
    }
    SumToAll(point[..]);
  }

  /** The second loop: adds the bias to every leaf in place. */
  method AddBias(point: array<real>, bias: real)
    modifies point
    ensures point[..] == Shifted(old(point[..]), bias)
  {
    for i := 0 to point.Length
      invariant forall k :: 0 <= k < i ==> point[k] == old(point[k]) + bias
      invariant forall k :: i <= k < point.Length ==> point[k] == old(point[k])
    {
      point[i] := point[i] + bias;
    }
  }

  /** `TPairwiseObliviousTreeLeavesEstimator`, reduced to the configuration flag `Estimate`
      reads after the walker. */
  class PairwiseObliviousTreeLeavesEstimator {
    const makeZeroAverage: bool

    constructor (makeZeroAverage: bool)
      ensures this.makeZeroAverage == makeZeroAverage
    {
      this.makeZeroAverage := makeZeroAverage;
    }

    /** `Estimate` after the walker: the walker starts from `leavesCount` zeros, its result is
        resized to `leavesCount`, a size different from the oracle's weights is fatal, the
        optional zero-average shift is applied, and the model's leaves and weights are
        replaced by the point and the weights. */
    method Estimate(model: ObliviousTreeModel, walker: seq<real> -> seq<real>, oracleWeights: seq<real>)
      returns (o: Outcome<EstimateError>)
      modifies model
      ensures var point := Resized(walker(Zeros(model.leavesCount)), model.leavesCount);
              if |oracleWeights| != model.leavesCount then
                o == Fail(PointWeightsSizeMismatch)
                && model.leaves == old(model.leaves) && model.leavesWeights == old(model.leavesWeights)
              else
                o.Pass? && model.leavesWeights == oracleWeights
                && model.leaves == if makeZeroAverage then Shifted(point, ZeroAverageBias(point)) else point
    {
      var n := model.leavesCount;
      var walked := walker(Zeros(n));
      var resized := Resized(walked, n);
      if |resized| != |oracleWeights| {
        return Fail(PointWeightsSizeMismatch);
      }
      var point := new real[n](i requires 0 <= i < n => resized[i]);
      assert point[..] == resized;
      if makeZeroAverage {
        var sum, weight := PointSum(point);
        var bias := if weight > 0.0 then -sum / weight else 0.0;
        assert bias == ZeroAverageBias(resized);
        AddBias(point, bias);
      }
      model.leaves := point[..];
      model.leavesWeights := oracleWeights;
      return Pass;
    }
  }
}
