/** `TMultiClassError::CalcDersMulti` and `TMultiClassOneVsAllError::CalcDersMulti`
    (catboost/libs/algo/error_functions.h): the gradient over the classes and the Hessian,
    packed row by row as an upper triangle (multiclass) or as a diagonal (one-vs-all). The
    softmax of the approx (`CalcSoftmax`) and the exponents of the approx (`FastExpInplace`)
    are inputs. */
module MultiClassDers {
  import opened Enums
  import opened Sums
  import opened Derivatives

  /** `THessianInfo`: a Hessian of a given type and dimension stored in a flat buffer.
      catboost/libs/algo/hessian.h is not part of this model: the constructor allocates
      n(n+1)/2 entries for a symmetric Hessian and n for a diagonal one, all zero. */
  class HessianInfo {
    var hessianType: EHessianType
    var approxDimension: int
    var data: array<real>

    constructor (approxDimension: nat, hessianType: EHessianType)
      ensures this.hessianType == hessianType && this.approxDimension == approxDimension
      ensures data.Length == (if hessianType == Symmetric then PackedSize(approxDimension) else approxDimension)
      ensures fresh(data) && forall i :: 0 <= i < data.Length ==> data[i] == 0.0
    {
      this.hessianType := hessianType;
      this.approxDimension := approxDimension;
      data := new real[if hessianType == Symmetric then PackedSize(approxDimension) else approxDimension](_ => 0.0);
    }
  }

  // ---------------------------------------------------------------- packed upper triangle

  /** The first packed index of row y: rows 0 .. y-1 hold n, n-1, ..., n-y+1 entries. */
  function RowStart(n: nat, y: nat): (r: nat)
    requires y <= n
  {
    if y == 0 then 0 else RowStart(n, y - 1) + (n - (y - 1))
  }

  /** The number of entries of an n x n upper triangle. */
  function PackedSize(n: nat): nat
  {
    RowStart(n, n)
  }

  /** Where entry (y, x), y <= x, of the upper triangle sits in the packed buffer. */
  function PackedIndex(n: nat, y: nat, x: nat): (r: nat)
    requires y <= x < n
    ensures r < PackedSize(n)
  {
    RowStartMonotone(n, y, n);
    RowStart(n, y) + (x - y)
  }

  /** Rows follow each other without gaps or overlaps: row y ends where every later row starts. */
  lemma {:induction false} RowStartMonotone(n: nat, y: nat, y2: nat)
    requires y < y2 <= n
    ensures RowStart(n, y) + (n - y) <= RowStart(n, y2)
    decreases y2
  {
    if y2 > y + 1 {
      RowStartMonotone(n, y, y2 - 1);
    }
  }

  /** Closed form of the row starts: 2 * RowStart(n, y) == y * (2n - y + 1). */
  lemma {:induction false} RowStartClosedForm(n: nat, y: nat)
    requires y <= n
    ensures 2 * RowStart(n, y) == y * (2 * n - y + 1)
  {
    if y > 0 {
      RowStartClosedForm(n, y - 1);
      assert y * (2 * n - y + 1) == (y - 1) * (2 * n - (y - 1) + 1) + 2 * (n - (y - 1));
    }
  }

  /** The packed Hessian of dimension n has n(n+1)/2 entries. */
  lemma PackedSizeIsTriangular(n: nat)
    ensures PackedSize(n) == n * (n + 1) / 2
  {
    RowStartClosedForm(n, n);
    assert 2 * PackedSize(n) == n * (n + 1);
  }

  /** Every entry of the upper triangle has its own index inside the buffer. */
  lemma PackedIndexInjective(n: nat, y: nat, x: nat, y2: nat, x2: nat)
    requires y <= x < n && y2 <= x2 < n
    ensures PackedIndex(n, y, x) == PackedIndex(n, y2, x2) ==> y == y2 && x == x2
  {
    RowStartMonotone(n, y, n);
    if y < y2 {
      RowStartMonotone(n, y, y2);
    } else if y2 < y {
      RowStartMonotone(n, y2, y);
    }
    if y > 0 {
      RowStartMonotone(n, 0, y);
    }
  }

  // ---------------------------------------------------------------- specification

  /** `static_cast<int>(target)`: truncation toward zero. */
  function TruncateToInt(x: real): int
  {
    if x >= 0.0 then x.Floor else -((-x).Floor)
  }

  /** Gradient entry `dim` before weighting: onehot(targetClass) - prob. */
  function GradientAt(prob: seq<real>, targetClass: int, dim: int): real
    requires 0 <= dim < |prob|
  {
    (if dim == targetClass then 1.0 else 0.0) - prob[dim]
  }

  /** The unweighted gradient vector. For probabilities in [0, 1] it points towards the
      target class: only the target's entry can be positive, and every entry lies in [-1, 1]. */
  function Gradient(prob: seq<real>, targetClass: int): (r: seq<real>)
    ensures |r| == |prob| && forall dim :: 0 <= dim < |prob| ==> r[dim] == GradientAt(prob, targetClass, dim)
    ensures (forall dim :: 0 <= dim < |prob| ==> 0.0 <= prob[dim] <= 1.0) ==>
              forall dim :: 0 <= dim < |prob| ==>
                -1.0 <= r[dim] <= 1.0 && (r[dim] > 0.0 ==> dim == targetClass) && (dim == targetClass ==> r[dim] >= 0.0)
  {
    seq(|prob|, dim requires 0 <= dim < |prob| => GradientAt(prob, targetClass, dim))
  }

  /** Softmax Hessian entry (y, x), y <= x, before weighting. */
  function HessianEntry(softmax: seq<real>, y: int, x: int): real
    requires 0 <= y <= x < |softmax|
  {
    if x == y then softmax[y] * (softmax[y] - 1.0) else softmax[y] * softmax[x]
  }

  /** The one-vs-all probabilities p = e / (1 + e) of the exponents. */
  predicate ExpsInDomain(expApprox: seq<real>)
  {
    forall dim :: 0 <= dim < |expApprox| ==> 1.0 + expApprox[dim] != 0.0
  }

  // ---------------------------------------------------------------- the calculators

  /** `TMultiClassError::CalcDersMulti`. The debug-only `Y_ASSERT` on the Hessian's type and
      dimension is a precondition; the target class must index the gradient. */
  method MultiClassDersMulti(approx: seq<real>, softmax: seq<real>, target: real, weight: real,
                             der: array<real>, der2: HessianInfo?)
    requires |softmax| == |approx| && |approx| <= der.Length
    requires 0 <= TruncateToInt(target) < |approx|
    requires der2 != null ==> der2.hessianType == Symmetric && der2.approxDimension == |approx|
                              && PackedSize(|approx|) <= der2.data.Length && der2.data != der
    modifies der, if der2 != null then {der2.data} else {}
    ensures forall dim :: 0 <= dim < |approx| ==>
              der[dim] == Weighted(GradientAt(softmax, TruncateToInt(target), dim), weight)
    ensures forall i :: |approx| <= i < der.Length ==> der[i] == old(der[i])
    ensures der2 != null ==>
              (forall y, x :: 0 <= y <= x < |approx| ==>
                 der2.data[PackedIndex(|approx|, y, x)] == Weighted(HessianEntry(softmax, y, x), weight))
              && forall i :: PackedSize(|approx|) <= i < der2.data.Length ==> der2.data[i] == old(der2.data[i])
  {
    var approxDimension := |approx|;
    for dim := 0 to approxDimension
      modifies der
      invariant forall k :: 0 <= k < dim ==> der[k] == -softmax[k]
      invariant forall i :: dim <= i < der.Length ==> der[i] == old(der[i])
    {
      der[dim] := -softmax[dim];
    }
    var targetClass := TruncateToInt(target);
    der[targetClass] := der[targetClass] + 1.0;
    assert forall dim :: 0 <= dim < approxDimension ==> der[dim] == GradientAt(softmax, targetClass, dim);

    if der2 != null {
      WriteSoftmaxHessian(softmax, der2.data);
    }

    if weight != 1.0 {
      ScaleInPlace(der, approxDimension, weight);
      if der2 != null {
        ScalePackedHessian(softmax, weight, der2.data);
      }
    }
  }

  /** The `der2 != nullptr` block of `TMultiClassError::CalcDersMulti`: a running index
      walks the upper triangle row by row. */
  method WriteSoftmaxHessian(softmax: seq<real>, data: array<real>)
    requires PackedSize(|softmax|) <= data.Length
    modifies data
    ensures forall y, x :: 0 <= y <= x < |softmax| ==>
              data[PackedIndex(|softmax|, y, x)] == HessianEntry(softmax, y, x)
    ensures forall i :: PackedSize(|softmax|) <= i < data.Length ==> data[i] == old(data[i])
  {
    var n := |softmax|;
    var idx := 0;
    for dimY := 0 to n
      invariant idx == RowStart(n, dimY)
      invariant forall y, x :: 0 <= y <= x < n && y < dimY ==> data[PackedIndex(n, y, x)] == HessianEntry(softmax, y, x)
      invariant forall i :: RowStart(n, dimY) <= i < data.Length ==> data[i] == old(data[i])
    {
      RowStartMonotone(n, dimY, n);
      forall y | 0 <= y < dimY
        ensures RowStart(n, y) + (n - y) <= RowStart(n, dimY)
      {
        RowStartMonotone(n, y, dimY);
      }
      data[idx] := softmax[dimY] * (softmax[dimY] - 1.0);
      idx := idx + 1;
      for dimX := dimY + 1 to n
        invariant idx == RowStart(n, dimY) + (dimX - dimY)
        invariant forall y, x :: 0 <= y <= x < n && (y < dimY || (y == dimY && x < dimX)) ==>
                    data[PackedIndex(n, y, x)] == HessianEntry(softmax, y, x)
        invariant forall i :: idx <= i < data.Length ==> data[i] == old(data[i])
      {
        data[idx] := softmax[dimY] * softmax[dimX];
        idx := idx + 1;
      }
    }
  }

  /** The weight block of `TMultiClassError::CalcDersMulti` for the Hessian: every packed
      entry times the weight. */
  method ScalePackedHessian(softmax: seq<real>, weight: real, data: array<real>)
    requires PackedSize(|softmax|) <= data.Length
    requires forall y, x :: 0 <= y <= x < |softmax| ==>
               data[PackedIndex(|softmax|, y, x)] == HessianEntry(softmax, y, x)
    modifies data
    ensures forall y, x :: 0 <= y <= x < |softmax| ==>
              data[PackedIndex(|softmax|, y, x)] == Weighted(HessianEntry(softmax, y, x), weight)
    ensures forall i :: PackedSize(|softmax|) <= i < data.Length ==> data[i] == old(data[i])
  {
    var n := |softmax|;
    var idx := 0;
    for dimY := 0 to n
      invariant idx == RowStart(n, dimY)
      invariant forall y, x :: 0 <= y <= x < n ==>
                  data[PackedIndex(n, y, x)] == if y < dimY then Weighted(HessianEntry(softmax, y, x), weight)
                                                else HessianEntry(softmax, y, x)
      invariant forall i :: PackedSize(n) <= i < data.Length ==> data[i] == old(data[i])
    {
      RowStartMonotone(n, dimY, n);
      forall y | 0 <= y < dimY
        ensures RowStart(n, y) + (n - y) <= RowStart(n, dimY)
      {
        RowStartMonotone(n, y, dimY);
      }
      forall y | dimY < y < n
        ensures RowStart(n, dimY) + (n - dimY) <= RowStart(n, y)
      {
        RowStartMonotone(n, dimY, y);
      }
      for dimX := dimY to n
        invariant idx == RowStart(n, dimY) + (dimX - dimY)
        invariant forall y, x :: 0 <= y <= x < n ==>
                    data[PackedIndex(n, y, x)] == if y < dimY || (y == dimY && x < dimX)
                                                  then Weighted(HessianEntry(softmax, y, x), weight)
                                                  else HessianEntry(softmax, y, x)
        invariant forall i :: PackedSize(n) <= i < data.Length ==> data[i] == old(data[i])
      {
        data[idx] := Weighted(data[idx], weight);
        idx := idx + 1;
      }
    }
  }

  /** The one-vs-all probabilities p = e / (1 + e) of the exponents. */
  function Probs(expApprox: seq<real>): (r: seq<real>)
    requires ExpsInDomain(expApprox)
    ensures |r| == |expApprox| && forall dim :: 0 <= dim < |r| ==> r[dim] == Prob(expApprox[dim])
  {
    seq(|expApprox|, dim requires 0 <= dim < |expApprox| && ExpsInDomain(expApprox) => Prob(expApprox[dim]))
  }

  /** Nonnegative exponents give probabilities in [0, 1), so the one-vs-all gradient points
      towards the target class. */
  lemma ProbsLieInUnit(expApprox: seq<real>, targetClass: int)
    requires forall dim :: 0 <= dim < |expApprox| ==> expApprox[dim] >= 0.0
    ensures ExpsInDomain(expApprox)
    ensures forall dim :: 0 <= dim < |expApprox| ==> 0.0 <= Probs(expApprox)[dim] < 1.0
    ensures var g := Gradient(Probs(expApprox), targetClass);
            forall dim :: 0 <= dim < |expApprox| ==> (g[dim] > 0.0 ==> dim == targetClass) && (dim == targetClass ==> g[dim] > 0.0)
  {
  }

  /** One-vs-all Hessian diagonal entry `dim` before weighting: -p(1 - p). */
  function OneVsAllHessianAt(expApprox: seq<real>, dim: int): real
    requires ExpsInDomain(expApprox) && 0 <= dim < |expApprox|
  {
    LogisticDer2(Prob(expApprox[dim]))
  }

  /** `TMultiClassOneVsAllError::CalcDersMulti`: per class, the logistic probability of the
      exponent, a gradient onehot - p and a diagonal Hessian -p(1 - p), times the weight. */
  method OneVsAllDersMulti(approx: seq<real>, expApprox: seq<real>, target: real, weight: real,
                           der: array<real>, der2: HessianInfo?)
    requires |expApprox| == |approx| && |approx| <= der.Length && ExpsInDomain(expApprox)
    requires 0 <= TruncateToInt(target) < |approx|
    requires der2 != null ==> der2.hessianType == Diagonal && der2.approxDimension == |approx|
                              && |approx| <= der2.data.Length && der2.data != der
    modifies der, if der2 != null then {der2.data} else {}
    ensures forall dim :: 0 <= dim < |approx| ==>
              der[dim] == Weighted(GradientAt(Probs(expApprox), TruncateToInt(target), dim), weight)
    ensures forall i :: |approx| <= i < der.Length ==> der[i] == old(der[i])
    ensures der2 != null ==>
              (forall dim :: 0 <= dim < |approx| ==> der2.data[dim] == Weighted(OneVsAllHessianAt(expApprox, dim), weight))
              && forall i :: |approx| <= i < der2.data.Length ==> der2.data[i] == old(der2.data[i])
  {
    var approxDimension := |approx|;
    var prob := expApprox;
    for dim := 0 to approxDimension
      modifies der
      invariant |prob| == approxDimension
      invariant forall k :: 0 <= k < dim ==> prob[k] == Prob(expApprox[k]) && der[k] == -prob[k]
      invariant forall k :: dim <= k < approxDimension ==> prob[k] == expApprox[k]
      invariant forall i :: dim <= i < der.Length ==> der[i] == old(der[i])
    {
      prob := prob[dim := prob[dim] / (1.0 + prob[dim])];
      der[dim] := -prob[dim];
    }
    assert prob == Probs(expApprox);
    var targetClass := TruncateToInt(target);
    der[targetClass] := der[targetClass] + 1.0;

    if der2 != null {
      var data := der2.data;
      for dim := 0 to approxDimension
        modifies data
        invariant forall k :: 0 <= k < dim ==> data[k] == OneVsAllHessianAt(expApprox, k)
        invariant forall i :: dim <= i < data.Length ==> data[i] == old(data[i])
      {
        data[dim] := -prob[dim] * (1.0 - prob[dim]);
      }
    }

    if weight != 1.0 {
      ScaleInPlace(der, approxDimension, weight);
      if der2 != null {
        ScaleInPlace(der2.data, approxDimension, weight);
      }
    }
  }

  /** `x *= weight` for the first n entries of an array. */
  method ScaleInPlace(a: array<real>, n: int, weight: real)
    requires 0 <= n <= a.Length
    modifies a
    ensures forall k :: 0 <= k < n ==> a[k] == Weighted(old(a[k]), weight)
    ensures forall i :: n <= i < a.Length ==> a[i] == old(a[i])
  {
    for dim := 0 to n
      invariant forall k :: 0 <= k < n ==> a[k] == if k < dim then Weighted(old(a[k]), weight) else old(a[k])
      invariant forall i :: n <= i < a.Length ==> a[i] == old(a[i])
    {
      a[dim] := Weighted(a[dim], weight);
    }
  }

  // ---------------------------------------------------------------- properties

  lemma WeightedAdd(a: real, b: real, w: real)
    ensures Weighted(a, w) + Weighted(b, w) == Weighted(a + b, w)
  {
  }

  /** The weighted gradient vector that `MultiClassDersMulti` writes. */
  function WeightedGradient(prob: seq<real>, targetClass: int, weight: real): (r: seq<real>)
    ensures |r| == |prob|
    ensures forall dim :: 0 <= dim < |prob| ==> r[dim] == Weighted(GradientAt(prob, targetClass, dim), weight)
  {
    seq(|prob|, dim requires 0 <= dim < |prob| => Weighted(GradientAt(prob, targetClass, dim), weight))
  }

  /** A value in [-1, 1] times a nonnegative weight stays within the weight and keeps its sign. */
  lemma WeightedUnitSign(x: real, w: real)
    requires w >= 0.0 && -1.0 <= x <= 1.0
    ensures -w <= Weighted(x, w) <= w
    ensures Weighted(x, w) > 0.0 ==> x > 0.0
    ensures x >= 0.0 ==> Weighted(x, w) >= 0.0
  {
    if x >= 0.0 {
      assert 0.0 <= x * w <= 1.0 * w;
    } else {
      assert -1.0 * w <= x * w <= 0.0;
    }
  }

  /** A nonnegative object weight keeps the direction of the gradient: for probabilities in
      [0, 1] only the target's weighted entry can be positive, and every entry is bounded by
      the weight. */
  lemma {:induction false} WeightedGradientKeepsDirection(prob: seq<real>, targetClass: int, weight: real)
    requires weight >= 0.0 && forall dim :: 0 <= dim < |prob| ==> 0.0 <= prob[dim] <= 1.0
    ensures var r := WeightedGradient(prob, targetClass, weight);
            forall dim :: 0 <= dim < |prob| ==>
              -weight <= r[dim] <= weight && (r[dim] > 0.0 ==> dim == targetClass) && (dim == targetClass ==> r[dim] >= 0.0)
  {
    var g := Gradient(prob, targetClass);
    forall dim | 0 <= dim < |prob|
      ensures var r := WeightedGradient(prob, targetClass, weight);
              -weight <= r[dim] <= weight && (r[dim] > 0.0 ==> dim == targetClass) && (dim == targetClass ==> r[dim] >= 0.0)
    {
      assert g[dim] == GradientAt(prob, targetClass, dim);
      WeightedUnitSign(g[dim], weight);
    }
  }

  /** The weighted gradient sums to weight * (1 - sum of the probabilities), which is 0 for a
      softmax that sums to 1. */
  lemma {:induction false} GradientSum(prob: seq<real>, targetClass: int, weight: real)
    requires 0 <= targetClass < |prob|
    ensures Sum(WeightedGradient(prob, targetClass, weight)) == Weighted(1.0 - Sum(prob), weight)
    ensures Sum(prob) == 1.0 ==> Sum(WeightedGradient(prob, targetClass, weight)) == 0.0
  {
    var g := WeightedGradient(prob, targetClass, weight);
    for k := 0 to |prob|
      invariant SumTo(g, k) == Weighted((if targetClass < k then 1.0 else 0.0) - SumTo(prob, k), weight)
    {
      SumToStep(g, k);
      SumToStep(prob, k);
      WeightedAdd((if targetClass < k then 1.0 else 0.0) - SumTo(prob, k), GradientAt(prob, targetClass, k), weight);
    }
    SumToAll(g);
    SumToAll(prob);
  }

  /** One-vs-all treats every class as a cross-entropy problem of its own: gradient entry
      `dim` is cross-entropy's Der1 with target onehot(dim), the Hessian entry its Der2. */
  lemma OneVsAllIsPerClassCrossEntropy(expApprox: seq<real>, targetClass: int, dim: int)
    requires ExpsInDomain(expApprox) && 0 <= dim < |expApprox|
    ensures var t := if dim == targetClass then 1.0 else 0.0;
            GradientAt(Probs(expApprox), targetClass, dim) == CalcDer(Calcer(CrossEntropyError, 0.0), expApprox[dim], t).value
            && OneVsAllHessianAt(expApprox, dim) == CalcDer2(Calcer(CrossEntropyError, 0.0), expApprox[dim], t).value
  {
  }
}
