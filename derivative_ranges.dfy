/** The range drivers `IDerCalcer::CalcFirstDerRange` and `IDerCalcer::CalcDersRange`
    (catboost/libs/algo/error_functions.h): they fill `ders[start .. start + count)` with the
    per-object derivatives of the (optionally delta-updated) approxes and scale them by the
    object weights. A null pointer is an `array?` that is `null`. */
module DerivativeRanges {
  import opened Wrappers
  import opened Derivatives

  /** The contents of a possibly-null buffer. */
  function Elems(a: array?<real>): Option<seq<real>>
    reads a
  {
    if a == null then None else Some(a[..])
  }

  /** The buffers cover every index of a nonempty range. */
  predicate RangeFits(start: int, count: int, approxes: seq<real>, deltas: Option<seq<real>>,
                      targets: seq<real>, weights: Option<seq<real>>, size: int)
  {
    count > 0 ==>
      0 <= start && start + count <= size && start + count <= |approxes| && start + count <= |targets|
      && (deltas.Some? ==> start + count <= |deltas.value|)
      && (weights.Some? ==> start + count <= |weights.value|)
  }

  /** The approx the formula sees at index i: `UpdateApprox(approx, delta)` when deltas are
      given (`update` stands for `UpdateApprox<StoreExpApprox>`), else the approx itself. */
  function ApproxAt(approxes: seq<real>, deltas: Option<seq<real>>, update: (real, real) -> real, i: int): real
    requires 0 <= i < |approxes| && (deltas.Some? ==> i < |deltas.value|)
  {
    if deltas.Some? then update(approxes[i], deltas.value[i]) else approxes[i]
  }

  /** The weight of index i, or None for a null weight buffer. */
  function WeightAt(weights: Option<seq<real>>, i: int): Option<real>
    requires weights.Some? ==> 0 <= i < |weights.value|
  {
    if weights.Some? then Some(weights.value[i]) else None
  }

  /** Every formula of the range is evaluated inside its domain. */
  predicate RangeInDomain(c: Calcer, start: int, count: int, approxes: seq<real>, deltas: Option<seq<real>>,
                          targets: seq<real>, update: (real, real) -> real)
    requires RangeFits(start, count, approxes, deltas, targets, None, start + count)
  {
    forall i | start <= i < start + count :: InDomain(c.cls, ApproxAt(approxes, deltas, update, i), targets[i])
  }

  /** The first derivative one index ends up with: `CalcDer`, times the weight if any. */
  function FirstDerAt(c: Calcer, approx: real, target: real, w: Option<real>): (r: real)
    requires ScalarModelled(c.cls) && InDomain(c.cls, approx, target) && !ScalarNotImplemented(c.cls)
    ensures w.None? ==> r == CalcDer(c, approx, target).value
  {
    var d := CalcDer(c, approx, target).value;
    if w.Some? then Weighted(d, w.value) else d
  }

  /** The derivative triple one index ends up with: the base `CalcDers` applied to the entry
      it had, then Der1 and Der2 (and Der3 when `calcThirdDer`) times the weight if any. */
  function DersAt(c: Calcer, approx: real, target: real, calcThirdDer: bool, into: Ders, w: Option<real>): (r: Ders)
    requires ScalarModelled(c.cls) && InDomain(c.cls, approx, target) && !ScalarNotImplemented(c.cls)
    ensures !calcThirdDer ==> r.der3 == into.der3
  {
    var d := BaseCalcDers(c, approx, target, calcThirdDer, into).value;
    if w.None? then d else WeightDers(d, w.value, calcThirdDer)
  }

  /** Der1 and Der2, and Der3 when `calcThirdDer`, times the weight w. */
  function WeightDers(d: Ders, w: real, calcThirdDer: bool): Ders
  {
    d.(der1 := Weighted(d.der1, w), der2 := Weighted(d.der2, w),
       der3 := if calcThirdDer then Weighted(d.der3, w) else d.der3)
  }

  /** `CalcFirstDerRange`. Cross-entropy overrides it out of line and Lq/Custom are not
      modelled, so those classes are excluded. A class without scalar formulas fails on the
      first index, before anything is written. */
  method CalcFirstDerRange(c: Calcer, start: int, count: int, approxes: array<real>, approxDeltas: array?<real>,
                           targets: array<real>, weights: array?<real>, ders: array<real>,
                           update: (real, real) -> real)
    returns (r: Outcome<DerError>)
    requires ScalarModelled(c.cls) && c.cls != CrossEntropyError
    requires RangeFits(start, count, approxes[..], Elems(approxDeltas), targets[..], Elems(weights), ders.Length)
    requires ders != approxes && ders != approxDeltas && ders != targets && ders != weights
    requires RangeInDomain(c, start, count, approxes[..], Elems(approxDeltas), targets[..], update)
    modifies ders
    ensures r.Fail? <==> count > 0 && ScalarNotImplemented(c.cls)
    ensures r.Fail? ==> ders[..] == old(ders[..])
    ensures r.Pass? ==>
      forall i :: 0 <= i < ders.Length ==>
        ders[i] == if start <= i < start + count
                   then FirstDerAt(c, ApproxAt(approxes[..], Elems(approxDeltas), update, i), targets[i],
                                   WeightAt(Elems(weights), i))
                   else old(ders[i])
  {
    if count <= 0 {
      // both loops of the source are empty
      return Pass;
    }
    ghost var deltas := Elems(approxDeltas);
    for i := start to start + count
      invariant i > start ==> !ScalarNotImplemented(c.cls)
      invariant forall k :: 0 <= k < ders.Length ==>
        ders[k] == if start <= k < i then CalcDer(c, ApproxAt(approxes[..], deltas, update, k), targets[k]).value
                   else old(ders[k])
    {
      var approx := if approxDeltas != null then update(approxes[i], approxDeltas[i]) else approxes[i];
      assert approx == ApproxAt(approxes[..], deltas, update, i);
      match CalcDer(c, approx, targets[i])
      case Err(e) => return Fail(e);
      case Ok(d) => ders[i] := d;
    }
    if weights != null {
      for i := start to start + count
        invariant forall k :: 0 <= k < ders.Length ==>
          ders[k] == if start <= k < start + count
                     then (var d := CalcDer(c, ApproxAt(approxes[..], deltas, update, k), targets[k]).value;
                           if k < i then Weighted(d, weights[k]) else d)
                     else old(ders[k])
      {
        ders[i] := Weighted(ders[i], weights[i]);
      }
    }
    return Pass;
  }

  /** `CalcDersRange`: the base `CalcDers` (not a class's fused override) on every index of
      the range, then the weight scaling of Der1, Der2 and, only when `calcThirdDer`, Der3. */
  method CalcDersRange(c: Calcer, start: int, count: int, calcThirdDer: bool, approxes: array<real>,
                       approxDeltas: array?<real>, targets: array<real>, weights: array?<real>,
                       ders: array<Ders>, update: (real, real) -> real)
    returns (r: Outcome<DerError>)
    requires ScalarModelled(c.cls) && c.cls != CrossEntropyError
    requires RangeFits(start, count, approxes[..], Elems(approxDeltas), targets[..], Elems(weights), ders.Length)
    requires RangeInDomain(c, start, count, approxes[..], Elems(approxDeltas), targets[..], update)
    modifies ders
    ensures r.Fail? <==> count > 0 && ScalarNotImplemented(c.cls)
    ensures r.Fail? ==> ders[..] == old(ders[..])
    ensures r.Pass? ==>
      forall i :: 0 <= i < ders.Length ==>
        ders[i] == if start <= i < start + count
                   then DersAt(c, ApproxAt(approxes[..], Elems(approxDeltas), update, i), targets[i],
                               calcThirdDer, old(ders[i]), WeightAt(Elems(weights), i))
                   else old(ders[i])
  {
    if count <= 0 {
      return Pass;
    }
    ghost var deltas := Elems(approxDeltas);
    for i := start to start + count
      invariant i > start ==> !ScalarNotImplemented(c.cls)
      invariant forall k :: 0 <= k < ders.Length ==>
        ders[k] == if start <= k < i
                   then BaseCalcDers(c, ApproxAt(approxes[..], deltas, update, k), targets[k], calcThirdDer, old(ders[k])).value
                   else old(ders[k])
    {
      var approx := if approxDeltas != null then update(approxes[i], approxDeltas[i]) else approxes[i];
      assert approx == ApproxAt(approxes[..], deltas, update, i);
      match BaseCalcDers(c, approx, targets[i], calcThirdDer, ders[i])
      case Err(e) => return Fail(e);
      case Ok(d) => ders[i] := d;
    }
    if weights != null {
      WeightDersRange(start, count, calcThirdDer, weights, ders);
    }
    return Pass;
  }

  /** The weight loop of `CalcDersRange`: Der1 and Der2, and Der3 only when `calcThirdDer`,
      of every index of the range times that index's weight. */
  method WeightDersRange(start: int, count: int, calcThirdDer: bool, weights: array<real>, ders: array<Ders>)
    requires 0 <= start && 0 <= count && start + count <= ders.Length && start + count <= weights.Length
    modifies ders
    ensures forall k :: 0 <= k < ders.Length ==>
              ders[k] == if start <= k < start + count then WeightDers(old(ders[k]), weights[k], calcThirdDer)
                         else old(ders[k])
  {
    for i := start to start + count
      invariant forall k :: 0 <= k < ders.Length ==>
                  ders[k] == if start <= k < i then WeightDers(old(ders[k]), weights[k], calcThirdDer)
                             else old(ders[k])
    {
      var w := weights[i];
      if calcThirdDer {
        ders[i] := ders[i].(der1 := Weighted(ders[i].der1, w), der2 := Weighted(ders[i].der2, w),
                            der3 := Weighted(ders[i].der3, w));
      } else {
        ders[i] := ders[i].(der1 := Weighted(ders[i].der1, w), der2 := Weighted(ders[i].der2, w));
      }
    }
  }

  // ---------------------------------------------------------------- properties

  /** `CalcDersRange` and `CalcFirstDerRange` agree on Der1 for identical inputs, whatever
      the entry held before and whether or not Der3 is requested. */
  lemma DersRangeAgreesWithFirstDerRange(c: Calcer, approx: real, target: real, calcThirdDer: bool,
                                         into: Ders, w: Option<real>)
    requires ScalarModelled(c.cls) && InDomain(c.cls, approx, target) && !ScalarNotImplemented(c.cls)
    ensures DersAt(c, approx, target, calcThirdDer, into, w).der1 == FirstDerAt(c, approx, target, w)
  {
  }

  /** Every computed order is the unweighted one times the weight; an order that is not
      computed (Der3 without `calcThirdDer`) keeps the entry's old value, unscaled. */
  lemma WeightScalesComputedOrders(c: Calcer, approx: real, target: real, calcThirdDer: bool,
                                   into: Ders, w: real)
    requires ScalarModelled(c.cls) && InDomain(c.cls, approx, target) && !ScalarNotImplemented(c.cls)
    ensures var u := DersAt(c, approx, target, calcThirdDer, into, None);
            var d := DersAt(c, approx, target, calcThirdDer, into, Some(w));
            d.der1 == Weighted(u.der1, w) && d.der2 == Weighted(u.der2, w)
            && d.der3 == (if calcThirdDer then Weighted(u.der3, w) else into.der3)
    ensures FirstDerAt(c, approx, target, Some(w)) == Weighted(FirstDerAt(c, approx, target, None), w)
  {
  }

  /** A zero weight yields zero for every computed order. */
  lemma ZeroWeightZeroes(c: Calcer, approx: real, target: real, calcThirdDer: bool, into: Ders)
    requires ScalarModelled(c.cls) && InDomain(c.cls, approx, target) && !ScalarNotImplemented(c.cls)
    ensures FirstDerAt(c, approx, target, Some(0.0)) == 0.0
    ensures var d := DersAt(c, approx, target, calcThirdDer, into, Some(0.0));
            d.der1 == 0.0 && d.der2 == 0.0 && (calcThirdDer ==> d.der3 == 0.0)
  {
  }

  /** A null weight buffer acts as weight 1. */
  lemma NullWeightsAreUnitWeights(c: Calcer, approx: real, target: real, calcThirdDer: bool, into: Ders)
    requires ScalarModelled(c.cls) && InDomain(c.cls, approx, target) && !ScalarNotImplemented(c.cls)
    ensures FirstDerAt(c, approx, target, Some(1.0)) == FirstDerAt(c, approx, target, None)
    ensures DersAt(c, approx, target, calcThirdDer, into, Some(1.0)) == DersAt(c, approx, target, calcThirdDer, into, None)
  {
  }
}
