/** Per-object loss derivatives and the capability table of the derivative calculators
    (catboost/libs/algo/error_functions.h). A calculator returns derivatives of the
    log-likelihood, i.e. of the NEGATED loss, with respect to the prediction; calculators whose
    approxes are stored as exponents (`StoreExpApprox`) receive `approxExp = exp(prediction)`. */
module Derivatives {
  import opened Enums
  import opened Wrappers

  /** `TDers`: first, second and third derivative of one object. */
  datatype Ders = Ders(der1: real, der2: real, der3: real)

  /** The calculator classes of error_functions.h (`TCrossEntropyError`, ...). */
  datatype CalcerClass =
    | CrossEntropyError | ConstrainedRegressionError | HonestLikelihoodError | RMSEError
    | QuantileError | LqError | LogLinQuantileError | MAPError | PoissonError
    | MultiClassError | MultiClassOneVsAllError | PairLogitError | QueryRmseError
    | QuerySoftMaxError | CustomError | UserDefinedPerObjectError | UserDefinedQuerywiseError

  /** A calculator object: its class and the one numeric member some classes carry
      (`Alpha` of the quantile and user-defined errors, `Q` of Lq, `LambdaReg` of QuerySoftMax);
      `param` is ignored by the other classes. */
  datatype Calcer = Calcer(cls: CalcerClass, param: real)

  /** Alpha of the one-argument quantile constructors. */
  const DefaultAlpha: real := 0.5

  datatype DerError = NotImplemented | ApproxFormatMismatch | EmptyQueryRange

  // ---------------------------------------------------------------- capability table

  /** `GetErrorType`: the base answers PerObjectError; pairwise and querywise classes override. */
  function ErrorType(cls: CalcerClass): (r: EErrorType)
    ensures r == PairwiseError <==> cls == PairLogitError
    ensures r == QuerywiseError <==> cls in {QueryRmseError, QuerySoftMaxError, UserDefinedQuerywiseError}
  {
    match cls
    case PairLogitError => PairwiseError
    case QueryRmseError => QuerywiseError
    case QuerySoftMaxError => QuerywiseError
    case UserDefinedQuerywiseError => QuerywiseError
    case _ => PerObjectError
  }

  /** `GetMaxSupportedDerivativeOrder`: 3 by default, 2 for the multiclass, pairwise and
      query calculators, and for Lq 3 exactly when Q >= 2, else 1. */
  function MaxDerivativeOrder(c: Calcer): (r: nat)
    ensures 1 <= r <= 3
    ensures c.cls == LqError ==> (r == 3 <==> c.param >= 2.0)
    ensures c.cls != LqError ==>
              (r == 2 <==> c.cls in {MultiClassError, MultiClassOneVsAllError, PairLogitError, QueryRmseError, QuerySoftMaxError})
    ensures c.cls != LqError && !ScalarNotImplemented(c.cls) ==> r == 3
  {
    match c.cls
    case MultiClassError => 2
    case MultiClassOneVsAllError => 2
    case PairLogitError => 2
    case QueryRmseError => 2
    case QuerySoftMaxError => 2
    case LqError => if c.param >= 2.0 then 3 else 1
    case _ => 3
  }

  /** `GetHessianType`: Symmetric by default, Diagonal for one-vs-all. */
  function HessianType(cls: CalcerClass): (r: EHessianType)
    ensures r == Diagonal <==> cls == MultiClassOneVsAllError
  {
    if cls == MultiClassOneVsAllError then Diagonal else Symmetric
  }

  /** `StoreExpApprox`, the template argument each class passes to `IDerCalcer`. */
  predicate StoreExpApprox(cls: CalcerClass)
  {
    cls in {CrossEntropyError, ConstrainedRegressionError, HonestLikelihoodError,
            LogLinQuantileError, PoissonError, PairLogitError}
  }

  /** The check every constructor makes: the caller's approx format must match the class's. */
  function NewCalcer(cls: CalcerClass, param: real, storeExpApprox: bool): (r: Result<Calcer, DerError>)
    ensures r.Ok? <==> storeExpApprox == StoreExpApprox(cls)
    ensures r.Ok? ==> r.value.cls == cls && r.value.param == param
  {
    if storeExpApprox == StoreExpApprox(cls) then Ok(Calcer(cls, param)) else Err(ApproxFormatMismatch)
  }

  /** Classes whose scalar `CalcDer`/`CalcDer2`/`CalcDer3` end in `CB_ENSURE(false, ...)`.
      One-vs-all inherits `IDerCalcer<TMultiClassError, ...>`, so its range drivers reach
      TMultiClassError's failing `CalcDer`. */
  predicate ScalarNotImplemented(cls: CalcerClass)
  {
    cls in {MultiClassError, MultiClassOneVsAllError, PairLogitError, QueryRmseError,
            QuerySoftMaxError, UserDefinedPerObjectError, UserDefinedQuerywiseError}
  }

  /** Classes whose scalar formulas are modelled: all but Lq (real powers) and Custom
      (a user callback, which overrides the range drivers). */
  predicate ScalarModelled(cls: CalcerClass)
  {
    cls != LqError && cls != CustomError
  }

  /** `CalcDersMulti`: the multiclass, one-vs-all and custom classes supply their own; every
      other class inherits the base, which fails "Not implemented". */
  function CalcDersMultiOutcome(cls: CalcerClass): (r: Outcome<DerError>)
    ensures r.Pass? ==> ErrorType(cls) == PerObjectError
    ensures r.Pass? && cls != CustomError ==> ScalarNotImplemented(cls)
    ensures ScalarModelled(cls) && !ScalarNotImplemented(cls) ==> r == Fail(NotImplemented)
  {
    if cls in {MultiClassError, MultiClassOneVsAllError, CustomError} then Pass else Fail(NotImplemented)
  }

  /** `CalcDersForQueries`: PairLogit, QueryRMSE and QuerySoftMax supply their own; the base,
      and the user-defined querywise class, fail "Not implemented". */
  function CalcDersForQueriesOutcome(cls: CalcerClass): (r: Outcome<DerError>)
    ensures r.Pass? ==> ErrorType(cls) != PerObjectError && ScalarNotImplemented(cls)
    ensures ErrorType(cls) == PerObjectError ==> r == Fail(NotImplemented)
  {
    if cls in {PairLogitError, QueryRmseError, QuerySoftMaxError} then Pass else Fail(NotImplemented)
  }

  /** The entry points agree with the capability table: the two multiclass calculators are
      per-object second-order calculators without scalar formulas, every second-order class
      answers exactly one of the vector entry points, and no class answers both. */
  lemma EntryPointsMatchCapabilities(c: Calcer)
    ensures CalcDersMultiOutcome(c.cls).Pass? && c.cls != CustomError
            ==> ScalarNotImplemented(c.cls) && MaxDerivativeOrder(c) == 2 && ErrorType(c.cls) == PerObjectError
    ensures !(CalcDersMultiOutcome(c.cls).Pass? && CalcDersForQueriesOutcome(c.cls).Pass?)
    ensures MaxDerivativeOrder(c) == 2 ==> CalcDersMultiOutcome(c.cls).Pass? || CalcDersForQueriesOutcome(c.cls).Pass?
  {
  }

  // ---------------------------------------------------------------- closed forms

  /** `x *= w`: a derivative scaled by an object weight. */
  function Weighted(x: real, w: real): real
  {
    x * w
  }

  /** p = approxExp / (1 + approxExp), the logistic probability of the exponent form. */
  function Prob(approxExp: real): real
    requires 1.0 + approxExp != 0.0
  {
    approxExp / (1.0 + approxExp)
  }

  /** Where every divisor of a class's formulas, written as the source writes it, is nonzero
      (real division is undefined at zero; the C++ yields an infinity or NaN there). */
  predicate InDomain(cls: CalcerClass, approx: real, target: real)
  {
    match cls
    case CrossEntropyError => 1.0 + approx != 0.0
    case ConstrainedRegressionError =>
      var aPlusOne := approx + 1.0;
      var aPlusOneSquared := aPlusOne * aPlusOne;
      aPlusOne * aPlusOne * aPlusOne != 0.0 && aPlusOneSquared * aPlusOneSquared != 0.0
      && aPlusOneSquared * aPlusOneSquared * aPlusOne != 0.0
    case HonestLikelihoodError =>
      1.0 + approx != 0.0 &&
      var rp := approx / (1.0 + approx);
      var rnp := 1.0 / (1.0 + approx);
      var b := target * rp + (1.0 - target) * rnp;
      var denomRoot3 := (approx + 1.0) * (target * approx - target + 1.0);
      b != 0.0 && b * b != 0.0 && Cube(denomRoot3) != 0.0
    case MAPError => target != 0.0
    case _ => true
  }

  function Cube(x: real): real { x * x * x }

  /** The logistic curvature -p(1 - p) at probability p. */
  function LogisticDer2(p: real): real
  {
    -p * (1.0 - p)
  }

  /** The logistic third derivative -p(1 - p)(1 - 2p) at probability p. */
  function LogisticDer3(p: real): real
  {
    -p * (1.0 - p) * (1.0 - 2.0 * p)
  }

  /** `TConstrainedRegressionError::CalcDer`. */
  function ConstrainedRegressionDer1(approx: real, target: real): real
    requires InDomain(ConstrainedRegressionError, approx, target)
  {
    var aPlusOne := approx + 1.0;
    2.0 * approx * ((target - 1.0) * approx + target) / (aPlusOne * aPlusOne * aPlusOne)
  }

  /** `TConstrainedRegressionError::CalcDer2`. */
  function ConstrainedRegressionDer2(approx: real, target: real): real
    requires InDomain(ConstrainedRegressionError, approx, target)
  {
    var aPlusOne := approx + 1.0;
    var aPlusOneSquared := aPlusOne * aPlusOne;
    -2.0 * approx * ((target - 1.0) * approx * approx - target + 2.0 * approx)
    / (aPlusOneSquared * aPlusOneSquared)
  }

  /** `TConstrainedRegressionError::CalcDer3`. */
  function ConstrainedRegressionDer3(approx: real, target: real): real
    requires InDomain(ConstrainedRegressionError, approx, target)
  {
    var aPlusOne := approx + 1.0;
    var aPlusOneSquared := aPlusOne * aPlusOne;
    -2.0 * approx * (approx * (-approx * ((target - 1.0) * approx - 3.0 * target + 7.0)
                               + 3.0 * target + 4.0) - target)
    / (aPlusOneSquared * aPlusOneSquared * aPlusOne)
  }

  /** `THonestLikelihoodError::CalcDer`. */
  function HonestLikelihoodDer1(approx: real, target: real): real
    requires InDomain(HonestLikelihoodError, approx, target)
  {
    var rp := approx / (1.0 + approx);
    var rnp := 1.0 / (1.0 + approx);
    var rpGrad := rp * rnp;
    rpGrad * (2.0 * target - 1.0) / (target * rp + (1.0 - target) * rnp)
  }

  /** `THonestLikelihoodError::CalcDer2`. */
  function HonestLikelihoodDer2(approx: real, target: real): real
    requires InDomain(HonestLikelihoodError, approx, target)
  {
    var rp := approx / (1.0 + approx);
    var rnp := 1.0 / (1.0 + approx);
    var rpGrad := rp * rnp;
    var a := rpGrad * (2.0 * target - 1.0);
    var b := target * rp + (1.0 - target) * rnp;
    -(a * a / (b * b) + rpGrad * (2.0 * target - 1.0) * (rp - rnp) / b)
  }

  /** `THonestLikelihoodError::CalcDer3`. */
  function HonestLikelihoodDer3(approx: real, target: real): real
    requires InDomain(HonestLikelihoodError, approx, target)
  {
    var approx2 := approx * approx;
    var target2 := target * target;
    (2.0 * target - 1.0) * approx * (target2 * approx2 * approx2
                                     - target * approx2 * approx
                                     + 6.0 * target2 * approx2
                                     - 6.0 * target * approx2
                                     + target * approx
                                     - approx
                                     + target2
                                     - 2.0 * target + 1.0)
    / Cube((approx + 1.0) * (target * approx - target + 1.0))
  }

  /** `TLogLinQuantileError::CalcDer`: the quantile sign rule times the exponent. */
  function LogLinQuantileDer1(alpha: real, approxExp: real, target: real): real
  {
    if target - approxExp > 0.0 then alpha * approxExp else -(1.0 - alpha) * approxExp
  }

  /** `TMAPError::CalcDer`: the median sign rule divided by the target. */
  function MapDer1(approx: real, target: real): real
    requires target != 0.0
  {
    if target - approx > 0.0 then 1.0 / target else -1.0 / target
  }

  /** `CalcDer`: the first derivative of one object, or the "Not implemented" failure. */
  function CalcDer(c: Calcer, approx: real, target: real): (r: Result<real, DerError>)
    requires ScalarModelled(c.cls) && InDomain(c.cls, approx, target)
    ensures r.Err? <==> ScalarNotImplemented(c.cls)
  {
    match c.cls
    case CrossEntropyError => Ok(target - Prob(approx))
    case ConstrainedRegressionError => Ok(ConstrainedRegressionDer1(approx, target))
    case HonestLikelihoodError => Ok(HonestLikelihoodDer1(approx, target))
    case RMSEError => Ok(target - approx)
    case QuantileError => Ok(if target - approx > 0.0 then c.param else -(1.0 - c.param))
    case LogLinQuantileError => Ok(LogLinQuantileDer1(c.param, approx, target))
    case MAPError => Ok(MapDer1(approx, target))
    case PoissonError => Ok(target - approx)
    case _ => Err(NotImplemented)
  }

  /** `CalcDer2`. */
  function CalcDer2(c: Calcer, approx: real, target: real): (r: Result<real, DerError>)
    requires ScalarModelled(c.cls) && InDomain(c.cls, approx, target)
    ensures r.Err? <==> ScalarNotImplemented(c.cls)
  {
    match c.cls
    case CrossEntropyError => Ok(LogisticDer2(Prob(approx)))
    case ConstrainedRegressionError => Ok(ConstrainedRegressionDer2(approx, target))
    case HonestLikelihoodError => Ok(HonestLikelihoodDer2(approx, target))
    case RMSEError => Ok(-1.0)
    case QuantileError => Ok(0.0)
    case LogLinQuantileError => Ok(0.0)
    case MAPError => Ok(0.0)
    case PoissonError => Ok(-approx)
    case _ => Err(NotImplemented)
  }

  /** `CalcDer3`. */
  function CalcDer3(c: Calcer, approx: real, target: real): (r: Result<real, DerError>)
    requires ScalarModelled(c.cls) && InDomain(c.cls, approx, target)
    ensures r.Err? <==> ScalarNotImplemented(c.cls)
  {
    match c.cls
    case CrossEntropyError => Ok(LogisticDer3(Prob(approx)))
    case ConstrainedRegressionError => Ok(ConstrainedRegressionDer3(approx, target))
    case HonestLikelihoodError => Ok(HonestLikelihoodDer3(approx, target))
    case RMSEError => Ok(0.0)
    case QuantileError => Ok(0.0)
    case LogLinQuantileError => Ok(0.0)
    case MAPError => Ok(0.0)
    case PoissonError => Ok(-approx)
    case _ => Err(NotImplemented)
  }

  /** The base template `IDerCalcer::CalcDers<CalcThirdDer>(approx, target, &into)`: writes
      Der1 and Der2 of `into` from the single-order functions, and Der3 only when
      `calcThirdDer`. */
  function BaseCalcDers(c: Calcer, approx: real, target: real, calcThirdDer: bool, into: Ders): (r: Result<Ders, DerError>)
    requires ScalarModelled(c.cls) && InDomain(c.cls, approx, target)
    ensures r.Err? <==> ScalarNotImplemented(c.cls)
    ensures r.Ok? && !calcThirdDer ==> r.value.der3 == into.der3
  {
    match CalcDer(c, approx, target)
    case Err(e) => Err(e)
    case Ok(d1) =>
      var d := into.(der1 := d1, der2 := CalcDer2(c, approx, target).value);
      Ok(if calcThirdDer then d.(der3 := CalcDer3(c, approx, target).value) else d)
  }

  /** `TCrossEntropyError::CalcDers`, fused over p = approxExp / (1 + approxExp). */
  function CrossEntropyDers(approxExp: real, target: real, calcThirdDer: bool, into: Ders): Ders
    requires InDomain(CrossEntropyError, approxExp, target)
  {
    var p := Prob(approxExp);
    var d := into.(der1 := target - p, der2 := -p * (1.0 - p));
    if calcThirdDer then d.(der3 := -p * (1.0 - p) * (1.0 - 2.0 * p)) else d
  }

  /** `TConstrainedRegressionError::CalcDers`. */
  function ConstrainedRegressionDers(approxExp: real, target: real, calcThirdDer: bool, into: Ders): Ders
    requires InDomain(ConstrainedRegressionError, approxExp, target)
  {
    var aPlusOne := approxExp + 1.0;
    var aPlusOneSquared := aPlusOne * aPlusOne;
    var aPlusOne4th := aPlusOneSquared * aPlusOneSquared;
    var d := into.(der1 := 2.0 * approxExp * ((target - 1.0) * approxExp + target) / (aPlusOne * aPlusOne * aPlusOne),
                   der2 := -2.0 * approxExp * ((target - 1.0) * approxExp * approxExp - target + 2.0 * approxExp) / aPlusOne4th);
    if calcThirdDer
    then d.(der3 := -2.0 * approxExp * (approxExp * (-approxExp * ((target - 1.0) * approxExp - 3.0 * target + 7.0)
                                                   + 3.0 * target + 4.0) - target)
                    / (aPlusOne4th * aPlusOne))
    else d
  }

  /** `THonestLikelihoodError::CalcDers`. */
  function HonestLikelihoodDers(approxExp: real, target: real, calcThirdDer: bool, into: Ders): Ders
    requires InDomain(HonestLikelihoodError, approxExp, target)
  {
    var rp := approxExp / (1.0 + approxExp);
    var rnp := 1.0 / (1.0 + approxExp);
    var rpGrad := rp * rnp;
    var a := rpGrad * (2.0 * target - 1.0);
    var b := target * rp + (1.0 - target) * rnp;
    var d := into.(der1 := a / b, der2 := -(a * a / (b * b) + rpGrad * (2.0 * target - 1.0) * (rp - rnp) / b));
    if calcThirdDer then
      var target2 := target * target;
      var approxExp2 := approxExp * approxExp;
      var denomRoot3 := (approxExp + 1.0) * (target * approxExp - target + 1.0);
      d.(der3 := (2.0 * target - 1.0) * approxExp * (target2 * approxExp2 * approxExp2
                                                     - target * approxExp2 * approxExp
                                                     + 6.0 * target2 * approxExp2
                                                     - 6.0 * target * approxExp2
                                                     + target * approxExp
                                                     - approxExp
                                                     + target2
                                                     - 2.0 * target + 1.0)
                 / Cube(denomRoot3))
    else d
  }

  /** `TPoissonError::CalcDers`. */
  function PoissonDers(approxExp: real, target: real, calcThirdDer: bool, into: Ders): Ders
  {
    var d := into.(der1 := target - approxExp, der2 := -approxExp);
    if calcThirdDer then d.(der3 := -approxExp) else d
  }

  /** `CalcDers<CalcThirdDer>` of each class: cross-entropy, constrained regression, honest
      likelihood and Poisson override the base template with a fused body. */
  function CalcDers(c: Calcer, approx: real, target: real, calcThirdDer: bool, into: Ders): (r: Result<Ders, DerError>)
    requires ScalarModelled(c.cls) && InDomain(c.cls, approx, target)
    ensures r.Err? <==> ScalarNotImplemented(c.cls)
    ensures r.Ok? && !calcThirdDer ==> r.value.der3 == into.der3
  {
    match c.cls
    case CrossEntropyError => Ok(CrossEntropyDers(approx, target, calcThirdDer, into))
    case ConstrainedRegressionError => Ok(ConstrainedRegressionDers(approx, target, calcThirdDer, into))
    case HonestLikelihoodError => Ok(HonestLikelihoodDers(approx, target, calcThirdDer, into))
    case PoissonError => Ok(PoissonDers(approx, target, calcThirdDer, into))
    case RMSEError => BaseCalcDers(c, approx, target, calcThirdDer, into)
    case QuantileError => BaseCalcDers(c, approx, target, calcThirdDer, into)
    case LogLinQuantileError => BaseCalcDers(c, approx, target, calcThirdDer, into)
    case MAPError => BaseCalcDers(c, approx, target, calcThirdDer, into)
    case MultiClassError => BaseCalcDers(c, approx, target, calcThirdDer, into)
    case MultiClassOneVsAllError => BaseCalcDers(c, approx, target, calcThirdDer, into)
    case PairLogitError => BaseCalcDers(c, approx, target, calcThirdDer, into)
    case QueryRmseError => BaseCalcDers(c, approx, target, calcThirdDer, into)
    case QuerySoftMaxError => BaseCalcDers(c, approx, target, calcThirdDer, into)
    case UserDefinedPerObjectError => BaseCalcDers(c, approx, target, calcThirdDer, into)
    case UserDefinedQuerywiseError => BaseCalcDers(c, approx, target, calcThirdDer, into)
    case LqError => Err(NotImplemented)
    case CustomError => Err(NotImplemented)
  }

  // ---------------------------------------------------------------- properties

  /** Every class that computes scalar derivatives at all is a per-object calculator. */
  lemma ScalarDersArePerObject(c: Calcer, approx: real, target: real)
    requires ScalarModelled(c.cls) && InDomain(c.cls, approx, target)
    ensures CalcDer(c, approx, target).Ok? ==> ErrorType(c.cls) == PerObjectError
    ensures ErrorType(c.cls) != PerObjectError ==> CalcDer(c, approx, target) == Err(NotImplemented)
    ensures MaxDerivativeOrder(c) == 2 ==> CalcDer(c, approx, target) == Err(NotImplemented)
  {
  }

  /** The fused `CalcDers` of every class agrees with its single-order functions: Der1, Der2
      and (when requested) Der3 are `CalcDer`, `CalcDer2`, `CalcDer3`; an unrequested Der3 keeps
      the value it had. */
  lemma FusedAgreesWithSingleOrders(c: Calcer, approx: real, target: real, calcThirdDer: bool, into: Ders)
    requires ScalarModelled(c.cls) && InDomain(c.cls, approx, target)
    requires !ScalarNotImplemented(c.cls)
    ensures CalcDers(c, approx, target, calcThirdDer, into)
            == Ok(Ders(CalcDer(c, approx, target).value,
                       CalcDer2(c, approx, target).value,
                       if calcThirdDer then CalcDer3(c, approx, target).value else into.der3))
  {
    match c.cls
    case CrossEntropyError => CrossEntropyFusedAgrees(approx, target, calcThirdDer, into);
    case ConstrainedRegressionError => ConstrainedRegressionFusedAgrees(approx, target, calcThirdDer, into);
    case HonestLikelihoodError => HonestLikelihoodFusedAgrees(approx, target, calcThirdDer, into);
    case PoissonError =>
    case RMSEError =>
    case QuantileError =>
    case LogLinQuantileError =>
    case MAPError =>
  }

  lemma CrossEntropyFusedAgrees(approxExp: real, target: real, calcThirdDer: bool, into: Ders)
    requires InDomain(CrossEntropyError, approxExp, target)
    ensures CrossEntropyDers(approxExp, target, calcThirdDer, into)
            == Ders(target - Prob(approxExp), LogisticDer2(Prob(approxExp)),
                    if calcThirdDer then LogisticDer3(Prob(approxExp)) else into.der3)
  {
  }

  lemma ConstrainedRegressionFusedAgrees(approxExp: real, target: real, calcThirdDer: bool, into: Ders)
    requires InDomain(ConstrainedRegressionError, approxExp, target)
    ensures ConstrainedRegressionDers(approxExp, target, calcThirdDer, into)
            == Ders(ConstrainedRegressionDer1(approxExp, target), ConstrainedRegressionDer2(approxExp, target),
                    if calcThirdDer then ConstrainedRegressionDer3(approxExp, target) else into.der3)
  {
  }

  lemma HonestLikelihoodFusedAgrees(approxExp: real, target: real, calcThirdDer: bool, into: Ders)
    requires InDomain(HonestLikelihoodError, approxExp, target)
    ensures HonestLikelihoodDers(approxExp, target, calcThirdDer, into)
            == Ders(HonestLikelihoodDer1(approxExp, target), HonestLikelihoodDer2(approxExp, target),
                    if calcThirdDer then HonestLikelihoodDer3(approxExp, target) else into.der3)
  {
  }

  /** The negated squared error -(t - a)^2 / 2 whose derivatives RMSE returns. */
  function RmseLogLikelihood(approx: real, target: real): real
  {
    -(target - approx) * (target - approx) / 2.0
  }

  /** The second-order Taylor increment Der1 * h + Der2 * h^2 / 2 of a derivative triple. */
  function TaylorStep(d: Ders, h: real): real
  {
    d.der1 * h + d.der2 * h * h / 2.0
  }

  /** RMSE's derivatives are exact: the log-likelihood at approx + h is its second-order
      Taylor polynomial at approx, and the third derivative is 0. */
  lemma RmseDersAreExact(approx: real, target: real, h: real, into: Ders)
    ensures RmseLogLikelihood(approx + h, target)
            == RmseLogLikelihood(approx, target)
               + TaylorStep(CalcDers(Calcer(RMSEError, 0.0), approx, target, true, into).value, h)
    ensures CalcDers(Calcer(RMSEError, 0.0), approx, target, true, into).value.der3 == 0.0
  {
    SquareTaylor(approx, target, h, CalcDers(Calcer(RMSEError, 0.0), approx, target, true, into).value);
  }

  /** The expansion of -(t - (a + h))^2 / 2 around a, with Der1 = t - a and Der2 = -1. */
  lemma SquareTaylor(a: real, t: real, h: real, d: Ders)
    requires d.der1 == t - a && d.der2 == -1.0
    ensures RmseLogLikelihood(a + h, t) == RmseLogLikelihood(a, t) + TaylorStep(d, h)
  {
    assert d.der1 * h == (t - a) * h;
    assert d.der2 * h * h == -1.0 * h * h;
  }

  /** k times x, kept as one term so that lemmas about a product of derivative values stay
      linear for the solver. */
  function Scaled(k: real, x: real): real
  {
    k * x
  }

  /** Pinball loss of the residual u = target - approx, written as a maximum of two lines,
      independent of the sign test in `CalcDer`. */
  function PinballLoss(alpha: real, u: real): (r: real)
    ensures r >= alpha * u && r >= (alpha - 1.0) * u
    ensures r == alpha * u || r == (alpha - 1.0) * u
  {
    if alpha * u >= (alpha - 1.0) * u then alpha * u else (alpha - 1.0) * u
  }

  /** Quantile's Der1 is a supergradient of the negated pinball loss (a subgradient of the
      loss), ties included: no other prediction lies above the tangent line it defines. */
  lemma QuantileDerIsSupergradient(alpha: real, approx: real, target: real, other: real)
    ensures -PinballLoss(alpha, target - other)
            <= -PinballLoss(alpha, target - approx) + Scaled(CalcDer(Calcer(QuantileError, alpha), approx, target).value, other - approx)
  {
    QuantileDerValue(alpha, approx, target, target - approx);
    PinballSupergradient(alpha, target - approx, target - other,
                         CalcDer(Calcer(QuantileError, alpha), approx, target).value, other - approx);
  }

  lemma QuantileDerValue(alpha: real, approx: real, target: real, u: real)
    requires u == target - approx
    ensures CalcDer(Calcer(QuantileError, alpha), approx, target).value
            == if u > 0.0 then alpha else -(1.0 - alpha)
  {
  }

  lemma PinballSupergradient(alpha: real, u: real, v: real, d: real, w: real)
    requires d == if u > 0.0 then alpha else -(1.0 - alpha)
    requires w == u - v
    ensures -PinballLoss(alpha, v) <= -PinballLoss(alpha, u) + Scaled(d, w)
  {
    assert alpha * u - (alpha - 1.0) * u == u;
    assert alpha * v - (alpha - 1.0) * v == v;
    if u > 0.0 {
      assert d * w == alpha * u - alpha * v;
    } else {
      assert d * w == (alpha - 1.0) * u - (alpha - 1.0) * v;
    }
  }

  /** With the default Alpha the quantile derivative is the MAE sign rule: +1/2 above, -1/2
      otherwise (ties included). */
  lemma DefaultQuantileIsHalfSign(approx: real, target: real)
    ensures CalcDer(Calcer(QuantileError, DefaultAlpha), approx, target).value
            == if target > approx then 0.5 else -0.5
  {
  }

  /** LogLinQuantile is the quantile derivative taken through the exponent: d/dx = approxExp * d/da. */
  lemma LogLinQuantileChainRule(alpha: real, approxExp: real, target: real)
    ensures CalcDer(Calcer(LogLinQuantileError, alpha), approxExp, target).value
            == Scaled(approxExp, CalcDer(Calcer(QuantileError, alpha), approxExp, target).value)
  {
    QuantileDerValue(alpha, approxExp, target, target - approxExp);
    LogLinQuantileDerValue(alpha, approxExp, target, target - approxExp);
    ScaledBySign(alpha, approxExp, target - approxExp,
                 CalcDer(Calcer(LogLinQuantileError, alpha), approxExp, target).value,
                 CalcDer(Calcer(QuantileError, alpha), approxExp, target).value);
  }

  lemma LogLinQuantileDerValue(alpha: real, approxExp: real, target: real, u: real)
    requires u == target - approxExp
    ensures CalcDer(Calcer(LogLinQuantileError, alpha), approxExp, target).value
            == if u > 0.0 then alpha * approxExp else -(1.0 - alpha) * approxExp
  {
  }

  lemma ScaledBySign(alpha: real, a: real, u: real, scaled: real, d: real)
    requires d == if u > 0.0 then alpha else -(1.0 - alpha)
    requires scaled == if u > 0.0 then alpha * a else -(1.0 - alpha) * a
    ensures scaled == Scaled(a, d)
  {
  }

  /** MAPE's Der1 is the MAE sign rule divided by the target: 2 / target times the default
      quantile derivative. */
  lemma MapeIsScaledMae(approx: real, target: real)
    requires target != 0.0
    ensures CalcDer(Calcer(MAPError, 0.0), approx, target).value
            == 2.0 / target * CalcDer(Calcer(QuantileError, DefaultAlpha), approx, target).value
  {
    var m := CalcDer(Calcer(MAPError, 0.0), approx, target).value;
    var q := CalcDer(Calcer(QuantileError, DefaultAlpha), approx, target).value;
    HalfOfTwoOverTarget(target);
    if target - approx > 0.0 {
      assert m == 1.0 / target && q == 0.5;
    } else {
      assert m == -1.0 / target && q == -(1.0 - 0.5);
    }
  }

  lemma HalfOfTwoOverTarget(t: real)
    requires t != 0.0
    ensures 2.0 / t * 0.5 == 1.0 / t
    ensures 2.0 / t * -(1.0 - 0.5) == -1.0 / t
  {
  }

  /** Cross-entropy at approxExp = 1 (prediction 0) and target 1: Der1 = 0.5, Der2 = -0.25,
      Der3 = 0. */
  lemma CrossEntropyAtZero()
    ensures CalcDers(Calcer(CrossEntropyError, 0.0), 1.0, 1.0, true, Ders(0.0, 0.0, 0.0))
            == Ok(Ders(0.5, -0.25, 0.0))
  {
  }

  /** For a nonnegative approxExp, p lies in [0, 1), so Der1 lies in (t - 1, t] and Der2 in
      [-1/4, 0]. */
  lemma CrossEntropyBounds(approxExp: real, target: real)
    requires approxExp >= 0.0
    ensures var p := Prob(approxExp); 0.0 <= p < 1.0
    ensures var d1 := CalcDer(Calcer(CrossEntropyError, 0.0), approxExp, target).value;
            target - 1.0 < d1 <= target
    ensures var d2 := CalcDer2(Calcer(CrossEntropyError, 0.0), approxExp, target).value;
            -0.25 <= d2 <= 0.0
  {
  }
}
