/** The choice of the per-iteration training routine on CPU (catboost/libs/algo/train.cpp):
    every trainable loss is served by one derivative calculator class, and `TrainOneIter` is
    instantiated with that class. */
module Train {
  import opened Enums
  import opened Wrappers
  import opened Derivatives

  datatype TrainError = ErrorFunctionNotSupported

  /** The losses a calculator class is instantiated for, read from the class side: the
      cross-entropy calculator trains both binary losses, the quantile calculator trains MAE
      as the median quantile, and the pair-logit calculator trains every pairwise and
      YetiRank mode. */
  function ServedLosses(cls: CalcerClass): (r: set<ELossFunction>)
  {
    match cls
    case CrossEntropyError => {Logloss, CrossEntropy}
    case RMSEError => {RMSE}
    case QuantileError => {MAE, Quantile}
    case LogLinQuantileError => {LogLinQuantile}
    case MAPError => {MAPE}
    case PoissonError => {ELossFunction.Poisson}
    case MultiClassError => {MultiClass}
    case MultiClassOneVsAllError => {MultiClassOneVsAll}
    case PairLogitError => {PairLogit, PairLogitPairwise, YetiRank, YetiRankPairwise}
    case QueryRmseError => {QueryRMSE}
    case QuerySoftMaxError => {QuerySoftMax}
    case LqError => {Lq}
    case ConstrainedRegressionError => {ConstrainedRegression}
    case HonestLikelihoodError => {HonestLikelihood}
    case CustomError => {Custom}
    case UserDefinedPerObjectError => {UserPerObjMetric}
    case UserDefinedQuerywiseError => {UserQuerywiseMetric}
  }

  /** `GetOneIterationFunc`: the calculator class for a loss, or "provided error function is
      not supported" for every loss the switch does not list. The result is the class that
      serves the loss, and a loss fails exactly when no class serves it. */
  function GetOneIterationFunc(loss: ELossFunction): (r: Result<CalcerClass, TrainError>)
    ensures r.Ok? ==> loss in ServedLosses(r.value)
    ensures r.Err? <==> forall cls :: loss !in ServedLosses(cls)
  {
    match loss
    case Logloss => Ok(CrossEntropyError)
    case CrossEntropy => Ok(CrossEntropyError)
    case RMSE => Ok(RMSEError)
    case MAE => Ok(QuantileError)
    case Quantile => Ok(QuantileError)
    case LogLinQuantile => Ok(LogLinQuantileError)
    case MAPE => Ok(MAPError)
    case Poisson => Ok(PoissonError)
    case MultiClass => Ok(MultiClassError)
    case MultiClassOneVsAll => Ok(MultiClassOneVsAllError)
    case PairLogit => Ok(PairLogitError)
    case PairLogitPairwise => Ok(PairLogitError)
    case QueryRMSE => Ok(QueryRmseError)
    case QuerySoftMax => Ok(QuerySoftMaxError)
    case YetiRank => Ok(PairLogitError)
    case YetiRankPairwise => Ok(PairLogitError)
    case Lq => Ok(LqError)
    case ConstrainedRegression => Ok(ConstrainedRegressionError)
    case HonestLikelihood => Ok(HonestLikelihoodError)
    case Custom => Ok(CustomError)
    case UserPerObjMetric => Ok(UserDefinedPerObjectError)
    case UserQuerywiseMetric => Ok(UserDefinedQuerywiseError)
    case _ => Err(ErrorFunctionNotSupported)
  }

  /** The dispatch and the served-loss table are inverse to each other: a loss is dispatched
      to a class exactly when that class serves it (so no loss is served twice). */
  lemma DispatchIsInverseOfServedLosses(loss: ELossFunction, cls: CalcerClass)
    ensures GetOneIterationFunc(loss) == Ok(cls) <==> loss in ServedLosses(cls)
  {
  }

  /** The pairwise and YetiRank losses are trained by the pairwise calculator, and the
      querywise losses by a querywise one; all other trainable losses are per-object. */
  lemma DispatchedErrorType(loss: ELossFunction)
    requires GetOneIterationFunc(loss).Ok?
    ensures ErrorType(GetOneIterationFunc(loss).value) == PairwiseError
            <==> loss in {PairLogit, PairLogitPairwise, YetiRank, YetiRankPairwise}
    ensures ErrorType(GetOneIterationFunc(loss).value) == QuerywiseError
            <==> loss in {QueryRMSE, QuerySoftMax, UserQuerywiseMetric}
  {
  }

  /** Metric-only values, the CTR factor and the regression losses without a calculator
      (MSLE, SMAPE, ...) cannot be trained. */
  lemma UnlistedLossesAreNotSupported()
    ensures GetOneIterationFunc(AUC).Err? && GetOneIterationFunc(NDCG).Err?
    ensures GetOneIterationFunc(CtrFactor).Err? && GetOneIterationFunc(MSLE).Err?
    ensures GetOneIterationFunc(SMAPE).Err? && GetOneIterationFunc(QueryCrossEntropy).Err?
  {
  }
}
