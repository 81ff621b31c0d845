/** Defaulting and validation of the training options
    (catboost/libs/options/catboost_options.cpp): the per-loss leaf-estimation defaults, the
    set-if-unset logic that applies them, the loss-driven boosting, bootstrap and CTR
    defaults, and the consistency checks of `Validate`. A failed `CB_ENSURE` is a `Fail`
    naming the check. */
module Options {
  import opened Enums
  import opened Wrappers
  import Train

  /** A `TOption<T>`: its current value, the default last given to it, and whether the user
      set it. Modelling assumption (the option header is not part of this model): `SetDefault`
      records the default and replaces the value only when the option is unset, `IsDefault`
      compares the value with the recorded default, and assigning a value marks the option
      as set (the assignments at catboost_options.cpp:435-437 rely on that to keep later
      defaulting from overriding them). */
  datatype Setting<T(==)> = Setting(value: T, defaultValue: T, isSet: bool) {
    function SetDefault(v: T): Setting<T>
    {
      Setting(if isSet then value else v, v, isSet)
    }

    predicate IsDefault()
    {
      value == defaultValue
    }

    function Assign(v: T): Setting<T>
    {
      Setting(v, defaultValue, true)
    }
  }

  /** The `CB_ENSURE` checks of the modelled code, one constructor per message. */
  datatype OptionsError =
    | LqParamMissing
    | UnknownLossFunction
    | YetiRankMethodChangeProhibited
    | PairLogitPairwiseMethodChangeProhibited
    | SimpleNeedsOneIteration
    | GradientNotForQueryCrossEntropy
    | BoostingTypeMustBePlain
    | BaggingTemperatureWithSubsample
    | DocParallelOnly
    | OrderedBoostingNotOnGpu
    | ClassesCountNeedsMultiClass
    | ClassesCountTooSmall
    | ClassWeightsNeedClassification
    | ClassWeightsNeedTwoForLogloss
    | ClassWeightsCountMismatch
    | RsmOnGpuNeedsPairwise
    | NewtonNotForThisLoss
    | OneIterationForThisLoss
    | OrderedBoostingNotForLoss
    | NewtonNotForPairwiseOnCpu

  /** The classification predicates of the loss enumeration that live outside the modelled
      file (`IsMultiClassError`, `IsPairwiseScoring`, `IsPlainOnlyModeLoss`,
      `IsGpuPlainDocParallelOnlyMode`); they are parameters of the model. */
  datatype LossPredicates = LossPredicates(
    isMultiClass: ELossFunction -> bool,
    isPairwiseScoring: ELossFunction -> bool,
    isPlainOnlyMode: ELossFunction -> bool,
    isGpuPlainDocParallelOnly: ELossFunction -> bool)

  // ---------------------------------------------------------------- leaf-estimation table

  /** The defaults `SetLeavesEstimationDefault` computes for a loss before applying them. */
  datatype LeafDefaults = LeafDefaults(
    estimationMethod: ELeavesEstimation,
    newtonIterations: nat,
    gradientIterations: nat,
    l2Reg: real,
    pairwiseNonDiagReg: Option<real>)

  /** The switch of `SetLeavesEstimationDefault`: the defaults for a loss on a task type, given
      the Lq `q` parameter when the loss description carries one. */
  function LossDefaults(loss: ELossFunction, task: ETaskType, q: Option<real>): (r: Result<LeafDefaults, OptionsError>)
    ensures r.Err? ==> r.error == if loss == Lq then LqParamMissing else UnknownLossFunction
    ensures r.Ok? ==> r.value.l2Reg == if loss == PairLogitPairwise then 5.0
                                      else if loss == YetiRank || loss == YetiRankPairwise then 0.0
                                      else if loss == QueryCrossEntropy then 1.0
                                      else 3.0
    ensures r.Ok? ==> (r.value.pairwiseNonDiagReg.Some? <==> loss == QueryCrossEntropy)
    ensures loss == Lq ==> (r.Ok? <==> q.Some?)
    ensures r.Ok? && loss == Lq ==> r.value.estimationMethod == if q.value < 2.0 then Gradient else Newton
    ensures r.Ok? ==> r.value.newtonIterations >= 1 && r.value.gradientIterations >= 1
  {
    match loss
    case RMSE => Ok(LeafDefaults(Newton, 1, 1, 3.0, None))
    case Lq =>
      if q.None? then Err(LqParamMissing)
      else Ok(LeafDefaults(if q.value < 2.0 then Gradient else Newton, 1, 1, 3.0, None))
    case QueryRMSE => Ok(LeafDefaults(Newton, 1, 1, 3.0, None))
    case QuerySoftMax => Ok(LeafDefaults(Gradient, 10, 100, 3.0, None))
    case MultiClass => Ok(LeafDefaults(Newton, 1, 10, 3.0, None))
    case MultiClassOneVsAll => Ok(LeafDefaults(Newton, 1, 10, 3.0, None))
    case Quantile => Ok(LeafDefaults(Gradient, 1, 1, 3.0, None))
    case MAE => Ok(LeafDefaults(Gradient, 1, 1, 3.0, None))
    case LogLinQuantile => Ok(LeafDefaults(Gradient, 1, 1, 3.0, None))
    case MAPE => Ok(LeafDefaults(Gradient, 1, 1, 3.0, None))
    case PairLogit => Ok(LeafDefaults(Newton, 10, 40, 3.0, None))
    case PairLogitPairwise =>
      if task == CPU then Ok(LeafDefaults(Gradient, 1, 50, 5.0, None))
      else Ok(LeafDefaults(Newton, 1, 5, 5.0, None))
    case Poisson => Ok(LeafDefaults(Gradient, 1, 1, 3.0, None))
    case Logloss => Ok(LeafDefaults(Newton, 10, 40, 3.0, None))
    case CrossEntropy => Ok(LeafDefaults(Newton, 10, 40, 3.0, None))
    case ConstrainedRegression => Ok(LeafDefaults(Gradient, 1, 40, 3.0, None))
    case HonestLikelihood => Ok(LeafDefaults(Gradient, 1, 40, 3.0, None))
    case YetiRank => Ok(LeafDefaults(if task == GPU then Newton else Gradient, 1, 1, 0.0, None))
    case YetiRankPairwise => Ok(LeafDefaults(if task == GPU then Simple else Gradient, 1, 1, 0.0, None))
    case QueryCrossEntropy => Ok(LeafDefaults(Newton, 10, 1, 1.0, Some(0.0)))
    case UserPerObjMetric => Ok(LeafDefaults(Newton, 1, 1, 3.0, None))
    case UserQuerywiseMetric => Ok(LeafDefaults(Newton, 1, 1, 3.0, None))
    case Custom => Ok(LeafDefaults(Newton, 1, 1, 3.0, None))
    case _ => Err(UnknownLossFunction)
  }

  /** The method and iteration rows of the table that the trainer relies on. */
  lemma LeafDefaultsTable(task: ETaskType, q: Option<real>)
    ensures LossDefaults(Logloss, task, q) == Ok(LeafDefaults(Newton, 10, 40, 3.0, None))
    ensures LossDefaults(CrossEntropy, task, q) == LossDefaults(Logloss, task, q)
    ensures forall loss | loss in {Quantile, MAE, LogLinQuantile, MAPE} ::
              LossDefaults(loss, task, q) == Ok(LeafDefaults(Gradient, 1, 1, 3.0, None))
    ensures LossDefaults(QuerySoftMax, task, q) == Ok(LeafDefaults(Gradient, 10, 100, 3.0, None))
  {
  }

  /** PairLogitPairwise defaults by task type: gradient steps, 50 of them, on CPU; Newton
      steps on GPU. The GPU default of 5 is a gradient-iteration count, so with nothing set
      the GPU run makes a single Newton step. */
  lemma PairwiseLeafDefaultsByTask(reading: GuardReading, q: Option<real>, opts: LeafOptions)
    requires !opts.estimationMethod.isSet && !opts.iterations.isSet
    ensures LossDefaults(PairLogitPairwise, CPU, q).value.estimationMethod == Gradient
    ensures LossDefaults(PairLogitPairwise, CPU, q).value.gradientIterations == 50
    ensures LossDefaults(PairLogitPairwise, GPU, q).value.estimationMethod == Newton
    ensures LossDefaults(PairLogitPairwise, GPU, q).value.gradientIterations == 5
    ensures LeafEstimationOutcome(reading, PairLogitPairwise, CPU, q, opts).Ok?
    ensures LeafEstimationOutcome(reading, PairLogitPairwise, CPU, q, opts).value.estimationMethod.value == Gradient
    ensures LeafEstimationOutcome(reading, PairLogitPairwise, CPU, q, opts).value.iterations.value == 50
    ensures LeafEstimationOutcome(reading, PairLogitPairwise, GPU, q, opts).Ok?
    ensures LeafEstimationOutcome(reading, PairLogitPairwise, GPU, q, opts).value.estimationMethod.value == Newton
    ensures LeafEstimationOutcome(reading, PairLogitPairwise, GPU, q, opts).value.iterations.value == 1
  {
  }

  /** Metrics and the CTR factor have no defaults, and Lq has none without `q`. */
  lemma LeafDefaultsFailures(task: ETaskType)
    ensures LossDefaults(AUC, task, None) == Err(UnknownLossFunction)
    ensures LossDefaults(CtrFactor, task, None) == Err(UnknownLossFunction)
    ensures LossDefaults(Lq, task, None) == Err(LqParamMissing)
  {
  }

  /** A loss has leaf-estimation defaults exactly when it has a CPU training routine or is
      QueryCrossEntropy, except Lq without its `q` parameter. */
  lemma DefaultedLossesAreTrainedLosses(loss: ELossFunction, task: ETaskType, q: Option<real>)
    ensures LossDefaults(loss, task, q).Ok?
            ==> (Train.GetOneIterationFunc(loss).Ok? || loss == QueryCrossEntropy) && (loss == Lq ==> q.Some?)
    ensures (Train.GetOneIterationFunc(loss).Ok? || loss == QueryCrossEntropy) && (loss == Lq ==> q.Some?)
            ==> LossDefaults(loss, task, q).Ok?
  {
  }

  /** QueryCrossEntropy is given leaf-estimation defaults although the CPU trainer has no
      iteration routine for it. */
  lemma QueryCrossEntropyDefaultsWithoutTrainer(task: ETaskType, q: Option<real>)
    ensures LossDefaults(QueryCrossEntropy, task, q).Ok?
    ensures Train.GetOneIterationFunc(QueryCrossEntropy).Err?
  {
  }

  /** The boosting, partition, random-strength, border and bootstrap options. */
  datatype ModeOptions = ModeOptions(
    boostingType: Setting<EBoostingType>,
    dataPartitionType: Setting<EDataPartitionType>,
    randomStrength: Setting<real>,
    borderCount: Setting<nat>,
    bootstrapType: Setting<EBootstrapType>,
    takenFraction: Setting<real>)

  /** The leaf-estimation options `SetLeavesEstimationDefault` works on. */
  datatype LeafOptions = LeafOptions(
    estimationMethod: Setting<ELeavesEstimation>,
    iterations: Setting<nat>,
    l2Reg: Setting<real>)

  /** `1e-20f`, the L2 regularizer that replaces an exact zero. */
  const MinimalL2Reg: real := 0.00000000000000000001

  /** The iteration default for the chosen method: Newton and gradient take the loss's own
      defaults, the simple method always 1. */
  function DefaultIterations(estimationMethod: ELeavesEstimation, d: LeafDefaults): (r: nat)
    ensures estimationMethod == Simple ==> r == 1
    ensures d.newtonIterations >= 1 && d.gradientIterations >= 1 ==> r >= 1
  {
    match estimationMethod
    case Newton => d.newtonIterations
    case Gradient => d.gradientIterations
    case Simple => 1
  }

  /** The two readings of the YetiRank guard: the condition as the program writes it
      (`loss != YetiRank || loss != YetiRankPairwise`) and the evidently intended one
      (`&&`). */
  datatype GuardReading = AsWritten | Corrected

  /** The condition the YetiRank `CB_ENSURE` requires. As written it holds for every loss;
      corrected it excludes exactly YetiRank and YetiRankPairwise. */
  function YetiRankGuard(reading: GuardReading, loss: ELossFunction): (r: bool)
    ensures reading == AsWritten ==> r
    ensures reading == Corrected ==> (r <==> loss !in {YetiRank, YetiRankPairwise})
  {
    match reading
    case AsWritten => loss != YetiRank || loss != YetiRankPairwise
    case Corrected => loss != YetiRank && loss != YetiRankPairwise
  }

  /** The checks on a user-chosen method that differs from the loss's default, in source
      order: the YetiRank guard, then the CPU PairLogitPairwise check. */
  function MethodChangeCheck(reading: GuardReading, loss: ELossFunction, task: ETaskType): (r: Outcome<OptionsError>)
    ensures r == Fail(YetiRankMethodChangeProhibited) <==> reading == Corrected && loss in {YetiRank, YetiRankPairwise}
    ensures r == Fail(PairLogitPairwiseMethodChangeProhibited) <==> task == CPU && loss == PairLogitPairwise
    ensures r.Fail? ==> r.error in {YetiRankMethodChangeProhibited, PairLogitPairwiseMethodChangeProhibited}
  {
    if !YetiRankGuard(reading, loss) then Fail(YetiRankMethodChangeProhibited)
    else if task == CPU && loss == PairLogitPairwise then Fail(PairLogitPairwiseMethodChangeProhibited)
    else Pass
  }

  /** The guard as written admits every loss, so the method-change checks never reject a
      YetiRank or YetiRankPairwise user method. */
  lemma YetiRankGuardAsWrittenNeverRejects(loss: ELossFunction, task: ETaskType)
    ensures YetiRankGuard(AsWritten, loss)
    ensures loss == YetiRank || loss == YetiRankPairwise ==> MethodChangeCheck(AsWritten, loss, task) == Pass
  {
  }

  /** `SetLeavesEstimationDefault` on the leaf options, under a reading of the YetiRank guard:
      the options it leaves, or the first check that fails. An L2 of 0 never survives, an
      unset method takes the loss's default, and the simple method runs one iteration. */
  function LeafEstimationOutcome(reading: GuardReading, loss: ELossFunction, task: ETaskType, q: Option<real>, opts: LeafOptions): (r: Result<LeafOptions, OptionsError>)
    ensures LossDefaults(loss, task, q).Err? ==> r == Err(LossDefaults(loss, task, q).error)
    ensures LossDefaults(loss, task, q).Ok? ==>
              var d := LossDefaults(loss, task, q).value;
              var m := if opts.estimationMethod.isSet then opts.estimationMethod.value else d.estimationMethod;
              var iterations := if opts.iterations.isSet then opts.iterations.value else DefaultIterations(m, d);
              var methodRejected := opts.estimationMethod.isSet && opts.estimationMethod.value != d.estimationMethod
                                    && MethodChangeCheck(reading, loss, task).Fail?;
              (r.Err? <==> methodRejected || (m == Simple && iterations != 1) || (loss == QueryCrossEntropy && m == Gradient))
              && (r.Err? ==> r.error == if methodRejected then MethodChangeCheck(reading, loss, task).error
                                        else if m == Simple && iterations != 1 then SimpleNeedsOneIteration
                                        else GradientNotForQueryCrossEntropy)
    ensures r.Ok? ==> LossDefaults(loss, task, q).Ok?
    ensures r.Ok? ==> r.value.l2Reg.value != 0.0
    // 0.00000000000000000001 below is MinimalL2Reg, the 1e-20 that replaces an exact zero
    ensures r.Ok? && opts.l2Reg.isSet ==> r.value.l2Reg.value == if opts.l2Reg.value == 0.0 then 0.00000000000000000001 else opts.l2Reg.value
    ensures r.Ok? && !opts.l2Reg.isSet ==>
              r.value.l2Reg.value == if LossDefaults(loss, task, q).value.l2Reg == 0.0 then 0.00000000000000000001
                                     else LossDefaults(loss, task, q).value.l2Reg
    ensures r.Ok? ==> r.value.estimationMethod.value == if opts.estimationMethod.isSet then opts.estimationMethod.value
                                              else LossDefaults(loss, task, q).value.estimationMethod
    ensures r.Ok? ==> r.value.iterations == if opts.iterations.isSet then opts.iterations
                      else opts.iterations.SetDefault(DefaultIterations(r.value.estimationMethod.value, LossDefaults(loss, task, q).value))
    ensures r.Ok? && r.value.estimationMethod.value == Simple ==> r.value.iterations.value == 1
    ensures r.Ok? && loss == QueryCrossEntropy ==> r.value.estimationMethod.value != Gradient
    ensures r.Ok? && ((reading == Corrected && (loss == YetiRank || loss == YetiRankPairwise)) || (task == CPU && loss == PairLogitPairwise))
            ==> r.value.estimationMethod.value == LossDefaults(loss, task, q).value.estimationMethod
  {
    var dr := LossDefaults(loss, task, q);
    if dr.Err? then Err(dr.error)
    else
      var d := dr.value;
      var l2 := opts.l2Reg.SetDefault(d.l2Reg);
      if opts.estimationMethod.isSet && opts.estimationMethod.value != d.estimationMethod && MethodChangeCheck(reading, loss, task).Fail? then
        Err(MethodChangeCheck(reading, loss, task).error)
      else
        var chosen := if opts.estimationMethod.isSet then opts.estimationMethod else opts.estimationMethod.SetDefault(d.estimationMethod);
        var iterations := if opts.iterations.isSet then opts.iterations
                          else opts.iterations.SetDefault(DefaultIterations(chosen.value, d));
        if chosen.value == Simple && iterations.value != 1 then Err(SimpleNeedsOneIteration)
        else
          var l2' := if l2.value == 0.0 then l2.Assign(MinimalL2Reg) else l2;
          if loss == QueryCrossEntropy && chosen.value == Gradient then Err(GradientNotForQueryCrossEntropy)
          else Ok(LeafOptions(chosen, iterations, l2'))
  }

  /** As written, YetiRank on CPU accepts a user-chosen Newton method that differs from its
      Gradient default, and its unset iterations then take the Newton default 1. */
  lemma AsWrittenAcceptsYetiRankMethodChange(q: Option<real>, opts: LeafOptions)
    requires opts.estimationMethod.isSet && opts.estimationMethod.value == Newton && !opts.iterations.isSet
    ensures LossDefaults(YetiRank, CPU, q).value.estimationMethod == Gradient
    ensures LeafEstimationOutcome(AsWritten, YetiRank, CPU, q, opts).Ok?
    ensures LeafEstimationOutcome(AsWritten, YetiRank, CPU, q, opts).value.estimationMethod.value == Newton
    ensures LeafEstimationOutcome(AsWritten, YetiRank, CPU, q, opts).value.iterations.value == 1
  {
  }

  /** With the corrected guard, a YetiRank user method that differs from the default is
      rejected, whatever the other options are. */
  lemma CorrectedGuardRejectsYetiRankMethodChange(loss: ELossFunction, task: ETaskType, q: Option<real>, opts: LeafOptions)
    requires loss == YetiRank || loss == YetiRankPairwise
    requires opts.estimationMethod.isSet && opts.estimationMethod.value != LossDefaults(loss, task, q).value.estimationMethod
    ensures LeafEstimationOutcome(Corrected, loss, task, q, opts) == Err(YetiRankMethodChangeProhibited)
  {
  }

  /** For the quantile family the defaults alone satisfy `Validate`'s leaf rule: an unset
      method and iteration count end as one gradient step. */
  lemma QuantileFamilyDefaultsPassLeafRule(reading: GuardReading, loss: ELossFunction, task: ETaskType, q: Option<real>, opts: LeafOptions)
    requires loss in {Quantile, MAE, LogLinQuantile, MAPE}
    requires !opts.estimationMethod.isSet && !opts.iterations.isSet
    ensures LeafEstimationOutcome(reading, loss, task, q, opts).Ok?
    ensures LeafEstimationOutcome(reading, loss, task, q, opts).value.estimationMethod.value == Gradient
    ensures LeafEstimationOutcome(reading, loss, task, q, opts).value.iterations.value == 1
  {
  }

  /** On GPU the simple method chosen for YetiRankPairwise comes with a single iteration, so
      the simple-method check cannot fail on defaults. */
  lemma YetiRankPairwiseGpuDefaultsAreSimple(reading: GuardReading, q: Option<real>, opts: LeafOptions)
    requires !opts.estimationMethod.isSet && !opts.iterations.isSet
    ensures LeafEstimationOutcome(reading, YetiRankPairwise, GPU, q, opts).Ok?
    ensures LeafEstimationOutcome(reading, YetiRankPairwise, GPU, q, opts).value.estimationMethod.value == Simple
    ensures LeafEstimationOutcome(reading, YetiRankPairwise, GPU, q, opts).value.iterations.value == 1
    ensures !opts.l2Reg.isSet ==>
              LeafEstimationOutcome(reading, YetiRankPairwise, GPU, q, opts).value.l2Reg == Setting(MinimalL2Reg, 0.0, true)
  {
  }

  // ---------------------------------------------------------------- CTR descriptions

  type Prior = seq<real>

  datatype Binarization = Binarization(borderSelectionType: EBorderSelectionType, borderCount: nat)

  /** A `TCtrDescription`: CTR type, priors and the CTR binarization option. */
  datatype CtrDescription = CtrDescription(ctrType: ECtrType, priors: seq<Prior>, ctrBinarization: Setting<Binarization>)

  /** The per-feature CTR list of one categorical feature. */
  datatype FeatureCtrs = FeatureCtrs(featureId: nat, ctrs: seq<CtrDescription>)

  /** The CTR options: simple CTRs, combination CTRs and the per-feature lists. */
  datatype CtrOptions = CtrOptions(
    simpleCtrs: Setting<seq<CtrDescription>>,
    combinationCtrs: Setting<seq<CtrDescription>>,
    perFeatureCtrs: seq<FeatureCtrs>)

  /** The binarization a description starts with when none is given. Modelling assumption
      (the CTR header is not part of this model): uniform borders, 15 of them. */
  const InitialCtrBinarization: Binarization := Binarization(Uniform, 15)

  /** `TCtrDescription(type, priors)`: the binarization is left unset. */
  function NewCtr(ctrType: ECtrType, priors: seq<Prior>): CtrDescription
  {
    CtrDescription(ctrType, priors, Setting(InitialCtrBinarization, InitialCtrBinarization, false))
  }

  /** `GetDefaultPriors` and `SetDefaultPriorsIfNeeded`, which live outside the modelled file;
      they are parameters of the model. */
  datatype CtrHelpers = CtrHelpers(
    defaultPriors: ECtrType -> seq<Prior>,
    setDefaultPriors: seq<CtrDescription> -> seq<CtrDescription>)

  /** One step of `SetDefaultBinarizationsIfNeeded`: an unset FeatureFreq binarization gets
      MinEntropy borders for simple CTRs and Median borders for combinations; only the border
      selection type changes, and every other description is left alone. */
  function BinarizationDefault(projection: EProjectionType, d: CtrDescription): (r: CtrDescription)
    ensures r.ctrType == d.ctrType && r.priors == d.priors
    ensures r.ctrBinarization.isSet == d.ctrBinarization.isSet
    ensures r.ctrBinarization.value.borderCount == d.ctrBinarization.value.borderCount
    ensures r != d ==> d.ctrType == FeatureFreq && !d.ctrBinarization.isSet
    ensures d.ctrType == FeatureFreq && !d.ctrBinarization.isSet ==>
              r.ctrBinarization.value.borderSelectionType == if projection == SimpleCtr then MinEntropy else Median
  {
    if !d.ctrBinarization.isSet && d.ctrType == FeatureFreq then
      var b := d.ctrBinarization.value.(borderSelectionType := if projection == SimpleCtr then MinEntropy else Median);
      d.(ctrBinarization := d.ctrBinarization.(value := b))
    else d
  }

  /** Applying the binarization default twice changes nothing more. */
  lemma BinarizationDefaultIdempotent(projection: EProjectionType, d: CtrDescription)
    ensures BinarizationDefault(projection, BinarizationDefault(projection, d)) == BinarizationDefault(projection, d)
  {
  }

  /** `after` is `before` with the binarization default applied to every description. */
  predicate BinarizationsDefaulted(projection: EProjectionType, before: seq<CtrDescription>, after: seq<CtrDescription>)
  {
    |after| == |before| && forall i :: 0 <= i < |before| ==> after[i] == BinarizationDefault(projection, before[i])
  }

  /** `SetDefaultBinarizationsIfNeeded`: walks the descriptions and rewrites each one that
      needs a binarization default. */
  method SetDefaultBinarizationsIfNeeded(projection: EProjectionType, descriptions: seq<CtrDescription>) returns (r: seq<CtrDescription>)
    ensures BinarizationsDefaulted(projection, descriptions, r)
  {
    r := descriptions;
    for i := 0 to |r|
      invariant |r| == |descriptions|
      invariant forall k :: 0 <= k < i ==> r[k] == BinarizationDefault(projection, descriptions[k])
      invariant forall k :: i <= k < |r| ==> r[k] == descriptions[k]
    {
      if !r[i].ctrBinarization.isSet && r[i].ctrType == FeatureFreq {
        var b := r[i].ctrBinarization.value.(borderSelectionType := if projection == SimpleCtr then MinEntropy else Median);
        r := r[i := r[i].(ctrBinarization := r[i].ctrBinarization.(value := b))];
      }
    }
  }

  // ---------------------------------------------------------------- the options object

  /** `TCatboostOptions`, reduced to the options the modelled code reads or writes. */
  class CatBoostOptions {
    const taskType: ETaskType
    const loss: ELossFunction
    /** The Lq loss parameter `q`, when the loss description carries one. */
    const lqParam: Option<real>
    // oblivious-tree options
    var leavesEstimationMethod: Setting<ELeavesEstimation>
    var leavesEstimationIterations: Setting<nat>
    var l2Reg: Setting<real>
    var pairwiseNonDiagReg: Setting<real>
    var randomStrength: Setting<real>
    const rsm: Setting<real>
    var bootstrapType: Setting<EBootstrapType>
    const baggingTemperature: Setting<real>
    var takenFraction: Setting<real>
    // boosting options
    var boostingType: Setting<EBoostingType>
    var dataPartitionType: Setting<EDataPartitionType>
    var permutationCount: Setting<nat>
    // data-processing options
    var borderCount: Setting<nat>
    const classesCount: nat
    const classWeights: seq<real>
    const hasTimeFlag: bool
    // categorical-feature options
    var simpleCtrs: Setting<seq<CtrDescription>>
    var combinationCtrs: Setting<seq<CtrDescription>>
    var perFeatureCtrs: seq<FeatureCtrs>

    constructor (
      taskType: ETaskType, loss: ELossFunction, lqParam: Option<real>,
      leavesEstimationMethod: Setting<ELeavesEstimation>, leavesEstimationIterations: Setting<nat>,
      l2Reg: Setting<real>, pairwiseNonDiagReg: Setting<real>, randomStrength: Setting<real>,
      rsm: Setting<real>, bootstrapType: Setting<EBootstrapType>, baggingTemperature: Setting<real>,
      takenFraction: Setting<real>, boostingType: Setting<EBoostingType>,
      dataPartitionType: Setting<EDataPartitionType>, permutationCount: Setting<nat>,
      borderCount: Setting<nat>, classesCount: nat, classWeights: seq<real>, hasTimeFlag: bool,
      simpleCtrs: Setting<seq<CtrDescription>>, combinationCtrs: Setting<seq<CtrDescription>>,
      perFeatureCtrs: seq<FeatureCtrs>)
      ensures this.taskType == taskType && this.loss == loss && this.lqParam == lqParam
      ensures LeafOpts() == LeafOptions(leavesEstimationMethod, leavesEstimationIterations, l2Reg)
      ensures this.pairwiseNonDiagReg == pairwiseNonDiagReg && this.randomStrength == randomStrength
      ensures this.rsm == rsm && this.bootstrapType == bootstrapType
      ensures this.baggingTemperature == baggingTemperature && this.takenFraction == takenFraction
      ensures this.boostingType == boostingType && this.dataPartitionType == dataPartitionType
      ensures this.permutationCount == permutationCount && this.borderCount == borderCount
      ensures this.classesCount == classesCount && this.classWeights == classWeights
      ensures this.hasTimeFlag == hasTimeFlag
      ensures this.simpleCtrs == simpleCtrs && this.combinationCtrs == combinationCtrs
      ensures this.perFeatureCtrs == perFeatureCtrs
    {
      this.taskType := taskType;
      this.loss := loss;
      this.lqParam := lqParam;
      this.leavesEstimationMethod := leavesEstimationMethod;
      this.leavesEstimationIterations := leavesEstimationIterations;
      this.l2Reg := l2Reg;
      this.pairwiseNonDiagReg := pairwiseNonDiagReg;
      this.randomStrength := randomStrength;
      this.rsm := rsm;
      this.bootstrapType := bootstrapType;
      this.baggingTemperature := baggingTemperature;
      this.takenFraction := takenFraction;
      this.boostingType := boostingType;
      this.dataPartitionType := dataPartitionType;
      this.permutationCount := permutationCount;
      this.borderCount := borderCount;
      this.classesCount := classesCount;
      this.classWeights := classWeights;
      this.hasTimeFlag := hasTimeFlag;
      this.simpleCtrs := simpleCtrs;
      this.combinationCtrs := combinationCtrs;
      this.perFeatureCtrs := perFeatureCtrs;
    }

    function LeafOpts(): LeafOptions
      reads this`leavesEstimationMethod, this`leavesEstimationIterations, this`l2Reg
    {
      LeafOptions(leavesEstimationMethod, leavesEstimationIterations, l2Reg)
    }

    /** `SetLeavesEstimationDefault`: looks up the loss's defaults, applies them to the unset
        leaf options, and runs the checks; the leaf options it leaves are those of
        `LeafEstimationOutcome`. QueryCrossEntropy also defaults the pairwise non-diagonal
        regularizer to 0. With `reading == AsWritten` this is the program's behaviour. */
    method SetLeavesEstimationDefault(reading: GuardReading) returns (o: Outcome<OptionsError>)
      modifies this`leavesEstimationMethod, this`leavesEstimationIterations, this`l2Reg, this`pairwiseNonDiagReg
      ensures var r := LeafEstimationOutcome(reading, loss, taskType, lqParam, old(LeafOpts()));
              (o.Pass? <==> r.Ok?) && (o.Fail? ==> o.error == r.error) && (r.Ok? ==> LeafOpts() == r.value)
      ensures LossDefaults(loss, taskType, lqParam).Err? ==> LeafOpts() == old(LeafOpts())
      ensures pairwiseNonDiagReg == if loss == QueryCrossEntropy then old(pairwiseNonDiagReg).SetDefault(0.0)
                                    else old(pairwiseNonDiagReg)
    {
      var dr := LossDefaults(loss, taskType, lqParam);
      if dr.Err? {
        return Fail(dr.error);
      }
      var d := dr.value;
      if d.pairwiseNonDiagReg.Some? {
        pairwiseNonDiagReg := pairwiseNonDiagReg.SetDefault(d.pairwiseNonDiagReg.value);
      }
      l2Reg := l2Reg.SetDefault(d.l2Reg);

      if !leavesEstimationMethod.isSet {
        leavesEstimationMethod := leavesEstimationMethod.SetDefault(d.estimationMethod);
      } else if leavesEstimationMethod.value != d.estimationMethod {
        var check := MethodChangeCheck(reading, loss, taskType);
        if check.Fail? {
          return check;
        }
      }

      if !leavesEstimationIterations.isSet {
        leavesEstimationIterations := leavesEstimationIterations.SetDefault(DefaultIterations(leavesEstimationMethod.value, d));
      }

      if leavesEstimationMethod.value == Simple && leavesEstimationIterations.value != 1 {
        return Fail(SimpleNeedsOneIteration);
      }

      if l2Reg.value == 0.0 {
        l2Reg := l2Reg.Assign(MinimalL2Reg);
      }

      if loss == QueryCrossEntropy && leavesEstimationMethod.value == Gradient {
        return Fail(GradientNotForQueryCrossEntropy);
      }
      return Pass;
    }

    /** `CreateDefaultCounter`: a Counter CTR on CPU; on GPU a FeatureFreq CTR with 15 borders,
        Median for combinations and MinEntropy for simple CTRs. Priors come from
        `GetDefaultPriors` of the chosen type. */
    function CreateDefaultCounter(projection: EProjectionType, h: CtrHelpers): (r: CtrDescription)
      ensures r.priors == h.defaultPriors(r.ctrType)
      ensures taskType == CPU ==> r.ctrType == Counter && !r.ctrBinarization.isSet
      ensures taskType == GPU ==> r.ctrType == FeatureFreq && r.ctrBinarization.isSet
      ensures taskType == GPU ==> r.ctrBinarization.value
                                  == Binarization(if projection == TreeCtr then Median else MinEntropy, 15)
    {
      if taskType == CPU then NewCtr(Counter, h.defaultPriors(Counter))
      else
        var borders := match projection
          case TreeCtr => Median
          case SimpleCtr => MinEntropy;
        var b := Binarization(borders, 15);
        CtrDescription(FeatureFreq, h.defaultPriors(FeatureFreq), Setting(b, InitialCtrBinarization, true))
    }

    /** The default counter needs no binarization default: on GPU its binarization is set,
        and on CPU it is not a FeatureFreq CTR. On GPU the counter's border type is the one
        `SetDefaultBinarizationsIfNeeded` would pick for the same projection. */
    lemma DefaultCounterIsBinarized(projection: EProjectionType, h: CtrHelpers, d: CtrDescription)
      requires d.ctrType == FeatureFreq && !d.ctrBinarization.isSet
      ensures BinarizationDefault(projection, CreateDefaultCounter(projection, h)) == CreateDefaultCounter(projection, h)
      ensures taskType == GPU ==> CreateDefaultCounter(projection, h).ctrBinarization.value.borderSelectionType
                                  == BinarizationDefault(projection, d).ctrBinarization.value.borderSelectionType
    {
    }

    /** The default CTR list of one projection: the counter alone for the pair-logit losses,
        otherwise Borders followed by the counter. */
    function DefaultCtrs(projection: EProjectionType, h: CtrHelpers): (r: seq<CtrDescription>)
      ensures |r| == if loss == PairLogit || loss == PairLogitPairwise then 1 else 2
      ensures |r| == 2 ==> r[0] == NewCtr(Borders, h.defaultPriors(Borders)) && !r[0].ctrBinarization.isSet
      ensures r[|r| - 1] == CreateDefaultCounter(projection, h)
    {
      match loss
      case PairLogit => [CreateDefaultCounter(projection, h)]
      case PairLogitPairwise => [CreateDefaultCounter(projection, h)]
      case _ => [NewCtr(Borders, h.defaultPriors(Borders)), CreateDefaultCounter(projection, h)]
    }

    /** What `SetCtrDefaults` makes of one CTR list option: an unset list becomes the default
        list (and counts as set); a set list gets its priors and binarizations defaulted. */
    predicate CtrListDefaulted(projection: EProjectionType, h: CtrHelpers, before: Setting<seq<CtrDescription>>, after: Setting<seq<CtrDescription>>)
    {
      if !before.isSet then after == before.Assign(DefaultCtrs(projection, h))
      else after.isSet && after.defaultValue == before.defaultValue
           && BinarizationsDefaulted(projection, h.setDefaultPriors(before.value), after.value)
    }

    /** Every per-feature list gets simple-CTR binarization defaults. */
    static predicate PerFeatureCtrsDefaulted(before: seq<FeatureCtrs>, after: seq<FeatureCtrs>)
    {
      |after| == |before|
      && forall i :: 0 <= i < |before| ==>
           after[i].featureId == before[i].featureId
           && BinarizationsDefaulted(SimpleCtr, before[i].ctrs, after[i].ctrs)
    }

    function CtrOpts(): CtrOptions
      reads this`simpleCtrs, this`combinationCtrs, this`perFeatureCtrs
    {
      CtrOptions(simpleCtrs, combinationCtrs, perFeatureCtrs)
    }

    /** What `SetCtrDefaults` makes of the CTR options. */
    predicate CtrsDefaulted(h: CtrHelpers, before: CtrOptions, after: CtrOptions)
    {
      CtrListDefaulted(SimpleCtr, h, before.simpleCtrs, after.simpleCtrs)
      && CtrListDefaulted(TreeCtr, h, before.combinationCtrs, after.combinationCtrs)
      && PerFeatureCtrsDefaulted(before.perFeatureCtrs, after.perFeatureCtrs)
    }

    /** One CTR list option through `SetCtrDefaults`. */
    method DefaultCtrList(projection: EProjectionType, h: CtrHelpers, option: Setting<seq<CtrDescription>>)
      returns (r: Setting<seq<CtrDescription>>)
      ensures CtrListDefaulted(projection, h, option, r)
    {
      if !option.isSet {
        r := option.Assign(DefaultCtrs(projection, h));
      } else {
        var withPriors := h.setDefaultPriors(option.value);
        var binarized := SetDefaultBinarizationsIfNeeded(projection, withPriors);
        r := option.Assign(binarized);
      }
    }

    /** The per-feature loop of `SetCtrDefaults`. */
    static method DefaultPerFeatureCtrs(before: seq<FeatureCtrs>) returns (after: seq<FeatureCtrs>)
      ensures PerFeatureCtrsDefaulted(before, after)
    {
      after := before;
      for i := 0 to |after|
        invariant |after| == |before|
        invariant forall k :: 0 <= k < i ==>
                    after[k].featureId == before[k].featureId
                    && BinarizationsDefaulted(SimpleCtr, before[k].ctrs, after[k].ctrs)
        invariant forall k :: i <= k < |after| ==> after[k] == before[k]
      {
        var binarized := SetDefaultBinarizationsIfNeeded(SimpleCtr, after[i].ctrs);
        after := after[i := after[i].(ctrs := binarized)];
      }
    }

    /** `SetCtrDefaults` (its warnings are not modelled). */
    method SetCtrDefaults(h: CtrHelpers)
      modifies this`simpleCtrs, this`combinationCtrs, this`perFeatureCtrs
      ensures CtrsDefaulted(h, old(CtrOpts()), CtrOpts())
    {
      simpleCtrs := DefaultCtrList(SimpleCtr, h, simpleCtrs);
      combinationCtrs := DefaultCtrList(TreeCtr, h, combinationCtrs);
      perFeatureCtrs := DefaultPerFeatureCtrs(perFeatureCtrs);
    }

    /** Losses that default to pairwise-mode random strength, borders and bootstrap. */
    static predicate PairwiseMode(loss: ELossFunction)
    {
      loss in {QueryCrossEntropy, YetiRankPairwise, PairLogitPairwise}
    }

    /** The plain-only step of `SetNotSpecifiedOptionsToDefaults`: the boosting type defaults
        to Plain, and a user-chosen other type fails. */
    method ApplyPlainOnlyDefault(p: LossPredicates) returns (o: Outcome<OptionsError>)
      modifies this`boostingType
      ensures o.Fail? <==> p.isPlainOnlyMode(loss) && old(boostingType).isSet && old(boostingType).value != Plain
      ensures o.Fail? ==> o.error == BoostingTypeMustBePlain
      ensures boostingType == if p.isPlainOnlyMode(loss) then old(boostingType).SetDefault(Plain) else old(boostingType)
    {
      o := Pass;
      if p.isPlainOnlyMode(loss) {
        boostingType := boostingType.SetDefault(Plain);
        if !boostingType.IsDefault() {
          o := Fail(BoostingTypeMustBePlain);
        }
      }
    }

    /** The pairwise-mode step: random strength 0 and 32 borders by default; a Bernoulli
        bootstrap with subsample 0.5 by default unless a bagging temperature is set, which
        excludes a user subsample. */
    method ApplyPairwiseModeDefaults() returns (o: Outcome<OptionsError>)
      modifies this`randomStrength, this`borderCount, this`bootstrapType, this`takenFraction
      ensures o.Fail? <==> PairwiseMode(loss) && baggingTemperature.isSet && old(takenFraction).isSet
      ensures o.Fail? ==> o.error == BaggingTemperatureWithSubsample
      ensures PairwiseMode(loss) ==>
                randomStrength == old(randomStrength).SetDefault(0.0)
                && borderCount == old(borderCount).SetDefault(32)
                && if baggingTemperature.isSet then
                     bootstrapType == old(bootstrapType) && takenFraction == old(takenFraction)
                   else
                     bootstrapType == old(bootstrapType).SetDefault(Bernoulli)
                     && takenFraction == old(takenFraction).SetDefault(0.5)
      ensures !PairwiseMode(loss) ==>
                randomStrength == old(randomStrength) && borderCount == old(borderCount)
                && bootstrapType == old(bootstrapType) && takenFraction == old(takenFraction)
    {
      o := Pass;
      if PairwiseMode(loss) {
        randomStrength := randomStrength.SetDefault(0.0);
        borderCount := borderCount.SetDefault(32);
        if baggingTemperature.isSet {
          if takenFraction.isSet {
            o := Fail(BaggingTemperatureWithSubsample);
          }
        } else {
          bootstrapType := bootstrapType.SetDefault(Bernoulli);
          takenFraction := takenFraction.SetDefault(0.5);
        }
      }
    }

    /** The GPU doc-parallel step: for the losses that need it, doc-parallel plain boosting is
        defaulted, checked and then assigned so later defaulting cannot override it. */
    method ApplyGpuDocParallelDefaults(p: LossPredicates) returns (o: Outcome<OptionsError>)
      modifies this`boostingType, this`dataPartitionType
      ensures var applies := taskType == GPU && p.isGpuPlainDocParallelOnly(loss);
              && (o == Fail(DocParallelOnly) <==>
                    applies && old(dataPartitionType).isSet && old(dataPartitionType).value != DocParallel)
              && (o == Fail(OrderedBoostingNotOnGpu) <==>
                    applies && !(old(dataPartitionType).isSet && old(dataPartitionType).value != DocParallel)
                         && old(boostingType).isSet && old(boostingType).value != Plain)
              && (o.Pass? && applies ==>
                    boostingType == old(boostingType).SetDefault(Plain).Assign(Plain)
                    && dataPartitionType == old(dataPartitionType).SetDefault(DocParallel).Assign(DocParallel))
              && (!applies ==> o.Pass? && boostingType == old(boostingType) && dataPartitionType == old(dataPartitionType))
      ensures o.Fail? ==> o.error in {DocParallelOnly, OrderedBoostingNotOnGpu}
    {
      o := Pass;
      if taskType == GPU && p.isGpuPlainDocParallelOnly(loss) {
        dataPartitionType := dataPartitionType.SetDefault(DocParallel);
        boostingType := boostingType.SetDefault(Plain);
        if dataPartitionType.value != DocParallel {
          return Fail(DocParallelOnly);
        }
        if boostingType.value != Plain {
          return Fail(OrderedBoostingNotOnGpu);
        }
        boostingType := boostingType.Assign(Plain);
        dataPartitionType := dataPartitionType.Assign(DocParallel);
      }
    }

    /** The options the loss-driven steps of `SetNotSpecifiedOptionsToDefaults` touch. */
    function ModeOpts(): ModeOptions
      reads this`boostingType, this`dataPartitionType, this`randomStrength, this`borderCount
      reads this`bootstrapType, this`takenFraction
    {
      ModeOptions(boostingType, dataPartitionType, randomStrength, borderCount, bootstrapType, takenFraction)
    }

    /** The GPU losses that are defaulted to doc-parallel plain boosting. */
    predicate GpuDocParallel(p: LossPredicates)
    {
      taskType == GPU && p.isGpuPlainDocParallelOnly(loss)
    }

    /** The first check of the loss-driven steps that fails on `before`, in source order: a
        user-set non-plain boosting type for a plain-only loss, a bagging temperature with a
        user subsample in a pairwise mode, then for the GPU doc-parallel losses a user-set
        other partition and a user-set ordered boosting. */
    function LossModeFailure(p: LossPredicates, before: ModeOptions): (r: Option<OptionsError>)
      ensures r.Some? ==> r.value in {BoostingTypeMustBePlain, BaggingTemperatureWithSubsample, DocParallelOnly, OrderedBoostingNotOnGpu}
      ensures r == None ==> (before.boostingType.isSet && before.boostingType.value != Plain
                             ==> !p.isPlainOnlyMode(loss) && !GpuDocParallel(p))
      ensures r == None <==> !(before.boostingType.isSet && before.boostingType.value != Plain
                               && (p.isPlainOnlyMode(loss) || GpuDocParallel(p)))
                             && !(PairwiseMode(loss) && baggingTemperature.isSet && before.takenFraction.isSet)
                             && !(GpuDocParallel(p) && before.dataPartitionType.isSet && before.dataPartitionType.value != DocParallel)
      ensures r == Some(BoostingTypeMustBePlain) <==> p.isPlainOnlyMode(loss) && before.boostingType.isSet && before.boostingType.value != Plain
      ensures PairwiseMode(loss) && baggingTemperature.isSet && before.takenFraction.isSet ==> r.Some?
      ensures GpuDocParallel(p) && before.dataPartitionType.isSet && before.dataPartitionType.value != DocParallel ==> r.Some?
    {
      var userBoosting := before.boostingType.isSet && before.boostingType.value != Plain;
      if p.isPlainOnlyMode(loss) && userBoosting then Some(BoostingTypeMustBePlain)
      else if PairwiseMode(loss) && baggingTemperature.isSet && before.takenFraction.isSet then Some(BaggingTemperatureWithSubsample)
      else if GpuDocParallel(p) && before.dataPartitionType.isSet && before.dataPartitionType.value != DocParallel then Some(DocParallelOnly)
      else if GpuDocParallel(p) && userBoosting then Some(OrderedBoostingNotOnGpu)
      else None
    }

    /** What the loss-driven steps make of `before` when none of their checks fails: plain
        boosting by default for plain-only losses; for the pairwise modes random strength 0,
        32 borders, and a Bernoulli bootstrap with subsample 0.5 unless a bagging temperature
        is set; doc-parallel plain boosting, assigned so that it counts as set, for the GPU
        losses that need it; nothing else changes. */
    predicate LossModeDefaulted(p: LossPredicates, before: ModeOptions, after: ModeOptions)
    {
      var plainOnly := if p.isPlainOnlyMode(loss) then before.boostingType.SetDefault(Plain) else before.boostingType;
      (after.boostingType == if GpuDocParallel(p) then plainOnly.SetDefault(Plain).Assign(Plain) else plainOnly)
      && (if PairwiseMode(loss) then
            after.randomStrength == before.randomStrength.SetDefault(0.0)
            && after.borderCount == before.borderCount.SetDefault(32)
            && if baggingTemperature.isSet then
                 !before.takenFraction.isSet
                 && after.bootstrapType == before.bootstrapType && after.takenFraction == before.takenFraction
               else
                 after.bootstrapType == before.bootstrapType.SetDefault(Bernoulli)
                 && after.takenFraction == before.takenFraction.SetDefault(0.5)
          else
            after.randomStrength == before.randomStrength && after.borderCount == before.borderCount
            && after.bootstrapType == before.bootstrapType && after.takenFraction == before.takenFraction)
      && (after.dataPartitionType == if GpuDocParallel(p) then before.dataPartitionType.SetDefault(DocParallel).Assign(DocParallel)
                                     else before.dataPartitionType)
    }

    /** The loss-driven steps of `SetNotSpecifiedOptionsToDefaults` that come before the
        leaf-estimation defaults, in source order; they fail exactly with the first failing
        check of `LossModeFailure`. */
    method ApplyLossModeDefaults(p: LossPredicates) returns (o: Outcome<OptionsError>)
      modifies this`boostingType, this`dataPartitionType, this`randomStrength, this`borderCount
      modifies this`bootstrapType, this`takenFraction
      ensures o.Fail? <==> LossModeFailure(p, old(ModeOpts())).Some?
      ensures o.Fail? ==> o.error == LossModeFailure(p, old(ModeOpts())).value
      ensures o.Pass? ==> LossModeDefaulted(p, old(ModeOpts()), ModeOpts())
    {
      ghost var before := ModeOpts();
      o := ApplyPlainOnlyDefault(p);
      if o.Fail? {
        return;
      }
      o := ApplyPairwiseModeDefaults();
      if o.Fail? {
        return;
      }
      assert dataPartitionType == before.dataPartitionType;
      assert boostingType.isSet == before.boostingType.isSet;
      assert boostingType.isSet ==> boostingType.value == before.boostingType.value;
      o := ApplyGpuDocParallelDefaults(p);
    }

    /** The steps of `SetNotSpecifiedOptionsToDefaults` after the loss-driven ones: the
        leaf-estimation defaults, then (if they pass) the CTR defaults and a single
        permutation when the data has a time order. */
    method ApplyLeafAndCtrDefaults(h: CtrHelpers, reading: GuardReading) returns (o: Outcome<OptionsError>)
      modifies this`permutationCount
      modifies this`leavesEstimationMethod, this`leavesEstimationIterations, this`l2Reg, this`pairwiseNonDiagReg
      modifies this`simpleCtrs, this`combinationCtrs, this`perFeatureCtrs
      ensures o.Pass? <==> LeafEstimationOutcome(reading, loss, taskType, lqParam, old(LeafOpts())).Ok?
      ensures o.Fail? ==> o.error == LeafEstimationOutcome(reading, loss, taskType, lqParam, old(LeafOpts())).error
      ensures o.Pass? ==> LeafOpts() == LeafEstimationOutcome(reading, loss, taskType, lqParam, old(LeafOpts())).value
      ensures o.Pass? ==> pairwiseNonDiagReg == if loss == QueryCrossEntropy then old(pairwiseNonDiagReg).SetDefault(0.0)
                                                else old(pairwiseNonDiagReg)
      ensures o.Pass? ==> CtrsDefaulted(h, old(CtrOpts()), CtrOpts())
      ensures o.Pass? ==> permutationCount == if hasTimeFlag then old(permutationCount).Assign(1)
                                              else old(permutationCount)
    {
      o := SetLeavesEstimationDefault(reading);
      if o.Pass? {
        SetCtrDefaults(h);
        if hasTimeFlag {
          permutationCount := permutationCount.Assign(1);
        }
      }
    }

    /** `SetNotSpecifiedOptionsToDefaults`: the loss-driven boosting, bootstrap and partition
        defaults, then the leaf-estimation and CTR defaults, and a single permutation when the
        data has a time order. It stops at the first failed check. With
        `reading == AsWritten` this is the program's behaviour. */
    method SetNotSpecifiedOptionsToDefaults(p: LossPredicates, h: CtrHelpers, reading: GuardReading) returns (o: Outcome<OptionsError>)
      modifies this`boostingType, this`dataPartitionType, this`randomStrength, this`borderCount
      modifies this`bootstrapType, this`takenFraction, this`permutationCount
      modifies this`leavesEstimationMethod, this`leavesEstimationIterations, this`l2Reg, this`pairwiseNonDiagReg
      modifies this`simpleCtrs, this`combinationCtrs, this`perFeatureCtrs
      ensures var modeFailure := LossModeFailure(p, old(ModeOpts()));
              var leaf := LeafEstimationOutcome(reading, loss, taskType, lqParam, old(LeafOpts()));
              (o.Fail? <==> modeFailure.Some? || leaf.Err?)
              && (o.Fail? ==> o.error == if modeFailure.Some? then modeFailure.value else leaf.error)
      ensures o.Pass? ==> LossModeDefaulted(p, old(ModeOpts()), ModeOpts())
      ensures o.Pass? ==> LeafEstimationOutcome(reading, loss, taskType, lqParam, old(LeafOpts())).Ok?
                          && LeafOpts() == LeafEstimationOutcome(reading, loss, taskType, lqParam, old(LeafOpts())).value
      ensures o.Pass? ==> pairwiseNonDiagReg == if loss == QueryCrossEntropy then old(pairwiseNonDiagReg).SetDefault(0.0)
                                                else old(pairwiseNonDiagReg)
      ensures o.Pass? ==> CtrsDefaulted(h, old(CtrOpts()), CtrOpts())
      ensures o.Pass? ==> permutationCount == if hasTimeFlag then old(permutationCount).Assign(1)
                                              else old(permutationCount)
    {
      o := ApplyLossModeDefaults(p);
      if o.Fail? {
        return;
      }
      ghost var modes := ModeOpts();
      o := ApplyLeafAndCtrDefaults(h, reading);
      assert ModeOpts() == modes;
    }

    /** The check `Validate` makes that fails with error `e`, stated as the condition that
        makes it fail. */
    predicate Violates(p: LossPredicates, e: OptionsError)
      reads this
    {
      match e
      case ClassesCountNeedsMultiClass => classesCount != 0 && !p.isMultiClass(loss)
      case ClassesCountTooSmall => classesCount == 1
      case ClassWeightsNeedClassification => |classWeights| > 0 && loss != Logloss && !p.isMultiClass(loss)
      case ClassWeightsNeedTwoForLogloss => |classWeights| > 0 && !p.isMultiClass(loss) && |classWeights| != 2
      case ClassWeightsCountMismatch => |classWeights| > 0 && classesCount != 0 && classesCount != |classWeights|
      case RsmOnGpuNeedsPairwise => taskType == GPU && !p.isPairwiseScoring(loss) && !rsm.IsDefault()
      case NewtonNotForThisLoss =>
        loss in {Quantile, MAE, LogLinQuantile, MAPE} && leavesEstimationMethod.value == Newton
      case OneIterationForThisLoss =>
        loss in {Quantile, MAE, LogLinQuantile, MAPE} && leavesEstimationIterations.value != 1
      case OrderedBoostingNotForLoss => p.isPlainOnlyMode(loss) && boostingType.value == Ordered
      case NewtonNotForPairwiseOnCpu =>
        taskType == CPU && p.isPairwiseScoring(loss) && leavesEstimationMethod.value == Newton
      case _ => false
    }

    /** `Validate`, restricted to its class-count, class-weight, GPU rsm, leaf-estimation and
        boosting-type checks: it passes exactly when none of them is violated, and a failure
        names a violated check. */
    function Validate(p: LossPredicates): (r: Outcome<OptionsError>)
      reads this
      ensures r.Fail? ==> Violates(p, r.error)
      ensures r.Pass? ==> forall e :: !Violates(p, e)
      ensures r.Pass? && loss in {Quantile, MAE, LogLinQuantile, MAPE} ==>
                leavesEstimationMethod.value != Newton && leavesEstimationIterations.value == 1
      ensures r.Pass? && classesCount != 0 ==> p.isMultiClass(loss) && classesCount > 1
    {
      if classesCount != 0 && !p.isMultiClass(loss) then Fail(ClassesCountNeedsMultiClass)
      else if classesCount != 0 && classesCount <= 1 then Fail(ClassesCountTooSmall)
      else if |classWeights| != 0 && !(loss == Logloss || p.isMultiClass(loss)) then Fail(ClassWeightsNeedClassification)
      else if |classWeights| != 0 && !(p.isMultiClass(loss) || |classWeights| == 2) then Fail(ClassWeightsNeedTwoForLogloss)
      else if |classWeights| != 0 && !(classesCount == 0 || classesCount == |classWeights|) then Fail(ClassWeightsCountMismatch)
      else if taskType == GPU && !p.isPairwiseScoring(loss) && !rsm.IsDefault() then Fail(RsmOnGpuNeedsPairwise)
      else if loss in {Quantile, MAE, LogLinQuantile, MAPE} && leavesEstimationMethod.value == Newton then Fail(NewtonNotForThisLoss)
      else if loss in {Quantile, MAE, LogLinQuantile, MAPE} && leavesEstimationIterations.value != 1 then Fail(OneIterationForThisLoss)
      else if p.isPlainOnlyMode(loss) && boostingType.value == Ordered then Fail(OrderedBoostingNotForLoss)
      else if taskType == CPU && p.isPairwiseScoring(loss) && leavesEstimationMethod.value == Newton then Fail(NewtonNotForPairwiseOnCpu)
      else Pass
    }
  }
}
