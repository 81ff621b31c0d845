# CatBoost loss derivatives and leaf-estimation options, modelled in Dafny

This project models four pieces of the CatBoost gradient-boosting trainer and proves
properties about them.

- **Derivative calculators** (`catboost/libs/algo/error_functions.h`):
  - the per-object first, second and third derivatives of the losses whose formulas are
    rational: RMSE, Quantile/MAE, LogLinQuantile, MAPE, Poisson, CrossEntropy/Logloss,
    ConstrainedRegression and HonestLikelihood;
  - the capability table (error type, maximum derivative order, Hessian type, and which
    calls fail with "Not implemented");
  - the range drivers `CalcFirstDerRange` and `CalcDersRange`, which fill a slice of the
    derivative buffer and scale it by the object weights;
  - the grouped calculators: PairLogit pair accumulation and QueryRMSE centring per query,
    and the multiclass and one-vs-all gradient/Hessian writers with the packed upper
    triangular Hessian.
- **Option defaulting and validation** (`catboost/libs/options/catboost_options.cpp`):
  - the leaf-estimation decision table and the set-if-unset logic of
    `SetLeavesEstimationDefault`;
  - the loss-driven boosting, bootstrap and partition defaults of
    `SetNotSpecifiedOptionsToDefaults`;
  - the CTR defaults (`CreateDefaultCounter`, `SetDefaultBinarizationsIfNeeded`,
    `SetCtrDefaults`);
  - the class-count, class-weight, rsm, leaf-estimation and boosting-type checks of
    `Validate`.
- **Loss dispatch** (`catboost/libs/algo/train.cpp`): `GetOneIterationFunc` maps each
  trainable loss to the calculator class its training iteration is instantiated with.
- **Pairwise leaf post-processing**
  (`catboost/cuda/methods/pairwise_oblivious_trees/non_diagonal_leaves_estimator.cpp`):
  what `Estimate` does after the Newton-like walker returns.

Layout, one module per file:

| file | module | contents |
|---|---|---|
| wrappers.dfy | Wrappers | `Option`, `Result`, `Outcome` |
| enums.dfy | Enums | the enumerations of `enums.h` the code uses |
| sums.dfy | Sums | sums of real sequences |
| derivatives.dfy | Derivatives | scalar formulas, fused `CalcDers`, capability table |
| derivative_ranges.dfy | DerivativeRanges | the two range drivers on arrays |
| multiclass.dfy | MultiClassDers | `CalcDersMulti` of both multiclass calculators |
| query_ders.dfy | QueryDers | `CalcDersForQueries` of PairLogit and QueryRMSE |
| train.dfy | Train | `GetOneIterationFunc` |
| options.dfy | Options | the option datatypes and the class `CatBoostOptions` |
| leaves_estimator.dfy | LeavesEstimator | the post-walker part of `Estimate` |

Modelling conventions:

- `double` and `float` are `real`.
- A failing `CB_ENSURE` or `Y_VERIFY` becomes a `Result`/`Outcome` failure.
- A debug-only `Y_ASSERT` becomes a precondition.
- A null pointer is a `null` array.
- Buffers the source updates in place are arrays or class fields.
- Every formula is evaluated only where its divisors are nonzero (`InDomain`).
- The derivatives are those of the log-likelihood, i.e. of the negated loss, as the source
  computes them.

An option is modelled as a record of its value, its last default and whether the user set
it. `SetDefault` records the default and changes the value only when the option is unset.
Assigning a value marks the option as set. The option header is not part of this model, so
this is an assumption. It matches how `catboost_options.cpp:135-136` and
`catboost_options.cpp:400-401` use `SetDefault`.

In `SetLeavesEstimationDefault`, the block opened at `catboost_options.cpp:95` is never
closed. The file has one more `{` than `}`, so the case labels from YetiRank to `default`
sit inside that block. C++ still jumps to them, and each case ends in a `break` (or the
failing `CB_ENSURE`). The model therefore treats them as ordinary cases.

## Model

| member | source | states |
|---|---|---|
| Derivatives.ErrorType | catboost/libs/algo/error_functions.h:126-128 | The error type is PairwiseError exactly for the PairLogit calculator. It is QuerywiseError exactly for QueryRMSE, QuerySoftMax and the user-defined querywise calculator; those overrides are at lines 646-648, 706-708, 807-809 and 960-962. Every other class is per-object. |
| Derivatives.MaxDerivativeOrder | catboost/libs/algo/error_functions.h:130-132 | The maximum derivative order is between 1 and 3. For Lq it is 3 exactly when Q >= 2 (lines 398-400). Among the other classes it is 2 exactly for the multiclass, one-vs-all, PairLogit, QueryRMSE and QuerySoftMax calculators (overrides at lines 513-515, 581-583, 650-652 and in the query classes), and every class with scalar formulas has the base order 3. |
| Derivatives.HessianType | catboost/libs/algo/error_functions.h:134-136 | The Hessian is Diagonal exactly for the one-vs-all calculator (override at lines 585-587) and Symmetric otherwise. |
| Derivatives.NewCalcer | catboost/libs/algo/error_functions.h:161-165 | A calculator is built exactly when the caller's approx format matches the class's `StoreExpApprox`. It keeps the class and its parameter. |
| Derivatives.CalcDer | catboost/libs/algo/error_functions.h:139-141 | `CalcDer` fails exactly for the classes whose `CalcDer` is `CB_ENSURE(false)`: multiclass, one-vs-all, PairLogit, QueryRMSE, QuerySoftMax and both user-defined classes. |
| Derivatives.CalcDer2 | catboost/libs/algo/error_functions.h:143-145 | `CalcDer2` fails for exactly the same classes as `CalcDer`. |
| Derivatives.CalcDer3 | catboost/libs/algo/error_functions.h:147-149 | `CalcDer3` fails for exactly the same classes as `CalcDer`. |
| Derivatives.BaseCalcDers | catboost/libs/algo/error_functions.h:151-158 | The base `CalcDers` fails exactly where `CalcDer` fails. Der3 keeps its old value unless the third derivative is requested. |
| Derivatives.CalcDers | catboost/libs/algo/error_functions.h:182-190 | Each class's `CalcDers`, fused or inherited, fails exactly where `CalcDer` fails. An unrequested Der3 keeps its old value. |
| Derivatives.EntryPointsMatchCapabilities | catboost/libs/algo/error_functions.h:103-124 | The two multiclass calculators, which answer `CalcDersMulti`, are per-object, have order 2 and have no scalar formulas. Every order-2 class answers exactly one of `CalcDersMulti` and `CalcDersForQueries`; no class answers both. |
| Derivatives.CalcDersMultiOutcome | catboost/libs/algo/error_functions.h:103-111 | The base `CalcDersMulti` fails "Not implemented". A class that answers it is per-object, and apart from custom has no scalar formulas; every class with scalar formulas fails it. |
| Derivatives.CalcDersForQueriesOutcome | catboost/libs/algo/error_functions.h:113-124 | Base `CalcDersForQueries` fails "Not implemented"; a class that answers it is pairwise or querywise and has no scalar formulas, and every per-object class fails it. |
| Derivatives.ScalarDersArePerObject | catboost/libs/algo/error_functions.h:628-652 | A class whose scalar `CalcDer` succeeds is per-object. A pairwise or querywise class, or a class of order 2, fails `CalcDer` with "Not implemented". |
| Derivatives.FusedAgreesWithSingleOrders | catboost/libs/algo/error_functions.h:151-158 | For every class with scalar formulas, the fused `CalcDers` equals (`CalcDer`, `CalcDer2`, `CalcDer3` when requested, else the old Der3). |
| Derivatives.CrossEntropyFusedAgrees | catboost/libs/algo/error_functions.h:167-190 | The fused cross-entropy triple equals the single-order functions: t - p, -p(1-p) and -p(1-p)(1-2p). |
| Derivatives.ConstrainedRegressionFusedAgrees | catboost/libs/algo/error_functions.h:222-260 | The fused constrained-regression triple equals its three single-order formulas. |
| Derivatives.HonestLikelihoodFusedAgrees | catboost/libs/algo/error_functions.h:270-322 | The fused honest-likelihood triple equals its three single-order formulas. |
| Derivatives.RmseDersAreExact | catboost/libs/algo/error_functions.h:334-344 | RMSE's derivatives are exact: -(t - (a + h))^2/2 equals its second-order Taylor polynomial built from Der1 = t - a and Der2 = -1, and Der3 = 0. |
| Derivatives.QuantileDerIsSupergradient | catboost/libs/algo/error_functions.h:367-369 | Quantile's Der1 (Alpha above, -(1 - Alpha) otherwise, ties included) is a supergradient of the negated pinball loss. This is checked against an independent max-of-two-lines definition. |
| Derivatives.DefaultQuantileIsHalfSign | catboost/libs/algo/error_functions.h:354-369 | With the default Alpha = 0.5, Der1 is +0.5 when target > approx and -0.5 otherwise. |
| Derivatives.LogLinQuantileChainRule | catboost/libs/algo/error_functions.h:433-435 | LogLinQuantile's Der1 is approxExp times Quantile's Der1: the chain rule through the exponent. |
| Derivatives.MapeIsScaledMae | catboost/libs/algo/error_functions.h:454-456 | MAPE's Der1 is ±1/target by the median sign rule, i.e. 2/target times the default quantile derivative. |
| Derivatives.CrossEntropyAtZero | catboost/libs/algo/error_functions.h:182-190 | At approxExp = 1 and target 1 the fused triple is (0.5, -0.25, 0). |
| Derivatives.CrossEntropyBounds | catboost/libs/algo/error_functions.h:167-175 | For approxExp >= 0, p lies in [0, 1), Der1 lies in (t - 1, t] and Der2 lies in [-1/4, 0]. |
| DerivativeRanges.DersAt | catboost/libs/algo/error_functions.h:66-99 | The triple an index ends with keeps its old Der3 when the third derivative is not requested. |
| DerivativeRanges.CalcFirstDerRange | catboost/libs/algo/error_functions.h:31-54 | The call fails exactly on a nonempty range of a class without scalar formulas, and then changes nothing. Otherwise index i of [start, start + count) holds the weight times `CalcDer` of the approx, updated by its delta when deltas are given. Every other index is unchanged. |
| DerivativeRanges.CalcDersRange | catboost/libs/algo/error_functions.h:56-101 | The call fails exactly as `CalcFirstDerRange` does. Otherwise every index of the range holds the base `CalcDers` of its (updated) approx, weighted; every other index is unchanged. |
| DerivativeRanges.WeightDersRange | catboost/libs/algo/error_functions.h:87-99 | Der1 and Der2, and Der3 only when requested, of every index of the range are multiplied by that index's weight. Nothing else changes. |
| DerivativeRanges.DersRangeAgreesWithFirstDerRange | catboost/libs/algo/error_functions.h:56-101 | `CalcDersRange` and `CalcFirstDerRange` give the same Der1 on the same inputs, whatever the entry held and whether or not Der3 is requested. |
| DerivativeRanges.WeightScalesComputedOrders | catboost/libs/algo/error_functions.h:87-99 | Every computed order is the unweighted value times the weight. An uncomputed Der3 keeps its old, unscaled value. |
| DerivativeRanges.ZeroWeightZeroes | catboost/libs/algo/error_functions.h:87-99 | A zero weight gives zero for every computed order. |
| DerivativeRanges.NullWeightsAreUnitWeights | catboost/libs/algo/error_functions.h:49-53 | A null weight buffer gives the same result as weight 1. |
| MultiClassDers.PackedIndex | catboost/libs/algo/error_functions.h:538-544 | The running index of entry (y, x), y <= x, lies inside the packed buffer. |
| MultiClassDers.RowStartClosedForm | catboost/libs/algo/error_functions.h:538-544 | Row y of the packed triangle starts at y(2n - y + 1)/2. |
| MultiClassDers.PackedSizeIsTriangular | catboost/libs/algo/error_functions.h:538-544 | The packed Hessian of dimension n has n(n+1)/2 entries. |
| MultiClassDers.PackedIndexInjective | catboost/libs/algo/error_functions.h:538-544 | Distinct entries of the upper triangle get distinct packed indices. |
| MultiClassDers.Gradient | catboost/libs/algo/error_functions.h:529-533 | Entry d is onehot(target) minus probability d. For probabilities in [0, 1] the gradient points towards the target class: every entry lies in [-1, 1], only the target entry can be positive, and the target entry is nonnegative. |
| MultiClassDers.MultiClassDersMulti | catboost/libs/algo/error_functions.h:517-560 | Gradient entry d is weight × (onehot - softmax). When a Hessian is given, entry (y, x) sits at its packed index and holds weight × s_y(s_y - 1) on the diagonal and weight × s_y s_x off it. Nothing past n, or past n(n+1)/2 in the Hessian, changes. |
| MultiClassDers.WriteSoftmaxHessian | catboost/libs/algo/error_functions.h:535-545 | The row-by-row running index writes every upper-triangle entry at its packed index and nothing beyond the packed size. |
| MultiClassDers.ScalePackedHessian | catboost/libs/algo/error_functions.h:551-558 | The second running-index walk multiplies every packed entry by the weight and nothing else. |
| MultiClassDers.ProbsLieInUnit | catboost/libs/algo/error_functions.h:598-605 | Nonnegative exponents give one-vs-all probabilities e/(1 + e) in [0, 1), and the gradient onehot - p is then positive exactly at the target class. |
| MultiClassDers.OneVsAllDersMulti | catboost/libs/algo/error_functions.h:589-625 | Gradient entry d is weight × (onehot - p_d). When a Hessian is given, diagonal entry d is weight × (-p_d(1 - p_d)). Nothing past n changes. |
| MultiClassDers.ScaleInPlace | catboost/libs/algo/error_functions.h:615-624 | The first n entries are multiplied by the weight; the rest are unchanged. |
| MultiClassDers.WeightedGradientKeepsDirection | catboost/libs/algo/error_functions.h:547-550 | A nonnegative object weight keeps the direction of the gradient: for probabilities in [0, 1] every weighted entry lies within ±weight, only the target entry can be positive, and the target entry is nonnegative. |
| MultiClassDers.GradientSum | catboost/libs/algo/error_functions.h:529-550 | The weighted gradient sums to weight × (1 - sum of the probabilities), hence to 0 when the softmax sums to 1. |
| MultiClassDers.OneVsAllIsPerClassCrossEntropy | catboost/libs/algo/error_functions.h:600-611 | One-vs-all gradient entry d is cross-entropy's Der1 with target onehot(d), and its Hessian entry is cross-entropy's Der2. |
| QueryDers.FillZero | catboost/libs/algo/error_functions.h:670 | The query's slice is zeroed; nothing else changes. |
| QueryDers.BumpAt | catboost/libs/algo/error_functions.h:677-682 | One `+=` on Der1 and Der2 of one slice entry; nothing else changes. |
| QueryDers.ApplyWinner | catboost/libs/algo/error_functions.h:671-683 | One winner's competitors each lose w·p on Der1 and gain w·p(p-1) on Der2. The winner gains the sums. Nothing outside the slice changes. |
| QueryDers.PairLogitQuery | catboost/libs/algo/error_functions.h:667-683 | One query's slice holds the PairLogit slice of the query; nothing outside it changes. |
| QueryDers.PairLogitQueryInLoop | catboost/libs/algo/error_functions.h:666-684 | One iteration of the query loop keeps the earlier queries' slices, adds this query's slice, and leaves every uncovered entry as it was. |
| QueryDers.PairLogitDersForQueries | catboost/libs/algo/error_functions.h:654-685 | The call fails exactly when queryStartIndex >= queryEndIndex, and then changes nothing. Otherwise each query's slice, counted from the first query's Begin, holds its PairLogit slice. Entries outside every slice are unchanged. |
| QueryDers.PairLogitDer1SumsToZero | catboost/libs/algo/error_functions.h:671-683 | Der1 sums to zero over every query: each pair adds +w·p to the winner and -w·p to the competitor. |
| QueryDers.PairLogitCurvatureNonpositive | catboost/libs/algo/error_functions.h:675-679 | With positive exponents and nonnegative pair weights, every Der2 is <= 0 and every Der3 is 0. |
| QueryDers.PairsInDomainWhenPositive | catboost/libs/algo/error_functions.h:675 | With positive exponents, every pair probability has a nonzero denominator. |
| QueryDers.PairProbInUnit | catboost/libs/algo/error_functions.h:675 | With positive exponents, every pair probability lies strictly between 0 and 1. |
| QueryDers.QueryAvrg | catboost/libs/algo/error_functions.h:742-762 | With a positive total weight, the average times the total weight is the weighted sum of target - approx. Otherwise the average is 0. |
| QueryDers.CalcQueryAvrg | catboost/libs/algo/error_functions.h:742-762 | The loop computes the query average. |
| QueryDers.QueryRmseDer | catboost/libs/algo/error_functions.h:732-737 | Der3 of a document is left as it was. |
| QueryDers.QueryRmseSlice | catboost/libs/algo/error_functions.h:731-738 | The slice has one entry per document of the query. |
| QueryDers.QueryRmseSliceFrame | catboost/libs/algo/error_functions.h:731-737 | The slice depends on the buffer only through the entries it overwrites. |
| QueryDers.QueryRmseQuery | catboost/libs/algo/error_functions.h:726-738 | One query's slice holds its QueryRMSE slice; nothing outside it changes. |
| QueryDers.QueryRmseQueryInLoop | catboost/libs/algo/error_functions.h:725-739 | One iteration of the query loop keeps the earlier queries' slices, adds this query's slice, and leaves every uncovered entry as it was. |
| QueryDers.QueryRmseDersForQueries | catboost/libs/algo/error_functions.h:714-740 | For a nonempty query range, each query's slice, counted from the first query's Begin, holds its centred, weighted residuals. Entries outside every slice are unchanged; an empty range writes nothing. |
| QueryDers.QueryRmseDer1SumsToZero | catboost/libs/algo/error_functions.h:730-737 | With a positive total weight, Der1 sums to zero over each query. |
| Train.GetOneIterationFunc | catboost/libs/algo/train.cpp:30-96 | A dispatched loss is served by the class it is dispatched to. A loss fails with "not supported" exactly when no calculator class serves it. |
| Train.DispatchIsInverseOfServedLosses | catboost/libs/algo/train.cpp:30-96 | A loss is dispatched to a class exactly when that class's served-loss set contains it. So Logloss/CrossEntropy share the cross-entropy class, MAE/Quantile the quantile class, and the four pairwise/YetiRank losses the PairLogit class. |
| Train.DispatchedErrorType | catboost/libs/algo/train.cpp:58-75 | A dispatched loss trains with a pairwise calculator exactly when it is PairLogit, PairLogitPairwise, YetiRank or YetiRankPairwise. It trains with a querywise one exactly when it is QueryRMSE, QuerySoftMax or UserQuerywiseMetric. |
| Train.UnlistedLossesAreNotSupported | catboost/libs/algo/train.cpp:94-96 | AUC, NDCG, CtrFactor, MSLE, SMAPE and QueryCrossEntropy fail with "not supported". |
| Options.LossDefaults | catboost/libs/options/catboost_options.cpp:10-131 | Failures: Lq without `q` fails, and an unlisted loss fails with "Unknown loss function". L2 defaults: 5 for PairLogitPairwise, 0 for YetiRank/YetiRankPairwise, 1 for QueryCrossEntropy, 3 otherwise. Only QueryCrossEntropy defaults the pairwise non-diagonal regularizer. Lq uses Gradient exactly when q < 2. Both iteration defaults are at least 1. |
| Options.LeafDefaultsTable | catboost/libs/options/catboost_options.cpp:40-93 | Logloss/CrossEntropy: Newton, 10/40. Quantile/MAE/LogLinQuantile/MAPE: Gradient, 1/1. QuerySoftMax: Gradient, 10/100. |
| Options.PairwiseLeafDefaultsByTask | catboost/libs/options/catboost_options.cpp:68-80 | PairLogitPairwise defaults to Gradient with 50 gradient iterations on CPU. On GPU it defaults to Newton; the 5 is its gradient-iteration default. With nothing set, the CPU run ends with 50 gradient iterations and the GPU run with one Newton iteration (the Newton default 1 of line 10, taken at lines 150-151). |
| Options.LeafDefaultsFailures | catboost/libs/options/catboost_options.cpp:23-131 | AUC and CtrFactor fail with "Unknown loss function"; Lq without `q` fails on its mandatory parameter (line 24). |
| Options.DefaultedLossesAreTrainedLosses | catboost/libs/options/catboost_options.cpp:16-131 | A loss has defaults exactly when it has a CPU iteration function or is QueryCrossEntropy, with `q` given for Lq. Both directions are proved. |
| Options.QueryCrossEntropyDefaultsWithoutTrainer | catboost/libs/options/catboost_options.cpp:113-120 | QueryCrossEntropy has leaf-estimation defaults but no CPU iteration function. |
| Options.DefaultIterations | catboost/libs/options/catboost_options.cpp:147-167 | The simple method always gets 1 iteration; with the loss's own defaults, Newton and gradient get at least 1. |
| Options.YetiRankGuard | catboost/libs/options/catboost_options.cpp:138-140 | As written (`\|\|`) the YetiRank condition holds for every loss; corrected (`&&`) it fails exactly for YetiRank and YetiRankPairwise. |
| Options.MethodChangeCheck | catboost/libs/options/catboost_options.cpp:137-145 | A user method that differs from the default is rejected with the YetiRank error exactly under the corrected reading for YetiRank/YetiRankPairwise. It is rejected with the PairLogitPairwise error exactly for PairLogitPairwise on CPU. No other error arises. |
| Options.YetiRankGuardAsWrittenNeverRejects | catboost/libs/options/catboost_options.cpp:138-140 | As written, the guard holds for every loss, so the method-change checks accept a YetiRank or YetiRankPairwise user method on either task type. |
| Options.LeafEstimationOutcome | catboost/libs/options/catboost_options.cpp:133-181 | A defaults failure is passed on. Otherwise the result fails exactly when a changed user method is rejected, or the simple method has iterations other than 1, or QueryCrossEntropy ends with Gradient. The error is the first of these in source order. On success the L2 is never 0: a user's nonzero L2 is kept, a user's 0 becomes 1e-20, and an unset L2 takes the loss's default (3, 5, 1, or 1e-20 where the default is 0). An unset method takes the default. Unset iterations take the default of the chosen method. Under the corrected guard YetiRank and YetiRankPairwise keep the default method, and so does PairLogitPairwise on CPU. |
| Options.AsWrittenAcceptsYetiRankMethodChange | catboost/libs/options/catboost_options.cpp:137-151 | As written, YetiRank on CPU (default Gradient) accepts a user-set Newton method and ends with Newton and 1 iteration. |
| Options.CorrectedGuardRejectsYetiRankMethodChange | catboost/libs/options/catboost_options.cpp:137-140 | With the corrected guard, a YetiRank or YetiRankPairwise user method that differs from the default fails. |
| Options.QuantileFamilyDefaultsPassLeafRule | catboost/libs/options/catboost_options.cpp:53-61 | With nothing set, the quantile family ends with one gradient iteration, which is what `Validate` (lines 367-376) demands. |
| Options.YetiRankPairwiseGpuDefaultsAreSimple | catboost/libs/options/catboost_options.cpp:106-111 | On GPU with nothing set, YetiRankPairwise ends with the simple method and one iteration, and an unset L2 becomes 1e-20. |
| Options.BinarizationDefault | catboost/libs/options/catboost_options.cpp:232-234 | Only an unset FeatureFreq binarization changes, and only its border type: MinEntropy for simple CTRs, Median otherwise. Type, priors, border count and the set flag are kept. |
| Options.BinarizationDefaultIdempotent | catboost/libs/options/catboost_options.cpp:230-236 | Applying the binarization default twice equals applying it once. |
| Options.SetDefaultBinarizationsIfNeeded | catboost/libs/options/catboost_options.cpp:230-236 | Every description is replaced by its binarization default, in order. |
| Options.CatBoostOptions.SetLeavesEstimationDefault | catboost/libs/options/catboost_options.cpp:6-182 | The leaf options end as `LeafEstimationOutcome` says for the given guard reading, and the call fails exactly when it fails. With the as-written reading this is the program itself. A defaults failure leaves the options unchanged. QueryCrossEntropy defaults the non-diagonal regularizer to 0. |
| Options.CatBoostOptions.CreateDefaultCounter | catboost/libs/options/catboost_options.cpp:205-228 | On CPU: a Counter with an unset binarization. On GPU: a FeatureFreq with 15 borders, Median for tree CTRs and MinEntropy for simple CTRs. Priors come from the chosen type. |
| Options.CatBoostOptions.DefaultCounterIsBinarized | catboost/libs/options/catboost_options.cpp:205-236 | The default counter needs no binarization default. On GPU its border type is the one `SetDefaultBinarizationsIfNeeded` would choose for the same projection. |
| Options.CatBoostOptions.DefaultCtrs | catboost/libs/options/catboost_options.cpp:245-256 | PairLogit and PairLogitPairwise get the counter alone. Every other loss gets a Borders CTR with its default priors and an unset binarization, followed by the counter. |
| Options.CatBoostOptions.DefaultCtrList | catboost/libs/options/catboost_options.cpp:264-275 | An unset CTR list becomes the default list. A set list gets its priors and then its binarizations defaulted. |
| Options.CatBoostOptions.DefaultPerFeatureCtrs | catboost/libs/options/catboost_options.cpp:277-279 | Every per-feature list gets simple-CTR binarization defaults and keeps its feature id. |
| Options.CatBoostOptions.SetCtrDefaults | catboost/libs/options/catboost_options.cpp:238-280 | The simple, combination and per-feature CTR options are defaulted as above. |
| Options.CatBoostOptions.ApplyPlainOnlyDefault | catboost/libs/options/catboost_options.cpp:399-402 | For plain-only losses the boosting type defaults to Plain. A user-set other type fails. |
| Options.CatBoostOptions.ApplyPairwiseModeDefaults | catboost/libs/options/catboost_options.cpp:404-427 | For QueryCrossEntropy, YetiRankPairwise and PairLogitPairwise: random strength defaults to 0 and borders to 32. Without a bagging temperature, bootstrap defaults to Bernoulli with subsample 0.5. With one, a user subsample fails. Other losses change nothing. |
| Options.CatBoostOptions.ApplyGpuDocParallelDefaults | catboost/libs/options/catboost_options.cpp:428-440 | On GPU, for the doc-parallel-only losses, a user partition other than DocParallel fails; otherwise a user ordered boosting fails. Otherwise both options are defaulted and then assigned DocParallel and Plain. No other error arises, and other cases change nothing. |
| Options.CatBoostOptions.LossModeFailure | catboost/libs/options/catboost_options.cpp:399-440 | The check of the loss-driven steps that fails first, in source order. There is no failure exactly when none of these holds: a user-set non-plain boosting type with a plain-only or GPU doc-parallel loss; a pairwise mode with a bagging temperature and a user subsample; a GPU doc-parallel loss with a user partition other than doc-parallel. The plain-only error is reported exactly for a plain-only loss with a user-set non-plain boosting type. |
| Options.CatBoostOptions.ApplyLossModeDefaults | catboost/libs/options/catboost_options.cpp:399-440 | The call fails exactly with the first failing check of `LossModeFailure`. On success the boosting type is defaulted to Plain for plain-only losses and then assigned Plain for GPU doc-parallel losses; otherwise it is unchanged. The partition, random strength, borders, bootstrap and subsample end exactly as the three steps set them. |
| Options.CatBoostOptions.ApplyLeafAndCtrDefaults | catboost/libs/options/catboost_options.cpp:442-447 | The leaf-estimation defaults run first under the given guard reading, and the call fails exactly as `LeafEstimationOutcome` does. If they pass, the CTR defaults run, and a time flag forces one permutation. |
| Options.CatBoostOptions.SetNotSpecifiedOptionsToDefaults | catboost/libs/options/catboost_options.cpp:398-448 | The call fails exactly when a loss-driven check fails or the leaf-estimation outcome fails. The error is the loss-driven one if there is one, else the leaf one. On success the mode options, leaf options, CTRs and permutation count end as the steps above say. |
| Options.CatBoostOptions.Validate | catboost/libs/options/catboost_options.cpp:334-384 | A failure names a violated check and a pass means no check is violated. The checks: classes_count needs a multiclass loss and must be > 1. Class weights need Logloss or multiclass, exactly 2 for Logloss, and a matching count. GPU rsm needs pairwise scoring. The quantile family rejects Newton and needs exactly 1 iteration. Plain-only losses reject ordered boosting. CPU pairwise scoring rejects Newton. |
| LeavesEstimator.Zeros | catboost/cuda/methods/pairwise_oblivious_trees/non_diagonal_leaves_estimator.cpp:11-14 | The walker's start is the leaf count of zeros. |
| LeavesEstimator.Resized | catboost/cuda/methods/pairwise_oblivious_trees/non_diagonal_leaves_estimator.cpp:15-17 | The resized point keeps the first n entries and pads with zeros. |
| LeavesEstimator.Shifted | catboost/cuda/methods/pairwise_oblivious_trees/non_diagonal_leaves_estimator.cpp:29-31 | Every leaf has the bias added. |
| LeavesEstimator.ZeroAverageBias | catboost/cuda/methods/pairwise_oblivious_trees/non_diagonal_leaves_estimator.cpp:20-27 | For a nonempty point, the leaf count times the bias is minus the sum of the leaves (the unweighted mean, the leaf weights play no part); an empty point gets bias 0. |
| LeavesEstimator.SumShifted | catboost/cuda/methods/pairwise_oblivious_trees/non_diagonal_leaves_estimator.cpp:29-31 | Shifting by b adds n·b to the sum. |
| LeavesEstimator.ZeroAverageSumsToZero | catboost/cuda/methods/pairwise_oblivious_trees/non_diagonal_leaves_estimator.cpp:20-32 | After the zero-average shift, which uses the unweighted count, the leaves sum to 0. |
| LeavesEstimator.ZeroAverageIsIdempotent | catboost/cuda/methods/pairwise_oblivious_trees/non_diagonal_leaves_estimator.cpp:20-32 | A zero-average point gets bias 0. |
| LeavesEstimator.ZeroAverageExamples | catboost/cuda/methods/pairwise_oblivious_trees/non_diagonal_leaves_estimator.cpp:27-31 | [1, 2, 3] becomes [-1, 0, 1]; an empty point gets bias 0 and stays empty. |
| LeavesEstimator.PointSum | catboost/cuda/methods/pairwise_oblivious_trees/non_diagonal_leaves_estimator.cpp:21-26 | The first loop computes the sum of the leaves and their count. |
| LeavesEstimator.AddBias | catboost/cuda/methods/pairwise_oblivious_trees/non_diagonal_leaves_estimator.cpp:29-31 | The second loop leaves the point shifted by the bias. |
| LeavesEstimator.PairwiseObliviousTreeLeavesEstimator.Estimate | catboost/cuda/methods/pairwise_oblivious_trees/non_diagonal_leaves_estimator.cpp:3-35 | A weight count different from the leaf count is fatal and leaves the model unchanged. Otherwise the leaves become the resized walker result, zero-averaged when configured, and the leaf weights become the oracle's weights. |

## Left out

- IEEE arithmetic: doubles and floats are exact reals, so rounding, infinities and NaN are not modelled. The float casts of targets and weights are not modelled. The constant `1e-20f` is the exact real 10^-20.
- Derivatives.CalcDer, CalcDer2, CalcDer3 and CalcDers: they require every divisor to be nonzero (`InDomain`); the source would produce an infinity or NaN there.
- Lq: the derivative formulas use `std::pow` with a real exponent and are not modelled. Only the order rule (`MaxDerivativeOrder`) and the dispatch are.
- Custom and the user-defined calculators: they call into a user descriptor or parse parameters. Only their capability answers and their "Not implemented" failures are modelled.
- DerivativeRanges.CalcFirstDerRange and DerivativeRanges.CalcDersRange exclude the cross-entropy class. Its range drivers are declared at error_functions.h:192-211 but defined in a file that is not part of this model.
- QuerySoftMax: `CalcDersForSingleQuery` is defined in a file that is not part of this model. Only its capability answers are modelled.
- `UpdateApprox<StoreExpApprox>` (approx_util.h is not part of this model) is a function parameter of the range drivers.
- `CalcSoftmax` and `FastExpInplace`: the softmax vector and the exponents are inputs of the multiclass writers.
- MultiClassDers.MultiClassDersMulti and MultiClassDers.OneVsAllDersMulti require the truncated target to be a valid class index; the source indexes the gradient with it unchecked.
- `THessianInfo` (hessian.h is not part of this model): its constructor's buffer sizes are assumed.
- `TQueryInfo` (query.h is not part of this model): only Begin, End and the competitor lists are modelled.
- QueryDers.PairLogitDersForQueries and QueryDers.QueryRmseDersForQueries require the queries of the call to be in order, disjoint and inside the buffers, and the competitor ids to name documents of their query. The source relies on this without checking.
- `NPar::ParallelFor`: the queries run one after the other. Their slices are disjoint, so the result is the same, but interleaving is not modelled.
- The YetiRank guard is a parameter of the leaf-estimation members (`GuardReading`): `AsWritten` is the program, `Corrected` the evidently intended check (see Findings).
- Options.CatBoostOptions.SetNotSpecifiedOptionsToDefaults: it states the new option values only when it passes. After a failed check the source has already changed some options; those partial states are not described.
- Options.CatBoostOptions.Validate: restricted to the class-count, class-weight, GPU rsm, leaf-estimation, boosting-type and CPU pairwise checks. The sub-option validators, `ValidateCtr`/`ValidateCtrs` and the metadata checks are not modelled.
- `IsMultiClassError`, `IsPairwiseScoring`, `IsPlainOnlyModeLoss`, `IsGpuPlainDocParallelOnlyMode`, `GetDefaultPriors` and `SetDefaultPriorsIfNeeded` are parameters of the model. They live in files that are not part of this model.
- `GetLqParam` is not modelled: the Lq parameter is given as an optional real.
- Options.SetDefaultBinarizationsIfNeeded returns the rewritten sequence instead of updating the vector through a pointer.
- JSON `Load`/`Save`, the warning log and `BuildErrorTracker` are not modelled.
- `TruncateToInt` is unbounded, so a target beyond the 32-bit range is not wrapped.
- The Newton-like walker, `CreateDerCalcer`, the GPU buffers and the profiler are not modelled. The walker is a function parameter and the oracle's weights are an input.
- `TrainOneIter` is not modelled: `GetOneIterationFunc` returns the calculator class it would be instantiated with.

## Findings

| source | as written | input that shows it | evidently intended | confidence | as-written member | corrected member |
|---|---|---|---|---|---|---|
| catboost/libs/options/catboost_options.cpp:138-140 | The guard is `loss != YetiRank \|\| loss != YetiRankPairwise`, which holds for every loss. | Loss YetiRank with a user-set leaf-estimation method that differs from the default (Gradient on CPU): the check passes, although its message says the change is prohibited. | `&&`: the check fails for YetiRank and YetiRankPairwise. | not executed | Options.AsWrittenAcceptsYetiRankMethodChange | Options.CorrectedGuardRejectsYetiRankMethodChange |
