/** The enumerations of catboost/libs/options/enums.h that the modelled code uses, plus the
    two CTR enumerations (`ECtrType`, `EBorderSelectionType`) that live in headers which are
    not part of this model; of those two only the values named by the modelled code matter. */
module Enums {

  datatype EErrorType = PerObjectError | PairwiseError | QuerywiseError

  datatype ETaskType = GPU | CPU

  datatype EBoostingType = Ordered | Plain

  datatype EDataPartitionType = FeatureParallel | DocParallel

  datatype ELeavesEstimation = Gradient | Newton | Simple

  datatype EBootstrapType = Poisson | Bayesian | Bernoulli | No

  datatype ELossFunction =
    // binary classification errors
    | Logloss | CrossEntropy | CtrFactor
    // regression errors
    | RMSE | Lq | MAE | Quantile | LogLinQuantile | MAPE | Poisson | MSLE
    | MedianAbsoluteError | SMAPE | ConstrainedRegression | HonestLikelihood
    // multiclassification errors
    | MultiClass | MultiClassOneVsAll
    // pair errors
    | PairLogit | PairLogitPairwise
    // ranking errors
    | YetiRank | YetiRankPairwise | QueryRMSE | QuerySoftMax | QueryCrossEntropy
    // user defined errors
    | Custom | UserPerObjMetric | UserQuerywiseMetric
    // regression metrics
    | R2 | NumErrors
    // classification metrics
    | AUC | Accuracy | BalancedAccuracy | BalancedErrorRate | BrierScore | Precision | Recall
    | F1 | TotalF1 | MCC | ZeroOneLoss | HammingLoss | HingeLoss | Kappa | WKappa
    | LogLikelihoodOfPrediction
    // pair metrics
    | PairAccuracy
    // ranking metrics
    | AverageGain | QueryAverage | PFound | PrecisionAt | RecallAt | MAP | NDCG

  datatype EHessianType = Symmetric | Diagonal

  datatype EProjectionType = TreeCtr | SimpleCtr

  datatype ECtrType = Borders | Buckets | BinarizedTargetMeanValue | FloatTargetMeanValue | Counter | FeatureFreq

  datatype EBorderSelectionType = Median | GreedyLogSum | UniformAndQuantiles | MinEntropy | MaxLogSum | Uniform
}
