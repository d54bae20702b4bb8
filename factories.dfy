/** `variant.factory(params)`: the factory each `FactoryId` names, applied to the parameters. */
module Factories {
  import opened Wrappers
  import opened Types
  import opened AlgorithmRegistry
  import Svm
  import RandomForest
  import Xgboost
  import RegressionModels
  import MlpAdapter

  /** The estimator classes of the classification variants. */
  const ClassifierClasses: set<string> :=
    {"SVC", "RandomForestClassifier", "XGBClassifier", "LogisticRegression", "MLPClassifier"}

  /** Classifier factories build classifiers, and only the SVM factories add a scaler. */
  function Build(f: FactoryId, params: Option<seq<(string, Value)>>): (e: Estimator)
    ensures IsClassifierFactory(f) <==> e.cls in ClassifierClasses
    ensures e.scaled <==> f.SvmClassifier? || f.SvmRegressor?
  {
    match f
    case SvmClassifier => Svm.SvmClassifierFactory(params)
    case SvmRegressor => Svm.SvmRegressorFactory(params)
    case RfClassifier => RandomForest.RfClassifierFactory(params)
    case RfRegressor => RandomForest.RfRegressorFactory(params)
    case XgbClassifier => Xgboost.XgbClassifierFactory(params)
    case XgbRegressor => Xgboost.XgbRegressorFactory(params)
    case RegressionClassifier => RegressionModels.RegressionClassifierFactory(params)
    case RegressionRegressor => RegressionModels.RegressionRegressorFactory(params)
    case MlpClassifier => MlpAdapter.MlpClassifierFactory(params)
    case MlpRegressor => MlpAdapter.MlpRegressorFactory(params)
  }
}
