/** ml_core/algorithms/classical_algorithms/xgboost.py: XGBoost factories and their shared parameter list. */
module Xgboost {
  import opened Wrappers
  import opened Types
  import opened PyDict
  import opened Hyperparameters
  import opened AlgorithmRegistry

  /** `xgb_classifier_factory`: `XGBClassifier(**(params or {}))`. */
  function XgbClassifierFactory(params: Option<seq<(string, Value)>>): (e: Estimator)
    ensures e.cls == "XGBClassifier" && !e.scaled
  {
    Estimator("XGBClassifier", Merge([], OrEmpty(params)), false)
  }

  /** `xgb_regressor_factory`: `XGBRegressor(**(params or {}))`. */
  function XgbRegressorFactory(params: Option<seq<(string, Value)>>): (e: Estimator)
    ensures e.cls == "XGBRegressor" && !e.scaled
  {
    Estimator("XGBRegressor", Merge([], OrEmpty(params)), false)
  }

  /** Both factories pass the user's parameters through unchanged. */
  lemma FactoriesPassThrough(params: Option<seq<(string, Value)>>)
    requires params.Some? ==> DistinctKeys(params.value)
    ensures XgbClassifierFactory(params).kwargs == OrEmpty(params)
    ensures XgbRegressorFactory(params).kwargs == OrEmpty(params)
  {
    assert [] + OrEmpty(params) == OrEmpty(params);
    MergeFresh([], OrEmpty(params));
  }

  const NEstimators: Spec :=
    Spec(name := "n_estimators", displayName := "Number of trees", ptype := Int, default := VInt(100),
      min := Some(10.0), max := Some(3000.0),
      description := "Number of boosting stages (trees) to fit.")

  const LearningRate: Spec :=
    Spec(name := "learning_rate", displayName := "Learning rate", ptype := Float, default := VReal(0.3),
      min := Some(0.0001), max := Some(1.0),
      description := "Shrinkage factor applied to each tree's contribution. Smaller values require more trees but can lead to better generalization.")

  const MaxDepth: Spec :=
    Spec(name := "max_depth", displayName := "Max tree depth", ptype := Int, default := VInt(6),
      min := Some(1.0), max := Some(20.0),
      description := "Maximum depth of individual trees.")

  const Subsample: Spec :=
    Spec(name := "subsample", displayName := "Subsample", ptype := Float, default := VReal(1.0),
      min := Some(0.1), max := Some(1.0),
      description := "Subsample ratio of the training instances. Values < 1.0 act as row-wise subsampling and can reduce overfitting.")

  const ColsampleBytree: Spec :=
    Spec(name := "colsample_bytree", displayName := "Column subsample (by tree)", ptype := Float, default := VReal(1.0),
      min := Some(0.1), max := Some(1.0),
      description := "Subsample ratio of columns when constructing each tree. Acts as feature subsampling and can reduce overfitting.")

  const RegLambda: Spec :=
    Spec(name := "reg_lambda", displayName := "L2 regularization (lambda)", ptype := Float, default := VReal(1.0),
      min := Some(0.0), max := Some(100.0),
      description := "L2 regularization term on weights.")

  const RegAlpha: Spec :=
    Spec(name := "reg_alpha", displayName := "L1 regularization (alpha)", ptype := Float, default := VReal(0.0),
      min := Some(0.0), max := Some(100.0),
      description := "L1 regularization term on weights.")

  /** `xgb_base_specs()` */
  const XgbBaseSpecs: seq<Spec> :=
    [NEstimators, LearningRate, MaxDepth, Subsample, ColsampleBytree, RegLambda, RegAlpha]

  /** The seven names, none repeated. */
  lemma XgbNames()
    ensures Names(XgbBaseSpecs)
         == ["n_estimators", "learning_rate", "max_depth", "subsample", "colsample_bytree", "reg_lambda", "reg_alpha"]
    ensures UniqueNames(XgbBaseSpecs)
  {
  }

  /**
    Every XGBoost parameter is numeric with both bounds set, lower below upper, and its default
    within them; no parameter is tied to a task type, so the variant alone decides where it applies.
  */
  lemma XgbBaseSpecsProperties()
    ensures UniqueNames(XgbBaseSpecs)
    ensures forall s | s in XgbBaseSpecs ::
      (s.ptype == Int || s.ptype == Float) && s.min.Some? && s.max.Some? && s.min.value <= s.max.value &&
      s.applicableTasks.None? && ValidateValue(s, s.default) == Pass
  {
  }

  /** A learning rate above 1.0 is reported against the maximum. */
  lemma LearningRateAboveMaximum(x: real)
    requires x > 1.0
    ensures ValidateValue(LearningRate, VReal(x)) == Fail(AboveMaximum("learning_rate", VReal(x), 1.0))
  {
    NumericVerdict(LearningRate, VReal(x));
  }

  /** Without task types the JSON form carries `applicable_tasks: null`. */
  lemma NoApplicableTasksInJson(i: nat)
    requires i < |XgbBaseSpecs|
    ensures Get(ToDict(XgbBaseSpecs[i]), "applicable_tasks") == Some(VNull)
  {
    var d := ToDict(XgbBaseSpecs[i]);
    assert d[8].0 == "applicable_tasks";
    GetDistinct(d, 8);
  }
}
