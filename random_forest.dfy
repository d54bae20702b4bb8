/**
  ml_core/algorithms/classical_algorithms/random_forest.py: random-forest factories and the
  parameter lists shared by, and particular to, its two variants.
*/
module RandomForest {
  import opened Wrappers
  import opened Types
  import opened PyDict
  import opened Hyperparameters
  import opened AlgorithmRegistry

  /** `rf_classifier_factory`: `RandomForestClassifier(**(params or {}))`. */
  function RfClassifierFactory(params: Option<seq<(string, Value)>>): (e: Estimator)
    ensures e.cls == "RandomForestClassifier" && !e.scaled
  {
    Estimator("RandomForestClassifier", Merge([], OrEmpty(params)), false)
  }

  /** `rf_regressor_factory`: `RandomForestRegressor(**(params or {}))`. */
  function RfRegressorFactory(params: Option<seq<(string, Value)>>): (e: Estimator)
    ensures e.cls == "RandomForestRegressor" && !e.scaled
  {
    Estimator("RandomForestRegressor", Merge([], OrEmpty(params)), false)
  }

  /** Both factories pass the user's parameters through unchanged, and none when there are none. */
  lemma FactoriesPassThrough(params: Option<seq<(string, Value)>>)
    requires params.Some? ==> DistinctKeys(params.value)
    ensures RfClassifierFactory(params).kwargs == OrEmpty(params)
    ensures RfRegressorFactory(params).kwargs == OrEmpty(params)
    ensures params.None? ==> RfClassifierFactory(params).kwargs == []
  {
    assert [] + OrEmpty(params) == OrEmpty(params);
    MergeFresh([], OrEmpty(params));
  }

  const NEstimators: Spec :=
    Spec(name := "n_estimators", displayName := "Number of trees", ptype := Int, default := VInt(100),
      min := Some(10.0), max := Some(2000.0),
      description := "The number of trees in the forest.")

  /** `max_depth`: its default `None` marks a tree grown until its leaves are pure. */
  const MaxDepth: Spec :=
    Spec(name := "max_depth", displayName := "Max tree depth", ptype := Int, default := VNull,
      min := Some(1.0), max := Some(50.0),
      description := "The maximum depth of each tree. If None, nodes are expanded until all leaves are pure or contain fewer samples than min_samples_split.")

  const MinSamplesSplit: Spec :=
    Spec(name := "min_samples_split", displayName := "Min samples split", ptype := Int, default := VInt(2),
      min := Some(2.0), max := Some(100.0),
      description := "The minimum number of samples required to split an internal node.")

  const MinSamplesLeaf: Spec :=
    Spec(name := "min_samples_leaf", displayName := "Min samples leaf", ptype := Int, default := VInt(1),
      min := Some(1.0), max := Some(100.0),
      description := "The minimum number of samples required to be at a leaf node.")

  /** `max_features`: any number, or one of two strategy names; `"auto"` is no longer one of them. */
  const MaxFeatures: Spec :=
    Spec(name := "max_features", displayName := "Max features", ptype := NumberOrString, default := VReal(1.0),
      choices := Some([VStr("sqrt"), VStr("log2")]),
      description := "The number of features to consider when looking for the best split. Can be an integer, float (fraction), or one of: 'sqrt', 'log2'.")

  const ClassificationCriterion: Spec :=
    Spec(name := "criterion", displayName := "Criterion", ptype := Choice, default := VStr("gini"),
      choices := Some([VStr("gini"), VStr("entropy"), VStr("log_loss")]),
      description := "The function to measure the quality of a split.")

  const RegressionCriterion: Spec :=
    Spec(name := "criterion", displayName := "Criterion", ptype := Choice, default := VStr("squared_error"),
      choices := Some([VStr("squared_error"), VStr("absolute_error"), VStr("friedman_mse"), VStr("poisson")]),
      description := "The function to measure the quality of a split.")

  /**
    `rf_base_specs()` as written: `max_depth` is built with a `nullable=True` keyword the
    dataclass does not declare, so the call raises before any list is returned.
  */
  function RfBaseSpecsAsWritten(): (r: Result<seq<Spec>, Error>)
  {
    var maxDepth :- Construct(MaxDepth, ["nullable"]);
    Success([NEstimators, maxDepth, MinSamplesSplit, MinSamplesLeaf, MaxFeatures])
  }

  /** The as-written list cannot be built: calling `rf_base_specs()` raises `TypeError`. */
  lemma RfBaseSpecsAsWrittenRaises()
    ensures RfBaseSpecsAsWritten() == Failure(UnexpectedKeyword("nullable"))
  {
    assert "nullable" != "name" && "nullable" != "min";
  }

  /** `rf_base_specs()` without the undeclared keyword. */
  const RfBaseSpecs: seq<Spec> := [NEstimators, MaxDepth, MinSamplesSplit, MinSamplesLeaf, MaxFeatures]

  /** Without the keyword the constructor succeeds and yields the intended list. */
  lemma RfBaseSpecsCorrected()
    ensures forall s | s in RfBaseSpecs :: Construct(s, []) == Success(s)
    ensures Names(RfBaseSpecs) == ["n_estimators", "max_depth", "min_samples_split", "min_samples_leaf", "max_features"]
    ensures UniqueNames(RfBaseSpecs)
  {
  }

  /** `rf_classification_specs()` */
  const RfClassificationSpecs: seq<Spec> := [ClassificationCriterion]

  /** `rf_regression_specs()` */
  const RfRegressionSpecs: seq<Spec> := [RegressionCriterion]

  /** The two criteria share a name but no value: a criterion valid for one family fails the other. */
  lemma CriteriaDisjoint(v: Value)
    ensures !(ValidateValue(ClassificationCriterion, v).Pass? && ValidateValue(RegressionCriterion, v).Pass?)
    ensures ClassificationCriterion.name == RegressionCriterion.name
  {
    if ValidateValue(ClassificationCriterion, v).Pass? {
      var i :| 0 <= i < 3 && PyEq(v, ClassificationCriterion.choices.value[i]);
      assert v.VStr?;
    }
  }

  /** `max_features` accepts every number and exactly the two strategy names among strings. */
  lemma MaxFeaturesVerdict(v: Value)
    ensures IsNumber(v) ==> ValidateValue(MaxFeatures, v) == Pass
    ensures v.VStr? ==> (ValidateValue(MaxFeatures, v) == Pass <==> v.s == "sqrt" || v.s == "log2")
    ensures ValidateValue(MaxFeatures, VStr("auto")) ==
              Fail(NotOneOfOrNumeric("max_features", VStr("auto"), [VStr("sqrt"), VStr("log2")]))
  {
    if v.VStr? {
      PyInStr(v.s, MaxFeatures.choices.value);
    }
    PyInStr("auto", MaxFeatures.choices.value);
  }

  /**
    As written, the `max_depth` default `None` is not a number, so checking it fails; with the
    corrected check it passes, and so does every other default.
  */
  lemma DefaultsVerdict()
    ensures ValidateValueAsWritten(MaxDepth, MaxDepth.default) == Fail(NotANumber("max_depth"))
    ensures ValidateValue(MaxDepth, MaxDepth.default) == Pass
    ensures forall s | s in [NEstimators, MinSamplesSplit, MinSamplesLeaf, MaxFeatures] :: ValidateValue(s, s.default) == Pass
    ensures ValidateValue(ClassificationCriterion, ClassificationCriterion.default) == Pass
    ensures ValidateValue(RegressionCriterion, RegressionCriterion.default) == Pass
  {
    NumericDefaultsPass();
    CriterionDefaultsPass();
  }

  /** Each numeric default lies within its own bounds. */
  lemma NumericDefaultsPass()
    ensures ValidateValue(NEstimators, NEstimators.default) == Pass
    ensures ValidateValue(MinSamplesSplit, MinSamplesSplit.default) == Pass
    ensures ValidateValue(MinSamplesLeaf, MinSamplesLeaf.default) == Pass
    ensures ValidateValue(MaxFeatures, MaxFeatures.default) == Pass
  {
  }

  /** Each criterion default is one of its own choices. */
  lemma CriterionDefaultsPass()
    ensures ValidateValue(ClassificationCriterion, ClassificationCriterion.default) == Pass
    ensures ValidateValue(RegressionCriterion, RegressionCriterion.default) == Pass
  {
    PyInStr("gini", ClassificationCriterion.choices.value);
    PyInStr("squared_error", RegressionCriterion.choices.value);
  }
}
