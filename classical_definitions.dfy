/**
  ml_core/algorithms/classical_algorithms/definitions.py: the SVM definition and its two
  variants. The random-forest, XGBoost and regression definitions the catalog imports from this
  module are not defined there; they are given here as the catalog needs them, one variant per
  family built from that algorithm's own factories and parameter lists.
*/
module ClassicalDefinitions {
  import opened Wrappers
  import opened Types
  import opened PyDict
  import opened StrOrder
  import opened Hyperparameters
  import opened AlgorithmRegistry
  import Svm
  import RandomForest
  import Xgboost
  import RegressionModels

  const SvmClassificationVariant: Variant := Variant(Classification, SvmClassifier, Svm.SvmBaseSpecs, "svc")

  const SvmRegressionVariant: Variant :=
    Variant(RegressionFamily, SvmRegressor, Svm.SvmBaseSpecs + Svm.SvmRegressionOnlySpecs, "svr")

  /** `SVM_DEFINITION` */
  const SvmDefinition: Definition :=
    Definition("svm", "Support Vector Machine", "classical",
      "Support Vector Machine classifier/regressor with various kernels.",
      [(Classification, SvmClassificationVariant), (RegressionFamily, SvmRegressionVariant)])

  /** Two variants keyed by their own family; regression adds `epsilon` after the base list. */
  lemma SvmDefinitionShape()
    ensures Keys(SvmDefinition.variants) == [Classification, RegressionFamily]
    ensures WellFormedDefinition(SvmDefinition)
    ensures GetVariant(SvmDefinition, Classification) == Success(SvmClassificationVariant)
    ensures GetVariant(SvmDefinition, RegressionFamily) == Success(SvmRegressionVariant)
    ensures Names(SvmClassificationVariant.hyperparams) == ["C", "kernel", "gamma"]
    ensures SvmRegressionVariant.hyperparams == SvmClassificationVariant.hyperparams + [Svm.SvmEpsilon]
  {
    TwoVariantLookup(SvmDefinition);
    Svm.SvmBaseNames();
    assert UniqueNames(SvmRegressionVariant.hyperparams);
  }

  /** The SVC parameter names, sorted. */
  lemma SvmNamesSorted()
    ensures Sorted(["C", "gamma", "kernel"])
    ensures multiset(["C", "kernel", "gamma"]) == multiset(["C", "gamma", "kernel"])
  {
  }

  /** The SVC variant does not know `epsilon`, and says which three names it does know. */
  lemma SvmClassificationRejectsEpsilon(v: Value)
    ensures ValidateForVariant(SvmClassificationVariant, [("epsilon", v)])
         == Failure(NotAllowed("epsilon", ["C", "gamma", "kernel"]))
  {
    Svm.SvmBaseNames();
    SvmNamesSorted();
    LoneUnknownRejected(Svm.SvmBaseSpecs, "epsilon", v, ["C", "gamma", "kernel"]);
  }

  /** The SVR variant accepts an in-range `epsilon` and `C` and returns them unchanged. */
  lemma SvmRegressionAcceptsEpsilonAndC(eps: real, c: real)
    requires 0.0 <= eps <= 10.0 && 0.0001 <= c <= 10000.0
    ensures ValidateForVariant(SvmRegressionVariant, [("epsilon", VReal(eps)), ("C", VReal(c))])
         == Success([("epsilon", VReal(eps)), ("C", VReal(c))])
  {
    var specs := SvmRegressionVariant.hyperparams;
    assert UniqueNames(specs);
    SpecsByNameGet(specs, 3);
    SpecsByNameGet(specs, 0);
    ValidateParamsAllPass(SpecsByName(specs), [("epsilon", VReal(eps)), ("C", VReal(c))]);
  }

  const RfClassificationVariant: Variant :=
    Variant(Classification, RfClassifier, RandomForest.RfBaseSpecs + RandomForest.RfClassificationSpecs, "rf_classifier")

  const RfRegressionVariant: Variant :=
    Variant(RegressionFamily, RfRegressor, RandomForest.RfBaseSpecs + RandomForest.RfRegressionSpecs, "rf_regressor")

  /** The random-forest definition the catalog imports as `RF_DEFINITION`. */
  const RfDefinition: Definition :=
    Definition("random_forest", "Random Forest", "classical",
      "Ensemble of decision trees for classification and regression.",
      [(Classification, RfClassificationVariant), (RegressionFamily, RfRegressionVariant)])

  const XgbClassificationVariant: Variant := Variant(Classification, XgbClassifier, Xgboost.XgbBaseSpecs, "xgb_classifier")

  const XgbRegressionVariant: Variant := Variant(RegressionFamily, XgbRegressor, Xgboost.XgbBaseSpecs, "xgb_regressor")

  /** The XGBoost definition the catalog imports as `XGB_DEFINITION`. */
  const XgbDefinition: Definition :=
    Definition("xgboost", "XGBoost", "classical",
      "Gradient boosting trees (XGBoost) for structured data.",
      [(Classification, XgbClassificationVariant), (RegressionFamily, XgbRegressionVariant)])

  const RegressionClassificationVariant: Variant :=
    Variant(Classification, RegressionClassifier, RegressionModels.RegressionClassificationSpecs, "logistic_regression")

  const RegressionRegressionVariant: Variant :=
    Variant(RegressionFamily, RegressionRegressor, RegressionModels.RegressionRegressionSpecs, "linear_regression")

  /** The logistic/linear regression definition the catalog imports as `REGRESSION_DEFINITION`. */
  const RegressionDefinition: Definition :=
    Definition("regression", "Logistic / Linear Regression", "classical",
      "LogisticRegression for classification, LinearRegression for regression.",
      [(Classification, RegressionClassificationVariant), (RegressionFamily, RegressionRegressionVariant)])

  /** One variant per family, each well formed. */
  lemma RfDefinitionShape()
    ensures WellFormedDefinition(RfDefinition)
    ensures Keys(RfDefinition.variants) == [Classification, RegressionFamily]
  {
    assert Keys(RfDefinition.variants) == [Classification, RegressionFamily];
    assert UniqueNames(RfClassificationVariant.hyperparams);
    assert UniqueNames(RfRegressionVariant.hyperparams);
  }

  lemma XgbDefinitionShape()
    ensures WellFormedDefinition(XgbDefinition)
    ensures Keys(XgbDefinition.variants) == [Classification, RegressionFamily]
  {
    assert Keys(XgbDefinition.variants) == [Classification, RegressionFamily];
    Xgboost.XgbBaseSpecsProperties();
  }

  lemma RegressionDefinitionShape()
    ensures WellFormedDefinition(RegressionDefinition)
    ensures Keys(RegressionDefinition.variants) == [Classification, RegressionFamily]
  {
    assert Keys(RegressionDefinition.variants) == [Classification, RegressionFamily];
    RegressionModels.RegressionSpecsProperties();
  }

  /** The random-forest classifier rejects the retired `"auto"` strategy for `max_features`. */
  lemma RfRejectsAuto()
    ensures ValidateForVariant(RfClassificationVariant, [("max_features", VStr("auto"))])
         == Failure(NotOneOfOrNumeric("max_features", VStr("auto"), [VStr("sqrt"), VStr("log2")]))
  {
    var specs := RfClassificationVariant.hyperparams;
    assert UniqueNames(specs);
    SpecsByNameGet(specs, 4);
    RandomForest.MaxFeaturesVerdict(VStr("auto"));
  }

  /** A learning rate above 1.0 is rejected by either XGBoost variant, naming `learning_rate`. */
  lemma XgbRejectsLearningRateAboveMax(x: real)
    requires x > 1.0
    ensures ValidateForVariant(XgbClassificationVariant, [("learning_rate", VReal(x))])
         == Failure(AboveMaximum("learning_rate", VReal(x), 1.0))
    ensures ValidateForVariant(XgbRegressionVariant, [("learning_rate", VReal(x))])
         == Failure(AboveMaximum("learning_rate", VReal(x), 1.0))
  {
    Xgboost.XgbNames();
    SpecsByNameGet(Xgboost.XgbBaseSpecs, 1);
    Xgboost.LearningRateAboveMaximum(x);
  }

  /** Linear regression does not know `C`: only `fit_intercept` is listed. */
  lemma RegressionRejectsC(v: Value)
    ensures ValidateForVariant(RegressionRegressionVariant, [("C", v)])
         == Failure(NotAllowed("C", ["fit_intercept"]))
  {
    RegressionModels.RegressionSpecsProperties();
    LoneUnknownRejected(RegressionModels.RegressionRegressionSpecs, "C", v, ["fit_intercept"]);
  }
}
