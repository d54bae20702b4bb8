/**
  ml_core/algorithms/classical_algorithms/regression.py: logistic regression for classification,
  linear regression for regression, and the parameters each exposes.
*/
module RegressionModels {
  import opened Wrappers
  import opened Types
  import opened PyDict
  import opened Hyperparameters
  import opened AlgorithmRegistry

  /** The keyword arguments `regression_classifier_factory` supplies before the user's. */
  const ClassifierDefaults: seq<(string, Value)> := [("max_iter", VInt(1000)), ("solver", VStr("saga"))]

  /** `regression_classifier_factory`: `LogisticRegression(max_iter=1000, solver="saga", **params)`. */
  function RegressionClassifierFactory(params: Option<seq<(string, Value)>>): (e: Estimator)
    ensures e.cls == "LogisticRegression" && !e.scaled
  {
    Estimator("LogisticRegression", Merge(ClassifierDefaults, OrEmpty(params)), false)
  }

  /** `regression_regressor_factory`: `LinearRegression(**(params or {}))`. */
  function RegressionRegressorFactory(params: Option<seq<(string, Value)>>): (e: Estimator)
    ensures e.cls == "LinearRegression" && !e.scaled
  {
    Estimator("LinearRegression", Merge([], OrEmpty(params)), false)
  }

  /** `max_iter=1000` and `solver="saga"` unless the user overrides them; the rest is the user's. */
  lemma ClassifierKwargs(params: Option<seq<(string, Value)>>, k: string)
    requires params.Some? ==> DistinctKeys(params.value)
    ensures DistinctKeys(RegressionClassifierFactory(params).kwargs)
    ensures Get(RegressionClassifierFactory(params).kwargs, k)
         == if k in Keys(OrEmpty(params)) then Get(OrEmpty(params), k)
            else if k == "max_iter" then Some(VInt(1000))
            else if k == "solver" then Some(VStr("saga"))
            else None
  {
    ClassifierDefaultsGet(k);
    DefaultsOverridden(ClassifierDefaults, params, k);
  }

  /** The two defaults, each under its own keyword. */
  lemma ClassifierDefaultsGet(k: string)
    ensures DistinctKeys(ClassifierDefaults)
    ensures Get(ClassifierDefaults, k)
         == if k == "max_iter" then Some(VInt(1000)) else if k == "solver" then Some(VStr("saga")) else None
  {
    assert Keys(ClassifierDefaults) == ["max_iter", "solver"];
    GetDistinct(ClassifierDefaults, 0);
    GetDistinct(ClassifierDefaults, 1);
  }

  /** The linear regressor gets exactly the user's parameters. */
  lemma RegressorKwargs(params: Option<seq<(string, Value)>>)
    requires params.Some? ==> DistinctKeys(params.value)
    ensures RegressionRegressorFactory(params).kwargs == OrEmpty(params)
  {
    assert [] + OrEmpty(params) == OrEmpty(params);
    MergeFresh([], OrEmpty(params));
  }

  const LogisticC: Spec :=
    Spec(name := "C", displayName := "C (Inverse regularization strength)", ptype := Float, default := VReal(1.0),
      min := Some(0.0001), max := Some(10000.0),
      description := "Inverse of regularization strength for LogisticRegression. Smaller values specify stronger regularization.")

  /** `l1_ratio`: its description says `[0, 1]`, but no bound is declared. */
  const L1Ratio: Spec :=
    Spec(name := "l1_ratio", displayName := "l1 ratio", ptype := Float, default := VReal(0.0),
      description := "The Elastic-Net mixing parameter, with 0 <= l1_ratio <= 1. Setting l1_ratio=1 gives a pure L1-penalty, setting l1_ratio=0 a pure L2-penalty. Any value between 0 and 1 gives an Elastic-Net penalty of the form l1_ratio * L1 + (1 - l1_ratio) * L2")

  const LogisticFitIntercept: Spec :=
    Spec(name := "fit_intercept", displayName := "Fit intercept", ptype := Bool, default := VBool(true),
      description := "Specifies if a constant (a.k.a. bias or intercept) should be added to the decision function.")

  const LinearFitIntercept: Spec :=
    Spec(name := "fit_intercept", displayName := "Fit intercept", ptype := Bool, default := VBool(true),
      description := "Whether to calculate the intercept for this model. If set to False, no intercept will be used in calculations (i.e. data is expected to be centered).")

  /** `regression_classification_specs()` */
  const RegressionClassificationSpecs: seq<Spec> := [LogisticC, L1Ratio, LogisticFitIntercept]

  /** `regression_regression_specs()` */
  const RegressionRegressionSpecs: seq<Spec> := [LinearFitIntercept]

  /** Names and defaults of both lists; linear regression exposes no `C`. */
  lemma RegressionSpecsProperties()
    ensures Names(RegressionClassificationSpecs) == ["C", "l1_ratio", "fit_intercept"]
    ensures UniqueNames(RegressionClassificationSpecs)
    ensures Names(RegressionRegressionSpecs) == ["fit_intercept"]
    ensures forall s | s in RegressionClassificationSpecs + RegressionRegressionSpecs :: ValidateValue(s, s.default) == Pass
  {
  }

  /** Any number, however far outside `[0, 1]`, passes the unbounded `l1_ratio`. */
  lemma L1RatioUnbounded(v: Value)
    ensures ValidateValue(L1Ratio, v) == Pass <==> IsNumber(v)
  {
  }

  /** `fit_intercept` takes booleans only, in both variants. */
  lemma FitInterceptBoolOnly(v: Value)
    ensures ValidateValue(LogisticFitIntercept, v) == Pass <==> v.VBool?
    ensures ValidateValue(LinearFitIntercept, v) == Pass <==> v.VBool?
    ensures !v.VBool? ==> ValidateValue(LinearFitIntercept, v) == Fail(NotABoolean("fit_intercept"))
  {
  }
}
