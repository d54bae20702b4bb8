/** ml_core/algorithms/classical_algorithms/svm.py: SVC/SVR factories and the SVM parameter lists. */
module Svm {
  import opened Wrappers
  import opened Types
  import opened PyDict
  import opened Hyperparameters
  import opened AlgorithmRegistry

  /** The keyword arguments `svm_classifier_factory` passes to `SVC`. */
  const ClassifierDefaults: seq<(string, Value)> := [("probability", VBool(true))]

  /** `svm_classifier_factory`: `SVC(probability=True, **params)` behind a scaler. */
  function SvmClassifierFactory(params: Option<seq<(string, Value)>>): (e: Estimator)
    ensures e.cls == "SVC" && e.scaled
  {
    Estimator("SVC", Merge(ClassifierDefaults, OrEmpty(params)), true)
  }

  /** `svm_regressor_factory`: `SVR(**params)` behind a scaler. */
  function SvmRegressorFactory(params: Option<seq<(string, Value)>>): (e: Estimator)
    ensures e.cls == "SVR" && e.scaled
  {
    Estimator("SVR", Merge([], OrEmpty(params)), true)
  }

  /** `probability` is true unless the user sets it; every other keyword is the user's. */
  lemma ClassifierKwargs(params: Option<seq<(string, Value)>>, k: string)
    requires params.Some? ==> DistinctKeys(params.value)
    ensures DistinctKeys(SvmClassifierFactory(params).kwargs)
    ensures Get(SvmClassifierFactory(params).kwargs, k)
         == if k in Keys(OrEmpty(params)) then Get(OrEmpty(params), k)
            else if k == "probability" then Some(VBool(true))
            else None
  {
    DefaultsOverridden(ClassifierDefaults, params, k);
    assert Keys(ClassifierDefaults) == ["probability"];
    GetDistinct(ClassifierDefaults, 0);
  }

  /** The regressor is given exactly the user's parameters, none when there are none. */
  lemma RegressorKwargs(params: Option<seq<(string, Value)>>)
    requires params.Some? ==> DistinctKeys(params.value)
    ensures SvmRegressorFactory(params).kwargs == OrEmpty(params)
  {
    assert [] + OrEmpty(params) == OrEmpty(params);
    MergeFresh([], OrEmpty(params));
  }

  const SvmC: Spec :=
    Spec(name := "C", displayName := "C (Regularization strength)", ptype := Float, default := VReal(1.0),
      min := Some(0.0001), max := Some(10000.0),
      description := "Inverse of regularization strength for SVM. Smaller values specify stronger regularization.")

  const SvmKernel: Spec :=
    Spec(name := "kernel", displayName := "Kernel", ptype := Choice, default := VStr("rbf"),
      choices := Some([VStr("linear"), VStr("rbf"), VStr("poly"), VStr("sigmoid")]),
      description := "Kernel type used by SVM.")

  const SvmGamma: Spec :=
    Spec(name := "gamma", displayName := "Gamma", ptype := NumberOrString, default := VStr("scale"),
      min := Some(0.000001), max := Some(1000.0), choices := Some([VStr("scale"), VStr("auto")]),
      description := "Kernel coefficient for rbf/poly/sigmoid.")

  const SvmEpsilon: Spec :=
    Spec(name := "epsilon", displayName := "Epsilon (SVR only)", ptype := Float, default := VReal(0.1),
      min := Some(0.0), max := Some(10.0),
      description := "Epsilon-tube width used in SVR loss.")

  /** `svm_base_specs()` */
  const SvmBaseSpecs: seq<Spec> := [SvmC, SvmKernel, SvmGamma]

  /** `svm_regression_only_specs()` */
  const SvmRegressionOnlySpecs: seq<Spec> := [SvmEpsilon]

  /** The base parameters are `C`, `kernel` and `gamma`, in that order. */
  lemma SvmBaseNames()
    ensures Names(SvmBaseSpecs) == ["C", "kernel", "gamma"] && UniqueNames(SvmBaseSpecs)
  {
  }

  /** The base parameters: unique names, ordered bounds, and defaults that validate. */
  lemma SvmBaseSpecsProperties()
    ensures Names(SvmBaseSpecs) == ["C", "kernel", "gamma"] && UniqueNames(SvmBaseSpecs)
    ensures SvmC.min.value <= SvmC.max.value && SvmGamma.min.value <= SvmGamma.max.value
    ensures SvmKernel.choices == Some([VStr("linear"), VStr("rbf"), VStr("poly"), VStr("sigmoid")])
    ensures ValidateValue(SvmKernel, SvmKernel.default) == Pass
    ensures ValidateValue(SvmGamma, SvmGamma.default) == Pass
    ensures ValidateValue(SvmC, SvmC.default) == Pass
  {
    PyInStr("rbf", SvmKernel.choices.value);
    PyInStr("scale", SvmGamma.choices.value);
  }

  /** `epsilon` is a float in `[0, 10]` whose default `0.1` validates. */
  lemma SvmEpsilonProperties()
    ensures SvmEpsilon.ptype == Float && SvmEpsilon.min == Some(0.0) && SvmEpsilon.max == Some(10.0)
    ensures ValidateValue(SvmEpsilon, SvmEpsilon.default) == Pass
  {
  }
}
