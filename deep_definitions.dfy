/** ml_core/algorithms/deep/definitions.py: the MLP definition and its two variants. */
module DeepDefinitions {
  import opened Wrappers
  import opened Types
  import opened PyDict
  import opened Hyperparameters
  import opened AlgorithmRegistry
  import opened Factories
  import MlpAdapter

  const MlpClassificationVariant: Variant := Variant(Classification, MlpClassifier, MlpAdapter.MlpSpecs, "mlp_classifier")

  const MlpRegressionVariant: Variant := Variant(RegressionFamily, MlpRegressor, MlpAdapter.MlpSpecs, "mlp_regressor")

  /** `MLP_DEFINITION` */
  const MlpDefinition: Definition :=
    Definition("mlp", "Neural Network (MLP, PyTorch)", "deep", "Torch-based MLP with sklearn-like API.",
      [(Classification, MlpClassificationVariant), (RegressionFamily, MlpRegressionVariant)])

  /** Code `mlp`, kind `deep`, two variants keyed by family whose parameter names agree. */
  lemma MlpDefinitionShape()
    ensures MlpDefinition.code == "mlp" && MlpDefinition.kind == "deep"
    ensures Keys(MlpDefinition.variants) == [Classification, RegressionFamily]
    ensures WellFormedDefinition(MlpDefinition)
    ensures GetVariant(MlpDefinition, Classification) == Success(MlpClassificationVariant)
    ensures GetVariant(MlpDefinition, RegressionFamily) == Success(MlpRegressionVariant)
    ensures Names(MlpClassificationVariant.hyperparams) == Names(MlpRegressionVariant.hyperparams)
  {
    TwoVariantLookup(MlpDefinition);
    MlpAdapter.MlpNames();
  }

  /** The classification variant builds an `MLPClassifier` with the default layer sizes added. */
  lemma MlpClassifierBuilt()
    ensures var e := Build(MlpClassificationVariant.factory, Some([("max_epochs", VInt(1))]));
            e.cls == "MLPClassifier" &&
            e.kwargs == [("max_epochs", VInt(1)), ("hidden_dims", MlpAdapter.DefaultHiddenDims)]
  {
    assert Keys([("max_epochs", VInt(1))]) == ["max_epochs"];
  }

  /**
    Through the variant, the as-written value check rejects every `hidden_dims` the user might
    give, while the corrected check passes a list of integers back unchanged and rejects
    anything else, naming the parameter.
  */
  lemma HiddenDimsThroughVariant(dims: Value)
    ensures ValidateValueAsWritten(MlpAdapter.HiddenDims, dims).Fail?
    ensures IsIntList(dims) ==>
              ValidateForVariant(MlpClassificationVariant, [("hidden_dims", dims)]) == Success([("hidden_dims", dims)])
    ensures !IsIntList(dims) ==>
              ValidateForVariant(MlpClassificationVariant, [("hidden_dims", dims)]) == Failure(NotAnIntList("hidden_dims"))
  {
    MlpAdapter.MlpNames();
    SpecsByNameGet(MlpAdapter.MlpSpecs, 0);
    if IsIntList(dims) {
      ValidateParamsAllPass(SpecsByName(MlpAdapter.MlpSpecs), [("hidden_dims", dims)]);
    }
  }

  /** A layer-size value that is no list, as a string or a number, is rejected for the MLP. */
  lemma HiddenDimsNonListRejected(dims: Value)
    requires !dims.VList?
    ensures ValidateForVariant(MlpClassificationVariant, [("hidden_dims", dims)]) == Failure(NotAnIntList("hidden_dims"))
    ensures ValidateForVariant(MlpRegressionVariant, [("hidden_dims", dims)]) == Failure(NotAnIntList("hidden_dims"))
  {
    HiddenDimsThroughVariant(dims);
    MlpAdapter.MlpNames();
    SpecsByNameGet(MlpAdapter.MlpSpecs, 0);
  }
}
