/** ml_core/algorithms/deep/mlp_adapter.py: the MLP factories and the MLP parameter list. */
module MlpAdapter {
  import opened Wrappers
  import opened Types
  import opened PyDict
  import opened Hyperparameters
  import opened AlgorithmRegistry

  /** The layer sizes used when the caller gives none. */
  const DefaultHiddenDims: Value := VList([VInt(64), VInt(64)])

  /** `params = dict(params or {}); params.setdefault("hidden_dims", [64, 64])` */
  function MlpKwargs(params: Option<seq<(string, Value)>>): (r: seq<(string, Value)>)
  {
    SetDefault(OrEmpty(params), "hidden_dims", DefaultHiddenDims)
  }

  /** `mlp_classifier_factory` */
  function MlpClassifierFactory(params: Option<seq<(string, Value)>>): (e: Estimator)
    ensures e.cls == "MLPClassifier" && !e.scaled && e.kwargs == MlpKwargs(params)
  {
    Estimator("MLPClassifier", MlpKwargs(params), false)
  }

  /** `mlp_regressor_factory` */
  function MlpRegressorFactory(params: Option<seq<(string, Value)>>): (e: Estimator)
    ensures e.cls == "MLPRegressor" && !e.scaled && e.kwargs == MlpKwargs(params)
  {
    Estimator("MLPRegressor", MlpKwargs(params), false)
  }

  /** `hidden_dims` is always present, the user's when given; every other keyword is the user's. */
  lemma MlpKwargsGet(params: Option<seq<(string, Value)>>, k: string)
    requires params.Some? ==> DistinctKeys(params.value)
    ensures DistinctKeys(MlpKwargs(params))
    ensures "hidden_dims" in Keys(MlpKwargs(params))
    ensures Get(MlpKwargs(params), k)
         == if k == "hidden_dims" && "hidden_dims" !in Keys(OrEmpty(params)) then Some(DefaultHiddenDims)
            else Get(OrEmpty(params), k)
  {
    var p := OrEmpty(params);
    if "hidden_dims" !in Keys(p) {
      SetDistinct(p, "hidden_dims", DefaultHiddenDims);
      SetGet(p, "hidden_dims", DefaultHiddenDims, k);
      assert Keys(MlpKwargs(params)) == Keys(p) + ["hidden_dims"];
    }
  }

  const HiddenDims: Spec :=
    Spec(name := "hidden_dims", displayName := "Hidden layer sizes", ptype := IntList, default := DefaultHiddenDims,
      description := "List of hidden layer sizes, e.g. [64, 64] or [128, 64, 32].")

  const Activation: Spec :=
    Spec(name := "activation", displayName := "Activation function", ptype := Choice, default := VStr("relu"),
      choices := Some([VStr("relu"), VStr("tanh"), VStr("gelu")]),
      description := "Non-linear activation used between layers.")

  const Dropout: Spec :=
    Spec(name := "dropout", displayName := "Dropout", ptype := Float, default := VReal(0.0),
      min := Some(0.0), max := Some(0.8),
      description := "Dropout probability applied after each hidden layer.")

  const Lr: Spec :=
    Spec(name := "lr", displayName := "Learning rate", ptype := Float, default := VReal(0.001),
      min := Some(0.000001), max := Some(0.1),
      description := "Learning rate for the Adam optimizer.")

  const BatchSize: Spec :=
    Spec(name := "batch_size", displayName := "Batch size", ptype := Int, default := VInt(64),
      min := Some(1.0), max := Some(4096.0),
      description := "Mini-batch size used during training.")

  const MaxEpochs: Spec :=
    Spec(name := "max_epochs", displayName := "Max epochs", ptype := Int, default := VInt(100),
      min := Some(1.0), max := Some(10000.0),
      description := "Maximum number of training epochs.")

  const WeightDecay: Spec :=
    Spec(name := "weight_decay", displayName := "Weight decay (L2 regularization)", ptype := Float, default := VReal(0.0),
      min := Some(0.0), max := Some(1.0),
      description := "L2 weight decay used by the Adam optimizer.")

  /** `mlp_specs()` */
  const MlpSpecs: seq<Spec> := [HiddenDims, Activation, Dropout, Lr, BatchSize, MaxEpochs, WeightDecay]

  /** The seven names, in order, none repeated. */
  lemma MlpNames()
    ensures Names(MlpSpecs) == ["hidden_dims", "activation", "dropout", "lr", "batch_size", "max_epochs", "weight_decay"]
    ensures UniqueNames(MlpSpecs)
  {
  }

  /** Unique names; every default validates under the corrected check. */
  lemma MlpSpecsProperties()
    ensures Names(MlpSpecs) == ["hidden_dims", "activation", "dropout", "lr", "batch_size", "max_epochs", "weight_decay"]
    ensures UniqueNames(MlpSpecs)
    ensures forall i | 0 <= i < |MlpSpecs| :: ValidateValue(MlpSpecs[i], MlpSpecs[i].default) == Pass
  {
    MlpNames();
    PyInStr("relu", Activation.choices.value);
    assert ValidateValue(HiddenDims, HiddenDims.default) == Pass;
    assert ValidateValue(Activation, Activation.default) == Pass;
    assert ValidateValue(Dropout, Dropout.default) == Pass;
    assert ValidateValue(Lr, Lr.default) == Pass;
    assert ValidateValue(BatchSize, BatchSize.default) == Pass;
    assert ValidateValue(MaxEpochs, MaxEpochs.default) == Pass;
    assert ValidateValue(WeightDecay, WeightDecay.default) == Pass;
  }

  /** The as-written check rejects the very layer sizes the factory would default to. */
  lemma HiddenDimsRejectedAsWritten()
    ensures ValidateValueAsWritten(HiddenDims, DefaultHiddenDims) == Fail(UnsupportedParamType(IntList, "hidden_dims"))
    ensures ValidateValue(HiddenDims, DefaultHiddenDims) == Pass
  {
  }
}
