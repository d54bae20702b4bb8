/**
  ml_core/algorithms/registry.py: the legacy list of algorithm metadata and its export with the
  full specification list of each algorithm from the legacy table.
*/
module LegacyRegistry {
  import opened Wrappers
  import opened Types
  import opened PyDict
  import opened StrOrder
  import opened Hyperparameters
  import opened HparamSpecs

  /** `AlgorithmMeta` */
  datatype AlgorithmMeta = AlgorithmMeta(code: string, name: string, kind: string, description: string := "")

  /** `ALGORITHMS` */
  const Metas: seq<AlgorithmMeta> := [
    AlgorithmMeta("svm", "Support Vector Machine", "classical",
      "Support Vector Machine classifier/regressor with various kernels."),
    AlgorithmMeta("random_forest", "Random Forest", "classical",
      "Ensemble of decision trees for classification and regression."),
    AlgorithmMeta("xgboost", "XGBoost", "classical",
      "Gradient boosting trees (XGBoost) for structured data."),
    AlgorithmMeta("regression", "Logistic / Linear Regression", "classical",
      "LogisticRegression for classification, LinearRegression for regression."),
    AlgorithmMeta("mlp", "Neural Network (MLP, PyTorch)", "deep",
      "Fully-connected neural network implemented in PyTorch.")
  ]

  /** One exported entry: the metadata and the JSON form of the algorithm's specifications. */
  datatype MetaEntry = MetaEntry(
    code: string, name: string, kind: string, description: string,
    hyperparameterSpecs: seq<seq<(string, Value)>>)

  /** The specification lookup `get_all_algorithms_meta` calls for each code. */
  type SpecLookup = string -> Result<seq<seq<(string, Value)>>, Error>

  /** The lookup the module makes: the whole legacy table, unfiltered, as JSON forms. */
  function LegacyLookup(code: string): Result<seq<seq<(string, Value)>>, Error>
  {
    GetHyperparameterSpecsAsDicts(code, None)
  }

  /** `e` copies the metadata `m` and carries what the lookup returns for `m.code`. */
  predicate EntryFor(lookup: SpecLookup, m: AlgorithmMeta, e: MetaEntry)
  {
    e.code == m.code && e.name == m.name && e.kind == m.kind && e.description == m.description &&
    lookup(m.code) == Success(e.hyperparameterSpecs)
  }

  /** The lookup succeeds on every code of `metas`. */
  predicate AllKnown(lookup: SpecLookup, metas: seq<AlgorithmMeta>)
  {
    forall i | 0 <= i < |metas| :: lookup(metas[i].code).Success?
  }

  /**
    `get_all_algorithms_meta`, with the module's `ALGORITHMS` list as `metas` and `LegacyLookup`
    as `lookup`: one entry per metadata record, in order, or the error of the first lookup that
    raises.
  */
  method GetAllAlgorithmsMeta(lookup: SpecLookup, metas: seq<AlgorithmMeta>)
    returns (r: Result<seq<MetaEntry>, Error>)
    ensures r.Success? <==> AllKnown(lookup, metas)
    ensures r.Success? ==> |r.value| == |metas|
    ensures r.Success? ==> forall i | 0 <= i < |metas| :: EntryFor(lookup, metas[i], r.value[i])
    ensures r.Failure? ==> exists i | 0 <= i < |metas| ::
      AllKnown(lookup, metas[..i]) && lookup(metas[i].code) == Failure(r.error)
  {
    var result: seq<MetaEntry> := [];
    var i := 0;
    while i < |metas|
      invariant 0 <= i <= |metas|
      invariant |result| == i
      invariant AllKnown(lookup, metas[..i])
      invariant forall k | 0 <= k < i :: EntryFor(lookup, metas[k], result[k])
    {
      var alg := metas[i];
      var hparamSpecs := lookup(alg.code);
      if hparamSpecs.Failure? {
        return Failure(hparamSpecs.error);
      }
      result := result + [MetaEntry(alg.code, alg.name, alg.kind, alg.description, hparamSpecs.value)];
      assert metas[..i + 1] == metas[..i] + [alg];
      i := i + 1;
    }
    assert metas[..i] == metas;
    return Success(result);
  }

  /** Every code of the metadata list is in the legacy table, so the export never raises. */
  lemma MetasKnown()
    ensures AllKnown(LegacyLookup, Metas)
  {
    forall i | 0 <= i < |Metas| ensures LegacyLookup(Metas[i].code).Success? {
      KnownAsDicts(Metas[i].code, None);
    }
  }

  /** A code outside the table makes the lookup raise with the sorted list of known codes. */
  lemma UnknownCodeRaises(code: string)
    requires code !in Keys(AlgorithmHparams)
    ensures LegacyLookup(code) == Failure(UnknownAlgorithm(code, Sort(Keys(AlgorithmHparams))))
  {
  }

  /**
    An entry's specifications are the whole, unfiltered list of its algorithm, in the table's
    order: each decodes back to the table's specification at the same position.
  */
  lemma EntrySpecsUnfiltered(m: AlgorithmMeta, e: MetaEntry, k: nat)
    requires EntryFor(LegacyLookup, m, e) && k < |e.hyperparameterSpecs|
    ensures m.code in Keys(AlgorithmHparams)
    ensures |e.hyperparameterSpecs| == |Get(AlgorithmHparams, m.code).value|
    ensures SpecFromDict(e.hyperparameterSpecs[k]) == Some(Get(AlgorithmHparams, m.code).value[k])
  {
  }
}
