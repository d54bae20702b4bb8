/**
  ml_core/algorithms/catalog.py: the registry of algorithm definitions keyed by code, the lookup
  by code, and the export of every algorithm and variant as plain JSON-friendly records.
*/
module Catalog {
  import opened Wrappers
  import opened Types
  import opened PyDict
  import opened StrOrder
  import opened Hyperparameters
  import opened AlgorithmRegistry
  import opened ClassicalDefinitions
  import opened DeepDefinitions

  // ---------- the imports ----------

  /** The module-level names `classical_algorithms/definitions.py` defines as written. */
  const ClassicalDefinitionNames: seq<string> := ["SVM_DEFINITION"]

  /** The module-level names `deep/definitions.py` defines. */
  const DeepDefinitionNames: seq<string> := ["MLP_DEFINITION"]

  /** `from module import n1, n2, ...`: `ImportError` on the first name the module does not define. */
  function ImportNames(defined: seq<string>, names: seq<string>): (r: Outcome<Error>)
    ensures r.Pass? <==> forall n | n in names :: n in defined
    ensures r.Fail? ==> r.error.MissingImport? && r.error.name in names && r.error.name !in defined
  {
    if names == [] then Pass
    else if names[0] !in defined then Fail(MissingImport(names[0]))
    else ImportNames(defined, names[1..])
  }

  /** Importing the catalog's five names from definitions modules that define `classical` and `deep`. */
  function ImportCatalog(classical: seq<string>, deep: seq<string>): Result<seq<(string, Definition)>, Error>
  {
    var fromClassical := ImportNames(classical, ["SVM_DEFINITION", "RF_DEFINITION", "XGB_DEFINITION", "REGRESSION_DEFINITION"]);
    var fromDeep := ImportNames(deep, ["MLP_DEFINITION"]);
    if fromClassical.Fail? then Failure(fromClassical.error)
    else if fromDeep.Fail? then Failure(fromDeep.error)
    else Success(Algorithms)
  }

  /** Importing the catalog with its definitions modules as written. */
  function CatalogImportAsWritten(): Result<seq<(string, Definition)>, Error>
  {
    ImportCatalog(ClassicalDefinitionNames, DeepDefinitionNames)
  }

  /** The catalog cannot be imported: the random-forest definition is the first name missing. */
  lemma CatalogImportFails()
    ensures CatalogImportAsWritten() == Failure(MissingImport("RF_DEFINITION"))
  {
    assert "RF_DEFINITION" != "SVM_DEFINITION";
  }

  // ---------- the registry ----------

  /** `ALGORITHMS`, with all five definitions present and each keyed by its own code. */
  const Algorithms: seq<(string, Definition)> := [
    (SvmDefinition.code, SvmDefinition),
    (RfDefinition.code, RfDefinition),
    (XgbDefinition.code, XgbDefinition),
    (RegressionDefinition.code, RegressionDefinition),
    (MlpDefinition.code, MlpDefinition)
  ]

  /** The registry's keys, in order: each is its definition's code and none repeats. */
  lemma AlgorithmsKeys()
    ensures Keys(Algorithms) == ["svm", "random_forest", "xgboost", "regression", "mlp"]
    ensures DistinctKeys(Algorithms)
    ensures forall i | 0 <= i < |Algorithms| :: Algorithms[i].0 == Algorithms[i].1.code
  {
    assert Keys(Algorithms) == ["svm", "random_forest", "xgboost", "regression", "mlp"];
  }

  /** Every registry key is its definition's code, no key repeats, and every definition is well formed. */
  lemma AlgorithmsKeyedByCode()
    ensures Keys(Algorithms) == ["svm", "random_forest", "xgboost", "regression", "mlp"]
    ensures DistinctKeys(Algorithms)
    ensures forall i | 0 <= i < |Algorithms| :: Algorithms[i].0 == Algorithms[i].1.code
    ensures forall i | 0 <= i < |Algorithms| :: WellFormedDefinition(Algorithms[i].1)
  {
    AlgorithmsKeys();
    SvmDefinitionShape();
    RfDefinitionShape();
    XgbDefinitionShape();
    RegressionDefinitionShape();
    MlpDefinitionShape();
  }

  /** The codes `sorted(ALGORITHMS.keys())` lists in the unknown-algorithm error. */
  const SortedCodes: seq<string> := ["mlp", "random_forest", "regression", "svm", "xgboost"]

  /** `sorted(ALGORITHMS.keys())` */
  lemma SortedCodesOfRegistry()
    ensures Sort(Keys(Algorithms)) == SortedCodes
  {
    AlgorithmsKeys();
    CodesSorted();
    CodesPermuted();
    SortIs(Keys(Algorithms), SortedCodes);
  }

  lemma CodesSorted()
    ensures Sorted(SortedCodes)
  {
    assert StrLe("mlp", "random_forest") && StrLe("random_forest", "regression");
    assert StrLe("regression", "svm") && StrLe("svm", "xgboost");
    SortedByNeighbours(SortedCodes);
  }

  lemma CodesPermuted()
    ensures multiset(["svm", "random_forest", "xgboost", "regression", "mlp"]) == multiset(SortedCodes)
  {
  }

  /** In a registry keyed by code, the definition found under a code carries that code. */
  lemma FoundUnderOwnCode(algos: seq<(string, Definition)>, code: string)
    requires forall i | 0 <= i < |algos| :: algos[i].0 == algos[i].1.code
    requires code in Keys(algos)
    ensures Get(algos, code).value.code == code
  {
    var i := IndexOf(algos, code);
    assert Get(algos, code) == Some(algos[i].1);
  }

  /** `get_algorithm` */
  function GetAlgorithm(code: string): (r: Result<Definition, Error>)
    ensures r.Success? <==> code in Keys(Algorithms)
    ensures r.Success? ==> (code, r.value) in Algorithms && r.value.code == code
    ensures r.Failure? ==> r.error == UnknownAlgorithm(code, SortedCodes)
  {
    match Get(Algorithms, code)
    case Some(d) =>
      AlgorithmsKeys();
      FoundUnderOwnCode(Algorithms, code);
      Success(d)
    case None =>
      SortedCodesOfRegistry();
      Failure(UnknownAlgorithm(code, Sort(Keys(Algorithms))))
  }

  /** The lookup finds each registered definition under its code. */
  lemma GetAlgorithmOfKey(i: nat)
    requires i < |Algorithms|
    ensures GetAlgorithm(Algorithms[i].1.code) == Success(Algorithms[i].1)
  {
    AlgorithmsKeys();
    GetDistinct(Algorithms, i);
  }

  /**
    What the variant tests do: find the algorithm by code, take the variant of the task's
    family, and validate the parameters against that variant's specifications.
  */
  function ValidateForTask(code: string, task: TaskType, params: seq<(string, Value)>): (r: Result<seq<(string, Value)>, Error>)
    ensures r.Success? ==> r.value == params
  {
    var d :- GetAlgorithm(code);
    var v :- GetVariant(d, TaskFamilyFromTask(task));
    var checked := ValidateForVariant(v, params);
    if checked.Success? then
      ValidateParamsSuccessIff(SpecsByName(v.hyperparams), params);
      checked
    else checked
  }

  /** Once the algorithm and its variant are found, the outcome is the variant's validation. */
  lemma ValidateForTaskIs(code: string, task: TaskType, params: seq<(string, Value)>, d: Definition, v: Variant)
    requires GetAlgorithm(code) == Success(d)
    requires GetVariant(d, TaskFamilyFromTask(task)) == Success(v)
    ensures ValidateForTask(code, task, params) == ValidateForVariant(v, params)
  {
  }

  /** Every registered algorithm has a variant for every task. */
  lemma EveryTaskHasVariant(i: nat, task: TaskType)
    requires i < |Algorithms|
    ensures GetVariant(Algorithms[i].1, TaskFamilyFromTask(task)).Success?
    ensures GetVariant(Algorithms[i].1, TaskFamilyFromTask(task)).value.family == TaskFamilyFromTask(task)
  {
    AlgorithmsKeyedByCode();
    var d := Algorithms[i].1;
    assert Keys(d.variants) == [Classification, RegressionFamily];
    GetVariantFamily(d, TaskFamilyFromTask(task));
  }

  /** The SVC variant rejects `epsilon`, listing the three names it knows. */
  lemma SvmClassificationVariantTest()
    ensures ValidateForTask("svm", Multiclass, [("epsilon", VReal(0.1))])
         == Failure(NotAllowed("epsilon", ["C", "gamma", "kernel"]))
  {
    GetAlgorithmOfKey(0);
    assert Algorithms[0].1 == SvmDefinition;
    TwoVariantLookup(SvmDefinition);
    ValidateForTaskIs("svm", Multiclass, [("epsilon", VReal(0.1))], SvmDefinition, SvmClassificationVariant);
    SvmClassificationRejectsEpsilon(VReal(0.1));
  }

  /** The SVR variant accepts `epsilon` with `C` and returns them unchanged. */
  lemma SvmRegressionVariantTest()
    ensures ValidateForTask("svm", Regression, [("epsilon", VReal(0.2)), ("C", VReal(1.5))])
         == Success([("epsilon", VReal(0.2)), ("C", VReal(1.5))])
  {
    GetAlgorithmOfKey(0);
    assert Algorithms[0].1 == SvmDefinition;
    TwoVariantLookup(SvmDefinition);
    ValidateForTaskIs("svm", Regression, [("epsilon", VReal(0.2)), ("C", VReal(1.5))], SvmDefinition, SvmRegressionVariant);
    SvmRegressionAcceptsEpsilonAndC(0.2, 1.5);
  }

  /** The random-forest classifier rejects `max_features="auto"`, naming the parameter. */
  lemma RfVariantTest()
    ensures ValidateForTask("random_forest", Binary, [("max_features", VStr("auto"))])
         == Failure(NotOneOfOrNumeric("max_features", VStr("auto"), [VStr("sqrt"), VStr("log2")]))
  {
    GetAlgorithmOfKey(1);
    assert Algorithms[1].1 == RfDefinition;
    TwoVariantLookup(RfDefinition);
    ValidateForTaskIs("random_forest", Binary, [("max_features", VStr("auto"))], RfDefinition, RfClassificationVariant);
    RfRejectsAuto();
  }

  /** XGBoost rejects a learning rate above its maximum 1.0, such as 2.0. */
  lemma XgbVariantTest(x: real)
    requires x > 1.0
    ensures ValidateForTask("xgboost", Binary, [("learning_rate", VReal(x))])
         == Failure(AboveMaximum("learning_rate", VReal(x), 1.0))
  {
    GetAlgorithmOfKey(2);
    assert Algorithms[2].1 == XgbDefinition;
    TwoVariantLookup(XgbDefinition);
    ValidateForTaskIs("xgboost", Binary, [("learning_rate", VReal(x))], XgbDefinition, XgbClassificationVariant);
    XgbRejectsLearningRateAboveMax(x);
  }

  /** Linear regression rejects the classification-only `C`. */
  lemma RegressionVariantTest(v: Value)
    ensures ValidateForTask("regression", Regression, [("C", v)]) == Failure(NotAllowed("C", ["fit_intercept"]))
  {
    GetAlgorithmOfKey(3);
    assert Algorithms[3].1 == RegressionDefinition;
    TwoVariantLookup(RegressionDefinition);
    ValidateForTaskIs("regression", Regression, [("C", v)], RegressionDefinition, RegressionRegressionVariant);
    RegressionRejectsC(v);
  }

  // ---------- the export ----------

  /** One variant as the backend stores it. */
  datatype ExportedVariant = ExportedVariant(
    code: string, supportedTasks: seq<string>, hyperparameterSpecs: seq<seq<(string, Value)>>)

  /** One algorithm as the backend stores it. */
  datatype ExportedAlgorithm = ExportedAlgorithm(
    code: string, name: string, kind: string, description: string, variants: seq<ExportedVariant>)

  /**
    Attribute access on a `TaskFamily` member, which is what iterating `definition.variants`
    yields, for the attributes the export reads and the enum's own `value` and `name`: the
    member has the latter two, and none of the variant's fields `code`, `supported_tasks` and
    `hyperparams`. The `str` methods such a member also carries are outside this function.
  */
  function FamilyAttribute(f: TaskFamily, attribute: string): (r: Result<string, Error>)
    requires attribute in ["value", "name", "code", "supported_tasks", "hyperparams"]
    ensures r.Success? <==> attribute == "value" || attribute == "name"
    ensures r.Failure? ==> r.error == MissingAttribute(attribute)
  {
    if attribute == "value" then Success(TaskFamilyTag(f))
    else if attribute == "name" then Success(if f == Classification then "CLASSIFICATION" else "REGRESSION")
    else Failure(MissingAttribute(attribute))
  }

  /** The inner loop body as written: it reads `code` and `supported_tasks` off the family key. */
  function ExportVariantAsWritten(f: TaskFamily): Result<ExportedVariant, Error>
  {
    ReadVariantFields(f, "code", "supported_tasks")
  }

  /** Reading two attributes off a family member, the first that is missing raising. */
  function ReadVariantFields(f: TaskFamily, codeAttribute: string, tasksAttribute: string): Result<ExportedVariant, Error>
    requires codeAttribute in ["value", "name", "code", "supported_tasks", "hyperparams"]
    requires tasksAttribute in ["value", "name", "code", "supported_tasks", "hyperparams"]
  {
    var code :- FamilyAttribute(f, codeAttribute);
    var tasks :- FamilyAttribute(f, tasksAttribute);
    Success(ExportedVariant(code, [tasks], []))
  }

  /** `export_algorithms_for_backend` as written. */
  function ExportAsWritten(algos: seq<(string, Definition)>): Result<seq<ExportedAlgorithm>, Error>
  {
    if algos == [] then Success([])
    else
      var d := algos[0].1;
      var variants :- ExportVariantsAsWritten(d.variants);
      var rest :- ExportAsWritten(algos[1..]);
      Success([ExportedAlgorithm(AlgoCode(algos[0].0, d), d.name, d.kind, d.description, variants)] + rest)
  }

  function ExportVariantsAsWritten(vs: seq<(TaskFamily, Variant)>): Result<seq<ExportedVariant>, Error>
  {
    if vs == [] then Success([])
    else
      var v :- ExportVariantAsWritten(vs[0].0);
      var rest :- ExportVariantsAsWritten(vs[1..]);
      Success([v] + rest)
  }

  /** As written, the export raises on the first variant of any algorithm that has one. */
  lemma {:induction false} ExportAsWrittenRaises(algos: seq<(string, Definition)>)
    requires exists i | 0 <= i < |algos| :: algos[i].1.variants != []
    ensures ExportAsWritten(algos) == Failure(MissingAttribute("code"))
    decreases |algos|
  {
    if algos[0].1.variants == [] {
      var i :| 0 < i < |algos| && algos[i].1.variants != [];
      assert algos[1..][i - 1] == algos[i];
      ExportAsWrittenRaises(algos[1..]);
    }
  }

  /** The registry's own export fails. */
  lemma CatalogExportRaises()
    ensures ExportAsWritten(Algorithms) == Failure(MissingAttribute("code"))
  {
    assert Algorithms[0].1.variants != [];
    ExportAsWrittenRaises(Algorithms);
  }

  /** `str(definition.code or algo_code)` */
  function AlgoCode(key: string, d: Definition): string
  {
    if d.code != "" then d.code else key
  }

  /** `[t.value for t in tasks]` */
  function TaskTagList(ts: seq<TaskType>): (r: seq<string>)
    ensures |r| == |ts| && forall i | 0 <= i < |ts| :: r[i] == TaskTypeTag(ts[i])
  {
    seq(|ts|, i requires 0 <= i < |ts| => TaskTypeTag(ts[i]))
  }

  /** The variant record: its code, the tags of its family's tasks and its specifications' JSON form. */
  function ExportVariant(f: TaskFamily, v: Variant): ExportedVariant
  {
    ExportedVariant(v.code, TaskTagList(TasksOfFamily(f)), SpecsToDictList(v.hyperparams))
  }

  /** The algorithm record, its description defaulting to `""`, and one variant record per variant. */
  function ExportAlgorithm(key: string, d: Definition): ExportedAlgorithm
  {
    var code := AlgoCode(key, d);
    ExportedAlgorithm(code, d.name, d.kind, d.description,
      seq(|d.variants|, j requires 0 <= j < |d.variants| => ExportVariant(d.variants[j].0, d.variants[j].1)))
  }

  /**
    `export_algorithms_for_backend` with each variant exported under its own code and the tasks
    of its family: two loops appending to the list and to each algorithm's variants.
  */
  method ExportAlgorithmsForBackend(algos: seq<(string, Definition)>) returns (exported: seq<ExportedAlgorithm>)
    ensures |exported| == |algos|
    ensures forall i | 0 <= i < |algos| :: exported[i] == ExportAlgorithm(algos[i].0, algos[i].1)
  {
    exported := [];
    var i := 0;
    while i < |algos|
      invariant 0 <= i <= |algos|
      invariant |exported| == i
      invariant forall k | 0 <= k < i :: exported[k] == ExportAlgorithm(algos[k].0, algos[k].1)
    {
      var (key, d) := algos[i];
      var algoDict := ExportedAlgorithm(AlgoCode(key, d), d.name, d.kind, d.description, []);
      var variants := ExportVariants(d.variants);
      algoDict := algoDict.(variants := variants);
      assert algoDict == ExportAlgorithm(key, d);
      exported := exported + [algoDict];
      i := i + 1;
    }
  }

  /** The inner loop of the export: one variant record per variant, in order. */
  method ExportVariants(vs: seq<(TaskFamily, Variant)>) returns (out: seq<ExportedVariant>)
    ensures |out| == |vs|
    ensures forall k | 0 <= k < |vs| :: out[k] == ExportVariant(vs[k].0, vs[k].1)
  {
    out := [];
    var j := 0;
    while j < |vs|
      invariant 0 <= j <= |vs|
      invariant |out| == j
      invariant forall k | 0 <= k < j :: out[k] == ExportVariant(vs[k].0, vs[k].1)
    {
      var (family, v) := vs[j];
      var variantDict := ExportedVariant(v.code, TaskTagList(TasksOfFamily(family)), SpecsToDictList(v.hyperparams));
      out := out + [variantDict];
      j := j + 1;
    }
  }

  /** No string occurs twice. */
  predicate DistinctStrings(s: seq<string>)
  {
    forall p, q | 0 <= p < q < |s| :: s[p] != s[q]
  }

  /** The codes of a definition's variants, in order. */
  function DefinitionVariantCodes(d: Definition): (r: seq<string>)
    ensures |r| == |d.variants| && forall j | 0 <= j < |d.variants| :: r[j] == d.variants[j].1.code
  {
    seq(|d.variants|, j requires 0 <= j < |d.variants| => d.variants[j].1.code)
  }

  /** Every variant code of the registry, algorithm after algorithm. */
  function VariantCodes(algos: seq<(string, Definition)>): seq<string>
    decreases |algos|
  {
    if algos == [] then [] else DefinitionVariantCodes(algos[0].1) + VariantCodes(algos[1..])
  }

  /** Where the codes of the `i`-th algorithm start in `VariantCodes`. */
  function Offset(algos: seq<(string, Definition)>, i: nat): nat
    requires i <= |algos|
    decreases i
  {
    if i == 0 then 0 else |algos[0].1.variants| + Offset(algos[1..], i - 1)
  }

  /** The `j`-th variant code of the `i`-th algorithm sits at `Offset(algos, i) + j`, before the next algorithm's. */
  lemma {:induction false} VariantCodePosition(algos: seq<(string, Definition)>, i: nat, j: nat)
    requires i < |algos| && j < |algos[i].1.variants|
    ensures Offset(algos, i) + |algos[i].1.variants| <= |VariantCodes(algos)|
    ensures Offset(algos, i) + |algos[i].1.variants| == Offset(algos, i + 1)
    ensures VariantCodes(algos)[Offset(algos, i) + j] == algos[i].1.variants[j].1.code
    decreases i
  {
    if i > 0 {
      VariantCodePosition(algos[1..], i - 1, j);
      assert algos[1..][i - 1] == algos[i];
      assert |DefinitionVariantCodes(algos[0].1)| == |algos[0].1.variants|;
    }
  }

  /** Offsets grow with the algorithm's position: a later algorithm's codes come after. */
  lemma {:induction false} OffsetMonotone(algos: seq<(string, Definition)>, i1: nat, i2: nat)
    requires i1 <= i2 <= |algos|
    ensures Offset(algos, i1) <= Offset(algos, i2)
    decreases i1
  {
    if i1 > 0 {
      OffsetMonotone(algos[1..], i1 - 1, i2 - 1);
    }
  }

  /**
    Registries whose keys are their definitions' codes, whose definitions are well formed, and
    in which no two variants share a code.
  */
  predicate ValidRegistry(algos: seq<(string, Definition)>)
  {
    DistinctKeys(algos) &&
    (forall i | 0 <= i < |algos| :: algos[i].0 == algos[i].1.code && WellFormedDefinition(algos[i].1)) &&
    DistinctStrings(VariantCodes(algos))
  }

  /**
    No two variants anywhere in the export share a code, so the backend's upsert by variant code
    stores every one of them.
  */
  lemma ExportVariantCodesDistinct(algos: seq<(string, Definition)>, i1: nat, j1: nat, i2: nat, j2: nat)
    requires ValidRegistry(algos)
    requires i1 < |algos| && j1 < |algos[i1].1.variants|
    requires i2 < |algos| && j2 < |algos[i2].1.variants|
    requires (i1, j1) != (i2, j2)
    ensures ExportAlgorithm(algos[i1].0, algos[i1].1).variants[j1].code
         != ExportAlgorithm(algos[i2].0, algos[i2].1).variants[j2].code
  {
    VariantCodePosition(algos, i1, j1);
    VariantCodePosition(algos, i2, j2);
    var p1, p2 := Offset(algos, i1) + j1, Offset(algos, i2) + j2;
    if i1 < i2 {
      OffsetMonotone(algos, i1 + 1, i2);
    } else if i2 < i1 {
      OffsetMonotone(algos, i2 + 1, i1);
    }
    assert p1 != p2;
    var codes := VariantCodes(algos);
    if p1 < p2 {
      assert codes[p1] != codes[p2];
    } else {
      assert codes[p2] != codes[p1];
    }
  }

  /** A variant's supported tasks are exactly the tags of the task types of its family. */
  lemma ExportSupportedTasks(key: string, d: Definition, j: nat, t: TaskType)
    requires j < |d.variants|
    ensures TaskTypeTag(t) in ExportAlgorithm(key, d).variants[j].supportedTasks
        <==> TaskFamilyFromTask(t) == d.variants[j].0
  {
    var f := d.variants[j].0;
    var tags := ExportAlgorithm(key, d).variants[j].supportedTasks;
    TasksOfFamilyInverse(f, t);
    if TaskTypeTag(t) in tags {
      var k :| 0 <= k < |tags| && tags[k] == TaskTypeTag(t);
      TaskTypeTagRoundTrip(TasksOfFamily(f)[k], TaskTypeTag(t));
      TaskTypeTagRoundTrip(t, TaskTypeTag(t));
    }
  }

  /** The exported specifications decode back to the variant's own, in order. */
  lemma ExportSpecsRoundTrip(key: string, d: Definition, j: nat, k: nat)
    requires j < |d.variants| && k < |d.variants[j].1.hyperparams|
    ensures |ExportAlgorithm(key, d).variants[j].hyperparameterSpecs| == |d.variants[j].1.hyperparams|
    ensures SpecFromDict(ExportAlgorithm(key, d).variants[j].hyperparameterSpecs[k]) == Some(d.variants[j].1.hyperparams[k])
  {
    ToDictRoundTrip(d.variants[j].1.hyperparams[k]);
  }

  /** The registry's ten variant codes, SVM's two first. */
  const RegistryVariantCodes: seq<string> := ["svc", "svr", "rf_classifier", "rf_regressor",
    "xgb_classifier", "xgb_regressor", "logistic_regression", "linear_regression", "mlp_classifier", "mlp_regressor"]

  /** A five-entry registry's codes are those of its five definitions, in order. */
  lemma VariantCodesOfFive(algos: seq<(string, Definition)>)
    requires |algos| == 5
    ensures VariantCodes(algos)
         == DefinitionVariantCodes(algos[0].1) + DefinitionVariantCodes(algos[1].1) + DefinitionVariantCodes(algos[2].1)
          + DefinitionVariantCodes(algos[3].1) + DefinitionVariantCodes(algos[4].1)
  {
    var t1, t2, t3, t4 := algos[1..], algos[2..], algos[3..], algos[4..];
    assert t1[0] == algos[1] && t1[1..] == t2;
    assert t2[0] == algos[2] && t2[1..] == t3;
    assert t3[0] == algos[3] && t3[1..] == t4;
    assert t4[0] == algos[4] && t4[1..] == [];
    assert VariantCodes(t4) == DefinitionVariantCodes(algos[4].1);
    assert VariantCodes(t3) == DefinitionVariantCodes(algos[3].1) + VariantCodes(t4);
    assert VariantCodes(t2) == DefinitionVariantCodes(algos[2].1) + VariantCodes(t3);
    assert VariantCodes(t1) == DefinitionVariantCodes(algos[1].1) + VariantCodes(t2);
  }

  /** The registry's variants carry the ten codes, in registry order. */
  lemma VariantCodesOfRegistry()
    ensures VariantCodes(Algorithms) == RegistryVariantCodes
  {
    VariantCodesOfFive(Algorithms);
    assert Algorithms[0].1 == SvmDefinition && Algorithms[1].1 == RfDefinition && Algorithms[2].1 == XgbDefinition;
    assert Algorithms[3].1 == RegressionDefinition && Algorithms[4].1 == MlpDefinition;
    assert DefinitionVariantCodes(SvmDefinition) == ["svc", "svr"];
    assert DefinitionVariantCodes(RfDefinition) == ["rf_classifier", "rf_regressor"];
    assert DefinitionVariantCodes(XgbDefinition) == ["xgb_classifier", "xgb_regressor"];
    assert DefinitionVariantCodes(RegressionDefinition) == ["logistic_regression", "linear_regression"];
    assert DefinitionVariantCodes(MlpDefinition) == ["mlp_classifier", "mlp_regressor"];
  }

  /** No two of the ten codes are equal. */
  lemma RegistryVariantCodesDistinct()
    ensures DistinctStrings(RegistryVariantCodes)
  {
  }

  /** The registry's export lists the five algorithms in registry order, under their own codes. */
  lemma CatalogExportOrder(exported: seq<ExportedAlgorithm>)
    requires |exported| == |Algorithms|
    requires forall i | 0 <= i < |Algorithms| :: exported[i] == ExportAlgorithm(Algorithms[i].0, Algorithms[i].1)
    ensures seq(|exported|, i requires 0 <= i < |exported| => exported[i].code) == Keys(Algorithms)
    ensures ValidRegistry(Algorithms)
  {
    AlgorithmsKeyedByCode();
    VariantCodesOfRegistry();
    RegistryVariantCodesDistinct();
  }
}
