/**
  ml_core/runner.py: one training and evaluation run. Loading and splitting a dataset, the two
  model constructors, the model's `fit`, `predict` and `predict_proba`, and the metrics report
  are collaborators passed in as functions; validating the hyperparameters is the model's own
  (the legacy table), and so is the shape of the returned result.
*/
module Runner {
  import opened Wrappers
  import opened Types
  import opened PyDict
  import opened Hyperparameters
  import opened HparamSpecs
  import AlgorithmRegistry

  /** `RunConfig`, with its defaults. */
  datatype RunConfig = RunConfig(
    datasetName: string,
    algorithmName: string,
    hyperparams: Option<seq<(string, Value)>> := None,
    testSize: real := 0.3,
    randomState: int := 42,
    includePredictions: bool := true,
    includeProbabilities: bool := false)

  /** `_DEEP_ALGORITHMS` */
  const DeepAlgorithms: set<string> := {"mlp"}

  /** `DatasetMeta` of ml_core/data_handlers/metadata.py. */
  datatype DatasetMeta = DatasetMeta(
    id: string,
    name: string,
    task: TaskType,
    nSamples: int,
    nFeatures: int,
    nClasses: Option<int>,
    classLabels: Option<seq<string>>,
    featureNames: Option<seq<string>>,
    targetName: Option<string>)

  /** `Dataset`: the train/test split, each array held as its `tolist()` form. */
  datatype Dataset = Dataset(xTrain: Value, xTest: Value, yTrain: Value, yTest: Value, meta: DatasetMeta)

  /**
    What a run calls out to, over the collaborators' model type `M`: `load_data`,
    `get_classical_model`, `get_deep_model`, the model's `fit` (which returns the fitted model),
    `predict`, whether it has `predict_proba`, `predict_proba`, and `EvaluationReport(...).summary()`.
    Each may raise.
  */
  datatype Collaborators<!M> = Collaborators(
    loadData: (string, real, int) -> Result<Dataset, Error>,
    classicalModel: (string, TaskType, seq<(string, Value)>) -> Result<M, Error>,
    deepModel: (string, TaskType, seq<(string, Value)>) -> Result<M, Error>,
    fit: (M, Value, Value) -> Result<M, Error>,
    predict: (M, Value) -> Result<Value, Error>,
    hasPredictProba: M -> bool,
    predictProba: (M, Value) -> Result<Value, Error>,
    evaluate: (Value, Value, TaskType, Option<seq<string>>) -> Result<seq<(string, Value)>, Error>)

  /** The steps of a run, in the order they are taken. */
  datatype Step = Load | Validate | Construct(deep: bool) | Fit | Predict | PredictProbaStep | Evaluate

  /** The steps of a successful run once its model is constructed. */
  function Training(proba: bool): seq<Step>
  {
    [Fit, Predict] + (if proba then [PredictProbaStep] else []) + [Evaluate]
  }

  /** Every step of a successful run: probabilities are asked of the model only when `proba`. */
  function Pipeline(deep: bool, proba: bool): seq<Step>
  {
    [Load, Validate, Construct(deep)] + Training(proba)
  }

  predicate Constructed(trace: seq<Step>)
  {
    Construct(true) in trace || Construct(false) in trace
  }

  // ---------- _build_model ----------

  /**
    `_build_model`, validating against `table` (the legacy `ALGORITHM_HPARAMS` in the module):
    the parameters (`{}` when none) are validated for the task before any constructor is
    called; the deep constructor serves exactly the deep algorithms, and whichever is called
    receives the user's parameters unchanged. `steps` are the steps taken.
  */
  method BuildModel<M>(env: Collaborators<M>, table: seq<(string, seq<Spec>)>, algorithmName: string,
                       task: TaskType, hyperparams: Option<seq<(string, Value)>>)
    returns (r: Result<M, Error>, steps: seq<Step>)
    ensures var v := ValidateIn(table, algorithmName, task, AlgorithmRegistry.OrEmpty(hyperparams));
            v.Failure? ==> r == Failure(v.error) && steps == [Validate]
    ensures var v := ValidateIn(table, algorithmName, task, AlgorithmRegistry.OrEmpty(hyperparams));
            v.Success? ==> steps == [Validate, Construct(algorithmName in DeepAlgorithms)]
    ensures Construct(true) in steps ==>
              r == env.deepModel(algorithmName, task, AlgorithmRegistry.OrEmpty(hyperparams))
    ensures Construct(false) in steps ==>
              r == env.classicalModel(algorithmName, task, AlgorithmRegistry.OrEmpty(hyperparams))
  {
    var params := AlgorithmRegistry.OrEmpty(hyperparams);
    steps := [Validate];
    var validated := ValidateIn(table, algorithmName, task, params);
    if validated.Failure? {
      return Failure(validated.error), steps;
    }
    if algorithmName in DeepAlgorithms {
      steps := steps + [Construct(true)];
      r := env.deepModel(algorithmName, task, validated.value);
    } else {
      steps := steps + [Construct(false)];
      r := env.classicalModel(algorithmName, task, validated.value);
    }
  }

  // ---------- _predict_proba ----------

  /** The three conditions under which `_predict_proba` asks the model. */
  predicate ProbaWanted<M>(env: Collaborators<M>, model: M, task: TaskType, includeProbabilities: bool)
  {
    includeProbabilities && IsClassification(task) && env.hasPredictProba(model)
  }

  /**
    `_predict_proba`: probabilities exactly when they were asked for, the task is a
    classification and the model has `predict_proba`; otherwise `None`. Only the model's own
    `predict_proba` can raise.
  */
  function PredictProba<M>(env: Collaborators<M>, model: M, x: Value, task: TaskType, includeProbabilities: bool)
    : (r: Result<Option<Value>, Error>)
    ensures r.Success? && r.value.Some? <==>
              ProbaWanted(env, model, task, includeProbabilities) && env.predictProba(model, x).Success?
    ensures r.Success? && r.value.Some? ==> r.value.value == env.predictProba(model, x).value
    ensures r.Failure? ==>
              ProbaWanted(env, model, task, includeProbabilities) && env.predictProba(model, x) == Failure(r.error)
    ensures !includeProbabilities || !IsClassification(task) ==> r == Success(None)
  {
    if !includeProbabilities then Success(None)
    else if !IsClassification(task) then Success(None)
    else if !env.hasPredictProba(model) then Success(None)
    else
      var proba :- env.predictProba(model, x);
      Success(Some(proba))
  }

  // ---------- _predictions_to_dict ----------

  function StrList(xs: seq<string>): Value
  {
    VList(seq(|xs|, i requires 0 <= i < |xs| => VStr(xs[i])))
  }

  /** An optional list of strings, `None` as `null`. */
  function OptStrList(o: Option<seq<string>>): Value
  {
    if o.Some? then StrList(o.value) else VNull
  }

  /**
    `_predictions_to_dict`: the true and predicted labels, the probabilities exactly when there
    are some, and the class labels exactly for classification datasets; no other key.
  */
  function PredictionsToDict(dataset: Dataset, yPred: Value, yProba: Option<Value>): (r: seq<(string, Value)>)
    ensures DistinctKeys(r)
    ensures Get(r, "y_true") == Some(dataset.yTest)
    ensures Get(r, "y_pred") == Some(yPred)
    ensures Get(r, "y_proba") == yProba
    ensures "class_labels" in Keys(r) <==> IsClassification(dataset.meta.task)
    ensures IsClassification(dataset.meta.task) ==>
              Get(r, "class_labels") == Some(OptStrList(dataset.meta.classLabels))
    ensures forall k | k in Keys(r) :: k in ["y_true", "y_pred", "y_proba", "class_labels"]
  {
    var labels := OptStrList(dataset.meta.classLabels);
    var result := [("y_true", dataset.yTest), ("y_pred", yPred)];
    assert Keys(result) == ["y_true", "y_pred"];
    var result := if yProba.Some? then Set(result, "y_proba", yProba.value) else result;
    assert Keys(result) == ["y_true", "y_pred"] + (if yProba.Some? then ["y_proba"] else []);
    var result := if IsClassification(dataset.meta.task) then Set(result, "class_labels", labels) else result;
    PredictionsEntries(dataset.yTest, yPred, yProba,
                       if IsClassification(dataset.meta.task) then Some(labels) else None, result);
    result
  }

  /** The four shapes a predictions dictionary can take, and what each holds. */
  lemma PredictionsEntries(yTrue: Value, yPred: Value, yProba: Option<Value>, labels: Option<Value>,
                           r: seq<(string, Value)>)
    requires r == [("y_true", yTrue), ("y_pred", yPred)] +
                  (if yProba.Some? then [("y_proba", yProba.value)] else []) +
                  (if labels.Some? then [("class_labels", labels.value)] else [])
    ensures DistinctKeys(r)
    ensures Get(r, "y_true") == Some(yTrue) && Get(r, "y_pred") == Some(yPred)
    ensures Get(r, "y_proba") == yProba && Get(r, "class_labels") == labels
    ensures forall k | k in Keys(r) :: k in ["y_true", "y_pred", "y_proba", "class_labels"]
  {
    if yProba.Some? && labels.Some? {
      assert r == [("y_true", yTrue), ("y_pred", yPred), ("y_proba", yProba.value), ("class_labels", labels.value)];
      GetDistinct(r, 0); GetDistinct(r, 1); GetDistinct(r, 2); GetDistinct(r, 3);
    } else if yProba.Some? {
      assert r == [("y_true", yTrue), ("y_pred", yPred), ("y_proba", yProba.value)];
      GetDistinct(r, 0); GetDistinct(r, 1); GetDistinct(r, 2);
    } else if labels.Some? {
      assert r == [("y_true", yTrue), ("y_pred", yPred), ("class_labels", labels.value)];
      GetDistinct(r, 0); GetDistinct(r, 1); GetDistinct(r, 2);
    } else {
      assert r == [("y_true", yTrue), ("y_pred", yPred)];
      GetDistinct(r, 0); GetDistinct(r, 1);
    }
  }

  // ---------- the dataset section ----------

  /** The attributes a `DatasetMeta` has: the dataclass declares fields and no method. */
  const DatasetMetaAttributes: seq<string> := [
    "id", "name", "task", "n_samples", "n_features",
    "n_classes", "class_labels", "feature_names", "target_name"]

  /** `dataset.meta.to_dict()` as written: the attribute is looked up on a class that lacks it. */
  function DatasetSectionAsWritten(meta: DatasetMeta): Result<seq<(string, Value)>, Error>
  {
    if "to_dict" in DatasetMetaAttributes then Success(MetaToDict(meta))
    else Failure(MissingAttribute("to_dict"))
  }

  /** So every run that gets as far as assembling its result raises instead. */
  lemma DatasetSectionAsWrittenRaises(meta: DatasetMeta)
    ensures DatasetSectionAsWritten(meta) == Failure(MissingAttribute("to_dict"))
  {
  }

  function OptInt(o: Option<int>): Value
  {
    if o.Some? then VInt(o.value) else VNull
  }

  function OptStr(o: Option<string>): Value
  {
    if o.Some? then VStr(o.value) else VNull
  }

  /** The metadata as a dictionary of its fields (`dataclasses.asdict`), the task by its tag. */
  function MetaToDict(meta: DatasetMeta): (d: seq<(string, Value)>)
    ensures Keys(d) == DatasetMetaAttributes
    ensures DistinctKeys(d)
  {
    [("id", VStr(meta.id)), ("name", VStr(meta.name)), ("task", VStr(TaskTypeTag(meta.task))),
     ("n_samples", VInt(meta.nSamples)), ("n_features", VInt(meta.nFeatures)),
     ("n_classes", OptInt(meta.nClasses)), ("class_labels", OptStrList(meta.classLabels)),
     ("feature_names", OptStrList(meta.featureNames)), ("target_name", OptStr(meta.targetName))]
  }

  function AsStr(v: Value): Option<string>
  {
    if v.VStr? then Some(v.s) else None
  }

  function AsInt(v: Value): Option<int>
  {
    if v.VInt? then Some(v.i) else None
  }

  function AsOptInt(v: Value): Option<Option<int>>
  {
    if v.VNull? then Some(None) else if v.VInt? then Some(Some(v.i)) else None
  }

  function AsOptStr(v: Value): Option<Option<string>>
  {
    if v.VNull? then Some(None) else if v.VStr? then Some(Some(v.s)) else None
  }

  function AsOptStrList(v: Value): Option<Option<seq<string>>>
  {
    if v.VNull? then Some(None)
    else if v.VList? && forall i | 0 <= i < |v.items| :: v.items[i].VStr? then
      Some(Some(seq(|v.items|, i requires 0 <= i < |v.items| && v.items[i].VStr? => v.items[i].s)))
    else None
  }

  /** The fields every metadata record has. */
  function RequiredFields(d: seq<(string, Value)>): Option<(string, string, TaskType, int, int)>
  {
    var id :- Get(d, "id");
    var name :- Get(d, "name");
    var task :- Get(d, "task");
    var nSamples :- Get(d, "n_samples");
    var nFeatures :- Get(d, "n_features");
    var id' :- AsStr(id);
    var name' :- AsStr(name);
    var taskTag :- AsStr(task);
    var task' :- TaskTypeFromTag(taskTag);
    var nSamples' :- AsInt(nSamples);
    var nFeatures' :- AsInt(nFeatures);
    Some((id', name', task', nSamples', nFeatures'))
  }

  /** The fields that default to `None`. */
  function OptionalFields(d: seq<(string, Value)>)
    : Option<(Option<int>, Option<seq<string>>, Option<seq<string>>, Option<string>)>
  {
    var nClasses :- Get(d, "n_classes");
    var classLabels :- Get(d, "class_labels");
    var featureNames :- Get(d, "feature_names");
    var targetName :- Get(d, "target_name");
    var nClasses' :- AsOptInt(nClasses);
    var classLabels' :- AsOptStrList(classLabels);
    var featureNames' :- AsOptStrList(featureNames);
    var targetName' :- AsOptStr(targetName);
    Some((nClasses', classLabels', featureNames', targetName'))
  }

  /** Reads a metadata dictionary back; `None` when a field is missing or of the wrong kind. */
  function MetaFromDict(d: seq<(string, Value)>): Option<DatasetMeta>
  {
    var req :- RequiredFields(d);
    var opt :- OptionalFields(d);
    Some(DatasetMeta(req.0, req.1, req.2, req.3, req.4, opt.0, opt.1, opt.2, opt.3))
  }

  lemma OptStrListRoundTrip(o: Option<seq<string>>)
    ensures AsOptStrList(OptStrList(o)) == Some(o)
  {
    if o.Some? {
      var v := OptStrList(o);
      assert seq(|v.items|, i requires 0 <= i < |v.items| && v.items[i].VStr? => v.items[i].s) == o.value;
    }
  }

  /** Each field of the metadata sits under its own name. */
  lemma MetaDictFields(meta: DatasetMeta)
    ensures var d := MetaToDict(meta);
            Get(d, "id") == Some(VStr(meta.id)) && Get(d, "name") == Some(VStr(meta.name)) &&
            Get(d, "task") == Some(VStr(TaskTypeTag(meta.task))) &&
            Get(d, "n_samples") == Some(VInt(meta.nSamples)) && Get(d, "n_features") == Some(VInt(meta.nFeatures))
    ensures var d := MetaToDict(meta);
            Get(d, "n_classes") == Some(OptInt(meta.nClasses)) &&
            Get(d, "class_labels") == Some(OptStrList(meta.classLabels)) &&
            Get(d, "feature_names") == Some(OptStrList(meta.featureNames)) &&
            Get(d, "target_name") == Some(OptStr(meta.targetName))
  {
    var d := MetaToDict(meta);
    GetDistinct(d, 0);
    GetDistinct(d, 1);
    GetDistinct(d, 2);
    GetDistinct(d, 3);
    GetDistinct(d, 4);
    GetDistinct(d, 5);
    GetDistinct(d, 6);
    GetDistinct(d, 7);
    GetDistinct(d, 8);
  }

  /** The dataset section loses nothing: the metadata reads back from it. */
  lemma MetaDictRoundTrip(meta: DatasetMeta)
    ensures MetaFromDict(MetaToDict(meta)) == Some(meta)
  {
    MetaDictFields(meta);
    RequiredFieldsRead(MetaToDict(meta), meta);
    OptionalFieldsRead(MetaToDict(meta), meta);
  }

  /** A dictionary holding the required fields under their names yields them back. */
  lemma RequiredFieldsRead(d: seq<(string, Value)>, meta: DatasetMeta)
    requires Get(d, "id") == Some(VStr(meta.id)) && Get(d, "name") == Some(VStr(meta.name))
    requires Get(d, "task") == Some(VStr(TaskTypeTag(meta.task)))
    requires Get(d, "n_samples") == Some(VInt(meta.nSamples)) && Get(d, "n_features") == Some(VInt(meta.nFeatures))
    ensures RequiredFields(d) == Some((meta.id, meta.name, meta.task, meta.nSamples, meta.nFeatures))
  {
    TaskTypeTagRoundTrip(meta.task, "");
  }

  /** A dictionary holding the optional fields under their names yields them back. */
  lemma OptionalFieldsRead(d: seq<(string, Value)>, meta: DatasetMeta)
    requires Get(d, "n_classes") == Some(OptInt(meta.nClasses))
    requires Get(d, "class_labels") == Some(OptStrList(meta.classLabels))
    requires Get(d, "feature_names") == Some(OptStrList(meta.featureNames))
    requires Get(d, "target_name") == Some(OptStr(meta.targetName))
    ensures OptionalFields(d) == Some((meta.nClasses, meta.classLabels, meta.featureNames, meta.targetName))
  {
    OptStrListRoundTrip(meta.classLabels);
    OptStrListRoundTrip(meta.featureNames);
  }

  // ---------- run_experiment ----------

  /** `result["algorithm"]` */
  datatype AlgorithmSection = AlgorithmSection(name: string, kind: string, hyperparams: seq<(string, Value)>)

  /** The result dictionary; `predictions` is the optional `"predictions"` key. */
  datatype RunResult = RunResult(
    dataset: seq<(string, Value)>,
    algorithm: AlgorithmSection,
    metrics: seq<(string, Value)>,
    predictions: Option<seq<(string, Value)>>)

  /** The names `DATASET_LOADERS` registers, in declaration order. */
  const DatasetLoaders: seq<string> := ["iris", "wine", "breast_cancer"]

  /** `load_data` rejects a name with no loader, listing the registered ones. */
  ghost predicate RejectsUnknownDatasets<M>(env: Collaborators<M>)
  {
    forall name: string, testSize: real, randomState: int | name !in DatasetLoaders ::
      env.loadData(name, testSize, randomState) == Failure(UnsupportedDataset(name, DatasetLoaders))
  }

  function Loaded<M>(env: Collaborators<M>, config: RunConfig): Result<Dataset, Error>
  {
    env.loadData(config.datasetName, config.testSize, config.randomState)
  }

  /** The loaded dataset's task admits the configured parameters. */
  predicate Validated<M>(env: Collaborators<M>, table: seq<(string, seq<Spec>)>, config: RunConfig)
  {
    Loaded(env, config).Success? &&
    ValidateIn(table, config.algorithmName, Loaded(env, config).value.meta.task,
               AlgorithmRegistry.OrEmpty(config.hyperparams)).Success?
  }

  /** `result["algorithm"]`: the configured name, its kind and the parameters (`{}` when none). */
  function AlgorithmSectionOf(config: RunConfig): (a: AlgorithmSection)
    ensures a.kind == "deep" <==> config.algorithmName in DeepAlgorithms
    ensures a.kind == "deep" || a.kind == "classical"
    ensures a.name == config.algorithmName && a.hyperparams == AlgorithmRegistry.OrEmpty(config.hyperparams)
  {
    AlgorithmSection(config.algorithmName,
                     if config.algorithmName in DeepAlgorithms then "deep" else "classical",
                     AlgorithmRegistry.OrEmpty(config.hyperparams))
  }

  /** What a successful run returns, given its dataset. */
  predicate ResultShape(config: RunConfig, dataset: Dataset, result: RunResult, trace: seq<Step>)
  {
    result.dataset == MetaToDict(dataset.meta) &&
    result.algorithm == AlgorithmSectionOf(config) &&
    (result.predictions.Some? <==> config.includePredictions) &&
    (result.predictions.Some? ==>
       Get(result.predictions.value, "y_true") == Some(dataset.yTest) &&
       ("y_proba" in Keys(result.predictions.value) ==> PredictProbaStep in trace) &&
       ("class_labels" in Keys(result.predictions.value) <==> IsClassification(dataset.meta.task)))
  }

  /** The model `_build_model` constructs for a run: deep or classical by the algorithm's name. */
  function ConstructedModel<M>(env: Collaborators<M>, config: RunConfig, task: TaskType): Result<M, Error>
  {
    var params := AlgorithmRegistry.OrEmpty(config.hyperparams);
    if config.algorithmName in DeepAlgorithms then env.deepModel(config.algorithmName, task, params)
    else env.classicalModel(config.algorithmName, task, params)
  }

  /**
    The result's metrics and predictions are those of the fitted model: `y_pred` is its
    prediction on the test inputs, `y_proba` what `_predict_proba` gives for them, and the
    metrics the report on the test labels against that prediction.
  */
  predicate FromFittedModel<M>(env: Collaborators<M>, config: RunConfig, dataset: Dataset, model: M, result: RunResult)
  {
    var fitted := env.fit(model, dataset.xTrain, dataset.yTrain);
    fitted.Success? &&
    var yPred := env.predict(fitted.value, dataset.xTest);
    var yProba := PredictProba(env, fitted.value, dataset.xTest, dataset.meta.task, config.includeProbabilities);
    yPred.Success? && yProba.Success? &&
    var report := env.evaluate(dataset.yTest, yPred.value, dataset.meta.task, dataset.meta.classLabels);
    report.Success? &&
    result.metrics == report.value &&
    (result.predictions.Some? ==>
       Get(result.predictions.value, "y_pred") == Some(yPred.value) &&
       Get(result.predictions.value, "y_proba") == yProba.value)
  }

  /**
    Steps 3 to 6 of `run_experiment` on a constructed model: fit, predict, the optional
    probabilities, the metrics report, and the result dictionary. `steps` follow `Training` and
    stop at the first that raises.
  */
  method TrainAndReport<M>(env: Collaborators<M>, config: RunConfig, dataset: Dataset, model: M)
    returns (r: Result<RunResult, Error>, steps: seq<Step>)
    ensures |steps| > 0 && steps <= Training(PredictProbaStep in steps)
    ensures PredictProbaStep in steps ==> config.includeProbabilities && IsClassification(dataset.meta.task)
    ensures r.Success? ==> steps == Training(PredictProbaStep in steps)
    ensures r.Success? ==> ResultShape(config, dataset, r.value, steps)
    ensures r.Success? ==> FromFittedModel(env, config, dataset, model, r.value)
  {
    var task := dataset.meta.task;
    steps := [Fit];
    var fitted := env.fit(model, dataset.xTrain, dataset.yTrain);
    if fitted.Failure? {
      return Failure(fitted.error), steps;
    }
    var model := fitted.value;

    steps := steps + [Predict];
    var yPred := env.predict(model, dataset.xTest);
    if yPred.Failure? {
      return Failure(yPred.error), steps;
    }

    var proba := ProbaWanted(env, model, task, config.includeProbabilities);
    if proba {
      steps := steps + [PredictProbaStep];
    }
    assert steps == [Fit, Predict] + (if proba then [PredictProbaStep] else []);
    var yProba := PredictProba(env, model, dataset.xTest, task, config.includeProbabilities);
    if yProba.Failure? {
      return Failure(yProba.error), steps;
    }

    steps := steps + [Evaluate];
    var report := env.evaluate(dataset.yTest, yPred.value, task, dataset.meta.classLabels);
    if report.Failure? {
      return Failure(report.error), steps;
    }

    var result := RunResult(MetaToDict(dataset.meta), AlgorithmSectionOf(config), report.value, None);
    if config.includePredictions {
      result := result.(predictions := Some(PredictionsToDict(dataset, yPred.value, yProba.value)));
    }
    return Success(result), steps;
  }

  /**
    Steps 2 to 6 of `run_experiment` on a loaded dataset: no constructor is called on parameters
    that fail validation, and the steps follow `Pipeline` after the load.
  */
  method RunOnDataset<M>(env: Collaborators<M>, table: seq<(string, seq<Spec>)>, config: RunConfig, dataset: Dataset)
    returns (r: Result<RunResult, Error>, steps: seq<Step>)
    ensures var v := ValidateIn(table, config.algorithmName, dataset.meta.task, AlgorithmRegistry.OrEmpty(config.hyperparams));
            v.Failure? ==> steps == [Validate] && r == Failure(v.error)
    ensures Constructed(steps) ==>
              ValidateIn(table, config.algorithmName, dataset.meta.task, AlgorithmRegistry.OrEmpty(config.hyperparams)).Success?
    ensures |steps| > 0 && [Load] + steps <= Pipeline(config.algorithmName in DeepAlgorithms, PredictProbaStep in steps)
    ensures PredictProbaStep in steps ==> config.includeProbabilities && IsClassification(dataset.meta.task)
    ensures r.Success? ==> [Load] + steps == Pipeline(config.algorithmName in DeepAlgorithms, PredictProbaStep in steps)
    ensures r.Success? ==> ResultShape(config, dataset, r.value, steps)
    ensures r.Success? ==>
              ConstructedModel(env, config, dataset.meta.task).Success? &&
              FromFittedModel(env, config, dataset, ConstructedModel(env, config, dataset.meta.task).value, r.value)
  {
    var built;
    built, steps := BuildModel(env, table, config.algorithmName, dataset.meta.task, config.hyperparams);
    if built.Failure? {
      return Failure(built.error), steps;
    }
    var deep := config.algorithmName in DeepAlgorithms;
    assert steps == [Validate, Construct(deep)];
    assert built == ConstructedModel(env, config, dataset.meta.task) by {
      assert Construct(deep) in steps;
    }
    var rest;
    r, rest := TrainAndReport(env, config, dataset, built.value);
    StartedPipeline(deep, rest);
    if r.Success? {
      ResultShapeWiderTrace(config, dataset, r.value, rest, steps + rest);
    }
    steps := steps + rest;
  }

  /**
    `run_experiment`, validating against `table` and with the dataset section corrected to
    `MetaToDict`. The steps are taken in the order of `Pipeline` and stop at the first that
    raises: the dataset is loaded first and a failed load calls nothing else, no constructor is
    called on parameters that fail validation, probabilities are asked for only for
    classification runs that want them, and the result has `"predictions"` exactly when the
    configuration asks for them.
  */
  method RunExperiment<M>(env: Collaborators<M>, table: seq<(string, seq<Spec>)>, config: RunConfig)
    returns (r: Result<RunResult, Error>, trace: seq<Step>)
    ensures |trace| > 0 && trace[0] == Load
    ensures trace <= Pipeline(config.algorithmName in DeepAlgorithms, PredictProbaStep in trace)
    ensures Loaded(env, config).Failure? ==> trace == [Load] && r == Failure(Loaded(env, config).error)
    ensures RejectsUnknownDatasets(env) && config.datasetName !in DatasetLoaders ==>
              trace == [Load] && r == Failure(UnsupportedDataset(config.datasetName, DatasetLoaders))
    ensures Constructed(trace) ==> Validated(env, table, config)
    ensures Loaded(env, config).Success? && !Validated(env, table, config) ==>
              trace == [Load, Validate] &&
              r == Failure(ValidateIn(table, config.algorithmName, Loaded(env, config).value.meta.task,
                                      AlgorithmRegistry.OrEmpty(config.hyperparams)).error)
    ensures PredictProbaStep in trace ==>
              config.includeProbabilities && IsClassification(Loaded(env, config).value.meta.task)
    ensures r.Success? ==> trace == Pipeline(config.algorithmName in DeepAlgorithms, PredictProbaStep in trace)
    ensures r.Success? ==> ResultShape(config, Loaded(env, config).value, r.value, trace)
    ensures r.Success? ==>
              var dataset := Loaded(env, config).value;
              ConstructedModel(env, config, dataset.meta.task).Success? &&
              FromFittedModel(env, config, dataset, ConstructedModel(env, config, dataset.meta.task).value, r.value)
  {
    var loaded := env.loadData(config.datasetName, config.testSize, config.randomState);
    if loaded.Failure? {
      return Failure(loaded.error), [Load];
    }
    var steps;
    r, steps := RunOnDataset(env, table, config, loaded.value);
    trace := [Load] + steps;
    StepsAfterLoad(steps);
  }

  /** Loading adds no step but itself. */
  lemma StepsAfterLoad(steps: seq<Step>)
    ensures PredictProbaStep in [Load] + steps <==> PredictProbaStep in steps
    ensures Constructed([Load] + steps) <==> Constructed(steps)
    ensures ([Load] + steps)[0] == Load
  {
    assert forall x :: x in [Load] + steps <==> x == Load || x in steps;
  }

  /** A run that got past construction follows `Pipeline` as far as its training steps go. */
  lemma StartedPipeline(deep: bool, rest: seq<Step>)
    requires |rest| > 0 && rest <= Training(PredictProbaStep in rest)
    ensures var steps := [Validate, Construct(deep)] + rest;
            Constructed(steps) &&
            (PredictProbaStep in steps <==> PredictProbaStep in rest) &&
            [Load] + steps <= Pipeline(deep, PredictProbaStep in steps) &&
            (rest == Training(PredictProbaStep in rest) ==> [Load] + steps == Pipeline(deep, PredictProbaStep in steps))
  {
    var steps := [Validate, Construct(deep)] + rest;
    assert steps[1] == Construct(deep);
    assert [Load] + steps == [Load, Validate, Construct(deep)] + rest;
    assert PredictProbaStep in steps <==> PredictProbaStep in rest by {
      assert steps[..2] == [Validate, Construct(deep)] && steps[2..] == rest;
      if PredictProbaStep in steps {
        var i :| 0 <= i < |steps| && steps[i] == PredictProbaStep;
        assert i >= 2 && rest[i - 2] == PredictProbaStep;
      }
      if PredictProbaStep in rest {
        var i :| 0 <= i < |rest| && rest[i] == PredictProbaStep;
        assert steps[i + 2] == PredictProbaStep;
      }
    }
  }

  /** The shape of a result depends on its steps only through whether probabilities were asked for. */
  lemma ResultShapeWiderTrace(config: RunConfig, dataset: Dataset, result: RunResult, t1: seq<Step>, t2: seq<Step>)
    requires ResultShape(config, dataset, result, t1)
    requires PredictProbaStep in t1 ==> PredictProbaStep in t2
    ensures ResultShape(config, dataset, result, t2)
  {
  }
}
