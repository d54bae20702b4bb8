/**
  ml_core/algorithms/hparam_specs.py: the legacy per-algorithm specification tables, their
  lookup by algorithm name filtered by task, and validation of user parameters against them.
*/
module HparamSpecs {
  import opened Wrappers
  import opened Types
  import opened PyDict
  import opened StrOrder
  import opened Hyperparameters

  const AllTasks: Option<seq<TaskType>> := Some([Binary, Multiclass, Regression])
  const ClassificationTasks: Option<seq<TaskType>> := Some([Binary, Multiclass])

  const SvmC: Spec :=
    Spec(name := "C", displayName := "C (Regularization strength)", ptype := Float, default := VReal(1.0),
      min := Some(0.0001), max := Some(10000.0),
      description := "Inverse of regularization strength for SVM. Smaller values specify stronger regularization. Larger values allow more complex decision boundaries.",
      applicableTasks := AllTasks)

  const SvmKernel: Spec :=
    Spec(name := "kernel", displayName := "Kernel", ptype := Choice, default := VStr("rbf"),
      choices := Some([VStr("linear"), VStr("rbf"), VStr("poly"), VStr("sigmoid")]),
      description := "Specifies the kernel type to be used in the algorithm. 'linear' works well for approximately linear problems; 'rbf' and 'poly' capture nonlinear relationships.",
      applicableTasks := AllTasks)

  const SvmGamma: Spec :=
    Spec(name := "gamma", displayName := "Gamma", ptype := NumberOrString, default := VStr("scale"),
      min := Some(0.000001), max := Some(1000.0), choices := Some([VStr("scale"), VStr("auto")]),
      description := "Kernel coefficient for 'rbf', 'poly' and 'sigmoid'. Can be a float value or one of 'scale'/'auto'. For 'linear' kernel this parameter is ignored by sklearn.",
      applicableTasks := AllTasks, advanced := true)

  const SvmEpsilon: Spec :=
    Spec(name := "epsilon", displayName := "Epsilon (SVR only)", ptype := Float, default := VReal(0.1),
      min := Some(0.0), max := Some(10.0),
      description := "Epsilon in the epsilon-SVR model. It specifies the epsilon-tube within which no penalty is associated in the training loss. Only used for regression tasks (SVR).",
      applicableTasks := Some([Regression]), advanced := true)

  const SvmHparams: seq<Spec> := [SvmC, SvmKernel, SvmGamma, SvmEpsilon]

  const RfNEstimators: Spec :=
    Spec(name := "n_estimators", displayName := "Number of trees", ptype := Int, default := VInt(100),
      min := Some(10.0), max := Some(2000.0),
      description := "The number of trees in the forest.",
      applicableTasks := AllTasks)

  const RfMaxDepth: Spec :=
    Spec(name := "max_depth", displayName := "Max tree depth", ptype := Int, default := VNull,
      min := Some(1.0), max := Some(50.0),
      description := "The maximum depth of each tree. If None, nodes are expanded until all leaves are pure or contain fewer samples than min_samples_split.",
      applicableTasks := AllTasks, advanced := true)

  const RfMinSamplesSplit: Spec :=
    Spec(name := "min_samples_split", displayName := "Min samples split", ptype := Int, default := VInt(2),
      min := Some(2.0), max := Some(100.0),
      description := "The minimum number of samples required to split an internal node.",
      applicableTasks := AllTasks, advanced := true)

  const RfMinSamplesLeaf: Spec :=
    Spec(name := "min_samples_leaf", displayName := "Min samples leaf", ptype := Int, default := VInt(1),
      min := Some(1.0), max := Some(100.0),
      description := "The minimum number of samples required to be at a leaf node.",
      applicableTasks := AllTasks, advanced := true)

  const RfMaxFeatures: Spec :=
    Spec(name := "max_features", displayName := "Max features", ptype := NumberOrString, default := VStr("auto"),
      choices := Some([VStr("auto"), VStr("sqrt"), VStr("log2")]),
      description := "The number of features to consider when looking for the best split. Can be an integer (number of features), a float (fraction of features), or one of 'auto', 'sqrt', 'log2'. Validation here only checks that the value is either numeric or one of the supported strings; detailed semantics are handled by sklearn.",
      applicableTasks := AllTasks, advanced := true)

  const RfHparams: seq<Spec> := [RfNEstimators, RfMaxDepth, RfMinSamplesSplit, RfMinSamplesLeaf, RfMaxFeatures]

  const XgbNEstimators: Spec :=
    Spec(name := "n_estimators", displayName := "Number of trees", ptype := Int, default := VInt(100),
      min := Some(10.0), max := Some(3000.0),
      description := "Number of boosting stages (trees) to fit.",
      applicableTasks := AllTasks)

  const XgbLearningRate: Spec :=
    Spec(name := "learning_rate", displayName := "Learning rate", ptype := Float, default := VReal(0.3),
      min := Some(0.0001), max := Some(1.0),
      description := "Shrinkage factor applied to each tree's contribution. Smaller values require more trees but can lead to better generalization.",
      applicableTasks := AllTasks)

  const XgbMaxDepth: Spec :=
    Spec(name := "max_depth", displayName := "Max tree depth", ptype := Int, default := VInt(6),
      min := Some(1.0), max := Some(20.0),
      description := "Maximum depth of individual trees.",
      applicableTasks := AllTasks)

  const XgbSubsample: Spec :=
    Spec(name := "subsample", displayName := "Subsample", ptype := Float, default := VReal(1.0),
      min := Some(0.1), max := Some(1.0),
      description := "Subsample ratio of the training instances. Values < 1.0 act as row-wise subsampling and can reduce overfitting.",
      applicableTasks := AllTasks, advanced := true)

  const XgbColsampleBytree: Spec :=
    Spec(name := "colsample_bytree", displayName := "Column subsample (by tree)", ptype := Float, default := VReal(1.0),
      min := Some(0.1), max := Some(1.0),
      description := "Subsample ratio of columns when constructing each tree. Acts as feature subsampling and can reduce overfitting.",
      applicableTasks := AllTasks, advanced := true)

  const XgbRegLambda: Spec :=
    Spec(name := "reg_lambda", displayName := "L2 regularization (lambda)", ptype := Float, default := VReal(1.0),
      min := Some(0.0), max := Some(100.0),
      description := "L2 regularization term on weights.",
      applicableTasks := AllTasks, advanced := true)

  const XgbRegAlpha: Spec :=
    Spec(name := "reg_alpha", displayName := "L1 regularization (alpha)", ptype := Float, default := VReal(0.0),
      min := Some(0.0), max := Some(100.0),
      description := "L1 regularization term on weights.",
      applicableTasks := AllTasks, advanced := true)

  const XgbHparams: seq<Spec> := [XgbNEstimators, XgbLearningRate, XgbMaxDepth, XgbSubsample, XgbColsampleBytree, XgbRegLambda, XgbRegAlpha]

  const RegC: Spec :=
    Spec(name := "C", displayName := "C (Inverse regularization strength)", ptype := Float, default := VReal(1.0),
      min := Some(0.0001), max := Some(10000.0),
      description := "Inverse of regularization strength for LogisticRegression. Smaller values specify stronger regularization.",
      applicableTasks := ClassificationTasks)

  const RegPenalty: Spec :=
    Spec(name := "penalty", displayName := "Penalty", ptype := Choice, default := VStr("l2"),
      choices := Some([VStr("l2"), VStr("none")]),
      description := "Norm used in the penalization for LogisticRegression. Not all penalties are supported by all solvers. For simplicity, only 'l2' and 'none' are exposed here.",
      applicableTasks := ClassificationTasks, advanced := true)

  const RegFitIntercept: Spec :=
    Spec(name := "fit_intercept", displayName := "Fit intercept", ptype := Bool, default := VBool(true),
      description := "Whether to calculate the intercept for the model.",
      applicableTasks := AllTasks)

  const RegressionHparams: seq<Spec> := [RegC, RegPenalty, RegFitIntercept]

  const MlpHiddenDims: Spec :=
    Spec(name := "hidden_dims", displayName := "Hidden layer sizes", ptype := IntList,
      default := VList([VInt(64), VInt(64)]),
      description := "List of hidden layer sizes, e.g. [64, 64] or [128, 64, 32]. ",
      applicableTasks := AllTasks)

  const MlpActivation: Spec :=
    Spec(name := "activation", displayName := "Activation function", ptype := Choice, default := VStr("relu"),
      choices := Some([VStr("relu"), VStr("tanh"), VStr("gelu")]),
      description := "Non-linear activation used between layers.",
      applicableTasks := AllTasks)

  const MlpDropout: Spec :=
    Spec(name := "dropout", displayName := "Dropout", ptype := Float, default := VReal(0.0),
      min := Some(0.0), max := Some(0.8),
      description := "Dropout probability applied after each hidden layer. Use values in [0.0, 0.5] for regularization. 0.0 disables dropout.",
      applicableTasks := AllTasks, advanced := true)

  const MlpLr: Spec :=
    Spec(name := "lr", displayName := "Learning rate", ptype := Float, default := VReal(0.001),
      min := Some(0.000001), max := Some(0.1),
      description := "Learning rate for the Adam optimizer.",
      applicableTasks := AllTasks)

  const MlpBatchSize: Spec :=
    Spec(name := "batch_size", displayName := "Batch size", ptype := Int, default := VInt(64),
      min := Some(1.0), max := Some(4096.0),
      description := "Mini-batch size used during training.",
      applicableTasks := AllTasks)

  const MlpMaxEpochs: Spec :=
    Spec(name := "max_epochs", displayName := "Max epochs", ptype := Int, default := VInt(100),
      min := Some(1.0), max := Some(10000.0),
      description := "Maximum number of training epochs.",
      applicableTasks := AllTasks)

  const MlpWeightDecay: Spec :=
    Spec(name := "weight_decay", displayName := "Weight decay (L2 regularization)", ptype := Float, default := VReal(0.0),
      min := Some(0.0), max := Some(1.0),
      description := "L2 weight decay used by the Adam optimizer.",
      applicableTasks := AllTasks, advanced := true)

  const MlpHparams: seq<Spec> := [MlpHiddenDims, MlpActivation, MlpDropout, MlpLr, MlpBatchSize, MlpMaxEpochs, MlpWeightDecay]

  /** `ALGORITHM_HPARAMS`, in its insertion order. */
  const AlgorithmHparams: seq<(string, seq<Spec>)> := [
    ("svm", SvmHparams),
    ("random_forest", RfHparams),
    ("xgboost", XgbHparams),
    ("regression", RegressionHparams),
    ("mlp", MlpHparams)
  ]

  /** `s.applicable_tasks is None or task in s.applicable_tasks` */
  predicate Applicable(s: Spec, task: TaskType)
  {
    s.applicableTasks.None? || task in s.applicableTasks.value
  }

  /** `r` is `s` with some elements dropped and the rest kept in order. */
  predicate IsSubsequence<T(==)>(r: seq<T>, s: seq<T>)
    decreases |s|
  {
    r == [] || (s != [] && ((r[0] == s[0] && IsSubsequence(r[1..], s[1..])) || IsSubsequence(r, s[1..])))
  }

  /** `[s for s in specs if ...]` */
  function FilterByTask(specs: seq<Spec>, task: TaskType): seq<Spec>
  {
    if specs == [] then []
    else if Applicable(specs[0], task) then [specs[0]] + FilterByTask(specs[1..], task)
    else FilterByTask(specs[1..], task)
  }

  /** The filter keeps exactly the specifications applicable to the task. */
  lemma {:induction false} FilterMembers(specs: seq<Spec>, task: TaskType, s: Spec)
    ensures s in FilterByTask(specs, task) <==> s in specs && Applicable(s, task)
  {
    if specs != [] {
      FilterMembers(specs[1..], task, s);
      assert s in specs <==> s == specs[0] || s in specs[1..];
    }
  }

  /** The filter keeps the declaration order of what it keeps. */
  lemma {:induction false} FilterKeepsOrder(specs: seq<Spec>, task: TaskType)
    ensures IsSubsequence(FilterByTask(specs, task), specs)
  {
    if specs != [] {
      FilterKeepsOrder(specs[1..], task);
      if Applicable(specs[0], task) {
        assert ([specs[0]] + FilterByTask(specs[1..], task))[1..] == FilterByTask(specs[1..], task);
      }
    }
  }

  /**
    The lookup of `get_hyperparameter_specs` in any table shaped like `ALGORITHM_HPARAMS`: the
    algorithm's list, filtered to a task when one is given, or an error naming the known
    algorithms in sorted order.
  */
  function SpecsIn(table: seq<(string, seq<Spec>)>, algorithmName: string, task: Option<TaskType>)
    : Result<seq<Spec>, Error>
  {
    match Get(table, algorithmName)
    case None => Failure(UnknownAlgorithm(algorithmName, Sort(Keys(table))))
    case Some(specs) => if task.None? then Success(specs) else Success(FilterByTask(specs, task.value))
  }

  /** `get_hyperparameter_specs` */
  function GetHyperparameterSpecs(algorithmName: string, task: Option<TaskType>): (r: Result<seq<Spec>, Error>)
    ensures r.Failure? <==> algorithmName !in Keys(AlgorithmHparams)
    ensures r.Failure? ==> r.error == UnknownAlgorithm(algorithmName, Sort(Keys(AlgorithmHparams)))
    ensures r.Success? && task.None? ==> r.value == Get(AlgorithmHparams, algorithmName).value
    ensures r.Success? && task.Some? ==>
              r.value == FilterByTask(Get(AlgorithmHparams, algorithmName).value, task.value)
  {
    SpecsIn(AlgorithmHparams, algorithmName, task)
  }

  /** `get_hyperparameter_specs_as_dicts` */
  function GetHyperparameterSpecsAsDicts(algorithmName: string, task: Option<TaskType>)
    : (r: Result<seq<seq<(string, Value)>>, Error>)
    ensures r.Success? <==> GetHyperparameterSpecs(algorithmName, task).Success?
    ensures r.Failure? ==> r.error == GetHyperparameterSpecs(algorithmName, task).error
    ensures r.Success? ==> |r.value| == |GetHyperparameterSpecs(algorithmName, task).value|
    ensures r.Success? ==>
              forall i | 0 <= i < |r.value| ::
                SpecFromDict(r.value[i]) == Some(GetHyperparameterSpecs(algorithmName, task).value[i])
  {
    var specs :- GetHyperparameterSpecs(algorithmName, task);
    SpecsToDictListRoundTrip(specs);
    Success(SpecsToDictList(specs))
  }

  /**
    The validation of `validate_hyperparameters` against any table: the algorithm must be known,
    and then the user's parameters are checked, in their order, against the specifications that
    apply to the task. They come back unchanged.
  */
  function ValidateIn(table: seq<(string, seq<Spec>)>, algorithmName: string, task: TaskType,
                      userParams: seq<(string, Value)>): (r: Result<seq<(string, Value)>, Error>)
    ensures SpecsIn(table, algorithmName, Some(task)).Failure? ==>
              r == Failure(SpecsIn(table, algorithmName, Some(task)).error)
    ensures SpecsIn(table, algorithmName, Some(task)).Success? ==>
              (r.Success? <==> AllPass(SpecsByName(SpecsIn(table, algorithmName, Some(task)).value), userParams))
    ensures r.Success? ==> r.value == userParams
  {
    var specs :- SpecsIn(table, algorithmName, Some(task));
    ValidateParamsSuccessIff(SpecsByName(specs), userParams);
    ValidateParams(SpecsByName(specs), userParams)
  }

  /** `validate_hyperparameters` */
  function ValidateHyperparameters(algorithmName: string, task: TaskType, userParams: seq<(string, Value)>)
    : Result<seq<(string, Value)>, Error>
  {
    ValidateIn(AlgorithmHparams, algorithmName, task, userParams)
  }

  // ---------- properties of the tables ----------

  /** Filtering a list decides its first element and filters the rest. */
  lemma FilterCons(s: Spec, rest: seq<Spec>, task: TaskType)
    ensures FilterByTask([s] + rest, task) == (if Applicable(s, task) then [s] else []) + FilterByTask(rest, task)
  {
    assert ([s] + rest)[1..] == rest;
  }

  /** Each algorithm name finds its own table. */
  lemma TableEntries()
    ensures Get(AlgorithmHparams, "svm") == Some(SvmHparams)
    ensures Get(AlgorithmHparams, "random_forest") == Some(RfHparams)
    ensures Get(AlgorithmHparams, "xgboost") == Some(XgbHparams)
    ensures Get(AlgorithmHparams, "regression") == Some(RegressionHparams)
    ensures Get(AlgorithmHparams, "mlp") == Some(MlpHparams)
  {
    GetDistinct(AlgorithmHparams, 0);
    GetDistinct(AlgorithmHparams, 1);
    GetDistinct(AlgorithmHparams, 2);
    GetDistinct(AlgorithmHparams, 3);
    GetDistinct(AlgorithmHparams, 4);
  }

  /** The algorithms of the table, in order. */
  lemma TableKeys()
    ensures Keys(AlgorithmHparams) == ["svm", "random_forest", "xgboost", "regression", "mlp"]
  {
  }

  /** Every algorithm of the table lists its specifications. */
  lemma KnownAsDicts(algorithmName: string, task: Option<TaskType>)
    requires algorithmName in ["svm", "random_forest", "xgboost", "regression", "mlp"]
    ensures GetHyperparameterSpecsAsDicts(algorithmName, task).Success?
  {
    TableKeys();
  }

  /** The algorithm names in sorted order. */
  lemma AlgorithmNamesPermuted()
    ensures multiset(["svm", "random_forest", "xgboost", "regression", "mlp"])
         == multiset(["mlp", "random_forest", "regression", "svm", "xgboost"])
  {
  }

  lemma AlgorithmNamesSorted()
    ensures Sorted(["mlp", "random_forest", "regression", "svm", "xgboost"])
  {
    assert StrLe("mlp", "random_forest") && StrLe("random_forest", "regression");
    assert StrLe("regression", "svm") && StrLe("svm", "xgboost");
    SortedByNeighbours(["mlp", "random_forest", "regression", "svm", "xgboost"]);
  }

  /** An unknown algorithm is reported with the known names, sorted. */
  lemma UnknownAlgorithmRejected(algorithmName: string, task: Option<TaskType>)
    requires algorithmName !in ["svm", "random_forest", "xgboost", "regression", "mlp"]
    ensures GetHyperparameterSpecs(algorithmName, task)
         == Failure(UnknownAlgorithm(algorithmName, ["mlp", "random_forest", "regression", "svm", "xgboost"]))
  {
    TableKeys();
    AlgorithmNamesSorted();
    AlgorithmNamesPermuted();
    SortIs(Keys(AlgorithmHparams), ["mlp", "random_forest", "regression", "svm", "xgboost"]);
  }

  lemma SvmFiltered(task: TaskType)
    ensures FilterByTask(SvmHparams, task) == if task == Regression then SvmHparams else [SvmC, SvmKernel, SvmGamma]
  {
    var tail := if task == Regression then [SvmEpsilon] else [];
    assert Applicable(SvmC, task) && Applicable(SvmKernel, task) && Applicable(SvmGamma, task);
    assert Applicable(SvmEpsilon, task) <==> task == Regression;
    FilterCons(SvmEpsilon, [], task);
    assert FilterByTask([SvmEpsilon], task) == tail;
    FilterCons(SvmGamma, [SvmEpsilon], task);
    assert FilterByTask([SvmGamma, SvmEpsilon], task) == [SvmGamma] + tail;
    FilterCons(SvmKernel, [SvmGamma, SvmEpsilon], task);
    assert FilterByTask([SvmKernel, SvmGamma, SvmEpsilon], task) == [SvmKernel, SvmGamma] + tail;
    FilterCons(SvmC, [SvmKernel, SvmGamma, SvmEpsilon], task);
  }

  /** SVM's table for a task: `epsilon` is kept for regression and dropped for classification. */
  lemma SvmForTask(task: TaskType)
    ensures GetHyperparameterSpecs("svm", Some(task))
         == Success(if task == Regression then SvmHparams else [SvmC, SvmKernel, SvmGamma])
  {
    GetDistinct(AlgorithmHparams, 0);
    SvmFiltered(task);
  }

  /** The names of SVM's two filtered lists. */
  lemma SvmListNames()
    ensures Names(SvmHparams) == ["C", "kernel", "gamma", "epsilon"] && UniqueNames(SvmHparams)
    ensures Names([SvmC, SvmKernel, SvmGamma]) == ["C", "kernel", "gamma"] && UniqueNames([SvmC, SvmKernel, SvmGamma])
  {
  }

  /** SVM's `epsilon` is listed for a regression task and for no other. */
  lemma SvmEpsilonOnlyForRegression(task: TaskType)
    ensures "epsilon" in Names(GetHyperparameterSpecs("svm", Some(task)).value) <==> task == Regression
  {
    SvmForTask(task);
    SvmListNames();
  }

  lemma RegressionFiltered()
    ensures FilterByTask(RegressionHparams, Regression) == [RegFitIntercept]
  {
    FilterCons(RegFitIntercept, [], Regression);
    FilterCons(RegPenalty, [RegFitIntercept], Regression);
    FilterCons(RegC, [RegPenalty, RegFitIntercept], Regression);
  }

  /** For a regression task the regression family exposes only `fit_intercept`. */
  lemma RegressionForRegressionTask()
    ensures GetHyperparameterSpecs("regression", Some(Regression)) == Success([RegFitIntercept])
  {
    GetDistinct(AlgorithmHparams, 3);
    RegressionFiltered();
  }

  /** Without a task the whole table is listed, in order. */
  lemma Unfiltered(algorithmName: string)
    requires algorithmName in Keys(AlgorithmHparams)
    ensures GetHyperparameterSpecs(algorithmName, None) == Success(Get(AlgorithmHparams, algorithmName).value)
  {
  }

  /** A parameter that validation accepts is one the algorithm declares for that task. */
  lemma ValidatedParamsApplicable(algorithmName: string, task: TaskType, userParams: seq<(string, Value)>, i: nat)
    requires ValidateHyperparameters(algorithmName, task, userParams).Success?
    requires i < |userParams|
    ensures algorithmName in Keys(AlgorithmHparams)
    ensures exists s | s in Get(AlgorithmHparams, algorithmName).value ::
              s.name == userParams[i].0 && Applicable(s, task)
    ensures ValidateHyperparameters(algorithmName, task, userParams).value == userParams
  {
    var specs := GetHyperparameterSpecs(algorithmName, Some(task)).value;
    ValidateParamsSuccessIff(SpecsByName(specs), userParams);
    var j := ValidatedNameDeclared(specs, userParams, i);
    FilterMembers(Get(AlgorithmHparams, algorithmName).value, task, specs[j]);
  }

  /** A table is well formed: non-empty, names set and unique, bounds ordered, choice lists non-empty. */
  predicate WellFormed(specs: seq<Spec>)
  {
    |specs| > 0 && UniqueNames(specs) &&
    forall i | 0 <= i < |specs| ::
      (specs[i].min.Some? && specs[i].max.Some? ==> specs[i].min.value <= specs[i].max.value) &&
      (specs[i].choices.Some? ==> |specs[i].choices.value| > 0) &&
      specs[i].name != ""
  }

  /** Every default passes validation against its own specification. */
  predicate DefaultsPass(specs: seq<Spec>)
  {
    forall i | 0 <= i < |specs| :: ValidateValue(specs[i], specs[i].default) == Pass
  }

  lemma TablesWellFormed()
    ensures WellFormed(SvmHparams) && WellFormed(RfHparams) && WellFormed(XgbHparams)
    ensures WellFormed(RegressionHparams) && WellFormed(MlpHparams)
  {
    SvmWellFormed();
    RfWellFormed();
    XgbWellFormed();
    RegressionWellFormed();
    MlpWellFormed();
  }

  lemma SvmWellFormed() ensures WellFormed(SvmHparams) {}
  lemma RfWellFormed() ensures WellFormed(RfHparams) {}
  lemma XgbWellFormed() ensures WellFormed(XgbHparams) {}
  lemma RegressionWellFormed() ensures WellFormed(RegressionHparams) {}
  lemma MlpWellFormed() ensures WellFormed(MlpHparams) {}

  lemma DefaultsValid()
    ensures DefaultsPass(SvmHparams) && DefaultsPass(RfHparams) && DefaultsPass(XgbHparams)
    ensures DefaultsPass(RegressionHparams) && DefaultsPass(MlpHparams)
  {
    SvmDefaultsValid();
    RfDefaultsValid();
    XgbDefaultsValid();
    RegressionDefaultsValid();
    MlpDefaultsValid();
  }

  lemma SvmDefaultsValid()
    ensures DefaultsPass(SvmHparams)
  {
    PyInStr("rbf", SvmKernel.choices.value);
    PyInStr("scale", SvmGamma.choices.value);
  }

  lemma RfDefaultsValid()
    ensures DefaultsPass(RfHparams)
  {
    PyInStr("auto", RfMaxFeatures.choices.value);
  }

  lemma XgbDefaultsValid()
    ensures DefaultsPass(XgbHparams)
  {
  }

  lemma RegressionDefaultsValid()
    ensures DefaultsPass(RegressionHparams)
  {
    PyInStr("l2", RegPenalty.choices.value);
  }

  lemma MlpDefaultsValid()
    ensures DefaultsPass(MlpHparams)
  {
    PyInStr("relu", MlpActivation.choices.value);
  }

  /** As written, the default of MLP's `hidden_dims` fails its own validation. */
  lemma MlpDefaultRejectedAsWritten()
    ensures ValidateValueAsWritten(MlpHiddenDims, MlpHiddenDims.default)
         == Fail(UnsupportedParamType(IntList, "hidden_dims"))
  {
  }

  /** The parameters of the random-forest classification smoke run, `max_depth=None` among them. */
  const RfSmokeParams: seq<(string, Value)> :=
    [("n_estimators", VInt(10)), ("max_features", VStr("sqrt")), ("max_depth", VNull)]

  /**
    As written, the smoke run's `max_depth=None` is not a number and is rejected; with the
    corrected check the whole parameter dict passes the random-forest list and comes back as it is.
  */
  lemma RfSmokeParamsVerdict()
    ensures ValidateValueAsWritten(RfMaxDepth, VNull) == Fail(NotANumber("max_depth"))
    ensures ValidateParams(SpecsByName(RfHparams), RfSmokeParams) == Success(RfSmokeParams)
  {
    forall i | 0 <= i < |RfSmokeParams|
      ensures CheckEntry(SpecsByName(RfHparams), RfSmokeParams[i].0, RfSmokeParams[i].1).Pass?
    {
      RfSmokeEntryPasses(i);
    }
    ValidateParamsAllPass(SpecsByName(RfHparams), RfSmokeParams);
  }

  /** Each entry of the smoke run's parameters passes the corrected check against its spec. */
  lemma RfSmokeEntryPasses(i: nat)
    requires i < 3
    ensures CheckEntry(SpecsByName(RfHparams), RfSmokeParams[i].0, RfSmokeParams[i].1) == Pass
  {
    RfWellFormed();
    var j := if i == 0 then 0 else if i == 1 then 4 else 1;
    SpecsByNameGet(RfHparams, j);
    if i == 1 {
      PyInStr("sqrt", RfMaxFeatures.choices.value);
    }
  }

  /** Validation for a known algorithm is validation against its list for the task. */
  lemma ValidateAgainstListed(algorithmName: string, task: TaskType, userParams: seq<(string, Value)>)
    requires GetHyperparameterSpecs(algorithmName, Some(task)).Success?
    ensures ValidateHyperparameters(algorithmName, task, userParams)
         == ValidateParams(SpecsByName(GetHyperparameterSpecs(algorithmName, Some(task)).value), userParams)
  {
  }

  /** Against SVM's classification list `epsilon` is unknown; the three names are listed sorted. */
  lemma SvmClassificationListRejectsEpsilon(v: Value)
    ensures ValidateParams(SpecsByName([SvmC, SvmKernel, SvmGamma]), [("epsilon", v)])
         == Failure(NotAllowed("epsilon", ["C", "gamma", "kernel"]))
  {
    SvmListNames();
    SvmNamesSorted();
    LoneUnknownRejected([SvmC, SvmKernel, SvmGamma], "epsilon", v, ["C", "gamma", "kernel"]);
  }

  /** The names of SVM's classification list, sorted. */
  lemma SvmNamesSorted()
    ensures Sorted(["C", "gamma", "kernel"])
    ensures multiset(["C", "kernel", "gamma"]) == multiset(["C", "gamma", "kernel"])
  {
  }

  /** Against SVM's regression list an `epsilon` in `[0, 10]` passes and comes back unchanged. */
  lemma SvmRegressionListAcceptsEpsilon(x: real)
    requires 0.0 <= x <= 10.0
    ensures ValidateParams(SpecsByName(SvmHparams), [("epsilon", VReal(x))]) == Success([("epsilon", VReal(x))])
  {
    SvmListNames();
    SpecsByNameGet(SvmHparams, 3);
    assert CheckEntry(SpecsByName(SvmHparams), "epsilon", VReal(x)) == Pass;
    ValidateParamsAllPass(SpecsByName(SvmHparams), [("epsilon", VReal(x))]);
  }

  /** `epsilon` is refused for a classification task, naming the three parameters there are, sorted. */
  lemma SvmEpsilonRejectedForClassification(task: TaskType, v: Value)
    requires IsClassification(task)
    ensures ValidateHyperparameters("svm", task, [("epsilon", v)])
         == Failure(NotAllowed("epsilon", ["C", "gamma", "kernel"]))
  {
    SvmForTask(task);
    ValidateAgainstListed("svm", task, [("epsilon", v)]);
    SvmClassificationListRejectsEpsilon(v);
  }

  /** For a regression task `epsilon` is accepted anywhere in `[0, 10]` and returned unchanged. */
  lemma SvmEpsilonAcceptedForRegression(x: real)
    requires 0.0 <= x <= 10.0
    ensures ValidateHyperparameters("svm", Regression, [("epsilon", VReal(x))]) == Success([("epsilon", VReal(x))])
  {
    SvmForTask(Regression);
    ValidateAgainstListed("svm", Regression, [("epsilon", VReal(x))]);
    SvmRegressionListAcceptsEpsilon(x);
  }
}
