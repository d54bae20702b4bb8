# Hyperparameter specifications and variant validation, in Dafny

This project models the part of `ml_core` that describes and checks an algorithm's
hyperparameters. It also models the shaping code around that part in the runner and the
frontend.

- **Specifications.** A `HyperparameterSpec` is a record: name, display name, parameter type,
  default, description, optional bounds, optional choices, optional applicable tasks and an
  "advanced" flag. Its JSON form (`to_dict`) is proved to lose nothing: the spec is read back
  from it.
- **Validation.** A single value is checked against a spec by type, bounds and choices, with
  Python's `isinstance(v, (int, float))` admitting `bool`. A whole parameter dict is checked
  fail-fast in key order. Unknown names are rejected with the sorted list of known ones, and
  on success the dict comes back unchanged.
  The validator the rest of the model uses corrects two gaps of the code as written: an
  `int_list` parameter takes a list of integers, and `None` is taken for a parameter whose
  default is `None` (see "## Findings").
- **The legacy table.** `ALGORITHM_HPARAMS` holds five spec lists. The model covers the lookup
  with its optional task filter, the JSON listing, and `validate_hyperparameters`, which the
  runner uses.
- **Variants.** The per-variant spec lists of SVM, random forest, XGBoost, logistic/linear
  regression and the MLP are modelled, together with the keyword merges their factories
  apply. Factories are defunctionalised as records of estimator class and keyword arguments.
  `AlgorithmDefinition.get_variant` is a lookup keyed by the task family. The catalog is the
  code-keyed registry and its export for the backend; the legacy registry is the metadata
  export over the legacy table.
- **The runner.** `run_experiment` loads, validates, constructs, fits, predicts, optionally
  asks for probabilities, evaluates, then assembles the result. Dataset loading, the model
  constructors, the model and the metrics are collaborators passed in as functions. The
  methods return the trace of steps they took, so the order of steps is part of their
  contracts, together with the conditional keys of the result (`predictions`, `y_proba`,
  `class_labels`).
- **The frontend payload builder.** `buildHyperparametersPayload` is modelled over a small
  JavaScript value type. `Number(...)`, `JSON.parse` and the conversion of non-string property
  keys are host functions.

Python dicts are insertion-ordered association lists (module `PyDict`): `d[k] = v` replaces
in place or appends, `{**a, **b}` is `Merge`, and `setdefault` is `SetDefault`. Errors are
values of one `Error` datatype, one constructor per distinct message. The data a message
interpolates is kept; the message text is not produced.

Files, one module each: `wrappers.dfy`, `types.dfy`, `pydict.dfy` (with `StrOrder`, the string
order and insertion sort behind Python's `sorted`), `hyperparameters.dfy`, `hparam_specs.dfy`,
`algorithm_registry.dfy`, `factories.dfy`, `svm.dfy`, `random_forest.dfy`, `xgboost.dfy`,
`regression.dfy`, `mlp_adapter.dfy`, `classical_definitions.dfy`, `deep_definitions.dfy`,
`catalog.dfy`, `registry.dfy`, `runner.dfy`, `payload.dfy`.

## Model

| member | source | states |
|---|---|---|
| Types.TaskTypeTagRoundTrip | ml_core/common/types.py:3-6 | each task type has its own tag, and a tag names exactly one task type |
| Types.TaskFamilyFromTask | ml_core/tests/test_task_family.py:6-9 | binary and multiclass map to the classification family, regression maps to the regression family |
| Types.TasksOfFamilyInverse | ml_core/tests/test_task_family.py:6-9 | a task is among its family's tasks exactly when the family mapping sends it there |
| Types.ParamTypeTagRoundTrip | ml_core/common/hyperparameters.py:59 | each parameter type has its own string tag, and the tag determines the type |
| Types.PyInStr | ml_core/common/hyperparameters.py:104 | for a string, Python `in choices` is plain membership |
| Hyperparameters.UndeclaredKeyword | ml_core/common/hyperparameters.py:12-51 | the constructor's first undeclared keyword is among the given ones and is not a field; there is none exactly when all are fields |
| Hyperparameters.Construct | ml_core/common/hyperparameters.py:12-51 | the dataclass constructor succeeds exactly when every keyword is a declared field, and otherwise raises on one that is not |
| Hyperparameters.TaskTags | ml_core/common/hyperparameters.py:61 | position by position, the list holds the tag of each task |
| Hyperparameters.ToDict | ml_core/common/hyperparameters.py:53-62 | the JSON form has exactly the ten field names as keys, in declaration order, with no key repeated; `type` is the type's tag |
| Hyperparameters.SpecsToDictList | ml_core/common/hyperparameters.py:65-67 | one JSON dict per spec, in order, each that spec's `to_dict` |
| Hyperparameters.SpecsToDictListRoundTrip | ml_core/common/hyperparameters.py:65-67 | each JSON dict of the list reads back to the spec at the same position |
| Hyperparameters.TaskTagsRoundTrip | ml_core/common/hyperparameters.py:60-61 | the task list is read back from its tags |
| Hyperparameters.LeadingFieldsRoundTrip | ml_core/common/hyperparameters.py:58-59 | name, display name, type, default and description are read back from the JSON form |
| Hyperparameters.OptionalFieldsRoundTrip | ml_core/common/hyperparameters.py:58-61 | bounds, choices, applicable tasks and the advanced flag are read back from the JSON form, an unset one as null |
| Hyperparameters.DecodeOptionalOf | ml_core/common/hyperparameters.py:58-61 | the optional fields decode to the fields their JSON values encode |
| Hyperparameters.OptionalValues | ml_core/common/hyperparameters.py:58-61 | `min`, `max`, `choices`, `applicable_tasks` and `advanced` of the JSON form are the spec's fields, null when unset, tasks as tags |
| Hyperparameters.ToDictRoundTrip | ml_core/common/hyperparameters.py:53-62 | `to_dict` loses nothing: the spec is read back from its JSON form |
| Hyperparameters.CheckBounds | ml_core/common/hyperparameters.py:87-94 | a number passes exactly when it lies within the bounds that are set, ends included; below the minimum is reported first, otherwise above the maximum |
| Hyperparameters.ValidateValueAsWritten | ml_core/common/hyperparameters.py:72-148 | for the five handled types a value passes exactly when acceptable for its type, bounds and choices; an `int_list` parameter is always rejected as unsupported; every error names the parameter |
| Hyperparameters.ValidateValue | ml_core/common/hyperparameters.py:72-148 | a value passes exactly when `None` is given for a parameter whose default is `None`, or when it is acceptable for its spec, with exactly the lists of integers accepted for `int_list` and anything else rejected as not an integer list; apart from those two cases it agrees with the as-written check |
| Hyperparameters.NoneRejectedAsWritten | ml_core/common/hyperparameters.py:81-86 | as written, `None` for an int or float parameter is rejected as not a number; corrected, it passes exactly when the parameter's default is `None` |
| Hyperparameters.IntListRejectedAsWritten | ml_core/common/hyperparameters.py:146-148 | as written, the list `[64, 64]` is rejected for an `int_list` parameter; with the correction it passes |
| Hyperparameters.NumericVerdict | ml_core/common/hyperparameters.py:81-94 | for int, float and number-or-string parameters a number below the minimum, above the maximum or within bounds gets that verdict, minimum first |
| Hyperparameters.ShapeVerdict | ml_core/common/hyperparameters.py:81-144 | apart from `None` for a parameter whose default is `None`, a value of the wrong shape gets its type's error: not a number, not a boolean, not a string, neither number nor string, not one of the choices, or (corrected `int_list`) not a list of integers |
| Hyperparameters.CheckEntry | ml_core/common/hyperparameters.py:171-179 | an unknown name is rejected, listing the known names sorted; a known name's value is checked against its spec |
| Hyperparameters.ValidateParamsAllPass | ml_core/common/hyperparameters.py:168-182 | when every entry passes, the result is the input itself: no default is added and no value coerced |
| Hyperparameters.ValidateParamsFailsAt | ml_core/common/hyperparameters.py:170-180 | the first failing entry decides the error, whatever follows it |
| Hyperparameters.ValidateParamsSuccessIff | ml_core/common/hyperparameters.py:168-182 | validation succeeds exactly when every entry passes, and then returns its input |
| Hyperparameters.ValidateParamsFirstFailure | ml_core/common/hyperparameters.py:170-180 | when some entry fails, the error is that of the first failing entry, all earlier ones having passed |
| Hyperparameters.LoneUnknownRejected | ml_core/common/hyperparameters.py:171-176 | a dict whose one name is undeclared is rejected as not allowed, naming it and listing the declared names sorted |
| Hyperparameters.UnknownParamRejected | ml_core/common/hyperparameters.py:171-176 | an unknown name reached by the loop raises "not allowed", naming it and listing every known name in sorted order |
| Hyperparameters.ValidateParamsAgainstSpecs | ml_core/common/hyperparameters.py:151-182 | the loop agrees with the fail-fast validation, and on success the validated dict equals the user's dict |
| Hyperparameters.Names | ml_core/common/hyperparameters.py:24 | position by position, the names of the specs |
| Hyperparameters.SpecsByName | ml_core/algorithms/hparam_specs.py:431 | without repeated names, the name-keyed table lists each spec under its own name, in order |
| Hyperparameters.SpecsByNameGet | ml_core/algorithms/hparam_specs.py:431 | without repeated names, each name looks up its own spec |
| Hyperparameters.ValidatedNameDeclared | ml_core/algorithms/hparam_specs.py:430-432 | every name that validation lets through is the name of one of the specs |
| HparamSpecs.FilterMembers | ml_core/algorithms/hparam_specs.py:396-399 | a spec survives the task filter exactly when it is in the list and applies to the task |
| HparamSpecs.FilterKeepsOrder | ml_core/algorithms/hparam_specs.py:396-399 | the filtered list is a subsequence of the list: order is kept |
| HparamSpecs.GetHyperparameterSpecs | ml_core/algorithms/hparam_specs.py:378-399 | fails exactly for a name not in the table, listing the sorted names; without a task it returns the full list, with one the filtered list |
| HparamSpecs.GetHyperparameterSpecsAsDicts | ml_core/algorithms/hparam_specs.py:402-410 | succeeds and fails with the lookup; on success one JSON dict per spec, each reading back to that spec |
| HparamSpecs.ValidateIn | ml_core/algorithms/hparam_specs.py:413-432 | an unknown algorithm raises the lookup's error; otherwise success exactly when every entry passes against the task-filtered specs, and then the parameters come back unchanged |
| HparamSpecs.FilterCons | ml_core/algorithms/hparam_specs.py:396-399 | the filter decides the first spec and filters the rest |
| HparamSpecs.TableEntries | ml_core/algorithms/hparam_specs.py:369-375 | each algorithm name of the table finds its own spec list |
| HparamSpecs.TableKeys | ml_core/algorithms/hparam_specs.py:369-375 | the table's names, in order, are svm, random_forest, xgboost, regression and mlp |
| HparamSpecs.KnownAsDicts | ml_core/algorithms/hparam_specs.py:402-410 | the JSON listing succeeds for each of the five names, with or without a task |
| HparamSpecs.UnknownAlgorithmRejected | ml_core/algorithms/hparam_specs.py:386-392 | any other name raises "Unknown algorithm", naming it and listing mlp, random_forest, regression, svm and xgboost in that order |
| HparamSpecs.SvmFiltered | ml_core/algorithms/hparam_specs.py:16-75 | svm keeps all four specs under regression and drops `epsilon` under both classification tasks |
| HparamSpecs.ValidateAgainstListed | ml_core/algorithms/hparam_specs.py:430-432 | for a known algorithm, validation is the loop run against the lookup's list keyed by name |
| HparamSpecs.SvmClassificationListRejectsEpsilon | ml_core/algorithms/hparam_specs.py:16-58 | against svm's three classification specs, `epsilon` alone is rejected as not allowed, listing C, gamma and kernel |
| HparamSpecs.SvmRegressionListAcceptsEpsilon | ml_core/algorithms/hparam_specs.py:60-74 | against svm's four specs, an `epsilon` in [0, 10] alone passes and comes back unchanged |
| HparamSpecs.SvmForTask | ml_core/algorithms/hparam_specs.py:394-399 | the svm lookup for a task returns that filtered list |
| HparamSpecs.SvmEpsilonOnlyForRegression | ml_core/tests/test_hyperparameters_registry.py:37-47 | `epsilon` is among the svm names for a task exactly when the task is regression |
| HparamSpecs.RegressionFiltered | ml_core/algorithms/hparam_specs.py:249-285 | under regression only `fit_intercept` survives the filter of the regression algorithm |
| HparamSpecs.RegressionForRegressionTask | ml_core/algorithms/hparam_specs.py:249-285 | the lookup of the regression algorithm for the regression task returns only `fit_intercept` |
| HparamSpecs.Unfiltered | ml_core/algorithms/hparam_specs.py:394-395 | without a task the lookup returns the declared list unchanged |
| HparamSpecs.ValidatedParamsApplicable | ml_core/algorithms/hparam_specs.py:413-432 | each accepted name is the name of a spec of that algorithm that applies to the task, and the parameters come back unchanged |
| HparamSpecs.TablesWellFormed | ml_core/tests/test_hyperparameters_registry.py:13-29 | every legacy list is non-empty, its names are unique, `min <= max` where both are set and `choices` is non-empty where set |
| HparamSpecs.DefaultsValid | ml_core/tests/test_hyperparameters_registry.py:30-35 | every default in the five legacy lists, `max_depth=None` included, passes its own spec under the corrected check |
| HparamSpecs.SvmDefaultsValid | ml_core/algorithms/hparam_specs.py:16-75 | every svm default passes its spec |
| HparamSpecs.RfDefaultsValid | ml_core/algorithms/hparam_specs.py:81-153 | every random-forest default, `None` for `max_depth` included, passes its spec under the corrected check |
| HparamSpecs.XgbDefaultsValid | ml_core/algorithms/hparam_specs.py:159-243 | every XGBoost default passes its spec |
| HparamSpecs.RegressionDefaultsValid | ml_core/algorithms/hparam_specs.py:249-285 | every regression default passes its spec |
| HparamSpecs.MlpDefaultsValid | ml_core/algorithms/hparam_specs.py:289-364 | every MLP default passes its spec under the corrected check |
| HparamSpecs.RfSmokeParamsVerdict | ml_core/tests/test_rf_variants.py:20-31 | as written, the smoke run's `max_depth=None` is rejected as not a number; corrected, its three parameters pass the random-forest list and come back unchanged |
| HparamSpecs.RfSmokeEntryPasses | ml_core/tests/test_rf_variants.py:24 | each of the smoke run's three entries passes the corrected check against its own spec |
| HparamSpecs.MlpDefaultRejectedAsWritten | ml_core/algorithms/hparam_specs.py:291 | as written, the legacy `hidden_dims` default is rejected as an unsupported type |
| HparamSpecs.SvmEpsilonRejectedForClassification | ml_core/algorithms/hparam_specs.py:430-432 | for a classification task svm rejects `epsilon` as not allowed, listing C, gamma and kernel in sorted order |
| HparamSpecs.SvmEpsilonAcceptedForRegression | ml_core/algorithms/hparam_specs.py:60-74 | for regression svm accepts any `epsilon` in [0, 10] and returns it unchanged |
| AlgorithmRegistry.OrEmpty | ml_core/algorithms/classical_algorithms/svm.py:14 | `params or {}`: the given dict, or the empty one when none is given |
| AlgorithmRegistry.DefaultsOverridden | ml_core/algorithms/classical_algorithms/svm.py:16 | `{**defaults, **params}` has distinct keys, and a key takes the user's value when the user gives one, the default otherwise |
| AlgorithmRegistry.FamilyTags | ml_core/algorithms/algorithm_registry.py:40 | position by position, the tags of the families |
| AlgorithmRegistry.GetVariant | ml_core/algorithms/algorithm_registry.py:36-44 | succeeds exactly when the family is a key, with that key's variant; otherwise raises naming the code, the family and the available families |
| AlgorithmRegistry.GetVariantOfKey | ml_core/algorithms/algorithm_registry.py:36-38 | in a well-formed definition each key finds its own variant, whose family is that key |
| AlgorithmRegistry.GetVariantFamily | ml_core/algorithms/algorithm_registry.py:13-21 | the variant found has the requested family, and a classifier factory exactly for the classification family |
| Factories.Build | ml_core/algorithms/algorithm_registry.py:10 | a factory builds a classifier class exactly when it is a classifier factory, and only the SVM factories wrap a scaler |
| Svm.SvmClassifierFactory | ml_core/algorithms/classical_algorithms/svm.py:13-17 | builds a scaled `SVC` |
| Svm.SvmRegressorFactory | ml_core/algorithms/classical_algorithms/svm.py:20-23 | builds a scaled `SVR` |
| Svm.ClassifierKwargs | ml_core/algorithms/classical_algorithms/svm.py:13-17 | `SVC` gets the user's keywords, plus `probability=True` unless the user sets it |
| Svm.RegressorKwargs | ml_core/algorithms/classical_algorithms/svm.py:20-23 | `SVR` gets exactly the user's keywords, `{}` when none |
| Svm.SvmBaseSpecsProperties | ml_core/algorithms/classical_algorithms/svm.py:26-58 | the names are C, kernel and gamma, unique; both bound pairs are ordered; the kernel choices are the four kernels; each default passes |
| Svm.SvmEpsilonProperties | ml_core/algorithms/classical_algorithms/svm.py:61-72 | `epsilon` is a float in [0, 10] whose default passes |
| RandomForest.RfClassifierFactory | ml_core/algorithms/classical_algorithms/random_forest.py:11-12 | builds an unscaled `RandomForestClassifier` |
| RandomForest.RfRegressorFactory | ml_core/algorithms/classical_algorithms/random_forest.py:15-16 | builds an unscaled `RandomForestRegressor` |
| RandomForest.FactoriesPassThrough | ml_core/algorithms/classical_algorithms/random_forest.py:11-16 | both get exactly the user's keywords, `{}` when none |
| RandomForest.RfBaseSpecsAsWrittenRaises | ml_core/algorithms/classical_algorithms/random_forest.py:34-46 | as written, building the base list raises on the undeclared keyword `nullable` |
| RandomForest.RfBaseSpecsCorrected | ml_core/algorithms/classical_algorithms/random_forest.py:19-76 | without that keyword every spec builds; the names are the five base names, unique |
| RandomForest.CriteriaDisjoint | ml_core/algorithms/classical_algorithms/random_forest.py:78-100 | no value is accepted by both criteria, which share the name `criterion` |
| RandomForest.MaxFeaturesVerdict | ml_core/algorithms/classical_algorithms/random_forest.py:65-75 | any number passes `max_features`, a string exactly when it is sqrt or log2, and "auto" is rejected with the choices listed |
| RandomForest.DefaultsVerdict | ml_core/algorithms/classical_algorithms/random_forest.py:34-46 | as written, the `max_depth` default None is rejected as not a number; corrected, it passes, and so does every other default |
| Xgboost.XgbClassifierFactory | ml_core/algorithms/classical_algorithms/xgboost.py:11-15 | builds an unscaled `XGBClassifier` |
| Xgboost.XgbRegressorFactory | ml_core/algorithms/classical_algorithms/xgboost.py:18-22 | builds an unscaled `XGBRegressor` |
| Xgboost.FactoriesPassThrough | ml_core/algorithms/classical_algorithms/xgboost.py:11-22 | both get exactly the user's keywords, `{}` when none |
| Xgboost.XgbBaseSpecsProperties | ml_core/algorithms/classical_algorithms/xgboost.py:25-106 | seven unique names, each numeric with both bounds set and ordered, no task restriction, and a default that passes |
| Xgboost.LearningRateAboveMaximum | ml_core/algorithms/classical_algorithms/xgboost.py:43-54 | a learning rate above 1 is rejected as above the maximum 1.0, naming `learning_rate` |
| Xgboost.NoApplicableTasksInJson | ml_core/algorithms/classical_algorithms/xgboost.py:29-31 | each spec's JSON form has `applicable_tasks` null |
| RegressionModels.RegressionClassifierFactory | ml_core/algorithms/classical_algorithms/regression.py:11-16 | builds an unscaled `LogisticRegression` |
| RegressionModels.RegressionRegressorFactory | ml_core/algorithms/classical_algorithms/regression.py:19-23 | builds an unscaled `LinearRegression` |
| RegressionModels.ClassifierKwargs | ml_core/algorithms/classical_algorithms/regression.py:11-16 | the user's keywords, plus `max_iter=1000` and `solver="saga"` unless the user sets them |
| RegressionModels.RegressorKwargs | ml_core/algorithms/classical_algorithms/regression.py:19-23 | exactly the user's keywords, `{}` when none |
| RegressionModels.RegressionSpecsProperties | ml_core/algorithms/classical_algorithms/regression.py:26-82 | classification names C, l1_ratio and fit_intercept, unique; regression names only fit_intercept; each default passes |
| RegressionModels.L1RatioUnbounded | ml_core/algorithms/classical_algorithms/regression.py:45-55 | `l1_ratio` accepts exactly the numbers, with no bound |
| RegressionModels.FitInterceptBoolOnly | ml_core/algorithms/classical_algorithms/regression.py:56-81 | both `fit_intercept` specs accept exactly booleans and reject the rest as not a boolean |
| MlpAdapter.MlpClassifierFactory | ml_core/algorithms/deep/mlp_adapter.py:10-13 | builds an `MLPClassifier` with the defaulted keywords |
| MlpAdapter.MlpRegressorFactory | ml_core/algorithms/deep/mlp_adapter.py:16-19 | builds an `MLPRegressor` with the defaulted keywords |
| MlpAdapter.MlpKwargsGet | ml_core/algorithms/deep/mlp_adapter.py:10-19 | `hidden_dims` is always present, [64, 64] only when the user gave none, and every other key is the user's |
| MlpAdapter.MlpSpecsProperties | ml_core/algorithms/deep/mlp_adapter.py:22-84 | the seven names in order, unique, and every default passes under the corrected check |
| MlpAdapter.HiddenDimsRejectedAsWritten | ml_core/algorithms/deep/mlp_adapter.py:24-30 | as written, the default [64, 64] is rejected as an unsupported type; corrected, it passes |
| ClassicalDefinitions.SvmDefinitionShape | ml_core/algorithms/classical_algorithms/definitions.py:14-31 | two variants, classification then regression, each under its own family; the classification names are C, kernel and gamma; regression adds `epsilon` to the base list |
| ClassicalDefinitions.SvmClassificationRejectsEpsilon | ml_core/tests/test_svm_variants.py:22-36 | the classification variant rejects `epsilon` as not allowed, listing C, gamma and kernel |
| ClassicalDefinitions.SvmRegressionAcceptsEpsilonAndC | ml_core/tests/test_svm_variants.py:39-50 | the regression variant accepts in-range `epsilon` and `C` and returns them unchanged |
| ClassicalDefinitions.RfDefinitionShape | ml_core/algorithms/catalog.py:13 | the random-forest definition is well formed, with a classification and a regression variant |
| ClassicalDefinitions.XgbDefinitionShape | ml_core/algorithms/catalog.py:14 | the XGBoost definition is well formed, with a classification and a regression variant |
| ClassicalDefinitions.RegressionDefinitionShape | ml_core/algorithms/catalog.py:15 | the regression definition is well formed, with a classification and a regression variant |
| ClassicalDefinitions.RfRejectsAuto | ml_core/tests/test_rf_variants.py:9-17 | the classification variant rejects `max_features="auto"`, listing sqrt and log2 |
| ClassicalDefinitions.XgbRejectsLearningRateAboveMax | ml_core/tests/test_xgboost_variant.py:10-16 | both variants reject a learning rate above 1 as above the maximum |
| ClassicalDefinitions.RegressionRejectsC | ml_core/tests/test_regression_variants.py:10-16 | the regression variant rejects `C` as not allowed, listing only fit_intercept |
| DeepDefinitions.MlpDefinitionShape | ml_core/algorithms/deep/definitions.py:12-29 | code "mlp", kind "deep", a classification and a regression variant each under its own family, with identical spec names |
| DeepDefinitions.MlpClassifierBuilt | ml_core/tests/test_mlp_variants.py:6-10 | the classification factory given `max_epochs` builds an `MLPClassifier` with `hidden_dims` defaulted |
| DeepDefinitions.HiddenDimsThroughVariant | ml_core/algorithms/deep/mlp_adapter.py:24-30 | as written any `hidden_dims` is rejected; corrected, the classification variant returns a list of integers unchanged and rejects any other value as not an integer list |
| DeepDefinitions.HiddenDimsNonListRejected | ml_core/algorithms/deep/mlp_adapter.py:24-30 | a `hidden_dims` that is no list, as a string or a number, is rejected by both MLP variants, naming the parameter |
| Catalog.ImportNames | ml_core/algorithms/catalog.py:6-8 | an import succeeds exactly when every imported name is defined, and otherwise fails on one that is not |
| Catalog.CatalogImportFails | ml_core/algorithms/catalog.py:6-7 | as written, importing the catalog fails on `RF_DEFINITION` |
| Catalog.AlgorithmsKeyedByCode | ml_core/algorithms/catalog.py:11-17 | the keys are the five codes, distinct, each equal to its definition's code, and every definition is well formed |
| Catalog.GetAlgorithm | ml_core/algorithms/catalog.py:20-25 | succeeds exactly for a registered code, with the definition under it; otherwise raises listing the sorted codes |
| Catalog.GetAlgorithmOfKey | ml_core/algorithms/catalog.py:20-22 | every registered definition is found by its own code |
| Catalog.ValidateForTask | ml_core/tests/test_svm_variants.py:11-19 | validation through a variant returns the parameters unchanged when it succeeds |
| Catalog.EveryTaskHasVariant | ml_core/algorithms/algorithm_registry.py:36-38 | every registered algorithm has a variant for every task's family, with that family |
| Catalog.SvmClassificationVariantTest | ml_core/tests/test_svm_variants.py:22-36 | through the catalog, svm for multiclass rejects `epsilon` as not allowed, listing C, gamma and kernel |
| Catalog.SvmRegressionVariantTest | ml_core/tests/test_svm_variants.py:39-50 | through the catalog, svm for regression accepts `epsilon` 0.2 with `C` 1.5 and returns both unchanged |
| Catalog.RfVariantTest | ml_core/tests/test_rf_variants.py:9-17 | random forest rejects `max_features="auto"` for binary classification |
| Catalog.XgbVariantTest | ml_core/tests/test_xgboost_variant.py:10-16 | XGBoost for binary classification rejects any learning rate above 1.0, such as the 2.0 of the test, as above the maximum 1.0 |
| Catalog.RegressionVariantTest | ml_core/tests/test_regression_variants.py:10-16 | the regression algorithm rejects `C` for the regression task |
| Catalog.FamilyAttribute | ml_core/algorithms/catalog.py:62-65 | of the attributes the export could read, a family member has `value` and `name` and has neither `code` nor `supported_tasks` (nor `hyperparams`), whose access raises |
| Catalog.ExportAsWrittenRaises | ml_core/algorithms/catalog.py:62-65 | as written, the export raises on `code` as soon as some algorithm has a variant |
| Catalog.CatalogExportRaises | ml_core/algorithms/catalog.py:28-72 | the registry's own export raises |
| Catalog.TaskTagList | ml_core/algorithms/catalog.py:65 | position by position, the tags of the tasks |
| Catalog.ExportVariants | ml_core/algorithms/catalog.py:62-68 | one variant record per variant of the definition, in order, each that variant's export |
| Catalog.ExportAlgorithmsForBackend | ml_core/algorithms/catalog.py:28-72 | one record per algorithm in registry order, each with its variants in order |
| Catalog.VariantCodePosition | ml_core/algorithms/catalog.py:62-68 | the variant codes of the registry list each algorithm's codes in a block of their own, at a known offset |
| Catalog.OffsetMonotone | ml_core/algorithms/catalog.py:62-68 | a later algorithm's variant codes come after an earlier one's |
| Catalog.ExportVariantCodesDistinct | ml_core/algorithms/catalog.py:62-68 | in a registry keyed by code whose variants carry distinct codes, no two exported variants share a code, so the backend's upsert by variant code keeps every one |
| Catalog.ExportSupportedTasks | ml_core/algorithms/catalog.py:65 | a task's tag is among a variant's supported tasks exactly when the task belongs to the variant's family |
| Catalog.ExportSpecsRoundTrip | ml_core/algorithms/catalog.py:66 | a variant's exported specs, one per spec, read back to the specs |
| Catalog.VariantCodesOfRegistry | ml_core/algorithms/catalog.py:11-17 | the registry's variants carry, in order, the codes "svc" and "svr" of SVM and then those of random forest, XGBoost, regression and MLP |
| Catalog.RegistryVariantCodesDistinct | ml_core/algorithms/catalog.py:64 | no two of the registry's ten variant codes are equal |
| Catalog.CatalogExportOrder | ml_core/algorithms/catalog.py:53-72 | the exported codes are the registry's keys in order, and the registry is valid: keyed by code, well formed, with distinct variant codes |
| LegacyRegistry.GetAllAlgorithmsMeta | ml_core/algorithms/registry.py:54-72 | succeeds exactly when every code is known; one entry per meta in order, fields copied and specs as looked up; on failure the first unknown code's error |
| LegacyRegistry.MetasKnown | ml_core/algorithms/registry.py:20-51 | every meta code is a key of the legacy table, so the export never raises |
| LegacyRegistry.UnknownCodeRaises | ml_core/algorithms/registry.py:61 | a meta with a code outside the table makes the lookup raise "Unknown algorithm" |
| LegacyRegistry.EntrySpecsUnfiltered | ml_core/algorithms/registry.py:61 | an entry's specs are the JSON forms of the full, unfiltered list, each reading back |
| Runner.BuildModel | ml_core/runner.py:43-75 | validation comes first; an invalid set stops before any constructor; otherwise the deep constructor is called exactly for the deep algorithms, with the parameters (`{}` when none) |
| Runner.PredictProba | ml_core/runner.py:104-125 | probabilities are returned exactly when requested, the task is classification, the model has `predict_proba` and the call succeeds; otherwise none |
| Runner.PredictionsToDict | ml_core/runner.py:78-101 | `y_true` is the test labels and `y_pred` the prediction; `y_proba` exactly when given; `class_labels` exactly for classification; no other key |
| Runner.PredictionsEntries | ml_core/runner.py:88-99 | the two to four entries have distinct keys and hold what was put under them |
| Runner.DatasetSectionAsWrittenRaises | ml_core/runner.py:184 | as written, the dataset section raises because `DatasetMeta` has no `to_dict` |
| Runner.MetaToDict | ml_core/data_handlers/metadata.py:12-26 | the dataset section has the nine field names as keys, in declaration order, distinct |
| Runner.OptStrListRoundTrip | ml_core/runner.py:97-98 | an optional string list is read back from its JSON form |
| Runner.MetaDictFields | ml_core/data_handlers/metadata.py:12-26 | each field of the dataset section is the field of the metadata, the task as its tag, unset ones null |
| Runner.MetaDictRoundTrip | ml_core/data_handlers/metadata.py:12-26 | the dataset section loses nothing: the metadata is read back from it |
| Runner.AlgorithmSectionOf | ml_core/runner.py:185-189 | the kind is "deep" exactly for the deep algorithms and "classical" otherwise; name and parameters (`{}` when none) as configured |
| Runner.TrainAndReport | ml_core/runner.py:159-196 | fit, predict, the optional probabilities, then the report, stopping at the first that raises; on success the shaped result with metrics and predictions from the fitted model |
| Runner.RunOnDataset | ml_core/runner.py:152-196 | an invalid set stops after validation with its error; construction implies validation passed; the steps follow the pipeline, all of it on success, and then the metrics and predictions come from the model the selected constructor built from `params or {}`, fitted on the training split |
| Runner.RunExperiment | ml_core/runner.py:131-196 | load first; a load failure, such as an unregistered dataset, stops there; a model is built only after validation passes; probabilities only when requested for classification; on success the full pipeline and the shaped result, whose metrics and predictions come from the model the selected constructor built from `params or {}`, fitted on the loaded training split |
| Runner.StepsAfterLoad | ml_core/runner.py:146-157 | loading adds only itself to the steps that follow |
| Runner.StartedPipeline | ml_core/runner.py:153-180 | the steps after construction extend a prefix of the pipeline, and complete it when training completes |
| Payload.Prop | frontend/src/utils/hyperparameters.js:11 | property access fails with a `TypeError` exactly on null or undefined |
| Payload.OptProp | frontend/src/utils/hyperparameters.js:19 | optional chaining gives undefined on null or undefined and the property otherwise |
| Payload.TrimStart | frontend/src/utils/hyperparameters.js:3 | never longer, and what is left starts with no white space |
| Payload.TrimEnd | frontend/src/utils/hyperparameters.js:3 | never longer |
| Payload.TrimStartBlank | frontend/src/utils/hyperparameters.js:3 | trimming the start leaves nothing exactly when the string is all white space |
| Payload.TrimEndKeepsFirst | frontend/src/utils/hyperparameters.js:3 | a string starting with a non-space character trims at the end to a non-empty one |
| Payload.TrimEmptyIffBlank | frontend/src/utils/hyperparameters.js:3 | `trim()` gives "" exactly for empty or white-space-only strings |
| Payload.IsNumberStringIff | frontend/src/utils/hyperparameters.js:1-5 | a number string is a string, not blank, that `Number` converts to a number |
| Payload.ApplicableFilterIs | frontend/src/utils/hyperparameters.js:9-14 | the filter raises exactly when some element is null or undefined; otherwise it keeps exactly the listed specs that apply to the task |
| Payload.ChosenValue | frontend/src/utils/hyperparameters.js:22-25 | the user's value unless it is undefined, then the default; `null` is kept |
| Payload.IntListCoercion | frontend/src/utils/hyperparameters.js:27-46 | arrays pass through; a string parsing to an integer array becomes that array; anything else is kept as it is |
| Payload.NumberOrStringCoercion | frontend/src/utils/hyperparameters.js:48-55 | the value changes exactly when it is a number string, and then becomes its number |
| Payload.OtherTypesPassThrough | frontend/src/utils/hyperparameters.js:57 | any other spec type keeps the value as it is |
| Payload.BuildHyperparametersPayload | frontend/src/utils/hyperparameters.js:7-61 | the loop over the applicable specs builds the payload the fold defines |
| Payload.PayloadDistinct | frontend/src/utils/hyperparameters.js:16-58 | the payload has no repeated key |
| Payload.PayloadKeys | frontend/src/utils/hyperparameters.js:18-20 | a key is present exactly when some named spec has it |
| Payload.PayloadValue | frontend/src/utils/hyperparameters.js:22-57 | a key holds the coerced value of the last spec with that name |
| Payload.PayloadFromApplicable | frontend/src/utils/hyperparameters.js:7-61 | the builder raises exactly when a task is given and some listed spec is null or undefined; otherwise its keys are exactly the names of the named applicable specs, distinct, each applicable to the task |

## Left out

- I/O and computation outside the core are collaborators of the runner: reading and splitting
  datasets (`load_data`, `train_test_split`), the model constructors `get_classical_model` and
  `get_deep_model`, model fitting and prediction, and the metrics report. Only their results and
  failures are modelled. `load_data`'s rejection of an unregistered name is stated as a
  property of the loader (`Runner.RejectsUnknownDatasets`), over the names `DATASET_LOADERS`
  registers.
- Model internals: ml_core/algorithms/deep/mlp.py, ml_core/algorithms/classical.py,
  ml_core/algorithms/ml_models.py and ml_core/demo.py are not part of this model. The factories
  are records of estimator class and keyword arguments, not estimators.
- ml_core/evaluation/metrics.py is not part of this model. The report is an opaque dict.
- `fit` returns the fitted model rather than mutating it in place. `hasattr(model,
  "predict_proba")` is a predicate of the collaborators.
- The name mismatch between the runner's factory path (`"logistic"`, classical.py:60) and the
  legacy table (`"regression"`) lies inside the abstract constructors and is not modelled.
- Numbers are `int` and `real`; there is no IEEE floating point, NaN or infinity. JavaScript
  numbers are finite reals.
- Error messages are not rendered. Each error keeps the data its message interpolates.
- The validator and the runner take the spec table, and the legacy registry takes the spec
  lookup, as parameters. This keeps the proofs small. The instances are
  `HparamSpecs.AlgorithmHparams` and `LegacyRegistry.LegacyLookup`.
- The definitions `RF_DEFINITION`, `XGB_DEFINITION` and `REGRESSION_DEFINITION` that catalog.py
  imports do not exist in the source. The model builds them from each file's factories and spec
  lists the way `SVM_DEFINITION` is built, so that the corrected catalog has all five entries.
- Several tests call `get_variant` with a `TaskType`. The variants are keyed by `TaskFamily`,
  so such a call would fail. The model follows the code: the test lemmas look the variant up by
  `task_family_from_task`.
- The datasets "diabetes" (ml_core/tests/test_rf_variants.py:35), "sinus"
  (ml_core/tests/test_runner_contract.py:76) and "sinx" (the comment at ml_core/runner.py:26)
  are not registered, so `load_data` rejects them. No property depends on the datasets available.
- JavaScript: `includes` is modelled with structural equality, so object identity is not
  modelled. Property order of objects with integer-like keys is not modelled. Property access
  on strings and arrays is not modelled: such values have no named properties here. What
  `JSON.stringify` later drops, such as undefined values, is not modelled.
- `Payload.TrimEnd`: states only that the result is never longer. Its relation to blank strings
  is what `Payload.TrimEmptyIffBlank` proves for `trim()` as a whole.
- `TaskFamily`, `ParamType` and `task_family_from_task` are imported from
  ml_core/common/types.py, which defines only `TaskType`. The model declares them itself. The
  `ParamType` tags "int", "float", "bool", "choice", "int_list" and "number_or_string" are the
  ones the frontend compares against. The tags "string" for `ParamType.STRING` and
  "classification" and "regression" for the two families appear in no source file; they are
  this model's choice, and only their distinctness is relied on.
- `AlgorithmVariant` (ml_core/algorithms/algorithm_registry.py:13-21) has no `code`, yet the
  export reads one. The model gives `Variant` a `code` field. SVM's variants carry "svc" and
  "svr", as the export's docstring and the backend tests use them. The codes of the other eight
  variants ("rf_classifier", "rf_regressor", "xgb_classifier", "xgb_regressor",
  "logistic_regression", "linear_regression", "mlp_classifier", "mlp_regressor") are the
  model's, named after their factories.
- Hyperparameters.ToDict: bounds are `real` in the model, so an integer bound such as
  `min=10` is rendered as the real 10.0, where `asdict` keeps the Python `int`.
- Python dict key uniqueness is assumed of the user's parameters
  (`ValidateParamsAgainstSpecs` requires distinct keys), as every Python dict enjoys.

## Findings

| source | as written | input that shows it | evidently intended | confidence | as-written member | corrected member |
|---|---|---|---|---|---|---|
| ml_core/common/hyperparameters.py:146-148 | `INT_LIST` has no branch and falls to "Unsupported ParamType" | `hidden_dims=[64, 64]` against the MLP spec | a list of integers is accepted for an `int_list` parameter, as the validation tests expect, and any other value rejected | not executed | Hyperparameters.IntListRejectedAsWritten | Hyperparameters.ValidateValue |
| ml_core/algorithms/classical_algorithms/random_forest.py:39 | `nullable=True` is passed to `HyperparameterSpec`, which declares no such field | calling `rf_base_specs()` | the spec is built without that keyword | not executed | RandomForest.RfBaseSpecsAsWrittenRaises | RandomForest.RfBaseSpecsCorrected |
| ml_core/algorithms/catalog.py:6-7 | imports `RF_DEFINITION`, `XGB_DEFINITION` and `REGRESSION_DEFINITION`, which definitions.py does not define | importing the catalog module | all five definitions exist and are registered under their codes | not executed | Catalog.CatalogImportFails | Catalog.AlgorithmsKeyedByCode |
| ml_core/algorithms/catalog.py:62-65 | iterates the family-keyed dict and reads `v.code` and `v.supported_tasks`, which a `TaskFamily` does not have | `export_algorithms_for_backend()` with SVM registered | each variant is exported under a code of its own, with its family's task tags | not executed | Catalog.CatalogExportRaises | Catalog.ExportVariantCodesDistinct |
| ml_core/algorithms/classical_algorithms/random_forest.py:34-46 | `max_depth` is an `INT` parameter with default `None`, and the `INT` branch (ml_core/common/hyperparameters.py:81-86) rejects `None` as not a number | `{"max_depth": None}` in the random-forest smoke run (ml_core/tests/test_rf_variants.py:20-31), or the spec's own default | `None`, the documented "expand until pure" setting, is accepted for a parameter whose default is `None` | not executed | HparamSpecs.RfSmokeParamsVerdict | Hyperparameters.ValidateValue |
| ml_core/runner.py:184 | calls `dataset.meta.to_dict()`, which `DatasetMeta` does not define | any run that gets to the result | the dataset section is the metadata's fields (`asdict`) | not executed | Runner.DatasetSectionAsWrittenRaises | Runner.MetaDictRoundTrip |
