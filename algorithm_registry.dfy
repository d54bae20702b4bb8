/**
  ml_core/algorithms/algorithm_registry.py: an algorithm with one variant per task family, each
  variant naming the factory that builds its estimator and the hyperparameters it accepts.
*/
module AlgorithmRegistry {
  import opened Wrappers
  import opened Types
  import opened PyDict
  import opened Hyperparameters

  /** The model factories the variants name; `Factories.Build` says what each one constructs. */
  datatype FactoryId =
    | SvmClassifier | SvmRegressor
    | RfClassifier | RfRegressor
    | XgbClassifier | XgbRegressor
    | RegressionClassifier | RegressionRegressor
    | MlpClassifier | MlpRegressor

  /** The factories that build a classifier rather than a regressor. */
  predicate IsClassifierFactory(f: FactoryId)
  {
    f.SvmClassifier? || f.RfClassifier? || f.XgbClassifier? || f.RegressionClassifier? || f.MlpClassifier?
  }

  /**
    An estimator as the library constructor call that makes it: the class, its keyword
    arguments, and whether it sits behind a `StandardScaler` in a pipeline.
  */
  datatype Estimator = Estimator(cls: string, kwargs: seq<(string, Value)>, scaled: bool)

  /** `params or {}` */
  function OrEmpty(params: Option<seq<(string, Value)>>): (r: seq<(string, Value)>)
    ensures params.Some? ==> r == params.value
    ensures params.None? ==> r == []
  {
    if params.Some? then params.value else []
  }

  /** `{**defaults, **(params or {})}`: a user value overrides a default of the same name. */
  lemma DefaultsOverridden(defaults: seq<(string, Value)>, params: Option<seq<(string, Value)>>, k: string)
    requires DistinctKeys(defaults)
    requires params.Some? ==> DistinctKeys(params.value)
    ensures DistinctKeys(Merge(defaults, OrEmpty(params)))
    ensures Get(Merge(defaults, OrEmpty(params)), k)
         == if k in Keys(OrEmpty(params)) then Get(OrEmpty(params), k) else Get(defaults, k)
  {
    MergeGet(defaults, OrEmpty(params), k);
    MergeKeys(defaults, OrEmpty(params), k);
  }

  /**
    `AlgorithmVariant`, with the `code` the catalog's export reads from each variant; the
    dataclass as written declares no such field.
  */
  datatype Variant = Variant(family: TaskFamily, factory: FactoryId, hyperparams: seq<Spec>, code: string)

  /** `AlgorithmDefinition`; `variants` is a dict keyed by family, in insertion order. */
  datatype Definition = Definition(
    code: string, name: string, kind: string, description: string,
    variants: seq<(TaskFamily, Variant)>)

  /** `[f.value for f in families]` */
  function FamilyTags(fs: seq<TaskFamily>): (r: seq<string>)
    ensures |r| == |fs| && forall i | 0 <= i < |fs| :: r[i] == TaskFamilyTag(fs[i])
  {
    seq(|fs|, i requires 0 <= i < |fs| => TaskFamilyTag(fs[i]))
  }

  /** `AlgorithmDefinition.get_variant` */
  function GetVariant(d: Definition, family: TaskFamily): (r: Result<Variant, Error>)
    ensures r.Success? <==> family in Keys(d.variants)
    ensures r.Success? ==> (family, r.value) in d.variants
    ensures r.Failure? ==> r.error == UnsupportedFamily(d.code, family, FamilyTags(Keys(d.variants)))
  {
    match Get(d.variants, family)
    case Some(v) => Success(v)
    case None => Failure(UnsupportedFamily(d.code, family, FamilyTags(Keys(d.variants))))
  }

  /**
    A definition whose variants are keyed by their own family, each building a classifier exactly
    when it is the classification variant, and each with unique parameter names.
  */
  predicate WellFormedDefinition(d: Definition)
  {
    DistinctKeys(d.variants) &&
    forall i | 0 <= i < |d.variants| ::
      d.variants[i].1.family == d.variants[i].0 &&
      (d.variants[i].0 == Classification <==> IsClassifierFactory(d.variants[i].1.factory)) &&
      UniqueNames(d.variants[i].1.hyperparams)
  }

  /** Every key finds the variant stored under it, and that variant is of the requested family. */
  lemma GetVariantOfKey(d: Definition, i: nat)
    requires WellFormedDefinition(d) && i < |d.variants|
    ensures GetVariant(d, d.variants[i].0) == Success(d.variants[i].1)
    ensures d.variants[i].1.family == d.variants[i].0
  {
    GetDistinct(d.variants, i);
  }

  /** A definition listing a classification variant and then a regression one finds each under its family. */
  lemma TwoVariantLookup(d: Definition)
    requires |d.variants| == 2 && d.variants[0].0 == Classification && d.variants[1].0 == RegressionFamily
    ensures Keys(d.variants) == [Classification, RegressionFamily]
    ensures GetVariant(d, Classification) == Success(d.variants[0].1)
    ensures GetVariant(d, RegressionFamily) == Success(d.variants[1].1)
  {
    assert Keys(d.variants) == [Classification, RegressionFamily];
    GetDistinct(d.variants, 0);
    GetDistinct(d.variants, 1);
  }

  /** In a well-formed definition the variant found for a family is of that family. */
  lemma GetVariantFamily(d: Definition, family: TaskFamily)
    requires WellFormedDefinition(d) && GetVariant(d, family).Success?
    ensures GetVariant(d, family).value.family == family
    ensures IsClassifierFactory(GetVariant(d, family).value.factory) <==> family == Classification
  {
    var v := GetVariant(d, family).value;
    var i :| 0 <= i < |d.variants| && d.variants[i] == (family, v);
  }

  /** `validate_params_against_specs({s.name: s for s in variant.hyperparams}, params)` */
  function ValidateForVariant(v: Variant, params: seq<(string, Value)>): Result<seq<(string, Value)>, Error>
  {
    ValidateParams(SpecsByName(v.hyperparams), params)
  }
}
