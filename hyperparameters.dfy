/**
  ml_core/common/hyperparameters.py: the description of one hyperparameter, its JSON form,
  the check of one value against it and the check of a whole parameter dict against a table
  of specifications.
*/
module Hyperparameters {
  import opened Wrappers
  import opened Types
  import opened PyDict
  import opened StrOrder

  /** `HyperparameterSpec`; the optional fields default as in the dataclass. */
  datatype Spec = Spec(
    name: string,
    displayName: string,
    ptype: ParamType,
    default: Value,
    description: string,
    min: Option<real> := None,
    max: Option<real> := None,
    choices: Option<seq<Value>> := None,
    applicableTasks: Option<seq<TaskType>> := None,
    advanced: bool := false)

  /** The dataclass fields in declaration order: the keys `asdict` produces. */
  const SpecFields: seq<string> :=
    ["name", "display_name", "type", "default", "description",
     "min", "max", "choices", "applicable_tasks", "advanced"]

  /** The first keyword of `kws` that the dataclass does not declare. */
  function UndeclaredKeyword(kws: seq<string>): (r: Option<string>)
    ensures r.Some? ==> r.value in kws && r.value !in SpecFields
    ensures r.None? <==> forall k | k in kws :: k in SpecFields
  {
    if kws == [] then None
    else if kws[0] !in SpecFields then Some(kws[0])
    else UndeclaredKeyword(kws[1..])
  }

  /**
    `HyperparameterSpec(**fields, **kws)`: the dataclass constructor raises `TypeError` on the
    first keyword it does not declare, and otherwise builds `s`.
  */
  function Construct(s: Spec, kws: seq<string>): (r: Result<Spec, Error>)
    ensures r.Success? <==> forall k | k in kws :: k in SpecFields
    ensures r.Success? ==> r.value == s
    ensures r.Failure? ==> r.error.UnexpectedKeyword? && r.error.keyword in kws && r.error.keyword !in SpecFields
  {
    match UndeclaredKeyword(kws)
    case None => Success(s)
    case Some(k) => Failure(UnexpectedKeyword(k))
  }

  function RealOrNull(x: Option<real>): Value
  {
    if x.Some? then VReal(x.value) else VNull
  }

  function ListOrNull(x: Option<seq<Value>>): Value
  {
    if x.Some? then VList(x.value) else VNull
  }

  /** `[t.value for t in tasks]` */
  function TaskTags(ts: seq<TaskType>): (r: seq<Value>)
    ensures |r| == |ts|
    ensures forall i | 0 <= i < |ts| :: r[i] == VStr(TaskTypeTag(ts[i]))
  {
    seq(|ts|, i requires 0 <= i < |ts| => VStr(TaskTypeTag(ts[i])))
  }

  /**
    `HyperparameterSpec.to_dict`: every field under its own name, the type and the
    applicable tasks replaced by their string tags, an unset field as `null`.
  */
  function ToDict(s: Spec): (d: seq<(string, Value)>)
    ensures Keys(d) == SpecFields
    ensures DistinctKeys(d)
    ensures Get(d, "type") == Some(VStr(ParamTypeTag(s.ptype)))
  {
    var d := [
      ("name", VStr(s.name)),
      ("display_name", VStr(s.displayName)),
      ("type", VStr(ParamTypeTag(s.ptype))),
      ("default", s.default),
      ("description", VStr(s.description)),
      ("min", RealOrNull(s.min)),
      ("max", RealOrNull(s.max)),
      ("choices", ListOrNull(s.choices)),
      ("applicable_tasks",
        if s.applicableTasks.Some? then VList(TaskTags(s.applicableTasks.value)) else VNull),
      ("advanced", VBool(s.advanced))];
    assert Keys(d) == SpecFields;
    GetDistinct(d, 2);
    d
  }

  /** `specs_to_dict_list` */
  function SpecsToDictList(specs: seq<Spec>): (r: seq<seq<(string, Value)>>)
    ensures |r| == |specs|
    ensures forall i | 0 <= i < |specs| :: r[i] == ToDict(specs[i])
  {
    if specs == [] then [] else [ToDict(specs[0])] + SpecsToDictList(specs[1..])
  }

  /** Every dict of the list reads back to the specification it was made from. */
  lemma SpecsToDictListRoundTrip(specs: seq<Spec>)
    ensures forall i | 0 <= i < |specs| :: SpecFromDict(SpecsToDictList(specs)[i]) == Some(specs[i])
  {
    forall i | 0 <= i < |specs| ensures SpecFromDict(SpecsToDictList(specs)[i]) == Some(specs[i]) {
      ToDictRoundTrip(specs[i]);
    }
  }

  // ---------- reading a spec back from its JSON form ----------

  function StrOf(v: Value): Option<string>
  {
    if v.VStr? then Some(v.s) else None
  }

  function RealOrNullOf(v: Value): Option<Option<real>>
  {
    match v
    case VReal(r) => Some(Some(r))
    case VNull => Some(None)
    case _ => None
  }

  function ListOrNullOf(v: Value): Option<Option<seq<Value>>>
  {
    match v
    case VList(xs) => Some(Some(xs))
    case VNull => Some(None)
    case _ => None
  }

  function TasksOfTags(xs: seq<Value>): Option<seq<TaskType>>
  {
    if xs == [] then Some([])
    else
      var tag :- StrOf(xs[0]);
      var t :- TaskTypeFromTag(tag);
      var rest :- TasksOfTags(xs[1..]);
      Some([t] + rest)
  }

  function TasksOrNullOf(v: Value): Option<Option<seq<TaskType>>>
  {
    match v
    case VList(xs) => (match TasksOfTags(xs) case Some(ts) => Some(Some(ts)) case None => None)
    case VNull => Some(None)
    case _ => None
  }

  /** The five leading fields of a spec's JSON form. */
  function LeadingFields(d: seq<(string, Value)>): Option<(string, string, ParamType, Value, string)>
  {
    var nameV :- Get(d, "name");
    var name :- StrOf(nameV);
    var displayV :- Get(d, "display_name");
    var displayName :- StrOf(displayV);
    var typeV :- Get(d, "type");
    var typeTag :- StrOf(typeV);
    var ptype :- ParamTypeFromTag(typeTag);
    var default :- Get(d, "default");
    var descriptionV :- Get(d, "description");
    var description :- StrOf(descriptionV);
    Some((name, displayName, ptype, default, description))
  }

  function DecodeOptional(minV: Value, maxV: Value, choicesV: Value, tasksV: Value, advancedV: Value)
    : Option<(Option<real>, Option<real>, Option<seq<Value>>, Option<seq<TaskType>>, bool)>
  {
    var min :- RealOrNullOf(minV);
    var max :- RealOrNullOf(maxV);
    var choices :- ListOrNullOf(choicesV);
    var tasks :- TasksOrNullOf(tasksV);
    if advancedV.VBool? then Some((min, max, choices, tasks, advancedV.b)) else None
  }

  /** The five optional fields of a spec's JSON form. */
  function OptionalFields(d: seq<(string, Value)>)
    : Option<(Option<real>, Option<real>, Option<seq<Value>>, Option<seq<TaskType>>, bool)>
  {
    var minV :- Get(d, "min");
    var maxV :- Get(d, "max");
    var choicesV :- Get(d, "choices");
    var tasksV :- Get(d, "applicable_tasks");
    var advancedV :- Get(d, "advanced");
    DecodeOptional(minV, maxV, choicesV, tasksV, advancedV)
  }

  /** The spec a JSON dict describes, as a consumer of `to_dict`'s output reads it. */
  function SpecFromDict(d: seq<(string, Value)>): Option<Spec>
  {
    var (name, displayName, ptype, default, description) :- LeadingFields(d);
    var (min, max, choices, tasks, advanced) :- OptionalFields(d);
    Some(Spec(name, displayName, ptype, default, description, min, max, choices, tasks, advanced))
  }

  lemma {:induction false} TaskTagsRoundTrip(ts: seq<TaskType>)
    ensures TasksOfTags(TaskTags(ts)) == Some(ts)
  {
    if ts != [] {
      assert TaskTags(ts)[1..] == TaskTags(ts[1..]);
      TaskTagsRoundTrip(ts[1..]);
      TaskTypeTagRoundTrip(ts[0], "");
      assert [ts[0]] + ts[1..] == ts;
    }
  }

  lemma LeadingFieldsRoundTrip(s: Spec)
    ensures LeadingFields(ToDict(s)) == Some((s.name, s.displayName, s.ptype, s.default, s.description))
  {
    var d := ToDict(s);
    GetDistinct(d, 0);
    GetDistinct(d, 1);
    GetDistinct(d, 2);
    GetDistinct(d, 3);
    GetDistinct(d, 4);
    ParamTypeTagRoundTrip(s.ptype, "");
  }

  lemma OptionalFieldsRoundTrip(s: Spec)
    ensures OptionalFields(ToDict(s)) == Some((s.min, s.max, s.choices, s.applicableTasks, s.advanced))
  {
    var tasksV := if s.applicableTasks.Some? then VList(TaskTags(s.applicableTasks.value)) else VNull;
    if s.applicableTasks.Some? {
      TaskTagsRoundTrip(s.applicableTasks.value);
    }
    assert RealOrNullOf(RealOrNull(s.min)) == Some(s.min);
    assert RealOrNullOf(RealOrNull(s.max)) == Some(s.max);
    assert ListOrNullOf(ListOrNull(s.choices)) == Some(s.choices);
    assert TasksOrNullOf(tasksV) == Some(s.applicableTasks);
    DecodeOptionalOf(RealOrNull(s.min), RealOrNull(s.max), ListOrNull(s.choices), tasksV, VBool(s.advanced),
      s.min, s.max, s.choices, s.applicableTasks, s.advanced);
    OptionalValues(s);
  }

  lemma DecodeOptionalOf(minV: Value, maxV: Value, choicesV: Value, tasksV: Value, advancedV: Value,
    min: Option<real>, max: Option<real>, choices: Option<seq<Value>>, tasks: Option<seq<TaskType>>, advanced: bool)
    requires RealOrNullOf(minV) == Some(min) && RealOrNullOf(maxV) == Some(max)
    requires ListOrNullOf(choicesV) == Some(choices) && TasksOrNullOf(tasksV) == Some(tasks)
    requires advancedV == VBool(advanced)
    ensures DecodeOptional(minV, maxV, choicesV, tasksV, advancedV) == Some((min, max, choices, tasks, advanced))
  {
  }

  lemma OptionalValues(s: Spec)
    ensures Get(ToDict(s), "min") == Some(RealOrNull(s.min))
    ensures Get(ToDict(s), "max") == Some(RealOrNull(s.max))
    ensures Get(ToDict(s), "choices") == Some(ListOrNull(s.choices))
    ensures Get(ToDict(s), "applicable_tasks")
         == Some(if s.applicableTasks.Some? then VList(TaskTags(s.applicableTasks.value)) else VNull)
    ensures Get(ToDict(s), "advanced") == Some(VBool(s.advanced))
  {
    var d := ToDict(s);
    GetDistinct(d, 5);
    GetDistinct(d, 6);
    GetDistinct(d, 7);
    GetDistinct(d, 8);
    GetDistinct(d, 9);
  }

  /** `to_dict` loses nothing: the spec can be read back from it. */
  lemma ToDictRoundTrip(s: Spec)
    ensures SpecFromDict(ToDict(s)) == Some(s)
  {
    LeadingFieldsRoundTrip(s);
    OptionalFieldsRoundTrip(s);
  }

  // ---------- validation of one value ----------

  /** `min <= x <= max` for the bounds that are set. */
  predicate InBounds(spec: Spec, x: real)
  {
    (spec.min.None? || spec.min.value <= x) && (spec.max.None? || x <= spec.max.value)
  }

  /** `choices is None or value in choices` */
  predicate AllowedChoice(spec: Spec, v: Value)
  {
    spec.choices.None? || PyIn(v, spec.choices.value)
  }

  /** A list whose every item is an integer, as the layer sizes `[64, 64]` or `[128, 64, 32]`. */
  predicate IsIntList(v: Value)
  {
    v.VList? && forall i | 0 <= i < |v.items| :: v.items[i].VInt?
  }

  /** The values a specification admits, type by type. */
  predicate Acceptable(spec: Spec, v: Value)
  {
    match spec.ptype
    case Int => IsNumber(v) && InBounds(spec, NumVal(v))
    case Float => IsNumber(v) && InBounds(spec, NumVal(v))
    case Bool => v.VBool?
    case Choice => AllowedChoice(spec, v)
    case Str => v.VStr? && AllowedChoice(spec, v)
    case NumberOrString => (IsNumber(v) && InBounds(spec, NumVal(v))) || (v.VStr? && AllowedChoice(spec, v))
    case IntList => IsIntList(v)
  }

  /** The parameter an error message names, if it names one. */
  function ParamOf(e: Error): Option<string>
  {
    match e
    case NotANumber(p) => Some(p)
    case BelowMinimum(p, _, _) => Some(p)
    case AboveMaximum(p, _, _) => Some(p)
    case NotABoolean(p) => Some(p)
    case NotAString(p) => Some(p)
    case NotOneOf(p, _, _) => Some(p)
    case NotOneOfOrNumeric(p, _, _) => Some(p)
    case NotNumberOrString(p) => Some(p)
    case UnsupportedParamType(_, p) => Some(p)
    case NotAnIntList(p) => Some(p)
    case NotAllowed(p, _) => Some(p)
    case _ => None
  }

  /** The minimum is checked before the maximum. */
  function CheckBounds(spec: Spec, v: Value): (r: Outcome<Error>)
    requires IsNumber(v)
    ensures r.Pass? <==> InBounds(spec, NumVal(v))
    ensures spec.min.Some? && NumVal(v) < spec.min.value ==>
              r == Fail(BelowMinimum(spec.name, v, spec.min.value))
    ensures (spec.min.None? || spec.min.value <= NumVal(v)) && spec.max.Some? && NumVal(v) > spec.max.value ==>
              r == Fail(AboveMaximum(spec.name, v, spec.max.value))
  {
    if spec.min.Some? && NumVal(v) < spec.min.value then Fail(BelowMinimum(spec.name, v, spec.min.value))
    else if spec.max.Some? && NumVal(v) > spec.max.value then Fail(AboveMaximum(spec.name, v, spec.max.value))
    else Pass
  }

  /**
    `validate_value_against_spec` as written: `INT_LIST` has no branch of its own and falls
    through to "Unsupported ParamType", so every value of an `INT_LIST` parameter is rejected.
  */
  function ValidateValueAsWritten(spec: Spec, v: Value): (r: Outcome<Error>)
    ensures spec.ptype != IntList ==> (r.Pass? <==> Acceptable(spec, v))
    ensures spec.ptype == IntList ==> r == Fail(UnsupportedParamType(IntList, spec.name))
    ensures r.Fail? ==> ParamOf(r.error) == Some(spec.name)
  {
    match spec.ptype
    case Int | Float =>
      if !IsNumber(v) then Fail(NotANumber(spec.name)) else CheckBounds(spec, v)
    case Bool =>
      if v.VBool? then Pass else Fail(NotABoolean(spec.name))
    case Choice =>
      if spec.choices.Some? && !PyIn(v, spec.choices.value) then Fail(NotOneOf(spec.name, v, spec.choices.value))
      else Pass
    case Str =>
      if !v.VStr? then Fail(NotAString(spec.name))
      else if spec.choices.Some? && !PyIn(v, spec.choices.value) then Fail(NotOneOf(spec.name, v, spec.choices.value))
      else Pass
    case NumberOrString =>
      if IsNumber(v) then CheckBounds(spec, v)
      else if v.VStr? then
        if spec.choices.Some? && !PyIn(v, spec.choices.value) then Fail(NotOneOfOrNumeric(spec.name, v, spec.choices.value))
        else Pass
      else Fail(NotNumberOrString(spec.name))
    case IntList =>
      Fail(UnsupportedParamType(IntList, spec.name))
  }

  /**
    `None` given for a parameter whose own default is `None`: the "leave it to the estimator"
    value that `max_depth` documents and the random-forest smoke run passes.
  */
  predicate NoneAsDefault(spec: Spec, v: Value)
  {
    v.VNull? && spec.default.VNull?
  }

  /**
    `validate_value_against_spec` with the two cases the registry relies on: `None` is accepted
    for a parameter whose default is `None`, a list of integers is accepted for an `INT_LIST`
    parameter and anything else rejected, and every other value is checked as written.
  */
  function ValidateValue(spec: Spec, v: Value): (r: Outcome<Error>)
    ensures r.Pass? <==> NoneAsDefault(spec, v) || Acceptable(spec, v)
    ensures r.Fail? ==> ParamOf(r.error) == Some(spec.name)
    ensures spec.ptype != IntList && !NoneAsDefault(spec, v) ==> r == ValidateValueAsWritten(spec, v)
  {
    if NoneAsDefault(spec, v) then Pass
    else if spec.ptype == IntList then (if IsIntList(v) then Pass else Fail(NotAnIntList(spec.name)))
    else ValidateValueAsWritten(spec, v)
  }

  /** The as-written check rejects the `[64, 64]` list a `hidden_dims` test passes. */
  lemma IntListRejectedAsWritten(spec: Spec)
    requires spec.ptype == IntList
    ensures ValidateValueAsWritten(spec, VList([VInt(64), VInt(64)])).Fail?
    ensures ValidateValue(spec, VList([VInt(64), VInt(64)])) == Pass
  {
  }

  /**
    As written, `None` is not a number, so a numeric parameter whose default is `None` rejects
    its own default; corrected, `None` passes there, and only there.
  */
  lemma NoneRejectedAsWritten(spec: Spec)
    requires spec.ptype == Int || spec.ptype == Float
    ensures ValidateValueAsWritten(spec, VNull) == Fail(NotANumber(spec.name))
    ensures ValidateValue(spec, VNull) == Pass <==> spec.default == VNull
  {
  }

  /** Which error a number gets from a numeric parameter: the bounds decide, minimum first. */
  lemma NumericVerdict(spec: Spec, v: Value)
    requires spec.ptype == Int || spec.ptype == Float || spec.ptype == NumberOrString
    requires IsNumber(v)
    ensures spec.min.Some? && NumVal(v) < spec.min.value ==>
              ValidateValue(spec, v) == Fail(BelowMinimum(spec.name, v, spec.min.value))
    ensures (spec.min.None? || spec.min.value <= NumVal(v)) && spec.max.Some? && NumVal(v) > spec.max.value ==>
              ValidateValue(spec, v) == Fail(AboveMaximum(spec.name, v, spec.max.value))
    ensures InBounds(spec, NumVal(v)) ==> ValidateValue(spec, v) == Pass
  {
  }

  /** Which error a value of the wrong shape gets. */
  lemma ShapeVerdict(spec: Spec, v: Value)
    requires !NoneAsDefault(spec, v)
    ensures (spec.ptype == Int || spec.ptype == Float) && !IsNumber(v) ==>
              ValidateValue(spec, v) == Fail(NotANumber(spec.name))
    ensures spec.ptype == Bool && !v.VBool? ==> ValidateValue(spec, v) == Fail(NotABoolean(spec.name))
    ensures spec.ptype == Str && !v.VStr? ==> ValidateValue(spec, v) == Fail(NotAString(spec.name))
    ensures spec.ptype == NumberOrString && !IsNumber(v) && !v.VStr? ==>
              ValidateValue(spec, v) == Fail(NotNumberOrString(spec.name))
    ensures spec.ptype == NumberOrString && v.VStr? && !AllowedChoice(spec, v) ==>
              ValidateValue(spec, v) == Fail(NotOneOfOrNumeric(spec.name, v, spec.choices.value))
    ensures (spec.ptype == Choice || (spec.ptype == Str && v.VStr?)) && !AllowedChoice(spec, v) ==>
              ValidateValue(spec, v) == Fail(NotOneOf(spec.name, v, spec.choices.value))
    ensures spec.ptype == IntList && !IsIntList(v) ==> ValidateValue(spec, v) == Fail(NotAnIntList(spec.name))
  {
  }

  // ---------- validation of a parameter dict ----------

  /** One step of `validate_params_against_specs`: the name must be known, the value valid. */
  function CheckEntry(specs: seq<(string, Spec)>, name: string, value: Value): (r: Outcome<Error>)
    ensures name !in Keys(specs) ==> r == Fail(NotAllowed(name, Sort(Keys(specs))))
    ensures name in Keys(specs) ==> r == ValidateValue(Get(specs, name).value, value)
  {
    match Get(specs, name)
    case None => Fail(NotAllowed(name, Sort(Keys(specs))))
    case Some(spec) => ValidateValue(spec, value)
  }

  /** Every entry of `user` passes its check. */
  predicate AllPass(specs: seq<(string, Spec)>, user: seq<(string, Value)>)
  {
    forall i | 0 <= i < |user| :: CheckEntry(specs, user[i].0, user[i].1).Pass?
  }

  /** What `validate_params_against_specs` returns or raises, entry by entry in key order. */
  function ValidateParams(specs: seq<(string, Spec)>, user: seq<(string, Value)>): Result<seq<(string, Value)>, Error>
    decreases |user|
  {
    if user == [] then Success([])
    else
      match CheckEntry(specs, user[0].0, user[0].1)
      case Fail(e) => Failure(e)
      case Pass =>
        match ValidateParams(specs, user[1..])
        case Failure(e) => Failure(e)
        case Success(rest) => Success([user[0]] + rest)
  }

  /** When every entry passes, the parameters come back unchanged: nothing is added or coerced. */
  lemma {:induction false} ValidateParamsAllPass(specs: seq<(string, Spec)>, user: seq<(string, Value)>)
    requires AllPass(specs, user)
    ensures ValidateParams(specs, user) == Success(user)
    decreases |user|
  {
    if user != [] {
      assert CheckEntry(specs, user[0].0, user[0].1).Pass?;
      assert AllPass(specs, user[1..]) by {
        forall i | 0 <= i < |user[1..]| ensures CheckEntry(specs, user[1..][i].0, user[1..][i].1).Pass? {
          assert user[1..][i] == user[i + 1];
        }
      }
      ValidateParamsAllPass(specs, user[1..]);
      assert [user[0]] + user[1..] == user;
    }
  }

  /** The first entry that fails decides the error: validation stops there. */
  lemma {:induction false} ValidateParamsFailsAt(specs: seq<(string, Spec)>, user: seq<(string, Value)>, i: nat)
    requires i < |user|
    requires forall j | 0 <= j < i :: CheckEntry(specs, user[j].0, user[j].1).Pass?
    requires CheckEntry(specs, user[i].0, user[i].1).Fail?
    ensures ValidateParams(specs, user) == Failure(CheckEntry(specs, user[i].0, user[i].1).error)
    decreases i
  {
    if i > 0 {
      assert CheckEntry(specs, user[0].0, user[0].1).Pass?;
      assert user[1..][i - 1] == user[i];
      forall j | 0 <= j < i - 1 ensures CheckEntry(specs, user[1..][j].0, user[1..][j].1).Pass? {
        assert user[1..][j] == user[j + 1];
      }
      ValidateParamsFailsAt(specs, user[1..], i - 1);
    }
  }

  /** Validation succeeds exactly when every entry passes, and then returns its input. */
  lemma {:induction false} ValidateParamsSuccessIff(specs: seq<(string, Spec)>, user: seq<(string, Value)>)
    ensures ValidateParams(specs, user).Success? <==> AllPass(specs, user)
    ensures ValidateParams(specs, user).Success? ==> ValidateParams(specs, user).value == user
    decreases |user|
  {
    if AllPass(specs, user) {
      ValidateParamsAllPass(specs, user);
    } else {
      var i :| 0 <= i < |user| && CheckEntry(specs, user[i].0, user[i].1).Fail?;
      ValidateParamsFirstFailure(specs, user, i);
    }
  }

  /** Some entry fails, so the first failing one decides the outcome. */
  lemma {:induction false} ValidateParamsFirstFailure(specs: seq<(string, Spec)>, user: seq<(string, Value)>, i: nat)
    requires i < |user| && CheckEntry(specs, user[i].0, user[i].1).Fail?
    ensures exists k | 0 <= k <= i ::
              (forall j | 0 <= j < k :: CheckEntry(specs, user[j].0, user[j].1).Pass?) &&
              CheckEntry(specs, user[k].0, user[k].1).Fail? &&
              ValidateParams(specs, user) == Failure(CheckEntry(specs, user[k].0, user[k].1).error)
    decreases i
  {
    if forall j | 0 <= j < i :: CheckEntry(specs, user[j].0, user[j].1).Pass? {
      ValidateParamsFailsAt(specs, user, i);
    } else {
      var j :| 0 <= j < i && CheckEntry(specs, user[j].0, user[j].1).Fail?;
      ValidateParamsFirstFailure(specs, user, j);
    }
  }

  /**
    An unknown name is rejected with the specification names listed in sorted order, provided
    no earlier entry failed.
  */
  lemma UnknownParamRejected(specs: seq<(string, Spec)>, user: seq<(string, Value)>, i: nat)
    requires i < |user| && user[i].0 !in Keys(specs)
    requires forall j | 0 <= j < i :: CheckEntry(specs, user[j].0, user[j].1).Pass?
    ensures ValidateParams(specs, user).Failure?
    ensures var e := ValidateParams(specs, user).error;
            e.NotAllowed? && e.param == user[i].0 &&
            Sorted(e.available) && multiset(e.available) == multiset(Keys(specs))
  {
    ValidateParamsFailsAt(specs, user, i);
  }

  /** A single entry whose name the table does not declare is rejected, naming the table, sorted. */
  lemma LoneUnknownRejected(specs: seq<Spec>, name: string, v: Value, sorted: seq<string>)
    requires UniqueNames(specs) && name !in Names(specs)
    requires Sorted(sorted) && multiset(Names(specs)) == multiset(sorted)
    ensures ValidateParams(SpecsByName(specs), [(name, v)]) == Failure(NotAllowed(name, sorted))
  {
    SortIs(Names(specs), sorted);
    assert CheckEntry(SpecsByName(specs), name, v) == Fail(NotAllowed(name, sorted));
  }

  /** `validate_params_against_specs`: fail-fast over the user's entries in their order. */
  method ValidateParamsAgainstSpecs(specs: seq<(string, Spec)>, userParams: seq<(string, Value)>)
    returns (r: Result<seq<(string, Value)>, Error>)
    requires DistinctKeys(userParams)
    ensures r == ValidateParams(specs, userParams)
    ensures r.Success? ==> r.value == userParams
  {
    var validated: seq<(string, Value)> := [];
    var i := 0;
    while i < |userParams|
      invariant 0 <= i <= |userParams|
      invariant validated == userParams[..i]
      invariant forall j | 0 <= j < i :: CheckEntry(specs, userParams[j].0, userParams[j].1).Pass?
    {
      var (name, value) := userParams[i];
      if name !in Keys(specs) {
        ValidateParamsFailsAt(specs, userParams, i);
        return Failure(NotAllowed(name, Sort(Keys(specs))));
      }
      var spec := Get(specs, name).value;
      var outcome := ValidateValue(spec, value);
      if outcome.Fail? {
        ValidateParamsFailsAt(specs, userParams, i);
        return Failure(outcome.error);
      }
      assert name !in Keys(validated) by {
        forall j | 0 <= j < i ensures Keys(validated)[j] != name {
          assert validated[j] == userParams[j];
        }
      }
      validated := Set(validated, name, value);
      assert userParams[..i + 1] == userParams[..i] + [userParams[i]];
      i := i + 1;
    }
    assert userParams[..i] == userParams;
    ValidateParamsAllPass(specs, userParams);
    return Success(validated);
  }

  // ---------- tables keyed by name ----------

  /** The names of a list of specifications, in order. */
  function Names(specs: seq<Spec>): (r: seq<string>)
    ensures |r| == |specs| && forall i | 0 <= i < |specs| :: r[i] == specs[i].name
  {
    seq(|specs|, i requires 0 <= i < |specs| => specs[i].name)
  }

  predicate UniqueNames(specs: seq<Spec>)
  {
    forall i, j | 0 <= i < j < |specs| :: specs[i].name != specs[j].name
  }

  function NamedPairs(specs: seq<Spec>): seq<(string, Spec)>
  {
    seq(|specs|, i requires 0 <= i < |specs| => (specs[i].name, specs[i]))
  }

  /** `{s.name: s for s in specs}`: later specifications overwrite earlier ones of the same name. */
  function SpecsByName(specs: seq<Spec>): (r: seq<(string, Spec)>)
    ensures UniqueNames(specs) ==> r == NamedPairs(specs) && Keys(r) == Names(specs)
  {
    var pairs := NamedPairs(specs);
    if UniqueNames(specs) then
      assert [] + pairs == pairs;
      MergeFresh([], pairs);
      Merge([], pairs)
    else Merge([], pairs)
  }

  /** In a table without repeated names, each name finds its own specification. */
  lemma SpecsByNameGet(specs: seq<Spec>, i: nat)
    requires UniqueNames(specs) && i < |specs|
    ensures Get(SpecsByName(specs), specs[i].name) == Some(specs[i])
  {
    var d := SpecsByName(specs);
    assert d[i] == (specs[i].name, specs[i]);
    GetDistinct(d, i);
  }

  /** A name that validation lets through belongs to one of the specifications. */
  lemma ValidatedNameDeclared(specs: seq<Spec>, user: seq<(string, Value)>, i: nat) returns (j: nat)
    requires ValidateParams(SpecsByName(specs), user).Success? && i < |user|
    ensures j < |specs| && specs[j].name == user[i].0
  {
    ValidateParamsSuccessIff(SpecsByName(specs), user);
    assert CheckEntry(SpecsByName(specs), user[i].0, user[i].1).Pass?;
    MergeKeys([], NamedPairs(specs), user[i].0);
    j :| 0 <= j < |NamedPairs(specs)| && Keys(NamedPairs(specs))[j] == user[i].0;
  }
}
