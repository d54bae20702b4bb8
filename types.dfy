/**
  The task taxonomy, the parameter-type vocabulary, the JSON-like values hyperparameters take,
  and the kinds of error the core raises.

  `TaskType` is ml_core/common/types.py; `TaskFamily`, `ParamType` and `task_family_from_task`
  are imported from that module by the rest of the core but are not defined in the file as it
  stands, so they are declared here. Of their tags, "int", "float", "bool", "choice",
  "int_list" and "number_or_string" are those the frontend compares against; "string" and the
  family tags "classification" and "regression" are spelled by no file and are this model's.
*/
module Types {
  import opened Wrappers

  datatype TaskType = Binary | Multiclass | Regression

  /** `TaskType.value` */
  function TaskTypeTag(t: TaskType): string
  {
    match t
    case Binary => "binary_classification"
    case Multiclass => "multiclass_classification"
    case Regression => "regression"
  }

  function TaskTypeFromTag(s: string): Option<TaskType>
  {
    if s == "binary_classification" then Some(Binary)
    else if s == "multiclass_classification" then Some(Multiclass)
    else if s == "regression" then Some(Regression)
    else None
  }

  /** The tags name the task types one-to-one. */
  lemma TaskTypeTagRoundTrip(t: TaskType, s: string)
    ensures TaskTypeFromTag(TaskTypeTag(t)) == Some(t)
    ensures TaskTypeFromTag(s) == Some(t) ==> s == TaskTypeTag(t)
  {
  }

  predicate IsClassification(t: TaskType)
  {
    t == Binary || t == Multiclass
  }

  /** The kind of estimator a task needs; variants are keyed by it. */
  datatype TaskFamily = Classification | RegressionFamily

  function TaskFamilyTag(f: TaskFamily): string
  {
    match f
    case Classification => "classification"
    case RegressionFamily => "regression"
  }

  /** `task_family_from_task` */
  function TaskFamilyFromTask(t: TaskType): (f: TaskFamily)
    ensures f == Classification <==> IsClassification(t)
  {
    if IsClassification(t) then Classification else RegressionFamily
  }

  /** The task types of one family, in declaration order. */
  function TasksOfFamily(f: TaskFamily): seq<TaskType>
  {
    match f
    case Classification => [Binary, Multiclass]
    case RegressionFamily => [Regression]
  }

  /** A task belongs to exactly the family `task_family_from_task` assigns it. */
  lemma TasksOfFamilyInverse(f: TaskFamily, t: TaskType)
    ensures t in TasksOfFamily(f) <==> TaskFamilyFromTask(t) == f
  {
  }

  datatype ParamType = Int | Float | Bool | Str | Choice | NumberOrString | IntList

  /** `ParamType.value` */
  function ParamTypeTag(p: ParamType): string
  {
    match p
    case Int => "int"
    case Float => "float"
    case Bool => "bool"
    case Str => "string"
    case Choice => "choice"
    case NumberOrString => "number_or_string"
    case IntList => "int_list"
  }

  function ParamTypeFromTag(s: string): Option<ParamType>
  {
    if s == "int" then Some(Int)
    else if s == "float" then Some(Float)
    else if s == "bool" then Some(Bool)
    else if s == "string" then Some(Str)
    else if s == "choice" then Some(Choice)
    else if s == "number_or_string" then Some(NumberOrString)
    else if s == "int_list" then Some(IntList)
    else None
  }

  lemma ParamTypeTagRoundTrip(p: ParamType, s: string)
    ensures ParamTypeFromTag(ParamTypeTag(p)) == Some(p)
    ensures ParamTypeFromTag(s) == Some(p) ==> s == ParamTypeTag(p)
  {
  }

  /** A JSON-compatible Python value: what a hyperparameter, a default or a choice can be. */
  datatype Value =
    | VInt(i: int)
    | VReal(r: real)
    | VBool(b: bool)
    | VStr(s: string)
    | VList(items: seq<Value>)
    | VNull

  /** `isinstance(v, (int, float))`: `bool` is a subclass of `int` in Python, so it counts. */
  predicate IsNumber(v: Value)
  {
    v.VInt? || v.VReal? || v.VBool?
  }

  /** The number a numeric value stands for in comparisons (`True == 1`). */
  function NumVal(v: Value): real
    requires IsNumber(v)
  {
    match v
    case VInt(i) => i as real
    case VReal(r) => r
    case VBool(b) => if b then 1.0 else 0.0
  }

  /** Python `a == b`: numbers compare by value across int, float and bool; lists elementwise. */
  predicate PyEq(a: Value, b: Value)
  {
    if IsNumber(a) && IsNumber(b) then NumVal(a) == NumVal(b)
    else match (a, b)
      case (VStr(x), VStr(y)) => x == y
      case (VNull, VNull) => true
      case (VList(xs), VList(ys)) =>
        |xs| == |ys| && forall i | 0 <= i < |xs| :: PyEq(xs[i], ys[i])
      case _ => false
  }

  /** Python `v in xs` for a list `xs`. */
  predicate PyIn(v: Value, xs: seq<Value>)
  {
    exists i | 0 <= i < |xs| :: PyEq(v, xs[i])
  }

  /** Equal strings are the only strings Python `==` identifies. */
  lemma PyInStr(s: string, xs: seq<Value>)
    ensures PyIn(VStr(s), xs) <==> VStr(s) in xs
  {
    if VStr(s) in xs {
      var i :| 0 <= i < |xs| && xs[i] == VStr(s);
      assert PyEq(VStr(s), xs[i]);
    }
  }

  /** The errors the core raises, one constructor per distinct message. */
  datatype Error =
    | NotANumber(param: string)                                         // "... must be a number (int/float)"
    | BelowMinimum(param: string, value: Value, min: real)              // "... is below the minimum ..."
    | AboveMaximum(param: string, value: Value, max: real)              // "... is above the maximum ..."
    | NotABoolean(param: string)                                        // "... must be a boolean"
    | NotAString(param: string)                                         // "... must be a string"
    | NotOneOf(param: string, value: Value, choices: seq<Value>)       // "... must be one of: ..."
    | NotOneOfOrNumeric(param: string, value: Value, choices: seq<Value>) // "... must be one of: ... or a numeric value"
    | NotNumberOrString(param: string)                                  // "... must be either a number or string"
    | UnsupportedParamType(ptype: ParamType, param: string)             // "Unsupported ParamType ..."
    | NotAnIntList(param: string)                                       // the corrected `int_list` check
    | NotAllowed(param: string, available: seq<string>)                // "... is not allowed for this algorithm"
    | UnknownAlgorithm(name: string, available: seq<string>)           // "Unknown algorithm ..."
    | UnsupportedFamily(code: string, family: TaskFamily, available: seq<string>) // "... does not support ..."
    | UnsupportedDataset(name: string, available: seq<string>)         // "Unsupported dataset name ..."
    | UnexpectedKeyword(keyword: string)                                // TypeError from a dataclass constructor
    | MissingImport(name: string)                                       // ImportError
    | MissingAttribute(attribute: string)                               // AttributeError
    | ModelFailure(reason: string)                                      // raised by a model collaborator
}
