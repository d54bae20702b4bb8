/**
  frontend/src/utils/hyperparameters.js: the browser side of hyperparameter entry. The form's
  values are turned into the request body the backend validates: the specifications that apply
  to the chosen task are walked in order, an untouched field takes its default, and the two
  types a text field cannot carry directly (`int_list`, `number_or_string`) are converted.

  JavaScript's `Number(s)`, `JSON.parse(s)` and the conversion of a non-string value to a
  property key belong to the host and are passed in as `Host`.
*/
module Payload {
  import opened Wrappers
  import opened PyDict

  /** A JavaScript value; numbers are finite (no `NaN`, no infinities, no `-0`). */
  datatype Js =
    | JUndefined
    | JNull
    | JBool(b: bool)
    | JNum(n: real)
    | JStr(s: string)
    | JArr(items: seq<Js>)
    | JObj(entries: seq<(string, Js)>)

  /** The exception the code can raise: reading a property of `null` or `undefined`. */
  datatype JsError = TypeError(property: string)

  /**
    The host's conversions: `Number(s)` (`None` for `NaN`), `JSON.parse(s)` (`None` when it
    throws) and the property key a non-string value stands for.
  */
  datatype Host = Host(
    toNumber: string -> Option<real>,
    parseJson: string -> Option<Js>,
    nonStringKey: Js -> string)

  predicate Nullish(v: Js)
  {
    v.JUndefined? || v.JNull?
  }

  /** JavaScript truthiness. */
  predicate Truthy(v: Js)
  {
    match v
    case JUndefined => false
    case JNull => false
    case JBool(b) => b
    case JNum(n) => n != 0.0
    case JStr(s) => s != ""
    case _ => true
  }

  /** `v.key`: raises on `null` and `undefined`; a missing property is `undefined`. */
  function Prop(v: Js, key: string): (r: Result<Js, JsError>)
    ensures r.Failure? <==> Nullish(v)
    ensures r.Failure? ==> r.error == TypeError(key)
  {
    match v
    case JUndefined => Failure(TypeError(key))
    case JNull => Failure(TypeError(key))
    case JObj(entries) => Success(if key in Keys(entries) then Get(entries, key).value else JUndefined)
    case _ => Success(JUndefined)
  }

  /** `v?.key`: `undefined` on `null` and `undefined`, otherwise `v.key`. */
  function OptProp(v: Js, key: string): (r: Js)
    ensures Nullish(v) ==> r == JUndefined
    ensures !Nullish(v) ==> r == Prop(v, key).value
  {
    if Nullish(v) then JUndefined else Prop(v, key).value
  }

  /** The property key `obj[v]` reads or writes. */
  function PropertyKey(host: Host, v: Js): string
  {
    if v.JStr? then v.s else host.nonStringKey(v)
  }

  // ---------- isNumberString ----------

  /** What `String.prototype.trim` removes: white space and line terminators. */
  predicate IsTrimmable(c: char)
  {
    c == '\t' || c == '\n' || c == '\U{000B}' || c == '\U{000C}' || c == '\r' || c == ' ' ||
    c == '\U{00A0}' || c == '\U{1680}' || ('\U{2000}' <= c <= '\U{200A}') ||
    c == '\U{2028}' || c == '\U{2029}' || c == '\U{202F}' || c == '\U{205F}' ||
    c == '\U{3000}' || c == '\U{FEFF}'
  }

  function TrimStart(s: string): (r: string)
    ensures |r| <= |s|
    ensures r == [] || !IsTrimmable(r[0])
  {
    if s != [] && IsTrimmable(s[0]) then TrimStart(s[1..]) else s
  }

  function TrimEnd(s: string): (r: string)
    ensures |r| <= |s|
  {
    if s != [] && IsTrimmable(s[|s| - 1]) then TrimEnd(s[..|s| - 1]) else s
  }

  /** `s.trim()` */
  function Trim(s: string): string
  {
    TrimEnd(TrimStart(s))
  }

  predicate Blank(s: string)
  {
    forall i | 0 <= i < |s| :: IsTrimmable(s[i])
  }

  lemma {:induction false} TrimStartBlank(s: string)
    ensures TrimStart(s) == "" <==> Blank(s)
  {
    if s != [] && IsTrimmable(s[0]) {
      TrimStartBlank(s[1..]);
      assert Blank(s) <==> Blank(s[1..]) by {
        if Blank(s[1..]) {
          forall i | 0 <= i < |s| ensures IsTrimmable(s[i]) {
            if i > 0 {
              assert s[i] == s[1..][i - 1];
            }
          }
        }
        if Blank(s) {
          forall i | 0 <= i < |s[1..]| ensures IsTrimmable(s[1..][i]) {
            assert s[1..][i] == s[i + 1];
          }
        }
      }
    } else if s != [] {
      assert !IsTrimmable(s[0]);
    }
  }

  /** Trimming the end of a string that starts with what `trim` keeps leaves it non-empty. */
  lemma {:induction false} TrimEndKeepsFirst(s: string)
    requires s != [] && !IsTrimmable(s[0])
    ensures TrimEnd(s) != ""
  {
    if IsTrimmable(s[|s| - 1]) {
      assert |s| > 1;
      assert s[..|s| - 1][0] == s[0];
      TrimEndKeepsFirst(s[..|s| - 1]);
    }
  }

  /** `s.trim() === ""` exactly when `s` is nothing but white space. */
  lemma TrimEmptyIffBlank(s: string)
    ensures Trim(s) == "" <==> Blank(s)
  {
    TrimStartBlank(s);
    var t := TrimStart(s);
    if t != "" {
      TrimEndKeepsFirst(t);
    }
  }

  /** `isNumberString` */
  predicate IsNumberString(host: Host, v: Js)
  {
    v.JStr? && Trim(v.s) != "" && host.toNumber(v.s).Some?
  }

  /** A number string is a string that is not blank and that `Number` does not turn into `NaN`. */
  lemma IsNumberStringIff(host: Host, v: Js)
    ensures IsNumberString(host, v) <==> v.JStr? && !Blank(v.s) && host.toNumber(v.s).Some?
  {
    if v.JStr? {
      TrimEmptyIffBlank(v.s);
    }
  }

  // ---------- the applicable specifications ----------

  /** `Array.isArray(s.applicable_tasks) ? s.applicable_tasks : []` for a non-null `s`. */
  function ApplicableTasks(spec: Js): seq<Js>
  {
    var tasks := OptProp(spec, "applicable_tasks");
    if tasks.JArr? then tasks.items else []
  }

  /** `tasks.length === 0 || tasks.includes(task)` */
  predicate IsApplicable(spec: Js, task: Js)
  {
    |ApplicableTasks(spec)| == 0 || task in ApplicableTasks(spec)
  }

  /** `list.filter(...)`: raises on the first `null` or `undefined` element. */
  function ApplicableFilter(list: seq<Js>, task: Js): (r: Result<seq<Js>, JsError>)
  {
    if list == [] then Success([])
    else
      var tasks :- Prop(list[0], "applicable_tasks");
      var rest :- ApplicableFilter(list[1..], task);
      Success((if IsApplicable(list[0], task) then [list[0]] else []) + rest)
  }

  /**
    The filter raises exactly when the list holds `null` or `undefined`; otherwise it keeps
    exactly the applicable specifications, in their order.
  */
  lemma {:induction false} ApplicableFilterIs(list: seq<Js>, task: Js)
    ensures ApplicableFilter(list, task).Failure? <==> exists i | 0 <= i < |list| :: Nullish(list[i])
    ensures ApplicableFilter(list, task).Success? ==>
              forall s :: s in ApplicableFilter(list, task).value <==> s in list && IsApplicable(s, task)
  {
    if list != [] {
      ApplicableFilterIs(list[1..], task);
      assert forall s :: s in list <==> s == list[0] || s in list[1..];
      if exists i | 0 <= i < |list[1..]| :: Nullish(list[1..][i]) {
        var i :| 0 <= i < |list[1..]| && Nullish(list[1..][i]);
        assert Nullish(list[i + 1]);
      }
      if exists i | 0 <= i < |list| :: Nullish(list[i]) {
        var i :| 0 <= i < |list| && Nullish(list[i]);
        if i > 0 {
          assert Nullish(list[1..][i - 1]);
        }
      }
    }
  }

  /** `Array.isArray(specs) ? specs : []`, filtered when the task is truthy. */
  function Applicable(specs: Js, task: Js): Result<seq<Js>, JsError>
  {
    var list := if specs.JArr? then specs.items else [];
    if Truthy(task) then ApplicableFilter(list, task) else Success(list)
  }

  // ---------- one field ----------

  /** `raw !== undefined ? raw : spec.default`, with `raw = values?.[name]`. */
  function Chosen(host: Host, spec: Js, values: Js): Js
  {
    var raw := OptProp(values, PropertyKey(host, OptProp(spec, "name")));
    if raw != JUndefined then raw else OptProp(spec, "default")
  }

  /** `parsed.every(Number.isInteger)` on an array. */
  predicate IsIntArray(v: Js)
  {
    v.JArr? && forall i | 0 <= i < |v.items| :: v.items[i].JNum? && v.items[i].n.Floor as real == v.items[i].n
  }

  /** The conversion a field of the given type makes of its value before it is sent. */
  function Coerce(host: Host, ptype: Js, value: Js): Js
  {
    if ptype == JStr("int_list") then
      if value.JArr? then value
      else if value.JStr? && host.parseJson(value.s).Some? && IsIntArray(host.parseJson(value.s).value) then
        host.parseJson(value.s).value
      else value
    else if ptype == JStr("number_or_string") then
      if value.JStr? && IsNumberString(host, value) then JNum(host.toNumber(value.s).value) else value
    else value
  }

  /** What `out[name]` receives for one specification. */
  function FieldValue(host: Host, spec: Js, values: Js): Js
  {
    Coerce(host, OptProp(spec, "type"), Chosen(host, spec, values))
  }

  /** A field the user never touched takes the default; any other value, `null` included, is kept. */
  lemma ChosenValue(host: Host, spec: Js, values: Js)
    ensures var raw := OptProp(values, PropertyKey(host, OptProp(spec, "name")));
            Chosen(host, spec, values) == if raw.JUndefined? then OptProp(spec, "default") else raw
    ensures var raw := OptProp(values, PropertyKey(host, OptProp(spec, "name")));
            raw == JNull ==> Chosen(host, spec, values) == JNull
  {
  }

  /**
    `int_list`: an array is sent as it is, a string that parses to an array of integers is sent
    parsed, and anything else is sent unchanged for the backend to reject.
  */
  lemma IntListCoercion(host: Host, value: Js)
    ensures value.JArr? ==> Coerce(host, JStr("int_list"), value) == value
    ensures value.JStr? && host.parseJson(value.s).Some? && IsIntArray(host.parseJson(value.s).value) ==>
              Coerce(host, JStr("int_list"), value) == host.parseJson(value.s).value
    ensures var c := Coerce(host, JStr("int_list"), value);
            c == value || (value.JStr? && IsIntArray(c))
    ensures !value.JStr? || host.parseJson(value.s).None? ==> Coerce(host, JStr("int_list"), value) == value
  {
  }

  /** `number_or_string`: exactly the number strings become numbers; everything else is kept. */
  lemma NumberOrStringCoercion(host: Host, value: Js)
    ensures var c := Coerce(host, JStr("number_or_string"), value);
            (c != value <==> IsNumberString(host, value)) &&
            (IsNumberString(host, value) ==> c == JNum(host.toNumber(value.s).value))
    ensures !value.JStr? || Blank(value.s) ==> Coerce(host, JStr("number_or_string"), value) == value
  {
    IsNumberStringIff(host, value);
  }

  /** Every other type passes its value through. */
  lemma OtherTypesPassThrough(host: Host, ptype: Js, value: Js)
    requires ptype != JStr("int_list") && ptype != JStr("number_or_string")
    ensures Coerce(host, ptype, value) == value
  {
  }

  // ---------- the payload ----------

  /** Whether a specification contributes a field: its name must be truthy. */
  predicate Named(spec: Js)
  {
    Truthy(OptProp(spec, "name"))
  }

  function KeyOf(host: Host, spec: Js): string
  {
    PropertyKey(host, OptProp(spec, "name"))
  }

  /** The object the loop has built after the specifications `specs`, one assignment each. */
  function PayloadOf(host: Host, specs: seq<Js>, values: Js): seq<(string, Js)>
    decreases |specs|
  {
    if specs == [] then []
    else
      var out := PayloadOf(host, specs[..|specs| - 1], values);
      var spec := specs[|specs| - 1];
      if Named(spec) then Set(out, KeyOf(host, spec), FieldValue(host, spec, values)) else out
  }

  /** `buildHyperparametersPayload`, as a function of its inputs. */
  function BuildPayload(host: Host, specs: Js, task: Js, values: Js): Result<seq<(string, Js)>, JsError>
  {
    var applicable :- Applicable(specs, task);
    Success(PayloadOf(host, applicable, values))
  }

  /** `buildHyperparametersPayload` */
  method BuildHyperparametersPayload(host: Host, specs: Js, task: Js, values: Js)
    returns (r: Result<seq<(string, Js)>, JsError>)
    ensures r == BuildPayload(host, specs, task, values)
  {
    var applicable := Applicable(specs, task);
    if applicable.Failure? {
      return Failure(applicable.error);
    }
    var list := applicable.value;
    var out: seq<(string, Js)> := [];
    var i := 0;
    while i < |list|
      invariant 0 <= i <= |list|
      invariant out == PayloadOf(host, list[..i], values)
    {
      var spec := list[i];
      assert list[..i + 1][..i] == list[..i];
      if Named(spec) {
        out := Set(out, KeyOf(host, spec), FieldValue(host, spec, values));
      }
      i := i + 1;
    }
    assert list[..i] == list;
    return Success(out);
  }

  /** The object never holds a key twice. */
  lemma {:induction false} PayloadDistinct(host: Host, specs: seq<Js>, values: Js)
    ensures DistinctKeys(PayloadOf(host, specs, values))
  {
    if specs != [] {
      var spec := specs[|specs| - 1];
      PayloadDistinct(host, specs[..|specs| - 1], values);
      if Named(spec) {
        SetDistinct(PayloadOf(host, specs[..|specs| - 1], values), KeyOf(host, spec), FieldValue(host, spec, values));
      }
    }
  }

  /** The keys are exactly the names of the named specifications. */
  lemma {:induction false} PayloadKeys(host: Host, specs: seq<Js>, values: Js, k: string)
    ensures k in Keys(PayloadOf(host, specs, values)) <==>
              exists j | 0 <= j < |specs| :: Named(specs[j]) && KeyOf(host, specs[j]) == k
  {
    if specs != [] {
      var init := specs[..|specs| - 1];
      var spec := specs[|specs| - 1];
      var out := PayloadOf(host, init, values);
      PayloadKeys(host, init, values, k);
      if Named(spec) {
        SetGet(out, KeyOf(host, spec), FieldValue(host, spec, values), k);
      }
      if exists j | 0 <= j < |init| :: Named(init[j]) && KeyOf(host, init[j]) == k {
        var j :| 0 <= j < |init| && Named(init[j]) && KeyOf(host, init[j]) == k;
        assert specs[j] == init[j];
      }
      if exists j | 0 <= j < |specs| :: Named(specs[j]) && KeyOf(host, specs[j]) == k {
        var j :| 0 <= j < |specs| && Named(specs[j]) && KeyOf(host, specs[j]) == k;
        if j < |init| {
          assert init[j] == specs[j];
        }
      }
    }
  }

  /**
    A key holds the value of the last named specification with that name: its default when the
    user left it untouched, converted as its type says.
  */
  lemma {:induction false} PayloadValue(host: Host, specs: seq<Js>, values: Js, j: nat)
    requires j < |specs| && Named(specs[j])
    requires forall l | j < l < |specs| :: !Named(specs[l]) || KeyOf(host, specs[l]) != KeyOf(host, specs[j])
    ensures Get(PayloadOf(host, specs, values), KeyOf(host, specs[j])) == Some(FieldValue(host, specs[j], values))
  {
    var init := specs[..|specs| - 1];
    var spec := specs[|specs| - 1];
    var out := PayloadOf(host, init, values);
    var k := KeyOf(host, specs[j]);
    if j == |specs| - 1 {
      SetGet(out, k, FieldValue(host, spec, values), k);
    } else {
      assert init[j] == specs[j];
      forall l | j < l < |init| ensures !Named(init[l]) || KeyOf(host, init[l]) != k {
        assert init[l] == specs[l];
      }
      PayloadValue(host, init, values, j);
      if Named(spec) {
        SetGet(out, KeyOf(host, spec), FieldValue(host, spec, values), k);
      }
    }
  }

  /**
    What the form sends: raises only when a task is chosen and the specification list holds
    `null` or `undefined`; otherwise every key is the name of an applicable, named
    specification, and every such specification has its key.
  */
  lemma PayloadFromApplicable(host: Host, specs: Js, task: Js, values: Js, k: string)
    ensures var list := if specs.JArr? then specs.items else [];
            BuildPayload(host, specs, task, values).Failure? <==>
              Truthy(task) && exists i | 0 <= i < |list| :: Nullish(list[i])
    ensures BuildPayload(host, specs, task, values).Success? ==>
              var applicable := Applicable(specs, task).value;
              DistinctKeys(BuildPayload(host, specs, task, values).value) &&
              (k in Keys(BuildPayload(host, specs, task, values).value) <==>
                 exists j | 0 <= j < |applicable| :: Named(applicable[j]) && KeyOf(host, applicable[j]) == k)
    ensures BuildPayload(host, specs, task, values).Success? && Truthy(task) ==>
              forall s | s in Applicable(specs, task).value :: IsApplicable(s, task)
  {
    var list := if specs.JArr? then specs.items else [];
    if Truthy(task) {
      ApplicableFilterIs(list, task);
    }
    if Applicable(specs, task).Success? {
      PayloadDistinct(host, Applicable(specs, task).value, values);
      PayloadKeys(host, Applicable(specs, task).value, values, k);
    }
  }
}
