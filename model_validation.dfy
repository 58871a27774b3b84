/// How a pydantic model validates its input, as far as the validators of
/// backend/schema.py and backend/chain_schema.py depend on it: fields are
/// validated one at a time in declaration order; a field's check (its type
/// plus its `@validator`s) sees `values`, the fields validated before it; a
/// type mismatch or a `ValueError` (pydantic's own `ValidationError` is one)
/// is collected and validation goes on, any other exception, `TypeError`
/// included, escapes at once; input keys that are not declared fields are
/// ignored. These are the rules of pydantic 2 (`ConfigDict` and
/// `model_dump` in backend/state.py and backend/tools/ui_gather.py), which
/// runs the `@validator`s of the schema modules through its compatibility
/// layer.
module ModelValidation {
  import opened Py
  import opened Values

  /** A declared field: its name, its default (`None` for a required field),
      whether its validators also run on the default (`always=True`), and
      its check given the value and the fields validated so far. */
  datatype FieldDecl = FieldDecl(name: string, default: Option<Value>, always: bool,
                                 check: (Value, Dict) -> Result<Value>)

  /** The exceptions pydantic turns into validation errors: `ValueError` and
      its subclass `ValidationError`. A `TypeError` is not among them. */
  predicate Collected(e: Error) {
    e.ValueError? || e.ValidationError?
  }

  /** Validation part-way: the fields validated so far and the names of
      those that failed, or an exception that escaped. */
  datatype State = Running(values: Dict, errors: seq<string>) | Raised(error: Error)

  /** The name of one of the first `n` fields. */
  predicate NameAmong(fields: seq<FieldDecl>, n: nat, k: string)
    requires n <= |fields|
  {
    exists j :: 0 <= j < n && fields[j].name == k
  }

  /** The value a field's check is given: the input's, else the default. */
  function FieldInput(f: FieldDecl, raw: Dict): Value
    requires f.name in raw || f.default.Some?
  {
    if f.name in raw then raw[f.name] else f.default.value
  }

  /** `m[k] == v`, with `k` a key of `m`. */
  predicate Holds(m: Dict, k: string, v: Value) {
    k in m && m[k] == v
  }

  /** No two fields share a name. */
  predicate DistinctNames(fields: seq<FieldDecl>) {
    forall i, j :: 0 <= i < j < |fields| ==> fields[i].name != fields[j].name
  }

  /** Validating field `f` of the input `raw`. */
  function Step(f: FieldDecl, raw: Dict, values: Dict, errors: seq<string>): State {
    if f.name !in raw && f.default.None? then Running(values, errors + [f.name])
    else if f.name !in raw && !f.always then Running(values[f.name := f.default.value], errors)
    else
      var r := f.check(FieldInput(f, raw), values);
      if r.Ok? then Running(values[f.name := r.value], errors)
      else if Collected(r.error) then Running(values, errors + [f.name])
      else Raised(r.error)
  }

  /** A step adds its own field to the validated fields or to the failed
      ones, and leaves every other field as it was. */
  lemma StepFacts(f: FieldDecl, raw: Dict, values: Dict, errors: seq<string>)
    ensures var r := Step(f, raw, values, errors);
      && (r.Running? ==> forall k :: k in r.values ==> k in values || k == f.name)
      && (r.Running? ==> forall k :: k in values && k != f.name ==> k in r.values && r.values[k] == values[k])
      && (r.Running? ==> f.name in r.values || f.name in r.errors)
      && (r.Running? ==> forall k :: k in errors ==> k in r.errors)
      && (r.Running? && r.errors == [] ==> errors == [])
  {
  }

  /** The state after the first `n` fields. */
  function Prefix(fields: seq<FieldDecl>, raw: Dict, n: nat): State
    requires n <= |fields|
  {
    if n == 0 then Running(map[], [])
    else
      match Prefix(fields, raw, n - 1)
      case Raised(e) => Raised(e)
      case Running(values, errors) => Step(fields[n - 1], raw, values, errors)
  }

  /** After the first `n` fields, the validated fields are among them, and
      each of them has either validated or failed. */
  lemma {:induction false} PrefixFacts(fields: seq<FieldDecl>, raw: Dict, n: nat)
    requires n <= |fields|
    ensures var r := Prefix(fields, raw, n);
      && (r.Running? ==> forall k :: k in r.values ==> NameAmong(fields, n, k))
      && (r.Running? ==> forall j :: 0 <= j < n ==> fields[j].name in r.values || fields[j].name in r.errors)
  {
    if n > 0 {
      PrefixFacts(fields, raw, n - 1);
      PrefixFactsStep(fields, raw, n);
    }
  }

  /** The inductive step of `PrefixFacts`. */
  lemma PrefixFactsStep(fields: seq<FieldDecl>, raw: Dict, n: nat)
    requires 0 < n <= |fields|
    requires var p := Prefix(fields, raw, n - 1);
      && (p.Running? ==> forall k :: k in p.values ==> NameAmong(fields, n - 1, k))
      && (p.Running? ==> forall j :: 0 <= j < n - 1 ==> fields[j].name in p.values || fields[j].name in p.errors)
    ensures var r := Prefix(fields, raw, n);
      && (r.Running? ==> forall k :: k in r.values ==> NameAmong(fields, n, k))
      && (r.Running? ==> forall j :: 0 <= j < n ==> fields[j].name in r.values || fields[j].name in r.errors)
  {
    var p := Prefix(fields, raw, n - 1);
    if p.Running? {
      var r := Step(fields[n - 1], raw, p.values, p.errors);
      assert Prefix(fields, raw, n) == r;
      StepFacts(fields[n - 1], raw, p.values, p.errors);
      if r.Running? {
        forall k | k in r.values ensures NameAmong(fields, n, k) {
          if k in p.values {
            var j :| 0 <= j < n - 1 && fields[j].name == k;
            assert 0 <= j < n && fields[j].name == k;
          } else {
            assert fields[n - 1].name == k;
          }
        }
      }
    }
  }

  /** `Model(**raw)`: the validated fields, or the exception. */
  function ValidateModel(fields: seq<FieldDecl>, raw: Dict): Result<Dict> {
    match Prefix(fields, raw, |fields|)
    case Raised(e) => Err(e)
    case Running(values, errors) =>
      if errors == [] then Ok(values) else Err(ValidationError(errors))
  }

  /** A validated model has exactly the declared fields: input keys that are
      not fields are dropped, and every field is present. */
  lemma ValidatedFields(fields: seq<FieldDecl>, raw: Dict)
    requires ValidateModel(fields, raw).Ok?
    ensures forall k :: k in ValidateModel(fields, raw).value <==> NameAmong(fields, |fields|, k)
  {
    PrefixFacts(fields, raw, |fields|);
    var values := ValidateModel(fields, raw).value;
    forall k | NameAmong(fields, |fields|, k) ensures k in values {
      var j :| 0 <= j < |fields| && fields[j].name == k;
    }
  }

  /** Field `i` is checked against exactly the state reached after the
      fields declared before it: a validator never sees a later field. */
  lemma CheckSeesEarlierFields(fields: seq<FieldDecl>, raw: Dict, i: nat, k: string)
    requires i < |fields|
    requires Prefix(fields, raw, i).Running?
    requires forall j :: 0 <= j < i ==> fields[j].name != k
    ensures k !in Prefix(fields, raw, i).values
  {
    PrefixFacts(fields, raw, i);
  }

  /** A run that ends with no error had no error and no escaped exception
      at any earlier point, and a validated field keeps its value while no
      later field has the same name. */
  lemma {:induction false} CleanPrefix(fields: seq<FieldDecl>, raw: Dict, m: nat, n: nat)
    requires m <= n <= |fields|
    requires Prefix(fields, raw, n).Running? && Prefix(fields, raw, n).errors == []
    ensures Prefix(fields, raw, m).Running? && Prefix(fields, raw, m).errors == []
    ensures forall k :: k in Prefix(fields, raw, m).values && (forall i :: m <= i < n ==> fields[i].name != k) ==>
      k in Prefix(fields, raw, n).values && Prefix(fields, raw, n).values[k] == Prefix(fields, raw, m).values[k]
    decreases n - m
  {
    if m < n {
      var p := Prefix(fields, raw, n - 1);
      assert p.Running?;
      assert Prefix(fields, raw, n) == Step(fields[n - 1], raw, p.values, p.errors);
      StepFacts(fields[n - 1], raw, p.values, p.errors);
      CleanPrefix(fields, raw, m, n - 1);
    }
  }

  /** What a validated model holds for field `j`: its default when the input
      lacks it and its validators do not run on defaults, else what its check
      returned for the input's value (or the default) and the fields before
      it. A required field is in the input. */
  lemma FieldResult(fields: seq<FieldDecl>, raw: Dict, j: nat)
    requires DistinctNames(fields) && j < |fields|
    requires ValidateModel(fields, raw).Ok?
    ensures Prefix(fields, raw, j).Running?
    ensures fields[j].name in raw || fields[j].default.Some?
    ensures fields[j].name in ValidateModel(fields, raw).value
    ensures fields[j].name !in raw && !fields[j].always ==>
      Holds(ValidateModel(fields, raw).value, fields[j].name, fields[j].default.value)
    ensures fields[j].name in raw || fields[j].always ==>
      fields[j].check(FieldInput(fields[j], raw), Prefix(fields, raw, j).values)
        == Ok(ValidateModel(fields, raw).value[fields[j].name])
  {
    var f := fields[j];
    var whole := Prefix(fields, raw, |fields|);
    assert whole.Running? && whole.errors == [];
    assert ValidateModel(fields, raw).value == whole.values;
    CleanPrefix(fields, raw, j + 1, |fields|);
    CleanPrefix(fields, raw, j, |fields|);
    var p := Prefix(fields, raw, j);
    var q := Prefix(fields, raw, j + 1);
    assert q == Step(f, raw, p.values, p.errors);
    assert q.Running? && q.errors == [];
    StepFacts(f, raw, p.values, p.errors);
    assert f.name in q.values;
    assert forall i :: j + 1 <= i < |fields| ==> fields[i].name != f.name;
    assert whole.values[f.name] == q.values[f.name];
    StepOutcome(f, raw, p.values, p.errors);
  }

  /** An exception that escapes while field `m` is checked is what
      validating the model raises. */
  lemma {:induction false} RaisedEscapes(fields: seq<FieldDecl>, raw: Dict, m: nat, n: nat)
    requires m <= n <= |fields|
    requires Prefix(fields, raw, m).Raised?
    ensures Prefix(fields, raw, n) == Prefix(fields, raw, m)
    ensures n == |fields| ==> ValidateModel(fields, raw) == Err(Prefix(fields, raw, m).error)
    decreases n - m
  {
    if m < n {
      RaisedEscapes(fields, raw, m, n - 1);
    }
  }

  /** Once a field has failed, validating the model fails. */
  lemma {:induction false} FailureFails(fields: seq<FieldDecl>, raw: Dict, m: nat, n: nat)
    requires m <= n <= |fields|
    requires Prefix(fields, raw, m).Running? && Prefix(fields, raw, m).errors != []
    ensures Prefix(fields, raw, n).Running? ==> Prefix(fields, raw, n).errors != []
    ensures n == |fields| ==> ValidateModel(fields, raw).Err?
    decreases n - m
  {
    if m < n {
      FailureFails(fields, raw, m, n - 1);
      var p := Prefix(fields, raw, n - 1);
      if p.Running? {
        assert Prefix(fields, raw, n) == Step(fields[n - 1], raw, p.values, p.errors);
      }
    }
  }

  lemma StepOutcome(f: FieldDecl, raw: Dict, values: Dict, errors: seq<string>)
    requires Step(f, raw, values, errors).Running? && Step(f, raw, values, errors).errors == []
    ensures f.name in raw || f.default.Some?
    ensures f.name !in raw && !f.always ==> Step(f, raw, values, errors).values[f.name] == f.default.value
    ensures f.name in raw || f.always ==>
      f.check(FieldInput(f, raw), values) == Ok(Step(f, raw, values, errors).values[f.name])
  {
  }

  // -------------------------------------------------------------------------
  // Field types
  // -------------------------------------------------------------------------

  /** `str`: a string is kept; `None` and anything else fail, as pydantic 2
      does not turn numbers into strings. */
  function StrValue(v: Value, values: Dict): (r: Result<Value>)
    ensures r.Ok? <==> v.Str?
    ensures r.Ok? ==> r.value == v
    ensures r.Err? ==> Collected(r.error)
  {
    if v.Str? then Ok(v) else Err(ValueError("Input should be a valid string"))
  }

  /** `Optional[str]` */
  function OptStrValue(v: Value, values: Dict): (r: Result<Value>)
    ensures r.Ok? <==> v.Str? || v.Null?
    ensures r.Ok? ==> r.value == v
    ensures r.Err? ==> Collected(r.error)
  {
    if v.Null? then Ok(v) else StrValue(v, values)
  }

  /** `bool` (pydantic's coercion of other values is not modelled). */
  function BoolValue(v: Value, values: Dict): (r: Result<Value>)
    ensures r.Ok? <==> v.Bool?
    ensures r.Ok? ==> r.value == v
    ensures r.Err? ==> Collected(r.error)
  {
    if v.Bool? then Ok(v) else Err(ValueError("Input should be a valid boolean"))
  }

  /** `int` */
  function IntValue(v: Value, values: Dict): (r: Result<Value>)
    ensures r.Ok? <==> v.Int?
    ensures r.Ok? ==> r.value == v
    ensures r.Err? ==> Collected(r.error)
  {
    if v.Int? then Ok(v) else Err(ValueError("Input should be a valid integer"))
  }

  /** `Dict[str, Any]` */
  function DictValue(v: Value, values: Dict): (r: Result<Value>)
    ensures r.Ok? <==> v.Dict?
    ensures r.Ok? ==> r.value == v
    ensures r.Err? ==> Collected(r.error)
  {
    if v.Dict? then Ok(v) else Err(ValueError("Input should be a valid dictionary"))
  }

  /** `Optional[Dict[str, Any]]` */
  function OptDictValue(v: Value, values: Dict): (r: Result<Value>)
    ensures r.Ok? <==> v.Dict? || v.Null?
    ensures r.Ok? ==> r.value == v
  {
    if v.Null? then Ok(v) else DictValue(v, values)
  }

  /** `List[str]` */
  function StrListValue(v: Value, values: Dict): (r: Result<Value>)
    ensures r.Ok? <==> v.List? && forall i :: 0 <= i < |v.items| ==> v.items[i].Str?
    ensures r.Ok? ==> r.value == v
    ensures r.Err? ==> Collected(r.error)
  {
    if v.List? && forall i :: 0 <= i < |v.items| ==> v.items[i].Str? then Ok(v)
    else Err(ValueError("Input should be a valid list of strings"))
  }

  /** `Optional[List[str]]` */
  function OptStrListValue(v: Value, values: Dict): (r: Result<Value>)
    ensures r.Ok? <==> v.Null? || (v.List? && forall i :: 0 <= i < |v.items| ==> v.items[i].Str?)
    ensures r.Ok? ==> r.value == v
  {
    if v.Null? then Ok(v) else StrListValue(v, values)
  }

  /** `Literal[options...]` */
  function LiteralValue(options: seq<string>, v: Value): (r: Result<Value>)
    ensures r.Ok? <==> v.Str? && v.s in options
    ensures r.Ok? ==> r.value == v
    ensures r.Err? ==> Collected(r.error)
  {
    if v.Str? && v.s in options then Ok(v) else Err(ValueError("unexpected value; permitted: " + Join(options)))
  }

  function Join(options: seq<string>): string {
    if options == [] then "" else if |options| == 1 then "'" + options[0] + "'"
    else "'" + options[0] + "', " + Join(options[1..])
  }

  /** Validating the list items of a `List[Model]` field one by one. */
  datatype ListState = Collecting(parsed: seq<Value>, failed: bool) | ListRaised(error: Error)

  function ItemsPrefix(fields: seq<FieldDecl>, items: seq<Value>, n: nat): (r: ListState)
    requires n <= |items|
    ensures r.Collecting? && !r.failed ==> |r.parsed| == n
    ensures r.Collecting? && !r.failed ==> forall i :: 0 <= i < n ==>
      items[i].Dict? && r.parsed[i].Dict? && ValidateModel(fields, items[i].fields) == Ok(r.parsed[i].fields)
  {
    if n == 0 then Collecting([], false)
    else
      match ItemsPrefix(fields, items, n - 1)
      case ListRaised(e) => ListRaised(e)
      case Collecting(parsed, failed) =>
        var item := items[n - 1];
        if !item.Dict? then Collecting(parsed, true)
        else
          match ValidateModel(fields, item.fields)
          case Ok(m) => Collecting(parsed + [Dict(m)], failed)
          case Err(e) => if Collected(e) then Collecting(parsed, true) else ListRaised(e)
  }

  /** `List[Model]`: each item validated as the model. */
  function ModelListValue(fields: seq<FieldDecl>, v: Value): (r: Result<Value>)
    ensures r.Ok? ==> v.List? && r.value.List? && |r.value.items| == |v.items|
    ensures r.Ok? ==> forall i :: 0 <= i < |v.items| ==>
      v.items[i].Dict? && r.value.items[i].Dict? && ValidateModel(fields, v.items[i].fields) == Ok(r.value.items[i].fields)
  {
    if !v.List? then Err(ValueError("Input should be a valid list"))
    else
      match ItemsPrefix(fields, v.items, |v.items|)
      case ListRaised(e) => Err(e)
      case Collecting(parsed, failed) =>
        if failed then Err(ValidationError(["items"])) else Ok(List(parsed))
  }

  /** An empty list validates to an empty list. */
  lemma EmptyModelList(fields: seq<FieldDecl>)
    ensures ModelListValue(fields, List([])) == Ok(List([]))
  {
  }
}
