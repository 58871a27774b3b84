/// backend/schema.py: the declared shape of task manifests, processor-chain
/// rows and chain definitions, with their legacy-alias and defaulting
/// validators, written as validators of `(v, values)` run by the field
/// order of `ModelValidation`.
module Schema {
  import opened Py
  import opened Values
  import opened ModelValidation

  // -------------------------------------------------------------------------
  // RequiredField
  // -------------------------------------------------------------------------

  const RequiredFieldModel: seq<FieldDecl> := [
    FieldDecl("name", None, false, StrValue),
    FieldDecl("label", None, false, StrValue),
    FieldDecl("widget", Some(Str("text_input")), false, StrValue),
    FieldDecl("options", Some(Null), false, OptStrListValue),
    FieldDecl("required", Some(Bool(true)), false, BoolValue)]

  /** A form field needs a string `name` and `label`; `widget` defaults to
      `"text_input"`, `options` to `None` and `required` to `True`, and a
      supplied value is kept. */
  lemma RequiredFieldDefaults(raw: Dict)
    requires ValidateModel(RequiredFieldModel, raw).Ok?
    ensures var f := ValidateModel(RequiredFieldModel, raw).value;
      && "name" in raw && raw["name"].Str? && Holds(f, "name", raw["name"])
      && "label" in raw && raw["label"].Str? && Holds(f, "label", raw["label"])
      && Holds(f, "widget", Get(raw, "widget", Str("text_input")))
      && Holds(f, "options", Get(raw, "options", Null))
      && Holds(f, "required", Get(raw, "required", Bool(true)))
  {
    var fields := RequiredFieldModel;
    assert DistinctNames(fields);
    FieldResult(fields, raw, 0);
    FieldResult(fields, raw, 1);
    FieldResult(fields, raw, 2);
    FieldResult(fields, raw, 3);
    FieldResult(fields, raw, 4);
  }

  /** A field given by name and label alone gets every default. */
  lemma RequiredFieldMinimal(name: string, caption: string)
    ensures ValidateModel(RequiredFieldModel, map["name" := Str(name), "label" := Str(caption)])
      == Ok(map["name" := Str(name), "label" := Str(caption), "widget" := Str("text_input"),
                "options" := Null, "required" := Bool(true)])
  {
    var raw := map["name" := Str(name), "label" := Str(caption)];
    var fields := RequiredFieldModel;
    var v1 := map["name" := Str(name)];
    var v2 := v1["label" := Str(caption)];
    var v3 := v2["widget" := Str("text_input")];
    var v4 := v3["options" := Null];
    assert Prefix(fields, raw, 1) == Running(v1, []);
    assert Prefix(fields, raw, 2) == Running(v2, []);
    assert Prefix(fields, raw, 3) == Running(v3, []);
    assert Prefix(fields, raw, 4) == Running(v4, []);
    assert Prefix(fields, raw, 5) == Running(v4["required" := Bool(true)], []);
  }

  // -------------------------------------------------------------------------
  // TaskManifest
  // -------------------------------------------------------------------------

  /** `_legacy_chain_alias(v, values)`: a falsy chain id is replaced by the
      old `output_type` column taken from `values`. */
  function LegacyChainAlias(v: Value, values: Dict): (r: Value)
    ensures Truthy(v) ==> r == v
    ensures !Truthy(v) ==> r == Get(values, "output_type", Null)
  {
    Or(v, Get(values, "output_type", Null))
  }

  /** The `processor_chain_id` field: the `pre=True` alias, then `str`. */
  function ChainIdValue(v: Value, values: Dict): Result<Value> {
    StrValue(LegacyChainAlias(v, values), values)
  }

  function ManifestTypeValue(v: Value, values: Dict): Result<Value> {
    LiteralValue(["runnable", "json_graph"], v)
  }

  function RequiredFieldsValue(v: Value, values: Dict): Result<Value> {
    ModelListValue(RequiredFieldModel, v)
  }

  const TaskManifestModel: seq<FieldDecl> := [
    FieldDecl("task", None, false, StrValue),
    FieldDecl("phrase_examples", Some(List([])), false, StrListValue),
    FieldDecl("processor_chain_id", None, false, ChainIdValue),
    FieldDecl("type", Some(Str("runnable")), false, ManifestTypeValue),
    FieldDecl("required_fields", Some(List([])), false, RequiredFieldsValue),
    FieldDecl("enabled", Some(Bool(true)), false, BoolValue),
    FieldDecl("metadata", Some(Dict(map[])), false, DictValue),
    FieldDecl("tenant_id", Some(Str("default")), false, StrValue)]

  /** A manifest needs a string `task`; `phrase_examples` defaults to `[]`
      and `type`, which defaults to `"runnable"`, is `"runnable"` or
      `"json_graph"`. */
  lemma TaskManifestDefaults(raw: Dict)
    requires ValidateModel(TaskManifestModel, raw).Ok?
    ensures var m := ValidateModel(TaskManifestModel, raw).value;
      && "task" in raw && raw["task"].Str? && Holds(m, "task", raw["task"])
      && Holds(m, "phrase_examples", Get(raw, "phrase_examples", List([])))
      && Holds(m, "type", Get(raw, "type", Str("runnable")))
      && (Get(raw, "type", Str("runnable")) == Str("runnable") || Get(raw, "type", Str("runnable")) == Str("json_graph"))
  {
    var fields := TaskManifestModel;
    var m := ValidateModel(fields, raw).value;
    assert DistinctNames(fields);
    assert "task" in raw && raw["task"].Str? && Holds(m, "task", raw["task"]) by {
      FieldResult(fields, raw, 0);
    }
    assert Holds(m, "phrase_examples", Get(raw, "phrase_examples", List([]))) by {
      FieldResult(fields, raw, 1);
    }
    assert Holds(m, "type", Get(raw, "type", Str("runnable"))) && m["type"].s in ["runnable", "json_graph"] by {
      FieldResult(fields, raw, 3);
    }
  }

  /** The remaining optional fields of a manifest default to `[]`, `True`,
      `{}` and `"default"`. */
  lemma TaskManifestTailDefaults(raw: Dict)
    requires ValidateModel(TaskManifestModel, raw).Ok?
    ensures var m := ValidateModel(TaskManifestModel, raw).value;
      && ("required_fields" !in raw ==> Holds(m, "required_fields", List([])))
      && Holds(m, "enabled", Get(raw, "enabled", Bool(true)))
      && Holds(m, "metadata", Get(raw, "metadata", Dict(map[])))
      && Holds(m, "tenant_id", Get(raw, "tenant_id", Str("default")))
  {
    var fields := TaskManifestModel;
    var m := ValidateModel(fields, raw).value;
    assert DistinctNames(fields);
    assert "required_fields" !in raw ==> Holds(m, "required_fields", List([])) by {
      FieldResult(fields, raw, 4);
    }
    assert Holds(m, "enabled", Get(raw, "enabled", Bool(true))) by {
      FieldResult(fields, raw, 5);
    }
    assert Holds(m, "metadata", Get(raw, "metadata", Dict(map[]))) by {
      FieldResult(fields, raw, 6);
    }
    assert Holds(m, "tenant_id", Get(raw, "tenant_id", Str("default"))) by {
      FieldResult(fields, raw, 7);
    }
  }

  /** As written, the `output_type` alias never applies: `values` only holds
      the fields declared before `processor_chain_id`, and `output_type` is
      not a field, so a validated manifest always has the truthy chain id
      its input gave. */
  lemma OutputTypeAliasIgnored(raw: Dict)
    requires ValidateModel(TaskManifestModel, raw).Ok?
    ensures "processor_chain_id" in raw && Truthy(raw["processor_chain_id"]) && raw["processor_chain_id"].Str?
    ensures Holds(ValidateModel(TaskManifestModel, raw).value, "processor_chain_id", raw["processor_chain_id"])
  {
    var fields := TaskManifestModel;
    var m := ValidateModel(fields, raw).value;
    assert DistinctNames(fields);
    FieldResult(fields, raw, 2);
    var values := Prefix(fields, raw, 2).values;
    var v := raw["processor_chain_id"];
    assert ChainIdValue(v, values) == Ok(m["processor_chain_id"]);
    assert Get(values, "output_type", Null) == Null by {
      CheckSeesEarlierFields(fields, raw, 2, "output_type");
    }
    assert LegacyChainAlias(v, values).Str?;
  }

  /** A legacy row that names its chain only through `output_type` is
      rejected. */
  lemma LegacyManifestRejected(task: string, chain: string)
    ensures ValidateModel(TaskManifestModel, map["task" := Str(task), "output_type" := Str(chain)]).Err?
  {
    var raw := map["task" := Str(task), "output_type" := Str(chain)];
    var fields := TaskManifestModel;
    var v2 := map["task" := Str(task), "phrase_examples" := List([])];
    assert Prefix(fields, raw, 1) == Running(map["task" := Str(task)], []);
    assert Prefix(fields, raw, 2) == Running(v2, []);
    assert Prefix(fields, raw, 3) == Running(v2, ["processor_chain_id"]);
    FailureFails(fields, raw, 3, |fields|);
  }

  /** The alias as evidently intended: `output_type` is a declared field
      validated before the chain id, and the chain id's validator also runs
      when the id is missing. */
  const TaskManifestModelFixed: seq<FieldDecl> := [
    FieldDecl("task", None, false, StrValue),
    FieldDecl("phrase_examples", Some(List([])), false, StrListValue),
    FieldDecl("output_type", Some(Null), false, OptStrValue),
    FieldDecl("processor_chain_id", Some(Null), true, ChainIdValue),
    FieldDecl("type", Some(Str("runnable")), false, ManifestTypeValue),
    FieldDecl("required_fields", Some(List([])), false, RequiredFieldsValue),
    FieldDecl("enabled", Some(Bool(true)), false, BoolValue),
    FieldDecl("metadata", Some(Dict(map[])), false, DictValue),
    FieldDecl("tenant_id", Some(Str("default")), false, StrValue)]

  /** With the fix, a missing or falsy chain id is taken from `output_type`,
      and a truthy one is kept. */
  lemma OutputTypeAliasFixed(raw: Dict)
    requires ValidateModel(TaskManifestModelFixed, raw).Ok?
    ensures var m := ValidateModel(TaskManifestModelFixed, raw).value;
      && (Truthy(Get(raw, "processor_chain_id", Null)) ==> Holds(m, "processor_chain_id", raw["processor_chain_id"]))
      && (!Truthy(Get(raw, "processor_chain_id", Null)) ==>
            Holds(m, "processor_chain_id", Get(raw, "output_type", Null)))
  {
    var fields := TaskManifestModelFixed;
    var m := ValidateModel(fields, raw).value;
    assert DistinctNames(fields);
    FieldResult(fields, raw, 3);
    var values := Prefix(fields, raw, 3).values;
    assert ChainIdValue(FieldInput(fields[3], raw), values) == Ok(m["processor_chain_id"]);
    assert Get(values, "output_type", Null) == Get(raw, "output_type", Null) by {
      CleanPrefix(fields, raw, 3, |fields|);
      var p := Prefix(fields, raw, 2);
      assert Prefix(fields, raw, 3) == Step(fields[2], raw, p.values, p.errors);
      assert Prefix(fields, raw, 3).Running?;
    }
  }

  /** The first four fields of the legacy row of `LegacyManifestRejected`
      under the fix: the chain id comes from `output_type`. */
  lemma LegacyManifestHead(task: string, chain: string)
    requires chain != ""
    ensures Prefix(TaskManifestModelFixed, map["task" := Str(task), "output_type" := Str(chain)], 4)
      == Running(map["task" := Str(task), "phrase_examples" := List([]), "output_type" := Str(chain),
                     "processor_chain_id" := Str(chain)], [])
  {
    var v3 := map["task" := Str(task), "phrase_examples" := List([]), "output_type" := Str(chain)];
    LegacyManifestThree(task, chain);
    assert ChainIdValue(Null, v3) == Ok(Str(chain));
  }

  /** The first three fields of that row: nothing is rejected yet. */
  lemma LegacyManifestThree(task: string, chain: string)
    ensures Prefix(TaskManifestModelFixed, map["task" := Str(task), "output_type" := Str(chain)], 3)
      == Running(map["task" := Str(task), "phrase_examples" := List([]), "output_type" := Str(chain)], [])
  {
    var raw := map["task" := Str(task), "output_type" := Str(chain)];
    var fields := TaskManifestModelFixed;
    var v1 := map["task" := Str(task)];
    var v2 := v1["phrase_examples" := List([])];
    assert Prefix(fields, raw, 1) == Running(v1, []);
    assert Prefix(fields, raw, 2) == Running(v2, []);
  }

  /** The legacy row of `LegacyManifestRejected` validates with the fix. */
  lemma LegacyManifestAccepted(task: string, chain: string)
    requires chain != ""
    ensures ValidateModel(TaskManifestModelFixed, map["task" := Str(task), "output_type" := Str(chain)]).Ok?
    ensures Holds(ValidateModel(TaskManifestModelFixed, map["task" := Str(task), "output_type" := Str(chain)]).value,
                  "processor_chain_id", Str(chain))
  {
    var raw := map["task" := Str(task), "output_type" := Str(chain)];
    var fields := TaskManifestModelFixed;
    var v4 := map["task" := Str(task), "phrase_examples" := List([]), "output_type" := Str(chain),
                  "processor_chain_id" := Str(chain)];
    LegacyManifestHead(task, chain);
    var v5 := v4["type" := Str("runnable")];
    var v6 := v5["required_fields" := List([])];
    var v7 := v6["enabled" := Bool(true)];
    var v8 := v7["metadata" := Dict(map[])];
    assert Prefix(fields, raw, 5) == Running(v5, []);
    assert Prefix(fields, raw, 6) == Running(v6, []);
    assert Prefix(fields, raw, 7) == Running(v7, []);
    assert Prefix(fields, raw, 8) == Running(v8, []);
    assert Prefix(fields, raw, 9) == Running(v8["tenant_id" := Str("default")], []);
  }

  // -------------------------------------------------------------------------
  // ChainStep
  // -------------------------------------------------------------------------

  /** `_alias_params(v, values)`: an empty `init_kwargs` is replaced by the
      legacy `params` taken from `values` (or `{}` when that is falsy). */
  function AliasParams(v: Value, values: Dict): (r: Value)
    ensures v == Dict(map[]) && "params" in values ==> r == Or(values["params"], Dict(map[]))
    ensures !(v == Dict(map[]) && "params" in values) ==> r == v
  {
    if v == Dict(map[]) && "params" in values then Or(values["params"], Dict(map[])) else v
  }

  /** The `init_kwargs` field: the `pre=True` alias, then a dict. */
  function InitKwargsValue(v: Value, values: Dict): Result<Value> {
    DictValue(AliasParams(v, values), values)
  }

  const ChainStepModel: seq<FieldDecl> := [
    FieldDecl("id", None, false, StrValue),
    FieldDecl("class_path", None, false, StrValue),
    FieldDecl("init_kwargs", Some(Dict(map[])), true, InitKwargsValue)]

  /** A validated step has the string `id` and `class_path` of its input. */
  lemma ChainStepShape(raw: Dict)
    requires ValidateModel(ChainStepModel, raw).Ok?
    ensures var s := ValidateModel(ChainStepModel, raw).value;
      && "id" in raw && raw["id"].Str? && Holds(s, "id", raw["id"])
      && "class_path" in raw && raw["class_path"].Str? && Holds(s, "class_path", raw["class_path"])
      && "init_kwargs" in s && s["init_kwargs"].Dict?
  {
    var fields := ChainStepModel;
    assert DistinctNames(fields);
    FieldResult(fields, raw, 0);
    FieldResult(fields, raw, 1);
    FieldResult(fields, raw, 2);
  }

  /** As written, the `params` alias never applies: `values` holds only `id`
      and `class_path`, so `init_kwargs` is always the input's (default
      `{}`), whatever `params` the input carries. */
  lemma ParamsAliasIgnored(raw: Dict)
    requires ValidateModel(ChainStepModel, raw).Ok?
    ensures Holds(ValidateModel(ChainStepModel, raw).value, "init_kwargs", Get(raw, "init_kwargs", Dict(map[])))
  {
    var fields := ChainStepModel;
    assert DistinctNames(fields);
    FieldResult(fields, raw, 2);
    CheckSeesEarlierFields(fields, raw, 2, "params");
  }

  /** A legacy step whose arguments are under `params` loses them. */
  lemma LegacyStepLosesParams(id: string, path: string, params: Dict)
    ensures ValidateModel(ChainStepModel, map["id" := Str(id), "class_path" := Str(path), "params" := Dict(params)])
      == Ok(map["id" := Str(id), "class_path" := Str(path), "init_kwargs" := Dict(map[])])
  {
    var raw := map["id" := Str(id), "class_path" := Str(path), "params" := Dict(params)];
    var fields := ChainStepModel;
    var v1 := map["id" := Str(id)];
    var v2 := v1["class_path" := Str(path)];
    assert Prefix(fields, raw, 1) == Running(v1, []);
    assert Prefix(fields, raw, 2) == Running(v2, []);
    assert AliasParams(Dict(map[]), v2) == Dict(map[]);
    assert Prefix(fields, raw, 3) == Running(v2["init_kwargs" := Dict(map[])], []);
  }

  /** The alias as evidently intended: `params` is a declared optional field,
      validated before `init_kwargs`. */
  const ChainStepModelFixed: seq<FieldDecl> := [
    FieldDecl("id", None, false, StrValue),
    FieldDecl("class_path", None, false, StrValue),
    FieldDecl("params", Some(Null), false, OptDictValue),
    FieldDecl("init_kwargs", Some(Dict(map[])), true, InitKwargsValue)]

  /** With the fix, an empty or missing `init_kwargs` takes the input's
      `params` (`{}` when that is missing or empty), and a non-empty one is
      kept. */
  lemma ParamsAliasFixed(raw: Dict)
    requires ValidateModel(ChainStepModelFixed, raw).Ok?
    ensures var s := ValidateModel(ChainStepModelFixed, raw).value;
      && (Get(raw, "init_kwargs", Dict(map[])) == Dict(map[]) ==>
            Holds(s, "init_kwargs", Or(Get(raw, "params", Null), Dict(map[]))))
      && (Get(raw, "init_kwargs", Dict(map[])) != Dict(map[]) ==> Holds(s, "init_kwargs", raw["init_kwargs"]))
  {
    var fields := ChainStepModelFixed;
    assert DistinctNames(fields);
    FieldResult(fields, raw, 2);
    FieldResult(fields, raw, 3);
    assert Prefix(fields, raw, 3).values["params"] == Get(raw, "params", Null) by {
      var p := Prefix(fields, raw, 2);
      assert Prefix(fields, raw, 3) == Step(fields[2], raw, p.values, p.errors);
    }
  }

  /** The legacy step of `LegacyStepLosesParams` keeps its arguments with
      the fix. */
  lemma LegacyStepKeepsParams(id: string, path: string, params: Dict)
    requires params != map[]
    ensures ValidateModel(ChainStepModelFixed, map["id" := Str(id), "class_path" := Str(path), "params" := Dict(params)])
      .Ok?
    ensures Holds(ValidateModel(ChainStepModelFixed, map["id" := Str(id), "class_path" := Str(path), "params" := Dict(params)])
                    .value, "init_kwargs", Dict(params))
  {
    var raw := map["id" := Str(id), "class_path" := Str(path), "params" := Dict(params)];
    var fields := ChainStepModelFixed;
    var v1 := map["id" := Str(id)];
    var v2 := v1["class_path" := Str(path)];
    var v3 := v2["params" := Dict(params)];
    assert Prefix(fields, raw, 1) == Running(v1, []);
    assert Prefix(fields, raw, 2) == Running(v2, []);
    assert Prefix(fields, raw, 3) == Running(v3, []);
    assert AliasParams(Dict(map[]), v3) == Dict(params);
    assert Prefix(fields, raw, 4) == Running(v3["init_kwargs" := Dict(params)], []);
  }

  // -------------------------------------------------------------------------
  // ChainDef
  // -------------------------------------------------------------------------

  /** `values["steps"][0].id` */
  function FirstStepId(values: Dict): (r: Result<Value>)
    ensures "steps" !in values ==> r == Err(KeyError("steps"))
    ensures "steps" in values && values["steps"].List? && values["steps"].items != []
            && values["steps"].items[0].Dict? && "id" in values["steps"].items[0].fields ==>
      r == Ok(values["steps"].items[0].fields["id"])
  {
    var steps :- Lookup(values, "steps");
    var first :- if steps.List? && steps.items != [] then Ok(steps.items[0])
                 else if steps.List? then Err(IndexError("list index out of range"))
                 else Err(TypeError("'" + TypeName(steps) + "' object is not subscriptable"));
    if first.Dict? && "id" in first.fields then Ok(first.fields["id"]) else Err(AttributeError("id"))
  }

  /** `_auto_entry(v, values)`: a `None` entry becomes the first step's id. */
  function AutoEntry(v: Value, values: Dict): (r: Result<Value>)
    ensures !v.Null? ==> r == Ok(v)
    ensures v.Null? ==> r == FirstStepId(values)
  {
    if v.Null? then FirstStepId(values) else Ok(v)
  }

  /** The `entry` field: `Optional[str]`, then `_auto_entry`. */
  function EntryValue(v: Value, values: Dict): Result<Value> {
    var s :- OptStrValue(v, values);
    AutoEntry(s, values)
  }

  /** `_must_have_steps(v)` */
  function MustHaveSteps(v: Value): (r: Result<Value>)
    ensures r.Ok? <==> Truthy(v)
    ensures r.Ok? ==> r.value == v
    ensures r.Err? ==> r.error == ValueError("chain must define at least one step")
  {
    if !Truthy(v) then Err(ValueError("chain must define at least one step")) else Ok(v)
  }

  /** The `steps` field: a list of steps, then `_must_have_steps`. */
  function StepsValue(v: Value, values: Dict): Result<Value> {
    var steps :- ModelListValue(ChainStepModel, v);
    MustHaveSteps(steps)
  }

  function ChainTypeValue(v: Value, values: Dict): Result<Value> {
    LiteralValue(["chain", "json_graph"], v)
  }

  const ChainDefModel: seq<FieldDecl> := [
    FieldDecl("type", Some(Str("chain")), false, ChainTypeValue),
    FieldDecl("entry", Some(Null), true, EntryValue),
    FieldDecl("steps", None, false, StepsValue)]

  /** As written, `entry` is validated before `steps`, so `_auto_entry`
      finds no `steps` in `values`: a chain definition without an entry
      always raises `KeyError('steps')`, which pydantic does not catch. */
  lemma AutoEntryRaises(raw: Dict)
    requires Get(raw, "entry", Null) == Null
    ensures ValidateModel(ChainDefModel, raw) == Err(KeyError("steps"))
  {
    var fields := ChainDefModel;
    var p := Prefix(fields, raw, 1);
    assert Prefix(fields, raw, 0) == Running(map[], []);
    assert p == Step(fields[0], raw, map[], []);
    assert p.Running?;
    assert "steps" !in p.values by {
      StepFacts(fields[0], raw, map[], []);
    }
    assert Prefix(fields, raw, 2) == Raised(KeyError("steps"));
    RaisedEscapes(fields, raw, 2, |fields|);
  }

  /** A validated chain definition (which, as written, needs an explicit
      entry) keeps its entry and has at least one step. */
  lemma ChainDefShape(raw: Dict)
    requires ValidateModel(ChainDefModel, raw).Ok?
    ensures var c := ValidateModel(ChainDefModel, raw).value;
      && Get(raw, "entry", Null).Str? && Holds(c, "entry", raw["entry"])
      && "steps" in c && c["steps"].List? && c["steps"].items != []
  {
    if Get(raw, "entry", Null) == Null {
      AutoEntryRaises(raw);
    }
    var fields := ChainDefModel;
    assert DistinctNames(fields);
    FieldResult(fields, raw, 1);
    FieldResult(fields, raw, 2);
  }

  /** `_auto_entry` as evidently intended: it runs once `steps` has been
      validated, and only when that succeeded. */
  function AutoEntryFixed(v: Value, values: Dict): (r: Result<Value>)
    ensures !v.Null? ==> r == Ok(v)
    ensures v.Null? && Truthy(Get(values, "steps", Null)) ==> r == FirstStepId(values)
    ensures v.Null? && !Truthy(Get(values, "steps", Null)) ==> r == Ok(v)
  {
    if v.Null? && Truthy(Get(values, "steps", Null)) then FirstStepId(values) else Ok(v)
  }

  function EntryValueFixed(v: Value, values: Dict): Result<Value> {
    var s :- OptStrValue(v, values);
    AutoEntryFixed(s, values)
  }

  function StepsValueFixed(v: Value, values: Dict): Result<Value> {
    var steps :- ModelListValue(ChainStepModelFixed, v);
    MustHaveSteps(steps)
  }

  /** The chain definition with `steps` declared before `entry` and the
      `params` alias fixed. */
  const ChainDefModelFixed: seq<FieldDecl> := [
    FieldDecl("type", Some(Str("chain")), false, ChainTypeValue),
    FieldDecl("steps", None, false, StepsValueFixed),
    FieldDecl("entry", Some(Null), true, EntryValueFixed)]

  /** With the fix, a missing or `None` entry becomes the id of the first
      step of the input, an explicit one is kept, and there is at least one
      step. */
  lemma AutoEntryFixedDefaults(raw: Dict)
    requires ValidateModel(ChainDefModelFixed, raw).Ok?
    ensures var c := ValidateModel(ChainDefModelFixed, raw).value;
      && "steps" in c && c["steps"].List? && c["steps"].items != []
      && "steps" in raw && raw["steps"].List? && raw["steps"].items != [] && raw["steps"].items[0].Dict?
      && (Get(raw, "entry", Null) == Null ==>
            "id" in raw["steps"].items[0].fields && Holds(c, "entry", raw["steps"].items[0].fields["id"]))
      && (Get(raw, "entry", Null) != Null ==> Holds(c, "entry", raw["entry"]))
  {
    var fields := ChainDefModelFixed;
    assert DistinctNames(fields);
    FieldResult(fields, raw, 1);
    FieldResult(fields, raw, 2);
    var c := ValidateModel(fields, raw).value;
    var values := Prefix(fields, raw, 2).values;
    CleanPrefix(fields, raw, 2, |fields|);
    assert values["steps"] == c["steps"];
    var first := raw["steps"].items[0];
    FixedStepId(first.fields);
  }

  /** A validated fixed step has the string id of its input. */
  lemma FixedStepId(raw: Dict)
    requires ValidateModel(ChainStepModelFixed, raw).Ok?
    ensures "id" in raw && raw["id"].Str? && Holds(ValidateModel(ChainStepModelFixed, raw).value, "id", raw["id"])
  {
    var fields := ChainStepModelFixed;
    assert DistinctNames(fields);
    FieldResult(fields, raw, 0);
  }

  /** An empty step list is rejected by either definition. */
  lemma EmptyStepsRejected(raw: Dict)
    requires "steps" in raw && raw["steps"] == List([])
    ensures ValidateModel(ChainDefModel, raw).Err?
    ensures ValidateModel(ChainDefModelFixed, raw).Err?
  {
    if ValidateModel(ChainDefModel, raw).Ok? {
      assert false;
    }
    if ValidateModel(ChainDefModelFixed, raw).Ok? {
      var fields := ChainDefModelFixed;
      assert DistinctNames(fields);
      FieldResult(fields, raw, 1);
      EmptyModelList(ChainStepModelFixed);
      assert false;
    }
  }

  // -------------------------------------------------------------------------
  // ProcessorChain
  // -------------------------------------------------------------------------

  /** The `TypeError` CPython 3.11 raises for `ChainDef(**v)` when `v` is
      not a mapping. */
  function NotAMapping(v: Value): Error {
    TypeError("backend.schema.ChainDef() argument after ** must be a mapping, not " + TypeName(v))
  }

  /** `_validate_chain_json(v, values)`: when the row's type is `"chain"`,
      `ChainDef(**v)` must succeed; the value itself is returned either
      way. */
  function ValidateChainJson(chainDef: seq<FieldDecl>, v: Value, values: Dict): (r: Result<Value>)
    ensures Get(values, "type", Null) != Str("chain") ==> r == Ok(v)
    ensures Get(values, "type", Null) == Str("chain") ==>
      (r.Ok? <==> v.Dict? && ValidateModel(chainDef, v.fields).Ok?)
    ensures Get(values, "type", Null) == Str("chain") && v.Dict? && ValidateModel(chainDef, v.fields).Err? ==>
      r == Err(ValidateModel(chainDef, v.fields).error)
    ensures r.Ok? ==> r.value == v
  {
    if Get(values, "type", Null) == Str("chain") then
      if !v.Dict? then Err(NotAMapping(v))
      else
        var _ :- ValidateModel(chainDef, v.fields);
        Ok(v)
    else Ok(v)
  }

  function ProcessorTypeValue(v: Value, values: Dict): Result<Value> {
    LiteralValue(["runnable", "chain"], v)
  }

  /** The `chain_json` field: `Optional[dict]`, then the validator. */
  function ChainJsonValue(v: Value, values: Dict): Result<Value> {
    var j :- OptDictValue(v, values);
    ValidateChainJson(ChainDefModel, j, values)
  }

  const ProcessorChainModel: seq<FieldDecl> := [
    FieldDecl("chain_id", None, false, StrValue),
    FieldDecl("version", Some(Int(1)), false, IntValue),
    FieldDecl("type", Some(Str("runnable")), false, ProcessorTypeValue),
    FieldDecl("chain_json", Some(Null), true, ChainJsonValue),
    FieldDecl("enabled", Some(Bool(true)), false, BoolValue),
    FieldDecl("risk_level", Some(Null), false, OptStrValue),
    FieldDecl("metadata", Some(Dict(map[])), false, DictValue)]

  /** A validated processor row returns its `chain_json` unchanged; when its
      type is `"chain"` that value is a valid chain definition, otherwise any
      dict or `None` passes. */
  lemma ChainJsonUnchanged(raw: Dict)
    requires ValidateModel(ProcessorChainModel, raw).Ok?
    ensures var row := ValidateModel(ProcessorChainModel, raw).value;
      && Holds(row, "chain_json", Get(raw, "chain_json", Null))
      && (Get(raw, "type", Str("runnable")) == Str("chain") ==>
            row["chain_json"].Dict? && ValidateModel(ChainDefModel, row["chain_json"].fields).Ok?)
      && (Get(raw, "type", Str("runnable")) == Str("runnable") || Get(raw, "type", Str("runnable")) == Str("chain"))
  {
    var fields := ProcessorChainModel;
    assert DistinctNames(fields);
    FieldResult(fields, raw, 2);
    FieldResult(fields, raw, 3);
    CleanPrefix(fields, raw, 3, |fields|);
    var values := Prefix(fields, raw, 3).values;
    assert values["type"] == ValidateModel(fields, raw).value["type"];
  }

  /** As written, a `"chain"` row whose definition leaves out `entry` makes
      the whole row raise `KeyError('steps')`. */
  lemma ChainRowWithoutEntryRaises(raw: Dict)
    requires Get(raw, "type", Null) == Str("chain")
    requires "chain_json" in raw && raw["chain_json"].Dict? && Get(raw["chain_json"].fields, "entry", Null) == Null
    ensures ValidateModel(ProcessorChainModel, raw) == Err(KeyError("steps"))
  {
    var fields := ProcessorChainModel;
    AutoEntryRaises(raw["chain_json"].fields);
    var p1 := Prefix(fields, raw, 1);
    assert Prefix(fields, raw, 0) == Running(map[], []);
    assert p1 == Step(fields[0], raw, map[], []);
    assert p1.Running?;
    var p2 := Prefix(fields, raw, 2);
    assert p2 == Step(fields[1], raw, p1.values, p1.errors);
    assert p2.Running?;
    var p := Prefix(fields, raw, 3);
    assert p == Step(fields[2], raw, p2.values, p2.errors);
    assert "type" in raw;
    assert p.Running? && Holds(p.values, "type", Str("chain"));
    assert Prefix(fields, raw, 4) == Raised(KeyError("steps"));
    RaisedEscapes(fields, raw, 4, |fields|);
  }

  /** A `"chain"` row without `chain_json` (or with `None` there): the
      validator runs on `None` (`always=True`), `ChainDef(**None)` raises
      `TypeError`, and pydantic 2 lets that `TypeError` escape the whole row
      instead of reporting a validation error. */
  lemma ChainRowWithoutJsonRaises(raw: Dict)
    requires Get(raw, "type", Null) == Str("chain")
    requires Get(raw, "chain_json", Null) == Null
    ensures ValidateModel(ProcessorChainModel, raw) == Err(NotAMapping(Null))
    ensures NotAMapping(Null) == TypeError("backend.schema.ChainDef() argument after ** must be a mapping, not NoneType")
  {
    ChainJsonRaises(raw);
    RaisedEscapes(ProcessorChainModel, raw, 4, |ProcessorChainModel|);
    ChainJsonOnNone(map["type" := Str("chain")]);
  }

  /** Validation stops at `chain_json` with the `TypeError`. */
  lemma ChainJsonRaises(raw: Dict)
    requires Get(raw, "type", Null) == Str("chain")
    requires Get(raw, "chain_json", Null) == Null
    ensures Prefix(ProcessorChainModel, raw, 4) == Raised(NotAMapping(Null))
  {
    var fields := ProcessorChainModel;
    ChainRowHead(raw);
    var p := Prefix(fields, raw, 3);
    assert FieldInput(fields[3], raw) == Null;
    ChainJsonOnNone(p.values);
    assert Prefix(fields, raw, 4) == Step(fields[3], raw, p.values, p.errors);
  }

  /** The fields before `chain_json` of a `"chain"` row: validation is still
      running, and `values` holds the row's type. */
  lemma ChainRowHead(raw: Dict)
    requires Get(raw, "type", Null) == Str("chain")
    ensures var p := Prefix(ProcessorChainModel, raw, 3);
      p.Running? && Holds(p.values, "type", Str("chain"))
  {
    var fields := ProcessorChainModel;
    var p1 := Prefix(fields, raw, 1);
    assert Prefix(fields, raw, 0) == Running(map[], []);
    assert p1 == Step(fields[0], raw, map[], []);
    assert p1.Running?;
    var p2 := Prefix(fields, raw, 2);
    assert p2 == Step(fields[1], raw, p1.values, p1.errors);
    assert p2.Running?;
    var p := Prefix(fields, raw, 3);
    assert p == Step(fields[2], raw, p2.values, p2.errors);
    assert "type" in raw;
  }

  /** `_validate_chain_json(None, values)` for a `"chain"` row. */
  lemma ChainJsonOnNone(values: Dict)
    requires Get(values, "type", Null) == Str("chain")
    ensures ChainJsonValue(Null, values) == Err(NotAMapping(Null))
    ensures NotAMapping(Null) == TypeError("backend.schema.ChainDef() argument after ** must be a mapping, not NoneType")
  {
    assert OptDictValue(Null, values) == Ok(Null);
    assert TypeName(Null) == "NoneType";
    assert "backend.schema.ChainDef() argument after ** must be a mapping, not " + "NoneType"
      == "backend.schema.ChainDef() argument after ** must be a mapping, not NoneType";
  }

  /** The smallest such row. */
  lemma MinimalChainRowRaises()
    ensures var r := ValidateModel(ProcessorChainModel, map["chain_id" := Str("c"), "type" := Str("chain")]);
      r.Err? && r.error.TypeError?
  {
    var raw := map["chain_id" := Str("c"), "type" := Str("chain")];
    assert "type" in raw && raw["type"] == Str("chain");
    assert "chain_json" !in raw;
    ChainRowWithoutJsonRaises(raw);
  }
}
