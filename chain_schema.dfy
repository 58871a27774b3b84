/// backend/chain_schema.py: the stricter shape of a processor-chain
/// definition: the type must be exactly "chain" and there must be at least
/// one step. Its `ChainStep` declares the same fields, default and legacy
/// `params` alias as backend/schema.py's, so the step model is shared.
module ChainSchema {
  import opened Py
  import opened Values
  import opened ModelValidation
  import Schema

  /** `ChainStep`: `id`, `class_path`, `init_kwargs` (default `{}`) with the
      `pre=True, always=True` alias `_params_alias`. */
  const ChainStepModel: seq<FieldDecl> := Schema.ChainStepModel

  /** `_params_alias(v, values)`, the same expression as schema.py's. */
  lemma ParamsAliasRule(v: Value, values: Dict)
    ensures v == Dict(map[]) && "params" in values ==>
      ChainStepModel[2].check(v, values) == DictValue(Or(values["params"], Dict(map[])), values)
    ensures !(v == Dict(map[]) && "params" in values) ==> ChainStepModel[2].check(v, values) == DictValue(v, values)
  {
  }

  /** `_non_empty(v)` */
  function NonEmpty(v: Value): (r: Result<Value>)
    ensures r.Ok? <==> Truthy(v)
    ensures r.Ok? ==> r.value == v
    ensures r.Err? ==> r.error == ValueError("chain must have at least one step")
  {
    if !Truthy(v) then Err(ValueError("chain must have at least one step")) else Ok(v)
  }

  /** The `steps` field: `List[ChainStep]`, then `_non_empty`. */
  function StepsValue(v: Value, values: Dict): Result<Value> {
    var steps :- ModelListValue(ChainStepModel, v);
    NonEmpty(steps)
  }

  /** The `type` field: `Literal["chain"]`. */
  function TypeValue(v: Value, values: Dict): Result<Value> {
    LiteralValue(["chain"], v)
  }

  /** `ChainDef`: both fields are required. */
  const ChainDefModel: seq<FieldDecl> := [
    FieldDecl("type", None, false, TypeValue),
    FieldDecl("steps", None, false, StepsValue)]

  /** A validated chain definition has type exactly `"chain"` and a
      non-empty list of steps, one per input step in the same order, each
      with the string `id` and `class_path` of its input and a dict of
      `init_kwargs`. */
  lemma ChainDefShape(raw: Dict)
    requires ValidateModel(ChainDefModel, raw).Ok?
    ensures "type" in raw && raw["type"] == Str("chain")
    ensures var c := ValidateModel(ChainDefModel, raw).value;
      && Holds(c, "type", Str("chain"))
      && "steps" in c && c["steps"].List? && c["steps"].items != []
      && "steps" in raw && raw["steps"].List? && |c["steps"].items| == |raw["steps"].items|
      && forall i :: 0 <= i < |raw["steps"].items| ==>
           raw["steps"].items[i].Dict? && c["steps"].items[i].Dict?
           && var given := raw["steps"].items[i].fields;
              var step := c["steps"].items[i].fields;
              && "id" in given && given["id"].Str? && Holds(step, "id", given["id"])
              && "class_path" in given && given["class_path"].Str? && Holds(step, "class_path", given["class_path"])
              && "init_kwargs" in step && step["init_kwargs"].Dict?
  {
    var fields := ChainDefModel;
    var c := ValidateModel(fields, raw).value;
    assert DistinctNames(fields);
    FieldResult(fields, raw, 0);
    FieldResult(fields, raw, 1);
    var items := raw["steps"].items;
    forall i | 0 <= i < |items|
      ensures items[i].Dict? && c["steps"].items[i].Dict?
      ensures var given := items[i].fields;
              var step := c["steps"].items[i].fields;
              && "id" in given && given["id"].Str? && Holds(step, "id", given["id"])
              && "class_path" in given && given["class_path"].Str? && Holds(step, "class_path", given["class_path"])
              && "init_kwargs" in step && step["init_kwargs"].Dict?
    {
      Schema.ChainStepShape(items[i].fields);
    }
  }

  /** An empty step list is rejected, with `steps` among the failed
      fields. */
  lemma EmptyStepsRejected(raw: Dict)
    requires "steps" in raw && raw["steps"] == List([])
    ensures ValidateModel(ChainDefModel, raw).Err?
    ensures ValidateModel(ChainDefModel, raw).error.ValidationError?
    ensures "steps" in ValidateModel(ChainDefModel, raw).error.fields
  {
    var fields := ChainDefModel;
    EmptyModelList(ChainStepModel);
    assert StepsValue(List([]), map[]) == Err(ValueError("chain must have at least one step"));
    var p1 := Prefix(fields, raw, 1);
    assert Prefix(fields, raw, 0) == Running(map[], []);
    assert p1 == Step(fields[0], raw, map[], []);
    assert p1.Running?;
    assert StepsValue(List([]), p1.values) == Err(ValueError("chain must have at least one step"));
    assert Prefix(fields, raw, 2) == Running(p1.values, p1.errors + ["steps"]);
  }

  /** A one-step chain in the current shape validates, and its step gets
      the empty `init_kwargs` default. */
  lemma OneStepChain(id: string, path: string)
    ensures ValidateModel(ChainDefModel, map["type" := Str("chain"),
                          "steps" := List([Dict(map["id" := Str(id), "class_path" := Str(path)])])])
      == Ok(map["type" := Str("chain"),
                "steps" := List([Dict(map["id" := Str(id), "class_path" := Str(path), "init_kwargs" := Dict(map[])])])])
  {
    var given := map["id" := Str(id), "class_path" := Str(path)];
    var step := map["id" := Str(id), "class_path" := Str(path), "init_kwargs" := Dict(map[])];
    StepDefaults(id, path, given);
    assert ItemsPrefix(ChainStepModel, [Dict(given)], 1) == Collecting([Dict(step)], false);
    LegacyDefinition(Dict(given), step);
  }

  /** As written, the `params` alias never applies here either: a legacy
      step whose arguments are under `params` validates, and loses them. */
  lemma LegacyChainLosesParams(id: string, path: string, params: Dict)
    ensures ValidateModel(ChainDefModel, map["type" := Str("chain"),
                          "steps" := List([Dict(map["id" := Str(id), "class_path" := Str(path), "params" := Dict(params)])])])
      == Ok(map["type" := Str("chain"),
                "steps" := List([Dict(map["id" := Str(id), "class_path" := Str(path), "init_kwargs" := Dict(map[])])])])
  {
    var given := map["id" := Str(id), "class_path" := Str(path), "params" := Dict(params)];
    var step := map["id" := Str(id), "class_path" := Str(path), "init_kwargs" := Dict(map[])];
    Schema.LegacyStepLosesParams(id, path, params);
    assert ItemsPrefix(ChainStepModel, [Dict(given)], 1) == Collecting([Dict(step)], false);
    LegacyDefinition(Dict(given), step);
  }

  /** A step given by `id` and `class_path` alone gets `init_kwargs = {}`. */
  lemma StepDefaults(id: string, path: string, given: Dict)
    requires given == map["id" := Str(id), "class_path" := Str(path)]
    ensures ValidateModel(ChainStepModel, given)
      == Ok(map["id" := Str(id), "class_path" := Str(path), "init_kwargs" := Dict(map[])])
  {
    var fields := ChainStepModel;
    var v1 := map["id" := Str(id)];
    var v2 := v1["class_path" := Str(path)];
    assert Prefix(fields, given, 1) == Running(v1, []);
    assert Prefix(fields, given, 2) == Running(v2, []);
    assert Schema.AliasParams(Dict(map[]), v2) == Dict(map[]);
    assert Prefix(fields, given, 3) == Running(v2["init_kwargs" := Dict(map[])], []);
  }

  /** A chain of one step that validates to `step` validates to the chain
      of that step. */
  lemma LegacyDefinition(item: Value, step: Dict)
    requires ItemsPrefix(ChainStepModel, [item], 1) == Collecting([Dict(step)], false)
    ensures ValidateModel(ChainDefModel, map["type" := Str("chain"), "steps" := List([item])])
      == Ok(map["type" := Str("chain"), "steps" := List([Dict(step)])])
  {
    var raw := map["type" := Str("chain"), "steps" := List([item])];
    var fields := ChainDefModel;
    assert ModelListValue(ChainStepModel, List([item])) == Ok(List([Dict(step)]));
    assert StepsValue(List([item]), map["type" := Str("chain")]) == Ok(List([Dict(step)]));
    assert Prefix(fields, raw, 1) == Running(map["type" := Str("chain")], []);
    assert Prefix(fields, raw, 2) == Running(map["type" := Str("chain"), "steps" := List([Dict(step)])], []);
  }

  /** The `steps` field over the step model with `params` declared. */
  function StepsValueFixed(v: Value, values: Dict): Result<Value> {
    var steps :- ModelListValue(Schema.ChainStepModelFixed, v);
    NonEmpty(steps)
  }

  /** `ChainDef` with the `params` alias as evidently intended. */
  const ChainDefModelFixed: seq<FieldDecl> := [
    FieldDecl("type", None, false, TypeValue),
    FieldDecl("steps", None, false, StepsValueFixed)]

  /** With the fix, every step of a validated chain whose `init_kwargs` is
      missing or empty takes its `params` (`{}` when those are missing or
      empty), and a non-empty `init_kwargs` is kept. */
  lemma ParamsAliasFixed(raw: Dict)
    requires ValidateModel(ChainDefModelFixed, raw).Ok?
    ensures var c := ValidateModel(ChainDefModelFixed, raw).value;
      && "steps" in raw && raw["steps"].List? && "steps" in c && c["steps"].List?
      && |c["steps"].items| == |raw["steps"].items|
      && forall i :: 0 <= i < |raw["steps"].items| ==>
           raw["steps"].items[i].Dict? && c["steps"].items[i].Dict?
           && var given := raw["steps"].items[i].fields;
              var step := c["steps"].items[i].fields;
              && (Get(given, "init_kwargs", Dict(map[])) == Dict(map[]) ==>
                    Holds(step, "init_kwargs", Or(Get(given, "params", Null), Dict(map[]))))
              && (Get(given, "init_kwargs", Dict(map[])) != Dict(map[]) ==>
                    Holds(step, "init_kwargs", given["init_kwargs"]))
  {
    var fields := ChainDefModelFixed;
    var c := ValidateModel(fields, raw).value;
    assert DistinctNames(fields);
    FieldResult(fields, raw, 1);
    var items := raw["steps"].items;
    forall i | 0 <= i < |items|
      ensures items[i].Dict? && c["steps"].items[i].Dict?
      ensures var given := items[i].fields;
              var step := c["steps"].items[i].fields;
              && (Get(given, "init_kwargs", Dict(map[])) == Dict(map[]) ==>
                    Holds(step, "init_kwargs", Or(Get(given, "params", Null), Dict(map[]))))
              && (Get(given, "init_kwargs", Dict(map[])) != Dict(map[]) ==>
                    Holds(step, "init_kwargs", given["init_kwargs"]))
    {
      Schema.ParamsAliasFixed(items[i].fields);
    }
  }
}
