/// backend/processors.py: building processor chains from their JSON
/// definitions and loading them into the registry `REG`.
///
/// LangChain objects are symbolic terms: what was instantiated (and with
/// which keyword arguments), wrapped, or bound by a method call, and `|`
/// composition as a `Pipe` of two terms. The importable modules are an
/// explicit table, and `json.loads` is a given decoding function.
module Processors {
  import opened Py
  import opened Values

  /** What a `class_path` names: a `Runnable` subclass, a `Runnable` object,
      or any other callable. */
  datatype Target = RunnableClass | RunnableObject | PlainCallable

  type Modules = map<string, map<string, Target>>

  /** The chat model RetrievalQA is wired to. */
  datatype Llm = ChatOpenAI(model: string, temperature: int)

  const RetrievalLlm: Llm := ChatOpenAI("gpt-3.5-turbo", 0)

  /** A built runnable. */
  datatype Runnable =
    | Instance(path: string, kwargs: Dict)          // cls(**init_kwargs)
    | Object(path: string)                          // a Runnable object used as is
    | Lambda(path: string)                          // RunnableLambda(lambda x: fn(x))
    | Bound(base: Runnable, methodName: string, methodKwargs: Dict)   // getattr(r, method)(**kw)
    | RetrievalQA(path: string, llm: Llm, retriever: Runnable, kwargs: Dict)
    | Pipe(first: Runnable, second: Runnable)       // first | second

  /** The steps a runnable runs, left to right. */
  function Flatten(r: Runnable): (s: seq<Runnable>)
    ensures |s| >= 1
  {
    if r.Pipe? then Flatten(r.first) + Flatten(r.second) else [r]
  }

  function FlattenAll(rs: seq<Runnable>): seq<Runnable> {
    if rs == [] then [] else FlattenAll(rs[..|rs| - 1]) + Flatten(rs[|rs| - 1])
  }

  /** `_build_general(cls, init_kwargs)`: a Runnable subclass is instantiated
      with the keyword arguments; a Runnable object is kept; anything else is
      wrapped as a lambda and the keyword arguments are not used. */
  function BuildGeneral(target: Target, path: string, kwargs: Dict): (r: Runnable)
    ensures r.Instance? <==> target == RunnableClass
    ensures r.Instance? ==> r.kwargs == kwargs && r.path == path
    ensures target == RunnableObject ==> r == Object(path)
    ensures target == PlainCallable ==> r == Lambda(path)
  {
    match target
    case RunnableClass => Instance(path, kwargs)
    case RunnableObject => Object(path)
    case PlainCallable => Lambda(path)
  }

  /** `_compose(runnables)`: `runnables[0] | runnables[1] | ...`, grouped from
      the left. */
  function Compose(rs: seq<Runnable>): Runnable
    requires rs != []
  {
    if |rs| == 1 then rs[0] else Pipe(Compose(rs[..|rs| - 1]), rs[|rs| - 1])
  }

  /** The composed chain runs the given runnables' steps in list order. */
  lemma {:induction false} ComposeInOrder(rs: seq<Runnable>)
    requires rs != []
    ensures Flatten(Compose(rs)) == FlattenAll(rs)
    decreases |rs|
  {
    if |rs| > 1 {
      ComposeInOrder(rs[..|rs| - 1]);
    } else {
      assert rs[..0] == [];
    }
  }

  /** The loop of `_compose`. */
  method ComposeLoop(runnables: seq<Runnable>) returns (chain: Runnable)
    requires runnables != []
    ensures chain == Compose(runnables)
    ensures Flatten(chain) == FlattenAll(runnables)
  {
    chain := runnables[0];
    assert runnables[..1] == [runnables[0]];
    for i := 1 to |runnables|
      invariant chain == Compose(runnables[..i])
    {
      assert runnables[..i + 1][..i] == runnables[..i];
      chain := Pipe(chain, runnables[i]);
    }
    assert runnables[..|runnables|] == runnables;
    ComposeInOrder(runnables);
  }

  /** `dict(v)`: a copy of a dict; other values are not modelled as
      convertible. */
  function CopyDict(v: Value): (r: Result<Dict>)
    ensures v.Dict? ==> r == Ok(v.fields)
  {
    if v.Dict? then Ok(v.fields) else Err(TypeError("'" + TypeName(v) + "' object is not a mapping"))
  }

  const RetrievePlaceholder: Value := Str("{{retrieve}}")

  /** The keyword arguments left for `from_chain_type` once a
      `"{{retrieve}}"` retriever has been popped. */
  function WithoutPlaceholder(kwargs: Dict): (r: Dict)
    ensures Get(kwargs, "retriever", Null) == RetrievePlaceholder ==> r == kwargs - {"retriever"}
    ensures Get(kwargs, "retriever", Null) != RetrievePlaceholder ==> r == kwargs
  {
    if Get(kwargs, "retriever", Null) == RetrievePlaceholder then kwargs - {"retriever"} else kwargs
  }

  /** One loop iteration of `_build_chain`: the runnable built for `step`
      given the runnables built before it. */
  function BuildStep(mods: Modules, step: Value, built: seq<Runnable>): (r: Result<Runnable>)
    ensures r.Ok? ==> !r.value.Pipe?
  {
    var pathValue :- Subscript(step, "class_path");
    var path :- if pathValue.Str? then Ok(pathValue.s)
                else Err(AttributeError("'" + TypeName(pathValue) + "' object has no attribute 'rpartition'"));
    var target :- ImportAttr(mods, path);
    var kwargs :- CopyDict(Get(step.fields, "init_kwargs", Dict(map[])));
    var meth := Get(step.fields, "method", Null);
    var methodKwargs := Get(step.fields, "method_kwargs", Dict(map[]));
    if EndsWith(path, ".RetrievalQA") then
      if built == [] then
        Err(ValueError("RetrievalQA cannot be the first step"))
      else
        var rest := WithoutPlaceholder(kwargs);
        if "llm" in rest then
          Err(TypeError("from_chain_type() got multiple values for keyword argument 'llm'"))
        else if "retriever" in rest then
          Err(TypeError("from_chain_type() got multiple values for keyword argument 'retriever'"))
        else
          Ok(RetrievalQA(path, RetrievalLlm, built[|built| - 1], rest))
    else
      var general := BuildGeneral(target, path, kwargs);
      if !Truthy(meth) then Ok(general)
      else if !meth.Str? then Err(TypeError("attribute name must be string"))
      else if !methodKwargs.Dict? then Err(TypeError("argument after ** must be a mapping"))
      else Ok(Bound(general, meth.s, methodKwargs.fields))
  }

  /** `[s for s in steps if "class_path" in s]` */
  function WithClassPath(steps: seq<Value>): (r: Result<seq<Value>>)
    ensures r.Ok? <==> forall i :: 0 <= i < |steps| ==> In(Str("class_path"), steps[i]).Ok?
    ensures r.Ok? ==> Subsequence(r.value, steps)
    ensures r.Ok? ==> forall x :: x in r.value ==> x in steps && In(Str("class_path"), x) == Ok(true)
    ensures r.Ok? ==> forall i :: 0 <= i < |steps| && In(Str("class_path"), steps[i]) == Ok(true) ==>
      steps[i] in r.value
    decreases |steps|
  {
    if steps == [] then Ok([])
    else
      var keep :- In(Str("class_path"), steps[0]);
      var rest :- WithClassPath(steps[1..]);
      assert forall i :: 1 <= i < |steps| ==> steps[i] == steps[1..][i - 1];
      Ok(if keep then [steps[0]] + rest else rest)
  }

  /** The runnables the loop of `_build_chain` ends with, having built
      `before` from the definitions ahead of `i`: each remaining step is
      built given the runnables before it, and the first failure is the
      result. */
  function BuiltFrom(mods: Modules, defs: seq<Value>, i: nat, before: seq<Runnable>): Result<seq<Runnable>>
    requires i <= |defs|
    decreases |defs| - i
  {
    if i == |defs| then Ok(before)
    else
      var r :- BuildStep(mods, defs[i], before);
      BuiltFrom(mods, defs, i + 1, before + [r])
  }

  /** The runnables built from all the step definitions. */
  function Built(mods: Modules, defs: seq<Value>): (r: Result<seq<Runnable>>)
    ensures r.Ok? ==> |r.value| == |defs|
  {
    var r := BuiltFrom(mods, defs, 0, []);
    if r.Ok? then BuiltFromShape(mods, defs, 0, []); r else r
  }

  /** A successful build keeps what was built before, adds one runnable
      per remaining definition, and none of them is a composition. */
  lemma {:induction false} BuiltFromShape(mods: Modules, defs: seq<Value>, i: nat, before: seq<Runnable>)
    requires i <= |defs| && BuiltFrom(mods, defs, i, before).Ok?
    requires forall k :: 0 <= k < |before| ==> !before[k].Pipe?
    ensures var rs := BuiltFrom(mods, defs, i, before).value;
      && |rs| == |before| + |defs| - i && rs[..|before|] == before
      && forall k :: 0 <= k < |rs| ==> !rs[k].Pipe?
    decreases |defs| - i
  {
    if i < |defs| {
      var r := BuildStep(mods, defs[i], before).value;
      var next := before + [r];
      BuiltFromShape(mods, defs, i + 1, next);
      var rs := BuiltFrom(mods, defs, i, before).value;
      assert rs[..|before|] == rs[..|next|][..|before|];
    }
  }

  /** One runnable per step definition, none of them a composition. */
  lemma BuiltShape(mods: Modules, defs: seq<Value>)
    requires Built(mods, defs).Ok?
    ensures forall k :: 0 <= k < |defs| ==> !Built(mods, defs).value[k].Pipe?
  {
    BuiltFromShape(mods, defs, 0, []);
  }

  /** A failing step ends the build with its error. */
  lemma BuiltFromFails(mods: Modules, defs: seq<Value>, i: nat, before: seq<Runnable>)
    requires i < |defs| && BuildStep(mods, defs[i], before).Err?
    ensures BuiltFrom(mods, defs, i, before) == Err(BuildStep(mods, defs[i], before).error)
  {
  }

  /** `_build_chain(spec)` */
  function BuildChainSpec(mods: Modules, decode: string -> Result<Value>, spec: Value): (r: Result<Runnable>)
  {
    var data :- if spec.Str? then decode(spec.s) else Ok(spec);
    var listed :- Subscript(data, "steps");
    var steps :- Iterate(listed);
    var defs :- WithClassPath(steps);
    var runnables :- Built(mods, defs);
    if runnables == [] then Err(ValueError("No runnable steps built"))
    else Ok(Compose(runnables))
  }

  /** `_build_chain(spec)` with its loop over the step definitions. */
  method BuildChain(mods: Modules, decode: string -> Result<Value>, spec: Value) returns (r: Result<Runnable>)
    ensures r == BuildChainSpec(mods, decode, spec)
  {
    var data: Value;
    if spec.Str? {
      var decoded := decode(spec.s);
      if decoded.Err? {
        return Err(decoded.error);
      }
      data := decoded.value;
    } else {
      data := spec;
    }
    var listed := Subscript(data, "steps");
    if listed.Err? {
      return Err(listed.error);
    }
    var steps := Iterate(listed.value);
    if steps.Err? {
      return Err(steps.error);
    }
    var defs := WithClassPath(steps.value);
    if defs.Err? {
      return Err(defs.error);
    }
    var runnables := BuildSteps(mods, defs.value);
    if runnables.Err? {
      return Err(runnables.error);
    }
    if runnables.value == [] {
      return Err(ValueError("No runnable steps built"));
    }
    var chain := ComposeLoop(runnables.value);
    return Ok(chain);
  }

  /** The `for step in steps` loop of `_build_chain`: each step is built
      given the runnables built before it, and the first failure ends the
      loop. */
  method BuildSteps(mods: Modules, defs: seq<Value>) returns (r: Result<seq<Runnable>>)
    ensures r == Built(mods, defs)
  {
    var runnables: seq<Runnable> := [];
    for i := 0 to |defs|
      invariant BuiltFrom(mods, defs, i, runnables) == Built(mods, defs)
    {
      var runnable := BuildStep(mods, defs[i], runnables);
      if runnable.Err? {
        BuiltFromFails(mods, defs, i, runnables);
        return Err(runnable.error);
      }
      runnables := runnables + [runnable.value];
    }
    return Ok(runnables);
  }

  /** Built runnables are never compositions themselves, so a built chain
      runs exactly the built steps, one per step definition that has a
      `class_path`, in their order. */
  lemma ChainRunsBuiltSteps(mods: Modules, defs: seq<Value>)
    requires Built(mods, defs).Ok? && defs != []
    ensures Flatten(Compose(Built(mods, defs).value)) == Built(mods, defs).value
  {
    var rs := Built(mods, defs).value;
    BuiltShape(mods, defs);
    ComposeInOrder(rs);
    FlattenAllPlain(rs);
  }

  lemma {:induction false} FlattenAllPlain(rs: seq<Runnable>)
    requires forall i :: 0 <= i < |rs| ==> !rs[i].Pipe?
    ensures FlattenAll(rs) == rs
    decreases |rs|
  {
    if rs != [] {
      FlattenAllPlain(rs[..|rs| - 1]);
      assert rs[..|rs| - 1] + [rs[|rs| - 1]] == rs;
    }
  }

  /** A RetrievalQA step coming first raises. */
  lemma RetrievalQAFirst(mods: Modules, step: Value)
    requires step.Dict? && "class_path" in step.fields && step.fields["class_path"].Str?
    requires EndsWith(step.fields["class_path"].s, ".RetrievalQA")
    requires ImportAttr(mods, step.fields["class_path"].s).Ok?
    requires Get(step.fields, "init_kwargs", Dict(map[])).Dict?
    ensures BuildStep(mods, step, []) == Err(ValueError("RetrievalQA cannot be the first step"))
  {
  }

  /** After another step, a RetrievalQA step gets that step's runnable as
      its retriever, the fixed chat model, and its keyword arguments
      without a `"{{retrieve}}"` retriever. */
  lemma RetrievalQAWiring(mods: Modules, step: Value, built: seq<Runnable>)
    requires step.Dict? && "class_path" in step.fields && step.fields["class_path"].Str?
    requires EndsWith(step.fields["class_path"].s, ".RetrievalQA")
    requires ImportAttr(mods, step.fields["class_path"].s).Ok?
    requires Get(step.fields, "init_kwargs", Dict(map[])).Dict?
    requires built != [] && BuildStep(mods, step, built).Ok?
    ensures BuildStep(mods, step, built).value
      == RetrievalQA(step.fields["class_path"].s, RetrievalLlm, built[|built| - 1],
                     WithoutPlaceholder(Get(step.fields, "init_kwargs", Dict(map[])).fields))
  {
  }

  /** The `"{{retrieve}}"` placeholder is popped, and the other keyword
      arguments are passed on. */
  lemma RetrievalQAPlaceholder(mods: Modules, step: Value, built: seq<Runnable>)
    requires step.Dict? && "class_path" in step.fields && step.fields["class_path"].Str?
    requires EndsWith(step.fields["class_path"].s, ".RetrievalQA")
    requires ImportAttr(mods, step.fields["class_path"].s).Ok?
    requires Get(step.fields, "init_kwargs", Dict(map[]))
      == Dict(map["retriever" := RetrievePlaceholder, "chain_type" := Str("stuff")])
    requires built != []
    ensures BuildStep(mods, step, built) ==
      Ok(RetrievalQA(step.fields["class_path"].s, RetrievalLlm, built[|built| - 1], map["chain_type" := Str("stuff")]))
  {
    var kwargs := map["retriever" := RetrievePlaceholder, "chain_type" := Str("stuff")];
    assert CopyDict(Get(step.fields, "init_kwargs", Dict(map[]))) == Ok(kwargs);
    var rest := WithoutPlaceholder(kwargs);
    assert rest == map["chain_type" := Str("stuff")] by {
      assert kwargs - {"retriever"} == map["chain_type" := Str("stuff")];
    }
    assert "llm" !in rest && "retriever" !in rest;
  }

  /** A step without `method` is `_build_general`'s runnable; with a method
      name it is that method bound with `method_kwargs`. */
  lemma GeneralStep(mods: Modules, step: Value, built: seq<Runnable>)
    requires step.Dict? && "class_path" in step.fields && step.fields["class_path"].Str?
    requires !EndsWith(step.fields["class_path"].s, ".RetrievalQA")
    requires ImportAttr(mods, step.fields["class_path"].s).Ok?
    requires Get(step.fields, "init_kwargs", Dict(map[])).Dict?
    ensures var path := step.fields["class_path"].s;
      var general := BuildGeneral(ImportAttr(mods, path).value, path, Get(step.fields, "init_kwargs", Dict(map[])).fields);
      var meth := Get(step.fields, "method", Null);
      var mkw := Get(step.fields, "method_kwargs", Dict(map[]));
      && (!Truthy(meth) ==> BuildStep(mods, step, built) == Ok(general))
      && (meth.Str? && meth.s != "" && mkw.Dict? ==>
            BuildStep(mods, step, built) == Ok(Bound(general, meth.s, mkw.fields)))
  {
  }

  /** A definition with no step carrying a `class_path` builds nothing. */
  lemma NoClassPathNoChain(mods: Modules, decode: string -> Result<Value>, steps: seq<Value>)
    requires forall i :: 0 <= i < |steps| ==> steps[i].Dict? && "class_path" !in steps[i].fields
    ensures BuildChainSpec(mods, decode, Dict(map["steps" := List(steps)])) == Err(ValueError("No runnable steps built"))
  {
    NoClassPathFiltered(steps);
  }

  lemma {:induction false} NoClassPathFiltered(steps: seq<Value>)
    requires forall i :: 0 <= i < |steps| ==> steps[i].Dict? && "class_path" !in steps[i].fields
    ensures WithClassPath(steps) == Ok([])
    decreases |steps|
  {
    if steps != [] {
      NoClassPathFiltered(steps[1..]);
    }
  }

  // -------------------------------------------------------------------------
  // load_all
  // -------------------------------------------------------------------------

  /** One row: `REG[row["chain_id"]] = _build_chain(row["chain_json"])`; the
      right-hand side is evaluated first. Chain ids must be hashable. */
  function LoadRow(mods: Modules, decode: string -> Result<Value>, row: Value): (r: Result<(Value, Runnable)>)
    ensures r.Ok? ==> !r.value.0.List? && !r.value.0.Dict?
  {
    var json :- Subscript(row, "chain_json");
    var chain :- BuildChainSpec(mods, decode, json);
    var id :- Subscript(row, "chain_id");
    if id.List? || id.Dict? then Err(TypeError("unhashable type: '" + TypeName(id) + "'"))
    else Ok((id, chain))
  }

  /** The registry after loading `rows` into `reg`, and whether a row raised;
      rows before the failing one stay loaded. */
  function LoadFrom(mods: Modules, decode: string -> Result<Value>, reg: map<Value, Runnable>,
                    rows: seq<Value>): (out: (map<Value, Runnable>, Result<()>))
    ensures reg.Keys <= out.0.Keys
    decreases |rows|
  {
    if rows == [] then (reg, Ok(()))
    else
      match LoadRow(mods, decode, rows[0])
      case Err(e) => (reg, Err(e))
      case Ok(entry) => LoadFrom(mods, decode, reg[entry.0 := entry.1], rows[1..])
  }

  /** The module-level registry `REG`. */
  class Registry {
    var reg: map<Value, Runnable>

    constructor()
      ensures reg == map[]
    {
      reg := map[];
    }

    /** `load_all()` over the rows the database returned. */
    method LoadAll(mods: Modules, decode: string -> Result<Value>, rows: seq<Value>) returns (r: Result<()>)
      modifies this
      ensures (reg, r) == LoadFrom(mods, decode, old(reg), rows)
    {
      for i := 0 to |rows|
        invariant LoadFrom(mods, decode, reg, rows[i..]) == LoadFrom(mods, decode, old(reg), rows)
      {
        assert rows[i..][1..] == rows[i + 1..];
        var json := Subscript(rows[i], "chain_json");
        if json.Err? {
          return Err(json.error);
        }
        var chain := BuildChain(mods, decode, json.value);
        if chain.Err? {
          return Err(chain.error);
        }
        var id := Subscript(rows[i], "chain_id");
        if id.Err? {
          return Err(id.error);
        }
        if id.value.List? || id.value.Dict? {
          return Err(TypeError("unhashable type: '" + TypeName(id.value) + "'"));
        }
        reg := reg[id.value := chain.value];
      }
      assert rows[|rows|..] == [];
      return Ok(());
    }
  }

  /** Every row loads. */
  predicate AllLoad(mods: Modules, decode: string -> Result<Value>, rows: seq<Value>) {
    forall i :: 0 <= i < |rows| ==> LoadRow(mods, decode, rows[i]).Ok?
  }

  /** Row `row` loads under the id `k`. */
  predicate LoadsAs(mods: Modules, decode: string -> Result<Value>, row: Value, k: Value) {
    LoadRow(mods, decode, row).Ok? && LoadRow(mods, decode, row).value.0 == k
  }

  /** A load in which every row builds succeeds, and an id no row carries
      keeps what the registry held. */
  lemma {:induction false} UntouchedIdsKept(mods: Modules, decode: string -> Result<Value>,
                                            reg: map<Value, Runnable>, rows: seq<Value>, k: Value)
    requires AllLoad(mods, decode, rows)
    requires forall i :: 0 <= i < |rows| ==> !LoadsAs(mods, decode, rows[i], k)
    ensures LoadFrom(mods, decode, reg, rows).1 == Ok(())
    ensures k in LoadFrom(mods, decode, reg, rows).0 <==> k in reg
    ensures k in reg ==> LoadFrom(mods, decode, reg, rows).0[k] == reg[k]
    decreases |rows|
  {
    if rows != [] {
      assert LoadRow(mods, decode, rows[0]).Ok? && !LoadsAs(mods, decode, rows[0], k);
      var entry := LoadRow(mods, decode, rows[0]).value;
      assert forall i :: 1 <= i < |rows| ==> rows[i] == rows[1..][i - 1];
      UntouchedIdsKept(mods, decode, reg[entry.0 := entry.1], rows[1..], k);
    }
  }

  /** In a load in which every row builds, an id holds the chain of the last
      row carrying it. */
  lemma {:induction false} LastRowWins(mods: Modules, decode: string -> Result<Value>,
                                       reg: map<Value, Runnable>, rows: seq<Value>, i: nat, k: Value)
    requires AllLoad(mods, decode, rows)
    requires i < |rows| && LoadsAs(mods, decode, rows[i], k)
    requires forall j :: i < j < |rows| ==> !LoadsAs(mods, decode, rows[j], k)
    ensures LoadFrom(mods, decode, reg, rows).1 == Ok(())
    ensures k in LoadFrom(mods, decode, reg, rows).0
    ensures LoadFrom(mods, decode, reg, rows).0[k] == LoadRow(mods, decode, rows[i]).value.1
    decreases i
  {
    assert LoadRow(mods, decode, rows[0]).Ok?;
    var entry := LoadRow(mods, decode, rows[0]).value;
    var rest := rows[1..];
    var next := reg[entry.0 := entry.1];
    assert LoadFrom(mods, decode, reg, rows) == LoadFrom(mods, decode, next, rest);
    LoadTail(mods, decode, rows, i, k);
    if i == 0 {
      assert entry.0 == k;
      UntouchedIdsKept(mods, decode, next, rest, k);
    } else {
      assert rest[i - 1] == rows[i];
      LastRowWins(mods, decode, next, rest, i - 1, k);
    }
  }

  /** What `AllLoad` and the rows after `i` say of `rows` they say of its
      tail, one index down. */
  lemma LoadTail(mods: Modules, decode: string -> Result<Value>, rows: seq<Value>, i: nat, k: Value)
    requires AllLoad(mods, decode, rows) && i < |rows|
    requires forall j :: i < j < |rows| ==> !LoadsAs(mods, decode, rows[j], k)
    ensures AllLoad(mods, decode, rows[1..])
    ensures forall j :: i <= j < |rows| - 1 ==> !LoadsAs(mods, decode, rows[1..][j], k)
  {
    forall j | 0 <= j < |rows| - 1 ensures LoadRow(mods, decode, rows[1..][j]).Ok? {
      assert rows[1..][j] == rows[j + 1];
    }
    forall j | i <= j < |rows| - 1 ensures !LoadsAs(mods, decode, rows[1..][j], k) {
      assert rows[1..][j] == rows[j + 1];
    }
  }

  /** A row that raises stops the load with its exception; the rows before
      it stay loaded and none after it is built. */
  lemma {:induction false} FailingRowStops(mods: Modules, decode: string -> Result<Value>,
                                           reg: map<Value, Runnable>, rows: seq<Value>, i: nat)
    requires i < |rows|
    requires AllLoad(mods, decode, rows[..i])
    requires LoadRow(mods, decode, rows[i]).Err?
    ensures LoadFrom(mods, decode, reg, rows) ==
      (LoadFrom(mods, decode, reg, rows[..i]).0, Err(LoadRow(mods, decode, rows[i]).error))
    decreases i
  {
    if i > 0 {
      assert rows[..i][0] == rows[0];
      var entry := LoadRow(mods, decode, rows[0]).value;
      var reg' := reg[entry.0 := entry.1];
      var tail := rows[1..][..i - 1];
      assert tail == rows[..i][1..];
      forall j | 0 <= j < i - 1
        ensures LoadRow(mods, decode, tail[j]).Ok?
      {
        assert tail[j] == rows[..i][j + 1];
      }
      FailingRowStops(mods, decode, reg', rows[1..], i - 1);
      assert LoadFrom(mods, decode, reg, rows) == LoadFrom(mods, decode, reg', rows[1..]);
      assert LoadFrom(mods, decode, reg, rows[..i]) == LoadFrom(mods, decode, reg', rows[..i][1..]);
    }
  }
}
