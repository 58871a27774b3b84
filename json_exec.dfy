/// backend/json_exec.py: the linear executor. Each step of a chain
/// definition is imported by its `class_path`, built with its own
/// `init_kwargs` and run on the payload overlaid with the outputs so far;
/// the output of the last step in the list is the result.
module LinearExecutor {
  import opened Py
  import opened Values

  /** One step of a chain definition. */
  datatype ChainStep = ChainStep(id: string, classPath: string, initKwargs: Dict)

  /** A runnable class: `cls(**init_kwargs).run(inputs)` as a function of the
      keyword arguments and the inputs. */
  datatype RunClass = RunClass(run: (Dict, Dict) -> Result<Value>)

  /** The importable modules: module path -> attribute name -> class. */
  type Modules = map<string, map<string, RunClass>>

  /** The ids of the first `n` steps. */
  function Ids(steps: seq<ChainStep>, n: nat): set<string>
    requires n <= |steps|
  {
    if n == 0 then {} else Ids(steps, n - 1) + {steps[n - 1].id}
  }

  /** `k` is among the ids of the first `n` steps exactly when one of them
      has the id `k`. */
  lemma {:induction false} IdsMembers(steps: seq<ChainStep>, n: nat, k: string)
    requires n <= |steps|
    ensures k in Ids(steps, n) <==> exists i :: 0 <= i < n && steps[i].id == k
  {
    if n > 0 {
      IdsMembers(steps, n - 1, k);
      if k in Ids(steps, n) && k != steps[n - 1].id {
        var i :| 0 <= i < n - 1 && steps[i].id == k;
        assert 0 <= i < n;
      }
      if exists i :: 0 <= i < n && steps[i].id == k {
        var i :| 0 <= i < n && steps[i].id == k;
        if i < n - 1 {
          assert k in Ids(steps, n - 1);
        }
      }
    }
  }

  /** Running the first step of an already-built state. */
  function RunStep(mods: Modules, step: ChainStep, payload: Dict, state: Dict): Result<Value> {
    var cls :- ImportAttr(mods, step.classPath);
    cls.run(step.initKwargs, Merged(payload, state))
  }

  /** One step of the loop body as a function of the step and the state so
      far. */
  type StepRunner = (ChainStep, Dict) -> Result<Value>

  /** The executor's step runner for these modules and this payload. */
  function Runner(mods: Modules, payload: Dict): StepRunner {
    (step: ChainStep, state: Dict) => RunStep(mods, step, payload, state)
  }

  /** The state dict after the first `n` steps when each is run by `run`, or
      the exception that stopped them. Its keys are exactly the ids of those
      steps; a step with a repeated id overwrites the earlier output. */
  function Fold(run: StepRunner, steps: seq<ChainStep>, n: nat): (r: Result<Dict>)
    requires n <= |steps|
    ensures r.Ok? ==> r.value.Keys == Ids(steps, n)
    ensures r.Ok? && n > 0 ==> steps[n - 1].id in r.value
  {
    if n == 0 then Ok(map[])
    else
      var st :- Fold(run, steps, n - 1);
      var out :- run(steps[n - 1], st);
      Ok(st[steps[n - 1].id := out])
  }

  /** The executor's state dict after the first `n` steps. */
  function StateAfter(mods: Modules, steps: seq<ChainStep>, payload: Dict, n: nat): (r: Result<Dict>)
    requires n <= |steps|
    ensures r.Ok? ==> r.value.Keys == Ids(steps, n)
    ensures r.Ok? && n > 0 ==> steps[n - 1].id in r.value
  {
    Fold(Runner(mods, payload), steps, n)
  }

  /** What `run(payload)` returns or raises. */
  function RunSpec(mods: Modules, steps: seq<ChainStep>, payload: Dict): (r: Result<Value>)
    ensures steps == [] ==> r == Err(IndexError("list index out of range"))
  {
    var st :- StateAfter(mods, steps, payload, |steps|);
    if steps == [] then Err(IndexError("list index out of range"))
    else Ok(st[steps[|steps| - 1].id])
  }

  /** Once a step raises, no later step runs: the exception is the outcome of
      every longer prefix. */
  lemma {:induction false} FoldFailureSticks(run: StepRunner, steps: seq<ChainStep>, m: nat, n: nat)
    requires m <= n <= |steps|
    requires Fold(run, steps, m).Err?
    ensures Fold(run, steps, n).Err?
    ensures Fold(run, steps, n).error == Fold(run, steps, m).error
    decreases n - m
  {
    if m < n {
      FoldFailureSticks(run, steps, m, n - 1);
    }
  }

  /** `FoldFailureSticks` for the executor. */
  lemma FailureSticks(mods: Modules, steps: seq<ChainStep>, payload: Dict, m: nat, n: nat)
    requires m <= n <= |steps|
    requires StateAfter(mods, steps, payload, m).Err?
    ensures StateAfter(mods, steps, payload, n).Err?
    ensures StateAfter(mods, steps, payload, n).error == StateAfter(mods, steps, payload, m).error
  {
    FoldFailureSticks(Runner(mods, payload), steps, m, n);
  }

  /** `run(payload)`: builds and runs each step in list order into a new state
      dict and returns the entry of the last step's id. */
  method Run(mods: Modules, steps: seq<ChainStep>, payload: Dict) returns (r: Result<Value>)
    ensures r == RunSpec(mods, steps, payload)
  {
    var state: Dict := map[];
    for i := 0 to |steps|
      invariant StateAfter(mods, steps, payload, i) == Ok(state)
    {
      var step := steps[i];
      var cls := ImportAttr(mods, step.classPath);
      if cls.Err? {
        FailureSticks(mods, steps, payload, i + 1, |steps|);
        return Err(cls.error);
      }
      var out := cls.value.run(step.initKwargs, Merged(payload, state));
      if out.Err? {
        FailureSticks(mods, steps, payload, i + 1, |steps|);
        return Err(out.error);
      }
      state := state[step.id := out.value];
    }
    if |steps| == 0 {
      return Err(IndexError("list index out of range"));
    }
    return Ok(state[steps[|steps| - 1].id]);
  }

  /** The result is the output of the last step in the list, run on the
      payload overlaid with the state the earlier steps built, even when an
      earlier step has the same id. */
  lemma ResultIsLastOutput(mods: Modules, steps: seq<ChainStep>, payload: Dict)
    requires steps != []
    requires StateAfter(mods, steps, payload, |steps| - 1).Ok?
    ensures var prev := StateAfter(mods, steps, payload, |steps| - 1).value;
      RunSpec(mods, steps, payload) == RunStep(mods, steps[|steps| - 1], payload, prev)
  {
  }

  /** No step from `m` up to `n` has the id `k`. */
  predicate NotRepeated(steps: seq<ChainStep>, m: nat, n: nat, k: string)
    requires m <= n <= |steps|
  {
    forall j :: m <= j < n ==> steps[j].id != k
  }

  /** The first `n` steps succeed only if every shorter prefix does, the
      state after a prefix keeps its keys in the state after a longer one,
      and their values for the ids no later step of that longer prefix
      repeats. */
  lemma PrefixStable(mods: Modules, steps: seq<ChainStep>, payload: Dict, m: nat, n: nat)
    requires m <= n <= |steps|
    requires StateAfter(mods, steps, payload, n).Ok?
    ensures StateAfter(mods, steps, payload, m).Ok?
    ensures forall k :: k in StateAfter(mods, steps, payload, m).value ==> k in StateAfter(mods, steps, payload, n).value
    ensures forall k :: k in StateAfter(mods, steps, payload, m).value && NotRepeated(steps, m, n, k) ==>
        StateAfter(mods, steps, payload, n).value[k] == StateAfter(mods, steps, payload, m).value[k]
  {
    var run := Runner(mods, payload);
    if Fold(run, steps, m).Err? {
      FoldFailureSticks(run, steps, m, n);
    }
    forall k | k in Fold(run, steps, m).value
      ensures k in Fold(run, steps, n).value
      ensures NotRepeated(steps, m, n, k) ==> Fold(run, steps, n).value[k] == Fold(run, steps, m).value[k]
    {
      FoldKeyKept(run, steps, m, n, k);
    }
  }

  /** One key of the state after `m` steps, followed up to `n` steps: it
      stays, and keeps its value when no step in between repeats it. */
  lemma {:induction false} FoldKeyKept(run: StepRunner, steps: seq<ChainStep>, m: nat, n: nat, k: string)
    requires m <= n <= |steps|
    requires Fold(run, steps, n).Ok? && Fold(run, steps, m).Ok?
    requires k in Fold(run, steps, m).value
    ensures k in Fold(run, steps, n).value
    ensures NotRepeated(steps, m, n, k) ==> Fold(run, steps, n).value[k] == Fold(run, steps, m).value[k]
    decreases n - m
  {
    if m < n {
      var prev := Fold(run, steps, n - 1);
      assert prev.Ok?;
      FoldKeyKept(run, steps, m, n - 1, k);
      if NotRepeated(steps, m, n, k) {
        assert steps[n - 1].id != k;
        assert NotRepeated(steps, m, n - 1, k);
      }
    }
  }

  /** Every step sees the payload keys no earlier step has overwritten, and
      every earlier step's output under its id. */
  lemma StepInputs(mods: Modules, steps: seq<ChainStep>, payload: Dict, i: nat, k: string)
    requires i < |steps|
    requires StateAfter(mods, steps, payload, i).Ok?
    ensures var input := Merged(payload, StateAfter(mods, steps, payload, i).value);
      && (k in payload && k !in Ids(steps, i) ==> k in input && input[k] == payload[k])
      && (k in Ids(steps, i) ==> k in input && input[k] == StateAfter(mods, steps, payload, i).value[k])
  {
  }

  /** Two steps with ids "a" and "b"; "b" sees "a"'s output
      over a payload key of the same name, and its output is the result. */
  lemma TwoStepExample(mods: Modules, f: RunClass, g: RunClass)
    requires "m" in mods && "F" in mods["m"] && "G" in mods["m"]
    requires mods["m"]["F"] == f && mods["m"]["G"] == g
    requires forall kw: Dict, x: Dict :: f.run(kw, x) == Ok(Int(1))
    requires forall kw: Dict, x: Dict :: g.run(kw, x) == Ok(if "a" in x then x["a"] else Null)
    ensures RunSpec(mods, [ChainStep("a", "m.F", map[]), ChainStep("b", "m.G", map[])],
                    map["a" := Int(0)]) == Ok(Int(1))
  {
    RPartitionAt("m", "F", '.');
    RPartitionAt("m", "G", '.');
    assert "m" + ['.'] + "F" == "m.F";
    assert "m" + ['.'] + "G" == "m.G";
    var steps := [ChainStep("a", "m.F", map[]), ChainStep("b", "m.G", map[])];
    var payload := map["a" := Int(0)];
    assert StateAfter(mods, steps, payload, 1) == Ok(map["a" := Int(1)]);
    assert Merged(payload, map["a" := Int(1)])["a"] == Int(1);
  }
}
