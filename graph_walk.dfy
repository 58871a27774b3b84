/// The walk that both `JSONGraphExecutor` classes of backend/json_executor.py
/// and backend/executor.py perform over a `json_graph` spec: start at the
/// entry node, refuse to enter a node twice, run each node's step, store its
/// output under the node id and follow the first `next` edge.
///
/// `Walk` is the specification; the executors' `while` loops are proved
/// against it. Step classes are resolved through an explicit namespace
/// (module path -> attribute -> class) in place of `importlib`, and each
/// class declares how many parameters its `run` method takes in place of
/// `inspect.signature`.
module GraphWalk {
  import opened Py
  import opened Values

  /** A runnable class: `arity` is the number of parameters of its `run`
      method (without `self`); `run` is its behaviour given the keyword
      arguments it was constructed with and the positional arguments of the
      call. Steps are modelled as not mutating the dicts they are handed. */
  datatype StepClass = StepClass(arity: nat, run: (Dict, seq<Dict>) -> Result<Value>)

  /** The object `cls(**params)`. */
  datatype Instance = Instance(cls: StepClass, params: Dict)

  /** The importable modules: module path -> attribute name -> class. */
  type Namespace = map<string, map<string, StepClass>>

  /** A dict entry that may be absent, explicitly `None`, or hold a value. */
  datatype Slot<T> = Absent | NoneGiven | Given(value: T)

  /** A node's `params` entry. */
  type Params = Slot<Dict>

  /** One entry of `nodes`. An absent or `None` `next` is written `[]`
      (both executors read it through `or []`). */
  datatype Node = Node(typ: string, params: Params, next: seq<string>)

  /** Which of the two graph executors: backend/json_executor.py or
      backend/executor.py. They differ only in how a node's type and params
      become an instance (`Resolve`). */
  datatype Dialect = JsonExecutor | Executor

  const HelpersModule: string := "backend.helpers"
  const MainModule: string := "__main__"

  /** The positional arguments of `runobj.run(...)`: the running state alone
      for a one-parameter `run`, otherwise the context and then the state. */
  function CallArgs(arity: nat, ctx: Dict, data: Dict): (args: seq<Dict>)
    ensures |args| == (if arity == 1 then 1 else 2)
    ensures args[|args| - 1] == data
    ensures |args| == 2 ==> args[0] == ctx
  {
    if arity == 1 then [data] else [ctx, data]
  }

  /** `runobj.run(data)` or `runobj.run(ctx, data)` */
  function Invoke(inst: Instance, ctx: Dict, data: Dict): Result<Value> {
    inst.cls.run(inst.params, CallArgs(inst.cls.arity, ctx, data))
  }

  /** The keyword arguments handed to the constructor.
      json_executor: `m_get("params") or {}`; executor: `meta.get("params", {})`,
      where an explicit `None` makes `cls(**None)` raise a TypeError. */
  function Kwargs(d: Dialect, p: Params): (r: Result<Dict>)
    ensures p.Absent? ==> r == Ok(map[])
    ensures p.Given? ==> r == Ok(p.value)
    ensures p.NoneGiven? ==> (r.Ok? <==> d == JsonExecutor)
    ensures r.Ok? && p.NoneGiven? ==> r.value == map[]
  {
    match p
    case Absent => Ok(map[])
    case NoneGiven =>
      if d == JsonExecutor then Ok(map[])
      else Err(TypeError("argument after ** must be a mapping, not NoneType"))
    case Given(m) => Ok(m)
  }

  function InvalidPath(dotted: string): Error {
    ValueError("Invalid runnable path '" + dotted + "'")
  }

  /** `_resolve(type, params)`: split the type at its last dot; a type without
      a module part is looked up in backend.helpers by json_executor and
      rejected by executor; `__main__.X` is looked up in the main module
      (the call-stack scan is not modelled); any other path is imported. */
  function Resolve(d: Dialect, ns: Namespace, dotted: string, params: Params): (r: Result<Instance>)
  {
    var (modPath, attr) := RPartition(dotted, '.');
    if modPath == "" then
      if d == JsonExecutor && HelpersModule in ns && attr in ns[HelpersModule] then
        var kw :- Kwargs(d, params);
        Ok(Instance(ns[HelpersModule][attr], kw))
      else
        Err(InvalidPath(dotted))
    else if modPath == MainModule then
      var main := if MainModule in ns then ns[MainModule] else map[];
      if attr in main then
        var kw :- Kwargs(d, params);
        Ok(Instance(main[attr], kw))
      else
        Err(AttributeError("'" + modPath + "' has no attribute '" + attr + "'"))
    else if modPath !in ns then
      Err(ModuleNotFoundError(modPath))
    else if attr !in ns[modPath] then
      Err(AttributeError("module '" + modPath + "' has no attribute '" + attr + "'"))
    else
      var kw :- Kwargs(d, params);
      Ok(Instance(ns[modPath][attr], kw))
  }

  /** A type with no dot resolves only against backend.helpers (json_executor)
      and never (executor); the failure is the "Invalid runnable path" error. */
  lemma DotlessTypes(d: Dialect, ns: Namespace, dotted: string, params: Params)
    requires '.' !in dotted
    ensures var r := Resolve(d, ns, dotted, params);
      && (r.Ok? ==> d == JsonExecutor && HelpersModule in ns && dotted in ns[HelpersModule]
                    && r.value.cls == ns[HelpersModule][dotted])
      && (d == Executor ==> r == Err(InvalidPath(dotted)))
      && (d == JsonExecutor && !(HelpersModule in ns && dotted in ns[HelpersModule]) ==>
            r == Err(InvalidPath(dotted)))
  {
  }

  /** The successor of a node: `next[0]`, or none (`""`) for an empty `next`. */
  function Successor(n: Node): string {
    if n.next == [] then "" else n.next[0]
  }

  function CycleMessage(id: string): string {
    "cycle detected at node '" + id + "'"
  }

  /** How a walk ended: the current node was falsy, a node was entered a second
      time, or an exception was raised (unknown node, resolution, step). */
  datatype Status = Done | Cycle(node: string) | Failed(error: Error)

  /** The state dict at the end, the ids of the nodes whose step ran (in order),
      and how the walk ended. */
  datatype Outcome = Outcome(data: Dict, trace: seq<string>, status: Status)

  /** What `run` returns or raises for a walk outcome. */
  function ToResult(o: Outcome): (r: Result<Dict>)
    ensures r.Ok? <==> o.status.Done?
    ensures r.Ok? ==> r.value == o.data
    ensures o.status.Cycle? ==> r == Err(RuntimeError(CycleMessage(o.status.node)))
    ensures o.status.Failed? ==> r == Err(o.status.error)
  {
    match o.status
    case Done => Ok(o.data)
    case Cycle(n) => Err(RuntimeError(CycleMessage(n)))
    case Failed(e) => Err(e)
  }

  lemma EnteringShrinks(keys: set<string>, seen: set<string>, cur: string)
    requires cur in keys && cur !in seen
    ensures |keys - (seen + {cur})| < |keys - seen|
  {
    assert keys - (seen + {cur}) == (keys - seen) - {cur};
  }

  /** Looking up node `cur`'s class and running its step on the current state. */
  function RunNode(d: Dialect, ns: Namespace, node: Node, ctx: Dict, data: Dict): Result<Value> {
    var inst :- Resolve(d, ns, node.typ, node.params);
    Invoke(inst, ctx, data)
  }

  /** The walk from node `cur`, with `seen` the nodes already entered and
      `data` the state so far. An empty id stands for both `None` and `""`:
      `while cur` stops on either. */
  function Walk(d: Dialect, ns: Namespace, nodes: map<string, Node>, ctx: Dict,
                data: Dict, cur: string, seen: set<string>): (o: Outcome)
    decreases |nodes.Keys - seen|
  {
    if cur == "" then Outcome(data, [], Done)
    else if cur in seen then Outcome(data, [], Cycle(cur))
    else if cur !in nodes then Outcome(data, [], Failed(KeyError(cur)))
    else
      match RunNode(d, ns, nodes[cur], ctx, data)
      case Err(e) => Outcome(data, [], Failed(e))
      case Ok(out) =>
        EnteringShrinks(nodes.Keys, seen, cur);
        var rest := Walk(d, ns, nodes, ctx, data[cur := out], Successor(nodes[cur]), seen + {cur});
        Outcome(rest.data, [cur] + rest.trace, rest.status)
  }

  /** A walk that runs node `cur` continues from its successor. */
  lemma WalkUnfold(d: Dialect, ns: Namespace, nodes: map<string, Node>, ctx: Dict,
                   data: Dict, cur: string, seen: set<string>)
    requires cur != "" && cur !in seen && cur in nodes
    requires RunNode(d, ns, nodes[cur], ctx, data).Ok?
    ensures var out := RunNode(d, ns, nodes[cur], ctx, data).value;
      var rest := Walk(d, ns, nodes, ctx, data[cur := out], Successor(nodes[cur]), seen + {cur});
      Walk(d, ns, nodes, ctx, data, cur, seen) == Outcome(rest.data, [cur] + rest.trace, rest.status)
      && |nodes.Keys - (seen + {cur})| < |nodes.Keys - seen|
  {
    EnteringShrinks(nodes.Keys, seen, cur);
  }

  /** The node the walk would enter after running `trace` from `cur`. */
  function NextAfter(nodes: map<string, Node>, cur: string, trace: seq<string>): string {
    if trace == [] then cur
    else if trace[|trace| - 1] in nodes then Successor(nodes[trace[|trace| - 1]])
    else ""
  }

  /** Every node that runs exists and had not been entered before the walk
      started; the first one is `cur`. */
  lemma {:induction false} WalkTraceFresh(d: Dialect, ns: Namespace, nodes: map<string, Node>, ctx: Dict,
                                          data: Dict, cur: string, seen: set<string>)
    ensures var o := Walk(d, ns, nodes, ctx, data, cur, seen);
      && (forall i :: 0 <= i < |o.trace| ==> o.trace[i] in nodes && o.trace[i] !in seen)
      && (o.trace != [] ==> o.trace[0] == cur)
    decreases |nodes.Keys - seen|
  {
    if cur != "" && cur !in seen && cur in nodes && RunNode(d, ns, nodes[cur], ctx, data).Ok? {
      var out := RunNode(d, ns, nodes[cur], ctx, data).value;
      WalkUnfold(d, ns, nodes, ctx, data, cur, seen);
      var rest := Walk(d, ns, nodes, ctx, data[cur := out], Successor(nodes[cur]), seen + {cur});
      WalkTraceFresh(d, ns, nodes, ctx, data[cur := out], Successor(nodes[cur]), seen + {cur});
      TraceConsFresh(nodes, seen, cur, rest.trace);
    } else {
      WalkHalts(d, ns, nodes, ctx, data, cur, seen);
    }
  }

  /** A walk that does not run node `cur` runs nothing. */
  lemma WalkHalts(d: Dialect, ns: Namespace, nodes: map<string, Node>, ctx: Dict,
                  data: Dict, cur: string, seen: set<string>)
    requires !(cur != "" && cur !in seen && cur in nodes && RunNode(d, ns, nodes[cur], ctx, data).Ok?)
    ensures Walk(d, ns, nodes, ctx, data, cur, seen).trace == []
  {
  }

  /** Prefixing a fresh node to a trace of nodes fresh after it keeps the
      trace fresh. */
  lemma TraceConsFresh(nodes: map<string, Node>, seen: set<string>, cur: string, rest: seq<string>)
    requires cur in nodes && cur !in seen
    requires forall i :: 0 <= i < |rest| ==> rest[i] in nodes && rest[i] !in seen + {cur}
    ensures forall i :: 0 <= i < |[cur] + rest| ==> ([cur] + rest)[i] in nodes && ([cur] + rest)[i] !in seen
  {
    var trace := [cur] + rest;
    assert forall i :: 1 <= i < |trace| ==> trace[i] == rest[i - 1];
  }

  /** No node runs twice, so a walk runs at most one step per node id that
      was not entered before. */
  lemma {:induction false} WalkTraceDistinct(d: Dialect, ns: Namespace, nodes: map<string, Node>, ctx: Dict,
                                             data: Dict, cur: string, seen: set<string>)
    ensures var o := Walk(d, ns, nodes, ctx, data, cur, seen);
      && (forall i, j :: 0 <= i < j < |o.trace| ==> o.trace[i] != o.trace[j])
      && |o.trace| <= |nodes.Keys - seen|
    decreases |nodes.Keys - seen|
  {
    if cur != "" && cur !in seen && cur in nodes && RunNode(d, ns, nodes[cur], ctx, data).Ok? {
      var out := RunNode(d, ns, nodes[cur], ctx, data).value;
      WalkUnfold(d, ns, nodes, ctx, data, cur, seen);
      WalkTraceDistinct(d, ns, nodes, ctx, data[cur := out], Successor(nodes[cur]), seen + {cur});
      WalkTraceFresh(d, ns, nodes, ctx, data[cur := out], Successor(nodes[cur]), seen + {cur});
    }
  }

  /** Each node after the first is the successor of the node before it. */
  lemma {:induction false} WalkTraceEdges(d: Dialect, ns: Namespace, nodes: map<string, Node>, ctx: Dict,
                                          data: Dict, cur: string, seen: set<string>)
    ensures var o := Walk(d, ns, nodes, ctx, data, cur, seen);
      forall i :: 0 <= i < |o.trace| - 1 ==>
        o.trace[i] in nodes && o.trace[i + 1] == Successor(nodes[o.trace[i]])
    decreases |nodes.Keys - seen|
  {
    if cur != "" && cur !in seen && cur in nodes && RunNode(d, ns, nodes[cur], ctx, data).Ok? {
      var out := RunNode(d, ns, nodes[cur], ctx, data).value;
      WalkUnfold(d, ns, nodes, ctx, data, cur, seen);
      var rest := Walk(d, ns, nodes, ctx, data[cur := out], Successor(nodes[cur]), seen + {cur});
      WalkTraceEdges(d, ns, nodes, ctx, data[cur := out], Successor(nodes[cur]), seen + {cur});
      WalkTraceFresh(d, ns, nodes, ctx, data[cur := out], Successor(nodes[cur]), seen + {cur});
      TraceConsEdges(nodes, cur, rest.trace);
    } else {
      WalkHalts(d, ns, nodes, ctx, data, cur, seen);
    }
  }

  /** Prefixing a node to a trace that starts with its successor keeps
      every step an edge. */
  lemma TraceConsEdges(nodes: map<string, Node>, cur: string, rest: seq<string>)
    requires cur in nodes && (rest != [] ==> rest[0] == Successor(nodes[cur]))
    requires forall i :: 0 <= i < |rest| - 1 ==> rest[i] in nodes && rest[i + 1] == Successor(nodes[rest[i]])
    ensures var trace := [cur] + rest;
      forall i :: 0 <= i < |trace| - 1 ==> trace[i] in nodes && trace[i + 1] == Successor(nodes[trace[i]])
  {
    var trace := [cur] + rest;
    assert forall i :: 1 <= i < |trace| ==> trace[i] == rest[i - 1];
  }

  /** The result dict holds the initial keys plus one key per node that ran;
      keys of nodes that did not run keep their initial value. */
  lemma {:induction false} WalkData(d: Dialect, ns: Namespace, nodes: map<string, Node>, ctx: Dict,
                                    data: Dict, cur: string, seen: set<string>)
    ensures var o := Walk(d, ns, nodes, ctx, data, cur, seen);
      && (forall k :: k in o.data <==> k in data || k in o.trace)
      && (forall k :: k in data && k !in o.trace ==> o.data[k] == data[k])
    decreases |nodes.Keys - seen|
  {
    if cur != "" && cur !in seen && cur in nodes && RunNode(d, ns, nodes[cur], ctx, data).Ok? {
      var out := RunNode(d, ns, nodes[cur], ctx, data).value;
      WalkUnfold(d, ns, nodes, ctx, data, cur, seen);
      WalkData(d, ns, nodes, ctx, data[cur := out], Successor(nodes[cur]), seen + {cur});
    }
  }

  /** A node that runs stores its own output under its id, and no later step
      overwrites it. */
  lemma WalkStoresOutput(d: Dialect, ns: Namespace, nodes: map<string, Node>, ctx: Dict,
                         data: Dict, cur: string, seen: set<string>, out: Value)
    requires cur != "" && cur !in seen && cur in nodes
    requires RunNode(d, ns, nodes[cur], ctx, data) == Ok(out)
    ensures var o := Walk(d, ns, nodes, ctx, data, cur, seen);
      o.trace != [] && o.trace[0] == cur && cur in o.data && o.data[cur] == out
  {
    WalkUnfold(d, ns, nodes, ctx, data, cur, seen);
    var data' := data[cur := out];
    WalkTraceFresh(d, ns, nodes, ctx, data', Successor(nodes[cur]), seen + {cur});
    WalkData(d, ns, nodes, ctx, data', Successor(nodes[cur]), seen + {cur});
  }

  /** How the walk ends is decided by the next node it would enter: none means
      done, an already entered node means a cycle error naming that node, and
      anything else is an exception from looking up or running it. */
  lemma {:induction false} WalkEnd(d: Dialect, ns: Namespace, nodes: map<string, Node>, ctx: Dict,
                                   data: Dict, cur: string, seen: set<string>)
    ensures var o := Walk(d, ns, nodes, ctx, data, cur, seen);
      var nxt := NextAfter(nodes, cur, o.trace);
      && (o.status.Done? <==> nxt == "")
      && (o.status.Cycle? <==> nxt != "" && (nxt in seen || nxt in o.trace))
      && (o.status.Cycle? ==> o.status.node == nxt)
    decreases |nodes.Keys - seen|
  {
    var o := Walk(d, ns, nodes, ctx, data, cur, seen);
    WalkTraceFresh(d, ns, nodes, ctx, data, cur, seen);
    if cur != "" && cur !in seen && cur in nodes && RunNode(d, ns, nodes[cur], ctx, data).Ok? {
      var out := RunNode(d, ns, nodes[cur], ctx, data).value;
      WalkUnfold(d, ns, nodes, ctx, data, cur, seen);
      var rest := Walk(d, ns, nodes, ctx, data[cur := out], Successor(nodes[cur]), seen + {cur});
      WalkEnd(d, ns, nodes, ctx, data[cur := out], Successor(nodes[cur]), seen + {cur});
      WalkTraceFresh(d, ns, nodes, ctx, data[cur := out], Successor(nodes[cur]), seen + {cur});
      var nxt := NextAfter(nodes, Successor(nodes[cur]), rest.trace);
      assert NextAfter(nodes, cur, o.trace) == nxt by {
        if rest.trace != [] {
          assert o.trace[|o.trace| - 1] == rest.trace[|rest.trace| - 1];
        }
      }
      assert nxt in o.trace <==> nxt == cur || nxt in rest.trace;
    }
  }

  /** A two-node loop: x -> y -> x with steps that succeed ends in a cycle error
      at x after running x and then y. */
  lemma TwoNodeCycle(d: Dialect)
    ensures var cls := StepClass(1, (p: Dict, a: seq<Dict>) => Ok(Null));
      var ns: Namespace := map["m" := map["S" := cls]];
      var nodes := map["x" := Node("m.S", Absent, ["y"]), "y" := Node("m.S", Absent, ["x"])];
      var o := Walk(d, ns, nodes, map[], map[], "x", {});
      o.trace == ["x", "y"] && o.status == Cycle("x")
  {
    var cls := StepClass(1, (p: Dict, a: seq<Dict>) => Ok(Null));
    var ns: Namespace := map["m" := map["S" := cls]];
    var nodes := map["x" := Node("m.S", Absent, ["y"]), "y" := Node("m.S", Absent, ["x"])];
    RPartitionAt("m", "S", '.');
    assert "m" + ['.'] + "S" == "m.S";
    var inst := Instance(cls, map[]);
    assert Resolve(d, ns, "m.S", Absent) == Ok(inst);
    var d1 := map["x" := Null];
    var d2 := d1["y" := Null];
    assert Walk(d, ns, nodes, map[], d2, "x", {"x", "y"}) == Outcome(d2, [], Cycle("x"));
    assert Walk(d, ns, nodes, map[], d1, "y", {"x"}).trace == ["y"];
  }
}
