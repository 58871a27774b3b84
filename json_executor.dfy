/// backend/json_executor.py: the graph executor that runs against a caller's
/// state dict. A non-empty dict passed as `state` is the very object the
/// steps' outputs are written into and that `run` returns, so the dict is a
/// heap object here (`PyDict`) and `Run` says what happens to it, also when
/// a step or the cycle check raises half way.
module JsonExecutor {
  import opened Py
  import opened Values
  import opened GraphWalk

  /** A mutable Python dict. */
  class PyDict {
    var items: Dict

    constructor(items: Dict)
      ensures this.items == items
    {
      this.items := items;
    }
  }

  /** The mapping given to the constructor: `nodes` and `entry` may be
      missing (`spec["nodes"]` then raises); `entry` may be `None`. */
  datatype GraphSpec = GraphSpec(nodes: Option<map<string, Node>>, entry: Slot<string>)

  /** A constructed executor: its node table and entry id (`""` for a `None`
      entry, on which `run` stops at once). */
  datatype Graph = Graph(nodes: map<string, Node>, entry: string)

  /** `JSONGraphExecutor(spec)` */
  function New(spec: GraphSpec): (r: Result<Graph>)
    ensures r.Ok? <==> spec.nodes.Some? && !spec.entry.Absent?
    ensures spec.nodes.None? ==> r == Err(KeyError("nodes"))
    ensures spec.nodes.Some? && spec.entry.Absent? ==> r == Err(KeyError("entry"))
    ensures r.Ok? ==> r.value.nodes == spec.nodes.value
    ensures r.Ok? && spec.entry.Given? ==> r.value.entry == spec.entry.value
    ensures r.Ok? && spec.entry.NoneGiven? ==> r.value.entry == ""
  {
    if spec.nodes.None? then Err(KeyError("nodes"))
    else
      match spec.entry
      case Absent => Err(KeyError("entry"))
      case NoneGiven => Ok(Graph(spec.nodes.value, ""))
      case Given(e) => Ok(Graph(spec.nodes.value, e))
  }

  /** The dict the walk starts from: the caller's `state` when it is a
      non-empty dict (`state or {}`), otherwise a new empty one. */
  function StartData(state: Option<Dict>): (d: Dict)
    ensures state.Some? && state.value != map[] ==> d == state.value
    ensures d == map[] <==> state.None? || state.value == map[]
  {
    if state.Some? then state.value else map[]
  }

  /** `run(context, state)`: walks from the entry node. `state == null` is
      `None`; `ctx` is `context or {}`. When the caller's dict is non-empty it
      is updated in place (even if the walk then raises) and returned;
      otherwise a new dict is returned and the caller's empty dict is left
      alone. */
  method Run(g: Graph, ns: Namespace, ctx: Dict, state: PyDict?) returns (r: Result<PyDict>)
    modifies state
    ensures var init := StartData(if state == null then None else Some(old(state.items)));
      var o := Walk(JsonExecutor, ns, g.nodes, ctx, init, g.entry, {});
      && (r.Ok? <==> o.status.Done?)
      && (r.Err? ==> ToResult(o) == Err(r.error))
      && (r.Ok? ==> r.value.items == o.data)
      && (state != null && init != map[] ==> state.items == o.data && (r.Ok? ==> r.value == state))
      && (state != null && init == map[] ==> state.items == map[])
      && (init == map[] && r.Ok? ==> fresh(r.value))
  {
    if state != null && state.items != map[] {
      r := Drive(g, ns, ctx, state);
    } else {
      var data := new PyDict(map[]);
      r := Drive(g, ns, ctx, data);
    }
  }

  /** The `while cur` loop of `run`, writing each step's output into
      `data` under the node id. On a cycle, a missing node, a class that
      cannot be resolved or a step that raises, the writes made so far
      stay in `data`. */
  method Drive(g: Graph, ns: Namespace, ctx: Dict, data: PyDict) returns (r: Result<PyDict>)
    modifies data
    ensures var o := Walk(JsonExecutor, ns, g.nodes, ctx, old(data.items), g.entry, {});
      && data.items == o.data
      && (r.Ok? <==> o.status.Done?)
      && (r.Err? ==> ToResult(o) == Err(r.error))
      && (r.Ok? ==> r.value == data)
  {
    ghost var whole := Walk(JsonExecutor, ns, g.nodes, ctx, data.items, g.entry, {});
    var cur := g.entry;
    var seen: set<string> := {};
    while cur != ""
      invariant var o := Walk(JsonExecutor, ns, g.nodes, ctx, data.items, cur, seen);
        o.data == whole.data && o.status == whole.status
      decreases |g.nodes.Keys - seen|
    {
      if cur in seen {
        return Err(RuntimeError(CycleMessage(cur)));
      }
      if cur !in g.nodes {
        return Err(KeyError(cur));
      }
      var node := g.nodes[cur];
      var inst := Resolve(JsonExecutor, ns, node.typ, node.params);
      if inst.Err? {
        return Err(inst.error);
      }
      var cls := inst.value.cls;
      var out: Result<Value>;
      if cls.arity == 1 {
        out := cls.run(inst.value.params, [data.items]);
      } else {
        out := cls.run(inst.value.params, [ctx, data.items]);
      }
      if out.Err? {
        return Err(out.error);
      }
      assert RunNode(JsonExecutor, ns, node, ctx, data.items) == out;
      WalkUnfold(JsonExecutor, ns, g.nodes, ctx, data.items, cur, seen);
      seen := seen + {cur};
      data.items := data.items[cur := out.value];
      cur := if node.next != [] then node.next[0] else "";
    }
    return Ok(data);
  }

  /** A one-node graph whose step returns a copy (`dict(data)`) of the
      state it receives stores that copy under the node id, next to the
      caller's keys. A step returning the very dict it was handed is not
      this case: there Python stores the dict inside itself. */
  lemma SingleNodeRun(ns: Namespace, cls: StepClass, ctx: Dict, init: Dict)
    requires "m" in ns && "S" in ns["m"] && ns["m"]["S"] == cls
    requires cls.arity == 1
    requires forall p: Dict, d: Dict :: cls.run(p, [d]) == Ok(Dict(d))
    requires "a" !in init
    ensures var o := Walk(JsonExecutor, ns, map["a" := Node("m.S", Absent, [])], ctx, init, "a", {});
      o.status == Done && o.trace == ["a"] && o.data == init["a" := Dict(init)]
  {
    RPartitionAt("m", "S", '.');
    assert "m" + ['.'] + "S" == "m.S";
  }
}
