/// backend/executor.py (v0.5): the graph executor that checks the spec's
/// `type`, defaults `entry` to the first node, and runs every walk on a
/// fresh local state dict (so `Run` changes nothing outside itself).
module Executor {
  import opened Py
  import opened Values
  import opened GraphWalk

  /** The spec mapping. `nodes` keeps Python's key order (`next(iter(nodes))`
      reads the first key), so it is a list of (id, node) pairs with
      distinct ids, as a Python dict has. `typ` is `spec.get("type")`. */
  datatype ExecSpec = ExecSpec(typ: Option<string>, nodes: Option<seq<(string, Node)>>, entry: Slot<string>)

  predicate DistinctIds(nodes: seq<(string, Node)>) {
    forall i, j :: 0 <= i < j < |nodes| ==> nodes[i].0 != nodes[j].0
  }

  /** The dict a list of distinct (id, node) pairs denotes. */
  function ToMap(nodes: seq<(string, Node)>): (m: map<string, Node>)
    requires DistinctIds(nodes)
    ensures forall i :: 0 <= i < |nodes| ==> nodes[i].0 in m && m[nodes[i].0] == nodes[i].1
    ensures forall k :: k in m ==> exists i :: 0 <= i < |nodes| && nodes[i].0 == k
  {
    if nodes == [] then map[]
    else ToMap(nodes[1..])[nodes[0].0 := nodes[0].1]
  }

  /** A constructed executor. */
  datatype Graph = Graph(nodes: map<string, Node>, entry: string)

  function TypeMismatch(): Error { ValueError("spec.type must be 'json_graph'") }

  /** `JSONGraphExecutor(spec)`: the type check, then `spec["nodes"]`, then
      `spec.get("entry") or next(iter(nodes))`. */
  function New(spec: ExecSpec): (r: Result<Graph>)
    requires spec.nodes.Some? ==> DistinctIds(spec.nodes.value)
    ensures spec.typ != Some("json_graph") ==> r == Err(TypeMismatch())
    ensures spec.typ == Some("json_graph") && spec.nodes.None? ==> r == Err(KeyError("nodes"))
    ensures r.Ok? ==>
      spec.typ == Some("json_graph") && spec.nodes.Some? && r.value.nodes == ToMap(spec.nodes.value)
    ensures r.Ok? && spec.entry.Given? && spec.entry.value != "" ==> r.value.entry == spec.entry.value
    ensures r.Ok? && !(spec.entry.Given? && spec.entry.value != "") ==>
      spec.nodes.value != [] && r.value.entry == spec.nodes.value[0].0
    ensures (spec.typ == Some("json_graph") && spec.nodes == Some([])
             && !(spec.entry.Given? && spec.entry.value != "")) ==> r == Err(StopIteration)
  {
    if spec.typ != Some("json_graph") then Err(TypeMismatch())
    else if spec.nodes.None? then Err(KeyError("nodes"))
    else
      var nodes := spec.nodes.value;
      if spec.entry.Given? && spec.entry.value != "" then Ok(Graph(ToMap(nodes), spec.entry.value))
      else if nodes == [] then Err(StopIteration)
      else Ok(Graph(ToMap(nodes), nodes[0].0))
  }

  /** `run(context)`: the walk from the entry node over a new empty state
      dict; returns that dict, or raises what the walk raises. */
  method Run(g: Graph, ns: Namespace, ctx: Dict) returns (r: Result<Dict>)
    ensures r == ToResult(Walk(Executor, ns, g.nodes, ctx, map[], g.entry, {}))
  {
    ghost var whole := Walk(Executor, ns, g.nodes, ctx, map[], g.entry, {});
    var state: Dict := map[];
    var cur := g.entry;
    var seen: set<string> := {};
    while cur != ""
      invariant var o := Walk(Executor, ns, g.nodes, ctx, state, cur, seen);
        o.data == whole.data && o.status == whole.status
      decreases |g.nodes.Keys - seen|
    {
      if cur in seen {
        return Err(RuntimeError(CycleMessage(cur)));
      }
      if cur !in g.nodes {
        return Err(KeyError(cur));
      }
      var meta := g.nodes[cur];
      var runobj := Resolve(Executor, ns, meta.typ, meta.params);
      if runobj.Err? {
        return Err(runobj.error);
      }
      var cls := runobj.value.cls;
      var out: Result<Value>;
      if cls.arity == 1 {
        out := cls.run(runobj.value.params, [state]);
      } else {
        out := cls.run(runobj.value.params, [ctx, state]);
      }
      if out.Err? {
        return Err(out.error);
      }
      assert RunNode(Executor, ns, meta, ctx, state) == out;
      WalkUnfold(Executor, ns, g.nodes, ctx, state, cur, seen);
      seen := seen + {cur};
      state := state[cur := out.value];
      cur := if meta.next != [] then meta.next[0] else "";
    }
    return Ok(state);
  }

  /** A successful run returns exactly one entry per node that ran, holding
      what that node's step returned; nodes that did not run have no entry. */
  lemma RunResultKeys(g: Graph, ns: Namespace, ctx: Dict)
    ensures var o := Walk(Executor, ns, g.nodes, ctx, map[], g.entry, {});
      var r := ToResult(o);
      r.Ok? ==> (forall k :: k in r.value <==> k in o.trace)
  {
    WalkData(Executor, ns, g.nodes, ctx, map[], g.entry, {});
  }

  /** An explicit `params: None` makes the constructor call raise a
      TypeError here, whereas json_executor treats it as `{}`. */
  lemma NoneParamsRejected(ns: Namespace, cls: StepClass)
    requires "m" in ns && "S" in ns["m"] && ns["m"]["S"] == cls
    ensures Resolve(Executor, ns, "m.S", NoneGiven).Err?
    ensures Resolve(Executor, ns, "m.S", NoneGiven).error.TypeError?
    ensures Resolve(JsonExecutor, ns, "m.S", NoneGiven) == Ok(Instance(cls, map[]))
  {
    RPartitionAt("m", "S", '.');
    assert "m" + ['.'] + "S" == "m.S";
  }
}
