/// backend/graph.py: the four-stage pipeline Intent -> Gather -> Process ->
/// Deliver. Each stage returns a partial update of the workflow state and
/// the graph applies it key by key (a key in the update replaces the
/// field). The database response for the prompt and the processor
/// registry are inputs.
module Graph {
  import opened Py
  import opened Values
  import Intent
  import UiGather

  /** `WorkflowState`; optional fields hold `Null` for `None`. */
  datatype WorkflowState = WorkflowState(prompt: string, manifest: Value, userInputs: Value, event: Value)

  /** A processor chain: `chain.invoke(payload)`. */
  type Chain = Value -> Result<Value>

  /** `state.model_dump()` */
  function Dump(s: WorkflowState): Dict {
    map["prompt" := Str(s.prompt), "manifest" := s.manifest, "user_inputs" := s.userInputs, "event" := s.event]
  }

  /** Applying a node's partial update: each state key present in the update
      replaces that field; other fields are kept. */
  function Apply(s: WorkflowState, upd: Dict): (t: WorkflowState)
    ensures "prompt" !in upd ==> t.prompt == s.prompt
    ensures t.manifest == Get(upd, "manifest", s.manifest)
    ensures t.userInputs == Get(upd, "user_inputs", s.userInputs)
    ensures t.event == Get(upd, "event", s.event)
  {
    WorkflowState(
      if "prompt" in upd && upd["prompt"].Str? then upd["prompt"].s else s.prompt,
      Get(upd, "manifest", s.manifest),
      Get(upd, "user_inputs", s.userInputs),
      Get(upd, "event", s.event))
  }

  /** `intent_node`: only sets `manifest`. */
  function IntentNode(s: WorkflowState, rpc: string -> Intent.Response): (r: Result<Dict>)
    ensures r.Ok? ==> r.value.Keys == {"manifest"}
  {
    var m :- Intent.DetectIntent(rpc(s.prompt));
    Ok(map["manifest" := m])
  }

  /** The registry key of a chain id; ids are strings, anything else is
      absent (a list or dict is not even hashable). */
  function LookupChain(reg: map<string, Chain>, id: Value): (r: Result<Chain>)
    ensures r.Ok? <==> id.Str? && id.s in reg
    ensures r.Ok? ==> r.value == reg[id.s]
    ensures id.Str? && id.s !in reg ==> r == Err(KeyError(id.s))
  {
    if id.List? || id.Dict? then Err(TypeError("unhashable type: '" + TypeName(id) + "'"))
    else if id.Str? && id.s in reg then Ok(reg[id.s])
    else Err(KeyError(PyStr(id)))
  }

  /** The payload handed to the chain. */
  function ChainInput(s: WorkflowState): Value
    requires s.manifest.Dict?
  {
    Dict(map["inputs" := s.userInputs,
             "metadata" := Get(s.manifest.fields, "metadata", Null),
             "prompt" := Str(s.prompt)])
  }

  /** `process_node`: nothing once an event exists; otherwise the
      manifest's chain is invoked once and its output becomes `event`. */
  function ProcessNode(s: WorkflowState, reg: map<string, Chain>): (r: Result<Dict>)
    ensures Truthy(s.event) ==> r == Ok(map[])
    ensures r.Ok? ==> r.value.Keys <= {"event"}
    ensures !Truthy(s.event) && r.Ok? ==> s.manifest.Dict? && "event" in r.value
  {
    if Truthy(s.event) then Ok(map[])
    else
      var id :- Subscript(s.manifest, "processor_chain_id");
      var chain :- LookupChain(reg, id);
      var event :- chain(ChainInput(s));
      Ok(map["event" := event])
  }

  /** Without an event, the chain registered under the manifest's
      `processor_chain_id` is invoked once on `ChainInput(s)`; its output is
      the new event, its exception the stage's; an unregistered id is a
      KeyError. */
  lemma ProcessInvokesChain(s: WorkflowState, reg: map<string, Chain>)
    requires !Truthy(s.event) && s.manifest.Dict?
    requires "processor_chain_id" in s.manifest.fields && s.manifest.fields["processor_chain_id"].Str?
    ensures var id := s.manifest.fields["processor_chain_id"].s;
      && (id !in reg ==> ProcessNode(s, reg) == Err(KeyError(id)))
      && (id in reg && reg[id](ChainInput(s)).Ok? ==>
            ProcessNode(s, reg) == Ok(map["event" := reg[id](ChainInput(s)).value]))
      && (id in reg && reg[id](ChainInput(s)).Err? ==>
            ProcessNode(s, reg) == Err(reg[id](ChainInput(s)).error))
  {
  }

  /** `deliver_node`: no update. */
  function DeliverNode(s: WorkflowState): Dict {
    map[]
  }

  /** What `WorkflowState(user_inputs=...)` accepts: `None` or a dict. */
  predicate ValidInputs(v: Value) {
    v.Null? || v.Dict?
  }

  /** The state after the four stages, in their fixed order, each once; an
      exception in a stage ends the run. Building the initial state raises
      pydantic's `ValidationError` when the inputs are neither `None` nor a
      dict. */
  function FinalState(prompt: string, extraInputs: Value, rpc: string -> Intent.Response,
                      reg: map<string, Chain>): Result<WorkflowState>
  {
    var _ :- if ValidInputs(extraInputs) then Ok(()) else Err(ValidationError(["user_inputs"]));
    var s0 := WorkflowState(prompt, Null, extraInputs, Null);
    var u1 :- IntentNode(s0, rpc);
    var s1 := Apply(s0, u1);
    var u2 :- UiGather.GatherFields(Dump(s1));
    var s2 := Apply(s1, u2);
    var u3 :- ProcessNode(s2, reg);
    var s3 := Apply(s2, u3);
    Ok(Apply(s3, DeliverNode(s3)))
  }

  /** `run_workflow(prompt, extra_inputs)`: the final state's `event`. */
  function RunWorkflow(prompt: string, extraInputs: Value, rpc: string -> Intent.Response,
                       reg: map<string, Chain>): Result<Value>
  {
    var s :- FinalState(prompt, extraInputs, rpc, reg);
    Ok(s.event)
  }

  /** No stage changes the prompt. */
  lemma PromptPreserved(prompt: string, extraInputs: Value, rpc: string -> Intent.Response, reg: map<string, Chain>)
    requires FinalState(prompt, extraInputs, rpc, reg).Ok?
    ensures FinalState(prompt, extraInputs, rpc, reg).value.prompt == prompt
  {
    var s0 := WorkflowState(prompt, Null, extraInputs, Null);
    var s1 := Apply(s0, IntentNode(s0, rpc).value);
    var g := UiGather.GatherFields(Dump(s1));
    assert "prompt" !in g.value;
    var s2 := Apply(s1, g.value);
    assert "prompt" !in ProcessNode(s2, reg).value;
  }

  /** When Gather asks for a form, that form is the result and no chain is
      looked up or invoked: the result does not depend on the registry. */
  lemma FormIsFinal(prompt: string, extraInputs: Value, rpc: string -> Intent.Response,
                    reg1: map<string, Chain>, reg2: map<string, Chain>)
    requires var s0 := WorkflowState(prompt, Null, extraInputs, Null);
      && IntentNode(s0, rpc).Ok?
      && var g := UiGather.GatherFields(Dump(Apply(s0, IntentNode(s0, rpc).value)));
         g.Ok? && "event" in g.value
    ensures var s0 := WorkflowState(prompt, Null, extraInputs, Null);
      var g := UiGather.GatherFields(Dump(Apply(s0, IntentNode(s0, rpc).value)));
      && RunWorkflow(prompt, extraInputs, rpc, reg1) == RunWorkflow(prompt, extraInputs, rpc, reg2)
      && (ValidInputs(extraInputs) ==> RunWorkflow(prompt, extraInputs, rpc, reg1) == Ok(g.value["event"]))
  {
    var s0 := WorkflowState(prompt, Null, extraInputs, Null);
    var g := UiGather.GatherFields(Dump(Apply(s0, IntentNode(s0, rpc).value)));
    assert Truthy(g.value["event"]) by {
      var m :| m != [] && g.value["event"] == UiGather.FormEvent(m) && forall x :: x in m ==> UiGather.IsMissing(x, UiGather.Given(Dump(Apply(s0, IntentNode(s0, rpc).value))));
      assert "ui_event" in g.value["event"].fields;
    }
  }

  /** With nothing missing, the manifest's chain is invoked once with the
      inputs, the manifest's metadata and the prompt, and its output is the
      result; an unregistered chain id is a KeyError. */
  lemma CompleteInputsInvokeChain(prompt: string, extraInputs: Value, rpc: string -> Intent.Response,
                                  reg: map<string, Chain>)
    requires var s0 := WorkflowState(prompt, Null, extraInputs, Null);
      && IntentNode(s0, rpc).Ok?
      && var s1 := Apply(s0, IntentNode(s0, rpc).value);
         && UiGather.GatherFields(Dump(s1)).Ok?
         && "user_inputs" in UiGather.GatherFields(Dump(s1)).value
         && s1.manifest.Dict? && "processor_chain_id" in s1.manifest.fields
         && s1.manifest.fields["processor_chain_id"].Str?
    ensures var s0 := WorkflowState(prompt, Null, extraInputs, Null);
      var s1 := Apply(s0, IntentNode(s0, rpc).value);
      var id := s1.manifest.fields["processor_chain_id"].s;
      var inputs := UiGather.Given(Dump(s1));
      var payload := Dict(map["inputs" := inputs, "metadata" := Get(s1.manifest.fields, "metadata", Null),
                              "prompt" := Str(prompt)]);
      && (ValidInputs(extraInputs) && id in reg ==> RunWorkflow(prompt, extraInputs, rpc, reg) == reg[id](payload))
      && (ValidInputs(extraInputs) && id !in reg ==> RunWorkflow(prompt, extraInputs, rpc, reg) == Err(KeyError(id)))
  {
    var s0 := WorkflowState(prompt, Null, extraInputs, Null);
    var s1 := Apply(s0, IntentNode(s0, rpc).value);
    var g := UiGather.GatherFields(Dump(s1));
    assert g.value.Keys == {"user_inputs"};
    var s2 := Apply(s1, g.value);
    assert s2 == s1.(userInputs := UiGather.Given(Dump(s1)));
  }

  /** A prompt the database does not match routes to the echo chain, which
      receives the caller's inputs (or `{}`) and the fallback's empty
      metadata. */
  lemma UnmatchedPromptEchoes(prompt: string, extraInputs: Value, rpc: string -> Intent.Response,
                              reg: map<string, Chain>)
    requires rpc(prompt) == Intent.Unknown
    requires "debug_echo_chain" in reg
    ensures ValidInputs(extraInputs) ==>
      RunWorkflow(prompt, extraInputs, rpc, reg) ==
        reg["debug_echo_chain"](Dict(map["inputs" := Or(extraInputs, Dict(map[])), "metadata" := Dict(map[]),
                                         "prompt" := Str(prompt)]))
  {
    var s0 := WorkflowState(prompt, Null, extraInputs, Null);
    FallbackIntent(prompt, extraInputs, rpc);
    var s1 := Apply(s0, map["manifest" := Dict(Intent.Fallback)]);
    FallbackGather(prompt, extraInputs);
    CompleteInputsInvokeChain(prompt, extraInputs, rpc, reg);
  }

  /** Inputs that are neither `None` nor a dict are rejected before any
      stage runs: the database is not queried and no chain is invoked. */
  lemma InvalidInputsRejected(prompt: string, extraInputs: Value, rpc: string -> Intent.Response,
                              reg: map<string, Chain>)
    ensures !ValidInputs(extraInputs) ==>
      RunWorkflow(prompt, extraInputs, rpc, reg) == Err(ValidationError(["user_inputs"]))
  {
  }

  /** An unmatched prompt puts the fallback manifest in the state. */
  lemma FallbackIntent(prompt: string, extraInputs: Value, rpc: string -> Intent.Response)
    requires rpc(prompt) == Intent.Unknown
    ensures IntentNode(WorkflowState(prompt, Null, extraInputs, Null), rpc) == Ok(map["manifest" := Dict(Intent.Fallback)])
  {
  }

  /** The fallback manifest asks for nothing: Gather hands on the caller's
      inputs, or `{}`. */
  lemma FallbackGather(prompt: string, extraInputs: Value)
    ensures var s1 := Apply(WorkflowState(prompt, Null, extraInputs, Null), map["manifest" := Dict(Intent.Fallback)]);
      UiGather.GatherFields(Dump(s1)) == Ok(map["user_inputs" := Or(extraInputs, Dict(map[]))])
  {
    var s1 := Apply(WorkflowState(prompt, Null, extraInputs, Null), map["manifest" := Dict(Intent.Fallback)]);
    var data := Dump(s1);
    assert data["manifest"] == Dict(Intent.Fallback);
    Intent.FallbackShape();
    UiGather.NoRequiredFieldsNoForm(data);
    assert Get(data, "user_inputs", Dict(map[])) == extraInputs;
  }
}
