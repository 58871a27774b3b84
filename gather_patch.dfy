/// backend/graph_gather_patch.py: the names-based Gather node. The manifest
/// lists required field names; the names not yet among the state's
/// `answers` are turned into text-input field specs and added to the state
/// under `ui_event`.
module GatherPatch {
  import opened Py
  import opened Values

  /** `[f for f in required if f not in answers]`: the names still needed, in
      manifest order. */
  function Need(required: seq<Value>, answers: Value): (r: Result<seq<Value>>)
    ensures r.Ok? <==> forall i :: 0 <= i < |required| ==> In(required[i], answers).Ok?
    ensures r.Ok? ==> Subsequence(r.value, required)
    ensures r.Ok? ==> forall x :: x in r.value ==> x in required && In(x, answers) == Ok(false)
    ensures r.Ok? ==> forall i :: 0 <= i < |required| && In(required[i], answers) == Ok(false) ==>
      required[i] in r.value
    decreases |required|
  {
    if required == [] then Ok([])
    else
      var present :- In(required[0], answers);
      var rest :- Need(required[1..], answers);
      assert forall i :: 1 <= i < |required| ==> required[i] == required[1..][i - 1];
      Ok(if present then rest else [required[0]] + rest)
  }

  /** The field specs for the needed names; a name that is not a string has
      no `replace` method. */
  function Specs(need: seq<Value>): (r: Result<seq<Value>>)
    ensures r.Ok? <==> forall i :: 0 <= i < |need| ==> need[i].Str?
    ensures r.Ok? ==> |r.value| == |need| && forall i :: 0 <= i < |need| ==> r.value[i] == FieldSpec(need[i].s)
    decreases |need|
  {
    if need == [] then Ok([])
    else if !need[0].Str? then
      Err(AttributeError("'" + TypeName(need[0]) + "' object has no attribute 'replace'"))
    else
      var rest :- Specs(need[1..]);
      assert forall i :: 1 <= i < |need| ==> need[i] == need[1..][i - 1];
      Ok([FieldSpec(need[0].s)] + rest)
  }

  function FormEvent(specs: seq<Value>): Value {
    Dict(map["ui_event" := Str("form"), "fields" := List(specs)])
  }

  /** `gather_node(state)`. When some name is needed the result is the state
      plus a `ui_event` entry and every other key kept; otherwise it is the
      state itself. */
  function GatherNode(state: Dict): (r: Result<Dict>)
    ensures r.Ok? ==> forall k :: k in state && k != "ui_event" ==> k in r.value && r.value[k] == state[k]
    ensures r.Ok? ==> forall k :: k in r.value ==> k in state || k == "ui_event"
    ensures r.Ok? && r.value != state ==> "ui_event" in r.value
    ensures "manifest" !in state ==> r == Err(AttributeError("manifest"))
  {
    var mf :- if "manifest" in state then Ok(state["manifest"]) else Err(AttributeError("manifest"));
    var listed :- Subscript(mf, "required_fields");
    var required :- Iterate(listed);
    var need :- Need(required, Get(state, "answers", Dict(map[])));
    if need != [] then
      var specs :- Specs(need);
      Ok(Merged(state, map["ui_event" := FormEvent(specs)]))
    else
      Ok(state)
  }

  /** With string names: names are needed exactly when they are not answer
      keys, and then the `ui_event` form lists one spec per needed name, in
      manifest order; with none needed the state comes back unchanged. */
  lemma FormListsNeededNames(state: Dict, names: seq<string>)
    requires "manifest" in state && state["manifest"].Dict?
    requires "required_fields" in state["manifest"].fields
    requires state["manifest"].fields["required_fields"] == List(seq(|names|, i requires 0 <= i < |names| => Str(names[i])))
    requires Get(state, "answers", Dict(map[])).Dict?
    ensures var answers := Get(state, "answers", Dict(map[])).fields;
      var required := seq(|names|, i requires 0 <= i < |names| => Str(names[i]));
      var need := Need(required, Dict(answers));
      var r := GatherNode(state);
      && need.Ok? && r.Ok?
      && (forall x :: x in need.value <==> x in required && x.s !in answers)
      && (need.value == [] <==> forall i :: 0 <= i < |names| ==> names[i] in answers)
      && (need.value == [] ==> r.value == state)
      && (need.value != [] ==> Specs(need.value).Ok? && r.value["ui_event"] == FormEvent(Specs(need.value).value))
  {
    var answers := Get(state, "answers", Dict(map[])).fields;
    var required := seq(|names|, i requires 0 <= i < |names| => Str(names[i]));
    var need := Need(required, Dict(answers));
    assert need.Ok?;
    forall i | 0 <= i < |need.value| ensures need.value[i].Str? {
      assert need.value[i] in required;
    }
    if exists i :: 0 <= i < |names| && names[i] !in answers {
      var i :| 0 <= i < |names| && names[i] !in answers;
      assert In(required[i], Dict(answers)) == Ok(false);
      assert required[i] in need.value;
    } else {
      NoneNeeded(required, answers);
    }
  }

  lemma {:induction false} NoneNeeded(required: seq<Value>, answers: Dict)
    requires forall i :: 0 <= i < |required| ==> required[i].Str? && required[i].s in answers
    ensures Need(required, Dict(answers)) == Ok([])
    decreases |required|
  {
    if required != [] {
      NoneNeeded(required[1..], answers);
    }
  }

  /** Without `answers` every (string) required name is needed. */
  lemma {:induction false} NoAnswersAllNeeded(required: seq<Value>)
    requires forall i :: 0 <= i < |required| ==> required[i].Str?
    ensures Need(required, Dict(map[])) == Ok(required)
    decreases |required|
  {
    if required != [] {
      NoAnswersAllNeeded(required[1..]);
      assert [required[0]] + required[1..] == required;
    }
  }
}
