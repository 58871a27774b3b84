/// backend/tools/ui_gather.py: the Gather stage of the graph pipeline. It
/// lists the manifest's required fields whose `name` is not a key of the
/// user's inputs and either asks for them with a form event or hands the
/// inputs on.
module UiGather {
  import opened Py
  import opened Values

  /** `f["name"] in given`: whether field `f` has been supplied. */
  function Supplied(f: Value, given: Value): Result<bool> {
    var name :- Subscript(f, "name");
    In(name, given)
  }

  predicate IsMissing(f: Value, given: Value) {
    Supplied(f, given) == Ok(false)
  }

  /** `[f for f in required if f["name"] not in given]`: the fields not
      supplied, in manifest order; the first field whose check raises stops
      the comprehension. */
  function Missing(required: seq<Value>, given: Value): (r: Result<seq<Value>>)
    ensures r.Ok? <==> forall i :: 0 <= i < |required| ==> Supplied(required[i], given).Ok?
    ensures r.Ok? ==> Subsequence(r.value, required)
    ensures r.Ok? ==> forall x :: x in r.value ==> x in required && IsMissing(x, given)
    ensures r.Ok? ==> forall i :: 0 <= i < |required| && IsMissing(required[i], given) ==> required[i] in r.value
    decreases |required|
  {
    if required == [] then Ok([])
    else
      var present :- Supplied(required[0], given);
      var rest :- Missing(required[1..], given);
      assert forall i :: 1 <= i < |required| ==> required[i] == required[1..][i - 1];
      Ok(if present then rest else [required[0]] + rest)
  }

  /** A field dict whose `name` is a string. */
  predicate Named(f: Value) {
    f.Dict? && "name" in f.fields && f.fields["name"].Str?
  }

  function NameOf(f: Value): string
    requires Named(f)
  {
    f.fields["name"].s
  }

  /** For a named field and dict-shaped inputs, "missing" means the name is
      not an input key. */
  lemma NamedMissing(f: Value, given: Value)
    requires Named(f) && given.Dict?
    ensures Supplied(f, given) == Ok(NameOf(f) in given.fields)
  {
  }

  /** `{"ui_event": "form", "fields": missing}` */
  function FormEvent(missing: seq<Value>): Value {
    Dict(map["ui_event" := Str("form"), "fields" := List(missing)])
  }

  /** `data.get("user_inputs", {}) or {}` */
  function Given(data: Dict): (g: Value)
    ensures Truthy(g) || g == Dict(map[])
    ensures "user_inputs" in data && Truthy(data["user_inputs"]) ==> g == data["user_inputs"]
  {
    Or(Get(data, "user_inputs", Dict(map[])), Dict(map[]))
  }

  /** `gather_fields(state)` on the dumped state dict. The result has exactly
      one key: `event` holding a form listing only the missing fields, or
      `user_inputs` holding the inputs. */
  function GatherFields(data: Dict): (r: Result<Dict>)
    ensures r.Ok? ==> |r.value.Keys| == 1 && ("event" in r.value || "user_inputs" in r.value)
    ensures r.Ok? ==> r.value.Keys == {"event"} || r.value.Keys == {"user_inputs"}
    ensures r.Ok? && "user_inputs" in r.value ==> r.value["user_inputs"] == Given(data)
    ensures r.Ok? && "event" in r.value ==>
      exists m :: m != [] && r.value["event"] == FormEvent(m) && forall x :: x in m ==> IsMissing(x, Given(data))
  {
    var manifest :- Lookup(data, "manifest");
    var required :- MethodGet(manifest, "required_fields", List([]));
    var fields :- Iterate(required);
    var missing :- Missing(fields, Given(data));
    if missing != [] then Ok(map["event" := FormEvent(missing)])
    else Ok(map["user_inputs" := Given(data)])
  }

  /** A manifest whose required fields are all dicts with a string `name`,
      over dict-shaped inputs: the form appears exactly when some name is not
      an input key, and then lists exactly those fields, in manifest order;
      otherwise the inputs are handed on. */
  lemma FormIffSomeNameMissing(data: Dict, fields: seq<Value>)
    requires "manifest" in data && data["manifest"].Dict?
    requires Get(data["manifest"].fields, "required_fields", List([])) == List(fields)
    requires Given(data).Dict?
    requires forall i :: 0 <= i < |fields| ==> Named(fields[i])
    ensures var r := GatherFields(data);
      && r.Ok?
      && ("event" in r.value <==>
            exists i :: 0 <= i < |fields| && NameOf(fields[i]) !in Given(data).fields)
      && ("event" in r.value ==> r.value["event"] == FormEvent(Missing(fields, Given(data)).value))
      && ("user_inputs" in r.value ==> r.value == map["user_inputs" := Given(data)])
  {
    var given := Given(data);
    GatherUnfold(data, fields);
    if exists i :: 0 <= i < |fields| && NameOf(fields[i]) !in given.fields {
      var i :| 0 <= i < |fields| && NameOf(fields[i]) !in given.fields;
      assert IsMissing(fields[i], given);
    } else {
      AllSupplied(fields, given);
    }
  }

  /** Under the requirements of `FormIffSomeNameMissing`, the gather step
      computes the missing list without raising and branches on it. */
  lemma GatherUnfold(data: Dict, fields: seq<Value>)
    requires "manifest" in data && data["manifest"].Dict?
    requires Get(data["manifest"].fields, "required_fields", List([])) == List(fields)
    requires Given(data).Dict?
    requires forall i :: 0 <= i < |fields| ==> Named(fields[i])
    ensures Missing(fields, Given(data)).Ok?
    ensures GatherFields(data) == (if Missing(fields, Given(data)).value != [] then Ok(map["event" := FormEvent(Missing(fields, Given(data)).value)])
                                   else Ok(map["user_inputs" := Given(data)]))
  {
    var given := Given(data);
    forall i | 0 <= i < |fields| ensures Supplied(fields[i], given) == Ok(NameOf(fields[i]) in given.fields) {
      NamedMissing(fields[i], given);
    }
  }

  /** When every name is an input key, nothing is missing. */
  lemma {:induction false} AllSupplied(fields: seq<Value>, given: Value)
    requires given.Dict?
    requires forall i :: 0 <= i < |fields| ==> Named(fields[i]) && NameOf(fields[i]) in given.fields
    ensures Missing(fields, given) == Ok([])
    decreases |fields|
  {
    if fields != [] {
      NamedMissing(fields[0], given);
      AllSupplied(fields[1..], given);
    }
  }

  /** Presence alone counts: a field supplied with an empty value is not
      asked for again. */
  lemma PresenceOnly(f: map<string, Value>, given: map<string, Value>, name: string)
    requires "name" in f && f["name"] == Str(name)
    requires name in given && !Truthy(given[name])
    ensures !IsMissing(Dict(f), Dict(given))
  {
  }

  /** With no (or `None`, or empty) `user_inputs`, every named field is
      missing. */
  lemma NoInputsAllMissing(data: Dict, fields: seq<Value>)
    requires "user_inputs" !in data || !Truthy(data["user_inputs"])
    requires forall i :: 0 <= i < |fields| ==> Named(fields[i])
    ensures Missing(fields, Given(data)) == Ok(fields)
  {
    NoInputsAllMissingFrom(fields);
  }

  lemma {:induction false} NoInputsAllMissingFrom(fields: seq<Value>)
    requires forall i :: 0 <= i < |fields| ==> Named(fields[i])
    ensures Missing(fields, Dict(map[])) == Ok(fields)
    decreases |fields|
  {
    if fields != [] {
      NoInputsAllMissingFrom(fields[1..]);
      assert [fields[0]] + fields[1..] == fields;
    }
  }

  /** A manifest without `required_fields`, or with an empty list, never
      yields a form. */
  lemma NoRequiredFieldsNoForm(data: Dict)
    requires "manifest" in data && data["manifest"].Dict?
    requires Get(data["manifest"].fields, "required_fields", List([])) == List([])
    ensures GatherFields(data) == Ok(map["user_inputs" := Given(data)])
  {
    assert Iterate(List([])) == Ok([]);
    assert Missing([], Given(data)) == Ok([]);
  }
}
