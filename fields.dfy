/// utils/fields.py: the form validators, the `VALIDATORS` table and the
/// validation loop of `render_fields`. Drawing the widgets is UI: the value
/// each supported widget reports is an input (`shown`, by field key), and
/// the warning and error captions are not part of this model.
module Fields {
  import opened Py
  import opened Values

  /** A manifest field (`total=False`: every key may be absent). Only the
      keys the loop reads are kept; `label` and `widget_kwargs` are
      display-only. */
  datatype Field = Field(name: Option<string>, widget: Option<string>, validators: Option<seq<string>>)

  /** A validator's answer: `(ok, error message or None)`. */
  type Verdict = (bool, Option<string>)

  /** `_non_empty(val)`: `val not in ("", None)`. */
  function NonEmpty(val: Value): (r: Verdict)
    ensures r.0 <==> val != Str("") && val != Null
    ensures r.1 == if r.0 then None else Some("Required")
  {
    if val !in [Str(""), Null] then (true, None) else (false, Some("Required"))
  }

  /** `_positive_int(val)`: `isinstance(val, (int, float)) and val > 0`.
      A `bool` is an `int` in Python, so `True` passes. */
  function PositiveInt(val: Value): (r: Verdict)
    ensures r.0 <==> (val.Int? && val.i > 0) || (val.Real? && val.x > 0.0) || val == Bool(true)
    ensures r.1 == if r.0 then None else Some("Must be > 0")
  {
    var numeric := match val case Int(i) => i > 0 case Real(x) => x > 0.0 case Bool(b) => b case _ => false;
    if numeric then (true, None) else (false, Some("Must be > 0"))
  }

  /** `VALIDATORS` */
  const Validators: map<string, Value -> Verdict> := map["non_empty" := NonEmpty, "positive_int" := PositiveInt]

  /** The inner `for vname in ...` loop: `Ok(true)` when every validator
      passes, `Ok(false)` at the first that fails (the `break`), and the
      `KeyError` of an unknown name reached before any failure. */
  function Passes(vnames: seq<string>, val: Value): Result<bool>
    decreases |vnames|
  {
    if vnames == [] then Ok(true)
    else if vnames[0] !in Validators then Err(KeyError(vnames[0]))
    else if !Validators[vnames[0]](val).0 then Ok(false)
    else Passes(vnames[1..], val)
  }

  /** One field checked: its key, the value stored for it, and whether it
      passed. */
  datatype Checked = Checked(key: string, value: Value, valid: bool)

  /** The widget's value: a text or number input reports what was entered,
      any other widget is unsupported and gives `None`. */
  function WidgetValue(widget: string, key: string, shown: string -> Value): Value {
    if widget == "text_input" || widget == "number_input" then shown(key) else Null
  }

  /** One pass of the outer loop body. */
  function CheckField(f: Field, shown: string -> Value): Result<Checked> {
    if f.name.None? then Err(KeyError("name"))
    else
      var key := f.name.value;
      var widget := if f.widget.Some? then f.widget.value else "text_input";
      var val := WidgetValue(widget, key, shown);
      var vnames := if f.validators.Some? then f.validators.value else ["non_empty"];
      var ok :- Passes(vnames, val);
      Ok(Checked(key, val, ok))
  }

  /** The loop from field `i` on, with `data` and `all_valid` so far. */
  function RenderFrom(fields: seq<Field>, shown: string -> Value, i: nat, data: Dict, allValid: bool): Result<(Dict, bool)>
    requires i <= |fields|
    decreases |fields| - i
  {
    if i == |fields| then Ok((data, allValid))
    else
      var c :- CheckField(fields[i], shown);
      RenderFrom(fields, shown, i + 1, data[c.key := c.value], allValid && c.valid)
  }

  /** `render_fields(fields)` */
  method RenderFields(fields: seq<Field>, shown: string -> Value) returns (r: Result<(Dict, bool)>)
    ensures r == RenderFrom(fields, shown, 0, map[], true)
  {
    var data: Dict := map[];
    var allValid := true;
    for i := 0 to |fields|
      invariant RenderFrom(fields, shown, i, data, allValid) == RenderFrom(fields, shown, 0, map[], true)
    {
      var fld := fields[i];
      if fld.name.None? {
        return Err(KeyError("name"));
      }
      var key := fld.name.value;
      var widget := if fld.widget.Some? then fld.widget.value else "text_input";
      var val := WidgetValue(widget, key, shown);
      data := data[key := val];
      var vnames := if fld.validators.Some? then fld.validators.value else ["non_empty"];
      var ok := CheckValidators(vnames, val);
      if ok.Err? {
        return Err(ok.error);
      }
      if !ok.value {
        allValid := false;
      }
    }
    return Ok((data, allValid));
  }

  /** The inner loop with its `break`. */
  method CheckValidators(vnames: seq<string>, val: Value) returns (r: Result<bool>)
    ensures r == Passes(vnames, val)
  {
    var j := 0;
    while j < |vnames|
      invariant j <= |vnames|
      invariant Passes(vnames[j..], val) == Passes(vnames, val)
    {
      assert vnames[j..][1..] == vnames[j + 1..];
      var vname := vnames[j];
      if vname !in Validators {
        return Err(KeyError(vname));
      }
      var verdict := Validators[vname](val);
      if !verdict.0 {
        return Ok(false);
      }
      j := j + 1;
    }
    return Ok(true);
  }

  // -------------------------------------------------------------------------
  // The validators
  // -------------------------------------------------------------------------

  /** The validators pass exactly when every name is known and every
      validator accepts the value. */
  lemma {:induction false} PassesIff(vnames: seq<string>, val: Value)
    ensures Passes(vnames, val) == Ok(true) <==>
      forall j :: 0 <= j < |vnames| ==> vnames[j] in Validators && Validators[vnames[j]](val).0
    decreases |vnames|
  {
    if vnames != [] {
      PassesIff(vnames[1..], val);
      assert forall j :: 1 <= j < |vnames| ==> vnames[j] == vnames[1..][j - 1];
    }
  }

  /** Checking stops at the first failing validator: what follows it, even
      an unknown name, is never looked at. */
  lemma {:induction false} StopsAtFirstFailure(vnames: seq<string>, val: Value, i: nat)
    requires i < |vnames| && vnames[i] in Validators && !Validators[vnames[i]](val).0
    requires forall j :: 0 <= j < i ==> vnames[j] in Validators && Validators[vnames[j]](val).0
    ensures Passes(vnames, val) == Ok(false)
    decreases i
  {
    if i > 0 {
      StopsAtFirstFailure(vnames[1..], val, i - 1);
    }
  }

  /** An unknown validator name reached before any failure raises
      `KeyError` with that name. */
  lemma {:induction false} UnknownValidatorRaises(vnames: seq<string>, val: Value, i: nat)
    requires i < |vnames| && vnames[i] !in Validators
    requires forall j :: 0 <= j < i ==> vnames[j] in Validators && Validators[vnames[j]](val).0
    ensures Passes(vnames, val) == Err(KeyError(vnames[i]))
    decreases i
  {
    if i > 0 {
      UnknownValidatorRaises(vnames[1..], val, i - 1);
    }
  }

  /** A field without `validators` is checked with `["non_empty"]`: it is
      valid exactly when its value is neither `""` nor `None`. */
  lemma DefaultIsNonEmpty(f: Field, shown: string -> Value)
    requires f.name.Some? && f.validators.None?
    ensures CheckField(f, shown).Ok?
    ensures CheckField(f, shown).value.valid <==>
      CheckField(f, shown).value.value != Str("") && CheckField(f, shown).value.value != Null
  {
    assert ["non_empty"][1..] == [];
  }

  /** An unsupported widget stores `None`, which the default check
      rejects. */
  lemma UnsupportedWidgetInvalid(f: Field, shown: string -> Value)
    requires f.name.Some? && f.widget.Some? && f.widget.value !in ["text_input", "number_input"]
    requires f.validators.None?
    ensures CheckField(f, shown) == Ok(Checked(f.name.value, Null, false))
  {
  }

  // -------------------------------------------------------------------------
  // The loop
  // -------------------------------------------------------------------------

  /** The loop completes exactly when every field checks without raising. */
  lemma {:induction false} RenderOkIff(fields: seq<Field>, shown: string -> Value, i: nat, data: Dict, allValid: bool)
    requires i <= |fields|
    ensures RenderFrom(fields, shown, i, data, allValid).Ok? <==>
      forall j :: i <= j < |fields| ==> CheckField(fields[j], shown).Ok?
    decreases |fields| - i
  {
    if i < |fields| && CheckField(fields[i], shown).Ok? {
      var c := CheckField(fields[i], shown).value;
      RenderOkIff(fields, shown, i + 1, data[c.key := c.value], allValid && c.valid);
    }
  }

  /** A raised loop raises the error of the first field that fails. */
  lemma {:induction false} RenderError(fields: seq<Field>, shown: string -> Value, i: nat, data: Dict, allValid: bool)
    requires i <= |fields| && RenderFrom(fields, shown, i, data, allValid).Err?
    ensures exists j :: (i <= j < |fields| && CheckField(fields[j], shown).Err?
      && RenderFrom(fields, shown, i, data, allValid).error == CheckField(fields[j], shown).error
      && forall k :: i <= k < j ==> CheckField(fields[k], shown).Ok?)
    decreases |fields| - i
  {
    if CheckField(fields[i], shown).Ok? {
      var c := CheckField(fields[i], shown).value;
      RenderError(fields, shown, i + 1, data[c.key := c.value], allValid && c.valid);
    }
  }

  /** `all_valid` is true exactly when it was so far and every remaining
      field passes all its validators. */
  lemma {:induction false} RenderValid(fields: seq<Field>, shown: string -> Value, i: nat, data: Dict, allValid: bool)
    requires i <= |fields| && RenderFrom(fields, shown, i, data, allValid).Ok?
    ensures forall j :: i <= j < |fields| ==> CheckField(fields[j], shown).Ok?
    ensures RenderFrom(fields, shown, i, data, allValid).value.1 <==>
      allValid && forall j :: i <= j < |fields| ==> CheckField(fields[j], shown).value.valid
    decreases |fields| - i
  {
    RenderOkIff(fields, shown, i, data, allValid);
    if i < |fields| {
      var c := CheckField(fields[i], shown).value;
      RenderValid(fields, shown, i + 1, data[c.key := c.value], allValid && c.valid);
    }
  }

  /** `data` holds exactly the keys it had and the names of the remaining
      fields. */
  lemma {:induction false} RenderKeys(fields: seq<Field>, shown: string -> Value, i: nat, data: Dict, allValid: bool)
    requires i <= |fields| && RenderFrom(fields, shown, i, data, allValid).Ok?
    ensures forall k :: k in RenderFrom(fields, shown, i, data, allValid).value.0 <==>
      k in data || exists j :: i <= j < |fields| && fields[j].name == Some(k)
    decreases |fields| - i
  {
    if i < |fields| {
      var c := CheckField(fields[i], shown).value;
      RenderKeys(fields, shown, i + 1, data[c.key := c.value], allValid && c.valid);
    }
  }

  /** A key no remaining field names keeps the value it had. */
  lemma {:induction false} RenderKeeps(fields: seq<Field>, shown: string -> Value, i: nat, data: Dict, allValid: bool, k: string)
    requires i <= |fields| && RenderFrom(fields, shown, i, data, allValid).Ok?
    requires k in data && forall j :: i <= j < |fields| ==> fields[j].name != Some(k)
    ensures k in RenderFrom(fields, shown, i, data, allValid).value.0
    ensures RenderFrom(fields, shown, i, data, allValid).value.0[k] == data[k]
    decreases |fields| - i
  {
    if i < |fields| {
      var c := CheckField(fields[i], shown).value;
      RenderKeeps(fields, shown, i + 1, data[c.key := c.value], allValid && c.valid, k);
    }
  }

  /** The last field with a given name decides the value stored for it. */
  lemma {:induction false} RenderLastWins(fields: seq<Field>, shown: string -> Value, i: nat, data: Dict, allValid: bool, j: nat)
    requires i <= j < |fields| && RenderFrom(fields, shown, i, data, allValid).Ok?
    requires forall l :: j < l < |fields| ==> fields[l].name != fields[j].name
    ensures CheckField(fields[j], shown).Ok?
    ensures fields[j].name.Some? && fields[j].name.value in RenderFrom(fields, shown, i, data, allValid).value.0
    ensures RenderFrom(fields, shown, i, data, allValid).value.0[fields[j].name.value] ==
      CheckField(fields[j], shown).value.value
    decreases |fields| - i
  {
    var c := CheckField(fields[i], shown).value;
    var next := data[c.key := c.value];
    if i < j {
      RenderLastWins(fields, shown, i + 1, next, allValid && c.valid, j);
    } else {
      RenderKeys(fields, shown, i + 1, next, allValid && c.valid);
      RenderKeeps(fields, shown, i + 1, next, allValid && c.valid, c.key);
    }
  }

  /** The two validators on some values: `0`, `""` and `None` are told
      apart, and `True` counts as a positive number. */
  lemma ValidatorExamples()
    ensures NonEmpty(Int(0)).0 && !NonEmpty(Str("")).0 && !NonEmpty(Null).0 && NonEmpty(Bool(false)).0
    ensures PositiveInt(Bool(true)).0 && !PositiveInt(Int(0)).0 && !PositiveInt(Str("5")).0
  {
  }
}
