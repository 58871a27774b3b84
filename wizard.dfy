/// backend/wizard.py: the field specs built from a template's placeholders,
/// the goal guard of `wizard_create_draft`, and the `chain_json` that
/// `wizard_publish` stores. Uploading the template, inserting and updating
/// rows and generating ids are storage I/O: the upload is given as the
/// template id with the placeholder names found in it, and the draft id is a
/// parameter.
module Wizard {
  import opened Py
  import opened Values

  /** The `wizard_drafts` row step 1 inserts, without its timestamp. */
  datatype Draft = Draft(draftId: string, tenant: string, goal: string, templateId: Option<string>,
                         requiredFields: seq<Value>, step: int)

  /** `(False, err)`, with nothing stored, or `(True, draft_id)` with the row
      stored. */
  datatype Created = Rejected(message: string) | Stored(draft: Draft)

  /** `[_field_spec(n) for n in names]` */
  function FieldSpecs(names: seq<string>): (fs: seq<Value>)
    ensures |fs| == |names|
    ensures forall i :: 0 <= i < |names| ==> fs[i] == FieldSpec(names[i])
  {
    if names == [] then [] else [FieldSpec(names[0])] + FieldSpecs(names[1..])
  }

  /** `wizard_create_draft(goal, template_file, tenant)`; `upload` is `None`
      when no file was given. */
  function CreateDraft(goal: string, upload: Option<(string, seq<string>)>, tenant: string, draftId: string): Created {
    var goal := Strip(goal);
    if goal == [] then Rejected("Goal is required.")
    else
      var templateId := if upload.Some? then Some(upload.value.0) else None;
      var required := if upload.Some? then FieldSpecs(upload.value.1) else [];
      Stored(Draft(draftId, tenant, goal, templateId, required, 1))
  }

  /** `chain_json` of `wizard_publish`, for the draft's template id. */
  function ChainJson(templateId: Value): Value {
    Dict(map[
      "type" := Str("json_graph"),
      "version" := Str("1.0"),
      "entry" := Str("doc_runner"),
      "risk_level" := Str("low"),
      "cost_guard" := Dict(map[]),
      "nodes" := Dict(map[
        "doc_runner" := Dict(map[
          "id" := Str("doc_runner"),
          "class_path" := Str("backend.processors.doc_template.DocTemplateRunner"),
          "init_kwargs" := Dict(map["template_id" := templateId])
        ])
      ])
    ])
  }

  /** `_field_spec(name)`: exactly the keys `name`, `label` and `widget`;
      the name kept, a text input, and a label that is the name with
      underscores turned into spaces, every other character kept up to
      letter case, and a letter upper-cased exactly when it does not follow
      another letter (`title()`). */
  lemma FieldSpecShape(name: string)
    ensures FieldSpec(name).Dict? && FieldSpec(name).fields.Keys == {"name", "label", "widget"}
    ensures FieldSpec(name).fields["name"] == Str(name)
    ensures FieldSpec(name).fields["widget"] == Str("text_input")
    ensures var lbl := FieldSpec(name).fields["label"];
      && lbl.Str? && |lbl.s| == |name|
      && (forall i :: 0 <= i < |name| && name[i] == '_' ==> lbl.s[i] == ' ')
      && (forall i :: 0 <= i < |name| && name[i] != '_' ==> ToLowerChar(lbl.s[i]) == ToLowerChar(name[i]))
      && (forall i :: 0 <= i < |name| && IsAlpha(name[i]) ==>
            (IsUpper(lbl.s[i]) <==> i == 0 || !IsAlpha(name[i - 1])))
  {
    LabelShape(name);
    LabelCase(name);
  }

  /** A goal is refused, and no row is stored, exactly when it is empty or
      all whitespace; a stored goal is stripped. */
  lemma BlankGoalRejected(goal: string, upload: Option<(string, seq<string>)>, tenant: string, draftId: string)
    ensures CreateDraft(goal, upload, tenant, draftId) == Rejected("Goal is required.") <==>
      forall i :: 0 <= i < |goal| ==> IsSpace(goal[i])
    ensures CreateDraft(goal, upload, tenant, draftId).Rejected? ==>
      CreateDraft(goal, upload, tenant, draftId).message == "Goal is required."
    ensures CreateDraft(goal, upload, tenant, draftId).Stored? ==>
      CreateDraft(goal, upload, tenant, draftId).draft.goal == Strip(goal) != []
  {
    StripEmptyIffBlank(goal);
  }

  /** Without a template file the draft has no template and no required
      fields. */
  lemma NoTemplateNoFields(goal: string, tenant: string, draftId: string)
    requires CreateDraft(goal, None, tenant, draftId).Stored?
    ensures var d := CreateDraft(goal, None, tenant, draftId).draft;
      d.templateId == None && d.requiredFields == [] && d.step == 1 && d.draftId == draftId && d.tenant == tenant
  {
  }

  /** With a template, the draft records its id and one field spec per
      placeholder, in the order found. */
  lemma TemplateFields(goal: string, templateId: string, names: seq<string>, tenant: string, draftId: string)
    requires CreateDraft(goal, Some((templateId, names)), tenant, draftId).Stored?
    ensures var d := CreateDraft(goal, Some((templateId, names)), tenant, draftId).draft;
      && d.templateId == Some(templateId)
      && |d.requiredFields| == |names|
      && forall i :: 0 <= i < |names| ==> d.requiredFields[i] == FieldSpec(names[i])
  {
  }

  /** The published chain is a `json_graph` whose entry names a node whose
      `id` is that same name, built with the draft's template id. */
  lemma ChainJsonEntry(templateId: Value)
    ensures var c := ChainJson(templateId);
      && c.Dict? && "type" in c.fields && c.fields["type"] == Str("json_graph")
      && "entry" in c.fields && c.fields["entry"].Str?
      && "nodes" in c.fields && c.fields["nodes"].Dict?
      && var entry := c.fields["entry"].s;
         var nodes := c.fields["nodes"].fields;
         && entry in nodes && nodes[entry].Dict?
         && "id" in nodes[entry].fields && nodes[entry].fields["id"] == Str(entry)
         && "init_kwargs" in nodes[entry].fields
         && nodes[entry].fields["init_kwargs"] == Dict(map["template_id" := templateId])
  {
  }
}
