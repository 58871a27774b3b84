/// backend/tools/docx_render.py: the simpler renderer. Each run of each body
/// paragraph is rewritten on its own, so a token Word split across runs is
/// not replaced; tables, headers and footers are not visited. Download,
/// python-docx, upload and signing are left to the caller; the signed URL
/// is a parameter.
module DocxRender {
  import opened Py
  import opened Values
  import opened MergeFields
  import DocxRenderI2i

  /** Each run replaced on its own. */
  function PerRun(runs: seq<string>, mapping: seq<(string, Value)>): (r: seq<string>)
    ensures |r| == |runs|
    ensures forall j :: 0 <= j < |runs| ==> r[j] == MergeAll(runs[j], mapping)
  {
    seq(|runs|, j requires 0 <= j < |runs| => MergeAll(runs[j], mapping))
  }

  /** A run with no `{{` is left as it is. */
  lemma RunWithoutTokenKept(runs: seq<string>, mapping: seq<(string, Value)>, j: nat)
    requires j < |runs| && !Contains(runs[j], "{{")
    ensures PerRun(runs, mapping)[j] == runs[j]
  {
    NoBraceUnchanged(runs[j], mapping);
  }

  /** A token split across two runs survives here, while the i2i renderer
      replaces it. */
  lemma SplitTokenKept()
    ensures PerRun(["{{na", "me}}"], [("name", Str("Bo"))]) == ["{{na", "me}}"]
    ensures DocxRenderI2i.ReplacedRuns(["{{na", "me}}"], [("name", Str("Bo"))]) == ["Bo", ""]
  {
    var m := [("name", Str("Bo"))];
    assert Token("name") == "{{name}}";
    assert Replace("{{na", "{{name}}", "Bo") == "{{na";
    assert Replace("me}}", "{{name}}", "Bo") == "me}}";
    assert MergeAll("{{na", m) == "{{na";
    assert MergeAll("me}}", m) == "me}}";
    DocxRenderI2i.SplitTokenReplaced();
  }

  /** `DocxRender`: a runnable rendering one template. */
  class Renderer {
    var templateId: string

    /** `DocxRender(template_id)` keeps the id as given. */
    constructor(templateId: string)
      ensures this.templateId == templateId
    {
      this.templateId := templateId;
    }

    /** The template object key: `f"{self.template_id}.docx"`. */
    function TemplatePath(): (p: string)
      reads this
      ensures EndsWith(p, ".docx") && p[..|p| - 5] == templateId
    {
      assert (templateId + ".docx")[|templateId|..] == ".docx";
      templateId + ".docx"
    }

    /** `invoke(inputs)`: for each body paragraph, each run, each input in
        turn, `run.text = run.text.replace(token, str(v))`. The result holds
        only the URL, with no `ui_event`. */
    method Invoke(doc: Doc, inputs: seq<(string, Value)>, url: string) returns (r: Dict)
      requires Distinct(doc.body)
      modifies set p | p in doc.body
      ensures r == map["url" := Str(url)] && "ui_event" !in r
      ensures forall i :: 0 <= i < |doc.body| ==> doc.body[i][..] == PerRun(old(doc.body[i][..]), inputs)
    {
      var paras := doc.body;
      for i := 0 to |paras|
        invariant forall k :: 0 <= k < i ==> paras[k][..] == PerRun(old(paras[k][..]), inputs)
        invariant forall k :: i <= k < |paras| ==> paras[k][..] == old(paras[k][..])
      {
        RenderRuns(paras[i], inputs);
      }
      return map["url" := Str(url)];
    }
  }

  /** The runs of one paragraph: each run, each input in turn,
      `run.text = run.text.replace(token, str(v))`. */
  method RenderRuns(runs: array<string>, inputs: seq<(string, Value)>)
    modifies runs
    ensures runs[..] == PerRun(old(runs[..]), inputs)
  {
    for j := 0 to runs.Length
      invariant forall l :: 0 <= l < j ==> runs[l] == MergeAll(old(runs[l]), inputs)
      invariant forall l :: j <= l < runs.Length ==> runs[l] == old(runs[l])
    {
      var text := runs[j];
      for n := 0 to |inputs|
        invariant MergeAll(text, inputs[n..]) == MergeAll(old(runs[j]), inputs)
        modifies {}
      {
        MergeStep(text, inputs, n);
        text := Replace(text, Token(inputs[n].0), PyStr(inputs[n].1));
      }
      assert inputs[|inputs|..] == [];
      runs[j] := text;
    }
  }
}
