/// i2i_src/backend/tools/docx_render.py: merge-field replacement that
/// survives Word splitting a token across runs. A paragraph's runs are
/// joined, replaced as one text and, when something changed, written back
/// into the first run with every other run emptied. Downloading,
/// python-docx loading and saving, and the upload are left to the caller;
/// the signed URL is a parameter.
module DocxRenderI2i {
  import opened Py
  import opened Values
  import opened MergeFields

  /** The runs `_replace_in_runs(runs, mapping)` leaves: unchanged when the
      replacement changes nothing, otherwise all the replaced text in the
      first run and every other run empty. */
  function ReplacedRuns(runs: seq<string>, mapping: seq<(string, Value)>): seq<string> {
    var full := Concat(runs);
    var replaced := MergeAll(full, mapping);
    if replaced == full then runs
    else
      EmptyUnchanged(mapping);
      [replaced] + Blanks(|runs| - 1)
  }

  /** The run count never changes, the runs join to the replaced text of
      their old concatenation, and only a real change touches them; an
      empty run list stays empty. */
  lemma ReplacedRunsFacts(runs: seq<string>, mapping: seq<(string, Value)>)
    ensures var r := ReplacedRuns(runs, mapping);
      && |r| == |runs|
      && Concat(r) == MergeAll(Concat(runs), mapping)
      && (MergeAll(Concat(runs), mapping) == Concat(runs) ==> r == runs)
      && (MergeAll(Concat(runs), mapping) != Concat(runs) ==>
            runs != [] && r[0] == MergeAll(Concat(runs), mapping) && forall i :: 1 <= i < |r| ==> r[i] == "")
      && (runs == [] ==> r == [])
  {
    var full := Concat(runs);
    var replaced := MergeAll(full, mapping);
    EmptyUnchanged(mapping);
    if replaced != full {
      ConcatBlanks(replaced, |runs| - 1);
    }
  }

  /** A token Word split across two runs is still replaced. */
  lemma SplitTokenReplaced()
    ensures ReplacedRuns(["{{na", "me}}"], [("name", Str("Bo"))]) == ["Bo", ""]
  {
    var runs := ["{{na", "me}}"];
    assert runs[1..] == ["me}}"];
    assert Concat(runs) == "{{name}}";
    assert Token("name") == "{{name}}";
    assert Replace("{{name}}", "{{name}}", "Bo") == "Bo";
    assert MergeAll("{{name}}", [("name", Str("Bo"))]) == "Bo";
    assert Blanks(1) == [""];
  }

  /** `_replace_in_runs(runs, mapping)` */
  method ReplaceInRuns(runs: Para, mapping: seq<(string, Value)>)
    modifies runs
    ensures runs[..] == ReplacedRuns(old(runs[..]), mapping)
  {
    var full := Concat(runs[..]);
    var replaced := full;
    for i := 0 to |mapping|
      invariant MergeAll(replaced, mapping[i..]) == MergeAll(full, mapping)
      modifies {}
    {
      MergeStep(replaced, mapping, i);
      replaced := Replace(replaced, Token(mapping[i].0), PyStr(mapping[i].1));
    }
    assert mapping[|mapping|..] == [];
    assert replaced == MergeAll(full, mapping);
    if replaced == full {
      return;
    }
    EmptyUnchanged(mapping);
    runs[0] := replaced;
    for i := 1 to runs.Length
      invariant runs[0] == replaced
      invariant forall j :: 1 <= j < i ==> runs[j] == ""
      invariant forall j :: i <= j < runs.Length ==> runs[j] == old(runs[j])
    {
      runs[i] := "";
    }
    assert runs[..] == [replaced] + Blanks(runs.Length - 1);
  }

  /** The paragraphs `invoke` visits: the body's, each section's header and
      footer, then the paragraphs of every table cell. */
  function Paragraphs(doc: Doc): seq<Para> {
    doc.body + HeaderFooterParas(doc) + TableParas(doc)
  }

  /** Every body, header, footer and table-cell paragraph is visited. */
  lemma ParagraphsCover(doc: Doc)
    ensures forall p :: p in doc.body ==> p in Paragraphs(doc)
    ensures forall i, j :: 0 <= i < |doc.sections| && 0 <= j < |doc.sections[i].header| ==>
      doc.sections[i].header[j] in Paragraphs(doc)
    ensures forall i, j :: 0 <= i < |doc.sections| && 0 <= j < |doc.sections[i].footer| ==>
      doc.sections[i].footer[j] in Paragraphs(doc)
    ensures forall t, i, j, k ::
      (0 <= t < |doc.tables| && 0 <= i < |doc.tables[t]| && 0 <= j < |doc.tables[t][i]| && 0 <= k < |doc.tables[t][i][j]|)
      ==> doc.tables[t][i][j][k] in Paragraphs(doc)
  {
  }

  /** `_replace_in_runs` on each paragraph in turn. */
  method ReplaceAll(paras: seq<Para>, mapping: seq<(string, Value)>)
    requires Distinct(paras)
    modifies set p | p in paras
    ensures forall j :: 0 <= j < |paras| ==> paras[j][..] == ReplacedRuns(old(paras[j][..]), mapping)
  {
    for i := 0 to |paras|
      invariant forall j :: 0 <= j < i ==> paras[j][..] == ReplacedRuns(old(paras[j][..]), mapping)
      invariant forall j :: i <= j < |paras| ==> paras[j][..] == old(paras[j][..])
    {
      ReplaceInRuns(paras[i], mapping);
    }
  }

  /** `template_id.rstrip(chars)`: drops trailing characters while they are
      among `chars`. */
  function RStripChars(s: string, chars: string): (r: string)
    ensures |r| <= |s| && r == s[..|r|]
    ensures r == [] || r[|r| - 1] !in chars
    ensures forall i :: |r| <= i < |s| ==> s[i] in chars
  {
    if s != [] && s[|s| - 1] in chars then RStripChars(s[..|s| - 1], chars) else s
  }

  /** As written, the constructor strips any trailing run of the letters of
      ".docx", not the extension: "fox.docx" becomes "f", and "fox" too. */
  lemma RStripEatsStem()
    ensures RStripChars("fox.docx", ".docx") == "f"
    ensures RStripChars("fox", ".docx") == "f"
  {
    assert "fox.docx"[..7] == "fox.doc";
    assert "fox.doc"[..6] == "fox.do";
    assert "fox.do"[..5] == "fox.d";
    assert "fox.d"[..4] == "fox.";
    assert "fox."[..3] == "fox";
    assert "fox"[..2] == "fo";
    assert "fo"[..1] == "f";
  }

  /** The template id as evidently intended: a trailing ".docx" is removed
      once, and an id without it is kept. */
  function TemplateStem(s: string): (r: string)
    ensures EndsWith(s, ".docx") ==> r + ".docx" == s
    ensures !EndsWith(s, ".docx") ==> r == s
  {
    if EndsWith(s, ".docx") then s[..|s| - 5] else s
  }

  /** With or without the extension, the intended id names the same
      template object. */
  lemma StemRoundTrip(t: string)
    ensures TemplateStem(t + ".docx") + ".docx" == t + ".docx"
    ensures !EndsWith(t, ".docx") ==> TemplateStem(t) + ".docx" == t + ".docx"
  {
    assert EndsWith(t + ".docx", ".docx") by {
      assert (t + ".docx")[|t|..] == ".docx";
    }
  }

  /** `DocxRender`: a runnable rendering one template. */
  class Renderer {
    var templateId: string

    /** `DocxRender(template_id)` as written: `template_id.rstrip(".docx")`.
        The renderer the comment there intends would keep `TemplateStem`
        of the id instead (see `StemRoundTrip`). */
    constructor(templateId: string)
      ensures this.templateId == RStripChars(templateId, ".docx")
    {
      this.templateId := RStripChars(templateId, ".docx");
    }

    /** The template object key: `f"{self.template_id}.docx"`. */
    function TemplatePath(): (p: string)
      reads this
      ensures EndsWith(p, ".docx") && p[..|p| - 5] == templateId
    {
      assert (templateId + ".docx")[|templateId|..] == ".docx";
      templateId + ".docx"
    }

    /** `invoke(inputs)`: every visited paragraph gets `_replace_in_runs`
        with the inputs; the result is a download-link event holding the
        URL the upload signed. Documents whose walk reaches a paragraph
        twice (a linked header or footer, a merged cell) are excluded by
        `Distinct`: there the code rewrites that paragraph a second time. */
    method Invoke(doc: Doc, inputs: seq<(string, Value)>, url: string) returns (r: Dict)
      requires Distinct(Paragraphs(doc))
      modifies set p | p in Paragraphs(doc)
      ensures r == map["ui_event" := Str("download_link"), "url" := Str(url)]
      ensures forall j :: 0 <= j < |Paragraphs(doc)| ==>
        Paragraphs(doc)[j][..] == ReplacedRuns(old(Paragraphs(doc)[j][..]), inputs)
    {
      ReplaceAll(Paragraphs(doc), inputs);
      return map["ui_event" := Str("download_link"), "url" := Str(url)];
    }
  }
}
