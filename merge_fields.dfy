/// Merge-field replacement shared by both docx renderers
/// (i2i_src/backend/tools/docx_render.py and backend/tools/docx_render.py):
/// every `{{k}}` of a text becomes `str(v)`, one mapping entry at a time in
/// the mapping's order. A Word document is seen as python-docx presents it:
/// paragraphs whose runs hold the text, in the body, in each section's
/// header and footer, and in the cells of tables.
module MergeFields {
  import opened Py
  import opened Values

  /** `f"{{{{{k}}}}}"`: the merge-field token `{{k}}`. */
  function Token(k: string): (t: string)
    ensures |t| == |k| + 4 && StartsWith(t, "{{")
  {
    "{{" + k + "}}"
  }

  /** `text` after `text = text.replace(f"{{{{{k}}}}}", str(v))` for each
      `(k, v)` of `mapping`, in order. */
  function MergeAll(text: string, mapping: seq<(string, Value)>): string
    decreases |mapping|
  {
    if mapping == [] then text
    else MergeAll(Replace(text, Token(mapping[0].0), PyStr(mapping[0].1)), mapping[1..])
  }

  /** One more entry of the mapping, as a loop over the mapping applies it. */
  lemma MergeStep(text: string, mapping: seq<(string, Value)>, i: nat)
    requires i < |mapping|
    ensures MergeAll(text, mapping[i..])
      == MergeAll(Replace(text, Token(mapping[i].0), PyStr(mapping[i].1)), mapping[i + 1..])
  {
    assert mapping[i..][0] == mapping[i];
    assert mapping[i..][1..] == mapping[i + 1..];
  }

  /** A text that contains a longer piece contains that piece's prefix. */
  lemma ContainsPrefix(s: string, t: string, p: string)
    requires Contains(s, t) && StartsWith(t, p)
    ensures Contains(s, p)
  {
    var i :| 0 <= i <= |s| && OccursAt(s, t, i);
    assert s[i..i + |p|] == t[..|p|];
    assert OccursAt(s, p, i);
  }

  /** A text without `{{` holds no token, and no mapping changes it. */
  lemma {:induction false} NoBraceUnchanged(text: string, mapping: seq<(string, Value)>)
    requires !Contains(text, "{{")
    ensures MergeAll(text, mapping) == text
    decreases |mapping|
  {
    if mapping != [] {
      var tok := Token(mapping[0].0);
      if Contains(text, tok) {
        ContainsPrefix(text, tok, "{{");
      }
      ReplaceAbsent(text, tok, PyStr(mapping[0].1));
      NoBraceUnchanged(text, mapping[1..]);
    }
  }

  /** The empty text stays empty. */
  lemma EmptyUnchanged(mapping: seq<(string, Value)>)
    ensures MergeAll("", mapping) == ""
  {
    assert !OccursAt("", "{{", 0);
    NoBraceUnchanged("", mapping);
  }

  /** The replacements are sequential: a value holding another key's token
      is rewritten by that later entry. */
  lemma SequentialRewrite()
    ensures MergeAll("{{a}}", [("a", Str("{{b}}")), ("b", Str("x"))]) == "x"
  {
    var m := [("a", Str("{{b}}")), ("b", Str("x"))];
    assert Token("a") == "{{a}}";
    assert Replace("{{a}}", "{{a}}", "{{b}}") == "{{b}}";
    assert MergeAll("{{a}}", m) == MergeAll("{{b}}", m[1..]);
    assert Token("b") == "{{b}}";
    assert Replace("{{b}}", "{{b}}", "x") == "x";
    assert m[1..][1..] == [];
  }

  // -------------------------------------------------------------------------
  // Runs and documents
  // -------------------------------------------------------------------------

  /** `"".join(r.text for r in runs)` */
  function Concat(runs: seq<string>): (r: string)
    ensures runs == [] ==> r == ""
  {
    if runs == [] then "" else runs[0] + Concat(runs[1..])
  }

  /** `n` empty runs. */
  function Blanks(n: nat): (r: seq<string>)
    ensures |r| == n && forall i :: 0 <= i < n ==> r[i] == ""
  {
    seq(n, i => "")
  }

  /** A first run followed by empty runs joins to the first run's text. */
  lemma {:induction false} ConcatBlanks(x: string, n: nat)
    ensures Concat([x] + Blanks(n)) == x
    decreases n
  {
    if n > 0 {
      ConcatBlanks("", n - 1);
      assert ([x] + Blanks(n))[1..] == [""] + Blanks(n - 1);
      assert ([""] + Blanks(n - 1))[1..] == Blanks(n - 1);
      assert Concat(Blanks(n - 1)) == Concat([""] + Blanks(n - 1)) by {
        if n - 1 > 0 {
          ConcatBlanksTail(n - 1);
        }
      }
    }
  }

  /** Empty runs join to nothing, with or without one more in front. */
  lemma {:induction false} ConcatBlanksTail(n: nat)
    requires n > 0
    ensures Concat(Blanks(n)) == "" && Concat([""] + Blanks(n - 1)) == ""
    decreases n
  {
    assert Blanks(n) == [""] + Blanks(n - 1);
    if n > 1 {
      ConcatBlanksTail(n - 1);
    }
    assert ([""] + Blanks(n - 1))[1..] == Blanks(n - 1);
  }

  /** A paragraph's runs, edited in place. */
  type Para = array<string>

  /** A section's header and footer paragraphs. */
  datatype Section = Section(header: seq<Para>, footer: seq<Para>)

  /** A table: rows of cells of paragraphs. */
  type Table = seq<seq<seq<Para>>>

  /** A document: its body paragraphs, its sections and its tables. */
  datatype Doc = Doc(body: seq<Para>, sections: seq<Section>, tables: seq<Table>)

  /** The concatenation of a sequence of sequences, in order. */
  function Flat<T>(xss: seq<seq<T>>): (r: seq<T>)
    ensures forall i, j :: 0 <= i < |xss| && 0 <= j < |xss[i]| ==> xss[i][j] in r
  {
    if xss == [] then []
    else
      var r := xss[0] + Flat(xss[1..]);
      assert forall i, j :: 1 <= i < |xss| && 0 <= j < |xss[i]| ==> xss[i][j] == xss[1..][i - 1][j];
      r
  }

  /** The body paragraphs. */
  function BodyParas(doc: Doc): seq<Para> {
    doc.body
  }

  /** Every header paragraph, then every footer paragraph, section by
      section. */
  function HeaderFooterParas(doc: Doc): (r: seq<Para>)
    ensures forall i, j :: 0 <= i < |doc.sections| && 0 <= j < |doc.sections[i].header| ==>
      doc.sections[i].header[j] in r
    ensures forall i, j :: 0 <= i < |doc.sections| && 0 <= j < |doc.sections[i].footer| ==>
      doc.sections[i].footer[j] in r
  {
    var headers := seq(|doc.sections|, i requires 0 <= i < |doc.sections| => doc.sections[i].header);
    var footers := seq(|doc.sections|, i requires 0 <= i < |doc.sections| => doc.sections[i].footer);
    assert forall i :: 0 <= i < |doc.sections| ==> headers[i] == doc.sections[i].header;
    assert forall i :: 0 <= i < |doc.sections| ==> footers[i] == doc.sections[i].footer;
    Flat(headers) + Flat(footers)
  }

  /** Every paragraph of every cell of every row of every table, in order. */
  function TableParas(doc: Doc): (r: seq<Para>)
    ensures forall t, i, j, k ::
      (0 <= t < |doc.tables| && 0 <= i < |doc.tables[t]| && 0 <= j < |doc.tables[t][i]| && 0 <= k < |doc.tables[t][i][j]|)
      ==> doc.tables[t][i][j][k] in r
  {
    var rows := Flat(doc.tables);
    var cells := Flat(rows);
    var paras := Flat(cells);
    forall t, i, j, k | 0 <= t < |doc.tables| && 0 <= i < |doc.tables[t]| && 0 <= j < |doc.tables[t][i]|
      && 0 <= k < |doc.tables[t][i][j]|
      ensures doc.tables[t][i][j][k] in paras
    {
      var row := doc.tables[t][i];
      assert row in rows;
      var a :| 0 <= a < |rows| && rows[a] == row;
      var cell := row[j];
      assert cell == rows[a][j];
      assert cell in cells;
      var b :| 0 <= b < |cells| && cells[b] == cell;
      assert doc.tables[t][i][j][k] == cells[b][k];
    }
    paras
  }

  /** No paragraph is reached twice. */
  predicate Distinct(ps: seq<Para>) {
    forall i, j :: 0 <= i < j < |ps| ==> ps[i] != ps[j]
  }
}
