/// backend/extractors/__init__.py: the registry of document-text
/// extractors and `extract_text`, which dispatches on a path's lower-cased
/// suffix. Reading a file is I/O, so every extractor is an abstract
/// function of the path; whether python-docx and pdfminer are installed is
/// a parameter of the registry's construction.
module Extractors {
  import opened Py

  /** A path, by its parent directory and its final component. */
  datatype Path = Path(parent: string, name: string)

  /** An extractor: the text it reads from a path. */
  type Extractor = Path -> string

  /** `PurePath.suffix` of a final component: from its last `.` on, when
      that dot is neither the first nor the last character; otherwise "". */
  function Suffix(name: string): (x: string)
    ensures x == [] || (|x| >= 2 && x[0] == '.' && EndsWith(name, x) && |x| < |name|)
    ensures forall k :: 1 <= k < |x| ==> x[k] != '.'
  {
    var i := LastIndexOf(name, '.');
    if 0 < i < |name| - 1 then
      assert name[|name| - |name[i..]|..] == name[i..];
      name[i..]
    else []
  }

  /** `path.suffix.lower()` */
  function Ext(path: Path): string {
    Lower(Suffix(path.name))
  }

  /** The error for an extension with no extractor. */
  function Unsupported(ext: string): Error {
    ValueError("Unsupported file type: " + ext)
  }

  /** `extract_text(path)` over a registry table. */
  function Dispatch(table: map<string, Extractor>, path: Path): Result<string> {
    var ext := Ext(path);
    if ext !in table then Err(Unsupported(ext)) else Ok(table[ext](path))
  }

  /** The table after importing the module: `.txt` always, `.docx` and
      `.pdf` when their libraries import. */
  function Initial(txt: Extractor, docx: Option<Extractor>, pdf: Option<Extractor>): (t: map<string, Extractor>)
    ensures ".txt" in t && t[".txt"] == txt
    ensures ".docx" in t <==> docx.Some?
    ensures docx.Some? ==> t[".docx"] == docx.value
    ensures ".pdf" in t <==> pdf.Some?
    ensures pdf.Some? ==> t[".pdf"] == pdf.value
    ensures t.Keys <= {".txt", ".docx", ".pdf"}
  {
    var t := map[".txt" := txt];
    var t := if docx.Some? then t[".docx" := docx.value] else t;
    if pdf.Some? then t[".pdf" := pdf.value] else t
  }

  /** `REGISTRY` together with `register` and `extract_text`. */
  class Registry {
    var table: map<string, Extractor>

    /** The module import, which registers the built-in extractors. */
    constructor(txt: Extractor, docx: Option<Extractor>, pdf: Option<Extractor>)
      ensures table == Initial(txt, docx, pdf)
    {
      var t: map<string, Extractor> := map[".txt" := txt];
      if docx.Some? {
        t := t[".docx" := docx.value];
      }
      if pdf.Some? {
        t := t[".pdf" := pdf.value];
      }
      table := t;
    }

    /** `register(ext)(fn)`: stores `fn` under `ext.lower()`, replacing any
        earlier entry, and returns `fn` itself. */
    method Register(ext: string, fn: Extractor) returns (r: Extractor)
      modifies this
      ensures table == old(table)[Lower(ext) := fn]
      ensures r == fn
    {
      table := table[Lower(ext) := fn];
      r := fn;
    }

    /** `extract_text(path)` */
    function ExtractText(path: Path): Result<string>
      reads this
    {
      Dispatch(table, path)
    }
  }

  /** A path named `stem.ext`, with a non-empty stem and an extension with
      no dot, has suffix `.ext`. */
  lemma SuffixOf(stem: string, ext: string)
    requires stem != [] && ext != [] && '.' !in ext
    ensures Suffix(stem + "." + ext) == "." + ext
  {
    var name := stem + "." + ext;
    assert name[|stem|] == '.';
    forall j | |stem| < j < |name| ensures name[j] != '.' {
      assert name[j] == ext[j - |stem| - 1];
    }
    assert LastIndexOf(name, '.') == |stem|;
    assert name[|stem|..] == "." + ext;
  }

  /** A name with no dot, or whose only dot leads it, has no suffix. */
  lemma NoSuffix(name: string)
    requires forall k :: 1 <= k < |name| ==> name[k] != '.'
    ensures Suffix(name) == []
  {
  }

  /** After `register(ext)(fn)`, every path whose suffix matches `ext` up to
      case is read by `fn`, and every other path is read as before. */
  lemma RegisterDispatch(table: map<string, Extractor>, ext: string, fn: Extractor, path: Path)
    ensures Ext(path) == Lower(ext) ==> Dispatch(table[Lower(ext) := fn], path) == Ok(fn(path))
    ensures Ext(path) != Lower(ext) ==> Dispatch(table[Lower(ext) := fn], path) == Dispatch(table, path)
  {
  }

  /** `lower` is idempotent, so registering `.TXT` or `.txt` is the same. */
  lemma LowerIdempotent(s: string)
    ensures Lower(Lower(s)) == Lower(s)
  {
    forall k | 0 <= k < |s| ensures Lower(Lower(s))[k] == Lower(s)[k] {
      assert Lower(Lower(s))[k] == ToLowerChar(Lower(s)[k]);
    }
  }

  /** A `.txt` file, whatever the case of its suffix, is always supported:
      the imported registry reads it with the text extractor. */
  lemma TxtAlwaysSupported(txt: Extractor, docx: Option<Extractor>, pdf: Option<Extractor>, path: Path)
    requires Ext(path) == ".txt"
    ensures Dispatch(Initial(txt, docx, pdf), path) == Ok(txt(path))
  {
  }

  /** A path without a suffix is rejected by the imported registry with
      the empty extension in the message. */
  lemma NoSuffixRejected(txt: Extractor, docx: Option<Extractor>, pdf: Option<Extractor>, path: Path)
    requires forall k :: 1 <= k < |path.name| ==> path.name[k] != '.'
    ensures Dispatch(Initial(txt, docx, pdf), path) == Err(Unsupported(""))
  {
    NoSuffix(path.name);
  }
}
