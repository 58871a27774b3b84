/// backend/llm.py: `_substitute(template, variables)`, the prompt
/// substitution done with `template.format(**safe_vars)`. The template is
/// read as `str.format` reads it, left to right: literal text, `{{` and `}}`
/// for single braces, and `{NAME}` replacement fields looked up by keyword.
/// Fields with an attribute, an index, a conversion, a format spec or an
/// all-digit name are outside the modelled grammar. The LLM call itself is
/// not part of this model.
module Llm {
  import opened Py
  import opened Values

  /** What `str.format` reads from a template, in order: one literal
      character (`{{` and `}}` each give one brace), a replacement field and
      its name, or the syntax error that ends the parse, with the part of
      the field name read so far. */
  datatype Tok = Lit(c: char) | Field(name: string) | Broken(error: Error, name: string)

  function SingleOpen(): Error { ValueError("Single '{' encountered in format string") }
  function SingleClose(): Error { ValueError("Single '}' encountered in format string") }
  function Unclosed(): Error { ValueError("expected '}' before end of string") }
  function BraceInName(): Error { ValueError("unexpected '{' in field name") }

  /** The error an omitted field name raises: there are no positional
      arguments. */
  function NoPositional(): Error {
    IndexError("Replacement index 0 out of range for positional args tuple")
  }

  /** The message `_substitute` raises for a placeholder with no variable. */
  function MissingMessage(name: string): string {
    "Prompt expects placeholder {" + name + "} which was not supplied in `variables`."
  }

  /** Index of the first brace of `s` at or after `i`, or `|s|`. */
  function BraceFrom(s: string, i: nat): (j: nat)
    requires i <= |s|
    ensures i <= j <= |s|
    ensures forall k :: i <= k < j ==> s[k] != '{' && s[k] != '}'
    ensures j < |s| ==> s[j] == '{' || s[j] == '}'
    decreases |s| - i
  {
    if i == |s| || s[i] == '{' || s[i] == '}' then i else BraceFrom(s, i + 1)
  }

  /** The parse of a template. */
  function Lex(t: string): seq<Tok>
    decreases |t|
  {
    if t == [] then []
    else if t[0] == '{' then
      if |t| == 1 then [Broken(SingleOpen(), "")]
      else if t[1] == '{' then [Lit('{')] + Lex(t[2..])
      else
        var j := BraceFrom(t, 1);
        if j == |t| then [Broken(Unclosed(), t[1..])]
        else if t[j] == '{' then [Broken(BraceInName(), t[1..j])]
        else [Field(t[1..j])] + Lex(t[j + 1..])
    else if t[0] == '}' then
      if |t| > 1 && t[1] == '}' then [Lit('}')] + Lex(t[2..])
      else [Broken(SingleClose(), "")]
    else [Lit(t[0])] + Lex(t[1..])
  }

  /** A field name of the modelled grammar: no attribute, index, conversion
      or format spec, and not a positional index. */
  predicate PlainName(n: string) {
    (forall k :: 0 <= k < |n| ==> n[k] !in ".[!:")
    && !(n != [] && forall k :: 0 <= k < |n| ==> IsDigit(n[k]))
  }

  predicate PlainToks(toks: seq<Tok>)
    decreases |toks|
  {
    toks == [] || ((toks[0].Lit? || PlainName(toks[0].name)) && PlainToks(toks[1..]))
  }

  /** Every field of the template is in the modelled grammar. */
  predicate Plain(t: string) {
    PlainToks(Lex(t))
  }

  /** `r` with `s` in front of its text. */
  function Prepend(s: string, r: Result<string>): Result<string> {
    if r.Ok? then Ok(s + r.value) else r
  }

  /** The rendering of a parse with keyword arguments `kwargs`, left to
      right: the first missing keyword raises `KeyError`, an omitted name
      raises `IndexError`, and a syntax error raises when it is reached. */
  function Render(toks: seq<Tok>, kwargs: map<string, string>): Result<string>
    decreases |toks|
  {
    if toks == [] then Ok([])
    else match toks[0]
      case Lit(c) => Prepend([c], Render(toks[1..], kwargs))
      case Field(n) =>
        if n == [] then Err(NoPositional())
        else if n !in kwargs then Err(KeyError(n))
        else Prepend(kwargs[n], Render(toks[1..], kwargs))
      case Broken(e, _) => Err(e)
  }

  /** `{k: str(v) for k, v in variables.items()}` */
  function SafeVars(vars: Dict): (r: map<string, string>)
    ensures r.Keys == vars.Keys
    ensures forall k :: k in vars ==> r[k] == PyStr(vars[k])
  {
    map k | k in vars :: PyStr(vars[k])
  }

  /** The `except KeyError` clause: a missing placeholder becomes a
      `ValueError` naming it; anything else passes through. */
  function Missing(r: Result<string>): (q: Result<string>)
    ensures q.Err? ==> !q.error.KeyError?
  {
    if r.Err? && r.error.KeyError? then Err(ValueError(MissingMessage(r.error.key))) else r
  }

  /** `_substitute(template, variables)` */
  function Substitute(template: string, variables: Option<Dict>): (r: Result<string>)
    requires variables.Some? && variables.value != map[] ==> Plain(template)
    ensures variables.None? || variables.value == map[] ==> r == Ok(template)
    ensures r.Err? ==> !r.error.KeyError?
  {
    if variables.None? || variables.value == map[] then Ok(template)
    else Missing(Render(Lex(template), SafeVars(variables.value)))
  }

  // -------------------------------------------------------------------------
  // An independent description of the grammar: text and placeholders
  // -------------------------------------------------------------------------

  /** A template as a writer sees it: plain text, or a `{NAME}` hole. */
  datatype Part = Text(s: string) | Hole(name: string)

  /** A placeholder name: non-empty, no braces, and in the modelled grammar. */
  predicate Named(n: string) {
    n != [] && '{' !in n && '}' !in n && PlainName(n)
  }

  predicate AllNamed(parts: seq<Part>) {
    forall i :: 0 <= i < |parts| && parts[i].Hole? ==> Named(parts[i].name)
  }

  /** Text with every brace doubled, so that it stands for itself. */
  function Escape(s: string): (e: string)
    decreases |s|
  {
    if s == [] then []
    else EscapeChar(s[0]) + Escape(s[1..])
  }

  /** The template text of the parts. */
  function Source(parts: seq<Part>): string
    decreases |parts|
  {
    if parts == [] then []
    else
      (match parts[0] case Text(s) => Escape(s) case Hole(n) => "{" + n + "}")
      + Source(parts[1..])
  }

  /** What the parts should become: each text as it is and each hole as
      `str` of its variable, or the error for the first hole with none. */
  function Filled(parts: seq<Part>, vars: Dict): Result<string>
    decreases |parts|
  {
    if parts == [] then Ok([])
    else match parts[0]
      case Text(s) => Prepend(s, Filled(parts[1..], vars))
      case Hole(n) =>
        if n !in vars then Err(ValueError(MissingMessage(n)))
        else Prepend(PyStr(vars[n]), Filled(parts[1..], vars))
  }

  /** The parse the parts should give. */
  function Lits(s: string): seq<Tok>
    decreases |s|
  {
    if s == [] then [] else [Lit(s[0])] + Lits(s[1..])
  }

  function Toks(parts: seq<Part>): seq<Tok>
    decreases |parts|
  {
    if parts == [] then []
    else
      (match parts[0] case Text(s) => Lits(s) case Hole(n) => [Field(n)])
      + Toks(parts[1..])
  }

  /** How one character is written in escaped text. */
  function EscapeChar(c: char): string {
    if c == '{' then "{{" else if c == '}' then "}}" else [c]
  }

  /** An escaped character parses to that character. */
  lemma LexEscapeChar(c: char, tail: string)
    ensures Lex(EscapeChar(c) + tail) == [Lit(c)] + Lex(tail)
  {
    var t := EscapeChar(c) + tail;
    assert t[|EscapeChar(c)|..] == tail;
  }

  /** Escaped text parses back to its characters. */
  lemma {:induction false} LexEscape(s: string, rest: string)
    ensures Lex(Escape(s) + rest) == Lits(s) + Lex(rest)
    decreases |s|
  {
    if s != [] {
      LexEscape(s[1..], rest);
      LexEscapeStep(s, rest);
    } else {
      assert Escape(s) + rest == rest;
      assert Lits(s) + Lex(rest) == Lex(rest);
    }
  }

  /** The inductive step of `LexEscape`: one more escaped character. */
  lemma LexEscapeStep(s: string, rest: string)
    requires s != [] && Lex(Escape(s[1..]) + rest) == Lits(s[1..]) + Lex(rest)
    ensures Lex(Escape(s) + rest) == Lits(s) + Lex(rest)
  {
    EscapeCons(s, rest);
    LitsCons(s, Lex(rest));
    LexEscapeChar(s[0], Escape(s[1..]) + rest);
  }

  lemma EscapeCons(s: string, rest: string)
    requires s != []
    ensures Escape(s) + rest == EscapeChar(s[0]) + (Escape(s[1..]) + rest)
  {
  }

  lemma LitsCons(s: string, x: seq<Tok>)
    requires s != []
    ensures Lits(s) + x == [Lit(s[0])] + (Lits(s[1..]) + x)
  {
  }

  /** A hole parses to one field. */
  lemma LexHole(n: string, rest: string)
    requires '{' !in n && '}' !in n
    ensures Lex("{" + n + "}" + rest) == [Field(n)] + Lex(rest)
  {
    var t := "{" + n + "}" + rest;
    assert t[1..|n| + 1] == n;
    assert t[|n| + 1] == '}';
    assert t[|n| + 2..] == rest;
    forall k | 1 <= k < |n| + 1 ensures t[k] != '{' && t[k] != '}' {
      assert t[k] == n[k - 1];
    }
    assert BraceFrom(t, 1) == |n| + 1 by {
      HoleBrace(t, 1, |n| + 1);
    }
  }

  lemma {:induction false} HoleBrace(t: string, i: nat, j: nat)
    requires i <= j < |t| && t[j] == '}'
    requires forall k :: i <= k < j ==> t[k] != '{' && t[k] != '}'
    ensures BraceFrom(t, i) == j
    decreases j - i
  {
    if i < j {
      HoleBrace(t, i + 1, j);
    }
  }

  lemma {:induction false} PlainLits(s: string, rest: seq<Tok>)
    requires PlainToks(rest)
    ensures PlainToks(Lits(s) + rest)
    decreases |s|
  {
    if s != [] {
      PlainLits(s[1..], rest);
      var all := Lits(s) + rest;
      assert all == [Lit(s[0])] + (Lits(s[1..]) + rest);
      assert all[0] == Lit(s[0]);
      assert all[1..] == Lits(s[1..]) + rest;
    } else {
      assert Lits(s) + rest == rest;
    }
  }

  /** The source of the parts parses to their tokens, all in the grammar. */
  lemma {:induction false} LexSource(parts: seq<Part>)
    requires AllNamed(parts)
    ensures Lex(Source(parts)) == Toks(parts)
    ensures PlainToks(Toks(parts))
    decreases |parts|
  {
    if parts != [] {
      assert AllNamed(parts[1..]) by {
        forall i | 0 <= i < |parts[1..]| && parts[1..][i].Hole? ensures Named(parts[1..][i].name) {
          assert parts[1..][i] == parts[i + 1];
        }
      }
      LexSource(parts[1..]);
      match parts[0]
      case Text(s) =>
        LexEscape(s, Source(parts[1..]));
        PlainLits(s, Toks(parts[1..]));
      case Hole(n) =>
        assert Named(parts[0].name);
        LexHole(n, Source(parts[1..]));
        assert "{" + n + "}" + Source(parts[1..]) == Source(parts);
    }
  }

  lemma {:induction false} RenderLits(s: string, rest: seq<Tok>, kwargs: map<string, string>)
    ensures Render(Lits(s) + rest, kwargs) == Prepend(s, Render(rest, kwargs))
    decreases |s|
  {
    if s != [] {
      RenderLits(s[1..], rest, kwargs);
      LitsCons(s, rest);
      RenderLit(s[0], Lits(s[1..]) + rest, kwargs);
      PrependCons(s, Render(rest, kwargs));
    } else {
      assert Lits(s) + rest == rest;
      var r := Render(rest, kwargs);
      if r.Ok? {
        assert s + r.value == r.value;
      }
    }
  }

  /** A literal in front is written first. */
  lemma RenderLit(c: char, toks: seq<Tok>, kwargs: map<string, string>)
    ensures Render([Lit(c)] + toks, kwargs) == Prepend([c], Render(toks, kwargs))
  {
    var all := [Lit(c)] + toks;
    assert all[0] == Lit(c) && all[1..] == toks;
  }

  lemma PrependCons(s: string, r: Result<string>)
    requires s != []
    ensures Prepend([s[0]], Prepend(s[1..], r)) == Prepend(s, r)
  {
    if r.Ok? {
      assert [s[0]] + (s[1..] + r.value) == s + r.value;
    }
  }

  /** Rendering the tokens, with the `except KeyError` clause, is filling
      the parts. */
  lemma {:induction false} RenderToks(parts: seq<Part>, vars: Dict)
    requires AllNamed(parts)
    ensures Missing(Render(Toks(parts), SafeVars(vars))) == Filled(parts, vars)
    decreases |parts|
  {
    if parts != [] {
      var kw := SafeVars(vars);
      assert AllNamed(parts[1..]) by {
        forall i | 0 <= i < |parts[1..]| && parts[1..][i].Hole? ensures Named(parts[1..][i].name) {
          assert parts[1..][i] == parts[i + 1];
        }
      }
      RenderToks(parts[1..], vars);
      match parts[0]
      case Text(s) =>
        RenderLits(s, Toks(parts[1..]), kw);
      case Hole(n) =>
        assert Named(parts[0].name);
        RenderHole(n, Toks(parts[1..]), vars);
    }
  }

  /** One field followed by more tokens: the variable's `str`, or the
      `ValueError` naming a missing one. */
  lemma RenderHole(n: string, toks: seq<Tok>, vars: Dict)
    requires Named(n)
    ensures Missing(Render([Field(n)] + toks, SafeVars(vars))) ==
      if n !in vars then Err(ValueError(MissingMessage(n)))
      else Prepend(PyStr(vars[n]), Missing(Render(toks, SafeVars(vars))))
  {
    var all := [Field(n)] + toks;
    assert all[0] == Field(n) && all[1..] == toks;
  }

  /** The substitution of a template built from text and `{NAME}` holes
      with a non-empty `variables`: every text kept, every hole replaced by
      `str` of its variable, and the first hole without one raised as a
      `ValueError` naming it. */
  lemma SubstituteParts(parts: seq<Part>, vars: Dict)
    requires AllNamed(parts) && vars != map[]
    ensures Plain(Source(parts))
    ensures Substitute(Source(parts), Some(vars)) == Filled(parts, vars)
  {
    LexSource(parts);
    RenderToks(parts, vars);
  }

  /** Filling succeeds exactly when every hole has a variable. */
  lemma {:induction false} FilledOkIff(parts: seq<Part>, vars: Dict)
    ensures Filled(parts, vars).Ok? <==>
      forall i :: 0 <= i < |parts| && parts[i].Hole? ==> parts[i].name in vars
    decreases |parts|
  {
    if parts != [] {
      FilledOkIff(parts[1..], vars);
      assert forall i :: 1 <= i < |parts| ==> parts[i] == parts[1..][i - 1];
    }
  }

  /** A failed filling names the first hole that has no variable. */
  lemma {:induction false} FilledNamesFirstMissing(parts: seq<Part>, vars: Dict)
    requires Filled(parts, vars).Err?
    ensures exists i :: (0 <= i < |parts| && parts[i].Hole? && parts[i].name !in vars
      && Filled(parts, vars).error == ValueError(MissingMessage(parts[i].name))
      && forall j :: 0 <= j < i && parts[j].Hole? ==> parts[j].name in vars)
    decreases |parts|
  {
    if parts[0].Hole? && parts[0].name !in vars {
      assert Filled(parts, vars).error == ValueError(MissingMessage(parts[0].name));
    } else {
      assert Filled(parts, vars).Err? == Filled(parts[1..], vars).Err?;
      FilledNamesFirstMissing(parts[1..], vars);
      var i :| 0 <= i < |parts[1..]| && parts[1..][i].Hole? && parts[1..][i].name !in vars
        && Filled(parts[1..], vars).error == ValueError(MissingMessage(parts[1..][i].name))
        && forall j :: 0 <= j < i && parts[1..][j].Hole? ==> parts[1..][j].name in vars;
      assert parts[i + 1] == parts[1..][i];
      forall j | 0 <= j < i + 1 && parts[j].Hole? ensures parts[j].name in vars {
        if j > 0 {
          assert parts[j] == parts[1..][j - 1];
        }
      }
    }
  }

  /** A variable no hole names changes nothing. */
  lemma {:induction false} UnusedIgnored(parts: seq<Part>, vars: Dict, k: string, v: Value)
    requires forall i :: 0 <= i < |parts| && parts[i].Hole? ==> parts[i].name != k
    ensures Filled(parts, vars[k := v]) == Filled(parts, vars)
    decreases |parts|
  {
    if parts != [] {
      UnusedIgnored(parts[1..], vars, k, v);
      assert forall i :: 1 <= i < |parts| ==> parts[i] == parts[1..][i - 1];
    }
  }

  /** Escaped text comes back as it was. */
  lemma EscapeRoundTrip(s: string, vars: Dict)
    requires vars != map[]
    ensures Plain(Escape(s))
    ensures Substitute(Escape(s), Some(vars)) == Ok(s)
  {
    var parts := [Text(s)];
    assert Source(parts) == Escape(s) + Source([]);
    assert Escape(s) + [] == Escape(s);
    SubstituteParts(parts, vars);
    assert Filled(parts, vars) == Prepend(s, Filled([], vars));
    assert s + [] == s;
  }

  /** A lone `}` raises the parse error of `str.format`. */
  lemma LoneClose(vars: Dict)
    requires vars != map[]
    ensures Plain("}") && Substitute("}", Some(vars)) == Err(SingleClose())
  {
  }

  /** A template whose parse starts with a syntax error raises that error,
      whatever the variables. */
  lemma BrokenRaises(t: string, vars: Dict)
    requires vars != map[] && Plain(t)
    requires Lex(t) != [] && Lex(t)[0].Broken? && !Lex(t)[0].error.KeyError?
    ensures Substitute(t, Some(vars)) == Err(Lex(t)[0].error)
  {
    RenderStopsAtBroken(Lex(t), SafeVars(vars));
  }

  /** Rendering stops at a syntax error it reaches first. */
  lemma RenderStopsAtBroken(toks: seq<Tok>, kwargs: map<string, string>)
    requires toks != [] && toks[0].Broken?
    ensures Render(toks, kwargs) == Err(toks[0].error)
  {
  }

  /** A `{` at the end raises the parse error of `str.format`. */
  lemma LoneOpen(vars: Dict)
    requires vars != map[]
    ensures Plain("{") && Substitute("{", Some(vars)) == Err(SingleOpen())
  {
    assert Lex("{") == [Broken(SingleOpen(), "")];
    BrokenRaises("{", vars);
  }

  /** A field that is never closed raises the parse error of
      `str.format`. */
  lemma UnclosedField(vars: Dict)
    requires vars != map[]
    ensures Plain("{ab") && Substitute("{ab", Some(vars)) == Err(Unclosed())
  {
    assert BraceFrom("{ab", 3) == 3;
    assert BraceFrom("{ab", 1) == 3;
    assert "{ab"[1..] == "ab";
    assert PlainName("ab");
    assert Lex("{ab") == [Broken(Unclosed(), "ab")];
    BrokenRaises("{ab", vars);
  }

  /** An empty field asks for a positional argument and raises
      `IndexError`. */
  lemma EmptyField(vars: Dict)
    requires vars != map[]
    ensures Plain("{}") && Substitute("{}", Some(vars)) == Err(NoPositional())
  {
    assert BraceFrom("{}", 1) == 1;
    assert "{}"[1..1] == "";
    assert "{}"[2..] == "";
  }

  /** A template that is one placeholder gives `str` of its variable. */
  lemma OneHole(n: string, vars: Dict)
    requires Named(n) && n in vars
    ensures Plain("{" + n + "}")
    ensures Substitute("{" + n + "}", Some(vars)) == Ok(PyStr(vars[n]))
  {
    var parts := [Hole(n)];
    var t := "{" + n + "}";
    assert Source(parts) == t by {
      assert Source(parts) == t + Source([]);
      assert t + [] == t;
    }
    SubstituteParts(parts, vars);
    var v := PyStr(vars[n]);
    assert Filled(parts, vars) == Ok(v) by {
      assert Filled(parts, vars) == Prepend(v, Filled([], vars));
      assert v + [] == v;
    }
  }
}
