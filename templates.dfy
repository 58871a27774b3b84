/// backend/templates.py: the `{{name}}` placeholders of an uploaded
/// template, sorted and without duplicates. Plain text is scanned as it is;
/// for .docx/.pptx every `.xml` member of the archive is scanned after its
/// tags are removed. Decoding bytes and reading the archive are left to the
/// caller: the decoded text and the decoded members are inputs.
module Templates {
  import opened Py

  // -------------------------------------------------------------------------
  // _strip_xml
  // -------------------------------------------------------------------------

  /** `re.sub(r"<[^>]+>", "", text)`: scanning left to right, a `<` that
      has at least one character before the next `>` starts a tag, which is
      removed up to and including that `>`; any other character is kept. */
  function StripXml(s: string): string
    decreases |s|, 1
  {
    if s == [] then [] else StripFrom(s, IndexOf(s[1..], '>'))
  }

  /** One step of `StripXml`, given where the first `>` after the head is
      (`-1` for none). */
  function StripFrom(s: string, close: int): string
    requires s != [] && -1 <= close < |s| - 1
    decreases |s|, 0
  {
    if s[0] == '<' && close > 0 then StripXml(s[close + 2..])
    else [s[0]] + StripXml(s[1..])
  }

  /** Dropping a prefix of the larger sequence keeps a subsequence one. */
  lemma {:induction false} SubsequenceAfter<T>(a: seq<T>, p: seq<T>, t: seq<T>)
    requires Subsequence(a, t)
    ensures Subsequence(a, p + t)
    decreases |p|
  {
    if p != [] && a != [] {
      SubsequenceAfter(a, p[1..], t);
      assert (p + t)[1..] == p[1..] + t;
      assert Subsequence(a, (p + t)[1..]);
    } else if p == [] {
      assert p + t == t;
    }
  }

  /** Text without `<` is left as it is. */
  lemma {:induction false} StripPlain(s: string)
    requires '<' !in s
    ensures StripXml(s) == s
    decreases |s|
  {
    if s != [] {
      StripPlain(s[1..]);
    }
  }

  /** The result is the input with characters left out. */
  lemma {:induction false} StripXmlSubsequence(s: string)
    ensures Subsequence(StripXml(s), s)
    decreases |s|
  {
    if s != [] {
      assert StripXml(s) == StripFrom(s, IndexOf(s[1..], '>'));
      if s[0] == '<' && IndexOf(s[1..], '>') > 0 {
        var k := IndexOf(s[1..], '>') + 2;
        StripXmlSubsequence(s[k..]);
        assert s == s[..k] + s[k..];
        SubsequenceAfter(StripXml(s), s[..k], s[k..]);
      } else {
        StripXmlSubsequence(s[1..]);
        var r := StripXml(s);
        assert r == [s[0]] + StripXml(s[1..]);
        assert r[0] == s[0] && r[1..] == StripXml(s[1..]);
      }
    }
  }

  /** A tag is removed whole. */
  lemma {:induction false} StripTag(tag: string, rest: string)
    requires tag != [] && '>' !in tag
    ensures StripXml("<" + tag + ">" + rest) == StripXml(rest)
  {
    var s := "<" + tag + ">" + rest;
    assert s[1..] == tag + ">" + rest;
    assert (tag + ">" + rest)[|tag|] == '>';
    assert IndexOf(s[1..], '>') == |tag|;
    assert s[|tag| + 2..] == rest;
  }

  /** Text before the first `<` is kept. */
  lemma {:induction false} StripKeepsText(x: string, rest: string)
    requires '<' !in x
    ensures StripXml(x + rest) == x + StripXml(rest)
    decreases |x|
  {
    if x != [] {
      StripKeepsText(x[1..], rest);
      assert (x + rest)[0] == x[0];
      assert (x + rest)[1..] == x[1..] + rest;
      assert x == [x[0]] + x[1..];
    } else {
      assert x + rest == rest;
    }
  }

  /** One `<w:t>` element gives its text. */
  lemma ElementText(y: string)
    requires '<' !in y
    ensures StripXml("<w:t>" + (y + "</w:t>")) == y
  {
    var r := y + "</w:t>";
    StripTag("/w:t", "");
    assert "</w:t>" == "<" + "/w:t" + ">" + "";
    StripKeepsText(y, "</w:t>");
    assert "<w:t>" + r == "<" + "w:t" + ">" + r;
    StripTag("w:t", r);
  }

  /** The text of two `<w:t>` elements, the token Word may split across,
      is joined up again. */
  lemma RunsJoin(x: string, y: string)
    requires '<' !in x && '<' !in y
    ensures StripXml("<w:t>" + (x + ("</w:t>" + ("<w:t>" + (y + "</w:t>"))))) == x + y
  {
    var r3 := "<w:t>" + (y + "</w:t>");
    var r2 := "</w:t>" + r3;
    var r1 := x + r2;
    ElementText(y);
    assert r2 == "<" + "/w:t" + ">" + r3;
    StripTag("/w:t", r3);
    StripKeepsText(x, r2);
    assert "<w:t>" + r1 == "<" + "w:t" + ">" + r1;
    StripTag("w:t", r1);
  }

  // -------------------------------------------------------------------------
  // _PLACEHOLDER_RE.findall
  // -------------------------------------------------------------------------

  /** Where a match lies: its name is `s[start..end]`, and scanning
      resumes at `next`, just past the closing braces. */
  datatype Hit = Hit(start: nat, end: nat, next: nat)

  /** How far a match of `\{\{\s*([a-zA-Z0-9_]+?)\s*\}\}` has got: before
      the first brace, after it, in the leading whitespace, in the name
      begun at `start`, in the whitespace after the name ending at `end`,
      or after the first closing brace. */
  datatype Phase = Begin | Opened | Lead | Name(start: nat) | Trail(start: nat, end: nat) | Shut(start: nat, end: nat)

  /** What one more character does to a match in progress. */
  datatype Move = Go(ph: Phase) | Done(hit: Hit) | Fail

  /** True when `s[lo..hi]` is all whitespace. */
  predicate SpacesIn(s: string, lo: int, hi: int)
    requires 0 <= lo && hi <= |s|
  {
    forall k :: lo <= k < hi ==> IsSpace(s[k])
  }

  /** True when `s[lo..hi]` is all word characters. */
  predicate WordsIn(s: string, lo: int, hi: int)
    requires 0 <= lo && hi <= |s|
  {
    forall k :: lo <= k < hi ==> IsWordChar(s[k])
  }

  /** The positions a phase has fixed lie before index `i`, the name's
      start before its end. */
  predicate Ordered(i: nat, ph: Phase) {
    match ph
    case Name(st) => st < i
    case Trail(st, en) => st < en < i
    case Shut(st, en) => st < en < i
    case _ => true
  }

  /** The text read before index `i` agrees with the phase: the name is
      word characters, then come whitespace and, in `Shut`, a `}`. */
  predicate PhaseOk(s: string, i: nat, ph: Phase)
    requires i <= |s|
  {
    && Ordered(i, ph)
    && match ph
       case Name(st) => WordsIn(s, st, i)
       case Trail(st, en) => WordsIn(s, st, en) && SpacesIn(s, en, i)
       case Shut(st, en) => WordsIn(s, st, en) && SpacesIn(s, en, i - 1) && s[i - 1] == '}'
       case _ => true
  }

  /** The earliest a name can still start. */
  function Floor(ph: Phase, i: nat): nat {
    match ph
    case Begin => i + 2
    case Opened => i + 1
    case Lead => i
    case Name(st) => st
    case Trail(st, _) => st
    case Shut(st, _) => st
  }

  /** The character classes the pattern tells apart. */
  datatype Kind = OpenBrace | CloseBrace | Space | WordChar | Other

  /** The class of `c`: `\s` is whitespace, `[a-zA-Z0-9_]` a word
      character. */
  function KindOf(c: char): (k: Kind)
    ensures k == OpenBrace <==> c == '{'
    ensures k == CloseBrace <==> c == '}'
    ensures k == Space <==> IsSpace(c)
    ensures k == WordChar <==> IsWordChar(c)
  {
    if c == '{' then OpenBrace
    else if c == '}' then CloseBrace
    else if IsSpace(c) then Space
    else if IsWordChar(c) then WordChar
    else Other
  }

  /** The pattern read one character, of class `c` and at index `i`, at a
      time. The lazy name group still takes the whole run of word
      characters, since only whitespace or `}` may follow it, so there is
      never a choice to make. */
  function Advance(ph: Phase, i: nat, c: Kind): (m: Move)
    requires Ordered(i, ph)
    ensures m.Go? ==> Ordered(i + 1, m.ph)
  {
    match (ph, c)
    case (Begin, OpenBrace) => Go(Opened)
    case (Opened, OpenBrace) => Go(Lead)
    case (Lead, Space) => Go(Lead)
    case (Lead, WordChar) => Go(Name(i))
    case (Name(st), WordChar) => Go(Name(st))
    case (Name(st), Space) => Go(Trail(st, i))
    case (Name(st), CloseBrace) => Go(Shut(st, i))
    case (Trail(st, en), Space) => Go(Trail(st, en))
    case (Trail(st, en), CloseBrace) => Go(Shut(st, en))
    case (Shut(st, en), CloseBrace) => Done(Hit(st, en, i + 1))
    case _ => Fail
  }

  /** A move to a next phase keeps the record of the text read true. */
  lemma AdvanceOk(s: string, i: nat, ph: Phase)
    requires i < |s| && PhaseOk(s, i, ph) && Advance(ph, i, KindOf(s[i])).Go?
    ensures PhaseOk(s, i + 1, Advance(ph, i, KindOf(s[i])).ph)
  {
  }

  /** The match that a scan in phase `ph` at index `i` completes, if any. */
  function Scan(s: string, i: nat, ph: Phase): Option<Hit>
    requires i <= |s| && Ordered(i, ph)
    decreases |s| - i
  {
    if i == |s| then None
    else
      match Advance(ph, i, KindOf(s[i]))
      case Go(next) => Scan(s, i + 1, next)
      case Done(h) => Some(h)
      case Fail => None
  }

  /** A completed match lies within the text, no earlier than the phase
      allows, with a non-empty name, and keeps the positions the phase has
      fixed. */
  lemma {:induction false} ScanBounds(s: string, i: nat, ph: Phase)
    requires i <= |s| && Ordered(i, ph)
    ensures var r := Scan(s, i, ph);
      && (r.Some? ==> Floor(ph, i) <= r.value.start < r.value.end < r.value.next <= |s|)
      && (r.Some? && !(ph.Begin? || ph.Opened? || ph.Lead?) ==> r.value.start == ph.start)
      && (r.Some? && (ph.Trail? || ph.Shut?) ==> r.value.end == ph.end)
    decreases |s| - i
  {
    if i < |s| {
      var m := Advance(ph, i, KindOf(s[i]));
      if m.Go? {
        ScanBounds(s, i + 1, m.ph);
      }
    }
  }

  /** `_PLACEHOLDER_RE.match(s, i)` */
  function MatchAt(s: string, i: nat): (r: Option<Hit>)
    requires i <= |s|
    ensures r.Some? ==> i < r.value.start < r.value.end < r.value.next <= |s|
  {
    ScanBounds(s, i, Begin);
    Scan(s, i, Begin)
  }

  /** The names of the non-overlapping matches from index `i` on, left to
      right. */
  function FindFrom(s: string, i: nat): (r: seq<string>)
    requires i <= |s|
    decreases |s| - i, 1
  {
    if i == |s| then [] else FindNext(s, i, MatchAt(s, i))
  }

  /** One step of `FindFrom`, given the match at `i`: its name and what
      follows it, or else what follows the next character. */
  function FindNext(s: string, i: nat, m: Option<Hit>): (r: seq<string>)
    requires i < |s|
    requires m.Some? ==> i < m.value.start < m.value.end < m.value.next <= |s|
    decreases |s| - i, 0
  {
    match m
    case Some(h) => [s[h.start..h.end]] + FindFrom(s, h.next)
    case None => FindFrom(s, i + 1)
  }

  /** `_PLACEHOLDER_RE.findall(s)` */
  function FindAll(s: string): seq<string> {
    FindFrom(s, 0)
  }

  /** A scan completes only what the pattern describes: whitespace up to
      the name, the name of word characters, whitespace after it, then
      `}}`. */
  lemma {:induction false} ScanSound(s: string, i: nat, ph: Phase)
    requires i <= |s| && PhaseOk(s, i, ph) && Scan(s, i, ph).Some?
    ensures var h := Scan(s, i, ph).value;
      && Floor(ph, i) <= h.start < h.end && h.end + 2 <= h.next <= |s|
      && s[h.next - 2] == '}' && s[h.next - 1] == '}'
      && SpacesIn(s, h.end, h.next - 2)
      && WordsIn(s, h.start, h.end)
      && (ph.Begin? ==> s[i] == '{' && s[i + 1] == '{' && SpacesIn(s, i + 2, h.start))
      && (ph.Opened? ==> s[i] == '{' && SpacesIn(s, i + 1, h.start))
      && (ph.Lead? ==> SpacesIn(s, i, h.start))
    decreases |s| - i
  {
    ScanBounds(s, i, ph);
    var m := Advance(ph, i, KindOf(s[i]));
    if m.Go? {
      AdvanceOk(s, i, ph);
      ScanBounds(s, i + 1, m.ph);
      ScanSound(s, i + 1, m.ph);
    }
  }

  /** A match at `i` is `{{`, whitespace, a name of word characters,
      whitespace and `}}`, and ends at `next`. */
  lemma MatchSound(s: string, i: nat)
    requires i <= |s| && MatchAt(s, i).Some?
    ensures var h := MatchAt(s, i).value;
      && s[i] == '{' && s[i + 1] == '{' && SpacesIn(s, i + 2, h.start)
      && WordsIn(s, h.start, h.end)
      && h.end + 2 <= h.next && SpacesIn(s, h.end, h.next - 2) && s[h.next - 2] == '}' && s[h.next - 1] == '}'
  {
    ScanSound(s, i, Begin);
  }

  /** Every name found is a non-empty run of `[a-zA-Z0-9_]`. */
  lemma {:induction false} FoundWords(s: string, i: nat)
    requires i <= |s|
    ensures forall k :: 0 <= k < |FindFrom(s, i)| ==> IsWord(FindFrom(s, i)[k])
    decreases |s| - i
  {
    if i < |s| {
      match MatchAt(s, i)
      case Some(h) =>
        MatchSound(s, i);
        var name := s[h.start..h.end];
        assert forall k :: 0 <= k < |name| ==> name[k] == s[h.start + k];
        assert FindFrom(s, i) == [name] + FindFrom(s, h.next);
        FoundWords(s, h.next);
      case None =>
        assert FindFrom(s, i) == FindFrom(s, i + 1);
        FoundWords(s, i + 1);
    }
  }

  /** A phase with its positions moved `d` characters on. */
  function ShiftPhase(ph: Phase, d: nat): Phase {
    match ph
    case Name(st) => Name(st + d)
    case Trail(st, en) => Trail(st + d, en + d)
    case Shut(st, en) => Shut(st + d, en + d)
    case _ => ph
  }

  /** A match with its positions moved `d` characters on. */
  function ShiftHit(m: Option<Hit>, d: nat): Option<Hit> {
    match m
    case None => None
    case Some(h) => Some(Hit(h.start + d, h.end + d, h.next + d))
  }

  /** A move with its positions moved `d` characters on. */
  function ShiftMove(m: Move, d: nat): Move {
    match m
    case Go(ph) => Go(ShiftPhase(ph, d))
    case Done(h) => Done(Hit(h.start + d, h.end + d, h.next + d))
    case Fail => Fail
  }

  /** A character read further on moves a shifted phase the same way. */
  lemma AdvanceShift(ph: Phase, i: nat, c: Kind, d: nat)
    requires Ordered(i, ph)
    ensures Ordered(i + d, ShiftPhase(ph, d))
    ensures Advance(ShiftPhase(ph, d), i + d, c) == ShiftMove(Advance(ph, i, c), d)
  {
  }

  /** Text in front does not change what a scan of the rest finds, only
      where. */
  lemma {:induction false} ScanShift(p: string, t: string, k: nat, ph: Phase)
    requires k <= |t| && Ordered(k, ph)
    ensures Ordered(|p| + k, ShiftPhase(ph, |p|))
    ensures Scan(p + t, |p| + k, ShiftPhase(ph, |p|)) == ShiftHit(Scan(t, k, ph), |p|)
    decreases |t| - k
  {
    var s := p + t;
    var d := |p|;
    if k < |t| {
      assert s[d + k] == t[k];
      AdvanceShift(ph, k, KindOf(t[k]), d);
      var m := Advance(ph, k, KindOf(t[k]));
      if m.Go? {
        ScanShift(p, t, k + 1, m.ph);
      }
    } else {
      AdvanceShift(ph, k, Other, d);
    }
  }

  /** Text in front does not change the names found in the rest. */
  lemma {:induction false} FindShift(p: string, t: string, k: nat)
    requires k <= |t|
    ensures FindFrom(p + t, |p| + k) == FindFrom(t, k)
    decreases |t| - k
  {
    if k < |t| {
      match MatchAt(t, k)
      case Some(h) =>
        FindShift(p, t, h.next);
        FindShiftHit(p, t, k, h);
      case None =>
        FindShift(p, t, k + 1);
        FindShiftMiss(p, t, k);
    }
  }

  /** `FindShift` at a match, given it for what follows the match. */
  lemma FindShiftHit(p: string, t: string, k: nat, h: Hit)
    requires k < |t| && MatchAt(t, k) == Some(h)
    requires FindFrom(p + t, |p| + h.next) == FindFrom(t, h.next)
    ensures FindFrom(p + t, |p| + k) == FindFrom(t, k)
  {
    var s := p + t;
    var d := |p|;
    MatchShift(p, t, k);
    var sh := Hit(h.start + d, h.end + d, h.next + d);
    assert FindFrom(s, d + k) == FindNext(s, d + k, Some(sh));
    SliceShift(p, t, h.start, h.end);
    assert FindFrom(t, k) == FindNext(t, k, Some(h));
  }

  /** `FindShift` where no match starts, given it from the next
      character. */
  lemma FindShiftMiss(p: string, t: string, k: nat)
    requires k < |t| && MatchAt(t, k) == None
    requires FindFrom(p + t, |p| + k + 1) == FindFrom(t, k + 1)
    ensures FindFrom(p + t, |p| + k) == FindFrom(t, k)
  {
    MatchShift(p, t, k);
    assert FindFrom(p + t, |p| + k) == FindNext(p + t, |p| + k, None);
  }

  /** The match at a shifted position is the shifted match. */
  lemma MatchShift(p: string, t: string, k: nat)
    requires k < |t|
    ensures MatchAt(p + t, |p| + k) == ShiftHit(MatchAt(t, k), |p|)
  {
    ScanShift(p, t, k, Begin);
  }

  lemma SliceShift(p: string, t: string, i: nat, j: nat)
    requires i <= j <= |t|
    ensures (p + t)[|p| + i..|p| + j] == t[i..j]
  {
  }

  /** No match starts at a character other than `{`. */
  lemma {:induction false} PlainSkip(s: string, i: nat, j: nat)
    requires i <= j <= |s|
    requires forall k :: i <= k < j ==> s[k] != '{'
    ensures FindFrom(s, i) == FindFrom(s, j)
    decreases j - i
  {
    if i < j {
      assert MatchAt(s, i) == None;
      PlainSkip(s, i + 1, j);
    }
  }

  /** Text without `{` holds no placeholder. */
  lemma PlainNone(t: string)
    requires '{' !in t
    ensures FindAll(t) == []
  {
    PlainSkip(t, 0, |t|);
  }

  /** Text without `{` in front adds no names. */
  lemma PlainBefore(p: string, t: string)
    requires '{' !in p
    ensures FindAll(p + t) == FindAll(t)
  {
    PlainSkip(p + t, 0, |p|);
    FindShift(p, t, 0);
  }

  /** Whitespace does not change the leading-whitespace phase. */
  lemma {:induction false} LeadSkip(s: string, i: nat, j: nat)
    requires i <= j <= |s| && SpacesIn(s, i, j)
    ensures Scan(s, i, Lead) == Scan(s, j, Lead)
    decreases j - i
  {
    if i < j {
      LeadSkip(s, i + 1, j);
    }
  }

  /** Word characters extend the name. */
  lemma {:induction false} NameSkip(s: string, st: nat, i: nat, j: nat)
    requires st < i <= j <= |s| && WordsIn(s, i, j)
    ensures Scan(s, i, Name(st)) == Scan(s, j, Name(st))
    decreases j - i
  {
    if i < j {
      NameSkip(s, st, i + 1, j);
    }
  }

  /** Whitespace does not change the trailing-whitespace phase. */
  lemma {:induction false} TrailSkip(s: string, st: nat, en: nat, i: nat, j: nat)
    requires st < en < i <= j <= |s| && SpacesIn(s, i, j)
    ensures Scan(s, i, Trail(st, en)) == Scan(s, j, Trail(st, en))
    decreases j - i
  {
    if i < j {
      TrailSkip(s, st, en, i + 1, j);
    }
  }

  /** `{{`, whitespace, the name, whitespace, `}}`. */
  function Tok(w1: string, name: string, w2: string): (t: string)
    ensures |t| == |w1| + |name| + |w2| + 4
  {
    "{{" + w1 + name + w2 + "}}"
  }

  /** Where the pieces of a placeholder lie in it. */
  lemma TokLayout(w1: string, name: string, w2: string, rest: string)
    ensures var s := Tok(w1, name, w2) + rest;
      var a := 2 + |w1|;
      var b := a + |name|;
      var e := b + |w2|;
      && s[0] == '{' && s[1] == '{'
      && (forall k :: 2 <= k < a ==> s[k] == w1[k - 2])
      && (forall k :: a <= k < b ==> s[k] == name[k - a])
      && (forall k :: b <= k < e ==> s[k] == w2[k - b])
      && s[e] == '}' && s[e + 1] == '}'
      && s[a..b] == name
  {
    var s := Tok(w1, name, w2) + rest;
    var a := 2 + |w1|;
    var b := a + |name|;
    assert s[a..b] == name;
  }

  /** `{{` and whitespace lead to the name. */
  lemma ScanToName(s: string, a: nat, b: nat)
    requires 2 <= a < b <= |s| && s[0] == '{' && s[1] == '{'
    requires SpacesIn(s, 2, a) && WordsIn(s, a, b)
    ensures Scan(s, 0, Begin) == Scan(s, b, Name(a))
  {
    assert Scan(s, 0, Begin) == Scan(s, 2, Lead);
    LeadSkip(s, 2, a);
    assert Scan(s, a, Lead) == Scan(s, a + 1, Name(a));
    NameSkip(s, a, a + 1, b);
  }

  /** Whitespace and `}}` after the name complete the match. */
  lemma ScanToEnd(s: string, a: nat, b: nat, e: nat)
    requires a < b <= e && e + 2 <= |s| && SpacesIn(s, b, e) && s[e] == '}' && s[e + 1] == '}'
    ensures Scan(s, b, Name(a)) == Some(Hit(a, b, e + 2))
  {
    if b == e {
      assert Scan(s, b, Name(a)) == Scan(s, b + 1, Shut(a, b));
    } else {
      assert Scan(s, b, Name(a)) == Scan(s, b + 1, Trail(a, b));
      TrailSkip(s, a, b, b + 1, e);
      assert Scan(s, e, Trail(a, b)) == Scan(s, e + 1, Shut(a, b));
    }
  }

  /** Every placeholder the pattern describes is matched, with the name
      as its group, whatever follows it. */
  lemma TokenMatch(w1: string, name: string, w2: string, rest: string)
    requires IsWord(name) && Blank(w1) && Blank(w2)
    ensures MatchAt(Tok(w1, name, w2) + rest, 0)
      == Some(Hit(2 + |w1|, 2 + |w1| + |name|, |Tok(w1, name, w2)|))
  {
    var s := Tok(w1, name, w2) + rest;
    var a := 2 + |w1|;
    var b := a + |name|;
    var e := b + |w2|;
    TokLayout(w1, name, w2, rest);
    ScanToName(s, a, b);
    ScanToEnd(s, a, b, e);
  }

  /** A placeholder in front contributes its name first. */
  lemma TokenFound(w1: string, name: string, w2: string, rest: string)
    requires IsWord(name) && Blank(w1) && Blank(w2)
    ensures FindAll(Tok(w1, name, w2) + rest) == [name] + FindAll(rest)
  {
    var t := Tok(w1, name, w2);
    var s := t + rest;
    var h := Hit(2 + |w1|, 2 + |w1| + |name|, |t|);
    TokenMatch(w1, name, w2, rest);
    TokLayout(w1, name, w2, rest);
    assert FindAll(s) == FindNext(s, 0, Some(h));
    FindShift(t, rest, 0);
    assert |t| + 0 == |t|;
  }

  // -------------------------------------------------------------------------
  // sorted(names)
  // -------------------------------------------------------------------------

  /** Python's `<` on strings: code point by code point, a proper prefix
      first. */
  predicate Less(a: string, b: string)
    decreases |a|
  {
    if a == [] then b != []
    else if b == [] then false
    else if a[0] != b[0] then a[0] < b[0]
    else Less(a[1..], b[1..])
  }

  lemma {:induction false} LessIrreflexive(a: string)
    ensures !Less(a, a)
    decreases |a|
  {
    if a != [] {
      LessIrreflexive(a[1..]);
    }
  }

  lemma {:induction false} LessTransitive(a: string, b: string, c: string)
    requires Less(a, b) && Less(b, c)
    ensures Less(a, c)
    decreases |a|
  {
    if a != [] && b != [] && c != [] && a[0] == b[0] && b[0] == c[0] {
      LessTransitive(a[1..], b[1..], c[1..]);
    }
  }

  lemma {:induction false} LessTotal(a: string, b: string)
    requires a != b
    ensures Less(a, b) || Less(b, a)
    decreases |a|
  {
    if a != [] && b != [] && a[0] == b[0] {
      assert a == [a[0]] + a[1..] && b == [b[0]] + b[1..];
      LessTotal(a[1..], b[1..]);
    }
  }

  /** Strictly ascending, hence without duplicates. */
  predicate Sorted(xs: seq<string>) {
    forall i, j :: 0 <= i < j < |xs| ==> Less(xs[i], xs[j])
  }

  /** `x` inserted into an ascending list in its place. */
  function Insert(x: string, xs: seq<string>): (r: seq<string>)
    requires Sorted(xs) && x !in xs
    ensures Sorted(r)
    ensures forall y :: y in r <==> y in xs || y == x
  {
    if xs == [] then [x]
    else if Less(x, xs[0]) then
      assert forall j :: 0 < j < |xs| ==> Less(x, xs[j]) by {
        forall j | 0 < j < |xs| ensures Less(x, xs[j]) {
          LessTransitive(x, xs[0], xs[j]);
        }
      }
      [x] + xs
    else
      LessTotal(x, xs[0]);
      var t := Insert(x, xs[1..]);
      assert forall y :: y in t ==> Less(xs[0], y) by {
        forall y | y in t ensures Less(xs[0], y) {
          if y != x {
            var j :| 0 <= j < |xs[1..]| && xs[1..][j] == y;
            assert xs[j + 1] == y;
          }
        }
      }
      [xs[0]] + t
  }

  /** Two ascending lists with the same elements are the same list. */
  lemma {:induction false} SortedUnique(a: seq<string>, b: seq<string>)
    requires Sorted(a) && Sorted(b)
    requires forall x :: x in a <==> x in b
    ensures a == b
    decreases |a|
  {
    if a != [] {
      assert a[0] in a;
    }
    if b != [] {
      assert b[0] in b;
    }
    if a != [] && b != [] {
      if a[0] != b[0] {
        assert a[0] in a && b[0] in b;
        var k :| 0 <= k < |b| && b[k] == a[0];
        var m :| 0 <= m < |a| && a[m] == b[0];
        assert Less(b[0], a[0]) by { assert k > 0; }
        assert Less(a[0], b[0]) by { assert m > 0; }
        LessTransitive(a[0], b[0], a[0]);
        LessIrreflexive(a[0]);
      }
      forall x ensures x in a[1..] <==> x in b[1..] {
        if x in a[1..] {
          var i :| 0 <= i < |a[1..]| && a[1..][i] == x;
          assert Less(a[0], a[i + 1]);
          LessIrreflexive(x);
          assert x in b && x != b[0];
          var j :| 0 <= j < |b| && b[j] == x;
        }
        if x in b[1..] {
          var j :| 0 <= j < |b[1..]| && b[1..][j] == x;
          assert Less(b[0], b[j + 1]);
          LessIrreflexive(x);
          assert x in a && x != a[0];
          var i :| 0 <= i < |a| && a[i] == x;
        }
      }
      SortedUnique(a[1..], b[1..]);
      assert a == [a[0]] + a[1..] && b == [b[0]] + b[1..];
    }
  }

  /** `sorted(names)` for a set of strings. */
  method SortedNames(names: set<string>) returns (r: seq<string>)
    ensures Sorted(r)
    ensures forall x :: x in r <==> x in names
  {
    var rest := names;
    r := [];
    while rest != {}
      invariant rest <= names
      invariant Sorted(r)
      invariant forall x :: x in r <==> x in names && x !in rest
      decreases |rest|
    {
      var x :| x in rest;
      r := Insert(x, r);
      rest := rest - {x};
    }
  }

  // -------------------------------------------------------------------------
  // extract_placeholders
  // -------------------------------------------------------------------------

  /** The names the archive members ending in `.xml` hold once their tags
      are stripped. */
  function XmlNames(members: seq<(string, string)>): set<string> {
    if members == [] then {}
    else
      var (name, xml) := members[|members| - 1];
      XmlNames(members[..|members| - 1])
        + (if EndsWith(name, ".xml") then set n | n in FindAll(StripXml(xml)) else {})
  }

  /** The set `extract_placeholders` collects: from the stripped `.xml`
      members for .docx and .pptx, from the text itself otherwise. */
  function Placeholders(ext: string, text: string, members: seq<(string, string)>): set<string> {
    if ext == ".docx" || ext == ".pptx" then XmlNames(members)
    else set n | n in FindAll(text)
  }

  /** `extract_placeholders(file_bytes, ext)`, with the decoded text and the
      decoded archive members given. */
  method ExtractPlaceholders(ext: string, text: string, members: seq<(string, string)>) returns (r: seq<string>)
    ensures Sorted(r)
    ensures forall x :: x in r <==> x in Placeholders(ext, text, members)
  {
    var names: set<string> := {};
    if ext == ".docx" || ext == ".pptx" {
      for i := 0 to |members|
        invariant names == XmlNames(members[..i])
      {
        var (member, xml) := members[i];
        assert members[..i + 1][..i] == members[..i];
        if EndsWith(member, ".xml") {
          var plain := StripXml(xml);
          names := names + set n | n in FindAll(plain);
        }
      }
      assert members[..|members|] == members;
    } else {
      names := names + set n | n in FindAll(text);
    }
    r := SortedNames(names);
  }

  /** Every name found is a non-empty run of `[a-zA-Z0-9_]`. */
  lemma NamesAreWords(ext: string, text: string, members: seq<(string, string)>)
    ensures forall n :: n in Placeholders(ext, text, members) ==> IsWord(n)
  {
    if ext == ".docx" || ext == ".pptx" {
      XmlNamesAreWords(members);
    } else {
      FoundWords(text, 0);
    }
  }

  lemma {:induction false} XmlNamesAreWords(members: seq<(string, string)>)
    ensures forall n :: n in XmlNames(members) ==> IsWord(n)
    decreases |members|
  {
    if members != [] {
      XmlNamesAreWords(members[..|members| - 1]);
      FoundWords(StripXml(members[|members| - 1].1), 0);
    }
  }

  /** Text of all whitespace. */
  predicate Blank(w: string) {
    forall k :: 0 <= k < |w| ==> IsSpace(w[k])
  }

  /** The plain-text sample's shape: "client", "amount" and "client" again,
      between pieces of plain text. */
  function Sample(p1: string, p2: string, p3: string, p4: string): string {
    p1 + (Tok("", "client", "") + (p2 + (Tok("", "amount", "") + (p3 + (Tok("", "client", "") + p4)))))
  }

  /** The names of the sample in order of appearance. */
  lemma SampleFindAll(p1: string, p2: string, p3: string, p4: string)
    requires '{' !in p1 && '{' !in p2 && '{' !in p3 && '{' !in p4
    ensures FindAll(Sample(p1, p2, p3, p4)) == ["client", "amount", "client"]
  {
    var s3 := Tok("", "client", "") + p4;
    var s2 := Tok("", "amount", "") + (p3 + s3);
    var s1 := Tok("", "client", "") + (p2 + s2);
    assert IsWord("client") && IsWord("amount") && Blank("");
    PlainNone(p4);
    TokenFound("", "client", "", p4);
    PlainBefore(p3, s3);
    TokenFound("", "amount", "", p3 + s3);
    PlainBefore(p2, s2);
    TokenFound("", "client", "", p2 + s2);
    PlainBefore(p1, s1);
  }

  /** The plain-text sample: "client" twice and "amount" once give
      `["amount", "client"]`. */
  lemma SampleNames(p1: string, p2: string, p3: string, p4: string, r: seq<string>)
    requires '{' !in p1 && '{' !in p2 && '{' !in p3 && '{' !in p4
    requires Sorted(r)
    requires forall x :: x in r <==> x in Placeholders(".txt", Sample(p1, p2, p3, p4), [])
    ensures r == ["amount", "client"]
  {
    SampleFindAll(p1, p2, p3, p4);
    assert Less("amount", "client");
    SortedUnique(r, ["amount", "client"]);
  }
}
