/// Python-level vocabulary shared by every module: optional values, the
/// exceptions the modelled code raises, results that carry either a value or
/// an exception, and the `str` methods the code calls (ASCII semantics).
module Py {

  datatype Option<+T> = None | Some(value: T)

  /** The exception classes raised by the modelled code, with their message. */
  datatype Error =
    | ValueError(msg: string)
    | KeyError(key: string)
    | IndexError(msg: string)
    | TypeError(msg: string)
    | AttributeError(name: string)
    | RuntimeError(msg: string)
    | ImportError(msg: string)
    | ModuleNotFoundError(name: string)
    | StopIteration
    | ValidationError(fields: seq<string>)   // pydantic's, a ValueError listing the failed fields

  /** Either a returned value or a raised exception; usable with `:-`. */
  datatype Result<+T> = Ok(value: T) | Err(error: Error) {
    predicate IsFailure() { Err? }
    function PropagateFailure<U>(): Result<U>
      requires Err?
    {
      Err(error)
    }
    function Extract(): T
      requires Ok?
    {
      value
    }
  }

  // ---------------------------------------------------------------------
  // Characters
  // ---------------------------------------------------------------------

  /** `c.isspace()` restricted to ASCII: \t \n \v \f \r, the separators 0x1c-0x1f and ' '. */
  predicate IsSpace(c: char) {
    (9 <= c as int <= 13) || (28 <= c as int <= 31) || c == ' '
  }

  predicate IsUpper(c: char) { 'A' <= c <= 'Z' }
  predicate IsLower(c: char) { 'a' <= c <= 'z' }
  predicate IsAlpha(c: char) { IsUpper(c) || IsLower(c) }
  predicate IsDigit(c: char) { '0' <= c <= '9' }

  /** The regular-expression class `[a-zA-Z0-9_]`, also `\w` on ASCII text. */
  predicate IsWordChar(c: char) { IsAlpha(c) || IsDigit(c) || c == '_' }

  function ToLowerChar(c: char): (r: char)
    ensures !IsUpper(r)
    ensures IsAlpha(c) <==> IsAlpha(r)
  {
    if IsUpper(c) then (c as int + 32) as char else c
  }

  function ToUpperChar(c: char): (r: char)
    ensures !IsLower(r)
    ensures IsAlpha(c) <==> IsAlpha(r)
  {
    if IsLower(c) then (c as int - 32) as char else c
  }

  // ---------------------------------------------------------------------
  // str methods
  // ---------------------------------------------------------------------

  /** `s.lower()` */
  function Lower(s: string): (r: string)
    ensures |r| == |s|
    ensures forall i :: 0 <= i < |s| ==> r[i] == ToLowerChar(s[i])
  {
    if s == [] then [] else [ToLowerChar(s[0])] + Lower(s[1..])
  }

  /** `s.lstrip()` */
  function LStrip(s: string): (r: string)
    ensures |r| <= |s| && r == s[|s| - |r|..]
    ensures r == [] || !IsSpace(r[0])
    ensures forall i :: 0 <= i < |s| - |r| ==> IsSpace(s[i])
  {
    if s != [] && IsSpace(s[0]) then LStrip(s[1..]) else s
  }

  /** `s.rstrip()` */
  function RStrip(s: string): (r: string)
    ensures |r| <= |s| && r == s[..|r|]
    ensures r == [] || !IsSpace(r[|r| - 1])
    ensures forall i :: |r| <= i < |s| ==> IsSpace(s[i])
  {
    if s != [] && IsSpace(s[|s| - 1]) then RStrip(s[..|s| - 1]) else s
  }

  /** `s.strip()` */
  function Strip(s: string): string {
    RStrip(LStrip(s))
  }

  /** `s.strip() == ""` exactly when every character of `s` is whitespace. */
  lemma StripEmptyIffBlank(s: string)
    ensures Strip(s) == [] <==> forall i :: 0 <= i < |s| ==> IsSpace(s[i])
  {
    var l := LStrip(s);
    if Strip(s) == [] {
      assert l == [];
    } else {
      var r := Strip(s);
      var k := |s| - |l|;
      assert s[k] == l[0];
    }
  }

  /** `s.title()` on ASCII: a letter is upper-cased when the character before
      it is not a letter, and lower-cased otherwise. */
  function Title(s: string): string {
    TitleAfter(s, false)
  }

  function TitleAfter(s: string, prevCased: bool): (r: string)
    ensures |r| == |s|
  {
    if s == [] then []
    else
      var c := if prevCased then ToLowerChar(s[0]) else ToUpperChar(s[0]);
      [c] + TitleAfter(s[1..], IsAlpha(s[0]))
  }

  /** `s.startswith(p)` */
  predicate StartsWith(s: string, p: string) {
    |p| <= |s| && s[..|p|] == p
  }

  /** `s.endswith(p)` */
  predicate EndsWith(s: string, p: string) {
    |p| <= |s| && s[|s| - |p|..] == p
  }

  /** `t in s` for strings: `t` occurs as a contiguous piece of `s`. */
  predicate Contains(s: string, t: string) {
    exists i | 0 <= i <= |s| :: OccursAt(s, t, i)
  }

  /** `t` occurs in `s` starting at index `i`. */
  predicate OccursAt(s: string, t: string, i: int) {
    0 <= i <= |s| - |t| && s[i..i + |t|] == t
  }

  /** `s.replace(old, new)` for a non-empty `old`: every non-overlapping
      occurrence, scanning left to right. */
  function Replace(s: string, pat: string, rep: string): string
    requires pat != []
    decreases |s|
  {
    if |s| < |pat| then s
    else if s[..|pat|] == pat then rep + Replace(s[|pat|..], pat, rep)
    else [s[0]] + Replace(s[1..], pat, rep)
  }

  /** Replacing a piece that does not occur changes nothing. */
  lemma {:induction false} ReplaceAbsent(s: string, pat: string, rep: string)
    requires pat != []
    requires !Contains(s, pat)
    ensures Replace(s, pat, rep) == s
    decreases |s|
  {
    if |s| >= |pat| {
      assert s[0..|pat|] == s[..|pat|];
      assert !OccursAt(s, pat, 0);
      if Contains(s[1..], pat) {
        var t := s[1..];
        var i :| 0 <= i <= |t| && OccursAt(t, pat, i);
        assert t[i..i + |pat|] == s[i + 1..i + 1 + |pat|];
        assert OccursAt(s, pat, i + 1);
      }
      ReplaceAbsent(s[1..], pat, rep);
    }
  }

  /** Replacing a single character: the length is kept, every `pat` becomes
      `rep` and every other character stays. */
  lemma {:induction false} ReplaceChar(s: string, pat: char, rep: char)
    ensures |Replace(s, [pat], [rep])| == |s|
    ensures forall i :: 0 <= i < |s| ==>
      Replace(s, [pat], [rep])[i] == (if s[i] == pat then rep else s[i])
    decreases |s|
  {
    if s != [] {
      ReplaceChar(s[1..], pat, rep);
      assert s[..1] == [s[0]];
      var r := Replace(s, [pat], [rep]);
      var t := Replace(s[1..], [pat], [rep]);
      assert r == (if s[0] == pat then [rep] else [s[0]]) + t;
      forall i | 0 < i < |s| ensures r[i] == (if s[i] == pat then rep else s[i]) {
        assert r[i] == t[i - 1] && s[i] == s[1..][i - 1];
      }
    }
  }

  /** The label a form field gets from its name: `name.replace("_", " ").title()`. */
  function Label(name: string): string {
    Title(Replace(name, "_", " "))
  }

  /** A label has the name's length; an underscore becomes a space and every
      other character is kept up to letter case. */
  lemma LabelShape(name: string)
    ensures |Label(name)| == |name|
    ensures forall i :: 0 <= i < |name| && name[i] == '_' ==> Label(name)[i] == ' '
    ensures forall i :: 0 <= i < |name| && name[i] != '_' ==>
      ToLowerChar(Label(name)[i]) == ToLowerChar(name[i])
  {
    ReplaceChar(name, '_', ' ');
    TitleCase(Replace(name, "_", " "), false);
  }

  /** A label's letter is upper-case exactly when it starts the name or
      follows a character that is not a letter (an underscore included). */
  lemma LabelCase(name: string)
    ensures |Label(name)| == |name|
    ensures forall i :: 0 <= i < |name| && IsAlpha(name[i]) ==>
      (IsUpper(Label(name)[i]) <==> i == 0 || !IsAlpha(name[i - 1]))
  {
    var t := Replace(name, "_", " ");
    ReplaceChar(name, '_', ' ');
    TitleUpper(t, false);
    var l := TitleAfter(t, false);
    assert Label(name) == l;
    forall i | 0 <= i < |name| && IsAlpha(name[i])
      ensures IsUpper(l[i]) <==> i == 0 || !IsAlpha(name[i - 1])
    {
      assert t[i] == name[i];
      if i > 0 {
        assert t[i - 1] == (if name[i - 1] == '_' then ' ' else name[i - 1]);
      }
    }
  }

  /** `title()` upper-cases exactly the letters that start a run of letters. */
  lemma {:induction false} TitleUpper(s: string, prevCased: bool)
    ensures forall i :: 0 <= i < |s| && IsAlpha(s[i]) ==>
      (IsUpper(TitleAfter(s, prevCased)[i]) <==> if i == 0 then !prevCased else !IsAlpha(s[i - 1]))
    decreases |s|
  {
    if s != [] {
      TitleUpper(s[1..], IsAlpha(s[0]));
      var r := TitleAfter(s, prevCased);
      forall i | 0 < i < |s| && IsAlpha(s[i])
        ensures IsUpper(r[i]) <==> !IsAlpha(s[i - 1])
      {
        assert r[i] == TitleAfter(s[1..], IsAlpha(s[0]))[i - 1] && s[i] == s[1..][i - 1];
        if i > 1 {
          assert s[i - 1] == s[1..][i - 2];
        }
      }
    }
  }

  /** `title()` only changes letter case. */
  lemma {:induction false} TitleCase(s: string, prevCased: bool)
    ensures forall i :: 0 <= i < |s| ==> ToLowerChar(TitleAfter(s, prevCased)[i]) == ToLowerChar(s[i])
    decreases |s|
  {
    if s != [] {
      TitleCase(s[1..], IsAlpha(s[0]));
      var r := TitleAfter(s, prevCased);
      forall i | 0 < i < |s| ensures ToLowerChar(r[i]) == ToLowerChar(s[i]) {
        assert r[i] == TitleAfter(s[1..], IsAlpha(s[0]))[i - 1] && s[i] == s[1..][i - 1];
      }
    }
  }

  /** Index of the last occurrence of `c` in `s`, or -1. */
  function LastIndexOf(s: string, c: char): (i: int)
    ensures -1 <= i < |s|
    ensures i >= 0 ==> s[i] == c
    ensures forall j :: i < j < |s| ==> s[j] != c
  {
    if s == [] then -1
    else if s[|s| - 1] == c then |s| - 1
    else LastIndexOf(s[..|s| - 1], c)
  }

  /** Index of the first occurrence of `c` in `s`, or -1. */
  function IndexOf(s: string, c: char): (i: int)
    ensures -1 <= i < |s|
    ensures i >= 0 ==> s[i] == c
    ensures forall j :: 0 <= j < |s| && (i < 0 || j < i) ==> s[j] != c
  {
    if s == [] then -1
    else if s[0] == c then 0
    else
      var k := IndexOf(s[1..], c);
      if k < 0 then -1 else k + 1
  }

  /** `head, _, tail = s.rpartition(c)`: split at the last `c`; when there is
      none, the head is empty and the tail is all of `s`. */
  function RPartition(s: string, c: char): (r: (string, string))
    ensures LastIndexOf(s, c) < 0 ==> r == ("", s)
    ensures LastIndexOf(s, c) >= 0 ==> r.0 + [c] + r.1 == s && c !in r.1
  {
    var i := LastIndexOf(s, c);
    if i < 0 then ("", s)
    else
      assert s[..i] + [c] + s[i + 1..] == s;
      (s[..i], s[i + 1..])
  }

  /** Splitting `h + c + t` at its last `c`, when `t` has none, gives back
      `h` and `t`. */
  lemma RPartitionAt(h: string, t: string, c: char)
    requires c !in t
    ensures RPartition(h + [c] + t, c) == (h, t)
  {
    var s := h + [c] + t;
    var i := LastIndexOf(s, c);
    assert s[|h|] == c;
    assert s[..|h|] == h;
    assert s[|h| + 1..] == t;
  }

  /** `getattr(importlib.import_module(module), attr)` for a dotted path split
      at its last dot, over an explicit table of modules and their
      attributes. An empty module part is rejected as `import_module("")`
      rejects it. */
  function ImportAttr<T>(modules: map<string, map<string, T>>, path: string): (r: Result<T>)
    ensures r.Ok? <==> var (m, a) := RPartition(path, '.'); m != "" && m in modules && a in modules[m]
    ensures r.Ok? ==> var (m, a) := RPartition(path, '.'); r.value == modules[m][a]
    ensures '.' !in path ==> r == Err(ValueError("Empty module name"))
  {
    var (m, a) := RPartition(path, '.');
    if m == "" then
      Err(ValueError("Empty module name"))
    else if m !in modules then
      Err(ModuleNotFoundError(m))
    else if a !in modules[m] then
      Err(AttributeError("module '" + m + "' has no attribute '" + a + "'"))
    else
      Ok(modules[m][a])
  }

  /** `s.split(c, 1)` unpacked into two names: `None` when `c` does not
      occur (the unpacking raises), otherwise the text before the first
      `c` and the whole remainder after it. */
  function SplitOnce(s: string, c: char): (r: Option<(string, string)>)
    ensures r.None? <==> c !in s
    ensures r.Some? ==> r.value.0 + [c] + r.value.1 == s && c !in r.value.0
  {
    var i := IndexOf(s, c);
    if i < 0 then None
    else
      assert s[..i] + [c] + s[i + 1..] == s;
      Some((s[..i], s[i + 1..]))
  }

  /** Splitting `h + c + t` at its first `c`, when `h` has none, gives back
      `h` and `t` (`t` may contain further `c`s). */
  lemma SplitOnceAt(h: string, t: string, c: char)
    requires c !in h
    ensures SplitOnce(h + [c] + t, c) == Some((h, t))
  {
    var s := h + [c] + t;
    assert s[|h|] == c;
    assert forall j :: 0 <= j < |h| ==> s[j] == h[j];
    var i := IndexOf(s, c);
    assert i == |h|;
    assert s[..|h|] == h;
    assert s[|h| + 1..] == t;
  }

  /** `a` is `b` with some elements left out, the rest in the same order. */
  predicate Subsequence<T(==)>(a: seq<T>, b: seq<T>)
    decreases |b|
  {
    if a == [] then true
    else if b == [] then false
    else (a[0] == b[0] && Subsequence(a[1..], b[1..])) || Subsequence(a, b[1..])
  }

  /** Length of the longest run of whitespace in `s` from index `i`. */
  function SpaceRunAt(s: string, i: nat): (n: nat)
    requires i <= |s|
    ensures i + n <= |s|
    ensures forall k :: i <= k < i + n ==> IsSpace(s[k])
    ensures i + n < |s| ==> !IsSpace(s[i + n])
    decreases |s| - i
  {
    if i < |s| && IsSpace(s[i]) then 1 + SpaceRunAt(s, i + 1) else 0
  }

  /** Length of the longest run of word characters in `s` from index `i`. */
  function WordRunAt(s: string, i: nat): (n: nat)
    requires i <= |s|
    ensures i + n <= |s|
    ensures forall k :: i <= k < i + n ==> IsWordChar(s[k])
    ensures i + n < |s| ==> !IsWordChar(s[i + n])
    decreases |s| - i
  {
    if i < |s| && IsWordChar(s[i]) then 1 + WordRunAt(s, i + 1) else 0
  }

  /** A non-empty run of word characters. */
  predicate IsWord(w: string) {
    w != [] && forall i :: 0 <= i < |w| ==> IsWordChar(w[i])
  }

  /** An optional minus sign followed by one or more digits. */
  predicate IsNumeral(r: string) {
    var ds := if r != [] && r[0] == '-' then r[1..] else r;
    ds != [] && forall k :: 0 <= k < |ds| ==> IsDigit(ds[k])
  }

  /** The number a run of decimal digits denotes, read left to right
      (`int(s)` for a string of digits). */
  function DigitsValue(s: string): int
  {
    if s == [] then 0 else DigitsValue(s[..|s| - 1]) * 10 + (s[|s| - 1] as int - '0' as int)
  }

  /** `str(i)` for an int: its sign, then the digits of its magnitude. */
  function IntToString(i: int): (r: string)
    ensures IsNumeral(r)
    ensures r[0] == '-' <==> i < 0
    ensures i >= 0 ==> DigitsValue(r) == i
    ensures i < 0 ==> DigitsValue(r[1..]) == -i
    ensures i >= 0 && |r| > 1 ==> r[0] != '0'
    ensures i < 0 ==> |r| >= 2 && r[1] != '0'
  {
    if i < 0 then
      NatRoundTrip(-i);
      assert ("-" + NatToString(-i))[1..] == NatToString(-i);
      "-" + NatToString(-i)
    else
      NatRoundTrip(i);
      NatToString(i)
  }

  /** Reading back the digits `NatToString` writes gives the number. */
  lemma {:induction false} NatRoundTrip(n: nat)
    ensures DigitsValue(NatToString(n)) == n
    decreases n
  {
    var r := NatToString(n);
    if n >= 10 {
      NatRoundTrip(n / 10);
      assert r[..|r| - 1] == NatToString(n / 10);
    }
  }

  function NatToString(n: nat): (r: string)
    ensures r != []
    ensures forall k :: 0 <= k < |r| ==> IsDigit(r[k])
    ensures r[0] == '0' <==> n == 0
    ensures |r| == 1 <==> n < 10
    decreases n
  {
    var d := ['0' + (n % 10) as char];
    if n < 10 then d else NatToString(n / 10) + d
  }
}
