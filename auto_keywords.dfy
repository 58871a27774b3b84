/// backend/auto_keywords.py: `suggest_phrases(title, min_count)`, the
/// trigger phrases suggested for a workflow title. The phrases come from
/// the lower-cased, stripped title and its words; the GPT fallback is a
/// parameter holding the phrases its answer adds, or `None` when the call
/// or the decoding raised (every exception there is swallowed).
module AutoKeywords {
  import opened Py

  /** `re.findall(r"\w+", s)` from index `i`: the maximal runs of word
      characters, in order. */
  function WordsFrom(s: string, i: nat): seq<string>
    requires i <= |s|
    decreases |s| - i
  {
    if i == |s| then []
    else if IsWordChar(s[i]) then
      var n := WordRunAt(s, i);
      [s[i..i + n]] + WordsFrom(s, i + n)
    else WordsFrom(s, i + 1)
  }

  function Words(s: string): seq<string> {
    WordsFrom(s, 0)
  }

  /** `title.lower().strip()` */
  function Normal(title: string): string {
    Strip(Lower(title))
  }

  /** The phrases the heuristics add for a title with words. */
  function Heuristic(t: string, words: seq<string>): set<string>
    requires words != []
  {
    if |words| == 1 then {t, "create " + words[0], "generate " + words[0]}
    else {t, words[|words| - 2] + " " + words[|words| - 1], words[0] + " " + words[|words| - 1]}
  }

  /** The set of phrases `suggest_phrases` ends with. */
  function Phrases(title: string, minCount: int, fallback: Option<seq<string>>): set<string> {
    var t := Normal(title);
    var words := Words(t);
    if words == [] then {}
    else
      var base := Heuristic(t, words);
      if |base| < minCount && fallback.Some? then base + (set x | x in fallback.value) else base
  }

  predicate NoDuplicates(xs: seq<string>) {
    forall i, j :: 0 <= i < j < |xs| ==> xs[i] != xs[j]
  }

  /** `suggest_phrases(title, min_count)`: the phrase set is built by `add`
      and `update`, then listed in some order and cut at
      `max(min_count, len(phrases))`, which keeps every phrase. */
  method SuggestPhrases(title: string, minCount: int, fallback: Option<seq<string>>) returns (r: seq<string>)
    ensures NoDuplicates(r)
    ensures forall x :: x in r <==> x in Phrases(title, minCount, fallback)
    ensures |r| == |Phrases(title, minCount, fallback)|
  {
    var t := Lower(title);
    t := Strip(t);
    var words := Words(t);
    if words == [] {
      return [];
    }
    var phrases: set<string> := {t};
    if |words| == 1 {
      var root := words[0];
      phrases := phrases + {"create " + root, "generate " + root};
    } else {
      phrases := phrases + {words[|words| - 2] + " " + words[|words| - 1]};
      phrases := phrases + {words[0] + " " + words[|words| - 1]};
    }
    ghost var base := phrases;
    assert base == Heuristic(t, words);
    if |phrases| < minCount && fallback.Some? {
      phrases := phrases + (set x | x in fallback.value);
    }
    PhrasesUnfold(title, minCount, fallback, t, words, base);
    var listed := ListSet(phrases);
    var keep := if minCount > |listed| then minCount else |listed|;
    r := listed[..if keep < |listed| then keep else |listed|];
  }

  lemma PhrasesUnfold(title: string, minCount: int, fallback: Option<seq<string>>,
                      t: string, words: seq<string>, base: set<string>)
    requires t == Normal(title) && words == Words(t) && words != [] && base == Heuristic(t, words)
    ensures Phrases(title, minCount, fallback) ==
      if |base| < minCount && fallback.Some? then base + (set x | x in fallback.value) else base
  {
  }

  /** `list(phrases)`: every element once, in some order. */
  method ListSet(phrases: set<string>) returns (listed: seq<string>)
    ensures NoDuplicates(listed)
    ensures forall x :: x in listed <==> x in phrases
    ensures |listed| == |phrases|
  {
    listed := [];
    var left := phrases;
    while left != {}
      invariant left <= phrases
      invariant forall x :: x in listed ==> x in phrases && x !in left
      invariant forall x :: x in phrases ==> x in listed || x in left
      invariant NoDuplicates(listed)
      invariant |listed| + |left| == |phrases|
      decreases |left|
    {
      var x :| x in left;
      listed := listed + [x];
      left := left - {x};
    }
  }

  // -------------------------------------------------------------------------
  // Words
  // -------------------------------------------------------------------------

  /** The runs found are words, and there are none exactly when no word
      character is left. */
  lemma {:induction false} WordsFromFacts(s: string, i: nat)
    requires i <= |s|
    ensures WordsFrom(s, i) == [] <==> forall k :: i <= k < |s| ==> !IsWordChar(s[k])
    ensures forall j :: 0 <= j < |WordsFrom(s, i)| ==> IsWord(WordsFrom(s, i)[j])
    decreases |s| - i
  {
    if i < |s| {
      if IsWordChar(s[i]) {
        var n := WordRunAt(s, i);
        WordsFromFacts(s, i + n);
        var ws := WordsFrom(s, i);
        assert ws == [s[i..i + n]] + WordsFrom(s, i + n);
        forall j | 0 <= j < |ws| ensures IsWord(ws[j]) {
          if j == 0 {
            forall k | 0 <= k < n ensures IsWordChar(ws[0][k]) {
              assert ws[0][k] == s[i + k];
            }
          } else {
            assert ws[j] == WordsFrom(s, i + n)[j - 1];
          }
        }
      } else {
        WordsFromFacts(s, i + 1);
      }
    }
  }

  /** A run of word characters ending at `j` has length `j - i`. */
  lemma {:induction false} RunLength(s: string, i: nat, j: nat)
    requires i <= j <= |s|
    requires forall k :: i <= k < j ==> IsWordChar(s[k])
    requires j == |s| || !IsWordChar(s[j])
    ensures WordRunAt(s, i) == j - i
    decreases j - i
  {
    if i < j {
      RunLength(s, i + 1, j);
    }
  }

  lemma LowerWord(w: string)
    requires IsWord(w)
    ensures IsWord(Lower(w))
  {
    forall k | 0 <= k < |w| ensures IsWordChar(Lower(w)[k]) {
      assert Lower(w)[k] == ToLowerChar(w[k]);
    }
  }

  /** The words of two words joined by a space are those two words. */
  lemma TwoWords(a: string, b: string)
    requires IsWord(a) && IsWord(b)
    ensures Words(a + " " + b) == [a, b]
  {
    var t := a + " " + b;
    forall k | 0 <= k < |a| ensures IsWordChar(t[k]) {
      assert t[k] == a[k];
    }
    forall k | |a| + 1 <= k < |t| ensures IsWordChar(t[k]) {
      assert t[k] == b[k - |a| - 1];
    }
    RunLength(t, 0, |a|);
    RunLength(t, |a| + 1, |t|);
    assert t[0..|a|] == a;
    assert t[|a| + 1..|t|] == b;
    assert WordsFrom(t, |a|) == WordsFrom(t, |a| + 1);
    assert WordsFrom(t, |a| + 1) == [b] + WordsFrom(t, |t|);
  }

  // -------------------------------------------------------------------------
  // What the phrases are
  // -------------------------------------------------------------------------

  /** A title with no word character gives no phrase, and any other title
      gives at least one. */
  lemma NoWordsNoPhrases(title: string, minCount: int, fallback: Option<seq<string>>)
    ensures Phrases(title, minCount, fallback) == {} <==>
      forall k :: 0 <= k < |Normal(title)| ==> !IsWordChar(Normal(title)[k])
  {
    var t := Normal(title);
    WordsFromFacts(t, 0);
    if Words(t) != [] {
      var base := Heuristic(t, Words(t));
      assert t in base;
      PhrasesUnfold(title, minCount, fallback, t, Words(t), base);
    }
  }

  /** The normalised title is always among the phrases of a title with
      words, and so are the phrases each heuristic adds. */
  lemma HeuristicPhrases(title: string, minCount: int, fallback: Option<seq<string>>)
    requires Words(Normal(title)) != []
    ensures var t := Normal(title);
      var w := Words(t);
      var p := Phrases(title, minCount, fallback);
      && t in p
      && (|w| == 1 ==> "create " + w[0] in p && "generate " + w[0] in p)
      && (|w| >= 2 ==> w[|w| - 2] + " " + w[|w| - 1] in p && w[0] + " " + w[|w| - 1] in p)
  {
    var t := Normal(title);
    var w := Words(t);
    var base := Heuristic(t, w);
    PhrasesUnfold(title, minCount, fallback, t, w, base);
    assert base <= Phrases(title, minCount, fallback);
  }

  /** Every phrase comes from a heuristic or from the fallback. */
  lemma PhrasesSources(title: string, minCount: int, fallback: Option<seq<string>>, x: string)
    requires x in Phrases(title, minCount, fallback)
    ensures Words(Normal(title)) != []
    ensures x in Heuristic(Normal(title), Words(Normal(title))) || (fallback.Some? && x in fallback.value)
  {
    var t := Normal(title);
    var w := Words(t);
    assert w != [];
    PhrasesUnfold(title, minCount, fallback, t, w, Heuristic(t, w));
  }

  /** The heuristics give at most three phrases, and the fallback is asked
      only when they give fewer than `min_count`. */
  lemma FallbackOnlyWhenShort(title: string, minCount: int, extra: seq<string>)
    ensures |Phrases(title, minCount, None)| <= 3
    ensures |Phrases(title, minCount, None)| >= minCount ==>
      Phrases(title, minCount, Some(extra)) == Phrases(title, minCount, None)
  {
    var t := Normal(title);
    var w := Words(t);
    if w != [] {
      HeuristicSize(t, w);
    }
  }

  lemma HeuristicSize(t: string, words: seq<string>)
    requires words != []
    ensures |Heuristic(t, words)| <= 3
  {
    if |words| == 1 {
      AtMostThree(t, "create " + words[0], "generate " + words[0]);
    } else {
      AtMostThree(t, words[|words| - 2] + " " + words[|words| - 1], words[0] + " " + words[|words| - 1]);
    }
  }

  lemma AtMostThree(x: string, y: string, z: string)
    ensures |{x, y, z}| <= 3
  {
    assert {x, y, z} == {x} + {y} + {z};
  }

  /** A title of two words gives only itself, lower-cased: the two joined
      phrases repeat it. With the default `min_count` of 3 the list is then
      whatever the fallback adds to that one phrase. */
  lemma TwoWordTitle(a: string, b: string, minCount: int)
    requires IsWord(a) && IsWord(b)
    ensures Phrases(a + " " + b, minCount, None) == {Lower(a) + " " + Lower(b)}
  {
    LowerWord(a);
    LowerWord(b);
    NormalTwoWords(a, b);
    TwoWords(Lower(a), Lower(b));
  }

  lemma NormalTwoWords(a: string, b: string)
    requires IsWord(a) && IsWord(b)
    ensures Normal(a + " " + b) == Lower(a) + " " + Lower(b)
  {
    var la, lb := Lower(a), Lower(b);
    var t := la + " " + lb;
    LowerJoin(a, b);
    LowerWord(a);
    LowerWord(b);
    assert t[0] == la[0] && t[|t| - 1] == lb[|lb| - 1];
    StripKeeps(t);
  }

  lemma LowerJoin(a: string, b: string)
    ensures Lower(a + " " + b) == Lower(a) + " " + Lower(b)
  {
    var t := a + " " + b;
    var u := Lower(a) + " " + Lower(b);
    forall k | 0 <= k < |t| ensures Lower(t)[k] == u[k] {
      if k < |a| {
        assert t[k] == a[k] && u[k] == Lower(a)[k];
      } else if k == |a| {
        assert t[k] == ' ' && u[k] == ' ';
      } else {
        assert t[k] == b[k - |a| - 1] && u[k] == Lower(b)[k - |a| - 1];
      }
    }
  }

  /** A text with no whitespace at either end is its own `strip()`. */
  lemma StripKeeps(t: string)
    requires t != [] && !IsSpace(t[0]) && !IsSpace(t[|t| - 1])
    ensures Strip(t) == t
  {
    assert LStrip(t) == t;
  }
}
