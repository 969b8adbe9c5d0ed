/** Content moderation on the server: the NG-word list and the check every
    user-supplied text goes through, plus the cost label stored with a plan. */
module Moderation {
  import opened Wrappers
  import opened Text

  /** `ng_words`: the stripped, non-blank lines of `ng_words.txt`; no words at all
      when the file is missing (`None`). */
  function LoadNgWords(lines: Option<seq<string>>): (words: set<string>)
    ensures lines.None? ==> words == {}
    ensures forall w :: w in words ==> w != [] && Strip(Python, w) == w
    ensures lines.Some? ==> forall i :: 0 <= i < |lines.value| && !IsBlank(Python, lines.value[i]) ==>
                              Strip(Python, lines.value[i]) in words
    ensures lines.Some? ==> forall w :: w in words ==>
                              exists i :: 0 <= i < |lines.value| && Strip(Python, lines.value[i]) == w
  {
    match lines
    case None => {}
    case Some(ls) =>
      WordsOfLines(ls);
      WordsOf(ls)
  }

  /** The set comprehension of the loader. */
  function WordsOf(ls: seq<string>): set<string> {
    set l | l in ls && Strip(Python, l) != [] :: Strip(Python, l)
  }

  /** The words of some lines are stripped and non-empty; every non-blank line gives
      one, and each comes from a line. */
  lemma WordsOfLines(ls: seq<string>)
    ensures forall w :: w in WordsOf(ls) ==> w != [] && Strip(Python, w) == w
    ensures forall i :: 0 <= i < |ls| && !IsBlank(Python, ls[i]) ==> Strip(Python, ls[i]) in WordsOf(ls)
    ensures forall w :: w in WordsOf(ls) ==> exists i :: 0 <= i < |ls| && Strip(Python, ls[i]) == w
  {
    var words := WordsOf(ls);
    forall w | w in words
      ensures w != [] && Strip(Python, w) == w
      ensures exists i :: 0 <= i < |ls| && Strip(Python, ls[i]) == w
    {
      var l :| l in ls && Strip(Python, l) != [] && Strip(Python, l) == w;
      StripIdempotent(Python, l);
      var i :| 0 <= i < |ls| && ls[i] == l;
    }
    forall i | 0 <= i < |ls| && !IsBlank(Python, ls[i])
      ensures Strip(Python, ls[i]) in words
    {
      BlankIffStripEmpty(Python, ls[i]);
    }
  }

  /** Whether some NG word occurs in `text`. */
  predicate HasNgWord(ngWords: set<string>, text: string) {
    exists w :: w in ngWords && Contains(text, w)
  }

  /** The loop over `ng_words` that raises on the first word found in `text`. */
  method FindNgWord(ngWords: set<string>, text: string) returns (rejected: bool)
    ensures rejected <==> HasNgWord(ngWords, text)
  {
    var rest := ngWords;
    while rest != {}
      invariant rest <= ngWords
      invariant forall w :: w in ngWords - rest ==> !Contains(text, w)
      decreases rest
    {
      var w :| w in rest;
      if Contains(text, w) {
        return true;
      }
      rest := rest - {w};
    }
    return false;
  }

  /** A word that neither starts nor ends with whitespace occurs in a text exactly
      when it occurs in the stripped text, so stripping before the check loses nothing. */
  lemma ContainsStripped(f: Flavor, s: string, w: string)
    requires w != [] && !IsSpace(f, w[0]) && !IsSpace(f, w[|w| - 1])
    ensures Contains(Strip(f, s), w) <==> Contains(s, w)
  {
    var r := Strip(f, s);
    var lo :| CutAt(f, s, r, lo);
    StrippedOccurrences(f, s, r, lo, w);
  }

  /** Both directions of `ContainsStripped` for a given cut. */
  lemma StrippedOccurrences(f: Flavor, s: string, r: string, lo: int, w: string)
    requires CutAt(f, s, r, lo)
    requires w != [] && !IsSpace(f, w[0]) && !IsSpace(f, w[|w| - 1])
    ensures Contains(r, w) <==> Contains(s, w)
  {
    if Contains(r, w) {
      assert r == s[lo..lo + |r|];
      ContainsInSlice(s, lo, lo + |r|, w);
    }
    if Contains(s, w) {
      var i :| 0 <= i <= |s| - |w| && OccursAt(s, w, i);
      OccurrenceInsideCut(f, s, r, lo, w, i);
    }
  }

  /** An occurrence that starts and ends on non-whitespace lies inside the stripped slice. */
  lemma OccurrenceInsideCut(f: Flavor, s: string, r: string, lo: int, w: string, i: int)
    requires CutAt(f, s, r, lo)
    requires w != [] && !IsSpace(f, w[0]) && !IsSpace(f, w[|w| - 1])
    requires OccursAt(s, w, i)
    ensures Contains(r, w)
  {
    assert s[i..i + |w|][0] == s[i];
    assert s[i..i + |w|][|w| - 1] == s[i + |w| - 1];
    assert !IsSpace(f, s[i]) && !IsSpace(f, s[i + |w| - 1]);
    assert lo <= i;
    assert i + |w| <= lo + |r|;
    var a, b := r[i - lo..i - lo + |w|], s[i..i + |w|];
    assert forall k :: 0 <= k < |w| ==> a[k] == r[i - lo + k] == s[i + k] == b[k];
    assert a == w;
    assert OccursAt(r, w, i - lo);
  }

  /** The label `score_date_plan` stores as a plan's cost: the cost in yen, with a
      missing cost and `"0"` both shown as `"0円"`. */
  function CostDisplay(cost: string): (shown: string)
    ensures |shown| >= 2 && shown[|shown| - 1] == '円'
    ensures shown[..|shown| - 1] == if cost == "" then "0" else cost
  {
    if cost != "" && cost != "0" then cost + "円" else "0円"
  }
}
