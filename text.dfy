/** String helpers shared by the server (Python) and the client (JavaScript):
    whitespace trimming, substring search and joining. */
module Text {

  /** Whose idea of whitespace a trim follows: Python's `str.strip()` or
      JavaScript's `String.prototype.trim()`. */
  datatype Flavor = Python | JavaScript

  /** Characters both languages treat as whitespace: the ASCII blanks, no-break
      space, the Unicode space separators and the line/paragraph separators. */
  predicate IsCommonSpace(c: char) {
    c == ' ' || c == '\t' || c == '\n' || c == '\r' || c == '\U{000B}' || c == '\U{000C}' ||
    c == '\U{00A0}' || c == '\U{1680}' || ('\U{2000}' <= c <= '\U{200A}') ||
    c == '\U{2028}' || c == '\U{2029}' || c == '\U{202F}' || c == '\U{205F}' || c == '\U{3000}'
  }

  /** Python's `str.isspace` adds the information separators and NEL;
      ECMAScript's WhiteSpace adds the byte-order mark. */
  predicate IsSpace(f: Flavor, c: char) {
    IsCommonSpace(c) ||
    match f
    case Python => ('\U{001C}' <= c <= '\U{001F}') || c == '\U{0085}'
    case JavaScript => c == '\U{FEFF}'
  }

  /** `s` with its leading whitespace removed. */
  function TrimStart(f: Flavor, s: string): (r: string)
    ensures |r| <= |s| && r == s[|s| - |r|..]
    ensures forall i :: 0 <= i < |s| - |r| ==> IsSpace(f, s[i])
    ensures r != [] ==> !IsSpace(f, r[0])
  {
    if s != [] && IsSpace(f, s[0]) then TrimStart(f, s[1..]) else s
  }

  /** `s` with its trailing whitespace removed. */
  function TrimEnd(f: Flavor, s: string): (r: string)
    ensures |r| <= |s| && r == s[..|r|]
    ensures forall i :: |r| <= i < |s| ==> IsSpace(f, s[i])
    ensures r != [] ==> !IsSpace(f, r[|r| - 1])
  {
    if s != [] && IsSpace(f, s[|s| - 1]) then TrimEnd(f, s[..|s| - 1]) else s
  }

  /** Python's `s.strip()` / JavaScript's `s.trim()`: a slice of `s` that neither
      starts nor ends with whitespace, everything cut off being whitespace. */
  function Strip(f: Flavor, s: string): (r: string)
    ensures |r| <= |s|
    ensures exists lo :: CutAt(f, s, r, lo)
    ensures r != [] ==> !IsSpace(f, r[0]) && !IsSpace(f, r[|r| - 1])
  {
    var t := TrimStart(f, s);
    var r := TrimEnd(f, t);
    var lo := |s| - |t|;
    assert r == s[lo..lo + |r|];
    assert CutAt(f, s, r, lo);
    r
  }

  /** `r` is the slice of `s` starting at `lo`, and what lies outside it is whitespace. */
  predicate CutAt(f: Flavor, s: string, r: string, lo: int) {
    0 <= lo <= |s| - |r| && r == s[lo..lo + |r|]
    && (forall i :: 0 <= i < lo ==> IsSpace(f, s[i]))
    && (forall i :: lo + |r| <= i < |s| ==> IsSpace(f, s[i]))
  }

  /** Nothing but whitespace. */
  predicate IsBlank(f: Flavor, s: string) {
    forall i :: 0 <= i < |s| ==> IsSpace(f, s[i])
  }

  /** Blank is what `!s.trim()` / `not s.strip()` tests: the stripped string is empty
      exactly when every character is whitespace. */
  lemma BlankIffStripEmpty(f: Flavor, s: string)
    ensures IsBlank(f, s) <==> Strip(f, s) == []
  {
    var t := TrimStart(f, s);
    assert t != [] ==> t[0] == s[|s| - |t|];
  }

  /** Stripping twice is stripping once. */
  lemma {:induction false} StripIdempotent(f: Flavor, s: string)
    ensures Strip(f, Strip(f, s)) == Strip(f, s)
  {
    var r := Strip(f, s);
    if r != [] {
      assert TrimStart(f, r) == r;
      assert TrimEnd(f, r) == r;
    }
  }

  /** Python's `w in text` and JavaScript's `text.includes(w)` on strings. */
  predicate Contains(text: string, w: string) {
    exists i :: 0 <= i <= |text| - |w| && OccursAt(text, w, i)
  }

  /** `w` occurs in `text` starting at index `i`. */
  predicate OccursAt(text: string, w: string, i: int) {
    0 <= i <= |text| - |w| && text[i..i + |w|] == w
  }

  /** A word found in a part of a text is found in the whole. */
  lemma ContainsInSlice(text: string, lo: int, hi: int, w: string)
    requires 0 <= lo <= hi <= |text|
    requires Contains(text[lo..hi], w)
    ensures Contains(text, w)
  {
    var sub := text[lo..hi];
    var i :| 0 <= i <= |sub| - |w| && OccursAt(sub, w, i);
    assert sub[i..i + |w|] == w;
    var found, piece := text[lo + i..lo + i + |w|], sub[i..i + |w|];
    assert forall k :: 0 <= k < |w| ==> found[k] == piece[k];
    assert found == piece;
    assert OccursAt(text, w, lo + i);
  }

  /** Python's `sep.join(parts)`. */
  function Join(sep: string, parts: seq<string>): (r: string)
    ensures parts == [] ==> r == []
    ensures |parts| == 1 ==> r == parts[0]
  {
    if parts == [] then []
    else if |parts| == 1 then parts[0]
    else parts[0] + sep + Join(sep, parts[1..])
  }

  /** Every part of a join, and every separator between parts, occurs in it. */
  lemma {:induction false} JoinContainsParts(sep: string, parts: seq<string>, k: int)
    requires 0 <= k < |parts|
    ensures Contains(Join(sep, parts), parts[k])
  {
    var j := Join(sep, parts);
    if |parts| == 1 || k == 0 {
      assert j[0..|parts[0]|] == parts[0];
      assert OccursAt(j, parts[k], 0);
    } else {
      var rest := Join(sep, parts[1..]);
      JoinContainsParts(sep, parts[1..], k - 1);
      var off := |parts[0]| + |sep|;
      assert j[off..|j|] == rest;
      ContainsInSlice(j, off, |j|, parts[k]);
    }
  }

  /** Occurrence is transitive: a word in a part of a text is in the text. */
  lemma ContainsTransitive(text: string, part: string, w: string)
    requires Contains(text, part) && Contains(part, w)
    ensures Contains(text, w)
  {
    var i :| 0 <= i <= |text| - |part| && OccursAt(text, part, i);
    assert text[i..i + |part|] == part;
    ContainsInSlice(text, i, i + |part|, w);
  }
}
