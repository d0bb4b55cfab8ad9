/** How the reader draws one word (src/components/Reader.tsx:13, 37-39): the
    character at offset `center = min(floor(length / 2), 2)` is the red pivot
    under the fixed guide lines, with the characters before it right-aligned
    to its left and the rest left-aligned to its right. */
module Pivot {
  import opened Wrappers

  /** The largest `center` the reader ever uses. */
  const MaxCenter: nat := 2

  /** `Math.min(Math.floor(word.length / 2), 2)`; lengths are never negative,
      so `floor` is Dafny's division. For a non-empty word the offset lies
      inside the word, so the pivot read at it is a character. */
  function Center(word: string): (c: nat)
    ensures c <= MaxCenter && c <= |word|
    ensures |word| > 0 ==> c < |word|
    ensures c == MaxCenter <==> |word| >= 4
    ensures c == 0 <==> |word| <= 1
  {
    if |word| / 2 < MaxCenter then |word| / 2 else MaxCenter
  }

  /** `s[i]` as JavaScript reads it: `undefined` past the end. */
  function CharAt(s: string, i: nat): (r: Option<char>)
    ensures r.Some? <==> i < |s|
    ensures r.Some? ==> r.value == s[i]
  {
    if i < |s| then Some(s[i]) else None
  }

  /** `s.slice(start)`: a start past the end gives the empty string. */
  function SliceFrom(s: string, start: nat): (r: string)
    ensures start <= |s| ==> r == s[start..]
    ensures start >= |s| ==> r == ""
  {
    if start <= |s| then s[start..] else ""
  }

  /** The three pieces a word is drawn as; an absent pivot stands for the
      `undefined` an empty word yields, which React draws as nothing. */
  datatype Parts = Parts(prefix: string, pivot: Option<char>, suffix: string)

  /** The text the three pieces put on the screen, left to right. */
  function Shown(p: Parts): string {
    p.prefix + (if p.pivot.Some? then [p.pivot.value] else []) + p.suffix
  }

  /** `slice(0, center)`, `[center]` and `slice(center + 1)` of the word. */
  function SplitAtCenter(word: string): (p: Parts)
    ensures |p.prefix| == Center(word) <= MaxCenter
    ensures p.pivot.Some? <==> |word| > 0
    ensures Shown(p) == word
  {
    var c := Center(word);
    var p := Parts(word[..c], CharAt(word, c), SliceFrom(word, c + 1));
    assert |word| > 0 ==> word == word[..c] + [word[c]] + word[c + 1..];
    p
  }

  /** The pivot sits at the same screen column for every word of four or
      more characters: exactly two characters stand to its left. */
  lemma FixedGazePoint(word: string)
    requires |word| >= 4
    ensures SplitAtCenter(word).prefix == word[..2]
    ensures SplitAtCenter(word).pivot == Some(word[2])
    ensures SplitAtCenter(word).suffix == word[3..]
  {
  }

  /** Worked cases, the empty token included. */
  lemma SplitExamples()
    ensures SplitAtCenter("") == Parts("", None, "")
    ensures SplitAtCenter("a") == Parts("", Some('a'), "")
    ensures SplitAtCenter("cats") == Parts("ca", Some('t'), "s")
    ensures SplitAtCenter("hello") == Parts("he", Some('l'), "lo")
  {
  }
}
