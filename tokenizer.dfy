/** The word list the app hands to the reader: `text.trim().split(" ")`.
    `trim` removes leading and trailing white space (the ECMAScript WhiteSpace
    and LineTerminator code points), and `split(" ")` cuts at every single
    space character and nothing else. */
module Tokenizer {

  /** The code points that `String.prototype.trim` removes, apart from the
      range U+2000 to U+200A. */
  const TrimmedSet: set<char> := {
    '\t', '\n', '\U{000B}', '\U{000C}', '\r', ' ', '\U{00A0}', '\U{1680}',
    '\U{2028}', '\U{2029}', '\U{202F}', '\U{205F}', '\U{3000}', '\U{FEFF}'
  }

  /** A code point that `String.prototype.trim` removes. */
  predicate IsTrimmable(c: char) {
    c in TrimmedSet || '\U{2000}' <= c <= '\U{200A}'
  }

  /** Drops trimmable characters from the front: the result is the longest
      suffix of `s` that does not start with one. */
  function TrimStart(s: string): (r: string)
    ensures |r| <= |s| && r == s[|s| - |r|..]
    ensures forall i :: 0 <= i < |s| - |r| ==> IsTrimmable(s[i])
    ensures |r| > 0 ==> !IsTrimmable(r[0])
    decreases |s|
  {
    if |s| > 0 && IsTrimmable(s[0]) then TrimStart(s[1..]) else s
  }

  /** Drops trimmable characters from the back: the result is the longest
      prefix of `s` that does not end with one. */
  function TrimEnd(s: string): (r: string)
    ensures |r| <= |s| && r == s[..|r|]
    ensures forall i :: |r| <= i < |s| ==> IsTrimmable(s[i])
    ensures |r| > 0 ==> !IsTrimmable(r[|r| - 1])
    decreases |s|
  {
    if |s| > 0 && IsTrimmable(s[|s| - 1]) then TrimEnd(s[..|s| - 1]) else s
  }

  /** Number of characters `trim` removes from the front of `s`. */
  function LeadingCut(s: string): nat {
    |s| - |TrimStart(s)|
  }

  /** `s.trim()`: what is kept is one contiguous piece of `s`, everything cut
      on either side is white space, and the piece neither starts nor ends
      with white space. */
  function Trim(s: string): (r: string)
    ensures LeadingCut(s) + |r| <= |s|
    ensures r == s[LeadingCut(s)..LeadingCut(s) + |r|]
    ensures forall i :: 0 <= i < LeadingCut(s) ==> IsTrimmable(s[i])
    ensures forall i :: LeadingCut(s) + |r| <= i < |s| ==> IsTrimmable(s[i])
    ensures |r| > 0 ==> !IsTrimmable(r[0]) && !IsTrimmable(r[|r| - 1])
  {
    var t := TrimStart(s);
    var r := TrimEnd(t);
    TrimEndInside(s, t, r);
    r
  }

  /** Cutting white space from the back of `t`, the white-space-free tail
      of `s`, keeps a piece of `s` followed only by white space. */
  lemma TrimEndInside(s: string, t: string, r: string)
    requires |t| <= |s| && t == s[|s| - |t|..]
    requires |r| <= |t| && r == t[..|r|]
    requires forall i :: |r| <= i < |t| ==> IsTrimmable(t[i])
    ensures r == s[|s| - |t|..|s| - |t| + |r|]
    ensures forall i :: |s| - |t| + |r| <= i < |s| ==> IsTrimmable(s[i])
    ensures |r| > 0 ==> r[0] == t[0]
  {
    var a := |s| - |t|;
    forall i | a + |r| <= i < |s|
      ensures IsTrimmable(s[i])
    {
      assert s[i] == t[i - a];
    }
  }

  /** `s.split(" ")`: the pieces between single spaces, in order. There is
      always at least one piece and no piece holds a space; two spaces in a
      row, or a space at either end, give an empty piece. */
  function Split(s: string): (r: seq<string>)
    ensures |r| >= 1
    ensures forall i :: 0 <= i < |r| ==> ' ' !in r[i]
    decreases |s|
  {
    if s == [] then [""]
    else
      var rest := Split(s[1..]);
      if s[0] == ' ' then [""] + rest
      else [[s[0]] + rest[0]] + rest[1..]
  }

  /** There is one piece more than there are spaces, whatever else (newlines,
      tabs) the string holds. */
  lemma {:induction false} SplitCount(s: string)
    ensures |Split(s)| == multiset(s)[' '] + 1
    decreases |s|
  {
    if s != [] {
      SplitCount(s[1..]);
      assert s == [s[0]] + s[1..];
      assert multiset(s) == multiset{s[0]} + multiset(s[1..]);
    }
  }

  /** The tokens `Reader` receives (src/App.tsx:45). */
  function Tokens(text: string): (r: seq<string>)
    ensures |r| >= 1
    ensures forall i :: 0 <= i < |r| ==> ' ' !in r[i]
  {
    Split(Trim(text))
  }

  /** The inverse of `Split`: the pieces glued back with single spaces. */
  function Join(ts: seq<string>): string
    decreases |ts|
  {
    if |ts| == 0 then ""
    else if |ts| == 1 then ts[0]
    else ts[0] + " " + Join(ts[1..])
  }

  /** Splitting loses nothing: the pieces joined with spaces are the input. */
  lemma {:induction false} JoinSplit(s: string)
    ensures Join(Split(s)) == s
    decreases |s|
  {
    if s != [] {
      var rest := Split(s[1..]);
      JoinSplit(s[1..]);
      assert s == [s[0]] + s[1..];
      if s[0] == ' ' {
        var r := [""] + rest;
        assert Split(s) == r;
        assert r[1..] == rest;
        assert Join(r) == "" + " " + Join(rest);
      } else {
        var head := [s[0]] + rest[0];
        var r := [head] + rest[1..];
        assert Split(s) == r;
        if |rest| == 1 {
          assert Join(r) == head;
          assert Join(rest) == rest[0];
        } else {
          assert r[1..] == rest[1..];
          assert Join(r) == head + " " + Join(rest[1..]);
          assert Join(rest) == rest[0] + " " + Join(rest[1..]);
        }
      }
    }
  }

  /** A space-free word in front of any text stays glued to the first piece. */
  lemma {:induction false} SplitAfterWord(w: string, s: string)
    requires ' ' !in w
    ensures Split(w + s) == [w + Split(s)[0]] + Split(s)[1..]
    decreases |w|
  {
    if w != [] {
      assert (w + s)[1..] == w[1..] + s;
      assert w[0] != ' ';
      SplitAfterWord(w[1..], s);
      assert [w[0]] + (w[1..] + Split(s)[0]) == w + Split(s)[0];
    } else {
      var r := Split(s);
      assert w + s == s && w + r[0] == r[0];
      assert r == [r[0]] + r[1..];
    }
  }

  /** `Split` is the only way to cut a string into space-free pieces:
      cutting up a join of such pieces gives those pieces back. */
  lemma {:induction false} SplitJoin(ts: seq<string>)
    requires |ts| >= 1
    requires forall i :: 0 <= i < |ts| ==> ' ' !in ts[i]
    ensures Split(Join(ts)) == ts
    decreases |ts|
  {
    if |ts| == 1 {
      SplitAfterWord(ts[0], "");
      assert ts[0] + "" == ts[0];
    } else {
      var tail := Join(ts[1..]);
      SplitJoin(ts[1..]);
      assert Join(ts) == ts[0] + (" " + tail);
      SplitAfterWord(ts[0], " " + tail);
      assert (" " + tail)[1..] == tail;
      assert Split(" " + tail) == [""] + ts[1..];
      assert ts[0] + "" == ts[0];
    }
  }

  /** Joining the reader's tokens with spaces gives back the trimmed text. */
  lemma TokensJoin(text: string)
    ensures Join(Tokens(text)) == Trim(text)
  {
    JoinSplit(Trim(text));
  }

  /** Only spaces separate tokens: a newline or tab in the trimmed text adds
      no token, and each extra space adds one (possibly empty) token. */
  lemma TokenCount(text: string)
    ensures |Tokens(text)| == multiset(Trim(text))[' '] + 1
  {
    SplitCount(Trim(text));
  }

  /** Text without white space at either end is left as it is by `trim`. */
  lemma TrimKeeps(s: string)
    requires |s| > 0 ==> !IsTrimmable(s[0]) && !IsTrimmable(s[|s| - 1])
    ensures Trim(s) == s
  {
  }

  /** Worked cases: empty text, white space around a word with a newline
      inside, a double space, and a sentence with clause punctuation. */
  lemma TokensOfEmptyText()
    ensures Tokens("") == [""]
  {
  }

  lemma TokensKeepNewline()
    ensures Tokens("  a\nb ") == ["a\nb"]
  {
    TrimAroundNewline();
    TokensFromPieces("  a\nb ", ["a\nb"]);
  }

  lemma TrimAroundNewline()
    ensures Trim("  a\nb ") == "a\nb"
  {
    TrimStartOfNewline();
    TrimEndOfNewline();
  }

  lemma TrimStartOfNewline()
    ensures TrimStart("  a\nb ") == "a\nb "
  {
    var s := "  a\nb ";
    assert IsTrimmable(s[0]) && IsTrimmable(s[1]) && !IsTrimmable(s[2]);
    assert TrimStart(s) == TrimStart(s[1..]);
    assert TrimStart(s[1..]) == TrimStart(s[2..]);
    assert s[2..] == "a\nb ";
  }

  lemma TrimEndOfNewline()
    ensures TrimEnd("a\nb ") == "a\nb"
  {
    assert "a\nb "[..3] == "a\nb";
  }

  lemma TokensOfDoubleSpace()
    ensures Tokens("a  b") == ["a", "", "b"]
  {
    TrimKeeps("a  b");
    JoinDoubleSpace();
    TokensFromPieces("a  b", ["a", "", "b"]);
  }

  lemma JoinDoubleSpace()
    ensures Join(["a", "", "b"]) == "a  b"
  {
    var ts := ["a", "", "b"];
    assert ts[1..] == ["", "b"] && ts[1..][1..] == ["b"];
  }

  lemma TokensOfSentence()
    ensures Tokens("The quick, brown fox.") == ["The", "quick,", "brown", "fox."]
  {
    TrimKeeps("The quick, brown fox.");
    JoinSentence();
    SentenceHasNoSpacedPiece();
    TokensFromPieces("The quick, brown fox.", ["The", "quick,", "brown", "fox."]);
  }

  /** A text whose trimmed form joins given space-free pieces has exactly
      those pieces as its tokens. */
  lemma TokensFromPieces(text: string, ts: seq<string>)
    requires |ts| >= 1 && Trim(text) == Join(ts)
    requires forall i :: 0 <= i < |ts| ==> ' ' !in ts[i]
    ensures Tokens(text) == ts
  {
    SplitJoin(ts);
  }

  lemma SentenceHasNoSpacedPiece()
    ensures forall i :: 0 <= i < 4 ==> ' ' !in ["The", "quick,", "brown", "fox."][i]
  {
    var ts := ["The", "quick,", "brown", "fox."];
    assert ' ' !in ts[0] && ' ' !in ts[1] && ' ' !in ts[2] && ' ' !in ts[3];
  }

  lemma JoinSentence()
    ensures Join(["The", "quick,", "brown", "fox."]) == "The quick, brown fox."
  {
    var ts := ["The", "quick,", "brown", "fox."];
    assert ts[1..] == ["quick,", "brown", "fox."];
    assert ts[1..][1..] == ["brown", "fox."];
    assert ts[1..][1..][1..] == ["fox."];
  }
}
