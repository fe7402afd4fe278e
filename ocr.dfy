/**
 * The text clean-up of the OCR module (backend/python/ocr.py, `clean_text`): runs of
 * newline, carriage return and tab become one space, then runs of any whitespace become
 * one space and the text is stripped, then every character that is neither an ASCII
 * letter or digit nor whitespace is deleted.
 *
 * Image enhancement and Tesseract are not part of this model; their outcome is the
 * raw text handed to `CleanText`.
 */
module Ocr {
  import opened TextUtil

  /** The class `[\n\r\t]` of the first substitution. */
  predicate IsLineBreakOrTab(c: char) { c == '\n' || c == '\r' || c == '\t' }

  /** `re.sub(r'[class]+', ' ', s)`: every maximal run of `space` characters becomes one
      blank; other characters are kept in order. */
  function CollapseRuns(s: string, space: char -> bool): (r: string)
    decreases |s|
    ensures |r| <= |s|
    ensures r != [] ==> (space(s[0]) ==> r[0] == ' ') && (!space(s[0]) ==> r[0] == s[0])
    ensures forall k :: 0 <= k < |r| ==> r[k] == ' ' || !space(r[k])
    ensures space(' ') ==> forall k :: 0 <= k < |r| - 1 ==> !(space(r[k]) && space(r[k + 1]))
  {
    if s == [] then []
    else if space(s[0]) then
      var t := TrimStart(s[1..], space);
      var rest := CollapseRuns(t, space);
      assert rest != [] ==> rest[0] == t[0] && !space(rest[0]);
      [' '] + rest
    else [s[0]] + CollapseRuns(s[1..], space)
  }

  /** The class `[^a-zA-Z0-9\s]` of the last substitution, negated: what survives it. */
  predicate Kept(c: char) { IsAsciiAlnum(c) || PyIsSpace(c) }

  /** The text after the two whitespace substitutions and `strip()`. */
  function Squeezed(text: string): string
  {
    PyStrip(CollapseRuns(CollapseRuns(text, IsLineBreakOrTab), PyIsSpace))
  }

  /** clean_text (ocr.py:79-99). */
  function CleanText(text: string): (r: string)
    ensures text == "" ==> r == ""
  {
    if text == "" then "" else Filter(Kept, Squeezed(text))
  }

  // ---------------------------------------------------------------- properties

  /** Deleting characters that are not letters or digits keeps the letters and digits. */
  lemma {:induction false} FilterAlnumOfKept(s: string)
    ensures Filter(IsAsciiAlnum, Filter(Kept, s)) == Filter(IsAsciiAlnum, s)
  {
    if s != [] {
      FilterAlnumOfKept(s[1..]);
      var head := if Kept(s[0]) then [s[0]] else [];
      FilterConcat(IsAsciiAlnum, head, Filter(Kept, s[1..]));
      if Kept(s[0]) {
        assert [s[0]][1..] == [];
      }
    }
  }

  /** A prefix of `space` characters holds no letter or digit. */
  lemma {:induction false} FilterAlnumOfSpaces(s: string, space: char -> bool)
    requires forall c :: space(c) ==> !IsAsciiAlnum(c)
    requires forall k :: 0 <= k < |s| ==> space(s[k])
    ensures Filter(IsAsciiAlnum, s) == []
  {
    if s != [] {
      FilterAlnumOfSpaces(s[1..], space);
    }
  }

  /** Collapsing runs of characters that are not letters or digits loses no letter or
      digit and reorders none. */
  lemma {:induction false} CollapseKeepsAlnum(s: string, space: char -> bool)
    requires forall c :: space(c) ==> !IsAsciiAlnum(c)
    ensures Filter(IsAsciiAlnum, CollapseRuns(s, space)) == Filter(IsAsciiAlnum, s)
    decreases |s|
  {
    if s != [] {
      var r := CollapseRuns(s, space);
      if space(s[0]) {
        var t := TrimStart(s[1..], space);
        CollapseKeepsAlnum(t, space);
        FilterConcat(IsAsciiAlnum, [' '], CollapseRuns(t, space));
        assert [' '][1..] == [];
        TrimStartKeepsAlnum(s[1..], space);
        FilterAlnumOfSpaces([s[0]], space);
        assert s == [s[0]] + s[1..];
        FilterConcat(IsAsciiAlnum, [s[0]], s[1..]);
      } else {
        CollapseKeepsAlnum(s[1..], space);
        FilterConcat(IsAsciiAlnum, [s[0]], CollapseRuns(s[1..], space));
        assert [s[0]][1..] == [];
      }
    }
  }

  /** No whitespace character is a letter or digit. */
  lemma SpaceIsNotAlnum()
    ensures forall c :: PyIsSpace(c) ==> !IsAsciiAlnum(c)
    ensures forall c :: IsLineBreakOrTab(c) ==> !IsAsciiAlnum(c)
  {
  }

  lemma TrimStartKeepsAlnum(s: string, space: char -> bool)
    requires forall c :: space(c) ==> !IsAsciiAlnum(c)
    ensures Filter(IsAsciiAlnum, TrimStart(s, space)) == Filter(IsAsciiAlnum, s)
  {
    var t := TrimStart(s, space);
    var front := s[..|s| - |t|];
    assert s == front + t;
    FilterAlnumOfSpaces(front, space);
    FilterConcat(IsAsciiAlnum, front, t);
  }

  lemma TrimEndKeepsAlnum(s: string, space: char -> bool)
    requires forall c :: space(c) ==> !IsAsciiAlnum(c)
    ensures Filter(IsAsciiAlnum, TrimEnd(s, space)) == Filter(IsAsciiAlnum, s)
  {
    var r := TrimEnd(s, space);
    var back := s[|r|..];
    assert s == r + back;
    FilterAlnumOfSpaces(back, space);
    FilterConcat(IsAsciiAlnum, r, back);
  }

  /** Trimming characters that are not letters or digits loses no letter or digit. */
  lemma TrimKeepsAlnum(s: string, space: char -> bool)
    requires forall c :: space(c) ==> !IsAsciiAlnum(c)
    ensures Filter(IsAsciiAlnum, Trim(s, space)) == Filter(IsAsciiAlnum, s)
  {
    TrimStartKeepsAlnum(s, space);
    TrimEndKeepsAlnum(TrimStart(s, space), space);
  }

  /** A trimmed text keeps the single-blank shape of a collapsed one and loses its
      leading and trailing blanks. */
  lemma TrimSingleSpaced(c: string, space: char -> bool)
    requires forall k :: 0 <= k < |c| ==> c[k] == ' ' || !space(c[k])
    requires forall k :: 0 <= k < |c| - 1 ==> !(space(c[k]) && space(c[k + 1]))
    ensures var q := Trim(c, space);
      && (forall k :: 0 <= k < |q| ==> q[k] == ' ' || !space(q[k]))
      && (forall k :: 0 <= k < |q| - 1 ==> !(space(q[k]) && space(q[k + 1])))
      && (q != [] ==> !space(q[0]) && !space(q[|q| - 1]))
      && (forall k :: 0 <= k < |q| ==> q[k] in c)
  {
    var t := TrimStart(c, space);
    var q := TrimEnd(t, space);
    var i := |c| - |t|;
    assert Trim(c, space) == q;
    assert t == c[i..] && q == t[..|q|] && |q| <= |t|;
    forall k | 0 <= k < |q|
      ensures q[k] == c[i + k] && q[k] in c
    {
      assert q[k] == t[k] == c[i + k];
    }
    forall k | 0 <= k < |q|
      ensures q[k] == ' ' || !space(q[k])
    {
      assert q[k] == c[i + k];
    }
    forall k | 0 <= k < |q| - 1
      ensures !(space(q[k]) && space(q[k + 1]))
    {
      assert q[k] == c[i + k] && q[k + 1] == c[i + k + 1];
    }
    if q != [] {
      assert q[0] == t[0];
    }
  }

  /** After the whitespace steps the only whitespace left is single blanks between words:
      no character is a newline, return or tab, no two blanks are adjacent, and the text
      neither starts nor ends with whitespace. */
  lemma SqueezedIsSingleSpaced(text: string)
    ensures var q := Squeezed(text);
      && (forall k :: 0 <= k < |q| ==> q[k] == ' ' || !PyIsSpace(q[k]))
      && (forall k :: 0 <= k < |q| - 1 ==> !(PyIsSpace(q[k]) && PyIsSpace(q[k + 1])))
      && (q != [] ==> !PyIsSpace(q[0]) && !PyIsSpace(q[|q| - 1]))
  {
    var c := CollapseRuns(CollapseRuns(text, IsLineBreakOrTab), PyIsSpace);
    TrimSingleSpaced(c, PyIsSpace);
  }

  /** The output holds only ASCII letters, digits and blanks, so no newline, carriage
      return or tab. */
  lemma CleanTextAlphabet(text: string)
    ensures var r := CleanText(text);
      forall k :: 0 <= k < |r| ==> IsAsciiAlnum(r[k]) || r[k] == ' '
  {
    SqueezedIsSingleSpaced(text);
    FilterKeepsProperty(Kept, Squeezed(text), c => c == ' ' || !PyIsSpace(c));
  }

  /** The letters and digits of the output are those of the input, in the same order. */
  lemma CleanTextKeepsAlnum(text: string)
    ensures Filter(IsAsciiAlnum, CleanText(text)) == Filter(IsAsciiAlnum, text)
  {
    if text != "" {
      var once := CollapseRuns(text, IsLineBreakOrTab);
      SpaceIsNotAlnum();
      CollapseKeepsAlnum(text, IsLineBreakOrTab);
      CollapseKeepsAlnum(once, PyIsSpace);
      TrimKeepsAlnum(CollapseRuns(once, PyIsSpace), PyIsSpace);
      FilterAlnumOfKept(Squeezed(text));
    }
  }

  /** The output is never longer than the input. */
  lemma CleanTextShrinks(text: string)
    ensures |CleanText(text)| <= |text|
  {
  }

  /** A word: a non-empty run of ASCII letters and digits. */
  predicate IsWord(w: string)
  {
    w != [] && forall k :: 0 <= k < |w| ==> IsAsciiAlnum(w[k])
  }

  lemma {:induction false} FilterKeepsWord(w: string)
    requires forall k :: 0 <= k < |w| ==> IsAsciiAlnum(w[k])
    ensures Filter(Kept, w) == w
  {
    if w != [] {
      FilterKeepsWord(w[1..]);
      assert w == [w[0]] + w[1..];
    }
  }

  lemma PunctuationBetweenBlanks(p: char)
    requires !Kept(p)
    ensures Filter(Kept, [' ', p, ' ']) == [' ', ' ']
  {
    assert Kept(' ');
    assert [' ', p, ' '][1..] == [p, ' '];
    assert [p, ' '][1..] == [' '];
    assert [' '][1..] == [];
    assert Filter(Kept, [' ']) == [' '];
    assert Filter(Kept, [p, ' ']) == [' '];
  }

  /** Words, blanks and a non-whitespace mark hold no whitespace but blanks. */
  lemma BlanksOnly(w1: string, mid: string, w2: string)
    requires IsWord(w1) && IsWord(w2)
    requires forall k :: 0 <= k < |mid| ==> mid[k] == ' ' || !PyIsSpace(mid[k])
    ensures var text := w1 + mid + w2;
      forall k :: 0 <= k < |text| ==> text[k] == ' ' || !PyIsSpace(text[k])
  {
    var text := w1 + mid + w2;
    SpaceIsNotAlnum();
    forall k | 0 <= k < |text|
      ensures text[k] == ' ' || !PyIsSpace(text[k])
    {
      if k < |w1| {
        assert text[k] == w1[k];
      } else if k < |w1| + |mid| {
        assert text[k] == mid[k - |w1|];
      } else {
        assert text[k] == w2[k - |w1| - |mid|];
      }
    }
  }

  lemma FilterAfterWord(w: string, rest: string)
    requires IsWord(w)
    ensures Filter(Kept, w + rest) == w + Filter(Kept, rest)
  {
    FilterKeepsWord(w);
    FilterConcat(Kept, w, rest);
  }

  lemma FilterBeforeWord(rest: string, w: string)
    requires IsWord(w)
    ensures Filter(Kept, rest + w) == Filter(Kept, rest) + w
  {
    FilterKeepsWord(w);
    FilterConcat(Kept, rest, w);
  }

  /** Deleting the marks of words around a middle part keeps the words. */
  lemma FilterAroundWords(w1: string, mid: string, w2: string)
    requires IsWord(w1) && IsWord(w2)
    ensures Filter(Kept, w1 + mid + w2) == w1 + Filter(Kept, mid) + w2
  {
    assert w1 + mid + w2 == w1 + (mid + w2);
    FilterAfterWord(w1, mid + w2);
    FilterBeforeWord(mid, w2);
  }

  /** Deleting a punctuation mark that stood between two blanks leaves both blanks:
      "w1 ! w2" becomes "w1  w2". */
  lemma CleanTextPunctuationGap(w1: string, p: char, w2: string)
    requires IsWord(w1) && IsWord(w2) && !Kept(p)
    ensures CleanText(w1 + [' ', p, ' '] + w2) == w1 + [' ', ' '] + w2
  {
    BlanksOnly(w1, [' ', p, ' '], w2);
    SqueezedUnchanged(w1 + [' ', p, ' '] + w2);
    FilterAroundWords(w1, [' ', p, ' '], w2);
    PunctuationBetweenBlanks(p);
  }

  /** A text of words separated by single blanks, holding no other whitespace, passes the
      whitespace steps unchanged. */
  lemma SqueezedUnchanged(text: string)
    requires forall k :: 0 <= k < |text| ==> text[k] == ' ' || !PyIsSpace(text[k])
    requires forall k :: 0 <= k < |text| - 1 ==> !(text[k] == ' ' && text[k + 1] == ' ')
    requires text != [] ==> text[0] != ' ' && text[|text| - 1] != ' '
    ensures Squeezed(text) == text
  {
    CollapseSingleSpaced(text, IsLineBreakOrTab);
    CollapseSingleSpaced(text, PyIsSpace);
    if text != [] {
      assert TrimStart(text, PyIsSpace) == text;
      assert TrimEnd(text, PyIsSpace) == text;
    }
  }

  /** Collapsing leaves a text alone when each of its runs is one blank. */
  lemma {:induction false} CollapseSingleSpaced(s: string, space: char -> bool)
    requires forall k :: 0 <= k < |s| ==> s[k] == ' ' || !space(s[k])
    requires forall k :: 0 <= k < |s| - 1 ==> !(s[k] == ' ' && s[k + 1] == ' ')
    ensures CollapseRuns(s, space) == s
  {
    if s != [] {
      var tail := s[1..];
      forall k | 0 <= k < |tail|
        ensures tail[k] == ' ' || !space(tail[k])
      {
        assert tail[k] == s[k + 1];
      }
      forall k | 0 <= k < |tail| - 1
        ensures !(tail[k] == ' ' && tail[k + 1] == ' ')
      {
        assert tail[k] == s[k + 1] && tail[k + 1] == s[k + 2];
      }
      CollapseSingleSpaced(tail, space);
      if space(s[0]) {
        if tail != [] {
          assert s[0] == ' ' && tail[0] == s[1];
          assert !space(tail[0]);
        }
        assert TrimStart(tail, space) == tail;
        assert CollapseRuns(s, space) == [' '] + tail;
      } else {
        assert CollapseRuns(s, space) == [s[0]] + tail;
      }
      assert s == [s[0]] + tail;
    }
  }

  /** Collapsing leaves a text with no `space` character alone. */
  lemma {:induction false} CollapseNoSpace(s: string, space: char -> bool)
    requires forall k :: 0 <= k < |s| ==> !space(s[k])
    ensures CollapseRuns(s, space) == s
  {
    if s != [] {
      CollapseNoSpace(s[1..], space);
      assert s == [s[0]] + s[1..];
    }
  }

  /** Collapsing passes over a prefix with no `space` character. */
  lemma {:induction false} CollapseAfter(a: string, b: string, space: char -> bool)
    requires forall k :: 0 <= k < |a| ==> !space(a[k])
    ensures CollapseRuns(a + b, space) == a + CollapseRuns(b, space)
  {
    if a != [] {
      var ab := a + b;
      assert ab[0] == a[0] && !space(ab[0]);
      assert ab[1..] == a[1..] + b;
      assert CollapseRuns(ab, space) == [a[0]] + CollapseRuns(a[1..] + b, space);
      CollapseAfter(a[1..], b, space);
      assert a == [a[0]] + a[1..];
    } else {
      assert a + b == b;
    }
  }

  lemma CollapseBlankRun(w: string)
    requires IsWord(w)
    ensures CollapseRuns([' ', ' '] + w, PyIsSpace) == [' '] + w
  {
    SpaceIsNotAlnum();
    var rest := [' ', ' '] + w;
    assert rest[1..] == [' '] + w;
    assert ([' '] + w)[1..] == w;
    assert !PyIsSpace(w[0]);
    assert TrimStart(w, PyIsSpace) == w;
    assert TrimStart(rest[1..], PyIsSpace) == w;
    CollapseNoSpace(w, PyIsSpace);
  }

  lemma SingleBlankSqueezed(w1: string, w2: string)
    requires IsWord(w1) && IsWord(w2)
    ensures Squeezed(w1 + [' '] + w2) == w1 + [' '] + w2
  {
    BlanksOnly(w1, [' '], w2);
    SqueezedUnchanged(w1 + [' '] + w2);
  }

  /** Two blanks between words collapse to one. */
  lemma DoubleBlankSqueezed(w1: string, w2: string)
    requires IsWord(w1) && IsWord(w2)
    ensures Squeezed(w1 + [' ', ' '] + w2) == w1 + [' '] + w2
  {
    Reassociate(w1, [' ', ' '], w2);
    Reassociate(w1, [' '], w2);
    DoubleBlankCollapsed(w1, w2);
    WordsStripped(w1 + ([' '] + w2));
  }

  /** Both whitespace substitutions turn the two blanks into one. */
  lemma DoubleBlankCollapsed(w1: string, w2: string)
    requires IsWord(w1) && IsWord(w2)
    ensures CollapseRuns(CollapseRuns(w1 + ([' ', ' '] + w2), IsLineBreakOrTab), PyIsSpace) == w1 + ([' '] + w2)
  {
    NoLineBreakAroundBlanks(w1, w2);
    BlankRunAfterWord(w1, w2);
  }

  /** Words and blanks hold no newline, return or tab, so the first substitution leaves
      them alone. */
  lemma NoLineBreakAroundBlanks(w1: string, w2: string)
    requires IsWord(w1) && IsWord(w2)
    ensures CollapseRuns(w1 + ([' ', ' '] + w2), IsLineBreakOrTab) == w1 + ([' ', ' '] + w2)
  {
    SpaceIsNotAlnum();
    var text := w1 + ([' ', ' '] + w2);
    forall k | 0 <= k < |text|
      ensures !IsLineBreakOrTab(text[k])
    {
      if k < |w1| {
        assert text[k] == w1[k];
      } else if k >= |w1| + 2 {
        assert text[k] == w2[k - |w1| - 2];
      }
    }
    CollapseNoSpace(text, IsLineBreakOrTab);
  }

  /** After a word, the run of two blanks becomes one. */
  lemma BlankRunAfterWord(w1: string, w2: string)
    requires IsWord(w1) && IsWord(w2)
    ensures CollapseRuns(w1 + ([' ', ' '] + w2), PyIsSpace) == w1 + ([' '] + w2)
  {
    forall k | 0 <= k < |w1|
      ensures !PyIsSpace(w1[k])
    {
      assert IsAsciiAlnum(w1[k]);
    }
    CollapseAfter(w1, [' ', ' '] + w2, PyIsSpace);
    CollapseBlankRun(w2);
  }

  /** `strip()` leaves a text alone when it starts and ends with a character that is not
      whitespace. */
  lemma WordsStripped(text: string)
    requires text != [] && !PyIsSpace(text[0]) && !PyIsSpace(text[|text| - 1])
    ensures PyStrip(text) == text
  {
    assert TrimStart(text, PyIsSpace) == text;
    assert TrimEnd(text, PyIsSpace) == text;
  }

  /** A second clean-up closes the gap, so `clean_text` is not idempotent. */
  lemma CleanTextNotIdempotent(w1: string, p: char, w2: string)
    requires IsWord(w1) && IsWord(w2) && !Kept(p)
    ensures CleanText(w1 + [' ', ' '] + w2) == w1 + [' '] + w2
    ensures CleanText(CleanText(w1 + [' ', p, ' '] + w2)) != CleanText(w1 + [' ', p, ' '] + w2)
  {
    CleanTextPunctuationGap(w1, p, w2);
    DoubleBlankSqueezed(w1, w2);
    FilterAroundWords(w1, [' '], w2);
    assert Filter(Kept, [' ']) == [' '];
    assert |w1 + [' '] + w2| < |w1 + [' ', ' '] + w2|;
  }
}
