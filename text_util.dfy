/**
 * String helpers shared by the backend (Python) and frontend (JavaScript) models:
 * ASCII case folding, prefix/suffix/substring tests, the two whitespace sets
 * (Python's `str.isspace`/`\s` and JavaScript's `trim`), `split` on one
 * character, `join`, and decimal rendering of integers.
 */
module TextUtil {

  predicate IsAsciiUpper(c: char) { 'A' <= c <= 'Z' }

  predicate IsAsciiLetter(c: char) { 'a' <= c <= 'z' || 'A' <= c <= 'Z' }

  predicate IsAsciiDigit(c: char) { '0' <= c <= '9' }

  predicate IsAsciiAlnum(c: char) { IsAsciiLetter(c) || IsAsciiDigit(c) }

  /** Lower-cases one character; only A-Z are affected. */
  function LowerChar(c: char): (r: char)
    ensures IsAsciiUpper(c) ==> r as int == c as int + 32
    ensures !IsAsciiUpper(c) ==> r == c
    ensures !IsAsciiUpper(r)
  {
    if IsAsciiUpper(c) then (c as int + 32) as char else c
  }

  /** `toLowerCase()` / `lower()` restricted to ASCII letters. */
  function Lower(s: string): (r: string)
    ensures |r| == |s|
    ensures forall i :: 0 <= i < |s| ==> r[i] == LowerChar(s[i])
  {
    seq(|s|, i requires 0 <= i < |s| => LowerChar(s[i]))
  }

  /** JavaScript truthiness of a string: only the empty string is falsy. */
  predicate Truthy(s: string) { s != "" }

  /** JavaScript's `a || b` on two strings. */
  function OrElse(a: string, b: string): string { if Truthy(a) then a else b }

  /** Concatenation regrouped, for proofs where the solver would search for it. */
  lemma Reassociate(a: string, b: string, c: string)
    ensures a + b + c == a + (b + c)
  {
  }

  predicate StartsWith(s: string, prefix: string)
  {
    |prefix| <= |s| && s[..|prefix|] == prefix
  }

  predicate EndsWith(s: string, suffix: string)
  {
    |suffix| <= |s| && s[|s| - |suffix|..] == suffix
  }

  /** `p` occurs in `s` starting at position `i`. */
  predicate OccursAt(s: string, p: string, i: int)
  {
    0 <= i <= |s| - |p| && s[i..i + |p|] == p
  }

  /** `s.includes(p)`: `p` occurs in `s` at some position. */
  predicate Contains(s: string, p: string)
  {
    exists i :: 0 <= i <= |s| - |p| && OccursAt(s, p, i)
  }

  /** Whitespace as Python's `str.isspace()` and the regular expression class `\s` see it. */
  predicate PyIsSpace(c: char)
  {
    c == ' ' || c == '\t' || c == '\n' || c == '\r' || c == '\U{B}' || c == '\U{C}'
    || ('\U{1C}' <= c <= '\U{1F}') || c == '\U{85}' || c == '\U{A0}' || c == '\U{1680}'
    || ('\U{2000}' <= c <= '\U{200A}') || c == '\U{2028}' || c == '\U{2029}'
    || c == '\U{202F}' || c == '\U{205F}' || c == '\U{3000}'
  }

  /** Whitespace and line terminators as JavaScript's `String.prototype.trim` sees them. */
  predicate JsIsSpace(c: char)
  {
    c == ' ' || c == '\t' || c == '\n' || c == '\r' || c == '\U{B}' || c == '\U{C}'
    || c == '\U{A0}' || c == '\U{1680}' || ('\U{2000}' <= c <= '\U{200A}')
    || c == '\U{2028}' || c == '\U{2029}' || c == '\U{202F}' || c == '\U{205F}'
    || c == '\U{3000}' || c == '\U{FEFF}'
  }

  function TrimStart(s: string, space: char -> bool): (r: string)
    ensures |r| <= |s| && r == s[|s| - |r|..]
    ensures forall k :: 0 <= k < |s| - |r| ==> space(s[k])
    ensures r != [] ==> !space(r[0])
  {
    if s != [] && space(s[0]) then TrimStart(s[1..], space) else s
  }

  function TrimEnd(s: string, space: char -> bool): (r: string)
    ensures |r| <= |s| && r == s[..|r|]
    ensures forall k :: |r| <= k < |s| ==> space(s[k])
    ensures r != [] ==> !space(r[|r| - 1])
  {
    if s != [] && space(s[|s| - 1]) then TrimEnd(s[..|s| - 1], space) else s
  }

  /**
   * Removes leading and trailing `space` characters. The result is a slice of
   * the input, everything cut off is space, and the result neither begins nor
   * ends with space.
   */
  function Trim(s: string, space: char -> bool): (r: string)
    ensures |r| <= |s|
    ensures Contains(s, r)
    ensures r != [] ==> !space(r[0]) && !space(r[|r| - 1])
    ensures r == [] <==> forall k :: 0 <= k < |s| ==> space(s[k])
  {
    var t := TrimStart(s, space);
    var r := TrimEnd(t, space);
    assert r == s[|s| - |t|..][..|r|];
    assert r == s[|s| - |t|..|s| - |t| + |r|];
    assert t != [] ==> t[0] == s[|s| - |t|];
    assert OccursAt(s, r, |s| - |t|);
    r
  }

  /** Python's `str.strip()` with no argument. */
  function PyStrip(s: string): string { Trim(s, PyIsSpace) }

  /** JavaScript's `String.prototype.trim()`. */
  function JsTrim(s: string): string { Trim(s, JsIsSpace) }

  /** `!s.trim()` in JavaScript: the text holds nothing but whitespace. */
  predicate JsBlank(s: string)
  {
    forall k :: 0 <= k < |s| ==> JsIsSpace(s[k])
  }

  /** The blank test is the trimmed text being empty. */
  lemma JsBlankIffTrimmedEmpty(s: string)
    ensures JsBlank(s) <==> JsTrim(s) == ""
  {
  }

  /** JavaScript's `s.split(c)` for a one-character separator: never empty. */
  function Split(s: string, c: char): (parts: seq<string>)
    ensures |parts| >= 1
    ensures forall k :: 0 <= k < |parts| ==> c !in parts[k]
  {
    if s == [] then [""]
    else
      var rest := Split(s[1..], c);
      if s[0] == c then [""] + rest
      else [[s[0]] + rest[0]] + rest[1..]
  }

  /** `parts.join(sep)` (JavaScript) / `sep.join(parts)` (Python). */
  function Join(parts: seq<string>, sep: string): string
  {
    if |parts| == 0 then ""
    else if |parts| == 1 then parts[0]
    else parts[0] + sep + Join(parts[1..], sep)
  }

  /** Joining the parts of a split with the separator gives back the original text. */
  lemma {:induction false} JoinSplit(s: string, c: char)
    ensures Join(Split(s, c), [c]) == s
  {
    if s != [] {
      JoinSplit(s[1..], c);
      var rest := Split(s[1..], c);
      if s[0] == c {
        assert Split(s, c) == [""] + rest;
        assert ([""] + rest)[1..] == rest;
      } else {
        var parts := Split(s, c);
        assert parts == [[s[0]] + rest[0]] + rest[1..];
        if |rest| == 1 {
          assert parts == [[s[0]] + rest[0]];
        } else {
          assert parts[1..] == rest[1..];
          assert Join(rest, [c]) == rest[0] + [c] + Join(rest[1..], [c]);
          assert Join(parts, [c]) == [s[0]] + rest[0] + [c] + Join(rest[1..], [c]);
        }
      }
    }
  }

  lemma {:induction false} SplitWithout(p: string, c: char)
    requires c !in p
    ensures Split(p, c) == [p]
  {
    if p != [] {
      SplitWithout(p[1..], c);
      assert [p[0]] + p[1..] == p;
    }
  }

  lemma {:induction false} SplitPrefix(p: string, c: char, rest: string)
    requires c !in p
    ensures Split(p + [c] + rest, c) == [p] + Split(rest, c)
  {
    if p == [] {
      assert p + [c] + rest == [c] + rest;
      assert ([c] + rest)[1..] == rest;
    } else {
      var s := p + [c] + rest;
      assert s[0] == p[0];
      assert s[1..] == p[1..] + [c] + rest;
      SplitPrefix(p[1..], c, rest);
      assert [p[0]] + p[1..] == p;
    }
  }

  /** Splitting a join, when no part holds the separator, gives back the parts. */
  lemma {:induction false} SplitJoin(parts: seq<string>, c: char)
    requires |parts| >= 1
    requires forall k :: 0 <= k < |parts| ==> c !in parts[k]
    ensures Split(Join(parts, [c]), c) == parts
  {
    if |parts| == 1 {
      SplitWithout(parts[0], c);
    } else {
      SplitJoin(parts[1..], c);
      SplitPrefix(parts[0], c, Join(parts[1..], [c]));
      assert [parts[0]] + parts[1..] == parts;
    }
  }

  /** The elements of `s` that satisfy `keep`, in order (`filter` / a regex deletion). */
  function Filter<T>(keep: T -> bool, s: seq<T>): (r: seq<T>)
    ensures |r| <= |s|
    ensures forall k :: 0 <= k < |r| ==> keep(r[k])
  {
    if s == [] then [] else (if keep(s[0]) then [s[0]] else []) + Filter(keep, s[1..])
  }

  lemma {:induction false} FilterConcat<T>(keep: T -> bool, a: seq<T>, b: seq<T>)
    ensures Filter(keep, a + b) == Filter(keep, a) + Filter(keep, b)
  {
    if a != [] {
      assert (a + b)[1..] == a[1..] + b;
      FilterConcat(keep, a[1..], b);
    } else {
      assert a + b == b;
    }
  }

  /** Filtering twice with the same test is filtering once. */
  lemma {:induction false} FilterIdempotent<T>(keep: T -> bool, s: seq<T>)
    ensures Filter(keep, Filter(keep, s)) == Filter(keep, s)
  {
    if s != [] {
      FilterIdempotent(keep, s[1..]);
      var head := if keep(s[0]) then [s[0]] else [];
      FilterConcat(keep, head, Filter(keep, s[1..]));
      if keep(s[0]) {
        assert [s[0]][1..] == [];
      }
    }
  }

  /** An element the test keeps stays first. */
  lemma FilterKeepsHead<T>(keep: T -> bool, s: seq<T>)
    requires s != [] && keep(s[0])
    ensures Filter(keep, s) != [] && Filter(keep, s)[0] == s[0]
  {
  }

  predicate IsPrefix<T(==)>(a: seq<T>, b: seq<T>)
  {
    |a| <= |b| && b[..|a|] == a
  }

  /** Filtering keeps any property every element has. */
  lemma {:induction false} FilterKeepsProperty<T>(keep: T -> bool, s: seq<T>, holds: T -> bool)
    requires forall k :: 0 <= k < |s| ==> holds(s[k])
    ensures forall k :: 0 <= k < |Filter(keep, s)| ==> holds(Filter(keep, s)[k])
  {
    if s != [] {
      FilterKeepsProperty(keep, s[1..], holds);
    }
  }

  function DigitChar(d: nat): (c: char)
    requires d < 10
    ensures IsAsciiDigit(c) && c as int - '0' as int == d
  {
    (('0' as int) + d) as char
  }

  /** Decimal rendering of a natural number, as `${n}` or `str(n)` produce it. */
  function NatToString(n: nat): (r: string)
    ensures |r| >= 1
    ensures forall k :: 0 <= k < |r| ==> IsAsciiDigit(r[k])
  {
    if n < 10 then [DigitChar(n)] else NatToString(n / 10) + [DigitChar(n % 10)]
  }

  /** Decimal rendering of an integer, with a leading '-' when negative. */
  function IntToString(i: int): (r: string)
    ensures |r| >= 1
    ensures i < 0 <==> r[0] == '-'
  {
    if i < 0 then "-" + NatToString(-i) else NatToString(i)
  }

  /** The value of a string of decimal digits. */
  function DecimalValue(s: string): nat
    requires forall k :: 0 <= k < |s| ==> IsAsciiDigit(s[k])
  {
    if s == [] then 0
    else
      assert IsAsciiDigit(s[|s| - 1]);
      10 * DecimalValue(s[..|s| - 1]) + (s[|s| - 1] as int - '0' as int)
  }

  /** Reading back a rendered number gives the number, and there is no leading zero. */
  lemma {:induction false} NatToStringRoundTrip(n: nat)
    ensures DecimalValue(NatToString(n)) == n
    ensures |NatToString(n)| > 1 ==> NatToString(n)[0] != '0'
  {
    if n >= 10 {
      NatToStringRoundTrip(n / 10);
      var r := NatToString(n);
      assert r[..|r| - 1] == NatToString(n / 10);
    }
  }
}
