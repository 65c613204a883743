/**
 * The handful of Python string operations the tool relies on, written out:
 * `str.strip()`, `str.split()`, `str.lower()` as far as keyword matching needs
 * it, the `in` substring test and `str.join`.
 */
module PyText {

  /** Python's `str.isspace()` for one character (the set `str.split()` and
      `str.strip()` use when called without arguments). */
  predicate IsSpace(c: char)
  {
    || ('\t' <= c <= '\r')
    || ('\U{1C}' <= c <= '\U{1F}')
    || c == ' '
    || c == '\U{85}'
    || c == '\U{A0}'
    || c == '\U{1680}'
    || ('\U{2000}' <= c <= '\U{200A}')
    || c == '\U{2028}'
    || c == '\U{2029}'
    || c == '\U{202F}'
    || c == '\U{205F}'
    || c == '\U{3000}'
  }

  predicate AllSpace(s: string)
  {
    forall k :: 0 <= k < |s| ==> IsSpace(s[k])
  }

  predicate NoSpace(s: string)
  {
    forall k :: 0 <= k < |s| ==> !IsSpace(s[k])
  }

  /** `s.lstrip()`: the suffix left after dropping every leading whitespace
      character. */
  function StripLeft(s: string): (r: string)
    ensures |r| <= |s| && r == s[|s| - |r|..]
    ensures forall k :: 0 <= k < |s| - |r| ==> IsSpace(s[k])
    ensures r == [] || !IsSpace(r[0])
  {
    if |s| > 0 && IsSpace(s[0]) then StripLeft(s[1..]) else s
  }

  /** `s.rstrip()`: the prefix left after dropping every trailing whitespace
      character. */
  function StripRight(s: string): (r: string)
    ensures |r| <= |s| && r == s[..|r|]
    ensures forall k :: |r| <= k < |s| ==> IsSpace(s[k])
    ensures r == [] || !IsSpace(r[|r| - 1])
  {
    if |s| > 0 && IsSpace(s[|s| - 1]) then StripRight(s[..|s| - 1]) else s
  }

  /** `s.strip()`. */
  function Strip(s: string): string
  {
    StripRight(StripLeft(s))
  }

  /** What strip leaves has no whitespace at either end. */
  lemma StripEnds(s: string)
    ensures var r := Strip(s); r == [] || (!IsSpace(r[0]) && !IsSpace(r[|r| - 1]))
  {
    var l := StripLeft(s);
    var r := StripRight(l);
    if r != [] {
      assert r[0] == l[0];
    }
  }

  /** Strip leaves nothing exactly when the input is all whitespace. */
  lemma StripEmpty(s: string)
    ensures Strip(s) == [] <==> AllSpace(s)
  {
    var l := StripLeft(s);
    if StripRight(l) != [] {
      assert l[0] == s[|s| - |l|];
    }
  }

  /** Strip keeps a whitespace-free input as it is. */
  lemma StripNoSpace(s: string)
    requires s == [] || (!IsSpace(s[0]) && !IsSpace(s[|s| - 1]))
    ensures Strip(s) == s
  {
  }

  /** Stripping twice is stripping once. */
  lemma StripIdempotent(s: string)
    ensures Strip(Strip(s)) == Strip(s)
  {
    StripEnds(s);
    StripNoSpace(Strip(s));
  }

  /** The longest whitespace-free prefix of `s`. */
  function TakeWord(s: string): (w: string)
    ensures |w| <= |s| && w == s[..|w|]
    ensures NoSpace(w)
    ensures |w| == |s| || IsSpace(s[|w|])
    ensures s != [] && !IsSpace(s[0]) ==> w != []
  {
    if |s| > 0 && !IsSpace(s[0]) then [s[0]] + TakeWord(s[1..]) else []
  }

  /** `s.split()` with no separator: the maximal runs of non-whitespace
      characters, in order. */
  function Split(s: string): seq<string>
    decreases |s|
  {
    var t := StripLeft(s);
    if t == [] then []
    else
      var w := TakeWord(t);
      [w] + Split(t[|w|..])
  }

  /** A word of `split()`'s result: non-empty and free of whitespace. */
  predicate IsWord(w: string)
  {
    w != [] && NoSpace(w)
  }

  /** One step of `Split`: skip the leading whitespace, then cut off one word. */
  lemma SplitStep(s: string)
    requires StripLeft(s) != []
    ensures var t := StripLeft(s); var w := TakeWord(t);
      IsWord(w) && Split(s) == [w] + Split(t[|w|..])
  {
  }

  predicate AllWords(ws: seq<string>)
  {
    forall i :: 0 <= i < |ws| ==> IsWord(ws[i])
  }

  lemma ConsWords(w: string, ws: seq<string>)
    requires IsWord(w) && AllWords(ws)
    ensures AllWords([w] + ws)
  {
  }

  /** Every word `split()` returns is non-empty and free of whitespace. */
  lemma {:induction false} SplitWords(s: string)
    ensures AllWords(Split(s))
    decreases |s|
  {
    var t := StripLeft(s);
    if t != [] {
      var w := TakeWord(t);
      SplitStep(s);
      SplitWords(t[|w|..]);
      ConsWords(w, Split(t[|w|..]));
    }
  }

  /** Position `i` ends a run of non-whitespace characters. */
  predicate EndsRun(s: string, i: int)
    requires 0 <= i < |s|
  {
    !IsSpace(s[i]) && (i + 1 == |s| || IsSpace(s[i + 1]))
  }

  /** The number of positions that end a run, counted from the left: an
      independent definition of the number of words. */
  function RunEnds(s: string): nat
  {
    if s == [] then 0 else (if EndsRun(s, 0) then 1 else 0) + RunEnds(s[1..])
  }

  lemma {:induction false} RunEndsSpacePrefix(p: string, t: string)
    requires AllSpace(p)
    ensures RunEnds(p + t) == RunEnds(t)
    decreases |p|
  {
    if p == [] {
      assert p + t == t;
    } else {
      assert (p + t)[1..] == p[1..] + t;
      assert !EndsRun(p + t, 0) by { assert (p + t)[0] == p[0]; }
      assert RunEnds(p + t) == RunEnds(p[1..] + t);
      RunEndsSpacePrefix(p[1..], t);
    }
  }

  lemma {:induction false} RunEndsWordPrefix(w: string, t: string)
    requires w != [] && NoSpace(w)
    requires t == [] || IsSpace(t[0])
    ensures RunEnds(w + t) == 1 + RunEnds(t)
    decreases |w|
  {
    assert (w + t)[1..] == w[1..] + t;
    if |w| == 1 {
      assert w[1..] + t == t;
      assert EndsRun(w + t, 0);
    } else {
      assert !EndsRun(w + t, 0) by { assert (w + t)[1] == w[1]; }
      RunEndsWordPrefix(w[1..], t);
    }
  }

  /** `lstrip()` cuts `s` into a whitespace prefix and what it returns. */
  lemma StripLeftParts(s: string)
    ensures var t := StripLeft(s); var p := s[..|s| - |t|];
      s == p + t && AllSpace(p)
  {
    var t := StripLeft(s);
    var p := s[..|s| - |t|];
    assert s == p + t;
    forall k | 0 <= k < |p|
      ensures IsSpace(p[k])
    {
      assert p[k] == s[k];
    }
  }

  /** A word cut off a stripped string is followed by whitespace or the end. */
  lemma TakeWordParts(t: string)
    requires t != [] && !IsSpace(t[0])
    ensures var w := TakeWord(t); var rest := t[|w|..];
      t == w + rest && w != [] && NoSpace(w) && (rest == [] || IsSpace(rest[0]))
  {
    var w := TakeWord(t);
    assert t == t[..|w|] + t[|w|..];
  }

  /** Counting the words `split()` returns is counting the maximal runs. */
  lemma {:induction false} SplitCountsRuns(s: string)
    ensures |Split(s)| == RunEnds(s)
    decreases |s|
  {
    var t := StripLeft(s);
    var p := s[..|s| - |t|];
    StripLeftParts(s);
    RunEndsSpacePrefix(p, t);
    if t != [] {
      var w := TakeWord(t);
      var rest := t[|w|..];
      SplitStep(s);
      TakeWordParts(t);
      assert |rest| < |s|;
      RunEndsWordPrefix(w, rest);
      SplitCountsRuns(rest);
      assert |Split(s)| == 1 + |Split(rest)|;
    }
  }

  /** Python's `c.lower()` on one character, as far as a comparison with an
      all-ASCII lower-case keyword can tell: A-Z map to a-z, KELVIN SIGN maps
      to 'k', LATIN CAPITAL LETTER I WITH DOT ABOVE maps to 'i' followed by a
      combining dot; every other character either is its own lower case or
      has a non-ASCII lower case, which no ASCII keyword can match. */
  function LowerChar(c: char): (r: string)
    ensures 1 <= |r| <= 2
    ensures 'A' <= c <= 'Z' ==> r == [(c as int + 32) as char]
    ensures c == '\U{212A}' ==> r == "k"
    ensures c == '\U{130}' ==> r == "i\U{307}"
    ensures !('A' <= c <= 'Z') && c != '\U{212A}' && c != '\U{130}' ==> r == [c]
  {
    if 'A' <= c <= 'Z' then [(c as int + 32) as char]
    else if c == '\U{212A}' then "k"
    else if c == '\U{130}' then "i\U{307}"
    else [c]
  }

  function Lower(s: string): (r: string)
    ensures |s| <= |r| <= 2 * |s|
  {
    if s == [] then [] else LowerChar(s[0]) + Lower(s[1..])
  }

  /** On ASCII text lower-casing keeps the length and changes exactly the
      capital letters, each to its small letter. */
  lemma {:induction false} LowerAscii(s: string)
    requires forall k :: 0 <= k < |s| ==> s[k] < '\U{80}'
    ensures |Lower(s)| == |s|
    ensures forall k :: 0 <= k < |s| ==>
      Lower(s)[k] == if 'A' <= s[k] <= 'Z' then (s[k] as int + 32) as char else s[k]
    decreases |s|
  {
    if s != [] {
      LowerAscii(s[1..]);
      assert |LowerChar(s[0])| == 1;
      forall k | 0 <= k < |s|
        ensures Lower(s)[k] == if 'A' <= s[k] <= 'Z' then (s[k] as int + 32) as char else s[k]
      {
        if k > 0 {
          assert Lower(s)[k] == Lower(s[1..])[k - 1];
          assert s[1..][k - 1] == s[k];
        }
      }
    }
  }

  /** Python's `c.upper()` restricted to the small ASCII letters; every other
      character is kept. */
  function UpperAscii(s: string): (r: string)
    ensures |r| == |s|
    ensures forall k :: 0 <= k < |s| ==>
      r[k] == if 'a' <= s[k] <= 'z' then (s[k] as int - 32) as char else s[k]
  {
    if s == [] then []
    else [if 'a' <= s[0] <= 'z' then (s[0] as int - 32) as char else s[0]] + UpperAscii(s[1..])
  }

  /** Lower-casing does not see the case of ASCII letters: a string and its
      upper-cased form lower-case to the same string. */
  lemma {:induction false} LowerIgnoresCase(s: string)
    ensures Lower(UpperAscii(s)) == Lower(s)
    decreases |s|
  {
    if s != [] {
      var u := UpperAscii(s);
      assert u[1..] == UpperAscii(s[1..]);
      assert LowerChar(u[0]) == LowerChar(s[0]);
      LowerIgnoresCase(s[1..]);
    }
  }

  /** Python's `needle in hay` for strings. */
  predicate Contains(hay: string, needle: string)
    decreases |hay|
  {
    needle <= hay || (hay != [] && Contains(hay[1..], needle))
  }

  /** `needle` occurs in `hay` starting at index `i`. */
  predicate OccursAt(hay: string, needle: string, i: int)
  {
    0 <= i && i + |needle| <= |hay| && hay[i..i + |needle|] == needle
  }

  /** An occurrence past the first character is an occurrence in the tail. */
  lemma OccursShift(hay: string, needle: string, i: int)
    requires hay != [] && i >= 1
    ensures OccursAt(hay, needle, i) <==> OccursAt(hay[1..], needle, i - 1)
  {
    if i + |needle| <= |hay| {
      var tail := hay[1..];
      var here := hay[i..i + |needle|];
      var there := tail[i - 1..i - 1 + |needle|];
      forall k | 0 <= k < |needle|
        ensures here[k] == there[k]
      {
        assert tail[i - 1 + k] == hay[i + k];
      }
      assert here == there;
    }
  }

  /** `Contains` means what it says: `needle` occurs somewhere in `hay`. */
  lemma {:induction false} ContainsAt(hay: string, needle: string)
    ensures Contains(hay, needle) <==> exists i :: OccursAt(hay, needle, i)
    decreases |hay|
  {
    if needle <= hay {
      assert OccursAt(hay, needle, 0);
    } else if hay != [] {
      ContainsAt(hay[1..], needle);
      if exists i :: OccursAt(hay, needle, i) {
        var i :| OccursAt(hay, needle, i);
        OccursShift(hay, needle, i);
      }
      if Contains(hay[1..], needle) {
        var i :| OccursAt(hay[1..], needle, i);
        OccursShift(hay, needle, i + 1);
      }
    } else {
      assert !exists i :: OccursAt(hay, needle, i);
    }
  }

  /** `sep.join(parts)`. */
  function Join(sep: string, parts: seq<string>): string
  {
    if |parts| == 0 then ""
    else if |parts| == 1 then parts[0]
    else parts[0] + sep + Join(sep, parts[1..])
  }

  /** Joining a list one longer adds the separator and the new part. */
  lemma {:induction false} JoinSnoc(sep: string, parts: seq<string>, x: string)
    requires parts != []
    ensures Join(sep, parts + [x]) == Join(sep, parts) + sep + x
    decreases |parts|
  {
    if |parts| == 1 {
      assert parts + [x] == [parts[0], x];
    } else {
      assert (parts + [x])[1..] == parts[1..] + [x];
      JoinSnoc(sep, parts[1..], x);
    }
  }
}
