/**
 * The Python string built-ins the pipeline relies on: `str.strip`, `str.lower`,
 * slicing `s[:n]`, `str.split('\n')`, `sep.join(parts)`, `dict.get(key, default)`
 * and `str(int)`, together with the "stripped non-blank lines" comprehension
 * that turns a bullet-point reply into key points.
 */
module Text {

  /** Python's `str.isspace()` for one character. */
  predicate IsSpace(c: char)
  {
    c == ' ' || ('\t' <= c <= '\r') || ('\U{1C}' <= c <= '\U{1F}') ||
    c == '\U{85}' || c == '\U{A0}' || c == '\U{1680}' ||
    ('\U{2000}' <= c <= '\U{200A}') || c == '\U{2028}' || c == '\U{2029}' ||
    c == '\U{202F}' || c == '\U{205F}' || c == '\U{3000}'
  }

  predicate AllSpace(s: string)
  {
    forall i :: 0 <= i < |s| ==> IsSpace(s[i])
  }

  /** The number of leading whitespace characters. */
  function LeadingSpaces(s: string): (n: nat)
    ensures n <= |s|
    ensures forall i :: 0 <= i < n ==> IsSpace(s[i])
    ensures n < |s| ==> !IsSpace(s[n])
  {
    if s != [] && IsSpace(s[0]) then 1 + LeadingSpaces(s[1..]) else 0
  }

  /** The number of trailing whitespace characters. */
  function TrailingSpaces(s: string): (n: nat)
    ensures n <= |s|
    ensures forall i :: |s| - n <= i < |s| ==> IsSpace(s[i])
    ensures n < |s| ==> !IsSpace(s[|s| - 1 - n])
  {
    if s != [] && IsSpace(s[|s| - 1]) then 1 + TrailingSpaces(s[..|s| - 1]) else 0
  }

  /** Python's `s.strip()`: leading and trailing whitespace removed. */
  function Strip(s: string): (r: string)
    ensures r == [] || (!IsSpace(r[0]) && !IsSpace(r[|r| - 1]))
    ensures r == [] <==> AllSpace(s)
  {
    var a := LeadingSpaces(s);
    if a == |s| then []
    else
      var b := TrailingSpaces(s);
      assert a < |s| - b;
      s[a..|s| - b]
  }

  /** The leading whitespace is whitespace. */
  lemma LeadingSpacesAreSpace(s: string)
    ensures AllSpace(s[..LeadingSpaces(s)])
  {
    var p := s[..LeadingSpaces(s)];
    forall i | 0 <= i < |p| ensures IsSpace(p[i]) {
      assert p[i] == s[i];
    }
  }

  /** The trailing whitespace is whitespace. */
  lemma TrailingSpacesAreSpace(s: string)
    ensures AllSpace(s[|s| - TrailingSpaces(s)..])
  {
    var b := TrailingSpaces(s);
    var q := s[|s| - b..];
    forall i | 0 <= i < |q| ensures IsSpace(q[i]) {
      assert q[i] == s[|s| - b + i];
    }
  }

  lemma SliceThree(s: string, a: nat, c: nat)
    requires a <= c <= |s|
    ensures s == s[..a] + s[a..c] + s[c..]
  {
  }

  /** `s` is `Strip(s)` surrounded by whitespace on both sides. */
  lemma StripSplitsInput(s: string) returns (p: string, q: string)
    ensures AllSpace(p) && AllSpace(q) && s == p + Strip(s) + q
  {
    var a := LeadingSpaces(s);
    if a == |s| {
      p, q := s, [];
      assert s == p + [] + q;
    } else {
      var b := TrailingSpaces(s);
      p, q := s[..a], s[|s| - b..];
      LeadingSpacesAreSpace(s);
      TrailingSpacesAreSpace(s);
      SliceThree(s, a, |s| - b);
    }
  }

  /**
   * Strip is determined by its defining properties: whatever surrounds a core with
   * non-space ends (or an empty core) by whitespace strips to that core.
   */
  lemma StripExact(p: string, m: string, q: string)
    requires AllSpace(p) && AllSpace(q)
    requires m == [] || (!IsSpace(m[0]) && !IsSpace(m[|m| - 1]))
    ensures Strip(p + m + q) == m
  {
    var s := p + m + q;
    if m == [] {
      assert AllSpace(s);
    } else {
      var a := LeadingSpaces(s);
      assert s[|p|] == m[0];
      assert forall i :: 0 <= i < |p| ==> s[i] == p[i];
      assert a == |p|;
      var b := TrailingSpaces(s);
      assert s[|s| - 1 - |q|] == m[|m| - 1];
      assert forall i :: |s| - |q| <= i < |s| ==> s[i] == q[i - (|s| - |q|)];
      assert b == |q|;
      assert s[|p|..|s| - |q|] == m;
    }
  }

  /** Stripping is idempotent. */
  lemma StripIdempotent(s: string)
    ensures Strip(Strip(s)) == Strip(s)
  {
    StrippedIsFixed(Strip(s));
  }

  /** A text with no whitespace at either end strips to itself. */
  lemma StrippedIsFixed(m: string)
    requires m == [] || (!IsSpace(m[0]) && !IsSpace(m[|m| - 1]))
    ensures Strip(m) == m
  {
    assert [] + m + [] == m;
    StripExact([], m, []);
  }

  /** `str.lower()` on one character: ASCII capitals only. */
  function LowerChar(c: char): char
  {
    if 'A' <= c <= 'Z' then (c as int + 32) as char else c
  }

  /** `str.lower()`, character by character. */
  function Lower(s: string): (r: string)
    ensures |r| == |s|
    ensures forall i :: 0 <= i < |s| ==> r[i] == LowerChar(s[i])
  {
    seq(|s|, i requires 0 <= i < |s| => LowerChar(s[i]))
  }

  /** The reply normalisation used throughout: `reply.strip().lower()`. */
  function Normalise(reply: string): (r: string)
    ensures |r| <= |reply|
  {
    Lower(Strip(reply))
  }

  /** A reply already in normal form: no capitals and no surrounding whitespace. */
  predicate IsNormalised(s: string)
  {
    (forall i :: 0 <= i < |s| ==> !('A' <= s[i] <= 'Z')) &&
    (s == [] || (!IsSpace(s[0]) && !IsSpace(s[|s| - 1])))
  }

  /** Normalisation yields a normal form, and normal forms are left unchanged. */
  lemma LowerCharIsLower(c: char)
    ensures !('A' <= LowerChar(c) <= 'Z')
    ensures IsSpace(LowerChar(c)) == IsSpace(c)
  {
  }

  lemma LowerKeepsNormalForm(s: string)
    requires forall i :: 0 <= i < |s| ==> !('A' <= s[i] <= 'Z')
    ensures Lower(s) == s
  {
  }

  /** Normalisation yields a normal form. */
  lemma NormaliseIsNormalised(reply: string)
    ensures IsNormalised(Normalise(reply))
  {
    var m := Strip(reply);
    var n := Lower(m);
    forall i | 0 <= i < |n| ensures !('A' <= n[i] <= 'Z') {
      LowerCharIsLower(m[i]);
    }
    if n != [] {
      LowerCharIsLower(m[0]);
      LowerCharIsLower(m[|m| - 1]);
    }
  }

  /** Normal forms are left unchanged: normalising twice is normalising once. */
  lemma NormaliseIdempotent(reply: string)
    ensures Normalise(Normalise(reply)) == Normalise(reply)
  {
    NormaliseIsNormalised(reply);
    NormalFormIsFixed(Normalise(reply));
  }

  /** A text in normal form normalises to itself. */
  lemma NormalFormIsFixed(n: string)
    requires IsNormalised(n)
    ensures Normalise(n) == n
  {
    StrippedIsFixed(n);
    LowerKeepsNormalForm(n);
  }

  lemma AllSpaceConcat(a: string, b: string)
    requires AllSpace(a) && AllSpace(b)
    ensures AllSpace(a + b)
  {
    assert forall i :: 0 <= i < |a + b| ==> (a + b)[i] == if i < |a| then a[i] else b[i - |a|];
  }

  /** Whitespace around a string does not change what it strips to. */
  lemma StripIgnoresPadding(p: string, s: string, q: string)
    requires AllSpace(p) && AllSpace(q)
    ensures Strip(p + s + q) == Strip(s)
  {
    var p', q' := StripSplitsInput(s);
    var m := Strip(s);
    var front, back := p + p', q' + q;
    assert AllSpace(front) by { AllSpaceConcat(p, p'); }
    assert AllSpace(back) by { AllSpaceConcat(q', q); }
    assert p + s + q == front + m + back by { Regroup(p, p', m, q', q); }
    StripExact(front, m, back);
  }

  lemma Regroup(a: string, b: string, c: string, d: string, e: string)
    ensures a + (b + c + d) + e == (a + b) + c + (d + e)
  {
  }

  /** Whitespace around a reply does not change its normal form. */
  lemma NormaliseIgnoresPadding(p: string, reply: string, q: string)
    requires AllSpace(p) && AllSpace(q)
    ensures Normalise(p + reply + q) == Normalise(reply)
  {
    StripIgnoresPadding(p, reply, q);
  }

  /** A case-insensitive comparison with a lower-case word, written independently of `Lower`. */
  predicate EqualsIgnoringCase(s: string, word: string)
  {
    |s| == |word| &&
    forall i :: 0 <= i < |s| ==> s[i] == word[i] || ('A' <= s[i] <= 'Z' && s[i] as int + 32 == word[i] as int)
  }

  /** A word of lower-case letters and spaces only. */
  predicate IsLowerWord(word: string)
  {
    forall i :: 0 <= i < |word| ==> 'a' <= word[i] <= 'z' || word[i] == ' '
  }

  /** Comparing the normal form with a lower-case word is a case-insensitive comparison of the stripped reply. */
  lemma NormaliseMatchesWord(reply: string, word: string)
    requires IsLowerWord(word)
    ensures Normalise(reply) == word <==> EqualsIgnoringCase(Strip(reply), word)
  {
    var m := Strip(reply);
    if EqualsIgnoringCase(m, word) {
      assert forall i :: 0 <= i < |m| ==> Lower(m)[i] == word[i];
    }
  }

  /** Some whitespace, then the stripped text, then some whitespace make up the text. */
  lemma StripPadding(s: string)
    ensures exists p, q :: AllSpace(p) && AllSpace(q) && s == p + Strip(s) + q
  {
    var p, q := StripSplitsInput(s);
  }

  /** The normal form of a reply is its stripped form with capitals lowered, and nothing else changed. */
  lemma NormaliseFoldsCase(reply: string)
    ensures EqualsIgnoringCase(Strip(reply), Normalise(reply))
  {
  }

  /** The reply, stripped and lower-cased, equals the lower-case `word`. */
  function MatchesWord(reply: string, word: string): (b: bool)
    requires IsLowerWord(word)
    ensures b <==> EqualsIgnoringCase(Strip(reply), word)
  {
    NormaliseMatchesWord(reply, word);
    Normalise(reply) == word
  }

  /** Python's `s[:n]` for any integer `n` (a negative `n` counts from the end). */
  function Prefix(s: string, n: int): (r: string)
    ensures 0 <= n <= |s| ==> r == s[..n]
    ensures n > |s| ==> r == s
    ensures n < 0 ==> r == s[..if |s| + n < 0 then 0 else |s| + n]
  {
    if n >= |s| then s
    else if n >= 0 then s[..n]
    else if |s| + n < 0 then []
    else s[..|s| + n]
  }

  /** Python's `s.split(sep)` for a one-character separator. */
  function Split(s: string, sep: char): (parts: seq<string>)
    ensures |parts| >= 1
    ensures forall i :: 0 <= i < |parts| ==> sep !in parts[i]
    ensures forall i, j :: 0 <= i < |parts| && 0 <= j < |parts[i]| ==> parts[i][j] in s
  {
    if s == [] then [""]
    else if s[0] == sep then [""] + Split(s[1..], sep)
    else
      var t := Split(s[1..], sep);
      [[s[0]] + t[0]] + t[1..]
  }

  /** Python's `sep.join(parts)`. */
  function Join(sep: string, parts: seq<string>): string
  {
    if |parts| == 0 then ""
    else if |parts| == 1 then parts[0]
    else parts[0] + sep + Join(sep, parts[1..])
  }

  lemma {:induction false} SplitNoSeparator(a: string, sep: char)
    requires sep !in a
    ensures Split(a, sep) == [a]
  {
    if a != [] {
      SplitNoSeparator(a[1..], sep);
      assert [a[0]] + a[1..] == a;
    }
  }

  lemma {:induction false} SplitAfterLine(a: string, b: string, sep: char)
    requires sep !in a
    ensures Split(a + [sep] + b, sep) == [a] + Split(b, sep)
  {
    if a == [] {
      assert a + [sep] + b == [sep] + b;
      assert ([sep] + b)[1..] == b;
    } else {
      assert (a + [sep] + b)[1..] == a[1..] + [sep] + b;
      SplitAfterLine(a[1..], b, sep);
      assert [a[0]] + a[1..] == a;
    }
  }

  /** Splitting what was joined with a one-character separator gives the parts back. */
  lemma {:induction false} SplitJoin(parts: seq<string>, sep: char)
    requires |parts| >= 1
    requires forall i :: 0 <= i < |parts| ==> sep !in parts[i]
    ensures Split(Join([sep], parts), sep) == parts
  {
    if |parts| == 1 {
      SplitNoSeparator(parts[0], sep);
    } else {
      SplitJoin(parts[1..], sep);
      SplitAfterLine(parts[0], Join([sep], parts[1..]), sep);
      assert [parts[0]] + parts[1..] == parts;
    }
  }

  /** `[line.strip() for line in lines if line.strip()]`. */
  function StrippedNonBlank(lines: seq<string>): seq<string>
  {
    if lines == [] then []
    else (if Strip(lines[0]) != "" then [Strip(lines[0])] else []) + StrippedNonBlank(lines[1..])
  }

  /** `[p.strip() for p in text.split('\n') if p.strip()]`: the key points of a bullet-point reply. */
  function StrippedNonBlankLines(text: string): seq<string>
  {
    StrippedNonBlank(Split(text, '\n'))
  }

  /** A well-formed key point: non-empty, no surrounding whitespace, no line break. */
  predicate IsKeyPoint(p: string)
  {
    p != "" && !IsSpace(p[0]) && !IsSpace(p[|p| - 1]) && '\n' !in p
  }

  /** A key point is left unchanged by stripping. */
  lemma KeyPointIsStripped(p: string)
    requires IsKeyPoint(p)
    ensures Strip(p) == p
  {
    assert [] + p + [] == p;
    StripExact([], p, []);
  }

  /** A line without a line break that is not blank strips to a key point. */
  lemma StrippedLineIsKeyPoint(line: string)
    requires '\n' !in line && Strip(line) != ""
    ensures IsKeyPoint(Strip(line))
  {
    var p, q := StripSplitsInput(line);
  }

  /** Key points of two runs of lines together are key points. */
  lemma KeyPointsConcat(a: seq<string>, b: seq<string>)
    requires forall i :: 0 <= i < |a| ==> IsKeyPoint(a[i])
    requires forall i :: 0 <= i < |b| ==> IsKeyPoint(b[i])
    ensures forall i :: 0 <= i < |a + b| ==> IsKeyPoint((a + b)[i])
  {
    forall i | 0 <= i < |a + b| ensures IsKeyPoint((a + b)[i]) {
      if i >= |a| {
        assert (a + b)[i] == b[i - |a|];
      }
    }
  }

  lemma {:induction false} StrippedNonBlankWellFormed(lines: seq<string>)
    requires forall i :: 0 <= i < |lines| ==> '\n' !in lines[i]
    ensures forall i :: 0 <= i < |StrippedNonBlank(lines)| ==> IsKeyPoint(StrippedNonBlank(lines)[i])
    ensures |StrippedNonBlank(lines)| <= |lines|
  {
    if lines != [] {
      var tail := lines[1..];
      assert forall i :: 0 <= i < |tail| ==> tail[i] == lines[i + 1];
      StrippedNonBlankWellFormed(tail);
      var head := if Strip(lines[0]) != "" then [Strip(lines[0])] else [];
      if Strip(lines[0]) != "" {
        StrippedLineIsKeyPoint(lines[0]);
      }
      KeyPointsConcat(head, StrippedNonBlank(tail));
    }
  }

  /** Every key point is non-empty, has no surrounding whitespace and no line break; there are no more points than lines. */
  lemma KeyPointsWellFormed(text: string)
    ensures forall i :: 0 <= i < |StrippedNonBlankLines(text)| ==> IsKeyPoint(StrippedNonBlankLines(text)[i])
    ensures |StrippedNonBlankLines(text)| <= |Split(text, '\n')|
  {
    StrippedNonBlankWellFormed(Split(text, '\n'));
  }

  /** Key points keep line order: the first line contributes its stripped self (if not blank) before the rest. */
  lemma KeyPointsInLineOrder(line: string, rest: string)
    requires '\n' !in line
    ensures StrippedNonBlankLines(line + "\n" + rest) ==
            (if Strip(line) != "" then [Strip(line)] else []) + StrippedNonBlankLines(rest)
  {
    SplitAfterLine(line, rest, '\n');
    assert Split(line + "\n" + rest, '\n')[1..] == Split(rest, '\n');
  }

  lemma {:induction false} StrippedNonBlankOfBlank(lines: seq<string>)
    requires forall i :: 0 <= i < |lines| ==> AllSpace(lines[i])
    ensures StrippedNonBlank(lines) == []
  {
    if lines != [] {
      StrippedNonBlankOfBlank(lines[1..]);
    }
  }

  /** An empty or all-whitespace reply has no key points. */
  lemma KeyPointsOfBlank(text: string)
    ensures AllSpace(text) ==> StrippedNonBlankLines(text) == []
  {
    if AllSpace(text) {
      var lines := Split(text, '\n');
      forall i | 0 <= i < |lines| ensures AllSpace(lines[i]) {
        forall j | 0 <= j < |lines[i]| ensures IsSpace(lines[i][j]) {
          assert lines[i][j] in text;
        }
      }
      StrippedNonBlankOfBlank(lines);
    }
  }

  lemma {:induction false} StrippedNonBlankOfKeyPoints(points: seq<string>)
    requires forall i :: 0 <= i < |points| ==> IsKeyPoint(points[i])
    ensures StrippedNonBlank(points) == points
  {
    if points != [] {
      StrippedNonBlankOfKeyPoints(points[1..]);
      KeyPointIsStripped(points[0]);
    }
  }

  /**
   * Joining the key points with line breaks and extracting key points again gives
   * the same points: the knowledge text carries exactly the extracted points.
   */
  lemma KeyPointsJoinRoundTrip(text: string)
    ensures StrippedNonBlankLines(Join("\n", StrippedNonBlankLines(text))) == StrippedNonBlankLines(text)
  {
    var points := StrippedNonBlankLines(text);
    KeyPointsWellFormed(text);
    if points == [] {
      assert Split("", '\n') == [""];
    } else {
      SplitJoin(points, '\n');
      StrippedNonBlankOfKeyPoints(points);
    }
  }

  /** Python's `d.get(key, default)` on a string dictionary. */
  function Get(d: map<string, string>, key: string, default: string): (r: string)
    ensures key in d ==> r == d[key]
    ensures key !in d ==> r == default
  {
    if key in d then d[key] else default
  }

  /** The number a string of decimal digits denotes, most significant digit first. */
  function DigitsValue(s: string): int
  {
    if s == [] then 0 else 10 * DigitsValue(s[..|s| - 1]) + (s[|s| - 1] as int - '0' as int)
  }

  /** Python's `str(n)` for a natural number: its decimal digits, without a leading zero. */
  function NatToString(n: nat): (r: string)
    ensures |r| >= 1
    ensures forall i :: 0 <= i < |r| ==> '0' <= r[i] <= '9'
    ensures DigitsValue(r) == n
    ensures n > 0 ==> r[0] != '0'
  {
    if n < 10 then
      var r := [('0' as int + n) as char];
      assert r[..0] == [];
      r
    else
      var r := NatToString(n / 10) + [('0' as int + n % 10) as char];
      assert r[..|r| - 1] == NatToString(n / 10);
      r
  }
}
