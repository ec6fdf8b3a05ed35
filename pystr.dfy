/**
 * The operations of Python's `str` type that minibench relies on, over strings as
 * sequences of characters: `split`, `join`, `strip`, `splitlines()[0]`, `replace(x, '')`,
 * `startswith`, `ljust`, `lower`, `title`, `*` on a one-character string and `str(int)`.
 * Case mapping is restricted to the ASCII letters (see README, "Left out").
 */
module PyStr {

  // ---------------------------------------------------------------------------
  // Character classes
  // ---------------------------------------------------------------------------

  predicate IsUpper(c: char) { 'A' <= c <= 'Z' }

  predicate IsLower(c: char) { 'a' <= c <= 'z' }

  predicate IsLetter(c: char) { IsUpper(c) || IsLower(c) }

  predicate IsDigit(c: char) { '0' <= c <= '9' }

  /** `str.isspace()` for one character: the code points Python treats as whitespace. */
  predicate IsSpace(c: char) {
    var n := c as int;
    (9 <= n <= 13) || (28 <= n <= 32) || n == 0x85 || n == 0xA0 || n == 0x1680
    || (0x2000 <= n <= 0x200A) || n == 0x2028 || n == 0x2029 || n == 0x202F
    || n == 0x205F || n == 0x3000
  }

  /** The characters at which `str.splitlines()` ends a line. */
  predicate IsLineBreak(c: char) {
    var n := c as int;
    (10 <= n <= 13) || (28 <= n <= 30) || n == 0x85 || n == 0x2028 || n == 0x2029
  }

  lemma LineBreakIsSpace(c: char)
    ensures IsLineBreak(c) ==> IsSpace(c)
  {
  }

  function ToLower(c: char): char {
    if IsUpper(c) then (c as int + 32) as char else c
  }

  function ToUpper(c: char): char {
    if IsLower(c) then (c as int - 32) as char else c
  }

  /** No upper-case letter anywhere in `s`. */
  predicate NoUpper(s: string) {
    forall i :: 0 <= i < |s| ==> !IsUpper(s[i])
  }

  // ---------------------------------------------------------------------------
  // lower() and title()
  // ---------------------------------------------------------------------------

  /** `s.lower()`. */
  function Lower(s: string): (r: string)
    ensures |r| == |s| && NoUpper(r)
    ensures forall i :: 0 <= i < |s| ==> r[i] == ToLower(s[i])
  {
    seq(|s|, i requires 0 <= i < |s| => ToLower(s[i]))
  }

  /** One step of `str.title()`: the case a letter gets given whether the character before it was a letter. */
  function TitleChar(c: char, afterLetter: bool): char {
    if !IsLetter(c) then c else if afterLetter then ToLower(c) else ToUpper(c)
  }

  /** `str.title()` as CPython computes it: a left-to-right scan remembering whether the previous character was cased. */
  function TitleFrom(s: string, afterLetter: bool): (r: string)
    ensures |r| == |s|
    ensures forall i :: 0 <= i < |s| ==>
      r[i] == TitleChar(s[i], if i == 0 then afterLetter else IsLetter(s[i - 1]))
    decreases |s|
  {
    if s == [] then [] else [TitleChar(s[0], afterLetter)] + TitleFrom(s[1..], IsLetter(s[0]))
  }

  /**
   * `s.title()`: every letter that starts the string or follows a non-letter is upper-cased,
   * every letter that follows a letter is lower-cased, and every other character is kept.
   */
  function Title(s: string): (r: string)
    ensures |r| == |s|
    ensures forall i :: 0 <= i < |s| && !IsLetter(s[i]) ==> r[i] == s[i]
    ensures forall i :: 0 <= i < |s| && IsLetter(s[i]) && (i == 0 || !IsLetter(s[i - 1])) ==> r[i] == ToUpper(s[i])
    ensures forall i :: 0 < i < |s| && IsLetter(s[i]) && IsLetter(s[i - 1]) ==> r[i] == ToLower(s[i])
  {
    var r := TitleFrom(s, false);
    assert forall i :: 0 <= i < |s| && !IsLetter(s[i]) ==> r[i] == s[i] by {
      forall i | 0 <= i < |s| && !IsLetter(s[i]) ensures r[i] == s[i] {
        assert r[i] == TitleChar(s[i], if i == 0 then false else IsLetter(s[i - 1]));
      }
    }
    r
  }

  // ---------------------------------------------------------------------------
  // split() and join()
  // ---------------------------------------------------------------------------

  /** `sep.join(words)`. */
  function Join(words: seq<string>, sep: string): string {
    if |words| == 0 then []
    else if |words| == 1 then words[0]
    else words[0] + sep + Join(words[1..], sep)
  }

  /** `s.split(sep)` for a one-character separator: the pieces between separators, empty ones kept. */
  function Split(s: string, sep: char): (parts: seq<string>)
    ensures |parts| >= 1
    ensures forall p :: p in parts ==> sep !in p
    decreases |s|
  {
    if s == [] then [[]]
    else
      var rest := Split(s[1..], sep);
      if s[0] == sep then [[]] + rest
      else
        assert rest[0] in rest;
        [[s[0]] + rest[0]] + rest[1..]
  }

  /** Joining the pieces of a split with the separator gives the string back. */
  lemma {:induction false} SplitJoin(s: string, sep: char)
    ensures Join(Split(s, sep), [sep]) == s
    decreases |s|
  {
    if s != [] {
      var rest := Split(s[1..], sep);
      SplitJoin(s[1..], sep);
      if s[0] == sep {
        assert Split(s, sep) == [[]] + rest;
        assert ([[]] + rest)[1..] == rest;
      } else {
        var parts := Split(s, sep);
        assert parts == [[s[0]] + rest[0]] + rest[1..];
        if |rest| > 1 {
          assert parts[1..] == rest[1..];
        }
      }
    }
  }

  /** A string without the separator is split into itself alone. */
  lemma {:induction false} SplitWithoutSeparator(s: string, sep: char)
    requires sep !in s
    ensures Split(s, sep) == [s]
    decreases |s|
  {
    if s != [] {
      SplitWithoutSeparator(s[1..], sep);
      assert [s[0]] + s[1..] == s;
    }
  }

  /** A separator ends the first piece; the rest of the string is split on its own. */
  lemma {:induction false} SplitAfterSeparator(a: string, sep: char, b: string)
    requires sep !in a
    ensures Split(a + [sep] + b, sep) == [a] + Split(b, sep)
    decreases |a|
  {
    var s := a + [sep] + b;
    if a == [] {
      assert s[0] == sep && s[1..] == b;
    } else {
      assert s[0] == a[0] && s[1..] == a[1..] + [sep] + b;
      SplitAfterSeparator(a[1..], sep, b);
      assert [a[0]] + a[1..] == a;
    }
  }

  /** Splitting words joined with a separator none of them contains gives the words back. */
  lemma {:induction false} JoinSplit(words: seq<string>, sep: char)
    requires |words| >= 1
    requires forall w :: w in words ==> sep !in w
    ensures Split(Join(words, [sep]), sep) == words
    decreases |words|
  {
    assert words[0] in words;
    if |words| == 1 {
      SplitWithoutSeparator(words[0], sep);
    } else {
      assert forall w :: w in words[1..] ==> w in words;
      JoinSplit(words[1..], sep);
      SplitAfterSeparator(words[0], sep, Join(words[1..], [sep]));
      assert words == [words[0]] + words[1..];
    }
  }

  /** The pieces of a split contain no character the string does not contain. */
  lemma {:induction false} SplitAvoids(s: string, sep: char, c: char)
    requires c !in s
    ensures forall p :: p in Split(s, sep) ==> c !in p
    decreases |s|
  {
    if s != [] {
      SplitAvoids(s[1..], sep, c);
      var rest := Split(s[1..], sep);
      assert rest[0] in rest;
    }
  }

  /** A character that is in no word and not in the separator is not in the joined string. */
  lemma {:induction false} JoinAvoids(words: seq<string>, sep: string, c: char)
    requires c !in sep
    requires forall w :: w in words ==> c !in w
    ensures c !in Join(words, sep)
    decreases |words|
  {
    if |words| > 1 {
      assert words[0] in words;
      assert forall w :: w in words[1..] ==> w in words;
      JoinAvoids(words[1..], sep, c);
    } else if |words| == 1 {
      assert words[0] in words;
    }
  }

  /** Every character of a word of the list appears in the words joined with "". */
  lemma {:induction false} InJoined(words: seq<string>, k: nat, i: nat)
    requires k < |words| && i < |words[k]|
    ensures words[k][i] in Join(words, [])
    decreases |words|
  {
    if |words| > 1 {
      if k == 0 {
        assert Join(words, []) == words[0] + Join(words[1..], []);
        assert Join(words, [])[i] == words[0][i];
      } else {
        InJoined(words[1..], k - 1, i);
        assert Join(words, []) == words[0] + Join(words[1..], []);
      }
    }
  }

  // ---------------------------------------------------------------------------
  // startswith(), replace(pat, '')
  // ---------------------------------------------------------------------------

  /** `s.startswith(prefix)`. */
  predicate StartsWith(s: string, prefix: string) {
    |prefix| <= |s| && s[..|prefix|] == prefix
  }

  /** `pat` occurs in `s` at index `i`. */
  predicate OccursAt(s: string, pat: string, i: int) {
    0 <= i && i + |pat| <= |s| && s[i..i + |pat|] == pat
  }

  /** `pat in s`. */
  predicate Contains(s: string, pat: string) {
    exists i :: 0 <= i <= |s| && OccursAt(s, pat, i)
  }

  /**
   * `s.replace(pat, '')`: the occurrences of `pat` found scanning left to right, without
   * overlap, are deleted. Replacing the empty string by the empty string changes nothing.
   */
  function RemoveAll(s: string, pat: string): (r: string)
    ensures |r| <= |s|
    decreases |s|
  {
    if pat == [] || |s| < |pat| then s
    else if s[..|pat|] == pat then RemoveAll(s[|pat|..], pat)
    else [s[0]] + RemoveAll(s[1..], pat)
  }

  /** A string in which the pattern does not occur is left unchanged. */
  lemma {:induction false} RemoveAllAbsent(s: string, pat: string)
    requires !Contains(s, pat)
    ensures RemoveAll(s, pat) == s
    decreases |s|
  {
    if pat != [] && |s| >= |pat| {
      assert !OccursAt(s, pat, 0);
      assert s[..|pat|] != pat;
      forall i | 0 <= i <= |s[1..]|
        ensures !OccursAt(s[1..], pat, i)
      {
        if OccursAt(s[1..], pat, i) {
          assert s[1..][i..i + |pat|] == s[i + 1..i + 1 + |pat|];
          assert OccursAt(s, pat, i + 1);
        }
      }
      RemoveAllAbsent(s[1..], pat);
    }
  }

  /** A pattern holding a character the string lacks does not occur in it. */
  lemma MissingCharNotContained(s: string, pat: string, c: char)
    requires c in pat && c !in s
    ensures !Contains(s, pat)
  {
    var j :| 0 <= j < |pat| && pat[j] == c;
    forall i | 0 <= i <= |s| ensures !OccursAt(s, pat, i) {
      if i + |pat| <= |s| {
        assert s[i..i + |pat|][j] == s[i + j] != c;
      }
    }
  }

  /** A leading occurrence of a non-empty pattern is removed, and the rest is scanned on its own. */
  lemma RemoveAllLeading(pat: string, rest: string)
    requires pat != []
    ensures RemoveAll(pat + rest, pat) == RemoveAll(rest, pat)
  {
    assert (pat + rest)[..|pat|] == pat;
    assert (pat + rest)[|pat|..] == rest;
  }

  // ---------------------------------------------------------------------------
  // strip() and splitlines()[0]
  // ---------------------------------------------------------------------------

  predicate AllSpace(s: string) {
    forall i :: 0 <= i < |s| ==> IsSpace(s[i])
  }

  /** The number of whitespace characters `s` starts with. */
  function LeadingSpaces(s: string): (n: nat)
    ensures n <= |s| && AllSpace(s[..n])
    ensures n < |s| ==> !IsSpace(s[n])
    decreases |s|
  {
    if s != [] && IsSpace(s[0]) then 1 + LeadingSpaces(s[1..]) else 0
  }

  /** The number of whitespace characters `s` ends with. */
  function TrailingSpaces(s: string): (n: nat)
    ensures n <= |s| && AllSpace(s[|s| - n..])
    ensures n < |s| ==> !IsSpace(s[|s| - n - 1])
    decreases |s|
  {
    if s != [] && IsSpace(s[|s| - 1]) then
      var n' := TrailingSpaces(s[..|s| - 1]);
      assert s[..|s| - 1][|s| - 1 - n'..] == s[|s| - 1 - n'..|s| - 1];
      1 + n'
    else 0
  }

  /**
   * `s.strip()`: `s` without its leading and trailing whitespace. The result is empty exactly
   * when `s` is blank, and otherwise starts and ends with a non-whitespace character.
   */
  function Strip(s: string): (r: string)
    ensures r == [] <==> AllSpace(s)
    ensures r != [] ==> !IsSpace(r[0]) && !IsSpace(r[|r| - 1])
    ensures LeadingSpaces(s) + |r| <= |s| && r == s[LeadingSpaces(s)..LeadingSpaces(s) + |r|]
  {
    var lead := LeadingSpaces(s);
    var t := s[lead..];
    if lead == |s| then
      assert s[..lead] == s;
      []
    else
      var trail := TrailingSpaces(t);
      assert trail < |t|;
      var r := t[..|t| - trail];
      assert r[0] == s[lead] && r[|r| - 1] == t[|t| - trail - 1];
      assert !IsSpace(s[lead]);
      assert r == s[lead..lead + |r|];
      r
  }

  /**
   * `s.splitlines()[0]` for a string that does not start a line break: the characters
   * before the first line break.
   */
  function FirstLine(s: string): (line: string)
    ensures StartsWith(s, line)
    ensures forall i :: 0 <= i < |line| ==> !IsLineBreak(line[i])
    ensures |line| < |s| ==> IsLineBreak(s[|line|])
    ensures s != [] && !IsLineBreak(s[0]) ==> line != []
    decreases |s|
  {
    if s == [] || IsLineBreak(s[0]) then [] else [s[0]] + FirstLine(s[1..])
  }

  /** Whitespace followed by a non-whitespace character: the leading run is exactly that whitespace. */
  lemma {:induction false} LeadingSpacesOf(lead: string, rest: string)
    requires AllSpace(lead) && rest != [] && !IsSpace(rest[0])
    ensures LeadingSpaces(lead + rest) == |lead|
    decreases |lead|
  {
    var s := lead + rest;
    if lead != [] {
      assert s[0] == lead[0] && IsSpace(s[0]);
      assert s[1..] == lead[1..] + rest;
      assert AllSpace(lead[1..]);
      LeadingSpacesOf(lead[1..], rest);
      assert LeadingSpaces(s) == 1 + LeadingSpaces(s[1..]);
    } else {
      assert s == rest;
    }
  }


  /** A non-whitespace character followed by whitespace: the trailing run is exactly that whitespace. */
  lemma {:induction false} TrailingSpacesOf(body: string, trail: string)
    requires AllSpace(trail) && body != [] && !IsSpace(body[|body| - 1])
    ensures TrailingSpaces(body + trail) == |trail|
    decreases |trail|
  {
    var s := body + trail;
    if trail != [] {
      assert s[..|s| - 1] == body + trail[..|trail| - 1];
      TrailingSpacesOf(body, trail[..|trail| - 1]);
    } else {
      assert s == body;
    }
  }

  /** Stripping whitespace around a text that starts and ends with non-whitespace gives the text. */
  lemma StripOf(lead: string, body: string, trail: string)
    requires AllSpace(lead) && AllSpace(trail)
    requires body != [] && !IsSpace(body[0]) && !IsSpace(body[|body| - 1])
    ensures Strip(lead + body + trail) == body
  {
    var s := lead + body + trail;
    assert s == lead + (body + trail);
    LeadingSpacesOf(lead, body + trail);
    assert s[|lead|..] == body + trail;
    TrailingSpacesOf(body, trail);
    assert (body + trail)[..|body|] == body;
  }

  /** A line of no line breaks that `s` starts with, followed by a break or the end, is its first line. */
  lemma {:induction false} FirstLineIs(s: string, line: string)
    requires StartsWith(s, line)
    requires forall i :: 0 <= i < |line| ==> !IsLineBreak(line[i])
    requires |line| < |s| ==> IsLineBreak(s[|line|])
    ensures FirstLine(s) == line
    decreases |line|
  {
    if line != [] {
      assert s[0] == line[0];
      assert s[1..][..|line| - 1] == line[1..];
      FirstLineIs(s[1..], line[1..]);
    }
  }

  // ---------------------------------------------------------------------------
  // c * n and ljust()
  // ---------------------------------------------------------------------------

  /** `c * n` for a one-character string `c`. */
  function Repeat(c: char, n: int): (r: string)
    ensures |r| == if n < 0 then 0 else n
    ensures forall i :: 0 <= i < |r| ==> r[i] == c
    decreases n
  {
    if n <= 0 then [] else [c] + Repeat(c, n - 1)
  }

  /** `s.ljust(width)`: `s` padded on the right with spaces up to `width`, never cut. */
  function Ljust(s: string, width: int): (r: string)
    ensures |r| == if |s| < width then width else |s|
    ensures r[..|s|] == s
    ensures forall i :: |s| <= i < |r| ==> r[i] == ' '
  {
    if |s| < width then s + Repeat(' ', width - |s|) else s
  }

  // ---------------------------------------------------------------------------
  // str(int)
  // ---------------------------------------------------------------------------

  function DigitChar(d: nat): (c: char)
    requires d < 10
    ensures IsDigit(c)
  {
    ('0' as int + d) as char
  }

  /** The decimal digits of `n`, without leading zeros. */
  function NatStr(n: nat): (r: string)
    ensures |r| >= 1
    ensures forall i :: 0 <= i < |r| ==> IsDigit(r[i])
    decreases n
  {
    if n < 10 then [DigitChar(n)] else NatStr(n / 10) + [DigitChar(n % 10)]
  }

  /** `str(n)` for an integer. */
  function IntStr(n: int): (r: string) {
    if n < 0 then "-" + NatStr(-n) else NatStr(n)
  }

  predicate AllDigits(s: string) {
    forall i :: 0 <= i < |s| ==> IsDigit(s[i])
  }

  /** The number a string of decimal digits stands for. */
  function DigitsValue(s: string): nat
    requires AllDigits(s)
  {
    if s == [] then 0 else DigitsValue(s[..|s| - 1]) * 10 + (s[|s| - 1] as int - '0' as int)
  }

  /** Reading the digits back gives the number. */
  lemma {:induction false} NatStrRoundTrip(n: nat)
    ensures DigitsValue(NatStr(n)) == n
    decreases n
  {
    if n >= 10 {
      NatStrRoundTrip(n / 10);
      var s := NatStr(n);
      assert s[..|s| - 1] == NatStr(n / 10);
    }
  }

  lemma NatStrInjective(m: nat, n: nat)
    requires NatStr(m) == NatStr(n)
    ensures m == n
  {
    NatStrRoundTrip(m);
    NatStrRoundTrip(n);
  }

  /** `str` is one-to-one on integers. */
  lemma IntStrInjective(a: int, b: int)
    requires IntStr(a) == IntStr(b)
    ensures a == b
  {
    var s := IntStr(a);
    if a < 0 {
      assert s[0] == '-';
      assert b < 0;
      assert NatStr(-a) == s[1..] == NatStr(-b);
      NatStrInjective(-a, -b);
    } else {
      assert IsDigit(s[0]);
      assert b >= 0;
      NatStrInjective(a, b);
    }
  }

  /** An integer's text never contains `c` unless `c` is '-' or a digit. */
  lemma IntStrChars(n: int, c: char)
    requires c != '-' && !IsDigit(c)
    ensures c !in IntStr(n)
  {
    var s := IntStr(n);
    if n < 0 {
      assert forall i :: 1 <= i < |s| ==> s[i] == NatStr(-n)[i - 1];
    }
  }

  // ---------------------------------------------------------------------------
  // Ordering of strings (as Python compares them)
  // ---------------------------------------------------------------------------

  /** `a < b` on Python strings: lexicographic order on code points. */
  predicate LexLess(a: string, b: string)
    decreases |a|
  {
    if a == [] then b != []
    else b != [] && (a[0] < b[0] || (a[0] == b[0] && LexLess(a[1..], b[1..])))
  }

  /** Strictly increasing, as `dir()` lists names. */
  predicate StrictlySorted(names: seq<string>) {
    forall i, j :: 0 <= i < j < |names| ==> LexLess(names[i], names[j])
  }
}
