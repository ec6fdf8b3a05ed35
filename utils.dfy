/**
 * `minibench/utils.py`: `humanize`, which turns a code name (`SortDictByValue`,
 * `another_test`) into a display label (`Sort dict by value`, `Another test`).
 */
module Utils {
  import opened PyStr

  /** The length of the run of non-capital characters that `s` starts with. */
  function LowerRun(s: string): (n: nat)
    ensures n <= |s| && NoUpper(s[..n])
    ensures n < |s| ==> IsUpper(s[n])
    decreases |s|
  {
    if s == [] || IsUpper(s[0]) then 0 else 1 + LowerRun(s[1..])
  }

  /** A match of `RE_CAMEL`, `([A-Z][^A-Z]*)`: one capital followed only by non-capitals. */
  predicate IsCamelWord(w: string) {
    |w| >= 1 && IsUpper(w[0]) && NoUpper(w[1..])
  }

  /**
   * The matches of `RE_CAMEL` in a string that is empty or starts with a capital: each
   * match runs from a capital up to the next one, so together they spell the whole string.
   */
  function CamelFrom(s: string): (segs: seq<string>)
    requires s == [] || IsUpper(s[0])
    ensures forall w :: w in segs ==> IsCamelWord(w)
    ensures Join(segs, []) == s
    ensures segs == [] <==> s == []
    decreases |s|
  {
    if s == [] then []
    else
      var n := 1 + LowerRun(s[1..]);
      var word := s[..n];
      var segs := CamelFrom(s[n..]);
      assert word[1..] == s[1..][..n - 1];
      assert ([word] + segs)[1..] == segs;
      assert s == word + s[n..];
      [word] + segs
  }

  /**
   * `RE_CAMEL.findall(part)`: the capital-initiated segments of `part`, left to right. Put
   * together they give `part` from its first capital on, so a leading non-capital run is
   * dropped; there are none exactly when `part` has no capital.
   */
  function CamelSegments(part: string): (segs: seq<string>)
    ensures forall w :: w in segs ==> IsCamelWord(w)
    ensures Join(segs, []) == part[LowerRun(part)..]
    ensures segs == [] <==> NoUpper(part)
  {
    var skip := LowerRun(part);
    assert skip == |part| ==> part[..skip] == part;
    CamelFrom(part[skip..])
  }

  /** `RE_CAMEL.findall(part) or [part]`: the words one `_`-separated part contributes. */
  function PartWords(part: string): (words: seq<string>)
    ensures |words| >= 1
    ensures NoUpper(part) ==> words == [part]
    ensures !NoUpper(part) ==> words == CamelSegments(part)
  {
    var segs := CamelSegments(part);
    if segs == [] then [part] else segs
  }

  /** Every word lower-cased. */
  function LowerAll(ws: seq<string>): (r: seq<string>)
    ensures |r| == |ws|
    ensures forall i :: 0 <= i < |ws| ==> r[i] == Lower(ws[i])
    decreases |ws|
  {
    if ws == [] then [] else LowerAll(ws[..|ws| - 1]) + [Lower(ws[|ws| - 1])]
  }

  /**
   * The list `humanize` collects from the parts of a name, before it title-cases the first:
   * every part contributes at least one word, and every word is lower case.
   */
  function WordsOf(parts: seq<string>): (words: seq<string>)
    ensures |words| >= |parts|
    ensures forall i :: 0 <= i < |words| ==> NoUpper(words[i])
    decreases |parts|
  {
    if parts == [] then []
    else WordsOf(parts[..|parts| - 1]) + LowerAll(PartWords(parts[|parts| - 1]))
  }

  /** The words of a name split on `_`; there is always at least one. */
  function Words(text: string): (words: seq<string>)
    ensures |words| >= |Split(text, '_')| >= 1
  {
    WordsOf(Split(text, '_'))
  }

  /** What `humanize(text)` returns. */
  function Humanized(text: string): string {
    var words := Words(text);
    Join([Title(words[0])] + words[1..], " ")
  }

  /**
   * `humanize(text)`: collect the lower-cased words part by part, title-case the first
   * word in place, join with single spaces.
   */
  method Humanize(text: string) returns (human: string)
    ensures human == Humanized(text)
  {
    var words: seq<string> := [];
    var parts := Split(text, '_');
    for k := 0 to |parts|
      invariant words == WordsOf(parts[..k])
    {
      var part := parts[k];
      var ws := PartWords(part);
      words := AppendLowered(words, ws);
      WordsOfStep(parts, k);
    }
    assert parts[..|parts|] == parts;
    assert words == Words(text);
    ReplaceFirst(words, Title(words[0]));
    words := words[0 := Title(words[0])];
    human := Join(words, " ");
  }

  /** The inner loop of `humanize`: append every word of `ws`, lower-cased, to `words`. */
  method AppendLowered(words: seq<string>, ws: seq<string>) returns (extended: seq<string>)
    ensures extended == words + LowerAll(ws)
  {
    extended := words;
    for j := 0 to |ws|
      invariant extended == words + LowerAll(ws[..j])
    {
      LowerAllStep(ws, j);
      extended := extended + [Lower(ws[j])];
    }
    assert ws[..|ws|] == ws;
  }

  /** Overwriting the first element is the same as putting the new one in front of the rest. */
  lemma ReplaceFirst<T>(s: seq<T>, x: T)
    requires |s| >= 1
    ensures s[0 := x] == [x] + s[1..]
  {
    assert forall i :: 0 <= i < |s| ==> s[0 := x][i] == ([x] + s[1..])[i];
  }

  /** Lower-casing one more word of a list extends the lower-cased prefix by that word. */
  lemma LowerAllStep(ws: seq<string>, j: nat)
    requires j < |ws|
    ensures LowerAll(ws[..j + 1]) == LowerAll(ws[..j]) + [Lower(ws[j])]
  {
    assert ws[..j + 1][..j] == ws[..j];
  }

  /** Taking one more part extends the collected words by that part's words. */
  lemma WordsOfStep(parts: seq<string>, k: nat)
    requires k < |parts|
    ensures WordsOf(parts[..k + 1]) == WordsOf(parts[..k]) + LowerAll(PartWords(parts[k]))
  {
    assert parts[..k + 1][..k] == parts[..k];
  }

  // ---------------------------------------------------------------------------
  // Properties of humanize
  // ---------------------------------------------------------------------------

  /** Case mapping keeps every character that is not a letter where it was. */
  lemma LowerKeeps(w: string, c: char)
    requires !IsLetter(c) && c !in w
    ensures c !in Lower(w) && c !in Title(Lower(w))
  {
    var l := Lower(w);
    assert forall i :: 0 <= i < |w| ==> l[i] != c by {
      forall i | 0 <= i < |w| ensures l[i] != c {
        assert w[i] != c;
      }
    }
    var t := Title(l);
    assert forall i :: 0 <= i < |l| ==> t[i] != c by {
      forall i | 0 <= i < |l| ensures t[i] != c {
        if IsLetter(l[i]) {
          if i == 0 || !IsLetter(l[i - 1]) {
            assert t[i] == ToUpper(l[i]);
          } else {
            assert t[i] == ToLower(l[i]);
          }
        }
      }
    }
  }

  /** A non-letter that a part does not contain is in none of the words the part contributes. */
  lemma PartWordsAvoid(part: string, c: char)
    requires !IsLetter(c) && c !in part
    ensures forall w :: w in LowerAll(PartWords(part)) ==> c !in w
  {
    var ws := PartWords(part);
    forall k | 0 <= k < |ws| ensures c !in ws[k] {
      if !NoUpper(part) {
        assert ws == CamelSegments(part);
        forall i | 0 <= i < |ws[k]| ensures ws[k][i] != c {
          InJoined(ws, k, i);
          var tail := part[LowerRun(part)..];
          assert ws[k][i] in tail;
        }
      }
    }
    forall w | w in LowerAll(ws) ensures c !in w {
      var k :| 0 <= k < |ws| && w == LowerAll(ws)[k];
      LowerKeeps(ws[k], c);
    }
  }

  /** A non-letter that no part contains is in none of the collected words. */
  lemma {:induction false} WordsAvoid(parts: seq<string>, c: char)
    requires !IsLetter(c)
    requires forall p :: p in parts ==> c !in p
    ensures forall w :: w in WordsOf(parts) ==> c !in w
    decreases |parts|
  {
    if parts != [] {
      var last := parts[|parts| - 1];
      assert last in parts;
      assert forall p :: p in parts[..|parts| - 1] ==> p in parts;
      WordsAvoid(parts[..|parts| - 1], c);
      PartWordsAvoid(last, c);
    }
  }

  /** A label never contains `_`: the parts are cut at every `_` and nothing adds one back. */
  lemma NoUnderscore(text: string)
    ensures '_' !in Humanized(text)
  {
    var words := Words(text);
    WordsAvoid(Split(text, '_'), '_');
    assert words[0] in words;
    LowerKeeps(words[0], '_');
    assert Lower(words[0]) == words[0] by {
      assert NoUpper(words[0]);
    }
    var out := [Title(words[0])] + words[1..];
    assert forall w :: w in out ==> '_' !in w by {
      forall w | w in out ensures '_' !in w {
        if w != Title(words[0]) {
          assert w in words;
        }
      }
    }
    JoinAvoids(out, " ", '_');
  }

  /**
   * For a name without spaces, the label is exactly its words separated by single spaces:
   * the first title-cased, every later one entirely lower case.
   */
  lemma LabelWords(text: string)
    requires ' ' !in text
    ensures Split(Humanized(text), ' ') == [Title(Words(text)[0])] + Words(text)[1..]
    ensures forall i :: 1 <= i < |Words(text)| ==> NoUpper(Words(text)[i])
  {
    var words := Words(text);
    SplitAvoids(text, '_', ' ');
    WordsAvoid(Split(text, '_'), ' ');
    assert words[0] in words;
    LowerKeeps(words[0], ' ');
    assert Lower(words[0]) == words[0] by {
      assert NoUpper(words[0]);
    }
    var out := [Title(words[0])] + words[1..];
    forall w | w in out ensures ' ' !in w {
      if w != Title(words[0]) {
        assert w in words;
      }
    }
    JoinSplit(out, ' ');
  }

  // ---------------------------------------------------------------------------
  // Worked examples
  // ---------------------------------------------------------------------------

  /** Lower-casing a word without capitals changes nothing. */
  lemma LowerIdentity(s: string)
    requires NoUpper(s)
    ensures Lower(s) == s
  {
    assert forall i :: 0 <= i < |s| ==> Lower(s)[i] == s[i];
  }

  /** `title()` of an all-lower-case word capitalises its first letter only. */
  lemma TitleLowerWord(w: string)
    requires |w| >= 1 && forall i :: 0 <= i < |w| ==> IsLower(w[i])
    ensures Title(w) == [ToUpper(w[0])] + w[1..]
  {
    var t := Title(w);
    forall i | 0 < i < |w| ensures t[i] == w[i] {
      assert IsLetter(w[i]) && IsLetter(w[i - 1]);
    }
    assert t == [ToUpper(w[0])] + w[1..];
  }

  /** The lower-case run is pinned down by where the first capital is. */
  lemma {:induction false} LowerRunIs(s: string, n: nat)
    requires n <= |s| && NoUpper(s[..n]) && (n < |s| ==> IsUpper(s[n]))
    ensures LowerRun(s) == n
  {
  }

  /** A camel word followed by a capital (or nothing) is the first `RE_CAMEL` match. */
  lemma CamelFromCons(w: string, rest: string)
    requires IsCamelWord(w) && (rest == [] || IsUpper(rest[0]))
    ensures CamelFrom(w + rest) == [w] + CamelFrom(rest)
  {
    var s := w + rest;
    assert s[1..][..|w| - 1] == w[1..];
    LowerRunIs(s[1..], |w| - 1);
    assert s[..|w|] == w && s[|w|..] == rest;
  }

  /** A name without `_` is a single part. */
  lemma WordsOfOnePart(p: string)
    requires '_' !in p
    ensures Words(p) == LowerAll(PartWords(p))
  {
    SplitWithoutSeparator(p, '_');
    assert [p][..0] == [];
    assert WordsOf([p]) == WordsOf([]) + LowerAll(PartWords(p));
  }

  /** A name made of one part without capitals is title-cased whole. */
  lemma HumanizeLowerPart(text: string)
    requires '_' !in text && NoUpper(text)
    ensures Humanized(text) == Title(text)
  {
    WordsOfOnePart(text);
    LowerIdentity(text);
    assert LowerAll([text]) == [text];
  }

  /** A camel word is its own single `RE_CAMEL` match. */
  lemma CamelWordSegments(w: string)
    requires IsCamelWord(w)
    ensures PartWords(w) == [w]
  {
    LowerRunIs(w, 0);
    CamelFromCons(w, []);
    assert w + [] == w;
    assert w[0..] == w;
  }

  /** A camel word followed by another is exactly those two `RE_CAMEL` matches. */
  lemma TwoCamelWordsSegments(a: string, b: string)
    requires IsCamelWord(a) && IsCamelWord(b)
    ensures PartWords(a + b) == [a, b]
  {
    assert IsUpper((a + b)[0]);
    LowerRunIs(a + b, 0);
    CamelFromCons(a, b);
    CamelFromCons(b, []);
    assert b + [] == b;
    assert (a + b)[0..] == a + b;
  }

  /** A name that is one run of lower-case letters gets its first letter capitalised. */
  lemma HumanizeLowerWord(w: string)
    requires |w| >= 1 && forall i :: 0 <= i < |w| ==> IsLower(w[i])
    ensures Humanized(w) == [ToUpper(w[0])] + w[1..]
  {
    assert '_' !in w by {
      assert !IsLower('_');
    }
    HumanizeLowerPart(w);
    TitleLowerWord(w);
  }

  /** A name made of one camel word is that word lower-cased, then title-cased. */
  lemma HumanizeCamelWord(w: string)
    requires '_' !in w && IsCamelWord(w)
    ensures Humanized(w) == Title(Lower(w))
  {
    assert Words(w) == [Lower(w)] by {
      WordsOfOnePart(w);
      CamelWordSegments(w);
      assert LowerAll([w]) == [Lower(w)];
    }
  }

  /** A name of two camel words: the first title-cased, the second lower-cased. */
  lemma HumanizeTwoCamelWords(a: string, b: string)
    requires '_' !in a + b && IsCamelWord(a) && IsCamelWord(b)
    ensures Humanized(a + b) == Title(Lower(a)) + " " + Lower(b)
  {
    assert Words(a + b) == [Lower(a), Lower(b)] by {
      WordsOfOnePart(a + b);
      TwoCamelWordsSegments(a, b);
      assert LowerAll([a, b]) == [Lower(a), Lower(b)];
    }
    var ws := [Lower(a), Lower(b)];
    assert [Title(ws[0])] + ws[1..] == [Title(Lower(a)), Lower(b)];
    assert Join([Title(Lower(a)), Lower(b)], " ") == Title(Lower(a)) + " " + Lower(b) by {
      assert [Title(Lower(a)), Lower(b)][1..] == [Lower(b)];
    }
  }

  /** A lower-case run followed by a camel word yields that camel word alone. */
  lemma LeadingRunSegments(run: string, w: string)
    requires NoUpper(run) && IsCamelWord(w)
    ensures PartWords(run + w) == [w]
  {
    var text := run + w;
    assert IsUpper(text[|run|]);
    assert text[..|run|] == run;
    LowerRunIs(text, |run|);
    assert text[|run|..] == w;
    CamelFromCons(w, []);
    assert w + [] == w;
  }

  /** A part whose capitals come after a lower-case run keeps only its camel words. */
  lemma HumanizeLeadingRun(run: string, w: string)
    requires '_' !in run + w && NoUpper(run) && IsCamelWord(w)
    ensures Humanized(run + w) == Title(Lower(w))
  {
    assert Words(run + w) == [Lower(w)] by {
      WordsOfOnePart(run + w);
      LeadingRunSegments(run, w);
      assert LowerAll([w]) == [Lower(w)];
    }
  }

  /** The words of a name of two parts without capitals are those two parts. */
  lemma TwoPartsWords(a: string, b: string)
    requires '_' !in a && '_' !in b && NoUpper(a) && NoUpper(b)
    ensures Words(a + "_" + b) == [a, b]
  {
    SplitAfterSeparator(a, '_', b);
    SplitWithoutSeparator(b, '_');
    var parts := [a, b];
    assert Split(a + "_" + b, '_') == parts;
    LowerIdentity(a);
    LowerIdentity(b);
    assert parts[..1] == [a] && parts[..1][..0] == [];
    assert LowerAll([a]) == [a] && LowerAll([b]) == [b];
    assert WordsOf(parts[..1]) == [a];
  }

  /** A name of two parts without capitals: the first title-cased, the second kept. */
  lemma HumanizeTwoParts(a: string, b: string)
    requires '_' !in a && '_' !in b && NoUpper(a) && NoUpper(b)
    ensures Humanized(a + "_" + b) == Title(a) + " " + b
  {
    TwoPartsWords(a, b);
    var ws := [a, b];
    assert [Title(ws[0])] + ws[1..] == [Title(a), b];
    assert Join([Title(a), b], " ") == Title(a) + " " + b by {
      assert [Title(a), b][1..] == [b];
    }
  }

  /** One or more lower-case letters. */
  predicate IsLowerWord(w: string) {
    |w| >= 1 && forall i :: 0 <= i < |w| ==> IsLower(w[i])
  }

  /** A capital followed by lower-case letters only. */
  predicate IsCapitalized(w: string) {
    |w| >= 1 && IsUpper(w[0]) && forall i :: 1 <= i < |w| ==> IsLower(w[i])
  }

  /** Lower-casing a capitalised word lowers its capital and nothing else. */
  lemma LowerCapitalized(w: string)
    requires IsCapitalized(w)
    ensures Lower(w) == [ToLower(w[0])] + w[1..]
    ensures IsLowerWord(Lower(w)) && ToUpper(Lower(w)[0]) == w[0]
  {
    assert forall i :: 0 <= i < |w| ==> Lower(w)[i] == ([ToLower(w[0])] + w[1..])[i];
  }

  /** A capitalised word is its own label. */
  lemma HumanizeCapitalized(w: string)
    requires IsCapitalized(w)
    ensures Humanized(w) == w
  {
    assert '_' !in w && IsCamelWord(w) by {
      assert forall i :: 1 <= i < |w| ==> w[i] != '_';
    }
    HumanizeCamelWord(w);
    LowerCapitalized(w);
    TitleLowerWord(Lower(w));
  }

  /** Two capitalised words run together read as two words, the second lower-cased. */
  lemma HumanizeTwoCapitalized(a: string, b: string)
    requires IsCapitalized(a) && IsCapitalized(b)
    ensures Humanized(a + b) == a + " " + Lower(b)
    ensures Lower(b) == [ToLower(b[0])] + b[1..]
  {
    assert '_' !in a + b && IsCamelWord(a) && IsCamelWord(b) by {
      assert forall i :: 0 <= i < |a + b| ==> IsLetter((a + b)[i]);
    }
    HumanizeTwoCamelWords(a, b);
    LowerCapitalized(a);
    LowerCapitalized(b);
    TitleLowerWord(Lower(a));
  }

  /** Two lower-case words joined by `_` read as two words, the first capitalised. */
  lemma HumanizeSnakeWords(a: string, b: string)
    requires IsLowerWord(a) && IsLowerWord(b)
    ensures Humanized(a + "_" + b) == [ToUpper(a[0])] + a[1..] + " " + b
  {
    assert '_' !in a && '_' !in b && NoUpper(a) && NoUpper(b) by {
      assert forall i :: 0 <= i < |a| ==> IsLetter(a[i]);
      assert forall i :: 0 <= i < |b| ==> IsLetter(b[i]);
    }
    HumanizeTwoParts(a, b);
    TitleLowerWord(a);
  }

  /** A lower-case run before a capitalised word is dropped. */
  lemma HumanizeRunThenCapitalized(run: string, w: string)
    requires IsLowerWord(run) && IsCapitalized(w)
    ensures Humanized(run + w) == w
  {
    assert '_' !in run + w && NoUpper(run) && IsCamelWord(w) by {
      assert forall i :: 0 <= i < |run + w| ==> IsLetter((run + w)[i]);
    }
    HumanizeLeadingRun(run, w);
    LowerCapitalized(w);
    TitleLowerWord(Lower(w));
  }

  /** `humanize('Test') == 'Test'`. */
  lemma HumanizeTest()
    ensures Humanized("Test") == "Test"
  {
    HumanizeCapitalized("Test");
  }

  /** The pieces of the name `AnotherTest`. */
  lemma AnotherTestPieces()
    ensures IsCapitalized("Another") && IsCapitalized("Test")
    ensures "Another" + "Test" == "AnotherTest"
    ensures "Another" + " " + ([ToLower('T')] + "est") == "Another test"
  {
  }

  /** `humanize('AnotherTest') == 'Another test'`. */
  lemma HumanizeAnotherTest()
    ensures Humanized("AnotherTest") == "Another test"
  {
    AnotherTestPieces();
    HumanizeTwoCapitalized("Another", "Test");
  }

  /** The pieces of the name `test`. */
  lemma LowerTestPieces()
    ensures IsLowerWord("test")
    ensures [ToUpper('t')] + "est" == "Test"
  {
  }

  /** `humanize('test') == 'Test'`. */
  lemma HumanizeLowerTest()
    ensures Humanized("test") == "Test"
  {
    LowerTestPieces();
    HumanizeLowerWord("test");
  }

  /** The pieces of the name `another_test`. */
  lemma SnakeCasePieces()
    ensures IsLowerWord("another") && IsLowerWord("test")
    ensures "another" + "_" + "test" == "another_test"
    ensures [ToUpper('a')] + "nother" + " " + "test" == "Another test"
  {
  }

  /** `humanize('another_test') == 'Another test'`. */
  lemma HumanizeSnakeCase()
    ensures Humanized("another_test") == "Another test"
  {
    SnakeCasePieces();
    HumanizeSnakeWords("another", "test");
  }

  /** The pieces of the name `listExpansion`. */
  lemma ListExpansionPieces()
    ensures IsLowerWord("list") && IsCapitalized("Expansion")
    ensures "list" + "Expansion" == "listExpansion"
  {
  }

  /** `humanize('listExpansion') == 'Expansion'`: the leading lower-case run is dropped. */
  lemma HumanizeDropsLeadingRun()
    ensures Humanized("listExpansion") == "Expansion"
  {
    ListExpansionPieces();
    HumanizeRunThenCapitalized("list", "Expansion");
  }
}
