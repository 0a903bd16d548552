/**
 * The entrants form's text parser: the text is split into lines, a line that
 * holds a comma is split again on commas, every piece is trimmed, blank pieces
 * are dropped, and the collected names pass through a `Set` so that only the
 * first occurrence of each name survives, in the order it was met.
 */
module EntrantsParser {
  import opened Js
  import opened JsString

  /** The names one line contributes, before de-duplication. */
  function LineTokens(line: string): seq<string>
  {
    if ',' in line then NonBlankTrimmed(Split(line, ','))
    else
      var t := Trim(line);
      if |t| > 0 then [t] else []
  }

  /** `items.map(item => item.trim()).filter(item => item.length > 0)`. */
  function NonBlankTrimmed(items: seq<string>): seq<string>
  {
    if items == [] then []
    else
      var t := Trim(items[|items| - 1]);
      NonBlankTrimmed(items[..|items| - 1]) + (if |t| > 0 then [t] else [])
  }

  /** Every name the lines contribute, in line order and left to right within a line. */
  function Tokens(lines: seq<string>): seq<string>
  {
    if lines == [] then []
    else Tokens(lines[..|lines| - 1]) + LineTokens(lines[|lines| - 1])
  }

  /** `[...new Set(s)]`: the first occurrence of each element, in order of first occurrence. */
  function Dedup<T(==)>(s: seq<T>): seq<T>
  {
    if s == [] then []
    else
      var p := Dedup(s[..|s| - 1]);
      if s[|s| - 1] in p then p else p + [s[|s| - 1]]
  }

  /** What `parseInput(text)` returns. */
  function Parse(text: string): seq<string>
  {
    Dedup(Tokens(Split(text, '\n')))
  }

  /** A name as the parser can produce it: non-empty, its own trim, and free of commas and newlines. */
  predicate IsEntrant(e: string)
  {
    |e| > 0 && Trim(e) == e && ',' !in e && '\n' !in e
  }

  /** The index of the first occurrence of `x` in `s`. */
  function FirstIndex<T(==)>(s: seq<T>, x: T): (i: nat)
    requires x in s
    ensures i < |s| && s[i] == x && x !in s[..i]
  {
    if s[0] == x then 0
    else
      assert x in s[1..];
      var k := FirstIndex(s[1..], x);
      assert s[..k + 1] == [s[0]] + s[1..][..k];
      k + 1
  }

  /**
   * The form's `parseInput`: every line pushes its non-blank trimmed names
   * into `results`, then the `Set` pass keeps each name once.
   */
  method ParseInput(text: string) returns (entrants: seq<string>)
    ensures entrants == Parse(text)
  {
    var lines := Split(text, '\n');
    var results: seq<string> := [];
    for i := 0 to |lines|
      invariant results == Tokens(lines[..i])
    {
      assert lines[..i + 1][..i] == lines[..i];
      results := PushLine(results, lines[i]);
    }
    assert lines[..|lines|] == lines;
    entrants := DistinctInOrder(results);
  }

  /** The body of `lines.forEach`: the names of one line pushed onto `results`. */
  method PushLine(results: seq<string>, line: string) returns (pushed: seq<string>)
    ensures pushed == results + LineTokens(line)
  {
    pushed := results;
    if ',' in line {
      var items := Split(line, ',');
      for j := 0 to |items|
        invariant pushed == results + NonBlankTrimmed(items[..j])
      {
        assert items[..j + 1][..j] == items[..j];
        var item := Trim(items[j]);
        assert NonBlankTrimmed(items[..j + 1]) == NonBlankTrimmed(items[..j]) + (if |item| > 0 then [item] else []);
        if |item| > 0 {
          pushed := pushed + [item];
        }
      }
      assert items[..|items|] == items;
    } else {
      var trimmed := Trim(line);
      if |trimmed| > 0 {
        pushed := pushed + [trimmed];
      }
    }
  }

  /** `[...new Set(results)]`: one pass that keeps a name only the first time it is met. */
  method DistinctInOrder(results: seq<string>) returns (entrants: seq<string>)
    ensures entrants == Dedup(results)
  {
    entrants := [];
    for k := 0 to |results|
      invariant entrants == Dedup(results[..k])
    {
      assert results[..k + 1][..k] == results[..k];
      if results[k] !in entrants {
        entrants := entrants + [results[k]];
      }
    }
    assert results[..|results|] == results;
  }

  // ---------------------------------------------------------------------
  // De-duplication

  /** The `Set` pass keeps exactly the elements of its input, each once. */
  lemma {:induction false} DedupElements<T>(s: seq<T>)
    ensures forall x :: x in Dedup(s) ==> x in s
    ensures forall x :: x in s ==> x in Dedup(s)
    ensures NoDuplicates(Dedup(s))
  {
    if s != [] {
      var init := s[..|s| - 1];
      DedupElements(init);
      assert s == init + [s[|s| - 1]];
    }
  }

  /** Two indices that are both "first occurrence of x" are the same. */
  lemma FirstIndexUnique<T>(s: seq<T>, x: T, i: nat)
    requires i < |s| && s[i] == x && x !in s[..i]
    ensures FirstIndex(s, x) == i
  {
    var k := FirstIndex(s, x);
    assert forall m :: 0 <= m < i ==> s[..i][m] == s[m];
    assert forall m :: 0 <= m < k ==> s[..k][m] == s[m];
  }

  /** The `Set` pass orders the survivors by where each first occurs in the input. */
  lemma {:induction false} DedupFirstOccurrenceOrder<T>(s: seq<T>)
    ensures forall i, j | 0 <= i < j < |Dedup(s)| ::
      Dedup(s)[i] in s && Dedup(s)[j] in s && FirstIndex(s, Dedup(s)[i]) < FirstIndex(s, Dedup(s)[j])
  {
    if s != [] {
      var init := s[..|s| - 1];
      var last := s[|s| - 1];
      var p := Dedup(init);
      DedupFirstOccurrenceOrder(init);
      DedupElements(init);
      assert s == init + [last];
      // an element of the prefix first occurs where it first occurs in the prefix
      forall y | y in init ensures y in s && FirstIndex(s, y) == FirstIndex(init, y) {
        var k := FirstIndex(init, y);
        assert s[..k] == init[..k];
        FirstIndexUnique(s, y, k);
      }
      if last !in p {
        assert last !in init;
        assert s[..|s| - 1] == init;
        FirstIndexUnique(s, last, |s| - 1);
        var r := p + [last];
        assert forall k :: 0 <= k < |p| ==> p[k] in p;
        forall i, j | 0 <= i < j < |r|
          ensures r[i] in s && r[j] in s && FirstIndex(s, r[i]) < FirstIndex(s, r[j])
        {
          assert r[i] == p[i];
          if j < |p| {
            assert r[j] == p[j];
          } else {
            assert FirstIndex(init, p[i]) < |init|;
          }
        }
      }
    }
  }

  /** Input without duplicates passes the `Set` unchanged. */
  lemma {:induction false} DedupOfDistinct<T>(s: seq<T>)
    requires NoDuplicates(s)
    ensures Dedup(s) == s
  {
    if s != [] {
      var init := s[..|s| - 1];
      DedupOfDistinct(init);
      DedupElements(init);
      assert s == init + [s[|s| - 1]];
    }
  }

  // ---------------------------------------------------------------------
  // Shape of the names

  lemma {:induction false} NonBlankTrimmedAreEntrants(items: seq<string>)
    requires forall p :: p in items ==> ',' !in p && '\n' !in p
    ensures forall e :: e in NonBlankTrimmed(items) ==> IsEntrant(e)
  {
    if items != [] {
      var init := items[..|items| - 1];
      var last := items[|items| - 1];
      assert forall p :: p in init ==> p in items;
      NonBlankTrimmedAreEntrants(init);
      TrimProperties(last);
      TrimIdempotent(last);
    }
  }

  lemma LineTokensAreEntrants(line: string)
    requires '\n' !in line
    ensures forall e :: e in LineTokens(line) ==> IsEntrant(e)
  {
    if ',' in line {
      var items := Split(line, ',');
      forall p | p in items ensures ',' !in p && '\n' !in p {
        var k :| 0 <= k < |items| && items[k] == p;
        SplitPieceChars(line, ',', k);
      }
      NonBlankTrimmedAreEntrants(items);
    } else {
      TrimProperties(line);
      TrimIdempotent(line);
    }
  }

  /** A piece of a split holds only characters of the split string. */
  lemma {:induction false} SplitPieceChars(s: string, sep: char, k: nat)
    requires k < |Split(s, sep)|
    ensures forall c :: c in Split(s, sep)[k] ==> c in s
  {
    if |s| > 0 {
      var rest := Split(s[1..], sep);
      if s[0] == sep {
        if k > 0 {
          SplitPieceChars(s[1..], sep, k - 1);
        }
      } else if k == 0 {
        SplitPieceChars(s[1..], sep, 0);
      } else {
        SplitPieceChars(s[1..], sep, k);
      }
    }
  }

  lemma {:induction false} TokensAreEntrants(lines: seq<string>)
    requires forall l :: l in lines ==> '\n' !in l
    ensures forall e :: e in Tokens(lines) ==> IsEntrant(e)
  {
    if lines != [] {
      var init := lines[..|lines| - 1];
      assert forall l :: l in init ==> l in lines;
      TokensAreEntrants(init);
      LineTokensAreEntrants(lines[|lines| - 1]);
    }
  }

  /** Every returned entrant is non-empty, equal to its own trim, and holds no comma or newline. */
  lemma ParseYieldsEntrants(text: string)
    ensures forall e :: e in Parse(text) ==> IsEntrant(e)
  {
    var toks := Tokens(Split(text, '\n'));
    TokensAreEntrants(Split(text, '\n'));
    DedupElements(toks);
  }

  /** The result holds no name twice, and holds exactly the names the lines contribute, each at the place it first appears. */
  lemma ParseKeepsFirstOccurrences(text: string)
    ensures NoDuplicates(Parse(text))
    ensures forall x :: x in Parse(text) <==> x in Tokens(Split(text, '\n'))
    ensures var toks, r := Tokens(Split(text, '\n')), Parse(text);
      forall i, j | 0 <= i < j < |r| :: r[i] in toks && r[j] in toks && FirstIndex(toks, r[i]) < FirstIndex(toks, r[j])
  {
    DedupElements(Tokens(Split(text, '\n')));
    DedupFirstOccurrenceOrder(Tokens(Split(text, '\n')));
  }

  // ---------------------------------------------------------------------
  // Particular inputs

  /** A one-line text without commas is one entrant, its trim ("Bob Carol" stays whole), or none when blank. */
  lemma CommaFreeLine(text: string)
    requires ',' !in text && '\n' !in text
    ensures Parse(text) == if Trim(text) == [] then [] else [Trim(text)]
  {
    SplitWithoutSeparator(text, '\n');
    assert [text][..0] == [];
    assert Tokens([text]) == LineTokens(text);
    var t := Trim(text);
    assert [t][..0] == [];
    assert Dedup([t]) == [t];
  }

  lemma {:induction false} BlankItemsContributeNothing(items: seq<string>)
    requires forall p, c :: p in items && c in p ==> IsWhitespace(c)
    ensures NonBlankTrimmed(items) == []
  {
    if items != [] {
      var last := items[|items| - 1];
      assert forall p :: p in items[..|items| - 1] ==> p in items;
      BlankItemsContributeNothing(items[..|items| - 1]);
      TrimProperties(last);
      assert forall i :: 0 <= i < |last| ==> last[i] in last;
    }
  }

  lemma {:induction false} BlankLinesContributeNothing(lines: seq<string>)
    requires forall l, c :: l in lines && c in l ==> IsWhitespace(c) || c == ','
    ensures Tokens(lines) == []
  {
    if lines != [] {
      var last := lines[|lines| - 1];
      assert forall l :: l in lines[..|lines| - 1] ==> l in lines;
      BlankLinesContributeNothing(lines[..|lines| - 1]);
      if ',' in last {
        var items := Split(last, ',');
        forall p, c | p in items && c in p ensures IsWhitespace(c) {
          var k :| 0 <= k < |items| && items[k] == p;
          SplitPieceChars(last, ',', k);
        }
        BlankItemsContributeNothing(items);
      } else {
        TrimProperties(last);
        assert forall i :: 0 <= i < |last| ==> last[i] in last;
      }
    }
  }

  /** Text made only of whitespace, commas and newlines (the empty text included) yields no entrants. */
  lemma BlankText(text: string)
    requires forall c :: c in text ==> IsWhitespace(c) || c == ','
    ensures Parse(text) == []
  {
    var lines := Split(text, '\n');
    forall l, c | l in lines && c in l ensures IsWhitespace(c) || c == ',' {
      var k :| 0 <= k < |lines| && lines[k] == l;
      SplitPieceChars(text, '\n', k);
    }
    BlankLinesContributeNothing(lines);
  }

  // ---------------------------------------------------------------------
  // Re-display: the form shows `entrants.join('\n')` and parses it again

  lemma LineTokensOfEntrant(e: string)
    requires IsEntrant(e)
    ensures LineTokens(e) == [e]
  {
  }

  lemma {:induction false} TokensOfEntrants(names: seq<string>)
    requires forall e :: e in names ==> IsEntrant(e)
    ensures Tokens(names) == names
  {
    if names != [] {
      var init := names[..|names| - 1];
      assert forall e :: e in init ==> e in names;
      TokensOfEntrants(init);
      LineTokensOfEntrant(names[|names| - 1]);
      assert names == init + [names[|names| - 1]];
    }
  }

  /** Parsing the newline-join of distinct entrant names gives back the same list. */
  lemma RoundTrip(names: seq<string>)
    requires forall e :: e in names ==> IsEntrant(e)
    requires NoDuplicates(names)
    ensures Parse(Join(names, "\n")) == names
  {
    if names == [] {
      assert Split([], '\n') == [""];
      assert Split([], '\n')[..0] == [];
    } else {
      SplitJoin(names, '\n');
      TokensOfEntrants(names);
      DedupOfDistinct(names);
    }
  }

  /** A name that comes back later in the text is kept once, at its first place. */
  lemma RepeatedNameKeptOnce(a: string, b: string)
    requires IsEntrant(a) && IsEntrant(b) && a != b
    ensures Parse(Join([a, b, a], "\n")) == [a, b]
  {
    var names := [a, b, a];
    assert forall e :: e in names ==> IsEntrant(e);
    SplitJoin(names, '\n');
    TokensOfEntrants(names);
    assert names[..2] == [a, b] && names[..2][..1] == [a] && names[..2][..1][..0] == [];
    assert Dedup([a]) == [a];
    assert Dedup([a, b]) == [a, b];
  }

  /** Parsing the re-displayed result of a parse returns that result. */
  lemma ParseIdempotent(text: string)
    ensures Parse(Join(Parse(text), "\n")) == Parse(text)
  {
    ParseYieldsEntrants(text);
    ParseKeepsFirstOccurrences(text);
    RoundTrip(Parse(text));
  }
}
