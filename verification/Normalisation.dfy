/** `normalizeLocation`: the one-flag scanner that reduces a location to its alphanumeric runs. */
module Normalisation {
  import opened Sequences

  /** The character tables the program takes from its libraries. */
  datatype Unicode = Unicode(lower: char -> char, isAlnum: char -> bool, isSpace: char -> bool) {
    ghost predicate Sane() {
      && (forall c :: lower(lower(c)) == lower(c))
      && (forall c :: isAlnum(c) ==> !isSpace(c))
      && (forall c :: isSpace(c) ==> lower(c) == c)
      && isSpace(' ')
    }

    function Lower(s: string): string {
      seq(|s|, i requires 0 <= i < |s| => lower(s[i]))
    }

    function TrimLeft(s: string): string {
      if s != [] && isSpace(s[0]) then TrimLeft(s[1..]) else s
    }

    function TrimRight(s: string): string {
      if s != [] && isSpace(Last(s)) then TrimRight(Init(s)) else s
    }

    function Trim(s: string): string {
      TrimRight(TrimLeft(s))
    }

    function Keeps(): char -> bool {
      isAlnum
    }

    function NotSpace(): char -> bool {
      (c: char) => !isSpace(c)
    }

    /** The library's splitting at white space. */
    function Fields(s: string): seq<string> {
      Words(NotSpace(), s)
    }
  }

  /** The runs of kept characters, read from the left. */
  function Words(keep: char -> bool, s: string): seq<string> {
    if s == [] then []
    else
      var before := Words(keep, Init(s));
      if !keep(Last(s)) then before
      else if |s| > 1 && keep(s[|s| - 2]) && before != [] then Init(before) + [Last(before) + [Last(s)]]
      else before + [[Last(s)]]
  }

  function Join(words: seq<string>): string {
    if words == [] then []
    else if |words| == 1 then words[0]
    else Join(Init(words)) + [' '] + Last(words)
  }

  /** What a location is reduced to: its lowered alphanumeric runs, one space between them. */
  function Normalized(u: Unicode, location: string): string {
    Join(Words(u.Keeps(), u.Lower(u.Trim(location))))
  }

  predicate AllKept(keep: char -> bool, s: string) {
    forall i :: 0 <= i < |s| ==> keep(s[i])
  }

  predicate NoneKept(keep: char -> bool, s: string) {
    forall i :: 0 <= i < |s| ==> !keep(s[i])
  }

  ghost predicate AllWords(keep: char -> bool, words: seq<string>) {
    forall i :: 0 <= i < |words| ==> words[i] != [] && AllKept(keep, words[i])
  }

  // ---------------------------------------------------------------- maximal runs

  function Weave(gaps: seq<string>, words: seq<string>): string
    requires |gaps| == |words| + 1
  {
    if words == [] then gaps[0] else Weave(Init(gaps), Init(words)) + Last(words) + Last(gaps)
  }

  /** `words` are the maximal runs of `s`: separated by gaps that keep nothing and, between two words, are not empty. */
  ghost predicate AreMaximalRuns(keep: char -> bool, s: string, words: seq<string>, gaps: seq<string>) {
    && |gaps| == |words| + 1
    && Weave(gaps, words) == s
    && AllWords(keep, words)
    && (forall i :: 0 <= i < |gaps| ==> NoneKept(keep, gaps[i]))
    && (forall i :: 0 < i < |gaps| - 1 ==> gaps[i] != [])
  }

  lemma RunsWithLongerGap(keep: char -> bool, s: string, c: char, words: seq<string>, gaps: seq<string>)
    requires AreMaximalRuns(keep, s, words, gaps) && !keep(c)
    ensures AreMaximalRuns(keep, s + [c], words, Init(gaps) + [Last(gaps) + [c]])
  {
  }

  lemma RunsWithLongerWord(keep: char -> bool, s: string, c: char, words: seq<string>, gaps: seq<string>)
    requires AreMaximalRuns(keep, s, words, gaps) && keep(c)
    requires words != [] && Last(gaps) == []
    ensures AreMaximalRuns(keep, s + [c], Init(words) + [Last(words) + [c]], gaps)
  {
  }

  lemma RunsWithNewWord(keep: char -> bool, s: string, c: char, words: seq<string>, gaps: seq<string>)
    requires AreMaximalRuns(keep, s, words, gaps) && keep(c)
    requires words == [] || Last(gaps) != []
    ensures AreMaximalRuns(keep, s + [c], words + [[c]], gaps + [[]])
  {
    assert Init(gaps + [[]]) == gaps && Init(words + [[c]]) == words;
  }

  /** One more character: it is dropped, makes the last word longer, or starts a new word. */
  lemma WordsOfSnoc(keep: char -> bool, front: string, c: char)
    ensures var before, after := Words(keep, front), Words(keep, front + [c]);
            if !keep(c) then after == before
            else if front != [] && keep(Last(front)) && before != [] then after == Init(before) + [Last(before) + [c]]
            else after == before + [[c]]
  {
    Snoc(front, c);
    assert front != [] ==> (front + [c])[|front| - 1] == Last(front);
  }

  /** The words are the maximal runs of kept characters, and the last gap is empty just after a run. */
  lemma {:induction false} WordsAreMaximalRuns(keep: char -> bool, s: string) returns (gaps: seq<string>)
    ensures AreMaximalRuns(keep, s, Words(keep, s), gaps)
    ensures s != [] && keep(Last(s)) ==> Words(keep, s) != [] && Last(gaps) == []
    ensures s != [] && !keep(Last(s)) ==> Last(gaps) != []
    decreases |s|
  {
    if s == [] {
      gaps := [[]];
    } else {
      var front, c := Init(s), Last(s);
      var before := Words(keep, front);
      var g := WordsAreMaximalRuns(keep, front);
      assert s == front + [c];
      WordsOfSnoc(keep, front, c);
      if !keep(c) {
        gaps := Init(g) + [Last(g) + [c]];
        RunsWithLongerGap(keep, front, c, before, g);
      } else if front != [] && keep(Last(front)) {
        gaps := g;
        RunsWithLongerWord(keep, front, c, before, g);
      } else {
        gaps := g + [[]];
        RunsWithNewWord(keep, front, c, before, g);
      }
    }
  }

  lemma AppendOne(keep: char -> bool, text: string, before: seq<string>, v: string, c: char)
    requires text != [] && keep(Last(text)) && keep(c) && Words(keep, text) == before + [v]
    ensures Words(keep, text + [c]) == before + [v + [c]]
  {
    WordsOfSnoc(keep, text, c);
    Snoc(before, v);
  }

  lemma LastWordGrows(keep: char -> bool, s: string, words: seq<string>)
    requires |s| > 1 && words != [] && |Last(words)| > 1
    requires keep(Last(s)) && keep(Last(Init(s))) && Last(s) == Last(Last(words))
    requires Words(keep, Init(s)) == Init(words) + [Init(Last(words))]
    ensures Words(keep, s) == words
  {
    AppendOne(keep, Init(s), Init(words), Init(Last(words)), Last(s));
    SplitLast(s);
    SplitLast(words);
    SplitLast(Last(words));
  }

  lemma RunsWithShorterGap(keep: char -> bool, s: string, words: seq<string>, gaps: seq<string>)
    requires AreMaximalRuns(keep, s, words, gaps) && Last(gaps) != []
    ensures s != [] && !keep(Last(s))
    ensures AreMaximalRuns(keep, Init(s), words, Init(gaps) + [Init(Last(gaps))])
  {
    var shorter := Init(gaps) + [Init(Last(gaps))];
    assert Init(shorter) == Init(gaps);
    assert Last(s) == Last(Last(gaps));
    assert Weave(shorter, words) == Init(s);
  }

  lemma RunsWithShorterWord(keep: char -> bool, s: string, words: seq<string>, gaps: seq<string>)
    requires AreMaximalRuns(keep, s, words, gaps) && Last(gaps) == [] && words != [] && |Last(words)| > 1
    ensures |s| > 1 && keep(Last(Init(s)))
    ensures AreMaximalRuns(keep, Init(s), Init(words) + [Init(Last(words))], gaps)
  {
    var w := Last(words);
    var shorter := Init(words) + [Init(w)];
    assert s == Weave(Init(gaps), Init(words)) + w;
    assert Init(shorter) == Init(words);
    assert Weave(gaps, shorter) == Init(s);
    assert Last(Init(s)) == w[|w| - 2];
  }

  lemma {:induction false} MaximalRunsAreUnique(keep: char -> bool, s: string, words: seq<string>, gaps: seq<string>)
    requires AreMaximalRuns(keep, s, words, gaps)
    ensures words == Words(keep, s)
    decreases |s|
  {
    if Last(gaps) != [] {
      RunsWithShorterGap(keep, s, words, gaps);
      MaximalRunsAreUnique(keep, Init(s), words, Init(gaps) + [Init(Last(gaps))]);
    } else if words != [] {
      var w := Last(words);
      assert s == Weave(Init(gaps), Init(words)) + w;
      assert Last(s) == Last(w) && keep(Last(s));
      if |w| > 1 {
        RunsWithShorterWord(keep, s, words, gaps);
        MaximalRunsAreUnique(keep, Init(s), Init(words) + [Init(w)], gaps);
        LastWordGrows(keep, s, words);
      } else {
        assert Weave(Init(gaps), Init(words)) == Init(s);
        MaximalRunsAreUnique(keep, Init(s), Init(words), Init(gaps));
        EndOfWeave(keep, Init(gaps), Init(words));
        assert w == [Last(s)];
        assert words == Init(words) + [w];
        assert |s| > 1 ==> Last(Init(s)) == s[|s| - 2];
      }
    }
  }

  /** Text that ends in a gap ends in a character that is not kept. */
  lemma EndOfWeave(keep: char -> bool, gaps: seq<string>, words: seq<string>)
    requires |gaps| == |words| + 1 && NoneKept(keep, Last(gaps))
    requires words != [] ==> Last(gaps) != []
    ensures var s := Weave(gaps, words); s == [] || !keep(Last(s))
  {
  }

  // ---------------------------------------------------------------- canonical form

  lemma OneLetterWord(keep: char -> bool, s: string, c: char)
    requires (s == [] || !keep(Last(s))) && keep(c)
    ensures Words(keep, s + [c]) == Words(keep, s) + [[c]]
  {
    WordsOfSnoc(keep, s, c);
  }

  lemma LongerWord(keep: char -> bool, s: string, v: string, c: char)
    requires v != [] && keep(Last(v)) && keep(c) && Words(keep, s + v) == Words(keep, s) + [v]
    ensures Words(keep, s + (v + [c])) == Words(keep, s) + [v + [c]]
  {
    var text := s + v;
    assert Last(text) == Last(v);
    assert s + (v + [c]) == text + [c];
    AppendOne(keep, text, Words(keep, s), v, c);
  }

  lemma {:induction false} AppendWord(keep: char -> bool, s: string, w: string)
    requires s == [] || !keep(Last(s))
    requires w != [] && AllKept(keep, w)
    ensures Words(keep, s + w) == Words(keep, s) + [w]
    decreases |w|
  {
    SplitLast(w);
    if |w| == 1 {
      OneLetterWord(keep, s, w[0]);
    } else {
      AppendWord(keep, s, Init(w));
      LongerWord(keep, s, Init(w), Last(w));
    }
  }

  lemma {:induction false} WordsOfJoin(keep: char -> bool, words: seq<string>)
    requires AllWords(keep, words) && !keep(' ')
    ensures Words(keep, Join(words)) == words
    decreases |words|
  {
    if |words| == 1 {
      AppendWord(keep, [], words[0]);
      assert [] + words[0] == words[0];
    } else if |words| > 1 {
      var front := Join(Init(words)) + [' '];
      assert Words(keep, front) == Init(words) by {
        WordsOfJoin(keep, Init(words));
        Snoc(Join(Init(words)), ' ');
      }
      AppendWord(keep, front, Last(words));
      assert words == Init(words) + [Last(words)];
    }
  }

  lemma {:induction false} LeadingGap(keep: char -> bool, c: char, s: string)
    requires !keep(c)
    ensures Words(keep, [c] + s) == Words(keep, s)
    decreases |s|
  {
    var t := [c] + s;
    if s == [] {
      assert Init(t) == [];
    } else {
      LeadingGap(keep, c, Init(s));
      assert Init(t) == [c] + Init(s) && Last(t) == Last(s);
      if |s| == 1 {
        assert t[|t| - 2] == c;
      } else {
        assert t[|t| - 2] == s[|s| - 2];
      }
    }
  }

  lemma {:induction false} TrimKeepsWords(u: Unicode, s: string)
    requires u.Sane()
    ensures Words(u.Keeps(), u.Lower(u.Trim(s))) == Words(u.Keeps(), u.Lower(s))
  {
    TrimLeftKeepsWords(u, s);
    TrimRightKeepsWords(u, u.TrimLeft(s));
  }

  lemma {:induction false} TrimLeftKeepsWords(u: Unicode, s: string)
    requires u.Sane()
    ensures Words(u.Keeps(), u.Lower(u.TrimLeft(s))) == Words(u.Keeps(), u.Lower(s))
    decreases |s|
  {
    if s != [] && u.isSpace(s[0]) {
      TrimLeftKeepsWords(u, s[1..]);
      assert u.Lower(s) == [s[0]] + u.Lower(s[1..]);
      LeadingGap(u.Keeps(), s[0], u.Lower(s[1..]));
    }
  }

  lemma {:induction false} TrimRightKeepsWords(u: Unicode, s: string)
    requires u.Sane()
    ensures Words(u.Keeps(), u.Lower(u.TrimRight(s))) == Words(u.Keeps(), u.Lower(s))
    decreases |s|
  {
    if s != [] && u.isSpace(Last(s)) {
      TrimRightKeepsWords(u, Init(s));
      assert Init(u.Lower(s)) == u.Lower(Init(s));
    }
  }

  /** Every character of a joined text is a space or comes from one of the words. */
  lemma {:induction false} CharactersOfJoin(words: seq<string>, i: nat)
    requires i < |Join(words)|
    ensures Join(words)[i] == ' '
        || exists k, j :: 0 <= k < |words| && 0 <= j < |words[k]| && words[k][j] == Join(words)[i]
    decreases |words|
  {
    if |words| > 1 {
      var front := Join(Init(words));
      if i < |front| {
        CharactersOfJoin(Init(words), i);
        if front[i] != ' ' {
          var k, j :| 0 <= k < |Init(words)| && 0 <= j < |Init(words)[k]| && Init(words)[k][j] == front[i];
          assert words[k][j] == Join(words)[i];
        }
      } else if i > |front| {
        assert words[|words| - 1][i - |front| - 1] == Join(words)[i];
      }
    } else {
      assert words[0][i] == Join(words)[i];
    }
  }

  /** Words of lowered text are lower-case already. */
  lemma {:induction false} WordsAreLowered(u: Unicode, s: string, k: nat, j: nat)
    requires u.Sane() && k < |Words(u.Keeps(), u.Lower(s))| && j < |Words(u.Keeps(), u.Lower(s))[k]|
    ensures var c := Words(u.Keeps(), u.Lower(s))[k][j]; u.lower(c) == c
    decreases |s|
  {
    var t := u.Lower(s);
    assert Init(t) == u.Lower(Init(s));
    var before := Words(u.Keeps(), Init(t));
    var c := Words(u.Keeps(), t)[k][j];
    if k < |before| && j < |before[k]| {
      WordsAreLowered(u, Init(s), k, j);
    } else {
      assert c == Last(t) == u.lower(Last(s));
    }
  }

  lemma WordsOfLowered(u: Unicode, s: string)
    requires u.Sane()
    ensures AllWords(u.Keeps(), Words(u.Keeps(), u.Lower(s)))
    ensures AllWords(u.NotSpace(), Words(u.Keeps(), u.Lower(s)))
    ensures u.Lower(Join(Words(u.Keeps(), u.Lower(s)))) == Join(Words(u.Keeps(), u.Lower(s)))
  {
    var words := Words(u.Keeps(), u.Lower(s));
    var gaps := WordsAreMaximalRuns(u.Keeps(), u.Lower(s));
    var joined := Join(words);
    forall i | 0 <= i < |joined| ensures u.lower(joined[i]) == joined[i] {
      CharactersOfJoin(words, i);
      if joined[i] != ' ' {
        var k, j :| 0 <= k < |words| && 0 <= j < |words[k]| && words[k][j] == joined[i];
        WordsAreLowered(u, s, k, j);
      }
    }
  }

  /** Kept characters only, but for single spaces between two of them. */
  ghost predicate SingleSpaced(keep: char -> bool, s: string) {
    forall i :: 0 <= i < |s| ==>
      keep(s[i]) || (s[i] == ' ' && 0 < i < |s| - 1 && keep(s[i - 1]) && keep(s[i + 1]))
  }

  lemma OneMoreWord(keep: char -> bool, front: string, word: string)
    requires SingleSpaced(keep, front) && front != [] && keep(front[0]) && keep(Last(front))
    requires AllKept(keep, word) && word != []
    ensures var s := front + [' '] + word; SingleSpaced(keep, s) && keep(s[0]) && keep(Last(s))
  {
    var s := front + [' '] + word;
    forall i | 0 <= i < |s|
      ensures keep(s[i]) || (s[i] == ' ' && 0 < i < |s| - 1 && keep(s[i - 1]) && keep(s[i + 1]))
    {
      if i < |front| {
        assert s[i] == front[i];
        assert (i > 0 ==> s[i - 1] == front[i - 1]) && (i + 1 < |front| ==> s[i + 1] == front[i + 1]);
      } else if i == |front| {
        assert s[i - 1] == Last(front) && s[i + 1] == word[0];
      } else {
        assert s[i] == word[i - |front| - 1];
      }
    }
  }

  lemma {:induction false} JoinIsSingleSpaced(keep: char -> bool, words: seq<string>)
    requires AllWords(keep, words)
    ensures SingleSpaced(keep, Join(words))
    ensures words != [] ==> Join(words) != [] && keep(Join(words)[0]) && keep(Last(Join(words)))
    decreases |words|
  {
    if |words| > 1 {
      JoinIsSingleSpaced(keep, Init(words));
      OneMoreWord(keep, Join(Init(words)), Last(words));
    }
  }

  /** The normal form is canonical: trimming is redundant, splitting it gives back exactly the runs of the
      lowered location, and normalising it again changes nothing; it is in lower case, with single spaces. */
  lemma NormalisationIsCanonical(u: Unicode, location: string)
    requires u.Sane()
    ensures Normalized(u, location) == Join(Words(u.Keeps(), u.Lower(location)))
    ensures u.Fields(Normalized(u, location)) == Words(u.Keeps(), u.Lower(location))
    ensures Normalized(u, Normalized(u, location)) == Normalized(u, location)
    ensures Normalized(u, location) == [] <==> NoneKept(u.Keeps(), u.Lower(location))
    ensures SingleSpaced(u.isAlnum, Normalized(u, location))
    ensures forall i :: 0 <= i < |Normalized(u, location)| ==>
              u.lower(Normalized(u, location)[i]) == Normalized(u, location)[i]
  {
    var words := Words(u.Keeps(), u.Lower(location));
    TrimKeepsWords(u, location);
    WordsOfLowered(u, location);
    WordsOfJoin(u.NotSpace(), words);
    WordsOfJoin(u.Keeps(), words);
    TrimKeepsWords(u, Join(words));
    EmptyJoin(u.Keeps(), words);
    EmptyWords(u.Keeps(), u.Lower(location));
    JoinIsSingleSpaced(u.Keeps(), words);
    forall i | 0 <= i < |Join(words)| ensures u.lower(Join(words)[i]) == Join(words)[i] {
      assert u.Lower(Join(words))[i] == u.lower(Join(words)[i]);
    }
  }

  /** Two locations that differ in case only have the same normal form. */
  lemma CaseDoesNotMatter(u: Unicode, location: string, other: string)
    requires u.Sane() && |location| == |other|
    requires forall i :: 0 <= i < |location| ==> u.lower(location[i]) == u.lower(other[i])
    ensures Normalized(u, location) == Normalized(u, other)
  {
    NormalisationIsCanonical(u, location);
    NormalisationIsCanonical(u, other);
    assert u.Lower(location) == u.Lower(other);
  }

  lemma EmptyJoin(keep: char -> bool, words: seq<string>)
    requires AllWords(keep, words)
    ensures Join(words) == [] <==> words == []
  {
  }

  lemma {:induction false} EmptyWords(keep: char -> bool, s: string)
    ensures Words(keep, s) == [] <==> NoneKept(keep, s)
    decreases |s|
  {
    if s != [] {
      EmptyWords(keep, Init(s));
      assert s == Init(s) + [Last(s)];
    }
  }

  // ---------------------------------------------------------------- the scanner

  lemma JoinOfGrownWord(words: seq<string>, c: char)
    requires words != []
    ensures Join(Init(words) + [Last(words) + [c]]) == Join(words) + [c]
  {
  }

  lemma JoinOfNewWord(words: seq<string>, w: string)
    ensures Join(words + [w]) == if words == [] then w else Join(words) + [' '] + w
  {
  }

  method NormalizeLocation(u: Unicode, location: string) returns (normalized: string)
    ensures normalized == Normalized(u, location)
  {
    var text := u.Lower(u.Trim(location));
    normalized := [];
    var spacePending := false;
    for i := 0 to |text|
      invariant normalized == Join(Words(u.Keeps(), text[..i]))
      invariant spacePending <==> i > 0 && !u.isAlnum(text[i - 1])
    {
      var letter := text[i];
      assert text[..i + 1] == text[..i] + [letter];
      assert i > 0 ==> Last(text[..i]) == text[i - 1];
      WordsOfSnoc(u.Keeps(), text[..i], letter);
      ghost var words := Words(u.Keeps(), text[..i]);
      ghost var gaps := WordsAreMaximalRuns(u.Keeps(), text[..i]);
      EmptyJoin(u.Keeps(), words);
      EmptyWords(u.Keeps(), text[..i]);
      if u.isAlnum(letter) {
        JoinOfNewWord(words, [letter]);
        if words != [] {
          JoinOfGrownWord(words, letter);
        }
        if spacePending && |normalized| > 0 {
          normalized := normalized + [' '];
        }
        normalized := normalized + [letter];
        spacePending := false;
      } else if !spacePending {
        spacePending := true;
      }
    }
    assert text[..|text|] == text;
  }
}
