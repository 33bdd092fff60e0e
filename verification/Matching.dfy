/** `locationMatchScore`: how well a provider's label covers the words of a query. */
module Matching {
  import opened Wrappers
  import opened Sequences
  import opened Similarity
  import opened Normalisation

  /** The best similarity of one query word to any candidate word, zero when there is none. */
  function BestMatch(word: string, candidates: seq<string>): real {
    if candidates == [] then 0.0
    else MaxReal(BestMatch(word, Init(candidates)), Similarity.Similarity(word, Last(candidates)))
  }

  function TotalMatch(words: seq<string>, candidates: seq<string>): real {
    if words == [] then 0.0 else TotalMatch(Init(words), candidates) + BestMatch(Last(words), candidates)
  }

  function Score(u: Unicode, query: string, candidate: string): real {
    var q, c := Normalized(u, query), Normalized(u, candidate);
    if q == [] || c == [] then 0.0
    else if q == c then 1.0
    else
      var words := u.Fields(q);
      if words == [] then 0.0
      else MaxReal(TotalMatch(words, u.Fields(c)) / |words| as real, Similarity.Similarity(q, c))
  }

  /** Every word of the query is a word of the candidate, and neither side is without words. */
  ghost predicate Covers(u: Unicode, query: string, candidate: string) {
    var words := Words(u.Keeps(), u.Lower(query));
    var others := Words(u.Keeps(), u.Lower(candidate));
    && words != []
    && others != []
    && forall w :: w in words ==> w in others
  }

  /** No candidate word is more similar, and one of them is as similar; zero without candidates. */
  ghost predicate IsBestMatch(word: string, candidates: seq<string>, best: real) {
    if candidates == [] then best == 0.0
    else
      && (exists k :: 0 <= k < |candidates| && IsSimilarity(word, candidates[k], best))
      && forall k, s :: 0 <= k < |candidates| && IsSimilarity(word, candidates[k], s) ==> s <= best
  }

  /** The best matches of the words, and their sums so far. */
  ghost predicate AddUp(words: seq<string>, candidates: seq<string>, bests: seq<real>, sums: seq<real>) {
    && |bests| == |words| && |sums| == |words| + 1 && sums[0] == 0.0
    && forall k :: 0 <= k < |words| ==>
         IsBestMatch(words[k], candidates, bests[k]) && sums[k + 1] == sums[k] + bests[k]
  }

  /** The average over the words of their best matches. */
  ghost predicate IsAverage(words: seq<string>, candidates: seq<string>, average: real) {
    exists bests, sums ::
      AddUp(words, candidates, bests, sums) && average * |words| as real == sums[|words|]
  }

  /** The score in the words of the source: 0 if a text is empty, 1 if they are equal, and otherwise the larger of the
      average and the similarity of the whole texts. */
  ghost predicate IsScore(u: Unicode, query: string, candidate: string, score: real) {
    var q, c := Normalized(u, query), Normalized(u, candidate);
    if q == [] || c == [] then score == 0.0
    else if q == c then score == 1.0
    else
      exists average, whole ::
        && IsAverage(Words(u.Keeps(), u.Lower(query)), Words(u.Keeps(), u.Lower(candidate)), average)
        && IsSimilarity(q, c, whole)
        && score >= average && score >= whole && (score == average || score == whole)
  }

  lemma {:induction false} BestMatchIsBest(word: string, candidates: seq<string>)
    ensures IsBestMatch(word, candidates, BestMatch(word, candidates))
    decreases |candidates|
  {
    if candidates != [] {
      var before, last := Init(candidates), Last(candidates);
      BestMatchIsBest(word, before);
      SimilarityMeaning(word, last);
      SimilarityRange(word, last);
      if before != [] {
        var k :| 0 <= k < |before| && IsSimilarity(word, before[k], BestMatch(word, before));
        assert candidates[k] == before[k];
      }
      forall k, s | 0 <= k < |candidates| && IsSimilarity(word, candidates[k], s)
        ensures s <= BestMatch(word, candidates)
      {
        if k < |before| {
          assert candidates[k] == before[k];
        } else {
          SimilarityIsUnique(word, last, s);
        }
      }
    }
  }

  lemma {:induction false} TotalsAddUp(words: seq<string>, candidates: seq<string>)
    returns (bests: seq<real>, sums: seq<real>)
    ensures AddUp(words, candidates, bests, sums) && sums[|words|] == TotalMatch(words, candidates)
    decreases |words|
  {
    if words == [] {
      bests, sums := [], [0.0];
    } else {
      bests, sums := TotalsAddUp(Init(words), candidates);
      var best := BestMatch(Last(words), candidates);
      BestMatchIsBest(Last(words), candidates);
      bests, sums := bests + [best], sums + [Last(sums) + best];
    }
  }

  lemma AverageOfBests(words: seq<string>, candidates: seq<string>)
    requires words != []
    ensures IsAverage(words, candidates, TotalMatch(words, candidates) / |words| as real)
  {
    var bests, sums := TotalsAddUp(words, candidates);
    QuotientTimes(TotalMatch(words, candidates), |words|);
  }

  lemma ScoreIsLarger(u: Unicode, query: string, candidate: string)
    requires u.Sane()
    ensures IsScore(u, query, candidate, Score(u, query, candidate))
  {
    var q, c := Normalized(u, query), Normalized(u, candidate);
    NormalisationIsCanonical(u, query);
    NormalisationIsCanonical(u, candidate);
    EmptyWords(u.Keeps(), u.Lower(query));
    if q != [] && c != [] && q != c {
      var words, others := u.Fields(q), u.Fields(c);
      AverageOfBests(words, others);
      SimilarityMeaning(q, c);
    }
  }

  lemma {:induction false} BestMatchRange(word: string, candidates: seq<string>)
    ensures 0.0 <= BestMatch(word, candidates) <= 1.0
    ensures BestMatch(word, candidates) == 1.0 <==> word in candidates
    decreases |candidates|
  {
    if candidates != [] {
      BestMatchRange(word, Init(candidates));
      SimilarityRange(word, Last(candidates));
      assert candidates == Init(candidates) + [Last(candidates)];
    }
  }

  lemma {:induction false} TotalMatchRange(words: seq<string>, candidates: seq<string>)
    ensures 0.0 <= TotalMatch(words, candidates) <= |words| as real
    ensures TotalMatch(words, candidates) == |words| as real <==> forall w :: w in words ==> w in candidates
    decreases |words|
  {
    if words != [] {
      TotalMatchRange(Init(words), candidates);
      BestMatchRange(Last(words), candidates);
      assert words == Init(words) + [Last(words)];
      if forall w :: w in words ==> w in candidates {
        assert forall w :: w in Init(words) ==> w in words;
        assert Last(words) in words;
      }
    }
  }

  lemma AverageRange(total: real, count: nat)
    requires 0.0 <= total <= count as real && count > 0
    ensures 0.0 <= total / count as real <= 1.0
    ensures total / count as real == 1.0 <==> total == count as real
  {
    var average := total / count as real;
    assert average * count as real == total;
    assert average > 1.0 ==> average * count as real > count as real;
  }

  /** A score lies in [0, 1] and is 1 exactly when the candidate has every word of the query. */
  lemma ScoreMeaning(u: Unicode, query: string, candidate: string)
    requires u.Sane()
    ensures 0.0 <= Score(u, query, candidate) <= 1.0
    ensures Score(u, query, candidate) == 1.0 <==> Covers(u, query, candidate)
  {
    var q, c := Normalized(u, query), Normalized(u, candidate);
    NormalisationIsCanonical(u, query);
    NormalisationIsCanonical(u, candidate);
    EmptyWords(u.Keeps(), u.Lower(query));
    EmptyWords(u.Keeps(), u.Lower(candidate));
    if q != [] && c != [] && q != c {
      TotalMatchRange(u.Fields(q), u.Fields(c));
      AverageRange(TotalMatch(u.Fields(q), u.Fields(c)), |u.Fields(q)|);
      SimilarityRange(q, c);
    }
  }

  /** Scoring a query that has been normalised before gives the same score. */
  lemma ScoreOfNormalizedQuery(u: Unicode, query: string, candidate: string)
    requires u.Sane()
    ensures Score(u, Normalized(u, query), candidate) == Score(u, query, candidate)
    ensures Covers(u, Normalized(u, query), candidate) <==> Covers(u, query, candidate)
  {
    NormalisationIsCanonical(u, query);
    ScoreMeaning(u, query, candidate);
    ScoreMeaning(u, Normalized(u, query), candidate);
  }

  method LocationMatchScore(u: Unicode, query: string, candidate: string) returns (score: real)
    requires u.Sane()
    ensures score == Score(u, query, candidate) && IsScore(u, query, candidate, score)
  {
    ScoreIsLarger(u, query, candidate);
    var q := NormalizeLocation(u, query);
    var c := NormalizeLocation(u, candidate);
    if q == [] || c == [] {
      return 0.0;
    }
    if q == c {
      return 1.0;
    }
    var queryTokens, candidateTokens := u.Fields(q), u.Fields(c);
    assert queryTokens != [] by {
      NormalisationIsCanonical(u, query);
      EmptyWords(u.Keeps(), u.Lower(query));
    }
    var tokenScore := 0.0;
    for i := 0 to |queryTokens|
      invariant tokenScore == TotalMatch(queryTokens[..i], candidateTokens)
    {
      var bestTokenScore := 0.0;
      for j := 0 to |candidateTokens|
        invariant bestTokenScore == BestMatch(queryTokens[i], candidateTokens[..j])
      {
        var similarity := StringSimilarity(queryTokens[i], candidateTokens[j]);
        bestTokenScore := MaxReal(bestTokenScore, similarity);
        assert Init(candidateTokens[..j + 1]) == candidateTokens[..j];
      }
      assert candidateTokens[..|candidateTokens|] == candidateTokens;
      tokenScore := tokenScore + bestTokenScore;
      assert Init(queryTokens[..i + 1]) == queryTokens[..i];
    }
    assert queryTokens[..|queryTokens|] == queryTokens;
    tokenScore := tokenScore / |queryTokens| as real;
    var whole := StringSimilarity(q, c);
    score := MaxReal(tokenScore, whole);
  }
}
