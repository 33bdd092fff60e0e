/** `stringSimilarity` and `minInt`: the two-row table, proved against the edit distance. */
module Similarity {
  import opened Wrappers
  import opened Sequences
  import opened EditDistance

  /** One minus the share of the longer text that has to be edited. */
  function Similarity(a: string, b: string): real {
    if a == [] && b == [] then 1.0
    else 1.0 - Distance(a, b) as real / Max(|a|, |b|) as real
  }

  lemma SimilarityRange(a: string, b: string)
    ensures 0.0 <= Similarity(a, b) <= 1.0
    ensures Similarity(a, b) == 1.0 <==> a == b
    ensures Similarity(a, b) == Similarity(b, a)
  {
    DistanceBounds(a, b);
    DistanceIsZeroIffEqual(a, b);
    DistanceIsSymmetric(a, b);
    if a != [] || b != [] {
      ShareRange(Distance(a, b), Max(|a|, |b|));
    }
  }

  /** What is missing to 1, of the whole, is the part. */
  ghost predicate Misses(similarity: real, part: nat, whole: nat) {
    (1.0 - similarity) * whole as real == part as real
  }

  /** The value in the words of the source: 1 minus the cost of the cheapest edit script over the longer length. */
  ghost predicate IsSimilarity(a: string, b: string, similarity: real) {
    if a == [] && b == [] then similarity == 1.0
    else if a == [] || b == [] then similarity == 0.0
    else forall cost: nat :: IsMinimumScriptCost(a, b, cost) ==>
      Misses(similarity, cost, if |a| >= |b| then |a| else |b|)
  }

  lemma QuotientTimes(total: real, count: nat)
    requires count > 0
    ensures total / count as real * count as real == total
  {
  }

  lemma OneMinus(similarity: real, share: real, part: real, whole: real)
    requires similarity == 1.0 - share && share * whole == part
    ensures (1.0 - similarity) * whole == part
  {
  }

  lemma ShareMisses(part: nat, whole: nat, similarity: real)
    requires whole > 0 && similarity == 1.0 - part as real / whole as real
    ensures Misses(similarity, part, whole)
  {
    var share := part as real / whole as real;
    QuotientTimes(part as real, whole);
    OneMinus(similarity, share, part as real, whole as real);
  }

  lemma Undo(x: real, factor: real)
    requires factor > 0.0
    ensures x * factor / factor == x
  {
  }

  lemma MissesIsUnique(x: real, y: real, part: nat, whole: nat)
    requires whole > 0 && Misses(x, part, whole) && Misses(y, part, whole)
    ensures x == y
  {
    Undo(1.0 - x, whole as real);
    Undo(1.0 - y, whole as real);
  }

  lemma SimilarityMeaning(a: string, b: string)
    ensures IsSimilarity(a, b, Similarity(a, b))
  {
    if (a == []) != (b == []) {
      NothingInCommon(a, b);
    } else if a != [] {
      DistanceIsMinimumScriptCost(a, b);
      ShareMisses(Distance(a, b), Max(|a|, |b|), Similarity(a, b));
      forall cost: nat | IsMinimumScriptCost(a, b, cost) ensures cost == Distance(a, b) {
        MinimumIsUnique(a, b, cost, Distance(a, b));
      }
    }
  }

  lemma SimilarityIsUnique(a: string, b: string, similarity: real)
    requires IsSimilarity(a, b, similarity)
    ensures similarity == Similarity(a, b)
  {
    SimilarityMeaning(a, b);
    if a != [] && b != [] {
      DistanceIsMinimumScriptCost(a, b);
      MissesIsUnique(similarity, Similarity(a, b), Distance(a, b), if |a| >= |b| then |a| else |b|);
    }
  }

  lemma ShareRange(part: nat, whole: nat)
    requires part <= whole && whole > 0
    ensures 0.0 <= part as real / whole as real <= 1.0
    ensures part as real / whole as real == 0.0 <==> part == 0
  {
  }

  lemma NothingInCommon(a: string, b: string)
    requires (a == []) != (b == [])
    ensures Similarity(a, b) == 0.0
  {
    DistanceBounds(a, b);
    var whole := Max(|a|, |b|) as real;
    assert whole / whole == 1.0;
  }

  method MinInt(values: seq<int>) returns (minimum: int)
    requires values != []
    ensures minimum in values
    ensures forall k :: 0 <= k < |values| ==> minimum <= values[k]
  {
    minimum := values[0];
    for i := 1 to |values|
      invariant minimum in values
      invariant forall k :: 0 <= k < i ==> minimum <= values[k]
    {
      if values[i] < minimum {
        minimum := values[i];
      }
    }
  }

  /** The table entry for prefixes of lengths `row` and `column`. */
  ghost function Entry(a: string, b: string, row: nat, column: nat): nat
    requires row <= |a| && column <= |b|
  {
    Distance(a[..row], b[..column])
  }

  lemma EntryRecurrence(a: string, b: string, row: nat, column: nat)
    requires row < |a| && column < |b|
    ensures Entry(a, b, row + 1, column + 1)
         == Min3(Entry(a, b, row + 1, column) + 1,
                 Entry(a, b, row, column + 1) + 1,
                 Entry(a, b, row, column) + if a[row] == b[column] then 0 else 1)
  {
    assert Init(a[..row + 1]) == a[..row];
    assert Init(b[..column + 1]) == b[..column];
  }

  ghost predicate RowFilled(a: string, b: string, row: nat, cells: seq<int>, upTo: nat)
    requires row <= |a| && upTo <= |b| + 1 && upTo <= |cells|
  {
    forall j :: 0 <= j < upTo ==> cells[j] == Entry(a, b, row, j)
  }

  method Cheapest(left: int, above: int, diagonal: int) returns (best: int)
    requires left >= 0 && above >= 0 && diagonal >= 0
    ensures best == Min3(left, above, diagonal)
  {
    var values := [left, above, diagonal];
    best := MinInt(values);
    assert values[0] >= best && values[1] >= best && values[2] >= best;
  }

  /** One round of the outer loop: a fresh row computed from the previous one. */
  method NextRow(first: string, second: string, row: nat, previous: array<int>) returns (current: array<int>)
    requires row < |first| && previous.Length == |second| + 1
    requires RowFilled(first, second, row, previous[..], |second| + 1)
    ensures fresh(current) && current.Length == |second| + 1
    ensures RowFilled(first, second, row + 1, current[..], |second| + 1)
  {
    current := new int[|second| + 1];
    current[0] := row + 1;
    for column := 0 to |second|
      invariant forall j :: 0 <= j <= column ==> current[j] == Entry(first, second, row + 1, j)
    {
      var cost := 0;
      if first[row] != second[column] {
        cost := 1;
      }
      assert previous[..][column] == previous[column] && previous[..][column + 1] == previous[column + 1];
      EntryRecurrence(first, second, row, column);
      var best := Cheapest(current[column] + 1, previous[column + 1] + 1, previous[column] + cost);
      current[column + 1] := best;
    }
  }

  /** The row that the first round starts from. */
  method FirstRow(first: string, second: string) returns (previous: array<int>)
    ensures fresh(previous) && previous.Length == |second| + 1
    ensures RowFilled(first, second, 0, previous[..], |second| + 1)
  {
    previous := new int[|second| + 1];
    for column := 0 to previous.Length
      invariant forall j :: 0 <= j < column ==> previous[j] == j
    {
      previous[column] := column;
    }
  }

  /** All rounds of the table. */
  method TableDistance(first: string, second: string) returns (distance: int)
    ensures distance == Distance(first, second)
  {
    var previous := FirstRow(first, second);
    for row := 0 to |first|
      invariant previous.Length == |second| + 1
      invariant RowFilled(first, second, row, previous[..], |second| + 1)
    {
      previous := NextRow(first, second, row, previous);
    }
    assert first[..|first|] == first && second[..|second|] == second;
    distance := previous[|second|];
    assert distance == previous[..][|second|];
  }

  method StringSimilarity(first: string, second: string) returns (similarity: real)
    ensures similarity == Similarity(first, second) && IsSimilarity(first, second, similarity)
  {
    SimilarityMeaning(first, second);
    if |first| == 0 && |second| == 0 {
      return 1.0;
    }
    if |first| == 0 || |second| == 0 {
      NothingInCommon(first, second);
      return 0.0;
    }
    var distance := TableDistance(first, second);
    var longest := |first|;
    if |second| > longest {
      longest := |second|;
    }
    similarity := 1.0 - distance as real / longest as real;
  }
}
