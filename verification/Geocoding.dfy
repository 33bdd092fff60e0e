/** `getLATLONGfromUserLocation`: what may go wrong in the exchange with the provider, then filtering, scoring, and
    choosing one location or refusing. The exchange itself and the decoding of the body are parameters. */
module Geocoding {
  import opened Wrappers
  import opened Sequences
  import opened Normalisation
  import opened Matching

  const MINIMUM_SCORE := 0.80
  const MINIMUM_DIFFERENCE := 0.10
  const MAX_RESPONSE_BYTES := 0x10_0000
  const STATUS_OK := 200

  datatype Location = Location(lat: real, long: real)

  /** One provider result; a coordinate is None when its text is not a finite number. */
  datatype ProviderResult = ProviderResult(
    latitude: Option<real>, longitude: Option<real>, name: string, displayName: string, locationName: string)

  datatype Candidate = Candidate(location: Location, score: real)

  /** What becomes of the request: it cannot be built, it is not answered, or there is an answer, whose body may fail
      while it is read, may be of any size, and may or may not decode. */
  datatype Reply =
    | NoRequest
    | NoAnswer
    | Answer(status: nat, readable: bool, size: nat, decoded: Option<seq<ProviderResult>>)

  datatype Refusal =
    | EmptyLocation
    | RequestFailed | SendFailed | BadStatus(status: nat) | ReadFailed | TooLarge | Malformed
    | NoResult | NoValidResult | NotSimilar | Ambiguous

  datatype Outcome = Found(location: Location) | Refused(why: Refusal)

  function ParseCoordinates(r: ProviderResult): Option<Location> {
    if r.latitude.None? || r.longitude.None? then None
    else if !(-90.0 <= r.latitude.value <= 90.0) || !(-180.0 <= r.longitude.value <= 180.0) then None
    else Some(Location(r.latitude.value, r.longitude.value))
  }

  function LabelScore(u: Unicode, query: string, name: string): real {
    if name == [] then 0.0 else Score(u, query, name)
  }

  function ResultScore(u: Unicode, query: string, r: ProviderResult): real {
    MaxReal(MaxReal(MaxReal(0.0, LabelScore(u, query, r.name)), LabelScore(u, query, r.displayName)),
            LabelScore(u, query, r.locationName))
  }

  function CandidateOf(u: Unicode, query: string, r: ProviderResult): seq<Candidate> {
    if ParseCoordinates(r).None? || ResultScore(u, query, r) == 0.0 then []
    else [Candidate(ParseCoordinates(r).value, ResultScore(u, query, r))]
  }

  function Filter(u: Unicode, query: string): ProviderResult -> seq<Candidate> {
    (r: ProviderResult) => CandidateOf(u, query, r)
  }

  function Candidates(u: Unicode, query: string, results: seq<ProviderResult>): seq<Candidate> {
    FlatMap(Filter(u, query), results)
  }

  function FlatMap<A, B>(f: A -> seq<B>, xs: seq<A>): seq<B> {
    if xs == [] then [] else FlatMap(f, Init(xs)) + f(Last(xs))
  }

  lemma {:induction false} FlatMapOfConcat<A, B>(f: A -> seq<B>, front: seq<A>, back: seq<A>)
    ensures FlatMap(f, front + back) == FlatMap(f, front) + FlatMap(f, back)
    decreases |back|
  {
    if back == [] {
      assert front + back == front;
    } else {
      FlatMapOfConcat(f, front, Init(back));
      assert Init(front + back) == front + Init(back);
    }
  }

  lemma FlatMapAround<A, B>(f: A -> seq<B>, xs: seq<A>, k: nat)
    requires k < |xs|
    ensures FlatMap(f, xs) == FlatMap(f, xs[..k]) + f(xs[k]) + FlatMap(f, xs[k + 1..])
  {
    assert xs == xs[..k + 1] + xs[k + 1..];
    FlatMapOfConcat(f, xs[..k + 1], xs[k + 1..]);
    assert Init(xs[..k + 1]) == xs[..k];
  }

  lemma {:induction false} FlatMapOfPermutation<A, B>(f: A -> seq<B>, xs: seq<A>, ys: seq<A>)
    requires multiset(xs) == multiset(ys)
    ensures multiset(FlatMap(f, xs)) == multiset(FlatMap(f, ys))
    decreases |xs|
  {
    if xs == [] {
      assert |multiset(ys)| == 0;
    } else {
      var x := Last(xs);
      assert xs == Init(xs) + [x];
      assert x in multiset(ys);
      var k :| 0 <= k < |ys| && ys[k] == x;
      var rest := ys[..k] + ys[k + 1..];
      assert multiset(ys) == multiset(rest) + multiset{x} by {
        assert ys == ys[..k] + [x] + ys[k + 1..];
      }
      assert multiset(Init(xs)) == multiset(xs) - multiset{x};
      assert multiset(rest) == multiset(ys) - multiset{x};
      FlatMapOfPermutation(f, Init(xs), rest);
      FlatMapOfConcat(f, ys[..k], ys[k + 1..]);
      FlatMapAround(f, ys, k);
    }
  }

  // ---------------------------------------------------------------- what a choice means, whatever the order

  ghost predicate IsTop(m: multiset<Candidate>, c: Candidate) {
    c in m && forall d :: d in m ==> d.score <= c.score
  }

  /** `d` is an entry other than `c`, possibly an identical copy. */
  ghost predicate IsOther(m: multiset<Candidate>, c: Candidate, d: Candidate) {
    d in m - multiset{c}
  }

  ghost predicate Challenges(c: Candidate, d: Candidate) {
    d.score >= MINIMUM_SCORE && c.score - d.score < MINIMUM_DIFFERENCE
  }

  ghost predicate IsClear(m: multiset<Candidate>, c: Candidate) {
    IsTop(m, c) && c.score >= MINIMUM_SCORE && forall d :: IsOther(m, c, d) ==> !Challenges(c, d)
  }

  /** The outcome that the bag of candidates calls for. */
  ghost predicate Judged(m: multiset<Candidate>, outcome: Outcome) {
    match outcome
    case Found(location) =>
      exists c :: IsClear(m, c) && c.location == location
    case Refused(NoValidResult) => m == multiset{}
    case Refused(NotSimilar) => m != multiset{} && forall c :: c in m ==> c.score < MINIMUM_SCORE
    case Refused(Ambiguous) => exists c, d :: IsTop(m, c) && IsOther(m, c, d) && Challenges(c, d)
    case Refused(_) => false
  }

  /** A clear winner is the only entry with the top score. */
  lemma ClearWinnerIsAlone(m: multiset<Candidate>, c: Candidate, e: Candidate)
    requires IsClear(m, c) && IsTop(m, e)
    ensures e == c
  {
    assert e == c || IsOther(m, c, e);
  }

  lemma JudgementIsUnique(m: multiset<Candidate>, first: Outcome, second: Outcome)
    requires Judged(m, first) && Judged(m, second)
    ensures first == second
  {
    if first.Found? {
      FoundIsUnique(m, first, second);
    } else if second.Found? {
      FoundIsUnique(m, second, first);
    }
  }

  lemma FoundIsUnique(m: multiset<Candidate>, found: Outcome, other: Outcome)
    requires found.Found? && Judged(m, found) && Judged(m, other)
    ensures found == other
  {
    var c :| IsClear(m, c) && c.location == found.location;
    match other
    case Found(_) =>
      var e :| IsClear(m, e) && e.location == other.location;
      ClearWinnerIsAlone(m, c, e);
    case Refused(Ambiguous) =>
      var e, d :| IsTop(m, e) && IsOther(m, e, d) && Challenges(e, d);
      ClearWinnerIsAlone(m, c, e);
    case Refused(_) =>
  }

  /** What an answer to a query has to be for a given list of provider results. */
  ghost predicate Answers(u: Unicode, location: string, results: seq<ProviderResult>, outcome: Outcome) {
    if Normalized(u, location) == [] then outcome == Refused(EmptyLocation)
    else if results == [] then outcome == Refused(NoResult)
    else Judged(multiset(Candidates(u, Normalized(u, location), results)), outcome)
  }

  /** An answer that can be used: status 200, at most 1 MiB, read and decoded without an error. */
  predicate IsUsable(reply: Reply) {
    && reply.Answer? && reply.status == STATUS_OK && reply.readable && reply.size <= MAX_RESPONSE_BYTES
    && reply.decoded.Some?
  }

  /** The refusal that an unusable reply calls for: the first of its faults that is met. */
  ghost predicate IsFault(reply: Reply, why: Refusal) {
    match why
    case RequestFailed => reply.NoRequest?
    case SendFailed => reply.NoAnswer?
    case BadStatus(status) => reply.Answer? && reply.status == status != STATUS_OK
    case ReadFailed => reply.Answer? && reply.status == STATUS_OK && !reply.readable
    case TooLarge => reply.Answer? && reply.status == STATUS_OK && reply.readable && reply.size > MAX_RESPONSE_BYTES
    case Malformed =>
      && reply.Answer? && reply.status == STATUS_OK && reply.readable && reply.size <= MAX_RESPONSE_BYTES
      && reply.decoded.None?
    case _ => false
  }

  /** Every unusable reply has exactly one fault, and a usable one has none. */
  lemma OneFault(reply: Reply)
    ensures IsUsable(reply) <==> forall why :: !IsFault(reply, why)
    ensures forall a, b :: IsFault(reply, a) && IsFault(reply, b) ==> a == b
  {
    if !IsUsable(reply) {
      var why :=
        if reply.NoRequest? then RequestFailed
        else if reply.NoAnswer? then SendFailed
        else if reply.status != STATUS_OK then BadStatus(reply.status)
        else if !reply.readable then ReadFailed
        else if reply.size > MAX_RESPONSE_BYTES then TooLarge
        else Malformed;
      assert IsFault(reply, why);
    }
  }

  /** What the whole function has to answer. */
  ghost predicate Resolves(u: Unicode, location: string, reply: Reply, outcome: Outcome) {
    if Normalized(u, location) == [] then outcome == Refused(EmptyLocation)
    else if IsUsable(reply) then Answers(u, location, reply.decoded.value, outcome)
    else outcome.Refused? && IsFault(reply, outcome.why)
  }

  /** The order in which the provider lists its results never changes the answer. */
  lemma OrderDoesNotMatter(u: Unicode, location: string, xs: seq<ProviderResult>, ys: seq<ProviderResult>,
                           first: Outcome, second: Outcome)
    requires multiset(xs) == multiset(ys)
    requires Answers(u, location, xs, first) && Answers(u, location, ys, second)
    ensures first == second
  {
    assert |multiset(xs)| == |xs| && |multiset(ys)| == |ys|;
    if Normalized(u, location) != [] && xs != [] {
      FlatMapOfPermutation(Filter(u, Normalized(u, location)), xs, ys);
      JudgementIsUnique(multiset(Candidates(u, Normalized(u, location), xs)), first, second);
    }
  }

  // ---------------------------------------------------------------- consequences for callers

  /** A result with usable coordinates, one of whose labels has every word of the query. */
  ghost predicate FullMatch(u: Unicode, location: string, r: ProviderResult) {
    && ParseCoordinates(r).Some?
    && (Covers(u, location, r.name) || Covers(u, location, r.displayName) || Covers(u, location, r.locationName))
  }

  lemma FullMatchScoresOne(u: Unicode, location: string, r: ProviderResult)
    requires u.Sane() && FullMatch(u, location, r)
    ensures CandidateOf(u, Normalized(u, location), r) == [Candidate(ParseCoordinates(r).value, 1.0)]
  {
    LabelScoreMeaning(u, location, r.name);
    LabelScoreMeaning(u, location, r.displayName);
    LabelScoreMeaning(u, location, r.locationName);
  }

  lemma LabelScoreMeaning(u: Unicode, location: string, name: string)
    requires u.Sane()
    ensures 0.0 <= LabelScore(u, Normalized(u, location), name) <= 1.0
    ensures LabelScore(u, Normalized(u, location), name) == 1.0 <==> Covers(u, location, name)
  {
    ScoreMeaning(u, Normalized(u, location), name);
    ScoreOfNormalizedQuery(u, location, name);
  }

  lemma {:induction false} CandidateScores(u: Unicode, location: string, results: seq<ProviderResult>, k: nat)
    requires u.Sane() && k < |Candidates(u, Normalized(u, location), results)|
    ensures 0.0 < Candidates(u, Normalized(u, location), results)[k].score <= 1.0
    decreases |results|
  {
    var r := Last(results);
    LabelScoreMeaning(u, location, r.name);
    LabelScoreMeaning(u, location, r.displayName);
    LabelScoreMeaning(u, location, r.locationName);
    if k < |Candidates(u, Normalized(u, location), Init(results))| {
      CandidateScores(u, location, Init(results), k);
    }
  }

  lemma OneIsTop(u: Unicode, location: string, results: seq<ProviderResult>, c: Candidate)
    requires u.Sane() && c.score == 1.0
    ensures var m := multiset(Candidates(u, Normalized(u, location), results)); c in m ==> IsTop(m, c)
  {
    var cs := Candidates(u, Normalized(u, location), results);
    forall d: Candidate | d in multiset(cs) ensures d.score <= 1.0 {
      assert d in cs;
      var k :| 0 <= k < |cs| && cs[k] == d;
      CandidateScores(u, location, results, k);
    }
  }

  /** Two different results that both have every word of the query always make the answer ambiguous. */
  lemma TwoFullMatchesAreAmbiguous(u: Unicode, location: string, results: seq<ProviderResult>, i: nat, j: nat)
    requires u.Sane() && i < j < |results|
    requires FullMatch(u, location, results[i]) && FullMatch(u, location, results[j])
    ensures forall outcome :: Answers(u, location, results, outcome) <==> outcome == Refused(Ambiguous)
  {
    assert Normalized(u, location) != [] by {
      NormalisationIsCanonical(u, location);
      EmptyWords(u.Keeps(), u.Lower(location));
    }
    var f := Filter(u, Normalized(u, location));
    FullMatchScoresOne(u, location, results[i]);
    FullMatchScoresOne(u, location, results[j]);
    var cx, cy := f(results[i])[0], f(results[j])[0];
    var m := multiset(FlatMap(f, results));
    TwoEntries(f, results, i, j, cx, cy);
    OneIsTop(u, location, results, cx);
    OnlyAmbiguous(m, cx, cy);
  }

  lemma OnlyAmbiguous(m: multiset<Candidate>, c: Candidate, d: Candidate)
    requires IsTop(m, c) && IsOther(m, c, d) && Challenges(c, d)
    ensures forall outcome :: Judged(m, outcome) <==> outcome == Refused(Ambiguous)
  {
    forall outcome | Judged(m, outcome) ensures outcome == Refused(Ambiguous) {
      JudgementIsUnique(m, outcome, Refused(Ambiguous));
    }
  }

  lemma TwoEntries(f: ProviderResult -> seq<Candidate>, xs: seq<ProviderResult>, i: nat, j: nat, cx: Candidate,
                   cy: Candidate)
    requires i < j < |xs| && f(xs[i]) == [cx] && f(xs[j]) == [cy]
    ensures var m := multiset(FlatMap(f, xs)); cx in m && IsOther(m, cx, cy)
  {
    FlatMapAround(f, xs, j);
    FlatMapAround(f, xs[..j], i);
    assert multiset(FlatMap(f, xs)) >= multiset{cx, cy};
  }

  // ---------------------------------------------------------------- the answer, in terms of the results

  /** The coordinates of the result are both there and in range, and they are these. */
  predicate IsPlace(r: ProviderResult, l: Location) {
    && r.latitude == Some(l.lat) && -90.0 <= l.lat <= 90.0
    && r.longitude == Some(l.long) && -180.0 <= l.long <= 180.0
  }

  /** A result is left out for its coordinates exactly if one is missing or out of range; otherwise they are taken as
      they are. */
  lemma CoordinatesMeaning(r: ProviderResult)
    ensures forall l :: ParseCoordinates(r) == Some(l) <==> IsPlace(r, l)
    ensures ParseCoordinates(r).None? <==>
              || r.latitude.None? || !(-90.0 <= r.latitude.value <= 90.0)
              || r.longitude.None? || !(-180.0 <= r.longitude.value <= 180.0)
  {
  }

  predicate IsLabel(r: ProviderResult, text: string) {
    text != [] && (text == r.name || text == r.displayName || text == r.locationName)
  }

  /** No label of the result scores higher, and one of them scores as high, unless all score nothing. */
  ghost predicate IsBestLabel(u: Unicode, location: string, r: ProviderResult, score: real) {
    && score >= 0.0
    && (forall text :: IsLabel(r, text) ==> Score(u, location, text) <= score)
    && (score == 0.0 || exists text :: IsLabel(r, text) && Score(u, location, text) == score)
  }

  /** A result that enters the choice, with its coordinates and its score. */
  ghost predicate IsValid(u: Unicode, location: string, r: ProviderResult, l: Location, score: real) {
    IsPlace(r, l) && IsBestLabel(u, location, r, score) && score != 0.0
  }

  lemma ResultScoreMeaning(u: Unicode, location: string, r: ProviderResult)
    requires u.Sane()
    ensures IsBestLabel(u, location, r, ResultScore(u, Normalized(u, location), r))
  {
    var q := Normalized(u, location);
    forall text | IsLabel(r, text)
      ensures Score(u, location, text) == LabelScore(u, q, text) && Score(u, location, text) >= 0.0
    {
      ScoreOfNormalizedQuery(u, location, text);
      ScoreMeaning(u, location, text);
    }
    assert IsLabel(r, r.name) || LabelScore(u, q, r.name) == 0.0;
    assert IsLabel(r, r.displayName) || LabelScore(u, q, r.displayName) == 0.0;
    assert IsLabel(r, r.locationName) || LabelScore(u, q, r.locationName) == 0.0;
  }

  lemma CandidateMeaning(u: Unicode, location: string, r: ProviderResult)
    requires u.Sane()
    ensures |CandidateOf(u, Normalized(u, location), r)| <= 1
    ensures forall l, s ::
              CandidateOf(u, Normalized(u, location), r) == [Candidate(l, s)] <==> IsValid(u, location, r, l, s)
  {
    CoordinatesMeaning(r);
    ResultScoreMeaning(u, location, r);
  }

  lemma {:induction false} Origin<A, B>(f: A -> seq<B>, xs: seq<A>, y: B) returns (k: nat)
    requires y in FlatMap(f, xs)
    ensures k < |xs| && y in f(xs[k])
    decreases |xs|
  {
    if y in f(Last(xs)) {
      k := |xs| - 1;
    } else {
      k := Origin(f, Init(xs), y);
    }
  }

  lemma OtherIsBesides(front: seq<Candidate>, c: Candidate, back: seq<Candidate>, d: Candidate)
    requires IsOther(multiset(front + [c] + back), c, d)
    ensures d in front || d in back
  {
    assert multiset(front + [c] + back) - multiset{c} == multiset(front) + multiset(back);
  }

  /** Another entry of the bag comes from another result. */
  lemma OtherOrigin<A>(f: A -> seq<Candidate>, xs: seq<A>, i: nat, c: Candidate, d: Candidate) returns (j: nat)
    requires i < |xs| && f(xs[i]) == [c] && IsOther(multiset(FlatMap(f, xs)), c, d)
    ensures j < |xs| && j != i && d in f(xs[j])
  {
    var front, back := FlatMap(f, xs[..i]), FlatMap(f, xs[i + 1..]);
    assert d in front || d in back by {
      FlatMapAround(f, xs, i);
      OtherIsBesides(front, c, back, d);
    }
    if d in front {
      j := Origin(f, xs[..i], d);
    } else {
      j := Origin(f, xs[i + 1..], d);
      j := i + 1 + j;
    }
  }

  /** Every valid result is in the bag. */
  lemma ValidIsIn(u: Unicode, location: string, results: seq<ProviderResult>, k: nat, l: Location, score: real)
    requires u.Sane() && k < |results| && IsValid(u, location, results[k], l, score)
    ensures Candidate(l, score) in multiset(Candidates(u, Normalized(u, location), results))
  {
    CandidateMeaning(u, location, results[k]);
    FlatMapAround(Filter(u, Normalized(u, location)), results, k);
  }

  /** Every entry of the bag is a valid result. */
  lemma InIsValid(u: Unicode, location: string, results: seq<ProviderResult>, c: Candidate) returns (k: nat)
    requires u.Sane() && c in multiset(Candidates(u, Normalized(u, location), results))
    ensures k < |results| && IsValid(u, location, results[k], c.location, c.score)
  {
    k := Origin(Filter(u, Normalized(u, location)), results, c);
    CandidateMeaning(u, location, results[k]);
    assert CandidateOf(u, Normalized(u, location), results[k]) == [c];
  }

  /** The result wins: it scores 0.80 or more, and every other valid one is below 0.80 or at least 0.10 behind. */
  ghost predicate Wins(u: Unicode, location: string, results: seq<ProviderResult>, k: nat, l: Location, score: real) {
    && k < |results| && IsValid(u, location, results[k], l, score) && score >= 0.80
    && forall j, other, s :: 0 <= j < |results| && j != k && IsValid(u, location, results[j], other, s) ==>
         s <= score && (s < 0.80 || score - s >= 0.10)
  }

  /** Two results are too close: one scores highest of all, the other, with 0.80 or more, less than 0.10 behind. */
  ghost predicate TooClose(u: Unicode, location: string, results: seq<ProviderResult>, i: nat, j: nat) {
    && i < |results| && j < |results| && i != j
    && exists l, score, other, s ::
         && IsValid(u, location, results[i], l, score) && IsValid(u, location, results[j], other, s)
         && s >= 0.80 && score - s < 0.10
         && forall k, e, x :: 0 <= k < |results| && IsValid(u, location, results[k], e, x) ==> x <= score
  }

  lemma FoundMeansWins(u: Unicode, location: string, results: seq<ProviderResult>, c: Candidate) returns (k: nat)
    requires u.Sane() && IsClear(multiset(Candidates(u, Normalized(u, location), results)), c)
    ensures Wins(u, location, results, k, c.location, c.score)
  {
    var f := Filter(u, Normalized(u, location));
    k := InIsValid(u, location, results, c);
    CandidateMeaning(u, location, results[k]);
    forall j, other, s | 0 <= j < |results| && j != k && IsValid(u, location, results[j], other, s)
      ensures s <= c.score && (s < 0.80 || c.score - s >= 0.10)
    {
      CandidateMeaning(u, location, results[j]);
      ValidIsIn(u, location, results, j, other, s);
      BothIn(f, results, k, j, c, Candidate(other, s));
    }
  }

  lemma BothIn(f: ProviderResult -> seq<Candidate>, xs: seq<ProviderResult>, i: nat, j: nat, c: Candidate, d: Candidate)
    requires i < |xs| && j < |xs| && i != j && f(xs[i]) == [c] && f(xs[j]) == [d]
    ensures IsOther(multiset(FlatMap(f, xs)), c, d)
  {
    if i < j {
      TwoEntries(f, xs, i, j, c, d);
    } else {
      TwoEntries(f, xs, j, i, d, c);
    }
  }

  lemma AmbiguousMeansTooClose(u: Unicode, location: string, results: seq<ProviderResult>, c: Candidate, d: Candidate)
    returns (i: nat, j: nat)
    requires u.Sane()
    requires var m := multiset(Candidates(u, Normalized(u, location), results));
             IsTop(m, c) && IsOther(m, c, d) && Challenges(c, d)
    ensures TooClose(u, location, results, i, j)
  {
    var f := Filter(u, Normalized(u, location));
    i := InIsValid(u, location, results, c);
    CandidateMeaning(u, location, results[i]);
    j := OtherOrigin(f, results, i, c, d);
    CandidateMeaning(u, location, results[j]);
    assert CandidateOf(u, Normalized(u, location), results[j]) == [d];
    forall k, e, x | 0 <= k < |results| && IsValid(u, location, results[k], e, x) ensures x <= c.score {
      ValidIsIn(u, location, results, k, e, x);
    }
  }

  ghost predicate AnyValid(u: Unicode, location: string, results: seq<ProviderResult>, l: Location, score: real) {
    exists k :: 0 <= k < |results| && IsValid(u, location, results[k], l, score)
  }

  /** The bag holds the valid results, with their scores. */
  lemma BagMeaning(u: Unicode, location: string, results: seq<ProviderResult>)
    requires u.Sane()
    ensures forall l, s :: AnyValid(u, location, results, l, s)
              <==> Candidate(l, s) in multiset(Candidates(u, Normalized(u, location), results))
  {
    var m := multiset(Candidates(u, Normalized(u, location), results));
    forall l, s | Candidate(l, s) in m ensures AnyValid(u, location, results, l, s) {
      var k := InIsValid(u, location, results, Candidate(l, s));
    }
    forall l, s | AnyValid(u, location, results, l, s) ensures Candidate(l, s) in m {
      var k :| 0 <= k < |results| && IsValid(u, location, results[k], l, s);
      ValidIsIn(u, location, results, k, l, s);
    }
  }

  ghost predicate SomeWin(u: Unicode, location: string, results: seq<ProviderResult>, l: Location) {
    exists k, score :: Wins(u, location, results, k, l, score)
  }

  ghost predicate SomeTooClose(u: Unicode, location: string, results: seq<ProviderResult>) {
    exists i, j :: TooClose(u, location, results, i, j)
  }

  lemma ChoiceMeaning(u: Unicode, location: string, results: seq<ProviderResult>, outcome: Outcome)
    requires u.Sane() && Judged(multiset(Candidates(u, Normalized(u, location), results)), outcome)
    ensures outcome.Found? ==> SomeWin(u, location, results, outcome.location)
    ensures outcome == Refused(Ambiguous) ==> SomeTooClose(u, location, results)
  {
    var m := multiset(Candidates(u, Normalized(u, location), results));
    if outcome.Found? {
      var c :| IsClear(m, c) && c.location == outcome.location;
      var k := FoundMeansWins(u, location, results, c);
    } else if outcome.why.Ambiguous? {
      var c, d :| IsTop(m, c) && IsOther(m, c, d) && Challenges(c, d);
      var i, j := AmbiguousMeansTooClose(u, location, results, c, d);
    }
  }

  lemma NotSimilarMeaning(u: Unicode, location: string, results: seq<ProviderResult>)
    requires u.Sane() && Judged(multiset(Candidates(u, Normalized(u, location), results)), Refused(NotSimilar))
    ensures exists l, s :: AnyValid(u, location, results, l, s)
    ensures forall l, s :: AnyValid(u, location, results, l, s) ==> s < 0.80
  {
    BagMeaning(u, location, results);
    var c :| c in multiset(Candidates(u, Normalized(u, location), results));
    assert AnyValid(u, location, results, c.location, c.score);
  }

  /** What each answer says about the results of the provider. Since no two of these can hold together, each answer is
      given exactly if its condition holds. */
  lemma AnswerMeaning(u: Unicode, location: string, results: seq<ProviderResult>, outcome: Outcome)
    requires u.Sane() && Normalized(u, location) != [] && results != [] && Answers(u, location, results, outcome)
    ensures match outcome
            case Found(l) => SomeWin(u, location, results, l)
            case Refused(NoValidResult) => forall l, s :: !AnyValid(u, location, results, l, s)
            case Refused(NotSimilar) =>
              && (exists l, s :: AnyValid(u, location, results, l, s))
              && forall l, s :: AnyValid(u, location, results, l, s) ==> s < 0.80
            case Refused(Ambiguous) => SomeTooClose(u, location, results)
            case Refused(_) => false
  {
    match outcome
    case Found(_) => ChoiceMeaning(u, location, results, outcome);
    case Refused(Ambiguous) => ChoiceMeaning(u, location, results, outcome);
    case Refused(NotSimilar) => NotSimilarMeaning(u, location, results);
    case Refused(_) => BagMeaning(u, location, results);
  }

  /** An accepted location has score 0.80 or more, and every other valid result is either below 0.80 or at
      least 0.10 behind. */
  lemma AcceptedLocationIsClear(u: Unicode, location: string, results: seq<ProviderResult>, outcome: Outcome)
    returns (winner: nat)
    requires Answers(u, location, results, outcome) && outcome.Found?
    ensures var cs := Candidates(u, Normalized(u, location), results);
            && winner < |cs|
            && cs[winner].location == outcome.location
            && cs[winner].score >= 0.80
            && forall k :: 0 <= k < |cs| && k != winner ==>
                 cs[k].score < 0.80 || cs[winner].score - cs[k].score >= 0.10
  {
    var cs := Candidates(u, Normalized(u, location), results);
    var m := multiset(cs);
    var c :| IsClear(m, c) && c.location == outcome.location;
    assert c in cs;
    winner :| 0 <= winner < |cs| && cs[winner] == c;
    forall k | 0 <= k < |cs| && k != winner
      ensures cs[k].score < MINIMUM_SCORE || c.score - cs[k].score >= MINIMUM_DIFFERENCE
    {
      OtherEntry(cs, winner, k);
    }
  }

  lemma OtherEntry(cs: seq<Candidate>, i: nat, k: nat)
    requires i < |cs| && k < |cs| && i != k
    ensures IsOther(multiset(cs), cs[i], cs[k])
  {
    var rest := cs[..i] + cs[i + 1..];
    assert cs == cs[..i] + [cs[i]] + cs[i + 1..];
    assert multiset(cs) == multiset(rest) + multiset{cs[i]};
    assert cs[k] == rest[if k < i then k else k - 1];
    assert cs[k] in rest;
  }

  // ---------------------------------------------------------------- the program

  /** The one-pass scan: the best candidate and the second-largest score, counted with multiplicity. */
  method BestTwo(candidates: seq<Candidate>) returns (best: Candidate, secondBestScore: real, ghost at: nat)
    requires candidates != []
    requires forall k :: 0 <= k < |candidates| ==> candidates[k].score > 0.0
    ensures at < |candidates| && candidates[at] == best
    ensures forall k :: 0 <= k < |candidates| ==> candidates[k].score <= best.score
    ensures forall k :: 0 <= k < |candidates| && k != at ==> candidates[k].score <= secondBestScore
    ensures |candidates| == 1 ==> secondBestScore == 0.0
    ensures |candidates| > 1 ==> exists k :: 0 <= k < |candidates| && k != at && candidates[k].score == secondBestScore
  {
    best := candidates[0];
    at := 0;
    ghost var runnerUp := 0;
    secondBestScore := 0.0;
    for i := 1 to |candidates|
      invariant at < i && candidates[at] == best
      invariant forall k :: 0 <= k < i ==> candidates[k].score <= best.score
      invariant forall k :: 0 <= k < i && k != at ==> candidates[k].score <= secondBestScore
      invariant i == 1 ==> secondBestScore == 0.0
      invariant i > 1 ==> runnerUp < i && runnerUp != at && candidates[runnerUp].score == secondBestScore
    {
      var candidate := candidates[i];
      if candidate.score > best.score {
        secondBestScore := best.score;
        runnerUp := at;
        best := candidate;
        at := i;
        continue;
      }
      if candidate.score > secondBestScore {
        secondBestScore := candidate.score;
        runnerUp := i;
      }
    }
  }

  method Choose(candidates: seq<Candidate>) returns (outcome: Outcome)
    requires forall k :: 0 <= k < |candidates| ==> candidates[k].score > 0.0
    ensures Judged(multiset(candidates), outcome)
  {
    if |candidates| == 0 {
      return Refused(NoValidResult);
    }
    ghost var m := multiset(candidates);
    var best, secondBestScore, at := BestTwo(candidates);
    assert best in candidates;
    assert IsTop(m, best) by {
      forall d | d in m ensures d.score <= best.score {
        assert d in candidates;
      }
    }
    if best.score < MINIMUM_SCORE {
      return Refused(NotSimilar);
    }
    if secondBestScore >= MINIMUM_SCORE && best.score - secondBestScore < MINIMUM_DIFFERENCE {
      ghost var k :| 0 <= k < |candidates| && k != at && candidates[k].score == secondBestScore;
      OtherEntry(candidates, at, k);
      assert Challenges(best, candidates[k]);
      return Refused(Ambiguous);
    }
    forall d | IsOther(m, best, d) ensures !Challenges(best, d) {
      EntryBesides(candidates, at, d);
    }
    outcome := Found(best.location);
  }

  lemma EntryBesides(cs: seq<Candidate>, i: nat, d: Candidate)
    requires i < |cs| && IsOther(multiset(cs), cs[i], d)
    ensures exists k :: 0 <= k < |cs| && k != i && cs[k] == d
  {
    var rest := cs[..i] + cs[i + 1..];
    assert cs == cs[..i] + [cs[i]] + cs[i + 1..];
    assert multiset(cs) == multiset(rest) + multiset{cs[i]};
    assert d in rest;
    var j :| 0 <= j < |rest| && rest[j] == d;
    assert cs[if j < i then j else j + 1] == d;
  }

  ghost function BestLabel(scores: seq<real>): real {
    if scores == [] then 0.0 else MaxReal(BestLabel(Init(scores)), Last(scores))
  }

  lemma BestOfThree(x: real, y: real, z: real)
    ensures BestLabel([x, y, z]) == MaxReal(MaxReal(MaxReal(0.0, x), y), z)
  {
    assert Init([x, y, z]) == [x, y] && Init([x, y]) == [x];
    assert BestLabel([x]) == MaxReal(0.0, x);
    assert BestLabel([x, y]) == MaxReal(BestLabel([x]), y);
  }

  method ScoreLabel(u: Unicode, normalizedLocation: string, name: string) returns (score: real)
    requires u.Sane()
    ensures score == Score(u, normalizedLocation, name)
  {
    score := LocationMatchScore(u, normalizedLocation, name);
  }

  method ScoreResult(u: Unicode, normalizedLocation: string, result: ProviderResult) returns (score: real)
    requires u.Sane()
    ensures score == ResultScore(u, normalizedLocation, result)
  {
    score := 0.0;
    var labels := [result.name, result.displayName, result.locationName];
    ghost var scores := [];
    for j := 0 to 3
      invariant score == BestLabel(scores) >= 0.0
      invariant |scores| == j && forall k :: 0 <= k < j ==> scores[k] == LabelScore(u, normalizedLocation, labels[k])
    {
      if labels[j] != [] {
        var labelScore := ScoreLabel(u, normalizedLocation, labels[j]);
        score := MaxReal(score, labelScore);
        Snoc(scores, labelScore);
        scores := scores + [labelScore];
      } else {
        Snoc(scores, 0.0);
        scores := scores + [0.0];
      }
    }
    assert scores == [scores[0], scores[1], scores[2]];
    BestOfThree(scores[0], scores[1], scores[2]);
  }

  /** The checks on the reply, in their order. No more than one byte beyond the limit is read. */
  method ReadReply(reply: Reply) returns (results: Option<seq<ProviderResult>>, why: Refusal)
    ensures results.Some? <==> IsUsable(reply)
    ensures results.Some? <==>
              reply.Answer? && reply.status == 200 && reply.readable && reply.size <= 1_048_576 && reply.decoded.Some?
    ensures results.Some? ==> results == reply.decoded
    ensures results.None? ==> IsFault(reply, why)
  {
    match reply
    case NoRequest => return None, RequestFailed;
    case NoAnswer => return None, SendFailed;
    case Answer(status, readable, size, decoded) =>
      if status != STATUS_OK {
        return None, BadStatus(status);
      }
      if !readable {
        return None, ReadFailed;
      }
      var length := if size < MAX_RESPONSE_BYTES + 1 then size else MAX_RESPONSE_BYTES + 1;
      if length > MAX_RESPONSE_BYTES {
        return None, TooLarge;
      }
      return decoded, Malformed;
  }

  method Resolve(u: Unicode, location: string, reply: Reply) returns (outcome: Outcome)
    requires u.Sane()
    ensures Resolves(u, location, reply, outcome)
    ensures outcome.Found? ==>
              && reply.Answer? && reply.decoded.Some?
              && exists k :: 0 <= k < |reply.decoded.value| && IsPlace(reply.decoded.value[k], outcome.location)
  {
    var normalizedLocation := NormalizeLocation(u, location);
    if normalizedLocation == [] {
      return Refused(EmptyLocation);
    }
    var results, why := ReadReply(reply);
    if results.None? {
      return Refused(why);
    }
    outcome := ChooseFrom(u, location, normalizedLocation, results.value);
    if outcome.Found? {
      AnswerMeaning(u, location, results.value, outcome);
      assert SomeWin(u, location, results.value, outcome.location);
    }
  }

  method ChooseFrom(u: Unicode, location: string, normalizedLocation: string, results: seq<ProviderResult>)
    returns (outcome: Outcome)
    requires u.Sane() && normalizedLocation == Normalized(u, location) != []
    ensures Answers(u, location, results, outcome)
  {
    if |results| == 0 {
      return Refused(NoResult);
    }
    var candidates: seq<Candidate> := [];
    for i := 0 to |results|
      invariant candidates == FlatMap(Filter(u, normalizedLocation), results[..i])
    {
      var result := results[i];
      assert Init(results[..i + 1]) == results[..i] && Last(results[..i + 1]) == result;
      var coordinates := ParseCoordinates(result);
      if coordinates.None? {
        continue;
      }
      var score := ScoreResult(u, normalizedLocation, result);
      if score == 0.0 {
        continue;
      }
      candidates := candidates + [Candidate(coordinates.value, score)];
    }
    assert results[..|results|] == results;
    forall k | 0 <= k < |candidates| ensures candidates[k].score > 0.0 {
      CandidateScores(u, location, results, k);
    }
    outcome := Choose(candidates);
  }
}
