/** The edit distance behind fuzzy location matching: what a script of edits does, what the cheapest
    script costs, and the laws that make that cost a metric. The program's rolling-row loop is proved
    against `Distance` in module `Similarity`. */
module EditDistance {
  import opened Wrappers
  import opened Sequences

  /** One edit. A script is read from its end: the last edit produces the end of the new text. */
  datatype Edit<T> = Keep | Substitute(letter: T) | Insert(letter: T) | Delete

  /** The text a script makes out of `a`, or None when the script does not fit `a`. */
  function Apply<T>(script: seq<Edit<T>>, a: seq<T>): Option<seq<T>>
    decreases |script|
  {
    if script == [] then
      if a == [] then Some([]) else None
    else match Last(script)
      case Insert(letter) => Extend(Apply(Init(script), a), [letter])
      case Delete => if a == [] then None else Apply(Init(script), Init(a))
      case Keep => if a == [] then None else Extend(Apply(Init(script), Init(a)), [Last(a)])
      case Substitute(letter) => if a == [] then None else Extend(Apply(Init(script), Init(a)), [letter])
  }

  function Extend<T>(text: Option<seq<T>>, end: seq<T>): Option<seq<T>> {
    match text
    case None => None
    case Some(t) => Some(t + end)
  }

  function EditCost<T>(e: Edit<T>): nat {
    if e.Keep? then 0 else 1
  }

  function Cost<T>(script: seq<Edit<T>>): nat {
    if script == [] then 0 else Cost(Init(script)) + EditCost(Last(script))
  }

  function Min3(x: nat, y: nat, z: nat): nat {
    if x <= y && x <= z then x else if y <= z then y else z
  }

  /** The recurrence whose table the program fills row by row. */
  function Distance<T(==)>(a: seq<T>, b: seq<T>): nat
    decreases |a| + |b|
  {
    if a == [] then |b|
    else if b == [] then |a|
    else Min3(Distance(a, Init(b)) + 1,
              Distance(Init(a), b) + 1,
              Distance(Init(a), Init(b)) + if Last(a) == Last(b) then 0 else 1)
  }

  lemma ApplySnoc<T>(script: seq<Edit<T>>, e: Edit<T>, a: seq<T>)
    ensures Cost(script + [e]) == Cost(script) + EditCost(e)
    ensures e.Insert? ==> Apply(script + [e], a) == Extend(Apply(script, a), [e.letter])
    ensures e.Delete? && a != [] ==> Apply(script + [e], a) == Apply(script, Init(a))
    ensures e.Keep? && a != [] ==> Apply(script + [e], a) == Extend(Apply(script, Init(a)), [Last(a)])
    ensures e.Substitute? && a != [] ==> Apply(script + [e], a) == Extend(Apply(script, Init(a)), [e.letter])
  {
    Snoc(script, e);
  }

  /** No script from `a` to `b` is cheaper than the distance. */
  lemma {:induction false} EveryScriptCostsAtLeastDistance<T>(script: seq<Edit<T>>, a: seq<T>, b: seq<T>)
    requires Apply(script, a) == Some(b)
    ensures Distance(a, b) <= Cost(script)
    decreases |script|
  {
    if script != [] {
      var rest := Init(script);
      match Last(script)
      case Insert(letter) =>
        var t := Apply(rest, a).value;
        assert Init(b) == t;
        EveryScriptCostsAtLeastDistance(rest, a, t);
        DistanceOfLonger(a, b);
      case Delete =>
        EveryScriptCostsAtLeastDistance(rest, Init(a), b);
        DistanceOfLonger(a, b);
      case Keep =>
        var t := Apply(rest, Init(a)).value;
        assert Init(b) == t;
        EveryScriptCostsAtLeastDistance(rest, Init(a), t);
      case Substitute(letter) =>
        var t := Apply(rest, Init(a)).value;
        assert Init(b) == t;
        EveryScriptCostsAtLeastDistance(rest, Init(a), t);
    }
  }

  /** Dropping one final letter changes the distance by at most one upwards. */
  lemma DistanceOfLonger<T>(a: seq<T>, b: seq<T>)
    ensures b != [] ==> Distance(a, b) <= Distance(a, Init(b)) + 1
    ensures a != [] ==> Distance(a, b) <= Distance(Init(a), b) + 1
  {
    if a == [] && b != [] {
      assert Distance(a, Init(b)) == |b| - 1;
    }
    if b == [] && a != [] {
      assert Distance(Init(a), b) == |a| - 1;
    }
  }

  /** Some script from `a` to `b` costs exactly the distance. */
  lemma {:induction false} CheapestScript<T>(a: seq<T>, b: seq<T>) returns (script: seq<Edit<T>>)
    ensures Apply(script, a) == Some(b)
    ensures Cost(script) == Distance(a, b)
    decreases |a| + |b|
  {
    assert b != [] ==> b == Init(b) + [Last(b)];
    if a == [] && b == [] {
      script := [];
    } else if a == [] || (b != [] && Distance(a, b) == Distance(a, Init(b)) + 1) {
      var rest := CheapestScript(a, Init(b));
      script := rest + [Insert(Last(b))];
      ApplySnoc(rest, Insert(Last(b)), a);
    } else if b == [] || Distance(a, b) == Distance(Init(a), b) + 1 {
      var rest := CheapestScript(Init(a), b);
      script := rest + [Delete];
      ApplySnoc(rest, Delete, a);
    } else {
      var rest := CheapestScript(Init(a), Init(b));
      var e := if Last(a) == Last(b) then Keep else Substitute(Last(b));
      script := rest + [e];
      ApplySnoc(rest, e, a);
    }
  }

  ghost predicate IsMinimumScriptCost<T(!new)>(a: seq<T>, b: seq<T>, cost: nat) {
    && (exists script :: Apply(script, a) == Some(b) && Cost(script) == cost)
    && (forall script :: Apply(script, a) == Some(b) ==> cost <= Cost(script))
  }

  /** The distance is the minimum cost over all edit scripts. */
  lemma DistanceIsMinimumScriptCost<T(!new)>(a: seq<T>, b: seq<T>)
    ensures IsMinimumScriptCost(a, b, Distance(a, b))
  {
    var best := CheapestScript(a, b);
    forall script | Apply(script, a) == Some(b) ensures Distance(a, b) <= Cost(script) {
      EveryScriptCostsAtLeastDistance(script, a, b);
    }
  }

  lemma MinimumIsUnique<T(!new)>(a: seq<T>, b: seq<T>, cost: nat, other: nat)
    requires IsMinimumScriptCost(a, b, cost) && IsMinimumScriptCost(a, b, other)
    ensures cost == other
  {
  }

  /** The edit that one edit followed by another, on the same letter, amounts to. */
  function Fused<T>(first: Edit<T>, second: Edit<T>): seq<Edit<T>>
    requires !first.Delete? && !second.Insert?
  {
    if first.Keep? then [second]
    else if second.Keep? then [first]
    else if second.Delete? then (if first.Insert? then [] else [Delete])
    else if first.Insert? then [Insert(second.letter)] else [second]
  }

  /** Two scripts in a row can be replaced by one that costs no more than both. */
  lemma {:induction false} ComposeScripts<T>(p: seq<Edit<T>>, q: seq<Edit<T>>, a: seq<T>, b: seq<T>, c: seq<T>)
    returns (script: seq<Edit<T>>)
    requires Apply(p, a) == Some(b) && Apply(q, b) == Some(c)
    ensures Apply(script, a) == Some(c)
    ensures Cost(script) <= Cost(p) + Cost(q)
    decreases |p| + |q|
  {
    if p != [] && Last(p).Delete? {
      var rest := ComposeScripts(Init(p), q, Init(a), b, c);
      script := rest + [Delete];
      ApplySnoc(rest, Delete, a);
    } else if q != [] && Last(q).Insert? {
      assert c == Init(c) + [Last(c)];
      var rest := ComposeScripts(p, Init(q), a, b, Init(c));
      script := rest + [Last(q)];
      ApplySnoc(rest, Last(q), a);
    } else if p == [] || q == [] {
      script := [];
    } else {
      var a' := if Last(p).Insert? then a else Init(a);
      var c' := if Last(q).Delete? then c else Init(c);
      assert Apply(Init(p), a').value == Init(b);
      var rest := ComposeScripts(Init(p), Init(q), a', Init(b), c');
      var e := Fused(Last(p), Last(q));
      if e == [] {
        script := rest;
      } else {
        script := rest + e;
        ApplySnoc(rest, e[0], a);
        assert script == rest + [e[0]];
      }
    }
  }

  /** The detour is never shorter: its two cheapest scripts compose. */
  lemma {:induction false} TriangleInequality<T>(a: seq<T>, b: seq<T>, c: seq<T>)
    ensures Distance(a, c) <= Distance(a, b) + Distance(b, c)
  {
    var p := CheapestScript(a, b);
    var q := CheapestScript(b, c);
    var composed := ComposeScripts(p, q, a, b, c);
    EveryScriptCostsAtLeastDistance(composed, a, c);
  }

  lemma {:induction false} DistanceIsSymmetric<T>(a: seq<T>, b: seq<T>)
    ensures Distance(a, b) == Distance(b, a)
    decreases |a| + |b|
  {
    if a != [] && b != [] {
      DistanceIsSymmetric(a, Init(b));
      DistanceIsSymmetric(Init(a), b);
      DistanceIsSymmetric(Init(a), Init(b));
    }
  }

  lemma {:induction false} DistanceBounds<T>(a: seq<T>, b: seq<T>)
    ensures |a| - |b| <= Distance(a, b) && |b| - |a| <= Distance(a, b)
    ensures Distance(a, b) <= Max(|a|, |b|)
    decreases |a| + |b|
  {
    if a != [] && b != [] {
      DistanceBounds(a, Init(b));
      DistanceBounds(Init(a), b);
      DistanceBounds(Init(a), Init(b));
    }
  }

  lemma {:induction false} DistanceIsZeroIffEqual<T>(a: seq<T>, b: seq<T>)
    ensures Distance(a, b) == 0 <==> a == b
    decreases |a| + |b|
  {
    if a != [] && b != [] {
      DistanceIsZeroIffEqual(Init(a), Init(b));
      assert a == Init(a) + [Last(a)] && b == Init(b) + [Last(b)];
    }
  }
}
