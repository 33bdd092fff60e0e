/** Sequences taken apart at their end. */
module Sequences {
  function Last<T>(s: seq<T>): T
    requires s != []
  {
    s[|s| - 1]
  }

  function Init<T>(s: seq<T>): seq<T>
    requires s != []
  {
    s[..|s| - 1]
  }

  lemma SplitLast<T>(s: seq<T>)
    requires s != []
    ensures s == Init(s) + [Last(s)]
  {
  }

  lemma Snoc<T>(s: seq<T>, x: T)
    ensures s + [x] != [] && Init(s + [x]) == s && Last(s + [x]) == x
  {
  }
}
