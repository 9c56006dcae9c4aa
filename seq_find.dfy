/** First-match search over a sequence, as Rust's `Iterator::find_map` performs it. */
module SeqFind {
  import opened Wrappers

  /** `find_map`: the first non-`None` result of `f` over `s`, scanning from the front. */
  function FindMap<T, U>(s: seq<T>, f: T -> Option<U>): (r: Option<U>)
    ensures r.None? <==> forall i :: 0 <= i < |s| ==> f(s[i]).None?
    ensures r.Some? ==>
      exists i :: 0 <= i < |s| && f(s[i]) == r && forall j :: 0 <= j < i ==> f(s[j]).None?
  {
    if |s| == 0 then None
    else if f(s[0]).Some? then f(s[0])
    else
      var rest := FindMap(s[1..], f);
      assert forall i :: 1 <= i < |s| ==> s[i] == s[1..][i - 1];
      rest
  }

  /** The elements of `s` on which `f` yields a value, in their original order. */
  function Matches<T, U>(s: seq<T>, f: T -> Option<U>): (m: seq<T>)
    ensures |m| <= |s|
    ensures forall x :: x in m ==> x in s && f(x).Some?
  {
    if |s| == 0 then []
    else if f(s[0]).Some? then [s[0]] + Matches(s[1..], f)
    else Matches(s[1..], f)
  }

  /** The search stops at the first index where `f` yields a value, whatever comes after it. */
  lemma {:induction false} FindMapAtFirstMatch<T, U>(s: seq<T>, f: T -> Option<U>, i: nat)
    requires i < |s| && f(s[i]).Some?
    requires forall j :: 0 <= j < i ==> f(s[j]).None?
    ensures FindMap(s, f) == f(s[i])
  {
    if i > 0 {
      FindMapAtFirstMatch(s[1..], f, i - 1);
    }
  }

  /** The search result is determined by the first matching element alone. */
  lemma {:induction false} FindMapIsFirstOfMatches<T, U>(s: seq<T>, f: T -> Option<U>)
    ensures FindMap(s, f) == if |Matches(s, f)| == 0 then None else f(Matches(s, f)[0])
  {
    if |s| > 0 && f(s[0]).None? {
      FindMapIsFirstOfMatches(s[1..], f);
    }
  }

  /** Two sequences with the same matching elements in the same order give the same search result. */
  lemma SameMatchesSameFindMap<T, U>(s: seq<T>, t: seq<T>, f: T -> Option<U>)
    requires Matches(s, f) == Matches(t, f)
    ensures FindMap(s, f) == FindMap(t, f)
  {
    FindMapIsFirstOfMatches(s, f);
    FindMapIsFirstOfMatches(t, f);
  }
}
