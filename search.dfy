/** First-match search over a sequence: the semantics of JavaScript's
    `Array.prototype.findIndex` and `Array.prototype.find`, which the monitor
    uses to pick the create instruction and the token-balance entries. */
module Search {
  import opened Wrappers

  /** `i` is the position of the first element of `s` that satisfies `p`. */
  ghost predicate IsFirst<T>(s: seq<T>, p: T -> bool, i: int) {
    0 <= i < |s| && p(s[i]) && forall j :: 0 <= j < i ==> !p(s[j])
  }

  /** `findIndex`: the first position whose element satisfies `p`
      (`None` stands for the `-1` JavaScript returns). */
  function FindIndex<T>(s: seq<T>, p: T -> bool): (r: Option<nat>)
    ensures r.Some? ==> IsFirst(s, p, r.value)
    ensures r.None? <==> forall j :: 0 <= j < |s| ==> !p(s[j])
    decreases |s|
  {
    if |s| == 0 then None
    else if p(s[0]) then Some(0)
    else
      match FindIndex(s[1..], p)
      case None => None
      case Some(i) =>
        assert forall j :: 1 <= j <= i ==> s[j] == s[1..][j - 1];
        Some(i + 1)
  }

  /** `find`: the first element that satisfies `p`. */
  function Find<T>(s: seq<T>, p: T -> bool): (r: Option<T>)
    ensures r.None? <==> forall j :: 0 <= j < |s| ==> !p(s[j])
    ensures forall i :: IsFirst(s, p, i) ==> r == Some(s[i])
  {
    match FindIndex(s, p)
    case None => None
    case Some(i) =>
      FirstIsUnique(s, p);
      Some(s[i])
  }

  /** There is at most one first match. */
  lemma FirstIsUnique<T>(s: seq<T>, p: T -> bool)
    ensures forall i, k :: IsFirst(s, p, i) && IsFirst(s, p, k) ==> i == k
  {
  }

  /** `findIndex` returns exactly the first match whenever there is one. */
  lemma FindIndexIsFirst<T>(s: seq<T>, p: T -> bool, i: int)
    requires IsFirst(s, p, i)
    ensures FindIndex(s, p) == Some(i)
  {
    FirstIsUnique(s, p);
  }
}
