/**
  The JavaScript array operations the selector uses, `find` and `filter`, over sequences and
  a total predicate, together with `FindIndex`, the first-match position search underneath
  `Find`. Each is stated by what it returns, not by how it scans.
 */
module ArrayOps {
  import opened Optional

  /** Position of the first element satisfying `p`, if any: the search `Find` is built on. */
  function FindIndex<T>(s: seq<T>, p: T -> bool): (r: Option<nat>)
    ensures r.Some? ==> r.value < |s| && p(s[r.value])
    ensures r.Some? ==> forall j :: 0 <= j < r.value ==> !p(s[j])
    ensures r.None? <==> forall j :: 0 <= j < |s| ==> !p(s[j])
  {
    if |s| == 0 then None
    else if p(s[0]) then Some(0)
    else
      match FindIndex(s[1..], p)
      case None =>
        assert forall j :: 1 <= j < |s| ==> s[j] == s[1..][j - 1];
        None
      case Some(i) =>
        assert forall j :: 1 <= j <= i ==> s[j] == s[1..][j - 1];
        Some(i + 1)
  }

  /** The first element satisfying `p`, if any (`Array.prototype.find`). */
  function Find<T>(s: seq<T>, p: T -> bool): (r: Option<T>)
    ensures r.None? <==> forall j :: 0 <= j < |s| ==> !p(s[j])
    ensures r.Some? ==> exists i :: 0 <= i < |s| && s[i] == r.value && p(s[i]) && FirstMatch(s, p, i)
  {
    match FindIndex(s, p)
    case None => None
    case Some(i) => Some(s[i])
  }

  /** No element before position `i` satisfies `p`. */
  predicate FirstMatch<T>(s: seq<T>, p: T -> bool, i: nat)
    requires i <= |s|
  {
    forall j :: 0 <= j < i ==> !p(s[j])
  }

  /** If `i` is the first match, `find` returns the element at `i`. */
  lemma FindReturnsFirstMatch<T>(s: seq<T>, p: T -> bool, i: nat)
    requires i < |s| && p(s[i]) && FirstMatch(s, p, i)
    ensures Find(s, p) == Some(s[i])
  {
  }

  /** The elements satisfying `p`, in their original order (`Array.prototype.filter`). */
  function Filter<T>(s: seq<T>, p: T -> bool): (r: seq<T>)
    ensures |r| <= |s|
    ensures forall x :: x in r ==> x in s && p(x)
    ensures forall i :: 0 <= i < |s| && p(s[i]) ==> s[i] in r
  {
    if |s| == 0 then []
    else
      var init := s[..|s| - 1];
      assert forall i :: 0 <= i < |init| ==> init[i] == s[i];
      Filter(init, p) + (if p(s[|s| - 1]) then [s[|s| - 1]] else [])
  }

  /** The positions of the elements satisfying `p`, in increasing order. */
  function MatchIndices<T>(s: seq<T>, p: T -> bool): (idx: seq<nat>)
    ensures forall k :: 0 <= k < |idx| ==> idx[k] < |s| && p(s[idx[k]])
    ensures forall k, l :: 0 <= k < l < |idx| ==> idx[k] < idx[l]
    ensures forall i :: 0 <= i < |s| && p(s[i]) ==> i in idx
    ensures (forall i :: 0 <= i < |s| ==> !p(s[i])) ==> idx == []
  {
    if |s| == 0 then []
    else
      var init := s[..|s| - 1];
      assert forall i :: 0 <= i < |init| ==> init[i] == s[i];
      MatchIndices(init, p) + (if p(s[|s| - 1]) then [|s| - 1] else [])
  }

  /**
    `filter` keeps exactly the matching elements in their original relative order:
    its k-th element is the element at the k-th matching position.
   */
  lemma {:induction false} FilterIsMatchesInOrder<T>(s: seq<T>, p: T -> bool)
    ensures |Filter(s, p)| == |MatchIndices(s, p)|
    ensures forall k :: 0 <= k < |Filter(s, p)| ==> Filter(s, p)[k] == s[MatchIndices(s, p)[k]]
  {
    if |s| > 0 {
      var init := s[..|s| - 1];
      FilterIsMatchesInOrder(init, p);
      assert forall i :: 0 <= i < |init| ==> init[i] == s[i];
    }
  }
}
