/**
 * The in-place `sort()` the conversation list and the search view model call
 * on their arrays. The comparators of their list models are not part of this
 * model; they are represented by a `rank` into the integers, i.e. by a total
 * preorder, and the sort is specified by what it guarantees: the result is
 * ordered by rank and is a permutation of the input.
 */
module Sorting {

  /** Ordered by rank, ties in any order. */
  ghost predicate SortedBy<T>(s: seq<T>, rank: T -> int)
  {
    forall i, j | 0 <= i < j < |s| :: rank(s[i]) <= rank(s[j])
  }

  /** Inserts `x` into an ordered sequence before the first element it does not exceed. */
  function Insert<T>(x: T, s: seq<T>, rank: T -> int): (r: seq<T>)
    requires SortedBy(s, rank)
    ensures SortedBy(r, rank)
    ensures multiset(r) == multiset(s) + multiset{x}
  {
    if s == [] then [x]
    else if rank(x) <= rank(s[0]) then [x] + s
    else
      var rest := Insert(x, s[1..], rank);
      assert s == [s[0]] + s[1..];
      forall y | y in rest
        ensures rank(s[0]) <= rank(y)
      {
        assert y in multiset(rest);
        if y != x {
          assert y in multiset(s[1..]);
          var k :| 0 <= k < |s[1..]| && s[1..][k] == y;
          assert s[k + 1] == y;
        }
      }
      [s[0]] + rest
  }

  /** The sort: an ordered permutation of the input. */
  function SortBy<T>(s: seq<T>, rank: T -> int): (r: seq<T>)
    ensures SortedBy(r, rank)
    ensures multiset(r) == multiset(s)
    ensures |r| == |s|
  {
    if s == [] then []
    else
      assert s == s[..|s| - 1] + [s[|s| - 1]];
      var r := Insert(s[|s| - 1], SortBy(s[..|s| - 1], rank), rank);
      assert |r| == |multiset(r)|;
      r
  }

  /** Sorting does not add or lose elements: membership is preserved in both directions. */
  lemma SortByMembers<T>(s: seq<T>, rank: T -> int, x: T)
    ensures x in SortBy(s, rank) <==> x in s
  {
    assert x in SortBy(s, rank) <==> x in multiset(SortBy(s, rank));
    assert x in s <==> x in multiset(s);
  }
}
