/**
 * Python's `list.sort(key=..., reverse=...)` as seen by its callers: the
 * result holds the same elements and is ordered by a total preorder
 * `le` ("may come before"). Elements that compare equal both ways may
 * end up in any order here.
 */
module Sorting {

  ghost predicate Total<T(!new)>(le: (T, T) -> bool) {
    forall a, b :: le(a, b) || le(b, a)
  }

  ghost predicate Transitive<T(!new)>(le: (T, T) -> bool) {
    forall a, b, c :: le(a, b) && le(b, c) ==> le(a, c)
  }

  predicate Sorted<T>(s: seq<T>, le: (T, T) -> bool) {
    forall i, j :: 0 <= i < j < |s| ==> le(s[i], s[j])
  }

  /** Puts `x` into the sorted sequence `s` in front of the first element it may precede. */
  function Insert<T(!new)>(s: seq<T>, x: T, le: (T, T) -> bool): (r: seq<T>)
    requires Total(le) && Transitive(le)
    requires Sorted(s, le)
    ensures Sorted(r, le)
    ensures multiset(r) == multiset(s) + multiset{x}
  {
    if s == [] then
      [x]
    else if le(x, s[0]) then
      [x] + s
    else
      var tail := Insert(s[1..], x, le);
      assert s == [s[0]] + s[1..];
      assert forall y :: y in tail ==> le(s[0], y) by {
        forall y | y in tail
          ensures le(s[0], y)
        {
          assert y in multiset(tail);
          if y != x {
            assert y in multiset(s[1..]);
            var k :| 1 <= k < |s| && s[k] == y;
          }
        }
      }
      [s[0]] + tail
  }

  /** Insertion sort: a permutation of `s`, ordered by `le`. */
  method Sort<T(!new)>(s: seq<T>, le: (T, T) -> bool) returns (r: seq<T>)
    requires Total(le) && Transitive(le)
    ensures Sorted(r, le)
    ensures multiset(r) == multiset(s)
  {
    r := [];
    for i := 0 to |s|
      invariant Sorted(r, le)
      invariant multiset(r) == multiset(s[..i])
    {
      assert s[..i + 1] == s[..i] + [s[i]];
      r := Insert(r, s[i], le);
    }
    assert s[..|s|] == s;
  }
}
