/**
 The ordering a `.sort({...})` on a Mongo cursor gives a result list, stated
 for any total preorder, and the insertion step used to build such a list.
 */
module Sorting {

  /** `le` is total and transitive. */
  ghost predicate TotalPreorder<T(!new)>(le: (T, T) -> bool) {
    && (forall a, b :: le(a, b) || le(b, a))
    && (forall a, b, c :: le(a, b) && le(b, c) ==> le(a, c))
  }

  /** Every element is `le` every later element. */
  predicate SortedBy<T>(s: seq<T>, le: (T, T) -> bool) {
    forall i, j :: 0 <= i < j < |s| ==> le(s[i], s[j])
  }

  /** Inserts `x` in front of the first element it is `le` to. */
  function Insert<T(!new)>(s: seq<T>, x: T, le: (T, T) -> bool): (r: seq<T>)
    requires TotalPreorder(le)
    requires SortedBy(s, le)
    ensures multiset(r) == multiset(s) + multiset{x}
    ensures SortedBy(r, le)
  {
    if s == [] || le(x, s[0]) then
      [x] + s
    else
      var tail := Insert(s[1..], x, le);
      assert s == [s[0]] + s[1..];
      assert forall k :: 0 <= k < |tail| ==> le(s[0], tail[k]) by {
        forall k | 0 <= k < |tail|
          ensures le(s[0], tail[k])
        {
          var y := tail[k];
          assert y in multiset(tail);
          if y != x {
            assert y in multiset(s[1..]);
          }
        }
      }
      [s[0]] + tail
  }

  /** A sequence with the multiplicities of a set holds no element twice. */
  lemma NoDuplicates<T>(s: seq<T>, u: set<T>)
    requires multiset(s) == multiset(u)
    ensures forall i, j :: 0 <= i < j < |s| ==> s[i] != s[j]
  {
    forall i, j | 0 <= i < j < |s|
      ensures s[i] != s[j]
    {
      var x := s[i];
      assert s == s[..j] + s[j..];
      assert multiset(s)[x] == multiset(s[..j])[x] + multiset(s[j..])[x];
      assert x in s[..j];
      assert multiset(u)[x] <= 1;
      assert x !in multiset(s[j..]);
      assert s[j] in s[j..];
    }
  }
}
