/** Sequence facts shared by the two filters of the component. */
module Sequences {

  /** `a` is obtained from `b` by deleting elements, keeping the order of the rest. */
  predicate IsSubsequence<T(==)>(a: seq<T>, b: seq<T>)
    decreases |b|
  {
    a == [] || (b != [] && (IsSubsequence(a, b[1..]) || (a[0] == b[0] && IsSubsequence(a[1..], b[1..]))))
  }

  /** A subsequence is never longer, and each of its elements occurs in the original. */
  lemma {:induction false} SubsequenceBounds<T>(a: seq<T>, b: seq<T>)
    requires IsSubsequence(a, b)
    ensures |a| <= |b|
    ensures forall x :: x in a ==> x in b
  {
    if a != [] {
      if IsSubsequence(a, b[1..]) {
        SubsequenceBounds(a, b[1..]);
      } else {
        SubsequenceBounds(a[1..], b[1..]);
        assert a == [a[0]] + a[1..];
      }
    }
  }
}
