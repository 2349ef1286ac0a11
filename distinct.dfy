/**
 The `distinctUntilChanged()` step of the two amount pipelines, as a filter over
 the sequence of values that reach it: a value is passed on unless it is `===`
 to the last value passed on.
 */
module DistinctUntilChanged {
  import opened Js
  import opened Sequences

  datatype Option<T> = None | Some(value: T)

  /** Whether a value is dropped when `last` is the previously passed value
      (`None` before the first emission). */
  predicate Repeats(last: Option<Number>, x: Number) {
    last.Some? && StrictEquals(last.value, x)
  }

  /** The operator after it has passed on `last`. */
  function DistinctAfter(last: Option<Number>, xs: seq<Number>): (r: seq<Number>)
    ensures |r| <= |xs|
    ensures forall x :: x in r ==> x in xs
    ensures r != [] ==> !Repeats(last, r[0])
    decreases |xs|
  {
    if xs == [] then []
    else if Repeats(last, xs[0]) then DistinctAfter(last, xs[1..])
    else [xs[0]] + DistinctAfter(Some(xs[0]), xs[1..])
  }

  /** `distinctUntilChanged()` on a fresh subscription. */
  function Distinct(xs: seq<Number>): (r: seq<Number>)
    ensures xs != [] ==> r != [] && r[0] == xs[0]
  {
    DistinctAfter(None, xs)
  }

  /** Reference definition: keep an element exactly when it is not `===` to the
      element just before it in the input. */
  function Changes(prev: Option<Number>, xs: seq<Number>): seq<Number>
    decreases |xs|
  {
    if xs == [] then []
    else (if Repeats(prev, xs[0]) then [] else [xs[0]]) + Changes(Some(xs[0]), xs[1..])
  }

  /** No two neighbours are `===`. */
  predicate NoRepeats(r: seq<Number>) {
    forall i :: 0 < i < |r| ==> !StrictEquals(r[i - 1], r[i])
  }

  /** Two operator states that drop the same values. */
  predicate Interchangeable(a: Option<Number>, b: Option<Number>) {
    a == b || (a.Some? && b.Some? && StrictEquals(a.value, b.value))
  }

  lemma {:induction false} DistinctAfterIsChanges(last: Option<Number>, prev: Option<Number>, xs: seq<Number>)
    requires Interchangeable(last, prev)
    ensures DistinctAfter(last, xs) == Changes(prev, xs)
    decreases |xs|
  {
    if xs != [] {
      if last.Some? && prev.Some? {
        StrictEqualsIsPartialEquivalence(last.value, prev.value, xs[0]);
        StrictEqualsIsPartialEquivalence(prev.value, last.value, xs[0]);
      }
      assert Repeats(last, xs[0]) <==> Repeats(prev, xs[0]);
      if Repeats(last, xs[0]) {
        DistinctAfterIsChanges(last, Some(xs[0]), xs[1..]);
      } else {
        DistinctAfterIsChanges(Some(xs[0]), Some(xs[0]), xs[1..]);
      }
    }
  }

  /** Comparing with the last value passed on is the same as comparing with the
      value just before in the input: a dropped value is `===` to the last one
      passed on, so it can stand in for it. */
  lemma DistinctIsChanges(xs: seq<Number>)
    ensures Distinct(xs) == Changes(None, xs)
  {
    DistinctAfterIsChanges(None, None, xs);
  }

  /** The operator only drops values and never reorders them. */
  lemma {:induction false} DistinctAfterIsSubsequence(last: Option<Number>, xs: seq<Number>)
    ensures IsSubsequence(DistinctAfter(last, xs), xs)
    decreases |xs|
  {
    if xs != [] {
      if Repeats(last, xs[0]) {
        DistinctAfterIsSubsequence(last, xs[1..]);
      } else {
        DistinctAfterIsSubsequence(Some(xs[0]), xs[1..]);
        assert DistinctAfter(last, xs)[1..] == DistinctAfter(Some(xs[0]), xs[1..]);
      }
    }
  }

  /** What is passed on never holds `===` neighbours, and its first element is not
      `===` to what was passed before. */
  lemma {:induction false} DistinctAfterNoRepeats(last: Option<Number>, xs: seq<Number>)
    ensures NoRepeats(DistinctAfter(last, xs))
    ensures DistinctAfter(last, xs) != [] ==> !Repeats(last, DistinctAfter(last, xs)[0])
    decreases |xs|
  {
    if xs != [] {
      if Repeats(last, xs[0]) {
        DistinctAfterNoRepeats(last, xs[1..]);
      } else {
        DistinctAfterNoRepeats(Some(xs[0]), xs[1..]);
      }
    }
  }

  /** Consecutive duplicates are dropped: the output is a subsequence of the input
      in which no value is `===` to its predecessor. */
  lemma DistinctDropsConsecutiveDuplicates(xs: seq<Number>)
    ensures IsSubsequence(Distinct(xs), xs)
    ensures NoRepeats(Distinct(xs))
    ensures |Distinct(xs)| <= |xs| && forall x :: x in Distinct(xs) ==> x in xs
  {
    DistinctAfterIsSubsequence(None, xs);
    SubsequenceBounds(Distinct(xs), xs);
    DistinctAfterNoRepeats(None, xs);
  }

  lemma {:induction false} ChangesOfNoRepeats(prev: Option<Number>, ys: seq<Number>)
    requires NoRepeats(ys)
    requires ys != [] ==> !Repeats(prev, ys[0])
    ensures Changes(prev, ys) == ys
    decreases |ys|
  {
    if ys != [] {
      assert NoRepeats(ys[1..]) by {
        forall i | 0 < i < |ys[1..]| ensures !StrictEquals(ys[1..][i - 1], ys[1..][i]) {
          assert ys[1..][i - 1] == ys[i] && ys[1..][i] == ys[i + 1];
        }
      }
      if |ys| > 1 {
        assert !StrictEquals(ys[0], ys[1]);
      }
      ChangesOfNoRepeats(Some(ys[0]), ys[1..]);
    }
  }

  /** A second `distinctUntilChanged()` has nothing left to drop. */
  lemma DistinctIdempotent(xs: seq<Number>)
    ensures Distinct(Distinct(xs)) == Distinct(xs)
  {
    DistinctAfterNoRepeats(None, xs);
    DistinctIsChanges(Distinct(xs));
    ChangesOfNoRepeats(None, Distinct(xs));
  }
}
