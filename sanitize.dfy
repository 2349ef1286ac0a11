/**
 The character filter applied to a typed amount before parsing:
 `value.replace(/[^0-9.]/g, '')`, which deletes every character that is neither
 an ASCII digit nor a dot.
 */
module AmountFilter {
  import opened Sequences

  /** The characters the pattern `[^0-9.]` does not match. */
  predicate IsKept(c: char) {
    '0' <= c <= '9' || c == '.'
  }

  predicate AllKept(s: string) {
    forall i :: 0 <= i < |s| ==> IsKept(s[i])
  }

  /** `value.replace(/[^0-9.]/g, '')` */
  function StripNonNumeric(s: string): (r: string)
    ensures |r| <= |s|
    ensures AllKept(r)
  {
    if s == [] then []
    else (if IsKept(s[0]) then [s[0]] else []) + StripNonNumeric(s[1..])
  }

  /** The filter only deletes characters and never reorders them. */
  lemma {:induction false} StripIsSubsequence(s: string)
    ensures IsSubsequence(StripNonNumeric(s), s)
  {
    if s != [] {
      StripIsSubsequence(s[1..]);
      if IsKept(s[0]) {
        assert StripNonNumeric(s)[0] == s[0];
        assert StripNonNumeric(s)[1..] == StripNonNumeric(s[1..]);
      } else {
        assert StripNonNumeric(s) == StripNonNumeric(s[1..]);
      }
    }
  }

  /** It deletes exactly the other characters: every digit and dot of the input
      survives, as often as it occurs, and nothing else does. */
  lemma {:induction false} StripKeepsExactlyNumeric(s: string)
    ensures forall c :: multiset(StripNonNumeric(s))[c] == if IsKept(c) then multiset(s)[c] else 0
  {
    if s != [] {
      StripKeepsExactlyNumeric(s[1..]);
      assert s == [s[0]] + s[1..];
    }
  }

  /** A string made only of digits and dots passes unchanged. */
  lemma {:induction false} StripFixesNumeric(s: string)
    requires AllKept(s)
    ensures StripNonNumeric(s) == s
  {
    if s != [] {
      assert IsKept(s[0]);
      StripFixesNumeric(s[1..]);
    }
  }

  /** Filtering twice is filtering once. */
  lemma StripIdempotent(s: string)
    ensures StripNonNumeric(StripNonNumeric(s)) == StripNonNumeric(s)
  {
    StripFixesNumeric(StripNonNumeric(s));
  }

  /** The filter works character by character, so it distributes over concatenation. */
  lemma {:induction false} StripConcat(a: string, b: string)
    ensures StripNonNumeric(a + b) == StripNonNumeric(a) + StripNonNumeric(b)
  {
    if a != [] {
      assert (a + b)[1..] == a[1..] + b;
      StripConcat(a[1..], b);
    } else {
      assert a + b == b;
    }
  }
}
