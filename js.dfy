/**
 The few JavaScript value semantics the converter component depends on:
 numbers with their falsy values, the `x || 0` idiom, strict equality and the
 values a subscriber callback can receive.
 */
module Js {

  /** A JavaScript number. Finite doubles are abstracted to reals (rounding is not
      modelled); the non-finite values are kept because truthiness and `===` treat
      them specially. Negative infinity never arises in the component. */
  datatype Number = Finite(value: real) | Infinity | NaN

  const Zero: Number := Finite(0.0)

  /** `Boolean(n)`: a number is falsy exactly when it is 0, -0 or NaN
      (-0 and 0 are the same real here). */
  predicate Truthy(n: Number) {
    n != NaN && n != Zero
  }

  /** The falsy numbers and subscriber values, stated outright. */
  lemma Falsiness(n: Number, v: Value)
    ensures !Truthy(n) <==> n.NaN? || (n.Finite? && n.value == 0.0)
    ensures Truthy(Infinity)
    ensures !ValueTruthy(v) <==> v.Null? || v.Undefined? || (v.Num? && !Truthy(v.n))
  {
  }

  /** `n || 0` */
  function OrZero(n: Number): (r: Number)
    ensures r != NaN
    ensures Truthy(r) <==> Truthy(n)
    ensures Truthy(n) ==> r == n
  {
    if Truthy(n) then n else Zero
  }

  /** `a === b` on numbers: NaN is equal to nothing, not even itself. */
  predicate StrictEquals(a: Number, b: Number) {
    match (a, b)
    case (Finite(x), Finite(y)) => x == y
    case (Infinity, Infinity) => true
    case _ => false
  }

  lemma StrictEqualsIsPartialEquivalence(a: Number, b: Number, c: Number)
    ensures StrictEquals(a, b) <==> a == b && a != NaN
    ensures StrictEquals(a, b) ==> StrictEquals(b, a)
    ensures StrictEquals(a, b) && StrictEquals(b, c) ==> StrictEquals(a, c)
    ensures !StrictEquals(NaN, NaN)
  {
  }

  /** What an observable hands to a subscriber: `null` (the component's own
      `of(null)`), `undefined` (a response without the expected field) or a number. */
  datatype Value = Null | Undefined | Num(n: Number)

  /** `if (result)` in a subscriber: only a truthy number passes. */
  predicate ValueTruthy(v: Value) {
    v.Num? && Truthy(v.n)
  }
}
