// Arithmetic both price generators are built from: JavaScript's
// `Math.round` over exact reals and clamping into a price band.
module Pricing {

  /** `Math.round(x)`: the nearest integer, halves rounded up. */
  function JsRound(x: real): (n: int)
    ensures x - 0.5 < n as real <= x + 0.5
  {
    (x + 0.5).Floor
  }

  lemma JsRoundOfInteger(n: int)
    ensures JsRound(n as real) == n
  {
  }

  lemma JsRoundMonotone(x: real, y: real)
    requires x <= y
    ensures JsRound(x) <= JsRound(y)
  {
  }

  /** The integer in [lo, hi] nearest to p. */
  function Clamp(p: int, lo: int, hi: int): (r: int)
    requires lo <= hi
    ensures lo <= r <= hi
    ensures lo <= p <= hi ==> r == p
    ensures p < lo ==> r == lo
    ensures hi < p ==> r == hi
  {
    if p < lo then lo else if p > hi then hi else p
  }

  /** Clamping the unrounded value into integer bounds and then rounding is
      the same as rounding first and clamping afterwards. */
  lemma {:induction false} RoundClampCommute(x: real, lo: int, hi: int)
    requires lo <= hi
    ensures JsRound(if x < lo as real then lo as real else if x > hi as real then hi as real else x)
         == Clamp(JsRound(x), lo, hi)
  {
    if x < lo as real {
      JsRoundOfInteger(lo);
      JsRoundMonotone(x, lo as real);
    } else if x > hi as real {
      JsRoundOfInteger(hi);
      JsRoundMonotone(hi as real, x);
    } else {
      JsRoundOfInteger(lo);
      JsRoundOfInteger(hi);
      JsRoundMonotone(lo as real, x);
      JsRoundMonotone(x, hi as real);
    }
  }
}
