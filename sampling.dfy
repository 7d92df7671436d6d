/**
 * The random engine, made explicit. A generator that seeds a fresh engine is given the
 * stream of canonical draws that engine would hand out: the k-th draw is a real in [0, 1).
 * A uniform real distribution over [lo, hi) maps one draw u to lo + u * (hi - lo).
 */
module Sampling {

  /** One canonical draw of the engine. */
  type Unit = u: real | 0.0 <= u < 1.0 witness 0.0

  /** The draws of a freshly seeded engine, in the order they are taken. */
  type Source = nat -> Unit

  /** A uniform real distribution over [lo, hi) applied to the draw u. */
  function Uniform(u: Unit, lo: real, hi: real): (v: real)
    requires lo <= hi
    ensures lo <= v <= hi
    ensures lo < hi ==> v < hi
    ensures lo == hi ==> v == lo
  {
    var d := hi - lo;
    ProductNonNegative(u, d);
    if lo < hi then
      ProductBelow(u, d);
      lo + u * d
    else
      lo + u * d
  }

  lemma ProductNonNegative(a: real, b: real)
    requires 0.0 <= a && 0.0 <= b
    ensures 0.0 <= a * b
  {
  }

  /** Scaling a positive length d by a draw gives something strictly shorter than d. */
  lemma ProductBelow(u: real, d: real)
    requires 0.0 <= u < 1.0 && 0.0 < d
    ensures u * d < d
  {
  }
}
