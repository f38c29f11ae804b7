/**
  The trigonometric functions the rotation kernel calls (`f64::cos` and
  `f64::sin`). Their values are not modelled: a `SinCos` is any pair of real
  functions, and every lemma that needs a fact about them names that fact as
  a precondition, so each proof shows exactly which identities it rests on.
 */
module Trig {

  datatype SinCos = SinCos(sin: real -> real, cos: real -> real)

  /** sin 0 = 0 and cos 0 = 1 */
  predicate ZeroAngle(t: SinCos) {
    t.sin(0.0) == 0.0 && t.cos(0.0) == 1.0
  }

  /** sin² a + cos² a = 1 at every angle a */
  ghost predicate Pythagorean(t: SinCos) {
    forall a :: t.sin(a) * t.sin(a) + t.cos(a) * t.cos(a) == 1.0
  }

  /** Sine is odd and cosine is even: for opposite angles a and b,
      sin b = -sin a and cos b = cos a. */
  ghost predicate Parity(t: SinCos) {
    forall a, b {:trigger t.sin(a), t.sin(b)} ::
      a + b == 0.0 ==> t.sin(b) == -t.sin(a) && t.cos(b) == t.cos(a)
  }
}
