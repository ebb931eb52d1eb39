/** exp, log and pow(s, -0.5) are not defined here: the layers receive them as
    function parameters, and a property that needs one of their facts asks for
    it through one of the predicates below. */
module Transcendental {
  import opened Vectors

  /** The only fact about exp the model uses: it is positive. */
  ghost predicate ExpPositive(exp: real -> real)
  {
    forall x :: exp(x) > 0.0
  }

  /** The only fact about log the model uses: it is positive above 1. */
  ghost predicate LogPositiveAboveOne(log: real -> real)
  {
    forall x :: x > 1.0 ==> log(x) > 0.0
  }

  /** invsqrt plays pow(s, -0.5): for s > 0 it is the positive r with r*r*s == 1. */
  ghost predicate IsInvSqrt(invsqrt: real -> real)
  {
    forall s :: s > 0.0 ==> invsqrt(s) > 0.0 && invsqrt(s) * invsqrt(s) * s == 1.0
  }

  /** On a perfect square the inverse square root is exact: invsqrt(q*q) == 1/q. */
  lemma {:induction false} InvSqrtOfSquare(invsqrt: real -> real, q: real)
    requires IsInvSqrt(invsqrt)
    requires q > 0.0
    ensures invsqrt(q * q) == 1.0 / q
  {
    var r := invsqrt(q * q);
    assert r > 0.0 && r * r * (q * q) == 1.0;
    var t := r * q;
    assert t * t == 1.0;
    assert t > 0.0;
    assert 0.0 < t < 1.0 ==> t * t < t;
    assert t > 1.0 ==> t * t > t;
  }

  /** A row scaled by invsqrt of its own squared norm has unit squared norm. */
  lemma {:induction false} NormalizedRowIsUnit(invsqrt: real -> real, x: seq<real>)
    requires IsInvSqrt(invsqrt)
    requires Dot(x, x) > 0.0
    ensures Dot(Scaled(invsqrt(Dot(x, x)), x), Scaled(invsqrt(Dot(x, x)), x)) == 1.0
  {
    UnitAfterScaling(x, invsqrt(Dot(x, x)));
  }
}
