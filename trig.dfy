/**
 * The floating-point library functions the propagation code calls, taken as
 * parameters, and the laws about them that the proofs may use.
 */
module Trig {
  import opened Common

  /** `Math.sin`, `Math.cos`, `Math.atan2` and `Math.sqrt`, as supplied by the host. */
  datatype Fns = Fns(
    sin: real -> real,
    cos: real -> real,
    atan2: (real, real) -> real,
    sqrt: real -> real)

  /** `Math.PI`, written as its shortest decimal. */
  const Pi: real := 3.141592653589793
  const TwoPi: real := 2.0 * Pi

  // The laws are stated point by point, and each quantifier fires only on
  // its own point predicate, so that a proof instantiates exactly the points
  // it names (through the lemmas below) and nothing else.

  ghost predicate SinBoundedAt(t: Fns, x: real) { -1.0 <= t.sin(x) <= 1.0 }
  ghost predicate CosBoundedAt(t: Fns, x: real) { -1.0 <= t.cos(x) <= 1.0 }
  ghost predicate SinLipschitzAt(t: Fns, x: real, y: real) { Abs(t.sin(x) - t.sin(y)) <= Abs(x - y) }
  ghost predicate PythagoreanAt(t: Fns, x: real) { t.sin(x) * t.sin(x) + t.cos(x) * t.cos(x) == 1.0 }
  ghost predicate SqrtAt(t: Fns, x: real) { x >= 0.0 ==> t.sqrt(x) >= 0.0 && t.sqrt(x) * t.sqrt(x) == x }

  /** The basic laws: sine and cosine are bounded by 1, sin 0 = 0 and cos 0 = 1. */
  ghost predicate Laws(t: Fns) {
    && (forall x {:trigger SinBoundedAt(t, x)} :: SinBoundedAt(t, x))
    && (forall x {:trigger CosBoundedAt(t, x)} :: CosBoundedAt(t, x))
    && t.sin(0.0) == 0.0
    && t.cos(0.0) == 1.0
  }

  /** Sine is 1-Lipschitz (true of the real sine; used only for the contraction bound). */
  ghost predicate SinLipschitz(t: Fns) {
    forall x, y {:trigger SinLipschitzAt(t, x, y)} :: SinLipschitzAt(t, x, y)
  }

  /** sin² + cos² = 1 (used only for the isometry of the frame rotation). */
  ghost predicate Pythagorean(t: Fns) {
    forall x {:trigger PythagoreanAt(t, x)} :: PythagoreanAt(t, x)
  }

  /** `Math.sqrt` on non-negative arguments is the non-negative square root. */
  ghost predicate SqrtLaws(t: Fns) {
    forall x {:trigger SqrtAt(t, x)} :: SqrtAt(t, x)
  }

  lemma SinBound(t: Fns, x: real)
    requires Laws(t)
    ensures -1.0 <= t.sin(x) <= 1.0
  {
    assert SinBoundedAt(t, x);
  }

  lemma CosBound(t: Fns, x: real)
    requires Laws(t)
    ensures -1.0 <= t.cos(x) <= 1.0
  {
    assert CosBoundedAt(t, x);
  }

  lemma SinLipschitzPair(t: Fns, x: real, y: real)
    requires SinLipschitz(t)
    ensures Abs(t.sin(x) - t.sin(y)) <= Abs(x - y)
  {
    assert SinLipschitzAt(t, x, y);
  }

  lemma PythagoreanPoint(t: Fns, x: real)
    requires Pythagorean(t)
    ensures t.sin(x) * t.sin(x) + t.cos(x) * t.cos(x) == 1.0
  {
    assert PythagoreanAt(t, x);
  }

  /** `THREE.MathUtils.degToRad`. */
  function DegToRad(deg: real): (r: real)
    ensures deg == 0.0 ==> r == 0.0
    ensures deg == 180.0 ==> r == Pi
  {
    deg * (Pi / 180.0)
  }

  /** Comparing a square root with a non-negative bound is comparing squares. */
  lemma SqrtLessThan(t: Fns, q: real, bound: real)
    requires SqrtLaws(t)
    requires q >= 0.0 && bound >= 0.0
    ensures t.sqrt(q) < bound <==> q < bound * bound
  {
    var s := t.sqrt(q);
    assert SqrtAt(t, q);
    assert s >= 0.0 && s * s == q;
    if s < bound {
      MulStrict(s, bound);
    } else {
      MulMono(bound, s);
    }
  }

  lemma MulStrict(a: real, b: real)
    requires 0.0 <= a < b
    ensures a * a < b * b
  {
    calc {
      a * a;
    <=
      a * b;
    <
      b * b;
    }
  }

  lemma MulMono(a: real, b: real)
    requires 0.0 <= a <= b
    ensures a * a <= b * b
  {
    calc {
      a * a;
    <=
      a * b;
    <=
      b * b;
    }
  }
}
