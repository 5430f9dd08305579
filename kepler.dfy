/**
 * Orbital propagation of the scene component: the mean-anomaly wrap, the
 * fixed-point Kepler iteration, the true anomaly and radius, the 3-1-3
 * rotation into ecliptic coordinates and the orbit-path sampler.
 * Everything is over real numbers; the library functions come in `t`.
 */
module Kepler {
  import opened Common
  import opened Trig
  import opened Bodies

  /** World units per astronomical unit. */
  const AuScale: real := 15.0
  /** Fixed number of fixed-point updates of the eccentric anomaly. */
  const KeplerSteps: nat := 5
  /** Simulated days per real day. */
  const TimeSpeed: real := 0.1
  const DaysPerYear: real := 365.25
  /** 1000 * 60 * 60 * 24 */
  const MsPerDay: real := 86400000.0
  /** Samples per full orbit. */
  const PointCount: nat := 200

  /** The elements an orbit's shape depends on, angles in radians. */
  datatype Orbit = Orbit(a: real, e: real, incl: real, node: real, varpi: real)

  /**
   * The elements read from a record. When the semi-major axis, the node or
   * the perihelion longitude is absent, or when |e| > 1 makes `Math.sqrt`
   * return NaN, the source computes NaN coordinates: here there is no orbit.
   * A missing eccentricity or inclination defaults to 0.
   */
  function OrbitOf(b: Body): Option<Orbit> {
    var e := b.eccentricity.GetOr(0.0);
    if b.semiMajorAxis.None? || b.longitudeOfAscendingNode.None? || b.longitudeOfPerihelion.None? then None
    else if e < -1.0 || e > 1.0 then None
    else Some(Orbit(
      b.semiMajorAxis.value, e,
      DegToRad(b.orbitalInclination.GetOr(0.0)),
      DegToRad(b.longitudeOfAscendingNode.value),
      DegToRad(b.longitudeOfPerihelion.value)))
  }

  // ---------------------------------------------------------------- wrap

  /** Is `d` a whole number of periods `m`? */
  predicate WholeTurns(d: real, m: real)
    requires m > 0.0
  {
    (d / m).Floor as real == d / m
  }

  /** x − ⌊x/m⌋·m lies in [0, m) for x ≥ 0. */
  lemma RemBounds(x: real, m: real)
    requires x >= 0.0 && m > 0.0
    ensures 0.0 <= x - (x / m).Floor as real * m < m
  {
    var y := x / m;
    var f := y.Floor as real;
    assert 0.0 <= y - f < 1.0;
    assert x == y * m;
    var g := (y - f) * m;
    calc {
      x - f * m;
    ==
      y * m - f * m;
    ==
      g;
    }
    assert 0.0 <= g by {
      assert 0.0 <= y - f;
    }
    assert g < m by {
      calc {
        g;
      ==
        (y - f) * m;
      <
        1.0 * m;
      }
    }
  }

  /** A whole number `k` of turns of length `m`. */
  lemma WholeMultiple(k: int, m: real, d: real)
    requires m > 0.0 && d == k as real * m
    ensures WholeTurns(d, m)
  {
    assert d / m == k as real;
  }

  /** JavaScript's `%` on numbers: truncating, the remainder has the sign of `x`. */
  function JsRem(x: real, m: real): (r: real)
    requires m > 0.0
    ensures -m < r < m
    ensures x >= 0.0 ==> r >= 0.0
    ensures x < 0.0 ==> r <= 0.0
    ensures WholeTurns(x - r, m)
  {
    if x >= 0.0 then
      var k := (x / m).Floor;
      RemBounds(x, m);
      WholeMultiple(k, m, x - (x - k as real * m));
      x - k as real * m
    else
      var k := (-x / m).Floor;
      RemBounds(-x, m);
      WholeMultiple(-k, m, x - (x + k as real * m));
      x + k as real * m
  }

  /** `M % (2π)` followed by `if (M < 0) M += 2π`. */
  function WrapAngle(x: real): (r: real)
    ensures 0.0 <= r < TwoPi
    ensures WholeTurns(x - r, TwoPi)
  {
    var r := JsRem(x, TwoPi);
    if r < 0.0 then
      var k := ((x - r) / TwoPi).Floor;
      assert x - r == k as real * TwoPi;
      assert x - (r + TwoPi) == (k - 1) as real * TwoPi;
      WholeMultiple(k - 1, TwoPi, x - (r + TwoPi));
      r + TwoPi
    else r
  }

  /** Wrapping changes nothing on an angle already in [0, 2π). */
  lemma WrapAngleFixesRange(x: real)
    requires 0.0 <= x < TwoPi
    ensures WrapAngle(x) == x
  {
    assert (x / TwoPi).Floor == 0 by {
      assert 0.0 <= x / TwoPi < 1.0;
    }
  }

  // -------------------------------------------------------------- Kepler

  /** E after `n` updates `E <- M + e·sin E`, seeded with E = M. */
  function KeplerIterate(t: Fns, M: real, e: real, n: nat): real {
    if n == 0 then M else M + e * t.sin(KeplerIterate(t, M, e, n - 1))
  }

  /** The update loop the source runs, five times. */
  method SolveKepler(t: Fns, M: real, e: real) returns (E: real)
    ensures E == KeplerIterate(t, M, e, KeplerSteps)
  {
    E := M;
    for k := 0 to KeplerSteps
      invariant E == KeplerIterate(t, M, e, k)
    {
      E := M + e * t.sin(E);
    }
  }

  lemma ScaledUnit(e: real, s: real)
    requires e >= 0.0 && -1.0 <= s <= 1.0
    ensures Abs(e * s) <= e
  {
    if s >= 0.0 {
      assert e * s <= e * 1.0;
    } else {
      assert e * (-s) <= e * 1.0;
    }
  }

  /** Every iterate stays within e of the mean anomaly. */
  lemma IterateNearMean(t: Fns, M: real, e: real, n: nat)
    requires Laws(t) && e >= 0.0
    ensures Abs(KeplerIterate(t, M, e, n) - M) <= e
  {
    if n > 0 {
      SinBound(t, KeplerIterate(t, M, e, n - 1));
      ScaledUnit(e, t.sin(KeplerIterate(t, M, e, n - 1)));
    }
  }

  function Pow(x: real, n: nat): real {
    if n == 0 then 1.0 else x * Pow(x, n - 1)
  }

  lemma MulAbs(e: real, d: real)
    requires e >= 0.0
    ensures Abs(e * d) == e * Abs(d)
  {
    if d < 0.0 {
      assert e * d == -(e * (-d));
    }
  }

  lemma MulLe(e: real, x: real, y: real)
    requires e >= 0.0 && x <= y
    ensures e * x <= e * y
  {
    assert e * y - e * x == e * (y - x);
  }

  /** (M + e·a) − (M + e·b) = e·(a − b) */
  lemma StepArith(M: real, e: real, a: real, b: real)
    ensures (M + e * a) - (M + e * b) == e * (a - b)
  {
  }

  /** |X| ≤ e·p when X = e·d, |d| ≤ y and y ≤ p. */
  lemma ContractArith(e: real, d: real, y: real, p: real)
    requires e >= 0.0 && Abs(d) <= y <= p
    ensures Abs(e * d) <= e * p
  {
    MulAbs(e, d);
    MulLe(e, Abs(d), p);
  }

  /** The first update moves the anomaly by at most e. */
  lemma FirstStep(t: Fns, M: real, e: real)
    requires Laws(t) && e >= 0.0
    ensures Abs(KeplerIterate(t, M, e, 1) - KeplerIterate(t, M, e, 0)) <= Pow(e, 1)
  {
    SinBound(t, M);
    ScaledUnit(e, t.sin(M));
    assert KeplerIterate(t, M, e, 1) - M == e * t.sin(M);
  }

  /**
   * Two consecutive updates, x1 = M + e·sin x0 and x2 = M + e·sin x1, move
   * by at most e times the previous move.
   */
  lemma LaterStep(t: Fns, M: real, e: real, x0: real, x1: real, x2: real, p: real)
    requires SinLipschitz(t) && e >= 0.0
    requires x1 == M + e * t.sin(x0) && x2 == M + e * t.sin(x1)
    requires Abs(x1 - x0) <= p
    ensures Abs(x2 - x1) <= e * p
  {
    var a, b := t.sin(x1), t.sin(x0);
    StepArith(M, e, a, b);
    SinLipschitzPair(t, x1, x0);
    ContractArith(e, a - b, Abs(x1 - x0), p);
  }

  /** Successive iterates move by at most e^(n+1): the update is a contraction. */
  lemma {:induction false} StepShrinks(t: Fns, M: real, e: real, n: nat)
    requires Laws(t) && SinLipschitz(t) && e >= 0.0
    ensures Abs(KeplerIterate(t, M, e, n + 1) - KeplerIterate(t, M, e, n)) <= Pow(e, n + 1)
  {
    if n == 0 {
      FirstStep(t, M, e);
    } else {
      StepShrinks(t, M, e, n - 1);
      var x0, x1, x2 := KeplerIterate(t, M, e, n - 1), KeplerIterate(t, M, e, n), KeplerIterate(t, M, e, n + 1);
      LaterStep(t, M, e, x0, x1, x2, Pow(e, n));
      assert Pow(e, n + 1) == e * Pow(e, n);
    }
  }

  /** How far E_n is from solving Kepler's equation: M − (E_n − e·sin E_n). */
  function Residual(t: Fns, M: real, e: real, n: nat): real {
    var E := KeplerIterate(t, M, e, n);
    M - (E - e * t.sin(E))
  }

  /**
   * After n updates, Kepler's equation M = E − e·sin E holds up to e^(n+1).
   */
  lemma {:induction false} KeplerResidual(t: Fns, M: real, e: real, n: nat)
    requires Laws(t) && SinLipschitz(t) && e >= 0.0
    ensures Abs(Residual(t, M, e, n)) <= Pow(e, n + 1)
  {
    StepShrinks(t, M, e, n);
    var E := KeplerIterate(t, M, e, n);
    var E1 := KeplerIterate(t, M, e, n + 1);
    assert E1 == M + e * t.sin(E);
    ResidualIsStep(M, e, t.sin(E), E, E1);
    assert Residual(t, M, e, n) == M - (E - e * t.sin(E));
  }

  lemma ResidualIsStep(M: real, e: real, s: real, E: real, E1: real)
    requires E1 == M + e * s
    ensures Abs(M - (E - e * s)) == Abs(E1 - E)
  {
  }

  lemma {:induction false} PowMono(x: real, y: real, n: nat)
    requires 0.0 <= x <= y
    ensures 0.0 <= Pow(x, n) <= Pow(y, n)
  {
    if n > 0 {
      PowMono(x, y, n - 1);
      calc {
        x * Pow(x, n - 1);
      <=
        x * Pow(y, n - 1);
      <=
        y * Pow(y, n - 1);
      }
    }
  }

  /** 0.206^6 is below 10^-3. */
  lemma SmallPow()
    ensures Pow(0.206, KeplerSteps + 1) < 0.001
  {
    assert Pow(0.206, 6) == 0.206 * (0.206 * (0.206 * (0.206 * (0.206 * (0.206 * 1.0)))));
  }

  /**
   * For eccentricities up to 0.206, five updates solve Kepler's equation to
   * within 0.206^6 < 0.001 (over the reals, sine 1-Lipschitz).
   */
  lemma FiveStepsAccurate(t: Fns, M: real, e: real)
    requires Laws(t) && SinLipschitz(t) && 0.0 <= e <= 0.206
    ensures Abs(Residual(t, M, e, KeplerSteps)) < 0.001
  {
    KeplerResidual(t, M, e, KeplerSteps);
    PowMono(e, 0.206, KeplerSteps + 1);
    SmallPow();
  }

  // ------------------------------------------------- anomaly to position

  /** ν = 2·atan2(√(1+e)·sin(E/2), √(1−e)·cos(E/2)). */
  function TrueAnomaly(t: Fns, E: real, e: real): real {
    2.0 * t.atan2(t.sqrt(1.0 + e) * t.sin(E / 2.0), t.sqrt(1.0 - e) * t.cos(E / 2.0))
  }

  /** r = a·(1 − e·cos E). */
  function Radius(t: Fns, a: real, e: real, E: real): real {
    a * (1.0 - e * t.cos(E))
  }

  /** The heliocentric distance lies between perihelion and aphelion. */
  lemma RadiusBounds(t: Fns, a: real, e: real, E: real)
    requires Laws(t) && a >= 0.0 && e >= 0.0
    ensures a * (1.0 - e) <= Radius(t, a, e, E) <= a * (1.0 + e)
  {
    var c := t.cos(E);
    CosBound(t, E);
    ScaledUnit(e, c);
    assert 1.0 - e <= 1.0 - e * c <= 1.0 + e;
    calc {
      a * (1.0 - e);
    <=
      a * (1.0 - e * c);
    <=
      a * (1.0 + e);
    }
  }

  /**
   * The 3-1-3 rotation of the orbital-plane point (xo, yo) by the argument
   * of perihelion w, the inclination and the ascending node, giving the
   * ecliptic point in scene axes (the ecliptic's z is the scene's y).
   */
  function ToEcliptic(t: Fns, xo: real, yo: real, incl: real, node: real, w: real): Vec3 {
    var cw, sw := t.cos(w), t.sin(w);
    var cn, sn := t.cos(node), t.sin(node);
    var ci, si := t.cos(incl), t.sin(incl);
    var xEcl := xo * (cw * cn - sw * sn * ci) - yo * (sw * cn + cw * sn * ci);
    var zEcl := xo * (cw * sn + sw * cn * ci) + yo * (cw * cn * ci - sw * sn);
    var yEcl := xo * (sw * si) + yo * (cw * si);
    Vec3(xEcl, yEcl, zEcl)
  }

  /** With all three angles zero the rotation is the identity on the orbital plane. */
  lemma ZeroAnglesIdentity(t: Fns, xo: real, yo: real)
    requires Laws(t)
    ensures ToEcliptic(t, xo, yo, 0.0, 0.0, 0.0) == Vec3(xo, 0.0, yo)
  {
  }

  /** An orbit of inclination zero stays in the ecliptic plane (scene y = 0). */
  lemma ZeroInclinationFlat(t: Fns, xo: real, yo: real, node: real, w: real)
    requires Laws(t)
    ensures ToEcliptic(t, xo, yo, 0.0, node, w).y == 0.0
  {
  }

  /** Scene position for eccentric anomaly E on `o`, scaled to world units. */
  function PositionAt(t: Fns, o: Orbit, E: real): Vec3 {
    var nu := TrueAnomaly(t, E, o.e);
    var r := Radius(t, o.a, o.e, E);
    var p := ToEcliptic(t, r * t.cos(nu), r * t.sin(nu), o.incl, o.node, o.varpi - o.node);
    Vec3(p.x * AuScale, p.y * AuScale, p.z * AuScale)
  }

  /** Scene position at mean anomaly M after the five Kepler updates. */
  function EclipticPoint(t: Fns, o: Orbit, M: real): Vec3 {
    PositionAt(t, o, KeplerIterate(t, M, o.e, KeplerSteps))
  }

  /** An orbit with i = Ω = ϖ = 0 is drawn in the scene's x/z plane, unrotated. */
  lemma UnrotatedOrbitPoint(t: Fns, o: Orbit, M: real)
    requires Laws(t) && o.incl == 0.0 && o.node == 0.0 && o.varpi == 0.0
    ensures var E := KeplerIterate(t, M, o.e, KeplerSteps);
            var nu := TrueAnomaly(t, E, o.e);
            var r := Radius(t, o.a, o.e, E);
            EclipticPoint(t, o, M) == Vec3(r * t.cos(nu) * AuScale, 0.0, r * t.sin(nu) * AuScale)
  {
    var E := KeplerIterate(t, M, o.e, KeplerSteps);
    var nu := TrueAnomaly(t, E, o.e);
    var r := Radius(t, o.a, o.e, E);
    ZeroAnglesIdentity(t, r * t.cos(nu), r * t.sin(nu));
  }

  // ----------------------------------------------------------- the tick

  /** Simulated days since the scene started: (now − start) / (1000·60·60·24). */
  function ElapsedDays(now: int, start: int): real {
    (now - start) as real / MsPerDay
  }

  /** M = wrap((L − ϖ) + n·d·timeSpeed) with mean motion n = 2π / (P·365.25). */
  function MeanAnomaly(o: Orbit, meanLon: real, period: real, days: real): (m: real)
    requires period != 0.0
    ensures 0.0 <= m < TwoPi
  {
    WrapAngle((meanLon - o.varpi) + (TwoPi / (period * DaysPerYear)) * days * TimeSpeed)
  }

  /**
   * Where the tick puts a planet or comet `days` after the start; None where
   * the source's arithmetic yields NaN (an element missing, or period 0).
   */
  function Propagate(t: Fns, b: Body, days: real): Option<Vec3> {
    match OrbitOf(b)
    case None => None
    case Some(o) =>
      if b.meanLongitude.None? || b.orbitalSpeed == 0.0 then None
      else Some(EclipticPoint(t, o, MeanAnomaly(o, DegToRad(b.meanLongitude.value), b.orbitalSpeed, days)))
  }

  /** The tick's anomaly is in [0, 2π) and its radius between perihelion and aphelion. */
  lemma PropagateBounds(t: Fns, b: Body, days: real)
    requires Laws(t) && OrbitOf(b).Some? && b.meanLongitude.Some? && b.orbitalSpeed != 0.0
    requires OrbitOf(b).value.a >= 0.0 && OrbitOf(b).value.e >= 0.0
    ensures var o := OrbitOf(b).value;
            var M := MeanAnomaly(o, DegToRad(b.meanLongitude.value), b.orbitalSpeed, days);
            var E := KeplerIterate(t, M, o.e, KeplerSteps);
            && Propagate(t, b, days) == Some(PositionAt(t, o, E))
            && 0.0 <= M < TwoPi
            && Abs(E - M) <= o.e
            && o.a * (1.0 - o.e) <= Radius(t, o.a, o.e, E) <= o.a * (1.0 + o.e)
  {
    var o := OrbitOf(b).value;
    var M := MeanAnomaly(o, DegToRad(b.meanLongitude.value), b.orbitalSpeed, days);
    var E := KeplerIterate(t, M, o.e, KeplerSteps);
    IterateNearMean(t, M, o.e, KeplerSteps);
    RadiusBounds(t, o.a, o.e, E);
  }

  // -------------------------------------------------------- the sampler

  /** A comet's path covers half an orbit, anything else a full one. */
  function OrbitSections(id: string): (n: nat)
    ensures n == if IsCometId(id) then 100 else 200
  {
    if IsCometId(id) then PointCount / 2 else PointCount
  }

  /** The mean anomaly of sample j: (j / 200)·2π. */
  function SampleAnomaly(j: nat): real {
    (j as real / PointCount as real) * 2.0 * Pi
  }

  /** The sampler's loop: one point per section boundary, j = 0 .. sections. */
  method SampleOrbit(t: Fns, o: Orbit, id: string) returns (pts: seq<Vec3>)
    ensures |pts| == OrbitSections(id) + 1
    ensures forall j :: 0 <= j < |pts| ==> pts[j] == EclipticPoint(t, o, SampleAnomaly(j))
  {
    pts := [];
    var sections := if IsCometId(id) then PointCount / 2 else PointCount;
    var j := 0;
    while j <= sections
      invariant 0 <= j <= sections + 1
      invariant |pts| == j
      invariant forall k :: 0 <= k < j ==> pts[k] == EclipticPoint(t, o, SampleAnomaly(k))
    {
      var M := SampleAnomaly(j);
      var E := SolveKepler(t, M, o.e);
      pts := pts + [PositionAt(t, o, E)];
      j := j + 1;
    }
  }

  /**
   * The samples start at anomaly 0, increase strictly, and end at 2π for a
   * full orbit and at π for a comet's half orbit.
   */
  lemma SampleAnomalies(id: string)
    ensures SampleAnomaly(0) == 0.0
    ensures forall j, k :: 0 <= j < k ==> SampleAnomaly(j) < SampleAnomaly(k)
    ensures SampleAnomaly(OrbitSections(id)) == if IsCometId(id) then Pi else TwoPi
  {
    forall j: nat, k: nat | j < k
      ensures SampleAnomaly(j) < SampleAnomaly(k)
    {
      assert j as real / 200.0 < k as real / 200.0;
    }
  }
}
