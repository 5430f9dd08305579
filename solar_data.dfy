/**
 * The constant body table the application ships with, and the invariants
 * the rest of the code relies on.
 */
module SolarSystemData {
  import opened Common
  import opened Bodies
  import opened Trig
  import opened Kepler

  /** A table entry: the undeclared orbital elements are absent. */
  function Entry(id: string, name: string, kind: Kind, size: real, distance: real, color: string,
                 orbitalSpeed: real, rotationSpeed: real, rings: Option<Rings>, e: Option<real>): Body
  {
    Body(id, name, kind, size, distance, color, orbitalSpeed, rotationSpeed, rings, e,
         None, None, None, None, None)
  }

  const SaturnRings: Rings := Rings(12.0, 20.0,
    "https://raw.githubusercontent.com/mrdoob/three.js/dev/examples/textures/saturn_ring.png")

  const Table: seq<Body> := [
    Entry("sun", "Sun", Star, 20.0, 0.0, "#FFFF8F", 0.0, 0.05, None, None),
    Entry("mercury", "Mercury", Planet, 2.0, 40.0, "#A9A9A9", 1.6, 0.1, None, Some(0.206)),
    Entry("venus", "Venus", Planet, 4.0, 70.0, "#FFA500", 1.2, 0.08, None, Some(0.007)),
    Entry("earth", "Earth", Planet, 5.0, 100.0, "#4682B4", 1.0, 0.5, None, Some(0.017)),
    Entry("mars", "Mars", Planet, 3.0, 150.0, "#FF4500", 0.8, 0.45, None, Some(0.093)),
    Entry("jupiter", "Jupiter", Planet, 10.0, 320.0, "#D2B48C", 0.4, 0.8, None, Some(0.048)),
    Entry("saturn", "Saturn", Planet, 9.0, 450.0, "#F0E68C", 0.32, 0.75, Some(SaturnRings), Some(0.054)),
    Entry("uranus", "Uranus", Planet, 7.0, 600.0, "#AFEEEE", 0.22, 0.6, None, Some(0.047)),
    Entry("neptune", "Neptune", Planet, 7.0, 750.0, "#3F51B5", 0.18, 0.55, None, Some(0.009))
  ]

  function Ids(data: seq<Body>): (r: seq<string>)
    ensures |r| == |data| && forall k :: 0 <= k < |data| ==> r[k] == data[k].id
  {
    if data == [] then [] else [data[0].id] + Ids(data[1..])
  }

  /** No two entries share an id. */
  lemma IdsDistinct()
    ensures Distinct(Ids(Table))
  {
    var ids := Ids(Table);
    assert ids == ["sun", "mercury", "venus", "earth", "mars", "jupiter", "saturn", "uranus", "neptune"];
    forall i, j | 0 <= i < j < |ids|
      ensures ids[i] != ids[j]
    {
      // any two ids differ in length or in their first letter
      assert |ids[i]| != |ids[j]| || ids[i][0] != ids[j][0];
    }
  }

  /** The sun is the first entry and the only star; every other entry is a planet. */
  lemma OneStarFirst()
    ensures Table[0].id == "sun" && Table[0].kind == Star
    ensures forall k :: 1 <= k < |Table| ==> Table[k].kind == Planet
  {
  }

  /** Every eccentricity given is in [0, 1); the largest is Mercury's 0.206. */
  lemma EccentricitiesBound()
    ensures forall b :: b in Table && b.eccentricity.Some? ==> 0.0 <= b.eccentricity.value <= 0.206 < 1.0
    ensures exists b :: b in Table && b.eccentricity == Some(0.206)
  {
    assert Table[1].eccentricity == Some(0.206);
  }

  /** Planets are listed by strictly increasing distance. */
  lemma DistancesIncrease()
    ensures forall j, k :: 1 <= j < k < |Table| ==> Table[j].distance < Table[k].distance
  {
  }

  /**
   * Every planet has positive size and period (so the mean motion
   * 2π/(P·365.25) is defined); only the sun has period 0.
   */
  lemma PositiveSizesAndPeriods()
    ensures forall b :: b in Table && b.kind == Planet ==> b.size > 0.0 && b.orbitalSpeed > 0.0
    ensures forall b :: b in Table ==> (b.orbitalSpeed == 0.0 <==> b.id == "sun")
  {
  }

  /** The only ring system is Saturn's, with inner radius 12 below outer radius 20. */
  lemma RingsOrdered()
    ensures forall b :: b in Table && b.rings.Some? ==> b.id == "saturn" && b.rings == Some(SaturnRings)
    ensures SaturnRings.innerRadius < SaturnRings.outerRadius
  {
  }

  /**
   * The table does not carry the semi-major axis or the node and perihelion
   * longitudes the propagation code reads, so no entry has an orbit and the
   * tick computes no finite position for any of them.
   */
  lemma TableHasNoOrbits(t: Fns, days: real)
    ensures forall b :: b in Table ==> OrbitOf(b).None? && Propagate(t, b, days).None?
  {
  }

  /**
   * For every eccentricity in the table, the √(1 − e) and √(1 + e) of the
   * true-anomaly formula take non-negative arguments, and over the reals
   * five fixed-point updates solve Kepler's equation to within 0.206^6 < 0.001.
   */
  lemma TableKeplerAccuracy(t: Fns, M: real)
    requires Laws(t) && SinLipschitz(t)
    ensures forall b :: b in Table ==>
      && 1.0 - b.eccentricity.GetOr(0.0) >= 0.0
      && 1.0 + b.eccentricity.GetOr(0.0) >= 0.0
      && Abs(Residual(t, M, b.eccentricity.GetOr(0.0), KeplerSteps)) < 0.001
  {
    EccentricitiesBound();
    forall b | b in Table
      ensures Abs(Residual(t, M, b.eccentricity.GetOr(0.0), KeplerSteps)) < 0.001
    {
      FiveStepsAccurate(t, M, b.eccentricity.GetOr(0.0));
    }
  }
}
