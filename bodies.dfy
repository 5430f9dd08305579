/**
 * The celestial-object record that the scene component consumes, and the
 * two id lists the component uses to style minor bodies.
 */
module Bodies {
  import opened Common

  /**
   * The kind of a record. The record type declares only star and planet;
   * the scene component also tests for comet, and the selection panel
   * builds a synthetic region record.
   */
  datatype Kind = Star | Planet | Comet | Region

  datatype Rings = Rings(innerRadius: real, outerRadius: real, textureUrl: string)

  /**
   * One celestial object. The first block of fields is the declared record
   * type; the orbital elements of the second block are read by the scene
   * component but not declared by the type, so each is optional here.
   * Angles are in degrees; `orbitalSpeed` is used as the period in years.
   */
  datatype Body = Body(
    id: string,
    name: string,
    kind: Kind,
    size: real,
    distance: real,
    color: string,
    orbitalSpeed: real,
    rotationSpeed: real,
    rings: Option<Rings>,
    eccentricity: Option<real>,
    // read by the propagation code, absent from the declared type
    semiMajorAxis: Option<real>,
    meanLongitude: Option<real>,
    longitudeOfPerihelion: Option<real>,
    longitudeOfAscendingNode: Option<real>,
    orbitalInclination: Option<real>)

  /** Ids styled as asteroids (irregular mesh, dim orbit, white label). */
  const AsteroidIds: seq<string> := [
    "osiris-apex", "eurybates", "orus", "mathilde", "patroclus", "ceres",
    "annefrank", "leucus", "itokawa", "eros", "bennu", "ryugu",
    "donaldjohanson", "braille", "polymele", "lutetia", "psyche", "ida",
    "gaspra", "apophis", "didymos", "vesta"]

  /** Ids styled as comets (irregular mesh, half orbit, dim orbit, white label). */
  const CometIds: seq<string> := [
    "churyumov-gerasimenko", "borrelly", "hartley2", "tempel1", "wild2"]

  predicate IsAsteroidId(id: string) { id in AsteroidIds }

  predicate IsCometId(id: string) { id in CometIds }

  /** Minor bodies: both lists together. */
  predicate IsMinorId(id: string) { IsAsteroidId(id) || IsCometId(id) }

  /** Records that the scene builds a node for. */
  predicate IsRendered(b: Body) { b.kind == Star || b.kind == Planet || b.kind == Comet }

  /** Records that also get an orbit line. */
  predicate IsOrbiting(b: Body) { b.kind == Planet || b.kind == Comet }

  /** `Array.prototype.findIndex` on the id field. */
  function FindIndex(data: seq<Body>, id: string): (r: Option<nat>)
    ensures r.Some? ==> r.value < |data| && data[r.value].id == id
    ensures r.Some? ==> forall j :: 0 <= j < r.value ==> data[j].id != id
    ensures r.None? <==> forall j :: 0 <= j < |data| ==> data[j].id != id
  {
    if data == [] then None
    else if data[0].id == id then Some(0)
    else match FindIndex(data[1..], id)
      case None => None
      case Some(k) => Some(k + 1)
  }

  /** `Array.prototype.find` on the id field: the first record with `id`. */
  function Find(data: seq<Body>, id: string): (r: Option<Body>)
    ensures r.Some? ==> r.value in data && r.value.id == id
    ensures r.None? <==> forall b :: b in data ==> b.id != id
  {
    match FindIndex(data, id)
    case None => None
    case Some(k) => Some(data[k])
  }
}
