/** Small shared vocabulary: optional values, 3-vectors and real helpers. */
module Common {

  /** JavaScript's `undefined`/`null` for a value that may be absent. */
  datatype Option<+T> = None | Some(value: T) {
    /** The `??` operator: the value if present, otherwise `default`. */
    function GetOr(default: T): T {
      match this
      case Some(v) => v
      case None => default
    }
  }

  /** A point or vector in the scene's world space (Three.js axes: y is up). */
  datatype Vec3 = Vec3(x: real, y: real, z: real)

  const Origin: Vec3 := Vec3(0.0, 0.0, 0.0)

  function Abs(x: real): (r: real)
    ensures r >= 0.0 && (r == x || r == -x)
  {
    if x < 0.0 then -x else x
  }

  /** Squared Euclidean distance between two points. */
  function Dist2(p: Vec3, q: Vec3): (r: real)
    ensures r >= 0.0
    ensures r == 0.0 <== p == q
  {
    (p.x - q.x) * (p.x - q.x) + (p.y - q.y) * (p.y - q.y) + (p.z - q.z) * (p.z - q.z)
  }

  /** Does `s` contain no two equal elements? */
  predicate Distinct<T(==)>(s: seq<T>) {
    forall i, j :: 0 <= i < j < |s| ==> s[i] != s[j]
  }
}
