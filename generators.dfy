/**
 * The id assignment of the meteor and comet generator forms: each item the
 * generator returns keeps its fields and gets an id built from a prefix,
 * the clock reading `Date.now()` taken for that item, and its index; and
 * the bounds the forms put on the requested count.
 */
module Generators {
  import opened Common
  import opened Bodies

  // ------------------------------------------------------------- numbers

  function Digit(d: nat): (c: char)
    requires d < 10
    ensures '0' <= c <= '9'
  {
    "0123456789"[d]
  }

  function DigitValue(c: char): nat
    requires '0' <= c <= '9'
  {
    (c - '0') as nat
  }

  /** The decimal representation of a natural number, as a template literal prints it. */
  function NatToString(n: nat): (s: string)
    ensures |s| > 0 && forall k :: 0 <= k < |s| ==> '0' <= s[k] <= '9'
    decreases n
  {
    if n < 10 then [Digit(n)] else NatToString(n / 10) + [Digit(n % 10)]
  }

  /** Reading a string of digits as a decimal number. */
  function ParseNat(s: string): nat
    requires forall k :: 0 <= k < |s| ==> '0' <= s[k] <= '9'
    decreases |s|
  {
    if s == [] then 0 else ParseNat(s[..|s| - 1]) * 10 + DigitValue(s[|s| - 1])
  }

  /** Printing a number and reading it back gives the number. */
  lemma {:induction false} ParsePrinted(n: nat)
    ensures ParseNat(NatToString(n)) == n
    decreases n
  {
    var s := NatToString(n);
    if n < 10 {
      assert s[..|s| - 1] == [];
    } else {
      ParsePrinted(n / 10);
      assert s[..|s| - 1] == NatToString(n / 10);
    }
  }

  /** Different numbers print differently. */
  lemma PrintedInjective(m: nat, n: nat)
    requires NatToString(m) == NatToString(n)
    ensures m == n
  {
    ParsePrinted(m);
    ParsePrinted(n);
  }

  // --------------------------------------------------- the id template

  /** The part of `s` after its last `-` (all of `s` when there is none). */
  function LastSegment(s: string): (r: string)
    ensures '-' !in r && |r| <= |s|
    decreases |s|
  {
    if s == [] then []
    else if s[|s| - 1] == '-' then []
    else LastSegment(s[..|s| - 1]) + [s[|s| - 1]]
  }

  lemma {:induction false} LastSegmentAfterDash(p: string, d: string)
    requires '-' !in d
    ensures LastSegment(p + "-" + d) == d
    decreases |d|
  {
    var s := p + "-" + d;
    if d == [] {
      assert s == p + "-" && s[|s| - 1] == '-';
    } else {
      var d' := d[..|d| - 1];
      assert s[|s| - 1] == d[|d| - 1] && d[|d| - 1] in d;
      assert s[..|s| - 1] == p + "-" + d';
      LastSegmentAfterDash(p, d');
      assert d == d' + [d[|d| - 1]];
    }
  }

  /** `${prefix}-${kind}-${now}-${index}`. */
  function StampedId(prefix: string, kind: string, now: nat, index: nat): string {
    prefix + "-" + kind + "-" + NatToString(now) + "-" + NatToString(index)
  }

  /** An id of the template ends with its index after the last dash. */
  lemma StampedIdIndex(prefix: string, kind: string, now: nat, index: nat)
    ensures LastSegment(StampedId(prefix, kind, now, index)) == NatToString(index)
  {
    var d := NatToString(index);
    LastSegmentAfterDash(prefix + "-" + kind + "-" + NatToString(now), d);
  }

  /** Two ids of the template with different indices differ, whatever the prefixes and clock readings. */
  lemma StampedIdsDiffer(p: string, q: string, kind: string, m: nat, n: nat, i: nat, j: nat)
    requires i != j
    ensures StampedId(p, kind, m, i) != StampedId(q, kind, n, j)
  {
    StampedIdIndex(p, kind, m, i);
    StampedIdIndex(q, kind, n, j);
    if NatToString(i) == NatToString(j) {
      PrintedInjective(i, j);
    }
  }

  // --------------------------------------------------------------- meteors

  /** One meteor as the generator returns it. */
  datatype Meteor = Meteor(size: real, trajectory: string, composition: string)

  /** One meteor as passed on, with its id. */
  datatype MeteorRecord = MeteorRecord(size: real, trajectory: string, composition: string, id: string)

  /** The generator's answer; either part may be missing. */
  datatype MeteorResult = MeteorResult(meteors: Option<seq<Meteor>>)

  /** The generator's input for a planet. */
  datatype MeteorRequest = MeteorRequest(planet: string, meteorCount: real, orbitalRadius: real)

  const MinMeteors: real := 1.0
  const MaxMeteors: real := 50.0

  /** The form accepts a meteor count from 1 to 50. */
  predicate MeteorCountOk(count: real) {
    MinMeteors <= count <= MaxMeteors
  }

  /** The request: the planet's name, the count, and the planet's distance scaled by 10000 as the orbital radius. */
  function RequestFor(planet: Body, count: real): (r: MeteorRequest)
    ensures r.planet == planet.name && r.meteorCount == count
    ensures r.orbitalRadius == 10000.0 * planet.distance
    ensures planet.distance > 0.0 ==> r.orbitalRadius > planet.distance
  {
    MeteorRequest(planet.name, count, planet.distance * 10000.0)
  }

  /** The form's default (10 meteors) is accepted; none and fifty-one are not. */
  lemma MeteorCountBounds()
    ensures MeteorCountOk(10.0) && MeteorCountOk(1.0) && MeteorCountOk(50.0)
    ensures !MeteorCountOk(0.0) && !MeteorCountOk(51.0)
    ensures forall c :: MeteorCountOk(c) ==> c > 0.0
  {
  }

  function MeteorId(planetId: string, now: nat, index: nat): string {
    StampedId(planetId, "meteor", now, index)
  }

  /** `result.meteors.map((m, i) => ({...m, id}))`, with `clock(i)` the reading taken for item `i`. */
  function StampMeteors(planetId: string, ms: seq<Meteor>, clock: nat -> nat): (r: seq<MeteorRecord>)
    ensures |r| == |ms|
    ensures forall i :: 0 <= i < |r| ==>
      Meteor(r[i].size, r[i].trajectory, r[i].composition) == ms[i] && r[i].id == MeteorId(planetId, clock(i), i)
  {
    seq(|ms|, (i: int) requires 0 <= i < |ms| =>
      MeteorRecord(ms[i].size, ms[i].trajectory, ms[i].composition, MeteorId(planetId, clock(i), i)))
  }

  /** What `onUpdateMeteors` receives: nothing when the result or its meteors are missing. */
  function MeteorUpdate(planet: Body, result: Option<MeteorResult>, clock: nat -> nat): (r: Option<(string, seq<MeteorRecord>)>)
    ensures r.Some? <==> result.Some? && result.value.meteors.Some?
    ensures r.Some? ==> r.value.0 == planet.id && |r.value.1| == |result.value.meteors.value|
    ensures r.Some? ==> r.value.1 == StampMeteors(planet.id, result.value.meteors.value, clock)
  {
    match result
    case Some(MeteorResult(Some(ms))) => Some((planet.id, StampMeteors(planet.id, ms, clock)))
    case _ => None
  }

  /** Within one batch the meteors get pairwise different ids. */
  lemma MeteorIdsDistinct(planetId: string, ms: seq<Meteor>, clock: nat -> nat)
    ensures var r := StampMeteors(planetId, ms, clock);
      forall i, j :: 0 <= i < j < |r| ==> r[i].id != r[j].id
  {
    var r := StampMeteors(planetId, ms, clock);
    forall i, j | 0 <= i < j < |r|
      ensures r[i].id != r[j].id
    {
      StampedIdsDiffer(planetId, planetId, "meteor", clock(i), clock(j), i, j);
    }
  }

  /** The meteors `onUpdateMeteors` receives have pairwise different ids. */
  lemma MeteorUpdateIdsDistinct(planet: Body, result: Option<MeteorResult>, clock: nat -> nat)
    ensures var r := MeteorUpdate(planet, result, clock);
      r.Some? ==> forall i, j :: 0 <= i < j < |r.value.1| ==> r.value.1[i].id != r.value.1[j].id
  {
    if result.Some? && result.value.meteors.Some? {
      MeteorIdsDistinct(planet.id, result.value.meteors.value, clock);
    }
  }

  // ---------------------------------------------------------------- comets

  /** One comet as the generator returns it; its `id` is replaced. */
  datatype Comet = Comet(id: string, name: string, size: real, composition: string,
                         orbitalPeriod: real, trajectory: string)

  datatype CometResult = CometResult(comets: Option<seq<Comet>>)

  const MinComets: real := 1.0
  const MaxComets: real := 10.0

  /** The form accepts a comet count from 1 to 10. */
  predicate CometCountOk(count: real) {
    MinComets <= count <= MaxComets
  }

  /** The form's default (3 comets) is accepted; none and eleven are not. */
  lemma CometCountBounds()
    ensures CometCountOk(3.0) && CometCountOk(1.0) && CometCountOk(10.0)
    ensures !CometCountOk(0.0) && !CometCountOk(11.0)
    ensures forall c :: CometCountOk(c) ==> c > 0.0
  {
  }

  /** `toLowerCase` on ASCII letters. */
  function Lower(c: char): (r: char)
    ensures !('A' <= r <= 'Z')
    ensures 'A' <= c <= 'Z' ==> r == c - 'A' + 'a'
    ensures !('A' <= c <= 'Z') ==> r == c
  {
    if 'A' <= c <= 'Z' then c - 'A' + 'a' else c
  }

  /** `name.toLowerCase().replace(/ /g, '-')`. */
  function Slug(name: string): (r: string)
    ensures |r| == |name|
    ensures forall k :: 0 <= k < |r| ==> r[k] == if name[k] == ' ' then '-' else Lower(name[k])
  {
    seq(|name|, (k: int) requires 0 <= k < |name| => if name[k] == ' ' then '-' else Lower(name[k]))
  }

  /** A slug has no space and no upper-case letter, and slugging it again changes nothing. */
  lemma SlugClean(name: string)
    ensures ' ' !in Slug(name)
    ensures forall k :: 0 <= k < |name| ==> !('A' <= Slug(name)[k] <= 'Z')
    ensures Slug(Slug(name)) == Slug(name)
  {
  }

  function CometId(name: string, now: nat, index: nat): string {
    StampedId(Slug(name), "comet", now, index)
  }

  /** `result.comets.map((c, i) => ({...c, id}))`, with `clock(i)` the reading taken for item `i`. */
  function StampComets(cs: seq<Comet>, clock: nat -> nat): (r: seq<Comet>)
    ensures |r| == |cs|
    ensures forall i :: 0 <= i < |r| ==> r[i] == cs[i].(id := CometId(cs[i].name, clock(i), i))
  {
    seq(|cs|, (i: int) requires 0 <= i < |cs| => cs[i].(id := CometId(cs[i].name, clock(i), i)))
  }

  /** What `onUpdateComets` receives: nothing when the result or its comets are missing. */
  function CometUpdate(result: Option<CometResult>, clock: nat -> nat): (r: Option<seq<Comet>>)
    ensures r.Some? <==> result.Some? && result.value.comets.Some?
    ensures r.Some? ==> |r.value| == |result.value.comets.value|
    ensures r.Some? ==> r.value == StampComets(result.value.comets.value, clock)
  {
    match result
    case Some(CometResult(Some(cs))) => Some(StampComets(cs, clock))
    case _ => None
  }

  /** Within one batch the comets get pairwise different ids, even when their names are equal. */
  lemma CometIdsDistinct(cs: seq<Comet>, clock: nat -> nat)
    ensures var r := StampComets(cs, clock);
      forall i, j :: 0 <= i < j < |r| ==> r[i].id != r[j].id
  {
    var r := StampComets(cs, clock);
    forall i, j | 0 <= i < j < |r|
      ensures r[i].id != r[j].id
    {
      StampedIdsDiffer(Slug(cs[i].name), Slug(cs[j].name), "comet", clock(i), clock(j), i, j);
    }
  }

  /** The comets `onUpdateComets` receives have pairwise different ids. */
  lemma CometUpdateIdsDistinct(result: Option<CometResult>, clock: nat -> nat)
    ensures var r := CometUpdate(result, clock);
      r.Some? ==> forall i, j :: 0 <= i < j < |r.value| ==> r.value[i].id != r.value[j].id
  {
    if result.Some? && result.value.comets.Some? {
      CometIdsDistinct(result.value.comets.value, clock);
    }
  }
}
