/**
 * The scene component's registry: the scene graph, the `celestialObjects`
 * and `orbitLines` maps (with their insertion order, which `forEach`
 * follows) and the `clickableObjects` list; the effect that tears the
 * scene down and rebuilds it from the body records; the animation tick
 * that moves the bodies and collects their label anchors.
 */
module Registry {
  import opened Common
  import opened Bodies
  import opened Trig
  import opened Kepler
  import opened SceneGraph
  import opened Highlight
  import opened Labels
  import opened Pick

  const MeteorCount: nat := 500
  const KuiperCount: nat := 200
  const AmbientLight: Node := NewNode(LightObj, Untagged, NoMaterial)
  const SunLight: Node := NewNode(LightObj, Untagged, NoMaterial)
  const RingMaterial: Material := Basic(Hex(White), 0.8)
  const MainBeltMaterial: Material := Standard(Hex(0x888888), Hex(Black), 1.0)
  const OuterBeltMaterial: Material := Standard(Hex(0xCCCCCC), Hex(0x333333), 1.0)

  // ------------------------------------------------ specification functions

  /** The records that get a node, in data order. */
  function Rendered(data: seq<Body>): (r: seq<Body>)
    ensures forall b :: b in r <==> b in data && IsRendered(b)
    ensures |r| <= |data|
  {
    if data == [] then []
    else
      var rest := Rendered(data[..|data| - 1]);
      assert forall b :: b in data <==> b in data[..|data| - 1] || b == data[|data| - 1] by {
        assert data == data[..|data| - 1] + [data[|data| - 1]];
      }
      if IsRendered(data[|data| - 1]) then rest + [data[|data| - 1]] else rest
  }

  /** The records that also get an orbit line, in data order. */
  function Orbiting(data: seq<Body>): (r: seq<Body>)
    ensures forall b :: b in r <==> b in data && IsOrbiting(b)
    ensures |r| <= |data|
  {
    if data == [] then []
    else
      var rest := Orbiting(data[..|data| - 1]);
      assert forall b :: b in data <==> b in data[..|data| - 1] || b == data[|data| - 1] by {
        assert data == data[..|data| - 1] + [data[|data| - 1]];
      }
      if IsOrbiting(data[|data| - 1]) then rest + [data[|data| - 1]] else rest
  }

  function IdsOf(bs: seq<Body>): (r: seq<string>)
    ensures |r| == |bs| && forall k :: 0 <= k < |bs| ==> r[k] == bs[k].id
  {
    if bs == [] then [] else IdsOf(bs[..|bs| - 1]) + [bs[|bs| - 1].id]
  }

  /** `Map.set` keeps a key's first insertion position. */
  function AppendNew(s: seq<string>, x: string): (r: seq<string>)
    ensures Distinct(s) ==> Distinct(r)
    ensures forall y :: y in r <==> y in s || y == x
  {
    if x in s then s else s + [x]
  }

  /** The key order of a map filled by setting the keys of `s` in turn. */
  function KeyOrder(s: seq<string>): (r: seq<string>)
    ensures Distinct(r)
    ensures forall y :: y in r <==> y in s
  {
    if s == [] then []
    else
      assert forall y :: y in s <==> y in s[..|s| - 1] || y == s[|s| - 1] by {
        assert s == s[..|s| - 1] + [s[|s| - 1]];
      }
      AppendNew(KeyOrder(s[..|s| - 1]), s[|s| - 1])
  }

  /** The last record with the given id: the one whose `set` wins. */
  function LastWithId(bs: seq<Body>, id: string): (r: Option<Body>)
    ensures r.Some? <==> id in IdsOf(bs)
    ensures r.Some? ==> r.value in bs && r.value.id == id
  {
    if bs == [] then None
    else if bs[|bs| - 1].id == id then Some(bs[|bs| - 1])
    else
      var p := bs[..|bs| - 1];
      assert IdsOf(bs) == IdsOf(p) + [bs[|bs| - 1].id];
      LastWithId(p, id)
  }

  lemma RenderedSnoc(data: seq<Body>, b: Body)
    ensures Rendered(data + [b]) == Rendered(data) + (if IsRendered(b) then [b] else [])
    ensures Orbiting(data + [b]) == Orbiting(data) + (if IsOrbiting(b) then [b] else [])
  {
    assert (data + [b])[..|data|] == data;
  }


  lemma IdsSnoc(bs: seq<Body>, b: Body)
    ensures IdsOf(bs + [b]) == IdsOf(bs) + [b.id]
    ensures KeyOrder(IdsOf(bs + [b])) == AppendNew(KeyOrder(IdsOf(bs)), b.id)
  {
    assert (bs + [b])[..|bs|] == bs;
    var s := IdsOf(bs + [b]);
    assert s[..|s| - 1] == IdsOf(bs);
  }

  lemma LastSnoc(bs: seq<Body>, b: Body, id: string)
    ensures LastWithId(bs + [b], id) == if id == b.id then Some(b) else LastWithId(bs, id)
  {
    assert (bs + [b])[..|bs|] == bs;
  }

  /**
   * The points of a record's orbit line: one per section boundary of the
   * sampler, 201 for a full orbit and 101 for a comet's half orbit, or NaN
   * (None) where an orbital element is missing.
   */
  function OrbitPoints(t: Fns, b: Body): (r: Option<seq<Vec3>>)
    ensures r.Some? <==> OrbitOf(b).Some?
    ensures r.Some? ==> |r.value| == if IsCometId(b.id) then 101 else 201
    ensures r.Some? ==> forall j :: 0 <= j < |r.value| ==> r.value[j] == EclipticPoint(t, OrbitOf(b).value, SampleAnomaly(j))
  {
    match OrbitOf(b)
    case None => None
    case Some(o) => Some(seq(OrbitSections(b.id) + 1, (j: int) requires 0 <= j => EclipticPoint(t, o, SampleAnomaly(j))))
  }

  // ------------------------------------------------------- graph building

  /** The handles a belt group's meteors get: the `count` handles after the group's. */
  function MeteorHandles(g: nat, count: nat): (r: seq<nat>)
    ensures |r| == count && forall k :: 0 <= k < count ==> r[k] == g + 1 + k
  {
    seq(count, k => g + 1 + k)
  }

  /**
   * `createMeteors` / `createKuiperMeteors`: a group tagged as the belt, then
   * `count` meteor meshes sharing one material, each placed at its drawn
   * position and added to the group.
   */
  method BuildBeltGroup(gr: Graph, name: string, material: Material, count: nat, spot: nat -> Vec3)
    returns (r: Graph)
    requires GraphWf(gr)
    ensures GraphWf(r) && r.top == gr.top && gr.nodes <= r.nodes
    ensures |r.nodes| == |gr.nodes| + 1 + count
    ensures r.nodes[|gr.nodes|] ==
      Node(GroupObj, Belt(name), Detached, MeteorHandles(|gr.nodes|, count), NoMaterial, Origin, None, false)
    ensures forall k :: 0 <= k < count ==>
      r.nodes[|gr.nodes| + 1 + k] == Node(MeshObj, Untagged, Under(|gr.nodes|), [], material, spot(k), None, false)
  {
    var g := |gr.nodes|;
    var group := NewNode(GroupObj, Belt(name), NoMaterial);
    var meteors: seq<Node> := [];
    for i := 0 to count
      invariant |meteors| == i && group == Node(GroupObj, Belt(name), Detached, MeteorHandles(g, i), NoMaterial, Origin, None, false)
      invariant forall k :: 0 <= k < i ==> meteors[k] == Node(MeshObj, Untagged, Under(g), [], material, spot(k), None, false)
    {
      var meteor := NewNode(MeshObj, Untagged, material).(position := spot(i));
      meteors := meteors + [meteor.(parent := Under(g))];
      group := group.(children := group.children + [g + 1 + i]);
    }
    r := Graph(gr.nodes + [group] + meteors, gr.top);
    BeltAppended(gr, name, material, count, spot, meteors);
  }

  /** Appending a belt group and its meteors keeps the graph well formed. */
  lemma BeltAppended(gr: Graph, name: string, material: Material, count: nat, spot: nat -> Vec3, meteors: seq<Node>)
    requires GraphWf(gr)
    requires |meteors| == count
    requires forall k :: 0 <= k < count ==> meteors[k] == Node(MeshObj, Untagged, Under(|gr.nodes|), [], material, spot(k), None, false)
    ensures var r := Graph(gr.nodes + [Node(GroupObj, Belt(name), Detached, MeteorHandles(|gr.nodes|, count), NoMaterial, Origin, None, false)] + meteors, gr.top);
      && GraphWf(r)
      && forall k :: 0 <= k < count ==> r.nodes[|gr.nodes| + 1 + k] == meteors[k]
  {
    var g := |gr.nodes|;
    var group := Node(GroupObj, Belt(name), Detached, MeteorHandles(g, count), NoMaterial, Origin, None, false);
    var extra := [group] + meteors;
    forall j | 0 <= j < |extra|
      ensures extra[j].parent.Under? ==> extra[j].parent.handle < g + j
      ensures forall k :: 0 <= k < |extra[j].children| ==> extra[j].children[k] < g + |extra|
    {
      if j > 0 {
        assert extra[j] == meteors[j - 1];
      }
    }
    AppendWf(gr, extra);
    assert gr.nodes + [group] + meteors == gr.nodes + extra;
  }

  /** A star's nodes: a group holding one basic gold sphere. */
  function StarNodes(gr: Graph): (r: Graph)
    requires GraphWf(gr)
    ensures GraphWf(r) && r.top == gr.top && gr.nodes <= r.nodes
    ensures var g := |gr.nodes|;
      && |r.nodes| == g + 2
      && r.nodes[g] == Node(GroupObj, Untagged, Detached, [g + 1], NoMaterial, Origin, None, false)
      && r.nodes[g + 1] == Node(MeshObj, Untagged, Under(g), [], CreationStarMaterial, Origin, None, false)
  {
    var g := |gr.nodes|;
    var group := Node(GroupObj, Untagged, Detached, [g + 1], NoMaterial, Origin, None, false);
    var star := Node(MeshObj, Untagged, Under(g), [], CreationStarMaterial, Origin, None, false);
    Graph(gr.nodes + [group, star], gr.top)
  }

  /** A planet's or comet's nodes: a group holding the body mesh, which holds the ring if there is one. */
  function PlanetNodes(gr: Graph, b: Body): (r: Graph)
    requires GraphWf(gr)
    ensures GraphWf(r) && r.top == gr.top && gr.nodes <= r.nodes
    ensures var g := |gr.nodes|;
      && |r.nodes| == g + (if b.rings.Some? then 3 else 2)
      && r.nodes[g] == Node(GroupObj, Untagged, Detached, [g + 1], NoMaterial, Origin, None, false)
      && r.nodes[g + 1] == Node(MeshObj, PlanetBody, Under(g), if b.rings.Some? then [g + 2] else [],
                                CreationBodyMaterial(b), Origin, None, false)
      && (b.rings.Some? ==> r.nodes[g + 2] == Node(MeshObj, Untagged, Under(g + 1), [], RingMaterial, Origin, None, false))
  {
    var g := |gr.nodes|;
    var group := Node(GroupObj, Untagged, Detached, [g + 1], NoMaterial, Origin, None, false);
    var body := Node(MeshObj, PlanetBody, Under(g), if b.rings.Some? then [g + 2] else [],
                     CreationBodyMaterial(b), Origin, None, false);
    var ring := Node(MeshObj, Untagged, Under(g + 1), [], RingMaterial, Origin, None, false);
    Graph(gr.nodes + if b.rings.Some? then [group, body, ring] else [group, body], gr.top)
  }

  /** An orbit line through `path`, added to the scene. */
  function LineNode(gr: Graph, b: Body, path: Option<seq<Vec3>>): (r: Graph)
    requires GraphWf(gr)
    ensures GraphWf(r) && gr.nodes <= r.nodes && |r.nodes| == |gr.nodes| + 1
    ensures r.nodes[|gr.nodes|] == Node(LineObj, Untagged, InScene, [], CreationLineMaterial(b), Origin, path, false)
    ensures r.top == gr.top + [|gr.nodes|]
  {
    var line := Node(LineObj, Untagged, InScene, [], CreationLineMaterial(b), Origin, path, false);
    Graph(gr.nodes + [line], gr.top + [|gr.nodes|])
  }

  /** The end of a record's step: the group gets a copy of the record (the sun pinned at the origin) and joins the scene. */
  function Publish(gr: Graph, g: nat, b: Body): (r: Graph)
    requires GraphWf(gr) && g < |gr.nodes| && gr.nodes[g].parent.Detached?
    ensures GraphWf(r) && |r.nodes| == |gr.nodes| && r.top == gr.top + [g]
    ensures r.nodes == gr.nodes[g := gr.nodes[g].(tag := Record(b), parent := InScene,
                                     position := if b.id == "sun" then Origin else gr.nodes[g].position)]
  {
    var pos := if b.id == "sun" then Origin else gr.nodes[g].position;
    Graph(gr.nodes[g := gr.nodes[g].(tag := Record(b), parent := InScene, position := pos)], gr.top + [g])
  }

  /**
   * The group built for record `b` at handle `g`: it carries the record and
   * holds the body mesh, created right after it and carrying no id.
   */
  ghost predicate RecordGroup(nodes: seq<Node>, g: nat, b: Body) {
    && g + 1 < |nodes|
    && nodes[g].kind == GroupObj && nodes[g].tag == Record(b) && nodes[g].children == [g + 1]
    && nodes[g + 1].kind == MeshObj && nodes[g + 1].material == BodyLook(b)
    && nodes[g + 1].parent == Under(g) && IdOf(nodes[g + 1]).None?
  }

  /** The orbit line built for record `b` at handle `l`. */
  ghost predicate RecordLine(nodes: seq<Node>, l: nat, b: Body, path: Option<seq<Vec3>>) {
    && l < |nodes|
    && nodes[l].kind == LineObj && nodes[l].material == CreationLineMaterial(b) && nodes[l].path == path
  }

  /** A star record's nodes, its group added to the scene. */
  function StarRecord(gr: Graph, b: Body): (r: Graph)
    requires GraphWf(gr)
    ensures GraphWf(r) && gr.nodes <= r.nodes && |r.nodes| == |gr.nodes| + 2
    ensures r.top == gr.top + [|gr.nodes|]
    ensures b.kind == Star ==> RecordGroup(r.nodes, |gr.nodes|, b)
  {
    var r := Publish(StarNodes(gr), |gr.nodes|, b);
    assert gr.nodes <= r.nodes;
    r
  }

  /** A planet or comet record's nodes: the line is added to the scene, then the group. */
  function PlanetRecord(gr: Graph, b: Body, path: Option<seq<Vec3>>): (r: Graph)
    requires GraphWf(gr)
    ensures GraphWf(r) && gr.nodes <= r.nodes
    ensures var g := |gr.nodes|;
            var l := g + (if b.rings.Some? then 3 else 2);
      && |r.nodes| == l + 1
      && r.top == gr.top + [l, g]
      && (b.kind != Star ==> RecordGroup(r.nodes, g, b))
      && RecordLine(r.nodes, l, b, path)
  {
    var p := PlanetNodes(gr, b);
    var r := Publish(LineNode(p, b, path), |gr.nodes|, b);
    assert gr.nodes <= r.nodes;
    r
  }

  /** `OrbitPoints` for every record. */
  function OrbitPointsOf(t: Fns): (paths: Body -> Option<seq<Vec3>>)
    ensures forall b :: paths(b) == OrbitPoints(t, b)
  {
    b => OrbitPoints(t, b)
  }

  /** The orbit line's points as the rebuild computes them: the sampler's loop, where the elements are all there. */
  method OrbitPath(t: Fns, b: Body) returns (path: Option<seq<Vec3>>)
    ensures path == OrbitPoints(t, b)
  {
    match OrbitOf(b) {
      case Some(o) =>
        var pts := SampleOrbit(t, o, b.id);
        assert pts == OrbitPoints(t, b).value;
        path := Some(pts);
      case None =>
        path := None;
    }
  }

  /** A created object added straight to the scene. */
  function AddNew(gr: Graph, n: Node): (r: Graph)
    requires GraphWf(gr) && n.parent.Detached? && n.children == []
    ensures GraphWf(r) && r.nodes == gr.nodes + [n.(parent := InScene)] && r.top == gr.top + [|gr.nodes|]
  {
    AddTop(Create(gr, n), |gr.nodes|)
  }

  /** The lights, the dust cloud and the two belt groups, in the order they join the scene. */
  method BuildBelts(gr: Graph, meteorSpot: nat -> Vec3, kuiperSpot: nat -> Vec3) returns (r: Graph)
    requires GraphWf(gr)
    ensures GraphWf(r) && gr.nodes <= r.nodes
    ensures var n := |gr.nodes|;
      && n + 4 + MeteorCount < |r.nodes|
      && r.top == gr.top + [n, n + 1, n + 2, n + 3, n + 4 + MeteorCount]
      && r.nodes[n + 2] == Node(PointsObj, Belt("Asteroid Belt"), InScene, [], CreationBeltDust, Origin, None, false)
      && r.nodes[n + 3] ==
           Node(GroupObj, Belt("Asteroid Belt"), InScene, MeteorHandles(n + 3, MeteorCount), NoMaterial, Origin, None, false)
      && r.nodes[n + 4 + MeteorCount] ==
           Node(GroupObj, Belt("Outer Belt"), InScene, MeteorHandles(n + 4 + MeteorCount, KuiperCount), NoMaterial, Origin, None, false)
  {
    var n := |gr.nodes|;
    var g1 := AddNew(AddNew(AddNew(gr, AmbientLight), SunLight), NewNode(PointsObj, Belt("Asteroid Belt"), CreationBeltDust));
    var g2 := BuildBeltGroup(g1, "Asteroid Belt", MainBeltMaterial, MeteorCount, meteorSpot);
    var g3 := AddTop(g2, n + 3);
    var g4 := BuildBeltGroup(g3, "Outer Belt", OuterBeltMaterial, KuiperCount, kuiperSpot);
    r := AddTop(g4, n + 4 + MeteorCount);
  }

  // ---------------------------------------------------------------- tables

  /**
   * The component's tables: the scene graph, the `celestialObjects` and
   * `orbitLines` maps, each with the order its keys were first set in (the
   * order `forEach` visits them), and `clickableObjects`. Map values and list
   * entries are node handles.
   */
  datatype Tables = Tables(
    scene: Graph,
    celestialObjects: map<string, nat>,
    celestialOrder: seq<string>,
    orbitLines: map<string, nat>,
    lineOrder: seq<string>,
    clickable: seq<nat>)

  /**
   * Every registered id names a group tagged with a record of that id,
   * whose one child is the id-less body (or star) mesh created right after it.
   */
  ghost predicate GroupsRegistered(nodes: seq<Node>, celestial: map<string, nat>) {
    forall id :: id in celestial ==>
      && celestial[id] + 1 < |nodes|
      && nodes[celestial[id]].kind == GroupObj
      && nodes[celestial[id]].tag.Record?
      && nodes[celestial[id]].tag.body.id == id
      && nodes[celestial[id]].children == [celestial[id] + 1]
      && nodes[celestial[id] + 1].kind == MeshObj
      && nodes[celestial[id] + 1].parent == Under(celestial[id])
      && IdOf(nodes[celestial[id] + 1]).None?
  }

  /**
   * Every registered orbit line is a line with a line material, and `owner`
   * names the id each one was registered under (so no two ids share one).
   */
  ghost predicate LinesRegistered(nodes: seq<Node>, lines: map<string, nat>, owner: map<nat, string>) {
    forall id :: id in lines ==>
      && lines[id] < |nodes| && nodes[lines[id]].kind == LineObj && nodes[lines[id]].material.LineBasic?
      && lines[id] in owner && owner[lines[id]] == id
  }

  /** The tables point into the graph, and each key order lists keys of its map: what every method keeps. */
  ghost predicate Inv(w: Tables, owner: map<nat, string>) {
    && GraphWf(w.scene)
    && (forall k :: 0 <= k < |w.clickable| ==> w.clickable[k] < |w.scene.nodes|)
    && GroupsRegistered(w.scene.nodes, w.celestialObjects)
    && LinesRegistered(w.scene.nodes, w.orbitLines, owner)
    && (forall k :: 0 <= k < |w.celestialOrder| ==> w.celestialOrder[k] in w.celestialObjects)
    && (forall k :: 0 <= k < |w.lineOrder| ==> w.lineOrder[k] in w.orbitLines)
  }

  /** Two node lists of the same length whose nodes agree on everything the tables look at. */
  ghost predicate SameShape(a: seq<Node>, b: seq<Node>) {
    && |a| == |b|
    && forall h :: 0 <= h < |a| ==>
         && b[h].kind == a[h].kind && b[h].tag == a[h].tag && b[h].children == a[h].children
         && b[h].material.LineBasic? == a[h].material.LineBasic?
         && (a[h].parent.Under? || b[h].parent.Under? ==> b[h].parent == a[h].parent)
  }

  /** New objects created after the registered ones leave the tables valid. */
  lemma InvExtend(w: Tables, gr: Graph, owner: map<nat, string>)
    requires Inv(w, owner) && GraphWf(gr) && w.scene.nodes <= gr.nodes
    ensures Inv(w.(scene := gr), owner)
  {
    assert forall h :: 0 <= h < |w.scene.nodes| ==> gr.nodes[h] == w.scene.nodes[h];
  }

  /** Changes that keep every node's shape leave the tables valid. */
  lemma InvShape(w: Tables, gr: Graph, owner: map<nat, string>)
    requires Inv(w, owner) && GraphWf(gr) && SameShape(w.scene.nodes, gr.nodes)
    ensures Inv(w.(scene := gr), owner)
  {
  }

  /** Setting `b.id` to the group built for `b`, and making it clickable, keeps the tables valid. */
  lemma InvRegister(w: Tables, owner: map<nat, string>, b: Body, g: nat)
    requires Inv(w, owner) && RecordGroup(w.scene.nodes, g, b)
    ensures Inv(w.(celestialObjects := w.celestialObjects[b.id := g],
                   celestialOrder := AppendNew(w.celestialOrder, b.id),
                   clickable := w.clickable + [g]), owner)
  {
    var nodes := w.scene.nodes;
    var c := w.celestialObjects[b.id := g];
    forall x | x in c
      ensures c[x] + 1 < |nodes| && nodes[c[x]].kind == GroupObj && nodes[c[x]].tag.Record?
      ensures nodes[c[x]].tag.body.id == x && nodes[c[x]].children == [c[x] + 1]
      ensures nodes[c[x] + 1].kind == MeshObj && nodes[c[x] + 1].parent == Under(c[x])
      ensures IdOf(nodes[c[x] + 1]).None?
    {
      if x != b.id {
        assert c[x] == w.celestialObjects[x];
      }
    }
    assert GroupsRegistered(nodes, c);
  }

  /** Setting `b.id` to a line no other id names keeps the tables valid. */
  lemma InvRegisterLine(w: Tables, owner: map<nat, string>, b: Body, path: Option<seq<Vec3>>, l: nat)
    requires Inv(w, owner) && RecordLine(w.scene.nodes, l, b, path)
    requires forall other :: other in w.orbitLines ==> w.orbitLines[other] != l
    ensures Inv(w.(orbitLines := w.orbitLines[b.id := l], lineOrder := AppendNew(w.lineOrder, b.id)),
                owner[l := b.id])
  {
    var nodes := w.scene.nodes;
    var ls := w.orbitLines[b.id := l];
    forall x | x in ls
      ensures ls[x] < |nodes| && nodes[ls[x]].kind == LineObj && nodes[ls[x]].material.LineBasic?
      ensures ls[x] in owner[l := b.id] && owner[l := b.id][ls[x]] == x
    {
      if x != b.id {
        assert ls[x] == w.orbitLines[x] != l;
      }
    }
    assert LinesRegistered(nodes, ls, owner[l := b.id]);
  }

  // ------------------------------------------------------ the record loop

  /** The handle a record's orbit line gets when its step starts with `n` objects: after the group, body and ring. */
  function LineHandle(n: nat, b: Body): (l: nat)
    ensures l == n + 2 || (b.rings.Some? && l == n + 3)
  {
    n + (if b.rings.Some? then 3 else 2)
  }

  /**
   * One step of `data.forEach`: a star gets a group holding the gold sphere,
   * a planet or comet a group holding its body (and ring) and an orbit line
   * registered in `orbitLines`; either group is then published, registered in
   * `celestialObjects` and made clickable. Any other record adds nothing.
   */
  function RecordStep(w: Tables, b: Body, path: Option<seq<Vec3>>): (r: Tables)
    requires GraphWf(w.scene)
    ensures GraphWf(r.scene) && w.scene.nodes <= r.scene.nodes
    ensures w.scene.top <= r.scene.top && w.clickable <= r.clickable
    ensures !IsRendered(b) ==> r == w
  {
    var g := |w.scene.nodes|;
    if b.kind == Star then
      w.(scene := StarRecord(w.scene, b),
         celestialObjects := w.celestialObjects[b.id := g],
         celestialOrder := AppendNew(w.celestialOrder, b.id),
         clickable := w.clickable + [g])
    else if IsOrbiting(b) then
      w.(scene := PlanetRecord(w.scene, b, path),
         orbitLines := w.orbitLines[b.id := LineHandle(g, b)],
         lineOrder := AppendNew(w.lineOrder, b.id),
         celestialObjects := w.celestialObjects[b.id := g],
         celestialOrder := AppendNew(w.celestialOrder, b.id),
         clickable := w.clickable + [g])
    else w
  }

  /**
   * A rendered record's step registers, at its id, the group created next,
   * which carries the record and holds its body, and makes it clickable; a
   * star's step adds that group to the scene and leaves the lines alone.
   */
  lemma RecordStepGroup(w: Tables, b: Body, path: Option<seq<Vec3>>)
    requires GraphWf(w.scene) && IsRendered(b)
    ensures var r := RecordStep(w, b, path);
            var g := |w.scene.nodes|;
      && r.celestialObjects == w.celestialObjects[b.id := g]
      && r.celestialOrder == AppendNew(w.celestialOrder, b.id)
      && r.clickable == w.clickable + [g]
      && RecordGroup(r.scene.nodes, g, b)
      && (b.kind == Star ==> r.scene.top == w.scene.top + [g] && r.orbitLines == w.orbitLines && r.lineOrder == w.lineOrder)
  {
  }

  /**
   * A planet's or comet's step also registers, at its id, the line created
   * after the group's objects, through the record's orbit points; the scene
   * gains the line, then the group.
   */
  lemma RecordStepLine(w: Tables, b: Body, path: Option<seq<Vec3>>)
    requires GraphWf(w.scene) && IsOrbiting(b)
    ensures var r := RecordStep(w, b, path);
            var g := |w.scene.nodes|;
            var l := LineHandle(g, b);
      && |r.scene.nodes| == l + 1
      && r.scene.top == w.scene.top + [l, g]
      && r.orbitLines == w.orbitLines[b.id := l]
      && r.lineOrder == AppendNew(w.lineOrder, b.id)
      && RecordLine(r.scene.nodes, l, b, path)
  {
  }

  /** The tables after a planet's or comet's step, field by field. */
  lemma PlanetStep(w: Tables, b: Body, path: Option<seq<Vec3>>)
    requires GraphWf(w.scene) && IsOrbiting(b)
    ensures var g := |w.scene.nodes|;
      RecordStep(w, b, path) ==
        Tables(PlanetRecord(w.scene, b, path), w.celestialObjects[b.id := g], AppendNew(w.celestialOrder, b.id),
               w.orbitLines[b.id := LineHandle(g, b)], AppendNew(w.lineOrder, b.id), w.clickable + [g])
  {
  }

  /** Who owns each line after a step: a new orbit line belongs to its record's id. */
  ghost function OwnerStep(w: Tables, owner: map<nat, string>, b: Body): map<nat, string> {
    if IsOrbiting(b) then owner[LineHandle(|w.scene.nodes|, b) := b.id] else owner
  }

  /** A record's step keeps the tables valid. */
  lemma InvRecordStep(w: Tables, owner: map<nat, string>, b: Body, path: Option<seq<Vec3>>)
    requires Inv(w, owner)
    ensures Inv(RecordStep(w, b, path), OwnerStep(w, owner, b))
  {
    var r := RecordStep(w, b, path);
    var g := |w.scene.nodes|;
    if IsRendered(b) {
      RecordStepGroup(w, b, path);
    }
    if b.kind == Star {
      InvExtend(w, r.scene, owner);
      InvRegister(w.(scene := r.scene), owner, b, g);
    } else if IsOrbiting(b) {
      RecordStepLine(w, b, path);
      var l := LineHandle(g, b);
      var w1 := w.(scene := r.scene);
      InvExtend(w, r.scene, owner);
      InvRegisterLine(w1, owner, b, path, l);
      var w2 := w1.(orbitLines := w1.orbitLines[b.id := l], lineOrder := AppendNew(w1.lineOrder, b.id));
      InvRegister(w2, owner[l := b.id], b, g);
      assert r == w2.(celestialObjects := w2.celestialObjects[b.id := g],
                      celestialOrder := AppendNew(w2.celestialOrder, b.id),
                      clickable := w2.clickable + [g]);
    }
  }

  /** The whole record loop: the steps of `data`, in data order, each orbit line through `paths` of its record. */
  function Records(paths: Body -> Option<seq<Vec3>>, w: Tables, data: seq<Body>): (r: Tables)
    requires GraphWf(w.scene)
    ensures GraphWf(r.scene) && w.scene.nodes <= r.scene.nodes && w.scene.top <= r.scene.top && w.clickable <= r.clickable
    decreases |data|
  {
    if data == [] then w
    else RecordStep(Records(paths, w, data[..|data| - 1]), data[|data| - 1], paths(data[|data| - 1]))
  }

  /** The tick's update of one node: a planet or comet moves to its propagated position. */
  function Moved(t: Fns, days: real, n: Node): (r: Node)
    ensures r.(position := n.position) == n
    ensures n.tag.Record? && IsOrbiting(n.tag.body) && Propagate(t, n.tag.body, days).Some? ==>
      r.position == Propagate(t, n.tag.body, days).value
    ensures !(n.tag.Record? && IsOrbiting(n.tag.body) && Propagate(t, n.tag.body, days).Some?) ==> r == n
  {
    if n.tag.Record? && IsOrbiting(n.tag.body) then
      match Propagate(t, n.tag.body, days)
      case Some(p) => n.(position := p)
      case None => n
    else n
  }

  /** The update depends only on the record, so applying it twice is applying it once. */
  lemma MovedTwice(t: Fns, days: real, n: Node)
    ensures Moved(t, days, Moved(t, days, n)) == Moved(t, days, n)
  {
  }

  /** The label anchor of a node group: its position raised by the body's size. */
  function Anchor(n: Node): (r: LabelData)
    requires n.tag.Record?
    ensures r.id == n.tag.body.id && r.name == n.tag.body.name && r.color == n.tag.body.color
    ensures r.kind == n.tag.body.kind
    ensures r.position == Vec3(n.position.x, n.position.y + n.tag.body.size, n.position.z)
  {
    var b := n.tag.body;
    LabelData(b.id, b.name, b.color, Vec3(n.position.x, n.position.y + b.size, n.position.z), b.kind)
  }
  /** `children.find(c => c.isMesh)`: the first child that is a mesh. */
  function FirstMesh(nodes: seq<Node>, cs: seq<nat>): (r: Option<nat>)
    requires forall k :: 0 <= k < |cs| ==> cs[k] < |nodes|
    ensures r.None? <==> forall k :: 0 <= k < |cs| ==> nodes[cs[k]].kind != MeshObj
    ensures r.Some? ==> exists k :: 0 <= k < |cs| && cs[k] == r.value && nodes[r.value].kind == MeshObj
                                    && forall j :: 0 <= j < k ==> nodes[cs[j]].kind != MeshObj
  {
    if cs == [] then None
    else if nodes[cs[0]].kind == MeshObj then Some(cs[0])
    else
      var r := FirstMesh(nodes, cs[1..]);
      assert forall k :: 1 <= k < |cs| ==> cs[k] == cs[1..][k - 1];
      r
  }

  /** The material a record's body (or star) mesh is created with. */
  function BodyLook(b: Body): Material {
    if b.kind == Star then CreationStarMaterial else CreationBodyMaterial(b)
  }

  /**
   * The selection effect on the mesh of the record `b`: a standard material
   * takes the emissive look, a star's basic material the star colour, any
   * other material is left alone.
   */
  function Glow(m: Material, b: Body, isSelected: bool): Material {
    match m
    case Standard(c, _, _) =>
      var (e, i) := Emissive(b.id, b.color, isSelected);
      Standard(c, e, i)
    case Basic(_, o) => if b.kind == Star then Basic(StarColor(isSelected), o) else m
    case _ => m
  }

  /** A selected body glows white at full intensity, a selected star turns white. */
  lemma SelectedGlowsWhite(b: Body)
    ensures BodyLook(b).Standard? ==> Glow(BodyLook(b), b, true).emissive == Hex(White)
                                      && Glow(BodyLook(b), b, true).emissiveIntensity == 1.0
    ensures b.kind == Star ==> Glow(BodyLook(b), b, true) == Basic(Hex(White), 1.0)
  {
  }

  /** Deselected, every record's mesh shows the look it was created with (a colourless body aside). */
  lemma IdleGlowIsCreation(b: Body)
    requires b.color != ""
    ensures Glow(BodyLook(b), b, false) == BodyLook(b)
  {
    if b.kind != Star {
      DeselectRestoresGlow(b);
    }
  }

  /** The orbit effect on one line: a line material takes opacity `o`, anything else is left alone. */
  function WithOpacity(n: Node, o: real): (r: Node)
    ensures r.(material := n.material) == n
    ensures r.material.LineBasic? == n.material.LineBasic?
    ensures n.material.LineBasic? ==> r.material.color == n.material.color && r.material.opacity == o
    ensures !n.material.LineBasic? ==> r == n
  {
    match n.material
    case LineBasic(c, _) => n.(material := LineBasic(c, o))
    case _ => n
  }

  /** Setting the same opacity again changes nothing. */
  lemma WithOpacityTwice(n: Node, o: real)
    ensures WithOpacity(WithOpacity(n, o), o) == WithOpacity(n, o)
  {
  }

  /** The selection effect on one body mesh of the record `b`. */
  function Glowing(n: Node, b: Body, isSelected: bool): (r: Node)
    ensures r.(material := n.material) == n
    ensures r.material.LineBasic? == n.material.LineBasic?
  {
    n.(material := Glow(n.material, b, isSelected))
  }

  /** Applying the same selection again changes nothing. */
  lemma GlowingTwice(n: Node, b: Body, isSelected: bool)
    ensures Glowing(Glowing(n, b, isSelected), b, isSelected) == Glowing(n, b, isSelected)
  {
  }

  /** A raycast hit on a registered body (or star) mesh selects its record's id, when that id is not empty. */
  lemma ClickOnBodySelects(w: Tables, owner: map<nat, string>, id: string)
    requires Inv(w, owner) && id in w.celestialObjects && id != ""
    ensures FirstTruthy(w.scene.nodes, Chain(w.scene.nodes, w.celestialObjects[id] + 1)) == Some(id)
  {
    var nodes := w.scene.nodes;
    var g := w.celestialObjects[id];
    ParentSelects(nodes, g + 1);
    SelfSelects(nodes, g);
  }

  // ------------------------------------------------- what the loop leaves

  /** The keys of a map filled by setting the ids of `bs` in turn, and the order they were first set in. */
  ghost predicate KeysOf(m: map<string, nat>, order: seq<string>, bs: seq<Body>) {
    && (forall id :: id in m <==> id in IdsOf(bs))
    && order == KeyOrder(IdsOf(bs))
  }

  /** Setting one more record's id keeps the keys and their order in step with the records. */
  lemma KeysStep(m: map<string, nat>, order: seq<string>, bs: seq<Body>, b: Body, h: nat)
    requires KeysOf(m, order, bs)
    ensures KeysOf(m[b.id := h], AppendNew(order, b.id), bs + [b])
  {
    IdsSnoc(bs, b);
  }

  /** Each key of `c` names a group carrying the last record of `rs` with that id, whose body shows that record's look. */
  ghost predicate GroupEntries(nodes: seq<Node>, c: map<string, nat>, rs: seq<Body>) {
    forall id :: id in c ==>
      && LastWithId(rs, id).Some?
      && c[id] + 1 < |nodes|
      && nodes[c[id]].tag == Record(LastWithId(rs, id).value)
      && nodes[c[id] + 1].material == BodyLook(LastWithId(rs, id).value)
  }

  lemma GroupEntriesStep(nodes: seq<Node>, nodes': seq<Node>, c: map<string, nat>, rs: seq<Body>, b: Body, g: nat)
    requires GroupEntries(nodes, c, rs) && nodes <= nodes' && g + 1 < |nodes'|
    requires nodes'[g].tag == Record(b) && nodes'[g + 1].material == BodyLook(b)
    ensures GroupEntries(nodes', c[b.id := g], rs + [b])
  {
    forall id | id in c[b.id := g]
      ensures LastWithId(rs + [b], id).Some? && c[b.id := g][id] + 1 < |nodes'|
      ensures nodes'[c[b.id := g][id]].tag == Record(LastWithId(rs + [b], id).value)
      ensures nodes'[c[b.id := g][id] + 1].material == BodyLook(LastWithId(rs + [b], id).value)
    {
      LastSnoc(rs, b, id);
      if id != b.id {
        assert nodes'[c[id]] == nodes[c[id]] && nodes'[c[id] + 1] == nodes[c[id] + 1];
      }
    }
  }

  /** Each key of `ls` names a line with the look and the points (`paths`) of the last record of `os` with that id. */
  ghost predicate LineEntries(paths: Body -> Option<seq<Vec3>>, nodes: seq<Node>, ls: map<string, nat>, os: seq<Body>) {
    forall id :: id in ls ==>
      && LastWithId(os, id).Some?
      && ls[id] < |nodes|
      && nodes[ls[id]].material == CreationLineMaterial(LastWithId(os, id).value)
      && nodes[ls[id]].path == paths(LastWithId(os, id).value)
  }

  lemma LineEntriesStep(paths: Body -> Option<seq<Vec3>>, nodes: seq<Node>, nodes': seq<Node>,
                        ls: map<string, nat>, os: seq<Body>, b: Body, l: nat)
    requires LineEntries(paths, nodes, ls, os) && nodes <= nodes' && l < |nodes'|
    requires nodes'[l].material == CreationLineMaterial(b) && nodes'[l].path == paths(b)
    ensures LineEntries(paths, nodes', ls[b.id := l], os + [b])
  {
    forall id | id in ls[b.id := l]
      ensures LastWithId(os + [b], id).Some? && ls[b.id := l][id] < |nodes'|
      ensures nodes'[ls[b.id := l][id]].material == CreationLineMaterial(LastWithId(os + [b], id).value)
      ensures nodes'[ls[b.id := l][id]].path == paths(LastWithId(os + [b], id).value)
    {
      LastSnoc(os, b, id);
      if id != b.id {
        assert nodes'[ls[id]] == nodes[ls[id]];
      }
    }
  }

  /**
   * `celestialObjects` after the records `data`: its keys are the ids of the
   * rendered records in first-set order, and each names the group built from
   * the last rendered record with that id, whose body shows that record's look.
   */
  ghost predicate GroupsLoaded(data: seq<Body>, w: Tables) {
    && KeysOf(w.celestialObjects, w.celestialOrder, Rendered(data))
    && GroupEntries(w.scene.nodes, w.celestialObjects, Rendered(data))
  }

  /**
   * `orbitLines` after the records `data`: its keys are the ids of the
   * orbiting records in first-set order, and each names the line built from
   * the last orbiting record with that id, through that record's points.
   */
  ghost predicate LinesLoaded(paths: Body -> Option<seq<Vec3>>, data: seq<Body>, w: Tables) {
    && KeysOf(w.orbitLines, w.lineOrder, Orbiting(data))
    && LineEntries(paths, w.scene.nodes, w.orbitLines, Orbiting(data))
  }

  /** `clickableObjects` after the records `data`: the `base` earlier entries, then one group per rendered record. */
  ghost predicate ClickLoaded(data: seq<Body>, w: Tables, base: nat) {
    var rs := Rendered(data);
    && |w.clickable| == base + |rs|
    && forall k :: base <= k < |w.clickable| ==>
         w.clickable[k] < |w.scene.nodes| && w.scene.nodes[w.clickable[k]].tag == Record(rs[k - base])
  }

  ghost predicate Loaded(paths: Body -> Option<seq<Vec3>>, data: seq<Body>, w: Tables, base: nat) {
    GroupsLoaded(data, w) && LinesLoaded(paths, data, w) && ClickLoaded(data, w, base)
  }

  /** Registering a rendered record's group at handle `g` advances `celestialObjects` by that record. */
  lemma GroupsLoadedAdd(data: seq<Body>, b: Body, w: Tables, r: Tables, g: nat)
    requires GroupsLoaded(data, w) && IsRendered(b)
    requires r.celestialObjects == w.celestialObjects[b.id := g] && r.celestialOrder == AppendNew(w.celestialOrder, b.id)
    requires w.scene.nodes <= r.scene.nodes && RecordGroup(r.scene.nodes, g, b)
    ensures GroupsLoaded(data + [b], r)
  {
    RenderedSnoc(data, b);
    KeysStep(w.celestialObjects, w.celestialOrder, Rendered(data), b, g);
    GroupEntriesStep(w.scene.nodes, r.scene.nodes, w.celestialObjects, Rendered(data), b, g);
  }

  lemma GroupsLoadedStep(data: seq<Body>, b: Body, w: Tables, path: Option<seq<Vec3>>)
    requires GraphWf(w.scene) && GroupsLoaded(data, w)
    ensures GroupsLoaded(data + [b], RecordStep(w, b, path))
  {
    if IsRendered(b) {
      RecordStepGroup(w, b, path);
      GroupsLoadedAdd(data, b, w, RecordStep(w, b, path), |w.scene.nodes|);
    } else {
      RenderedSnoc(data, b);
      assert RecordStep(w, b, path) == w && Rendered(data + [b]) == Rendered(data);
    }
  }

  /** Registering an orbiting record's line at handle `l` advances `orbitLines` by that record. */
  lemma LinesLoadedAdd(paths: Body -> Option<seq<Vec3>>, data: seq<Body>, b: Body, w: Tables, r: Tables, l: nat)
    requires LinesLoaded(paths, data, w) && IsOrbiting(b)
    requires r.orbitLines == w.orbitLines[b.id := l] && r.lineOrder == AppendNew(w.lineOrder, b.id)
    requires w.scene.nodes <= r.scene.nodes && RecordLine(r.scene.nodes, l, b, paths(b))
    ensures LinesLoaded(paths, data + [b], r)
  {
    RenderedSnoc(data, b);
    KeysStep(w.orbitLines, w.lineOrder, Orbiting(data), b, l);
    LineEntriesStep(paths, w.scene.nodes, r.scene.nodes, w.orbitLines, Orbiting(data), b, l);
  }

  /** A record without an orbit leaves `orbitLines` as loaded, while the scene only grows. */
  lemma LinesLoadedKeep(paths: Body -> Option<seq<Vec3>>, data: seq<Body>, b: Body, w: Tables, r: Tables)
    requires LinesLoaded(paths, data, w) && !IsOrbiting(b)
    requires r.orbitLines == w.orbitLines && r.lineOrder == w.lineOrder && w.scene.nodes <= r.scene.nodes
    ensures LinesLoaded(paths, data + [b], r)
  {
    RenderedSnoc(data, b);
    var os := Orbiting(data);
    forall id | id in r.orbitLines
      ensures r.scene.nodes[r.orbitLines[id]] == w.scene.nodes[w.orbitLines[id]]
    {
    }
  }

  lemma LinesLoadedStep(paths: Body -> Option<seq<Vec3>>, data: seq<Body>, b: Body, w: Tables)
    requires GraphWf(w.scene) && LinesLoaded(paths, data, w)
    ensures LinesLoaded(paths, data + [b], RecordStep(w, b, paths(b)))
  {
    if IsOrbiting(b) {
      RecordStepLine(w, b, paths(b));
      LinesLoadedAdd(paths, data, b, w, RecordStep(w, b, paths(b)), LineHandle(|w.scene.nodes|, b));
    } else {
      if IsRendered(b) {
        RecordStepGroup(w, b, paths(b));
      }
      LinesLoadedKeep(paths, data, b, w, RecordStep(w, b, paths(b)));
    }
  }

  lemma ClickLoadedStep(data: seq<Body>, b: Body, w: Tables, path: Option<seq<Vec3>>, base: nat)
    requires GraphWf(w.scene) && ClickLoaded(data, w, base)
    ensures ClickLoaded(data + [b], RecordStep(w, b, path), base)
  {
    RenderedSnoc(data, b);
    var r := RecordStep(w, b, path);
    assert forall k :: 0 <= k < |w.clickable| ==> r.clickable[k] == w.clickable[k];
    assert forall h :: 0 <= h < |w.scene.nodes| ==> r.scene.nodes[h] == w.scene.nodes[h];
    if IsRendered(b) {
      RecordStepGroup(w, b, path);
    } else {
      assert r == w && Rendered(data + [b]) == Rendered(data);
    }
  }

  /**
   * The record loop run on empty maps leaves exactly these tables: one group
   * per id of a rendered record, one line per id of an orbiting record, the
   * last record with an id winning, keys in first-set order, and one
   * clickable group per rendered record after the earlier ones.
   */
  lemma {:induction false} RecordsLoaded(paths: Body -> Option<seq<Vec3>>, w: Tables, data: seq<Body>)
    requires GraphWf(w.scene)
    requires w.celestialObjects == map[] && w.celestialOrder == [] && w.orbitLines == map[] && w.lineOrder == []
    ensures Loaded(paths, data, Records(paths, w, data), |w.clickable|)
    decreases |data|
  {
    if data == [] {
    } else {
      var p := data[..|data| - 1];
      var b := data[|data| - 1];
      assert data == p + [b];
      RecordsLoaded(paths, w, p);
      var rp := Records(paths, w, p);
      GroupsLoadedStep(p, b, rp, paths(b));
      LinesLoadedStep(paths, p, b, rp);
      ClickLoadedStep(p, b, rp, paths(b), |w.clickable|);
    }
  }

  lemma IdsOfHas(bs: seq<Body>, id: string)
    ensures id in IdsOf(bs) <==> exists b :: b in bs && b.id == id
  {
    if id in IdsOf(bs) {
      var k :| 0 <= k < |bs| && IdsOf(bs)[k] == id;
      assert bs[k] in bs;
    }
  }

  /**
   * After the record loop, `celestialObjects` has a key for exactly the ids
   * of the star, planet and comet records and `orbitLines` for exactly the
   * ids of the planet and comet records.
   */
  lemma LoadedKeys(paths: Body -> Option<seq<Vec3>>, data: seq<Body>, w: Tables, base: nat)
    requires Loaded(paths, data, w, base)
    ensures forall id :: id in w.celestialObjects <==> exists b :: b in data && IsRendered(b) && b.id == id
    ensures forall id :: id in w.orbitLines <==> exists b :: b in data && IsOrbiting(b) && b.id == id
  {
    forall id
      ensures id in w.celestialObjects <==> exists b :: b in data && IsRendered(b) && b.id == id
      ensures id in w.orbitLines <==> exists b :: b in data && IsOrbiting(b) && b.id == id
    {
      IdsOfHas(Rendered(data), id);
      IdsOfHas(Orbiting(data), id);
    }
  }

  /** Setting the keys of `s` in turn leaves at most `|s|` keys, and fewer when a key repeats. */
  lemma {:induction false} KeyOrderShorter(s: seq<string>)
    ensures |KeyOrder(s)| <= |s|
    ensures !Distinct(s) ==> |KeyOrder(s)| < |s|
    decreases |s|
  {
    if s != [] {
      var p, x := s[..|s| - 1], s[|s| - 1];
      KeyOrderShorter(p);
      if !Distinct(s) && Distinct(p) {
        var i, j :| 0 <= i < j < |s| && s[i] == s[j];
        assert j == |s| - 1 && p[i] == x;
        assert x in KeyOrder(p);
      }
    }
  }

  /**
   * Every rendered record pushes one clickable group, but records sharing an
   * id share one key: with a repeated id there are fewer keys than groups.
   */
  lemma DuplicatesMapOnce(paths: Body -> Option<seq<Vec3>>, data: seq<Body>, w: Tables, base: nat)
    requires Loaded(paths, data, w, base)
    ensures |w.clickable| == base + |Rendered(data)|
    ensures |w.celestialOrder| <= |Rendered(data)|
    ensures !Distinct(IdsOf(Rendered(data))) ==> |w.celestialOrder| < |Rendered(data)|
  {
    KeyOrderShorter(IdsOf(Rendered(data)));
  }

  // ------------------------------------------- the tick and the effects

  /** The handles a `forEach` over `order` visits in `m`. */
  function Visited(m: map<string, nat>, order: seq<string>): (r: set<nat>)
    requires forall k :: 0 <= k < |order| ==> order[k] in m
    ensures forall h :: h in r <==> exists k :: 0 <= k < |order| && m[order[k]] == h
  {
    set k | 0 <= k < |order| :: m[order[k]]
  }

  lemma VisitedSnoc(m: map<string, nat>, order: seq<string>, i: nat)
    requires i < |order| && forall k :: 0 <= k < |order| ==> order[k] in m
    ensures Visited(m, order[..i + 1]) == Visited(m, order[..i]) + {m[order[i]]}
  {
    assert forall k :: 0 <= k < i ==> order[..i + 1][k] == order[..i][k];
    assert order[..i + 1][i] == order[i];
  }

  /** The scene after a tick: every group the tick visits moved, every other node as it was. */
  function TickNodes(t: Fns, days: real, nodes: seq<Node>, visited: set<nat>): (r: seq<Node>)
    ensures |r| == |nodes|
    ensures forall h :: 0 <= h < |nodes| ==> r[h] == if h in visited then Moved(t, days, nodes[h]) else nodes[h]
  {
    seq(|nodes|, (h: int) requires 0 <= h < |nodes| => if h in visited then Moved(t, days, nodes[h]) else nodes[h])
  }

  /** The anchors a tick collects: one per key visited, read from the visited group. */
  function TickLabels(w: Tables): (r: seq<LabelData>)
    requires forall k :: 0 <= k < |w.celestialOrder| ==> w.celestialOrder[k] in w.celestialObjects
    requires GroupsRegistered(w.scene.nodes, w.celestialObjects)
    ensures |r| == |w.celestialOrder|
    ensures forall k :: 0 <= k < |r| ==> r[k] == Anchor(w.scene.nodes[w.celestialObjects[w.celestialOrder[k]]])
    ensures forall k :: 0 <= k < |r| ==> r[k].id == w.celestialOrder[k]
  {
    seq(|w.celestialOrder|, (k: int) requires 0 <= k < |w.celestialOrder| =>
      Anchor(w.scene.nodes[w.celestialObjects[w.celestialOrder[k]]]))
  }

  /** A tick run again at the same time moves nothing further. */
  lemma TickTwice(t: Fns, days: real, nodes: seq<Node>, visited: set<nat>)
    ensures TickNodes(t, days, TickNodes(t, days, nodes, visited), visited) == TickNodes(t, days, nodes, visited)
  {
    var once := TickNodes(t, days, nodes, visited);
    forall h | 0 <= h < |nodes|
      ensures TickNodes(t, days, once, visited)[h] == once[h]
    {
      MovedTwice(t, days, nodes[h]);
    }
  }

  /** A tick changes positions only, so it keeps the tables valid. */
  lemma TickKeepsShape(t: Fns, days: real, w: Tables, owner: map<nat, string>, visited: set<nat>)
    requires Inv(w, owner)
    ensures Inv(w.(scene := w.scene.(nodes := TickNodes(t, days, w.scene.nodes, visited))), owner)
  {
    var gr := w.scene.(nodes := TickNodes(t, days, w.scene.nodes, visited));
    assert forall h :: 0 <= h < |gr.nodes| ==> gr.nodes[h].(position := w.scene.nodes[h].position) == w.scene.nodes[h];
    InvShape(w, gr, owner);
  }

  /** After `i` rounds of the tick's loop: the groups of the first `i` keys moved. */
  ghost predicate MovedNodes(t: Fns, days: real, start: seq<Node>, objects: map<string, nat>, order: seq<string>,
                             i: nat, nodes: seq<Node>)
    requires i <= |order| && forall k :: 0 <= k < |order| ==> order[k] in objects
  {
    && |nodes| == |start|
    && forall h :: 0 <= h < |nodes| ==>
         nodes[h] == if h in Visited(objects, order[..i]) then Moved(t, days, start[h]) else start[h]
  }

  /** ... and their anchors collected. */
  ghost predicate MovedUpTo(t: Fns, days: real, start: seq<Node>, objects: map<string, nat>, order: seq<string>,
                            i: nat, nodes: seq<Node>, labels: seq<LabelData>)
    requires i <= |order| && forall k :: 0 <= k < |order| ==> order[k] in objects
  {
    && MovedNodes(t, days, start, objects, order, i, nodes)
    && |labels| == i
    && (forall k :: 0 <= k < i ==> objects[order[k]] < |nodes| && nodes[objects[order[k]]].tag.Record?
                                   && labels[k] == Anchor(nodes[objects[order[k]]]))
  }

  /** Moving the next key's group: a group already moved stays put, so only that group changes, and only once. */
  lemma MovedNodesStep(t: Fns, days: real, start: seq<Node>, objects: map<string, nat>, order: seq<string>,
                       i: nat, nodes: seq<Node>)
    requires i < |order| && forall k :: 0 <= k < |order| ==> order[k] in objects
    requires GroupsRegistered(start, objects)
    requires MovedNodes(t, days, start, objects, order, i, nodes)
    ensures var g := objects[order[i]];
      && g < |nodes| && Moved(t, days, nodes[g]) == Moved(t, days, start[g]) && start[g].tag.Record?
      && MovedNodes(t, days, start, objects, order, i + 1, nodes[g := Moved(t, days, nodes[g])])
  {
    var g := objects[order[i]];
    var nodes' := nodes[g := Moved(t, days, nodes[g])];
    var before, after := Visited(objects, order[..i]), Visited(objects, order[..i + 1]);
    VisitedSnoc(objects, order, i);
    MovedTwice(t, days, start[g]);
    forall h | 0 <= h < |nodes'|
      ensures nodes'[h] == if h in after then Moved(t, days, start[h]) else start[h]
    {
      if h != g {
        assert nodes'[h] == nodes[h] && (h in after <==> h in before);
      }
    }
  }

  /** After the last round the groups are those the tick function describes. */
  lemma MovedNodesAll(t: Fns, days: real, start: seq<Node>, objects: map<string, nat>, order: seq<string>,
                      nodes: seq<Node>)
    requires forall k :: 0 <= k < |order| ==> order[k] in objects
    requires MovedNodes(t, days, start, objects, order, |order|, nodes)
    ensures nodes == TickNodes(t, days, start, Visited(objects, order))
  {
    assert order[..|order|] == order;
  }

  /** One more round: the next key's group moves and its anchor is pushed. */
  lemma MovedUpToStep(t: Fns, days: real, start: seq<Node>, objects: map<string, nat>, order: seq<string>,
                      i: nat, nodes: seq<Node>, labels: seq<LabelData>)
    requires i < |order| && forall k :: 0 <= k < |order| ==> order[k] in objects
    requires GroupsRegistered(start, objects)
    requires MovedUpTo(t, days, start, objects, order, i, nodes, labels)
    ensures var g := objects[order[i]];
            var nodes' := nodes[g := Moved(t, days, nodes[g])];
      && nodes'[g].tag.Record?
      && MovedUpTo(t, days, start, objects, order, i + 1, nodes', labels + [Anchor(nodes'[g])])
  {
    var g := objects[order[i]];
    MovedNodesStep(t, days, start, objects, order, i, nodes);
    var nodes' := nodes[g := Moved(t, days, nodes[g])];
    assert nodes'[g].tag == start[g].tag;
    forall k | 0 <= k < i
      ensures nodes'[objects[order[k]]] == nodes[objects[order[k]]]
    {
      var gk := objects[order[k]];
      if gk == g {
        MovedTwice(t, days, start[g]);
        assert gk in Visited(objects, order[..i]) by {
          assert order[..i][k] == order[k];
        }
      }
    }
  }

  /** One round of the tick's loop: key `i`'s group moves and its anchor is pushed. */
  method MoveStep(t: Fns, days: real, start: seq<Node>, objects: map<string, nat>, order: seq<string>,
                  i: nat, nodes: seq<Node>, labels: seq<LabelData>)
    returns (nodes': seq<Node>, labels': seq<LabelData>)
    requires i < |order| && forall k :: 0 <= k < |order| ==> order[k] in objects
    requires GroupsRegistered(start, objects)
    requires MovedUpTo(t, days, start, objects, order, i, nodes, labels)
    ensures MovedUpTo(t, days, start, objects, order, i + 1, nodes', labels')
  {
    var g := objects[order[i]];
    MovedUpToStep(t, days, start, objects, order, i, nodes, labels);
    nodes' := nodes[g := Moved(t, days, nodes[g])];
    labels' := labels + [Anchor(nodes'[g])];
  }

  /**
   * `celestialObjects.forEach` in one frame: each visited planet or comet
   * group takes its propagated position (set in place), and each visited
   * group's anchor is pushed once its position is set.
   */
  method MoveAll(t: Fns, days: real, w: Tables) returns (nodes: seq<Node>, labels: seq<LabelData>)
    requires forall k :: 0 <= k < |w.celestialOrder| ==> w.celestialOrder[k] in w.celestialObjects
    requires GroupsRegistered(w.scene.nodes, w.celestialObjects)
    ensures nodes == TickNodes(t, days, w.scene.nodes, Visited(w.celestialObjects, w.celestialOrder))
    ensures |labels| == |w.celestialOrder|
    ensures forall k :: 0 <= k < |labels| ==> labels[k] == Anchor(nodes[w.celestialObjects[w.celestialOrder[k]]])
  {
    var objects, order := w.celestialObjects, w.celestialOrder;
    nodes := w.scene.nodes;
    labels := [];
    for i := 0 to |order|
      invariant MovedUpTo(t, days, w.scene.nodes, objects, order, i, nodes, labels)
    {
      nodes, labels := MoveStep(t, days, w.scene.nodes, objects, order, i, nodes, labels);
    }
    MovedNodesAll(t, days, w.scene.nodes, objects, order, nodes);
  }

  /** The scene after the orbit effect: each visited line takes the opacity of the id it belongs to. */
  ghost function Faded(nodes: seq<Node>, visited: set<nat>, owner: map<nat, string>,
                       selected: Option<string>, hovered: Option<string>): (r: seq<Node>)
    ensures |r| == |nodes|
    ensures forall h :: 0 <= h < |nodes| ==>
      r[h] == if h in visited && h in owner then WithOpacity(nodes[h], OrbitOpacity(owner[h], selected, hovered)) else nodes[h]
  {
    seq(|nodes|, (h: int) requires 0 <= h < |nodes| =>
      if h in visited && h in owner then WithOpacity(nodes[h], OrbitOpacity(owner[h], selected, hovered)) else nodes[h])
  }

  /** The effect depends only on the ids, so running it again changes nothing. */
  lemma FadedTwice(nodes: seq<Node>, visited: set<nat>, owner: map<nat, string>,
                   selected: Option<string>, hovered: Option<string>)
    ensures var once := Faded(nodes, visited, owner, selected, hovered);
      Faded(once, visited, owner, selected, hovered) == once
  {
    var once := Faded(nodes, visited, owner, selected, hovered);
    forall h | 0 <= h < |nodes|
      ensures Faded(once, visited, owner, selected, hovered)[h] == once[h]
    {
      if h in visited && h in owner {
        WithOpacityTwice(nodes[h], OrbitOpacity(owner[h], selected, hovered));
      }
    }
  }

  /** After the effect, each visited line keeps its colour and has the opacity of its id: full exactly when hovered or selected. */
  lemma FadedLine(w: Tables, owner: map<nat, string>, selected: Option<string>, hovered: Option<string>, k: nat)
    requires Inv(w, owner) && k < |w.lineOrder|
    ensures var l := w.orbitLines[w.lineOrder[k]];
            var r := Faded(w.scene.nodes, Visited(w.orbitLines, w.lineOrder), owner, selected, hovered);
      && l < |r| && r[l].material.LineBasic?
      && r[l].material.color == w.scene.nodes[l].material.color
      && r[l].material.opacity == OrbitOpacity(w.lineOrder[k], selected, hovered)
      && (r[l].material.opacity == 1.0 <==> hovered == Some(w.lineOrder[k]) || selected == Some(w.lineOrder[k]))
  {
  }

  /** The orbit effect changes line opacities only, so it keeps the tables valid. */
  lemma FadedKeepsShape(w: Tables, owner: map<nat, string>, selected: Option<string>, hovered: Option<string>)
    requires Inv(w, owner)
    ensures Inv(w.(scene := w.scene.(nodes := Faded(w.scene.nodes, Visited(w.orbitLines, w.lineOrder), owner, selected, hovered))), owner)
  {
    var gr := w.scene.(nodes := Faded(w.scene.nodes, Visited(w.orbitLines, w.lineOrder), owner, selected, hovered));
    InvShape(w, gr, owner);
  }

  /** After `i` rounds of the orbit effect's loop: the lines of the first `i` keys faded. */
  ghost predicate FadedUpTo(start: seq<Node>, lines: map<string, nat>, order: seq<string>, owner: map<nat, string>,
                            selected: Option<string>, hovered: Option<string>, i: nat, nodes: seq<Node>)
    requires i <= |order| && forall k :: 0 <= k < |order| ==> order[k] in lines
  {
    && |nodes| == |start|
    && forall h :: 0 <= h < |nodes| ==>
         nodes[h] == if h in Visited(lines, order[..i]) && h in owner
                     then WithOpacity(start[h], OrbitOpacity(owner[h], selected, hovered)) else start[h]
  }

  lemma FadedUpToStep(start: seq<Node>, lines: map<string, nat>, order: seq<string>, owner: map<nat, string>,
                      selected: Option<string>, hovered: Option<string>, i: nat, nodes: seq<Node>)
    requires i < |order| && forall k :: 0 <= k < |order| ==> order[k] in lines
    requires LinesRegistered(start, lines, owner)
    requires FadedUpTo(start, lines, order, owner, selected, hovered, i, nodes)
    ensures var l := lines[order[i]];
      && l < |nodes|
      && FadedUpTo(start, lines, order, owner, selected, hovered, i + 1,
                   nodes[l := WithOpacity(nodes[l], OrbitOpacity(order[i], selected, hovered))])
  {
    var l := lines[order[i]];
    VisitedSnoc(lines, order, i);
    WithOpacityTwice(start[l], OrbitOpacity(order[i], selected, hovered));
  }

  lemma FadedUpToAll(start: seq<Node>, lines: map<string, nat>, order: seq<string>, owner: map<nat, string>,
                     selected: Option<string>, hovered: Option<string>, nodes: seq<Node>)
    requires forall k :: 0 <= k < |order| ==> order[k] in lines
    requires FadedUpTo(start, lines, order, owner, selected, hovered, |order|, nodes)
    ensures nodes == Faded(start, Visited(lines, order), owner, selected, hovered)
  {
    assert order[..|order|] == order;
  }

  /** One round of the orbit effect's loop: the line of key `i` takes its opacity. */
  method FadeStep(start: seq<Node>, lines: map<string, nat>, order: seq<string>, ghost owner: map<nat, string>,
                  selected: Option<string>, hovered: Option<string>, i: nat, nodes: seq<Node>)
    returns (next: seq<Node>)
    requires i < |order| && forall k :: 0 <= k < |order| ==> order[k] in lines
    requires LinesRegistered(start, lines, owner)
    requires FadedUpTo(start, lines, order, owner, selected, hovered, i, nodes)
    ensures FadedUpTo(start, lines, order, owner, selected, hovered, i + 1, next)
  {
    var l := lines[order[i]];
    FadedUpToStep(start, lines, order, owner, selected, hovered, i, nodes);
    next := nodes[l := WithOpacity(nodes[l], OrbitOpacity(order[i], selected, hovered))];
  }

  /**
   * `orbitLines.forEach`: every line with a line material takes opacity 1.0
   * when its id is hovered or selected and its base opacity otherwise.
   */
  method FadeAll(w: Tables, ghost owner: map<nat, string>, selected: Option<string>, hovered: Option<string>)
    returns (nodes: seq<Node>)
    requires forall k :: 0 <= k < |w.lineOrder| ==> w.lineOrder[k] in w.orbitLines
    requires LinesRegistered(w.scene.nodes, w.orbitLines, owner)
    ensures nodes == Faded(w.scene.nodes, Visited(w.orbitLines, w.lineOrder), owner, selected, hovered)
  {
    var lines, order := w.orbitLines, w.lineOrder;
    nodes := w.scene.nodes;
    for i := 0 to |order|
      invariant FadedUpTo(w.scene.nodes, lines, order, owner, selected, hovered, i, nodes)
    {
      nodes := FadeStep(w.scene.nodes, lines, order, owner, selected, hovered, i, nodes);
    }
    FadedUpToAll(w.scene.nodes, lines, order, owner, selected, hovered, nodes);
  }

  /**
   * The selection effect at handle `h`: the body mesh right after a visited
   * group takes the glow of the group's record, selected when that record's
   * id is the selected one; any other node is left alone.
   */
  ghost function LitAt(nodes: seq<Node>, groups: set<nat>, selected: Option<string>, h: nat): (r: Node)
    requires h < |nodes|
  {
    if 1 <= h && h - 1 in groups && nodes[h - 1].tag.Record?
    then Glowing(nodes[h], nodes[h - 1].tag.body, selected == Some(nodes[h - 1].tag.body.id))
    else nodes[h]
  }

  /** The scene after the selection effect. */
  ghost function Lit(nodes: seq<Node>, groups: set<nat>, selected: Option<string>): (r: seq<Node>)
    ensures |r| == |nodes| && forall h :: 0 <= h < |nodes| ==> r[h] == LitAt(nodes, groups, selected, h)
  {
    seq(|nodes|, (h: int) requires 0 <= h < |nodes| => LitAt(nodes, groups, selected, h))
  }

  /** The effect changes materials only. */
  lemma LitKeepsShape(nodes: seq<Node>, groups: set<nat>, selected: Option<string>, h: nat)
    requires h < |nodes|
    ensures LitAt(nodes, groups, selected, h).(material := nodes[h].material) == nodes[h]
  {
  }

  /** The effect depends only on the selected id, so running it again changes nothing. */
  lemma LitTwice(nodes: seq<Node>, groups: set<nat>, selected: Option<string>)
    ensures Lit(Lit(nodes, groups, selected), groups, selected) == Lit(nodes, groups, selected)
  {
    var once := Lit(nodes, groups, selected);
    forall h | 0 <= h < |nodes|
      ensures LitAt(once, groups, selected, h) == once[h]
    {
      if 1 <= h {
        LitKeepsShape(nodes, groups, selected, h - 1);
        assert once[h - 1].tag == nodes[h - 1].tag;
        if h - 1 in groups && nodes[h - 1].tag.Record? {
          GlowingTwice(nodes[h], nodes[h - 1].tag.body, selected == Some(nodes[h - 1].tag.body.id));
        }
      }
    }
  }

  /** After the effect, the body of each visited record glows as the effect says for that record and the selected id. */
  lemma LitBody(w: Tables, owner: map<nat, string>, selected: Option<string>, k: nat)
    requires Inv(w, owner) && k < |w.celestialOrder|
    ensures var id := w.celestialOrder[k];
            var g := w.celestialObjects[id];
            var b := w.scene.nodes[g].tag.body;
      && g + 1 < |w.scene.nodes| && w.scene.nodes[g].tag.Record? && b.id == id
      && Lit(w.scene.nodes, Visited(w.celestialObjects, w.celestialOrder), selected)[g + 1]
         == Glowing(w.scene.nodes[g + 1], b, selected == Some(id))
  {
  }

  /** The selection effect changes materials only, so it keeps the tables valid. */
  lemma LitKeepsInv(w: Tables, owner: map<nat, string>, selected: Option<string>)
    requires Inv(w, owner)
    ensures Inv(w.(scene := w.scene.(nodes := Lit(w.scene.nodes, Visited(w.celestialObjects, w.celestialOrder), selected))), owner)
  {
    var groups := Visited(w.celestialObjects, w.celestialOrder);
    var gr := w.scene.(nodes := Lit(w.scene.nodes, groups, selected));
    forall h | 0 <= h < |gr.nodes|
      ensures gr.nodes[h].(material := w.scene.nodes[h].material) == w.scene.nodes[h]
    {
      LitKeepsShape(w.scene.nodes, groups, selected, h);
    }
    InvShape(w, gr, owner);
  }

  /** After `i` rounds of the selection effect's loop: the bodies of the first `i` keys' groups lit. */
  ghost predicate LitUpTo(start: seq<Node>, objects: map<string, nat>, order: seq<string>,
                          selected: Option<string>, i: nat, nodes: seq<Node>)
    requires i <= |order| && forall k :: 0 <= k < |order| ==> order[k] in objects
  {
    && |nodes| == |start|
    && forall h :: 0 <= h < |nodes| ==> nodes[h] == LitAt(start, Visited(objects, order[..i]), selected, h)
  }

  /** Before its round, a key's group is untouched and its first mesh child is the body right after it. */
  lemma LitGroupAt(start: seq<Node>, objects: map<string, nat>, order: seq<string>,
                   selected: Option<string>, i: nat, nodes: seq<Node>)
    requires i < |order| && forall k :: 0 <= k < |order| ==> order[k] in objects
    requires GroupsRegistered(start, objects)
    requires LitUpTo(start, objects, order, selected, i, nodes)
    ensures var g := objects[order[i]];
      && g + 1 < |nodes| && nodes[g].tag == start[g].tag && start[g].tag.Record? && start[g].tag.body.id == order[i]
      && (forall k :: 0 <= k < |nodes[g].children| ==> nodes[g].children[k] < |nodes|)
      && FirstMesh(nodes, nodes[g].children) == Some(g + 1)
  {
    var g := objects[order[i]];
    LitKeepsShape(start, Visited(objects, order[..i]), selected, g);
    LitKeepsShape(start, Visited(objects, order[..i]), selected, g + 1);
  }

  lemma LitUpToStep(start: seq<Node>, objects: map<string, nat>, order: seq<string>,
                    selected: Option<string>, i: nat, nodes: seq<Node>)
    requires i < |order| && forall k :: 0 <= k < |order| ==> order[k] in objects
    requires GroupsRegistered(start, objects)
    requires LitUpTo(start, objects, order, selected, i, nodes)
    ensures var g := objects[order[i]];
      && g + 1 < |nodes| && start[g].tag.Record?
      && LitUpTo(start, objects, order, selected, i + 1,
                 nodes[g + 1 := Glowing(nodes[g + 1], start[g].tag.body, selected == Some(order[i]))])
  {
    var g := objects[order[i]];
    LitGroupAt(start, objects, order, selected, i, nodes);
    VisitedSnoc(objects, order, i);
    var glow := selected == Some(order[i]);
    GlowingTwice(start[g + 1], start[g].tag.body, glow);
    LitAdd(start, Visited(objects, order[..i]), selected, g, nodes, Glowing(nodes[g + 1], start[g].tag.body, glow));
  }

  /** Adding group `g` to the visited ones changes the effect at `g + 1` only. */
  lemma LitAdd(start: seq<Node>, before: set<nat>, selected: Option<string>, g: nat, nodes: seq<Node>, n: Node)
    requires g + 1 < |start| == |nodes| && start[g].tag.Record?
    requires forall h :: 0 <= h < |nodes| ==> nodes[h] == LitAt(start, before, selected, h)
    requires n == LitAt(start, before + {g}, selected, g + 1)
    ensures forall h :: 0 <= h < |nodes| ==> nodes[g + 1 := n][h] == LitAt(start, before + {g}, selected, h)
  {
    forall h | 0 <= h < |nodes| && h != g + 1
      ensures nodes[h] == LitAt(start, before + {g}, selected, h)
    {
      assert !(1 <= h && h - 1 == g);
    }
  }

  lemma LitUpToAll(start: seq<Node>, objects: map<string, nat>, order: seq<string>,
                   selected: Option<string>, nodes: seq<Node>)
    requires forall k :: 0 <= k < |order| ==> order[k] in objects
    requires LitUpTo(start, objects, order, selected, |order|, nodes)
    ensures nodes == Lit(start, Visited(objects, order), selected)
  {
    assert order[..|order|] == order;
  }

  /** One round of the selection effect's loop: the first mesh child of key `i`'s group takes its glow. */
  method LightStep(start: seq<Node>, objects: map<string, nat>, order: seq<string>,
                   selected: Option<string>, i: nat, nodes: seq<Node>)
    returns (next: seq<Node>)
    requires i < |order| && forall k :: 0 <= k < |order| ==> order[k] in objects
    requires GroupsRegistered(start, objects)
    requires LitUpTo(start, objects, order, selected, i, nodes)
    ensures LitUpTo(start, objects, order, selected, i + 1, next)
  {
    var id := order[i];
    var obj := objects[id];
    LitGroupAt(start, objects, order, selected, i, nodes);
    LitUpToStep(start, objects, order, selected, i, nodes);
    next := nodes;
    var body := FirstMesh(nodes, nodes[obj].children);
    if body.Some? {
      next := nodes[body.value := Glowing(nodes[body.value], nodes[obj].tag.body, selected == Some(id))];
    }
  }

  /**
   * `celestialObjects.forEach` of the selection effect: the first mesh child
   * of each visited group takes the glow of the group's record.
   */
  method LightAll(w: Tables, selected: Option<string>) returns (nodes: seq<Node>)
    requires forall k :: 0 <= k < |w.celestialOrder| ==> w.celestialOrder[k] in w.celestialObjects
    requires GroupsRegistered(w.scene.nodes, w.celestialObjects)
    ensures nodes == Lit(w.scene.nodes, Visited(w.celestialObjects, w.celestialOrder), selected)
  {
    var objects, order := w.celestialObjects, w.celestialOrder;
    nodes := w.scene.nodes;
    for i := 0 to |order|
      invariant LitUpTo(w.scene.nodes, objects, order, selected, i, nodes)
    {
      nodes := LightStep(w.scene.nodes, objects, order, selected, i, nodes);
    }
    LitUpToAll(w.scene.nodes, objects, order, selected, nodes);
  }

  // ------------------------------------------------------------- the class

  /** The component's mutable state: the scene and the registries its effects fill and read. */
  class Scene {
    var scene: Graph
    var celestialObjects: map<string, nat>
    var celestialOrder: seq<string>
    var orbitLines: map<string, nat>
    var lineOrder: seq<string>
    var clickable: seq<nat>
    /** The id each orbit line was registered under. */
    ghost var lineOwner: map<nat, string>

    /** The fields as a value. */
    function State(): Tables
      reads this
    {
      Tables(scene, celestialObjects, celestialOrder, orbitLines, lineOrder, clickable)
    }

    ghost predicate Valid()
      reads this
    {
      Inv(State(), lineOwner)
    }

    /** `new THREE.Scene()` with empty registries. */
    constructor ()
      ensures Valid() && State() == Tables(EmptyScene, map[], [], map[], [], [])
    {
      scene := EmptyScene;
      celestialObjects := map[];
      celestialOrder := [];
      orbitLines := map[];
      lineOrder := [];
      lineOwner := map[];
      clickable := [];
    }

    /**
     * The teardown loop: every scene child is removed, and disposed when
     * it is a mesh, points or line. Objects nested in groups stay as they
     * are, linked to their (removed) parents.
     */
    method Teardown()
      requires Valid()
      modifies this
      ensures Valid() && State() == old(State()).(scene := scene)
      ensures scene.top == [] && |scene.nodes| == |old(scene.nodes)|
      ensures forall h :: 0 <= h < |scene.nodes| ==>
        scene.nodes[h] == if h in old(scene.top) then Detach(old(scene.nodes)[h]) else old(scene.nodes)[h]
    {
      ghost var top0 := scene.top;
      ghost var nodes0 := scene.nodes;
      ghost var done := 0;
      while |scene.top| > 0
        invariant GraphWf(scene)
        invariant 0 <= done <= |top0| && scene.top == top0[done..] && |scene.nodes| == |nodes0|
        invariant forall h :: 0 <= h < |nodes0| ==>
          scene.nodes[h] == if h in top0[..done] then Detach(nodes0[h]) else nodes0[h]
        invariant State() == old(State()).(scene := scene) && lineOwner == old(lineOwner)
        decreases |scene.top|
      {
        var child := scene.top[0];
        assert child == top0[done];
        assert top0[..done + 1] == top0[..done] + [child];
        DetachTwice(nodes0[child]);
        scene := RemoveFirstChild(scene);
        done := done + 1;
      }
      assert top0[..done] == top0;
      InvShape(old(State()), scene, lineOwner);
    }

    /** `celestialObjects.clear()`, `clickableObjects.length = 0`, `orbitLines.clear()`. */
    method ClearRegistries()
      requires Valid()
      modifies this
      ensures Valid() && State() == Tables(old(scene), map[], [], map[], [], [])
    {
      celestialObjects := map[];
      clickable := [];
      orbitLines := map[];
      celestialOrder := [];
      lineOrder := [];
    }

    /**
     * The lights, the dust cloud and the main and outer belt groups, the last
     * three also made clickable. `meteorSpot` and `kuiperSpot` are the drawn
     * meteor positions.
     */
    method AddBelts(meteorSpot: nat -> Vec3, kuiperSpot: nat -> Vec3)
      requires Valid()
      modifies this
      ensures Valid() && old(scene.nodes) <= scene.nodes
      ensures var n := |old(scene.nodes)|;
        && n + 4 + MeteorCount < |scene.nodes|
        && scene.top == old(scene.top) + [n, n + 1, n + 2, n + 3, n + 4 + MeteorCount]
        && clickable == old(clickable) + [n + 2, n + 3, n + 4 + MeteorCount]
        && scene.nodes[n + 2] == Node(PointsObj, Belt("Asteroid Belt"), InScene, [], CreationBeltDust, Origin, None, false)
        && scene.nodes[n + 3] ==
             Node(GroupObj, Belt("Asteroid Belt"), InScene, MeteorHandles(n + 3, MeteorCount), NoMaterial, Origin, None, false)
        && scene.nodes[n + 4 + MeteorCount] ==
             Node(GroupObj, Belt("Outer Belt"), InScene, MeteorHandles(n + 4 + MeteorCount, KuiperCount), NoMaterial, Origin, None, false)
      ensures celestialObjects == old(celestialObjects) && celestialOrder == old(celestialOrder)
      ensures orbitLines == old(orbitLines) && lineOrder == old(lineOrder)
    {
      var n := |scene.nodes|;
      var gr := BuildBelts(scene, meteorSpot, kuiperSpot);
      InvExtend(State(), gr, lineOwner);
      scene, clickable := gr, clickable + [n + 2, n + 3, n + 4 + MeteorCount];
    }

    /** A star record: its group is added to the scene, registered and made clickable. */
    method AddStar(b: Body, ghost path: Option<seq<Vec3>>)
      requires GraphWf(scene) && b.kind == Star
      modifies this
      ensures State() == RecordStep(old(State()), b, path) && lineOwner == old(lineOwner)
    {
      var g := |scene.nodes|;
      scene, celestialObjects, celestialOrder, clickable :=
        StarRecord(scene, b), celestialObjects[b.id := g], AppendNew(celestialOrder, b.id), clickable + [g];
    }

    /** A planet or comet record: its line through `path` and then its group are added to the scene and registered. */
    method AddPlanet(b: Body, path: Option<seq<Vec3>>)
      requires GraphWf(scene) && IsOrbiting(b)
      modifies this
      ensures State() == RecordStep(old(State()), b, path)
      ensures lineOwner == old(lineOwner)[LineHandle(|old(scene.nodes)|, b) := b.id]
    {
      ghost var w := State();
      PlanetStep(w, b, path);
      var g := |scene.nodes|;
      var l := LineHandle(g, b);
      scene, orbitLines, lineOrder, lineOwner, celestialObjects, celestialOrder, clickable :=
        PlanetRecord(scene, b, path), orbitLines[b.id := l], AppendNew(lineOrder, b.id), lineOwner[l := b.id],
        celestialObjects[b.id := g], AppendNew(celestialOrder, b.id), clickable + [g];
    }

    /** One round of `data.forEach`, with the orbit line's points from the sampler's loop. */
    method AddRecord(t: Fns, b: Body)
      requires Valid()
      modifies this
      ensures Valid() && State() == RecordStep(old(State()), b, OrbitPoints(t, b))
    {
      ghost var w, owner, p := State(), lineOwner, OrbitPoints(t, b);
      if b.kind == Star {
        AddStar(b, p);
      } else if b.kind == Planet || b.kind == Comet {
        var path := OrbitPath(t, b);
        AddPlanet(b, path);
      }
      InvRecordStep(w, owner, b, p);
    }

    /** `data.forEach(...)`: the records in data order. */
    method AddRecords(t: Fns, data: seq<Body>)
      requires Valid()
      modifies this
      ensures Valid() && State() == Records(OrbitPointsOf(t), old(State()), data)
    {
      ghost var w0 := State();
      for i := 0 to |data|
        invariant Valid() && State() == Records(OrbitPointsOf(t), w0, data[..i])
      {
        assert data[..i + 1][..i] == data[..i];
        AddRecord(t, data[i]);
      }
      assert data[..|data|] == data;
    }

    /**
     * One animation frame, `now - start` milliseconds into the animation:
     * the planets and comets move and every group's label anchor is collected.
     */
    method Tick(t: Fns, now: int, start: int) returns (labels: seq<LabelData>)
      requires Valid()
      modifies this
      ensures Valid() && State() == old(State()).(scene := scene) && lineOwner == old(lineOwner)
      ensures scene == old(scene).(nodes := TickNodes(t, ElapsedDays(now, start), old(scene.nodes),
                                                      Visited(celestialObjects, celestialOrder)))
      ensures labels == TickLabels(State())
    {
      var days := ElapsedDays(now, start);
      var nodes;
      nodes, labels := MoveAll(t, days, State());
      TickKeepsShape(t, days, State(), lineOwner, Visited(celestialObjects, celestialOrder));
      scene := scene.(nodes := nodes);
    }

    /** The orbit effect, run when the hovered or selected id changes. */
    method ApplyOrbitOpacity(selected: Option<string>, hovered: Option<string>)
      requires Valid()
      modifies this
      ensures Valid() && State() == old(State()).(scene := scene) && lineOwner == old(lineOwner)
      ensures scene == old(scene).(nodes := Faded(old(scene.nodes), Visited(orbitLines, lineOrder), lineOwner, selected, hovered))
    {
      var nodes := FadeAll(State(), lineOwner, selected, hovered);
      FadedKeepsShape(State(), lineOwner, selected, hovered);
      scene := scene.(nodes := nodes);
    }

    /** The selection effect on the registered bodies, run when the selected id changes. */
    method ApplySelection(selected: Option<string>)
      requires Valid()
      modifies this
      ensures Valid() && State() == old(State()).(scene := scene) && lineOwner == old(lineOwner)
      ensures scene == old(scene).(nodes := Lit(old(scene.nodes), Visited(celestialObjects, celestialOrder), selected))
    {
      var nodes := LightAll(State(), selected);
      LitKeepsInv(State(), lineOwner, selected);
      scene := scene.(nodes := nodes);
    }

    /** The rebuild effect's first half: tear down, clear the registries, add the lights and belts. */
    method ResetScene(meteorSpot: nat -> Vec3, kuiperSpot: nat -> Vec3)
      requires Valid()
      modifies this
      ensures Valid()
      ensures celestialObjects == map[] && celestialOrder == [] && orbitLines == map[] && lineOrder == []
      ensures var n := |old(scene.nodes)|;
        && n + 4 + MeteorCount < |scene.nodes|
        && (forall h :: 0 <= h < n ==>
              scene.nodes[h] == if h in old(scene.top) then Detach(old(scene.nodes)[h]) else old(scene.nodes)[h])
        && scene.top == [n, n + 1, n + 2, n + 3, n + 4 + MeteorCount]
        && clickable == [n + 2, n + 3, n + 4 + MeteorCount]
        && scene.nodes[n + 2] == Node(PointsObj, Belt("Asteroid Belt"), InScene, [], CreationBeltDust, Origin, None, false)
        && scene.nodes[n + 3].tag == Belt("Asteroid Belt")
        && scene.nodes[n + 4 + MeteorCount].tag == Belt("Outer Belt")
    {
      Teardown();
      ClearRegistries();
      AddBelts(meteorSpot, kuiperSpot);
    }

    /**
     * The rebuild effect: the scene is torn down, the registries cleared,
     * the lights and belts added and then one group (and, for planets and
     * comets, an orbit line) per record of `data`.
     */
    method Rebuild(t: Fns, data: seq<Body>, meteorSpot: nat -> Vec3, kuiperSpot: nat -> Vec3)
      requires Valid()
      modifies this
      ensures Valid() && Loaded(OrbitPointsOf(t), data, State(), 3)
      ensures var n := |old(scene.nodes)|;
        && n + 4 + MeteorCount < |scene.nodes|
        && (forall h :: 0 <= h < n ==>
              scene.nodes[h] == if h in old(scene.top) then Detach(old(scene.nodes)[h]) else old(scene.nodes)[h])
        && |scene.top| >= 5 && |clickable| >= 3
        && scene.top[..5] == [n, n + 1, n + 2, n + 3, n + 4 + MeteorCount]
        && clickable[..3] == [n + 2, n + 3, n + 4 + MeteorCount]
        && scene.nodes[n + 2] == Node(PointsObj, Belt("Asteroid Belt"), InScene, [], CreationBeltDust, Origin, None, false)
        && scene.nodes[n + 3].tag == Belt("Asteroid Belt")
        && scene.nodes[n + 4 + MeteorCount].tag == Belt("Outer Belt")
    {
      ResetScene(meteorSpot, kuiperSpot);
      ghost var wb := State();
      AddRecords(t, data);
      RecordsLoaded(OrbitPointsOf(t), wb, data);
      assert scene.top[..5] == wb.scene.top && clickable[..3] == wb.clickable;
    }
  }
}
