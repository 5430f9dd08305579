/**
 * The scene graph as the component sees it: every object ever created is a
 * node under a numeric handle, with a parent link, its children, its
 * material and its `userData` tag. Handles are handed out in creation order
 * and an object is only ever hung under one created before it, so a
 * parent's handle is smaller than its child's.
 */
module SceneGraph {
  import opened Common
  import opened Bodies

  datatype ObjKind = GroupObj | MeshObj | PointsObj | LineObj | LightObj

  /** A colour as given to three.js: a hex number or a CSS colour string. */
  datatype Color = Hex(rgb: nat) | Css(spec: string)

  datatype Material =
    | NoMaterial
    | Standard(color: Color, emissive: Color, emissiveIntensity: real)
    | Basic(color: Color, opacity: real)
    | LineBasic(color: Color, opacity: real)
    | PointsMat(color: Color, opacity: real)

  /** What `userData` holds: a copy of the record, a belt tag, or the body-mesh marker. */
  datatype Tag = Untagged | Record(body: Body) | Belt(name: string) | PlanetBody

  /**
   * Where an object hangs: nowhere (never added, or removed again), directly
   * in the scene (its parent is the scene object), or under another object.
   */
  datatype Parent = Detached | InScene | Under(handle: nat)

  datatype Node = Node(
    kind: ObjKind,
    tag: Tag,
    parent: Parent,
    children: seq<nat>,
    material: Material,
    position: Vec3,
    path: Option<seq<Vec3>>,   // a line's points; None where the source computes NaN
    disposed: bool)

  const BeltId: string := "asteroid_belt"

  /** `userData.id`. */
  function IdOf(n: Node): (r: Option<string>)
    ensures n.tag.Record? ==> r == Some(n.tag.body.id)
    ensures n.tag.Belt? ==> r == Some(BeltId)
    ensures n.tag.Untagged? || n.tag.PlanetBody? ==> r == None
  {
    match n.tag
    case Record(b) => Some(b.id)
    case Belt(_) => Some(BeltId)
    case _ => None
  }

  /** JavaScript truthiness of an optional string: present and non-empty. */
  predicate Truthy(id: Option<string>) {
    id.Some? && id.value != ""
  }

  /** Every object hung under another one was created after it. */
  predicate Linked(g: seq<Node>) {
    forall h :: 0 <= h < |g| && g[h].parent.Under? ==> g[h].parent.handle < h
  }

  /** A fresh, unattached object with no children, at the origin. */
  function NewNode(kind: ObjKind, tag: Tag, material: Material): (n: Node)
    ensures n.parent.Detached? && n.children == [] && n.position == Origin && !n.disposed
    ensures n.kind == kind && n.tag == tag && n.material == material && n.path.None?
  {
    Node(kind, tag, Detached, [], material, Origin, None, false)
  }

  // ------------------------------------------------------- the graph value

  /**
   * Every object ever created, by handle (handles are handed out in creation
   * order, so the next one is `|nodes|`), and `scene.children`: the objects
   * added directly to the scene, in order. The scene object itself has no
   * `userData` id and no parent.
   */
  datatype Graph = Graph(nodes: seq<Node>, top: seq<nat>)

  /** A fresh `THREE.Scene` before anything is added. */
  const EmptyScene: Graph := Graph([], [])

  /**
   * The graph's shape: parents created before their children, every listed
   * child exists, and every scene child exists and hangs under no other object.
   */
  ghost predicate GraphWf(gr: Graph) {
    && Linked(gr.nodes)
    && (forall h, k :: 0 <= h < |gr.nodes| && 0 <= k < |gr.nodes[h].children| ==> gr.nodes[h].children[k] < |gr.nodes|)
    && (forall k :: 0 <= k < |gr.top| ==> gr.top[k] < |gr.nodes| && !gr.nodes[gr.top[k]].parent.Under?)
  }

  lemma EmptySceneWf()
    ensures GraphWf(EmptyScene)
  {
  }

  /** Appending nodes whose parents come before them and whose children lie in the result keeps the graph well formed. */
  lemma AppendWf(gr: Graph, extra: seq<Node>)
    requires GraphWf(gr)
    requires forall j :: 0 <= j < |extra| && extra[j].parent.Under? ==> extra[j].parent.handle < |gr.nodes| + j
    requires forall j, k :: 0 <= j < |extra| && 0 <= k < |extra[j].children| ==> extra[j].children[k] < |gr.nodes| + |extra|
    ensures GraphWf(Graph(gr.nodes + extra, gr.top))
  {
    var g, ns := |gr.nodes|, gr.nodes + extra;
    forall h | 0 <= h < |ns|
      ensures ns[h].parent.Under? ==> ns[h].parent.handle < h
      ensures forall k :: 0 <= k < |ns[h].children| ==> ns[h].children[k] < |ns|
    {
      if h < g {
        assert ns[h] == gr.nodes[h];
      } else {
        assert ns[h] == extra[h - g];
      }
    }
    assert forall k :: 0 <= k < |gr.top| ==> ns[gr.top[k]] == gr.nodes[gr.top[k]];
  }

  /** `new THREE.X(...)`: a fresh, unattached object gets the next handle. */
  function Create(gr: Graph, n: Node): (r: Graph)
    requires GraphWf(gr) && n.parent.Detached? && n.children == []
    ensures GraphWf(r) && r.nodes == gr.nodes + [n] && r.top == gr.top
  {
    Graph(gr.nodes + [n], gr.top)
  }

  /** `scene.add(obj)` for an object that hangs nowhere yet. */
  function AddTop(gr: Graph, h: nat): (r: Graph)
    requires GraphWf(gr) && h < |gr.nodes| && gr.nodes[h].parent.Detached?
    ensures GraphWf(r) && |r.nodes| == |gr.nodes|
    ensures r.nodes == gr.nodes[h := gr.nodes[h].(parent := InScene)]
    ensures r.top == gr.top + [h]
  {
    Graph(gr.nodes[h := gr.nodes[h].(parent := InScene)], gr.top + [h])
  }

  /** Removing an object from its parent: unparented, and disposed when it is a Mesh, Points or Line. */
  function Detach(n: Node): (r: Node)
    ensures r.parent.Detached?
    ensures r.disposed <==> n.disposed || n.kind in {MeshObj, PointsObj, LineObj}
    ensures r.(parent := n.parent, disposed := n.disposed) == n
  {
    n.(parent := Detached, disposed := n.disposed || n.kind == MeshObj || n.kind == PointsObj || n.kind == LineObj)
  }

  lemma DetachTwice(n: Node)
    ensures Detach(Detach(n)) == Detach(n)
  {
  }

  /** One round of the teardown loop: `scene.remove(scene.children[0])` and its disposal. */
  function RemoveFirstChild(gr: Graph): (r: Graph)
    requires GraphWf(gr) && |gr.top| > 0
    ensures GraphWf(r) && |r.nodes| == |gr.nodes| && r.top == gr.top[1..]
    ensures r.nodes == gr.nodes[gr.top[0] := Detach(gr.nodes[gr.top[0]])]
  {
    var c := gr.top[0];
    Graph(gr.nodes[c := Detach(gr.nodes[c])], gr.top[1..])
  }
}
