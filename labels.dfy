/**
 * The label projector: label anchors are projected to the screen, anchors
 * behind the camera are dropped, the rest are ordered planets first and
 * nearer first, and a greedy pass keeps a label only when it is at least
 * 20 px from every label already kept.
 */
module Labels {
  import opened Common
  import opened Bodies
  import opened Trig

  /** A label anchor as the tick pushes it: world position raised by the body's size. */
  datatype LabelData = LabelData(id: string, name: string, color: string, position: Vec3, kind: Kind)

  /** A label with its pixel position. */
  datatype ScreenLabel = ScreenLabel(anchor: LabelData, screenX: real, screenY: real)

  /** The active camera: its projection into normalised device coordinates and its position. */
  datatype Camera = Camera(project: Vec3 -> Vec3, position: Vec3)

  /** The mount element's client width and height in pixels. */
  datatype Viewport = Viewport(width: real, height: real)

  /** Minimum pixel distance between two displayed labels. */
  const LabelSpacing: real := 20.0

  // ------------------------------------------------------- projection

  /** An anchor is dropped when its projected depth is beyond 1 (behind the camera). */
  predicate Visible(cam: Camera, l: LabelData) {
    cam.project(l.position).z <= 1.0
  }

  /** NDC to pixels: x from [-1, 1] to [0, width], y flipped to [height, 0]. */
  function ToScreen(cam: Camera, vp: Viewport, l: LabelData): ScreenLabel {
    var v := cam.project(l.position);
    ScreenLabel(l, (v.x + 1.0) / 2.0 * vp.width, (-v.y + 1.0) / 2.0 * vp.height)
  }

  /** The map-then-filter over the anchors. */
  function ScreenLabels(cam: Camera, vp: Viewport, ls: seq<LabelData>): (r: seq<ScreenLabel>)
    ensures |r| <= |ls|
    ensures forall k :: 0 <= k < |r| ==>
      r[k].anchor in ls && Visible(cam, r[k].anchor) && r[k] == ToScreen(cam, vp, r[k].anchor)
    ensures forall l :: l in ls && Visible(cam, l) ==> ToScreen(cam, vp, l) in r
  {
    if ls == [] then []
    else
      var rest := ScreenLabels(cam, vp, ls[1..]);
      assert forall l :: l in ls[1..] ==> l in ls;
      if Visible(cam, ls[0]) then [ToScreen(cam, vp, ls[0])] + rest else rest
  }

  /** One anchor survives exactly when it is visible, at its pixel position. */
  lemma ScreenLabelsOne(cam: Camera, vp: Viewport, l: LabelData)
    ensures ScreenLabels(cam, vp, [l]) == if Visible(cam, l) then [ToScreen(cam, vp, l)] else []
  {
    assert [l][1..] == [];
  }

  /** The projection works anchor by anchor: the survivors keep their input order and multiplicity. */
  lemma {:induction false} ScreenLabelsAppend(cam: Camera, vp: Viewport, a: seq<LabelData>, b: seq<LabelData>)
    ensures ScreenLabels(cam, vp, a + b) == ScreenLabels(cam, vp, a) + ScreenLabels(cam, vp, b)
  {
    if a == [] {
      assert a + b == b;
    } else {
      assert (a + b)[0] == a[0];
      assert (a + b)[1..] == a[1..] + b;
      ScreenLabelsAppend(cam, vp, a[1..], b);
    }
  }

  // --------------------------------------------------------- priority

  /** A label counts as a planet when the first record with its id is typed planet. */
  predicate IsPlanetLabel(data: seq<Body>, s: ScreenLabel) {
    var b := Find(data, s.anchor.id);
    b.Some? && b.value.kind == Planet
  }

  /** Squared distance from the anchor to the camera. */
  function CameraDist2(cam: Camera, s: ScreenLabel): real {
    Dist2(s.anchor.position, cam.position)
  }

  /** `position.distanceTo(camera.position)`: the square root of the squared distance. */
  function CameraDistance(t: Fns, cam: Camera, s: ScreenLabel): real {
    t.sqrt(CameraDist2(cam, s))
  }

  /**
   * The comparator's strict order: a planet before a non-planet, otherwise
   * the nearer one first (a negative difference of distances).
   */
  predicate Before(t: Fns, data: seq<Body>, cam: Camera, a: ScreenLabel, b: ScreenLabel) {
    var pa, pb := IsPlanetLabel(data, a), IsPlanetLabel(data, b);
    (pa && !pb) || (pa == pb && CameraDistance(t, cam, a) < CameraDistance(t, cam, b))
  }

  predicate Sorted(t: Fns, data: seq<Body>, cam: Camera, s: seq<ScreenLabel>) {
    forall i, j :: 0 <= i < j < |s| ==> !Before(t, data, cam, s[j], s[i])
  }

  /** Insert `x` after every element it does not strictly precede (keeps the sort stable). */
  function Insert(t: Fns, data: seq<Body>, cam: Camera, x: ScreenLabel, s: seq<ScreenLabel>): (r: seq<ScreenLabel>)
    ensures multiset(r) == multiset(s) + multiset{x}
    ensures |r| == |s| + 1
  {
    if s == [] then [x]
    else if Before(t, data, cam, x, s[0]) then [x] + s
    else
      assert s == [s[0]] + s[1..];
      [s[0]] + Insert(t, data, cam, x, s[1..])
  }

  /** `Array.prototype.sort` with the priority comparator, as a stable insertion sort (see `SortStable`). */
  function SortByPriority(t: Fns, data: seq<Body>, cam: Camera, s: seq<ScreenLabel>): (r: seq<ScreenLabel>)
    ensures multiset(r) == multiset(s)
    ensures |r| == |s|
  {
    if s == [] then []
    else
      assert s == s[..|s| - 1] + [s[|s| - 1]];
      Insert(t, data, cam, s[|s| - 1], SortByPriority(t, data, cam, s[..|s| - 1]))
  }

  lemma {:induction false} InsertSorted(t: Fns, data: seq<Body>, cam: Camera, x: ScreenLabel, s: seq<ScreenLabel>)
    requires Sorted(t, data, cam, s)
    ensures Sorted(t, data, cam, Insert(t, data, cam, x, s))
  {
    if s != [] && !Before(t, data, cam, x, s[0]) {
      InsertSorted(t, data, cam, x, s[1..]);
      var r := Insert(t, data, cam, x, s);
      var tail := Insert(t, data, cam, x, s[1..]);
      assert r == [s[0]] + tail;
      forall k | 0 <= k < |tail|
        ensures !Before(t, data, cam, tail[k], s[0])
      {
        assert tail[k] in multiset(s[1..]) + multiset{x} by {
          assert tail[k] in multiset(tail);
        }
        if tail[k] != x {
          assert tail[k] in s[1..];
        }
      }
    }
  }

  /** The sorted candidates are ordered by the comparator. */
  lemma {:induction false} SortSorted(t: Fns, data: seq<Body>, cam: Camera, s: seq<ScreenLabel>)
    ensures Sorted(t, data, cam, SortByPriority(t, data, cam, s))
  {
    if s != [] {
      SortSorted(t, data, cam, s[..|s| - 1]);
      InsertSorted(t, data, cam, s[|s| - 1], SortByPriority(t, data, cam, s[..|s| - 1]));
    }
  }

  /**
   * After sorting, every planet label precedes every non-planet label, and
   * two labels of the same class are ordered by distance to the camera.
   */
  lemma SortOrder(t: Fns, data: seq<Body>, cam: Camera, s: seq<ScreenLabel>)
    ensures var r := SortByPriority(t, data, cam, s);
      && (forall i, j :: 0 <= i < |r| && 0 <= j < |r| && IsPlanetLabel(data, r[i]) && !IsPlanetLabel(data, r[j]) ==> i < j)
      && (forall i, j :: 0 <= i < j < |r| && IsPlanetLabel(data, r[i]) == IsPlanetLabel(data, r[j]) ==>
            CameraDistance(t, cam, r[i]) <= CameraDistance(t, cam, r[j]))
  {
    SortSorted(t, data, cam, s);
  }

  /** Inserting an element that no element follows appends it. */
  lemma {:induction false} InsertLast(t: Fns, data: seq<Body>, cam: Camera, x: ScreenLabel, s: seq<ScreenLabel>)
    requires forall k :: 0 <= k < |s| ==> !Before(t, data, cam, x, s[k])
    ensures Insert(t, data, cam, x, s) == s + [x]
  {
    if s != [] {
      InsertLast(t, data, cam, x, s[1..]);
    }
  }

  /** Already-ordered candidates come out unchanged. */
  lemma {:induction false} SortKeepsSorted(t: Fns, data: seq<Body>, cam: Camera, s: seq<ScreenLabel>)
    requires Sorted(t, data, cam, s)
    ensures SortByPriority(t, data, cam, s) == s
  {
    if s != [] {
      var p, x := s[..|s| - 1], s[|s| - 1];
      SortKeepsSorted(t, data, cam, p);
      InsertLast(t, data, cam, x, p);
      assert p + [x] == s;
    }
  }

  /** Neither label strictly precedes the other: the comparator returns 0 for the pair. */
  predicate Tied(t: Fns, data: seq<Body>, cam: Camera, a: ScreenLabel, b: ScreenLabel) {
    !Before(t, data, cam, a, b) && !Before(t, data, cam, b, a)
  }

  /** The elements of `s` tied with `y`, in their order in `s`. */
  function Ties(t: Fns, data: seq<Body>, cam: Camera, y: ScreenLabel, s: seq<ScreenLabel>): (r: seq<ScreenLabel>)
    ensures |r| <= |s|
  {
    if s == [] then []
    else (if Tied(t, data, cam, s[0], y) then [s[0]] else []) + Ties(t, data, cam, y, s[1..])
  }

  lemma {:induction false} TiesAppend(t: Fns, data: seq<Body>, cam: Camera, y: ScreenLabel, a: seq<ScreenLabel>, b: seq<ScreenLabel>)
    ensures Ties(t, data, cam, y, a + b) == Ties(t, data, cam, y, a) + Ties(t, data, cam, y, b)
  {
    if a == [] {
      assert a + b == b;
    } else {
      assert (a + b)[0] == a[0];
      assert (a + b)[1..] == a[1..] + b;
      TiesAppend(t, data, cam, y, a[1..], b);
    }
  }

  /** Inserting into a sorted list puts `x` after every element tied with it. */
  lemma {:induction false} InsertTies(t: Fns, data: seq<Body>, cam: Camera, x: ScreenLabel, s: seq<ScreenLabel>, y: ScreenLabel)
    requires Sorted(t, data, cam, s)
    ensures Ties(t, data, cam, y, Insert(t, data, cam, x, s))
         == Ties(t, data, cam, y, s) + (if Tied(t, data, cam, x, y) then [x] else [])
  {
    if s == [] {
      assert Insert(t, data, cam, x, s) == [x] + [];
      TiesCons(t, data, cam, y, x, []);
    } else if Before(t, data, cam, x, s[0]) {
      assert Insert(t, data, cam, x, s) == [x] + s;
      TiesCons(t, data, cam, y, x, s);
      if Tied(t, data, cam, x, y) {
        NoTiesAfter(t, data, cam, x, s, y);
      }
    } else {
      var tail := Insert(t, data, cam, x, s[1..]);
      assert Insert(t, data, cam, x, s) == [s[0]] + tail;
      SortedTail(t, data, cam, s);
      InsertTies(t, data, cam, x, s[1..], y);
      TiesCons(t, data, cam, y, s[0], tail);
      TiesCons(t, data, cam, y, s[0], s[1..]);
      assert [s[0]] + s[1..] == s;
    }
  }

  lemma TiesCons(t: Fns, data: seq<Body>, cam: Camera, y: ScreenLabel, h: ScreenLabel, q: seq<ScreenLabel>)
    ensures Ties(t, data, cam, y, [h] + q) == (if Tied(t, data, cam, h, y) then [h] else []) + Ties(t, data, cam, y, q)
  {
    assert ([h] + q)[0] == h && ([h] + q)[1..] == q;
  }

  lemma SortedTail(t: Fns, data: seq<Body>, cam: Camera, s: seq<ScreenLabel>)
    requires Sorted(t, data, cam, s) && |s| > 0
    ensures Sorted(t, data, cam, s[1..])
  {
    forall i, j | 0 <= i < j < |s[1..]|
      ensures !Before(t, data, cam, s[1..][j], s[1..][i])
    {
      assert s[1..][j] == s[j + 1] && s[1..][i] == s[i + 1];
    }
  }

  /** When `x` strictly precedes the head of a sorted list, nothing in the list is tied with a label tied with `x`. */
  lemma {:induction false} NoTiesAfter(t: Fns, data: seq<Body>, cam: Camera, x: ScreenLabel, s: seq<ScreenLabel>, y: ScreenLabel)
    requires Sorted(t, data, cam, s) && |s| > 0
    requires Before(t, data, cam, x, s[0]) && Tied(t, data, cam, x, y)
    ensures Ties(t, data, cam, y, s) == []
    decreases |s|
  {
    assert !Tied(t, data, cam, s[0], y);
    if |s| > 1 {
      assert !Before(t, data, cam, s[1], s[0]);
      assert Before(t, data, cam, x, s[1]);
      SortedTail(t, data, cam, s);
      NoTiesAfter(t, data, cam, x, s[1..], y);
    }
  }

  /**
   * The sort is stable: for every label `y`, the candidates tied with `y`
   * (the comparator returns 0 between them) come out in their input order.
   */
  lemma {:induction false} SortStable(t: Fns, data: seq<Body>, cam: Camera, s: seq<ScreenLabel>, y: ScreenLabel)
    ensures Ties(t, data, cam, y, SortByPriority(t, data, cam, s)) == Ties(t, data, cam, y, s)
  {
    if s != [] {
      var p, x := s[..|s| - 1], s[|s| - 1];
      assert p + [x] == s;
      TiesAppend(t, data, cam, y, p, [x]);
      var sp := SortByPriority(t, data, cam, p);
      assert SortByPriority(t, data, cam, s) == Insert(t, data, cam, x, sp);
      SortStable(t, data, cam, p, y);
      SortSorted(t, data, cam, p);
      InsertTies(t, data, cam, x, sp, y);
      TiesCons(t, data, cam, y, x, []);
      assert [x] + [] == [x];
    }
  }

  /** Ordering by distance is ordering by squared distance. */
  lemma SquaredDistanceOrder(t: Fns, cam: Camera, a: ScreenLabel, b: ScreenLabel)
    requires SqrtLaws(t)
    ensures CameraDistance(t, cam, a) < CameraDistance(t, cam, b)
        <==> CameraDist2(cam, a) < CameraDist2(cam, b)
  {
    var qa, qb := CameraDist2(cam, a), CameraDist2(cam, b);
    assert SqrtAt(t, qa) && SqrtAt(t, qb);
    SqrtLessThan(t, qa, t.sqrt(qb));
  }

  // ---------------------------------------------------------- declutter

  /** Two labels overlap when their pixel distance is below the spacing. */
  predicate Near(a: ScreenLabel, b: ScreenLabel) {
    var dx, dy := a.screenX - b.screenX, a.screenY - b.screenY;
    dx * dx + dy * dy < LabelSpacing * LabelSpacing
  }

  predicate NearAny(x: ScreenLabel, acc: seq<ScreenLabel>) {
    exists k :: 0 <= k < |acc| && Near(x, acc[k])
  }

  /** No two labels overlap. */
  predicate Spaced(s: seq<ScreenLabel>) {
    forall i, j :: 0 <= i < j < |s| ==> !Near(s[j], s[i])
  }

  /** The greedy pass as a function: candidate by candidate, keep the ones that overlap nothing kept. */
  function Declutter(s: seq<ScreenLabel>): seq<ScreenLabel> {
    if s == [] then []
    else
      var kept := Declutter(s[..|s| - 1]);
      if NearAny(s[|s| - 1], kept) then kept else kept + [s[|s| - 1]]
  }

  /** The inner loop: does the candidate come within 20 px of a label already kept? */
  method Overlaps(t: Fns, cand: ScreenLabel, kept: seq<ScreenLabel>) returns (overlaps: bool)
    requires SqrtLaws(t)
    ensures overlaps <==> NearAny(cand, kept)
  {
    overlaps := false;
    var k := 0;
    while k < |kept|
      invariant 0 <= k <= |kept|
      invariant forall j :: 0 <= j < k ==> !Near(cand, kept[j])
    {
      var dx := cand.screenX - kept[k].screenX;
      var dy := cand.screenY - kept[k].screenY;
      var distance := t.sqrt(dx * dx + dy * dy);
      SqrtLessThan(t, dx * dx + dy * dy, LabelSpacing);
      if distance < LabelSpacing {
        overlaps := true;
        break;
      }
      k := k + 1;
    }
  }

  /** The source's loop, with `Math.sqrt(dx·dx + dy·dy) < 20` as the overlap test. */
  method FilterOverlapping(t: Fns, s: seq<ScreenLabel>) returns (kept: seq<ScreenLabel>)
    requires SqrtLaws(t)
    ensures kept == Declutter(s)
  {
    kept := [];
    for i := 0 to |s|
      invariant kept == Declutter(s[..i])
    {
      var cand := s[i];
      var overlaps := Overlaps(t, cand, kept);
      if !overlaps {
        kept := kept + [cand];
      }
      assert s[..i + 1][..i] == s[..i];
    }
    assert s[..|s|] == s;
  }

  lemma NearSymmetric(a: ScreenLabel, b: ScreenLabel)
    ensures Near(a, b) <==> Near(b, a)
  {
    var dx, dy := a.screenX - b.screenX, a.screenY - b.screenY;
    assert (-dx) * (-dx) == dx * dx && (-dy) * (-dy) == dy * dy;
  }

  /** Every kept label is at least 20 px from every other kept label. */
  lemma {:induction false} DeclutterSpaced(s: seq<ScreenLabel>)
    ensures Spaced(Declutter(s))
  {
    if s != [] {
      DeclutterSpaced(s[..|s| - 1]);
    }
  }

  /** Is `a` obtained from `b` by deleting elements? */
  predicate IsSubsequence(a: seq<ScreenLabel>, b: seq<ScreenLabel>)
    decreases |b|
  {
    if a == [] then true
    else if b == [] then false
    else if a[|a| - 1] == b[|b| - 1] && IsSubsequence(a[..|a| - 1], b[..|b| - 1]) then true
    else IsSubsequence(a, b[..|b| - 1])
  }

  /** The kept labels are a subsequence of the candidates: same order, nothing new. */
  lemma {:induction false} DeclutterSubsequence(s: seq<ScreenLabel>)
    ensures IsSubsequence(Declutter(s), s)
  {
    if s != [] {
      var p := s[..|s| - 1];
      DeclutterSubsequence(p);
      var kept := Declutter(p);
      if NearAny(s[|s| - 1], kept) {
        SubsequenceExtend(kept, p, s[|s| - 1]);
        assert p + [s[|s| - 1]] == s;
      } else {
        var r := kept + [s[|s| - 1]];
        assert r[..|r| - 1] == kept;
      }
    }
  }

  lemma {:induction false} SubsequenceExtend(a: seq<ScreenLabel>, b: seq<ScreenLabel>, x: ScreenLabel)
    requires IsSubsequence(a, b)
    ensures IsSubsequence(a, b + [x])
    decreases |b|
  {
    if a != [] {
      var bx := b + [x];
      assert bx[..|bx| - 1] == b;
    }
  }

  /** A kept prefix: the labels kept from the first j candidates start the final list. */
  lemma {:induction false} DeclutterPrefix(s: seq<ScreenLabel>, j: nat)
    requires j <= |s|
    ensures Declutter(s[..j]) <= Declutter(s)
    decreases |s| - j
  {
    if j < |s| {
      DeclutterPrefix(s, j + 1);
      var q := s[..j + 1];
      assert q[..|q| - 1] == s[..j];
    } else {
      assert s[..j] == s;
    }
  }

  /** The first candidate is always kept. */
  lemma DeclutterFirst(s: seq<ScreenLabel>)
    requires |s| > 0
    ensures |Declutter(s)| > 0 && Declutter(s)[0] == s[0]
  {
    DeclutterPrefix(s, 1);
    assert Declutter(s[..1]) == [s[0]];
  }

  /**
   * A rejected candidate lies within 20 px of a label kept before it: for
   * every candidate j, either it was kept next after the labels kept from
   * the first j candidates, or it is near one of those.
   */
  lemma RejectedNearEarlier(s: seq<ScreenLabel>, j: nat)
    requires j < |s|
    ensures var before := Declutter(s[..j]);
      && before <= Declutter(s)
      && (Declutter(s[..j + 1]) == before + [s[j]] || exists k :: 0 <= k < |before| && Near(s[j], before[k]))
  {
    DeclutterPrefix(s, j);
    var q := s[..j + 1];
    assert q[..|q| - 1] == s[..j];
  }

  /** Every candidate is within 20 px of some kept label (itself, when kept). */
  lemma {:induction false} DeclutterCovers(s: seq<ScreenLabel>)
    ensures forall j :: 0 <= j < |s| ==> NearAny(s[j], Declutter(s))
  {
    if s != [] {
      var p := s[..|s| - 1];
      DeclutterCovers(p);
      var kept := Declutter(p);
      var r := Declutter(s);
      assert kept <= r;
      forall j | 0 <= j < |s|
        ensures NearAny(s[j], r)
      {
        if j < |p| {
          assert s[j] == p[j];
          var k :| 0 <= k < |kept| && Near(p[j], kept[k]);
          assert r[k] == kept[k];
        } else if !NearAny(s[j], kept) {
          assert r[|r| - 1] == s[j];
          assert Near(s[j], s[j]);
        } else {
          var k :| 0 <= k < |kept| && Near(s[j], kept[k]);
          assert r[k] == kept[k];
        }
      }
    }
  }

  /** Labels that are already spaced all survive. */
  lemma {:induction false} DeclutterKeepsSpaced(s: seq<ScreenLabel>)
    requires Spaced(s)
    ensures Declutter(s) == s
  {
    if s != [] {
      var p := s[..|s| - 1];
      assert Spaced(p);
      DeclutterKeepsSpaced(p);
      forall k | 0 <= k < |p|
        ensures !Near(s[|s| - 1], p[k])
      {
        assert p[k] == s[k];
      }
      assert p + [s[|s| - 1]] == s;
    }
  }

  /** Running the filter on its own output changes nothing. */
  lemma DeclutterIdempotent(s: seq<ScreenLabel>)
    ensures Declutter(Declutter(s)) == Declutter(s)
  {
    DeclutterSpaced(s);
    DeclutterKeepsSpaced(Declutter(s));
  }

  /** Of two overlapping candidates only the first, higher-priority one is shown. */
  lemma TwoOverlapping(a: ScreenLabel, b: ScreenLabel)
    ensures Declutter([a, b]) == if Near(b, a) then [a] else [a, b]
  {
    assert [a, b][..1] == [a];
    assert [a][..0] == [];
    assert Declutter([a]) == [a];
    assert NearAny(b, [a]) <==> Near(b, a) by {
      assert [a][0] == a;
    }
  }

  // ------------------------------------------------------ the pipeline

  /**
   * The labels shown in one frame: nothing before the view is mounted;
   * otherwise the visible anchors, sorted by priority and decluttered.
   */
  method DisplayedLabels(t: Fns, mounted: bool, data: seq<Body>, cam: Camera, vp: Viewport,
                         labels: seq<LabelData>) returns (shown: seq<ScreenLabel>)
    requires SqrtLaws(t)
    ensures !mounted ==> shown == []
    ensures mounted ==> shown == Declutter(SortByPriority(t, data, cam, ScreenLabels(cam, vp, labels)))
    ensures Spaced(shown)
    ensures forall k :: 0 <= k < |shown| ==>
      shown[k].anchor in labels && Visible(cam, shown[k].anchor) && shown[k] == ToScreen(cam, vp, shown[k].anchor)
  {
    if !mounted {
      return [];
    }
    var screen := ScreenLabels(cam, vp, labels);
    var sorted := SortByPriority(t, data, cam, screen);
    shown := FilterOverlapping(t, sorted);
    DeclutterSpaced(sorted);
    DeclutterSubsequence(sorted);
    forall k | 0 <= k < |shown|
      ensures shown[k] in screen
    {
      SubsequenceMembers(shown, sorted, k);
      assert shown[k] in multiset(sorted);
    }
  }

  lemma {:induction false} SubsequenceMembers(a: seq<ScreenLabel>, b: seq<ScreenLabel>, k: nat)
    requires IsSubsequence(a, b) && k < |a|
    ensures a[k] in b
    decreases |b|
  {
    if a[|a| - 1] == b[|b| - 1] && IsSubsequence(a[..|a| - 1], b[..|b| - 1]) {
      if k < |a| - 1 {
        SubsequenceMembers(a[..|a| - 1], b[..|b| - 1], k);
      }
    } else {
      SubsequenceMembers(a, b[..|b| - 1], k);
    }
  }
}
