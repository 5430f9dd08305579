# Meteor Tracker: a verified model of the solar-system scene

This project models, in Dafny, the logic at the heart of Meteor Tracker's
solar-system view. That view is a React component drawing the Sun, the
planets, comets and two asteroid belts with Three.js. The model covers:

- **The body table** (`SolarSystemData`, `Bodies`): the nine built-in
  records, the minor-body id lists, and the facts the scene relies on. Ids
  are distinct, the sun comes first, eccentricities are at most 0.206,
  planet distances increase, and planet periods are non-zero.
- **Orbital mechanics** (`Trig`, `Kepler`):
  - the mean anomaly, wrapped into [0, 2π) with JavaScript's truncating `%`;
  - five fixed-point steps for Kepler's equation;
  - the radius and the 3-1-3 rotation into ecliptic coordinates;
  - the orbit-line sampler.
  
  Trigonometric functions are a parameter `Trig.Fns`, constrained by stated
  laws (bounds, sin 0 = 0, cos 0 = 1, a Lipschitz bound, Pythagoras, and
  monotone square root).
- **The scene graph** (`SceneGraph`): nodes addressed by handles in
  creation order, with parent links, children, the scene's direct children
  (`top`), and a `disposed` flag.
- **The registry** (`Registry`): the class `Registry.Scene` owns the graph,
  the `celestialObjects` and `orbitLines` maps together with their key
  insertion order (the order JavaScript's `Map.forEach` follows), and
  `clickableObjects`. Its methods are the component's effects:
  - the rebuild: a while-loop teardown, clearing, lights and belts, then
    one group per record;
  - the animation tick, which moves bodies and collects label anchors;
  - the orbit-opacity effect;
  - the selection-glow effect.
  
  Each method is proved to keep the tables valid. Each is also proved
  equal to a specification function, and the functions' properties
  (idempotence, what the registry holds after loading) are proved as
  lemmas.
- **Picking** (`Pick`): the click handler's walk from the first raycast
  hit up the parent links to the nearest node with a truthy id.
- **Highlighting** (`Highlight`): orbit opacity, emissive glow, star colour,
  belt dust and meteor glow, and label colour as functions of the selected
  and hovered ids.
- **Labels** (`Labels`): the `displayedLabels` pipeline. It projects the
  anchors to pixels, drops those behind the camera, sorts planets first and
  then by camera distance, and greedily drops any label within 20 px of one
  already shown.
- **The info-panel lookup** (`Selection`): the page's `selectedObjectData`.
- **The generator forms** (`Generators`): the meteor and comet id
  templates, the comet name slug, and the accepted count ranges.

`Date.now()`, `Math.random()` (the belt positions), the camera projection
and the raycaster's hit list are all parameters of the model.

The types declared in `src/lib/solar-system-data.ts:2-18` differ from the
code that uses them:
- the code reads orbital elements (`semiMajorAxis`, `meanLongitude`, …)
  that the type does not declare;
- the code tests for a `'comet'` kind that the type union lacks.

The model follows the code. `Bodies.Body` carries the orbital fields as
optional values, and `Bodies.Kind` has `Comet` and `Region`. A missing
element makes the source compute NaN. The model gives no orbit in that
case: `Kepler.OrbitOf` is `None`.

## Model

| member | source | states |
|---|---|---|
| Bodies.FindIndex | src/app/page.tsx:27 | `Array.find`'s position: the first index whose record has the id, and none exactly when no record has it |
| Bodies.Find | src/app/page.tsx:27 | the found record is in the table and has the id; none exactly when no record has the id |
| Trig.DegToRad | src/components/solar-system.tsx:277-280 | degrees to radians: 0 maps to 0 and 180 to π |
| Trig.SqrtLessThan | src/components/solar-system.tsx:624-626 | `sqrt(q) < 20` holds exactly when `q < 400`, so the overlap test needs no square root |
| Kepler.JsRem | src/components/solar-system.tsx:287 | JavaScript's `%`: the remainder lies strictly between -m and m, has the dividend's sign, and differs from the dividend by whole multiples of m |
| Kepler.WrapAngle | src/components/solar-system.tsx:287-288 | `%` then `+2π` when negative: the result is in [0, 2π) and differs from the input by whole turns |
| Kepler.WrapAngleFixesRange | src/components/solar-system.tsx:287-288 | an angle already in [0, 2π) is unchanged by the wrap |
| Kepler.MeanAnomaly | src/components/solar-system.tsx:285-288 | the tick's mean anomaly (L − ϖ plus the mean motion times the scaled days) always lies in [0, 2π) |
| Kepler.SolveKepler | src/components/solar-system.tsx:291-294 | the loop of five updates `E ← M + e·sin E` computes the five-step iterate |
| Kepler.IterateNearMean | src/components/solar-system.tsx:291-294 | every iterate lies within e of M |
| Kepler.StepShrinks | src/components/solar-system.tsx:292-294 | step n+1 moves the iterate by at most eⁿ⁺¹ (the update is a contraction) |
| Kepler.KeplerResidual | src/components/solar-system.tsx:291-294 | after n steps the residual of Kepler's equation `M = E − e·sin E` is at most eⁿ⁺¹ |
| Kepler.FiveStepsAccurate | src/components/solar-system.tsx:291-294 | for e ≤ 0.206 the five-step residual is below 0.001 |
| Kepler.RadiusBounds | src/components/solar-system.tsx:299 | `r = a(1 − e·cos E)` lies between perihelion a(1−e) and aphelion a(1+e) |
| Kepler.ZeroAnglesIdentity | src/components/solar-system.tsx:308-310 | with all three angles zero the rotation maps (x_orb, y_orb) to (x_orb, 0, y_orb) |
| Kepler.ZeroInclinationFlat | src/components/solar-system.tsx:310 | with zero inclination every point lies in the ecliptic plane (y = 0) |
| Kepler.UnrotatedOrbitPoint | src/components/solar-system.tsx:297-317 | an orbit with i = Ω = ϖ = 0 places the body at (r·cos ν, 0, r·sin ν) scaled by the AU scale |
| Kepler.PropagateBounds | src/components/solar-system.tsx:272-317 | the tick's position is the orbit point of the five-step iterate, whose anomaly is in [0, 2π), within e of M, at a radius between perihelion and aphelion |
| Kepler.OrbitSections | src/components/solar-system.tsx:461-462 | 100 sections for a comet id, 200 otherwise |
| Kepler.SampleOrbit | src/components/solar-system.tsx:458-481 | the sampler's loop pushes sections + 1 points, point j being the orbit point at mean anomaly j/200·2π |
| Kepler.SampleAnomalies | src/components/solar-system.tsx:463-464 | the sampled anomalies start at 0, strictly increase, and end at 2π (π for a comet's half orbit) |
| SolarSystemData.IdsDistinct | src/lib/solar-system-data.ts:20-163 | the table's ids are pairwise distinct |
| SolarSystemData.OneStarFirst | src/lib/solar-system-data.ts:20-163 | the first record is the sun, typed star; every other record is a planet |
| SolarSystemData.EccentricitiesBound | src/lib/solar-system-data.ts:20-163 | every eccentricity present lies in [0, 0.206] (so below 1) and 0.206 occurs |
| SolarSystemData.DistancesIncrease | src/lib/solar-system-data.ts:20-163 | planet distances strictly increase in table order |
| SolarSystemData.PositiveSizesAndPeriods | src/lib/solar-system-data.ts:20-163 | every planet has positive size and period; the period is zero exactly for the sun |
| SolarSystemData.RingsOrdered | src/lib/solar-system-data.ts:124 | only Saturn has rings, with inner radius 12 below outer radius 20 |
| SolarSystemData.TableHasNoOrbits | src/lib/solar-system-data.ts:2-18 | no table record carries the orbital elements the tick reads (in the source the tick therefore computes a NaN position for each of them every frame; the model gives them no orbit and leaves them where they are) |
| SolarSystemData.TableKeplerAccuracy | src/lib/solar-system-data.ts:20-163 | for every table eccentricity (missing read as 0) the five-step residual is below 0.001 |
| SceneGraph.IdOf | src/components/solar-system.tsx:238-246 | a node's `userData.id`: the record's id for a body group, `asteroid_belt` for a belt object, none otherwise |
| SceneGraph.NewNode | src/components/solar-system.tsx:394 | a freshly created object has no parent, no children, sits at the origin and is not disposed |
| SceneGraph.EmptySceneWf | src/components/solar-system.tsx:176-188 | a new scene is a well-formed graph |
| SceneGraph.Create | src/components/solar-system.tsx:394 | creating an object appends one detached node and keeps the graph well formed |
| SceneGraph.AddTop | src/components/solar-system.tsx:512 | `scene.add`: the node becomes the scene's last child and only its parent changes |
| SceneGraph.Detach | src/components/solar-system.tsx:360-370 | the removed child loses its parent and is disposed exactly when it is a mesh, points or line (or was already) |
| SceneGraph.DetachTwice | src/components/solar-system.tsx:360-370 | removing and disposing twice is the same as once |
| SceneGraph.RemoveFirstChild | src/components/solar-system.tsx:360-361 | one teardown round: the first child is detached and dropped from the children, nothing else changes |
| Pick.Chain | src/components/solar-system.tsx:238-246 | the walk's path starts at the hit, follows parent links, and ends at a node without a parent |
| Pick.FirstTruthySpec | src/components/solar-system.tsx:238-246 | the walk finds an id exactly when some node on the path has a truthy id, and then it is the first such |
| Pick.HandleClick | src/components/solar-system.tsx:224-247 | no hits selects nothing; otherwise the while loop returns the id of the nearest ancestor-or-self of the first hit with a truthy id |
| Pick.SelfSelects | src/components/solar-system.tsx:238-246 | a hit node with a truthy id selects its own id |
| Pick.ParentSelects | src/components/solar-system.tsx:238-246 | a hit node without an id selects whatever its parent selects |
| Pick.RootSelectsNothing | src/components/solar-system.tsx:238-246 | a parentless node without an id selects nothing |
| Highlight.BaseOpacity | src/components/solar-system.tsx:525-527 | the idle line opacity is 0.4 exactly for asteroid and comet ids, 0.9 for every other id |
| Highlight.OrbitOpacity | src/components/solar-system.tsx:528 | the opacity is 1.0 exactly when the id is hovered or selected, else the idle opacity |
| Highlight.EarthOverrideRedundant | src/components/solar-system.tsx:485-492 | the `earth` override changes nothing, and the creation opacity equals the idle opacity |
| Highlight.IdleOrbitIsCreation | src/components/solar-system.tsx:519-531 | with nothing hovered or selected, every line returns to the opacity it was created with |
| Highlight.Emissive | src/components/solar-system.tsx:543-550 | selected: white at 1; minor body: black at 0; any other body: its colour `Css(color)` at 0.6, or grey at 0.6 when the colour is empty |
| Highlight.DeselectRestoresGlow | src/components/solar-system.tsx:546-550 | deselecting a body with a colour restores the emissive it was created with |
| Highlight.StarColor | src/components/solar-system.tsx:555-560 | the star is white exactly when selected, and its creation gold otherwise |
| Highlight.BeltDust | src/components/solar-system.tsx:566-569 | the dust cloud shows its creation material when the belt is not selected, and white at opacity 0.7 (more opaque than at creation) when it is |
| Highlight.BeltMeteorGlow | src/components/solar-system.tsx:570-584 | the belt's meteors glow white at 0.5 when the belt is selected, and black at 0 otherwise |
| Highlight.LabelColor | src/components/solar-system.tsx:640-651 | the selected label takes the primary colour; otherwise minor bodies are white and every other label keeps its colour |
| Highlight.OneLabelHighlighted | src/components/solar-system.tsx:640-651 | at most one of two labels with different ids takes the primary colour |
| Labels.ScreenLabels | src/components/solar-system.tsx:592-604 | exactly the visible anchors (projected z ≤ 1) survive, each at its pixel position, and no more survivors than anchors |
| Labels.ScreenLabelsOne | src/components/solar-system.tsx:592-604 | a single anchor yields its pixel position when visible and nothing otherwise |
| Labels.ScreenLabelsAppend | src/components/solar-system.tsx:592-604 | the projection of a concatenation is the concatenation of the projections, so survivors keep their input order and multiplicity |
| Labels.Insert | src/components/solar-system.tsx:611-617 | one insertion of the sort adds exactly that label |
| Labels.SortByPriority | src/components/solar-system.tsx:611-617 | the sort is a permutation of the candidates; order and stability are stated by `Labels.SortOrder` and `Labels.SortStable` |
| Labels.InsertSorted | src/components/solar-system.tsx:611-617 | inserting into a sorted list keeps it sorted |
| Labels.SortSorted | src/components/solar-system.tsx:611-617 | the sort's output is ordered by the comparator |
| Labels.SortOrder | src/components/solar-system.tsx:611-617 | after sorting, every planet label precedes every non-planet label, and within a class nearer labels come first |
| Labels.InsertLast | src/components/solar-system.tsx:611-617 | a label no element follows is appended at the end |
| Labels.SortKeepsSorted | src/components/solar-system.tsx:611-617 | already-ordered candidates come out unchanged |
| Labels.Ties | src/components/solar-system.tsx:611-617 | the candidates tied with a label (comparator 0 both ways) number no more than the candidates |
| Labels.TiesAppend | src/components/solar-system.tsx:611-617 | taking the tied candidates distributes over concatenation |
| Labels.InsertTies | src/components/solar-system.tsx:611-617 | inserting into an ordered list places the new candidate after every candidate tied with it |
| Labels.NoTiesAfter | src/components/solar-system.tsx:611-617 | a candidate strictly ahead of an ordered list's head is tied with nothing in the list |
| Labels.SortStable | src/components/solar-system.tsx:611-617 | for every label y, the candidates tied with y come out in their input order (the sort is stable) |
| Labels.SquaredDistanceOrder | src/components/solar-system.tsx:616 | comparing camera distances is comparing squared distances |
| Labels.Overlaps | src/components/solar-system.tsx:620-630 | the inner loop with its `break` reports an overlap exactly when some kept label is within 20 px |
| Labels.FilterOverlapping | src/components/solar-system.tsx:619-635 | the greedy loop keeps exactly the labels the declutter function keeps |
| Labels.NearSymmetric | src/components/solar-system.tsx:622-626 | the overlap test is symmetric |
| Labels.DeclutterSpaced | src/components/solar-system.tsx:607-635 | every two kept labels are at least 20 px apart |
| Labels.DeclutterSubsequence | src/components/solar-system.tsx:619-635 | the kept labels are a subsequence of the sorted candidates |
| Labels.DeclutterPrefix | src/components/solar-system.tsx:619-635 | what is kept from a prefix of the candidates is a prefix of what is kept overall |
| Labels.DeclutterFirst | src/components/solar-system.tsx:619-635 | the first candidate is always kept |
| Labels.RejectedNearEarlier | src/components/solar-system.tsx:619-635 | each candidate is either kept next or lies within 20 px of a label kept before it |
| Labels.DeclutterCovers | src/components/solar-system.tsx:619-635 | every candidate lies within 20 px of some kept label |
| Labels.DeclutterKeepsSpaced | src/components/solar-system.tsx:619-635 | candidates already spaced are all kept |
| Labels.DeclutterIdempotent | src/components/solar-system.tsx:619-635 | running the filter on its own output changes nothing |
| Labels.TwoOverlapping | src/components/solar-system.tsx:619-635 | of two overlapping candidates only the first is shown |
| Labels.DisplayedLabels | src/components/solar-system.tsx:589-638 | nothing before mounting; otherwise the decluttered sorted projection, whose labels are spaced, visible, at their pixel positions and anchored in the input |
| Registry.Rendered | src/components/solar-system.tsx:396-403 | the records given a node are exactly the stars, planets and comets |
| Registry.Orbiting | src/components/solar-system.tsx:403 | the records given an orbit line are exactly the planets and comets |
| Registry.AppendNew | src/components/solar-system.tsx:513 | `Map.set` on the key order: the key joins once, and the order stays duplicate-free |
| Registry.KeyOrder | src/components/solar-system.tsx:513 | the key order of a filled map lists each key once, and exactly the keys set |
| Registry.LastWithId | src/components/solar-system.tsx:513 | the record whose `set` wins is the last one with the id: present exactly when some record has the id |
| Registry.OrbitPoints | src/components/solar-system.tsx:452-481 | an orbit line's points exist exactly when the record has its elements: 201 of them (101 for a comet), point j at anomaly j/200·2π |
| Registry.OrbitPath | src/components/solar-system.tsx:452-481 | the rebuild's sampling (the loop, where the elements exist) gives those points |
| Registry.BuildBeltGroup | src/components/solar-system.tsx:82-115 | a meteor belt: one group holding `count` meshes at the drawn spots, appended with the graph kept well formed |
| Registry.StarNodes | src/components/solar-system.tsx:396-401 | the star's group holds one basic gold sphere |
| Registry.PlanetNodes | src/components/solar-system.tsx:403-450 | a planet's group holds its body mesh with the creation material, and the mesh holds the ring when there is one |
| Registry.LineNode | src/components/solar-system.tsx:483-501 | the orbit line with its creation material and points joins the scene |
| Registry.Publish | src/components/solar-system.tsx:507-512 | the group gets the record (the sun pinned at the origin) and joins the scene |
| Registry.StarRecord | src/components/solar-system.tsx:396-402 | a star record adds its group (and its sphere) to the scene |
| Registry.PlanetRecord | src/components/solar-system.tsx:403-512 | a planet or comet record adds its line and then its group to the scene |
| Registry.AddNew | src/components/solar-system.tsx:376-381 | a created object joins the scene as its last child |
| Registry.BuildBelts | src/components/solar-system.tsx:376-390 | the two lights, the dust cloud and the two belt groups join the scene in that order |
| Registry.InvExtend | src/components/solar-system.tsx:392-516 | creating objects after the registered ones keeps the tables valid |
| Registry.InvShape | src/components/solar-system.tsx:359-371 | changes that keep every node's kind, tag, children and Under-links keep the tables valid |
| Registry.InvRegister | src/components/solar-system.tsx:513-514 | registering a record's group under its id keeps the tables valid |
| Registry.InvRegisterLine | src/components/solar-system.tsx:503 | registering a new line under its id keeps the tables valid |
| Registry.LineHandle | src/components/solar-system.tsx:403-499 | a record's line is created right after its group and body mesh, or after the ring |
| Registry.RecordStep | src/components/solar-system.tsx:392-516 | one record's round only adds nodes, children and clickables; a record of another kind changes nothing |
| Registry.RecordStepGroup | src/components/solar-system.tsx:507-515 | after a rendered record's round its group is registered under its id and clickable |
| Registry.RecordStepLine | src/components/solar-system.tsx:499-503 | after an orbiting record's round its line is registered under its id |
| Registry.PlanetStep | src/components/solar-system.tsx:403-515 | a planet's or comet's round, field by field |
| Registry.InvRecordStep | src/components/solar-system.tsx:392-516 | each round keeps the tables valid |
| Registry.Records | src/components/solar-system.tsx:392-516 | the record loop only adds nodes, scene children and clickables |
| Registry.Moved | src/components/solar-system.tsx:274-317 | the tick changes only positions: a planet or comet with an orbit moves to its propagated position, any other node stays |
| Registry.MovedTwice | src/components/solar-system.tsx:274-317 | moving the same node twice at one time is moving it once |
| Registry.Anchor | src/components/solar-system.tsx:320-333 | the label anchor carries the record's id, name, colour and kind, raised by its size |
| Registry.FirstMesh | src/components/solar-system.tsx:537-539 | `children.find(isMesh)`: none exactly when no child is a mesh, else a mesh child |
| Registry.SelectedGlowsWhite | src/components/solar-system.tsx:543-558 | a selected body glows white; a selected star turns white |
| Registry.IdleGlowIsCreation | src/components/solar-system.tsx:546-558 | deselected, a body with a colour (or the star) shows its creation material |
| Registry.WithOpacity | src/components/solar-system.tsx:528 | only a line material's opacity changes; its colour and any other node stay |
| Registry.WithOpacityTwice | src/components/solar-system.tsx:528 | setting the same opacity again changes nothing |
| Registry.Glowing | src/components/solar-system.tsx:541-560 | the selection effect changes only the material, never its kind |
| Registry.GlowingTwice | src/components/solar-system.tsx:541-560 | applying the same selection again changes nothing |
| Registry.ClickOnBodySelects | src/components/solar-system.tsx:238-246 | a click on a registered body mesh selects its record's id |
| Registry.KeysStep | src/components/solar-system.tsx:513 | one more `set`: the map's keys and their order stay those of the records so far |
| Registry.GroupsLoadedAdd | src/components/solar-system.tsx:511-513 | registering a rendered record's group advances `celestialObjects` by that record |
| Registry.GroupsLoadedStep | src/components/solar-system.tsx:392-516 | each round keeps `celestialObjects` in step with the records so far |
| Registry.LinesLoadedAdd | src/components/solar-system.tsx:503 | registering an orbiting record's line advances `orbitLines` by that record |
| Registry.LinesLoadedKeep | src/components/solar-system.tsx:396-402 | a record without an orbit line leaves `orbitLines` as it was |
| Registry.LinesLoadedStep | src/components/solar-system.tsx:392-516 | each round keeps `orbitLines` in step with the records so far |
| Registry.ClickLoadedStep | src/components/solar-system.tsx:514 | each round pushes one clickable per rendered record |
| Registry.RecordsLoaded | src/components/solar-system.tsx:392-516 | after the loop, each id maps to the group (and line) of the last record with it, and the clickables are the belt entries then one group per rendered record, in data order |
| Registry.LoadedKeys | src/components/solar-system.tsx:503-513 | `celestialObjects` keys are exactly the ids of star/planet/comet records, `orbitLines` keys exactly those of planet/comet records |
| Registry.KeyOrderShorter | src/components/solar-system.tsx:513 | a map holds at most as many keys as were set, and fewer when one repeats |
| Registry.DuplicatesMapOnce | src/components/solar-system.tsx:507-515 | duplicate ids push twice but map once: one clickable per rendered record, fewer map keys when ids repeat |
| Registry.Visited | src/components/solar-system.tsx:272 | the handles `forEach` visits are those the keys map to |
| Registry.TickNodes | src/components/solar-system.tsx:272-318 | after a tick every visited group is moved and every other node is as it was |
| Registry.TickLabels | src/components/solar-system.tsx:320-333 | one anchor per key, in key order, read from that key's group |
| Registry.TickTwice | src/components/solar-system.tsx:272-318 | a second tick at the same time moves nothing further |
| Registry.TickKeepsShape | src/components/solar-system.tsx:272-318 | a tick keeps the tables valid |
| Registry.MoveStep | src/components/solar-system.tsx:272-333 | one round of the tick's loop moves the next key's group and pushes its anchor |
| Registry.MoveAll | src/components/solar-system.tsx:272-334 | the tick's loop gives the tick's nodes and one anchor per key, read from the moved group |
| Registry.Faded | src/components/solar-system.tsx:519-531 | each visited line takes the opacity of the id it belongs to, every other node stays |
| Registry.FadedTwice | src/components/solar-system.tsx:519-531 | the orbit effect is idempotent |
| Registry.FadedLine | src/components/solar-system.tsx:519-531 | after the effect each registered line keeps its colour and has full opacity exactly when its id is hovered or selected |
| Registry.FadedKeepsShape | src/components/solar-system.tsx:519-531 | the orbit effect keeps the tables valid |
| Registry.FadeStep | src/components/solar-system.tsx:520-529 | one round of the effect's loop fades the next key's line |
| Registry.FadeAll | src/components/solar-system.tsx:520-531 | the effect's loop gives the faded scene |
| Registry.Lit | src/components/solar-system.tsx:535-561 | the scene after the selection effect, node by node |
| Registry.LitKeepsShape | src/components/solar-system.tsx:535-561 | the selection effect changes materials only |
| Registry.LitTwice | src/components/solar-system.tsx:535-561 | the selection effect is idempotent |
| Registry.LitBody | src/components/solar-system.tsx:535-561 | after the effect each registered body glows as its record and the selected id say |
| Registry.LitKeepsInv | src/components/solar-system.tsx:535-561 | the selection effect keeps the tables valid |
| Registry.LightStep | src/components/solar-system.tsx:536-560 | one round of the effect's loop lights the next key's body |
| Registry.LightAll | src/components/solar-system.tsx:535-561 | the effect's loop gives the lit scene |
| Registry.Scene.constructor | src/components/solar-system.tsx:176-188 | a new scene with empty registries, valid |
| Registry.Scene.Teardown | src/components/solar-system.tsx:359-371 | the while loop leaves the scene without children, every former child detached (and disposed when a mesh, points or line), every other node as it was |
| Registry.Scene.ClearRegistries | src/components/solar-system.tsx:372-374 | both maps and `clickableObjects` are empty, the scene untouched |
| Registry.Scene.AddBelts | src/components/solar-system.tsx:376-390 | the lights, dust and two belt groups join the scene; the three belt objects are pushed as clickable; the maps are untouched |
| Registry.Scene.AddStar | src/components/solar-system.tsx:396-402 | a star record's round, as the step function says |
| Registry.Scene.AddPlanet | src/components/solar-system.tsx:403-515 | a planet or comet record's round, as the step function says, its line owned by its id |
| Registry.Scene.AddRecord | src/components/solar-system.tsx:392-516 | one round of `data.forEach`, with the sampled orbit line, keeping the tables valid |
| Registry.Scene.AddRecords | src/components/solar-system.tsx:392-516 | the whole record loop, keeping the tables valid |
| Registry.Scene.ResetScene | src/components/solar-system.tsx:359-390 | after teardown, clearing and the belts: empty maps, the scene's children exactly the lights and belts, the three belt objects clickable |
| Registry.Scene.Rebuild | src/components/solar-system.tsx:356-517 | the rebuild: the old children detached, the lights and belts first, then the registries loaded from the records with the three belt entries ahead, all valid |
| Registry.Scene.Tick | src/components/solar-system.tsx:264-336 | one frame: only the visited groups' positions change, and the anchors are those of the moved groups |
| Registry.Scene.ApplyOrbitOpacity | src/components/solar-system.tsx:519-532 | the orbit effect: only line opacities change, as the faded scene says |
| Registry.Scene.ApplySelection | src/components/solar-system.tsx:534-561 | the selection effect: only body materials change, as the lit scene says |
| Selection.SelectedObjectData | src/app/page.tsx:15-28 | no id or the empty id shows nothing; `asteroid_belt` shows the region record; any result has the selected id and comes from the table |
| Selection.LookupFindsFirst | src/app/page.tsx:27 | any other id shows a record exactly when the table has one with it, and then the first such |
| Selection.TableSelectionShowsEntry | src/app/page.tsx:27 | on the built-in table, selecting any record's id shows exactly that record |
| Generators.NatToString | src/components/data-generator.tsx:47 | a number prints as a non-empty string of decimal digits |
| Generators.ParsePrinted | src/components/data-generator.tsx:47 | reading back a printed number gives the number |
| Generators.PrintedInjective | src/components/data-generator.tsx:47 | different numbers print differently |
| Generators.StampedIdIndex | src/components/data-generator.tsx:47 | an id of the template ends, after its last dash, with its index |
| Generators.StampedIdsDiffer | src/components/data-generator.tsx:47 | ids of the template with different indices differ, whatever their prefixes and clock readings |
| Generators.RequestFor | src/components/data-generator.tsx:38-42 | the request carries the planet's name, the count, and 10000 times the planet's distance |
| Generators.MeteorCountBounds | src/components/data-generator.tsx:15-17 | counts from 1 to 50 are accepted (the default 10 among them), 0 and 51 are not, and every accepted count is positive |
| Generators.StampMeteors | src/components/data-generator.tsx:45-48 | one record per generated meteor, keeping its fields and gaining the id `planet-meteor-now-i` |
| Generators.MeteorUpdate | src/components/data-generator.tsx:44-49 | the update is sent exactly when the result and its meteors are present, for the planet's id, and its payload is exactly the result's meteors stamped with ids and the creation time |
| Generators.MeteorUpdateIdsDistinct | src/components/data-generator.tsx:44-49 | the meteors the update sends carry pairwise distinct ids |
| Generators.MeteorIdsDistinct | src/components/data-generator.tsx:45-48 | the meteors of one batch get pairwise different ids |
| Generators.CometCountBounds | src/components/comet-generator.tsx:16-18 | counts from 1 to 10 are accepted (the default 3 among them), 0 and 11 are not, and every accepted count is positive |
| Generators.Lower | src/components/comet-generator.tsx:45 | `toLowerCase` on ASCII: upper-case letters become lower-case, nothing else changes |
| Generators.Slug | src/components/comet-generator.tsx:45 | the slug has the name's length; each space becomes `-` and each letter is lower-cased |
| Generators.SlugClean | src/components/comet-generator.tsx:45 | a slug has no space and no upper-case letter, and slugging it again changes nothing |
| Generators.StampComets | src/components/comet-generator.tsx:43-46 | one comet per generated comet, keeping every field but the id, which becomes `slug-comet-now-i` |
| Generators.CometUpdate | src/components/comet-generator.tsx:42-47 | the update is sent exactly when the result and its comets are present, and its payload is exactly the result's comets stamped with ids and the creation time |
| Generators.CometUpdateIdsDistinct | src/components/comet-generator.tsx:42-47 | the comets the update sends carry pairwise distinct ids |
| Generators.CometIdsDistinct | src/components/comet-generator.tsx:43-46 | the comets of one batch get pairwise different ids, even with equal names |

## Left out

- Rendering: Three.js drawing, textures, geometry and ring UVs, `OrbitControls`, resizing and the render loop are UI. The model keeps only node kinds, tags, materials, positions and orbit paths.
- The raycaster's geometric intersection is library code. `Pick.HandleClick` takes the hit list as input.
- React scheduling is runtime behaviour: when the effects and the `useMemo` run, `setLabels`, and `requestAnimationFrame`. Each effect is a method called explicitly.
- `Math.random()` draws the belt positions and sizes. They are function parameters (`meteorSpot`, `kuiperSpot`), and the dust cloud's point positions are not modelled.
- `Date.now()` is a parameter: `now` and `start` for the tick, and `clock(i)` for the reading each generated item takes.
- Floating point is not modelled: arithmetic is over `real`, and trigonometry is a parameter with stated laws. Where the source computes NaN, the model has no orbit. That covers a missing orbital element, a zero period, a square root of `1 − e` for e > 1, and a square root of `1 + e` for e < −1. `Registry.Moved` then leaves the position unchanged, and the line gets no points. This differs from the source for the eight table planets, which lack `semiMajorAxis` and `meanLongitude`: the source sets their positions to NaN every frame. NaN anchors pass the `vector.z > 1` visibility test (solar-system.tsx:596) and never satisfy `distance < labelSpacing` (solar-system.tsx:626), so in the source every planet label survives the declutter (at a NaN pixel position, and with a NaN distance in the sort comparator). In the model those groups stay at the creation origin, so their anchors lie on the vertical line through the origin, each raised by its body's size; which of them survive the declutter depends on the camera's projection.
- Labels.SortByPriority: the library's in-place `Array.prototype.sort` is not visible, so it is modelled on values as a stable insertion sort. The in-place update of `screenLabels` is not modelled.
- The sort's camera distance uses the anchor's position. The tick's `getWorldPosition` is taken as a group's own position, because groups are direct children of the scene.
- The belt highlight (solar-system.tsx:563-585) is not modelled on the graph, because `getObjectsByProperty` is library code. Only its per-object rules are modelled, as `Highlight.BeltDust` and `Highlight.BeltMeteorGlow`. Three.js's `Object3D.getObjectsByProperty(name, value)` compares `this[name]` with the value, and no object has a property literally named `'userData.id'` (solar-system.tsx:564), so the source's belt highlight very likely never takes effect. This reading of the library was not executed. The two functions therefore model the per-object rules written at solar-system.tsx:566-584, not behaviour the program is known to show.
- Registry.Scene.Teardown: disposal is a flag set on the detached child, and nothing else about resources is tracked. Meshes nested inside groups are detached with their group but never disposed, as in the source. No leak-freedom claim is made.
- Registry.Inv states one direction only. Each registered id points to a well-formed group or line; the model does not claim that every group in the scene is registered.
- The group created for a record that is neither a star, a planet nor a comet is not modelled. It is created and then dropped without touching the scene.
- The records' display-only fields (description, texture URLs, diameter, mass, day length, rotation speed) are not modelled.
- The region record's long description text in `src/app/page.tsx:23` is not modelled. `Selection.SelectedData.RegionRecord` carries the id and the name.
- Generators.Lower: `toLowerCase` is modelled on ASCII letters only, without Unicode case mapping.
- zod's `coerce.number()` conversion of the form input is not modelled; the counts are reals. The toasts, the loading flags and the calls to the text-generation service are not modelled either. The result of those calls is an input.
- The `MeteorData` and `CometData` types are not part of this model. Their fields come from the generators' output schemas.
