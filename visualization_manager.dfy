/** The visualisation side of the pipeline: tracked objects are placed in the
    world by casting a ray from the camera onto the spatial mesh, and one
    tooltip per placed object is kept on screen. Tooltips are Unity objects
    created by `Instantiate`; here each is a value carrying a unique id, so
    that removing "that tooltip" from the list has the same meaning as
    removing that object. */
module Visualization {
  import opened Wrappers
  import opened Geometry
  import opened TrackedObjects
  import CvTrackers

  /** A world position, or Unity's `Vector3.positiveInfinity`, the sentinel
      a ray-cast miss produces on the device. */
  datatype WorldPosition = At(point: Vector3) | PositiveInfinity

  const Zero: Vector3 := Vector3(0.0, 0.0, 0.0)

  /** `Vector3.kEpsilon`. */
  const Epsilon: real := 0.00001

  /** Label of the objects made from configured positions in simulation mode. */
  const SimulatedLabel: string := "Simulated"

  /** Text of a freshly instantiated tooltip prefab; every tooltip's text is
      overwritten in the same `Update` that creates it. */
  const PrefabText: string := ""

  datatype SpatialTrackedObject = SpatialTrackedObject(tag: string, position: WorldPosition)

  datatype Tooltip = Tooltip(id: nat, position: WorldPosition, text: string)

  function SqrMagnitude(v: Vector3): real {
    v.x * v.x + v.y * v.y + v.z * v.z
  }

  /** Unity's `Vector3 ==`: the squared length of the component-wise
      difference is below `kEpsilon` squared. With an infinite operand a
      component of the difference is infinite or NaN (`+inf - +inf`), and the
      comparison is false; in particular the sentinel is not equal to itself. */
  function UnityEquals(p: WorldPosition, q: WorldPosition): (r: bool)
    ensures r ==> p.At? && q.At?
    ensures p.At? && q.At? && p.point == q.point ==> r
  {
    match (p, q)
    case (At(u), At(v)) => SqrMagnitude(Vector3(u.x - v.x, u.y - v.y, u.z - v.z)) < Epsilon * Epsilon
    case _ => false
  }

  // ---------------------------------------------------------------------
  // Placing tracked objects in the world
  // ---------------------------------------------------------------------

  function Negated(v: Vector3): Vector3 {
    Vector3(-v.x, -v.y, -v.z)
  }

  /** `GetPosition`, given whether it runs on the main thread, whether the
      build has WinMD support (the device build) and the result of the ray
      cast (the hit point, or `None` on a miss). */
  function GetPosition(mainThread: bool, uwp: bool, hit: Option<Vector3>): (r: WorldPosition)
    ensures r == PositiveInfinity <==> mainThread && uwp && hit.None?
    ensures !mainThread ==> r == At(Zero)
    ensures mainThread && hit.Some? ==> r == At(hit.value)
    ensures mainThread && hit.None? && !uwp ==> r == At(Zero)
  {
    if !mainThread then At(Zero)
    else if hit.None? then (if uwp then PositiveInfinity else At(Zero))
    else At(hit.value)
  }

  /** The ray cast onto the spatial mesh (origin, direction) and the
      unprojection of a tracked object's box into a view direction. */
  datatype Scene = Scene(
    raycast: (Vector3, Vector3) -> Option<Vector3>,
    layForward: (TrackedObject, Vector2) -> Vector3)

  /** `CreateSpatialTrackedObject`: the ray starts at the camera position of
      the frame the object was seen in and points against its lay-forward
      vector; the object keeps its label. */
  function CreateSpatialTrackedObject(t: TrackedObject, offset: Vector2, mainThread: bool, uwp: bool,
                                      scene: Scene): (r: SpatialTrackedObject)
    ensures r.tag == t.tag
    ensures r.position == GetPosition(mainThread, uwp,
      scene.raycast(CameraPosition(t), Negated(scene.layForward(t, offset))))
  {
    var cameraPosition := CameraPosition(t);
    var layForward := scene.layForward(t, offset);
    SpatialTrackedObject(t.tag, GetPosition(mainThread, uwp, scene.raycast(cameraPosition, Negated(layForward))))
  }

  /** The list `UpdateTrackedObjects` installs. It runs on the app thread,
      so every ray cast is made on the main thread. */
  function SpatialObjects(tracked: seq<TrackedObject>, offset: Vector2, simulate: bool,
                          simulated: seq<Vector3>, uwp: bool, scene: Scene): (r: seq<SpatialTrackedObject>)
    ensures simulate && |tracked| == 0 ==>
      |r| == |simulated| &&
      forall i :: 0 <= i < |r| ==> r[i] == SpatialTrackedObject(SimulatedLabel, At(simulated[i]))
    ensures !(simulate && |tracked| == 0) ==>
      |r| == |tracked| &&
      forall i :: 0 <= i < |r| ==> r[i] == CreateSpatialTrackedObject(tracked[i], offset, true, uwp, scene)
  {
    if simulate && |tracked| == 0 then
      seq(|simulated|, i requires 0 <= i < |simulated| => SpatialTrackedObject(SimulatedLabel, At(simulated[i])))
    else
      seq(|tracked|, i requires 0 <= i < |tracked| => CreateSpatialTrackedObject(tracked[i], offset, true, uwp, scene))
  }

  /** Outside simulation the spatial objects follow the tracked objects one
      to one, in order and with their labels, and the sentinel only appears
      on the device after a missed ray cast. */
  lemma SpatialObjectsFollowTracked(tracked: seq<TrackedObject>, offset: Vector2, simulate: bool,
                                    simulated: seq<Vector3>, uwp: bool, scene: Scene)
    requires !simulate || |tracked| > 0
    ensures var r := SpatialObjects(tracked, offset, simulate, simulated, uwp, scene);
      |r| == |tracked| &&
      (forall i :: 0 <= i < |r| ==> r[i].tag == tracked[i].tag) &&
      (forall i :: 0 <= i < |r| && r[i].position == PositiveInfinity ==>
        uwp && scene.raycast(CameraPosition(tracked[i]), Negated(scene.layForward(tracked[i], offset))).None?)
  {
    var r := SpatialObjects(tracked, offset, simulate, simulated, uwp, scene);
    forall i | 0 <= i < |r|
      ensures r[i].tag == tracked[i].tag
      ensures r[i].position == PositiveInfinity ==>
        uwp && scene.raycast(CameraPosition(tracked[i]), Negated(scene.layForward(tracked[i], offset))).None?
    {
      assert r[i] == CreateSpatialTrackedObject(tracked[i], offset, true, uwp, scene);
    }
  }

  // ---------------------------------------------------------------------
  // Reconciling the tooltip list with the spatial objects
  // ---------------------------------------------------------------------

  predicate DistinctIds(ts: seq<Tooltip>) {
    forall i, j :: 0 <= i < j < |ts| ==> ts[i].id != ts[j].id
  }

  predicate IdsBelow(ts: seq<Tooltip>, bound: nat) {
    forall i :: 0 <= i < |ts| ==> ts[i].id < bound
  }

  /** The instantiation loop: `count` fresh tooltips appended, the j-th new
      one placed at the position of spatial object j. */
  function Instantiated(ts: seq<Tooltip>, spatial: seq<SpatialTrackedObject>, firstId: nat, count: nat): (r: seq<Tooltip>)
    requires count <= |spatial|
    ensures |r| == |ts| + count && r[..|ts|] == ts
    ensures forall j :: 0 <= j < count ==> r[|ts| + j] == Tooltip(firstId + j, spatial[j].position, PrefabText)
  {
    ts + seq(count, j requires 0 <= j < count => Tooltip(firstId + j, spatial[j].position, PrefabText))
  }

  function RemoveAt(ts: seq<Tooltip>, i: nat): (r: seq<Tooltip>)
    requires i < |ts|
    ensures |r| == |ts| - 1
    ensures forall k :: 0 <= k < |r| ==> r[k] == if k < i then ts[k] else ts[k + 1]
  {
    ts[..i] + ts[i + 1..]
  }

  /** The removal loop as written: starting at index `i`, remove the element
      at the current index and step the index down, `steps` times. The
      second component is false when an index falls outside the list, where
      the C# list throws `ArgumentOutOfRangeException`; the first is then the
      list as far as it got. */
  function TrimDown(ts: seq<Tooltip>, i: int, steps: nat): (r: (seq<Tooltip>, bool))
    ensures r.1 ==> |r.0| + steps == |ts|
    decreases steps
  {
    if steps == 0 then (ts, true)
    else if i < 0 || i >= |ts| then (ts, false)
    else TrimDown(RemoveAt(ts, i), i - 1, steps - 1)
  }

  /** In range, the loop removes the block of `steps` elements ending at
      index `i`. */
  lemma {:induction false} TrimDownInRange(ts: seq<Tooltip>, i: int, steps: nat)
    requires 0 <= i < |ts| && steps <= i + 1
    ensures TrimDown(ts, i, steps) == (ts[..i - steps + 1] + ts[i + 1..], true)
    decreases steps
  {
    if steps == 0 {
      assert ts[..i + 1] + ts[i + 1..] == ts;
    } else {
      var rest := RemoveAt(ts, i);
      if steps > 1 {
        TrimDownInRange(rest, i - 1, steps - 1);
        assert rest[..i - steps + 1] == ts[..i - steps + 1];
        assert rest[i..] == ts[i + 1..];
      }
    }
  }

  /** When `steps` exceeds `i + 1` the index reaches -1 before the loop ends. */
  lemma {:induction false} TrimDownOutOfRange(ts: seq<Tooltip>, i: int, steps: nat)
    requires -1 <= i < |ts| && steps > i + 1
    ensures !TrimDown(ts, i, steps).1
    decreases steps
  {
    if i >= 0 {
      TrimDownOutOfRange(RemoveAt(ts, i), i - 1, steps - 1);
    }
  }

  /** The per-object step of the final loop. As written a tooltip is moved
      unless `position != Vector3.positiveInfinity` is false under Unity's
      equality; `corrected` tests for the sentinel itself. The text is always
      set to the object's label. */
  function Refreshed(t: Tooltip, s: SpatialTrackedObject, corrected: bool): (r: Tooltip)
    ensures r.id == t.id && r.text == s.tag
    ensures !corrected ==> r.position == s.position
    ensures corrected ==> r.position == if s.position.PositiveInfinity? then t.position else s.position
  {
    var moved := if corrected then !s.position.PositiveInfinity? else !UnityEquals(s.position, PositiveInfinity);
    Tooltip(t.id, if moved then s.position else t.position, s.tag)
  }

  function Refresh(ts: seq<Tooltip>, spatial: seq<SpatialTrackedObject>, corrected: bool): (r: seq<Tooltip>)
    requires |ts| == |spatial|
    ensures |r| == |ts|
    ensures forall i :: 0 <= i < |r| ==> r[i] == Refreshed(ts[i], spatial[i], corrected)
  {
    seq(|ts|, i requires 0 <= i < |ts| => Refreshed(ts[i], spatial[i], corrected))
  }

  /** What one `Update` leaves behind: the tooltips, the next free id, and
      whether it ran to the end (false when the removal loop threw). */
  datatype Outcome = Outcome(tooltips: seq<Tooltip>, nextId: nat, completed: bool)

  /** `Update` as written. */
  function UpdateOutcome(ts: seq<Tooltip>, spatial: seq<SpatialTrackedObject>, nextId: nat): Outcome {
    var n := |spatial|;
    if n == 0 then Outcome(ts, nextId, true)
    else if n > |ts| then
      Outcome(Refresh(Instantiated(ts, spatial, nextId, n - |ts|), spatial, false), nextId + (n - |ts|), true)
    else if n == |ts| then Outcome(Refresh(ts, spatial, false), nextId, true)
    else
      var trimmed := TrimDown(ts, n, |ts| - n);
      if trimmed.1 then Outcome(Refresh(trimmed.0, spatial, false), nextId, true)
      else Outcome(trimmed.0, nextId, false)
  }

  /** What `Update` as written promises and where it falls short:
      - with no spatial objects nothing changes;
      - it completes exactly when the tooltip surplus is at most the number
        of spatial objects plus one;
      - when it completes the counts agree and tooltip i shows label i at
        position i, the sentinel included (Unity's equality never matches it);
      - a trim keeps the tooltips before and after the removed block, not
        the first ones. */
  lemma UpdateOutcomeProperties(ts: seq<Tooltip>, spatial: seq<SpatialTrackedObject>, nextId: nat)
    ensures |spatial| == 0 ==> UpdateOutcome(ts, spatial, nextId) == Outcome(ts, nextId, true)
    ensures UpdateOutcome(ts, spatial, nextId).completed <==> |spatial| == 0 || |ts| <= 2 * |spatial| + 1
    ensures var o := UpdateOutcome(ts, spatial, nextId);
      o.completed && |spatial| > 0 ==>
        |o.tooltips| == |spatial| &&
        forall i :: 0 <= i < |spatial| ==>
          o.tooltips[i].text == spatial[i].tag && o.tooltips[i].position == spatial[i].position
    ensures 0 < |spatial| < |ts| <= 2 * |spatial| + 1 ==>
      var o := UpdateOutcome(ts, spatial, nextId);
      var kept := ts[..2 * |spatial| - |ts| + 1] + ts[|spatial| + 1..];
      |o.tooltips| == |kept| && forall i :: 0 <= i < |kept| ==> o.tooltips[i].id == kept[i].id
  {
    var n := |spatial|;
    if 0 < n < |ts| {
      if |ts| - n <= n + 1 {
        TrimDownInRange(ts, n, |ts| - n);
        var kept := ts[..2 * n - |ts| + 1] + ts[n + 1..];
        assert UpdateOutcome(ts, spatial, nextId).tooltips == Refresh(kept, spatial, false);
      } else {
        TrimDownOutOfRange(ts, n, |ts| - n);
      }
    }
  }

  /** One spatial object and four tooltips: the loop removes the tooltips at
      index 1 and 0, then reads index -1 and throws, leaving two tooltips
      for one object. */
  lemma RemovalOutOfRangeExample(a: Tooltip, b: Tooltip, c: Tooltip, d: Tooltip, s: SpatialTrackedObject)
    ensures UpdateOutcome([a, b, c, d], [s], 0) == Outcome([c, d], 0, false)
  {
    var t1 := RemoveAt([a, b, c, d], 1);
    assert t1 == [a, c, d];
    assert RemoveAt(t1, 0) == [c, d];
    assert TrimDown([c, d], -1, 1) == ([c, d], false);
    assert TrimDown(t1, 0, 2) == ([c, d], false);
    assert TrimDown([a, b, c, d], 1, 3) == ([c, d], false);
  }

  /** A tooltip on screen and an object whose ray cast missed: as written the
      tooltip is sent to infinity, while testing for the sentinel keeps it. */
  lemma SentinelMovesTooltipExample(p: Vector3, tag: string)
    ensures UpdateOutcome([Tooltip(0, At(p), tag)], [SpatialTrackedObject(tag, PositiveInfinity)], 1)
      == Outcome([Tooltip(0, PositiveInfinity, tag)], 1, true)
    ensures CorrectedUpdateOutcome([Tooltip(0, At(p), tag)], [SpatialTrackedObject(tag, PositiveInfinity)], 1)
      == Outcome([Tooltip(0, At(p), tag)], 1, true)
  {
    var ts := [Tooltip(0, At(p), tag)];
    var spatial := [SpatialTrackedObject(tag, PositiveInfinity)];
    assert Refresh(ts, spatial, false) == [Tooltip(0, PositiveInfinity, tag)];
    assert Refresh(ts, spatial, true) == ts;
  }

  /** `Update` as evidently intended: surplus tooltips are dropped from the
      tail, and an object whose position is the sentinel leaves its tooltip
      where it was. */
  function CorrectedUpdateOutcome(ts: seq<Tooltip>, spatial: seq<SpatialTrackedObject>, nextId: nat): Outcome {
    var n := |spatial|;
    if n == 0 then Outcome(ts, nextId, true)
    else if n > |ts| then
      Outcome(Refresh(Instantiated(ts, spatial, nextId, n - |ts|), spatial, true), nextId + (n - |ts|), true)
    else Outcome(Refresh(ts[..n], spatial, true), nextId, true)
  }

  /** The corrected reconciliation always completes, leaves one tooltip per
      object showing its label, keeps the existing tooltips at the front in
      their order, and never moves a tooltip to the sentinel. */
  lemma CorrectedUpdateReconciles(ts: seq<Tooltip>, spatial: seq<SpatialTrackedObject>, nextId: nat)
    requires DistinctIds(ts) && IdsBelow(ts, nextId)
    ensures var o := CorrectedUpdateOutcome(ts, spatial, nextId);
      o.completed &&
      DistinctIds(o.tooltips) && IdsBelow(o.tooltips, o.nextId) &&
      (|spatial| == 0 ==> o.tooltips == ts) &&
      (|spatial| > 0 ==>
        |o.tooltips| == |spatial| &&
        (forall i :: 0 <= i < |spatial| ==> o.tooltips[i].text == spatial[i].tag) &&
        (forall i :: 0 <= i < |spatial| && i < |ts| ==>
          o.tooltips[i].id == ts[i].id &&
          o.tooltips[i].position == if spatial[i].position.PositiveInfinity? then ts[i].position else spatial[i].position) &&
        (forall i :: 0 <= i < |spatial| && spatial[i].position.At? ==> o.tooltips[i].position == spatial[i].position))
  {
    var n := |spatial|;
    var o := CorrectedUpdateOutcome(ts, spatial, nextId);
    if n > |ts| {
      var grown := Instantiated(ts, spatial, nextId, n - |ts|);
      forall i, j | 0 <= i < j < |grown|
        ensures grown[i].id != grown[j].id
      {
        if j >= |ts| && i < |ts| {
          assert grown[i] == ts[i];
        }
      }
      forall i | 0 <= i < |ts|
        ensures o.tooltips[i].id == ts[i].id
      {
        assert grown[i] == ts[i];
      }
      assert DistinctIds(grown);
    }
  }

  // ---------------------------------------------------------------------
  // The manager
  // ---------------------------------------------------------------------

  class VisualizationManager {
    var spatialTrackedObjects: seq<SpatialTrackedObject>
    var tooltips: seq<Tooltip>
    /** Id the next instantiated tooltip receives. */
    var nextTooltipId: nat
    var simulateTrackedObjects: bool
    var simulatedTrackedObjects: seq<Vector3>
    /** The build was made with WinMD support (runs on the device). */
    const uwp: bool

    /** Every tooltip is a distinct object. */
    ghost predicate Valid()
      reads this
    {
      DistinctIds(tooltips) && IdsBelow(tooltips, nextTooltipId)
    }

    constructor(uwp: bool)
      ensures Valid()
      ensures this.uwp == uwp
      ensures spatialTrackedObjects == [] && tooltips == [] && nextTooltipId == 0
      ensures !simulateTrackedObjects && simulatedTrackedObjects == []
    {
      this.uwp := uwp;
      spatialTrackedObjects := [];
      tooltips := [];
      nextTooltipId := 0;
      simulateTrackedObjects := false;
      simulatedTrackedObjects := [];
    }

    /** `Reset`: both lists emptied, every tooltip destroyed. */
    method Reset()
      requires Valid()
      modifies this
      ensures Valid()
      ensures spatialTrackedObjects == [] && tooltips == []
      ensures nextTooltipId == old(nextTooltipId)
      ensures simulateTrackedObjects == old(simulateTrackedObjects)
      ensures simulatedTrackedObjects == old(simulatedTrackedObjects)
    {
      spatialTrackedObjects := [];
      tooltips := [];
    }

    /** `UpdateTrackedObjects`, with the dispatch to the app thread taken as
        immediate. */
    method UpdateTrackedObjects(trackedObjects: seq<TrackedObject>, unprojectionOffset: Vector2, scene: Scene)
      requires Valid()
      modifies this
      ensures tooltips == old(tooltips) && nextTooltipId == old(nextTooltipId)
      ensures simulateTrackedObjects == old(simulateTrackedObjects)
      ensures simulatedTrackedObjects == old(simulatedTrackedObjects)
      ensures Valid()
      ensures spatialTrackedObjects == SpatialObjects(trackedObjects, unprojectionOffset,
        simulateTrackedObjects, simulatedTrackedObjects, uwp, scene)
    {
      var simulated := simulatedTrackedObjects;
      var created: seq<SpatialTrackedObject>;
      if simulateTrackedObjects && |trackedObjects| == 0 {
        created := seq(|simulated|, i requires 0 <= i < |simulated| =>
          SpatialTrackedObject(SimulatedLabel, At(simulated[i])));
      } else {
        created := seq(|trackedObjects|, i requires 0 <= i < |trackedObjects| =>
          CreateSpatialTrackedObject(trackedObjects[i], unprojectionOffset, true, uwp, scene));
      }
      spatialTrackedObjects := created;
    }

    /** `Update`, one frame of the reconciliation. `completed` is false when
        the removal loop threw; the tooltips removed before that stay
        removed. */
    method Update() returns (completed: bool)
      requires Valid()
      modifies this
      ensures spatialTrackedObjects == old(spatialTrackedObjects)
      ensures simulateTrackedObjects == old(simulateTrackedObjects)
      ensures simulatedTrackedObjects == old(simulatedTrackedObjects)
      ensures Valid()
      ensures var o := UpdateOutcome(old(tooltips), spatialTrackedObjects, old(nextTooltipId));
        tooltips == o.tooltips && nextTooltipId == o.nextId && completed == o.completed
    {
      completed := true;
      var n := |spatialTrackedObjects|;
      if n <= 0 {
        return;
      }
      if n != |tooltips| {
        if n > |tooltips| {
          InstantiateTooltips();
        } else {
          completed := DestroyTooltips();
          if !completed {
            return;
          }
        }
      }
      RefreshTooltips();
    }

    /** The instantiation loop of `Update`. */
    method InstantiateTooltips()
      requires Valid() && |tooltips| < |spatialTrackedObjects|
      modifies this
      ensures spatialTrackedObjects == old(spatialTrackedObjects)
      ensures simulateTrackedObjects == old(simulateTrackedObjects)
      ensures simulatedTrackedObjects == old(simulatedTrackedObjects)
      ensures Valid()
      ensures var count := |spatialTrackedObjects| - |old(tooltips)|;
        tooltips == Instantiated(old(tooltips), spatialTrackedObjects, old(nextTooltipId), count) &&
        nextTooltipId == old(nextTooltipId) + count
    {
      var spatial := spatialTrackedObjects;
      var toInstantiate := |spatial| - |tooltips|;
      ghost var ts0 := tooltips;
      ghost var id0 := nextTooltipId;
      for i := 0 to toInstantiate
        invariant spatialTrackedObjects == spatial
        invariant simulateTrackedObjects == old(simulateTrackedObjects)
        invariant simulatedTrackedObjects == old(simulatedTrackedObjects)
        invariant tooltips == Instantiated(ts0, spatial, id0, i)
        invariant nextTooltipId == id0 + i
        invariant Valid()
      {
        var spatialTrackedObject := spatial[i];
        tooltips := tooltips + [Tooltip(nextTooltipId, spatialTrackedObject.position, PrefabText)];
        nextTooltipId := nextTooltipId + 1;
      }
    }

    /** The removal loop of `Update`: returns false where `_tooltips[i]`
        throws. Each step removes the tooltip it read, the first (and only)
        occurrence of that object in the list. */
    method DestroyTooltips() returns (inRange: bool)
      requires Valid() && 0 < |spatialTrackedObjects| < |tooltips|
      modifies this
      ensures spatialTrackedObjects == old(spatialTrackedObjects)
      ensures simulateTrackedObjects == old(simulateTrackedObjects)
      ensures simulatedTrackedObjects == old(simulatedTrackedObjects)
      ensures nextTooltipId == old(nextTooltipId)
      ensures Valid()
      ensures var t := TrimDown(old(tooltips), |spatialTrackedObjects|, |old(tooltips)| - |spatialTrackedObjects|);
        tooltips == t.0 && inRange == t.1
    {
      var n := |spatialTrackedObjects|;
      var toDestroy := |tooltips| - n;
      ghost var goal := TrimDown(tooltips, n, toDestroy);
      var i := n;
      while i > n - toDestroy
        invariant n - toDestroy <= i <= n
        invariant |tooltips| == i + toDestroy
        invariant TrimDown(tooltips, i, i - (n - toDestroy)) == goal
        invariant Valid()
        invariant nextTooltipId == old(nextTooltipId) && spatialTrackedObjects == old(spatialTrackedObjects)
        invariant simulateTrackedObjects == old(simulateTrackedObjects)
        invariant simulatedTrackedObjects == old(simulatedTrackedObjects)
        decreases i
      {
        if i < 0 {
          return false;
        }
        var tooltip := tooltips[i];
        RemoveFirstIsRemoveAt(tooltips, i);
        RemoveAtKeepsIds(tooltips, i, nextTooltipId);
        tooltips := CvTrackers.ListRemove(tooltips, tooltip);
        i := i - 1;
      }
      return true;
    }

    /** The final loop of `Update`, over lists of equal length. */
    method RefreshTooltips()
      requires Valid() && |tooltips| == |spatialTrackedObjects|
      modifies this
      ensures spatialTrackedObjects == old(spatialTrackedObjects)
      ensures simulateTrackedObjects == old(simulateTrackedObjects)
      ensures simulatedTrackedObjects == old(simulatedTrackedObjects)
      ensures nextTooltipId == old(nextTooltipId)
      ensures Valid()
      ensures tooltips == Refresh(old(tooltips), spatialTrackedObjects, false)
    {
      var spatial := spatialTrackedObjects;
      ghost var ts0 := tooltips;
      for i := 0 to |spatial|
        invariant spatialTrackedObjects == spatial && nextTooltipId == old(nextTooltipId)
        invariant simulateTrackedObjects == old(simulateTrackedObjects)
        invariant simulatedTrackedObjects == old(simulatedTrackedObjects)
        invariant |tooltips| == |ts0|
        invariant forall k :: 0 <= k < i ==> tooltips[k] == Refreshed(ts0[k], spatial[k], false)
        invariant forall k :: i <= k < |ts0| ==> tooltips[k] == ts0[k]
        invariant forall k :: 0 <= k < |ts0| ==> tooltips[k].id == ts0[k].id
      {
        var tooltip := tooltips[i];
        var spatialTrackedObject := spatial[i];
        if !UnityEquals(spatialTrackedObject.position, PositiveInfinity) {
          tooltip := tooltip.(position := spatialTrackedObject.position);
        }
        tooltip := tooltip.(text := spatialTrackedObject.tag);
        tooltips := tooltips[i := tooltip];
      }
      assert tooltips == Refresh(ts0, spatial, false);
    }
  }

  /** `List.Remove(item)` drops the first occurrence; with distinct ids the
      item read at index i occurs only there. */
  lemma {:induction false} RemoveFirstIsRemoveAt(ts: seq<Tooltip>, i: nat)
    requires i < |ts| && DistinctIds(ts)
    ensures CvTrackers.ListRemove(ts, ts[i]) == RemoveAt(ts, i)
    decreases i
  {
    if i > 0 {
      var tail := ts[1..];
      assert ts[0].id != ts[i].id;
      assert CvTrackers.ListRemove(ts, ts[i]) == [ts[0]] + CvTrackers.ListRemove(tail, ts[i]);
      assert tail[i - 1] == ts[i];
      assert DistinctIds(tail) by {
        forall a, b | 0 <= a < b < |tail|
          ensures tail[a].id != tail[b].id
        {
          assert tail[a] == ts[a + 1] && tail[b] == ts[b + 1];
        }
      }
      RemoveFirstIsRemoveAt(tail, i - 1);
      assert [ts[0]] + (tail[..i - 1] + tail[i..]) == ts[..i] + ts[i + 1..];
    }
  }

  /** Removing a tooltip keeps the remaining ids distinct and bounded. */
  lemma RemoveAtKeepsIds(ts: seq<Tooltip>, i: nat, bound: nat)
    requires i < |ts| && DistinctIds(ts) && IdsBelow(ts, bound)
    ensures DistinctIds(RemoveAt(ts, i)) && IdsBelow(RemoveAt(ts, i), bound)
  {
    var r := RemoveAt(ts, i);
    forall a, b | 0 <= a < b < |r|
      ensures r[a].id != r[b].id
    {
      var a' := if a < i then a else a + 1;
      var b' := if b < i then b else b + 1;
      assert r[a] == ts[a'] && r[b] == ts[b'];
    }
  }
}
