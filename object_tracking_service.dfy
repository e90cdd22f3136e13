/** The tracking service: owns the tracker pool built for the configured
    algorithm, seeds it from detections (optionally as a fixed number of
    copies of the most probable detection), steps it once per frame and
    keeps a copy of the latest tracking result. */
module ObjectTracking {
  import opened Wrappers
  import opened Geometry
  import opened CameraModel
  import opened TrackedObjects
  import opened CvTrackedObjects
  import opened CvTrackers
  import opened Ordering
  import Fps

  /** The algorithms the configuration can name. */
  datatype Tracker =
    | MosseTracker | BoostingTracker | CSRTTracker | KCFTracker
    | MedianFlowTracker | TLDTracker | MILTracker | TestTracker

  /** The OpenCV tracker implementations a pool can be built for. */
  datatype Algorithm = Mosse | KCF | Boosting | CSRT | MedianFlow | TLD | MIL

  /** `Initialize(tracker)`: binds a pool implementation to each algorithm
      except `TestTracker`, which is rejected. */
  function Implementation(t: Tracker): (r: Result<Algorithm, ModelError>)
    ensures r.Failure? <==> t == TestTracker
    ensures r.Failure? ==> r.error == Argument
  {
    match t
    case MosseTracker => Success(Mosse)
    case KCFTracker => Success(KCF)
    case BoostingTracker => Success(Boosting)
    case CSRTTracker => Success(CSRT)
    case MedianFlowTracker => Success(MedianFlow)
    case TLDTracker => Success(TLD)
    case MILTracker => Success(MIL)
    case TestTracker => Failure(Argument)
  }

  /** Distinct configured algorithms get distinct implementations. */
  lemma ImplementationInjective(s: Tracker, t: Tracker)
    requires s != t && Implementation(s).Success? && Implementation(t).Success?
    ensures Implementation(s).value != Implementation(t).value
  {
  }

  function Probability(d: DetectedObject): real { d.probability }

  /** `OrderByDescending(Probability).FirstOrDefault()`. */
  function MostProbable(detections: seq<DetectedObject>): (best: Option<DetectedObject>)
    ensures best.None? <==> |detections| == 0
    ensures best.Some? ==> best.value in detections
    ensures best.Some? ==> forall d :: d in detections ==> d.probability <= best.value.probability
  {
    if |detections| == 0 then None
    else
      var sorted := SortByDescending(detections, Probability);
      assert sorted[0] in multiset(detections);
      forall d | d in detections
        ensures d.probability <= sorted[0].probability
      {
        assert d in multiset(sorted);
        var k :| 0 <= k < |sorted| && sorted[k] == d;
      }
      Some(sorted[0])
  }

  /** The pick is the FIRST detection of maximal probability. */
  lemma MostProbableIsFirstMaximum(detections: seq<DetectedObject>)
    requires |detections| > 0
    ensures MostProbable(detections).value ==
      detections[ArgMaxFirst(Keys(detections, Probability))]
  {
    FirstOfSortIsFirstMaximum(detections, Probability);
  }

  /** `count` copies of `d` (none when `count` is not positive). */
  function Copies(d: DetectedObject, count: int): (r: seq<DetectedObject>)
    ensures |r| == if count > 0 then count else 0
    ensures forall k :: 0 <= k < |r| ==> r[k] == d
  {
    if count <= 0 then [] else seq(count, k => CopyDetectedObject(d))
  }

  /** The detections that seed the pool: all of them, or in fixed-count
      mode `count` copies of the most probable one. */
  function Seeds(detections: seq<DetectedObject>, fixedCount: bool, count: int): (r: seq<DetectedObject>)
    ensures !fixedCount ==> r == detections
    ensures fixedCount && |detections| == 0 ==> r == []
    ensures fixedCount && |detections| > 0 ==>
      |r| == (if count > 0 then count else 0) &&
      forall k :: 0 <= k < |r| ==> r[k] == MostProbable(detections).value
  {
    if !fixedCount then detections
    else
      match MostProbable(detections)
      case None => []
      case Some(best) => Copies(best, count)
  }

  /** The objects a seeded pool reports, one per seed, in seed order. */
  function SeedObjects(seeds: seq<DetectedObject>): (objs: seq<TrackedObject>)
    ensures |objs| == |seeds|
    ensures forall k :: 0 <= k < |seeds| ==> objs[k] == FromDetection(seeds[k])
  {
    seq(|seeds|, k requires 0 <= k < |seeds| => FromDetection(seeds[k]))
  }

  predicate AllFramesHaveHeight(detections: seq<DetectedObject>) {
    forall k :: 0 <= k < |detections| ==> detections[k].frame.height != 0
  }

  /** `ObjectTrackingService`. */
  class ObjectTrackingService {
    var objectTracker: CvTracker
    var algorithm: Algorithm
    var trackedObjects: seq<TrackedObject>
    var forceFixedTrackerCount: bool
    var fixedTrackerCount: int

    ghost predicate Valid()
      reads this, objectTracker
    {
      objectTracker.Valid()
    }

    /** Construction with a configured algorithm; an unimplemented one is a
        configuration error, so it is excluded here. */
    constructor(tracker: Tracker, forceFixedTrackerCount: bool, fixedTrackerCount: int)
      requires tracker != TestTracker
      ensures Valid() && fresh(objectTracker) && objectTracker.slots == []
      ensures Success(algorithm) == Implementation(tracker) && trackedObjects == []
      ensures this.forceFixedTrackerCount == forceFixedTrackerCount
      ensures this.fixedTrackerCount == fixedTrackerCount
    {
      algorithm := Implementation(tracker).value;
      objectTracker := new CvTracker();
      trackedObjects := [];
      this.forceFixedTrackerCount := forceFixedTrackerCount;
      this.fixedTrackerCount := fixedTrackerCount;
    }

    /** `TrackedObjects`: a copy of the latest result; as a value it cannot
        alias the service's own list. */
    function TrackedObjects(): (r: seq<TrackedObject>)
      reads this
      ensures r == trackedObjects
    {
      trackedObjects
    }

    /** `SwitchTracker`: resets the current pool and the result list, then
        binds the new algorithm to a new, empty pool.  For `TestTracker` the
        binding throws after the reset has happened. */
    method SwitchTracker(tracker: Tracker) returns (ok: bool)
      requires Valid()
      modifies this, objectTracker
      ensures Valid() && trackedObjects == []
      ensures ok <==> tracker != TestTracker
      ensures ok ==> fresh(objectTracker) && objectTracker.slots == [] &&
                     Success(algorithm) == Implementation(tracker)
      ensures !ok ==> objectTracker == old(objectTracker) && objectTracker.slots == [] &&
                      algorithm == old(algorithm)
      ensures forceFixedTrackerCount == old(forceFixedTrackerCount)
      ensures fixedTrackerCount == old(fixedTrackerCount)
    {
      objectTracker.Reset();
      trackedObjects := [];
      var impl := Implementation(tracker);
      if impl.Failure? {
        return false;
      }
      algorithm := impl.value;
      objectTracker := new CvTracker();
      return true;
    }

    /** `Reset`: empties the pool and the result list. */
    method Reset()
      requires Valid()
      modifies this, objectTracker
      ensures Valid() && trackedObjects == [] && objectTracker.slots == []
      ensures objectTracker == old(objectTracker) && algorithm == old(algorithm)
      ensures forceFixedTrackerCount == old(forceFixedTrackerCount)
      ensures fixedTrackerCount == old(fixedTrackerCount)
    {
      objectTracker.Reset();
      trackedObjects := [];
    }

    method ToggleFixedTrackerCount()
      modifies this
      ensures forceFixedTrackerCount == !old(forceFixedTrackerCount)
      ensures fixedTrackerCount == old(fixedTrackerCount) && trackedObjects == old(trackedObjects)
      ensures objectTracker == old(objectTracker) && algorithm == old(algorithm)
    {
      forceFixedTrackerCount := !forceFixedTrackerCount;
    }

    method ChangeFixedTrackerCount(value: int)
      modifies this
      ensures fixedTrackerCount == value
      ensures forceFixedTrackerCount == old(forceFixedTrackerCount) && trackedObjects == old(trackedObjects)
      ensures objectTracker == old(objectTracker) && algorithm == old(algorithm)
    {
      fixedTrackerCount := value;
    }

    /** `TrackSync`: steps the pool exactly once, records a tracking tick,
        and keeps and returns the pool's result. */
    method TrackSync(frame: CameraFrame, track: nat -> Option<Rect2d>, fps: Fps.FpsUtils, now: int)
      returns (result: seq<TrackedObject>)
      requires Valid() && frame.height != 0
      modifies this, objectTracker, objectTracker.slots, fps
      ensures Valid() && objectTracker == old(objectTracker)
      ensures objectTracker.slots ==
        Keep(old(objectTracker.slots), Verdicts(old(objectTracker.Snapshot()), old(objectTracker.slots), frame, track))
      ensures forall k :: 0 <= k < |old(objectTracker.slots)| ==>
        old(objectTracker.slots)[k].State() ==
          Step(old(objectTracker.Snapshot())[k], frame, track(old(objectTracker.slots)[k].tracker), false).1
      ensures result == objectTracker.Objects() && trackedObjects == result
      ensures fps.trackTicks == Fps.LastN(old(fps.trackTicks) + [now], Fps.Window)
      ensures algorithm == old(algorithm)
      ensures forceFixedTrackerCount == old(forceFixedTrackerCount)
      ensures fixedTrackerCount == old(fixedTrackerCount)
    {
      result := objectTracker.Update(frame, track);
      fps.TrackTick(now);
      trackedObjects := result;
    }

    /** The loop of the fixed-count branch: `count` copies of `best`. */
    static method CopySeeds(best: DetectedObject, count: int) returns (seeds: seq<DetectedObject>)
      ensures seeds == Copies(best, count)
    {
      seeds := [];
      var i := 0;
      while i < count
        invariant 0 <= i <= (if count > 0 then count else 0)
        invariant seeds == Copies(best, i)
      {
        seeds := seeds + [CopyDetectedObject(best)];
        i := i + 1;
      }
    }

    /** `InitializeTrackers`: seeds the pool with one new slot per seed (see
        `Seeds`) and returns their objects.  In fixed-count mode with no
        detections nothing changes and the result is empty.  `started` is
        the trackers' initialisation verdict, which is only logged. */
    method InitializeTrackers(detections: seq<DetectedObject>, started: nat -> bool)
      returns (result: seq<TrackedObject>)
      requires Valid() && AllFramesHaveHeight(detections)
      modifies this, objectTracker
      ensures Valid() && objectTracker == old(objectTracker)
      ensures result == SeedObjects(Seeds(detections, forceFixedTrackerCount, fixedTrackerCount))
      ensures forceFixedTrackerCount && |detections| == 0 ==>
        trackedObjects == old(trackedObjects) && objectTracker.slots == old(objectTracker.slots)
      ensures !(forceFixedTrackerCount && |detections| == 0) ==> trackedObjects == result
      ensures |objectTracker.slots| == |old(objectTracker.slots)| + |result|
      ensures objectTracker.slots[..|old(objectTracker.slots)|] == old(objectTracker.slots)
      ensures forall k :: 0 <= k < |result| ==>
        fresh(objectTracker.slots[|old(objectTracker.slots)|..][k]) &&
        objectTracker.slots[|old(objectTracker.slots)|..][k].State() == NewSlot(result[k])
      ensures algorithm == old(algorithm)
      ensures forceFixedTrackerCount == old(forceFixedTrackerCount)
      ensures fixedTrackerCount == old(fixedTrackerCount)
    {
      var seeds: seq<DetectedObject>;
      if forceFixedTrackerCount {
        var best := MostProbable(detections);
        if best.None? {
          return [];
        }
        seeds := CopySeeds(best.value, fixedTrackerCount);
        assert seeds == Seeds(detections, forceFixedTrackerCount, fixedTrackerCount);
      } else {
        seeds := detections;
      }
      assert seeds == Seeds(detections, forceFixedTrackerCount, fixedTrackerCount);
      result := InitializeAll(seeds, started);
      trackedObjects := result;
    }

    /** `Select(InitializeTracker)` over the seeds, in order. */
    method InitializeAll(seeds: seq<DetectedObject>, started: nat -> bool) returns (result: seq<TrackedObject>)
      requires Valid() && AllFramesHaveHeight(seeds)
      modifies objectTracker
      ensures Valid()
      ensures result == SeedObjects(seeds)
      ensures |objectTracker.slots| == |old(objectTracker.slots)| + |seeds|
      ensures objectTracker.slots[..|old(objectTracker.slots)|] == old(objectTracker.slots)
      ensures forall k :: 0 <= k < |seeds| ==>
        fresh(objectTracker.slots[|old(objectTracker.slots)|..][k]) &&
        objectTracker.slots[|old(objectTracker.slots)|..][k].State() == NewSlot(result[k])
    {
      ghost var n0 := |objectTracker.slots|;
      result := [];
      var i := 0;
      while i < |seeds|
        invariant 0 <= i <= |seeds| && Valid()
        invariant result == SeedObjects(seeds[..i])
        invariant |objectTracker.slots| == n0 + i
        invariant objectTracker.slots[..n0] == old(objectTracker.slots)
        invariant forall k :: 0 <= k < i ==> fresh(objectTracker.slots[n0..][k])
        invariant forall k :: 0 <= k < i ==> objectTracker.slots[n0..][k].State() == NewSlot(result[k])
      {
        var d := seeds[i];
        label before:
        var obj := objectTracker.Initialize(d.frame, d.rect, d.tag, started);
        assert SeedObjects(seeds[..i + 1]) == SeedObjects(seeds[..i]) + [FromDetection(d)];
        result := result + [obj];
        i := i + 1;
      }
      assert seeds[..i] == seeds;
    }
  }
}
