/** One slot of the tracker pool: a tracked object, the handle of the
    OpenCV tracker following it, and the bookkeeping that decides when the
    slot is outdated.  The tracker's answer for a frame (a new box, or a
    failure) is an input to `Update`. */
module CvTrackedObjects {
  import opened Wrappers
  import opened Geometry
  import opened CameraModel
  import opened TrackedObjects

  /** `staleThreshold`; the check that would use it is disabled in the code. */
  const StaleThreshold: int := 200

  /** The mutable part of a slot, as a value. */
  datatype SlotState = SlotState(obj: TrackedObject, lastRect: Rect2d, stale: int, update: bool)

  /** A new slot: last box `new Rect2d()`, no stale frames, marked updated. */
  function NewSlot(obj: TrackedObject): (st: SlotState)
    ensures st.obj == obj && st.update && st.stale == 0 && st.lastRect == EmptyRect
  {
    SlotState(obj, EmptyRect, 0, true)
  }

  /** `Update`: a failed tracker update only clears the flag; a successful
      one moves the object to the reported box on the new frame. */
  function SlotUpdate(st: SlotState, frame: CameraFrame, reported: Option<Rect2d>): (r: SlotState)
    requires frame.height != 0
    ensures r.lastRect == st.lastRect && r.stale == st.stale
    ensures r.update <==> reported.Some?
    ensures reported.None? ==> r.obj == st.obj
    ensures reported.Some? ==> Success(r.obj) == UpdatedTrackedObject(st.obj, reported.value, frame)
  {
    match reported
    case None => st.(update := false)
    case Some(rect) => st.(update := true, obj := UpdatedTrackedObject(st.obj, rect, frame).value)
  }

  /** `IsOutdated` as written: outdated exactly when the last update failed;
      otherwise the stale counter grows while the box stands still and
      restarts when it moves. */
  function SlotIsOutdated(st: SlotState): (r: (bool, SlotState))
    ensures r.0 <==> !st.update
    ensures r.0 ==> r.1 == st
    ensures !r.0 ==> r.1.obj == st.obj && r.1.update && r.1.lastRect == st.obj.rect
    ensures !r.0 ==> r.1.stale == if st.lastRect == st.obj.rect then st.stale + 1 else 0
  {
    if !st.update then (true, st)
    else
      var stale := if st.lastRect != st.obj.rect then 0 else st.stale + 1;
      (false, st.(stale := stale, lastRect := st.obj.rect))
  }

  /** `IsOutdated` with the disabled threshold check restored. */
  function SlotIsOutdatedWithThreshold(st: SlotState): (r: (bool, SlotState))
    ensures r.0 <==> !st.update || st.stale >= StaleThreshold
    ensures !r.0 ==> r.1 == SlotIsOutdated(st).1
  {
    if !st.update then (true, st)
    else if st.stale >= StaleThreshold then (true, st)
    else SlotIsOutdated(st)
  }

  /** One pool step for one slot: update it, then ask whether it is outdated. */
  function Step(st: SlotState, frame: CameraFrame, reported: Option<Rect2d>, withThreshold: bool): (bool, SlotState)
    requires frame.height != 0
  {
    var st1 := SlotUpdate(st, frame, reported);
    if withThreshold then SlotIsOutdatedWithThreshold(st1) else SlotIsOutdated(st1)
  }

  /** A slot is dropped in the step where its tracker fails, and kept, with
      its label, in a step where the tracker reports a box. */
  lemma StepEvictsExactlyOnFailure(st: SlotState, frame: CameraFrame, reported: Option<Rect2d>)
    requires frame.height != 0
    ensures Step(st, frame, reported, false).0 <==> reported.None?
    ensures reported.Some? ==>
      Step(st, frame, reported, false).1.obj.rect == reported.value &&
      Step(st, frame, reported, false).1.obj.tag == st.obj.tag
  {
  }

  /** Runs `n` frames in which the tracker keeps reporting `rect`, stopping
      at the first step that finds the slot outdated. */
  function RunStill(st: SlotState, frame: CameraFrame, rect: Rect2d, n: nat, withThreshold: bool): (r: (bool, SlotState))
    requires frame.height != 0
    decreases n
  {
    if n == 0 then (false, st)
    else
      var (outdated, st1) := Step(st, frame, Some(rect), withThreshold);
      if outdated then (true, st1) else RunStill(st1, frame, rect, n - 1, withThreshold)
  }

  /** As written, a slot whose tracker keeps succeeding is never evicted,
      however long its box stands still. */
  lemma {:induction false} StillSlotNeverEvicted(st: SlotState, frame: CameraFrame, rect: Rect2d, n: nat)
    requires frame.height != 0
    ensures !RunStill(st, frame, rect, n, false).0
    ensures RunStill(st, frame, rect, n, false).1.obj.tag == st.obj.tag
    decreases n
  {
    if n > 0 {
      var st1 := Step(st, frame, Some(rect), false).1;
      StillSlotNeverEvicted(st1, frame, rect, n - 1);
    }
  }

  /** With the threshold restored, a slot whose box has already stood
      still is evicted once it has seen `StaleThreshold` still frames. */
  lemma {:induction false} StillSlotEvictedWithThreshold(st: SlotState, frame: CameraFrame, rect: Rect2d, n: nat)
    requires frame.height != 0
    requires st.lastRect == rect && st.obj.rect == rect && st.stale >= 0
    requires n > 0 && n > StaleThreshold - st.stale
    ensures RunStill(st, frame, rect, n, true).0
    decreases n
  {
    var (outdated, st1) := Step(st, frame, Some(rect), true);
    if !outdated {
      assert st1.stale == st.stale + 1;
      StillSlotEvictedWithThreshold(st1, frame, rect, n - 1);
    }
  }

  /** `CvTrackedObject`. */
  class CvTrackedObject {
    var trackedObject: TrackedObject
    const tracker: nat
    var lastRect: Rect2d
    var stale: int
    var update: bool

    function State(): SlotState
      reads this
    {
      SlotState(trackedObject, lastRect, stale, update)
    }

    constructor(trackedObject: TrackedObject, tracker: nat)
      ensures State() == NewSlot(trackedObject) && this.tracker == tracker
    {
      this.trackedObject := trackedObject;
      this.tracker := tracker;
      lastRect := EmptyRect;
      stale := 0;
      update := true;
    }

    /** `reported` is what the tracker's `update` call answered for `frame`. */
    method Update(frame: CameraFrame, reported: Option<Rect2d>)
      requires frame.height != 0
      modifies this
      ensures State() == SlotUpdate(old(State()), frame, reported)
    {
      if reported.None? {
        update := false;
        return;
      }
      update := true;
      var r := UpdatedTrackedObject(trackedObject, reported.value, frame);
      trackedObject := r.value;
    }

    method IsOutdated() returns (outdated: bool)
      modifies this
      ensures (outdated, State()) == SlotIsOutdated(old(State()))
    {
      if !update {
        return true;
      }
      stale := stale + 1;
      if lastRect != trackedObject.rect {
        stale := 0;
      }
      lastRect := trackedObject.rect;
      return false;
    }

    function GetLabel(): (s: string)
      reads this
      ensures s == State().obj.tag
    {
      trackedObject.tag
    }

    function GetTrackedObject(): (t: TrackedObject)
      reads this
      ensures t == State().obj
    {
      trackedObject
    }
  }
}
