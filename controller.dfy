/** The pipeline coordinator: every camera frame may issue a detection and,
    unless detection runs on repeat, is tracked and handed to the
    visualisation. The services it drives are not modelled here; what the
    controller does to them is recorded as an event log, and what they
    return comes in as parameters. */
module Pipeline {
  import opened Wrappers
  import opened CameraModel
  import opened TrackedObjects

  datatype Status = Idle | Running

  /** The calls the controller makes on the services it coordinates. */
  datatype Event =
    | DetectIssued(frame: CameraFrame)
    | TrackCalled(frame: CameraFrame)
    | PoolReset
    | PoolInitialised(detections: seq<DetectedObject>)
    | TrackTicked
    | Visualised(objects: seq<TrackedObject>)
    | DetectionServiceReset
    | VisualizationReset

  // ---------------------------------------------------------------------
  // The interlocked flags
  // ---------------------------------------------------------------------

  /** `Interlocked.CompareExchange(ref location, value, comparand)`: the new
      content of the location and the value it held before. */
  function CompareExchange(location: int, value: int, comparand: int): (r: (int, int))
    ensures r.1 == location
    ensures r.0 == if location == comparand then value else location
  {
    (if location == comparand then value else location, location)
  }

  /** The flag getter: exchanges 1 for 1 and tests the previous value. */
  function ReadFlag(location: int): bool {
    CompareExchange(location, 1, 1).1 == 1
  }

  /** The flag setter: 0 becomes 1 when setting, 1 becomes 0 when clearing. */
  function WriteFlag(location: int, value: bool): int {
    if value then CompareExchange(location, 1, 0).0 else CompareExchange(location, 0, 1).0
  }

  predicate IsFlag(location: int) {
    location == 0 || location == 1
  }

  /** On a location holding 0 or 1 the setter is plain assignment of the
      boolean, the getter reads it back, and reading does not change it. */
  lemma FlagIsBoolean(location: int, value: bool)
    requires IsFlag(location)
    ensures IsFlag(WriteFlag(location, value))
    ensures ReadFlag(WriteFlag(location, value)) == value
    ensures CompareExchange(location, 1, 1).0 == location
    ensures ReadFlag(location) <==> location == 1
  {
  }

  // ---------------------------------------------------------------------
  // The controller as a state machine
  // ---------------------------------------------------------------------

  datatype ControllerState = ControllerState(
    requested: bool, processing: bool, status: Status,
    pending: Option<CameraFrame>, log: seq<Event>)

  /** `ProcessFrameSync` on a frame. `repeat` is the detection service's
      repeat mode, `tracked` what the tracking service returns for the
      frame. */
  function ProcessFrame(s: ControllerState, frame: CameraFrame, repeat: bool, tracked: seq<TrackedObject>): ControllerState {
    if s.status != Running then s
    else
      var s1 := if s.requested then s.(requested := repeat, log := s.log + [DetectIssued(frame)]) else s;
      if repeat then s1
      else s1.(processing := false, log := s1.log + [TrackCalled(frame), Visualised(tracked)])
  }

  function CountDetects(log: seq<Event>): nat {
    if |log| == 0 then 0 else (if log[|log| - 1].DetectIssued? then 1 else 0) + CountDetects(log[..|log| - 1])
  }

  function CountTracks(log: seq<Event>): nat {
    if |log| == 0 then 0 else (if log[|log| - 1].TrackCalled? then 1 else 0) + CountTracks(log[..|log| - 1])
  }

  lemma {:induction false} CountsAppend(a: seq<Event>, b: seq<Event>)
    ensures CountDetects(a + b) == CountDetects(a) + CountDetects(b)
    ensures CountTracks(a + b) == CountTracks(a) + CountTracks(b)
    decreases |b|
  {
    if |b| > 0 {
      var ab := a + b;
      assert ab[|ab| - 1] == b[|b| - 1];
      assert ab[..|ab| - 1] == a + b[..|b| - 1];
      CountsAppend(a, b[..|b| - 1]);
    } else {
      assert a + b == a;
    }
  }

  /** What one processed frame does:
      - unless Running, nothing;
      - one detection is issued exactly when one was requested, and the
        request survives only in repeat mode;
      - in repeat mode the frame is not tracked; otherwise it is tracked
        exactly once and the tracker's result is the last thing
        visualised. */
  lemma ProcessFrameProperties(s: ControllerState, frame: CameraFrame, repeat: bool, tracked: seq<TrackedObject>)
    ensures s.status != Running ==> ProcessFrame(s, frame, repeat, tracked) == s
    ensures var r := ProcessFrame(s, frame, repeat, tracked);
      s.status == Running ==>
        r.status == s.status && r.pending == s.pending &&
        |s.log| <= |r.log| && r.log[..|s.log|] == s.log &&
        CountDetects(r.log) == CountDetects(s.log) + (if s.requested then 1 else 0) &&
        r.requested == (s.requested && repeat) &&
        (repeat ==> CountTracks(r.log) == CountTracks(s.log) && r.processing == s.processing) &&
        (!repeat ==> CountTracks(r.log) == CountTracks(s.log) + 1 && !r.processing &&
                     r.log[|r.log| - 1] == Visualised(tracked))
  {
    if s.status == Running {
      var r := ProcessFrame(s, frame, repeat, tracked);
      var added := (if s.requested then [DetectIssued(frame)] else []) +
                   (if repeat then [] else [TrackCalled(frame), Visualised(tracked)]);
      assert r.log == s.log + added;
      CountsAppend(s.log, added);
      AddedCounts(DetectIssued(frame), TrackCalled(frame), Visualised(tracked), s.requested, repeat);
    }
  }

  /** The events one processed frame appends: a detection when requested,
      then, outside repeat mode, one tracking call and its visualisation. */
  lemma AddedCounts(d: Event, t: Event, v: Event, requested: bool, repeat: bool)
    requires d.DetectIssued? && t.TrackCalled? && v.Visualised?
    ensures var added := (if requested then [d] else []) + (if repeat then [] else [t, v]);
      CountDetects(added) == (if requested then 1 else 0) &&
      CountTracks(added) == (if repeat then 0 else 1)
  {
    assert [d][..0] == [] && [t][..0] == [];
    assert CountDetects([d]) == 1 && CountTracks([d]) == 0;
    assert [t, v][..1] == [t];
    assert CountDetects([t]) == 0 && CountTracks([t]) == 1;
    if requested && !repeat {
      assert [d] + [t, v] == [d, t, v];
      assert [d, t, v][..2] == [d, t] && [d, t][..1] == [d];
    }
  }

  /** `OnObjectsDetected` with the detection task's result (`None` when the
      service refused the request) and, outside repeat mode, the tracked
      objects the pool reports after initialisation. */
  function ObjectsDetected(s: ControllerState, result: Option<seq<DetectedObject>>, repeat: bool,
                           initialised: seq<TrackedObject>): ControllerState {
    match result
    case None => s
    case Some(detections) =>
      if repeat then
        s.(log := s.log + [TrackTicked, Visualised(seq(|detections|, i requires 0 <= i < |detections| => FromDetection(detections[i])))])
      else
        s.(log := s.log + [PoolReset, PoolInitialised(detections), Visualised(initialised)])
  }

  /** A refused detection changes nothing. In repeat mode the detections are
      shown one to one as tracked objects, with their boxes and labels,
      and the tracker pool is left alone; otherwise the pool is reset before
      it is initialised from exactly these detections. */
  lemma ObjectsDetectedProperties(s: ControllerState, result: Option<seq<DetectedObject>>, repeat: bool,
                                  initialised: seq<TrackedObject>)
    ensures result.None? ==> ObjectsDetected(s, result, repeat, initialised) == s
    ensures var r := ObjectsDetected(s, result, repeat, initialised);
      result.Some? ==>
        r.(log := s.log) == s && |r.log| > |s.log| && r.log[..|s.log|] == s.log &&
        (repeat ==>
          PoolReset !in r.log[|s.log|..] &&
          var shown := r.log[|r.log| - 1];
          shown.Visualised? && |shown.objects| == |result.value| &&
          forall i :: 0 <= i < |result.value| ==>
            shown.objects[i].rect == result.value[i].rect && shown.objects[i].tag == result.value[i].tag) &&
        (!repeat ==>
          r.log[|s.log|..] == [PoolReset, PoolInitialised(result.value), Visualised(initialised)])
  {
    if result.Some? {
      var r := ObjectsDetected(s, result, repeat, initialised);
      if repeat {
        var shown := r.log[|r.log| - 1];
        assert r.log[|s.log|..] == [TrackTicked, shown];
      } else {
        assert r.log[|s.log|..] == [PoolReset, PoolInitialised(result.value), Visualised(initialised)];
      }
    }
  }

  /** The synchronous frame handler: a frame arriving while another is
      processed is dropped; otherwise it is processed and the flag cleared. */
  function FrameArrivedSync(s: ControllerState, frame: CameraFrame, repeat: bool, tracked: seq<TrackedObject>): ControllerState {
    if s.processing then s
    else ProcessFrame(s.(processing := true), frame, repeat, tracked).(processing := false)
  }

  /** The asynchronous frame handler: a dropped frame as above, otherwise the
      frame is handed to a background task. */
  function FrameArrivedAsync(s: ControllerState, frame: CameraFrame): ControllerState {
    if s.processing then s
    else s.(processing := true, pending := Some(frame))
  }

  /** The background task and its continuation, which clears the flag. */
  function RunPending(s: ControllerState, repeat: bool, tracked: seq<TrackedObject>): ControllerState
    requires s.pending.Some?
  {
    ProcessFrame(s.(pending := None), s.pending.value, repeat, tracked).(processing := false)
  }

  /** A frame that finds the processing flag set leaves no trace: no
      detection, no tracking, no state change, in either mode. Otherwise the
      synchronous handler always ends with the flag clear, and an accepted
      asynchronous frame keeps every later one out until its task has run. */
  lemma FrameHandlingProperties(s: ControllerState, frame: CameraFrame, later: CameraFrame, repeat: bool,
                                tracked: seq<TrackedObject>)
    ensures s.processing ==> FrameArrivedSync(s, frame, repeat, tracked) == s
    ensures s.processing ==> FrameArrivedAsync(s, frame) == s
    ensures !s.processing ==>
      !FrameArrivedSync(s, frame, repeat, tracked).processing &&
      var a := FrameArrivedAsync(s, frame);
      a.pending == Some(frame) && FrameArrivedAsync(a, later) == a &&
      !RunPending(a, repeat, tracked).processing
  {
  }

  // ---------------------------------------------------------------------
  // The controller object
  // ---------------------------------------------------------------------

  class Controller {
    var objectDetectionRequested: int
    var isProcessingFrame: int
    var status: Status
    /** Whether frames are processed on the event thread. */
    var sync: bool
    /** The handler `Start` subscribed: the synchronous one if true. */
    var subscribedSync: bool
    /** A frame handed to a background task that has not run yet. */
    var pending: Option<CameraFrame>
    var log: seq<Event>

    ghost predicate Valid()
      reads this
    {
      IsFlag(objectDetectionRequested) && IsFlag(isProcessingFrame)
    }

    ghost function State(): ControllerState
      reads this
    {
      ControllerState(ReadFlag(objectDetectionRequested), ReadFlag(isProcessingFrame), status, pending, log)
    }

    constructor(sync: bool)
      ensures Valid()
      ensures State() == ControllerState(false, false, Idle, None, [])
      ensures this.sync == sync
    {
      objectDetectionRequested := 0;
      isProcessingFrame := 0;
      status := Idle;
      this.sync := sync;
      subscribedSync := sync;
      pending := None;
      log := [];
    }

    function IsObjectDetectionRequested(): (r: bool)
      reads this
      requires Valid()
      ensures r <==> objectDetectionRequested == 1
    {
      ReadFlag(objectDetectionRequested)
    }

    method SetObjectDetectionRequested(value: bool)
      requires Valid()
      modifies this
      ensures Valid()
      ensures State() == old(State()).(requested := value)
      ensures sync == old(sync) && subscribedSync == old(subscribedSync)
    {
      FlagIsBoolean(objectDetectionRequested, value);
      objectDetectionRequested := CompareExchange(objectDetectionRequested, if value then 1 else 0, if value then 0 else 1).0;
    }

    function IsProcessingFrame(): (r: bool)
      reads this
      requires Valid()
      ensures r <==> isProcessingFrame == 1
    {
      ReadFlag(isProcessingFrame)
    }

    method SetProcessingFrame(value: bool)
      requires Valid()
      modifies this
      ensures Valid()
      ensures State() == old(State()).(processing := value)
      ensures sync == old(sync) && subscribedSync == old(subscribedSync)
    {
      FlagIsBoolean(isProcessingFrame, value);
      isProcessingFrame := CompareExchange(isProcessingFrame, if value then 1 else 0, if value then 0 else 1).0;
    }

    /** `Start`, once the frame reader has started: the handler chosen by
        `sync` is subscribed and the status becomes Running. */
    method Start()
      requires Valid()
      modifies this
      ensures Valid()
      ensures State() == old(State()).(status := Running)
      ensures subscribedSync == sync && sync == old(sync)
    {
      subscribedSync := sync;
      status := Running;
    }

    /** The switch that toggles synchronous processing; the subscribed
        handler stays as it was. */
    method ProcessFrameSyncToggled(isToggled: bool)
      requires Valid()
      modifies this
      ensures Valid()
      ensures State() == old(State())
      ensures sync == isToggled && subscribedSync == old(subscribedSync)
    {
      sync := isToggled;
    }

    method ProcessFrameSync(frame: CameraFrame, repeat: bool, tracked: seq<TrackedObject>)
      requires Valid()
      modifies this
      ensures Valid()
      ensures State() == ProcessFrame(old(State()), frame, repeat, tracked)
      ensures sync == old(sync) && subscribedSync == old(subscribedSync)
    {
      if status != Running {
        return;
      }
      if IsObjectDetectionRequested() {
        if !repeat {
          SetObjectDetectionRequested(false);
        }
        log := log + [DetectIssued(frame)];
      }
      if repeat {
        return;
      }
      log := log + [TrackCalled(frame)];
      SetProcessingFrame(false);
      log := log + [Visualised(tracked)];
    }

    method OnObjectsDetected(result: Option<seq<DetectedObject>>, repeat: bool, initialised: seq<TrackedObject>)
      requires Valid()
      modifies this
      ensures Valid()
      ensures State() == ObjectsDetected(old(State()), result, repeat, initialised)
      ensures sync == old(sync) && subscribedSync == old(subscribedSync)
    {
      if result.None? {
        return;
      }
      var detections := result.value;
      if repeat {
        var trackedObjects := seq(|detections|, i requires 0 <= i < |detections| => FromDetection(detections[i]));
        log := log + [TrackTicked];
        log := log + [Visualised(trackedObjects)];
      } else {
        log := log + [PoolReset];
        log := log + [PoolInitialised(detections)];
        log := log + [Visualised(initialised)];
      }
    }

    method CameraServiceOnFrameArrivedSync(frame: CameraFrame, repeat: bool, tracked: seq<TrackedObject>)
      requires Valid()
      modifies this
      ensures Valid()
      ensures State() == FrameArrivedSync(old(State()), frame, repeat, tracked)
      ensures sync == old(sync) && subscribedSync == old(subscribedSync)
    {
      if IsProcessingFrame() {
        return;
      }
      SetProcessingFrame(true);
      ProcessFrameSync(frame, repeat, tracked);
      SetProcessingFrame(false);
    }

    method CameraServiceOnFrameArrivedAsync(frame: CameraFrame)
      requires Valid()
      modifies this
      ensures Valid()
      ensures State() == FrameArrivedAsync(old(State()), frame)
      ensures sync == old(sync) && subscribedSync == old(subscribedSync)
    {
      if IsProcessingFrame() {
        return;
      }
      SetProcessingFrame(true);
      pending := Some(frame);
    }

    /** The background task of the asynchronous handler, run to completion. */
    method RunPendingFrame(repeat: bool, tracked: seq<TrackedObject>)
      requires Valid() && pending.Some?
      modifies this
      ensures Valid()
      ensures State() == RunPending(old(State()), repeat, tracked)
      ensures sync == old(sync) && subscribedSync == old(subscribedSync)
    {
      var frame := pending.value;
      pending := None;
      ProcessFrameSync(frame, repeat, tracked);
      SetProcessingFrame(false);
    }

    /** A camera frame reaches the handler `Start` subscribed. */
    method FrameArrived(frame: CameraFrame, repeat: bool, tracked: seq<TrackedObject>)
      requires Valid()
      modifies this
      ensures Valid()
      ensures subscribedSync ==> State() == FrameArrivedSync(old(State()), frame, repeat, tracked)
      ensures !subscribedSync ==> State() == FrameArrivedAsync(old(State()), frame)
      ensures sync == old(sync) && subscribedSync == old(subscribedSync)
    {
      if subscribedSync {
        CameraServiceOnFrameArrivedSync(frame, repeat, tracked);
      } else {
        CameraServiceOnFrameArrivedAsync(frame);
      }
    }

    /** `Reset`: both flags cleared and every service reset. */
    method Reset()
      requires Valid()
      modifies this
      ensures Valid()
      ensures !State().requested && !State().processing
      ensures State() == old(State()).(requested := false, processing := false,
        log := old(log) + [DetectionServiceReset, PoolReset, VisualizationReset])
      ensures sync == old(sync) && subscribedSync == old(subscribedSync)
    {
      SetObjectDetectionRequested(false);
      log := log + [DetectionServiceReset];
      log := log + [PoolReset];
      log := log + [VisualizationReset];
      SetProcessingFrame(false);
    }

    method RequestObjectDetection()
      requires Valid()
      modifies this
      ensures Valid()
      ensures State() == old(State()).(requested := true)
      ensures sync == old(sync) && subscribedSync == old(subscribedSync)
    {
      SetObjectDetectionRequested(true);
    }

    /** The D key requests a detection, only while Running. */
    method DetectKeyPressed()
      requires Valid()
      modifies this
      ensures Valid()
      ensures State() == if old(status) == Running then old(State()).(requested := true) else old(State())
      ensures sync == old(sync) && subscribedSync == old(subscribedSync)
    {
      if status == Running {
        SetObjectDetectionRequested(true);
      }
    }

    /** The R key resets, only while Running. */
    method ResetKeyPressed()
      requires Valid()
      modifies this
      ensures Valid()
      ensures old(status) != Running ==> State() == old(State())
      ensures old(status) == Running ==>
        (!State().requested && !State().processing &&
         log == old(log) + [DetectionServiceReset, PoolReset, VisualizationReset])
      ensures sync == old(sync) && subscribedSync == old(subscribedSync)
    {
      if status == Running {
        Reset();
      }
    }
  }

  /** A requested detection is issued by the next frame processed while
      Running, and in single-shot mode only once: a second frame issues no
      further detection. */
  lemma {:induction false} RequestIssuedOnce(s: ControllerState, f1: CameraFrame, f2: CameraFrame,
                                             tracked1: seq<TrackedObject>, tracked2: seq<TrackedObject>)
    requires s.status == Running && s.requested && !s.processing
    ensures var s1 := FrameArrivedSync(s, f1, false, tracked1);
      var s2 := FrameArrivedSync(s1, f2, false, tracked2);
      CountDetects(s1.log) == CountDetects(s.log) + 1 &&
      CountDetects(s2.log) == CountDetects(s1.log) &&
      CountTracks(s2.log) == CountTracks(s.log) + 2
  {
    var p1 := s.(processing := true);
    ProcessFrameProperties(p1, f1, false, tracked1);
    var s1 := FrameArrivedSync(s, f1, false, tracked1);
    var p2 := s1.(processing := true);
    ProcessFrameProperties(p2, f2, false, tracked2);
  }
}
