# LabAssistVision in Dafny

LabAssistVision is a Unity application for the HoloLens. It finds laboratory
objects in the camera stream and labels them in the room. Every camera frame
goes to the `Controller`. When the user has asked for a detection, the frame
is sent to an object detector. This is either the Custom Vision cloud service
or a local YOLO-style network (`CustomVisionLocal`). The detections seed a
pool of OpenCV trackers (`ObjectTrackingService` and `CvTracker`). These
trackers follow the objects through the frames that come after. The
`VisualizationManager` turns each tracked object into a point in the room
and keeps one tooltip per object.

This project models that core:

- Camera side: the camera parameters of each profile, the locatable camera's
  frame reader and frame counter, the camera pose, and the
  System.Numerics/Unity conversions.
- Frame-rate bookkeeping.
- The tracked and detected object records.
- The tracker pool, with its per-object staleness rule and the removal of
  lost trackers.
- The detection service's request governor and probability filter.
- The cloud detector's response handling.
- The local detector's tensor decoding, softmax and IoU suppression.
- The visualisation manager's tooltip reconciliation.
- The controller's request and frame-processing state machine.

Code that updates objects in place is modelled as classes with `modifies`
clauses. Each method is proved against a specification function on a value
snapshot (`State()`, `Snapshot()`), and the properties are proved as lemmas
about those functions. Code that only computes is modelled as functions.
Anything the program cannot see is a parameter of the model:

- the OpenCV tracker's answer for each tracker (`track`);
- the spatial-mesh raycast and the camera's unprojection (`Scene`);
- the JSON parser (`parse`);
- the network's output tensor (`Tensor`);
- `Math.Exp` (`exp`);
- the clock (`now`);
- whether the caller is on Unity's main thread.

`float` and `double` become `real`. C# `int` arithmetic is modelled
explicitly where it can overflow, in the `CSharpInt` module: wrap-around,
shifts, truncating division, `Interlocked.Increment` and the `uint` cast.

Four parts of the source are modelled as written, and each has a corrected
version beside it:

- the tooltip reconciliation in `VisualizationManager`;
- the request governor;
- the disabled staleness threshold;
- the local detector's suppression threshold.

The classes follow the code as written. Each corrected definition carries
the property the code evidently intends (see "## Findings").

## Model

| member | source | states |
|---|---|---|
| CSharpInt.WrapInt32 | Assets/LabAssistVision/Camera/LocatableCamera.cs:327 | the result is the 32-bit two's-complement value congruent to the input modulo 2^32, and in-range inputs are unchanged |
| CSharpInt.ShiftRightInt32 | Assets/LabVision/Camera/LocatableCamera.cs:302 | `>>` on `int` is floor division by 2^n, staying in range |
| CSharpInt.ShiftLeftInt32 | Assets/LabVision/Camera/LocatableCamera.cs:302 | `<<` on `int` is multiplication by 2^n modulo 2^32: the product itself whenever it fits, and always a 32-bit value |
| CSharpInt.TruncatingDiv | Assets/LabVision/Camera/LocatableCamera.cs:209 | C# integer division by a positive divisor rounds toward zero, and the remainder takes the dividend's sign |
| CSharpInt.IncrementInt32 | Assets/LabVision/Camera/LocatableCamera.cs:282 | `Interlocked.Increment` adds one and wraps `int.MaxValue` to `int.MinValue` |
| CSharpInt.ToUInt32 | Assets/LabVision/Camera/LocatableCamera.cs:285 | the unchecked `(uint)` cast maps an `int` to its value modulo 2^32 in [0, 2^32) |
| Geometry.Vector2ToUnity | Assets/LabAssistVision/Utils/NumericsConversionExtensions.cs:12 | the components are copied unchanged |
| Geometry.Vector3ToUnity | Assets/LabAssistVision/Utils/NumericsConversionExtensions.cs:13 | keeps x and y and negates z (left- to right-handed), and converting back gives the input |
| Geometry.QuaternionToUnity | Assets/LabAssistVision/Utils/NumericsConversionExtensions.cs:14 | negates x and y and keeps z and w, and converting back gives the input quaternion |
| Geometry.MatrixToUnity | Assets/LabAssistVision/Utils/NumericsConversionExtensions.cs:15-19 | Unity column c is Numerics row c with the z entries negated (entry M33 kept), and converting back gives the input matrix |
| Geometry.Vector3RoundTrip | Assets/LabAssistVision/Utils/NumericsConversionExtensions.cs:21 | Unity to Numerics to Unity is the identity on vectors |
| Geometry.QuaternionRoundTrip | Assets/LabAssistVision/Utils/NumericsConversionExtensions.cs:22 | Unity to Numerics to Unity is the identity on quaternions |
| Geometry.MatrixRoundTrip | Assets/LabAssistVision/Utils/NumericsConversionExtensions.cs:23-27 | Unity to Numerics to Unity is the identity on matrices, so together with the row above the conversion is a bijection |
| Geometry.MatrixToUnityTranslation | Assets/LabAssistVision/Utils/NumericsConversionExtensions.cs:15-19 | the fourth column of the converted matrix is the Numerics translation row, and its w is M44 |
| Geometry.Matrix4x4.GetColumn | Assets/LabAssistVision/Camera/CameraExtrinsic.cs:30-45 | column c holds the entries (0,c) to (3,c) |
| Geometry.FromColumns | Assets/LabAssistVision/Camera/CameraExtrinsic.cs:30-45 | the matrix built from four columns gives back those columns |
| CameraModel.CameraExtrinsic.Right | Assets/LabAssistVision/Camera/CameraExtrinsic.cs:30 | the right vector is column 0 of viewFromWorld |
| CameraModel.CameraExtrinsic.Upwards | Assets/LabAssistVision/Camera/CameraExtrinsic.cs:35 | the up vector is column 1 |
| CameraModel.CameraExtrinsic.Forward | Assets/LabAssistVision/Camera/CameraExtrinsic.cs:40 | the forward vector is column 2 |
| CameraModel.CameraExtrinsic.Position | Assets/LabAssistVision/Camera/CameraExtrinsic.cs:45 | the position is the xyz of column 3 |
| CameraModel.CopyExtrinsic | Assets/LabAssistVision/Camera/CameraExtrinsic.cs:52-55 | the copy has the same position, forward, right and up vectors as the original |
| CameraModel.ExtrinsicFromTransform | Assets/LabAssistVision/Camera/CameraExtrinsic.cs:58-70 | a missing transform gives the identity; otherwise the stored matrix converts back to exactly the given transform |
| CameraModel.PositionOfTransform | Assets/LabAssistVision/Camera/CameraExtrinsic.cs:62-69 | the camera position is the transform's translation, or the origin when there is no transform |
| CameraParameters.Parameters | Assets/LabAssistVision/Camera/CameraParameters.cs:29-175 | every profile gets the width, height and frame rate its name states, except HL2_1504x846_10, which gets 5 fps; every mode is landscape with a positive frame rate |
| CameraParameters.CorrectedParameters | Assets/LabAssistVision/Camera/CameraParameters.cs:31-172 | every profile gets exactly the mode its name states |
| CameraParameters.TenFpsProfileCollapses | Assets/LabAssistVision/Camera/CameraParameters.cs:108-112 | as written, the 10 fps profile is the same mode as the 5 fps one, and no profile runs at 10 fps |
| CameraParameters.CorrectedParametersInjective | Assets/LabAssistVision/Camera/CameraParameters.cs:182-212 | with the correction, distinct profiles give distinct modes |
| LocatableCameraModel.PadTo64 | Assets/LabAssistVision/Camera/LocatableCamera.cs:324-330 | multiples of 64 are unchanged; any other width below the overflow zone rounds up to the next multiple of 64; the result is a 32-bit value |
| LocatableCameraModel.PadTo64Idempotent | Assets/LabVision/Camera/LocatableCamera.cs:299-305 | padding twice is padding once |
| LocatableCameraModel.PadTo64Overflows | Assets/LabAssistVision/Camera/LocatableCamera.cs:327 | widths in the last 63 below `int.MaxValue` that are not multiples of 64 wrap to `int.MinValue` |
| LocatableCameraModel.BitmapRows | Assets/LabAssistVision/Camera/LocatableCamera.cs:233-234 | grayscale needs frameHeight rows; NV12 needs floor(3/2 · frameHeight) rows |
| LocatableCameraModel.LocatableCamera.constructor | Assets/LabAssistVision/Camera/LocatableCamera.cs:43-55 | a new camera has no reader, no buffer and a zero frame counter |
| LocatableCameraModel.LocatableCamera.CreateFrameReader | Assets/LabAssistVision/Camera/LocatableCamera.cs:198-225 | fails without a selected format; succeeds exactly when both sizes fit in `int`, storing the padded width and the height |
| LocatableCameraModel.LocatableCamera.InitializeBitmap | Assets/LabVision/Camera/LocatableCamera.cs:205-211 | throws InvalidOperation without a reader; otherwise allocates BitmapRows × frameWidth |
| LocatableCameraModel.LocatableCamera.OnFrameArrived | Assets/LabAssistVision/Camera/LocatableCamera.cs:283-316 | no image ends the handler quietly; an image with no buffer is an ArgumentNull failure; otherwise the frame carries the configured size and the incremented counter as `uint` |
| LocatableCameraModel.FrameNumbersCount | Assets/LabVision/Camera/LocatableCamera.cs:282-285 | until the counter wraps, the n-th frame is numbered n |
| Fps.LastN | Assets/LabAssistVision/Utils/FPSUtils.cs:59-62 | keeps the newest min(n, length) entries, in order |
| Fps.Tick | Assets/LabAssistVision/Utils/FPSUtils.cs:57-64 | enqueuing a tick and dropping the oldest past 50 keeps the last 50 ticks |
| Fps.LastNOfLastN | Assets/LabAssistVision/Utils/FPSUtils.cs:108-115 | trimming before appending equals trimming after it |
| Fps.TickAllKeepsLastWindow | Assets/LabAssistVision/Utils/FPSUtils.cs:83-90 | after any sequence of ticks the queue holds the last 50 timestamps |
| Fps.DeltaTime | Assets/LabAssistVision/Utils/FPSUtils.cs:70-77 | positive infinity exactly for an empty queue; otherwise the oldest tick's age in 100 ns ticks divided by 500000 |
| Fps.DeltaTimeNonNegative | Assets/LabAssistVision/Utils/FPSUtils.cs:121-128 | with a monotone clock the reported delta time is never negative |
| Fps.FpsUtils.constructor | Assets/LabAssistVision/Utils/FPSUtils.cs:42-52 | all three queues start empty |
| Fps.FpsUtils.RenderTick | Assets/LabAssistVision/Utils/FPSUtils.cs:57-64 | the render queue takes the tick; the other queues are unchanged |
| Fps.FpsUtils.VideoTick | Assets/LabAssistVision/Utils/FPSUtils.cs:83-90 | the video queue takes the tick; the other queues are unchanged |
| Fps.FpsUtils.TrackTick | Assets/LabAssistVision/Utils/FPSUtils.cs:108-115 | the tracking queue takes the tick; the other queues are unchanged |
| Predictions.TagOrEmpty | Assets/LabVision/Detection/CustomVision.cs:82 | `tagName ?? ""` |
| TrackedObjects.NewTrackedObject | Assets/LabAssistVision/Models/TrackedObject.cs:22-34 | throws ArgumentOutOfRange exactly for frame height 0; otherwise stores every argument |
| TrackedObjects.CopyTrackedObject | Assets/LabAssistVision/Models/TrackedObject.cs:36-45 | a copy equals its original and fails only where construction fails |
| TrackedObjects.UpdatedTrackedObject | Assets/LabAssistVision/Models/TrackedObject.cs:47 | keeps the label and takes the new rectangle and the frame's camera pose and height |
| TrackedObjects.FromDetection | Assets/LabAssistVision/Models/TrackedObject.cs:49-58 | takes rectangle, label, height and camera pose from the detection and its frame |
| TrackedObjects.FromDetectionAgreesWithConstructor | Assets/LabVision/Models/TrackedObject.cs:46-55 | for a frame with height, the detection constructor agrees with the general constructor |
| TrackedObjects.CopyDetectedObject | Assets/LabAssistVision/Models/DetectedObject.cs:28-34 | a copy equals its original |
| TrackedObjects.OffsetFactor | Assets/LabAssistVision/Models/TrackedObject.cs:71-76 | 0.5 looking straight down (angle 0 from down), 1.0 looking level (90°), between them for 0–90°, 0 (the top edge) beyond 90° |
| TrackedObjects.BoundingBoxTarget | Assets/LabAssistVision/Models/TrackedObject.cs:68-78 | horizontally centred; vertically the top plus the height scaled by the offset factor |
| TrackedObjects.TargetInLowerHalf | Assets/LabVision/Models/TrackedObject.cs:65-75 | for 0–90° the target lies in the lower half of the box and moves down the box as the camera tilts up from straight down towards level |
| TrackedObjects.ToCartesian | Assets/LabAssistVision/Models/TrackedObject.cs:85-88 | keeps x and reflects y about the frame height |
| TrackedObjects.ToCartesianInvolution | Assets/LabVision/Models/TrackedObject.cs:82-85 | applying the flip twice gives the point back |
| TrackedObjects.CameraPosition | Assets/LabVision/Models/TrackedObject.cs:117-124 | the xyz of column 3 of the camera's viewFromWorld |
| CvTrackedObjects.NewSlot | Assets/LabAssistVision/Models/CvTrackedObject.cs:21-28 | a new slot is marked updated, has stale count 0 and has the empty last rectangle |
| CvTrackedObjects.SlotUpdate | Assets/LabAssistVision/Models/CvTrackedObject.cs:40-51 | the update flag records whether the tracker answered; an answer moves the object to the reported rectangle in the new frame |
| CvTrackedObjects.SlotIsOutdated | Assets/LabAssistVision/Models/CvTrackedObject.cs:30-38 | outdated exactly when the last update failed; otherwise the stale count grows while the box stands still and resets when it moves |
| CvTrackedObjects.SlotIsOutdatedWithThreshold | Assets/LabAssistVision/Models/CvTrackedObject.cs:33 | with the disabled check restored: outdated on a failure or at 200 still frames |
| CvTrackedObjects.StepEvictsExactlyOnFailure | Assets/LabAssistVision/Models/CvTrackedObject.cs:43-50 | as written, one frame evicts a slot iff its tracker lost the object; a survivor sits at the reported rectangle with the same label |
| CvTrackedObjects.StillSlotNeverEvicted | Assets/LabAssistVision/Models/CvTrackedObject.cs:18 | as written, a tracker stuck on one rectangle is never evicted, however many frames pass |
| CvTrackedObjects.StillSlotEvictedWithThreshold | Assets/LabAssistVision/Models/CvTrackedObject.cs:17-19 | with the threshold, a rectangle frozen for more than 200 frames is evicted |
| CvTrackedObjects.CvTrackedObject.constructor | Assets/LabAssistVision/Models/CvTrackedObject.cs:17-28 | the object starts in NewSlot's state with its tracker |
| CvTrackedObjects.CvTrackedObject.Update | Assets/LabAssistVision/Models/CvTrackedObject.cs:40-51 | the state moves as SlotUpdate says |
| CvTrackedObjects.CvTrackedObject.IsOutdated | Assets/LabAssistVision/Models/CvTrackedObject.cs:31-37 | verdict and new state as SlotIsOutdated says |
| CvTrackedObjects.CvTrackedObject.GetLabel | Assets/LabAssistVision/Models/CvTrackedObject.cs:63-66 | the tracked object's label |
| CvTrackedObjects.CvTrackedObject.GetTrackedObject | Assets/LabAssistVision/Models/CvTrackedObject.cs:69-72 | the current tracked object |
| CvTrackers.Keep | Assets/LabVision/Tracking/CvTracker.cs:62-65 | keeps a subset of the list, never longer |
| CvTrackers.KeepMembership | Assets/LabVision/Tracking/CvTracker.cs:62-67 | in a duplicate-free list, an element survives iff it was not flagged |
| CvTrackers.ListRemove | Assets/LabVision/Tracking/CvTracker.cs:64 | `List.Remove` of an absent element leaves the list as it was |
| CvTrackers.RemoveFromWithout | Assets/LabVision/Tracking/CvTracker.cs:62-65 | removing one more outdated slot equals filtering by the enlarged set |
| CvTrackers.WithoutFlagged | Assets/LabVision/Tracking/CvTracker.cs:62-65 | removing the flagged slots one by one equals keeping the unflagged ones |
| CvTrackers.Flagged | Assets/LabVision/Tracking/CvTracker.cs:57 | the outdated list contains only pool members |
| CvTrackers.FlaggedMembership | Assets/LabVision/Tracking/CvTracker.cs:55-57 | a slot is in the outdated list iff its verdict was true |
| CvTrackers.FlaggedDistinct | Assets/LabVision/Tracking/CvTracker.cs:55-57 | the outdated list has no duplicates |
| CvTrackers.KeepDistinct | Assets/LabVision/Tracking/CvTracker.cs:67 | the surviving pool stays duplicate-free |
| CvTrackers.Verdicts | Assets/LabVision/Tracking/CvTracker.cs:50-60 | one verdict per slot |
| CvTrackers.SurvivesIffTracked | Assets/LabVision/Tracking/CvTracker.cs:50-67 | after a frame, a slot stays in the pool iff its tracker reported a rectangle |
| CvTrackers.CvTracker.Snapshot | Assets/LabVision/Tracking/CvTracker.cs:50-60 | the k-th entry is the k-th slot's state |
| CvTrackers.CvTracker.Objects | Assets/LabVision/Tracking/CvTracker.cs:67 | the k-th entry is the k-th slot's tracked object |
| CvTrackers.CvTracker.constructor | Assets/LabVision/Tracking/CvTracker.cs:19 | the pool starts empty |
| CvTrackers.CvTracker.Initialize | Assets/LabVision/Tracking/CvTracker.cs:21-37 | appends one fresh slot holding the new tracked object and its tracker; the other slots are unchanged |
| CvTrackers.CvTracker.Update | Assets/LabVision/Tracking/CvTracker.cs:43-68 | every slot steps; the pool keeps exactly the slots not judged outdated, in order; the result lists their objects |
| CvTrackers.CvTracker.StepSlot | Assets/LabVision/Tracking/CvTracker.cs:53-54 | one slot's update followed by its outdated check is one Step of its state |
| CvTrackers.CvTracker.StepSlots | Assets/LabVision/Tracking/CvTracker.cs:50-60 | each slot is updated and judged; the outdated ones are returned in order |
| CvTrackers.CvTracker.RemoveSlots | Assets/LabVision/Tracking/CvTracker.cs:62-65 | the pool loses exactly the outdated slots |
| CvTrackers.CvTracker.CollectObjects | Assets/LabVision/Tracking/CvTracker.cs:67 | one tracked object per remaining slot, in order |
| CvTrackers.CvTracker.Reset | Assets/LabVision/Tracking/CvTracker.cs:72-75 | the pool is empty afterwards |
| Ordering.SortByDescending | Assets/LabAssistVision/Experimental/CustomVisionLocal.cs:455-457 | a permutation of the input, sorted by descending key |
| Ordering.InsertDescending | Assets/LabAssistVision/Experimental/CustomVisionLocal.cs:456 | the result is the input with the new element added, nothing lost or duplicated |
| Ordering.InsertKeepsOrder | Assets/LabAssistVision/Experimental/CustomVisionLocal.cs:455-457 | insertion keeps a sorted sequence sorted and puts the new element before equal keys (stability) |
| Ordering.ArgMaxFirst | Assets/MixedRealityToolkit.Generated/Extensions/Tracking/ObjectTrackingService.cs:115 | the index of the first maximal element |
| Ordering.FirstOfSortIsFirstMaximum | Assets/MixedRealityToolkit.Generated/Extensions/Tracking/ObjectTrackingService.cs:115-116 | the head of the stable descending sort is the first element of maximal key |
| ObjectTracking.Implementation | Assets/MixedRealityToolkit.Generated/Extensions/Tracking/ObjectTrackingService.cs:35-63 | every tracker kind has an algorithm, except the test value, which throws Argument |
| ObjectTracking.ImplementationInjective | Assets/MixedRealityToolkit.Generated/Extensions/Tracking/ObjectTrackingService.cs:37-59 | different tracker kinds give different algorithms |
| ObjectTracking.MostProbable | Assets/MixedRealityToolkit.Generated/Extensions/Tracking/ObjectTrackingService.cs:115-120 | none exactly for no detections; otherwise a detection of maximal probability |
| ObjectTracking.MostProbableIsFirstMaximum | Assets/MixedRealityToolkit.Generated/Extensions/Tracking/ObjectTrackingService.cs:115 | ties go to the earliest detection |
| ObjectTracking.Copies | Assets/MixedRealityToolkit.Generated/Extensions/Tracking/ObjectTrackingService.cs:122-126 | max(count, 0) copies of the detection |
| ObjectTracking.Seeds | Assets/MixedRealityToolkit.Generated/Extensions/Tracking/ObjectTrackingService.cs:112-132 | all detections normally; with a fixed count, that many copies of the most probable detection (none when nothing was detected) |
| ObjectTracking.SeedObjects | Assets/MixedRealityToolkit.Generated/Extensions/Tracking/ObjectTrackingService.cs:127 | one tracked object per seed, built from it |
| ObjectTracking.ObjectTrackingService.constructor | Assets/MixedRealityToolkit.Generated/Extensions/Tracking/ObjectTrackingService.cs:24-33 | an empty pool on the configured tracker's algorithm, with the configured fixed-count settings |
| ObjectTracking.ObjectTrackingService.TrackedObjects | Assets/MixedRealityToolkit.Generated/Extensions/Tracking/ObjectTrackingService.cs:18 | the last published objects |
| ObjectTracking.ObjectTrackingService.SwitchTracker | Assets/MixedRealityToolkit.Generated/Extensions/Tracking/ObjectTrackingService.cs:65-70 | the pool and objects are cleared; a fresh tracker on the new algorithm exists iff the kind is valid |
| ObjectTracking.ObjectTrackingService.Reset | Assets/MixedRealityToolkit.Generated/Extensions/Tracking/ObjectTrackingService.cs:72-77 | empties the pool and the objects; the settings are kept |
| ObjectTracking.ObjectTrackingService.ToggleFixedTrackerCount | Assets/MixedRealityToolkit.Generated/Extensions/Tracking/ObjectTrackingService.cs:83-87 | flips the fixed-count flag and nothing else |
| ObjectTracking.ObjectTrackingService.ChangeFixedTrackerCount | Assets/MixedRealityToolkit.Generated/Extensions/Tracking/ObjectTrackingService.cs:89-92 | sets the count and nothing else |
| ObjectTracking.ObjectTrackingService.TrackSync | Assets/MixedRealityToolkit.Generated/Extensions/Tracking/ObjectTrackingService.cs:96-106 | steps the pool as CvTracker.Update does, publishes the survivors' objects and records one tracking tick |
| ObjectTracking.ObjectTrackingService.CopySeeds | Assets/MixedRealityToolkit.Generated/Extensions/Tracking/ObjectTrackingService.cs:122-126 | the clone loop yields exactly Copies of the most probable detection |
| ObjectTracking.ObjectTrackingService.InitializeTrackers | Assets/MixedRealityToolkit.Generated/Extensions/Tracking/ObjectTrackingService.cs:108-135 | adds one fresh slot per seed and returns their objects; a fixed count with no detection changes nothing |
| ObjectTracking.ObjectTrackingService.InitializeAll | Assets/MixedRealityToolkit.Generated/Extensions/Tracking/ObjectTrackingService.cs:131 | one fresh slot per seed is appended after the existing ones |
| Detection.AboveMinimal | Assets/MixedRealityToolkit.Generated/Extensions/Detection/CustomVisionObjectDetectionService.cs:55 | exactly the detections above the minimal probability |
| Detection.AboveMinimalKeepsOrder | Assets/MixedRealityToolkit.Generated/Extensions/Detection/CustomVisionObjectDetectionService.cs:55 | the filter distributes over concatenation, so the order is kept |
| Detection.StepGovernor | Assets/MixedRealityToolkit.Generated/Extensions/Detection/CustomVisionObjectDetectionService.cs:52-57 | a Begin never lowers the number of requests in flight |
| Detection.AsWrittenAdmitsOneOverLimit | Assets/MixedRealityToolkit.Generated/Extensions/Detection/CustomVisionObjectDetectionService.cs:52 | as written, limit + 1 concurrent requests are all admitted |
| Detection.CorrectedRespectsLimit | Assets/MixedRealityToolkit.Generated/Extensions/Detection/CustomVisionObjectDetectionService.cs:52-57 | corrected, the counter always equals the requests in flight, and these never exceed the limit |
| Detection.AsWrittenFaultsLeak | Assets/MixedRealityToolkit.Generated/Extensions/Detection/CustomVisionObjectDetectionService.cs:54-57 | as written, the counter never falls back towards the requests in flight; once the gap exceeds the limit, no request is admitted again |
| Detection.FaultsShutGovernor | Assets/MixedRealityToolkit.Generated/Extensions/Detection/CustomVisionObjectDetectionService.cs:53-57 | limit + 1 faulted requests leave the counter at limit + 1 with nothing in flight |
| Detection.CustomVisionObjectDetectionService.constructor | Assets/MixedRealityToolkit.Generated/Extensions/Detection/CustomVisionObjectDetectionService.cs:28-47 | idle governor, minimal probability 0.5, limit 1, no repeat |
| Detection.CustomVisionObjectDetectionService.BeginDetect | Assets/MixedRealityToolkit.Generated/Extensions/Detection/CustomVisionObjectDetectionService.cs:52-53 | admitted iff the counter is not above the limit; the governor steps; the settings are unchanged |
| Detection.CustomVisionObjectDetectionService.CompleteDetect | Assets/MixedRealityToolkit.Generated/Extensions/Detection/CustomVisionObjectDetectionService.cs:54-58 | returns the detections above the minimal probability and releases one request |
| Detection.CustomVisionObjectDetectionService.FaultDetect | Assets/MixedRealityToolkit.Generated/Extensions/Detection/CustomVisionObjectDetectionService.cs:54 | a faulting detector ends the request without decrementing the counter |
| Detection.CustomVisionObjectDetectionService.ChangeMinimalPredictionProbability | Assets/MixedRealityToolkit.Generated/Extensions/Detection/CustomVisionObjectDetectionService.cs:61-64 | sets the threshold and nothing else |
| Detection.CustomVisionObjectDetectionService.ChangeMaxConcurrentRequestLimit | Assets/MixedRealityToolkit.Generated/Extensions/Detection/CustomVisionObjectDetectionService.cs:66-70 | sets the limit and logs an error iff requests are counted as running |
| Detection.CustomVisionObjectDetectionService.ToggleDetectOnRepeat | Assets/MixedRealityToolkit.Generated/Extensions/Detection/CustomVisionObjectDetectionService.cs:75-79 | flips the repeat flag and nothing else |
| CloudDetection.NewCustomVision | Assets/LabAssistVision/Detection/CustomVision.cs:22-31 | throws ArgumentNull iff the endpoint or the key is missing; otherwise stores both |
| CloudDetection.ConvertBox | Assets/LabAssistVision/Detection/CustomVision.cs:94-99 | scales the fractional box by the frame's width and height |
| CloudDetection.ConvertBoxStaysInFrame | Assets/LabVision/Detection/CustomVision.cs:91-97 | a box inside the unit square lands inside the frame, and dividing by the frame size gives it back |
| CloudDetection.CreateDetectedObject | Assets/LabAssistVision/Detection/CustomVision.cs:75-86 | a detection on the frame with the prediction's probability, label or "", and the converted box |
| CloudDetection.DetectFromResponse | Assets/LabAssistVision/Detection/CustomVision.cs:38-72 | an empty or unparsable response gives no detections; otherwise one detection per prediction, in order |
| CloudDetection.DetectionsFollowPredictions | Assets/LabVision/Detection/CustomVision.cs:60-73 | each detection has the frame, the prediction's probability and its label (or "") |
| LocalDetection.Sigmoid | Assets/LabAssistVision/Experimental/CustomVisionLocal.cs:312-316 | the value lies strictly between 0 and 1 |
| LocalDetection.SigmoidMonotone | Assets/LabAssistVision/Experimental/CustomVisionLocal.cs:312-315 | larger inputs give larger values |
| LocalDetection.NormalizedSumsToOne | Assets/LabAssistVision/Experimental/CustomVisionLocal.cs:325 | dividing positive values by their sum gives positive values summing to 1 |
| LocalDetection.Softmax | Assets/LabAssistVision/Experimental/CustomVisionLocal.cs:319-326 | a probability distribution over the inputs: positive and summing to 1 |
| LocalDetection.GetTopResult | Assets/LabAssistVision/Experimental/CustomVisionLocal.cs:374-380 | the index and value of the first maximal class score; an empty array is an InvalidOperation failure, as `First()` throws |
| LocalDetection.GetTopResultIsFirstOfSort | Assets/LabAssistVision/Experimental/CustomVisionLocal.cs:376-379 | agrees with the head of the stable descending sort of (index, value) pairs |
| LocalDetection.ChannelLayout | Assets/LabAssistVision/Experimental/CustomVisionLocal.cs:416 | each box's block (4 dimensions, confidence, class scores) ends where the next box's begins, all five blocks fit the cell, and its anchor pair exists |
| LocalDetection.ChannelCountFitsTwentyClasses | Assets/LabAssistVision/Experimental/CustomVisionLocal.cs:277 | the constant 125 channels matches the layout only for 20 classes |
| LocalDetection.ExtractBoundingBoxDimensions | Assets/LabAssistVision/Experimental/CustomVisionLocal.cs:330-339 | the four consecutive channels from the box's first channel |
| LocalDetection.GetConfidence | Assets/LabAssistVision/Experimental/CustomVisionLocal.cs:342-345 | a confidence strictly between 0 and 1 |
| LocalDetection.MapBoundingBoxToCell | Assets/LabAssistVision/Experimental/CustomVisionLocal.cs:348-357 | the box centre lies in its grid cell and its size is positive |
| LocalDetection.ExtractClasses | Assets/LabAssistVision/Experimental/CustomVisionLocal.cs:360-371 | one probability per class, positive and summing to 1 |
| LocalDetection.CellCandidate | Assets/LabAssistVision/Experimental/CustomVisionLocal.cs:416-437 | a reported box has confidence at least the threshold, is acceptable and is centred in its cell's column band |
| LocalDetection.DecoderOf | Assets/LabAssistVision/Experimental/CustomVisionLocal.cs:416-437 | decodes every cell and box as CellCandidate does |
| LocalDetection.BoxCandidatesAcceptable | Assets/LabAssistVision/Experimental/CustomVisionLocal.cs:413-438 | at most one candidate per box, all acceptable |
| LocalDetection.ColumnCandidatesAcceptable | Assets/LabAssistVision/Experimental/CustomVisionLocal.cs:411-439 | at most five candidates per cell, all acceptable |
| LocalDetection.CandidatesAcceptableFor | Assets/LabAssistVision/Experimental/CustomVisionLocal.cs:409-440 | row by row, the candidates are bounded and acceptable |
| LocalDetection.CandidatesAcceptable | Assets/LabAssistVision/Experimental/CustomVisionLocal.cs:405-443 | a pass over n rows yields at most n × 13 × 5 candidates (845 for the full grid), each with probability at least the threshold and a known label |
| LocalDetection.IntersectionWithinAreas | Assets/LabAssistVision/Experimental/CustomVisionLocal.cs:395-401 | the intersection is non-negative and no larger than either area |
| LocalDetection.IntersectionOverUnion | Assets/LabAssistVision/Experimental/CustomVisionLocal.cs:383-403 | the IoU lies in [0, 1] and is 0 when either area is not positive |
| LocalDetection.IntersectionOverUnionSymmetric | Assets/LabAssistVision/Experimental/CustomVisionLocal.cs:383-402 | IoU(a, b) = IoU(b, a) |
| LocalDetection.IntersectionOverUnionSelf | Assets/LabAssistVision/Experimental/CustomVisionLocal.cs:398-402 | a box of positive size has IoU 1 with itself |
| LocalDetection.Deactivate | Assets/LabAssistVision/Experimental/CustomVisionLocal.cs:471-486 | one flag per box |
| LocalDetection.Greedy | Assets/LabAssistVision/Experimental/CustomVisionLocal.cs:461-491 | extends the kept list, never beyond the limit (or one box when the limit is below 1) |
| LocalDetection.AllActive | Assets/LabAssistVision/Experimental/CustomVisionLocal.cs:448-453 | every box starts active |
| LocalDetection.SubsequenceKeepsOrder | Assets/LabAssistVision/Experimental/CustomVisionLocal.cs:455-466 | a subsequence of a sorted list is sorted |
| LocalDetection.GreedySubsequence | Assets/LabAssistVision/Experimental/CustomVisionLocal.cs:461-466 | the boxes kept are a subsequence of the sorted boxes |
| LocalDetection.GreedySeparates | Assets/LabAssistVision/Experimental/CustomVisionLocal.cs:471-484 | no two kept boxes overlap by more than the threshold |
| LocalDetection.GreedyCovers | Assets/LabAssistVision/Experimental/CustomVisionLocal.cs:461-491 | unless the limit was reached, every dropped box overlaps a kept one |
| LocalDetection.NmsProperties | Assets/LabAssistVision/Experimental/CustomVisionLocal.cs:445-494 | the result is a sorted subsequence of the candidates by probability, within the limit and pairwise separated; below the limit every candidate is kept or suppressed by a kept box |
| LocalDetection.CountTrue | Assets/LabAssistVision/Experimental/CustomVisionLocal.cs:447 | the active count never exceeds the number of boxes |
| LocalDetection.CountTrueClear | Assets/LabAssistVision/Experimental/CustomVisionLocal.cs:480 | deactivating an active box lowers the count by one |
| LocalDetection.CountTruePositive | Assets/LabAssistVision/Experimental/CustomVisionLocal.cs:482 | the count is positive while a box is active |
| LocalDetection.CountTrueAll | Assets/LabAssistVision/Experimental/CustomVisionLocal.cs:448-453 | initially the active count is the number of boxes |
| LocalDetection.OutputParser.constructor | Assets/LabAssistVision/Experimental/CustomVisionLocal.cs:269-272 | nine classes and the given labels |
| LocalDetection.OutputParser.SetClassCount | Assets/LabAssistVision/Experimental/CustomVisionLocal.cs:296-299 | sets the class count and nothing else |
| LocalDetection.OutputParser.SetLabels | Assets/LabAssistVision/Experimental/CustomVisionLocal.cs:301-304 | sets the labels and nothing else |
| LocalDetection.OutputParser.ParseOutputs | Assets/LabAssistVision/Experimental/CustomVisionLocal.cs:405-443 | the loops over rows, columns and boxes return exactly the decoded candidates, in scan order |
| LocalDetection.OutputParser.ParseRow | Assets/LabAssistVision/Experimental/CustomVisionLocal.cs:411-438 | one row's candidates, in column and box order |
| LocalDetection.OutputParser.FilterBoundingBoxes | Assets/LabAssistVision/Experimental/CustomVisionLocal.cs:445-494 | the in-place flag loop returns exactly Nms of the boxes |
| LocalDetection.OutputParser.SuppressOverlapping | Assets/LabAssistVision/Experimental/CustomVisionLocal.cs:471-486 | the inner loop switches off exactly the later active boxes that overlap the kept one above the threshold, and the active count stays the number of active flags (at least one) |
| LocalDetection.ConfidenceAsIouThresholdDropsBox | Assets/LabAssistVision/Experimental/CustomVisionLocal.cs:164 | two boxes overlapping by a third: suppression at 0.2 drops one, at the configured 0.45 both stay |
| LocalDetection.TruncateToInt | Assets/LabAssistVision/Experimental/CustomVisionLocal.cs:170 | the `(int)` cast rounds toward zero |
| LocalDetection.ResizedHeight | Assets/LabAssistVision/Experimental/CustomVisionLocal.cs:136 | the truncated height of the frame scaled to width 416 |
| LocalDetection.ConvertLocal | Assets/LabAssistVision/Experimental/CustomVisionLocal.cs:224-233 | scales the network box from 416 to the frame width, shifting the top by the box height in the resized frame |
| LocalDetection.ConvertLocalKeepsAspect | Assets/LabAssistVision/Experimental/CustomVisionLocal.cs:232 | the converted rectangle keeps the box's aspect ratio |
| LocalDetection.CreateLocalDetectedObject | Assets/LabAssistVision/Experimental/CustomVisionLocal.cs:210-221 | a detection on the frame with the box's probability, label or "", and the converted rectangle |
| LocalDetection.LocalDetections | Assets/LabAssistVision/Experimental/CustomVisionLocal.cs:170 | one detection per kept box, in order |
| LocalDetection.NmsKeepsAcceptable | Assets/LabAssistVision/Experimental/CustomVisionLocal.cs:445-494 | suppression keeps only candidates, so acceptability survives it |
| LocalDetection.DetectionsOfAcceptable | Assets/LabAssistVision/Experimental/CustomVisionLocal.cs:210-221 | each detection is on the frame, has probability at least the threshold and a known label |
| LocalDetection.CorrectedDetectionsSound | Assets/LabAssistVision/Experimental/CustomVisionLocal.cs:111-189 | with the configured thresholds, at most maxDetections detections, pairwise separated at the IoU threshold, each confident and labelled |
| LocalDetection.CustomVisionLocal.constructor | Assets/LabAssistVision/Experimental/CustomVisionLocal.cs:58-76 | stores the labels and limits; the parser gets nine classes and the labels |
| LocalDetection.CustomVisionLocal.DetectAsync | Assets/LabAssistVision/Experimental/CustomVisionLocal.cs:187 | as written, the result is always the empty list |
| LocalDetection.CustomVisionLocal.Detect | Assets/LabAssistVision/Experimental/CustomVisionLocal.cs:163-170 | parse, suppress with the configured limit and IoU threshold, and convert each kept box |
| Visualization.UnityEquals | Assets/LabAssistVision/VisualizationManager.cs:96 | Unity's `==` on Vector3 holds only between finite positions and holds for equal ones; the infinity sentinel equals nothing, itself included |
| Visualization.GetPosition | Assets/LabAssistVision/VisualizationManager.cs:148-168 | off the main thread, the origin; a raycast hit gives the hit point; a miss gives infinity on UWP and the origin elsewhere |
| Visualization.CreateSpatialTrackedObject | Assets/LabAssistVision/VisualizationManager.cs:132-139 | keeps the label; its position is the raycast from the camera along the unprojected ray |
| Visualization.SpatialObjects | Assets/LabAssistVision/VisualizationManager.cs:115-125 | simulated objects when simulating with nothing tracked; otherwise one spatial object per tracked object |
| Visualization.SpatialObjectsFollowTracked | Assets/LabAssistVision/VisualizationManager.cs:121-125 | one spatial object per tracked object with its label; the infinity sentinel appears only for a UWP raycast miss |
| Visualization.Instantiated | Assets/LabAssistVision/VisualizationManager.cs:68-76 | appends one tooltip per missing object, with fresh ids and the prefab text |
| Visualization.RemoveAt | Assets/LabAssistVision/VisualizationManager.cs:84 | removes exactly the i-th tooltip, keeping the others in order |
| Visualization.TrimDown | Assets/LabAssistVision/VisualizationManager.cs:80-86 | when the loop stays in range, it removes exactly `steps` tooltips |
| Visualization.TrimDownInRange | Assets/LabAssistVision/VisualizationManager.cs:81-86 | in range, the removed tooltips are the block just below and including index i |
| Visualization.TrimDownOutOfRange | Assets/LabAssistVision/VisualizationManager.cs:81-83 | when there are more removals than indices from i down to 0, the loop throws |
| Visualization.Refreshed | Assets/LabAssistVision/VisualizationManager.cs:94-100 | a refreshed tooltip keeps its id and shows the object's label; as written it always takes the object's position |
| Visualization.Refresh | Assets/LabAssistVision/VisualizationManager.cs:92-101 | refreshes tooltip i from spatial object i |
| Visualization.UpdateOutcomeProperties | Assets/LabAssistVision/VisualizationManager.cs:63-102 | with no objects, nothing changes; as written, Update completes iff there are at most 2n + 1 tooltips for n objects; when it completes it shows one tooltip per object; the surplus tooltips removed are the ones just below index n + 1 |
| Visualization.RemovalOutOfRangeExample | Assets/LabAssistVision/VisualizationManager.cs:80-86 | with 1 object and 4 tooltips, the removal loop throws after removing two tooltips |
| Visualization.SentinelMovesTooltipExample | Assets/LabAssistVision/VisualizationManager.cs:96-99 | as written, a raycast miss moves the tooltip to infinity; corrected, it stays in place |
| Visualization.CorrectedUpdateReconciles | Assets/LabAssistVision/VisualizationManager.cs:65-101 | corrected, Update always completes with exactly one tooltip per object, with distinct ids, each label shown, and kept positions on a raycast miss |
| Visualization.RemoveFirstIsRemoveAt | Assets/LabAssistVision/VisualizationManager.cs:83-84 | with distinct ids, `List.Remove(tooltips[i])` removes index i |
| Visualization.RemoveAtKeepsIds | Assets/LabAssistVision/VisualizationManager.cs:84-85 | removal keeps the ids distinct and below the next id |
| Visualization.VisualizationManager.constructor | Assets/LabAssistVision/VisualizationManager.cs:21-34 | no spatial objects, no tooltips, no simulation |
| Visualization.VisualizationManager.Reset | Assets/LabAssistVision/VisualizationManager.cs:52-61 | clears the spatial objects and tooltips and keeps the simulation settings |
| Visualization.VisualizationManager.UpdateTrackedObjects | Assets/LabAssistVision/VisualizationManager.cs:109-127 | replaces the spatial objects by SpatialObjects of the tracked ones; the tooltips are untouched |
| Visualization.VisualizationManager.Update | Assets/LabAssistVision/VisualizationManager.cs:63-102 | the tooltips end as UpdateOutcome says, including the aborted case |
| Visualization.VisualizationManager.InstantiateTooltips | Assets/LabAssistVision/VisualizationManager.cs:68-77 | adds the missing tooltips with the next ids |
| Visualization.VisualizationManager.DestroyTooltips | Assets/LabAssistVision/VisualizationManager.cs:78-87 | runs the downward removal loop as TrimDown says and reports whether it stayed in range |
| Visualization.VisualizationManager.RefreshTooltips | Assets/LabAssistVision/VisualizationManager.cs:92-101 | refreshes every tooltip as written |
| Pipeline.CompareExchange | Assets/LabAssistVision/Controller.cs:142 | returns the old value and stores the new one iff the old one equals the comparand |
| Pipeline.FlagIsBoolean | Assets/LabAssistVision/Controller.cs:140-163 | the 0/1 flags stay 0/1, read back what was written, and reading by CompareExchange(1, 1) leaves them unchanged |
| Pipeline.CountsAppend | Assets/LabAssistVision/Controller.cs:172-190 | detection and tracking requests add up over concatenated logs |
| Pipeline.ProcessFrameProperties | Assets/LabAssistVision/Controller.cs:172-190 | only a running controller acts; a pending request issues exactly one detection and is cleared unless on repeat; without repeat exactly one tracking step runs and its result is shown |
| Pipeline.ObjectsDetectedProperties | Assets/LabAssistVision/Controller.cs:192-213 | a failed detection changes nothing; on repeat the detections are shown directly and the pool is not touched; otherwise the pool is reset, reinitialised and shown |
| Pipeline.FrameHandlingProperties | Assets/LabAssistVision/Controller.cs:229-244 | a frame arriving during processing is dropped; an accepted frame finishes with the flag cleared; asynchronously, later frames are dropped until it is processed |
| Pipeline.RequestIssuedOnce | Assets/LabAssistVision/Controller.cs:176-183 | one request, two frames without repeat: one detection, two tracking steps |
| Pipeline.Controller.constructor | Assets/LabAssistVision/Controller.cs:149-163 | idle, no request, not processing, nothing logged |
| Pipeline.Controller.IsObjectDetectionRequested | Assets/LabAssistVision/Controller.cs:140-142 | true iff the flag holds 1 |
| Pipeline.Controller.SetObjectDetectionRequested | Assets/LabAssistVision/Controller.cs:143-147 | sets the request flag and nothing else |
| Pipeline.Controller.IsProcessingFrame | Assets/LabAssistVision/Controller.cs:154-156 | true iff the flag holds 1 |
| Pipeline.Controller.SetProcessingFrame | Assets/LabAssistVision/Controller.cs:157-161 | sets the processing flag and nothing else |
| Pipeline.Controller.Start | Assets/LabAssistVision/Controller.cs:285-286 | running, subscribed to the handler matching the sync setting |
| Pipeline.Controller.ProcessFrameSyncToggled | Assets/LabAssistVision/Controller.cs:301-305 | changes only the setting, not the subscribed handler |
| Pipeline.Controller.ProcessFrameSync | Assets/LabAssistVision/Controller.cs:172-190 | the state moves as ProcessFrame says |
| Pipeline.Controller.OnObjectsDetected | Assets/LabAssistVision/Controller.cs:192-213 | the state moves as ObjectsDetected says |
| Pipeline.Controller.CameraServiceOnFrameArrivedSync | Assets/LabAssistVision/Controller.cs:229-236 | the state moves as FrameArrivedSync says |
| Pipeline.Controller.CameraServiceOnFrameArrivedAsync | Assets/LabAssistVision/Controller.cs:237-244 | the state moves as FrameArrivedAsync says |
| Pipeline.Controller.RunPendingFrame | Assets/LabAssistVision/Controller.cs:243 | the queued frame is processed as RunPending says |
| Pipeline.Controller.FrameArrived | Assets/LabAssistVision/Controller.cs:215-227 | the frame goes to the handler that was subscribed at start |
| Pipeline.Controller.Reset | Assets/LabAssistVision/Controller.cs:392-399 | clears both flags and resets the detection service, the tracker pool and the visualisation, in that order |
| Pipeline.Controller.RequestObjectDetection | Assets/LabAssistVision/Controller.cs:706-709 | sets the request flag and nothing else |
| Pipeline.Controller.DetectKeyPressed | Assets/LabAssistVision/Controller.cs:371-377 | requests a detection only while running |
| Pipeline.Controller.ResetKeyPressed | Assets/LabAssistVision/Controller.cs:379-385 | resets only while running |

## Left out

- Null arguments and the `ArgumentNullException` checks: the model's values cannot be null.
- Concurrency is sequentialised:
  - `Task.Run`, `ContinueWith`, `Interlocked` and `Parallel.ForEach` are taken one event at a time.
  - The window between the frame check and the flag update (Controller.cs:187) is not modelled.
  - `InvokeOnAppThread` is taken to run immediately.
- `float`/`double` rounding, including the float casts of the suppression loop: all real numbers are exact.
- Calls into code the model cannot see are parameters:
  - the spatial raycast, `GetLayForward` and `UnprojectAtUnitDepth`;
  - the OpenCV trackers;
  - `Math.Exp`;
  - HTTP and `JsonUtility`;
  - Barracuda's engine and tensors;
  - image conversion and file writes.
- Unity object creation and destruction, `Label` rendering, `SetColors`, the UI sliders, the other keys, and the UI wiring in `Start`.
- The `KCF` and `CSRT` colour-format checks, which only log. The tracker-initialisation result, which is only logged.
- `Assert.AreEqual` in the tooltip code.
- The LabVision copies of the camera classes, `MonoCamera`, `DummyCamera` and the stream camera. Only the LabVision lines cited above are modelled, and they match the LabAssistVision code.
- Fps.FpsUtils.GetRenderDeltaTime, GetVideoDeltaTime and GetTrackDeltaTime carry no contract of their own. Each is DeltaTime of its queue.
- LocalDetection.CustomVisionLocal.Detect requires a non-zero frame width. The source divides by it as a float and passes the result to OpenCV.
- LocalDetection.OutputParser.ParseOutputs requires a positive class count and at least as many labels as classes. Without them the source divides by zero in the softmax or indexes past the labels.
- LocalDetection.ConvertLocal: the height argument of the source's `Convert` is unused, so it is not a parameter.
- LocalDetection.OutputParser.SuppressOverlapping: the inner `activeCount <= 0` exit is left out; the kept box stays active, so the count cannot reach zero there (its ensures `count >= 1` states this).
- LocalDetection.ChannelCountFitsTwentyClasses: the decoder derives each box's channels from the class count. The constant 125 fits only 20 classes, while the parser defaults to 9, so the model follows the computed layout.
- Pipeline.Controller: the detection service's `detectOnRepeat` flag is a parameter of each handler.
- Geometry: `Rect2d` inequality is value inequality.
- Frame height 0 on the tracking path: in the source the `TrackedObject` constructor throws ArgumentOutOfRange for it (TrackedObject.cs:28), after `CvTracker.Initialize` has already created and initialised the OpenCV tracker, or after `CvTrackedObject.Update` has already set `_update`. `TrackedObjects.NewTrackedObject` models that exception; the members below instead require a non-zero height, so the exception and the partial state it leaves are not modelled.
- CvTrackedObjects.SlotUpdate: requires a frame of non-zero height; the source throws ArgumentOutOfRange from the `TrackedObject` constructor there.
- CvTrackedObjects.Step: requires a frame of non-zero height; the source throws ArgumentOutOfRange from the `TrackedObject` constructor there.
- CvTrackedObjects.RunStill: requires a frame of non-zero height; the source throws ArgumentOutOfRange from the `TrackedObject` constructor there.
- CvTrackedObjects.StepEvictsExactlyOnFailure: requires a frame of non-zero height; the source throws ArgumentOutOfRange from the `TrackedObject` constructor there.
- CvTrackedObjects.StillSlotNeverEvicted: requires a frame of non-zero height; the source throws ArgumentOutOfRange from the `TrackedObject` constructor there.
- CvTrackedObjects.StillSlotEvictedWithThreshold: requires a frame of non-zero height; the source throws ArgumentOutOfRange from the `TrackedObject` constructor there.
- CvTrackedObjects.CvTrackedObject.Update: requires a frame of non-zero height; the source throws ArgumentOutOfRange from the `TrackedObject` constructor there.
- CvTrackers.Verdicts: requires a frame of non-zero height; the source throws ArgumentOutOfRange from the `TrackedObject` constructor there.
- CvTrackers.SurvivesIffTracked: requires a frame of non-zero height; the source throws ArgumentOutOfRange from the `TrackedObject` constructor there.
- CvTrackers.CvTracker.StepSlot: requires a frame of non-zero height; the source throws ArgumentOutOfRange from the `TrackedObject` constructor there.
- CvTrackers.CvTracker.StepSlots: requires a frame of non-zero height; the source throws ArgumentOutOfRange from the `TrackedObject` constructor there.
- CvTrackers.CvTracker.Initialize: requires a frame of non-zero height; the source throws ArgumentOutOfRange from the `TrackedObject` constructor there.
- CvTrackers.CvTracker.Update: requires a frame of non-zero height; the source throws ArgumentOutOfRange from the `TrackedObject` constructor there.
- ObjectTracking.ObjectTrackingService.TrackSync: requires a frame of non-zero height; the source throws ArgumentOutOfRange from the `TrackedObject` constructor there.
- ObjectTracking.ObjectTrackingService.InitializeTrackers: requires a frame of non-zero height; the source throws ArgumentOutOfRange from the `TrackedObject` constructor there.
- ObjectTracking.ObjectTrackingService.InitializeAll: requires a frame of non-zero height; the source throws ArgumentOutOfRange from the `TrackedObject` constructor there.
- ObjectTracking.ObjectTrackingService.constructor requires a tracker other than `TestTracker`. For that value the source throws ArgumentException from `Initialize` (ObjectTrackingService.cs:29, :61); the failing construction is not modelled, while `SwitchTracker` models the same exception as `ok == false`.
- LocatableCameraModel.LocatableCamera.OnFrameArrived: `MatUtils.copyToMat` is not part of this model; its rejection of the missing buffer is modelled as ArgumentNull.
- Visualization.GetPosition: the hit point is the raycast's answer, with no mesh geometry.

## Findings

| source | as written | input that shows it | evidently intended | confidence | as-written member | corrected member |
|---|---|---|---|---|---|---|
| Assets/MixedRealityToolkit.Generated/Extensions/Detection/CustomVisionObjectDetectionService.cs:52 | a request is refused only when the counter is above the limit | limit 1, two requests started before either completes: both are admitted | at most `limit` requests in flight | not executed; high | Detection.AsWrittenAdmitsOneOverLimit | Detection.CorrectedRespectsLimit |
| Assets/MixedRealityToolkit.Generated/Extensions/Detection/CustomVisionObjectDetectionService.cs:53-57 | the counter is decremented only after a successful detection | limit 1 and two requests whose detector throws: the counter stays at 2 with nothing running, and every later request is refused | give the slot back on every path | not executed; high | Detection.FaultsShutGovernor | Detection.CorrectedRespectsLimit |
| Assets/LabAssistVision/Models/CvTrackedObject.cs:33 | the staleness threshold test is commented out | a tracker reporting the same rectangle for any number of frames: never evicted | evict after 200 frames without movement | not executed; medium | CvTrackedObjects.StillSlotNeverEvicted | CvTrackedObjects.StillSlotEvictedWithThreshold |
| Assets/LabAssistVision/Experimental/CustomVisionLocal.cs:163-164 | suppression uses MINIMUM_CONFIDENCE (0.2) and 10 instead of the configured IoU threshold and limit | boxes (0,0,10,10) and (5,0,10,10), IoU 1/3: the second is dropped, though the configured 0.45 keeps it | suppress with `iouThreshold` and `maxDetections` | not executed; medium | LocalDetection.ConfidenceAsIouThresholdDropsBox | LocalDetection.CorrectedDetectionsSound |
| Assets/LabAssistVision/Experimental/CustomVisionLocal.cs:187 | returns a new empty list, discarding the detections | any frame with a confident box: no detection is returned | return the converted detections | not executed; high | LocalDetection.CustomVisionLocal.DetectAsync | LocalDetection.CustomVisionLocal.Detect |
| Assets/LabAssistVision/Camera/CameraParameters.cs:108-112 | the 10 fps profile sets a frame rate of 5 | HL2_1504x846_10: gives the same mode as HL2_1504x846_5 | frame rate 10 | not executed; high | CameraParameters.TenFpsProfileCollapses | CameraParameters.CorrectedParametersInjective |
| Assets/LabAssistVision/VisualizationManager.cs:80-86 | surplus tooltips are removed from index n downward, once per surplus tooltip | 1 object and 4 tooltips: the third removal is at index −1 and throws | remove the surplus tooltips so that n remain | not executed; high | Visualization.RemovalOutOfRangeExample | Visualization.CorrectedUpdateReconciles |
| Assets/LabAssistVision/VisualizationManager.cs:96 | the miss sentinel is compared with Unity's `!=` against `Vector3.positiveInfinity` | a raycast miss on UWP: infinity minus infinity is NaN, so `!=` holds and the tooltip moves to infinity | keep the tooltip where it was on a miss | not executed; high | Visualization.SentinelMovesTooltipExample | Visualization.CorrectedUpdateReconciles |
