/** The cloud detector: posts the frame to the prediction endpoint and turns
    the JSON answer into detections.  The HTTP round trip and the JSON
    parser are parameters: `json` is the response body and `parse` the
    parser's verdict on it (`None` for a body it cannot read). */
module CloudDetection {
  import opened Wrappers
  import opened Geometry
  import opened CameraModel
  import opened TrackedObjects
  import opened Predictions

  datatype CustomVision = CustomVision(predictionEndpoint: string, predictionKey: string)

  /** The constructor rejects a null endpoint or key. */
  function NewCustomVision(predictionApi: Option<string>, predictionKey: Option<string>): (r: Result<CustomVision, ModelError>)
    ensures r.Failure? <==> predictionApi.None? || predictionKey.None?
    ensures r.Failure? ==> r.error == ArgumentNull
    ensures r.Success? ==>
      r.value.predictionEndpoint == predictionApi.value && r.value.predictionKey == predictionKey.value
  {
    if predictionApi.None? then Failure(ArgumentNull)
    else if predictionKey.None? then Failure(ArgumentNull)
    else Success(CustomVision(predictionApi.value, predictionKey.value))
  }

  /** Box fractions to pixels: x and width scale with the frame width, y and
      height with the frame height. */
  function ConvertBox(b: BoundingBox, width: int, height: int): (r: Rect2d)
    ensures r.x == b.left * width as real && r.width == b.width * width as real
    ensures r.y == b.top * height as real && r.height == b.height * height as real
  {
    Rect2d(b.left * width as real, b.top * height as real, b.width * width as real, b.height * height as real)
  }

  /** A box given in fractions of the image lands inside the frame, and the
      fractions can be read back from the pixels. */
  lemma ConvertBoxStaysInFrame(b: BoundingBox, width: nat, height: nat)
    requires 0.0 <= b.left && 0.0 <= b.width && b.left + b.width <= 1.0
    requires 0.0 <= b.top && 0.0 <= b.height && b.top + b.height <= 1.0
    ensures var r := ConvertBox(b, width, height);
      0.0 <= r.x && r.x + r.width <= width as real &&
      0.0 <= r.y && r.y + r.height <= height as real
    ensures width > 0 && height > 0 ==>
      var r := ConvertBox(b, width, height);
      BoundingBox(r.x / width as real, r.y / height as real, r.width / width as real, r.height / height as real) == b
  {
    var r := ConvertBox(b, width, height);
    assert r.x + r.width == (b.left + b.width) * width as real;
    assert r.y + r.height == (b.top + b.height) * height as real;
  }

  /** One prediction as a detection on `frame`. */
  function CreateDetectedObject(frame: CameraFrame, p: Prediction): (d: DetectedObject)
    ensures d.frame == frame && d.probability == p.probability
    ensures d.tag == TagOrEmpty(p.tagName)
    ensures d.rect == ConvertBox(p.boundingBox, frame.width, frame.height)
  {
    DetectedObject(ConvertBox(p.boundingBox, frame.width, frame.height), TagOrEmpty(p.tagName), p.probability, frame)
  }

  /** `DetectAsync` after the response arrived: an empty or unparseable
      body yields no detections, otherwise one per prediction in order. */
  function DetectFromResponse(frame: CameraFrame, json: string, parse: string -> Option<seq<Prediction>>): (r: seq<DetectedObject>)
    ensures |json| == 0 ==> r == []
    ensures parse(json).None? ==> r == []
    ensures |json| > 0 && parse(json).Some? ==>
      |r| == |parse(json).value| &&
      forall i :: 0 <= i < |r| ==> r[i] == CreateDetectedObject(frame, parse(json).value[i])
  {
    if |json| == 0 then []
    else match parse(json)
      case None => []
      case Some(predictions) => seq(|predictions|, i requires 0 <= i < |predictions| => CreateDetectedObject(frame, predictions[i]))
  }

  /** Every detection refers to the request frame and carries the
      probability and label of the prediction at the same position. */
  lemma DetectionsFollowPredictions(frame: CameraFrame, json: string, parse: string -> Option<seq<Prediction>>)
    requires |json| > 0 && parse(json).Some?
    ensures var r := DetectFromResponse(frame, json, parse);
      var ps := parse(json).value;
      |r| == |ps| &&
      forall i :: 0 <= i < |r| ==>
        r[i].frame == frame && r[i].probability == ps[i].probability &&
        (ps[i].tagName.Some? ==> r[i].tag == ps[i].tagName.value) &&
        (ps[i].tagName.None? ==> r[i].tag == "")
  {
  }
}
