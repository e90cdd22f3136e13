/** The detector's wire records: a prediction with its tag and a box given
    in fractions of the image (cloud) or in network-input pixels (local). */
module Predictions {
  import opened Wrappers

  datatype BoundingBox = BoundingBox(left: real, top: real, width: real, height: real)

  /** `tagName` is a string the service may leave null. */
  datatype Prediction = Prediction(probability: real, tagName: Option<string>, boundingBox: BoundingBox)

  function ProbabilityOf(p: Prediction): real { p.probability }

  /** `tagName ?? ""`. */
  function TagOrEmpty(tagName: Option<string>): (s: string)
    ensures tagName.Some? ==> s == tagName.value
    ensures tagName.None? ==> s == ""
  {
    if tagName.Some? then tagName.value else ""
  }
}
