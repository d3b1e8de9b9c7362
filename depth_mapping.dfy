/**
 * The arithmetic of CameraViewController.processDepth: the range gate on the
 * frame's average depth, its normalisation to (0, 1) and the linear map onto
 * the frequency band, before the closest C-major note is looked up.
 * Float is modelled by real, so no IEEE rounding is modelled.
 */
module DepthMapping {
  import opened Options

  const MinDepth: real := 0.1
  const MaxDepth: real := 3.0
  const MinFrequency: real := 100.0
  const MaxFrequency: real := 3000.0

  /** The average depth of a frame, in metres. A frame without any reading
      averages to NaN, against which every comparison is false. */
  datatype Sample = Reading(meters: real) | NotANumber

  /** The range gate with its normalisation: None unless the sample lies
      strictly between the two depth bounds; otherwise the level in (0, 1)
      from which the depth is recovered by the inverse rescaling. */
  function Normalized(s: Sample): (n: Option<real>)
    ensures n.Some? <==> s.Reading? && MinDepth < s.meters < MaxDepth
    ensures n.Some? ==> 0.0 < n.value < 1.0
    ensures n.Some? ==> MinDepth + n.value * (MaxDepth - MinDepth) == s.meters
  {
    if s.Reading? && s.meters > MinDepth && s.meters < MaxDepth then
      Some((s.meters - MinDepth) / (MaxDepth - MinDepth))
    else
      None
  }

  /** The linear map of a level onto the frequency band, before quantisation:
      strictly inside the band, and the level is recovered from it. */
  function RawFrequency(level: real): (f: real)
    requires 0.0 < level < 1.0
    ensures MinFrequency < f < MaxFrequency
    ensures (f - MinFrequency) / (MaxFrequency - MinFrequency) == level
  {
    (MaxFrequency - MinFrequency) * level + MinFrequency
  }

  /** A higher level gives a strictly higher raw frequency. */
  lemma RawFrequencyStrictlyIncreasing(l1: real, l2: real)
    requires 0.0 < l1 < l2 < 1.0
    ensures RawFrequency(l1) < RawFrequency(l2)
  {
  }

  /** The raw frequency of an in-range depth: the two rescalings compose to
      exactly 1000 Hz per metre. */
  function DepthFrequency(d: real): (f: real)
    requires MinDepth < d < MaxDepth
    ensures f == 1000.0 * d
    ensures MinFrequency < f < MaxFrequency
  {
    RawFrequency(Normalized(Reading(d)).value)
  }

  /** A farther hand gives a strictly higher raw frequency. */
  lemma DepthFrequencyStrictlyIncreasing(d1: real, d2: real)
    requires MinDepth < d1 < d2 < MaxDepth
    ensures DepthFrequency(d1) < DepthFrequency(d2)
  {
  }

  /** What one frame does to the fundamental: None when rendering or depth
      visualisation is off, the pixel format is not recognised, or the average
      depth fails the gate; otherwise the closest note to the raw frequency. */
  function PlannedFundamental<Frame, Format>(
    renderingEnabled: bool, depthVisualizationEnabled: bool, frame: Frame,
    pixelFormatOf: Frame -> Option<Format>, averageOf: (Frame, Format) -> Sample,
    closestNote: real -> real): (r: Option<real>)
    ensures r.Some? <==>
      renderingEnabled && depthVisualizationEnabled && pixelFormatOf(frame).Some? &&
      averageOf(frame, pixelFormatOf(frame).value).Reading? &&
      MinDepth < averageOf(frame, pixelFormatOf(frame).value).meters < MaxDepth
    ensures r.Some? ==>
      r.value == closestNote(1000.0 * averageOf(frame, pixelFormatOf(frame).value).meters)
  {
    if !renderingEnabled || !depthVisualizationEnabled then None
    else match pixelFormatOf(frame)
      case None => None
      case Some(format) =>
        match Normalized(averageOf(frame, format))
        case None => None
        case Some(level) => Some(closestNote(RawFrequency(level)))
  }

  /** The midpoint of the depth band maps to the midpoint of the frequency
      band, and depths just outside the band are rejected. */
  lemma MidpointAndOutOfRange()
    ensures Normalized(Reading(1.55)) == Some(0.5)
    ensures DepthFrequency(1.55) == 1550.0
    ensures Normalized(Reading(0.05)).None? && Normalized(Reading(3.5)).None?
    ensures Normalized(Reading(MinDepth)).None? && Normalized(Reading(MaxDepth)).None?
  {
  }
}
