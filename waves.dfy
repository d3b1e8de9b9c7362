/**
 * Wave-type selection by the slider and the label shown for a wave type
 * (CameraViewController.sliderValueChanged and updateWaveTypeLabelForWaveType).
 */
module Waves {
  import opened Options

  /** The synthesizer's wave types. `Other` stands for any further value of the
      synthesizer library's enumeration; the label switch sends it to its default. */
  datatype WaveType = Sine | Sawtooth | Square | Triangle | Other(code: int)

  /** The wave types along the slider, in the order the slider walks them. */
  const SliderWaveTypes: seq<WaveType> := [Sine, Sawtooth, Square, Triangle]

  /** The text the wave-type label shows: the switch has three named cases and
      falls back to "Sine" for everything else. */
  function Label(w: WaveType): (s: string)
    ensures s == "Sawtooth" <==> w == Sawtooth
    ensures s == "Triangle" <==> w == Triangle
    ensures s == "Square" <==> w == Square
    ensures s == "Sine" <==> (w == Sine || w.Other?)
  {
    match w
    case Sawtooth => "Sawtooth"
    case Triangle => "Triangle"
    case Square => "Square"
    case _ => "Sine"
  }

  /** The four slider wave types get four different labels. */
  lemma SliderLabelsDistinct(i: nat, j: nat)
    requires i < |SliderWaveTypes| && j < |SliderWaveTypes|
    ensures Label(SliderWaveTypes[i]) == Label(SliderWaveTypes[j]) <==> i == j
  {
  }

  /** The index `Int(floor(4 * value))` computed from a slider value, which the
      slider keeps within its range [0, 1]. */
  function WaveIndex(value: real): (i: int)
    requires 0.0 <= value <= 1.0
    ensures 0 <= i <= |SliderWaveTypes|
    ensures i as real <= 4.0 * value < i as real + 1.0
    ensures i == |SliderWaveTypes| <==> value == 1.0
  {
    (4.0 * value).Floor
  }

  /** The wave type a slider value selects, or None when the index falls off
      the end of the list (only for the value 1). */
  function SelectedWaveType(value: real): (r: Option<WaveType>)
    requires 0.0 <= value <= 1.0
    ensures r.None? <==> value == 1.0
    ensures r.Some? ==> r.value in SliderWaveTypes && !r.value.Other?
  {
    var i := WaveIndex(value);
    if i < |SliderWaveTypes| then Some(SliderWaveTypes[i]) else None
  }

  /** Each quarter of the slider's travel selects one wave type. */
  lemma SliderQuarters(value: real)
    requires 0.0 <= value < 1.0
    ensures value < 0.25 ==> SelectedWaveType(value) == Some(Sine)
    ensures 0.25 <= value < 0.5 ==> SelectedWaveType(value) == Some(Sawtooth)
    ensures 0.5 <= value < 0.75 ==> SelectedWaveType(value) == Some(Square)
    ensures 0.75 <= value ==> SelectedWaveType(value) == Some(Triangle)
  {
  }

  /** A larger slider value never selects an earlier wave type. */
  lemma WaveIndexMonotonic(v1: real, v2: real)
    requires 0.0 <= v1 <= v2 <= 1.0
    ensures WaveIndex(v1) <= WaveIndex(v2)
  {
  }
}
