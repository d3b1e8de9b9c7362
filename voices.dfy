/**
 * The oscillator bank as values: one record per VWWSynthesizer holding what
 * its setters set, the harmonic each voice receives from setBaseFrequency,
 * and the bank after a retune or a wave-type change.
 */
module Voices {
  import opened Waves

  /** The state of one synthesizer voice as the controller drives it. */
  datatype Voice = Voice(
    amplitude: real,
    frequencyLeft: real,
    frequencyRight: real,
    waveType: WaveType,
    muted: bool,
    running: bool)

  /** viewDidLoad builds voices 0...3. */
  const VoiceCount: nat := 4

  /** A voice as viewDidLoad creates it: amplitude 0.2, 100 Hz on both
      channels, sine wave, started. Its initial mute flag belongs to the
      synthesizer library and is taken as given. */
  function InitialVoice(muted: bool): (v: Voice)
    ensures v.amplitude == 0.2 && v.frequencyLeft == v.frequencyRight == 100.0
    ensures v.waveType == Sine && v.running && v.muted == muted
  {
    Voice(0.2, 100.0, 100.0, Sine, muted, true)
  }

  /** The multiple of the fundamental voice i receives in setBaseFrequency's
      loop. The loop variable keeps its last value: it is reassigned only at
      i == 1 (5/4) and i == 2 (3/2), so every later voice inherits 3/2. */
  function CarriedRatio(i: nat): (r: real)
    ensures 1.0 <= r <= 1.5
  {
    if i == 0 then 1.0
    else if i == 1 then 5.0 / 4.0
    else if i == 2 then 3.0 / 2.0
    else CarriedRatio(i - 1)
  }

  /** Closed form of the carried ratio: unison, major third, then a fifth for
      every voice from index 2 on. */
  lemma {:induction false} CarriedRatioClosedForm(i: nat)
    ensures CarriedRatio(i) == if i == 0 then 1.0 else if i == 1 then 1.25 else 1.5
  {
    if i > 2 {
      CarriedRatioClosedForm(i - 1);
    }
  }

  /** The frequency voice i is given when the fundamental is f. */
  function VoiceFrequency(f: real, i: nat): real
  {
    f * CarriedRatio(i)
  }

  /** One voice after setMuted(false), setFrequencyLeft(hz), setFrequencyRight(hz). */
  function Retune(v: Voice, hz: real): (r: Voice)
    ensures !r.muted && r.frequencyLeft == hz && r.frequencyRight == hz
    ensures r.amplitude == v.amplitude && r.waveType == v.waveType && r.running == v.running
  {
    v.(muted := false, frequencyLeft := hz, frequencyRight := hz)
  }

  /** The bank after setBaseFrequency(f). */
  function Retuned(bank: seq<Voice>, f: real): (r: seq<Voice>)
    ensures |r| == |bank|
  {
    seq(|bank|, i requires 0 <= i < |bank| => Retune(bank[i], VoiceFrequency(f, i)))
  }

  /** The left-channel frequencies of a bank. */
  function Frequencies(bank: seq<Voice>): (r: seq<real>)
    ensures |r| == |bank|
  {
    seq(|bank|, i requires 0 <= i < |bank| => bank[i].frequencyLeft)
  }

  /** Every voice of the bank plays wave type w. */
  ghost predicate AllWave(bank: seq<Voice>, w: WaveType)
  {
    forall i :: 0 <= i < |bank| ==> bank[i].waveType == w
  }

  /** After a retune every voice is unmuted, both of its channels agree, its
      frequency is its carried harmonic of f, and nothing else changed. */
  lemma RetunedVoices(bank: seq<Voice>, f: real, i: nat)
    requires i < |bank|
    ensures !Retuned(bank, f)[i].muted
    ensures Retuned(bank, f)[i].frequencyLeft == Retuned(bank, f)[i].frequencyRight
    ensures Retuned(bank, f)[i].frequencyLeft ==
      (if i == 0 then f else if i == 1 then 1.25 * f else 1.5 * f)
    ensures Retuned(bank, f)[i].waveType == bank[i].waveType
    ensures Retuned(bank, f)[i].amplitude == bank[i].amplitude
    ensures Retuned(bank, f)[i].running == bank[i].running
  {
    CarriedRatioClosedForm(i);
  }

  /** The four-voice bank of viewDidLoad is tuned to [f, 5/4 f, 3/2 f, 3/2 f]. */
  lemma RetunedBankOfFour(bank: seq<Voice>, f: real)
    requires |bank| == VoiceCount
    ensures Frequencies(Retuned(bank, f)) == [f, 1.25 * f, 1.5 * f, 1.5 * f]
    ensures forall i :: 0 <= i < |bank| ==> !Retuned(bank, f)[i].muted
  {
    var r := Frequencies(Retuned(bank, f));
    RetunedVoices(bank, f, 0);
    RetunedVoices(bank, f, 1);
    RetunedVoices(bank, f, 2);
    RetunedVoices(bank, f, 3);
    assert r == [r[0], r[1], r[2], r[3]];
  }

  /** Only the latest fundamental matters: retuning twice is retuning once to
      the second value. */
  lemma RetunedLastWins(bank: seq<Voice>, f: real, g: real)
    ensures Retuned(Retuned(bank, f), g) == Retuned(bank, g)
  {
  }

  /** A retune keeps the bank's common wave type. */
  lemma RetunedKeepsWave(bank: seq<Voice>, f: real, w: WaveType)
    requires AllWave(bank, w)
    ensures AllWave(Retuned(bank, f), w)
  {
  }

  /** The bank after every voice's setWaveType(w). */
  function Rewaved(bank: seq<Voice>, w: WaveType): (r: seq<Voice>)
    ensures |r| == |bank|
    ensures forall i :: 0 <= i < |bank| ==> r[i] == bank[i].(waveType := w)
  {
    seq(|bank|, i requires 0 <= i < |bank| => bank[i].(waveType := w))
  }

  /** After a wave-type change every voice plays the new type, and its
      frequencies and mute flag are kept. */
  lemma RewavedAll(bank: seq<Voice>, w: WaveType)
    ensures AllWave(Rewaved(bank, w), w)
    ensures Frequencies(Rewaved(bank, w)) == Frequencies(bank)
    ensures forall i :: 0 <= i < |bank| ==> Rewaved(bank, w)[i].muted == bank[i].muted
  {
  }

  /** Setting the wave type a bank already plays everywhere changes nothing. */
  lemma RewavedSameWave(bank: seq<Voice>, w: WaveType)
    requires AllWave(bank, w)
    ensures Rewaved(bank, w) == bank
  {
  }
}
