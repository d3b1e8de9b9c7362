/**
 * CameraViewController's state and the operations that change it: the
 * oscillator bank built in viewDidLoad, processDepth, setBaseFrequency,
 * transitionPitch with the timer it schedules, sliderValueChanged and the
 * wave-type label.
 */
module Camera {
  import opened Options
  import opened Waves
  import opened Voices
  import opened DepthMapping
  import opened Glide

  /** The repeating timer of one glide, with the state its closure captures. */
  class GlideTimer {
    var repeatCount: int
    var isValid: bool
    const timerMax: int
    const step: real

    /** Timer.scheduledTimer: a running timer whose closure starts counting at 0. */
    constructor (timerMax: int, step: real)
      ensures repeatCount == 0 && isValid
      ensures this.timerMax == timerMax && this.step == step
    {
      this.timerMax := timerMax;
      this.step := step;
      repeatCount := 0;
      isValid := true;
    }

    function State(): TimerState
      reads this
    {
      TimerState(repeatCount, timerMax, step, isValid)
    }

    method Invalidate()
      modifies this`isValid
      ensures !isValid
    {
      isValid := false;
    }
  }

  class CameraViewController {
    var oscillators: array<Voice>
    var currentBaseFrequency: real
    var renderingEnabled: bool
    var depthVisualizationEnabled: bool
    var waveTypeLabel: string
    var pitchTransitionTimer: GlideTimer?
    /** Every timer this controller has scheduled. */
    ghost var timers: set<GlideTimer>

    /** The bank has viewDidLoad's four voices, all playing one wave type that
        the label names, and of all scheduled timers only the current one can
        still run: no two timers ever drive the fundamental. */
    ghost predicate Valid()
      reads this, oscillators, timers
    {
      oscillators.Length == VoiceCount &&
      AllWave(oscillators[..], oscillators[0].waveType) &&
      waveTypeLabel == Label(oscillators[0].waveType) &&
      (pitchTransitionTimer != null ==> pitchTransitionTimer in timers) &&
      (forall t :: t in timers && t.isValid ==> t == pitchTransitionTimer)
    }

    /** The oscillators as a sequence of voices. */
    ghost function Bank(): seq<Voice>
      reads this, oscillators
    {
      oscillators[..]
    }

    /** The current timer, as a frame. */
    ghost function CurrentTimer(): set<GlideTimer>
      reads this
    {
      if pitchTransitionTimer == null then {} else {pitchTransitionTimer}
    }

    /** viewDidLoad: four started sine voices at 100 Hz, amplitude 0.2, and the
        label "Sine"; the fundamental starts at 0 and no glide is scheduled. */
    constructor (initiallyMuted: bool)
      ensures Valid() && fresh(oscillators)
      ensures Bank() == seq(VoiceCount, _ => InitialVoice(initiallyMuted))
      ensures waveTypeLabel == "Sine"
      ensures currentBaseFrequency == 0.0
      ensures renderingEnabled && depthVisualizationEnabled
      ensures pitchTransitionTimer == null && timers == {}
    {
      var bank := new Voice[VoiceCount];
      for i := 0 to VoiceCount
        invariant forall k :: 0 <= k < i ==> bank[k] == InitialVoice(initiallyMuted)
      {
        bank[i] := InitialVoice(initiallyMuted);
      }
      oscillators := bank;
      currentBaseFrequency := 0.0;
      renderingEnabled := true;
      depthVisualizationEnabled := true;
      pitchTransitionTimer := null;
      timers := {};
      new;
      UpdateWaveTypeLabel(Sine);
    }

    /** updateWaveTypeLabelForWaveType. */
    method UpdateWaveTypeLabel(w: WaveType)
      modifies this`waveTypeLabel
      ensures waveTypeLabel == Label(w)
    {
      var text := "Sine";
      match w {
        case Sawtooth => text := "Sawtooth";
        case Triangle => text := "Triangle";
        case Square => text := "Square";
        case _ =>
      }
      waveTypeLabel := text;
    }

    /** setBaseFrequency: records the fundamental, then unmutes every voice
        and gives both its channels its carried harmonic of f. */
    method SetBaseFrequency(f: real)
      requires Valid()
      modifies this`currentBaseFrequency, oscillators
      ensures Valid()
      ensures currentBaseFrequency == f
      ensures Bank() == Retuned(old(Bank()), f)
    {
      currentBaseFrequency := f;
      var newFQ := f;
      var i := 0;
      while i < oscillators.Length
        invariant 0 <= i <= oscillators.Length
        invariant currentBaseFrequency == f
        invariant newFQ == VoiceFrequency(f, if i == 0 then 0 else i - 1)
        invariant forall k :: 0 <= k < i ==>
          oscillators[k] == Retune(old(oscillators[k]), VoiceFrequency(f, k))
        invariant forall k :: i <= k < oscillators.Length ==> oscillators[k] == old(oscillators[k])
      {
        if i == 1 {
          newFQ := f * (5.0 / 4.0);
        } else if i == 2 {
          newFQ := f * (3.0 / 2.0);
        }
        oscillators[i] := oscillators[i].(muted := false, frequencyLeft := newFQ, frequencyRight := newFQ);
        i := i + 1;
      }
      RetunedKeepsWave(old(Bank()), f, old(oscillators[0].waveType));
    }

    /** processDepth: a frame changes the fundamental and the voices only when
        rendering and depth visualisation are on, its pixel format is known and
        its average depth passes the range gate; it then sets the closest
        note to the mapped frequency. Otherwise nothing changes. */
    method ProcessDepth<Frame, Format>(frame: Frame, pixelFormatOf: Frame -> Option<Format>,
                                       averageOf: (Frame, Format) -> Sample, closestNote: real -> real)
      requires Valid()
      modifies this`currentBaseFrequency, oscillators
      ensures Valid()
      ensures var plan := PlannedFundamental(renderingEnabled, depthVisualizationEnabled, frame,
                                             pixelFormatOf, averageOf, closestNote);
        match plan
        case None =>
          currentBaseFrequency == old(currentBaseFrequency) && Bank() == old(Bank())
        case Some(f) =>
          currentBaseFrequency == f && Bank() == Retuned(old(Bank()), f)
    {
      if !renderingEnabled {
        return;
      }
      if !depthVisualizationEnabled {
        return;
      }
      var format := pixelFormatOf(frame);
      if format.None? {
        return;
      }
      var depth := averageOf(frame, format.value);
      if depth.Reading? && depth.meters > MinDepth && depth.meters < MaxDepth {
        var level := (depth.meters - MinDepth) / (MaxDepth - MinDepth);
        var newFundamental := (MaxFrequency - MinFrequency) * level + MinFrequency;
        var newFrequency := closestNote(newFundamental);
        SetBaseFrequency(newFrequency);
      }
    }

    /** transitionPitch: invalidates the running timer, if any, and schedules
        a new one that steps 20 Hz toward the target Int(|final - start|) + 1
        times. Nothing moves until the new timer fires. */
    method TransitionPitch(start: real, final: real)
      requires Valid()
      modifies this`pitchTransitionTimer, this`timers, CurrentTimer()
      ensures Valid()
      ensures old(pitchTransitionTimer) != null ==> !old(pitchTransitionTimer).isValid
      ensures pitchTransitionTimer != null && fresh(pitchTransitionTimer)
      ensures pitchTransitionTimer.State() == Scheduled(start, final)
      ensures timers == old(timers) + {pitchTransitionTimer}
      ensures currentBaseFrequency == old(currentBaseFrequency) && Bank() == old(Bank())
    {
      if pitchTransitionTimer != null {
        pitchTransitionTimer.Invalidate();
      }
      var increment := if final > start then 20.0 else -20.0;
      var timerMax := Abs(final - start).Floor;
      var timer := new GlideTimer(timerMax, increment);
      pitchTransitionTimer := timer;
      timers := timers + {timer};
    }

    /** One firing of a glide timer (its closure): a timer that has been
        invalidated is never fired and changes nothing; one past its bound
        invalidates itself; otherwise the fundamental grows by the step, the
        voices follow it, and the repeat count goes up. Only the current timer
        can change anything. */
    method FireGlideTimer(t: GlideTimer)
      requires Valid() && t in timers
      modifies this`currentBaseFrequency, oscillators, t
      ensures Valid()
      ensures (t.State(), currentBaseFrequency) == Tick(old(t.State()), old(currentBaseFrequency))
      ensures Bank() == if old(t.isValid) && old(t.repeatCount) <= t.timerMax
                        then Retuned(old(Bank()), currentBaseFrequency) else old(Bank())
      ensures t != pitchTransitionTimer ==>
        currentBaseFrequency == old(currentBaseFrequency) && Bank() == old(Bank())
    {
      if !t.isValid {
        return;
      }
      if t.repeatCount > t.timerMax {
        t.Invalidate();
        return;
      }
      SetBaseFrequency(currentBaseFrequency + t.step);
      t.repeatCount := t.repeatCount + 1;
    }

    /** sliderValueChanged: the index floor(4 * value) picks a wave type; the
        value 1 picks none and changes nothing. Otherwise the voices are
        rewritten only if the new type differs from voice 0's, and the label
        names the new type. */
    method SliderValueChanged(value: real)
      requires Valid() && 0.0 <= value <= 1.0
      modifies this`waveTypeLabel, oscillators
      ensures Valid()
      ensures match SelectedWaveType(value)
        case None =>
          waveTypeLabel == old(waveTypeLabel) && Bank() == old(Bank())
        case Some(w) =>
          waveTypeLabel == Label(w) && AllWave(Bank(), w) &&
          Bank() == if w != old(oscillators[0].waveType) then Rewaved(old(Bank()), w) else old(Bank())
    {
      var waveTypes := [Sine, Sawtooth, Square, Triangle];
      var currentWaveType := oscillators[0].waveType;
      var newWaveIndex := (4.0 * value).Floor;
      if newWaveIndex < |waveTypes| {
        var newWaveType := waveTypes[newWaveIndex];
        if newWaveType != currentWaveType {
          for i := 0 to oscillators.Length
            invariant forall k :: 0 <= k < i ==> oscillators[k] == old(oscillators[k]).(waveType := newWaveType)
            invariant forall k :: i <= k < oscillators.Length ==> oscillators[k] == old(oscillators[k])
          {
            oscillators[i] := oscillators[i].(waveType := newWaveType);
          }
        } else {
          RewavedSameWave(Bank(), newWaveType);
        }
        RewavedAll(old(Bank()), newWaveType);
        UpdateWaveTypeLabel(newWaveType);
      }
    }
  }

  /** A glide retargeted after its first step: the first timer's later
      firings change nothing, and the new glide steps from where the first
      one left the fundamental. Returns the fundamental after the first
      step, after a stale firing of the first timer, and after the first
      step of the second glide, with the bank after the first step. */
  method GlideRetargetScenario() returns (stepped: real, afterStale: real, retargeted: real, bank: seq<real>)
    ensures stepped == 20.0 && bank == [20.0, 25.0, 30.0, 30.0]
    ensures afterStale == stepped
    ensures retargeted == 0.0
  {
    var c := new CameraViewController(true);
    c.TransitionPitch(0.0, 100.0);
    var first := c.pitchTransitionTimer;
    ghost var before := c.Bank();
    c.FireGlideTimer(first);
    stepped := c.currentBaseFrequency;
    RetunedBankOfFour(before, 20.0);
    bank := Frequencies(c.oscillators[..]);
    c.TransitionPitch(c.currentBaseFrequency, 0.0);
    c.FireGlideTimer(first);
    afterStale := c.currentBaseFrequency;
    c.FireGlideTimer(c.pitchTransitionTimer);
    retargeted := c.currentBaseFrequency;
  }
}
