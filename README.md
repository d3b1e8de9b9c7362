# Theremin depth-to-pitch control, modelled in Dafny

ThereminiOS turns the distance of a hand in front of a depth camera into
pitch. `CameraViewController` averages each depth frame into one distance.
It keeps only distances strictly between 0.1 m and 3.0 m, normalises them to
(0, 1) and maps that linearly onto 100–3000 Hz. It then snaps the result to
the closest note of C major and retunes a bank of four synthesizer voices to
harmonics of that fundamental. A slider selects the voices' wave type and a
label names it. A pitch glide, whose call site is commented out in the
source, would instead walk the fundamental toward a new note in 20 Hz steps
driven by a repeating timer.

The project has six modules:

- `Options` (`options.dfy`): the optional value.
- `Waves` (`waves.dfy`): the wave types, the slider's index and the label text.
- `DepthMapping` (`depth_mapping.dfy`): the range gate, normalisation and
  frequency map, and the decision a frame makes (`PlannedFundamental`).
- `Voices` (`voices.dfy`): voice records, the harmonic each voice gets, and the
  bank after a retune or a wave-type change.
- `Glide` (`glide.dfy`): the duration table and the glide timer as a state
  machine (`Tick`, `Ticks`).
- `Camera` (`camera.dfy`): the controller as a class. Its oscillators are an
  `array<Voice>`, and each scheduled timer is a `GlideTimer` object. Every
  method's postcondition ties the new state to the pure functions above. The
  class invariant `Valid()` says three things: the bank has four voices, all
  voices play one wave type and the label names it, and at most one scheduled
  timer (the current one) is still valid.

Four behaviours of the code are easy to misread; the model follows the code:

- The loop in `setBaseFrequency` reassigns its frequency variable only for
  voices 1 and 2, so voice 3 inherits 3/2 of the fundamental, not 1. The bank
  is [f, 5/4 f, 3/2 f, 3/2 f] (`RetunedBankOfFour`).
- The glide never pins the fundamental to its target. It applies exactly
  Int(|final − start|) + 1 steps of 20 Hz, so it overshoots by more than 19
  times the jump (`GlideOvershoots`). A glide from 100 Hz to 200 Hz ends at
  2120 Hz (`GlideFrom100To200`).
- A glide starts even when start and target are equal: the step is then
  −20 Hz and one step is still applied.
- Out-of-range depths do not mute the voices, because that branch is
  commented out. Such a frame changes nothing.

## Model

| member | source | states |
|---|---|---|
| `Waves.Label` | ThereminiOS/CameraViewController.swift:196-211 | the label is "Sawtooth", "Triangle" or "Square" exactly for those types, and "Sine" exactly for Sine and any other value |
| `Waves.SliderLabelsDistinct` | ThereminiOS/CameraViewController.swift:198-210 | the four slider wave types have pairwise different labels |
| `Waves.WaveIndex` | ThereminiOS/CameraViewController.swift:184 | for a slider value in [0, 1] the index is floor(4·v), in 0..4, and equals 4 exactly when v = 1 |
| `Waves.WaveIndexMonotonic` | ThereminiOS/CameraViewController.swift:184 | a larger slider value never gives a smaller index |
| `Waves.SelectedWaveType` | ThereminiOS/CameraViewController.swift:181-186 | no wave type is selected exactly when v = 1; otherwise a slider type is selected, never an unnamed one |
| `Waves.SliderQuarters` | ThereminiOS/CameraViewController.swift:181-186 | [0, ¼) selects Sine, [¼, ½) Sawtooth, [½, ¾) Square and [¾, 1) Triangle |
| `DepthMapping.Normalized` | ThereminiOS/CameraViewController.swift:233-239 | a level exists exactly when the sample is a reading strictly between 0.1 and 3.0 (NaN is rejected); the level is strictly in (0, 1) and rescales back to the depth |
| `DepthMapping.RawFrequency` | ThereminiOS/CameraViewController.swift:243-246 | the mapped frequency lies strictly in (100, 3000), and normalising it back gives the level |
| `DepthMapping.RawFrequencyStrictlyIncreasing` | ThereminiOS/CameraViewController.swift:243-246 | a higher level gives a strictly higher frequency |
| `DepthMapping.DepthFrequency` | ThereminiOS/CameraViewController.swift:233-246 | for an in-range depth the two rescalings compose to exactly 1000·d Hz, strictly inside the band |
| `DepthMapping.DepthFrequencyStrictlyIncreasing` | ThereminiOS/CameraViewController.swift:236-246 | a greater in-range depth gives a strictly higher frequency |
| `DepthMapping.MidpointAndOutOfRange` | ThereminiOS/CameraViewController.swift:233-246 | 1.55 m normalises to 0.5 and maps to 1550 Hz; 0.05 m, 3.5 m and both bounds themselves are rejected |
| `DepthMapping.PlannedFundamental` | ThereminiOS/CameraViewController.swift:220-259 | a frame yields a fundamental exactly when rendering and depth visualisation are on, the pixel format is recognised and the average is a reading strictly inside (0.1, 3.0); that fundamental is the closest note to 1000·d |
| `Voices.CarriedRatio` | ThereminiOS/CameraViewController.swift:308-318 | every voice's multiple of the fundamental lies in [1, 3/2] |
| `Voices.CarriedRatioClosedForm` | ThereminiOS/CameraViewController.swift:308-318 | the loop-carried multiple is 1 for voice 0, 5/4 for voice 1 and 3/2 for every later voice |
| `Voices.InitialVoice` | ThereminiOS/CameraViewController.swift:56-58 | a new voice has amplitude 0.2, 100 Hz on both channels, the sine wave, is started, and keeps the library's initial mute flag |
| `Voices.Retune` | ThereminiOS/CameraViewController.swift:312-323 | a retuned voice is unmuted with both channels at the given frequency; amplitude, wave type and running state are kept |
| `Voices.Retuned` | ThereminiOS/CameraViewController.swift:308-326 | the bank after setBaseFrequency keeps its number of voices; what each voice becomes is stated by RetunedVoices and RetunedBankOfFour |
| `Voices.RetunedVoices` | ThereminiOS/CameraViewController.swift:308-326 | after a retune to f each voice is unmuted, has equal channels and the frequency f, 5/4·f or 3/2·f by index, and keeps its wave type, amplitude and running state |
| `Voices.RetunedBankOfFour` | ThereminiOS/CameraViewController.swift:305-326 | a four-voice bank retuned to f plays [f, 5/4·f, 3/2·f, 3/2·f], all unmuted |
| `Voices.RetunedLastWins` | ThereminiOS/CameraViewController.swift:303-327 | retuning to f and then to g gives the same bank as retuning to g |
| `Voices.RetunedKeepsWave` | ThereminiOS/CameraViewController.swift:310-326 | a retune keeps a common wave type of the bank |
| `Voices.Rewaved` | ThereminiOS/CameraViewController.swift:188-190 | each voice is its old self with the new wave type |
| `Voices.RewavedAll` | ThereminiOS/CameraViewController.swift:187-191 | after a wave-type change every voice plays the new type, with frequencies and mute flags kept |
| `Voices.RewavedSameWave` | ThereminiOS/CameraViewController.swift:187 | setting the type a uniform bank already plays changes nothing |
| `Glide.TransitionDuration` | ThereminiOS/CameraViewController.swift:287-301 | the duration is 0.1 s for jumps under 100 Hz, 0.15 s under 500 Hz, 0.3 s under 2500 Hz, 0.6 s under 5000 Hz, and 0 exactly for jumps of 5000 Hz or more |
| `Glide.TransitionDurationSymmetric` | ThereminiOS/CameraViewController.swift:287-301 | swapping start and target gives the same duration |
| `Glide.TransitionDurationByDistance` | ThereminiOS/CameraViewController.swift:288 | two jumps of the same size get the same duration |
| `Glide.TransitionDurationMonotonic` | ThereminiOS/CameraViewController.swift:291-299 | below 5000 Hz a larger jump never gets a shorter duration |
| `Glide.StepToward` | ThereminiOS/CameraViewController.swift:272 | the step is ±20 Hz and positive exactly when the target lies above the start |
| `Glide.TimerMax` | ThereminiOS/CameraViewController.swift:273 | the bound is the jump truncated to an integer: m ≤ \|final − start\| < m + 1 |
| `Glide.Scheduled` | ThereminiOS/CameraViewController.swift:272-275 | a new timer is valid, counts from 0 and has a non-negative bound |
| `Glide.Tick` | ThereminiOS/CameraViewController.swift:275-284 | a firing keeps the bound and step, never revives a timer, moves the fundamental only for a valid timer with repeatCount ≤ timerMax, and moves it by the step when it counts |
| `Glide.Ticks` | ThereminiOS/CameraViewController.swift:275-284 | k firings of the closure keep the timer's bound and step, never revive it and never lower its repeat count; the fundamental they reach is stated by TicksFrom and GlideSteps |
| `Glide.TicksWhenStopped` | ThereminiOS/CameraViewController.swift:277-280 | an invalidated timer changes nothing however often it fires |
| `Glide.TicksFrom` | ThereminiOS/CameraViewController.swift:274-284 | from repeat count c, k firings apply min(k, timerMax + 1 − c) steps, and the timer is still valid exactly when k ≤ timerMax + 1 − c |
| `Glide.GlideSteps` | ThereminiOS/CameraViewController.swift:264-285 | after k firings of a fresh glide the fundamental is start + step·min(k, Int(\|diff\|) + 1); the timer stops after firing Int(\|diff\|) + 2 times |
| `Glide.GlideEnd` | ThereminiOS/CameraViewController.swift:272-283 | a finished glide has moved the fundamental by 20·(Int(\|diff\|) + 1) Hz |
| `Glide.GlideOvershoots` | ThereminiOS/CameraViewController.swift:272-283 | once stopped, the glide lies past the target in the target's direction, by more than 19 times the jump: it never lands on the target |
| `Glide.GlideFrom100To200` | ThereminiOS/CameraViewController.swift:272-283 | a glide from 100 Hz to 200 Hz has bound 100 and ends at 2120 Hz |
| `Camera.GlideTimer.constructor` | ThereminiOS/CameraViewController.swift:274-275 | a scheduled timer is valid, counts from 0 and holds its bound and step |
| `Camera.GlideTimer.Invalidate` | ThereminiOS/CameraViewController.swift:278 | the timer is no longer valid |
| `Camera.CameraViewController.constructor` | ThereminiOS/CameraViewController.swift:49-61 | four started sine voices at 100 Hz with amplitude 0.2, the label "Sine", fundamental 0, no timer, and the class invariant |
| `Camera.CameraViewController.UpdateWaveTypeLabel` | ThereminiOS/CameraViewController.swift:196-211 | the label becomes the text for the wave type |
| `Camera.CameraViewController.SetBaseFrequency` | ThereminiOS/CameraViewController.swift:303-327 | the fundamental becomes f and the bank becomes its retune to f, with the invariant kept |
| `Camera.CameraViewController.ProcessDepth` | ThereminiOS/CameraViewController.swift:220-260 | if the frame yields no fundamental, neither the fundamental nor any voice changes; otherwise both are set as by SetBaseFrequency with the planned note |
| `Camera.CameraViewController.TransitionPitch` | ThereminiOS/CameraViewController.swift:264-285 | the previous timer is invalidated, a fresh timer in the scheduled state becomes current, and the fundamental and voices are untouched |
| `Camera.CameraViewController.FireGlideTimer` | ThereminiOS/CameraViewController.swift:275-284 | timer and fundamental move as one Tick, and the voices are retuned exactly when a step is applied; a timer other than the current one changes nothing |
| `Camera.GlideRetargetScenario` | ThereminiOS/CameraViewController.swift:264-284 | a glide from 0 to 100 Hz steps to 20 Hz with the bank at [20, 25, 30, 30]; after a new glide toward 0 Hz the first timer's firing changes nothing, and the new timer steps down to 0 Hz |
| `Camera.CameraViewController.SliderValueChanged` | ThereminiOS/CameraViewController.swift:178-194 | v = 1 changes nothing; otherwise the label names the selected type, every voice plays it, and the voices are rewritten only when it differs from voice 0's type |

## Left out

- Capture session setup, device discovery and camera authorisation
  (CameraViewController.swift:63-99, 125-176): AVFoundation I/O.
- The delegate callback and the `NSLog` calls (:215-218): framework glue and
  logging.
- The timer's interval `duration / round(|diff|)` and wall-clock scheduling
  (:270, 275). Only the state change of one firing is modelled. So
  `TransitionPitch` takes no duration. Because the jump is rounded before
  dividing (:270), the divisor is 0 for every jump under 0.5 Hz.
- `DepthUtlity.pixelFormatForDepthPixelBuffer`, `averageFromDepthPixelBuffer`
  and `VWWSynthesizerNotes.getClosestNote` are not shown. They are
  parameters of `ProcessDepth`. So whether the chosen note belongs to C major,
  and how ties are broken, is not modelled.
- The initial mute flag of a new `VWWSynthesizer` belongs to the synthesizer
  library. The constructor takes it as a parameter.
- `VWWSynthesizer` sound generation, and VWWSynthesizerFileSystem.h, which
  only declares file reads and writes.
- The commented-out background and foreground handlers (:102-116).
- Concurrency: every controller method is modelled as one atomic step.
  In the source, processDepth runs on the depth-data queue (:30, :160,
  :215-217), while sliderValueChanged runs on the main thread. Both touch the
  oscillators with no lock, so interleavings of their setter calls are not
  modelled.
- Float rounding: every quantity is a `real`. The sums and products are therefore
  exact, which is what makes the frequency exactly 1000·d. Infinite averages
  are rejected by the gate in Swift, as any out-of-range value is, so they are
  left out. A NaN average is modelled as `Sample.NotANumber`. `Int(abs(final - start))`
  (:273) traps at run time on a NaN jump or one beyond Int's range; `TimerMax`
  uses `.Floor`, which is total, so that trap is not modelled.
- The force-unwrapped `self!` in the timer closure and `oscillators.first!`
  would trap if the controller were gone or the bank empty. The class
  invariant keeps four voices. A timer outliving its controller is not modelled.
- `Glide.Ticks` assumes nothing else sets the fundamental between firings.
  In the controller a frame arriving mid-glide would set it. `FireGlideTimer`
  then steps from whatever value is current, as the closure does.
