/**
 * The pitch glide of CameraViewController: the duration table
 * (pitchTransitionDuration) and the repeating timer that transitionPitch
 * schedules, as a state machine over the timer's captured state and the
 * current fundamental.
 */
module Glide {

  function Abs(x: real): (r: real)
    ensures r >= 0.0 && (r == x || r == -x)
  {
    if x < 0.0 then -x else x
  }

  function Min(a: nat, b: nat): (m: nat)
    ensures m <= a && m <= b && (m == a || m == b)
  {
    if a < b then a else b
  }

  /** The glide duration for a jump, chosen by the size of the jump; 0 for a
      jump of 5000 Hz or more. */
  function TransitionDuration(start: real, final: real): (d: real)
    ensures d == 0.0 <==> Abs(final - start) >= 5000.0
    ensures d != 0.0 ==> 0.1 <= d <= 0.6
    ensures Abs(final - start) < 100.0 ==> d == 0.1
    ensures 100.0 <= Abs(final - start) < 500.0 ==> d == 0.15
    ensures 500.0 <= Abs(final - start) < 2500.0 ==> d == 0.3
    ensures 2500.0 <= Abs(final - start) < 5000.0 ==> d == 0.6
  {
    var difference := Abs(final - start);
    if difference < 100.0 then 0.1
    else if difference < 500.0 then 0.15
    else if difference < 2500.0 then 0.3
    else if difference < 5000.0 then 0.6
    else 0.0
  }

  /** The duration does not depend on the direction of the jump. */
  lemma TransitionDurationSymmetric(a: real, b: real)
    ensures TransitionDuration(a, b) == TransitionDuration(b, a)
  {
  }

  /** The duration depends only on the size of the jump. */
  lemma TransitionDurationByDistance(s1: real, f1: real, s2: real, f2: real)
    requires Abs(f1 - s1) == Abs(f2 - s2)
    ensures TransitionDuration(s1, f1) == TransitionDuration(s2, f2)
  {
  }

  /** Below 5000 Hz a larger jump never glides for a shorter time. */
  lemma TransitionDurationMonotonic(s1: real, f1: real, s2: real, f2: real)
    requires Abs(f1 - s1) <= Abs(f2 - s2) < 5000.0
    ensures TransitionDuration(s1, f1) <= TransitionDuration(s2, f2)
  {
  }

  /** The size of one glide step in Hz. */
  const StepSize: real := 20.0

  /** The signed step of a glide: up when the target lies above the start,
      down otherwise (also when the two are equal). */
  function StepToward(start: real, final: real): (s: real)
    ensures s == StepSize || s == -StepSize
    ensures s > 0.0 <==> final > start
  {
    if final > start then StepSize else -StepSize
  }

  /** timerMax = Int(|final - start|): the jump truncated to an integer. */
  function TimerMax(start: real, final: real): (m: nat)
    ensures m as real <= Abs(final - start) < m as real + 1.0
  {
    Abs(final - start).Floor
  }

  /** What the timer's closure keeps between firings: its repeat count, the
      bound it compares against, its step, and whether the timer still runs. */
  datatype TimerState = TimerState(repeatCount: int, timerMax: int, step: real, isValid: bool)

  /** The timer transitionPitch schedules for a glide from start to final. */
  function Scheduled(start: real, final: real): (t: TimerState)
    ensures t.isValid && t.repeatCount == 0 && t.timerMax >= 0
  {
    TimerState(0, TimerMax(start, final), StepToward(start, final), true)
  }

  /** One firing: an invalidated timer does nothing; a timer past its bound
      invalidates itself; otherwise the fundamental moves by one step and the
      repeat count goes up. Yields the new timer and the new fundamental. */
  function Tick(t: TimerState, fundamental: real): (r: (TimerState, real))
    ensures r.0.timerMax == t.timerMax && r.0.step == t.step
    ensures r.0.isValid ==> t.isValid
    ensures r.1 != fundamental ==> t.isValid && t.repeatCount <= t.timerMax
    ensures r.0.repeatCount != t.repeatCount ==> r.1 == fundamental + t.step
  {
    if !t.isValid then (t, fundamental)
    else if t.repeatCount > t.timerMax then (t.(isValid := false), fundamental)
    else (t.(repeatCount := t.repeatCount + 1), fundamental + t.step)
  }

  /** k consecutive firings, with nothing else touching the fundamental. */
  function Ticks(t: TimerState, fundamental: real, k: nat): (r: (TimerState, real))
    ensures r.0.timerMax == t.timerMax && r.0.step == t.step
    ensures r.0.isValid ==> t.isValid
    ensures r.0.repeatCount >= t.repeatCount
    decreases k
  {
    if k == 0 then (t, fundamental)
    else
      var next := Tick(t, fundamental);
      Ticks(next.0, next.1, k - 1)
  }

  /** An invalidated timer never changes anything again. */
  lemma {:induction false} TicksWhenStopped(t: TimerState, fundamental: real, k: nat)
    requires !t.isValid
    ensures Ticks(t, fundamental, k) == (t, fundamental)
    decreases k
  {
    if k > 0 {
      TicksWhenStopped(t, fundamental, k - 1);
    }
  }

  /** A running timer with `timerMax + 1 - repeatCount` steps left applies
      exactly that many steps (or fewer if fewer firings happen), and stops at
      the first firing after the last step. */
  lemma {:induction false} TicksFrom(t: TimerState, fundamental: real, k: nat)
    requires t.isValid && 0 <= t.repeatCount <= t.timerMax + 1
    ensures var left := t.timerMax + 1 - t.repeatCount;
      Ticks(t, fundamental, k).1 == fundamental + t.step * (Min(k, left) as real) &&
      Ticks(t, fundamental, k).0.repeatCount == t.repeatCount + Min(k, left) &&
      (Ticks(t, fundamental, k).0.isValid <==> k <= left)
    decreases k
  {
    var left := t.timerMax + 1 - t.repeatCount;
    if k > 0 {
      var next := Tick(t, fundamental);
      if left == 0 {
        TicksWhenStopped(next.0, next.1, k - 1);
      } else {
        TicksFrom(next.0, next.1, k - 1);
        var m := Min(k - 1, left - 1);
        assert Min(k, left) == m + 1;
        assert fundamental + t.step + t.step * (m as real) == fundamental + t.step * ((m + 1) as real);
      }
    }
  }

  /** A glide from start to final started at fundamental `start` moves it by
      one signed step per firing, for exactly Int(|final - start|) + 1
      firings, and its timer stops at the firing after that. */
  lemma GlideSteps(start: real, final: real, k: nat)
    ensures var steps := TimerMax(start, final) + 1;
      Ticks(Scheduled(start, final), start, k).1 ==
        start + StepToward(start, final) * (Min(k, steps) as real) &&
      (Ticks(Scheduled(start, final), start, k).0.isValid <==> k <= steps)
  {
    TicksFrom(Scheduled(start, final), start, k);
  }

  /** The fundamental a glide leaves behind once its timer has stopped. */
  function GlideEnd(start: real, final: real): (f: real)
    ensures Abs(f - start) == StepSize * ((TimerMax(start, final) + 1) as real)
  {
    start + StepToward(start, final) * ((TimerMax(start, final) + 1) as real)
  }

  /** The glide never lands on its target: it runs past it, in the direction
      of the target, by more than 19 times the jump, because every unit of the
      jump accounts for a 20 Hz step. */
  lemma GlideOvershoots(start: real, final: real, k: nat)
    requires k > TimerMax(start, final) + 1
    ensures Ticks(Scheduled(start, final), start, k).1 == GlideEnd(start, final)
    ensures !Ticks(Scheduled(start, final), start, k).0.isValid
    ensures final > start ==> GlideEnd(start, final) > final
    ensures final <= start ==> GlideEnd(start, final) < final
    ensures Abs(GlideEnd(start, final) - final) > 19.0 * Abs(final - start)
  {
    GlideSteps(start, final, k);
    assert Min(k, TimerMax(start, final) + 1) == TimerMax(start, final) + 1;
  }

  /** A glide from 100 Hz to 200 Hz ends at 2120 Hz. */
  lemma GlideFrom100To200()
    ensures TimerMax(100.0, 200.0) == 100
    ensures GlideEnd(100.0, 200.0) == 2120.0
  {
  }
}
