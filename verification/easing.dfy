/** The per-frame value of `animateCount`: a counter eases from 0 to its target
    over 1500 ms with a cubic ease-out and snaps to the target on the last frame. */
module Easing {

  /** Animation length in milliseconds. */
  const Duration: real := 1500.0

  /** The cubic ease-out curve `1 - (1 - p)^3`. */
  function EaseOut(p: real): real
  {
    1.0 - (1.0 - p) * (1.0 - p) * (1.0 - p)
  }

  /** `Math.floor(startValue + (targetValue - startValue) * easeOut)` with `startValue = 0`. */
  function EasedValue(target: int, p: real): int
  {
    (target as real * EaseOut(p)).Floor
  }

  lemma CubeMonotone(a: real, b: real)
    requires 0.0 <= a <= b
    ensures a * a * a <= b * b * b
  {
    assert a * a <= a * b <= b * b;
    assert a * a * a <= b * b * a <= b * b * b;
  }

  /** On [0, 1] the curve runs from 0 to 1 and never decreases. */
  lemma EaseOutShape(p: real, q: real)
    requires 0.0 <= p <= q <= 1.0
    ensures 0.0 <= EaseOut(p) <= EaseOut(q) <= 1.0
    ensures EaseOut(0.0) == 0.0 && EaseOut(1.0) == 1.0
  {
    CubeMonotone(1.0 - q, 1.0 - p);
    CubeMonotone(0.0, 1.0 - q);
    CubeMonotone(1.0 - p, 1.0);
  }

  /** For a non-negative target and progress in [0, 1], the displayed value lies in
      [0, target], never decreases as progress grows, and is the target at p = 1. */
  lemma EasedValueBoundedMonotone(target: nat, p: real, q: real)
    requires 0.0 <= p <= q <= 1.0
    ensures 0 <= EasedValue(target, p) <= EasedValue(target, q) <= target
    ensures EasedValue(target, 1.0) == target
  {
    EaseOutShape(p, q);
    var t := target as real;
    assert t * EaseOut(p) <= t * EaseOut(q) <= t;
    assert 0.0 <= t * EaseOut(p);
  }

  /** What one `update` call leaves on screen, and whether it schedules another frame. */
  datatype Frame = Frame(shown: int, again: bool)

  /** The source's progress, `Math.min(elapsed / duration, 1)`, not clamped below. */
  function ProgressAsWritten(elapsed: real): real
  {
    var p := elapsed / Duration;
    if p < 1.0 then p else 1.0
  }

  /** One `update(currentTime)` call as written, for `elapsed = currentTime - startTime`. */
  function FrameAsWritten(target: nat, elapsed: real): Frame
  {
    var p := ProgressAsWritten(elapsed);
    if p < 1.0 then Frame(EasedValue(target, p), true) else Frame(target, false)
  }

  /** A frame whose timestamp precedes `startTime` by 1 ms shows -1 for a
      target of 10: the progress is negative, and so is the eased value. */
  lemma AsWrittenShowsNegative()
    ensures FrameAsWritten(10, -1.0).shown == -1
  {
    var p := ProgressAsWritten(-1.0);
    assert p == -1.0 / 1500.0;
    assert EaseOut(p) < 0.0;
    assert 10.0 * EaseOut(p) > -1.0;
  }

  /** Progress clamped to [0, 1]. */
  function Progress(elapsed: real): (p: real)
    ensures 0.0 <= p <= 1.0
    ensures p == 1.0 <==> elapsed >= Duration
    ensures elapsed >= 0.0 ==> p == ProgressAsWritten(elapsed)
  {
    if elapsed <= 0.0 then 0.0 else ProgressAsWritten(elapsed)
  }

  /** One frame with clamped progress: the value shown lies in [0, target],
      another frame is scheduled exactly while the duration has not elapsed,
      and the last frame leaves exactly the target on screen. */
  function UpdateFrame(target: nat, elapsed: real): (f: Frame)
    ensures 0 <= f.shown <= target
    ensures f.again <==> elapsed < Duration
    ensures !f.again ==> f.shown == target
  {
    var p := Progress(elapsed);
    EasedValueBoundedMonotone(target, p, p);
    if p < 1.0 then Frame(EasedValue(target, p), true) else Frame(target, false)
  }

  /** The clamp changes nothing for timestamps at or after the start. */
  lemma UpdateFrameMatchesSource(target: nat, elapsed: real)
    requires elapsed >= 0.0
    ensures UpdateFrame(target, elapsed) == FrameAsWritten(target, elapsed)
  {
  }

  /** A later frame never shows a smaller value. */
  lemma UpdateFrameMonotone(target: nat, e1: real, e2: real)
    requires e1 <= e2
    ensures UpdateFrame(target, e1).shown <= UpdateFrame(target, e2).shown
  {
    var p, q := Progress(e1), Progress(e2);
    assert p <= q by {
      if e1 > 0.0 && e2 > 0.0 {
        assert e1 / Duration <= e2 / Duration;
      }
    }
    EasedValueBoundedMonotone(target, p, q);
  }

  /** The values one counter shows with clamped progress, frame by frame, for
      the given frame timestamps (relative to `startTime`): it stops after the
      first frame that reaches the duration. */
  function Animate(target: nat, times: seq<real>): (shown: seq<int>)
    ensures |shown| <= |times|
    ensures forall i :: 0 <= i < |shown| ==> shown[i] == UpdateFrame(target, times[i]).shown
    ensures forall i :: 0 <= i < |shown| - 1 ==> times[i] < Duration
    ensures |shown| < |times| ==> 0 < |shown| && times[|shown| - 1] >= Duration
  {
    if |times| == 0 then []
    else
      var f := UpdateFrame(target, times[0]);
      if f.again then [f.shown] + Animate(target, times[1..]) else [f.shown]
  }

  /** The `update` / `requestAnimationFrame` chain as written, on the unclamped frame. */
  function AnimateAsWritten(target: nat, times: seq<real>): seq<int>
  {
    if |times| == 0 then []
    else
      var f := FrameAsWritten(target, times[0]);
      if f.again then [f.shown] + AnimateAsWritten(target, times[1..]) else [f.shown]
  }

  /** For frame timestamps at or after the start, the clamped animation is the
      page's animation, so the lemmas about `Animate` describe the page there. */
  lemma {:induction false} AnimateMatchesAsWritten(target: nat, times: seq<real>)
    requires forall i :: 0 <= i < |times| ==> times[i] >= 0.0
    ensures Animate(target, times) == AnimateAsWritten(target, times)
  {
    if |times| > 0 {
      UpdateFrameMatchesSource(target, times[0]);
      AnimateMatchesAsWritten(target, times[1..]);
    }
  }

  predicate Sorted(times: seq<real>)
  {
    forall i, j :: 0 <= i < j < |times| ==> times[i] <= times[j]
  }

  /** With frame timestamps in order, the counter never goes down. */
  lemma {:induction false} AnimateMonotone(target: nat, times: seq<real>)
    requires Sorted(times)
    ensures var shown := Animate(target, times);
      forall i, j :: 0 <= i < j < |shown| ==> shown[i] <= shown[j]
  {
    if |times| > 0 && UpdateFrame(target, times[0]).again {
      var shown := Animate(target, times);
      var rest := times[1..];
      assert Sorted(rest);
      AnimateMonotone(target, rest);
      assert shown[1..] == Animate(target, rest);
      forall i, j | 0 <= i < j < |shown|
        ensures shown[i] <= shown[j]
      {
        if i == 0 {
          UpdateFrameMonotone(target, times[0], times[j]);
        } else {
          assert shown[i] == shown[1..][i - 1] && shown[j] == shown[1..][j - 1];
        }
      }
    }
  }

  /** Once some timestamp reaches the duration, the animation stops at the first
      such frame and the last value shown is exactly the target; every value
      shown lies in [0, target]. */
  lemma {:induction false} AnimateEndsAtTarget(target: nat, times: seq<real>, k: nat)
    requires k < |times| && times[k] >= Duration
    ensures var shown := Animate(target, times);
      && 0 < |shown| <= k + 1
      && shown[|shown| - 1] == target
      && times[|shown| - 1] >= Duration
      && (forall i :: 0 <= i < |shown| - 1 ==> times[i] < Duration)
      && (forall i :: 0 <= i < |shown| ==> 0 <= shown[i] <= target)
  {
    var f := UpdateFrame(target, times[0]);
    if f.again {
      assert k > 0;
      var rest := times[1..];
      AnimateEndsAtTarget(target, rest, k - 1);
      var shown := Animate(target, times);
      assert shown == [f.shown] + Animate(target, rest);
      forall i | 0 <= i < |shown| - 1
        ensures times[i] < Duration
      {
        if i > 0 {
          assert times[i] == rest[i - 1];
        }
      }
    }
  }
}
