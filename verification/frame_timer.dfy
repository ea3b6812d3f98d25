/**
 * Frame bookkeeping of the render loop (main.c): every frame stamps the
 * current time, counts the frame, and once a second publishes the frame
 * count as the frames-per-second figure. Clock readings are inputs.
 */
module FrameTimer {
  import opened Results
  import opened Config

  /** The timer before the first frame: frame count 0 (main.c:99), reference time `now` (main.c:220). */
  function StartTimer(now: real): (t: GameTimer)
    ensures t.frameCount == 0 && t.previousTime == now && t.fps.Unset?
  {
    GameTimer(Unset, now, Unset, Unset, Unset, 0, Unset)
  }

  /** True when a frame ending at `now` closes the current one-second window. */
  predicate SecondElapsed(t: GameTimer, now: real) {
    now - t.previousTime >= 1.0
  }

  /**
   * The timer updates of one frame at clock reading `now` (main.c:224-225 and
   * 271-279). Start and end time are both the frame's `time`, so `delta` is 0.
   */
  function Tick(t: GameTimer, now: real): (r: GameTimer)
    ensures r.time == r.startTime == r.endTime == Set(now)
    ensures r.delta == Set(0.0)
    ensures SecondElapsed(t, now) ==> r.fps == Set(t.frameCount + 1) && r.frameCount == 0 && r.previousTime == now
    ensures !SecondElapsed(t, now) ==> r.fps == t.fps && r.frameCount == t.frameCount + 1 && r.previousTime == t.previousTime
  {
    var t := t.(time := Set(now));
    var t := t.(startTime := t.time);
    var t := t.(endTime := t.time);
    var t := t.(delta := Set(t.endTime.value - t.startTime.value));
    var t := t.(frameCount := t.frameCount + 1);
    if t.time.value - t.previousTime >= 1.0 then
      t.(fps := Set(t.frameCount), frameCount := 0, previousTime := t.time.value)
    else
      t
  }

  /** Frames at clock readings `times`, first to last. */
  function TickAll(t: GameTimer, times: seq<real>): GameTimer
    decreases |times|
  {
    if |times| == 0 then t else TickAll(Tick(t, times[0]), times[1..])
  }

  /** Within one window, frames are only counted: the count grows by one per frame. */
  lemma {:induction false} FramesCountedWithinSecond(t: GameTimer, times: seq<real>)
    requires forall i :: 0 <= i < |times| ==> times[i] - t.previousTime < 1.0
    ensures TickAll(t, times).frameCount == t.frameCount + |times|
    ensures TickAll(t, times).previousTime == t.previousTime
    ensures TickAll(t, times).fps == t.fps
    decreases |times|
  {
    if |times| > 0 {
      FramesCountedWithinSecond(Tick(t, times[0]), times[1..]);
    }
  }

  /** The frames of `times` then one more frame at `last`. */
  lemma {:induction false} TickAllSplit(t: GameTimer, times: seq<real>, last: real)
    ensures TickAll(t, times + [last]) == Tick(TickAll(t, times), last)
    decreases |times|
  {
    if |times| == 0 {
      assert times + [last] == [last];
    } else {
      assert (times + [last])[1..] == times[1..] + [last];
      TickAllSplit(Tick(t, times[0]), times[1..], last);
    }
  }

  /**
   * Starting at `start`, if the first frames stay within a second and the last
   * one does not, fps becomes the number of frames in that window.
   */
  lemma FpsIsFramesPerWindow(start: real, times: seq<real>)
    requires |times| > 0
    requires forall i :: 0 <= i < |times| - 1 ==> times[i] - start < 1.0
    requires times[|times| - 1] - start >= 1.0
    ensures TickAll(StartTimer(start), times).fps == Set(|times|)
    ensures TickAll(StartTimer(start), times).frameCount == 0
  {
    var before := times[..|times| - 1];
    var t0 := StartTimer(start);
    FramesCountedWithinSecond(t0, before);
    TickAllSplit(t0, before, times[|times| - 1]);
    assert before + [times[|times| - 1]] == times;
  }
}
