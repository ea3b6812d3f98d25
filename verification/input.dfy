/**
 * Mouse callbacks (mouse.c): the cursor callback stores a clamped cursor
 * position, the scroll callback retunes the receiver by one megahertz per
 * wheel notch. Window-library calls are not modelled.
 */
module Input {
  import opened Results
  import opened Config

  function Max(a: real, b: real): real {
    if a < b then b else a
  }

  function Min(a: real, b: real): real {
    if a < b then a else b
  }

  /** The state with only the stored cursor position replaced. */
  function WithCursor(gs: GameState, x: real, y: real): GameState {
    gs.(mouse := gs.mouse.(xPos := Set(x), yPos := Set(y)))
  }

  /**
   * cursor_position_callback as written: the fourth check compares and
   * assigns x against the height, so y has no upper bound and x is clamped
   * to the smaller of width and height.
   */
  function CursorPositionAsWritten(gs: GameState, x: real, y: real): (r: GameState)
    ensures var w, h := gs.window.width as real, gs.window.height as real;
            r == WithCursor(gs, Min(Min(Max(x, 0.0), w), h), Max(y, 0.0))
    ensures var w, h := gs.window.width as real, gs.window.height as real;
            0.0 <= w && 0.0 <= h ==> 0.0 <= r.mouse.xPos.value <= w && r.mouse.xPos.value <= h
    ensures 0.0 <= r.mouse.yPos.value && (0.0 <= y ==> r.mouse.yPos.value == y)
  {
    var x := if x < 0.0 then 0.0 else x;
    var x := if x > gs.window.width as real then gs.window.width as real else x;
    var y := if y < 0.0 then 0.0 else y;
    var x := if x > gs.window.height as real then gs.window.height as real else x;
    WithCursor(gs, x, y)
  }

  /**
   * With the default window, a cursor inside the window at (1000, 600) is
   * stored as (640, 600), and one below it at (100, 1000) keeps y = 1000.
   */
  lemma CursorMixUpWitness(gs: GameState)
    requires gs.window.width == DefaultWidth && gs.window.height == DefaultHeight
    ensures CursorPositionAsWritten(gs, 1000.0, 600.0).mouse.xPos == Set(640.0)
    ensures CursorPositionAsWritten(gs, 100.0, 1000.0).mouse.yPos == Set(1000.0)
    ensures 1000.0 > DefaultHeight as real
  {
  }

  /** The cursor callback as evidently intended: x clamped to the width, y to the height. */
  function CursorPosition(gs: GameState, x: real, y: real): (r: GameState)
    requires 0 <= gs.window.width && 0 <= gs.window.height
    ensures r.mouse.xPos.Set? && r.mouse.yPos.Set?
    ensures r == WithCursor(gs, r.mouse.xPos.value, r.mouse.yPos.value)
    ensures 0.0 <= r.mouse.xPos.value <= gs.window.width as real
    ensures 0.0 <= r.mouse.yPos.value <= gs.window.height as real
    ensures (0.0 <= x <= gs.window.width as real) <==> r.mouse.xPos.value == x
    ensures (0.0 <= y <= gs.window.height as real) <==> r.mouse.yPos.value == y
  {
    var x := if x < 0.0 then 0.0 else x;
    var x := if x > gs.window.width as real then gs.window.width as real else x;
    var y := if y < 0.0 then 0.0 else y;
    var y := if y > gs.window.height as real then gs.window.height as real else y;
    WithCursor(gs, x, y)
  }

  /** Inside a window no wider than it is high, the source and the intended callback agree. */
  lemma CursorVersionsAgreeInsideWindow(gs: GameState, x: real, y: real)
    requires 0 <= gs.window.width <= gs.window.height
    requires 0.0 <= x <= gs.window.width as real && 0.0 <= y <= gs.window.height as real
    ensures CursorPositionAsWritten(gs, x, y) == CursorPosition(gs, x, y) == WithCursor(gs, x, y)
  {
  }

  /** Tuning step of one scroll notch, in Hz. */
  const FrequencyStep: int := 1000000

  /** The wheel offset that tunes up; every other offset tunes down. */
  const TuneUpOffset: real := -1.0

  /** The new frequency stays an int64_t (signed overflow is undefined in C). */
  predicate ScrollFits(frequency: int, yOffset: real) {
    if yOffset == TuneUpOffset then IsInt64(frequency + FrequencyStep)
    else IsInt64(frequency - FrequencyStep)
  }

  /**
   * scroll_callback: stores both offsets, steps the frequency, and asks the
   * render loop to re-apply it. The zoom updates are commented out in the
   * source, so the zoom is unchanged.
   */
  function ScrollCallback(gs: GameState, xOffset: real, yOffset: real): (r: GameState)
    requires ScrollFits(gs.sdr.frequency, yOffset)
    ensures yOffset == TuneUpOffset ==> r.sdr.frequency == gs.sdr.frequency + FrequencyStep
    ensures yOffset != TuneUpOffset ==> r.sdr.frequency == gs.sdr.frequency - FrequencyStep
    ensures IsInt64(r.sdr.frequency)
    ensures r.mouse == gs.mouse.(scrollXOffset := Set(xOffset), scrollYOffset := Set(yOffset))
    ensures r.window == gs.window.(updateAspect := Set(1))
    ensures r.window.zoom == gs.window.zoom
    ensures r.sdr.lastLine == gs.sdr.lastLine
    ensures r.shouldClose == gs.shouldClose && r.cursor == gs.cursor
  {
    var mouse := gs.mouse.(scrollXOffset := Set(xOffset), scrollYOffset := Set(yOffset));
    var frequency := if yOffset == TuneUpOffset then gs.sdr.frequency + FrequencyStep
                     else gs.sdr.frequency - FrequencyStep;
    gs.(mouse := mouse,
        sdr := gs.sdr.(frequency := frequency),
        window := gs.window.(updateAspect := Set(1)))
  }

  /** One wheel event, as delivered to scroll_callback. */
  datatype ScrollEvent = ScrollEvent(xOffset: real, yOffset: real)

  /** `n` notches from `frequency` cannot leave the int64_t range. */
  predicate RoomFor(frequency: int, n: nat) {
    Int64Min + n * FrequencyStep <= frequency <= Int64Max - n * FrequencyStep
  }

  /** A series of wheel events delivered one after another. */
  function ScrollAll(gs: GameState, events: seq<ScrollEvent>): (r: GameState)
    requires RoomFor(gs.sdr.frequency, |events|)
    ensures gs.sdr.frequency - |events| * FrequencyStep <= r.sdr.frequency <= gs.sdr.frequency + |events| * FrequencyStep
    ensures IsInt64(r.sdr.frequency)
    decreases |events|
  {
    if |events| == 0 then gs
    else ScrollAll(ScrollCallback(gs, events[0].xOffset, events[0].yOffset), events[1..])
  }

  /** Notches up minus notches down. */
  function NetNotches(events: seq<ScrollEvent>): int
    decreases |events|
  {
    if |events| == 0 then 0
    else (if events[0].yOffset == TuneUpOffset then 1 else -1) + NetNotches(events[1..])
  }

  /** The frequency moves by one step per notch, up for TuneUpOffset and down otherwise. */
  lemma {:induction false} FrequencyFollowsNotches(gs: GameState, events: seq<ScrollEvent>)
    requires RoomFor(gs.sdr.frequency, |events|)
    ensures ScrollAll(gs, events).sdr.frequency == gs.sdr.frequency + NetNotches(events) * FrequencyStep
    decreases |events|
  {
    if |events| > 0 {
      FrequencyFollowsNotches(ScrollCallback(gs, events[0].xOffset, events[0].yOffset), events[1..]);
    }
  }

  lemma {:induction false} NetNotchesAppend(a: seq<ScrollEvent>, b: seq<ScrollEvent>)
    ensures NetNotches(a + b) == NetNotches(a) + NetNotches(b)
    decreases |a|
  {
    if |a| == 0 {
      assert a + b == b;
    } else {
      assert (a + b)[0] == a[0];
      assert (a + b)[1..] == a[1..] + b;
      NetNotchesAppend(a[1..], b);
    }
  }

  lemma {:induction false} NetNotchesRepeated(e: ScrollEvent, k: nat)
    ensures NetNotches(seq(k, _ => e)) == if e.yOffset == TuneUpOffset then k as int else -(k as int)
    decreases k
  {
    if k > 0 {
      assert seq(k, _ => e)[1..] == seq(k - 1, _ => e);
      NetNotchesRepeated(e, k - 1);
    }
  }

  /** `k` notches tuning up followed by `k` notches of +1.0 return to the starting frequency. */
  lemma ScrollRoundTrip(gs: GameState, k: nat)
    requires RoomFor(gs.sdr.frequency, 2 * k)
    ensures ScrollAll(gs, seq(k, _ => ScrollEvent(0.0, -1.0)) + seq(k, _ => ScrollEvent(0.0, 1.0))).sdr.frequency
         == gs.sdr.frequency
  {
    var up, down := seq(k, _ => ScrollEvent(0.0, -1.0)), seq(k, _ => ScrollEvent(0.0, 1.0));
    FrequencyFollowsNotches(gs, up + down);
    NetNotchesAppend(up, down);
    NetNotchesRepeated(ScrollEvent(0.0, -1.0), k);
    NetNotchesRepeated(ScrollEvent(0.0, 1.0), k);
  }

  /** From the start-up frequency, nine trillion notches in any directions stay within int64_t. */
  lemma DefaultFrequencyHasRoom(n: nat)
    requires n <= 9_000_000_000_000
    ensures RoomFor(DefaultFrequency, n)
  {
  }
}
