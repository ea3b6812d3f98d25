/**
 * The body of the consumer thread's loop (queue_processor, main.c): pop the
 * head line and remember it as the line to draw; then, if more than
 * OverflowCeiling lines are still pending, drop one more from the head.
 */
module Consumer {
  import opened Results
  import opened Config
  import LineQueue

  /** Pending-line count above which one extra line is dropped per step. */
  const OverflowCeiling: nat := 25000

  /** The queue and the `last_line` field the consumer writes. */
  datatype Consumed = Consumed(queue: seq<Line>, lastLine: Cell<Line>)

  /** One iteration of the queue_processor loop. */
  function ConsumerStep(q: seq<Line>, lastLine: Cell<Line>): (r: Consumed)
    ensures |r.queue| <= |q| && r.queue == q[|q| - |r.queue|..]
    ensures |q| == 0 ==> r == Consumed(q, lastLine)
    ensures |q| > 0 ==> r.lastLine == Set(q[0])
    ensures |q| > 0 ==> (|r.queue| == |q| - 2 <==> |q| - 1 > OverflowCeiling)
    ensures |q| > 0 ==> (|r.queue| == |q| - 1 <==> |q| - 1 <= OverflowCeiling)
  {
    var (rest, line) := LineQueue.Pop(q);
    var stored := if line.Some? then Set(line.value) else lastLine;
    var rest := if |rest| > OverflowCeiling then LineQueue.Pop(rest).0 else rest;
    Consumed(rest, stored)
  }

  /** The extra drop never takes the queue below the ceiling. */
  lemma OverflowDropStopsAtCeiling(q: seq<Line>, lastLine: Cell<Line>)
    requires |ConsumerStep(q, lastLine).queue| == |q| - 2
    ensures |ConsumerStep(q, lastLine).queue| >= OverflowCeiling
  {
  }

  /** `n` consumer iterations with no producer in between. */
  function ConsumerSteps(q: seq<Line>, lastLine: Cell<Line>, n: nat): Consumed
    decreases n
  {
    if n == 0 then Consumed(q, lastLine)
    else
      var c := ConsumerStep(q, lastLine);
      ConsumerSteps(c.queue, c.lastLine, n - 1)
  }

  /**
   * Below the ceiling nothing is dropped: `n` iterations consume exactly the
   * first `n` lines, in queue order, the `n`-th being the one left to draw.
   */
  lemma {:induction false} DrainInOrder(q: seq<Line>, lastLine: Cell<Line>, n: nat)
    requires n <= |q| <= OverflowCeiling + 1
    ensures ConsumerSteps(q, lastLine, n) == Consumed(q[n..], if n == 0 then lastLine else Set(q[n - 1]))
    decreases n
  {
    if n > 0 {
      var c := ConsumerStep(q, lastLine);
      assert c == Consumed(q[1..], Set(q[0]));
      DrainInOrder(q[1..], Set(q[0]), n - 1);
      assert q[1..][n - 1..] == q[n..];
    }
  }

  /**
   * Above the ceiling every iteration removes two lines until the ceiling is
   * reached: `n` such iterations leave `|q| - 2 * n` lines, the newest ones.
   */
  lemma {:induction false} OverflowSheds(q: seq<Line>, lastLine: Cell<Line>, n: nat)
    requires OverflowCeiling + 2 * n <= |q|
    ensures ConsumerSteps(q, lastLine, n).queue == q[2 * n..]
    decreases n
  {
    if n > 0 {
      assert |q| - 1 > OverflowCeiling;
      var c := ConsumerStep(q, lastLine);
      assert |c.queue| == |q| - 2;
      assert c.queue == q[2..];
      OverflowSheds(q[2..], c.lastLine, n - 1);
      assert q[2..][2 * (n - 1)..] == q[2 * n..];
    }
  }
}
