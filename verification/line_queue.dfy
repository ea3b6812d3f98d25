/**
 * The hand-off queue between the sample callback and the consumer thread,
 * seen only through queue_append, queue_pop and queue_size: a sequence with
 * tail append and head pop. Locking is not modelled.
 */
module LineQueue {
  import opened Results

  /** queue_append: the new entry goes behind every pending one. */
  function Append<T>(q: seq<T>, x: T): (r: seq<T>)
    ensures |r| == |q| + 1
    ensures r[..|q|] == q && r[|q|] == x
  {
    q + [x]
  }

  /** queue_pop: the head and the rest, or the null pointer when empty. */
  function Pop<T>(q: seq<T>): (r: (seq<T>, Option<T>))
    ensures |q| == 0 ==> r == (q, None)
    ensures |q| > 0 ==> r.1 == Some(q[0]) && [q[0]] + r.0 == q
  {
    if |q| == 0 then (q, None) else (q[1..], Some(q[0]))
  }

  /** Appends every element of `xs`, first to last. */
  function AppendAll<T>(q: seq<T>, xs: seq<T>): seq<T>
    decreases |xs|
  {
    if |xs| == 0 then q else AppendAll(Append(q, xs[0]), xs[1..])
  }

  /** Pops until the queue is empty and returns what was popped, in pop order. */
  function PopAll<T>(q: seq<T>): seq<T>
    decreases |q|
  {
    match Pop(q)
    case (_, None) => []
    case (rest, Some(x)) => [x] + PopAll(rest)
  }

  lemma {:induction false} AppendAllIsConcatenation<T>(q: seq<T>, xs: seq<T>)
    ensures AppendAll(q, xs) == q + xs
    decreases |xs|
  {
    if |xs| > 0 {
      AppendAllIsConcatenation(Append(q, xs[0]), xs[1..]);
      assert Append(q, xs[0]) + xs[1..] == q + xs;
    }
  }

  lemma {:induction false} PopAllReturnsContents<T>(q: seq<T>)
    ensures PopAll(q) == q
    decreases |q|
  {
    if |q| > 0 {
      PopAllReturnsContents(q[1..]);
    }
  }

  /** FIFO: pops return the pending entries first, then the appended ones, each in insertion order. */
  lemma {:induction false} FifoOrder<T>(q: seq<T>, xs: seq<T>)
    ensures PopAll(AppendAll(q, xs)) == q + xs
  {
    AppendAllIsConcatenation(q, xs);
    PopAllReturnsContents(q + xs);
  }
}
