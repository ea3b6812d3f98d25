/**
 * The hardware sample callback (receive_callback, main.c). A raw block of
 * `nSamples` samples, `bytesPerSample` bytes each, is cut into whole chunks
 * of FftSize samples; each chunk goes through the FFT, and the resulting line
 * is appended to the queue in chunk order. The FFT is not part of this model:
 * it is a parameter whose result type fixes the line length.
 */
module Producer {
  import opened Config
  import LineQueue

  /** Bytes in one chunk of FftSize samples. */
  function ChunkBytes(bytesPerSample: nat): nat {
    FftSize * bytesPerSample
  }

  /** Byte offset of chunk `i` in the raw block (`buff + i * FFT_SIZE * bytes_per_sample`). */
  function ChunkOffset(i: nat, bytesPerSample: nat): nat {
    i * ChunkBytes(bytesPerSample)
  }

  predicate ChunkFits(block: seq<Sample>, i: nat, bytesPerSample: nat) {
    ChunkOffset(i, bytesPerSample) + ChunkBytes(bytesPerSample) <= |block|
  }

  /** The bytes the FFT reads for chunk `i`. */
  function Chunk(block: seq<Sample>, i: nat, bytesPerSample: nat): seq<Sample>
    requires ChunkFits(block, i, bytesPerSample)
  {
    block[ChunkOffset(i, bytesPerSample)..ChunkOffset(i, bytesPerSample) + ChunkBytes(bytesPerSample)]
  }

  lemma MulLeft(a: nat, b: nat, c: nat)
    requires a <= b
    ensures a * c <= b * c
  {
  }

  /** Every whole chunk of an `nSamples`-sample block lies inside the block. */
  lemma {:induction false} ChunkInsideBlock(nSamples: nat, bytesPerSample: nat, i: nat)
    requires i < nSamples / FftSize
    ensures ChunkOffset(i, bytesPerSample) + ChunkBytes(bytesPerSample) <= nSamples * bytesPerSample
  {
    assert (i + 1) * FftSize <= nSamples;
    MulLeft((i + 1) * FftSize, nSamples, bytesPerSample);
    assert ChunkOffset(i, bytesPerSample) + ChunkBytes(bytesPerSample) == (i + 1) * FftSize * bytesPerSample;
  }

  /** Chunks do not overlap and later chunks start at higher offsets. */
  lemma {:induction false} ChunksOrderedAndDisjoint(bytesPerSample: nat, i: nat, j: nat)
    requires i < j
    ensures ChunkOffset(i, bytesPerSample) + ChunkBytes(bytesPerSample) <= ChunkOffset(j, bytesPerSample)
  {
    MulLeft(i + 1, j, ChunkBytes(bytesPerSample));
  }

  /** The loop of receive_callback from chunk `i` up to (not including) `count`. */
  function AppendChunks(q: seq<Line>, block: seq<Sample>, bytesPerSample: nat,
                        fft: seq<Sample> -> Line, i: nat, count: nat): (r: seq<Line>)
    requires i <= count
    requires forall k :: i <= k < count ==> ChunkFits(block, k, bytesPerSample)
    ensures |r| == |q| + (count - i)
    ensures r[..|q|] == q
    ensures forall k :: i <= k < count ==> r[|q| + (k - i)] == fft(Chunk(block, k, bytesPerSample))
    decreases count - i
  {
    if i == count then q
    else
      var q' := LineQueue.Append(q, fft(Chunk(block, i, bytesPerSample)));
      var r := AppendChunks(q', block, bytesPerSample, fft, i + 1, count);
      assert r[..|q|] == r[..|q'|][..|q|];
      r
  }

  /** receive_callback: appends one line per whole chunk, in chunk order. */
  function ReceiveCallback(q: seq<Line>, block: seq<Sample>, nSamples: nat, bytesPerSample: nat,
                           fft: seq<Sample> -> Line): (r: seq<Line>)
    requires |block| == nSamples * bytesPerSample
    ensures |r| == |q| + nSamples / FftSize
    ensures r[..|q|] == q
    ensures forall i :: 0 <= i < nSamples / FftSize ==>
              ChunkFits(block, i, bytesPerSample) && r[|q| + i] == fft(Chunk(block, i, bytesPerSample))
  {
    forall k | 0 <= k < nSamples / FftSize
      ensures ChunkFits(block, k, bytesPerSample)
    {
      ChunkInsideBlock(nSamples, bytesPerSample, k);
    }
    AppendChunks(q, block, bytesPerSample, fft, 0, nSamples / FftSize)
  }

  /** A chunk that fits in a prefix of the block is the same chunk of the whole block. */
  lemma ChunkOfPrefix(block: seq<Sample>, m: nat, i: nat, bytesPerSample: nat)
    requires m <= |block|
    requires ChunkFits(block[..m], i, bytesPerSample)
    ensures ChunkFits(block, i, bytesPerSample)
    ensures Chunk(block[..m], i, bytesPerSample) == Chunk(block, i, bytesPerSample)
  {
  }

  /**
   * A trailing partial chunk is discarded: the queue is the same as if the
   * block had ended at the last whole chunk.
   */
  lemma RemainderIgnored(q: seq<Line>, block: seq<Sample>, nSamples: nat, bytesPerSample: nat,
                         fft: seq<Sample> -> Line)
    requires |block| == nSamples * bytesPerSample
    ensures (nSamples / FftSize) * FftSize * bytesPerSample <= |block|
    ensures ReceiveCallback(q, block, nSamples, bytesPerSample, fft)
         == ReceiveCallback(q, block[..(nSamples / FftSize) * FftSize * bytesPerSample],
                            (nSamples / FftSize) * FftSize, bytesPerSample, fft)
  {
    var count := nSamples / FftSize;
    var whole := count * FftSize;
    assert whole / FftSize == count;
    MulLeft(whole, nSamples, bytesPerSample);
    var m := whole * bytesPerSample;
    var cut := block[..m];
    var r1 := ReceiveCallback(q, block, nSamples, bytesPerSample, fft);
    var r2 := ReceiveCallback(q, cut, whole, bytesPerSample, fft);
    assert |r1| == |r2| == |q| + count;
    forall k | 0 <= k < |r1|
      ensures r1[k] == r2[k]
    {
      if k < |q| {
        assert r1[k] == r1[..|q|][k] && r2[k] == r2[..|q|][k];
      } else {
        var i := k - |q|;
        assert r2[|q| + i] == fft(Chunk(cut, i, bytesPerSample));
        ChunkOfPrefix(block, m, i, bytesPerSample);
      }
    }
  }

  /** A block shorter than one chunk produces no line. */
  lemma ShortBlockProducesNothing(q: seq<Line>, block: seq<Sample>, nSamples: nat, bytesPerSample: nat,
                                  fft: seq<Sample> -> Line)
    requires |block| == nSamples * bytesPerSample
    requires nSamples < FftSize
    ensures ReceiveCallback(q, block, nSamples, bytesPerSample, fft) == q
  {
  }

  /** A block of two and a half chunks produces exactly two lines. */
  lemma TwoAndAHalfChunks(q: seq<Line>, block: seq<Sample>, bytesPerSample: nat, fft: seq<Sample> -> Line)
    requires |block| == (2 * FftSize + FftSize / 2) * bytesPerSample
    ensures var r := ReceiveCallback(q, block, 2 * FftSize + FftSize / 2, bytesPerSample, fft);
            |r| == |q| + 2 && r[|q|] == fft(Chunk(block, 0, bytesPerSample))
            && r[|q| + 1] == fft(Chunk(block, 1, bytesPerSample))
  {
  }
}
