/**
 * The per-frame waterfall update (main.c): the RGBA float grid is scrolled
 * down one row, and row 0 is rewritten from the most recent spectral line,
 * each pixel showing the mean of a group of adjacent FFT bins.
 * The grid is the flat C array: row `i`, pixel `j`, channel `c` is at float
 * index `i * RowFloats + j * Channels + c`.
 */
module Waterfall {
  import opened Results
  import opened Config

  /** Floats in one grid row. */
  const RowFloats: nat := WaterfallWidth * Channels
  /** Floats in the whole grid (the malloc at main.c:192-193, divided by sizeof(float)). */
  const GridFloats: nat := WaterfallHeight * RowFloats
  /** `one_line` (main.c:221): the size of one row in BYTES. */
  const OneLineBytes: nat := WaterfallWidth * Channels * SizeofFloat
  /** `points_per_pixel` (main.c:247): bins averaged into one pixel, by integer division. */
  const PointsPerPixel: nat := FftSize / WaterfallWidth

  type Grid = g: seq<real> | |g| == GridFloats witness seq(GridFloats, _ => 0.0)

  /** Row `i` of the grid. */
  function Row(g: Grid, i: nat): seq<real>
    requires i < WaterfallHeight
  {
    g[i * RowFloats..(i + 1) * RowFloats]
  }

  // ---------------------------------------------------------------- memmove

  datatype MemoryError = OutOfBounds(dst: nat, src: nat, count: nat)

  /**
   * C memmove on a float buffer, with offsets and length counted in floats:
   * an overlap-safe copy, or an error when either range leaves the buffer
   * (undefined behaviour in C).
   */
  function Memmove(mem: seq<real>, dst: nat, src: nat, count: nat): (r: Result<seq<real>, MemoryError>)
    ensures r.Ok? <==> dst + count <= |mem| && src + count <= |mem|
    ensures r.Ok? ==> |r.value| == |mem|
    ensures r.Ok? ==> forall k :: dst <= k < dst + count ==> r.value[k] == mem[k - dst + src]
    ensures r.Ok? ==> forall k :: 0 <= k < |mem| && !(dst <= k < dst + count) ==> r.value[k] == mem[k]
  {
    if dst + count <= |mem| && src + count <= |mem| then
      Ok(mem[..dst] + mem[src..src + count] + mem[dst + count..])
    else
      Err(OutOfBounds(dst, src, count))
  }

  /**
   * The scroll as written at main.c:245: the destination is `pixels + one_line`
   * on a `float*`, so the byte count `one_line` is used as a float offset; the
   * length `(WATERFALL_HEIGHT - 1) * one_line` is in bytes.
   */
  function ScrollAsWritten(grid: Grid): (r: Result<seq<real>, MemoryError>)
    ensures r.Err?
    ensures r.error.dst == SizeofFloat * RowFloats
    ensures r.error.dst + r.error.count == GridFloats + 3 * RowFloats
  {
    Memmove(grid, OneLineBytes, 0, (WaterfallHeight - 1) * OneLineBytes / SizeofFloat)
  }

  /**
   * The scroll as written starts writing SizeofFloat rows down instead of one,
   * ends three rows past the grid, and so leaves the buffer for every grid.
   */
  lemma ScrollAsWrittenOverruns(grid: Grid)
    ensures OneLineBytes == SizeofFloat * RowFloats
    ensures (WaterfallHeight - 1) * OneLineBytes / SizeofFloat == (WaterfallHeight - 1) * RowFloats
    ensures OneLineBytes + (WaterfallHeight - 1) * RowFloats == (WaterfallHeight + 3) * RowFloats
    ensures (WaterfallHeight + 3) * RowFloats > GridFloats
    ensures ScrollAsWritten(grid).Err?
  {
  }

  /**
   * The scroll as intended: offset one row of floats. Every row moves one
   * row down, the last row is dropped, and row 0 keeps its old content until
   * it is rewritten.
   */
  function Scroll(grid: Grid): (r: Grid)
    ensures r[RowFloats..] == grid[..GridFloats - RowFloats]
    ensures r[..RowFloats] == grid[..RowFloats]
  {
    var m := Memmove(grid, RowFloats, 0, (WaterfallHeight - 1) * RowFloats);
    var r: Grid := m.value;
    assert r[RowFloats..] == grid[..GridFloats - RowFloats] by {
      forall k | 0 <= k < GridFloats - RowFloats
        ensures r[RowFloats..][k] == grid[k]
      {
        assert r[RowFloats + k] == grid[k];
      }
    }
    r
  }

  // -------------------------------------------------------------- set_pixel

  function Abs(x: real): real {
    if x < 0.0 then -x else x
  }

  /** Grey level of a pixel whose bins average to `mean` (set_pixel, main.c:74). */
  function Intensity(mean: real): (v: real)
    requires mean != 0.0
    ensures v > 0.0
    ensures v * Abs(mean) == DefaultLnaGain as real
  {
    DefaultLnaGain as real / Abs(mean)
  }

  /** On the negative magnitudes the FFT produces, a larger mean is a brighter pixel. */
  lemma IntensityMonotone(a: real, b: real)
    requires b < a < 0.0
    ensures Intensity(b) < Intensity(a)
  {
    assert Intensity(b) == DefaultLnaGain as real / -b;
    assert Intensity(a) == DefaultLnaGain as real / -a;
  }

  /** Brightness is not clamped: a mean closer to zero than the gain gives a value above 1.0. */
  lemma IntensityUnclamped(mean: real)
    requires mean != 0.0 && Abs(mean) < DefaultLnaGain as real
    ensures Intensity(mean) > 1.0
  {
    assert Intensity(mean) == DefaultLnaGain as real / Abs(mean);
  }

  /**
   * set_pixel: R, G and B at `offset..offset+2` get the intensity of `mean`,
   * alpha at `offset+3` gets 1.0; nothing else changes.
   */
  function SetPixel(mem: seq<real>, offset: nat, mean: real): (r: seq<real>)
    requires offset + Channels <= |mem|
    requires mean != 0.0
    ensures |r| == |mem|
    ensures r[offset] == r[offset + 1] == r[offset + 2] == Intensity(mean)
    ensures r[offset + 3] == 1.0
    ensures forall k :: 0 <= k < |mem| && !(offset <= k < offset + Channels) ==> r[k] == mem[k]
  {
    var v := Intensity(mean);
    mem[offset := v][offset + 1 := v][offset + 2 := v][offset + 3 := 1.0]
  }

  // ------------------------------------------------------------- downsample

  /** Sum of a sequence, accumulated front to back as the source's inner loop does. */
  function Sum(s: seq<real>): real {
    if |s| == 0 then 0.0 else Sum(s[..|s| - 1]) + s[|s| - 1]
  }

  /** First bin averaged into pixel `j`. */
  function GroupStart(j: nat): nat {
    j * PointsPerPixel
  }

  /** Mean of the bins `[GroupStart(j), GroupStart(j + 1))` of the line. */
  function GroupMean(line: Line, j: nat): real
    requires j < WaterfallWidth
  {
    Sum(line[GroupStart(j)..GroupStart(j + 1)]) / PointsPerPixel as real
  }

  /** Every group mean can be turned into a brightness (none is zero). */
  predicate NonZeroMeans(line: Line) {
    forall j :: 0 <= j < WaterfallWidth ==> GroupMean(line, j) != 0.0
  }

  /** Pixel `j` of row 0 shows the grey level of group `j` of the line, fully opaque. */
  predicate PixelShows(g: seq<real>, j: nat, line: Line)
    requires j < WaterfallWidth && RowFloats <= |g|
    requires GroupMean(line, j) != 0.0
  {
    && g[Channels * j] == Intensity(GroupMean(line, j))
    && g[Channels * j + 1] == Intensity(GroupMean(line, j))
    && g[Channels * j + 2] == Intensity(GroupMean(line, j))
    && g[Channels * j + 3] == 1.0
  }

  /**
   * Six bins per pixel; the groups are disjoint, follow each other, and the
   * last one ends at bin 7680, so the last 512 bins are never read.
   */
  lemma {:induction false} GroupLayout(i: nat, j: nat)
    requires i < j < WaterfallWidth
    ensures PointsPerPixel == 6
    ensures GroupStart(i + 1) <= GroupStart(j)
    ensures GroupStart(j + 1) <= GroupStart(WaterfallWidth) == 7680 < FftSize
    ensures FftSize - GroupStart(WaterfallWidth) == 512
  {
  }

  /** The drawn row does not depend on the bins past `GroupStart(WaterfallWidth)`. */
  lemma {:induction false} TrailingBinsNeverDrawn(a: Line, b: Line, j: nat)
    requires j < WaterfallWidth
    requires a[..GroupStart(WaterfallWidth)] == b[..GroupStart(WaterfallWidth)]
    ensures GroupMean(a, j) == GroupMean(b, j)
  {
    assert a[GroupStart(j)..GroupStart(j + 1)] == a[..GroupStart(WaterfallWidth)][GroupStart(j)..GroupStart(j + 1)];
    assert b[GroupStart(j)..GroupStart(j + 1)] == b[..GroupStart(WaterfallWidth)][GroupStart(j)..GroupStart(j + 1)];
  }

  lemma {:induction false} SumOfConstant(s: seq<real>, v: real)
    requires forall k :: 0 <= k < |s| ==> s[k] == v
    ensures Sum(s) == |s| as real * v
  {
    if |s| > 0 {
      SumOfConstant(s[..|s| - 1], v);
    }
  }

  /** A line of equal magnitudes -64 gives the same grey 0.375 in every pixel. */
  lemma UniformLineIsUniformGrey(line: Line, j: nat)
    requires forall k :: 0 <= k < FftSize ==> line[k] == -64.0
    requires j < WaterfallWidth
    ensures GroupMean(line, j) == -64.0
    ensures Intensity(GroupMean(line, j)) == 0.375
  {
    var group := line[GroupStart(j)..GroupStart(j + 1)];
    assert |group| == 6;
    SumOfConstant(group, -64.0);
    assert Sum(group) == -384.0;
    assert GroupMean(line, j) == -384.0 / 6.0 == -64.0;
    assert Intensity(-64.0) == 24.0 / 64.0;
  }

  lemma SumExtend(s: seq<real>, k: nat)
    requires k < |s|
    ensures Sum(s[..k + 1]) == Sum(s[..k]) + s[k]
  {
    assert s[..k + 1][..k] == s[..k];
  }

  /** The inner loop of main.c:250-254: the mean of the bins of pixel `j`. */
  method GroupAverage(line: Line, j: nat) returns (mean: real)
    requires j < WaterfallWidth
    ensures mean == GroupMean(line, j)
  {
    var pointsPerPixel := FftSize / WaterfallWidth;
    assert pointsPerPixel == PointsPerPixel == 6;
    var start := j * pointsPerPixel;
    ghost var group := line[start..start + pointsPerPixel];
    var sum := 0.0;
    var k := 0;
    while k < pointsPerPixel
      invariant 0 <= k <= pointsPerPixel
      invariant sum == Sum(group[..k])
    {
      SumExtend(group, k);
      sum := sum + line[start + k];
      k := k + 1;
    }
    assert group[..pointsPerPixel] == group;
    mean := sum / pointsPerPixel as real;
  }

  /**
   * The row loop of main.c:249-256: for every pixel, average its group of
   * bins and write the grey RGBA pixel at offset `4 * j`. Exactly the floats
   * of row 0 are written.
   */
  method DrawRow(grid: seq<real>, line: Line) returns (g: seq<real>)
    requires RowFloats <= |grid|
    requires NonZeroMeans(line)
    ensures |g| == |grid|
    ensures forall j :: 0 <= j < WaterfallWidth ==> PixelShows(g, j, line)
    ensures g[RowFloats..] == grid[RowFloats..]
  {
    g := grid;
    var j := 0;
    while j < WaterfallWidth
      invariant 0 <= j <= WaterfallWidth
      invariant |g| == |grid|
      invariant forall i :: 0 <= i < j ==> PixelShows(g, i, line)
      invariant forall k :: Channels * j <= k < |grid| ==> g[k] == grid[k]
    {
      var mean := GroupAverage(line, j);
      var g' := SetPixel(g, Channels * j, mean);
      forall i | 0 <= i < j
        ensures PixelShows(g', i, line)
      {
        assert PixelShows(g, i, line);
      }
      g := g';
      j := j + 1;
    }
    assert g[RowFloats..] == grid[RowFloats..] by {
      forall k | 0 <= k < |grid| - RowFloats
        ensures g[RowFloats..][k] == grid[RowFloats..][k]
      {
        assert g[RowFloats + k] == grid[RowFloats + k];
      }
    }
  }

  // ------------------------------------------------------------- frame step

  /** Inserting a row: it becomes row 0, older rows move down one, the oldest is evicted. */
  function Push(grid: Grid, row: seq<real>): (r: Grid)
    requires |row| == RowFloats
    ensures Row(r, 0) == row
    ensures forall i :: 0 <= i < WaterfallHeight - 1 ==> Row(r, i + 1) == Row(grid, i)
  {
    var r: Grid := row + grid[..GridFloats - RowFloats];
    forall i | 0 <= i < WaterfallHeight - 1
      ensures Row(r, i + 1) == Row(grid, i)
    {
      forall c | 0 <= c < RowFloats
        ensures Row(r, i + 1)[c] == Row(grid, i)[c]
      {
        assert r[(i + 1) * RowFloats + c] == grid[i * RowFloats + c];
      }
    }
    r
  }

  datatype FrameError = LastLineUnset

  /**
   * One frame of main.c:245-256 with the intended scroll: the old rows move
   * down one and row 0 shows the last consumed line. Reading `last_line`
   * before the consumer ever stored one reads garbage; that is an error here.
   */
  method FrameStep(grid: Grid, lastLine: Cell<Line>) returns (r: Result<Grid, FrameError>)
    requires lastLine.Set? ==> NonZeroMeans(lastLine.value)
    ensures r.Ok? <==> lastLine.Set?
    ensures r.Ok? ==> r.value == Push(grid, r.value[..RowFloats])
    ensures r.Ok? ==> forall j :: 0 <= j < WaterfallWidth ==> PixelShows(r.value, j, lastLine.value)
  {
    var scrolled := Scroll(grid);
    if lastLine.Unset? {
      return Err(LastLineUnset);
    }
    var g := DrawRow(scrolled, lastLine.value);
    assert g == g[..RowFloats] + g[RowFloats..];
    return Ok(g);
  }

  /** Inserts `rows` one after another, first to last. */
  function PushAll(grid: Grid, rows: seq<seq<real>>): Grid
    requires forall i :: 0 <= i < |rows| ==> |rows[i]| == RowFloats
    decreases |rows|
  {
    if |rows| == 0 then grid
    else Push(PushAll(grid, rows[..|rows| - 1]), rows[|rows| - 1])
  }

  /**
   * After a series of insertions, row `i` holds the `i`-th most recent row;
   * once at least WaterfallHeight rows went in, the grid holds exactly the
   * WaterfallHeight most recent ones, newest first.
   */
  lemma {:induction false} HistoryNewestFirst(grid: Grid, rows: seq<seq<real>>)
    requires forall i :: 0 <= i < |rows| ==> |rows[i]| == RowFloats
    ensures forall i :: 0 <= i < WaterfallHeight && i < |rows| ==>
              Row(PushAll(grid, rows), i) == rows[|rows| - 1 - i]
    ensures forall i :: |rows| <= i < WaterfallHeight ==>
              Row(PushAll(grid, rows), i) == Row(grid, i - |rows|)
    decreases |rows|
  {
    if |rows| > 0 {
      var older := rows[..|rows| - 1];
      HistoryNewestFirst(grid, older);
      var before := PushAll(grid, older);
      var after := PushAll(grid, rows);
      assert after == Push(before, rows[|rows| - 1]);
      forall i | 0 < i < WaterfallHeight
        ensures Row(after, i) == Row(before, i - 1)
      {
        assert Row(after, (i - 1) + 1) == Row(before, i - 1);
      }
    }
  }
}
