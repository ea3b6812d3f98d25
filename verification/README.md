# dbsdr waterfall core, modelled in Dafny

dbsdr is a software-defined-radio spectrum viewer. A HackRF callback delivers
raw sample blocks; `receive_callback` cuts each block into FFT-sized chunks and
queues one magnitude line per chunk; a consumer thread pops lines and keeps the
latest one as `last_line`; every frame the render loop is meant to scroll an
RGBA float texture down one row (see Findings) and redraws row 0 from `last_line`, averaging groups of
FFT bins into pixels. Mouse callbacks clamp the cursor position and retune the
receiver. This project models that sequential arithmetic as pure functions over
immutable records and sequences, and proves properties of it.

Modules (one per source concern):

- `Results` — `Result`, `Option` (a C null pointer), and `Cell` (memory nothing has written yet).
- `Config` — the constants and records of `global.h`. Floats and doubles are `real`. The `int64_t` frequency is an `int` with an explicit range predicate.
- `GameStateInit` — `game_state_init`. The four allocations that may fail are an input. Fields the function never writes start `Unset`.
- `LineQueue` — the queue as a sequence, with tail append and head pop.
- `Producer` — `receive_callback`. The FFT is a function-valued parameter. Its result type `Line` fixes the length at `FftSize`.
- `Waterfall` — `memmove` on the grid, `set_pixel`, the downsampling loops, the frame step, and the rolling history.
- `Consumer` — one iteration of the `queue_processor` loop.
- `FrameTimer` — the frame counter and frames-per-second update.
- `Input` — `cursor_position_callback` and `scroll_callback`.

What the code does, where a reader might expect otherwise:

- Pixel brightness is `DEFAULT_LNA_GAIN / |mean|` (main.c:74). Brightness falls as the mean's magnitude grows. Nothing clamps it to [0, 1] (`Waterfall.IntensityUnclamped`).
- `receive_callback` appends every line unconditionally (main.c:36). The only size limit is the consumer's extra head pop when more than 25000 lines remain (main.c:90-92). That pop drops the oldest line.
- The consumer thread pops one line per iteration with no rate control (main.c:82-94). Each frame draws only the latest stored line, whatever the frame rate.
- `delta` is always 0, because the start and end time of a frame are both the frame's `time` (`FrameTimer.Tick`).

## Model

| member | source | states |
|---|---|---|
| `Config.GridMatchesDefaultWindow` | global.h:8-16 | The waterfall grid is 1280 by 640, the default window size, and holds 1280·640·4 floats. |
| `Config.DefaultFrequencyIsInt64` | global.h:11-19 | The start-up frequency 106,120,000 fits `int64_t`. |
| `GameStateInit.FirstFailure` | game_state.c:10-30 | The reported allocation is the first one, in source order, that failed. |
| `GameStateInit.Init` | game_state.c:10-44 | Init returns a state exactly when no allocation fails; otherwise it exits with status -1, naming the first failed allocation. The returned state has should_close = 0, resizing = 0, width/height = DEFAULT_WIDTH/DEFAULT_HEIGHT, aspect = 1.0 (not the 2.0 ratio computed first), zoom = 500.0 and frequency = DEFAULT_FREQUENCY. last_line, update_aspect, scale, the cursor and every mouse field stay unwritten. |
| `LineQueue.Append` | main.c:36 | queue_append puts the new line behind all pending ones and keeps them. |
| `LineQueue.Pop` | main.c:84-85 | queue_pop returns the head and leaves the rest in order; on an empty queue it returns null and changes nothing. |
| `LineQueue.FifoOrder` | main.c:34-37 | Lines appended one after another are popped in append order, after the lines already pending. |
| `Producer.ChunkInsideBlock` | main.c:30-35 | Every chunk i < n_samples / FFT_SIZE ends within the n_samples·bytes_per_sample-byte block. |
| `Producer.ChunksOrderedAndDisjoint` | main.c:34-35 | Chunk i ends at or before the offset where any later chunk j starts, so chunks do not overlap and their offsets increase. |
| `Producer.AppendChunks` | main.c:34-37 | The loop from chunk i to count appends count − i lines, keeps the existing queue as a prefix, and puts the FFT of chunk k at position k − i after it. |
| `Producer.ReceiveCallback` | main.c:27-38 | The callback appends exactly n_samples / FFT_SIZE lines, and the existing queue is unchanged. New line i is the FFT of the bytes at offset i·FFT_SIZE·bytes_per_sample, and that chunk lies inside the block. |
| `Producer.RemainderIgnored` | main.c:30-37 | A block with a trailing partial chunk gives the same queue as the block cut at its last whole chunk. |
| `Producer.ShortBlockProducesNothing` | main.c:30-34 | A block shorter than FFT_SIZE samples leaves the queue unchanged. |
| `Producer.TwoAndAHalfChunks` | main.c:30-37 | A block of 2.5·FFT_SIZE samples appends exactly two lines: the FFTs of chunks 0 and 1, in that order. |
| `Waterfall.Memmove` | main.c:245 | memmove on the float buffer fails exactly when the source or destination range leaves the buffer. Otherwise the destination range holds the old source contents and every other float is unchanged. |
| `Waterfall.ScrollAsWritten` | main.c:221-245 | memmove with the byte count one_line used as a float offset and (HEIGHT−1)·one_line bytes moved. The result is an out-of-bounds error for every grid: the destination starts 4 rows down and ends 3 rows past the grid. |
| `Waterfall.ScrollAsWrittenOverruns` | main.c:221-245 | one_line is a byte count (4 per float), so the destination starts 4 rows down and ends 3 rows past the 640-row grid. The scroll as written leaves the buffer for every grid. |
| `Waterfall.Scroll` | main.c:245 | The intended scroll moves rows 0..638 to rows 1..639, drops the last row, and leaves row 0 as it was. |
| `Waterfall.Intensity` | main.c:73-74 | A pixel's grey level is positive, and multiplying it by the mean's magnitude gives the gain, 24. |
| `Waterfall.IntensityMonotone` | main.c:74 | For negative means, a larger mean gives a strictly brighter pixel. |
| `Waterfall.IntensityUnclamped` | main.c:74 | A mean of magnitude below 24 gives a value above 1.0; nothing clamps it. |
| `Waterfall.SetPixel` | main.c:73-80 | set_pixel writes the grey level to R, G and B at offset..offset+2 and 1.0 to alpha at offset+3. No other float changes. |
| `Waterfall.GroupLayout` | main.c:247-253 | points_per_pixel is 6 and the bin groups are disjoint and consecutive. The last group ends at bin 7680 < 8192, so the last 512 bins are never read. |
| `Waterfall.TrailingBinsNeverDrawn` | main.c:247-253 | Two lines that agree on bins 0..7679 give the same mean for every pixel. |
| `Waterfall.UniformLineIsUniformGrey` | main.c:249-255 | A line of all −64 gives every pixel mean −64 and grey level 0.375. |
| `Waterfall.GroupAverage` | main.c:250-254 | The inner loop's sum divided by points_per_pixel is the mean of bins [6j, 6j+6). |
| `Waterfall.DrawRow` | main.c:249-256 | After the row loop, pixel j of row 0 shows the grey level of group j with alpha 1.0. Every float past row 0 is unchanged. |
| `Waterfall.Push` | main.c:245-256 | Inserting a row makes it row 0 and moves every old row i to row i+1, evicting the last. |
| `Waterfall.FrameStep` | main.c:244-256 | With the corrected scroll, a frame inserts one row: the old rows shift down one, and row 0 shows last_line. When last_line was never stored, the frame is an error. |
| `Waterfall.HistoryNewestFirst` | main.c:245-256 | After a series of inserted rows, row i holds the i-th most recent row, and rows beyond the count hold the original rows shifted down. Once 640 rows are in, the grid holds exactly the latest 640, newest first. |
| `Consumer.ConsumerStep` | main.c:84-92 | One iteration stores the head as last_line and removes it. It removes a second head exactly when more than 25000 lines remained. The result is always a suffix of the queue, so entries leave only from the head and the rest keep their order. An empty queue is left unchanged. |
| `Consumer.OverflowDropStopsAtCeiling` | main.c:90-92 | When an iteration drops two lines, at least 25000 remain. |
| `Consumer.DrainInOrder` | main.c:83-92 | Below the ceiling, n iterations consume exactly the first n lines in order, the n-th being last_line. |
| `Consumer.OverflowSheds` | main.c:90-92 | Above the ceiling, each iteration removes two of the oldest lines. |
| `FrameTimer.StartTimer` | main.c:98-99 | Before the first frame, frame_count is 0 (main.c:99), previous_time is the clock reading taken before the loop (main.c:220), and fps is unwritten. |
| `FrameTimer.Tick` | main.c:271-279 | A frame stamps time, start and end time, and sets delta to 0. Once a second has passed since previous_time, fps becomes the frame count including this frame, and frame_count returns to 0. Otherwise frame_count grows by one and fps is unchanged. |
| `FrameTimer.FramesCountedWithinSecond` | main.c:273-274 | Within one second, each frame adds one to frame_count, and fps and previous_time do not change. |
| `FrameTimer.FpsIsFramesPerWindow` | main.c:273-279 | From start-up, the first frame at least a second later sets fps to the number of frames in that window. |
| `Input.CursorPositionAsWritten` | mouse.c:36-51 | The stored x is min(max(x,0), width, height), and the stored y is max(y,0) with no upper bound. Only the two cursor fields change. |
| `Input.CursorMixUpWitness` | mouse.c:46-48 | In the default 1280×640 window, (1000, 600) is stored as x = 640, and (100, 1000) keeps y = 1000, below the window. |
| `Input.CursorPosition` | mouse.c:36-51 | The intended callback keeps x in [0, width] and y in [0, height]. Each coordinate is stored unchanged exactly when it is inside that range. |
| `Input.CursorVersionsAgreeInsideWindow` | mouse.c:36-51 | For a cursor inside a window no wider than it is high, the source and the intended callback store the same position. |
| `Input.ScrollCallback` | mouse.c:53-67 | y_offset = −1.0 raises the frequency by exactly 1,000,000, and any other offset lowers it by exactly 1,000,000. Both offsets are stored and update_aspect becomes 1. The zoom and every other field are unchanged. |
| `Input.ScrollAll` | mouse.c:56-62 | n wheel events move the frequency by at most n·1,000,000, and it stays within int64_t. |
| `Input.FrequencyFollowsNotches` | mouse.c:56-62 | The frequency after a series of events is the start plus 1,000,000 times (notches at −1.0 minus all other notches). |
| `Input.ScrollRoundTrip` | mouse.c:56-62 | k events at −1.0 followed by k at +1.0 return the frequency to its start. |
| `Input.DefaultFrequencyHasRoom` | global.h:11-19 | From DEFAULT_FREQUENCY, up to 9·10^12 events cannot overflow int64_t. |

## Findings

| source | as written | input that shows it | evidently intended | confidence | as-written member | corrected member |
|---|---|---|---|---|---|---|
| main.c:245 | `memmove(pixels + one_line, …)` with `one_line` = 20480, a byte count (main.c:221), added to a `float*` | any frame: the destination covers floats 20480 to 3292160 of a 3276800-float grid | a destination one row (5120 floats) down | high; not executed | `Waterfall.ScrollAsWritten`, `Waterfall.ScrollAsWrittenOverruns` | `Waterfall.Scroll` (used by `Waterfall.FrameStep`) |
| mouse.c:46-47 | the fourth clamp compares and assigns `x_pos` against the height | cursor (1000, 600) in a 1280×640 window is stored as x = 640; (100, 1000) is stored with y = 1000 | clamp `y_pos` to the height | high; not executed | `Input.CursorPositionAsWritten`, `Input.CursorMixUpWitness` | `Input.CursorPosition` |

## Left out

- Windowing and graphics: every GLFW, GLEW and OpenGL call, texture upload, drawing, `hide_cursor`, `show_cursor` and `custom_cursor`. These are foreign calls.
- `set_aspect`, `resize_callback` and the projection matrix `mvp`: floating-point projection math with no checkable logic. `WindowState` omits `mvp`.
- The `update_aspect` block of the render loop (main.c:232-242). It calls the device driver. It calls `set_aspect`, which rewrites width, height and aspect and sets `update_aspect` to 1 (main.c:51-54). It then clears `update_aspect` to 0 (main.c:240) and re-stores the same `one_line` value. The model never clears the flag: after `Input.ScrollCallback` sets it to 1, it stays 1.
- `key_callback` and `error_callback`: window-library event plumbing.
- `fft`, `fft_init` and the `device_*` functions: they are not part of this model. The FFT is a parameter. It is assumed to read the FFT_SIZE·bytes_per_sample bytes that start at its chunk offset.
- The queue implementation and its locking, and the two threads: the queue is a sequence and each step is atomic. The lifetime defects are not modelled: `last_line` is freed right after it is stored (main.c:86-88), and the overflow pop leaks its line (main.c:91).
- Loop termination on `should_close` and `device_is_alive`: each model step is one iteration.
- Float rounding: magnitudes and pixels are exact reals. A zero group mean, which C would turn into infinity, is excluded by the `NonZeroMeans` precondition.
- `game_state_destroy`, `float_rand`, shader.c and mouse.h: teardown, an unused random helper, file I/O and prototypes.
- Clock readings (`glfwGetTime`) are parameters.
- `FrameTimer.Tick`: frame_count is an unbounded integer, so it does not model `int` overflow. That would need 2^31 frames in less than one second.
- `Input.ScrollCallback`: requires that the stepped frequency fits `int64_t`, because signed overflow is undefined in C.
- `Waterfall.FrameStep`: uses the corrected scroll, so it does not model the memory corruption of the code as written (see Findings).
