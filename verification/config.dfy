/**
 * Build-time constants and state records of the waterfall display
 * (global.h). Single- and double-precision floats are modelled as `real`;
 * fields the program leaves uninitialised are `Cell`s.
 */
module Config {
  import opened Results

  /** Default window size in pixels (DEFAULT_WIDTH, DEFAULT_HEIGHT). */
  const DefaultWidth: int := 1280
  const DefaultHeight: int := 640
  const DefaultSampleRate: int := 20000000
  /** Tuned frequency at start-up, in Hz (DEFAULT_FREQUENCY). */
  const DefaultFrequency: int := 106120000
  /** Low-noise-amplifier gain; also the numerator of the pixel brightness. */
  const DefaultLnaGain: int := 24
  const DefaultVgaGain: int := 24
  /** Number of bins in one spectral line (FFT_SIZE). */
  const FftSize: nat := 8192
  /** Waterfall texture size in pixels (WATERFALL_WIDTH, WATERFALL_HEIGHT). */
  const WaterfallWidth: nat := 1280
  const WaterfallHeight: nat := 640
  /** Channels per pixel (RGBA) and bytes per C `float`. */
  const Channels: nat := 4
  const SizeofFloat: nat := 4

  /** Range of the C type `int64_t`. */
  const Int64Min: int := -0x8000_0000_0000_0000
  const Int64Max: int := 0x7FFF_FFFF_FFFF_FFFF

  predicate IsInt64(x: int) {
    Int64Min <= x <= Int64Max
  }

  /** One raw byte of the hardware sample block (`int8_t`). */
  newtype Sample = x: int | -128 <= x < 128

  /** A spectral line: one magnitude per FFT bin. */
  type Line = s: seq<real> | |s| == FftSize witness seq(FftSize, _ => 0.0)

  /** Handle of a cursor object owned by the windowing library. */
  type CursorHandle = nat

  /** sdr_state: tuned frequency (int64_t) and the most recently consumed line. */
  datatype SdrState = SdrState(frequency: int, lastLine: Cell<Line>)

  /** mouse_state: last cursor position and last scroll offsets. */
  datatype MouseState = MouseState(
    xPos: Cell<real>,
    yPos: Cell<real>,
    scrollXOffset: Cell<real>,
    scrollYOffset: Cell<real>)

  /** window_state, without the projection matrix (see README). */
  datatype WindowState = WindowState(
    aspect: real,
    scale: Cell<real>,
    zoom: real,
    width: int,
    height: int,
    updateAspect: Cell<int>,
    resizing: int)

  /** game_timer: wall-clock bookkeeping of the render loop. */
  datatype GameTimer = GameTimer(
    time: Cell<real>,
    previousTime: real,
    startTime: Cell<real>,
    endTime: Cell<real>,
    delta: Cell<real>,
    frameCount: int,
    fps: Cell<int>)

  /** game_state: the process-wide state reached by every callback. */
  datatype GameState = GameState(
    shouldClose: int,
    cursor: Cell<CursorHandle>,
    window: WindowState,
    mouse: MouseState,
    sdr: SdrState)

  /** The waterfall texture has the size of the default window. */
  lemma GridMatchesDefaultWindow()
    ensures WaterfallWidth == DefaultWidth && WaterfallHeight == DefaultHeight
    ensures WaterfallWidth * WaterfallHeight * Channels == 3276800
  {
  }

  /** The start-up frequency is a valid int64_t. */
  lemma DefaultFrequencyIsInt64()
    ensures IsInt64(DefaultFrequency)
  {
  }
}
