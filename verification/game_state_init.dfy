/**
 * Start-up of the shared state (game_state_init, game_state.c). Each of the
 * four allocations may fail; the program then terminates with status -1.
 * Which allocations fail is an input of the model.
 */
module GameStateInit {
  import opened Results
  import opened Config

  /** The four heap blocks allocated, in the order the source allocates them. */
  datatype Block = GameStateBlock | WindowStateBlock | MouseStateBlock | SdrStateBlock

  /** Position of a block in the allocation order. */
  function AllocationOrder(b: Block): nat {
    match b
    case GameStateBlock => 0
    case WindowStateBlock => 1
    case MouseStateBlock => 2
    case SdrStateBlock => 3
  }

  /** Process termination: the block whose allocation failed and the exit status. */
  datatype Exit = Exit(failedBlock: Block, status: int)

  /** Status passed to exit() on an allocation failure. */
  const AllocationFailureStatus: int := -1

  /** The first block, in allocation order, that is in `failing`. */
  function FirstFailure(failing: set<Block>): (b: Block)
    requires failing != {}
    ensures b in failing
    ensures forall c :: c in failing ==> AllocationOrder(b) <= AllocationOrder(c)
  {
    if GameStateBlock in failing then GameStateBlock
    else if WindowStateBlock in failing then WindowStateBlock
    else if MouseStateBlock in failing then MouseStateBlock
    else
      assert SdrStateBlock in failing by {
        var b :| b in failing;
        assert b == SdrStateBlock;
      }
      SdrStateBlock
  }

  /**
   * game_state_init. Fields the source never writes (last line, update flag,
   * scale, cursor and the whole mouse record) start `Unset`. The aspect is first
   * set to width/height and then overwritten with 1.0, as in the source.
   */
  function Init(failing: set<Block>): (r: Result<GameState, Exit>)
    ensures r.Ok? <==> failing == {}
    ensures r.Err? ==> r.error.status == -1 && r.error.failedBlock in failing
    ensures r.Err? ==> forall b :: AllocationOrder(b) < AllocationOrder(r.error.failedBlock) ==> b !in failing
    ensures r.Ok? ==> r.value.shouldClose == 0 && r.value.window.resizing == 0
    ensures r.Ok? ==> r.value.window.width == DefaultWidth && r.value.window.height == DefaultHeight
    ensures r.Ok? ==> r.value.window.aspect == 1.0 && r.value.window.aspect != DefaultWidth as real / DefaultHeight as real
    ensures r.Ok? ==> r.value.window.zoom == 500.0 && r.value.sdr.frequency == DefaultFrequency
    ensures r.Ok? ==> IsInt64(r.value.sdr.frequency)
    ensures r.Ok? ==> r.value.sdr.lastLine.Unset? && r.value.window.updateAspect.Unset?
    ensures r.Ok? ==> r.value.cursor.Unset? && r.value.window.scale.Unset?
    ensures r.Ok? ==> r.value.mouse == MouseState(Unset, Unset, Unset, Unset)
  {
    if failing != {} then
      Err(Exit(FirstFailure(failing), AllocationFailureStatus))
    else
      var window := WindowState(
        aspect := DefaultWidth as real / DefaultHeight as real,
        scale := Unset,
        zoom := 500.0,
        width := DefaultWidth,
        height := DefaultHeight,
        updateAspect := Unset,
        resizing := 0);
      var window := window.(aspect := 1.0);
      Ok(GameState(
        shouldClose := 0,
        cursor := Unset,
        window := window,
        mouse := MouseState(Unset, Unset, Unset, Unset),
        sdr := SdrState(DefaultFrequency, Unset)))
  }
}
