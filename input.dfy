/** User input as the game sees it (src/game/input.rs). */
module GameInput {
  import opened Ints
  import opened Wrappers

  /** winit's ElementState: whether a key or button went down or up. */
  datatype ElementState = Pressed | Released

  /** winit's MouseButton. */
  datatype MouseButton = Left | Right | Middle | Other(id: u16)

  /** winit's VirtualKeyCode, identified by its position in winit's enumeration;
      the game only copies it, so which key it names does not matter here. */
  datatype VirtualKeyCode = VirtualKeyCode(ordinal: nat)

  /** A normalised input event: exactly four kinds. */
  datatype Input =
    | Char(c: char)
    | Key(code: u32, virtualKeycode: Option<VirtualKeyCode>, state: ElementState)
    | MouseButton(button: MouseButton, state: ElementState)
    | MouseDelta(dx: i32, dy: i32)

  /** The player's control flags and mouse state. */
  datatype Controls = Controls(
    forward: bool, back: bool, left: bool, right: bool, up: bool, down: bool,
    mbLeft: bool, mbRight: bool,
    mousePosition: (i32, i32),
    mouseDelta: (i32, i32))
  {
    /** Some movement key (W, S, A, D, Space, Shift) is held. */
    predicate AnyMovement() {
      forward || back || left || right || up || down
    }

    /** Some mouse button is held. */
    predicate AnyButton() {
      mbLeft || mbRight
    }
  }

  /** `Controls::new`: nothing held, the mouse at the origin and not moving. */
  function NewControls(): (c: Controls)
    ensures !c.AnyMovement() && !c.AnyButton()
    ensures c.mousePosition == (0, 0) && c.mouseDelta == (0, 0)
  {
    Controls(false, false, false, false, false, false, false, false, (0, 0), (0, 0))
  }
}
