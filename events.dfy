/** Translation of winit window and device events into game inputs (src/gfx/events.rs). */
module Events {
  import opened Ints
  import opened Wrappers
  import opened GameInput

  /** winit's ModifiersState bit flags. */
  datatype ModifiersState = ModifiersState(shift: bool, ctrl: bool, alt: bool, logo: bool)

  /** winit's KeyboardInput record. */
  datatype KeyboardInput = KeyboardInput(
    scancode: u32,
    state: ElementState,
    virtualKeycode: Option<VirtualKeyCode>,
    modifiers: ModifiersState)

  datatype PhysicalSize = PhysicalSize(width: u32, height: u32)

  /** An IEEE 754 double, seen through its value: a finite double is a real number. */
  datatype F64 = Finite(value: real) | PosInfinity | NegInfinity | NaN

  /** winit's WindowEvent. Variants whose payloads the translator never reads
      (positions, paths, scale factors, touches) are listed without them. */
  datatype WindowEvent =
    | Resized(size: PhysicalSize)
    | Moved
    | CloseRequested
    | Destroyed
    | DroppedFile
    | HoveredFile
    | HoveredFileCancelled
    | ReceivedCharacter(c: char)
    | Focused(focused: bool)
    | KeyboardInput(deviceId: nat, input: KeyboardInput, isSynthetic: bool)
    | ModifiersChanged(modifiers: ModifiersState)
    | CursorMoved(deviceId: nat)
    | CursorEntered(deviceId: nat)
    | CursorLeft(deviceId: nat)
    | MouseWheel(deviceId: nat)
    | MouseInput(deviceId: nat, state: ElementState, button: MouseButton, modifiers: ModifiersState)
    | TouchpadPressure(deviceId: nat)
    | AxisMotion(deviceId: nat, axis: u32, value: F64)
    | Touch
    | ScaleFactorChanged
    | ThemeChanged

  /** winit's DeviceEvent. */
  datatype DeviceEvent =
    | Added
    | Removed
    | MouseMotion(deltaX: F64, deltaY: F64)
    | MouseWheel
    | Motion(axis: u32, value: F64)
    | Button(button: u32, state: ElementState)
    | Key(input: KeyboardInput)
    | Text(codepoint: char)

  /** Rust's truncation of a real toward zero. */
  function Trunc(v: real): (k: int)
    ensures v >= 0.0 ==> k as real <= v < k as real + 1.0
    ensures v < 0.0 ==> k as real - 1.0 < v <= k as real
  {
    if v >= 0.0 then v.Floor else -((-v).Floor)
  }

  /** Rust's `f64 as i32`: truncate toward zero, saturate at the bounds, NaN becomes 0. */
  function CastToI32(x: F64): (r: i32)
    ensures x.NaN? ==> r == 0
    ensures x.PosInfinity? ==> r as int == I32_MAX
    ensures x.NegInfinity? ==> r as int == I32_MIN
    ensures x.Finite? && I32_MIN <= Trunc(x.value) <= I32_MAX ==> r as int == Trunc(x.value)
    ensures x.Finite? && Trunc(x.value) > I32_MAX ==> r as int == I32_MAX
    ensures x.Finite? && Trunc(x.value) < I32_MIN ==> r as int == I32_MIN
  {
    match x
    case NaN => 0
    case PosInfinity => I32_MAX as i32
    case NegInfinity => I32_MIN as i32
    case Finite(v) =>
      var k := Trunc(v);
      if k > I32_MAX then I32_MAX as i32
      else if k < I32_MIN then I32_MIN as i32
      else k as i32
  }

  /** The cast loses nothing on a double that already holds a 32-bit integer. */
  lemma CastExact(n: i32)
    ensures CastToI32(Finite(n as int as real)) == n
  {
    assert Trunc(n as int as real) == n as int;
  }

  /** A finite cast never moves away from zero and keeps the sign. */
  lemma CastTowardZero(v: real)
    ensures v >= 0.0 ==> 0.0 <= CastToI32(Finite(v)) as real <= v
    ensures v < 0.0 ==> v <= CastToI32(Finite(v)) as real <= 0.0
  {
  }

  /** `from_window`: keyboard, mouse-button and character events become inputs, copying
      their fields; every other window event produces none. */
  function FromWindow(we: WindowEvent): (r: Option<Input>)
    ensures r.Some? <==> we.KeyboardInput? || we.MouseInput? || we.ReceivedCharacter?
    ensures we.KeyboardInput? ==>
      r == Some(Input.Key(we.input.scancode, we.input.virtualKeycode, we.input.state))
    ensures we.MouseInput? ==> r == Some(Input.MouseButton(we.button, we.state))
    ensures we.ReceivedCharacter? ==> r == Some(Char(we.c))
  {
    match we
    case KeyboardInput(_, input, _) => Some(Input.Key(input.scancode, input.virtualKeycode, input.state))
    case MouseInput(_, state, button, _) => Some(Input.MouseButton(button, state))
    case ReceivedCharacter(c) => Some(Char(c))
    case _ => None
  }

  /** `from_device`: only mouse motion becomes an input, its deltas cast to i32. */
  function FromDevice(de: DeviceEvent): (r: Option<Input>)
    ensures r.Some? <==> de.MouseMotion?
    ensures de.MouseMotion? ==> r == Some(MouseDelta(CastToI32(de.deltaX), CastToI32(de.deltaY)))
  {
    match de
    case MouseMotion(x, y) => Some(MouseDelta(CastToI32(x), CastToI32(y)))
    case _ => None
  }

  /** The two translators never produce the same kind of input: window events never
      yield a mouse delta and device events yield nothing else. */
  lemma TranslatorsDisjoint(we: WindowEvent, de: DeviceEvent)
    ensures FromWindow(we).Some? ==> !FromWindow(we).value.MouseDelta?
    ensures FromDevice(de).Some? ==> FromDevice(de).value.MouseDelta?
  {
  }

  /** A window event that `from_window` turns into the given input. */
  function WindowSource(i: Input): (we: WindowEvent)
    requires !i.MouseDelta?
    ensures FromWindow(we) == Some(i)
  {
    match i
    case Char(c) => ReceivedCharacter(c)
    case Key(code, vk, state) =>
      WindowEvent.KeyboardInput(0, KeyboardInput.KeyboardInput(code, state, vk, ModifiersState(false, false, false, false)), false)
    case MouseButton(button, state) =>
      MouseInput(0, state, button, ModifiersState(false, false, false, false))
  }

  /** Every input is produced by some event: the translators together are onto `Input`. */
  lemma {:induction false} TranslationOnto(i: Input)
    ensures i.MouseDelta? ==>
      FromDevice(MouseMotion(Finite(i.dx as int as real), Finite(i.dy as int as real))) == Some(i)
    ensures !i.MouseDelta? ==> exists we :: FromWindow(we) == Some(i)
  {
    if i.MouseDelta? {
      CastExact(i.dx);
      CastExact(i.dy);
    } else {
      var we := WindowSource(i);
      assert FromWindow(we) == Some(i);
    }
  }
}
