/** The shapes of the windowing backend's input events (`glutin::Event` and its payloads).
    Only the variant structure matters to the toolkit; the backend itself is not modelled. */
module Glutin {
  import opened Wrappers

  newtype i32 = x: int | -0x8000_0000 <= x < 0x8000_0000
  newtype u8 = x: int | 0 <= x < 0x100

  type ScanCode = u8

  datatype ElementState = Pressed | Released

  datatype MouseButton = Left | Right | Middle | Other(code: u8)

  datatype MouseScrollDelta = LineDelta(columns: real, lines: real) | PixelDelta(dx: real, dy: real)

  datatype TouchPhase = Started | Moved | Ended | Cancelled

  /** `glutin::VirtualKeyCode`, kept abstract. */
  datatype VirtualKeyCode = Key(code: nat)

  /** The input events a window delivers. */
  datatype Event =
    | Resized(newWidth: nat, newHeight: nat)
    | Moved(newX: i32, newY: i32)
    | Closed
    | ReceivedCharacter(ch: char)
    | Focused(focused: bool)
    | KeyboardInput(state: ElementState, scanCode: ScanCode, keyCode: Option<VirtualKeyCode>)
    | MouseMoved(x: i32, y: i32)
    | MouseWheel(delta: MouseScrollDelta, phase: TouchPhase)
    | MouseInput(state: ElementState, button: MouseButton)
    | Awakened
    | Refresh
}
