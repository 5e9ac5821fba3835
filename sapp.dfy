/** The parts of sokol-app's interface the bridge reads: key codes, mouse
    buttons, cursor kinds, event types, modifier bits and the event record. */
module Sapp {
  import opened Common

  /** sokol-app's key codes. The digit, letter, function and keypad-digit
      keys, which sokol-app numbers consecutively, are written as one
      constructor per family: `Num(3)` is `Num3`, `Letter('Q')` is `Q`,
      `F(12)` is `F12`, `Kp(7)` is `Kp7`. */
  datatype Keycode =
    | Invalid | Space | Apostrophe | Comma | Minus | Period | Slash
    | Num(digit: Digit)
    | Semicolon | Equal
    | Letter(letter: Letter)
    | LeftBracket | Backslash | RightBracket | GraveAccent | World1 | World2
    | Escape | Enter | Tab | Backspace | Insert | Delete
    | Right | Left | Down | Up | PageUp | PageDown | Home | End
    | CapsLock | ScrollLock | NumLock | PrintScreen | Pause
    | F(number: FunctionNumber)
    | Kp(digit: Digit)
    | KpDecimal | KpDivide | KpMultiply | KpSubtract | KpAdd | KpEnter | KpEqual
    | LeftShift | LeftControl | LeftAlt | LeftSuper
    | RightShift | RightControl | RightAlt | RightSuper | Menu

  datatype Mousebutton = Left | Right | Middle | Invalid

  datatype MouseCursor =
    | Default | Arrow | Ibeam | Crosshair | PointingHand
    | ResizeEw | ResizeNs | ResizeNwse | ResizeNesw | ResizeAll | NotAllowed | Num

  datatype EventType =
    | Invalid | KeyDown | KeyUp | Char
    | MouseDown | MouseUp | MouseScroll | MouseMove | MouseEnter | MouseLeave
    | TouchesBegan | TouchesMoved | TouchesEnded | TouchesCancelled
    | Resized | Iconified | Restored | Focused | Unfocused | Suspended | Resumed
    | QuitRequested | ClipboardPasted | FilesDropped | Num

  /** Bits of the event's modifier mask. */
  const ModifierShift: bv32 := 0x1
  const ModifierCtrl: bv32 := 0x2
  const ModifierAlt: bv32 := 0x4
  const ModifierSuper: bv32 := 0x8

  /** Size of the fixed touch-point array in every event. */
  const MaxTouchPoints: nat := 8

  datatype TouchPoint = TouchPoint(identifier: U64, posX: F32, posY: F32, changed: bool)

  /** Every event carries the whole fixed array of `MaxTouchPoints` points. */
  predicate HasTouchArray(e: Event) {
    |e.touches| == MaxTouchPoints
  }

  /** The fields of a sokol-app event that the bridge reads; `touches` is the
      event's fixed array, of which the first `numTouches` entries are in use. */
  datatype Event = Event(
    kind: EventType,
    keyCode: Keycode,
    charCode: U32,
    keyRepeat: bool,
    modifiers: bv32,
    mouseButton: Mousebutton,
    mouseX: F32,
    mouseY: F32,
    scrollX: F32,
    scrollY: F32,
    numTouches: I32,
    touches: seq<TouchPoint>)

  predicate IsTouchEvent(kind: EventType) {
    kind.TouchesBegan? || kind.TouchesMoved? || kind.TouchesEnded? || kind.TouchesCancelled?
  }

  predicate IsMouseEvent(kind: EventType) {
    kind.MouseDown? || kind.MouseUp? || kind.MouseScroll? || kind.MouseMove?
    || kind.MouseEnter? || kind.MouseLeave?
  }
}
