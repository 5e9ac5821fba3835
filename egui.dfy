/** The parts of egui's input and output model that the bridge produces or
    consumes. The egui context itself (layout, widgets, hit testing) is not
    part of this model. */
module Egui {
  import opened Common

  /** egui's keys; as on the sokol-app side, `Num(d)`, `Letter(c)` and
      `F(n)` stand for `Num0`-`Num9`, `A`-`Z` and `F1`-`F20`. */
  datatype Key =
    | ArrowDown | ArrowLeft | ArrowRight | ArrowUp
    | Escape | Tab | Backspace | Enter | Space
    | Insert | Delete | Home | End | PageUp | PageDown
    | Minus | PlusEquals
    | Num(digit: Digit)
    | Letter(letter: Letter)
    | F(number: KeyNumber)

  /** egui has function keys F1 to F20 only. */
  type KeyNumber = n: nat | 1 <= n <= 20 witness 1

  datatype PointerButton = Primary | Secondary | Middle | Extra1 | Extra2

  datatype CursorIcon =
    | Default | None | ContextMenu | Help | PointingHand | Progress | Wait | Cell
    | Crosshair | Text | VerticalText | Alias | Copy | Move | NoDrop | NotAllowed
    | Grab | Grabbing | AllScroll
    | ResizeHorizontal | ResizeNeSw | ResizeNwSe | ResizeVertical
    | ResizeEast | ResizeSouthEast | ResizeSouth | ResizeSouthWest
    | ResizeWest | ResizeNorthWest | ResizeNorth | ResizeNorthEast
    | ResizeColumn | ResizeRow | ZoomIn | ZoomOut

  datatype Modifiers = Modifiers(alt: bool, ctrl: bool, shift: bool, macCmd: bool, command: bool)

  /** `Modifiers::default()`: every flag off. */
  const NoModifiers := Modifiers(false, false, false, false, false)

  datatype Pos2 = Pos2(x: F32, y: F32)
  datatype Vec2 = Vec2(x: F32, y: F32)
  datatype Rect = Rect(min: Pos2, max: Pos2)

  datatype TouchPhase = Start | Move | End | Cancel
  datatype TouchDeviceId = TouchDeviceId(U64)
  datatype TouchId = TouchId(U64)

  /** The input events the bridge can emit. */
  datatype Event =
    | Key(key: Key, pressed: bool, repeat: bool, modifiers: Modifiers)
    | Text(text: string)
    | PointerMoved(pos: Pos2)
    | PointerButton(pos: Pos2, button: PointerButton, pressed: bool, modifiers: Modifiers)
    | PointerGone
    | Scroll(delta: Vec2)
    | Touch(deviceId: TouchDeviceId, id: TouchId, phase: TouchPhase, pos: Pos2, force: F32)

  /** What `begin_frame` receives. */
  datatype RawInput = RawInput(
    screenRect: Option<Rect>,
    pixelsPerPoint: Option<F32>,
    predictedDt: F32,
    modifiers: Modifiers,
    events: seq<Event>,
    hasFocus: bool)

  datatype TextureId = Managed(U64) | User(U64)
  datatype TextureFilter = Nearest | Linear
  datatype TextureOptions = TextureOptions(magnification: TextureFilter, minification: TextureFilter)

  /** A texture upload: where it goes (whole texture when `pos` is None) and
      how it is sampled; the pixel data itself is not modelled. */
  datatype ImageDelta = ImageDelta(pos: Option<(nat, nat)>, options: TextureOptions)

  /** `sets` holds the uploads in order, `free` the textures to release. */
  datatype TexturesDelta = TexturesDelta(sets: seq<(TextureId, ImageDelta)>, free: seq<TextureId>)

  datatype OpenUrl = OpenUrl(url: string, newTab: bool)

  datatype PlatformOutput = PlatformOutput(cursorIcon: CursorIcon, openUrl: Option<OpenUrl>, copiedText: string)

  /** What `end_frame` returns (mesh shapes and the repaint hint are not modelled). */
  datatype FullOutput = FullOutput(platformOutput: PlatformOutput, texturesDelta: TexturesDelta)
}
