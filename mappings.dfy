/** The three lookup tables of the bridge (src/lib.rs:171-354): egui cursor
    icons to sokol-app cursors, sokol-app mouse buttons to egui pointer
    buttons, and sokol-app key codes to egui keys. */
module Mappings {
  import opened Common
  import Sapp
  import Egui

  // ---------------------------------------------------------------------------
  // Cursor icons

  /** The icons the source lists only in comments, with no platform cursor. */
  predicate IsUnlistedIcon(c: Egui.CursorIcon) {
    c.None? || c.Help? || c.ContextMenu? || c.Progress? || c.Wait? || c.Cell?
    || c.Alias? || c.Copy? || c.Move? || c.Grab? || c.Grabbing? || c.AllScroll?
    || c.ZoomIn? || c.ZoomOut?
  }

  /** Total: every icon gets a platform cursor, never `Arrow` and never the
      count sentinel `Num`. */
  function EguiCursorToSappCursor(cursor: Egui.CursorIcon): (r: Sapp.MouseCursor)
    ensures !r.Arrow? && !r.Num?
  {
    match cursor
    case Default          => Sapp.MouseCursor.Default
    case PointingHand     => Sapp.MouseCursor.PointingHand
    case Crosshair        => Sapp.MouseCursor.Crosshair
    case Text             => Sapp.MouseCursor.Ibeam
    case VerticalText     => Sapp.MouseCursor.Ibeam
    case NoDrop           => Sapp.MouseCursor.NotAllowed
    case NotAllowed       => Sapp.MouseCursor.NotAllowed
    case ResizeHorizontal => Sapp.MouseCursor.ResizeEw
    case ResizeNeSw       => Sapp.MouseCursor.ResizeNesw
    case ResizeNwSe       => Sapp.MouseCursor.ResizeNwse
    case ResizeVertical   => Sapp.MouseCursor.ResizeNs
    case ResizeEast       => Sapp.MouseCursor.ResizeEw
    case ResizeSouthEast  => Sapp.MouseCursor.ResizeAll
    case ResizeSouth      => Sapp.MouseCursor.ResizeNs
    case ResizeSouthWest  => Sapp.MouseCursor.ResizeAll
    case ResizeWest       => Sapp.MouseCursor.ResizeEw
    case ResizeNorthWest  => Sapp.MouseCursor.ResizeAll
    case ResizeNorth      => Sapp.MouseCursor.ResizeNs
    case ResizeNorthEast  => Sapp.MouseCursor.ResizeAll
    case ResizeColumn     => Sapp.MouseCursor.ResizeNs
    case ResizeRow        => Sapp.MouseCursor.ResizeEw
    case _                => Sapp.MouseCursor.Default
  }

  /** The preimage of every platform cursor: which icons fold onto it. */
  lemma CursorPreimages(c: Egui.CursorIcon)
    ensures EguiCursorToSappCursor(c).Ibeam? <==> c.Text? || c.VerticalText?
    ensures EguiCursorToSappCursor(c).NotAllowed? <==> c.NoDrop? || c.NotAllowed?
    ensures EguiCursorToSappCursor(c).ResizeAll? <==>
      c.ResizeSouthEast? || c.ResizeSouthWest? || c.ResizeNorthWest? || c.ResizeNorthEast?
    ensures EguiCursorToSappCursor(c).ResizeEw? <==>
      c.ResizeHorizontal? || c.ResizeEast? || c.ResizeWest? || c.ResizeRow?
    ensures EguiCursorToSappCursor(c).ResizeNs? <==>
      c.ResizeVertical? || c.ResizeSouth? || c.ResizeNorth? || c.ResizeColumn?
    ensures EguiCursorToSappCursor(c).ResizeNesw? <==> c.ResizeNeSw?
    ensures EguiCursorToSappCursor(c).ResizeNwse? <==> c.ResizeNwSe?
    ensures EguiCursorToSappCursor(c).PointingHand? <==> c.PointingHand?
    ensures EguiCursorToSappCursor(c).Crosshair? <==> c.Crosshair?
    ensures EguiCursorToSappCursor(c).Default? <==> c.Default? || IsUnlistedIcon(c)
  {
  }

  // ---------------------------------------------------------------------------
  // Mouse buttons

  /** Total: the invalid button falls back to `Extra1`; `Extra2` is never produced. */
  function SappMouseButtonToEguiPointerButton(button: Sapp.Mousebutton): (r: Egui.PointerButton)
    ensures r.Extra1? <==> button.Invalid?
    ensures !r.Extra2?
  {
    match button
    case Left    => Egui.PointerButton.Primary
    case Right   => Egui.PointerButton.Secondary
    case Middle  => Egui.PointerButton.Middle
    case Invalid => Egui.PointerButton.Extra1
  }

  /** The button a valid pointer button came from: the inverse of the map on
      the three valid buttons. */
  function EguiPointerButtonToSapp(button: Egui.PointerButton): Option<Sapp.Mousebutton> {
    match button
    case Primary   => Some(Sapp.Mousebutton.Left)
    case Secondary => Some(Sapp.Mousebutton.Right)
    case Middle    => Some(Sapp.Mousebutton.Middle)
    case _         => None
  }

  /** The three valid buttons map to three distinct pointer buttons, and the map
      can be undone on them. */
  lemma MouseButtonRoundTrip(b: Sapp.Mousebutton)
    ensures EguiPointerButtonToSapp(SappMouseButtonToEguiPointerButton(b))
      == if b.Invalid? then None else Some(b)
  {
  }

  lemma ValidMouseButtonsDistinct(a: Sapp.Mousebutton, b: Sapp.Mousebutton)
    requires !a.Invalid? && !b.Invalid? && a != b
    ensures SappMouseButtonToEguiPointerButton(a) != SappMouseButtonToEguiPointerButton(b)
  {
    MouseButtonRoundTrip(a);
    MouseButtonRoundTrip(b);
  }

  // ---------------------------------------------------------------------------
  // Keys

  /** The key codes the source lists only in comments: modifier keys,
      punctuation, lock keys, F21-F25, the remaining keypad keys and `Invalid`. */
  predicate IsUnmappedKeycode(k: Sapp.Keycode) {
    match k
    case F(n) => n > 20
    case Apostrophe | Invalid | Comma | Period | Slash | Semicolon => true
    case LeftBracket | Backslash | RightBracket | GraveAccent | World1 | World2 => true
    case CapsLock | ScrollLock | NumLock | PrintScreen | Pause | Menu => true
    case KpDivide | KpDecimal | KpMultiply => true
    case LeftAlt | RightAlt | LeftShift | RightShift => true
    case LeftSuper | RightSuper | LeftControl | RightControl => true
    case _ => false
  }

  /** Partial: a key code gives an egui key exactly when the source lists it. */
  function SappKeyToEguiKey(keycode: Sapp.Keycode): (r: Option<Egui.Key>)
    ensures r.None? <==> IsUnmappedKeycode(keycode)
  {
    match keycode
    case Space      => Some(Egui.Key.Space)
    case Minus      => Some(Egui.Key.Minus)
    case Num(d)     => Some(Egui.Key.Num(d))
    case Equal      => Some(Egui.Key.PlusEquals)
    case Letter(c)  => Some(Egui.Key.Letter(c))
    case Escape     => Some(Egui.Key.Escape)
    case Enter      => Some(Egui.Key.Enter)
    case Tab        => Some(Egui.Key.Tab)
    case Backspace  => Some(Egui.Key.Backspace)
    case Insert     => Some(Egui.Key.Insert)
    case Delete     => Some(Egui.Key.Delete)
    case Right      => Some(Egui.Key.ArrowRight)
    case Left       => Some(Egui.Key.ArrowLeft)
    case Down       => Some(Egui.Key.ArrowDown)
    case Up         => Some(Egui.Key.ArrowUp)
    case PageUp     => Some(Egui.Key.PageUp)
    case PageDown   => Some(Egui.Key.PageDown)
    case Home       => Some(Egui.Key.Home)
    case End        => Some(Egui.Key.End)
    case F(n)       => if n <= 20 then Some(Egui.Key.F(n)) else None
    case Kp(d)      => Some(Egui.Key.Num(d))
    case KpSubtract => Some(Egui.Key.Minus)
    case KpAdd      => Some(Egui.Key.PlusEquals)
    case KpEnter    => Some(Egui.Key.Enter)
    case KpEqual    => Some(Egui.Key.PlusEquals)
    case _          => None
  }

  /** Reference table: the main-keyboard key code that carries each egui key's
      name (`PlusEquals` sits on the `Equal` key). */
  function EguiKeyToSappKey(key: Egui.Key): Sapp.Keycode {
    match key
    case ArrowDown  => Sapp.Keycode.Down
    case ArrowLeft  => Sapp.Keycode.Left
    case ArrowRight => Sapp.Keycode.Right
    case ArrowUp    => Sapp.Keycode.Up
    case Escape     => Sapp.Keycode.Escape
    case Tab        => Sapp.Keycode.Tab
    case Backspace  => Sapp.Keycode.Backspace
    case Enter      => Sapp.Keycode.Enter
    case Space      => Sapp.Keycode.Space
    case Insert     => Sapp.Keycode.Insert
    case Delete     => Sapp.Keycode.Delete
    case Home       => Sapp.Keycode.Home
    case End        => Sapp.Keycode.End
    case PageUp     => Sapp.Keycode.PageUp
    case PageDown   => Sapp.Keycode.PageDown
    case Minus      => Sapp.Keycode.Minus
    case PlusEquals => Sapp.Keycode.Equal
    case Num(d)     => Sapp.Keycode.Num(d)
    case Letter(c)  => Sapp.Keycode.Letter(c)
    case F(n)       => Sapp.Keycode.F(n)
  }

  /** Keypad folding: each mapped keypad key stands for its main-keyboard twin
      (digits, minus, enter; both keypad plus and keypad equal onto `Equal`);
      every other key code is its own main key. */
  function MainKeycode(k: Sapp.Keycode): Sapp.Keycode {
    match k
    case Kp(d)      => Sapp.Keycode.Num(d)
    case KpSubtract => Sapp.Keycode.Minus
    case KpEnter    => Sapp.Keycode.Enter
    case KpAdd      => Sapp.Keycode.Equal
    case KpEqual    => Sapp.Keycode.Equal
    case _          => k
  }

  /** Every egui key is reached, from the key code that carries its name. */
  lemma KeyRoundTrip(key: Egui.Key)
    ensures SappKeyToEguiKey(EguiKeyToSappKey(key)) == Some(key)
  {
  }

  /** A keypad key translates exactly like its main-keyboard twin. */
  lemma KeypadFolds(k: Sapp.Keycode)
    ensures SappKeyToEguiKey(k) == SappKeyToEguiKey(MainKeycode(k))
  {
  }

  /** A mapped key code, after keypad folding, is the key code named like its result. */
  lemma NamedKeyIsMain(k: Sapp.Keycode)
    requires SappKeyToEguiKey(k).Some?
    ensures MainKeycode(k) == EguiKeyToSappKey(SappKeyToEguiKey(k).value)
  {
    if k.Num? || k.Letter? || k.F? || k.Kp? {
    } else if k.KpSubtract? || k.KpAdd? || k.KpEnter? || k.KpEqual? {
    } else {
      NamedWordKeyIsMain(k);
    }
  }

  /** The same, for the mapped key codes named by a word on the main keyboard. */
  lemma NamedWordKeyIsMain(k: Sapp.Keycode)
    requires SappKeyToEguiKey(k).Some?
    requires !(k.Num? || k.Letter? || k.F? || k.Kp? || k.KpSubtract? || k.KpAdd? || k.KpEnter? || k.KpEqual?)
    ensures MainKeycode(k) == EguiKeyToSappKey(SappKeyToEguiKey(k).value)
  {
  }

  /** The whole key table in one statement: a key code translates to `key`
      exactly when it is, after keypad folding, the key code named like `key`. */
  lemma KeyPreimage(k: Sapp.Keycode, key: Egui.Key)
    ensures SappKeyToEguiKey(k) == Some(key) <==> MainKeycode(k) == EguiKeyToSappKey(key)
  {
    KeypadFolds(k);
    KeyRoundTrip(key);
    if SappKeyToEguiKey(k) == Some(key) {
      NamedKeyIsMain(k);
    }
  }

  /** Three key codes fold onto `PlusEquals`. */
  lemma PlusEqualsPreimage(k: Sapp.Keycode)
    ensures SappKeyToEguiKey(k) == Some(Egui.Key.PlusEquals) <==> k.Equal? || k.KpAdd? || k.KpEqual?
  {
    KeyPreimage(k, Egui.Key.PlusEquals);
  }
}
