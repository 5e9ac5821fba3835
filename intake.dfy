/** Event intake (src/lib.rs:356-596) as pure functions over the part of the
    bridge state that `event` reads and writes. `event` runs three blocks in
    order, each of which may push onto the event buffer and reports whether it
    handled the event: the keyboard block (only while egui wants keyboard
    input), the pointer block (always, see `PointerGate`) and the window
    block. `Bridge.State.Event` is proved to compute `EventStep`. */
module Intake {
  import opened Common
  import Sapp
  import Egui
  import opened Mappings

  /** The part of the bridge state that event intake touches: the pending
      events, the modifier snapshot and the focus flag. */
  datatype InputState = InputState(events: seq<Egui.Event>, modifiers: Egui.Modifiers, hasFocus: bool)

  /** The state after a block of `event`, and whether that block handled the event. */
  datatype Step = Step(state: InputState, handled: bool)

  // ---------------------------------------------------------------------------
  // The source's oddities, each under its own name

  /** Key events are pushed as releases, on key-down as on key-up (src/lib.rs:381, 409). */
  const KeyEventPressed := false

  /** A mouse-down is pushed as a release and a mouse-up as a press
      (src/lib.rs:446, 455). */
  const MouseDownPressed := false
  const MouseUpPressed := true

  /** The pointer block's guard `true | wants_pointer_input()` (src/lib.rs:435). */
  function PointerGate(wantsPointer: bool): bool {
    true || wantsPointer
  }

  /** The one device id every touch event carries (src/lib.rs:439). */
  const FakeTouchDeviceId := Egui.TouchDeviceId(1337)

  /** A modifier flag as the source computes it, `(mask | bit) != 0`: an OR
      where a mask test would use AND. */
  function ModifierFlag(mask: bv32, bit: bv32): bool {
    (mask | bit) != 0
  }

  /** The modifier snapshot after a key transition: alt, ctrl, shift and
      command are overwritten from the event's mask; `macCmd` is left alone. */
  function KeyModifiers(prev: Egui.Modifiers, mask: bv32): Egui.Modifiers {
    prev.(alt := ModifierFlag(mask, Sapp.ModifierAlt),
          ctrl := ModifierFlag(mask, Sapp.ModifierCtrl),
          shift := ModifierFlag(mask, Sapp.ModifierShift),
          command := ModifierFlag(mask, Sapp.ModifierCtrl) || ModifierFlag(mask, Sapp.ModifierSuper))
  }

  /** Because of the OR, every key transition sets alt, ctrl, shift and
      command, whatever the mask says. */
  lemma KeyModifiersIgnoreMask(prev: Egui.Modifiers, mask: bv32)
    ensures KeyModifiers(prev, mask) == prev.(alt := true, ctrl := true, shift := true, command := true)
  {
  }

  /** The modifier invariant: command is set whenever ctrl is. */
  predicate CommandCoversCtrl(m: Egui.Modifiers) {
    m.ctrl ==> m.command
  }

  /** A key transition establishes the modifier invariant, and sets command
      whenever the platform "super" bit is set. */
  lemma CommandCoversCtrlAndSuper(prev: Egui.Modifiers, mask: bv32)
    ensures CommandCoversCtrl(KeyModifiers(prev, mask))
    ensures mask & Sapp.ModifierSuper != 0 ==> KeyModifiers(prev, mask).command
    ensures KeyModifiers(prev, mask).macCmd == prev.macCmd
  {
  }

  // ---------------------------------------------------------------------------
  // Keyboard block (src/lib.rs:362-433)

  function Push(s: InputState, ev: Egui.Event): InputState {
    s.(events := s.events + [ev])
  }

  /** KeyDown and KeyUp (the source writes the same code twice). */
  function KeyTransition(s: InputState, e: Sapp.Event): Step {
    var mods := KeyModifiers(s.modifiers, e.modifiers);
    var s' := s.(modifiers := mods);
    match SappKeyToEguiKey(e.keyCode)
    case Some(key) => Step(Push(s', Egui.Event.Key(key, KeyEventPressed, e.keyRepeat, mods)), true)
    case None => Step(s', true)
  }

  /** What `char::from_u32` accepts: the Unicode scalar values. */
  predicate IsScalarValue(code: U32) {
    code < 0xD800 || 0xE000 <= code < 0x11_0000
  }

  function CharIntake(s: InputState, e: Sapp.Event): Step {
    if IsScalarValue(e.charCode) then
      Step(Push(s, Egui.Event.Text([e.charCode as int as char])), true)
    else
      Step(s, false)
  }

  function KeyboardBlock(s: InputState, e: Sapp.Event, wantsKeyboard: bool): Step {
    if !wantsKeyboard then Step(s, false)
    else
      match e.kind
      case KeyDown => KeyTransition(s, e)
      case KeyUp => KeyTransition(s, e)
      case Char => CharIntake(s, e)
      case _ => Step(s, false)
  }

  // ---------------------------------------------------------------------------
  // Pointer block (src/lib.rs:435-565)

  /** The source slices `touches[..num_touches]`, which panics unless the
      count lies between 0 and the array length. */
  predicate TouchCountInRange(e: Sapp.Event) {
    Sapp.IsTouchEvent(e.kind) ==> 0 <= e.numTouches as int <= |e.touches|
  }

  function TouchPhaseOf(kind: Sapp.EventType): Egui.TouchPhase
    requires Sapp.IsTouchEvent(kind)
  {
    match kind
    case TouchesBegan => Egui.TouchPhase.Start
    case TouchesMoved => Egui.TouchPhase.Move
    case TouchesEnded => Egui.TouchPhase.End
    case TouchesCancelled => Egui.TouchPhase.Cancel
  }

  function TouchEvent(p: Sapp.TouchPoint, phase: Egui.TouchPhase): Egui.Event {
    Egui.Event.Touch(FakeTouchDeviceId, Egui.TouchId(p.identifier), phase, Egui.Pos2(p.posX, p.posY), Zero)
  }

  /** The events pushed by one pass of a touch loop over `ps`: one per point
      whose `changed` flag is set. */
  function TouchEvents(ps: seq<Sapp.TouchPoint>, phase: Egui.TouchPhase): (r: seq<Egui.Event>)
    ensures |r| <= |ps|
    ensures forall k :: 0 <= k < |r| ==>
      r[k].Touch? && r[k].phase == phase && r[k].force == Zero && r[k].deviceId == FakeTouchDeviceId
  {
    if ps == [] then []
    else
      var last := ps[|ps| - 1];
      TouchEvents(ps[..|ps| - 1], phase) + (if last.changed then [TouchEvent(last, phase)] else [])
  }

  function PointerBlock(s: InputState, e: Sapp.Event, wantsPointer: bool): Step
    requires TouchCountInRange(e)
  {
    if !PointerGate(wantsPointer) then Step(s, false)
    else
      var pos := Egui.Pos2(e.mouseX, e.mouseY);
      var button := SappMouseButtonToEguiPointerButton(e.mouseButton);
      match e.kind
      case MouseDown => Step(Push(s, Egui.Event.PointerButton(pos, button, MouseDownPressed, s.modifiers)), true)
      case MouseUp => Step(Push(s, Egui.Event.PointerButton(pos, button, MouseUpPressed, s.modifiers)), true)
      case MouseScroll => Step(Push(s, Egui.Event.Scroll(Egui.Vec2(e.scrollX, e.scrollY))), true)
      case MouseMove => Step(Push(s, Egui.Event.PointerMoved(pos)), true)
      case MouseEnter => Step(Push(s, Egui.Event.PointerMoved(pos)), true)
      case MouseLeave => Step(Push(s, Egui.Event.PointerGone), true)
      case TouchesBegan | TouchesMoved | TouchesEnded | TouchesCancelled =>
        var pushed := TouchEvents(e.touches[..e.numTouches as int], TouchPhaseOf(e.kind));
        Step(s.(events := s.events + pushed), pushed != [])
      case _ => Step(s, false)
  }

  // ---------------------------------------------------------------------------
  // Window block (src/lib.rs:567-593)

  function WindowBlock(s: InputState, e: Sapp.Event): Step {
    match e.kind
    case Resized => Step(s, true)
    case Iconified | Unfocused | Suspended => Step(s.(hasFocus := false), true)
    case Restored | Focused | Resumed => Step(s.(hasFocus := true), true)
    case _ => Step(s, false)
  }

  // ---------------------------------------------------------------------------
  // The whole of `event`

  predicate IsKeyTransition(kind: Sapp.EventType) {
    kind.KeyDown? || kind.KeyUp?
  }

  predicate IsFocusChange(kind: Sapp.EventType) {
    kind.Iconified? || kind.Unfocused? || kind.Suspended?
    || kind.Restored? || kind.Focused? || kind.Resumed?
  }

  /** One call of `event`: the three blocks in order, handled if any block
      handled it. The buffer only ever grows at its end, nothing is pushed
      without the event being reported handled, the modifiers change only on
      a wanted key transition and the focus flag only on a focus change. */
  function EventStep(s: InputState, e: Sapp.Event, wantsKeyboard: bool, wantsPointer: bool): (r: Step)
    requires TouchCountInRange(e)
    ensures s.events <= r.state.events
    ensures |r.state.events| > |s.events| ==> r.handled
    ensures r.state.modifiers != s.modifiers ==> wantsKeyboard && IsKeyTransition(e.kind)
    ensures r.state.hasFocus != s.hasFocus ==> IsFocusChange(e.kind)
  {
    var kb := KeyboardBlock(s, e, wantsKeyboard);
    var ptr := PointerBlock(kb.state, e, wantsPointer);
    var win := WindowBlock(ptr.state, e);
    Step(win.state, kb.handled || ptr.handled || win.handled)
  }

  // ---------------------------------------------------------------------------
  // Properties of `event`, one group of event kinds at a time

  /** Each mouse event pushes exactly one event and is handled, whatever egui
      wants; a mouse-down is reported as a release and a mouse-up as a press. */
  lemma MouseIntake(s: InputState, e: Sapp.Event, wantsKeyboard: bool, wantsPointer: bool)
    requires Sapp.IsMouseEvent(e.kind)
    ensures var r := EventStep(s, e, wantsKeyboard, wantsPointer);
      r.handled && |r.state.events| == |s.events| + 1
      && r.state.modifiers == s.modifiers && r.state.hasFocus == s.hasFocus
    ensures var r := EventStep(s, e, wantsKeyboard, wantsPointer);
      var pushed := r.state.events[|s.events|];
      var pos := Egui.Pos2(e.mouseX, e.mouseY);
      var button := SappMouseButtonToEguiPointerButton(e.mouseButton);
      && (e.kind.MouseDown? ==> pushed == Egui.Event.PointerButton(pos, button, false, s.modifiers))
      && (e.kind.MouseUp? ==> pushed == Egui.Event.PointerButton(pos, button, true, s.modifiers))
      && (e.kind.MouseScroll? ==> pushed == Egui.Event.Scroll(Egui.Vec2(e.scrollX, e.scrollY)))
      && (e.kind.MouseMove? || e.kind.MouseEnter? ==> pushed == Egui.Event.PointerMoved(pos))
      && (e.kind.MouseLeave? ==> pushed == Egui.Event.PointerGone)
  {
  }

  /** While egui does not want keyboard input, key and character events change
      nothing and are not handled. */
  lemma KeyboardNotWanted(s: InputState, e: Sapp.Event, wantsPointer: bool)
    requires IsKeyTransition(e.kind) || e.kind.Char?
    ensures EventStep(s, e, false, wantsPointer) == Step(s, false)
  {
  }

  /** A wanted key transition overwrites the modifiers from the mask, pushes
      one key event exactly when the key code maps (as a release, with the new
      modifiers) and is handled even when it does not map. */
  lemma KeyTransitionWanted(s: InputState, e: Sapp.Event, wantsPointer: bool)
    requires IsKeyTransition(e.kind)
    ensures var r := EventStep(s, e, true, wantsPointer);
      r.handled && r.state.hasFocus == s.hasFocus
      && r.state.modifiers == KeyModifiers(s.modifiers, e.modifiers)
    ensures var r := EventStep(s, e, true, wantsPointer);
      (|r.state.events| == |s.events| + 1 <==> SappKeyToEguiKey(e.keyCode).Some?)
    ensures var r := EventStep(s, e, true, wantsPointer);
      r.state.events == s.events + match SappKeyToEguiKey(e.keyCode)
        case Some(key) => [Egui.Event.Key(key, false, e.keyRepeat, r.state.modifiers)]
        case None => []
  {
  }

  /** A wanted character event pushes the one-character text and is handled
      exactly when its code is a Unicode scalar value. */
  lemma CharWanted(s: InputState, e: Sapp.Event, wantsPointer: bool)
    requires e.kind.Char?
    ensures var r := EventStep(s, e, true, wantsPointer);
      (r.handled <==> IsScalarValue(e.charCode))
      && r.state.modifiers == s.modifiers && r.state.hasFocus == s.hasFocus
    ensures var r := EventStep(s, e, true, wantsPointer);
      r.state.events == if IsScalarValue(e.charCode)
        then s.events + [Egui.Event.Text([e.charCode as int as char])]
        else s.events
  {
  }

  /** Window events push nothing and leave the modifiers alone; focus is lost
      on iconify, unfocus and suspend, regained on restore, focus and resume;
      all seven are handled. */
  lemma WindowIntake(s: InputState, e: Sapp.Event, wantsKeyboard: bool, wantsPointer: bool)
    requires e.kind.Resized? || IsFocusChange(e.kind)
    ensures var r := EventStep(s, e, wantsKeyboard, wantsPointer);
      r.handled && r.state.events == s.events && r.state.modifiers == s.modifiers
    ensures var r := EventStep(s, e, wantsKeyboard, wantsPointer);
      r.state.hasFocus ==
        if e.kind.Iconified? || e.kind.Unfocused? || e.kind.Suspended? then false
        else if e.kind.Resized? then s.hasFocus
        else true
  {
  }

  /** Every event keeps the modifier invariant: only key transitions write the
      modifiers, and they establish it. */
  lemma CommandCoversCtrlPreserved(s: InputState, e: Sapp.Event, wantsKeyboard: bool, wantsPointer: bool)
    requires TouchCountInRange(e) && CommandCoversCtrl(s.modifiers)
    ensures CommandCoversCtrl(EventStep(s, e, wantsKeyboard, wantsPointer).state.modifiers)
  {
    if EventStep(s, e, wantsKeyboard, wantsPointer).state.modifiers != s.modifiers {
      KeyTransitionWanted(s, e, wantsPointer);
      CommandCoversCtrlAndSuper(s.modifiers, e.modifiers);
    }
  }

  /** Quit requests, pasted clipboard, dropped files and the invalid and count
      event types are not handled and change nothing. */
  lemma UnhandledEvents(s: InputState, e: Sapp.Event, wantsKeyboard: bool, wantsPointer: bool)
    requires e.kind.QuitRequested? || e.kind.ClipboardPasted? || e.kind.FilesDropped?
      || e.kind.Invalid? || e.kind.Num?
    ensures EventStep(s, e, wantsKeyboard, wantsPointer) == Step(s, false)
  {
  }

  // ---------------------------------------------------------------------------
  // Touch batches

  /** The positions of the points whose `changed` flag is set, in order. */
  function ChangedIndices(ps: seq<Sapp.TouchPoint>): (r: seq<nat>)
    ensures forall k :: 0 <= k < |r| ==> r[k] < |ps| && ps[r[k]].changed
    ensures forall k, l :: 0 <= k < l < |r| ==> r[k] < r[l]
    ensures forall i :: 0 <= i < |ps| && ps[i].changed ==> i in r
  {
    if ps == [] then []
    else
      var n := |ps| - 1;
      var front := ChangedIndices(ps[..n]);
      assert forall k :: 0 <= k < |front| ==> ps[front[k]] == ps[..n][front[k]];
      front + (if ps[n].changed then [n] else [])
  }

  /** A touch loop pushes exactly the changed points, in their order in the
      batch. */
  lemma {:induction false} TouchEventsSelectChanged(ps: seq<Sapp.TouchPoint>, phase: Egui.TouchPhase)
    ensures |TouchEvents(ps, phase)| == |ChangedIndices(ps)|
    ensures forall k :: 0 <= k < |ChangedIndices(ps)| ==>
      TouchEvents(ps, phase)[k] == TouchEvent(ps[ChangedIndices(ps)[k]], phase)
  {
    if ps != [] {
      var n := |ps| - 1;
      TouchEventsSelectChanged(ps[..n], phase);
      var front := ChangedIndices(ps[..n]);
      var pushed := TouchEvents(ps[..n], phase);
      var tail := if ps[n].changed then [n] else [];
      assert ChangedIndices(ps) == front + tail;
      assert TouchEvents(ps, phase) == pushed + (if ps[n].changed then [TouchEvent(ps[n], phase)] else []);
      forall k | 0 <= k < |ChangedIndices(ps)|
        ensures TouchEvents(ps, phase)[k] == TouchEvent(ps[ChangedIndices(ps)[k]], phase)
      {
        if k < |front| {
          assert ps[front[k]] == ps[..n][front[k]];
        }
      }
    }
  }

  /** A touch loop pushes something exactly when some point has changed. */
  lemma {:induction false} TouchEventsEmpty(ps: seq<Sapp.TouchPoint>, phase: Egui.TouchPhase)
    ensures TouchEvents(ps, phase) != [] <==> exists i :: 0 <= i < |ps| && ps[i].changed
  {
    TouchEventsSelectChanged(ps, phase);
    var idx := ChangedIndices(ps);
    if idx != [] {
      assert ps[idx[0]].changed;
    }
  }

  /** A touch event pushes the changed points among the first `numTouches`,
      in order, with the phase of its event type and zero force, and is
      handled exactly when there was one; nothing else changes. */
  lemma {:induction false} TouchIntake(s: InputState, e: Sapp.Event, wantsKeyboard: bool, wantsPointer: bool)
    requires Sapp.IsTouchEvent(e.kind) && TouchCountInRange(e)
    ensures var r := EventStep(s, e, wantsKeyboard, wantsPointer);
      r.state.events == s.events + TouchEvents(e.touches[..e.numTouches as int], TouchPhaseOf(e.kind))
      && r.state.modifiers == s.modifiers && r.state.hasFocus == s.hasFocus
    ensures EventStep(s, e, wantsKeyboard, wantsPointer).handled <==>
      exists i :: 0 <= i < e.numTouches as int && e.touches[i].changed
  {
    var batch := e.touches[..e.numTouches as int];
    TouchEventsEmpty(batch, TouchPhaseOf(e.kind));
    assert forall i :: 0 <= i < |batch| ==> batch[i] == e.touches[i];
  }
}
