/** The bridge's lifecycle (src/lib.rs:1-169, 356-596): the process-wide
    `State` and the entry points `begin`, `event`, `frame`, `draw` and
    `shutdown`. The static `MaybeUninit` singleton becomes one `State`
    object whose ghost `initialized` flag records whether `begin` has
    written it and `shutdown` has not dropped it since. Calls of egui's
    `begin_frame`, with the input each received, and of the `extern "C"`
    callbacks are recorded, in order, in one ghost trace; `end_frame`'s
    result is a parameter of `Frame`. */
module Bridge {
  import opened Common
  import Sapp
  import Egui
  import opened Mappings
  import opened Intake

  /** An `extern "C"` callback, known only by its address. */
  datatype FnPtr = FnPtr(address: U64)

  /** The null `*mut c_void`. */
  const Null: U64 := 0

  /** The configuration `begin` receives: two optional callbacks and an
      opaque user-data pointer. */
  datatype Desc = Desc(guiCb: Option<FnPtr>, guiUserdataCb: Option<FnPtr>, userdata: U64)

  /** `Desc::new()`, also `Desc::default()`: no callbacks, null user data. */
  const DefaultDesc := Desc(None, None, Null)

  /** One step of `frame` that leaves the bridge: handing the input to egui's
      `begin_frame`, or invoking one of the callbacks. */
  datatype FrameCall =
    | BeganFrame(input: Egui.RawInput)
    | GuiCall(cb: FnPtr)
    | GuiUserdataCall(cb: FnPtr, userdata: U64)

  /** The callbacks `frame` runs: each one that is set, the plain callback
      before the one that also receives the user data. */
  function FrameCallbacks(desc: Desc): (calls: seq<FrameCall>)
    ensures |calls| == (if desc.guiCb.Some? then 1 else 0) + (if desc.guiUserdataCb.Some? then 1 else 0)
    ensures forall c :: c in calls && c.GuiCall? ==> desc.guiCb == Some(c.cb)
    ensures forall c :: c in calls && c.GuiUserdataCall? ==>
      desc.guiUserdataCb == Some(c.cb) && c.userdata == desc.userdata
    ensures |calls| == 2 ==> calls[0].GuiCall? && calls[1].GuiUserdataCall?
    ensures forall c :: c in calls ==> !c.BeganFrame?
  {
    (if desc.guiCb.Some? then [GuiCall(desc.guiCb.value)] else [])
    + (if desc.guiUserdataCb.Some? then [GuiUserdataCall(desc.guiUserdataCb.value, desc.userdata)] else [])
  }

  /** A platform service request that `frame` passes on from egui's output. */
  datatype PlatformRequest = OpenUrlRequest(url: string, newTab: bool) | CopyToClipboard(text: string)

  /** The requests of one frame: open the URL egui asked for, if any, then
      copy the text egui copied, if it is not empty. */
  function PlatformRequests(out: Egui.PlatformOutput): (r: seq<PlatformRequest>)
    ensures |r| == (if out.openUrl.Some? then 1 else 0) + (if out.copiedText != "" then 1 else 0)
    ensures forall q :: q in r && q.OpenUrlRequest? ==> out.openUrl == Some(Egui.OpenUrl(q.url, q.newTab))
    ensures forall q :: q in r && q.CopyToClipboard? ==> q.text == out.copiedText != ""
    ensures |r| == 2 ==> r[0].OpenUrlRequest? && r[1].CopyToClipboard?
  {
    (if out.openUrl.Some? then [OpenUrlRequest(out.openUrl.value.url, out.openUrl.value.newTab)] else [])
    + (if out.copiedText != "" then [CopyToClipboard(out.copiedText)] else [])
  }

  /** A texture operation that `draw` passes to the renderer. */
  datatype TextureOp =
    | UpdateTexture(id: Egui.TextureId, pos: Option<(nat, nat)>, options: Egui.TextureOptions)
    | FreeTexture(id: Egui.TextureId)

  /** What `begin_frame` receives: the pending input, with the screen
      rectangle, pixel density and frame time read from the platform. */
  function FrameInput(s: InputState, width: F32, height: F32, dpiScale: F32, frameDuration: F32): Egui.RawInput {
    Egui.RawInput(Some(Egui.Rect(Egui.Pos2(Zero, Zero), Egui.Pos2(width, height))), Some(dpiScale),
                  frameDuration, s.modifiers, s.events, s.hasFocus)
  }

  class State {
    // raw_input: the part the bridge writes
    var events: seq<Egui.Event>
    var modifiers: Egui.Modifiers
    var hasFocus: bool
    var latestOutput: Option<Egui.FullOutput>
    // the callbacks and user data copied from the Desc
    var guiCb: Option<FnPtr>
    var guiUserdataCb: Option<FnPtr>
    var userdata: U64

    /** Whether `begin` has written the state and `shutdown` has not dropped it since. */
    ghost var initialized: bool
    /** Every input handed to egui's `begin_frame` and every callback
        invocation made by `frame`, oldest first. */
    ghost var trace: seq<FrameCall>

    function Input(): InputState
      reads this
    {
      InputState(events, modifiers, hasFocus)
    }

    function Callbacks(): Desc
      reads this
    {
      Desc(guiCb, guiUserdataCb, userdata)
    }

    /** The static before `begin`: nothing written yet. */
    constructor ()
      ensures !initialized && trace == []
    {
      events, modifiers, hasFocus, latestOutput := [], Egui.NoModifiers, false, None;
      guiCb, guiUserdataCb, userdata := None, None, Null;
      initialized, trace := false, [];
    }

    /** `begin`: writes a fresh state over whatever is there, initialised or
        not. egui's default `RawInput` supplies the modifiers (all off) and
        the focus flag, which is a parameter here. */
    method Begin(desc: Desc, defaultFocus: bool)
      modifies this
      ensures initialized
      ensures events == [] && modifiers == Egui.NoModifiers && hasFocus == defaultFocus
      ensures latestOutput == None && Callbacks() == desc
      ensures CommandCoversCtrl(modifiers)
      ensures trace == old(trace)
    {
      events, modifiers, hasFocus, latestOutput := [], Egui.NoModifiers, defaultFocus, None;
      guiCb, guiUserdataCb, userdata := desc.guiCb, desc.guiUserdataCb, desc.userdata;
      initialized := true;
    }

    /** `shutdown`: drops the state. */
    method Shutdown()
      requires initialized
      modifies this
      ensures !initialized
      ensures trace == old(trace)
    {
      initialized := false;
    }

    /** `event`: the three blocks of `EventStep`, run in place. The flags
        `wantsKeyboard` and `wantsPointer` are egui's `wants_keyboard_input()`
        and `wants_pointer_input()`. */
    method Event(e: Sapp.Event, wantsKeyboard: bool, wantsPointer: bool) returns (handled: bool)
      requires initialized && Sapp.HasTouchArray(e) && TouchCountInRange(e)
      modifies this
      ensures Input() == EventStep(old(Input()), e, wantsKeyboard, wantsPointer).state
      ensures handled == EventStep(old(Input()), e, wantsKeyboard, wantsPointer).handled
      ensures CommandCoversCtrl(old(modifiers)) ==> CommandCoversCtrl(modifiers)
      ensures latestOutput == old(latestOutput) && Callbacks() == old(Callbacks())
      ensures initialized && trace == old(trace)
    {
      var keyboardHandled := KeyboardIntake(e, wantsKeyboard);
      var pointerHandled := PointerIntake(e, wantsPointer);
      var windowHandled := WindowIntake(e);
      handled := keyboardHandled || pointerHandled || windowHandled;
      if CommandCoversCtrl(old(modifiers)) {
        CommandCoversCtrlPreserved(old(Input()), e, wantsKeyboard, wantsPointer);
      }
    }

    /** The keyboard block of `event`, entered only when egui wants keyboard input. */
    method KeyboardIntake(e: Sapp.Event, wantsKeyboard: bool) returns (handled: bool)
      modifies this`events, this`modifiers
      ensures Input() == KeyboardBlock(old(Input()), e, wantsKeyboard).state
      ensures handled == KeyboardBlock(old(Input()), e, wantsKeyboard).handled
    {
      handled := false;
      if wantsKeyboard {
        match e.kind {
          case KeyDown => handled := KeyTransitionIntake(e);
          case KeyUp => handled := KeyTransitionIntake(e);
          case Char =>
            if IsScalarValue(e.charCode) {
              events := events + [Egui.Event.Text([e.charCode as int as char])];
              handled := true;
            }
          case _ =>
        }
      }
    }

    /** The pointer block of `event`, behind the gate that always opens. */
    method PointerIntake(e: Sapp.Event, wantsPointer: bool) returns (handled: bool)
      requires TouchCountInRange(e)
      modifies this`events
      ensures Input() == PointerBlock(old(Input()), e, wantsPointer).state
      ensures handled == PointerBlock(old(Input()), e, wantsPointer).handled
    {
      handled := false;
      if PointerGate(wantsPointer) {
        var pos := Egui.Pos2(e.mouseX, e.mouseY);
        var button := SappMouseButtonToEguiPointerButton(e.mouseButton);
        match e.kind {
          case MouseDown =>
            events := events + [Egui.Event.PointerButton(pos, button, MouseDownPressed, modifiers)];
            handled := true;
          case MouseUp =>
            events := events + [Egui.Event.PointerButton(pos, button, MouseUpPressed, modifiers)];
            handled := true;
          case MouseScroll =>
            events := events + [Egui.Event.Scroll(Egui.Vec2(e.scrollX, e.scrollY))];
            handled := true;
          case MouseMove =>
            events := events + [Egui.Event.PointerMoved(pos)];
            handled := true;
          case MouseEnter =>
            events := events + [Egui.Event.PointerMoved(pos)];
            handled := true;
          case MouseLeave =>
            events := events + [Egui.Event.PointerGone];
            handled := true;
          case TouchesBegan =>
            handled := TouchLoop(e.touches[..e.numTouches as int], Egui.TouchPhase.Start);
          case TouchesMoved =>
            handled := TouchLoop(e.touches[..e.numTouches as int], Egui.TouchPhase.Move);
          case TouchesEnded =>
            handled := TouchLoop(e.touches[..e.numTouches as int], Egui.TouchPhase.End);
          case TouchesCancelled =>
            handled := TouchLoop(e.touches[..e.numTouches as int], Egui.TouchPhase.Cancel);
          case _ =>
        }
      }
    }

    /** The window block of `event`, which runs whatever egui wants. */
    method WindowIntake(e: Sapp.Event) returns (handled: bool)
      modifies this`hasFocus
      ensures Input() == WindowBlock(old(Input()), e).state
      ensures handled == WindowBlock(old(Input()), e).handled
    {
      handled := false;
      match e.kind {
        case Resized =>
          handled := true;
        case Iconified | Unfocused | Suspended =>
          hasFocus := false;
          handled := true;
        case Restored | Focused | Resumed =>
          hasFocus := true;
          handled := true;
        case _ =>
      }
    }

    /** The key-down and key-up arms of `event`: overwrite the modifiers, push
        a key event if the key code maps, report handled. */
    method KeyTransitionIntake(e: Sapp.Event) returns (handled: bool)
      modifies this`events, this`modifiers
      ensures Input() == KeyTransition(old(Input()), e).state && handled
    {
      modifiers := modifiers.(alt := ModifierFlag(e.modifiers, Sapp.ModifierAlt));
      modifiers := modifiers.(ctrl := ModifierFlag(e.modifiers, Sapp.ModifierCtrl));
      modifiers := modifiers.(shift := ModifierFlag(e.modifiers, Sapp.ModifierShift));
      modifiers := modifiers.(command := ModifierFlag(e.modifiers, Sapp.ModifierCtrl)
                                         || ModifierFlag(e.modifiers, Sapp.ModifierSuper));
      handled := true;
      var key := SappKeyToEguiKey(e.keyCode);
      if key.Some? {
        events := events + [Egui.Event.Key(key.value, KeyEventPressed, e.keyRepeat, modifiers)];
        handled := true;
      }
    }

    /** One touch loop of `event`: push a touch event for every changed point
        of the batch, in order; report whether any was pushed. */
    method TouchLoop(batch: seq<Sapp.TouchPoint>, phase: Egui.TouchPhase) returns (pushed: bool)
      modifies this`events
      ensures events == old(events) + TouchEvents(batch, phase)
      ensures pushed == (TouchEvents(batch, phase) != [])
    {
      pushed := false;
      for i := 0 to |batch|
        invariant events == old(events) + TouchEvents(batch[..i], phase)
        invariant pushed == (TouchEvents(batch[..i], phase) != [])
      {
        assert batch[..i + 1][..i] == batch[..i];
        var touch := batch[i];
        if touch.changed {
          events := events + [TouchEvent(touch, phase)];
          pushed := true;
        }
      }
      assert batch[..|batch|] == batch;
    }

    /** The callback part of `frame`: the plain callback, then the one that
        also receives the user data, each only if set. */
    method RunCallbacks()
      modifies this`trace
      ensures trace == old(trace) + FrameCallbacks(Callbacks())
    {
      if guiCb.Some? {
        trace := trace + [GuiCall(guiCb.value)];
      }
      if guiUserdataCb.Some? {
        trace := trace + [GuiUserdataCall(guiUserdataCb.value, userdata)];
      }
    }

    /** `raw_input.events.clear()`. Clearing leaves the buffer empty whatever
        it held, so the source's second clear in a row changes nothing. */
    method ClearEvents()
      modifies this`events
      ensures events == []
    {
      events := [];
    }

    /** `frame`: hand egui a copy of the pending input, run the callbacks,
        clear the buffer, store egui's output (`output`, what `end_frame`
        returns) in place of the previous one, and return the cursor to set
        and the platform requests to pass on. */
    method Frame(width: F32, height: F32, dpiScale: F32, frameDuration: F32, output: Egui.FullOutput)
      returns (cursor: Sapp.MouseCursor, requests: seq<PlatformRequest>)
      requires initialized
      modifies this
      ensures trace == old(trace) + [BeganFrame(FrameInput(old(Input()), width, height, dpiScale, frameDuration))]
                       + FrameCallbacks(old(Callbacks()))
      ensures events == [] && modifiers == old(modifiers) && hasFocus == old(hasFocus)
      ensures latestOutput == Some(output)
      ensures cursor == EguiCursorToSappCursor(output.platformOutput.cursorIcon)
      ensures requests == PlatformRequests(output.platformOutput)
      ensures initialized && Callbacks() == old(Callbacks())
    {
      var input := FrameInput(Input(), width, height, dpiScale, frameDuration);
      trace := trace + [BeganFrame(input)];

      RunCallbacks();

      ClearEvents();
      ClearEvents();

      cursor := EguiCursorToSappCursor(output.platformOutput.cursorIcon);
      requests := [];
      if output.platformOutput.openUrl.Some? {
        var request := output.platformOutput.openUrl.value;
        requests := requests + [OpenUrlRequest(request.url, request.newTab)];
      }
      if output.platformOutput.copiedText != "" {
        requests := requests + [CopyToClipboard(output.platformOutput.copiedText)];
      }

      latestOutput := Some(output);
    }

    /** `draw`: nothing before the first frame; afterwards every texture
        upload of the latest output in order, then every texture release. */
    method Draw() returns (ops: seq<TextureOp>)
      requires initialized
      ensures latestOutput == None ==> ops == []
      ensures latestOutput.Some? ==>
        var delta := latestOutput.value.texturesDelta;
        && |ops| == |delta.sets| + |delta.free|
        && (forall k :: 0 <= k < |delta.sets| ==>
              ops[k] == UpdateTexture(delta.sets[k].0, delta.sets[k].1.pos, delta.sets[k].1.options))
        && (forall k :: 0 <= k < |delta.free| ==> ops[|delta.sets| + k] == FreeTexture(delta.free[k]))
    {
      ops := [];
      if latestOutput.Some? {
        var delta := latestOutput.value.texturesDelta;
        for i := 0 to |delta.sets|
          invariant |ops| == i
          invariant forall k :: 0 <= k < i ==>
            ops[k] == UpdateTexture(delta.sets[k].0, delta.sets[k].1.pos, delta.sets[k].1.options)
        {
          var (id, imageDelta) := delta.sets[i];
          ops := ops + [UpdateTexture(id, imageDelta.pos, imageDelta.options)];
        }
        for j := 0 to |delta.free|
          invariant |ops| == |delta.sets| + j
          invariant forall k :: 0 <= k < |delta.sets| ==>
            ops[k] == UpdateTexture(delta.sets[k].0, delta.sets[k].1.pos, delta.sets[k].1.options)
          invariant forall k :: 0 <= k < j ==> ops[|delta.sets| + k] == FreeTexture(delta.free[k])
        {
          ops := ops + [FreeTexture(delta.free[j])];
        }
      }
    }
  }

  /** 1.0 and -2.0 as IEEE 754 single-precision bit patterns. */
  const One: F32 := F32(0x3F80_0000)
  const MinusTwo: F32 := F32(0xC000_0000)

  /** After `begin`, a key-down of A with no modifiers and no repeat, while
      egui wants the keyboard, is handled; the next frame hands egui exactly
      one key event for A that is not a repeat, and the buffer is empty
      afterwards. As the source is written, that event says `pressed: false`
      and carries every modifier flag but the macOS command key. */
  method KeyDownThenFrame(e: Sapp.Event, width: F32, height: F32, dpiScale: F32, frameDuration: F32,
                          output: Egui.FullOutput)
    returns (handled: bool, ghost delivered: seq<Egui.Event>, remaining: seq<Egui.Event>)
    requires Sapp.HasTouchArray(e)
    requires e.kind.KeyDown? && e.keyCode == Sapp.Keycode.Letter('A') && !e.keyRepeat && e.modifiers == 0
    ensures handled && remaining == []
    ensures delivered == [Egui.Event.Key(Egui.Key.Letter('A'), false, false, Egui.Modifiers(true, true, true, false, true))]
  {
    var st := new State();
    st.Begin(DefaultDesc, true);
    handled := st.Event(e, true, false);
    var _, _ := st.Frame(width, height, dpiScale, frameDuration, output);
    delivered := st.trace[0].input.events;
    remaining := st.events;
  }

  /** A scroll of (1.0, -2.0) becomes exactly one scroll event carrying that
      vector, whether or not egui wants the pointer. */
  method ScrollThenInspect(e: Sapp.Event, wantsKeyboard: bool, wantsPointer: bool)
    returns (handled: bool, pending: seq<Egui.Event>)
    requires Sapp.HasTouchArray(e)
    requires e.kind.MouseScroll? && e.scrollX == One && e.scrollY == MinusTwo
    ensures handled && pending == [Egui.Event.Scroll(Egui.Vec2(One, MinusTwo))]
  {
    var st := new State();
    st.Begin(DefaultDesc, false);
    handled := st.Event(e, wantsKeyboard, wantsPointer);
    pending := st.events;
  }

  /** Two frames with no input between them: the second hands egui no events. */
  method FrameTwice(st: State, width: F32, height: F32, dpiScale: F32, frameDuration: F32,
                    first: Egui.FullOutput, second: Egui.FullOutput)
    requires st.initialized
    modifies st
    ensures var calls := FrameCallbacks(old(st.Callbacks()));
      st.trace == old(st.trace)
        + [BeganFrame(FrameInput(old(st.Input()), width, height, dpiScale, frameDuration))] + calls
        + [BeganFrame(FrameInput(InputState([], old(st.modifiers), old(st.hasFocus)), width, height, dpiScale, frameDuration))]
        + calls
    ensures st.events == [] && st.latestOutput == Some(second)
  {
    var _, _ := st.Frame(width, height, dpiScale, frameDuration, first);
    var _, _ := st.Frame(width, height, dpiScale, frameDuration, second);
  }

  /** `draw` before any frame dispatches no texture operation. */
  method DrawBeforeFirstFrame(desc: Desc, defaultFocus: bool) returns (ops: seq<TextureOp>)
    ensures ops == []
  {
    var st := new State();
    st.Begin(desc, defaultFocus);
    ops := st.Draw();
  }

  /** A second `begin` without `shutdown` is not fatal: it overwrites the
      state, dropping the pending events and the first configuration. */
  method BeginTwice(first: Desc, second: Desc, e: Sapp.Event, wantsKeyboard: bool, wantsPointer: bool)
    returns (pending: seq<Egui.Event>, callbacks: Desc, output: Option<Egui.FullOutput>)
    requires Sapp.HasTouchArray(e) && TouchCountInRange(e)
    ensures pending == [] && callbacks == second && output == None
  {
    var st := new State();
    st.Begin(first, true);
    var _ := st.Event(e, wantsKeyboard, wantsPointer);
    st.Begin(second, true);
    pending, callbacks, output := st.events, st.Callbacks(), st.latestOutput;
  }
}
