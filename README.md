# sokol-rust-egui bridge, modelled in Dafny

The bridge connects sokol-app, a platform layer, to egui, an immediate-mode
GUI library. This project models `src/lib.rs` in four parts.

- **The three lookup tables** (module `Mappings`), as pure functions:
  - egui cursor icon to sokol cursor;
  - sokol mouse button to egui pointer button;
  - sokol key code to egui key. This one is partial: keypad keys fold onto
    main-row keys, and unlisted codes give no key.
- **Event intake, `event`** (module `Intake`). It is written first as a pure
  specification: `EventStep` composes the keyboard block, the pointer block
  and the window block in source order, over the part of the state that
  `event` writes (the event buffer, the modifiers and the focus flag).
- **The process-wide state** (module `Bridge`), as the class `State`. Its
  methods `Begin`, `Event`, `Frame`, `Draw` and `Shutdown` update the fields
  in place. `Event` and its per-block helpers are proved against
  `EventStep` and its blocks. `Frame` and `Draw` are proved against the
  specification functions `FrameInput`, `FrameCallbacks` and
  `PlatformRequests`, or against loop invariants.
- **The data types** of sokol-app and egui that the bridge touches (modules
  `Sapp` and `Egui`), with shared basics in `Common`.

The pure specification of `event` is built from one function per source
block:

- `Intake.KeyModifiers`: the modifier update of a key event (src/lib.rs:370-374).
- `Intake.KeyTransition`: a key-down or key-up arm (src/lib.rs:364-417).
- `Intake.CharIntake`: the character arm (src/lib.rs:419-430).
- `Intake.KeyboardBlock`: the keyboard block (src/lib.rs:362-433).
- `Intake.PointerGate`: the pointer block's guard (src/lib.rs:435).
- `Intake.PointerBlock`: the pointer block (src/lib.rs:435-565).
- `Intake.WindowBlock`: the window block (src/lib.rs:567-593).

`Bridge.FrameInput` is the input that `frame` builds for `begin_frame`
(src/lib.rs:44-52).

The source has several oddities. Each is modelled as written and kept
visible as a named definition:

- `KeyEventPressed` is `false`. Key-down and key-up events are both pushed
  with `pressed: false`.
- `MouseDownPressed` is `false` and `MouseUpPressed` is `true`. Mouse
  presses and releases are inverted.
- `ModifierFlag(mask, bit)` is `(mask | bit) != 0`. The source tests the
  modifier mask with `|` rather than `&`, so every modifier flag that
  `event` sets is true. `Intake.KeyModifiersIgnoreMask` proves this.
- `PointerGate(w)` is `true || w`. Pointer and touch events are translated
  whether or not egui wants them.
- `Frame` clears the event buffer twice. `ClearEvents` leaves the buffer
  empty whatever it held, so the second clear changes nothing.
- A second `Begin` overwrites the state. Nothing fails; `Bridge.BeginTwice`
  states the outcome.

The boundaries of what is modelled are as follows.

- **egui calls.** Each call of `begin_frame` is recorded, with the input it
  receives, in the ghost trace `trace`. The result of `end_frame` is the `output` parameter of
  `Frame`. `wants_keyboard_input()` and `wants_pointer_input()` are boolean
  parameters of `Event`.
- **sokol-app queries.** `widthf`, `heightf`, `dpi_scale` and
  `frame_duration` are parameters of `Frame`. `set_mouse_cursor` becomes the
  cursor that `Frame` returns.
- **Callbacks.** The `extern "C"` callbacks are known by address. Their
  invocations are recorded in the same `trace`, so it keeps the order of
  `begin_frame` and the callbacks.
- **Diagnostic prints.** The `println!` stand-ins for opening a URL, copying
  to the clipboard, and updating or freeing a texture become returned values:
  `Frame` returns `PlatformRequest`s and `Draw` returns `TextureOp`s, each in
  the order the source reaches them.

Both the sokol key codes and the egui keys keep their families as
parameterised constructors:

- `Num(d)` for the digit row;
- `Letter(c)` for A to Z;
- `F(n)` for the function keys;
- `Kp(d)` for the keypad digits.

The source's table lists each member of a family as its own variant. The
mapping is the same, member for member.

## Model

| member | source | states |
|---|---|---|
| Mappings.EguiCursorToSappCursor | src/lib.rs:172-213 | The cursor map is total, and it never yields `Arrow` or the `Num` count value. |
| Mappings.CursorPreimages | src/lib.rs:172-213 | For each sokol cursor, exactly which egui icons map to it (both directions). `Text` and `VerticalText` map to `Ibeam`. `NoDrop` and `NotAllowed` map to `NotAllowed`. The four corner resizes map to `ResizeAll`. Each remaining listed icon maps to its namesake. `Default` and every unlisted icon map to `Default`. |
| Mappings.SappMouseButtonToEguiPointerButton | src/lib.rs:217-224 | The button map is total. The result is `Extra1` exactly for `Invalid`, and it is never `Extra2`. |
| Mappings.MouseButtonRoundTrip | src/lib.rs:217-224 | Left, Right and Middle map to Primary, Secondary and Middle: mapping back recovers the button, and `Invalid` has no way back. |
| Mappings.ValidMouseButtonsDistinct | src/lib.rs:217-224 | The three valid buttons map to three different pointer buttons. |
| Mappings.SappKeyToEguiKey | src/lib.rs:227-353 | A key code has no egui key exactly when it is unlisted: modifiers, punctuation other than minus and equals, lock keys, F21 to F25, the keypad operators other than subtract, add, enter and equal, Invalid and the rest. |
| Mappings.KeyRoundTrip | src/lib.rs:227-353 | Every egui key is reached. The sokol code of the same name (Equal for `PlusEquals`) maps to it. |
| Mappings.KeypadFolds | src/lib.rs:227-353 | Each keypad key maps to what its main-row counterpart maps to. Kp0 to Kp9 go to the digits, KpSubtract to Minus, KpEnter to Enter, and KpAdd and KpEqual to Equal's key. |
| Mappings.NamedKeyIsMain | src/lib.rs:227-353 | Every mapped key code is, after the keypad fold, the same-named code of the key it maps to. |
| Mappings.NamedWordKeyIsMain | src/lib.rs:227-353 | The same as `NamedKeyIsMain`, for the mapped codes outside the families and the keypad. |
| Mappings.KeyPreimage | src/lib.rs:227-353 | A key code maps to a given egui key exactly when its keypad fold is that key's same-named code (both directions). |
| Mappings.PlusEqualsPreimage | src/lib.rs:227-353 | Exactly Equal, KpAdd and KpEqual map to `PlusEquals`. |
| Intake.KeyModifiersIgnoreMask | src/lib.rs:370-374 | The key-event modifier update sets alt, ctrl, shift and command to true whatever the mask, because the test is `|`, and it leaves the macOS command flag as it was. |
| Intake.CommandCoversCtrlAndSuper | src/lib.rs:373-374 | A key event establishes the invariant that command covers ctrl. Command also holds whenever the mask has the super bit, and the macOS command flag is unchanged. |
| Intake.CommandCoversCtrlPreserved | src/lib.rs:356-596 | Every event keeps the modifier invariant: if command covered ctrl before, it still does. |
| Intake.TouchEvents | src/lib.rs:494-509 | A touch loop pushes at most one event per point. Every event pushed is a touch with the loop's phase, force 0.0 and the fake device id 1337. |
| Intake.EventStep | src/lib.rs:356-596 | `event` only appends to the buffer, and the old buffer is a prefix of the new one. Anything appended makes the event handled. Only a wanted key-down or key-up changes the modifiers. Only the six focus events change the focus flag. |
| Intake.MouseIntake | src/lib.rs:441-492 | Each mouse event appends exactly one event and is handled, whether or not egui wants pointer input; it leaves the modifiers and focus alone. Down pushes a button event with `pressed: false`, up one with `pressed: true`. Scroll pushes the scroll vector. Move and enter push the position. Leave pushes `PointerGone`. |
| Intake.KeyboardNotWanted | src/lib.rs:362-433 | While egui does not want the keyboard, key-down, key-up and character events change nothing and are not handled. |
| Intake.KeyTransitionWanted | src/lib.rs:364-417 | A wanted key-down or key-up overwrites the modifiers from the mask. It appends a key event exactly when the code maps, with the new modifiers, the repeat flag and `pressed: false`. It is handled even when the code does not map. |
| Intake.CharWanted | src/lib.rs:419-430 | A wanted character event appends the one-character text, and is handled, exactly when the code is a Unicode scalar value. Otherwise it changes nothing. |
| Intake.WindowIntake | src/lib.rs:567-583 | Resized and the six focus events are handled and append nothing. Iconified, Unfocused and Suspended clear the focus flag. Restored, Focused and Resumed set it. Resized keeps it. |
| Intake.UnhandledEvents | src/lib.rs:584-593 | QuitRequested, ClipboardPasted, FilesDropped, Invalid and Num are not handled and change nothing. |
| Intake.ChangedIndices | src/lib.rs:494-561 | The positions of the changed points in a batch, strictly increasing: every changed point's position appears, and no other. |
| Intake.TouchEventsSelectChanged | src/lib.rs:494-561 | A touch loop pushes exactly one event per changed point, in batch order: the k-th event is the touch event of the k-th changed point. |
| Intake.TouchEventsEmpty | src/lib.rs:494-561 | A touch loop pushes something exactly when some point in the batch has changed. |
| Intake.TouchIntake | src/lib.rs:494-561 | A touch event appends the events of the changed points among the first `num_touches`, in order, with the phase of its type. It leaves the modifiers and focus alone, and is handled exactly when some point among them changed. |
| Bridge.FrameCallbacks | src/lib.rs:55-60 | A frame runs each callback that is set, once. The plain callback runs before the one that also receives the user data, and that one receives the configured user data. No `begin_frame` is among them. |
| Bridge.PlatformRequests | src/lib.rs:82-100 | A frame requests opening egui's URL, with its new-tab flag, only if egui asked for one. It requests copying only the copied text, only when that text is non-empty, and after any URL request. |
| Bridge.State.constructor | src/lib.rs:39 | Before `begin` the state is uninitialised, and the trace of frames and callbacks is empty. |
| Bridge.State.Begin | src/lib.rs:147-165 | `begin` starts, whatever was there before, from an empty buffer, no modifiers, egui's default focus flag, no output and the callbacks of the configuration. Command covers ctrl in the fresh modifiers. |
| Bridge.State.Shutdown | src/lib.rs:167-169 | `shutdown` drops the state, after which it is uninitialised. |
| Bridge.State.Event | src/lib.rs:356-596 | `event`, given an event with the fixed array of eight touch points, updates the buffer, modifiers and focus exactly as `EventStep`. It returns `EventStep`'s handled flag, keeps the invariant that command covers ctrl, and changes nothing else. |
| Bridge.State.KeyboardIntake | src/lib.rs:362-433 | The keyboard block in place matches the keyboard part of `EventStep`. |
| Bridge.State.KeyTransitionIntake | src/lib.rs:364-389 | A key-down or key-up arm in place matches `KeyTransition`, and is handled. |
| Bridge.State.PointerIntake | src/lib.rs:435-563 | The pointer block in place matches the pointer part of `EventStep`. |
| Bridge.State.TouchLoop | src/lib.rs:494-509 | The loop over a touch batch appends exactly `TouchEvents` of the batch, and reports whether it appended anything. |
| Bridge.State.WindowIntake | src/lib.rs:567-593 | The window block in place matches the window part of `EventStep`. |
| Bridge.State.RunCallbacks | src/lib.rs:55-60 | The callback part of `frame` appends `FrameCallbacks` of the configuration to the trace. |
| Bridge.State.ClearEvents | src/lib.rs:62-63 | Clearing leaves the buffer empty, whatever it held, so a repeated clear changes nothing. |
| Bridge.State.Frame | src/lib.rs:41-103 | `frame` first hands egui's `begin_frame` the pending events in order, with the old modifiers and focus, the screen rectangle from (0,0) to the window size, the pixel density and the frame time. After that it runs `FrameCallbacks`, in this order in the one trace, then leaves the buffer empty. It replaces the latest output with `Some` of the new one. It returns the mapped cursor of that output and its `PlatformRequests`. |
| Bridge.State.Draw | src/lib.rs:105-144 | `draw` does nothing before the first frame. Afterwards it updates every texture of the latest output in order, then frees every released texture in order: one operation each, and nothing else. |
| Bridge.KeyDownThenFrame | src/lib.rs:364-389 | A key-down of A with no modifiers is handled. The next frame hands egui exactly one key event for A that is not a repeat, and the buffer is empty afterwards. |
| Bridge.ScrollThenInspect | src/lib.rs:460-466 | A scroll of (1.0, -2.0) yields exactly one scroll event carrying (1.0, -2.0), and is handled. |
| Bridge.FrameTwice | src/lib.rs:41-103 | Two frames with no input between add exactly this to the trace: the first `begin_frame` with the pending events, the callbacks, the second `begin_frame` with no events, and the callbacks again. |
| Bridge.DrawBeforeFirstFrame | src/lib.rs:105-108 | `draw` right after `begin` dispatches no texture operation. |
| Bridge.BeginTwice | src/lib.rs:147-165 | A second `begin` without `shutdown` is not an error. It drops the pending events and the output, and installs the second configuration. |

## Left out

- `examples/main_test.rs` is host wiring: the sokol-app run loop, the gfx pass setup and a print when an event goes unhandled. It has no logic of its own, and it is not part of this model.
- egui internals are opaque: `Context`, `begin_frame`, `end_frame`, `wants_keyboard_input` and `wants_pointer_input`. Their results are parameters, and what `begin_frame` receives is recorded in a ghost trace.
- egui's `RawInput::default()` is not visible. `Begin` takes its focus flag as a parameter. Its modifiers are taken as all off, and its event list as empty.
- The `*const egui::Context` handed to each callback is not modelled. Neither is anything a callback might do, including calling back into the bridge. Only which callbacks ran, in order, with which user data, is recorded.
- Floating-point values (positions, scroll deltas, window size, pixel density, frame time, touch force) are IEEE 754 single-precision bit patterns, carried through and never computed on. The `f64` to `f32` cast of `frame_duration` is outside the model, and `Frame` receives the already-cast value.
- `Bridge.State.Frame` does not model the commented-out handling of egui's output events.
- `Bridge.State.Draw`: texture pixel data, mesh drawing and the `repaint_after` check are out of scope. The source leaves them empty or commented out, so `TextureOp` carries only the texture id, position and options.
- `Bridge.State.Shutdown`: the `unsafe` `MaybeUninit` singleton becomes one `State` object with a ghost `initialized` flag. Reading the state before `begin` or after `shutdown` is undefined behaviour in the source, so it becomes the precondition `initialized`. Dropping the egui context is only `initialized := false`.
- Numeric values of the sokol and egui enumerations are not modelled. Only the variants and how they map are.
- A `num_touches` outside `0..=|touches|` makes the source's slice panic. `Event` and `EventStep` require it to be in range.
