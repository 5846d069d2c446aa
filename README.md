# A verified model of a small pygame UI toolkit

This project models the bookkeeping and the widget state machines of a small
UI toolkit written in Python on top of pygame. It also models the toolkit's
helpers for shapes, game states, clamping and interpolation, and JSON
persistence. Nothing is drawn: pygame's rectangles, events and callbacks
become plain values.

- **Scene and canvas** (`UiScene`, scene.dfy). A `Scene` holds every graphic's
  `visible` flag, parent and panel-ness. `is_rendered` is a recursive function
  through the parent chain, and a ghost rank keeps that chain acyclic.
  `Canvas` is the ordered registry of drawables, with append,
  first-occurrence remove, replace and a filtered draw pass.
- **Event dispatch** (`UiEvents`, event_manager.dfy). `EventManager` holds the
  user callbacks, the UI listeners and the quit callback.
  - `HandleEvents` consumes a queue of events.
  - It returns the trace of dispatches and a `stopped` flag, which stands in
    for `pygame.quit()` and `sys.exit()`.
  - The trace is proved equal to a pure `Dispatched` function, and lemmas
    characterise that function.
- **Widget state machines** (`Widgets`, widgets.dfy). Pure step functions for
  the button (both guard disciplines), the check box and the input box. They
  come with lemmas over single events and over runs of events. Callback
  invocations are returned as a sequence of `Call(callback, argument)`.
- **Widget objects of utils/ui.py** (`UiWidgets`, ui_widgets.dfy). `Label`,
  `Button`, `CheckBox` and `InputBox` are classes whose methods update their
  fields in place. Each handler is proved against the step functions above.
  Every constructor registers its widget with the scene and the canvas, as
  `Graphic.__init__` does. Buttons, check boxes and input boxes are also
  event listeners, so they are registered with the event manager too; labels
  are not.
- **Widget objects of pygame_utils.py** (`PygameUtils`, pygame_utils.dfy). This
  is the older variant:
  - the label offset table of `set_label_pos`;
  - float positions, modelled over `real`;
  - a button handler that clears `pressed` even while disabled;
  - an input box with no visibility guard.
- **Shapes** (`Shape`, shape.dfy). `Circle.move` and `Square.move`, which
  branch on Python truthiness, so a zero coordinate counts as "not given".
  pygame_utils.py contains the same two classes with the same `move`. They are
  modelled once, here.
- **Game states** (`GameState`, state.dfy). Push and pop on the shared
  `state_stack` list. Exiting a state empties the canvas registry.
- **Math** (`MathUtils`, math.dfy). `clamp`, `clamp_01` and `lerp` over `real`.
- **JSON persistence** (`JsonSave`, json_save.dfy). The file system is a map
  from path to `Missing | EmptyOrCorrupt | Obj(dict)`. Every operation reads
  the dictionary, changes it and writes it back. json_save.py and
  utils/json_save.py are the same file, so one model serves both.

Integers are unbounded and pygame's `w / 2` on a `Rect` is modelled as C
division, which truncates toward zero (`Geometry.Half`). The mouse position is
a parameter of the handlers.

## Model

| member | source | states |
|---|---|---|
| Geometry.AnchorNamed | utils/ui.py:31-43 | a string names an anchor exactly when it is one of the nine alignment names, and then it names that one |
| Geometry.RectAnchoredAt | utils/ui.py:367-369 | `get_rect(**{anchor: pos})` keeps the image size and puts the named anchor point of the rect on `pos` |
| Geometry.BoxAnchoredAt | pygame_utils.py:124-126 | the same placement over real coordinates: size kept, named anchor point on the position |
| Geometry.Contains | utils/ui.py:485 | `Rect.collidepoint`: only a rect of positive width and height contains any point |
| Geometry.ContainsHalfOpen | utils/ui.py:496-503 | a non-empty rect contains its top-left corner, while points on its right or bottom edge lie outside |
| Events.Invoke | utils/ui.py:513-515 | a callback that is not set is skipped; one that is set is called exactly once with the argument |
| UiScene.Chain | utils/ui.py:225-229 | the chain `is_rendered` walks starts at the element and stays among registered graphics of no higher rank |
| UiScene.Rendered | utils/ui.py:225-229 | a rendered graphic is visible; without a parent it is rendered iff visible; with one, being rendered needs the parent rendered |
| UiScene.RenderedIsChainVisible | utils/ui.py:225-229 | `is_rendered` holds iff the element and every ancestor are visible |
| UiScene.WithVisibleKeepsChain | utils/ui.py:218-223 | setting a `visible` flag keeps the parent relation acyclic and leaves every ancestor chain as it was |
| UiScene.ToggleEffect | utils/ui.py:225-229 | after setting one flag, an element is rendered iff its chain is visible with that one flag replaced |
| UiScene.ToggleAncestor | utils/ui.py:225-229 | on an otherwise visible chain, setting an ancestor's flag makes the descendant's `is_rendered` equal to it, and the descendant's own flag stays unchanged |
| UiScene.ToggleOutsideChain | utils/ui.py:225-229 | setting the flag of a graphic outside an element's chain leaves the element's `is_rendered` unchanged |
| UiScene.Reparented | utils/ui.py:234-237 | `set_parent` changes only that graphic's parent and appends it to the children of a panel parent (`add_child_element`, utils/ui.py:297-298); every flag, panel flag and other children list stays, so a former parent keeps the child in its list |
| UiScene.RerankValid | utils/ui.py:234-237 | moving a graphic under a parent that is not its descendant keeps the parent relation acyclic |
| UiScene.FreshNotInChain | utils/ui.py:212-215 | a newly constructed graphic keeps the relation acyclic and lies on no existing graphic's chain |
| UiScene.Scene.Add | utils/ui.py:212-215 | a new graphic is visible, gets its parent, and fails exactly when the parent is not a panel |
| UiScene.Scene.IsRendered | utils/ui.py:225-229 | `g.is_rendered` holds iff every graphic on its parent chain, itself included, is visible |
| UiScene.Scene.SetVisible | utils/ui.py:222-223 | the `visible` setter changes one flag and keeps acyclicity |
| UiScene.Scene.SetParent | utils/ui.py:234-237 | the parent link is set even when `add_child_element` fails, which it does exactly for a non-panel parent |
| UiScene.FirstIndex | utils/ui.py:265-266 | the index `list.remove` deletes: it holds the element and no earlier position does |
| UiScene.RemoveFirst | utils/ui.py:265-266 | `list.remove` deletes exactly the first occurrence: the result is the list with position `FirstIndex` cut out, so order is kept, the length drops by one and the multiset loses one copy |
| UiScene.AddThenRemove | utils/ui.py:261-266 | removing an element just appended to a list that lacked it restores the list |
| UiScene.RenderedOnly | utils/ui.py:269-276 | the draw pass keeps only rendered registry entries, all from the registry |
| UiScene.RenderedOnlyConcat | utils/ui.py:269-276 | the draw pass preserves registry order: filtering distributes over concatenation |
| UiScene.RenderedOnlyCount | utils/ui.py:269-276 | every entry is drawn once per occurrence if it is rendered, and never otherwise |
| UiScene.Canvas.UpdateManagedObjects | utils/ui.py:257-258 | the registry is replaced wholesale |
| UiScene.Canvas.AddManagedObject | utils/ui.py:261-262 | the graphic is appended at the end |
| UiScene.Canvas.RemoveManagedObject | utils/ui.py:265-266 | the registry becomes `RemoveFirst` of the old one, which cuts out the first occurrence and keeps the order of the rest; the call fails, changing nothing, when the graphic is absent |
| UiScene.Canvas.Draw | utils/ui.py:269-276 | the graphics drawn are the rendered registry entries in registry order, none for an empty registry |
| UiScene.NewGraphic | utils/ui.py:212-215 | constructing a graphic registers it in the scene and appends it once to the canvas |
| UiScene.OverrideRendering | utils/ui.py:231-232 | `_override_rendering` makes the canvas `RemoveFirst` of the old registry, so only the graphic's first entry goes and order is kept; an unregistered graphic fails and changes nothing |
| UiEvents.FuncCalls | utils/ui.py:201-203 | each event goes to every user callback, in list order |
| UiEvents.ListenerCalls | utils/ui.py:204-208 | each event goes to every UI listener, in list order |
| UiEvents.FanOut | utils/ui.py:201-208 | one event reaches every user callback, in list order, and then every listener, in list order, and nothing else |
| UiEvents.Dispatched | utils/ui.py:193-208 | the loop stops iff a quit event lies ahead; without one, every event causes one dispatch per callback and per listener |
| UiEvents.FirstQuit | utils/ui.py:193-200 | the position of the first quit event, or the queue length when there is none |
| UiEvents.FanOutsCons | utils/ui.py:193-208 | the dispatches for a range of events are those of the first event followed by those of the rest |
| UiEvents.FanOutsEvents | utils/ui.py:193-208 | the dispatches for a range of events mention only events of that range |
| UiEvents.DispatchedExact | utils/ui.py:193-208 | the trace is the fan-out of every event before the first quit, then the quit callback; it stops iff a quit occurs |
| UiEvents.HandleEventsContract | utils/ui.py:193-208 | it stops iff the queue holds a quit; no event at or after the first quit is dispatched; `on_quit`, if set, is called once and last |
| UiEvents.EventManager.constructor | utils/ui.py:106-108 | no quit callback and both lists empty |
| UiEvents.EventManager.UpdateManagedObjects | utils/ui.py:111-124 | the listener list is replaced; the callbacks stay |
| UiEvents.EventManager.AddManagedObject | utils/ui.py:127-140 | the listener is appended at the end |
| UiEvents.EventManager.SetEvents | utils/ui.py:143-165 | a falsy argument leaves the callbacks unchanged; a list replaces them, a single callback becomes a one-element list; `on_quit` is always overwritten |
| UiEvents.EventManager.AddEvent | utils/ui.py:168-182 | the callback is appended at the end |
| UiEvents.EventManager.HandleEvents | utils/ui.py:185-208 | the dispatch trace and the stop flag are exactly those of `Dispatched` over the current lists |
| UiEvents.EventManager.FanOutOf | utils/ui.py:201-208 | one event goes to all callbacks and then to all listeners, in list order |
| Widgets.Mouseover | utils/ui.py:480-486 | no change while disabled or pressed; otherwise the colour is the hover colour iff the pointer is inside, else the normal colour |
| Widgets.MouseoverIdempotent | utils/ui.py:480-486 | a second `mouseover` with the same pointer changes nothing |
| Widgets.Press | utils/ui.py:506-508 | `button_press` sets `pressed` and the pressed colour and keeps the disabled flag |
| Widgets.UiHandle | utils/ui.py:488-511 | a no-op while disabled or not rendered; a click happens iff a left release lands inside; a left press inside sets `pressed` and the pressed colour, a left release clears `pressed`; any other event changes nothing |
| Widgets.LegacyHandle | pygame_utils.py:238-258 | a left press inside an enabled button sets `pressed` and the pressed colour; a left release always clears `pressed`, even while disabled; the callback fires iff a left release lands inside an enabled button; any other event changes nothing |
| Widgets.HandlersAgree | pygame_utils.py:238-251 | for an enabled, rendered button the two handlers react identically |
| Widgets.DisabledRelease | utils/ui.py:488-490 | a disabled pressed button stays pressed in utils/ui.py but is released by pygame_utils.py |
| Widgets.DisabledUiRunInert | utils/ui.py:488-490 | any run of events leaves a disabled button unchanged and never clicks |
| Widgets.ClicksAtMostReleases | utils/ui.py:497-504 | a run of events clicks at most once per left release |
| Widgets.CheckBoxCallBack | utils/ui.py:536-538 | `is_on` is negated first and the new value is what the callback receives |
| Widgets.CheckBoxRunParity | utils/ui.py:536-538 | after a run, `is_on` is flipped iff the clicks are odd, and the callback sees alternating values, starting from the negation |
| Widgets.BorderFor | utils/ui.py:608-609 | the border colour is the active colour iff the box is active |
| Widgets.DropLast | utils/ui.py:595 | `text[:-1]` drops the last character and leaves empty text empty |
| Widgets.Submit | utils/ui.py:602-606 | `on_submit` gets the text, then the text is cleared, the box deactivated and the border set to inactive |
| Widgets.InputHandle | pygame_utils.py:319-343 | a mouse-down makes the border follow `active`; a key while inactive changes nothing; an event that is neither a mouse-down nor a key changes nothing and calls nothing; at most one callback per event |
| Widgets.UiInputHandle | utils/ui.py:574-576 | a box that is not rendered ignores every event |
| Widgets.MouseDownFocus | utils/ui.py:577-586 | a click inside (any button) calls `on_select` with the text and toggles `active`; a click outside deactivates, with no callback |
| Widgets.TypingAppends | utils/ui.py:596-598 | typed keys are appended in order, and `on_value_change` sees each pre-edit text |
| Widgets.TypeThenBackspace | utils/ui.py:593-598 | typing one character and then backspace restores the text |
| Widgets.BackspaceDrops | utils/ui.py:593-595 | `on_delete` gets the pre-edit text, then the last character is dropped |
| Widgets.ReturnSubmits | utils/ui.py:590-592 | Return submits when `submit_on_return` is set and does nothing otherwise |
| Widgets.DrawWidth | utils/ui.py:567-569 | the drawn width is the larger of the configured width and the text width plus 10 |
| UiWidgets.PlacedRect | utils/ui.py:367-369 | a rect exists iff the anchor is a valid name, and it has the image size with that anchor point on the position |
| UiWidgets.Label.constructor | utils/ui.py:356-365 | text, anchor and position are stored and the text rect is placed by them |
| UiWidgets.Label.Render | utils/ui.py:367-369 | the text rect is re-derived from the anchor and the position; an invalid anchor fails and changes nothing |
| UiWidgets.Label.SetPosition | utils/ui.py:390-401 | the position is set, the anchor changes only for a truthy argument, and the rect's anchor point lands on the position |
| UiWidgets.NewLabel | utils/ui.py:355-365 | the label is a scene node (appended to a panel parent's children) and appended to the canvas, and `_render` places it; it succeeds iff the parent is a panel (or absent) and the anchor is valid; a non-panel parent changes nothing |
| UiWidgets.Button.constructor | utils/ui.py:405-438 | the button starts unpressed, with the given disabled flag and the disabled colour |
| UiWidgets.Button.SetDisabled | utils/ui.py:445-447 | the flag is set and the colour becomes the disabled colour, for either value |
| UiWidgets.Button.Mouseover | utils/ui.py:480-486 | the state becomes `Widgets.Mouseover` of the old state |
| UiWidgets.Button.ButtonPress | utils/ui.py:506-508 | `pressed` is set and the colour becomes the pressed colour |
| UiWidgets.Button.ButtonRelease | utils/ui.py:510-511 | `pressed` is cleared and nothing else changes |
| UiWidgets.Button.Step | utils/ui.py:488-511 | new state and click are `Widgets.UiHandle` of the old state and the button's `is_rendered` |
| UiWidgets.Button.HandleEvent | utils/ui.py:488-515 | as `Step`, and the click calls `on_click` once with no argument |
| UiWidgets.Button.SetLabelPos | utils/ui.py:449-464 | the label's anchor point lands on the same-named point of the button rect; a name that is not an anchor raises `AlignmentNotSupportedError` |
| UiWidgets.NewButton | utils/ui.py:405-438 | the button becomes a scene node and is appended to canvas and event manager; its label leaves the canvas and is placed as `SetLabelPos` says; it succeeds iff the parent is a panel (or absent) and, with a label, the label is registered and both its anchor and the alignment are valid; each failure is the matching error |
| UiWidgets.CheckBox.constructor | utils/ui.py:519-529 | a button with no label, the given alignment, palette and `is_on` |
| UiWidgets.CheckBox.HandleEvent | utils/ui.py:536-538 | the button reacts as `UiHandle`; a click toggles `is_on` and passes the new value |
| UiWidgets.NewCheckBox | utils/ui.py:519-529 | through `Button.__init__` with no label, the check box becomes a scene node and is appended to canvas and event manager with the given `is_on`; a non-panel parent is an error that changes nothing |
| UiWidgets.InputBox.constructor | utils/ui.py:542-565 | inactive, with the inactive border and the given text |
| UiWidgets.InputBox.SetBorderState | utils/ui.py:608-609 | the border follows `active` and nothing else changes |
| UiWidgets.InputBox.Submit | utils/ui.py:602-606 | the state becomes `Widgets.Submit` of the old state |
| UiWidgets.InputBox.HandleEvent | utils/ui.py:574-600 | state and callbacks are `Widgets.UiInputHandle` with the box's `is_rendered` |
| UiWidgets.InputBox.Draw | utils/ui.py:567-569 | only the rect width changes, to `DrawWidth` |
| UiWidgets.NewInputBox | utils/ui.py:542-565 | the box becomes a scene node and is appended to canvas and event manager, with its config and rect; a non-panel parent is an error that changes nothing |
| PygameUtils.LabelOffsetIsAnchorOffset | pygame_utils.py:199-216 | the offset table agrees with the anchor point of a box of the button's size; every other string, "topleft" included, gives (0, 0) |
| PygameUtils.LabelOffset | pygame_utils.py:199-216 | each component of the offset is 0, half or all of the button size on that axis, and "topleft" gets (0, 0) |
| PygameUtils.LabelPosition | pygame_utils.py:217-218 | the label is moved from its current position by the button position plus the offset |
| PygameUtils.LabelPlacement | pygame_utils.py:217-218 | from a label at (0, 0) the label lands on the button's anchor point; a second call adds the offset again |
| PygameUtils.PlacedBox | pygame_utils.py:124-126 | a box exists iff the anchor is valid, and then its anchor point is the position |
| PygameUtils.Label.constructor | pygame_utils.py:114-122 | text, anchor and position are stored and the text rect is placed by them |
| PygameUtils.Label.Render | pygame_utils.py:124-126 | the text rect is re-derived; an invalid anchor fails and changes nothing |
| PygameUtils.Label.SetPosition | pygame_utils.py:147-158 | the position is set, the anchor changes only for a truthy argument, and the rect is re-derived so that its anchor point is the position |
| PygameUtils.NewLabel | pygame_utils.py:113-122 | a label exists iff the anchor is valid |
| PygameUtils.Button.constructor | pygame_utils.py:162-183 | the button starts unpressed, with the given disabled flag and the disabled colour |
| PygameUtils.Button.SetDisabled | pygame_utils.py:185-187 | the flag is set and the colour becomes the disabled colour |
| PygameUtils.Button.Mouseover | pygame_utils.py:230-236 | the state becomes `Widgets.Mouseover` of the old state |
| PygameUtils.Button.Step | pygame_utils.py:238-258 | new state and click are `Widgets.LegacyHandle` of the old state |
| PygameUtils.Button.HandleEvent | pygame_utils.py:238-262 | as `Step`, and the click calls `on_click` once |
| PygameUtils.Button.SetLabelPos | pygame_utils.py:189-218 | the label moves to button position + old label position + offset, with the alignment as anchor |
| PygameUtils.NewButton | pygame_utils.py:161-183 | the button keeps the given callback, palette, position and size, with `rect` built from them, and starts unpressed with the disabled colour; the label moves by button position plus offset, takes the alignment as anchor when it is non-empty, and its text rect is placed on its new position; construction fails iff there is a label whose anchor, after placement, is not an anchor name |
| PygameUtils.CheckBox.constructor | pygame_utils.py:266-276 | a button with no label and the given `is_on` |
| PygameUtils.CheckBox.HandleEvent | pygame_utils.py:283-285 | the button reacts as `LegacyHandle`; a click toggles `is_on` and passes the new value |
| PygameUtils.InputBox.constructor | pygame_utils.py:289-310 | inactive, with the inactive border and the given text |
| PygameUtils.InputBox.Submit | pygame_utils.py:345-349 | the state becomes `Widgets.Submit` of the old state |
| PygameUtils.InputBox.HandleEvent | pygame_utils.py:319-343 | state and callbacks are `Widgets.InputHandle` with no visibility guard |
| PygameUtils.InputBox.Draw | pygame_utils.py:312-314 | only the rect width changes, to `DrawWidth` |
| Shape.CircleMoved | utils/shape.py:126-131 | both truthy: (x, y); only x truthy: (x, old y); otherwise x kept and y set, raising when y is None |
| Shape.ZeroCoordinateIgnored | utils/shape.py:111-131 | `move(0, v)` keeps x rather than moving to x = 0, unlike what the documentation of `move` says |
| Shape.CircleMoveIdempotent | utils/shape.py:126-131 | repeating a move changes nothing |
| Shape.Circle.Move | utils/shape.py:111-131 | the position becomes `CircleMoved`; radius and colour are constants (`Circle.move` of pygame_utils.py has the same branches) |
| Shape.SquareMoved | utils/shape.py:69-74 | `position` becomes a rect whose top-left is the old position and whose size is the requested pair |
| Shape.SquareMovesOnce | utils/shape.py:69-74 | after one move the position is a rect, and a second move raises |
| Shape.Square.constructor | utils/shape.py:50-52 | `rect` is fixed from the constructor's position and size |
| Shape.Square.Move | utils/shape.py:69-74 | the position becomes `SquareMoved`; `rect` is a constant, so drawing ignores moves (`Square.move` of pygame_utils.py has the same branches) |
| GameState.State.constructor | utils/state.py:25-26 | the shared stack is kept and `prev_state` is None |
| GameState.State.EnterState | utils/state.py:58-60 | the state is appended; `prev_state` becomes the old top only when more than one state was on the stack |
| GameState.State.ExitState | utils/state.py:74-76 | on a non-empty stack the top is popped, whatever it is, and the canvas registry emptied; on an empty stack nothing changes |
| GameState.EnterThenExit | utils/state.py:58-76 | entering and then exiting restores the stack and leaves the canvas registry empty |
| MathUtils.Clamp | utils/math.py:21 | within the bounds when they are ordered; the value itself when it is in range; the lower bound when the bounds cross |
| MathUtils.ClampIdempotent | utils/math.py:21 | clamping twice is clamping once |
| MathUtils.ClampMonotone | utils/math.py:21 | clamping preserves order |
| MathUtils.Clamp01 | utils/math.py:38 | the result lies in [0, 1] and equals the value when it already does |
| MathUtils.Lerp | utils/math.py:65-66 | t at or below 0 gives a; t at or above 1 gives b |
| MathUtils.LerpDocumentedCases | utils/math.py:45-49 | t = 0 gives a, t = 1 gives b, t = 0.5 the midpoint |
| MathUtils.LerpBetween | utils/math.py:65-66 | the result lies between a and b inclusive, for every t |
| JsonSave.SetContentsFs | utils/json_save.py:38-41 | the file is truncated and the dictionary written only when non-empty; no other file changes |
| JsonSave.GetContentsFs | utils/json_save.py:44-54 | the object in the file, or {} when the file is missing or does not decode; a missing file is created empty |
| JsonSave.SaveFs | utils/json_save.py:17-21 | the file then holds the old dictionary (or {}) with the key set; no other file changes |
| JsonSave.DeleteFileFs | utils/json_save.py:67-69 | the file is gone afterwards, no other file changes, and a missing file is a no-op |
| JsonSave.LoadFs | utils/json_save.py:24-35 | `load` fails iff the file exists but does not decode, and then changes nothing; otherwise the file ends up holding the returned value under the key, which is the default or truthy; no other file changes |
| JsonSave.DeleteKeyFs | utils/json_save.py:61-64 | `delete_key` raises `KeyError` iff the key is absent from the stored dictionary; afterwards the key is absent and no other file changes |
| JsonSave.LoadMissing | utils/json_save.py:24-35 | loading from a missing file creates it holding {key: default} and returns the default |
| JsonSave.LoadTruthy | utils/json_save.py:29-35 | a truthy stored value is returned and the file is left unchanged |
| JsonSave.LoadFalsy | utils/json_save.py:32-34 | an absent or falsy value is replaced by the default, other keys are kept, and the default is returned |
| JsonSave.CorruptFileAsymmetry | utils/json_save.py:29-30 | `load` raises on an existing empty or corrupt file, while `get_contents` reads it as {} |
| JsonSave.SaveKeepsOtherKeys | utils/json_save.py:17-21 | the key maps to the value and every other key keeps its value; a file that does not decode starts from {} |
| JsonSave.SaveThenLoad | utils/json_save.py:17-35 | loading a key just saved returns the saved value if truthy, and otherwise the default, which is then stored |
| JsonSave.GetContentsMissing | utils/json_save.py:45-47 | reading a missing file creates a zero-byte file and returns {} |
| JsonSave.DeleteKeyCases | utils/json_save.py:61-64 | an absent key raises, after a missing file is created; otherwise only that key goes, and deleting the last key leaves a zero-byte file |
| JsonSave.SaveThenDeleteKey | utils/json_save.py:61-64 | deleting a key just saved to a non-empty object file that lacked it restores the file |
| JsonSave.JsonStore.SetContents | utils/json_save.py:38-41 | the file system becomes `SetContentsFs` of the old one |
| JsonSave.JsonStore.GetContents | utils/json_save.py:44-54 | file system and result are `GetContentsFs` of the old file system |
| JsonSave.JsonStore.ClearContents | utils/json_save.py:57-58 | the file is truncated to zero bytes |
| JsonSave.JsonStore.Save | utils/json_save.py:17-21 | the file system becomes `SaveFs` of the old one |
| JsonSave.JsonStore.Load | utils/json_save.py:24-35 | file system and result are `LoadFs` of the old file system |
| JsonSave.JsonStore.DeleteKey | utils/json_save.py:61-64 | file system and result are `DeleteKeyFs` of the old file system |
| JsonSave.JsonStore.DeleteFile | utils/json_save.py:67-69 | the file system becomes `DeleteFileFs` of the old one |

## Left out

- Rendering is not modelled: fonts, surfaces, blitting, `pygame.draw`, `UiImage` (load, scale, tint), `Panel._render` and the button image variant of utils/ui.py. The sizes of rendered text images are parameters.
- Floating-point geometry is not modelled: `Alignment.get_center_pos`, the quarter sizes of `CheckBox.tick_rect` and the text offset inside `InputBox.draw`. In utils/ui.py, positions and sizes are integer points. In pygame_utils.py, label positions are reals and button positions integers. Float rounding and `Rect`'s truncation of float arguments are not modelled.
- Process termination is not modelled: `pygame.quit()` and `sys.exit()` in `handle_events` become the returned `stopped` flag.
- Callbacks and listeners are identities, and their effects are not modelled. `HandleEvents` assumes they do not change the lists during dispatch. Exceptions raised by a callback are not modelled.
- UiEvents.EventManager.AddEvent: the source also accepts a list, which it appends as one element; the model takes a single callback.
- UiScene.Scene.SetParent: it requires that the new parent is not a descendant. The source does not check this, and a cycle would make `is_rendered` recurse without end.
- Only the nine alignment names are valid anchors. Any other `Rect` attribute (`x`, `size`, …) that `getattr` or `get_rect` would accept is treated as an error.
- The Button constructors and `SetLabelPos` call the label's rendering, which re-derives only its rect. Re-rendering the text image of an `InputBox` after an edit is not modelled.
- Reflective discovery through `gc.get_objects()` is not modelled: `Canvas.find_managed_objects`, and the `Canvas` and `EventManager` of pygame_utils.py with their constructors and `handle_events`.
- The logger, the window set-up and the application loops are not part of this model.
- The JSON text layer is not modelled: indentation, key sorting, `set_formatting` and `clear_formatting`, top-level JSON that is not an object, and non-string keys. Writing a dictionary and reading it back is taken to give the same dictionary.
- JsonSave.JsonStore.SetContents: `None` and `{}` are modelled as the same argument. Both are falsy and produce a zero-byte file.
- Shape.CircleMoved: `Vector2(x, None)` raising is modelled as a failed move; float coordinates are not modelled.
- Shape.Circle.Move: the position is always a `Vector2`, although the constructor's documentation allows a tuple (utils/shape.py:97-100). A tuple position makes `self.position.y` or `self.position.x` raise `AttributeError` in the branches that read it (utils/shape.py:129-131); the model does not capture this.
- Shape.Square.Move: the position starts as a `Vector2`, although the constructor accepts a tuple (utils/shape.py:34). A tuple position makes the `elif` and `else` branches raise `AttributeError` on `.y` or `.x` (utils/shape.py:72-74); the model does not capture this.
- UiEvents.EventManager.SetEvents, UiEvents.EventManager.UpdateManagedObjects and UiScene.Canvas.UpdateManagedObjects: the source stores the caller's own list object, so later changes made through either reference are seen by both. The model copies the sequence, so it does not capture this aliasing.
