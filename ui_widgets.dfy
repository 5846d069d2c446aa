/**
 * The widgets of utils/ui.py: `Label`, `Button`, `CheckBox` and `InputBox`,
 * as classes whose methods assign the same fields the source assigns, each
 * proved against the state machine of module Widgets.
 *
 * A widget is also a `Graphic` (an entry of the scene and of the Canvas
 * registry) and, except `Label`, a `Graphic_Event` (an entry of the
 * EventManager's listener list); the `New...` methods perform that
 * registration as the constructors in the source do. A rendered label
 * image is given by its size.
 */
module UiWidgets {
  import opened Wrappers
  import opened Geometry
  import opened Events
  import opened Widgets
  import opened UiScene
  import opened UiEvents

  datatype UiError =
    | AlignmentNotSupported(alignment: string)  // AlignmentNotSupportedError from set_label_pos
    | InvalidAnchor(anchor: string)             // get_rect refuses a keyword that is not an anchor
    | ParentNotPanel                            // set_parent on something without add_child_element
    | NotRegistered                             // list.remove of an element that is not there

  /** `image.get_rect(**{anchor: position})` for a w by h image, when the anchor names a point of a rect. */
  function PlacedRect(w: int, h: int, anchor: string, position: Point): (r: Option<Rect>)
    ensures r.Some? <==> AnchorNamed(anchor).Some?
    ensures r.Some? ==> r.value.w == w && r.value.h == h
    ensures r.Some? ==> AnchorPoint(r.value, AnchorNamed(anchor).value) == position
  {
    match AnchorNamed(anchor)
    case None => None
    case Some(a) => Some(RectAnchoredAt(w, h, a, position))
  }

  class Label {
    const id: GraphicId
    var text: string
    var anchor: string
    var position: Point
    const imageW: int
    const imageH: int
    var textRect: Rect

    /** The part of `Label.__init__` after registration: `_render` places the text rectangle. */
    constructor (id: GraphicId, text: string, anchor: string, position: Point, imageW: int, imageH: int)
      requires AnchorNamed(anchor).Some?
      ensures this.id == id && this.text == text && this.anchor == anchor && this.position == position
      ensures this.imageW == imageW && this.imageH == imageH
      ensures Some(textRect) == PlacedRect(imageW, imageH, anchor, position)
    {
      this.id := id;
      this.text := text;
      this.anchor := anchor;
      this.position := position;
      this.imageW := imageW;
      this.imageH := imageH;
      textRect := RectAnchoredAt(imageW, imageH, AnchorNamed(anchor).value, position);
    }

    /** `Label._render`: the text rectangle is placed again at the current anchor and position. */
    method Render() returns (ok: bool)
      modifies this
      ensures ok <==> AnchorNamed(anchor).Some?
      ensures ok ==> Some(textRect) == PlacedRect(imageW, imageH, anchor, position)
      ensures !ok ==> unchanged(this)
      ensures text == old(text) && anchor == old(anchor) && position == old(position)
    {
      var placed := PlacedRect(imageW, imageH, anchor, position);
      if placed.None? {
        return false;
      }
      textRect := placed.value;
      ok := true;
    }

    /**
     * `Label.set_position`. An empty anchor (falsy) keeps the old one. When the
     * resulting anchor is not an anchor name `get_rect` raises: position and
     * anchor are already assigned, the text rectangle is not.
     */
    method SetPosition(pos: Point, newAnchor: string) returns (ok: bool)
      modifies this
      ensures position == pos
      ensures anchor == if newAnchor != "" then newAnchor else old(anchor)
      ensures ok <==> AnchorNamed(anchor).Some?
      ensures ok ==> Some(textRect) == PlacedRect(imageW, imageH, anchor, pos)
      ensures ok ==> AnchorPoint(textRect, AnchorNamed(anchor).value) == pos
      ensures !ok ==> textRect == old(textRect)
      ensures text == old(text)
    {
      position := pos;
      if newAnchor != "" {
        anchor := newAnchor;
      }
      var placed := PlacedRect(imageW, imageH, anchor, position);
      if placed.None? {
        return false;
      }
      textRect := placed.value;
      ok := true;
    }
  }

  /** `Label(...)`: registration as a graphic, then `_render`, which fails on an unknown anchor. */
  method NewLabel(scene: Scene, canvas: Canvas, id: GraphicId, parent: Option<GraphicId>,
                  text: string, anchor: string, position: Point, imageW: int, imageH: int)
    returns (r: Result<Label, UiError>)
    requires scene.Valid() && id !in scene.nodes && (parent.Some? ==> parent.value in scene.nodes)
    modifies scene, canvas
    ensures scene.Valid()
    ensures r.Ok? ==> fresh(r.value) && r.value.id == id && r.value.text == text && r.value.anchor == anchor
    ensures r.Ok? ==> AnchorNamed(anchor).Some? && AnchorPoint(r.value.textRect, AnchorNamed(anchor).value) == position
    ensures r == Err(ParentNotPanel) <==> parent.Some? && !old(scene.nodes)[parent.value].isPanel
    ensures r.Err? && r.error != ParentNotPanel ==> r.error == InvalidAnchor(anchor) && AnchorNamed(anchor).None?
    ensures r.Err? && r.error != ParentNotPanel ==> canvas.graphicElements == old(canvas.graphicElements) + [id]
    ensures r.Ok? <==> (parent.None? || old(scene.nodes)[parent.value].isPanel) && AnchorNamed(anchor).Some?
    ensures r.Ok? ==> r.value.position == position && r.value.imageW == imageW && r.value.imageH == imageH
    ensures r != Err(ParentNotPanel) ==>
              scene.nodes == Reparented(old(scene.nodes)[id := Graphic(true, None, false, [])], id, parent)
    ensures r != Err(ParentNotPanel) ==> id in scene.nodes && canvas.graphicElements == old(canvas.graphicElements) + [id]
    ensures r == Err(ParentNotPanel) ==> scene.nodes == old(scene.nodes) && canvas.graphicElements == old(canvas.graphicElements)
  {
    var ok := NewGraphic(scene, canvas, id, parent, false);
    if !ok {
      return Err(ParentNotPanel);
    }
    if AnchorNamed(anchor).None? {
      return Err(InvalidAnchor(anchor));
    }
    var textLabel := new Label(id, text, anchor, position, imageW, imageH);
    r := Ok(textLabel);
  }

  class Button {
    const id: GraphicId
    const func: Option<CallbackId>
    const rect: Rect
    const palette: Palette
    const textLabel: Label?
    const labelAlignment: string
    var pressed: bool
    var disabled: bool
    var currentColor: Color

    function State(): ButtonState
      reads this
    {
      ButtonState(pressed, disabled, currentColor)
    }

    /**
     * The field assignments of `Button.__init__` without an image: the rect is
     * `Rect(position, size)`, and `set_disabled` leaves the disabled colour
     * showing whether or not the button starts disabled.
     */
    constructor (id: GraphicId, func: Option<CallbackId>, position: Point, size: Point, palette: Palette,
                 disabled: bool, textLabel: Label?, labelAlignment: string)
      ensures this.id == id && this.func == func && this.palette == palette
      ensures this.textLabel == textLabel && this.labelAlignment == labelAlignment
      ensures rect == Rect(position.x, position.y, size.x, size.y)
      ensures State() == ButtonState(false, disabled, palette.disabled)
    {
      this.id := id;
      this.func := func;
      rect := Rect(position.x, position.y, size.x, size.y);
      this.palette := palette;
      this.textLabel := textLabel;
      this.labelAlignment := labelAlignment;
      currentColor := palette.color;
      pressed := false;
      new;
      SetDisabled(disabled);
    }

    /** `Button.set_disabled`: the colour becomes the disabled colour for either value of the flag. */
    method SetDisabled(d: bool)
      modifies this
      ensures State() == ButtonState(old(pressed), d, palette.disabled)
    {
      disabled := d;
      currentColor := palette.disabled;
    }

    /** `Button.mouseover` at the given pointer position. */
    method Mouseover(pointer: Point)
      modifies this
      ensures State() == Widgets.Mouseover(old(State()), palette, rect, pointer)
    {
      if disabled || pressed {
        return;
      }
      currentColor := palette.color;
      if Contains(rect, pointer) {
        currentColor := palette.hover;
      }
    }

    /** `Button.button_press`. */
    method ButtonPress()
      modifies this
      ensures State() == Press(old(State()), palette)
    {
      pressed := true;
      currentColor := palette.pressed;
    }

    /** `Button.button_release`. */
    method ButtonRelease()
      modifies this
      ensures State() == old(State()).(pressed := false)
    {
      pressed := false;
    }

    /**
     * `Button.handle_event` up to the point where it would run `call_back`:
     * `clicked` says whether it does. The pointer is `pygame.mouse.get_pos()`.
     */
    method Step(e: Event, pointer: Point, scene: Scene) returns (clicked: bool)
      requires scene.Valid() && id in scene.nodes
      modifies this
      ensures Reaction(State(), clicked) == UiHandle(old(State()), palette, rect, e, pointer, scene.IsRendered(id))
    {
      clicked := false;
      if disabled || !scene.IsRendered(id) {
        return;
      }
      match e {
        case MouseDown(button, _) =>
          if button != LEFT_BUTTON {
            return;
          }
          if Contains(rect, pointer) {
            ButtonPress();
          }
        case MouseUp(button) =>
          if button != LEFT_BUTTON {
            return;
          }
          ButtonRelease();
          if Contains(rect, pointer) {
            clicked := true;
          }
        case _ =>
      }
    }

    /** `Button.handle_event` with `Button.call_back`: `on_click` is called with no argument. */
    method HandleEvent(e: Event, pointer: Point, scene: Scene) returns (calls: seq<Call>)
      requires scene.Valid() && id in scene.nodes
      modifies this
      ensures var r := UiHandle(old(State()), palette, rect, e, pointer, scene.IsRendered(id));
              State() == r.state && calls == (if r.clicked then Invoke(func, NoArg) else [])
    {
      var clicked := Step(e, pointer, scene);
      calls := [];
      if clicked {
        calls := Invoke(func, NoArg);
      }
    }

    /**
     * `Button.set_label_pos`: the label's anchor point is put on the point of
     * the same name of the button's rect; a name that is not an anchor raises
     * `AlignmentNotSupportedError` before the label is touched.
     */
    method SetLabelPos() returns (r: Result<(), UiError>)
      modifies textLabel
      ensures textLabel == null ==> r.Ok?
      ensures textLabel != null && AnchorNamed(labelAlignment).None? ==>
                r == Err(AlignmentNotSupported(labelAlignment)) && unchanged(textLabel)
      ensures textLabel != null && AnchorNamed(labelAlignment).Some? ==>
                var a := AnchorNamed(labelAlignment).value;
                && r.Ok?
                && textLabel.anchor == labelAlignment
                && textLabel.position == AnchorPoint(rect, a)
                && AnchorPoint(textLabel.textRect, a) == AnchorPoint(rect, a)
                && textLabel.text == old(textLabel.text)
    {
      if textLabel == null {
        return Ok(());
      }
      var a := AnchorNamed(labelAlignment);
      if a.None? {
        return Err(AlignmentNotSupported(labelAlignment));
      }
      var ok := textLabel.SetPosition(AnchorPoint(rect, a.value), labelAlignment);
      r := Ok(());
    }
  }

  /**
   * `Button(...)` without an image: registration as a graphic and as an event
   * listener, the field assignments, then the label (if any) leaves the Canvas
   * registry, is rendered again and is placed on the button. A failure after registration leaves
   * the half-built button registered, as the raised exception does.
   */
  method NewButton(scene: Scene, canvas: Canvas, events: EventManager, id: GraphicId, parent: Option<GraphicId>,
                   func: Option<CallbackId>, position: Point, size: Point, palette: Palette, disabled: bool,
                   textLabel: Label?, labelAlignment: string)
    returns (r: Result<Button, UiError>)
    requires scene.Valid() && id !in scene.nodes && (parent.Some? ==> parent.value in scene.nodes)
    modifies scene, canvas, events, textLabel
    ensures scene.Valid()
    ensures r == Err(ParentNotPanel) <==> parent.Some? && !old(scene.nodes)[parent.value].isPanel
    ensures r != Err(ParentNotPanel) ==> events.graphicEvents == old(events.graphicEvents) + [id]
    ensures r == Err(ParentNotPanel) ==>
              scene.nodes == old(scene.nodes) && canvas.graphicElements == old(canvas.graphicElements)
              && events.graphicEvents == old(events.graphicEvents)
    ensures r != Err(ParentNotPanel) ==>
              id in scene.nodes && scene.nodes == Reparented(old(scene.nodes)[id := Graphic(true, None, false, [])], id, parent)
    ensures r == Err(NotRegistered) <==>
              (parent.None? || old(scene.nodes)[parent.value].isPanel)
              && textLabel != null && textLabel.id !in old(canvas.graphicElements) + [id]
    ensures r.Err? && r.error.InvalidAnchor? ==> textLabel != null && AnchorNamed(old(textLabel.anchor)).None?
    ensures r.Err? && r.error.AlignmentNotSupported? ==> r.error.alignment == labelAlignment && AnchorNamed(labelAlignment).None?
    ensures r.Ok? <==>
              && (parent.None? || old(scene.nodes)[parent.value].isPanel)
              && (textLabel != null ==>
                    && textLabel.id in old(canvas.graphicElements) + [id]
                    && AnchorNamed(old(textLabel.anchor)).Some?
                    && AnchorNamed(labelAlignment).Some?)
    ensures r.Ok? ==> fresh(r.value) && r.value.id == id && r.value.textLabel == textLabel
    ensures r.Ok? ==> r.value.func == func && r.value.palette == palette && r.value.labelAlignment == labelAlignment
    ensures r.Ok? ==> r.value.rect == Rect(position.x, position.y, size.x, size.y)
    ensures r.Ok? && textLabel != null ==>
              var a := AnchorNamed(labelAlignment).value;
              && textLabel.anchor == labelAlignment
              && textLabel.position == AnchorPoint(r.value.rect, a)
              && AnchorPoint(textLabel.textRect, a) == AnchorPoint(r.value.rect, a)
              && textLabel.text == old(textLabel.text)
    ensures r.Ok? ==> r.value.State() == ButtonState(false, disabled, palette.disabled)
    ensures r.Ok? && textLabel != null ==> textLabel.id in old(canvas.graphicElements) + [id]
    ensures r.Ok? ==> canvas.graphicElements ==
                      (if textLabel == null then old(canvas.graphicElements) + [id]
                       else RemoveFirst(old(canvas.graphicElements) + [id], textLabel.id))
  {
    var ok := NewGraphic(scene, canvas, id, parent, false);
    if !ok {
      return Err(ParentNotPanel);
    }
    events.AddManagedObject(id);
    var b := new Button(id, func, position, size, palette, disabled, textLabel, labelAlignment);
    if textLabel != null {
      ok := OverrideRendering(canvas, textLabel.id);
      if !ok {
        return Err(NotRegistered);
      }
      var rendered := textLabel.Render();
      if !rendered {
        return Err(InvalidAnchor(textLabel.anchor));
      }
    }
    var placed := b.SetLabelPos();
    if placed.Err? {
      return Err(placed.error);
    }
    r := Ok(b);
  }

  /** `CheckBox`: a button without a label whose `call_back` toggles `is_on` and reports the new value. */
  class CheckBox {
    const button: Button
    var isOn: bool

    constructor (id: GraphicId, func: Option<CallbackId>, position: Point, size: Point, palette: Palette,
                 disabled: bool, isOn: bool, labelAlignment: string)
      ensures fresh(button) && button.id == id && button.func == func && button.textLabel == null
      ensures button.palette == palette && button.labelAlignment == labelAlignment
      ensures button.rect == Rect(position.x, position.y, size.x, size.y)
      ensures button.State() == ButtonState(false, disabled, palette.disabled)
      ensures this.isOn == isOn
    {
      button := new Button(id, func, position, size, palette, disabled, null, labelAlignment);
      this.isOn := isOn;
    }

    /** `Button.handle_event` dispatching to `CheckBox.call_back`. */
    method HandleEvent(e: Event, pointer: Point, scene: Scene) returns (calls: seq<Call>)
      requires scene.Valid() && button.id in scene.nodes
      modifies this, button
      ensures var r := UiHandle(old(button.State()), button.palette, button.rect, e, pointer, scene.IsRendered(button.id));
              && button.State() == r.state
              && (isOn, calls) == if r.clicked then CheckBoxCallBack(old(isOn), button.func) else (old(isOn), [])
    {
      var clicked := button.Step(e, pointer, scene);
      calls := [];
      if clicked {
        isOn := !isOn;
        calls := Invoke(button.func, Flag(isOn));
      }
    }
  }

  /**
   * `CheckBox(...)`: `Button.__init__` without an image and without a label
   * registers it as a graphic and as an event listener; `set_label_pos` then
   * returns at once, so the alignment (by default "midleft") is never looked up.
   */
  method NewCheckBox(scene: Scene, canvas: Canvas, events: EventManager, id: GraphicId, parent: Option<GraphicId>,
                     func: Option<CallbackId>, position: Point, size: Point, palette: Palette, disabled: bool,
                     isOn: bool, labelAlignment: string)
    returns (r: Result<CheckBox, UiError>)
    requires scene.Valid() && id !in scene.nodes && (parent.Some? ==> parent.value in scene.nodes)
    modifies scene, canvas, events
    ensures scene.Valid()
    ensures r.Err? <==> parent.Some? && !old(scene.nodes)[parent.value].isPanel
    ensures r.Err? ==> r.error == ParentNotPanel && scene.nodes == old(scene.nodes)
                       && canvas.graphicElements == old(canvas.graphicElements)
                       && events.graphicEvents == old(events.graphicEvents)
    ensures r.Ok? ==> id in scene.nodes && scene.nodes == Reparented(old(scene.nodes)[id := Graphic(true, None, false, [])], id, parent)
    ensures r.Ok? ==> canvas.graphicElements == old(canvas.graphicElements) + [id]
    ensures r.Ok? ==> events.graphicEvents == old(events.graphicEvents) + [id]
    ensures r.Ok? ==> fresh(r.value) && fresh(r.value.button) && r.value.button.id == id && r.value.button.textLabel == null
    ensures r.Ok? ==> r.value.button.func == func && r.value.button.palette == palette
    ensures r.Ok? ==> r.value.button.rect == Rect(position.x, position.y, size.x, size.y)
    ensures r.Ok? ==> r.value.button.State() == ButtonState(false, disabled, palette.disabled) && r.value.isOn == isOn
  {
    var ok := NewGraphic(scene, canvas, id, parent, false);
    if !ok {
      return Err(ParentNotPanel);
    }
    events.AddManagedObject(id);
    var box := new CheckBox(id, func, position, size, palette, disabled, isOn, labelAlignment);
    var placed := box.button.SetLabelPos();
    r := Ok(box);
  }

  class InputBox {
    const id: GraphicId
    const config: InputConfig
    const sizeW: int
    var rect: Rect
    var text: string
    var active: bool
    var borderColor: Color

    function State(): InputState
      reads this
    {
      InputState(text, active, borderColor)
    }

    /** The field assignments of `InputBox.__init__`: unfocused, with the inactive border. */
    constructor (id: GraphicId, config: InputConfig, position: Point, size: Point, text: string)
      ensures this.id == id && this.config == config && sizeW == size.x
      ensures rect == Rect(position.x, position.y, size.x, size.y)
      ensures State() == InputState(text, false, config.inactiveColor)
      ensures BorderFollowsActive(config, State())
    {
      this.id := id;
      this.config := config;
      sizeW := size.x;
      rect := Rect(position.x, position.y, size.x, size.y);
      this.text := text;
      active := false;
      borderColor := config.inactiveColor;
    }

    /** `InputBox.set_border_state`. */
    method SetBorderState()
      modifies this
      ensures State() == old(State()).(border := BorderFor(config, active))
      ensures rect == old(rect)
    {
      borderColor := if active then config.activeColor else config.inactiveColor;
    }

    /** `InputBox.submit`. */
    method Submit() returns (calls: seq<Call>)
      modifies this
      ensures (State(), calls) == Widgets.Submit(config, old(State()))
      ensures rect == old(rect)
    {
      calls := Invoke(config.callbacks.onSubmit, Text(text));
      text := "";
      active := false;
      SetBorderState();
    }

    /** `InputBox.handle_event`; `InputBox.call_back` passes the current text. */
    method HandleEvent(e: Event, scene: Scene) returns (calls: seq<Call>)
      requires scene.Valid() && id in scene.nodes
      modifies this
      ensures (State(), calls) == UiInputHandle(config, rect, old(State()), e, scene.IsRendered(id))
      ensures rect == old(rect)
    {
      calls := [];
      if !scene.IsRendered(id) {
        return;
      }
      match e {
        case MouseDown(_, pos) =>
          if Contains(rect, pos) {
            calls := Invoke(config.callbacks.onSelect, Text(text));
            active := !active;
          } else {
            active := false;
          }
          SetBorderState();
        case KeyDown(key, unicode) =>
          if !active {
            return;
          }
          if key == K_RETURN {
            if config.submitOnReturn {
              calls := Submit();
            }
          } else if key == K_BACKSPACE {
            calls := Invoke(config.callbacks.onDelete, Text(text));
            text := DropLast(text);
          } else {
            calls := Invoke(config.callbacks.onValueChange, Text(text));
            text := text + unicode;
          }
        case _ =>
      }
    }

    /** The width rule of `InputBox.draw`: the box grows to fit the rendered text, and never shrinks below its size. */
    method Draw(imageW: int)
      modifies this
      ensures rect == old(rect).(w := DrawWidth(sizeW, imageW))
      ensures State() == old(State())
    {
      rect := rect.(w := if sizeW >= imageW + 10 then sizeW else imageW + 10);
    }
  }

  /** `InputBox(...)`: registration as a graphic (its label part) and as an event listener. */
  method NewInputBox(scene: Scene, canvas: Canvas, events: EventManager, id: GraphicId, parent: Option<GraphicId>,
                     config: InputConfig, position: Point, size: Point, text: string)
    returns (r: Result<InputBox, UiError>)
    requires scene.Valid() && id !in scene.nodes && (parent.Some? ==> parent.value in scene.nodes)
    modifies scene, canvas, events
    ensures scene.Valid()
    ensures r.Err? <==> parent.Some? && !old(scene.nodes)[parent.value].isPanel
    ensures r.Err? ==> r.error == ParentNotPanel && events.graphicEvents == old(events.graphicEvents)
    ensures r.Ok? ==> fresh(r.value) && r.value.id == id && r.value.State() == InputState(text, false, config.inactiveColor)
    ensures r.Ok? ==> canvas.graphicElements == old(canvas.graphicElements) + [id]
    ensures r.Ok? ==> events.graphicEvents == old(events.graphicEvents) + [id]
    ensures r.Ok? ==> id in scene.nodes && scene.nodes == Reparented(old(scene.nodes)[id := Graphic(true, None, false, [])], id, parent)
    ensures r.Ok? ==> r.value.config == config && r.value.rect == Rect(position.x, position.y, size.x, size.y)
    ensures r.Err? ==> scene.nodes == old(scene.nodes) && canvas.graphicElements == old(canvas.graphicElements)
  {
    var ok := NewGraphic(scene, canvas, id, parent, false);
    if !ok {
      return Err(ParentNotPanel);
    }
    events.AddManagedObject(id);
    var box := new InputBox(id, config, position, size, text);
    r := Ok(box);
  }
}
