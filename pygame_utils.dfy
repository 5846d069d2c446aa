/**
 * The older widget family of pygame_utils.py: `Label`, `Button`, `CheckBox`
 * and `InputBox`. They keep float positions (`Vector2`), modelled over
 * `real`; buttons place their label by an explicit offset table; button
 * handlers check `disabled` inside the branches (module Widgets,
 * `LegacyHandle`) and no handler consults visibility. There is no scene:
 * this family's registries are filled by heap inspection, which is not
 * part of this model.
 */
module PygameUtils {
  import opened Wrappers
  import opened Geometry
  import opened Events
  import opened Widgets

  /** The offset table of `Button.set_label_pos`; any other name, "topleft" included, gives (0, 0). */
  function LabelOffset(alignment: string, size: Vec): (r: Vec)
    ensures r.x == 0.0 || r.x == size.x / 2.0 || r.x == size.x
    ensures r.y == 0.0 || r.y == size.y / 2.0 || r.y == size.y
    ensures alignment == "topleft" ==> r == Vec(0.0, 0.0)
  {
    if alignment == "center" then Vec(size.x / 2.0, size.y / 2.0)
    else if alignment == "midtop" then Vec(size.x / 2.0, 0.0)
    else if alignment == "midbottom" then Vec(size.x / 2.0, size.y)
    else if alignment == "midleft" then Vec(0.0, size.y / 2.0)
    else if alignment == "bottomleft" then Vec(0.0, size.y)
    else if alignment == "topright" then Vec(size.x, 0.0)
    else if alignment == "midright" then Vec(size.x, size.y / 2.0)
    else if alignment == "bottomright" then Vec(size.x, size.y)
    else Vec(0.0, 0.0)
  }

  /**
   * The table is the offset of the named anchor from the top-left corner of a
   * rectangle of the button's size, for all nine names; a name that is not an
   * anchor gets no offset.
   */
  lemma LabelOffsetIsAnchorOffset(alignment: string, size: Vec)
    ensures AnchorNamed(alignment).Some? ==> LabelOffset(alignment, size) == AnchorOffset(AnchorNamed(alignment).value, size)
    ensures AnchorNamed(alignment).None? ==> LabelOffset(alignment, size) == Vec(0.0, 0.0)
  {
  }

  /** The position `set_label_pos` gives the label: button position + previous label position + offset. */
  function LabelPosition(buttonPos: Vec, labelPos: Vec, offset: Vec): (r: Vec)
    ensures r.x - labelPos.x == buttonPos.x + offset.x && r.y - labelPos.y == buttonPos.y + offset.y
  {
    Vec(buttonPos.x + labelPos.x + offset.x, buttonPos.y + labelPos.y + offset.y)
  }

  /**
   * A label that starts at (0, 0) ends with its anchor point on the same-named
   * point of the button's rectangle; each further call of `set_label_pos` moves
   * it on by the button position and the offset again.
   */
  lemma LabelPlacement(buttonPos: Vec, size: Vec, a: Anchor, labelPos: Vec)
    ensures var off := LabelOffset(Name(a), size);
            LabelPosition(buttonPos, Vec(0.0, 0.0), off) == BoxAnchorPoint(Box(buttonPos.x, buttonPos.y, size.x, size.y), a)
    ensures var off := LabelOffset(Name(a), size);
            var once := LabelPosition(buttonPos, labelPos, off);
            LabelPosition(buttonPos, once, off) ==
              Vec(labelPos.x + 2.0 * (buttonPos.x + off.x), labelPos.y + 2.0 * (buttonPos.y + off.y))
  {
    LabelOffsetIsAnchorOffset(Name(a), size);
  }

  /** `image.get_rect(**{anchor: position})` at a float position, for a w by h image. */
  function PlacedBox(w: real, h: real, anchor: string, position: Vec): (r: Option<Box>)
    ensures r.Some? <==> AnchorNamed(anchor).Some?
    ensures r.Some? ==> r.value.w == w && r.value.h == h
    ensures r.Some? ==> BoxAnchorPoint(r.value, AnchorNamed(anchor).value) == position
  {
    match AnchorNamed(anchor)
    case None => None
    case Some(a) => Some(BoxAnchoredAt(w, h, a, position))
  }

  class Label {
    var text: string
    var anchor: string
    var position: Vec
    const imageW: real
    const imageH: real
    var textRect: Box

    /** `Label.__init__`; its `_render` needs an anchor name (see `NewLabel`). */
    constructor (text: string, anchor: string, position: Vec, imageW: real, imageH: real)
      requires AnchorNamed(anchor).Some?
      ensures this.text == text && this.anchor == anchor && this.position == position
      ensures this.imageW == imageW && this.imageH == imageH
      ensures Some(textRect) == PlacedBox(imageW, imageH, anchor, position)
    {
      this.text := text;
      this.anchor := anchor;
      this.position := position;
      this.imageW := imageW;
      this.imageH := imageH;
      textRect := BoxAnchoredAt(imageW, imageH, AnchorNamed(anchor).value, position);
    }

    /** `Label._render`: the text rectangle is placed again at the current anchor and position. */
    method Render() returns (ok: bool)
      modifies this
      ensures ok <==> AnchorNamed(anchor).Some?
      ensures ok ==> Some(textRect) == PlacedBox(imageW, imageH, anchor, position)
      ensures !ok ==> unchanged(this)
      ensures text == old(text) && anchor == old(anchor) && position == old(position)
    {
      var placed := PlacedBox(imageW, imageH, anchor, position);
      if placed.None? {
        return false;
      }
      textRect := placed.value;
      ok := true;
    }

    /** `Label.set_position`: as in utils/ui.py, an empty anchor keeps the old one. */
    method SetPosition(pos: Vec, newAnchor: string) returns (ok: bool)
      modifies this
      ensures position == pos
      ensures anchor == if newAnchor != "" then newAnchor else old(anchor)
      ensures ok <==> AnchorNamed(anchor).Some?
      ensures ok ==> Some(textRect) == PlacedBox(imageW, imageH, anchor, pos)
      ensures ok ==> BoxAnchorPoint(textRect, AnchorNamed(anchor).value) == pos
      ensures !ok ==> textRect == old(textRect)
      ensures text == old(text)
    {
      position := pos;
      if newAnchor != "" {
        anchor := newAnchor;
      }
      var placed := PlacedBox(imageW, imageH, anchor, position);
      if placed.None? {
        return false;
      }
      textRect := placed.value;
      ok := true;
    }
  }

  /** `Label(...)`: fails in `_render` when the anchor is not an anchor name. */
  method NewLabel(text: string, anchor: string, position: Vec, imageW: real, imageH: real)
    returns (r: Option<Label>)
    ensures r.Some? <==> AnchorNamed(anchor).Some?
    ensures r.Some? ==> fresh(r.value) && r.value.text == text && r.value.anchor == anchor
    ensures r.Some? ==> BoxAnchorPoint(r.value.textRect, AnchorNamed(anchor).value) == position
  {
    if AnchorNamed(anchor).None? {
      return None;
    }
    var textLabel := new Label(text, anchor, position, imageW, imageH);
    r := Some(textLabel);
  }

  class Button {
    const func: Option<CallbackId>
    const position: Point
    const size: Point
    const rect: Rect
    const palette: Palette
    const textLabel: Label?
    const labelAlignment: string
    var pressed: bool
    var disabled: bool
    var currentColor: Color

    function State(): ButtonState
      reads this
    {
      ButtonState(pressed, disabled, currentColor)
    }

    /** The field assignments of `Button.__init__` up to `set_disabled`. */
    constructor (func: Option<CallbackId>, position: Point, size: Point, palette: Palette, disabled: bool,
                 textLabel: Label?, labelAlignment: string)
      ensures this.func == func && this.position == position && this.size == size && this.palette == palette
      ensures this.textLabel == textLabel && this.labelAlignment == labelAlignment
      ensures rect == Rect(position.x, position.y, size.x, size.y)
      ensures State() == ButtonState(false, disabled, palette.disabled)
    {
      this.func := func;
      this.position := position;
      this.size := size;
      rect := Rect(position.x, position.y, size.x, size.y);
      this.palette := palette;
      this.textLabel := textLabel;
      this.labelAlignment := labelAlignment;
      currentColor := palette.color;
      pressed := false;
      new;
      SetDisabled(disabled);
    }

    /** `Button.set_disabled`. */
    method SetDisabled(d: bool)
      modifies this
      ensures State() == ButtonState(old(pressed), d, palette.disabled)
    {
      disabled := d;
      currentColor := palette.disabled;
    }

    /** `Button.mouseover` at the given pointer position. */
    method Mouseover(pointer: Point)
      modifies this
      ensures State() == Widgets.Mouseover(old(State()), palette, rect, pointer)
    {
      if disabled || pressed {
        return;
      }
      currentColor := palette.color;
      if Contains(rect, pointer) {
        currentColor := palette.hover;
      }
    }

    /** `Button.handle_event` up to `call_back`; the disabled check is inside each branch. */
    method Step(e: Event, pointer: Point) returns (clicked: bool)
      modifies this
      ensures Reaction(State(), clicked) == LegacyHandle(old(State()), palette, rect, e, pointer)
    {
      clicked := false;
      match e {
        case MouseDown(button, _) =>
          if button != LEFT_BUTTON {
            return;
          }
          if Contains(rect, pointer) && !disabled {
            pressed := true;
            currentColor := palette.pressed;
          }
        case MouseUp(button) =>
          if button != LEFT_BUTTON {
            return;
          }
          pressed := false;
          if Contains(rect, pointer) && !disabled {
            clicked := true;
          }
        case _ =>
      }
    }

    /** `Button.handle_event` with `Button.call_back`: `on_click` is called with no argument. */
    method HandleEvent(e: Event, pointer: Point) returns (calls: seq<Call>)
      modifies this
      ensures var r := LegacyHandle(old(State()), palette, rect, e, pointer);
              State() == r.state && calls == (if r.clicked then Invoke(func, NoArg) else [])
    {
      var clicked := Step(e, pointer);
      calls := [];
      if clicked {
        calls := Invoke(func, NoArg);
      }
    }

    /**
     * `Button.set_label_pos`: the label moves by the button position and the
     * table offset from where it was. With an alignment that is not an anchor
     * name the label's `get_rect` raises after position and anchor are set.
     */
    method SetLabelPos() returns (ok: bool)
      modifies textLabel
      ensures textLabel == null ==> ok
      ensures textLabel != null ==>
                && textLabel.position == LabelPosition(Vec(position.x as real, position.y as real), old(textLabel.position),
                                                       LabelOffset(labelAlignment, Vec(size.x as real, size.y as real)))
                && textLabel.anchor == (if labelAlignment != "" then labelAlignment else old(textLabel.anchor))
                && (ok <==> AnchorNamed(textLabel.anchor).Some?)
                && (ok ==> BoxAnchorPoint(textLabel.textRect, AnchorNamed(textLabel.anchor).value) == textLabel.position)
                && textLabel.text == old(textLabel.text)
    {
      if textLabel == null {
        return true;
      }
      var offset := LabelOffset(labelAlignment, Vec(size.x as real, size.y as real));
      var labelPos := Vec(position.x as real + textLabel.position.x + offset.x,
                          position.y as real + textLabel.position.y + offset.y);
      ok := textLabel.SetPosition(labelPos, labelAlignment);
    }
  }

  /**
   * `Button(...)`: construction, the label's `_render` and `set_label_pos`;
   * the last two raise when the label's anchor is not an anchor name.
   */
  method NewButton(func: Option<CallbackId>, position: Point, size: Point, palette: Palette, disabled: bool,
                   textLabel: Label?, labelAlignment: string)
    returns (r: Option<Button>)
    modifies textLabel
    ensures r.Some? ==> fresh(r.value) && r.value.textLabel == textLabel && r.value.labelAlignment == labelAlignment
    ensures r.Some? ==> r.value.State() == ButtonState(false, disabled, palette.disabled)
    ensures r.Some? ==> r.value.func == func && r.value.palette == palette
                        && r.value.position == position && r.value.size == size
                        && r.value.rect == Rect(position.x, position.y, size.x, size.y)
    ensures r.Some? && textLabel != null ==>
              && textLabel.anchor == (if labelAlignment != "" then labelAlignment else old(textLabel.anchor))
              && AnchorNamed(textLabel.anchor).Some?
              && BoxAnchorPoint(textLabel.textRect, AnchorNamed(textLabel.anchor).value) == textLabel.position
              && textLabel.text == old(textLabel.text)
    ensures textLabel != null && AnchorNamed(old(textLabel.anchor)).None? ==> r.None? && unchanged(textLabel)
    ensures textLabel != null && AnchorNamed(old(textLabel.anchor)).Some? ==>
              textLabel.position == LabelPosition(Vec(position.x as real, position.y as real), old(textLabel.position),
                                                  LabelOffset(labelAlignment, Vec(size.x as real, size.y as real)))
    ensures r.None? <==> textLabel != null && AnchorNamed(textLabel.anchor).None?
  {
    var b := new Button(func, position, size, palette, disabled, textLabel, labelAlignment);
    if textLabel != null {
      var rendered := textLabel.Render();
      if !rendered {
        return None;
      }
    }
    var ok := b.SetLabelPos();
    if !ok {
      return None;
    }
    r := Some(b);
  }

  /** `CheckBox`: a button without a label whose `call_back` toggles `is_on` and reports the new value. */
  class CheckBox {
    const button: Button
    var isOn: bool

    constructor (func: Option<CallbackId>, position: Point, size: Point, palette: Palette, disabled: bool, isOn: bool)
      ensures fresh(button) && button.func == func && button.textLabel == null
      ensures button.rect == Rect(position.x, position.y, size.x, size.y)
      ensures button.State() == ButtonState(false, disabled, palette.disabled)
      ensures this.isOn == isOn
    {
      button := new Button(func, position, size, palette, disabled, null, "midleft");
      this.isOn := isOn;
    }

    /** `Button.handle_event` dispatching to `CheckBox.call_back`. */
    method HandleEvent(e: Event, pointer: Point) returns (calls: seq<Call>)
      modifies this, button
      ensures var r := LegacyHandle(old(button.State()), button.palette, button.rect, e, pointer);
              && button.State() == r.state
              && (isOn, calls) == if r.clicked then CheckBoxCallBack(old(isOn), button.func) else (old(isOn), [])
    {
      var clicked := button.Step(e, pointer);
      calls := [];
      if clicked {
        isOn := !isOn;
        calls := Invoke(button.func, Flag(isOn));
      }
    }
  }

  /** `InputBox` of pygame_utils.py: the same editing as in utils/ui.py, with no visibility guard. */
  class InputBox {
    const config: InputConfig
    const sizeW: int
    var rect: Rect
    var text: string
    var active: bool
    var borderColor: Color

    function State(): InputState
      reads this
    {
      InputState(text, active, borderColor)
    }

    constructor (config: InputConfig, position: Point, size: Point, text: string)
      ensures this.config == config && sizeW == size.x && rect == Rect(position.x, position.y, size.x, size.y)
      ensures State() == InputState(text, false, config.inactiveColor)
    {
      this.config := config;
      sizeW := size.x;
      rect := Rect(position.x, position.y, size.x, size.y);
      this.text := text;
      active := false;
      borderColor := config.inactiveColor;
    }

    /** `InputBox.submit`. */
    method Submit() returns (calls: seq<Call>)
      modifies this
      ensures (State(), calls) == Widgets.Submit(config, old(State()))
      ensures rect == old(rect)
    {
      calls := Invoke(config.callbacks.onSubmit, Text(text));
      text := "";
      active := false;
      borderColor := if active then config.activeColor else config.inactiveColor;
    }

    /** `InputBox.handle_event`: a hidden box reacts like a shown one. */
    method HandleEvent(e: Event) returns (calls: seq<Call>)
      modifies this
      ensures (State(), calls) == InputHandle(config, rect, old(State()), e)
      ensures rect == old(rect)
    {
      calls := [];
      match e {
        case MouseDown(_, pos) =>
          if Contains(rect, pos) {
            calls := Invoke(config.callbacks.onSelect, Text(text));
            active := !active;
          } else {
            active := false;
          }
          borderColor := if active then config.activeColor else config.inactiveColor;
        case KeyDown(key, unicode) =>
          if !active {
            return;
          }
          if key == K_RETURN {
            if config.submitOnReturn {
              calls := Submit();
            }
          } else if key == K_BACKSPACE {
            calls := Invoke(config.callbacks.onDelete, Text(text));
            text := DropLast(text);
          } else {
            calls := Invoke(config.callbacks.onValueChange, Text(text));
            text := text + unicode;
          }
        case _ =>
      }
    }

    /** The width rule of `InputBox.draw`, as in utils/ui.py. */
    method Draw(imageW: int)
      modifies this
      ensures rect == old(rect).(w := DrawWidth(sizeW, imageW))
      ensures State() == old(State())
    {
      rect := rect.(w := if sizeW >= imageW + 10 then sizeW else imageW + 10);
    }
  }
}
