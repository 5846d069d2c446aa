/**
 * The state machines behind the toolkit's widgets, as pure functions of the
 * widget's changeable fields, its fixed configuration and one input event.
 *
 * Both widget families use them: the classes of utils/ui.py (module UiWidgets)
 * and those of the older pygame_utils.py (module PygameUtils). The two button
 * handlers differ in how they guard against a disabled (or hidden) button, and
 * both are defined here so that the difference can be stated.
 */
module Widgets {
  import opened Wrappers
  import opened Geometry
  import opened Events

  /** A colour is an opaque value to the toolkit: it is only stored and compared. */
  datatype Color = Rgba(r: int, g: int, b: int, a: int)

  /** A button's four colours, fixed at construction. */
  datatype Palette = Palette(color: Color, hover: Color, pressed: Color, disabled: Color)

  /** The fields of a button that its handlers assign. */
  datatype ButtonState = ButtonState(pressed: bool, disabled: bool, current: Color)

  /** What one event does to a button: its new fields, and whether `call_back` ran. */
  datatype Reaction = Reaction(state: ButtonState, clicked: bool)

  /** `Button.mouseover`, given the pointer position. */
  function Mouseover(s: ButtonState, pal: Palette, rect: Rect, pointer: Point): (r: ButtonState)
    ensures r.pressed == s.pressed && r.disabled == s.disabled
    ensures s.disabled || s.pressed ==> r == s
    ensures !s.disabled && !s.pressed ==>
              (r.current == pal.hover <==> Contains(rect, pointer) || pal.color == pal.hover)
    ensures !s.disabled && !s.pressed ==> r.current in {pal.color, pal.hover}
  {
    if s.disabled || s.pressed then s
    else ButtonState(s.pressed, s.disabled, if Contains(rect, pointer) then pal.hover else pal.color)
  }

  /** A second `mouseover` at the same pointer position changes nothing. */
  lemma MouseoverIdempotent(s: ButtonState, pal: Palette, rect: Rect, pointer: Point)
    ensures Mouseover(Mouseover(s, pal, rect, pointer), pal, rect, pointer) == Mouseover(s, pal, rect, pointer)
  {
  }

  /** `Button.button_press`. */
  function Press(s: ButtonState, pal: Palette): (r: ButtonState)
    ensures r.pressed && r.current == pal.pressed
    ensures r.disabled == s.disabled
  {
    ButtonState(true, s.disabled, pal.pressed)
  }

  /** `Button.handle_event` of utils/ui.py: the whole handler is skipped while disabled or not rendered. */
  function UiHandle(s: ButtonState, pal: Palette, rect: Rect, e: Event, pointer: Point, rendered: bool): (r: Reaction)
    ensures r.state.disabled == s.disabled
    ensures s.disabled || !rendered ==> r == Reaction(s, false)
    ensures r.clicked <==> !s.disabled && rendered && e == MouseUp(LEFT_BUTTON) && Contains(rect, pointer)
    ensures r.state.pressed <==>
              if !s.disabled && rendered && e.MouseDown? && e.button == LEFT_BUTTON && Contains(rect, pointer) then true
              else if !s.disabled && rendered && e == MouseUp(LEFT_BUTTON) then false
              else s.pressed
    ensures r.state.current ==
              if !s.disabled && rendered && e.MouseDown? && e.button == LEFT_BUTTON && Contains(rect, pointer) then pal.pressed
              else s.current
    ensures !(e.MouseDown? && e.button == LEFT_BUTTON) && e != MouseUp(LEFT_BUTTON) ==> r == Reaction(s, false)
  {
    if s.disabled || !rendered then Reaction(s, false)
    else
      match e
      case MouseDown(button, _) =>
        if button != LEFT_BUTTON then Reaction(s, false)
        else if Contains(rect, pointer) then Reaction(Press(s, pal), false)
        else Reaction(s, false)
      case MouseUp(button) =>
        if button != LEFT_BUTTON then Reaction(s, false)
        else Reaction(s.(pressed := false), Contains(rect, pointer))
      case _ => Reaction(s, false)
  }

  /**
   * `Button.handle_event` of pygame_utils.py: the disabled check sits inside the
   * branches, so a left mouse-up un-presses even a disabled button.
   */
  function LegacyHandle(s: ButtonState, pal: Palette, rect: Rect, e: Event, pointer: Point): (r: Reaction)
    ensures r.state.disabled == s.disabled
    ensures r.clicked <==> !s.disabled && e == MouseUp(LEFT_BUTTON) && Contains(rect, pointer)
    ensures e == MouseUp(LEFT_BUTTON) ==> !r.state.pressed
    ensures s.disabled && e != MouseUp(LEFT_BUTTON) ==> r.state == s
    ensures r.state.pressed <==>
              if !s.disabled && e.MouseDown? && e.button == LEFT_BUTTON && Contains(rect, pointer) then true
              else if e == MouseUp(LEFT_BUTTON) then false
              else s.pressed
    ensures r.state.current ==
              if !s.disabled && e.MouseDown? && e.button == LEFT_BUTTON && Contains(rect, pointer) then pal.pressed
              else s.current
    ensures !(e.MouseDown? && e.button == LEFT_BUTTON) && e != MouseUp(LEFT_BUTTON) ==> r == Reaction(s, false)
  {
    match e
    case MouseDown(button, _) =>
      if button != LEFT_BUTTON then Reaction(s, false)
      else if Contains(rect, pointer) && !s.disabled then Reaction(Press(s, pal), false)
      else Reaction(s, false)
    case MouseUp(button) =>
      if button != LEFT_BUTTON then Reaction(s, false)
      else Reaction(s.(pressed := false), Contains(rect, pointer) && !s.disabled)
    case _ => Reaction(s, false)
  }

  /** On an enabled, rendered button the two handlers do the same thing. */
  lemma HandlersAgree(s: ButtonState, pal: Palette, rect: Rect, e: Event, pointer: Point)
    requires !s.disabled
    ensures UiHandle(s, pal, rect, e, pointer, true) == LegacyHandle(s, pal, rect, e, pointer)
  {
  }

  /**
   * Where they differ: a button that was disabled while pressed stays pressed
   * under the utils/ui.py handler, and is released by the pygame_utils.py one.
   * Neither calls back.
   */
  lemma DisabledRelease(s: ButtonState, pal: Palette, rect: Rect, pointer: Point, rendered: bool)
    requires s.disabled && s.pressed
    ensures UiHandle(s, pal, rect, MouseUp(LEFT_BUTTON), pointer, rendered) == Reaction(s, false)
    ensures LegacyHandle(s, pal, rect, MouseUp(LEFT_BUTTON), pointer) == Reaction(s.(pressed := false), false)
  {
  }

  /** One event as a button sees it: the event and where the pointer is when it is handled. */
  datatype Input = Input(event: Event, pointer: Point)

  /** A button of utils/ui.py fed a run of events: its final fields and how many times it called back. */
  function UiRun(s: ButtonState, pal: Palette, rect: Rect, inputs: seq<Input>, rendered: bool): (ButtonState, nat)
    decreases |inputs|
  {
    if inputs == [] then (s, 0)
    else
      var r := UiHandle(s, pal, rect, inputs[0].event, inputs[0].pointer, rendered);
      var rest := UiRun(r.state, pal, rect, inputs[1..], rendered);
      (rest.0, rest.1 + if r.clicked then 1 else 0)
  }

  /** The number of left mouse-up events in a run. */
  function LeftReleases(inputs: seq<Input>): (n: nat)
    ensures n <= |inputs|
  {
    if inputs == [] then 0
    else LeftReleases(inputs[1..]) + if inputs[0].event == MouseUp(LEFT_BUTTON) then 1 else 0
  }

  /** A disabled button of utils/ui.py ignores every event: it keeps its fields and never calls back. */
  lemma {:induction false} DisabledUiRunInert(s: ButtonState, pal: Palette, rect: Rect, inputs: seq<Input>, rendered: bool)
    requires s.disabled
    ensures UiRun(s, pal, rect, inputs, rendered) == (s, 0)
    decreases |inputs|
  {
    if inputs != [] {
      DisabledUiRunInert(s, pal, rect, inputs[1..], rendered);
    }
  }

  /** A button calls back at most once per left mouse-up. */
  lemma {:induction false} ClicksAtMostReleases(s: ButtonState, pal: Palette, rect: Rect, inputs: seq<Input>, rendered: bool)
    ensures UiRun(s, pal, rect, inputs, rendered).1 <= LeftReleases(inputs)
    decreases |inputs|
  {
    if inputs != [] {
      var r := UiHandle(s, pal, rect, inputs[0].event, inputs[0].pointer, rendered);
      ClicksAtMostReleases(r.state, pal, rect, inputs[1..], rendered);
    }
  }

  /** `CheckBox.call_back`: `is_on` is negated first, and the user callback gets the new value. */
  function CheckBoxCallBack(isOn: bool, func: Option<CallbackId>): (r: (bool, seq<Call>))
    ensures r.0 == !isOn
    ensures func.Some? ==> r.1 == [Call(func.value, Flag(r.0))]
    ensures func.None? ==> r.1 == []
  {
    var on := !isOn;
    (on, Invoke(func, Flag(on)))
  }

  /** A check box of utils/ui.py fed a run of events: its final `is_on` and the calls it made. */
  function CheckBoxRun(s: ButtonState, isOn: bool, pal: Palette, rect: Rect, func: Option<CallbackId>,
                       inputs: seq<Input>, rendered: bool): (bool, seq<Call>)
    decreases |inputs|
  {
    if inputs == [] then (isOn, [])
    else
      var r := UiHandle(s, pal, rect, inputs[0].event, inputs[0].pointer, rendered);
      var cb := if r.clicked then CheckBoxCallBack(isOn, func) else (isOn, []);
      var rest := CheckBoxRun(r.state, cb.0, pal, rect, func, inputs[1..], rendered);
      (rest.0, cb.1 + rest.1)
  }

  /**
   * Over any run of events a check box ends up toggled exactly when it was
   * clicked an odd number of times, and each click passes the value it
   * toggled to, so the values passed alternate starting from `!isOn`.
   */
  lemma {:induction false} CheckBoxRunParity(s: ButtonState, isOn: bool, pal: Palette, rect: Rect, func: Option<CallbackId>,
                                             inputs: seq<Input>, rendered: bool)
    ensures var clicks := UiRun(s, pal, rect, inputs, rendered).1;
            var (on, calls) := CheckBoxRun(s, isOn, pal, rect, func, inputs, rendered);
            && (on <==> (isOn <==> clicks % 2 == 0))
            && |calls| == (if func.Some? then clicks else 0)
            && forall j :: 0 <= j < |calls| ==> calls[j] == Call(func.value, Flag(isOn <==> j % 2 == 1))
    decreases |inputs|
  {
    if inputs != [] {
      var r := UiHandle(s, pal, rect, inputs[0].event, inputs[0].pointer, rendered);
      var cb := if r.clicked then CheckBoxCallBack(isOn, func) else (isOn, []);
      CheckBoxRunParity(r.state, cb.0, pal, rect, func, inputs[1..], rendered);
      var rest := CheckBoxRun(r.state, cb.0, pal, rect, func, inputs[1..], rendered);
      ParityStep(isOn, func, r.clicked, UiRun(r.state, pal, rect, inputs[1..], rendered).1, rest.0, rest.1);
    }
  }

  /** One event of CheckBoxRunParity: a click in front of a run that already has the property. */
  lemma ParityStep(isOn: bool, func: Option<CallbackId>, clicked: bool, n: nat, on: bool, calls: seq<Call>)
    requires var next := clicked != isOn;
             && (on <==> (next <==> n % 2 == 0))
             && |calls| == (if func.Some? then n else 0)
             && forall j :: 0 <= j < |calls| ==> calls[j] == Call(func.value, Flag(next <==> j % 2 == 1))
    ensures var cb := if clicked then CheckBoxCallBack(isOn, func) else (isOn, []);
            var all := cb.1 + calls;
            var m := n + if clicked then 1 else 0;
            && (on <==> (isOn <==> m % 2 == 0))
            && |all| == (if func.Some? then m else 0)
            && forall j :: 0 <= j < |all| ==> all[j] == Call(func.value, Flag(isOn <==> j % 2 == 1))
  {
    var cb := if clicked then CheckBoxCallBack(isOn, func) else (isOn, []);
    var all := cb.1 + calls;
    forall j | 0 <= j < |all|
      ensures all[j] == Call(func.value, Flag(isOn <==> j % 2 == 1))
    {
      if j >= |cb.1| {
        assert all[j] == calls[j - |cb.1|];
      }
    }
  }

  /** The callbacks of an input box, each optional. */
  datatype InputCallbacks = InputCallbacks(onValueChange: Option<CallbackId>, onDelete: Option<CallbackId>,
                                           onSubmit: Option<CallbackId>, onSelect: Option<CallbackId>)

  /** The parts of an input box its handlers read and never assign. */
  datatype InputConfig = InputConfig(activeColor: Color, inactiveColor: Color, submitOnReturn: bool,
                                     callbacks: InputCallbacks)

  /** The fields of an input box its handlers assign. */
  datatype InputState = InputState(text: string, active: bool, border: Color)

  /** `InputBox.set_border_state`: the border colour as a function of `active`. */
  function BorderFor(cfg: InputConfig, active: bool): (c: Color)
    ensures active ==> c == cfg.activeColor
    ensures !active ==> c == cfg.inactiveColor
  {
    if active then cfg.activeColor else cfg.inactiveColor
  }

  /** The border shows whether the box has the focus. */
  predicate BorderFollowsActive(cfg: InputConfig, s: InputState) {
    s.border == BorderFor(cfg, s.active)
  }

  /** Python's `text[:-1]`: the last character goes, and the empty string stays empty. */
  function DropLast(t: string): (r: string)
    ensures |t| > 0 ==> r == t[..|t| - 1]
    ensures |t| == 0 ==> r == []
  {
    if |t| == 0 then [] else t[..|t| - 1]
  }

  /** `InputBox.submit`: `on_submit` gets the text, then the box is emptied and loses the focus. */
  function Submit(cfg: InputConfig, s: InputState): (r: (InputState, seq<Call>))
    ensures r.0.text == [] && !r.0.active
    ensures BorderFollowsActive(cfg, r.0)
    ensures r.1 == Invoke(cfg.callbacks.onSubmit, Text(s.text))
  {
    (InputState([], false, BorderFor(cfg, false)), Invoke(cfg.callbacks.onSubmit, Text(s.text)))
  }

  /** `InputBox.handle_event` without a visibility guard, as in pygame_utils.py. */
  function InputHandle(cfg: InputConfig, rect: Rect, s: InputState, e: Event): (r: (InputState, seq<Call>))
    ensures e.MouseDown? ==> BorderFollowsActive(cfg, r.0)
    ensures BorderFollowsActive(cfg, s) ==> BorderFollowsActive(cfg, r.0)
    ensures !e.MouseDown? && !s.active ==> r == (s, [])
    ensures !e.MouseDown? && !e.KeyDown? ==> r == (s, [])
    ensures |r.1| <= 1
  {
    match e
    case MouseDown(_, pos) =>
      if Contains(rect, pos) then
        (InputState(s.text, !s.active, BorderFor(cfg, !s.active)), Invoke(cfg.callbacks.onSelect, Text(s.text)))
      else
        (InputState(s.text, false, BorderFor(cfg, false)), [])
    case KeyDown(key, unicode) =>
      if !s.active then (s, [])
      else if key == K_RETURN then
        if cfg.submitOnReturn then Submit(cfg, s) else (s, [])
      else if key == K_BACKSPACE then
        (s.(text := DropLast(s.text)), Invoke(cfg.callbacks.onDelete, Text(s.text)))
      else
        (s.(text := s.text + unicode), Invoke(cfg.callbacks.onValueChange, Text(s.text)))
    case _ => (s, [])
  }

  /** `InputBox.handle_event` of utils/ui.py: ignored unless the box is rendered. */
  function UiInputHandle(cfg: InputConfig, rect: Rect, s: InputState, e: Event, rendered: bool): (r: (InputState, seq<Call>))
    ensures !rendered ==> r == (s, [])
    ensures rendered ==> r == InputHandle(cfg, rect, s, e)
  {
    if !rendered then (s, []) else InputHandle(cfg, rect, s, e)
  }

  /** A mouse-down on the box calls `on_select` with the text and toggles the focus; one elsewhere drops it. */
  lemma MouseDownFocus(cfg: InputConfig, rect: Rect, s: InputState, button: int, pos: Point)
    ensures var (s', calls) := InputHandle(cfg, rect, s, MouseDown(button, pos));
            && s'.text == s.text
            && (Contains(rect, pos) ==> s'.active == !s.active && calls == Invoke(cfg.callbacks.onSelect, Text(s.text)))
            && (!Contains(rect, pos) ==> !s'.active && calls == [])
  {
  }

  /** A focused box fed a run of events, returning its final fields and all calls made. */
  function InputRun(cfg: InputConfig, rect: Rect, s: InputState, events: seq<Event>): (InputState, seq<Call>)
    decreases |events|
  {
    if events == [] then (s, [])
    else
      var r := InputHandle(cfg, rect, s, events[0]);
      var rest := InputRun(cfg, rect, r.0, events[1..]);
      (rest.0, r.1 + rest.1)
  }

  /** The characters a run of key presses types, in order. */
  function Typed(events: seq<Event>): string
    requires forall i :: 0 <= i < |events| ==> events[i].KeyDown?
    decreases |events|
  {
    if events == [] then [] else events[0].unicode + Typed(events[1..])
  }

  lemma {:induction false} TypedSnoc(events: seq<Event>, e: Event)
    requires forall i :: 0 <= i < |events| ==> events[i].KeyDown?
    requires e.KeyDown?
    ensures Typed(events + [e]) == Typed(events) + e.unicode
    decreases |events|
  {
    if events != [] {
      assert (events + [e])[1..] == events[1..] + [e];
      TypedSnoc(events[1..], e);
    }
  }

  /**
   * Typing into a focused box appends each key's text in order, keeps the
   * focus, and calls `on_value_change` once per key with the text as it was
   * before that key.
   */
  lemma {:induction false} TypingAppends(cfg: InputConfig, rect: Rect, s: InputState, events: seq<Event>)
    requires s.active
    requires forall i :: 0 <= i < |events| ==>
               events[i].KeyDown? && events[i].key != K_RETURN && events[i].key != K_BACKSPACE
    ensures var (s', calls) := InputRun(cfg, rect, s, events);
            && s'.text == s.text + Typed(events)
            && s'.active && s'.border == s.border
            && (cfg.callbacks.onValueChange.None? ==> calls == [])
            && (cfg.callbacks.onValueChange.Some? ==>
                  |calls| == |events| &&
                  forall j :: 0 <= j < |events| ==>
                    calls[j] == Call(cfg.callbacks.onValueChange.value, Text(s.text + Typed(events[..j]))))
    decreases |events|
  {
    if events != [] {
      var e := events[0];
      var s1 := s.(text := s.text + e.unicode);
      assert InputHandle(cfg, rect, s, e) == (s1, Invoke(cfg.callbacks.onValueChange, Text(s.text)));
      TypingAppends(cfg, rect, s1, events[1..]);
      var rest := InputRun(cfg, rect, s1, events[1..]);
      if cfg.callbacks.onValueChange.Some? {
        var f := cfg.callbacks.onValueChange.value;
        var calls := [Call(f, Text(s.text))] + rest.1;
        forall j | 0 <= j < |events|
          ensures calls[j] == Call(f, Text(s.text + Typed(events[..j])))
        {
          if j == 0 {
            assert events[..0] == [];
            assert s.text + Typed(events[..0]) == s.text;
          } else {
            assert calls[j] == rest.1[j - 1];
            assert rest.1[j - 1] == Call(f, Text(s1.text + Typed(events[1..][..j - 1])));
            assert events[1..][..j - 1] == events[1..j];
            assert events[..j][1..] == events[1..j];
            assert Typed(events[..j]) == e.unicode + Typed(events[1..j]);
            assert s1.text + Typed(events[1..j]) == s.text + Typed(events[..j]);
          }
        }
      }
    }
  }

  /** Backspace undoes a key that typed one character: the text and the focus are as before. */
  lemma TypeThenBackspace(cfg: InputConfig, rect: Rect, s: InputState, key: int, c: char, u: string)
    requires s.active && key != K_RETURN && key != K_BACKSPACE
    ensures var s1 := InputHandle(cfg, rect, s, KeyDown(key, [c])).0;
            var s2 := InputHandle(cfg, rect, s1, KeyDown(K_BACKSPACE, u)).0;
            s2 == s
  {
    var s1 := InputHandle(cfg, rect, s, KeyDown(key, [c])).0;
    assert s1.text == s.text + [c];
    assert DropLast(s1.text) == s.text;
  }

  /**
   * Backspace on a focused box calls `on_delete` with the text before the edit
   * and then removes its last character; an empty text stays empty.
   */
  lemma BackspaceDrops(cfg: InputConfig, rect: Rect, s: InputState, u: string)
    requires s.active
    ensures var (s', calls) := InputHandle(cfg, rect, s, KeyDown(K_BACKSPACE, u));
            && s' == s.(text := DropLast(s.text))
            && calls == Invoke(cfg.callbacks.onDelete, Text(s.text))
            && (|s.text| > 0 ==> |s'.text| == |s.text| - 1 && s.text == s'.text + [s.text[|s.text| - 1]])
  {
  }

  /** Return submits only when `submit_on_return` is set; otherwise nothing happens. */
  lemma ReturnSubmits(cfg: InputConfig, rect: Rect, s: InputState, u: string)
    requires s.active
    ensures cfg.submitOnReturn ==> InputHandle(cfg, rect, s, KeyDown(K_RETURN, u)) == Submit(cfg, s)
    ensures !cfg.submitOnReturn ==> InputHandle(cfg, rect, s, KeyDown(K_RETURN, u)) == (s, [])
  {
  }

  /** `InputBox.draw` widens the box to fit the text: `max(size.x, image width + 10)`. */
  function DrawWidth(sizeW: int, imageW: int): (w: int)
    ensures w >= sizeW && w >= imageW + 10
    ensures w == sizeW || w == imageW + 10
  {
    if sizeW >= imageW + 10 then sizeW else imageW + 10
  }
}
