/**
 * Input events and user callbacks, as the toolkit sees them.
 *
 * pygame's event queue delivers tagged events; the toolkit looks at four kinds
 * and ignores the rest (`Other`). User callbacks are opaque: the model records
 * each invocation as a `Call` of a callback identity with its argument, so that
 * the order and the arguments of invocations can be stated.
 */
module Events {
  import opened Wrappers
  import opened Geometry

  /** pygame.K_BACKSPACE and pygame.K_RETURN. */
  const K_BACKSPACE: int := 8
  const K_RETURN: int := 13

  /** `event.button` of the left mouse button. */
  const LEFT_BUTTON: int := 1

  datatype Event =
    | Quit
    | KeyDown(key: int, unicode: string)
    | MouseDown(button: int, pos: Point)
    | MouseUp(button: int)
    | Other

  type CallbackId = nat

  /** What a callback is passed: nothing, the text of an input box, or a check box's state. */
  datatype Arg = NoArg | Text(text: string) | Flag(on: bool)

  datatype Call = Call(callback: CallbackId, arg: Arg)

  /** `if func: func(arg)`: a callback that is not set is skipped. */
  function Invoke(func: Option<CallbackId>, arg: Arg): (calls: seq<Call>)
    ensures func.None? ==> calls == []
    ensures func.Some? ==> calls == [Call(func.value, arg)]
  {
    if func.Some? then [Call(func.value, arg)] else []
  }
}
