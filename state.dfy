/**
 * The game-state stack of utils/state.py: every `State` holds a reference to
 * one shared list of states; entering pushes the state, exiting pops the top
 * and empties the Canvas registry of utils/ui.py.
 */
module GameState {
  import opened UiScene

  /** The shared `state_stack` list. */
  class StateStack {
    var states: seq<State>

    constructor ()
      ensures states == []
    {
      states := [];
    }
  }

  class State {
    const stack: StateStack
    var prevState: State?

    /** `State.__init__`. */
    constructor (stack: StateStack)
      ensures this.stack == stack && prevState == null
    {
      this.stack := stack;
      prevState := null;
    }

    /**
     * `State.enter_state`: the state goes on top. `prev_state` becomes the old
     * top only when the stack held more than one state.
     */
    method EnterState()
      modifies this, stack
      ensures stack.states == old(stack.states) + [this]
      ensures |old(stack.states)| > 1 ==> prevState == old(stack.states)[|old(stack.states)| - 1]
      ensures |old(stack.states)| <= 1 ==> prevState == old(prevState)
    {
      if |stack.states| > 1 {
        prevState := stack.states[|stack.states| - 1];
      }
      stack.states := stack.states + [this];
    }

    /**
     * `State.exit_state`: on a non-empty stack the Canvas registry is emptied
     * and the top is popped, whether or not it is this state; on an empty
     * stack nothing happens.
     */
    method ExitState(canvas: Canvas)
      modifies stack, canvas
      ensures old(stack.states) == [] ==> stack.states == [] && canvas.graphicElements == old(canvas.graphicElements)
      ensures old(stack.states) != [] ==>
                stack.states == old(stack.states)[..|old(stack.states)| - 1] && canvas.graphicElements == []
    {
      if stack.states != [] {
        canvas.UpdateManagedObjects([]);
        stack.states := stack.states[..|stack.states| - 1];
      }
    }
  }

  /** Entering a state and exiting it again restores the stack; the Canvas registry ends empty. */
  method EnterThenExit(s: State, canvas: Canvas)
    modifies s, s.stack, canvas
    ensures s.stack.states == old(s.stack.states)
    ensures canvas.graphicElements == []
  {
    s.EnterState();
    s.ExitState(canvas);
    assert (old(s.stack.states) + [s])[..|old(s.stack.states)|] == old(s.stack.states);
  }
}
