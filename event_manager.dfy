/**
 * `EventManager` of utils/ui.py: two ordered listener lists and an optional quit
 * callback, and `handle_events`, which drains one frame's event queue.
 *
 * The model does not run the callbacks or the widgets' handlers: `HandleEvents`
 * returns the dispatch trace, one entry per call it makes, naming the event by
 * its position in the queue. `pygame.quit(); sys.exit()` become the `stopped` flag.
 */
module UiEvents {
  import opened Wrappers
  import opened Events

  /** A registered `Graphic_Event` (a button, check box or input box). */
  type ListenerId = nat

  datatype Dispatch =
    | ToFunc(func: CallbackId, event: nat)
    | ToListener(listener: ListenerId, event: nat)
    | QuitCallback(func: CallbackId)

  /** What `set_events` is given as `call_backs`: None, one callable, or a list of them. */
  datatype CallbackArg = NoCallbacks | One(func: CallbackId) | Many(funcs: seq<CallbackId>)

  /** `for func in funcs: func(event)` for the event at queue index k. */
  function FuncCalls(funcs: seq<CallbackId>, k: nat): (d: seq<Dispatch>)
    ensures |d| == |funcs|
    ensures forall j :: 0 <= j < |funcs| ==> d[j] == ToFunc(funcs[j], k)
  {
    seq(|funcs|, j requires 0 <= j < |funcs| => ToFunc(funcs[j], k))
  }

  /** `for ge in graphic_events: ge.handle_event(event)` for the event at queue index k. */
  function ListenerCalls(listeners: seq<ListenerId>, k: nat): (d: seq<Dispatch>)
    ensures |d| == |listeners|
    ensures forall j :: 0 <= j < |listeners| ==> d[j] == ToListener(listeners[j], k)
  {
    seq(|listeners|, j requires 0 <= j < |listeners| => ToListener(listeners[j], k))
  }

  /** Everything one non-quit event causes: every func in order, then every listener in order. */
  function FanOut(funcs: seq<CallbackId>, listeners: seq<ListenerId>, k: nat): (d: seq<Dispatch>)
    ensures |d| == |funcs| + |listeners|
    ensures forall j :: 0 <= j < |funcs| ==> d[j] == ToFunc(funcs[j], k)
    ensures forall j :: 0 <= j < |listeners| ==> d[|funcs| + j] == ToListener(listeners[j], k)
  {
    FuncCalls(funcs, k) + ListenerCalls(listeners, k)
  }

  /** `if cls.on_quit: cls.on_quit()`. */
  function QuitCall(onQuit: Option<CallbackId>): seq<Dispatch> {
    if onQuit.Some? then [QuitCallback(onQuit.value)] else []
  }

  /** The dispatch trace of `handle_events` from queue index i on, and whether it stopped the process. */
  function Dispatched(funcs: seq<CallbackId>, listeners: seq<ListenerId>, onQuit: Option<CallbackId>,
                      queue: seq<Event>, i: nat): (r: (seq<Dispatch>, bool))
    requires i <= |queue|
    ensures r.1 <==> exists j :: i <= j < |queue| && queue[j].Quit?
    ensures !r.1 ==> |r.0| == (|queue| - i) * (|funcs| + |listeners|)
    decreases |queue| - i
  {
    if i == |queue| then ([], false)
    else if queue[i].Quit? then (QuitCall(onQuit), true)
    else
      var rest := Dispatched(funcs, listeners, onQuit, queue, i + 1);
      (FanOut(funcs, listeners, i) + rest.0, rest.1)
  }

  /** The index of the first quit event at or after i, or |queue| if there is none. */
  function FirstQuit(queue: seq<Event>, i: nat): (k: nat)
    requires i <= |queue|
    ensures i <= k <= |queue|
    ensures forall j :: i <= j < k ==> !queue[j].Quit?
    ensures k < |queue| ==> queue[k].Quit?
    decreases |queue| - i
  {
    if i == |queue| || queue[i].Quit? then i else FirstQuit(queue, i + 1)
  }

  /** The fan-outs of the events at indexes lo .. hi-1, concatenated in queue order. */
  function FanOuts(funcs: seq<CallbackId>, listeners: seq<ListenerId>, lo: nat, hi: nat): seq<Dispatch>
    requires lo <= hi
    decreases hi
  {
    if lo == hi then [] else FanOuts(funcs, listeners, lo, hi - 1) + FanOut(funcs, listeners, hi - 1)
  }

  lemma {:induction false} FanOutsCons(funcs: seq<CallbackId>, listeners: seq<ListenerId>, lo: nat, hi: nat)
    requires lo < hi
    ensures FanOuts(funcs, listeners, lo, hi) == FanOut(funcs, listeners, lo) + FanOuts(funcs, listeners, lo + 1, hi)
    decreases hi
  {
    if lo + 1 < hi {
      FanOutsCons(funcs, listeners, lo, hi - 1);
    }
  }

  /** Fan-outs only hold func and listener calls, for events at indexes lo .. hi-1. */
  lemma {:induction false} FanOutsEvents(funcs: seq<CallbackId>, listeners: seq<ListenerId>, lo: nat, hi: nat)
    requires lo <= hi
    ensures forall d :: d in FanOuts(funcs, listeners, lo, hi) ==>
                          (d.ToFunc? || d.ToListener?) && lo <= d.event < hi
    decreases hi
  {
    if lo < hi {
      FanOutsEvents(funcs, listeners, lo, hi - 1);
    }
  }

  /**
   * `handle_events` dispatches exactly the events before the first quit event,
   * each to every func and then every listener, and then calls `on_quit` (if set)
   * once and stops; with no quit event it dispatches every event and goes on.
   */
  lemma {:induction false} DispatchedExact(funcs: seq<CallbackId>, listeners: seq<ListenerId>,
                                           onQuit: Option<CallbackId>, queue: seq<Event>, i: nat)
    requires i <= |queue|
    ensures var k := FirstQuit(queue, i);
            Dispatched(funcs, listeners, onQuit, queue, i).0 ==
              FanOuts(funcs, listeners, i, k) + (if k < |queue| then QuitCall(onQuit) else [])
    ensures Dispatched(funcs, listeners, onQuit, queue, i).1 <==> FirstQuit(queue, i) < |queue|
    decreases |queue| - i
  {
    if i < |queue| && !queue[i].Quit? {
      DispatchedExact(funcs, listeners, onQuit, queue, i + 1);
      var k := FirstQuit(queue, i);
      FanOutsCons(funcs, listeners, i, k);
      assert k == FirstQuit(queue, i + 1);
      var tail := if k < |queue| then QuitCall(onQuit) else [];
      assert Dispatched(funcs, listeners, onQuit, queue, i).0
          == FanOut(funcs, listeners, i) + (FanOuts(funcs, listeners, i + 1, k) + tail);
      assert FanOut(funcs, listeners, i) + (FanOuts(funcs, listeners, i + 1, k) + tail)
          == FanOuts(funcs, listeners, i, k) + tail;
    }
  }

  /**
   * The consequences for one call of `handle_events`: it stops exactly when the
   * queue holds a quit event; nothing at or after the first quit event reaches a
   * func or a listener; `on_quit` is called at most once, last, and exactly when
   * it is set and the process stops.
   */
  lemma HandleEventsContract(funcs: seq<CallbackId>, listeners: seq<ListenerId>,
                             onQuit: Option<CallbackId>, queue: seq<Event>)
    ensures var (trace, stopped) := Dispatched(funcs, listeners, onQuit, queue, 0);
            && (stopped <==> exists j :: 0 <= j < |queue| && queue[j].Quit?)
            && (forall d :: d in trace && !d.QuitCallback? ==> d.event < FirstQuit(queue, 0))
            && (forall j :: 0 <= j < |trace| && trace[j].QuitCallback? ==>
                  j == |trace| - 1 && stopped && onQuit == Some(trace[j].func))
            && (stopped && onQuit.Some? ==> |trace| > 0 && trace[|trace| - 1] == QuitCallback(onQuit.value))
  {
    DispatchedExact(funcs, listeners, onQuit, queue, 0);
    var k := FirstQuit(queue, 0);
    FanOutsEvents(funcs, listeners, 0, k);
    var trace := Dispatched(funcs, listeners, onQuit, queue, 0).0;
    var prefix := FanOuts(funcs, listeners, 0, k);
    forall j | 0 <= j < |prefix|
      ensures !trace[j].QuitCallback?
    {
      assert trace[j] == prefix[j];
      assert prefix[j] in prefix;
    }
  }

  class EventManager {
    var onQuit: Option<CallbackId>
    var funcs: seq<CallbackId>
    var graphicEvents: seq<ListenerId>

    constructor ()
      ensures onQuit.None? && funcs == [] && graphicEvents == []
    {
      onQuit := None;
      funcs := [];
      graphicEvents := [];
    }

    /** `EventManager.update_managed_objects`: the listener list is replaced. */
    method UpdateManagedObjects(listeners: seq<ListenerId>)
      modifies this
      ensures graphicEvents == listeners
      ensures funcs == old(funcs) && onQuit == old(onQuit)
    {
      graphicEvents := listeners;
    }

    /** `EventManager.add_managed_object`, run by every `Graphic_Event` constructor. */
    method AddManagedObject(listener: ListenerId)
      modifies this
      ensures graphicEvents == old(graphicEvents) + [listener]
      ensures funcs == old(funcs) && onQuit == old(onQuit)
    {
      graphicEvents := graphicEvents + [listener];
    }

    /**
     * `EventManager.set_events`: a falsy `call_backs` (None or an empty list)
     * leaves the funcs as they are; `on_quit` is overwritten in every case.
     */
    method SetEvents(callBacks: CallbackArg, quit: Option<CallbackId>)
      modifies this
      ensures funcs == match callBacks
                       case NoCallbacks => old(funcs)
                       case One(f) => [f]
                       case Many(fs) => if fs == [] then old(funcs) else fs
      ensures onQuit == quit && graphicEvents == old(graphicEvents)
    {
      match callBacks {
        case NoCallbacks =>
        case One(f) => funcs := [f];
        case Many(fs) =>
          if fs != [] {
            funcs := fs;
          }
      }
      onQuit := quit;
    }

    /** `EventManager.add_event`: one more func at the end. */
    method AddEvent(func: CallbackId)
      modifies this
      ensures funcs == old(funcs) + [func]
      ensures graphicEvents == old(graphicEvents) && onQuit == old(onQuit)
    {
      funcs := funcs + [func];
    }

    /** `EventManager.handle_events` over one frame's queue. */
    method HandleEvents(queue: seq<Event>) returns (trace: seq<Dispatch>, stopped: bool)
      ensures trace == Dispatched(funcs, graphicEvents, onQuit, queue, 0).0
      ensures stopped == Dispatched(funcs, graphicEvents, onQuit, queue, 0).1
    {
      trace, stopped := [], false;
      var i := 0;
      while i < |queue|
        invariant 0 <= i <= |queue|
        invariant Dispatched(funcs, graphicEvents, onQuit, queue, 0).0 ==
                    trace + Dispatched(funcs, graphicEvents, onQuit, queue, i).0
        invariant Dispatched(funcs, graphicEvents, onQuit, queue, 0).1 ==
                    Dispatched(funcs, graphicEvents, onQuit, queue, i).1
      {
        var event := queue[i];
        if event.Quit? {
          if onQuit.Some? {
            trace := trace + [QuitCallback(onQuit.value)];
          }
          stopped := true;
          return;
        }
        var calls := FanOutOf(i);
        trace := trace + calls;
        i := i + 1;
      }
    }

    /** The body of the loop over the queue for one event that is not a quit event. */
    method FanOutOf(k: nat) returns (calls: seq<Dispatch>)
      ensures calls == FanOut(funcs, graphicEvents, k)
    {
      calls := [];
      var j := 0;
      while j < |funcs|
        invariant 0 <= j <= |funcs|
        invariant calls == FuncCalls(funcs[..j], k)
      {
        assert FuncCalls(funcs[..j + 1], k) == FuncCalls(funcs[..j], k) + [ToFunc(funcs[j], k)];
        calls := calls + [ToFunc(funcs[j], k)];
        j := j + 1;
      }
      assert funcs[..j] == funcs;
      if graphicEvents == [] {
        return;
      }
      ghost var afterFuncs := calls;
      var m := 0;
      while m < |graphicEvents|
        invariant 0 <= m <= |graphicEvents|
        invariant calls == afterFuncs + ListenerCalls(graphicEvents[..m], k)
      {
        assert ListenerCalls(graphicEvents[..m + 1], k) == ListenerCalls(graphicEvents[..m], k) + [ToListener(graphicEvents[m], k)];
        calls := calls + [ToListener(graphicEvents[m], k)];
        m := m + 1;
      }
      assert graphicEvents[..m] == graphicEvents;
    }
  }
}
