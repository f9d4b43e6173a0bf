/**
 * The event dispatcher every strategy runs on (src/utils/stateMachine).
 * A transition table maps a state name and an event name to a handler.
 * Handlers are named by the type parameter `H`; `Dispatch` records the
 * invocation of the handler it found, with its payload, in `invoked`.
 * Running the handler's body is modelled by the strategy modules, whose
 * handler methods take the machine and call `ChangeState` and `Dispatch`.
 */
module StateMachine {
  import opened Wrappers

  /** ITransition: state name -> event name -> handler. */
  type Table<H> = map<string, map<string, H>>

  /** One handler call with the arguments it was given, in order. */
  datatype Invocation<H, P> = Invocation(handler: H, payload: seq<P>)

  /** The handler `table[state][event]`, if there is one (underscore's `get`). */
  function Lookup<H>(table: Table<H>, state: string, event: string): Option<H>
  {
    if state in table && event in table[state] then Some(table[state][event]) else None
  }

  /** What `dispatch(event, ...payload)` in `state` invokes: one call, or none. */
  function Called<H, P>(table: Table<H>, state: string, event: string, payload: seq<P>): (r: seq<Invocation<H, P>>)
    ensures |r| <= 1
    ensures r == [] <==> (state !in table || event !in table[state])
    ensures r != [] ==> r[0] == Invocation(table[state][event], payload)
  {
    match Lookup(table, state, event)
    case None => []
    case Some(h) => [Invocation(h, payload)]
  }

  class Machine<H, P> {
    var state: string
    const transitions: Table<H>
    /** Every handler invocation so far, oldest first. */
    var invoked: seq<Invocation<H, P>>

    /** `new StateMachine(states, currentState)`. */
    constructor (states: Table<H>, currentState: string)
      ensures state == currentState && transitions == states
      ensures invoked == []
    {
      state := currentState;
      transitions := states;
      invoked := [];
    }

    /**
     * Looks up the handler for the current state and `event`. A missing
     * entry is a no-op; otherwise that handler is invoked exactly once with
     * `payload`. The state itself is never written here.
     */
    method Dispatch(event: string, payload: seq<P>) returns (handler: Option<H>)
      modifies this`invoked
      ensures state == old(state)
      ensures handler.None? <==> (state !in transitions || event !in transitions[state])
      ensures handler.Some? ==> handler.value == transitions[state][event]
      ensures invoked == old(invoked) + Called(transitions, state, event, payload)
    {
      handler := Lookup(transitions, state, event);
      if handler.Some? {
        invoked := invoked + [Invocation(handler.value, payload)];
      }
    }

    /** Replaces the state by any name, without checking it against the table. */
    method ChangeState(newState: string)
      modifies this`state
      ensures state == newState
      ensures invoked == old(invoked)
    {
      state := newState;
    }
  }

  /**
   * Once the machine sits in a state the table does not know, every later
   * dispatch is a no-op, whatever the events: nothing is invoked and the
   * state stays put.
   */
  method DispatchAllInUnknownState<H, P>(m: Machine<H, P>, events: seq<string>, payload: seq<P>)
    requires m.state !in m.transitions
    modifies m
    ensures m.state == old(m.state)
    ensures m.invoked == old(m.invoked)
  {
    var i := 0;
    while i < |events|
      invariant 0 <= i <= |events|
      invariant m.state == old(m.state)
      invariant m.invoked == old(m.invoked)
    {
      var _ := m.Dispatch(events[i], payload);
      i := i + 1;
    }
  }

  /** `changeState` to a name absent from the table silences the machine. */
  method ChangeToUnknownSilences<H, P>(m: Machine<H, P>, name: string, events: seq<string>, payload: seq<P>)
    requires name !in m.transitions
    modifies m
    ensures m.state == name
    ensures m.invoked == old(m.invoked)
  {
    m.ChangeState(name);
    DispatchAllInUnknownState(m, events, payload);
  }
}
