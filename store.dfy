/** `createStore`: the store object with `dispatch`, `getState` and `subscribe`,
    and the unsubscribe closure that `subscribe` returns. */
module Store {
  import opened Actions
  import opened Counter
  import opened Subscribers

  /** One dispatch as seen from the state: a rejected action leaves it as it was. */
  function Step<S>(reducer: (S, Action) -> S, state: S, action: Value): S {
    if ValidateAction(action).Pass? then reducer(state, action) else state
  }

  /** The state after dispatching `actions`, in order, starting from `state`. */
  function Replay<S>(reducer: (S, Action) -> S, state: S, actions: seq<Value>): S
    decreases |actions|
  {
    if actions == [] then state
    else Step(reducer, Replay(reducer, state, actions[..|actions| - 1]), actions[|actions| - 1])
  }

  /** Number of actions in `actions` that are objects tagged `tag`. */
  function Tally(actions: seq<Value>, tag: string): nat
    decreases |actions|
  {
    if actions == [] then 0
    else
      var last := actions[|actions| - 1];
      Tally(actions[..|actions| - 1], tag) + (if last.Obj? && TypeField(last) == Str(tag) then 1 else 0)
  }

  /** Replaying any actions through the counter reducer moves the counter by the
      number of INCREASE actions minus the number of DECREASE actions, and
      leaves the other fields alone. */
  lemma {:induction false} ReplayCounter(state: State, actions: seq<Value>)
    ensures Replay(StoreReducer, state, actions).counter
              == state.counter + Tally(actions, INCREASE) - Tally(actions, DECREASE)
    ensures Replay(StoreReducer, state, actions).others == state.others
    decreases |actions|
  {
    if actions != [] {
      ReplayCounter(state, actions[..|actions| - 1]);
    }
  }

  /** From `{ counter: 0 }`, n INCREASE and m DECREASE dispatches give counter n - m. */
  lemma CounterFromInitialState(actions: seq<Value>)
    ensures Replay(StoreReducer, InitialState, actions).counter
              == Tally(actions, INCREASE) - Tally(actions, DECREASE)
  {
    ReplayCounter(InitialState, actions);
  }

  /** The object `createStore` returns, with its two closure variables `state`
      and `subscribers`. Invoking a handler is recorded by appending it to `calls`. */
  class Store<S> {
    const reducer: (S, Action) -> S
    ghost const initialState: S
    /** Every action dispatched so far, rejected ones included. */
    ghost var dispatched: seq<Value>
    var state: S
    var subscribers: seq<HandlerId>
    var calls: seq<HandlerId>

    /** The state has only ever been replaced by the reducer's results. */
    ghost predicate Valid()
      reads this`state, this`dispatched
    {
      state == Replay(reducer, initialState, dispatched)
    }

    /** `createStore(reducer, initialState)`. */
    constructor (reducer: (S, Action) -> S, initialState: S)
      ensures Valid()
      ensures this.reducer == reducer && this.initialState == initialState
      ensures state == initialState && subscribers == [] && calls == [] && dispatched == []
    {
      this.reducer := reducer;
      this.initialState := initialState;
      dispatched := [];
      state := initialState;
      subscribers := [];
      calls := [];
    }

    /** `dispatch(action)`: validate, replace the state, then call every
        subscriber once, in order. A rejected action throws before any of that. */
    method Dispatch(action: Value) returns (r: Outcome)
      requires Valid()
      modifies this`state, this`calls, this`dispatched
      ensures Valid()
      ensures dispatched == old(dispatched) + [action]
      ensures r == ValidateAction(action)
      ensures r.Fail? ==> state == old(state) && calls == old(calls)
      ensures r.Pass? ==> state == reducer(old(state), action) && calls == old(calls) + subscribers
      ensures state == Step(reducer, old(state), action)
    {
      r := ValidateAction(action);
      dispatched := dispatched + [action];
      assert dispatched[..|dispatched| - 1] == old(dispatched);
      if r.Fail? {
        return;
      }
      state := reducer(state, action);
      var i := 0;
      while i < |subscribers|
        invariant 0 <= i <= |subscribers|
        invariant calls == old(calls) + subscribers[..i]
        invariant state == reducer(old(state), action) && dispatched == old(dispatched) + [action]
      {
        calls := calls + [subscribers[i]];
        i := i + 1;
      }
    }

    /** `getState()`. */
    method GetState() returns (s: S)
      ensures s == state
    {
      s := state;
    }

    /** `subscribe(handler)`: append the handler and hand back its unsubscribe closure. */
    method Subscribe(handler: HandlerId) returns (unsubscribe: Subscription<S>)
      modifies this`subscribers
      ensures subscribers == old(subscribers) + [handler]
      ensures state == old(state) && calls == old(calls)
      ensures fresh(unsubscribe) && unsubscribe.store == this && unsubscribe.handler == handler
    {
      subscribers := subscribers + [handler];
      unsubscribe := new Subscription(this, handler);
    }
  }

  /** The closure `subscribe` returns, with the store and the handler it captured. */
  class Subscription<S> {
    const store: Store<S>
    const handler: HandlerId

    constructor (store: Store<S>, handler: HandlerId)
      ensures this.store == store && this.handler == handler
    {
      this.store := store;
      this.handler := handler;
    }

    /** Calling the closure: find the handler with `indexOf` and splice it out
        when the index found is greater than 0. */
    method Unsubscribe()
      modifies store`subscribers
      ensures store.subscribers == Unsubscribed(old(store.subscribers), handler)
      ensures store.state == old(store.state) && store.calls == old(store.calls)
    {
      var index := FindIndex(store.subscribers, handler);
      if index > 0 {
        store.subscribers := store.subscribers[..index] + store.subscribers[index + 1..];
      }
    }
  }

  /** `getState().counter` of a counter store built from `{ counter: 0 }`: the
      number of INCREASE actions dispatched so far minus the number of DECREASE ones. */
  method CounterAfterDispatches(store: Store<State>) returns (counter: int)
    requires store.Valid() && store.reducer == StoreReducer && store.initialState == InitialState
    ensures counter == Tally(store.dispatched, INCREASE) - Tally(store.dispatched, DECREASE)
  {
    var s := store.GetState();
    CounterFromInitialState(store.dispatched);
    counter := s.counter;
  }

  /** A counter view subscribes handler 1, an INCREASE is dispatched, the view
      unsubscribes and another INCREASE is dispatched. Being the first
      subscriber, handler 1 is not removed and is notified both times. */
  method OnlySubscriberScenario() returns (calls: seq<HandlerId>, counter: int)
    ensures calls == [1, 1]
    ensures counter == 2
  {
    var store := new Store(StoreReducer, InitialState);
    var unsubscribe := store.Subscribe(1);
    var r := store.Dispatch(IncreaseAction);
    assert store.calls == [1] && store.state == State(1, map[]) by {
      CounterConstants();
    }
    unsubscribe.Unsubscribe();
    assert store.subscribers == [1] by {
      assert IndexOf([1], 1) == 0;
    }
    r := store.Dispatch(IncreaseAction);
    assert store.calls == [1, 1] && store.state == State(2, map[]) by {
      CounterConstants();
    }
    var s := store.GetState();
    calls, counter := store.calls, s.counter;
  }

  /** The same with handler 2 subscribed before handler 1: now the unsubscribe
      takes effect and only handler 2 hears the second dispatch. */
  method SecondSubscriberScenario() returns (calls: seq<HandlerId>, counter: int)
    ensures calls == [2, 1, 2]
    ensures counter == 0
  {
    var store := new Store(StoreReducer, InitialState);
    var _ := store.Subscribe(2);
    var unsubscribe := store.Subscribe(1);
    var r := store.Dispatch(IncreaseAction);
    assert store.calls == [2, 1] && store.state == State(1, map[]) by {
      CounterConstants();
    }
    unsubscribe.Unsubscribe();
    assert store.subscribers == [2] by {
      assert IndexOf([2, 1], 1) == 1;
    }
    r := store.Dispatch(DecreaseAction);
    assert store.calls == [2, 1, 2] && store.state == State(0, map[]) by {
      CounterConstants();
    }
    var s := store.GetState();
    calls, counter := store.calls, s.counter;
  }

  /** A rejected dispatch (here an array) changes neither the state nor the log. */
  method RejectedDispatchScenario() returns (r: Outcome, calls: seq<HandlerId>, counter: int)
    ensures r == Fail(NotAnObjectMessage)
    ensures calls == [] && counter == 0
  {
    var store := new Store(StoreReducer, InitialState);
    var _ := store.Subscribe(1);
    r := store.Dispatch(Arr([IncreaseAction]));
    var s := store.GetState();
    calls, counter := store.calls, s.counter;
  }
}
