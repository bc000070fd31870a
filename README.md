# A counter reducer and a minimal store, modelled in Dafny

The model covers the state container in `build-redux/src/chapters/5_provider.js`.
It has three parts:

- the counter **reducer**. INCREASE adds one to `counter`, DECREASE subtracts one, and any other tag returns the state unchanged.
- the **action validator** `validateAction`.
- the **store** built by `createStore`. It keeps a current state and an ordered list of subscribed handlers. `dispatch` validates the action, replaces the state with the reducer's result, and then calls every handler in order. `getState` reads the state. `subscribe` appends a handler and returns an unsubscribe closure.

Modules:

- `Actions` (`actions.dfy`): JavaScript values as far as the code inspects them (`!action`, `typeof`, `Array.isArray`, `action.type`). It also holds `ValidateAction` and the subset type `Action` of the values it accepts.
- `Counter` (`counter.dfy`): the state record (`counter` plus the other fields), `INCREASE`, `DECREASE`, `initialState` and `Reducer`.
- `Subscribers` (`subscribers.dfy`): the subscriber list as a sequence of handler identities. It holds the `indexOf` search (a function and the loop that computes it) and the list the unsubscribe closure leaves behind.
- `Store` (`store.dfy`): the class `Store`, whose fields are the closure variables `state` and `subscribers`, and the class `Subscription`, which is the unsubscribe closure. A ghost list of every dispatched action lets the invariant `Valid()` say that the state has only ever been replaced by the reducer's results (`Replay`).

Modelling choices:

- `dispatch` throws on an invalid action. Here it returns an `Outcome` carrying the error message instead.
- A handler is an identity (`HandlerId`). Calling it appends that identity to the store's `calls` log, so "who was notified, in what order" is part of the state.
- `reducer` reads `action.type`, which throws on undefined and null. So `Reducer` requires the action to be neither. `createStore` takes any reducer over validated actions.
- The model follows the code as written. The validator compares `action.type` with the string `'undefined'` and so accepts an object with no `type`. The unsubscribe closure never removes the handler at index 0. "## Findings" gives the intended behaviour of both.

## Model

| member | source | states |
|---|---|---|
| `Actions.Truthy` | build-redux/src/chapters/5_provider.js:39 | `!action`: undefined, null, false, 0 and the empty string are falsy, every other value is truthy |
| `Actions.TypeOf` | build-redux/src/chapters/5_provider.js:39 | `typeof action`: "object" for null, arrays and objects, "function" for functions, the primitive's own name otherwise |
| `Actions.IsArray` | build-redux/src/chapters/5_provider.js:39 | `Array.isArray(action)`: true of arrays only |
| `Actions.ObjectGuardIff` | build-redux/src/chapters/5_provider.js:39 | the three-part guard holds exactly of the values that are not plain objects; `typeof` gives "object" exactly for null, arrays and objects; every object is truthy |
| `Actions.TypeField` | build-redux/src/chapters/5_provider.js:18 | `action.type` on a value other than undefined and null: undefined for every non-object, and for an object undefined exactly when `type` is missing or holds undefined |
| `Actions.ValidateAction` | build-redux/src/chapters/5_provider.js:38-45 | the falsy, non-object and array guard rejects exactly the values that are not plain objects, with "Action must be an object!"; an object is rejected, with "Action must have a type", exactly when its `type` is the string "undefined"; every other object passes |
| `Actions.UntypedObjectAccepted` | build-redux/src/chapters/5_provider.js:42-44 | an object with no `type`, or with `type` undefined, passes validation |
| `Actions.ValidateActionIntended` | build-redux/src/chapters/5_provider.js:42-44 | corrected validator: passes exactly the objects whose `type` is set to something other than undefined |
| `Actions.ValidatorsDisagreeOnlyOnTypeTag` | build-redux/src/chapters/5_provider.js:42-44 | the written and the corrected validator differ exactly on objects whose `type` is unset or the string "undefined" |
| `Counter.Reducer` | build-redux/src/chapters/5_provider.js:16-32 | INCREASE gives counter + 1, DECREASE gives counter - 1, other fields copied; any other tag, a missing one included, gives the input state |
| `Counter.CounterConstants` | build-redux/src/chapters/5_provider.js:12-14 | `INCREASE` and `DECREASE` are distinct tags, `initialState` is `{ counter: 0 }` with no other field, and `{ type: INCREASE }` and `{ type: DECREASE }` pass validation carrying those tags |
| `Counter.IncreaseDecreaseInverse` | build-redux/src/chapters/5_provider.js:19-28 | INCREASE then DECREASE, or DECREASE then INCREASE, gives back the original state |
| `Subscribers.IndexOf` | build-redux/src/chapters/5_provider.js:62 | the result is -1 exactly when the handler is absent, else the position of its first entry |
| `Subscribers.FindIndex` | build-redux/src/chapters/5_provider.js:62 | the search loop returns `IndexOf` |
| `Subscribers.SpliceRemovesOne` | build-redux/src/chapters/5_provider.js:64 | `splice(i, 1)` removes one entry of the handler at `i` and keeps every other handler in order |
| `Subscribers.Unsubscribed` | build-redux/src/chapters/5_provider.js:61-66 | the closure as written: when the first index of the handler is 0 or -1 the list is unchanged; otherwise the entry at that index is removed, the entries before it stay in place and those after it move down by one |
| `Subscribers.UnsubscribedChangesIff` | build-redux/src/chapters/5_provider.js:61-66 | unsubscribing leaves the list unchanged if and only if the handler is absent or first; otherwise the list shrinks by one |
| `Subscribers.FirstHandlerNeverRemoved` | build-redux/src/chapters/5_provider.js:63 | the handler at index 0 is never removed |
| `Subscribers.UnsubscribedRemovesOnlyH` | build-redux/src/chapters/5_provider.js:61-66 | unsubscribing removes one entry of the handler exactly when its first index is > 0, and that entry is the first one: the list before it is unchanged and the list after it is the old one shifted down; every other handler keeps its count and order |
| `Subscribers.FirstHandlerStuckForever` | build-redux/src/chapters/5_provider.js:61-66 | any number of calls of the first handler's closure leaves the list unchanged |
| `Subscribers.RepeatedUnsubscribeRemovesAll` | build-redux/src/chapters/5_provider.js:61-66 | if the handler is not first, calling its closure once per entry removes all its entries and keeps the rest in order |
| `Subscribers.SubscribeThenUnsubscribe` | build-redux/src/chapters/5_provider.js:57-66 | subscribing a new handler and unsubscribing it restores the list, except on an empty list, where the handler stays |
| `Subscribers.UnsubscribedIntended` | build-redux/src/chapters/5_provider.js:61-66 | corrected closure: removes one entry of a present handler wherever it is, keeps the others, and changes nothing for an absent one |
| `Subscribers.SubscribeThenUnsubscribeIntended` | build-redux/src/chapters/5_provider.js:57-66 | with the corrected closure, subscribing a new handler and unsubscribing it always restores the list |
| `Store.Step` | build-redux/src/chapters/5_provider.js:52-53 | what one dispatch does to the state: a rejected action leaves it, an accepted one replaces it with the reducer's result |
| `Store.ReplayCounter` | build-redux/src/chapters/5_provider.js:51-53 | after any sequence of dispatches, the counter has moved by the number of INCREASE actions minus the number of DECREASE actions, and the other fields are unchanged |
| `Store.CounterFromInitialState` | build-redux/src/chapters/5_provider.js:14 | from `{ counter: 0 }`, n INCREASE and m DECREASE dispatches give counter n - m |
| `Store.Store.constructor` | build-redux/src/chapters/5_provider.js:47-49 | a new store holds the initial state, no subscribers and an empty log |
| `Store.Store.Dispatch` | build-redux/src/chapters/5_provider.js:51-55 | a rejected action returns the validator's error and changes neither the state nor the log; an accepted one sets the state to the reducer's result and calls each subscriber once, in list order; the new state is `Step` of the old one; the state stays the reducer's result over all dispatched actions |
| `Store.Store.GetState` | build-redux/src/chapters/5_provider.js:56 | returns the current state |
| `Store.Store.Subscribe` | build-redux/src/chapters/5_provider.js:57-60 | appends the handler, so a handler subscribed twice has two entries; the state and log are unchanged; returns a fresh closure bound to this store and handler |
| `Store.Subscription.Unsubscribe` | build-redux/src/chapters/5_provider.js:61-66 | the list becomes `Unsubscribed` of the old list; the state and the log do not change |
| `Store.CounterAfterDispatches` | build-redux/src/chapters/5_provider.js:47-56 | the counter of a store created from `{ counter: 0 }` equals the INCREASE dispatches minus the DECREASE dispatches so far |
| `Store.OnlySubscriberScenario` | build-redux/src/chapters/5_provider.js:47-70 | a lone subscriber that unsubscribes between two INCREASE dispatches is still notified twice, and the counter reaches 2 |
| `Store.SecondSubscriberScenario` | build-redux/src/chapters/5_provider.js:47-70 | a second subscriber that unsubscribes is notified only for the dispatch before; the other subscriber hears both |
| `Store.RejectedDispatchScenario` | build-redux/src/chapters/5_provider.js:38-55 | dispatching an array fails with "Action must be an object!", notifies no one and leaves the counter at 0 |

## Left out

- The `Provider` and `Counter` React components, the context wiring, `setState` and the lifecycle hooks (lines 82-139). They are view code over React, which is not part of this model.
- `ReactDOM.render` and `document.getElementById` (lines 141-146). These are DOM I/O.
- The module-level `store` (line 72). The model builds stores explicitly through the `Store` constructor.
- JavaScript number semantics. `counter` is a mathematical integer, with no floating point and no loss of precision past 2^53. Numbers in actions are integers too, so NaN and -0 are not represented. A bare NaN or -0 action is falsy and would be rejected anyway. Inside an object it is different: `{ type: NaN }` passes validation, and the model cannot represent such an action.
- Symbols, BigInts, accessor properties and the prototype chain. Only own properties of plain objects are represented.
- What handlers do when called. Subscribing or unsubscribing from inside a handler while `forEach` runs is not modelled either. A handler call only appends its identity to `calls`.
- Reference identity. The reducer's default branch returns the very same object in JavaScript. The model can only say it returns an equal value.
- The reducer's default parameter `state = initialState` (line 16). The store always passes a state.
- `Counter.Reducer`: it is not defined on undefined or null actions. In JavaScript those throw a TypeError when `action.type` is read, and no path through the store reaches them.

## Findings

| source | as written | input that shows it | evidently intended | confidence | as-written member | corrected member |
|---|---|---|---|---|---|---|
| build-redux/src/chapters/5_provider.js:63 | the closure removes the handler only when `index > 0` | subscribe `f` on a new store, then call its unsubscribe closure: `subscribers` is still `[f]`, and `f` is notified by every later dispatch | remove whenever the handler is found, `index >= 0` | high; not executed | `Subscribers.FirstHandlerNeverRemoved` (and `Store.OnlySubscriberScenario`) | `Subscribers.UnsubscribedIntended` (with `Subscribers.SubscribeThenUnsubscribeIntended`) |
| build-redux/src/chapters/5_provider.js:42 | `action.type === 'undefined'` compares with the string "undefined" | `dispatch({})` is accepted although the message says an action must have a type; `dispatch({ type: 'undefined' })` is rejected | reject when `type` is unset, `action.type === undefined` | high; not executed | `Actions.UntypedObjectAccepted` | `Actions.ValidateActionIntended` (with `Actions.ValidatorsDisagreeOnlyOnTypeTag`) |

The `Store` classes keep the code as written. Their contracts therefore describe the program as it behaves. The corrected definitions sit beside the written ones, and their intended properties are proved there.
