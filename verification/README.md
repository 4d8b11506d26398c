# minska store, modelled in Dafny

This project models the core of minska, a small application-state container.
It covers three source files:

- **The store** (`src/store.js`). Construction validates the reducer and effect
  tables. The `state` setter calls the `onChange` hook and then installs the
  new state. `send(action, data)` checks the action and the payload, announces
  the action, and dispatches it to an effect or to a reducer.
  `subscribe`/`unsubscribe` maintain the subscription list. The private
  `[Emit]` calls an event's hook, then that event's subscribers.
- **`combine(...list)`** (`src/combine.js`). A left fold that flattens handler
  records into one record. A record with a non-empty `namespace` has its keys
  prefixed `ns:`.
- **The helpers** (`src/utils.js`). `formatMsg` and `validateObjHasOnlyFunctions`.

The store is a pure state machine. A `Store` value holds four things: the
state (a map from strings to values), the reducer behaviours, the set of
effect names, and the subscription sequence. The constructor returns either
a store or the error it threw (`Outcome<Store>`). Every other public
operation returns a `Step`, which holds:

- the next store;
- the trace of calls it made, in order (hook calls `Hook(event)`, subscriber
  calls `Listener(id, fn)` and effect invocations `EffectFn(action)`, each
  with its positional arguments);
- either a result or the error it threw.

JavaScript values are a small tagged datatype (`Values.Value`). Function
values carry an identity (`VFn(id)`). The constructor receives a parameter
`impl` that gives the behaviour of each function identity: a total function
`(State, Value) -> State`.

Modules: `Values` (values.dfy), `Utils` (utils.dfy), `Combine` (combine.dfy),
`Events` (events.dfy: events, subscriptions, errors, `Filter`, `Emit`),
`Stores` (store.dfy) and `StoreProperties` (store_properties.dfy: properties
that relate several calls).

Where the code and its documentation disagree, the model follows the code:

- **No namespace routing.** The action-name format `ns:name` suggests that the
  store routes a namespaced action to a slice of the state. It does not. The
  whole action string is the lookup key (src/store.js:81-82). The reducer
  receives and returns the whole state (src/store.js:100). `Stores.Send`
  does the same.
- **`onChange` on the reducer path.** The setter calls the hook with
  `(previous, next)` (src/store.js:59). Then `[Emit]` at src/store.js:102
  passes `(nextState, this.state)`. By then `this.state` already is
  `nextState`. So the hook runs a second time with `(next, next)`, and every
  `onChange` subscriber receives `(next, next)`. This contradicts the
  `(nextState, state)` comment at src/store.js:46.
  `StoreProperties.ReducerPathHooks` and
  `StoreProperties.ReducerPathChangeSubscribers` state this behaviour.
- **Duplicate subscription ids.** Nothing stops two subscriptions from
  sharing an id. `subscribe` appends without a check (src/store.js:115).
  `unsubscribe` removes every entry with the id (src/store.js:127).

## Model

| member | source | states |
|---|---|---|
| Utils.FormatMsg | src/utils.js:3 | the result is the tag `minska: ` followed by the message, and nothing else |
| Utils.StripTagFormatMsg | src/utils.js:3 | removing the 8-character tag from `formatMsg(m)` gives back `m` |
| Utils.FormatMsgStripTag | src/utils.js:3 | every string that starts with the tag is `formatMsg` of what follows the tag |
| Utils.FormatMsgInjective | src/utils.js:3 | distinct messages format to distinct strings |
| Utils.ValidateObjHasOnlyFunctions | src/utils.js:7-8 | the map-then-every pipeline returns true exactly when every value of the record is a function |
| Utils.AllFunctionsEmpty | src/utils.js:7-8 | the empty record passes the check |
| Utils.AllFunctionsAddNonFunction | src/utils.js:7-8 | adding one non-function entry makes the check fail |
| Utils.AllFunctionsRemoveKeys | src/utils.js:7-8 | removing entries from a passing record keeps it passing |
| Combine.Prefix | src/combine.js:5 | the key prefix is empty or ends in the separator `:` |
| Combine.QualifiedKey | src/combine.js:5-9 | the output key is the namespace prefix followed by the entry's own key, unchanged |
| Combine.QualifiedKeyCases | src/combine.js:5-9 | a non-empty namespace `ns` turns key `k` into `ns:k`; an absent or empty namespace leaves `k` bare |
| Combine.QualifiedKeyInjective | src/combine.js:5-9 | under one namespace, distinct keys give distinct output keys |
| Combine.Flatten | src/combine.js:7-11 | every key of an argument other than `namespace` appears under its qualified name with its value unchanged |
| Combine.FlattenProvenance | src/combine.js:7-11 | every key an argument contributes is the qualified form of one of its own keys, with that key's value (nothing is invented) |
| Combine.NamespaceKeyNotCopied | src/combine.js:8-9 | the key `namespace` itself is never copied |
| Combine.Absorb | src/combine.js:7-11 | one reducer step: the accumulator afterwards holds its old keys and the argument's keys; the argument's values overwrite, other keys keep their values |
| Combine.Fold | src/combine.js:6-13 | the fold keeps every key of the starting accumulator and every key any argument contributes |
| Combine.Combine | src/combine.js:3-14 | no key any argument contributes is lost from the result |
| Combine.CombineEmpty | src/combine.js:3-14 | with no arguments the result is the empty record |
| Combine.FoldSnoc | src/combine.js:3-14 | folding one more argument on the right lays its entries over the earlier result |
| Combine.CombineSnoc | src/combine.js:3-14 | `combine(...list, h)` is `combine(...list)` overwritten by `h`'s entries |
| Combine.LastIndex | src/combine.js:3-14 | reference for "later wins": the returned index satisfies the test, and no later index among the first `n` does; `None` means none does |
| Combine.CombineLastWins | src/combine.js:3-14 | a key is in the output exactly when some argument writes it, and its value is the one the LAST argument writing it gave it |
| Combine.CombineCopiesEntry | src/combine.js:4-11 | an argument's entry appears in the output, with its value, unless a later argument writes the same output key |
| Combine.CombinePair | src/combine.js:3-14 | two arguments combine to the second's entries laid over the first's |
| Combine.FlattenTwo | src/combine.js:4-11 | a namespaced argument with two keys contributes exactly the two prefixed keys |
| Combine.CombineExample | tests/combine.test.js:4-17 | `combine({namespace: ns, k1, k2}, {k1})` gives `ns:k1`, `ns:k2` and the later bare `k1` |
| Events.ParseEvent | src/store.js:109 | an event name is accepted exactly when it is one of `onError`, `onAction`, `onChange`, and it maps to the event of that name |
| Events.ParseEventName | src/store.js:40 | every event's name is accepted as that event |
| Events.StoreMsg | src/store.js:15 | the store's private message helper gives the same text as `formatMsg` |
| Events.HandlerText | src/store.js:87 | the unregistered-action text is the fixed lead-in, the action name, then a full stop |
| Events.EventText | src/store.js:110 | the unknown-event text starts with the event name and ends in a full stop |
| Events.SubscriberText | src/store.js:122 | the unknown-id text ends with the id between double quotes, then a full stop |
| Events.Describe | src/store.js:20-122 | the text of every throw site is a sentence ending in a full stop |
| Events.Raise | src/store.js:20-122 | a raised error keeps its kind, and removing the library tag from its message gives back the text for that kind |
| Events.Filter | src/store.js:127 | `filter` keeps exactly the elements satisfying the test, and never grows the list |
| Events.FilterAppend | src/store.js:127 | filtering a concatenation filters each part: kept elements keep their relative order |
| Events.FilterKeepsAll | src/store.js:127 | a list none of whose elements fails the test is unchanged by filtering |
| Events.FilterDropsAll | src/store.js:127 | a list none of whose elements passes the test filters to empty |
| Events.Listening | src/store.js:136 | every subscription selected for an event is one of the store's, subscribed to that event |
| Events.Notified | src/store.js:136-138 | the subscriber calls are one per selected subscription, in order, each with the emitted arguments |
| Events.NotifiedAppend | src/store.js:136-138 | a subscription added last is called after all earlier ones, and only for its own event |
| Events.NotifiedComplete | src/store.js:136-138 | every subscription to the event is called |
| Events.Emit | src/store.js:132-139 | the hook of the event is called first; then call `i` goes to the `i`-th subscription to that event, in insertion order, with the same arguments; every subscription to that event is called, and no other |
| Events.EmitAppend | src/store.js:136-138 | a subscription added last is called after all earlier ones, and only for its own event |
| Events.EmitCallsHookOnce | src/store.js:133-134 | one emission calls its own hook exactly once and no other hook |
| Stores.Construct | src/store.js:7-37 | construction throws the reducer error if any reducer is not a function; otherwise it throws the effect error if any effect is not a function; otherwise the store has the given state (default empty), the given handlers and no subscriptions |
| Stores.SetState | src/store.js:58-61 | the setter calls only the `onChange` hook, with the old and then the new state, and installs the new state; nothing else changes |
| Stores.Announce | src/store.js:79 | `send` announces with the `onAction` hook first, then subscribers only, all with (action, data, state) |
| Stores.Complain | src/store.js:67-123 | before each throw the `onError` hook is called first, then subscribers only, all with (error, state) |
| Stores.Send | src/store.js:65-104 | a non-string action, then function data, throws after `onError`, before `onAction`; otherwise `onAction` comes first; an unregistered name throws after `onError`; an effect wins over a same-named reducer and leaves the state; a reducer's result is installed and returned, with the `onChange` calls the code makes; handlers and subscriptions never change; a throw leaves the store as it was |
| Stores.Find | src/store.js:121 | `find` succeeds exactly when some subscription has the id, and returns the first one that has it |
| Stores.Subscribe | src/store.js:108-116 | an unknown event throws after `onError` and changes nothing; a known one appends `{event, id, fn}` at the end; the state and handlers are untouched |
| Stores.OtherIdsKept | src/store.js:127 | filtering by id keeps exactly the entries with another id |
| Stores.Unsubscribe | src/store.js:120-128 | an id no subscription has throws after `onError` and changes nothing; otherwise exactly the entries with other ids remain, in their original order and multiplicity |
| StoreProperties.SendErrorNotifiesOnce | src/store.js:66-90 | a throwing `send` calls the `onError` hook exactly once, with the error and the unchanged state; `onAction` was called once if the action was well typed, and never otherwise |
| StoreProperties.ReducerPathTrace | src/store.js:100-103 | the reducer path's calls are the action announcement, then the setter's hook call, then the `onChange` emission |
| StoreProperties.ReducerShapeChangeHooks | src/store.js:58-103 | in a reducer-path trace the `onChange` hook is called twice: (previous, next), then (next, next) |
| StoreProperties.ReducerShapeActionHooks | src/store.js:79-103 | in a reducer-path trace the `onAction` hook is called once, with the announcement's arguments |
| StoreProperties.ReducerShapeErrorHooks | src/store.js:79-103 | a reducer-path trace has no `onError` hook call |
| StoreProperties.ReducerPathHooks | src/store.js:58-103 | on the reducer path the `onChange` hook is called twice, first with (previous, next) and then with (next, next); `onAction` once; `onError` never |
| StoreProperties.ReducerPathChangeSubscribers | src/store.js:102 | every `onChange` subscriber is called with (next, next) |
| StoreProperties.EffectShadowsReducer | src/store.js:81-95 | an action registered as an effect invokes the effect with (state, data), even when a reducer has the same name; the state is unchanged and no `onChange` call is made |
| StoreProperties.SendUnregisteredName | tests/store.test.js:119 | `send('42')` throws because no handler is named `42`, after `onAction` fired |
| StoreProperties.SetStateLastWins | src/store.js:52-61 | the getter reads back the assigned state; a later assignment overrides an earlier one; assigning the current state leaves the store as it was |
| StoreProperties.SubscribeThenUnsubscribe | src/store.js:108-128 | subscribing under a fresh id and then unsubscribing it gives back the original store |
| StoreProperties.UnsubscribeTwice | src/store.js:120-128 | after a successful `unsubscribe(id)`, a second one throws and changes nothing |
| StoreProperties.NotifiedWithoutId | src/store.js:127-138 | subscribers remaining after removing an id are called exactly as before, in the same order, minus the calls to that id |
| StoreProperties.UnsubscribeNotifications | src/store.js:120-138 | after `unsubscribe(id)` every emission makes the same hook call and the same subscriber calls in the same order as before, minus those to subscribers with that id |
| StoreProperties.SubscriberNotifiedLast | src/store.js:115-138 | a new subscriber is notified after all earlier ones, and only of its own event |
| StoreProperties.CounterExample | src/store.js:100-103 | with `inc: (s, n) => ({count: s.count + n})`, sending `inc 5` twice returns `{count: 5}` and then `{count: 10}` |
| StoreProperties.Run | src/store.js:58-128 | no sequence of public calls changes the reducer or effect tables |
| StoreProperties.RunRegistry | src/store.js:108-128 | calls other than `subscribe`/`unsubscribe` leave the subscription list as it was; a run made only of those two calls leaves the state as it was |

## Left out

- Asynchrony on the effect path is not modelled. This covers the
  `Promise.resolve` wrapper (src/store.js:94), what an effect does after it
  suspends, concurrent effects, and rejections. The model records only that
  the effect was invoked with (state, data), and `send` returns `Pending`.
  The bound `send` an effect receives is not modelled. Follow-up dispatches
  are separate `Send` calls.
- The bodies of hooks, subscribers, reducers and effects are user code.
  Hook, subscriber and effect calls are trace entries. A reducer is applied
  through the behaviour `impl` gives it. Reentrancy (a callback calling
  `send` or `subscribe` while `[Emit]` runs) is not modelled.
- JavaScript object quirks are not modelled:
  - lookups that reach inherited members such as `toString`;
  - floating-point numbers and `NaN` (numbers are integers here);
  - `Object.assign` applied to a reducer result that is not a record (reducers return records here);
  - a non-string `namespace` value;
  - a hook explicitly set to `null`;
  - a `null` configuration field (only an undefined one takes its default).
- Subscription ids are strings or numbers compared by value, as `===`
  compares them. Object ids are not modelled. Neither is a subscriber
  `fn` that is not a function, which would throw inside `[Emit]`.
- The fields `reducers`, `effects`, `events` and the hooks are publicly
  writable (src/store.js:33-47). The model treats them as fixed after
  construction.
- The `state` getter (src/store.js:52-54) is the field `Store.state`.
- `combine` never modifies its arguments (src/combine.js:3, 9). In the model
  this holds by construction, because all values are immutable. No member
  states it.
- Iteration order of `Object.keys` is not modelled. Every result in the
  modelled code is the same for any order.
- Error messages are modelled with their wording. A numeric subscription id
  is written in decimal.
- `tools/build.js` (bundling, file writes) and the test harness are not part
  of this model.
