/** The `Store` class of src/store.js as a pure state machine: every public
    operation takes a store and returns the next store, the trace of hook,
    subscriber and effect calls it made, and either a result or the error
    it threw. */
module Stores {
  import opened Values
  import Utils
  import opened Events

  /** What a reducer does: a total function of the current state and the
      payload. Its body is user code; the model only applies it. */
  type Reducer = (State, Value) -> State

  /** A constructed store. The handler tables are fixed after construction;
      `state` changes through the setter and `subscriptions` through
      `subscribe` / `unsubscribe`. */
  datatype Store = Store(
    state: State,
    reducers: map<string, Reducer>,
    effects: set<string>,
    subscriptions: seq<Subscription>)

  /** The constructor's options; `None` is an option left undefined. The
      hooks are not options here: a hook is always present (the default is
      a no-op) and its calls appear in the trace as `Hook(event)`. */
  datatype Config = Config(
    state: Option<State>,
    reducers: Option<map<string, Value>>,
    effects: Option<map<string, Value>>)

  function InitialState(cfg: Config): State {
    match cfg.state
    case Some(s) => s
    case None => map[]
  }

  function ReducerTable(cfg: Config): map<string, Value> {
    match cfg.reducers
    case Some(m) => m
    case None => map[]
  }

  function EffectTable(cfg: Config): map<string, Value> {
    match cfg.effects
    case Some(m) => m
    case None => map[]
  }

  /** How an operation ended: normally with a value, or by throwing. */
  datatype Outcome<+T> = Ok(value: T) | Thrown(error: Error)

  /** What `send` returns: the installed state on the reducer path, or the
      promise wrapping an effect's result on the effect path. */
  datatype Reply = Installed(state: State) | Pending

  /** The store after an operation, the calls it made, and how it ended. */
  datatype Step<+T> = Step(store: Store, trace: seq<Call>, result: Outcome<T>)

  /** The reducer behaviours of a validated reducer table. */
  function Behaviours(table: map<string, Value>, impl: FnId -> Reducer): map<string, Reducer>
    requires Utils.AllFunctions(table)
  {
    map k | k in table :: impl(table[k].id)
  }

  /** `new Store(config)`: every reducer must be a function, then every
      effect must be; the first failing table decides the error. `impl`
      gives the behaviour of each function value. */
  method Construct(cfg: Config, impl: FnId -> Reducer) returns (r: Outcome<Store>)
    ensures r.Ok? <==> Utils.AllFunctions(ReducerTable(cfg)) && Utils.AllFunctions(EffectTable(cfg))
    ensures !Utils.AllFunctions(ReducerTable(cfg)) ==> r == Thrown(Raise(ReducerNotFunction))
    ensures Utils.AllFunctions(ReducerTable(cfg)) && !Utils.AllFunctions(EffectTable(cfg))
      ==> r == Thrown(Raise(EffectNotFunction))
    ensures r.Ok? ==> r.value.state == InitialState(cfg) && r.value.subscriptions == []
    ensures r.Ok? ==> r.value.effects == EffectTable(cfg).Keys
    ensures r.Ok? ==> r.value.reducers.Keys == ReducerTable(cfg).Keys
    ensures r.Ok? ==> forall k :: k in ReducerTable(cfg) ==>
      IsFunction(ReducerTable(cfg)[k]) && r.value.reducers[k] == impl(ReducerTable(cfg)[k].id)
  {
    var reducers := ReducerTable(cfg);
    var effects := EffectTable(cfg);
    var todo := reducers.Keys;
    while todo != {}
      invariant todo <= reducers.Keys
      invariant forall k :: k in reducers && k !in todo ==> IsFunction(reducers[k])
      decreases todo
    {
      var k :| k in todo;
      if !IsFunction(reducers[k]) {
        return Thrown(Raise(ReducerNotFunction));
      }
      todo := todo - {k};
    }
    todo := effects.Keys;
    while todo != {}
      invariant todo <= effects.Keys
      invariant forall k :: k in effects && k !in todo ==> IsFunction(effects[k])
      decreases todo
    {
      var k :| k in todo;
      if !IsFunction(effects[k]) {
        return Thrown(Raise(EffectNotFunction));
      }
      todo := todo - {k};
    }
    return Ok(Store(InitialState(cfg), Behaviours(reducers, impl), effects.Keys, []));
  }

  /** `set state(next)`: the `onChange` hook is called with the previous
      and the next state, then the next state is installed. Only the hook is
      called; subscribers are not notified. */
  function SetState(s: Store, next: State): (r: Step<()>)
    ensures r.store.state == next && r.result == Ok(())
    ensures r.store.reducers == s.reducers && r.store.effects == s.effects
    ensures r.store.subscriptions == s.subscriptions
    ensures r.trace == [Call(Hook(OnChange), [AState(s.state), AState(r.store.state)])]
  {
    Step(s.(state := next), [Call(Hook(OnChange), [AState(s.state), AState(next)])], Ok(()))
  }

  /** The notification `send` makes before looking up a handler: the
      `onAction` hook, then its subscribers, each with (action, data, state). */
  function Announce(s: Store, action: string, data: Value): (t: seq<Call>)
    ensures |t| >= 1 && t[0] == Call(Hook(OnAction), [AName(action), AValue(data), AState(s.state)])
    ensures forall i :: 1 <= i < |t| ==>
      t[i].target.Listener? && t[i].args == [AName(action), AValue(data), AState(s.state)]
  {
    Emit(s.subscriptions, OnAction, [AName(action), AValue(data), AState(s.state)])
  }

  /** The notification made before every throw: the `onError` hook, then
      its subscribers, each with (error, state). */
  function Complain(s: Store, err: Error): (t: seq<Call>)
    ensures |t| >= 1 && t[0] == Call(Hook(OnError), [AError(err), AState(s.state)])
    ensures forall i :: 1 <= i < |t| ==> t[i].target.Listener? && t[i].args == [AError(err), AState(s.state)]
  {
    Emit(s.subscriptions, OnError, [AError(err), AState(s.state)])
  }

  /** Throw `kind` after the calls `before`, leaving the store as it was. */
  function Fail<T>(s: Store, before: seq<Call>, kind: ErrorKind): Step<T> {
    var err := Raise(kind);
    Step(s, before + Complain(s, err), Thrown(err))
  }

  /** True when the action name is registered as an effect or a reducer.
      The whole name is looked up: there is no namespace parsing. */
  predicate Resolves(s: Store, action: string) {
    action in s.effects || action in s.reducers
  }

  /** `send(action, data)`. */
  function Send(s: Store, action: Value, data: Value): (r: Step<Reply>)
    // Sending never touches the handler tables or the subscriptions.
    ensures r.store.reducers == s.reducers && r.store.effects == s.effects
    ensures r.store.subscriptions == s.subscriptions
    // It throws exactly for a non-string action, function data, or an
    // unregistered name, and then the store is left as it was.
    ensures r.result.Thrown? <==> !IsString(action) || IsFunction(data) || !Resolves(s, action.s)
    ensures r.result.Thrown? ==> r.store == s
    // Type errors come first, in this order, and no `onAction` is emitted.
    ensures !IsString(action) ==>
      r.result == Thrown(Raise(ActionNotString)) && r.trace == Complain(s, Raise(ActionNotString))
    ensures IsString(action) && IsFunction(data) ==>
      r.result == Thrown(Raise(DataIsFunction)) && r.trace == Complain(s, Raise(DataIsFunction))
    // A well-typed send announces the action with the current state first.
    ensures IsString(action) && !IsFunction(data) ==>
      var announced := Announce(s, action.s, data);
      |announced| <= |r.trace| && r.trace[..|announced|] == announced
    ensures IsString(action) && !IsFunction(data) && !Resolves(s, action.s) ==>
      r.result == Thrown(Raise(HandlerNotFound(action.s)))
      && r.trace == Announce(s, action.s, data) + Complain(s, Raise(HandlerNotFound(action.s)))
    // An effect wins over a reducer of the same name and gets (state, data);
    // the state is unchanged.
    ensures IsString(action) && !IsFunction(data) && action.s in s.effects ==>
      r.store == s && r.result == Ok(Pending)
      && r.trace == Announce(s, action.s, data) + [Call(EffectFn(action.s), [AState(s.state), AValue(data)])]
    // Reducer path: the reducer's result is installed and returned; the
    // hook sees (previous, next), then hook and subscribers see (next, next).
    ensures IsString(action) && !IsFunction(data) && action.s !in s.effects && action.s in s.reducers ==>
      var next := s.reducers[action.s](s.state, data);
      r.store == s.(state := next) && r.result == Ok(Installed(next))
      && r.trace == Announce(s, action.s, data)
                    + [Call(Hook(OnChange), [AState(s.state), AState(next)])]
                    + Emit(s.subscriptions, OnChange, [AState(next), AState(next)])
  {
    if !IsString(action) then Fail(s, [], ActionNotString)
    else if IsFunction(data) then Fail(s, [], DataIsFunction)
    else
      var name := action.s;
      var announced := Announce(s, name, data);
      if name !in s.effects && name !in s.reducers then Fail(s, announced, HandlerNotFound(name))
      else if name in s.effects then
        Step(s, announced + [Call(EffectFn(name), [AState(s.state), AValue(data)])], Ok(Pending))
      else
        var next := s.reducers[name](s.state, data);
        var installed := SetState(s, next);
        var changed := Emit(installed.store.subscriptions, OnChange, [AState(next), AState(installed.store.state)]);
        Step(installed.store, announced + installed.trace + changed, Ok(Installed(installed.store.state)))
  }

  /** `subscriptions.find(s => s.id === id)`: the first subscription with
      the id, if there is one. */
  function Find(subs: seq<Subscription>, id: SubId): (r: Option<Subscription>)
    ensures r.Some? <==> exists x :: x in subs && x.id == id
    ensures r.Some? ==>
      exists i :: 0 <= i < |subs| && subs[i] == r.value && r.value.id == id
                  && forall j :: 0 <= j < i ==> subs[j].id != id
    decreases |subs|
  {
    if |subs| == 0 then None
    else if subs[0].id == id then Some(subs[0])
    else
      var rest := Find(subs[1..], id);
      assert forall j :: 1 <= j < |subs| ==> subs[j] == subs[1..][j - 1];
      rest
  }

  /** `s => s.id !== id` */
  function HasOtherId(id: SubId): Subscription -> bool {
    (x: Subscription) => x.id != id
  }

  /** `subscribe(event, id, fn)`. */
  function Subscribe(s: Store, event: string, id: SubId, fn: FnId): (r: Step<()>)
    ensures r.store.state == s.state && r.store.reducers == s.reducers && r.store.effects == s.effects
    ensures r.result.Thrown? <==> event !in EventNames
    ensures r.result.Thrown? ==>
      r.store == s && r.result.error == Raise(InvalidEvent(event))
      && r.trace == Complain(s, Raise(InvalidEvent(event)))
    ensures r.result.Ok? ==>
      r.trace == []
      && exists e :: (EventName(e) == event
                      && r.store.subscriptions == s.subscriptions + [Subscription(e, id, fn)])
  {
    match ParseEvent(event)
    case None => Fail(s, [], InvalidEvent(event))
    case Some(e) => Step(s.(subscriptions := s.subscriptions + [Subscription(e, id, fn)]), [], Ok(()))
  }

  /** Unsubscribing keeps exactly the entries with another id. */
  lemma OtherIdsKept(subs: seq<Subscription>, id: SubId)
    ensures forall x :: x in Filter(subs, HasOtherId(id)) <==> x in subs && x.id != id
  {
    forall x
      ensures x in Filter(subs, HasOtherId(id)) <==> x in subs && HasOtherId(id)(x)
    {
    }
  }

  /** `unsubscribe(id)`. */
  function Unsubscribe(s: Store, id: SubId): (r: Step<()>)
    ensures r.store.state == s.state && r.store.reducers == s.reducers && r.store.effects == s.effects
    ensures r.result.Thrown? <==> forall x :: x in s.subscriptions ==> x.id != id
    ensures r.result.Thrown? ==>
      r.store == s && r.result.error == Raise(SubscriberNotFound(id))
      && r.trace == Complain(s, Raise(SubscriberNotFound(id)))
    ensures r.result.Ok? ==>
      r.trace == []
      && forall x :: x in r.store.subscriptions <==> x in s.subscriptions && x.id != id
    // The remaining entries keep their order and multiplicity.
    ensures r.result.Ok? ==> r.store.subscriptions == Filter(s.subscriptions, HasOtherId(id))
  {
    if Find(s.subscriptions, id).None? then Fail(s, [], SubscriberNotFound(id))
    else
      OtherIdsKept(s.subscriptions, id);
      Step(s.(subscriptions := Filter(s.subscriptions, HasOtherId(id))), [], Ok(()))
  }
}
