/** Properties of the store that relate several calls, or that count the
    notifications one call makes. */
module StoreProperties {
  import opened Values
  import opened Events
  import opened Stores

  /** A throwing `send` calls the `onError` hook exactly once, with the
      thrown error and the unchanged state. A type error throws before
      `onAction` is emitted; an unregistered name throws after it. */
  lemma SendErrorNotifiesOnce(s: Store, action: Value, data: Value)
    requires Send(s, action, data).result.Thrown?
    ensures var r := Send(s, action, data);
      Filter(r.trace, CallsHook(OnError)) == [Call(Hook(OnError), [AError(r.result.error), AState(s.state)])]
    ensures var r := Send(s, action, data);
      |Filter(r.trace, CallsHook(OnAction))| == (if IsString(action) && !IsFunction(data) then 1 else 0)
  {
    var r := Send(s, action, data);
    var err := r.result.error;
    EmitCallsHookOnce(s.subscriptions, OnError, [AError(err), AState(s.state)], OnAction);
    if IsString(action) && !IsFunction(data) {
      var announced := Announce(s, action.s, data);
      EmitCallsHookOnce(s.subscriptions, OnAction, announced[0].args, OnError);
      FilterAppend(announced, Complain(s, err), CallsHook(OnError));
      FilterAppend(announced, Complain(s, err), CallsHook(OnAction));
    } else {
      assert r.trace == Complain(s, err);
    }
  }

  /** The three parts of a reducer-path trace: the action announcement,
      the setter's hook call, and the onChange emission. */
  lemma ReducerPathTrace(s: Store, name: string, data: Value)
    requires !IsFunction(data) && name !in s.effects && name in s.reducers
    ensures var next := s.reducers[name](s.state, data);
      Send(s, VStr(name), data).trace
        == Announce(s, name, data)
           + ([Call(Hook(OnChange), [AState(s.state), AState(next)])]
              + Emit(s.subscriptions, OnChange, [AState(next), AState(next)]))
  {
  }

  /** The trace shape of the reducer path: announcement, setter hook
      call, `onChange` emission. */
  function ReducerShape(subs: seq<Subscription>, announced: seq<Arg>, prev: State, next: State): seq<Call> {
    Emit(subs, OnAction, announced)
    + ([Call(Hook(OnChange), [AState(prev), AState(next)])]
       + Emit(subs, OnChange, [AState(next), AState(next)]))
  }

  /** Hook calls to `h` in the reducer-path shape are those of its three
      parts, in order. */
  lemma ReducerShapeFilter(subs: seq<Subscription>, announced: seq<Arg>, prev: State, next: State, h: Event)
    ensures Filter(ReducerShape(subs, announced, prev, next), CallsHook(h))
         == Filter(Emit(subs, OnAction, announced), CallsHook(h))
            + (Filter([Call(Hook(OnChange), [AState(prev), AState(next)])], CallsHook(h))
               + Filter(Emit(subs, OnChange, [AState(next), AState(next)]), CallsHook(h)))
  {
    var setter := [Call(Hook(OnChange), [AState(prev), AState(next)])];
    var changed := Emit(subs, OnChange, [AState(next), AState(next)]);
    FilterAppend(setter, changed, CallsHook(h));
    FilterAppend(Emit(subs, OnAction, announced), setter + changed, CallsHook(h));
  }

  /** `onChange` hook calls in the reducer-path shape: the setter's, then
      the emission's. */
  lemma ReducerShapeChangeHooks(subs: seq<Subscription>, announced: seq<Arg>, prev: State, next: State)
    ensures Filter(ReducerShape(subs, announced, prev, next), CallsHook(OnChange))
         == [Call(Hook(OnChange), [AState(prev), AState(next)]),
             Call(Hook(OnChange), [AState(next), AState(next)])]
  {
    ReducerShapeFilter(subs, announced, prev, next, OnChange);
    EmitCallsHookOnce(subs, OnAction, announced, OnChange);
    FilterSingleton(Call(Hook(OnChange), [AState(prev), AState(next)]), CallsHook(OnChange));
    EmitCallsHookOnce(subs, OnChange, [AState(next), AState(next)], OnAction);
  }

  /** `onAction` hook calls in the reducer-path shape: the announcement only. */
  lemma ReducerShapeActionHooks(subs: seq<Subscription>, announced: seq<Arg>, prev: State, next: State)
    ensures Filter(ReducerShape(subs, announced, prev, next), CallsHook(OnAction))
         == [Call(Hook(OnAction), announced)]
  {
    ReducerShapeFilter(subs, announced, prev, next, OnAction);
    EmitCallsHookOnce(subs, OnAction, announced, OnChange);
    FilterSingleton(Call(Hook(OnChange), [AState(prev), AState(next)]), CallsHook(OnAction));
    EmitCallsHookOnce(subs, OnChange, [AState(next), AState(next)], OnAction);
  }

  /** No `onError` hook call in the reducer-path shape. */
  lemma ReducerShapeErrorHooks(subs: seq<Subscription>, announced: seq<Arg>, prev: State, next: State)
    ensures Filter(ReducerShape(subs, announced, prev, next), CallsHook(OnError)) == []
  {
    ReducerShapeFilter(subs, announced, prev, next, OnError);
    EmitCallsHookOnce(subs, OnAction, announced, OnError);
    FilterSingleton(Call(Hook(OnChange), [AState(prev), AState(next)]), CallsHook(OnError));
    EmitCallsHookOnce(subs, OnChange, [AState(next), AState(next)], OnError);
  }

  /** The hook calls of the reducer path, as the code makes them: the
      action is announced once and no error is reported; the setter calls
      the `onChange` hook with (previous, next); then `[Emit]` reads the
      state after it was installed, so the hook runs a second time, with
      (next, next). */
  lemma ReducerPathHooks(s: Store, name: string, data: Value)
    requires !IsFunction(data) && name !in s.effects && name in s.reducers
    ensures var t := Send(s, VStr(name), data).trace;
      var next := s.reducers[name](s.state, data);
      && Filter(t, CallsHook(OnChange))
           == [Call(Hook(OnChange), [AState(s.state), AState(next)]),
               Call(Hook(OnChange), [AState(next), AState(next)])]
      && Filter(t, CallsHook(OnAction)) == [Call(Hook(OnAction), [AName(name), AValue(data), AState(s.state)])]
      && Filter(t, CallsHook(OnError)) == []
  {
    var announced := [AName(name), AValue(data), AState(s.state)];
    var next := s.reducers[name](s.state, data);
    ReducerPathTrace(s, name, data);
    assert Send(s, VStr(name), data).trace == ReducerShape(s.subscriptions, announced, s.state, next);
    ReducerShapeChangeHooks(s.subscriptions, announced, s.state, next);
    ReducerShapeActionHooks(s.subscriptions, announced, s.state, next);
    ReducerShapeErrorHooks(s.subscriptions, announced, s.state, next);
  }

  /** Every `onChange` subscriber is called with (next, next): the
      (nextState, state) order documented beside the hook is not what the
      subscribers receive. */
  lemma ReducerPathChangeSubscribers(s: Store, name: string, data: Value)
    requires !IsFunction(data) && name !in s.effects && name in s.reducers
    ensures var next := s.reducers[name](s.state, data);
      forall x :: x in s.subscriptions && x.event == OnChange ==>
        Call(Listener(x.id, x.fn), [AState(next), AState(next)]) in Send(s, VStr(name), data).trace
  {
    ReducerPathTrace(s, name, data);
  }

  /** A name registered as an effect never reaches a reducer, even one of
      the same name: the state stays, and no onChange call is made. */
  lemma EffectShadowsReducer(s: Store, name: string, data: Value)
    requires !IsFunction(data) && name in s.effects
    ensures var r := Send(s, VStr(name), data);
      r.store.state == s.state && r.result == Ok(Pending)
      && Filter(r.trace, CallsHook(OnChange)) == []
      && Call(EffectFn(name), [AState(s.state), AValue(data)]) in r.trace
  {
    var r := Send(s, VStr(name), data);
    var announced := Announce(s, name, data);
    var invoke := [Call(EffectFn(name), [AState(s.state), AValue(data)])];
    EmitCallsHookOnce(s.subscriptions, OnAction, announced[0].args, OnChange);
    FilterAppend(announced, invoke, CallsHook(OnChange));
    assert invoke[1..] == [];
    assert r.trace[|announced|] == invoke[0];
  }

  /** `send('42')` on a store without a handler named "42" throws because
      the name is not registered; it is a string, so `onAction` fires. */
  lemma SendUnregisteredName(s: Store, data: Value)
    requires !IsFunction(data) && "42" !in s.effects && "42" !in s.reducers
    ensures var r := Send(s, VStr("42"), data);
      r.store == s && r.result == Thrown(Raise(HandlerNotFound("42")))
      && r.trace[0] == Call(Hook(OnAction), [AName("42"), AValue(data), AState(s.state)])
  {
  }

  /** Subscribing under a fresh id and then unsubscribing that id gives
      back the original store. */
  lemma SubscribeThenUnsubscribe(s: Store, e: Event, id: SubId, fn: FnId)
    requires forall x :: x in s.subscriptions ==> x.id != id
    ensures var added := Subscribe(s, EventName(e), id, fn);
      added.result.Ok? && Unsubscribe(added.store, id) == Step(s, [], Ok(()))
  {
    var sub := Subscription(e, id, fn);
    var added := Subscribe(s, EventName(e), id, fn);
    ParseEventName(e);
    assert added.store.subscriptions == s.subscriptions + [sub];
    FilterAppend(s.subscriptions, [sub], HasOtherId(id));
    FilterKeepsAll(s.subscriptions, HasOtherId(id));
    FilterDropsAll([sub], HasOtherId(id));
    assert sub in added.store.subscriptions;
  }

  /** Unsubscribing removes every entry with the id, so a second
      unsubscribe of the same id throws and changes nothing. */
  lemma UnsubscribeTwice(s: Store, id: SubId)
    requires Unsubscribe(s, id).result.Ok?
    ensures var once := Unsubscribe(s, id).store;
      Unsubscribe(once, id) == Fail(once, [], SubscriberNotFound(id))
  {
  }

  /** True of calls that are not made to a subscriber with id `id`. */
  function NotCallTo(id: SubId): Call -> bool {
    (c: Call) => !(c.target.Listener? && c.target.id == id)
  }

  /** The subscribers with other ids are notified exactly as all of them
      were, in the same order, minus the calls to subscribers with `id`. */
  lemma {:induction false} NotifiedWithoutId(subs: seq<Subscription>, id: SubId, e: Event, args: seq<Arg>)
    ensures Notified(Filter(subs, HasOtherId(id)), e, args) == Filter(Notified(subs, e, args), NotCallTo(id))
    decreases |subs|
  {
    if |subs| > 0 {
      var init, last := subs[..|subs| - 1], subs[|subs| - 1];
      assert subs == init + [last];
      NotifiedWithoutId(init, id, e, args);
      NotifiedWithoutIdStep(init, last, id, e, args);
    }
  }

  /** The inductive step of `NotifiedWithoutId`: one more subscription. */
  lemma NotifiedWithoutIdStep(init: seq<Subscription>, last: Subscription, id: SubId, e: Event, args: seq<Arg>)
    requires Notified(Filter(init, HasOtherId(id)), e, args) == Filter(Notified(init, e, args), NotCallTo(id))
    ensures Notified(Filter(init + [last], HasOtherId(id)), e, args)
         == Filter(Notified(init + [last], e, args), NotCallTo(id))
  {
    var tail := if last.event == e then [Call(Listener(last.id, last.fn), args)] else [];
    var kept := Filter(init, HasOtherId(id));
    var more := if HasOtherId(id)(last) then tail else [];
    calc {
      Notified(Filter(init + [last], HasOtherId(id)), e, args);
    == { FilterAppend(init, [last], HasOtherId(id));
         FilterSingleton(last, HasOtherId(id)); }
      Notified(kept + (if HasOtherId(id)(last) then [last] else []), e, args);
    == { if HasOtherId(id)(last) { NotifiedAppend(kept, last, e, args); } else { assert kept + [] == kept; } }
      Notified(kept, e, args) + more;
    ==
      Filter(Notified(init, e, args), NotCallTo(id)) + more;
    == { FilterAppend(Notified(init, e, args), tail, NotCallTo(id));
         if last.event == e { FilterSingleton(Call(Listener(last.id, last.fn), args), NotCallTo(id)); } }
      Filter(Notified(init, e, args) + tail, NotCallTo(id));
    == { NotifiedAppend(init, last, e, args); }
      Filter(Notified(init + [last], e, args), NotCallTo(id));
    }
  }

  /** After `unsubscribe(id)` every event notifies the same subscribers in
      the same order as before, except those with that id. */
  lemma UnsubscribeNotifications(s: Store, id: SubId, e: Event, args: seq<Arg>)
    requires Unsubscribe(s, id).result.Ok?
    ensures Emit(Unsubscribe(s, id).store.subscriptions, e, args)
         == [Call(Hook(e), args)] + Filter(Emit(s.subscriptions, e, args)[1..], NotCallTo(id))
  {
    NotifiedWithoutId(s.subscriptions, id, e, args);
  }

  /** The setter's partner: the getter reads back the assigned state, a
      later assignment overrides an earlier one, and assigning the current
      state leaves the store as it was (the hook still fires). */
  lemma SetStateLastWins(s: Store, a: State, b: State)
    ensures SetState(SetState(s, a).store, b).store == SetState(s, b).store
    ensures SetState(s, s.state).store == s
    ensures SetState(s, a).store.state == a
  {
  }

  /** A new subscriber is notified after all earlier ones, and only of the
      event it subscribed to. */
  lemma SubscriberNotifiedLast(s: Store, e: Event, id: SubId, fn: FnId, emitted: Event, args: seq<Arg>)
    ensures var added := Subscribe(s, EventName(e), id, fn).store;
      Emit(added.subscriptions, emitted, args)
        == Emit(s.subscriptions, emitted, args)
           + (if e == emitted then [Call(Listener(id, fn), args)] else [])
  {
    ParseEventName(e);
    EmitAppend(s.subscriptions, Subscription(e, id, fn), emitted, args);
  }

  /** The documented counter: `{count: 0}` with `inc: (s, n) => ({count:
      s.count + n})`; sending `inc` 5 twice gives `{count: 5}`, then
      `{count: 10}`. */
  function Inc(st: State, n: Value): State {
    if "count" in st && st["count"].VNum? && n.VNum? then map["count" := VNum(st["count"].n + n.n)]
    else map[]
  }

  lemma CounterExample()
    ensures var s0 := Store(map["count" := VNum(0)], map["inc" := Inc], {}, []);
      var r1 := Send(s0, VStr("inc"), VNum(5));
      var r2 := Send(r1.store, VStr("inc"), VNum(5));
      r1.result == Ok(Installed(map["count" := VNum(5)]))
      && r2.result == Ok(Installed(map["count" := VNum(10)]))
  {
    var s0 := Store(map["count" := VNum(0)], map["inc" := Inc], {}, []);
    var r1 := Send(s0, VStr("inc"), VNum(5));
    assert r1.store == s0.(state := map["count" := VNum(5)]);
  }

  /** A public call on the store; errors thrown by one call are caught by
      the caller before the next. */
  datatype Op =
    | SendOp(action: Value, data: Value)
    | AssignOp(next: State)
    | SubscribeOp(event: string, id: SubId, fn: FnId)
    | UnsubscribeOp(id: SubId)

  /** The store after one call, and the calls it made. */
  function Apply(s: Store, op: Op): (Store, seq<Call>) {
    match op
    case SendOp(a, d) => var r := Send(s, a, d); (r.store, r.trace)
    case AssignOp(next) => var r := SetState(s, next); (r.store, r.trace)
    case SubscribeOp(e, id, fn) => var r := Subscribe(s, e, id, fn); (r.store, r.trace)
    case UnsubscribeOp(id) => var r := Unsubscribe(s, id); (r.store, r.trace)
  }

  /** A sequence of calls. The handler tables are fixed after construction:
      no sequence of public calls changes them. */
  function Run(s: Store, ops: seq<Op>): (r: (Store, seq<Call>))
    ensures r.0.reducers == s.reducers && r.0.effects == s.effects
    decreases |ops|
  {
    if |ops| == 0 then (s, [])
    else
      var first := Apply(s, ops[0]);
      var rest := Run(first.0, ops[1..]);
      (rest.0, first.1 + rest.1)
  }

  predicate ChangesRegistry(op: Op) {
    op.SubscribeOp? || op.UnsubscribeOp?
  }

  /** Only `subscribe` and `unsubscribe` change the subscription list, and
      they never change the state. */
  lemma {:induction false} RunRegistry(s: Store, ops: seq<Op>)
    ensures (forall i :: 0 <= i < |ops| ==> !ChangesRegistry(ops[i]))
      ==> Run(s, ops).0.subscriptions == s.subscriptions
    ensures (forall i :: 0 <= i < |ops| ==> ChangesRegistry(ops[i]))
      ==> Run(s, ops).0.state == s.state
    decreases |ops|
  {
    if |ops| > 0 {
      RunRegistry(Apply(s, ops[0]).0, ops[1..]);
      assert forall i :: 0 <= i < |ops[1..]| ==> ops[1..][i] == ops[i + 1];
    }
  }
}
