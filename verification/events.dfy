/** The store's notification layer (src/store.js): the three subscribable
    events, subscriptions, the errors the store raises, and the private
    `[Emit]` that calls a hook and then the matching subscribers. User
    callbacks are not run; each call is recorded in a trace instead. */
module Events {
  import opened Values
  import Utils

  datatype Event = OnError | OnAction | OnChange

  /** `this.events`, in the source's order. */
  const EventNames: seq<string> := ["onError", "onAction", "onChange"]

  function EventName(e: Event): string {
    match e
    case OnError => "onError"
    case OnAction => "onAction"
    case OnChange => "onChange"
  }

  /** `this.events.includes(name)`, returning which event it names. */
  function ParseEvent(name: string): (r: Option<Event>)
    ensures r.Some? <==> name in EventNames
    ensures r.Some? ==> EventName(r.value) == name
  {
    if name == "onError" then Some(OnError)
    else if name == "onAction" then Some(OnAction)
    else if name == "onChange" then Some(OnChange)
    else None
  }

  /** Every event's name parses back to that event. */
  lemma ParseEventName(e: Event)
    ensures ParseEvent(EventName(e)) == Some(e)
  {
  }

  /** A subscription id: a string or a number, compared with `===`. */
  datatype SubId = StrId(s: string) | NumId(n: int)

  /** `{ event, id, fn }` as pushed by `subscribe`. */
  datatype Subscription = Subscription(event: Event, id: SubId, fn: FnId)

  /** Why an operation threw. */
  datatype ErrorKind =
    | ReducerNotFunction
    | EffectNotFunction
    | ActionNotString
    | DataIsFunction
    | HandlerNotFound(action: string)
    | InvalidEvent(event: string)
    | SubscriberNotFound(id: SubId)

  /** A thrown `Error`: what went wrong and its message. */
  datatype Error = Error(kind: ErrorKind, message: string)

  /** The store's private `this[M]` helper, a copy of `formatMsg`. */
  function StoreMsg(msg: string): (r: string)
    ensures r == Utils.FormatMsg(msg)
  {
    "minska: " + msg
  }

  function DigitChar(d: nat): char
    requires d < 10
  {
    "0123456789"[d]
  }

  function NatText(n: nat): string
    decreases n
  {
    if n < 10 then [DigitChar(n)] else NatText(n / 10) + [DigitChar(n % 10)]
  }

  /** `${id}` for a subscription id. */
  function IdText(id: SubId): string {
    match id
    case StrId(s) => s
    case NumId(n) => if n < 0 then "-" + NatText(-n) else NatText(n)
  }

  const HandlerLeadIn: string := "Can't find reducer or effect with name: "

  /** The text for an unregistered action: the fixed lead-in, then the
      action name, then a full stop. */
  function HandlerText(action: string): (r: string)
    ensures |r| == |HandlerLeadIn| + |action| + 1
    ensures r[..|HandlerLeadIn|] == HandlerLeadIn && r[|HandlerLeadIn|..|r| - 1] == action && r[|r| - 1] == '.'
  {
    HandlerLeadIn + action + "."
  }

  /** The text for an unknown event: the event name comes first. */
  function EventText(event: string): (r: string)
    ensures |event| < |r| && r[..|event|] == event && r[|r| - 1] == '.'
  {
    event + " is not a valid event you can subscribe to."
  }

  /** The text for an unknown subscription id: the id between double
      quotes, at the end of the sentence. */
  function SubscriberText(id: SubId): (r: string)
    ensures var quoted := IdText(id);
      |quoted| + 3 <= |r| && r[|r| - 2 - |quoted|..|r| - 2] == quoted
      && r[|r| - 3 - |quoted|] == '"' && r[|r| - 2] == '"' && r[|r| - 1] == '.'
  {
    "Can't find subscriber with id \"" + IdText(id) + "\"."
  }

  /** The text passed to `this[M]` at each throw site: always a sentence
      ending in a full stop. */
  function Describe(kind: ErrorKind): (r: string)
    ensures |r| > 0 && r[|r| - 1] == '.'
  {
    match kind
    case ReducerNotFunction => "All reducers should be functions."
    case EffectNotFunction => "All effects should be functions."
    case ActionNotString => "Action name must be a string."
    case DataIsFunction => "Data must be a serializable value. A function was passed."
    case HandlerNotFound(a) => HandlerText(a)
    case InvalidEvent(e) => EventText(e)
    case SubscriberNotFound(id) => SubscriberText(id)
  }

  /** `new Error(this[M](...))`: the error remembers its kind, and removing
      the library tag from its message gives back the text for that kind. */
  function Raise(kind: ErrorKind): (r: Error)
    ensures r.kind == kind
    ensures Utils.StripTag(r.message) == Some(Describe(kind))
  {
    Utils.StripTagFormatMsg(Describe(kind));
    Error(kind, StoreMsg(Describe(kind)))
  }

  /** One positional argument of a recorded call. */
  datatype Arg = AError(error: Error) | AState(state: State) | AName(name: string) | AValue(value: Value)

  /** Who was called: a hook, a subscriber, or an effect. */
  datatype Target = Hook(event: Event) | Listener(id: SubId, fn: FnId) | EffectFn(action: string)

  datatype Call = Call(target: Target, args: seq<Arg>)

  /** `s.filter(keep)`: the kept elements, in their original order. */
  function Filter<T(!new)>(s: seq<T>, keep: T -> bool): (r: seq<T>)
    ensures |r| <= |s|
    ensures forall x :: x in r <==> x in s && keep(x)
    decreases |s|
  {
    if |s| == 0 then []
    else (if keep(s[0]) then [s[0]] else []) + Filter(s[1..], keep)
  }

  /** Filtering distributes over concatenation: relative order is kept. */
  lemma {:induction false} FilterAppend<T(!new)>(a: seq<T>, b: seq<T>, keep: T -> bool)
    ensures Filter(a + b, keep) == Filter(a, keep) + Filter(b, keep)
    decreases |a|
  {
    if |a| == 0 {
      assert a + b == b;
    } else {
      assert (a + b)[1..] == a[1..] + b;
      FilterAppend(a[1..], b, keep);
    }
  }

  /** Filtering keeps a sequence none of whose elements it drops. */
  lemma {:induction false} FilterKeepsAll<T(!new)>(s: seq<T>, keep: T -> bool)
    requires forall i :: 0 <= i < |s| ==> keep(s[i])
    ensures Filter(s, keep) == s
    decreases |s|
  {
    if |s| > 0 {
      FilterKeepsAll(s[1..], keep);
    }
  }

  /** Filtering drops every element of a sequence none of whose elements
      it keeps. */
  lemma {:induction false} FilterDropsAll<T(!new)>(s: seq<T>, keep: T -> bool)
    requires forall x :: x in s ==> !keep(x)
    ensures Filter(s, keep) == []
    decreases |s|
  {
    if |s| > 0 {
      assert s[0] in s;
      FilterDropsAll(s[1..], keep);
    }
  }

  /** `s => s.event === event` */
  function ListensTo(e: Event): Subscription -> bool {
    (s: Subscription) => s.event == e
  }

  /** One call per subscriber, in order, with the same arguments. */
  function ListenerCalls(subs: seq<Subscription>, args: seq<Arg>): (t: seq<Call>)
    ensures |t| == |subs|
  {
    seq(|subs|, i requires 0 <= i < |subs| => Call(Listener(subs[i].id, subs[i].fn), args))
  }

  /** Filtering a one-element sequence. */
  lemma FilterSingleton<T(!new)>(x: T, keep: T -> bool)
    ensures Filter([x], keep) == if keep(x) then [x] else []
  {
    assert [x][1..] == [];
  }

  /** Calls for two runs of subscribers are the calls for each, in order. */
  lemma ListenerCallsAppend(a: seq<Subscription>, b: seq<Subscription>, args: seq<Arg>)
    ensures ListenerCalls(a + b, args) == ListenerCalls(a, args) + ListenerCalls(b, args)
  {
    assert forall i :: 0 <= i < |b| ==> (a + b)[|a| + i] == b[i];
  }

  /** The subscriptions to `e`, in insertion order. */
  function Listening(subs: seq<Subscription>, e: Event): (r: seq<Subscription>)
    ensures forall i :: 0 <= i < |r| ==> r[i] in subs && r[i].event == e
  {
    var r := Filter(subs, ListensTo(e));
    assert forall i :: 0 <= i < |r| ==> r[i] in r;
    r
  }

  /** The subscriber part of an emission: one call per subscription to `e`,
      in insertion order. */
  function Notified(subs: seq<Subscription>, e: Event, args: seq<Arg>): (t: seq<Call>)
    ensures |t| == |Listening(subs, e)|
    ensures forall i :: 0 <= i < |t| ==> t[i] == Call(Listener(Listening(subs, e)[i].id, Listening(subs, e)[i].fn), args)
  {
    ListenerCalls(Listening(subs, e), args)
  }

  /** A subscription added last is notified after every earlier one, and
      only if it listens to `e`. */
  lemma NotifiedAppend(subs: seq<Subscription>, s: Subscription, e: Event, args: seq<Arg>)
    ensures Notified(subs + [s], e, args)
         == Notified(subs, e, args) + (if s.event == e then [Call(Listener(s.id, s.fn), args)] else [])
  {
    FilterAppend(subs, [s], ListensTo(e));
    FilterSingleton(s, ListensTo(e));
    ListenerCallsAppend(Filter(subs, ListensTo(e)), Filter([s], ListensTo(e)), args);
  }

  /** Every subscription to `e` is called. */
  lemma NotifiedComplete(subs: seq<Subscription>, e: Event, args: seq<Arg>)
    ensures forall s :: s in subs && s.event == e ==> Call(Listener(s.id, s.fn), args) in Notified(subs, e, args)
  {
    var listening := Filter(subs, ListensTo(e));
    var calls := Notified(subs, e, args);
    forall s | s in subs && s.event == e
      ensures Call(Listener(s.id, s.fn), args) in calls
    {
      assert ListensTo(e)(s);
      assert s in listening;
      var i :| 0 <= i < |listening| && listening[i] == s;
      assert calls[i] == Call(Listener(s.id, s.fn), args);
    }
  }

  /** The calls after the hook call go to the subscriptions to `e`, in
      order, and every subscription to `e` gets one. */
  lemma HookThenNotified(subs: seq<Subscription>, e: Event, args: seq<Arg>, t: seq<Call>)
    requires t == [Call(Hook(e), args)] + Notified(subs, e, args)
    ensures forall i :: 1 <= i < |t| ==>
      t[i] == Call(Listener(Listening(subs, e)[i - 1].id, Listening(subs, e)[i - 1].fn), args)
    ensures forall s :: s in subs && s.event == e ==> Call(Listener(s.id, s.fn), args) in t
  {
    var calls := Notified(subs, e, args);
    assert forall i :: 1 <= i < |t| ==> t[i] == calls[i - 1];
    NotifiedComplete(subs, e, args);
    forall s | s in subs && s.event == e
      ensures Call(Listener(s.id, s.fn), args) in t
    {
      assert Call(Listener(s.id, s.fn), args) in calls;
    }
  }

  /** `this[Emit](event, ...args)`: the hook of that event first, then every
      subscription to that event, in insertion order, all with the same
      arguments. Subscriptions to other events are not called. */
  function Emit(subs: seq<Subscription>, e: Event, args: seq<Arg>): (t: seq<Call>)
    ensures |t| == 1 + |Listening(subs, e)|
    ensures t[0] == Call(Hook(e), args) && t[1..] == Notified(subs, e, args)
    ensures forall i :: 1 <= i < |t| ==>
      t[i] == Call(Listener(Listening(subs, e)[i - 1].id, Listening(subs, e)[i - 1].fn), args)
    ensures forall s :: s in subs && s.event == e ==> Call(Listener(s.id, s.fn), args) in t
  {
    var t := [Call(Hook(e), args)] + Notified(subs, e, args);
    HookThenNotified(subs, e, args, t);
    t
  }

  /** An emission is its hook call followed by its subscriber part. */
  lemma EmitSplit(subs: seq<Subscription>, e: Event, args: seq<Arg>)
    ensures Emit(subs, e, args) == [Call(Hook(e), args)] + Notified(subs, e, args)
  {
    var t := Emit(subs, e, args);
    assert t == [t[0]] + t[1..];
  }

  /** Insertion order: a subscription added last is notified after every
      earlier one, and only if it listens to the emitted event. */
  lemma EmitAppend(subs: seq<Subscription>, s: Subscription, e: Event, args: seq<Arg>)
    ensures Emit(subs + [s], e, args)
         == Emit(subs, e, args) + (if s.event == e then [Call(Listener(s.id, s.fn), args)] else [])
  {
    var tail := if s.event == e then [Call(Listener(s.id, s.fn), args)] else [];
    assert Emit(subs + [s], e, args) == [Call(Hook(e), args)] + (Notified(subs, e, args) + tail) by {
      EmitSplit(subs + [s], e, args);
      NotifiedAppend(subs, s, e, args);
    }
    assert Emit(subs, e, args) == [Call(Hook(e), args)] + Notified(subs, e, args) by {
      EmitSplit(subs, e, args);
    }
  }

  /** True of calls to the hook of `e`. */
  function CallsHook(e: Event): Call -> bool {
    (c: Call) => c.target == Hook(e)
  }

  /** A trace of subscriber calls contains no hook call. */
  lemma NoHookAfterFirst(t: seq<Call>, e: Event)
    requires |t| >= 1 && forall i :: 1 <= i < |t| ==> t[i].target.Listener?
    ensures Filter(t[1..], CallsHook(e)) == []
  {
    forall c | c in t[1..]
      ensures !CallsHook(e)(c)
    {
      var i :| 0 <= i < |t[1..]| && t[1..][i] == c;
      assert t[i + 1] == c;
    }
    FilterDropsAll(t[1..], CallsHook(e));
  }

  /** An emission calls its event's hook exactly once and no other hook. */
  lemma EmitCallsHookOnce(subs: seq<Subscription>, e: Event, args: seq<Arg>, other: Event)
    ensures Filter(Emit(subs, e, args), CallsHook(e)) == [Call(Hook(e), args)]
    ensures other != e ==> Filter(Emit(subs, e, args), CallsHook(other)) == []
  {
    var t := Emit(subs, e, args);
    assert t == [t[0]] + t[1..];
    FilterAppend([t[0]], t[1..], CallsHook(e));
    FilterAppend([t[0]], t[1..], CallsHook(other));
    assert [t[0]][1..] == [];
    NoHookAfterFirst(t, e);
    NoHookAfterFirst(t, other);
  }
}
