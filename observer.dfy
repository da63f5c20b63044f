/**
 * The PlayerEmitter publish/subscribe registry: a dictionary from topic to the
 * ordered list of subscriber callbacks, with `on` to register and `emit` to notify.
 *
 * Callbacks are opaque identifiers; calling one is recorded as an Invocation in
 * the trace that `emit` returns.
 */
module Observer {
  import opened Wrappers

  type Topic = string

  /** An opaque subscriber callback. */
  type CallbackId = nat

  /** The `events` dictionary: topic to subscriber list. */
  type Registry = map<Topic, seq<CallbackId>>

  /** One call `fn(data)` made by `emit`. */
  datatype Invocation<D> = Invocation(callback: CallbackId, data: D)

  /** `events[evt] || []`: the list `emit` walks, empty for a topic never registered. */
  function Subscribers(events: Registry, evt: Topic): (subs: seq<CallbackId>)
    ensures evt !in events ==> subs == []
  {
    if evt in events then events[evt] else []
  }

  /**
   * `(events[evt] ||= []).push(fn)` as a value: the topic's list (created empty when
   * absent) with `fn` appended; every other topic keeps its list.
   */
  function Subscribe(events: Registry, evt: Topic, fn: CallbackId): (r: Registry)
    ensures evt in r && r.Keys == events.Keys + {evt}
    ensures Subscribers(r, evt) == Subscribers(events, evt) + [fn]
    ensures forall t :: t != evt ==> Subscribers(r, t) == Subscribers(events, t)
  {
    events[evt := Subscribers(events, evt) + [fn]]
  }

  /** The calls `subs.forEach(fn => fn(data))` makes, front to back. */
  function Notify<D>(subs: seq<CallbackId>, data: D): (calls: seq<Invocation<D>>)
    ensures |calls| == |subs|
    ensures forall i :: 0 <= i < |subs| ==> calls[i] == Invocation(subs[i], data)
  {
    if subs == [] then [] else [Invocation(subs[0], data)] + Notify(subs[1..], data)
  }

  /** How many times `fn` was called in a trace. */
  function TimesCalled<D>(calls: seq<Invocation<D>>, fn: CallbackId): nat
  {
    if calls == [] then 0
    else (if calls[0].callback == fn then 1 else 0) + TimesCalled(calls[1..], fn)
  }

  /** Notification calls each callback exactly as often as it occurs in the list. */
  lemma {:induction false} NotifyCallsEachRegistration<D>(subs: seq<CallbackId>, data: D, fn: CallbackId)
    ensures TimesCalled(Notify(subs, data), fn) == multiset(subs)[fn]
  {
    if subs != [] {
      NotifyCallsEachRegistration(subs[1..], data, fn);
      assert subs == [subs[0]] + subs[1..];
      assert Notify(subs, data)[1..] == Notify(subs[1..], data);
    }
  }

  /** `push` does not deduplicate: registering `fn` twice adds two entries. */
  lemma DuplicateRegistrationKept(events: Registry, evt: Topic, fn: CallbackId)
    ensures Subscribers(Subscribe(Subscribe(events, evt, fn), evt, fn), evt) == Subscribers(events, evt) + [fn, fn]
    ensures multiset(Subscribers(Subscribe(Subscribe(events, evt, fn), evt, fn), evt))[fn]
         == multiset(Subscribers(events, evt))[fn] + 2
  {
  }

  /** A call made on an emitter: `on(evt, fn)` or `emit(evt, data)`. */
  datatype Call<D> = OnCall(topic: Topic, callback: CallbackId) | EmitCall(topic: Topic, data: D)

  /** The callbacks some `on` call in the history registered, for any topic. */
  ghost function RegisteredCallbacks<D>(calls: seq<Call<D>>): set<CallbackId>
  {
    set i | 0 <= i < |calls| && calls[i].OnCall? :: calls[i].callback
  }

  /** The payloads some `emit` call in the history carried. */
  ghost function EmittedPayloads<D>(calls: seq<Call<D>>): set<D>
  {
    set i | 0 <= i < |calls| && calls[i].EmitCall? :: calls[i].data
  }

  /**
   * The registry after a sequence of calls, starting from the empty one a new
   * emitter holds: a topic has an entry only once something was registered for it.
   */
  function RegistryAfter<D>(calls: seq<Call<D>>): (r: Registry)
    ensures forall t :: t in r ==> Subscribers(r, t) != []
  {
    if calls == [] then map[]
    else
      var before := RegistryAfter(calls[..|calls| - 1]);
      match calls[|calls| - 1]
      case OnCall(t, fn) => Subscribe(before, t, fn)
      case EmitCall(_, _) => before
  }

  /**
   * Every callback invocation made by a sequence of calls, starting from a new
   * emitter: each carries the payload of some `emit`; a history without `emit`
   * calls invokes nothing.
   */
  function TraceAfter<D>(calls: seq<Call<D>>): (r: seq<Invocation<D>>)
    ensures forall i :: 0 <= i < |r| ==> r[i].data in EmittedPayloads(calls)
  {
    if calls == [] then []
    else
      var prefix := calls[..|calls| - 1];
      var before := TraceAfter(prefix);
      assert EmittedPayloads(prefix) <= EmittedPayloads(calls);
      match calls[|calls| - 1]
      case OnCall(_, _) => before
      case EmitCall(t, d) =>
        assert d in EmittedPayloads(calls);
        before + Notify(Subscribers(RegistryAfter(prefix), t), d)
  }

  /**
   * Runs a history of calls against a new PlayerEmitter: the emitter's dictionary
   * and the invocations its `emit` calls make are exactly those of the fold above.
   */
  method Replay<D>(calls: seq<Call<D>>) returns (events: Registry, trace: seq<Invocation<D>>)
    ensures events == RegistryAfter(calls)
    ensures trace == TraceAfter(calls)
  {
    var bus := new PlayerEmitter();
    trace := [];
    var i := 0;
    while i < |calls|
      invariant 0 <= i <= |calls|
      invariant bus.events == RegistryAfter(calls[..i])
      invariant trace == TraceAfter(calls[..i])
    {
      assert calls[..i + 1][..i] == calls[..i];
      match calls[i] {
        case OnCall(t, fn) =>
          bus.On(t, fn);
        case EmitCall(t, d) =>
          var made := bus.Emit(t, d);
          trace := trace + made;
      }
      i := i + 1;
    }
    assert calls[..|calls|] == calls;
    events := bus.events;
  }

  /** Only registered callbacks are ever listed or called: each one came from some `on` call. */
  lemma {:induction false} CallbacksComeFromRegistrations<D>(calls: seq<Call<D>>)
    ensures forall t, i :: 0 <= i < |Subscribers(RegistryAfter(calls), t)| ==>
              Subscribers(RegistryAfter(calls), t)[i] in RegisteredCallbacks(calls)
    ensures forall i :: 0 <= i < |TraceAfter(calls)| ==> TraceAfter(calls)[i].callback in RegisteredCallbacks(calls)
  {
    if calls != [] {
      var prefix := calls[..|calls| - 1];
      CallbacksComeFromRegistrations(prefix);
      assert RegisteredCallbacks(prefix) <= RegisteredCallbacks(calls);
    }
  }

  /** Reference definition: the callbacks registered for `t`, in the order of their `on` calls. */
  function RegisteredFor<D>(calls: seq<Call<D>>, t: Topic): seq<CallbackId>
  {
    if calls == [] then []
    else
      match calls[0]
      case OnCall(t', fn) => (if t' == t then [fn] else []) + RegisteredFor(calls[1..], t)
      case EmitCall(_, _) => RegisteredFor(calls[1..], t)
  }

  lemma {:induction false} RegisteredForAppend<D>(calls: seq<Call<D>>, c: Call<D>, t: Topic)
    ensures RegisteredFor(calls + [c], t) == RegisteredFor(calls, t) + RegisteredFor([c], t)
  {
    if calls != [] {
      assert (calls + [c])[1..] == calls[1..] + [c];
      RegisteredForAppend(calls[1..], c, t);
    }
  }

  /**
   * The registry holds, for every topic, exactly the callbacks registered for it by
   * `on`, in registration order; `emit` calls contribute nothing.
   */
  lemma {:induction false} RegistryMatchesRegistrations<D>(calls: seq<Call<D>>, t: Topic)
    ensures Subscribers(RegistryAfter(calls), t) == RegisteredFor(calls, t)
  {
    if calls != [] {
      var init := calls[..|calls| - 1];
      var last := calls[|calls| - 1];
      assert calls == init + [last];
      RegistryMatchesRegistrations(init, t);
      RegisteredForAppend(init, last, t);
    }
  }

  /**
   * After any history, `emit(t, d)` calls exactly the callbacks registered for `t`,
   * once per registration, in registration order, each with `d`.
   */
  lemma {:induction false} EmitAfterHistory<D>(calls: seq<Call<D>>, t: Topic, d: D)
    ensures TraceAfter(calls + [EmitCall(t, d)]) == TraceAfter(calls) + Notify(RegisteredFor(calls, t), d)
    ensures RegistryAfter(calls + [EmitCall(t, d)]) == RegistryAfter(calls)
  {
    assert (calls + [EmitCall(t, d)])[..|calls|] == calls;
    RegistryMatchesRegistrations(calls, t);
  }

  /** The object that owns one `events` dictionary. */
  class PlayerEmitter {
    var events: Registry

    /** A new emitter has no subscribers for any topic. */
    constructor ()
      ensures events == map[]
      ensures forall t :: Subscribers(events, t) == []
    {
      events := map[];
    }

    /** on(evt, fn): create the topic's list when absent, then append `fn` to it. */
    method On(evt: Topic, fn: CallbackId)
      modifies this
      ensures events == Subscribe(old(events), evt, fn)
      ensures Subscribers(events, evt) == Subscribers(old(events), evt) + [fn]
      ensures forall t :: t != evt ==> Subscribers(events, t) == Subscribers(old(events), t)
    {
      if evt !in events {
        events := events[evt := []];
      }
      events := events[evt := events[evt] + [fn]];
    }

    /**
     * emit(evt, data): walk the topic's list front to back and call each callback
     * with `data`; a topic without a list calls nothing. The emitter is not modified.
     */
    method Emit<D>(evt: Topic, data: D) returns (calls: seq<Invocation<D>>)
      ensures |calls| == |Subscribers(events, evt)|
      ensures forall i :: 0 <= i < |calls| ==> calls[i] == Invocation(Subscribers(events, evt)[i], data)
      ensures evt !in events ==> calls == []
      ensures calls == Notify(Subscribers(events, evt), data)
    {
      var subs := if evt in events then events[evt] else [];
      calls := [];
      var i := 0;
      while i < |subs|
        invariant 0 <= i <= |subs|
        invariant |calls| == i
        invariant forall k :: 0 <= k < i ==> calls[k] == Invocation(subs[k], data)
      {
        calls := calls + [Invocation(subs[i], data)];
        i := i + 1;
      }
    }
  }

  /** Two `on` calls for one topic, then an `emit`: both callbacks, in order, same payload. */
  method TwoSubscribersInOrder<D>(t: Topic, f: CallbackId, g: CallbackId, data: D) returns (calls: seq<Invocation<D>>)
    ensures calls == [Invocation(f, data), Invocation(g, data)]
  {
    var bus := new PlayerEmitter();
    bus.On(t, f);
    bus.On(t, g);
    calls := bus.Emit(t, data);
  }

  /** The same callback registered twice is called twice by one emission. */
  method RegisteredTwiceCalledTwice<D>(fn: CallbackId, data: D) returns (calls: seq<Invocation<D>>)
    ensures calls == [Invocation(fn, data), Invocation(fn, data)]
  {
    var bus := new PlayerEmitter();
    bus.On("timeUpdate", fn);
    bus.On("timeUpdate", fn);
    calls := bus.Emit("timeUpdate", data);
  }

  /** A new emitter's emit never calls a subscription made on another new emitter. */
  method NewEmitterSeesNoOtherSubscriptions<D>(evt: Topic, fn: CallbackId, data: D) returns (calls: seq<Invocation<D>>)
    ensures calls == []
  {
    var a := new PlayerEmitter();
    var b := new PlayerEmitter();
    a.On(evt, fn);
    calls := b.Emit(evt, data);
  }

  /**
   * Each emitter owns its dictionary: whatever either has seen before, an `on` on
   * one emitter does not change what an `emit` on another calls.
   */
  method SeparateEmitters<D>(a: PlayerEmitter, b: PlayerEmitter, evt: Topic, fn: CallbackId, t: Topic, data: D)
    returns (before: seq<Invocation<D>>, after: seq<Invocation<D>>)
    requires a != b
    modifies a
    ensures after == before
  {
    before := b.Emit(t, data);
    a.On(evt, fn);
    after := b.Emit(t, data);
  }

  // ---------------------------------------------------------------------------
  // The dictionary as written: `this.events` is a plain object, so a lookup that
  // misses an own key falls through to the properties every object inherits.
  // ---------------------------------------------------------------------------

  /**
   * The names every plain object inherits from `Object.prototype`, each bound to a
   * truthy value that is not an array. The topics the player wiring subscribes to
   * are ordinary names, not among them.
   */
  function InheritedNames(): (names: set<Topic>)
    ensures "constructor" in names && "toString" in names && "__proto__" in names
    ensures "timeUpdate" !in names && "buffering" !in names && "subtitle" !in names
  {
    {
      "constructor", "hasOwnProperty", "isPrototypeOf", "propertyIsEnumerable",
      "toLocaleString", "toString", "valueOf", "__proto__",
      "__defineGetter__", "__defineSetter__", "__lookupGetter__", "__lookupSetter__"
    }
  }

  /** What `this.events[evt]` evaluates to on the plain object. */
  datatype Slot = OwnList(subs: seq<CallbackId>) | InheritedMember | Missing

  /** The error thrown when `.push` or `.forEach` is called on an inherited member. */
  datatype JsError = TypeError

  /**
   * A registry reachable from a fresh emitter: `on` only ever succeeds for
   * non-inherited names, so no own key shadows an inherited one.
   */
  ghost predicate Reachable(events: Registry)
  {
    forall t :: t in events ==> t !in InheritedNames()
  }

  function LookupAsWritten(events: Registry, evt: Topic): (s: Slot)
    ensures evt in events ==> s == OwnList(events[evt])
    ensures evt !in events ==> (s.InheritedMember? <==> evt in InheritedNames())
    ensures evt !in events && evt !in InheritedNames() ==> s == Missing
  {
    if evt in events then OwnList(events[evt])
    else if evt in InheritedNames() then InheritedMember
    else Missing
  }

  /** on as written: `||=` keeps a truthy inherited member and `.push` on it throws. */
  function OnAsWritten(events: Registry, evt: Topic, fn: CallbackId): (r: Result<Registry, JsError>)
    requires Reachable(events)
    ensures r.Err? <==> evt in InheritedNames()
    ensures r.Ok? ==> r.value == Subscribe(events, evt, fn) && Reachable(r.value)
  {
    match LookupAsWritten(events, evt)
    case OwnList(subs) => Ok(events[evt := subs + [fn]])
    case Missing => assert Subscribers(events, evt) + [fn] == [fn]; Ok(events[evt := [fn]])
    case InheritedMember => Err(TypeError)
  }

  /** emit as written: `||` keeps a truthy inherited member and `.forEach` on it throws. */
  function EmitAsWritten<D>(events: Registry, evt: Topic, data: D): (r: Result<seq<Invocation<D>>, JsError>)
    requires Reachable(events)
    ensures r.Err? <==> evt in InheritedNames()
    ensures r.Ok? ==> r.value == Notify(Subscribers(events, evt), data)
  {
    match LookupAsWritten(events, evt)
    case OwnList(subs) => Ok(Notify(subs, data))
    case Missing => Ok([])
    case InheritedMember => Err(TypeError)
  }

  /** Counterexample: subscribing to "constructor" throws, where a dictionary would register it. */
  lemma ConstructorTopicThrowsOnSubscribe(fn: CallbackId)
    ensures OnAsWritten(map[], "constructor", fn) == Err(TypeError)
    ensures Subscribers(Subscribe(map[], "constructor", fn), "constructor") == [fn]
  {
  }

  /** Counterexample: emitting "toString" on a fresh emitter throws instead of calling nothing. */
  lemma ToStringTopicThrowsOnEmit<D>(data: D)
    ensures EmitAsWritten(map[], "toString", data) == Err(TypeError)
    ensures Notify(Subscribers(map[], "toString"), data) == []
  {
  }
}
