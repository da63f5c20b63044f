# Design-pattern snippets: event emitter, chart factory, toggle reducer and tabs

This project models, in Dafny, the parts of the design-patterns repository that have
behaviour worth stating:

- **`PlayerEmitter`** (observer pattern): an in-process publish/subscribe registry. Its one
  field, `events`, maps a topic to the ordered list of subscriber callbacks. `on` creates the
  list when it is missing and appends the callback. `emit` calls every callback of the topic,
  front to back, with the payload. It is modelled as the class `Observer.PlayerEmitter`. Its
  `events` field is a `map<string, seq<CallbackId>>`. `On` updates the map in place. `Emit`
  loops over the list and returns the trace of calls it makes. Callbacks are opaque ids, and
  each call `fn(data)` is recorded as `Invocation(fn, data)`. Beside the class, a functional
  model describes any history of `on`/`emit` calls and connects it to an independent
  reference: the callbacks registered per topic, in registration order.
- **`ChartFactory`** (factory pattern): a switch from a type tag to a bar, line or pie chart
  built from the given `data` and `options`, or an `Unsupported chart type` error. It is
  modelled as `Factory.ChartFactory`, which returns a `Result`.
- **`useToggle`** (state-reducer hook): the transition function, its optional custom reducer,
  App's "never switch off" reducer, and a dispatch sequence as a fold (module `ToggleHook`).
- **`Tabs` / `Tab` / `TabPanels`** (compound components): the active index, clicks that
  change it, the bold tab and the panel shown (module `CompoundTabs`).

Files: `wrappers.dfy` (Option, Result), `observer.dfy`, `factory.dfy`, `react_patterns.dfy`.

`observer.js` has no `off`, no subscription handles and no isolation of failing callbacks;
this model follows the code.

`Emit` builds its calls from the topic's list as it stood when `emit` began. This matches
`Array.prototype.forEach` (ECMA-262), which reads the array's length once, before the first
callback runs. A callback that appended to the same list would therefore not be called in
that emission. An append is the only change `on` can make, so for it this behaves like
iterating a snapshot.

## Model

| member | source | states |
|---|---|---|
| `Observer.Subscribers` | observer.js:12 | `events[evt] \|\| []`: a topic with no entry has an empty subscriber list |
| `Observer.Subscribe` | observer.js:7 | the topic's list becomes the old list (or `[]`) followed by `fn`; the topic becomes a key; every other topic keeps its list |
| `Observer.Notify` | observer.js:12 | the trace has one invocation per list entry, entry `i` calling `subs[i]` with the same `data`, in list order |
| `Observer.NotifyCallsEachRegistration` | observer.js:12 | each callback is called exactly as many times as it occurs in the topic's list |
| `Observer.DuplicateRegistrationKept` | observer.js:7 | `push` does not deduplicate: registering `fn` twice adds two entries |
| `Observer.RegistryAfter` | observer.js:2-9 | the registry a history of calls leaves, starting from the empty one: a topic is a key only once something was registered for it |
| `Observer.TraceAfter` | observer.js:11-14 | the invocations a history of calls makes: each carries the payload of some `emit`, so a history without `emit` invokes nothing |
| `Observer.CallbacksComeFromRegistrations` | observer.js:7-12 | for any history, every callback in a topic's list, and every callback invoked, came from some `on` call |
| `Observer.RegistryMatchesRegistrations` | observer.js:6-14 | for any history of `on`/`emit` calls, each topic's list in `RegistryAfter` equals the callbacks registered for it, in `on` order; `emit` adds nothing |
| `Observer.EmitAfterHistory` | observer.js:11-14 | for any history, a further `emit(t, d)` adds to `TraceAfter` exactly the callbacks registered for `t`, in order, each with `d`, and leaves `RegistryAfter` as it was |
| `Observer.Replay` | observer.js:1-14 | running a history against a new `PlayerEmitter` through its `On` and `Emit` methods leaves exactly the dictionary `RegistryAfter` gives and makes exactly the invocations `TraceAfter` gives |
| `Observer.PlayerEmitter.constructor` | observer.js:2-4 | a new emitter has an empty dictionary and no subscribers for any topic |
| `Observer.PlayerEmitter.On` | observer.js:6-9 | `events` becomes `Subscribe(old events, evt, fn)`: `fn` is appended to the topic's list, created if absent, and other topics are unchanged |
| `Observer.PlayerEmitter.Emit` | observer.js:11-14 | the returned calls are the topic's callbacks, in list order, each once and each with `data`; a topic without a list calls nothing; the method has no `modifies` clause, so `events` is unchanged |
| `Observer.TwoSubscribersInOrder` | observer.js:6-14 | for any topic `t`, `on(t, f)`, `on(t, g)`, `emit(t, d)` on a new emitter calls `f(d)` and then `g(d)` |
| `Observer.RegisteredTwiceCalledTwice` | observer.js:7 | a callback registered twice is called twice by one emission |
| `Observer.NewEmitterSeesNoOtherSubscriptions` | observer.js:3 | an `emit` on a new emitter calls nothing, even after an `on` for the same topic on another new emitter |
| `Observer.SeparateEmitters` | observer.js:3 | for any two distinct emitters, whatever their history, an `on` on one leaves unchanged what an `emit` on the other calls |
| `Observer.InheritedNames` | observer.js:3 | the property names a plain object inherits from `Object.prototype`, each bound to a truthy non-array value; `constructor`, `toString` and `__proto__` are among them, and the wiring's topics `timeUpdate`, `buffering` and `subtitle` (observer.js:21-23) are not |
| `Observer.LookupAsWritten` | observer.js:7 | `this.events[evt]` on a plain object: an own list, else an inherited member for the names every object inherits, else missing |
| `Observer.OnAsWritten` | observer.js:7 | as written, `on` throws a TypeError exactly for inherited names; for every other topic it equals `Subscribe` |
| `Observer.EmitAsWritten` | observer.js:12 | as written, `emit` throws a TypeError exactly for inherited names; for every other topic it equals `Notify` of the topic's list |
| `Observer.ConstructorTopicThrowsOnSubscribe` | observer.js:7 | `on('constructor', fn)` on a fresh emitter throws, where the corrected `Subscribe` registers `fn` |
| `Observer.ToStringTopicThrowsOnEmit` | observer.js:12 | `emit('toString', d)` on a fresh emitter throws, where the corrected emit calls nothing |
| `Factory.TypeTag` | FactoryPattern.js:7-9 | each chart kind has one of the three case labels as its tag |
| `Factory.ChartFactory` | FactoryPattern.js:2-12 | a chart is produced exactly for 'bar', 'line' and 'pie', of the kind whose tag was given, holding `data` and `options` unchanged; any other type gives the 'Unsupported chart type' error |
| `Factory.KnownTagsConstruct` | FactoryPattern.js:7-9 | 'bar' gives a BarChart, 'line' a LineChart, 'pie' a PieChart, each built from `data` and `options` |
| `Factory.TypeTagRoundTrip` | FactoryPattern.js:6-11 | the factory inverts `TypeTag`: the tag of every kind constructs that kind |
| `Factory.FactoryExclusive` | FactoryPattern.js:6-11 | the factory yields a chart of kind `k` if and only if the type is `k`'s tag, so each input has exactly one outcome |
| `Factory.UnknownTagFails` | FactoryPattern.js:10 | any other type, including a different letter case, fails with 'Unsupported chart type' and produces no chart |
| `Factory.UsageBuildsLineChart` | FactoryPattern.js:14 | the usage call with 'line' constructs a LineChart |
| `ToggleHook.InitialState` | react-design-patterns.jsx:150 | the state starts at `initial`, and at `false` when no `initial` is given |
| `ToggleHook.DefaultNext` | react-design-patterns.jsx:152 | `next` differs from the state if and only if the action's type is 'toggle' |
| `ToggleHook.Reduce` | react-design-patterns.jsx:151-154 | with no custom reducer the new state is `next`; with one it is exactly `reducer(s, action, next)` |
| `ToggleHook.StateAfter` | react-design-patterns.jsx:151-156 | dispatching nothing keeps the state, and dispatching one action is one reducer step from the held state |
| `ToggleHook.DispatchReducesHeldState` | react-design-patterns.jsx:151-156 | each further dispatch applies the reducer to the state the earlier dispatches left |
| `ToggleHook.NoOptionsStartsOff` | react-design-patterns.jsx:150 | `useToggle()` with no argument starts OFF, and its first toggle turns it ON |
| `ToggleHook.Presses` | react-design-patterns.jsx:156 | `n` presses dispatch `n` actions, each `{ type: 'toggle' }` |
| `ToggleHook.PressesFlipParity` | react-design-patterns.jsx:151-157 | without a custom reducer, `n` toggles leave the state flipped exactly when `n` is odd |
| `ToggleHook.OtherActionsIgnored` | react-design-patterns.jsx:152 | without a custom reducer, actions whose type is not 'toggle' never change the state |
| `ToggleHook.AppReducer` | react-design-patterns.jsx:163 | App's reducer `next ? next : true` returns ON for every state, action and `next` |
| `ToggleHook.AppDispatchTurnsOn` | react-design-patterns.jsx:163 | App's reducer `next ? next : true` makes every dispatch, from any state, yield ON |
| `ToggleHook.AppStaysOn` | react-design-patterns.jsx:161-165 | App starts OFF; after any non-empty dispatch sequence, or from ON, it is ON for good |
| `CompoundTabs.InitialActive` | react-design-patterns.jsx:98-99 | the active index starts at `defaultIndex`, and at 0 when none is given |
| `CompoundTabs.Click` | react-design-patterns.jsx:115-117 | after a click on tab `i`, whatever was active, a tab is bold if and only if its index is `i` |
| `CompoundTabs.TabWeight` | react-design-patterns.jsx:117 | a tab is bold if and only if its index is the active one |
| `CompoundTabs.ActiveAfter` | react-design-patterns.jsx:99-116 | after any sequence of clicks, the active index is the last tab clicked, or the starting index when there was no click |
| `CompoundTabs.ShownPanel` | react-design-patterns.jsx:131-134 | `panels[active]` is shown when `active` is in range; past the end nothing is shown, because the code checks no bound |
| `CompoundTabs.UsageShowsProfileThenHome` | react-design-patterns.jsx:137-143 | with default index 1, the profile panel is shown and tab 1 is bold; a click on tab 0 then shows home |

## Left out

- The wiring in observer.js:18-26 to `progressBar`, `bufferIndicator`, `subtitleRenderer` and the video element's `timeupdate` listener. These are external objects and browser I/O. Callbacks are opaque ids instead of the closures used there.
- Observer.PlayerEmitter.Emit: assumes callbacks return normally and never call back into the emitter. It therefore does not model an exception that aborts the remaining calls of a `forEach`. It also does not model a callback calling `on` during an emission. Callbacks are opaque, and their bodies are not part of this model.
- Subscription handles, `off` and isolating failing callbacks. None of these exists in observer.js.
- JavaScript's coercion of non-string topics to property-name strings. Topics are modelled as strings.
- Factory.ChartFactory: its `type` is modelled as a string. In JavaScript a non-string `type`, such as a number or a `String` object, fails every strict-equality `case` and reaches the throwing `default`. The model cannot express such inputs.
- The chart class bodies and `chart.render` (FactoryPattern.js:3-5, 15). They are empty stubs or DOM rendering. A chart is modelled as its kind plus its two constructor arguments.
- ToggleHook.Reduce: a custom reducer is modelled as returning a boolean. A JavaScript reducer could return any value, and the hook would then hold that value.
- React's `useState`, `useContext` and `useReducer` machinery, the re-rendering it drives, and all JSX markup and styling. Only the state transitions are modelled: a dispatch or click sequence becomes a fold over the actions.
- The container/presentational example, `useWindowSize`, `MouseTracker` and the authentication context (react-design-patterns.jsx:7-94, 168-209). They consist of `fetch`, routing, window size, mouse events and rendering.
- Constructor Pattern.js is not part of this model. It holds a constructor and an `updatePreferences` setter that only assign fields, and an empty `getWatchHistory`.

## Findings

| source | as written | input that shows it | evidently intended | confidence | as-written member | corrected member |
|---|---|---|---|---|---|---|
| observer.js:7 | `events` is a plain object, so `events[evt]` returns an inherited member for names such as `constructor`. That member is truthy, so `\|\|= []` keeps it, and `.push` then throws a TypeError | `on('constructor', fn)` on a new emitter | any string is a usable topic: `fn` is registered | medium, not executed | `Observer.OnAsWritten`, `Observer.ConstructorTopicThrowsOnSubscribe` | `Observer.Subscribe`, `Observer.PlayerEmitter.On` |
| observer.js:12 | for an inherited name, `events[evt] \|\| []` evaluates to the inherited member, and `.forEach` on it throws a TypeError | `emit('toString', data)` on a new emitter | a topic with no subscribers calls nothing and returns normally | medium, not executed | `Observer.EmitAsWritten`, `Observer.ToStringTopicThrowsOnEmit` | `Observer.Notify`, `Observer.PlayerEmitter.Emit` |
