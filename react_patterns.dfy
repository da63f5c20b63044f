/**
 * The state-reducer hook `useToggle`: a boolean state, a default transition that
 * negates it on a 'toggle' action, and an optional custom reducer that decides
 * the final state from the default one. React's `useReducer` machinery is
 * modelled as a fold of the reducer over the dispatched actions.
 */
module ToggleHook {
  import opened Wrappers

  /** A dispatched action; only its `type` is consulted. */
  datatype Action = Action(actionType: string)

  /** The action `toggle()` dispatches: `{ type: 'toggle' }`. */
  const ToggleAction: Action := Action("toggle")

  /** A custom reducer `(s, action, next) => newState`. */
  type CustomReducer = (bool, Action, bool) -> bool

  /** The hook's options; an absent field is JavaScript `undefined`. */
  datatype ToggleOptions = ToggleOptions(initial: Option<bool>, reducer: Option<CustomReducer>)

  /** `useToggle()` called with no argument: `{}` for the options. */
  const NoOptions: ToggleOptions := ToggleOptions(None, None)

  /** The state `useReducer` starts from: `initial`, defaulting to `false`. */
  function InitialState(opts: ToggleOptions): (s: bool)
    ensures opts.initial.Some? ==> s == opts.initial.value
    ensures opts.initial.None? ==> !s
  {
    opts.initial.GetOr(false)
  }

  /** `next`: the negated state for a 'toggle' action, the state unchanged for any other. */
  function DefaultNext(s: bool, action: Action): (next: bool)
    ensures next != s <==> action.actionType == "toggle"
  {
    if action.actionType == "toggle" then !s else s
  }

  /** The reducer passed to `useReducer`: the custom reducer's verdict on `next`, or `next` itself. */
  function Reduce(opts: ToggleOptions, s: bool, action: Action): (r: bool)
    ensures opts.reducer.None? ==> r == DefaultNext(s, action)
    ensures opts.reducer.Some? ==> r == opts.reducer.value(s, action, DefaultNext(s, action))
  {
    var next := DefaultNext(s, action);
    match opts.reducer
    case Some(custom) => custom(s, action, next)
    case None => next
  }

  /**
   * The state after dispatching `actions` in order, starting from `s`: nothing
   * dispatched keeps the state, one dispatch is one reducer step.
   */
  function StateAfter(opts: ToggleOptions, s: bool, actions: seq<Action>): (r: bool)
    ensures actions == [] ==> r == s
    ensures |actions| == 1 ==> r == Reduce(opts, s, actions[0])
    decreases |actions|
  {
    if actions == [] then s else StateAfter(opts, Reduce(opts, s, actions[0]), actions[1..])
  }

  /** Each further dispatch reduces the state the earlier dispatches left behind. */
  lemma {:induction false} DispatchReducesHeldState(opts: ToggleOptions, s: bool, actions: seq<Action>, a: Action)
    ensures StateAfter(opts, s, actions + [a]) == Reduce(opts, StateAfter(opts, s, actions), a)
    decreases |actions|
  {
    if actions != [] {
      assert (actions + [a])[1..] == actions[1..] + [a];
      DispatchReducesHeldState(opts, Reduce(opts, s, actions[0]), actions[1..], a);
    }
  }

  /** `n` presses of the button, each calling `toggle()`. */
  function Presses(n: nat): (actions: seq<Action>)
    ensures |actions| == n
    ensures forall i :: 0 <= i < n ==> actions[i] == ToggleAction
  {
    if n == 0 then [] else [ToggleAction] + Presses(n - 1)
  }

  /** `useToggle()` with no argument starts OFF, and its first toggle turns it ON. */
  lemma NoOptionsStartsOff()
    ensures !InitialState(NoOptions)
    ensures StateAfter(NoOptions, InitialState(NoOptions), [ToggleAction])
  {
  }

  /** Without a custom reducer, `n` toggles flip the state exactly when `n` is odd. */
  lemma {:induction false} PressesFlipParity(initial: Option<bool>, s: bool, n: nat)
    ensures StateAfter(ToggleOptions(initial, None), s, Presses(n)) == (if n % 2 == 0 then s else !s)
    decreases n
  {
    if n > 0 {
      PressesFlipParity(initial, !s, n - 1);
      assert Presses(n)[1..] == Presses(n - 1);
    }
  }

  /** Without a custom reducer, actions whose type is not 'toggle' never change the state. */
  lemma {:induction false} OtherActionsIgnored(initial: Option<bool>, s: bool, actions: seq<Action>)
    requires forall i :: 0 <= i < |actions| ==> actions[i].actionType != "toggle"
    ensures StateAfter(ToggleOptions(initial, None), s, actions) == s
    decreases |actions|
  {
    if actions != [] {
      OtherActionsIgnored(initial, s, actions[1..]);
    }
  }

  /** App's reducer `(_, action, next) => (next ? next : true)`: whatever `next` is, ON. */
  function AppReducer(prev: bool, action: Action, next: bool): (r: bool)
    ensures r
  {
    if next then next else true
  }

  /** The options App passes: no `initial`, the reducer above. */
  const AppOptions: ToggleOptions := ToggleOptions(None, Some(AppReducer))

  /** App's reducer turns every dispatch, of any action from any state, into ON. */
  lemma AppDispatchTurnsOn(s: bool, action: Action)
    ensures Reduce(AppOptions, s, action)
  {
  }

  /** App starts OFF, and once anything has been dispatched it is ON for good. */
  lemma {:induction false} AppStaysOn(s: bool, actions: seq<Action>)
    requires |actions| > 0 || s
    ensures !InitialState(AppOptions)
    ensures StateAfter(AppOptions, s, actions)
    decreases |actions|
  {
    if actions != [] {
      AppDispatchTurnsOn(s, actions[0]);
      AppStaysOn(true, actions[1..]);
    }
  }
}

/**
 * The compound Tabs components: `Tabs` holds the active index in its context,
 * `Tab` sets it on click and is bold when it is the active one, and `TabPanels`
 * shows the panel at the active index. JSX rendering is left out.
 */
module CompoundTabs {
  import opened Wrappers

  /** `useState(defaultIndex)` with `defaultIndex = 0` by default. */
  function InitialActive(defaultIndex: Option<nat>): (active: nat)
    ensures defaultIndex.None? ==> active == 0
    ensures defaultIndex.Some? ==> active == defaultIndex.value
  {
    defaultIndex.GetOr(0)
  }

  /** `onClick={() => setActive(index)}`: the clicked tab's index becomes active, whatever was active before. */
  function Click(active: nat, index: nat): (next: nat)
    ensures forall j: nat :: TabWeight(next, j) == Bold <==> j == index
  {
    index
  }

  datatype FontWeight = Bold | Normal

  /** A Tab's style: `active === index ? 'bold' : 'normal'`. */
  function TabWeight(active: nat, index: nat): (w: FontWeight)
    ensures w == Bold <==> active == index
  {
    if active == index then Bold else Normal
  }

  /**
   * The active index after a sequence of clicks on the tabs with the given indices:
   * the last tab clicked, or the starting index when nothing was clicked.
   */
  function ActiveAfter(active: nat, clicks: seq<nat>): (r: nat)
    ensures clicks == [] ==> r == active
    ensures clicks != [] ==> r == clicks[|clicks| - 1]
    decreases |clicks|
  {
    if clicks == [] then active else ActiveAfter(Click(active, clicks[0]), clicks[1..])
  }

  /**
   * `panels[active]`: the active panel, or nothing (JavaScript `undefined`, which
   * renders as nothing) when the index is past the end; the code checks no bound.
   */
  function ShownPanel<P>(panels: seq<P>, active: nat): (shown: Option<P>)
    ensures shown.Some? <==> active < |panels|
    ensures shown.Some? ==> shown.value == panels[active]
  {
    if active < |panels| then Some(panels[active]) else None
  }

  /** The usage: default index 1 shows the profile; clicking tab 0 shows home. */
  lemma UsageShowsProfileThenHome()
    ensures ShownPanel(["Home Content", "Profile Content"], InitialActive(Some(1))) == Some("Profile Content")
    ensures ShownPanel(["Home Content", "Profile Content"], Click(InitialActive(Some(1)), 0)) == Some("Home Content")
    ensures TabWeight(InitialActive(Some(1)), 1) == Bold && TabWeight(InitialActive(Some(1)), 0) == Normal
  {
  }
}
