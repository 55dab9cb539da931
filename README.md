# Transition state and transition events of a CSS transition component

This project models the two pieces of logic that drive a CSS transition component:

- **The transition-state dispatcher** (`withTransitionState`). It keeps the current state id of a transition reducer and a single "pending" cancellation slot. It feeds actions to the reducer and notifies the `onTransitionComplete` observer when a transition completes. It requests a new presentation (`style`, `className`, `inTransition`) from React only when the presentation changed. It arms a one-frame follow-up for a pending action, after the requested presentation commits, or at once when nothing changed. It dispatches `Mount` on mount, cancels the follow-up on unmount, and dispatches `TransitionTrigger` when `active` flips.
- **The transition-event filter** (`withTransitionObserver`). It passes every native `transitionstart`/`transitionend` event on unchanged. It signals `onTransitionBegin`/`onTransitionComplete` only for an event that meets three conditions: it originates on the observed element, a transition is in progress, and its property is the first (for begin) or last (for complete) tracked property.

Files:

- `types.dfy` (module `TransitionTypes`): state and action ids, the reducer's result, the presentation, `Pick`, and the shallow style comparison with its proof that it is equality.
- `dispatcher.dfy` (module `Dispatcher`): the dispatcher as a pure state machine over a `Holder` value. A `Holder` holds the state id, the cancellation slot, the frame callbacks the scheduler holds, the committed and requested presentations, and the observable effects. This module states one function per step (`Run`, `Commit`, `Tick`, the lifecycle hooks) and lemmas about them.
- `transition_state.dfy` (module `TransitionState`): class `TransitionStateHolder`. Its fields are updated step by step as the dispatch closure does, and each method is proved to move the object exactly as the matching `Dispatcher` function moves its abstract value.
- `transition_observer.dfy` (module `TransitionObserver`): the event filter as functions, lemmas over event sequences, and one lemma per asserted test case.
- `scenarios.dfy` (module `Scenarios`): client methods that drive a holder through an enter lifecycle, an unmount while a follow-up waits, and a follow-up that settles on an old presentation. Each uses a small example reducer.

How the environment is represented:

- **The reducer** is a parameter: any total function `(StateID, Action) -> Option<ReduceResult>`. Every contract holds for every reducer.
- **React's state setter** `setTransitionState(x, cb)` appends an update to a queue. `Commit` applies the oldest update and then runs its callback.
- **The frame scheduler** `runInFrame(1, …)` stores the follow-up under a fresh handle, and that handle goes into the `cancelPending` slot. `Tick(handle)` runs the callback stored under that handle. A cancelled handle does nothing.

Three consequences of the code as written are modelled faithfully, where a plain description of the component would promise more:

- **The follow-up uses a stale snapshot.** The dispatch handler captures the properties current when it is invoked: the action properties, the observer and the shown `transitionState`. The `run(pending)` follow-up reuses that snapshot. So the follow-up compares its result with the presentation shown when the dispatch that requested it was invoked, before that dispatch's update committed, not with the presentation committed since (`Scenarios.FollowUpComparesWithDispatchSnapshot`).
- **A dispatch can leave a second follow-up alive.** The slot only holds callbacks the scheduler has already taken. A dispatch made while an update with a follow-up still waits for its commit does not cancel that follow-up (`Dispatcher.RunKeepsUncommittedFollowUps`). "At most one follow-up" is therefore preserved by dispatches made after the commit (`Dispatcher.RunKeepsAtMostOneFollowUp`), and by every commit and frame.
- **Unmounting only cancels the armed follow-up.** There is no "unmounted" flag, so a later dispatch on the same holder still runs.

## Model

| member | source | states |
|---|---|---|
| `TransitionTypes.ShallowEqualIsEquality` | src/composables/withTransitionState.tsx:85 | shallow comparison of two optional style objects (undefined equals only undefined; same key count, every key present with an identical value) holds exactly when the styles are equal |
| `TransitionTypes.ChangedIffDiffers` | src/composables/withTransitionState.tsx:85-87 | the render test (styles not shallowly equal, or class name or in-transition flag not identical) holds exactly when the new presentation differs from the shown one |
| `Dispatcher.Initial` | src/composables/withTransitionState.tsx:49-60 | the initial state id is that of reducing `Init` from the entry point with the initial properties; the initial presentation is the style/class/in-transition projection of reducing `Init` from the entry point with the picked action properties; nothing is armed, queued or notified, the slot is empty, the first frame handle is 0, and at most one follow-up exists |
| `Dispatcher.InitialIsCoherent` | src/composables/withTransitionState.tsx:49-59 | when both `Init` reductions agree, the initial presentation is the projection of the very state whose id the holder starts with |
| `Dispatcher.CancelPendingIfExistent` | src/composables/withTransitionState.tsx:61-66 | the slot ends empty; an armed callback is cancelled (removed from the scheduler) and nothing else changes; with an empty slot nothing changes at all |
| `Dispatcher.CancelIsIdempotent` | src/composables/withTransitionState.tsx:61-66 | a second cancellation is a no-op |
| `Dispatcher.Arm` | src/composables/withTransitionState.tsx:81-83 | the follow-up is held by the scheduler under a fresh handle that the slot now holds; every other callback, the state id, the presentation and the effects are unchanged |
| `Dispatcher.SetTransitionState` | src/composables/withTransitionState.tsx:88 | the requested presentation and its callback are queued after earlier requests, the request is recorded as an effect, and nothing else changes |
| `Dispatcher.Run` | src/composables/withTransitionState.tsx:70-92 | a null reduction changes nothing and calls nothing; otherwise the state id becomes the result's; the observer is notified exactly once when the result is completed and an observer exists, and that comes before the presentation request; the previously armed callback is cancelled and every other frame callback survives; an update is requested exactly when the presentation changed, carrying the follow-up for a pending action; with no change, a pending action is armed at once under a fresh handle, the only handle handed out; without one, the slot ends empty |
| `Dispatcher.Dispatch` | src/composables/withTransitionState.tsx:69-93 | a handler invocation reduces the action with the picked current properties: a null result is a no-op; otherwise the state id becomes the result's, the supplied observer is notified of a completion before any presentation request, earlier updates stay and one update, carrying the result's presentation and the follow-up for a pending action with the snapshot taken now, is queued exactly when that presentation differs from the shown one; the slot's frame callback is cancelled and every other one kept unchanged; a fresh handle, holding that follow-up, goes into the slot exactly when it is armed at once |
| `Dispatcher.Commit` | src/composables/withTransitionState.tsx:88 | the oldest requested presentation becomes the shown one; its callback, if any, arms its follow-up in the slot without cancelling what the slot held; state id and effects are unchanged |
| `Dispatcher.Tick` | src/composables/withTransitionState.tsx:82 | a frame whose callback was cancelled does nothing; otherwise the held follow-up is removed from the scheduler, runs at most once, and its action runs with the snapshot it was armed with |
| `Dispatcher.DidMount` | src/composables/withTransitionState.tsx:101-104 | mounting dispatches `Mount` with the current properties: a null reduction leaves everything unchanged, otherwise the state id becomes the result's |
| `Dispatcher.WillUnmount` | src/composables/withTransitionState.tsx:105-108 | unmount cancels the slot's frame callback and empties the slot, and nothing else changes; when at most one follow-up existed, no armed frame callback is left |
| `Dispatcher.WillReceiveProps` | src/composables/withTransitionState.tsx:109-113 | new properties replace the old ones; `TransitionTrigger` is dispatched if and only if `active` changed, and nothing else happens otherwise; the state id moves only through that trigger's non-null reduction with the new properties |
| `Dispatcher.RunKeepsHandlesIssued` | src/composables/withTransitionState.tsx:78-83 | a dispatch keeps every frame handle among those already handed out, so the next handle is always fresh |
| `Dispatcher.StepsKeepHandlesIssued` | src/composables/withTransitionState.tsx:101-113 | mount, unmount, a props change, a commit and a frame each keep every frame handle among those already handed out |
| `Dispatcher.RunKeepsUncommittedFollowUps` | src/composables/withTransitionState.tsx:78-83 | a dispatch never removes a follow-up that waits for a commit, since the slot only reaches callbacks already armed |
| `Dispatcher.RunKeepsAtMostOneFollowUp` | src/composables/withTransitionState.tsx:78-91 | a dispatch made while no follow-up waits for a commit leaves at most one follow-up, and a live frame is always the one the slot can cancel |
| `Dispatcher.CommitKeepsAtMostOneFollowUp` | src/composables/withTransitionState.tsx:81-83 | a commit preserves "at most one follow-up, cancellable through the slot" |
| `Dispatcher.TickKeepsAtMostOneFollowUp` | src/composables/withTransitionState.tsx:82 | a frame firing preserves "at most one follow-up, cancellable through the slot" |
| `Dispatcher.WillReceivePropsKeepsAtMostOneFollowUp` | src/composables/withTransitionState.tsx:109-113 | a props change with no follow-up waiting for a commit preserves "at most one follow-up" |
| `TransitionState.TransitionStateHolder.constructor` | src/composables/withTransitionState.tsx:49-60 | the new holder's state is `Dispatcher.Initial` of its reducer, action keys and initial properties |
| `TransitionState.TransitionStateHolder.CancelPendingIfExistent` | src/composables/withTransitionState.tsx:61-66 | the holder moves as `Dispatcher.CancelPendingIfExistent` |
| `TransitionState.TransitionStateHolder.RunInFrame` | src/composables/withTransitionState.tsx:82 | the holder moves as `Dispatcher.Arm` |
| `TransitionState.TransitionStateHolder.SetTransitionState` | src/composables/withTransitionState.tsx:88 | the holder moves as `Dispatcher.SetTransitionState` |
| `TransitionState.TransitionStateHolder.Run` | src/composables/withTransitionState.tsx:70-92 | the holder moves as `Dispatcher.Run` |
| `TransitionState.TransitionStateHolder.Dispatch` | src/composables/withTransitionState.tsx:69-93 | the holder moves as `Dispatcher.Run` with the snapshot of the current properties and transition state |
| `TransitionState.TransitionStateHolder.OnTransitionBegin` | src/composables/withTransitionState.tsx:98 | the begin handler dispatches `TransitionStart` |
| `TransitionState.TransitionStateHolder.OnTransitionComplete` | src/composables/withTransitionState.tsx:99 | the complete handler dispatches `TransitionComplete` |
| `TransitionState.TransitionStateHolder.DidMount` | src/composables/withTransitionState.tsx:101-104 | the holder moves as `Dispatcher.DidMount` |
| `TransitionState.TransitionStateHolder.WillUnmount` | src/composables/withTransitionState.tsx:105-108 | the holder moves as `Dispatcher.WillUnmount` |
| `TransitionState.TransitionStateHolder.WillReceiveProps` | src/composables/withTransitionState.tsx:109-113 | the holder moves as `Dispatcher.WillReceiveProps` |
| `TransitionState.TransitionStateHolder.Commit` | src/composables/withTransitionState.tsx:88 | the holder moves as `Dispatcher.Commit` |
| `TransitionState.TransitionStateHolder.Tick` | src/composables/withTransitionState.tsx:82 | the holder moves as `Dispatcher.Tick` |
| `TransitionObserver.OnTransitionStart` | src/composables/withTransitionObserver.spec.tsx:43-87 | the raw event is passed on first, unchanged; `onTransitionBegin` follows if and only if the event's target is the observed element, a transition is in progress and the property is the first property |
| `TransitionObserver.OnTransitionEnd` | src/composables/withTransitionObserver.spec.tsx:90-134 | the raw event is passed on first, unchanged; `onTransitionComplete` follows if and only if the event's target is the observed element, a transition is in progress and the property is the last property |
| `TransitionObserver.EveryEventIsPassedOn` | src/composables/withTransitionObserver.spec.tsx:48-54 | over any series of start and end events, the raw calls are exactly the events, in order, descendants' included (also lines 95-101) |
| `TransitionObserver.SignalsCountAcceptedEvents` | src/composables/withTransitionObserver.spec.tsx:56-78 | over any series of events, begin and complete are signalled exactly once per accepted event and never otherwise (also lines 103-125) |
| `TransitionObserver.NoSignalBeforeEvents` | src/composables/withTransitionObserver.spec.tsx:44-46 | before any event neither begin nor complete has been signalled (also lines 91-93) |
| `TransitionObserver.DescendantEventsNeverSignal` | src/composables/withTransitionObserver.spec.tsx:56-62 | an event whose target is not the observed element is passed on and signals nothing (also lines 103-109) |
| `TransitionObserver.NoSignalOutsideTransition` | src/composables/withTransitionObserver.spec.tsx:80-87 | with the in-transition flag false or undefined, no event signals begin or complete (also lines 127-134) |
| `TransitionObserver.DescendantCases` | src/composables/withTransitionObserver.spec.tsx:48-62 | the tests' descendant start and end events are passed on and signal nothing (also lines 95-109), and so do descendant events on the tracked `width` and `height` properties, which only the target rejects |
| `TransitionObserver.MismatchedPropertyCases` | src/composables/withTransitionObserver.spec.tsx:64-70 | a `foo` start or end event signals nothing (also lines 111-117) |
| `TransitionObserver.MatchingPropertyCases` | src/composables/withTransitionObserver.spec.tsx:72-78 | a `width` start event signals begin and a `height` end event signals complete (also lines 119-125) |
| `TransitionObserver.NotInTransitionCases` | src/composables/withTransitionObserver.spec.tsx:80-87 | with `inTransition: false`, a `width` start and a `height` end signal nothing (also lines 127-134) |

## Left out

- Dispatcher.Initial: the model requires both `Init` reductions from the entry point to be non-null (so does `TransitionState.TransitionStateHolder.constructor`). The code reads `.state` of them unguarded, so a null there throws a TypeError when the component is built; that error path is not modelled.
- Dispatcher.WillUnmount: an update requested before unmount can still commit and arm its follow-up in the model; React discards it.
- The `active` property is kept apart from the plain-valued properties, so the reducer sees it only if it is also among `values`; the code passes it to `Init` with every other property, and to later actions only when it is one of the action keys. No proved property depends on this, since every lemma holds for all reducers and properties.
- The concrete reducer, `actionPropKeys` and `pick` (`../reducer`, `../utils/pick`) are not part of this model. The reducer is a parameter, the action keys are a set given to the holder, and `pick` is modelled as restriction of a map.
- A falsy pending action is not modelled. `if (pending)` treats a numeric enum value 0 as "no pending action", but the enum's values are not part of this model. Any `Some` pending action counts as present.
- The composition helpers (`combine`, `isolate`, `withProps`, `withState`, `withHandlers`, `onDidMount`, `onWillUnmount`, `onWillReceiveProps`, `integrate`) and React's render cycle are foreign library code. The model assumes a handler sees the properties current when it is invoked, and that the props-change hook dispatches with the new properties.
- React commit batching is simplified. `Commit` applies one queued update and runs its callback. A batched commit is a series of these steps.
- `runInFrame` timing is not modelled. The frame count is not represented, and `Tick` runs any callback the scheduler holds, in any order the environment chooses.
- Re-entrant dispatch is not modelled. The `onTransitionComplete` observer is recorded as an effect. A dispatch it might make synchronously from inside the notification is outside the model.
- `setTransitionState` after unmount is not modelled (React ignores it with a warning). The model keeps queuing the request.
- The observer's implementation file is not part of this model. The filter is modelled from its tests. "Originates on the observed element" is `target == currentTarget`; in the tests both are absent for own-element events. All four handlers are assumed supplied, as the tests supply them.
- `CssValue` covers strings and whole numbers. Fractional CSS numbers are not modelled.
- The documentation site's logo and syntax highlighter, and the test bundle wiring, are not part of this model: they are UI and build configuration.
