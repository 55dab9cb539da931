/**
 * The transition-state dispatcher as a pure state machine.
 *
 * A Holder is everything the dispatcher and its environment keep between
 * steps: the current state id, the single cancellation slot, the frame
 * callbacks the scheduler still holds, the presentation React has
 * committed, the presentation updates React has not committed yet, and the
 * observable effects so far. Each step of the component is a function from
 * one Holder to the next; the class in TransitionState is proved against
 * these functions.
 */
module Dispatcher {
  import opened TransitionTypes

  /** The component properties the dispatcher reads: the `active` flag
      (possibly undefined), the plain-valued properties from which the
      action properties are picked, and whether an `onTransitionComplete`
      observer is supplied. */
  datatype Props = Props(active: Option<bool>, values: PropValues, onTransitionComplete: bool)

  /** What a dispatch handler captures from the properties current when it
      is invoked: the picked action properties, whether a completion
      observer is supplied, and the presentation shown at that time. A
      follow-up runs with the snapshot of the dispatch that armed it. */
  datatype Snapshot = Snapshot(actionProps: PropValues, observer: bool, shown: Presentation)

  /** A follow-up: run this action, one frame later, with this snapshot. */
  datatype FollowUp = FollowUp(action: ActionID, snapshot: Snapshot)

  /** A requested presentation update and the callback React runs once it
      commits. */
  datatype Update = Update(next: Presentation, callback: Option<FollowUp>)

  /** Observable effects, in the order they happen. */
  datatype Effect = CompleteNotified | TransitionStateSet(p: Presentation)

  datatype Holder = Holder(
    props: Props,
    stateID: StateID,
    cancelPending: Option<nat>,       // handle of the armed frame callback, if any
    frames: map<nat, FollowUp>,       // frame callbacks the scheduler still holds
    nextHandle: nat,                  // the handle the scheduler hands out next
    shown: Presentation,              // committed transitionState
    updates: seq<Update>,             // setTransitionState calls not yet committed
    effects: seq<Effect>)

  /** The snapshot a dispatch handler takes of the current properties. */
  function SnapshotOf(h: Holder, actionKeys: set<string>): Snapshot
  {
    Snapshot(Pick(h.props.values, actionKeys), h.props.onTransitionComplete, h.shown)
  }

  /** Number of uncommitted updates that carry a follow-up callback. */
  function CallbackCount(us: seq<Update>): nat
  {
    if us == [] then 0
    else (if us[0].callback.Some? then 1 else 0) + CallbackCount(us[1..])
  }

  lemma {:induction false} CallbackCountAppend(us: seq<Update>, u: Update)
    ensures CallbackCount(us + [u]) == CallbackCount(us) + (if u.callback.Some? then 1 else 0)
  {
    if us != [] {
      assert (us + [u])[1..] == us[1..] + [u];
      CallbackCountAppend(us[1..], u);
    }
  }

  /** The state the holder starts in. The state id comes from reducing `Init`
      from the entry point with all initial properties; the presentation
      from reducing `Init` from the entry point with the picked action
      properties. Nothing is armed, queued or notified. */
  function Initial(reduce: Reducer, actionKeys: set<string>, props: Props): (h: Holder)
    requires reduce(EntryPoint, Action(Init, props.values)).Some?
    requires reduce(EntryPoint, Action(Init, Pick(props.values, actionKeys))).Some?
    ensures h.stateID == reduce(EntryPoint, Action(Init, props.values)).value.state.id
    ensures h.shown == Project(reduce(EntryPoint, Action(Init, Pick(props.values, actionKeys))).value.state)
    ensures h.props == props && h.updates == [] && h.effects == []
    ensures AtMostOneFollowUp(h) && h.frames == map[]
    ensures h.cancelPending.None? && h.nextHandle == 0
  {
    Holder(
      props,
      reduce(EntryPoint, Action(Init, props.values)).value.state.id,
      None, map[], 0,
      Project(reduce(EntryPoint, Action(Init, Pick(props.values, actionKeys))).value.state),
      [], [])
  }

  /** Cancels the armed frame callback, if there is one, and clears the
      slot. Nothing else changes. */
  function CancelPendingIfExistent(h: Holder): (r: Holder)
    ensures r.cancelPending.None?
    ensures h.cancelPending.None? ==> r == h
    ensures h.cancelPending.Some? ==>
      r == h.(cancelPending := None, frames := h.frames - {h.cancelPending.value})
  {
    match h.cancelPending
    case None => h
    case Some(handle) => h.(cancelPending := None, frames := h.frames - {handle})
  }

  /** Hands a follow-up to the frame scheduler and keeps its handle in the
      slot, overwriting whatever the slot held. */
  function Arm(h: Holder, f: FollowUp): (r: Holder)
    ensures r.cancelPending == Some(h.nextHandle) && r.nextHandle == h.nextHandle + 1
    ensures r.frames.Keys == h.frames.Keys + {h.nextHandle} && r.frames[h.nextHandle] == f
    ensures forall k :: k in h.frames && k != h.nextHandle ==> r.frames[k] == h.frames[k]
    ensures r.props == h.props && r.stateID == h.stateID && r.shown == h.shown
    ensures r.updates == h.updates && r.effects == h.effects
  {
    h.(cancelPending := Some(h.nextHandle), frames := h.frames[h.nextHandle := f],
       nextHandle := h.nextHandle + 1)
  }

  /** Requests a presentation update; React runs the callback on commit. */
  function SetTransitionState(h: Holder, next: Presentation, callback: Option<FollowUp>): (r: Holder)
    ensures r.updates == h.updates + [Update(next, callback)]
    ensures r.effects == h.effects + [TransitionStateSet(next)]
    ensures r == h.(updates := r.updates, effects := r.effects)
  {
    h.(updates := h.updates + [Update(next, callback)],
       effects := h.effects + [TransitionStateSet(next)])
  }

  /** One run of the dispatch closure for an action, with the snapshot of
      the handler invocation it belongs to. */
  function Run(reduce: Reducer, h: Holder, a: ActionID, snap: Snapshot): (r: Holder)
    // an inapplicable action changes nothing and calls nothing
    ensures reduce(h.stateID, Action(a, snap.actionProps)).None? ==> r == h
    ensures reduce(h.stateID, Action(a, snap.actionProps)).Some? ==>
      var res := reduce(h.stateID, Action(a, snap.actionProps)).value;
      var next := Project(res.state);
      var changed := Changed(snap.shown, next);
      var callback := if res.pending.Some? then Some(FollowUp(res.pending.value, snap)) else None;
      // the new state id is the result's
      && r.stateID == res.state.id
      // the committed presentation and the properties are untouched
      && r.props == h.props && r.shown == h.shown
      // the completion observer is told first, exactly once, then the update is requested
      && r.effects == h.effects
           + (if res.completed && snap.observer then [CompleteNotified] else [])
           + (if changed then [TransitionStateSet(next)] else [])
      // earlier uncommitted updates stay; one is added exactly when the presentation changed,
      // carrying the follow-up for a pending action
      && r.updates == h.updates + (if changed then [Update(next, callback)] else [])
      // the previously armed frame callback is cancelled, and no other is touched
      && (h.cancelPending.Some? && HandlesIssued(h) ==> h.cancelPending.value !in r.frames)
      && r.frames.Keys <= h.frames.Keys + {h.nextHandle}
      && (forall k :: k in h.frames && Some(k) != h.cancelPending ==> k in r.frames)
      && (forall k :: k in r.frames && k != h.nextHandle ==> r.frames[k] == h.frames[k])
      // a handle is handed out exactly when a follow-up is armed at once
      && r.nextHandle == (if res.pending.Some? && !changed then h.nextHandle + 1 else h.nextHandle)
      // when the presentation did not change, a pending action is armed at once
      && (if res.pending.Some? && !changed then
            r.cancelPending == Some(h.nextHandle) && h.nextHandle in r.frames
            && r.frames[h.nextHandle] == callback.value
          else
            r.cancelPending.None? && (HandlesIssued(h) ==> h.nextHandle !in r.frames))
  {
    match reduce(h.stateID, Action(a, snap.actionProps))
    case None => h
    case Some(res) =>
      var notified := if res.completed && snap.observer then h.(effects := h.effects + [CompleteNotified]) else h;
      var cancelled := CancelPendingIfExistent(notified.(stateID := res.state.id));
      var callback := if res.pending.Some? then Some(FollowUp(res.pending.value, snap)) else None;
      var next := Project(res.state);
      if Changed(snap.shown, next) then SetTransitionState(cancelled, next, callback)
      else if callback.Some? then Arm(cancelled, callback.value)
      else cancelled
  }

  /** A dispatch handler invocation: run the action with a snapshot of the
      current properties. */
  function Dispatch(reduce: Reducer, actionKeys: set<string>, h: Holder, a: ActionID): (r: Holder)
    // the reducer sees the action with the picked current properties; a null result is a no-op
    ensures reduce(h.stateID, Action(a, Pick(h.props.values, actionKeys))).None? ==> r == h
    ensures reduce(h.stateID, Action(a, Pick(h.props.values, actionKeys))).Some? ==>
      var res := reduce(h.stateID, Action(a, Pick(h.props.values, actionKeys))).value;
      var changed := Changed(h.shown, Project(res.state));
      // a pending action follows up with the snapshot taken now
      var cb := if res.pending.Some? then Some(FollowUp(res.pending.value, SnapshotOf(h, actionKeys))) else None;
      && r.stateID == res.state.id && r.props == h.props && r.shown == h.shown
      // the supplied observer is notified of a completion, before any presentation request
      && r.effects == h.effects
           + (if res.completed && h.props.onTransitionComplete then [CompleteNotified] else [])
           + (if changed then [TransitionStateSet(Project(res.state))] else [])
      // earlier updates stay; one carrying the follow-up is queued exactly when the result
      // differs from the shown presentation
      && r.updates == h.updates + (if changed then [Update(Project(res.state), cb)] else [])
      // the slot's frame callback is cancelled and every other one kept as it was
      && (h.cancelPending.Some? && HandlesIssued(h) ==> h.cancelPending.value !in r.frames)
      && r.frames.Keys <= h.frames.Keys + {h.nextHandle}
      && (forall k :: k in h.frames && Some(k) != h.cancelPending ==> k in r.frames)
      && (forall k :: k in r.frames && k != h.nextHandle ==> r.frames[k] == h.frames[k])
      && r.nextHandle == (if res.pending.Some? && !changed then h.nextHandle + 1 else h.nextHandle)
      // with the presentation unchanged, the follow-up is armed at once under the new handle
      && (if res.pending.Some? && !changed then
            r.cancelPending == Some(h.nextHandle) && h.nextHandle in r.frames
            && r.frames[h.nextHandle] == cb.value
          else
            r.cancelPending.None? && (HandlesIssued(h) ==> h.nextHandle !in r.frames))
  {
    Run(reduce, h, a, SnapshotOf(h, actionKeys))
  }

  /** React commits the oldest requested update: it becomes the shown
      presentation and its callback, if any, arms its follow-up. */
  function Commit(h: Holder): (r: Holder)
    ensures h.updates == [] ==> r == h
    ensures h.updates != [] ==>
      && r.shown == h.updates[0].next && r.updates == h.updates[1..]
      && r.stateID == h.stateID && r.props == h.props && r.effects == h.effects
      && (h.updates[0].callback.None? ==>
            r.frames == h.frames && r.cancelPending == h.cancelPending && r.nextHandle == h.nextHandle)
      && (h.updates[0].callback.Some? ==>
            r.cancelPending == Some(h.nextHandle) && r.nextHandle == h.nextHandle + 1
            && r.frames == h.frames[h.nextHandle := h.updates[0].callback.value])
  {
    if h.updates == [] then h
    else
      var u := h.updates[0];
      var applied := h.(shown := u.next, updates := h.updates[1..]);
      if u.callback.Some? then Arm(applied, u.callback.value) else applied
  }

  /** The frame scheduler runs the callback it holds under handle. A handle
      it no longer holds (cancelled, or already run) does nothing. */
  function Tick(reduce: Reducer, h: Holder, handle: nat): (r: Holder)
    ensures handle !in h.frames ==> r == h
    // a frame callback runs at most once
    ensures HandlesIssued(h) ==> handle !in r.frames
    ensures handle in h.frames ==>
      r == Run(reduce, h.(frames := h.frames - {handle}), h.frames[handle].action, h.frames[handle].snapshot)
  {
    if handle !in h.frames then h
    else
      var f := h.frames[handle];
      Run(reduce, h.(frames := h.frames - {handle}), f.action, f.snapshot)
  }

  /** Mounting dispatches `Mount`. */
  function DidMount(reduce: Reducer, actionKeys: set<string>, h: Holder): (r: Holder)
    ensures r == Dispatch(reduce, actionKeys, h, Mount)
    ensures reduce(h.stateID, Action(Mount, Pick(h.props.values, actionKeys))).None? ==> r == h
    ensures reduce(h.stateID, Action(Mount, Pick(h.props.values, actionKeys))).Some? ==>
      r.stateID == reduce(h.stateID, Action(Mount, Pick(h.props.values, actionKeys))).value.state.id
  {
    Dispatch(reduce, actionKeys, h, Mount)
  }

  /** Unmounting cancels the armed follow-up and touches nothing else. */
  function WillUnmount(h: Holder): (r: Holder)
    ensures r == h.(cancelPending := None,
                    frames := if h.cancelPending.Some? then h.frames - {h.cancelPending.value} else h.frames)
    ensures r.cancelPending.None?
    ensures h.cancelPending.Some? ==> h.cancelPending.value !in r.frames
    ensures AtMostOneFollowUp(h) ==> r.frames == map[] && AtMostOneFollowUp(r)
  {
    CancelPendingIfExistent(h)
  }

  /** New properties arrive: they replace the old ones, and
      `TransitionTrigger` is dispatched exactly when `active` changed. */
  function WillReceiveProps(reduce: Reducer, actionKeys: set<string>, h: Holder, next: Props): (r: Holder)
    ensures h.props.active == next.active ==> r == h.(props := next)
    ensures h.props.active != next.active ==>
      r == Dispatch(reduce, actionKeys, h.(props := next), TransitionTrigger)
    ensures r.props == next
    ensures r.stateID != h.stateID ==>
      && h.props.active != next.active
      && reduce(h.stateID, Action(TransitionTrigger, Pick(next.values, actionKeys))).Some?
      && r.stateID == reduce(h.stateID, Action(TransitionTrigger, Pick(next.values, actionKeys))).value.state.id
  {
    if h.props.active == next.active then h.(props := next)
    else Dispatch(reduce, actionKeys, h.(props := next), TransitionTrigger)
  }

  /** Every frame handle the holder knows was handed out already. */
  predicate HandlesIssued(h: Holder)
  {
    && (forall k :: k in h.frames ==> k < h.nextHandle)
    && (h.cancelPending.Some? ==> h.cancelPending.value < h.nextHandle)
  }

  /** At most one follow-up exists: either one frame callback, which is the
      one the slot can cancel, or one callback waiting for a commit. */
  predicate AtMostOneFollowUp(h: Holder)
  {
    && HandlesIssued(h)
    && (forall k :: k in h.frames ==> h.cancelPending == Some(k))
    && (h.frames != map[] ==> CallbackCount(h.updates) == 0)
    && CallbackCount(h.updates) <= 1
  }

  /** Cancelling twice is cancelling once: the second call finds the slot
      empty and does nothing. */
  lemma CancelIsIdempotent(h: Holder)
    ensures CancelPendingIfExistent(CancelPendingIfExistent(h)) == CancelPendingIfExistent(h)
  {
  }

  /** When the reducer reads no property outside the picked action
      properties, the initial presentation is the one of the state whose id
      the holder starts with. */
  lemma InitialIsCoherent(reduce: Reducer, actionKeys: set<string>, props: Props)
    requires reduce(EntryPoint, Action(Init, props.values)).Some?
    requires reduce(EntryPoint, Action(Init, props.values)) ==
             reduce(EntryPoint, Action(Init, Pick(props.values, actionKeys)))
    ensures var start := reduce(EntryPoint, Action(Init, props.values)).value.state;
      Initial(reduce, actionKeys, props).stateID == start.id &&
      Initial(reduce, actionKeys, props).shown == Project(start)
  {
  }

  /** A dispatch never drops a follow-up that waits for a commit: the slot
      only reaches callbacks the scheduler already holds. */
  lemma RunKeepsUncommittedFollowUps(reduce: Reducer, h: Holder, a: ActionID, snap: Snapshot)
    ensures CallbackCount(Run(reduce, h, a, snap).updates) >= CallbackCount(h.updates)
  {
    var r := Run(reduce, h, a, snap);
    if r.updates != h.updates {
      CallbackCountAppend(h.updates, r.updates[|h.updates|]);
      assert r.updates == h.updates + [r.updates[|h.updates|]];
    }
  }

  /** Dispatching while no follow-up waits for a commit keeps at most one
      follow-up in existence. */
  lemma RunKeepsAtMostOneFollowUp(reduce: Reducer, h: Holder, a: ActionID, snap: Snapshot)
    requires AtMostOneFollowUp(h) && CallbackCount(h.updates) == 0
    ensures AtMostOneFollowUp(Run(reduce, h, a, snap))
  {
    var r := Run(reduce, h, a, snap);
    if r.updates != h.updates {
      CallbackCountAppend(h.updates, r.updates[|h.updates|]);
      assert r.updates == h.updates + [r.updates[|h.updates|]];
    }
  }

  /** A commit keeps at most one follow-up in existence. */
  lemma CommitKeepsAtMostOneFollowUp(h: Holder)
    requires AtMostOneFollowUp(h)
    ensures AtMostOneFollowUp(Commit(h))
  {
  }

  /** A frame firing keeps at most one follow-up in existence. */
  lemma TickKeepsAtMostOneFollowUp(reduce: Reducer, h: Holder, handle: nat)
    requires AtMostOneFollowUp(h)
    ensures AtMostOneFollowUp(Tick(reduce, h, handle))
  {
    if handle in h.frames {
      var f := h.frames[handle];
      RunKeepsAtMostOneFollowUp(reduce, h.(frames := h.frames - {handle}), f.action, f.snapshot);
    }
  }

  /** New properties keep at most one follow-up in existence when no
      follow-up waits for a commit. */
  lemma WillReceivePropsKeepsAtMostOneFollowUp(reduce: Reducer, actionKeys: set<string>, h: Holder, next: Props)
    requires AtMostOneFollowUp(h) && CallbackCount(h.updates) == 0
    ensures AtMostOneFollowUp(WillReceiveProps(reduce, actionKeys, h, next))
  {
    if h.props.active != next.active {
      RunKeepsAtMostOneFollowUp(reduce, h.(props := next), TransitionTrigger, SnapshotOf(h.(props := next), actionKeys));
    }
  }

  /** A dispatch run keeps every frame handle among those already issued,
      so the handle the scheduler hands out next is always fresh. */
  lemma RunKeepsHandlesIssued(reduce: Reducer, h: Holder, a: ActionID, snap: Snapshot)
    requires HandlesIssued(h)
    ensures HandlesIssued(Run(reduce, h, a, snap))
  {
  }

  /** Every lifecycle step, commit and frame keeps every frame handle among
      those already issued. */
  lemma StepsKeepHandlesIssued(reduce: Reducer, actionKeys: set<string>, h: Holder, handle: nat, next: Props)
    requires HandlesIssued(h)
    ensures HandlesIssued(Commit(h))
    ensures HandlesIssued(Tick(reduce, h, handle))
    ensures HandlesIssued(DidMount(reduce, actionKeys, h))
    ensures HandlesIssued(WillUnmount(h))
    ensures HandlesIssued(WillReceiveProps(reduce, actionKeys, h, next))
  {
    if handle in h.frames {
      var f := h.frames[handle];
      RunKeepsHandlesIssued(reduce, h.(frames := h.frames - {handle}), f.action, f.snapshot);
    }
    RunKeepsHandlesIssued(reduce, h, Mount, SnapshotOf(h, actionKeys));
    RunKeepsHandlesIssued(reduce, h.(props := next), TransitionTrigger, SnapshotOf(h.(props := next), actionKeys));
  }
}
