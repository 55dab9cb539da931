/**
 * The transition-state holder: the object behind a transitioning
 * component. It owns the current state id and the single cancellation slot
 * of the dispatch closure; beside them it keeps the environment it talks
 * to (the component's properties, React's committed and requested
 * transition state, the frame scheduler's callbacks) and the effects it
 * has caused. Every method is proved to take the holder exactly where the
 * matching step of Dispatcher takes its abstract value.
 */
module TransitionState {
  import opened TransitionTypes
  import opened Dispatcher

  class TransitionStateHolder {
    const reduce: Reducer
    const actionKeys: set<string>

    var props: Props
    var stateID: StateID
    var cancelPending: Option<nat>
    var frames: map<nat, FollowUp>
    var nextHandle: nat
    var transitionState: Presentation
    var updates: seq<Update>
    var effects: seq<Effect>

    /** The holder's abstract value. */
    function Abs(): Holder
      reads this
    {
      Holder(props, stateID, cancelPending, frames, nextHandle, transitionState, updates, effects)
    }

    /** Derives the initial state id and presentation by reducing `Init`
        from the entry point. */
    constructor (reduce: Reducer, actionKeys: set<string>, initialProps: Props)
      requires reduce(EntryPoint, Action(Init, initialProps.values)).Some?
      requires reduce(EntryPoint, Action(Init, Pick(initialProps.values, actionKeys))).Some?
      ensures this.reduce == reduce && this.actionKeys == actionKeys
      ensures Abs() == Initial(reduce, actionKeys, initialProps)
    {
      this.reduce := reduce;
      this.actionKeys := actionKeys;
      props := initialProps;
      transitionState := Project(reduce(EntryPoint, Action(Init, Pick(initialProps.values, actionKeys))).value.state);
      stateID := reduce(EntryPoint, Action(Init, initialProps.values)).value.state.id;
      cancelPending := None;
      frames := map[];
      nextHandle := 0;
      updates := [];
      effects := [];
    }

    /** Cancels the armed frame callback, if any, and empties the slot. */
    method CancelPendingIfExistent()
      modifies this
      ensures Abs() == Dispatcher.CancelPendingIfExistent(old(Abs()))
    {
      if cancelPending.Some? {
        frames := frames - {cancelPending.value};
        cancelPending := None;
      }
    }

    /** Asks the scheduler to run the follow-up in one frame and keeps the
        cancellation handle in the slot. */
    method RunInFrame(f: FollowUp)
      modifies this
      ensures Abs() == Arm(old(Abs()), f)
    {
      frames := frames[nextHandle := f];
      cancelPending := Some(nextHandle);
      nextHandle := nextHandle + 1;
    }

    /** Requests a new transition state from React, with a callback to run
        once it commits. */
    method SetTransitionState(next: Presentation, callback: Option<FollowUp>)
      modifies this
      ensures Abs() == Dispatcher.SetTransitionState(old(Abs()), next, callback)
    {
      updates := updates + [Update(next, callback)];
      effects := effects + [TransitionStateSet(next)];
    }

    /** The dispatch closure run for one action. */
    method Run(a: ActionID, snap: Snapshot)
      modifies this
      ensures Abs() == Dispatcher.Run(reduce, old(Abs()), a, snap)
    {
      var result := reduce(stateID, Action(a, snap.actionProps));
      if result.None? {
        return;
      }
      var res := result.value;
      if res.completed && snap.observer {
        effects := effects + [CompleteNotified];
      }
      stateID := res.state.id;
      CancelPendingIfExistent();
      var callback: Option<FollowUp> := None;
      if res.pending.Some? {
        callback := Some(FollowUp(res.pending.value, snap));
      }
      if Changed(snap.shown, Project(res.state)) {
        SetTransitionState(Project(res.state), callback);
      } else if callback.Some? {
        RunInFrame(callback.value);
      }
    }

    /** The dispatch handler: runs the action with the current properties
        and transition state. */
    method Dispatch(a: ActionID)
      modifies this
      ensures Abs() == Dispatcher.Dispatch(reduce, actionKeys, old(Abs()), a)
    {
      Run(a, SnapshotOf(Abs(), actionKeys));
    }

    /** Handler the transition observer calls when the transition begins. */
    method OnTransitionBegin()
      modifies this
      ensures Abs() == Dispatcher.Dispatch(reduce, actionKeys, old(Abs()), TransitionStart)
    {
      Dispatch(TransitionStart);
    }

    /** Handler the transition observer calls when the transition completes. */
    method OnTransitionComplete()
      modifies this
      ensures Abs() == Dispatcher.Dispatch(reduce, actionKeys, old(Abs()), TransitionComplete)
    {
      Dispatch(TransitionComplete);
    }

    method DidMount()
      modifies this
      ensures Abs() == Dispatcher.DidMount(reduce, actionKeys, old(Abs()))
    {
      Dispatch(Mount);
    }

    method WillUnmount()
      modifies this
      ensures Abs() == Dispatcher.WillUnmount(old(Abs()))
    {
      CancelPendingIfExistent();
    }

    method WillReceiveProps(next: Props)
      modifies this
      ensures Abs() == Dispatcher.WillReceiveProps(reduce, actionKeys, old(Abs()), next)
    {
      var prevActive := props.active;
      props := next;
      if prevActive == next.active {
        return;
      }
      Dispatch(TransitionTrigger);
    }

    /** React commits the oldest requested transition state and runs its
        callback. */
    method Commit()
      modifies this
      ensures Abs() == Dispatcher.Commit(old(Abs()))
    {
      if updates == [] {
        return;
      }
      var u := updates[0];
      transitionState := u.next;
      updates := updates[1..];
      if u.callback.Some? {
        RunInFrame(u.callback.value);
      }
    }

    /** The frame scheduler runs the callback it holds under handle. */
    method Tick(handle: nat)
      modifies this
      ensures Abs() == Dispatcher.Tick(reduce, old(Abs()), handle)
    {
      if handle !in frames {
        return;
      }
      var f := frames[handle];
      frames := frames - {handle};
      Run(f.action, f.snapshot);
    }
  }
}
