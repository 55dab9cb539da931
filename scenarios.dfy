/**
 * Client scenarios: a transitioning component driven through whole
 * lifecycles, with a small example reducer standing in for the library's
 * own. What each scenario asserts follows from the holder's method
 * contracts alone.
 */
module Scenarios {
  import opened TransitionTypes
  import opened Dispatcher
  import opened TransitionState

  const Idle := State(Named("default"), None, Some("exit-done"), Some(false))
  const EnterPending := State(Named("enterPending"), None, Some("enter"), Some(false))
  const Entering := State(Named("entering"), None, Some("enter enter-active"), Some(true))
  const Entered := State(Named("entered"), None, Some("enter-done"), Some(false))

  /** An example reducer for entering: it starts idle, parks the trigger in
      a pending state whose follow-up starts the transition one frame
      later, and completes when the transition ends. */
  function EnterReducer(id: StateID, a: Action): Option<ReduceResult>
  {
    match (id, a.kind)
    case (EntryPoint, Init) => Some(ReduceResult(Idle, None, false))
    case (Named("default"), TransitionTrigger) => Some(ReduceResult(EnterPending, Some(TransitionStart), false))
    case (Named("enterPending"), TransitionStart) => Some(ReduceResult(Entering, None, false))
    case (Named("entering"), TransitionComplete) => Some(ReduceResult(Entered, None, true))
    case _ => None
  }

  /** Mount, flip `active`, let the pending start fire one frame after the
      commit, then complete: the observer hears of the completion once,
      before the final presentation is requested. */
  method EnterLifecycle()
  {
    var h := new TransitionStateHolder(EnterReducer, {}, Props(Some(false), map[], true));
    assert h.stateID == Named("default") && h.transitionState == Project(Idle);

    h.DidMount();
    assert h.stateID == Named("default") && h.effects == [];

    h.WillReceiveProps(Props(Some(false), map[], true));
    assert h.stateID == Named("default") && h.effects == [];

    h.WillReceiveProps(Props(Some(true), map[], true));
    assert h.stateID == Named("enterPending");
    assert h.frames == map[] && h.updates == [Update(Project(EnterPending), Some(FollowUp(TransitionStart, Snapshot(map[], true, Project(Idle)))))];

    h.Commit();
    assert h.transitionState == Project(EnterPending) && h.cancelPending == Some(0) && 0 in h.frames;

    EnterFromPending(h);
  }

  /** From the committed pending state: the frame fires and starts the
      transition; its end completes it. */
  method EnterFromPending(h: TransitionStateHolder)
    requires h.reduce == EnterReducer && h.actionKeys == {}
    requires h.props == Props(Some(true), map[], true) && h.stateID == Named("enterPending")
    requires h.transitionState == Project(EnterPending) && h.updates == [] && h.effects == [TransitionStateSet(Project(EnterPending))]
    requires h.cancelPending == Some(0) && h.frames == map[0 := FollowUp(TransitionStart, Snapshot(map[], true, Project(Idle)))]
    modifies h
  {
    h.Tick(0);
    assert h.stateID == Named("entering") && h.frames == map[] && h.cancelPending.None?;

    h.Commit();
    assert h.transitionState == Project(Entering) && h.transitionState.inTransition == Some(true);
    assert h.updates == [] && h.effects == [TransitionStateSet(Project(EnterPending)), TransitionStateSet(Project(Entering))];
    CompleteEntering(h);
  }

  /** While entering, the end of the transition completes it once; a stray
      second completion does nothing. */
  method CompleteEntering(h: TransitionStateHolder)
    requires h.reduce == EnterReducer && h.actionKeys == {}
    requires h.props == Props(Some(true), map[], true) && h.stateID == Named("entering")
    requires h.transitionState == Project(Entering) && h.updates == []
    requires h.effects == [TransitionStateSet(Project(EnterPending)), TransitionStateSet(Project(Entering))]
    modifies h
  {
    h.OnTransitionComplete();
    assert h.stateID == Named("entered");
    assert h.effects == [TransitionStateSet(Project(EnterPending)), TransitionStateSet(Project(Entering)),
                         CompleteNotified, TransitionStateSet(Project(Entered))];

    h.OnTransitionComplete();
    assert h.stateID == Named("entered") && |h.effects| == 4;
  }

  /** Unmounting between the commit and the frame cancels the follow-up:
      the frame then does nothing. */
  method UnmountCancelsFollowUp()
  {
    var h := new TransitionStateHolder(EnterReducer, {}, Props(Some(false), map[], false));
    h.WillReceiveProps(Props(Some(true), map[], false));
    h.Commit();
    assert h.cancelPending == Some(0) && h.stateID == Named("enterPending");
    assert h.frames.Keys == {0} && h.transitionState == Project(EnterPending);
    UnmountWhilePending(h);
  }

  method UnmountWhilePending(h: TransitionStateHolder)
    requires h.reduce == EnterReducer && h.stateID == Named("enterPending")
    requires h.cancelPending == Some(0) && h.frames.Keys == {0} && h.transitionState == Project(EnterPending)
    modifies h
  {
    h.WillUnmount();
    assert h.frames == map[] && h.cancelPending.None?;
    h.Tick(0);
    assert h.stateID == Named("enterPending") && h.transitionState == Project(EnterPending);
  }

  const Settled := State(Named("settled"), None, Some("exit-done"), Some(false))

  /** An example reducer whose pending state shows a new class but whose
      follow-up settles back on the idle presentation. */
  function BounceReducer(id: StateID, a: Action): Option<ReduceResult>
  {
    match (id, a.kind)
    case (EntryPoint, Init) => Some(ReduceResult(Idle, None, false))
    case (Named("default"), TransitionTrigger) => Some(ReduceResult(EnterPending, Some(TransitionStart), false))
    case (Named("enterPending"), TransitionStart) => Some(ReduceResult(Settled, None, false))
    case _ => None
  }

  /** A follow-up compares its result with the presentation shown when the
      dispatch that requested it was invoked, before that dispatch's update
      committed, not with the presentation committed since: here the
      result equals the captured one, so no update is requested, and the
      component keeps showing the pending presentation in the settled
      state. */
  method FollowUpComparesWithDispatchSnapshot()
  {
    var h := new TransitionStateHolder(BounceReducer, {}, Props(Some(false), map[], false));
    h.WillReceiveProps(Props(Some(true), map[], false));
    h.Commit();
    assert h.transitionState == Project(EnterPending) && h.cancelPending == Some(0);
    assert h.frames == map[0 := FollowUp(TransitionStart, Snapshot(map[], false, Project(Idle)))];
    SettleFromPending(h);
  }

  method SettleFromPending(h: TransitionStateHolder)
    requires h.reduce == BounceReducer && h.stateID == Named("enterPending")
    requires h.transitionState == Project(EnterPending) && h.updates == []
    requires h.frames == map[0 := FollowUp(TransitionStart, Snapshot(map[], false, Project(Idle)))]
    modifies h
  {
    h.Tick(0);
    assert h.stateID == Named("settled") && h.updates == [];
    assert h.transitionState == Project(EnterPending) != Project(Settled);
  }
}
