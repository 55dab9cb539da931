/**
 * The transition observer: it receives the native `transitionstart` and
 * `transitionend` events of the observed element, passes every one of them
 * on unchanged, and turns the ones that mark the beginning or the end of
 * the tracked transition into the semantic `onTransitionBegin` and
 * `onTransitionComplete` signals. It keeps no state between events.
 */
module TransitionObserver {
  import opened TransitionTypes

  /** A native transition event: the node it originated on, the node whose
      listener handles it (the observed element), and the CSS property that
      transitioned. Each may be absent (undefined). */
  datatype TransitionEvent = TransitionEvent(
    target: Option<string>,
    currentTarget: Option<string>,
    propertyName: Option<string>)

  /** The observed transition: the property that starts first, the one that
      ends last, and whether a transition is in progress. */
  datatype TransitionInfo = TransitionInfo(
    firstProperty: Option<string>,
    lastProperty: Option<string>,
    inTransition: Option<bool>)

  /** A call the observer makes to the component's handlers. */
  datatype Call =
    | TransitionStartCall(event: TransitionEvent)
    | TransitionEndCall(event: TransitionEvent)
    | TransitionBeginCall
    | TransitionCompleteCall

  /** A native event as delivered to the observer. */
  datatype Signal = Start(event: TransitionEvent) | End(event: TransitionEvent)

  /** The in-transition flag as a condition: undefined counts as false. */
  predicate InTransition(info: TransitionInfo)
  {
    info.inTransition == Some(true)
  }

  /** Handles a `transitionstart` event. */
  function OnTransitionStart(info: TransitionInfo, e: TransitionEvent): (calls: seq<Call>)
    // the raw event always goes out first, unchanged
    ensures |calls| >= 1 && calls[0] == TransitionStartCall(e)
    // the begin signal follows exactly for an own-element event on the first property during a transition
    ensures calls[1..] == (if e.target == e.currentTarget && InTransition(info) && e.propertyName == info.firstProperty
                           then [TransitionBeginCall] else [])
  {
    [TransitionStartCall(e)] +
    if e.target != e.currentTarget || !InTransition(info) then []
    else if e.propertyName != info.firstProperty then []
    else [TransitionBeginCall]
  }

  /** Handles a `transitionend` event. */
  function OnTransitionEnd(info: TransitionInfo, e: TransitionEvent): (calls: seq<Call>)
    // the raw event always goes out first, unchanged
    ensures |calls| >= 1 && calls[0] == TransitionEndCall(e)
    // the complete signal follows exactly for an own-element event on the last property during a transition
    ensures calls[1..] == (if e.target == e.currentTarget && InTransition(info) && e.propertyName == info.lastProperty
                           then [TransitionCompleteCall] else [])
  {
    [TransitionEndCall(e)] +
    if e.target != e.currentTarget || !InTransition(info) then []
    else if e.propertyName != info.lastProperty then []
    else [TransitionCompleteCall]
  }

  function Handle(info: TransitionInfo, s: Signal): seq<Call>
  {
    match s
    case Start(e) => OnTransitionStart(info, e)
    case End(e) => OnTransitionEnd(info, e)
  }

  /** The calls made for a series of events, in order. */
  function Replay(info: TransitionInfo, signals: seq<Signal>): seq<Call>
  {
    if signals == [] then [] else Handle(info, signals[0]) + Replay(info, signals[1..])
  }

  /** The raw events passed on among some calls, as signals. */
  function PassedOn(calls: seq<Call>): seq<Signal>
  {
    if calls == [] then []
    else
      match calls[0]
      case TransitionStartCall(e) => [Start(e)] + PassedOn(calls[1..])
      case TransitionEndCall(e) => [End(e)] + PassedOn(calls[1..])
      case _ => PassedOn(calls[1..])
  }

  /** The number of events among signals that the filter lets through as
      begin signals (b) or as complete signals (not b). */
  function Accepted(info: TransitionInfo, signals: seq<Signal>, b: bool): nat
  {
    if signals == [] then 0
    else
      var e := signals[0].event;
      var property := if b then info.firstProperty else info.lastProperty;
      (if signals[0].Start? == b && e.target == e.currentTarget && InTransition(info) && e.propertyName == property
       then 1 else 0)
      + Accepted(info, signals[1..], b)
  }

  lemma {:induction false} PassedOnAppend(a: seq<Call>, b: seq<Call>)
    ensures PassedOn(a + b) == PassedOn(a) + PassedOn(b)
  {
    if a == [] {
      assert a + b == b;
    } else {
      assert (a + b)[0] == a[0] && (a + b)[1..] == a[1..] + b;
      PassedOnAppend(a[1..], b);
    }
  }

  /** Every event is passed on, unchanged and in order, whatever the
      filter decides. */
  lemma {:induction false} EveryEventIsPassedOn(info: TransitionInfo, signals: seq<Signal>)
    ensures PassedOn(Replay(info, signals)) == signals
  {
    if signals != [] {
      var first := Handle(info, signals[0]);
      PassedOnAppend(first, Replay(info, signals[1..]));
      assert PassedOn(first) == [signals[0]] by {
        assert first == [first[0]] + first[1..];
        PassedOnAppend([first[0]], first[1..]);
      }
      EveryEventIsPassedOn(info, signals[1..]);
    }
  }

  /** Begin and complete are each signalled once per accepted event and
      never otherwise. */
  lemma {:induction false} SignalsCountAcceptedEvents(info: TransitionInfo, signals: seq<Signal>)
    ensures multiset(Replay(info, signals))[TransitionBeginCall] == Accepted(info, signals, true)
    ensures multiset(Replay(info, signals))[TransitionCompleteCall] == Accepted(info, signals, false)
  {
    if signals != [] {
      var first := Handle(info, signals[0]);
      assert first == [first[0]] + first[1..];
      SignalsCountAcceptedEvents(info, signals[1..]);
    }
  }

  /** Before any event, neither begin nor complete has been signalled. */
  lemma NoSignalBeforeEvents(info: TransitionInfo)
    ensures TransitionBeginCall !in Replay(info, []) && TransitionCompleteCall !in Replay(info, [])
  {
  }

  /** An event from a descendant never signals begin or complete. */
  lemma DescendantEventsNeverSignal(info: TransitionInfo, e: TransitionEvent)
    requires e.target != e.currentTarget
    ensures OnTransitionStart(info, e) == [TransitionStartCall(e)]
    ensures OnTransitionEnd(info, e) == [TransitionEndCall(e)]
  {
  }

  /** Outside a transition nothing is signalled, whatever the property. */
  lemma NoSignalOutsideTransition(info: TransitionInfo, e: TransitionEvent)
    requires !InTransition(info)
    ensures OnTransitionStart(info, e) == [TransitionStartCall(e)]
    ensures OnTransitionEnd(info, e) == [TransitionEndCall(e)]
  {
  }

  /** The transition observed in the component's tests. */
  const Observed := TransitionInfo(Some("width"), Some("height"), Some(true))

  /** A descendant's start and end events are passed on and signal
      nothing. */
  lemma DescendantCases()
    ensures var e := TransitionEvent(Some("descendant"), None, None);
      OnTransitionStart(Observed, e) == [TransitionStartCall(e)] &&
      OnTransitionEnd(Observed, e) == [TransitionEndCall(e)]
    // with the tracked properties, only the target rejects them
    ensures var e := TransitionEvent(Some("descendant"), None, Some("width"));
      OnTransitionStart(Observed, e) == [TransitionStartCall(e)]
    ensures var e := TransitionEvent(Some("descendant"), None, Some("height"));
      OnTransitionEnd(Observed, e) == [TransitionEndCall(e)]
  {
  }

  /** Own-element events on an untracked property signal nothing. */
  lemma MismatchedPropertyCases()
    ensures var e := TransitionEvent(None, None, Some("foo"));
      OnTransitionStart(Observed, e) == [TransitionStartCall(e)] &&
      OnTransitionEnd(Observed, e) == [TransitionEndCall(e)]
  {
  }

  /** A start on the first property signals begin; an end on the last
      property signals complete. */
  lemma MatchingPropertyCases()
    ensures var e := TransitionEvent(None, None, Some("width"));
      OnTransitionStart(Observed, e) == [TransitionStartCall(e), TransitionBeginCall]
    ensures var e := TransitionEvent(None, None, Some("height"));
      OnTransitionEnd(Observed, e) == [TransitionEndCall(e), TransitionCompleteCall]
  {
  }

  /** With the in-transition flag false, matching properties signal
      nothing. */
  lemma NotInTransitionCases()
    ensures var info := TransitionInfo(None, None, Some(false));
      var e := TransitionEvent(None, None, Some("width"));
      OnTransitionStart(info, e) == [TransitionStartCall(e)]
    ensures var info := TransitionInfo(None, None, Some(false));
      var e := TransitionEvent(None, None, Some("height"));
      OnTransitionEnd(info, e) == [TransitionEndCall(e)]
  {
  }
}
