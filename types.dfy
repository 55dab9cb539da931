/**
 * Value types shared by the transition-state dispatcher: state and action
 * identifiers, the reducer's result, the presentation a component renders,
 * and the shallow equality used to decide whether a render is needed.
 */
module TransitionTypes {

  datatype Option<+T> = None | Some(value: T)

  /** State identifiers of the reducer. Only the entry point is named by the
      dispatcher; every other state is an opaque name chosen by the reducer. */
  datatype StateID = EntryPoint | Named(name: string)

  /** The actions the dispatcher feeds to the reducer. */
  datatype ActionID = Init | Mount | TransitionTrigger | TransitionStart | TransitionComplete

  /** Component properties that are plain values, keyed by property name. */
  type PropValues = map<string, string>

  /** An action as the reducer receives it: its kind and the properties
      handed along with it. */
  datatype Action = Action(kind: ActionID, props: PropValues)

  /** A CSS property value: a string or a whole number. */
  datatype CssValue = Str(text: string) | Num(n: int)

  /** A style object: CSS property name to value. */
  type Style = map<string, CssValue>

  /** A reducer state: its identifier and the presentation attributes it
      carries, each of which may be absent (undefined). */
  datatype State = State(
    id: StateID,
    style: Option<Style>,
    className: Option<string>,
    inTransition: Option<bool>)

  /** What the reducer answers for an applicable action. */
  datatype ReduceResult = ReduceResult(state: State, pending: Option<ActionID>, completed: bool)

  /** The reducer: total, deterministic and side-effect free; None means
      "this action does not apply in this state". */
  type Reducer = (StateID, Action) -> Option<ReduceResult>

  /** The presentation a component renders: the style, class name and
      in-transition flag picked out of a state. */
  datatype Presentation = Presentation(
    style: Option<Style>,
    className: Option<string>,
    inTransition: Option<bool>)

  /** Picks the presentation attributes out of a state, dropping its id. */
  function Project(s: State): Presentation
  {
    Presentation(s.style, s.className, s.inTransition)
  }

  /** Keeps only the properties whose names are in keys. */
  function Pick(props: PropValues, keys: set<string>): PropValues
  {
    map k | k in props && k in keys :: props[k]
  }

  /** Shallow equality of two optional style objects, as a generic shallow
      comparison decides it: two absent objects are equal, an absent and a
      present one are not, and two present ones are equal when they have
      the same number of keys and every key of the first is a key of the
      second with an identical value. */
  predicate ShallowEqual(a: Option<Style>, b: Option<Style>)
  {
    match (a, b)
    case (None, None) => true
    case (Some(x), Some(y)) =>
      |x| == |y| && forall k :: k in x ==> k in y && x[k] == y[k]
    case _ => false
  }

  /** Shallow equality of style objects is exactly equality of their
      contents. */
  lemma ShallowEqualIsEquality(a: Option<Style>, b: Option<Style>)
    ensures ShallowEqual(a, b) <==> a == b
  {
    if a.Some? && b.Some? && ShallowEqual(a, b) {
      var x, y := a.value, b.value;
      SubsetOfSameSize(x.Keys, y.Keys);
      assert x.Keys == y.Keys;
      assert x == y;
    }
  }

  /** A subset with as many elements as its superset is the whole set. */
  lemma SubsetOfSameSize<T>(s: set<T>, t: set<T>)
    requires s <= t && |s| == |t|
    ensures s == t
  {
    assert t == s + (t - s);
    assert |t - s| == 0;
  }

  /** The dispatcher's render test: the new presentation differs from the
      shown one when the styles are not shallowly equal, or the class names
      or in-transition flags are not identical. */
  predicate Changed(shown: Presentation, next: Presentation)
  {
    !ShallowEqual(shown.style, next.style) ||
    shown.className != next.className ||
    shown.inTransition != next.inTransition
  }

  /** The render test fires exactly when the two presentations differ. */
  lemma ChangedIffDiffers(shown: Presentation, next: Presentation)
    ensures Changed(shown, next) <==> shown != next
  {
    ShallowEqualIsEquality(shown.style, next.style);
  }
}
