/**
 * The remove target of the floating web heads overlay: a circle at the bottom of the
 * screen that a dragged web head is dropped on to close it.
 *
 * The view keeps two flags, `hidden` and `grew`, a visibility and a scale spring. The
 * spring is modelled by its end value and its current value only, as tenths of full
 * scale (0, 9 and 10); the damped-spring simulation that moves the current value
 * towards the end value is not modelled. One instance at a time is held by a static
 * field, modelled here by `RemoveWebHeadSingleton`.
 */
module WebHeads {
  import opened Wrappers

  // ---------------------------------------------------------------------------
  // Spring levels and the flag state machine
  // ---------------------------------------------------------------------------

  /** Spring value of a hidden target (0.0). */
  const SCALE_HIDDEN: int := 0
  /** Spring value of a revealed, not grown target (0.9). */
  const SCALE_REVEALED: int := 9
  /** Spring value of a grown target (1.0). */
  const SCALE_GROWN: int := 10

  predicate IsScaleLevel(v: int) {
    v == SCALE_HIDDEN || v == SCALE_REVEALED || v == SCALE_GROWN
  }

  datatype Visibility = Visible | Invisible

  /** The part of the view that `hide`, `reveal`, `grow` and `shrink` read and write. */
  datatype TargetState = TargetState(
    hidden: bool,
    grew: bool,
    visibility: Visibility,
    endValue: int,
    currentValue: int)

  /** A freshly built view: hidden, not grown, INVISIBLE, and a new spring resting at 0. */
  function InitialState(): TargetState {
    TargetState(true, false, Invisible, SCALE_HIDDEN, SCALE_HIDDEN)
  }

  /**
   * What every reachable state satisfies: spring values are one of the three levels,
   * a target that is not hidden is VISIBLE and is not heading for scale 0, and one
   * that is neither hidden nor grown rests at 0.9.
   */
  predicate StateInvariant(s: TargetState) {
    && IsScaleLevel(s.endValue)
    && IsScaleLevel(s.currentValue)
    && (!s.hidden ==> s.visibility == Visible && s.endValue != SCALE_HIDDEN)
    && (!s.hidden && !s.grew ==> s.endValue == SCALE_REVEALED)
  }

  function HideStep(s: TargetState): TargetState {
    if !s.hidden then s.(endValue := SCALE_HIDDEN, hidden := true) else s
  }

  function RevealStep(s: TargetState): TargetState {
    var shown := s.(visibility := Visible);
    if s.hidden then shown.(endValue := SCALE_REVEALED, hidden := false) else shown
  }

  function GrowStep(s: TargetState): TargetState {
    if !s.grew then s.(currentValue := SCALE_REVEALED, endValue := SCALE_GROWN, grew := true) else s
  }

  function ShrinkStep(s: TargetState): TargetState {
    if s.grew then s.(endValue := SCALE_REVEALED, grew := false) else s
  }

  /** The calls a drag controller makes on the target, possibly once per frame. */
  datatype Transition = Hide | Reveal | Grow | Shrink

  function Apply(s: TargetState, t: Transition): TargetState {
    match t
    case Hide => HideStep(s)
    case Reveal => RevealStep(s)
    case Grow => GrowStep(s)
    case Shrink => ShrinkStep(s)
  }

  function Run(s: TargetState, ts: seq<Transition>): TargetState
    decreases |ts|
  {
    if ts == [] then s else Run(Apply(s, ts[0]), ts[1..])
  }

  function Repeat(t: Transition, n: nat): seq<Transition> {
    if n == 0 then [] else [t] + Repeat(t, n - 1)
  }

  lemma InitialStateIsConsistent()
    ensures StateInvariant(InitialState())
    ensures InitialState().hidden && !InitialState().grew && InitialState().visibility == Invisible
  {
  }

  lemma TransitionPreservesInvariant(s: TargetState, t: Transition)
    requires StateInvariant(s)
    ensures StateInvariant(Apply(s, t))
  {
  }

  /** Whatever the drag controller calls, in whatever order, the invariant holds. */
  lemma {:induction false} RunPreservesInvariant(s: TargetState, ts: seq<Transition>)
    requires StateInvariant(s)
    ensures StateInvariant(Run(s, ts))
    decreases |ts|
  {
    if ts != [] {
      TransitionPreservesInvariant(s, ts[0]);
      RunPreservesInvariant(Apply(s, ts[0]), ts[1..]);
    }
  }

  /** Calling a transition a second time changes nothing. */
  lemma TransitionIsIdempotent(s: TargetState, t: Transition)
    ensures Apply(Apply(s, t), t) == Apply(s, t)
  {
  }

  /** Any number of repeated calls acts like the first one alone. */
  lemma {:induction false} RepeatedTransitionActsOnce(s: TargetState, t: Transition, n: nat)
    ensures Run(s, Repeat(t, n + 1)) == Apply(s, t)
    decreases n
  {
    assert Repeat(t, n + 1)[1..] == Repeat(t, n);
    if n > 0 {
      RepeatedTransitionActsOnce(Apply(s, t), t, n - 1);
      TransitionIsIdempotent(s, t);
    }
  }

  /** A call whose guard already matches its target state is a no-op. */
  lemma RedundantTransitionIsNoOp(s: TargetState)
    requires StateInvariant(s)
    ensures s.hidden ==> HideStep(s) == s
    ensures !s.hidden ==> RevealStep(s) == s
    ensures s.grew ==> GrowStep(s) == s
    ensures !s.grew ==> ShrinkStep(s) == s
  {
  }

  /** `reveal` shows the view every time, but moves the spring only out of the hidden state. */
  lemma RevealOnlyMovesSpringWhenHidden(s: TargetState)
    ensures RevealStep(s).visibility == Visible && !RevealStep(s).hidden
    ensures RevealStep(s).endValue == (if s.hidden then SCALE_REVEALED else s.endValue)
    ensures RevealStep(s).grew == s.grew && RevealStep(s).currentValue == s.currentValue
  {
  }

  /** `hide` heads for 0 and sets the flag, without touching visibility or the grow flag. */
  lemma HideOnlyMovesSpringWhenShown(s: TargetState)
    ensures HideStep(s).hidden
    ensures HideStep(s).endValue == (if s.hidden then s.endValue else SCALE_HIDDEN)
    ensures HideStep(s).visibility == s.visibility && HideStep(s).grew == s.grew
    ensures HideStep(s).currentValue == s.currentValue
  {
  }

  /** `grow` and `shrink` never touch the hidden flag or the visibility. */
  lemma SizeTransitionsAreOrthogonalToVisibility(s: TargetState)
    ensures GrowStep(s).hidden == s.hidden && GrowStep(s).visibility == s.visibility
    ensures ShrinkStep(s).hidden == s.hidden && ShrinkStep(s).visibility == s.visibility
    ensures GrowStep(s).grew && !ShrinkStep(s).grew
  {
  }

  /** A grow pops the spring to 0.9 and aims at 1.0; a shrink right after aims back at 0.9. */
  lemma GrowThenShrinkReturnsToRevealed(s: TargetState)
    ensures !s.grew ==> GrowStep(s).currentValue == SCALE_REVEALED && GrowStep(s).endValue == SCALE_GROWN
    ensures ShrinkStep(GrowStep(s)).endValue == SCALE_REVEALED
    ensures !ShrinkStep(GrowStep(s)).grew
  {
  }

  // ---------------------------------------------------------------------------
  // Screen geometry
  // ---------------------------------------------------------------------------

  datatype Point = Point(x: int, y: int)

  /** The x and y of the view's window layout parameters (gravity LEFT | TOP). */
  datatype WindowPosition = WindowPosition(x: int, y: int)

  /** Java's `int` division by a positive divisor, which truncates toward zero. */
  function JavaDiv(a: int, d: int): (q: int)
    requires d > 0
    ensures a >= 0 ==> 0 <= a - q * d < d
    ensures a < 0 ==> -d < a - q * d <= 0
  {
    if a >= 0 then a / d else -((-a) / d)
  }

  /** `Math.max(getWidth(), sizePx)`: the laid-out width, or the circle's size when larger. */
  function AdaptWidth(viewWidth: int, sizePx: int): (w: int)
    ensures w >= viewWidth && w >= sizePx
    ensures w == viewWidth || w == sizePx
  {
    if viewWidth >= sizePx then viewWidth else sizePx
  }

  /** The centre of a window at `p` whose width is `adaptWidth`. */
  function CentreOf(p: WindowPosition, adaptWidth: int): Point {
    var offset := JavaDiv(adaptWidth, 2);
    Point(p.x + offset, p.y + offset)
  }

  /**
   * The window position chosen at construction: shifted left and up by half the width,
   * so that the centre sits in the horizontal middle and a sixth of the height above
   * the bottom edge.
   */
  function InitialWindowPosition(dispWidth: int, dispHeight: int, adaptWidth: int): (p: WindowPosition)
    ensures CentreOf(p, adaptWidth) == Point(JavaDiv(dispWidth, 2), dispHeight - JavaDiv(dispHeight, 6))
  {
    var offset := JavaDiv(adaptWidth, 2);
    WindowPosition(JavaDiv(dispWidth, 2) - offset, dispHeight - JavaDiv(dispHeight, 6) - offset)
  }

  // ---------------------------------------------------------------------------
  // The view
  // ---------------------------------------------------------------------------

  /** Calls the view makes on collaborators, in the order it makes them. */
  datatype Event =
    | ChildAdded       // addView(mRemoveHeadCircle)
    | SpringCreated    // setUpSprings
    | WindowAttached   // sWindowManager.addView(this, ...)
    | SpringAtRest     // mScaleSpring.setAtRest()
    | SpringDestroyed  // mScaleSpring.destroy()
    | ChildRemoved     // removeView(mRemoveHeadCircle)
    | WindowDetached   // sWindowManager.removeView(this)
    | CentreCleared    // mCentrePoint = null
    | InstanceCleared  // sOurInstance = null

  function ConstructionEvents(): seq<Event> {
    [ChildAdded, SpringCreated, WindowAttached]
  }

  function TeardownEvents(): seq<Event> {
    [SpringAtRest, SpringDestroyed, ChildRemoved, WindowDetached, CentreCleared, InstanceCleared]
  }

  class RemoveWebHead {
    var hidden: bool
    var grew: bool
    var visibility: Visibility
    /** End value and current value of the scale spring, in tenths. */
    var endValue: int
    var currentValue: int
    /** The scale spring and its spring system are held (not yet nulled by teardown). */
    var hasSpring: bool
    /** The circle child view is held and added. */
    var hasCircle: bool
    /** The window layout parameters; null after teardown. */
    var windowParams: Option<WindowPosition>
    /** The cached centre point; null after teardown. */
    var centrePoint: Option<Point>
    /** Display metrics read once at construction. */
    const dispWidth: int
    const dispHeight: int
    ghost var events: seq<Event>

    function State(): TargetState
      reads this
    {
      TargetState(hidden, grew, visibility, endValue, currentValue)
    }

    /** Attached to the window, with its spring, circle, layout parameters and centre. */
    predicate Live()
      reads this
    {
      hasSpring && hasCircle && windowParams.Some? && centrePoint.Some?
    }

    /** Torn down: every sub-object released and the cached geometry cleared. */
    predicate Released()
      reads this
    {
      !hasSpring && !hasCircle && windowParams.None? && centrePoint.None?
    }

    ghost predicate Valid()
      reads this
    {
      StateInvariant(State()) && (Live() || Released())
    }

    /**
     * The private constructor. `dispWidth` and `dispHeight` are the display metrics,
     * `viewWidth` is `getWidth()` of the view not yet laid out and `sizePx` is the
     * circle's size read from resources.
     */
    constructor (dispWidth: int, dispHeight: int, viewWidth: int, sizePx: int)
      ensures Valid() && Live()
      ensures State() == InitialState()
      ensures this.dispWidth == dispWidth && this.dispHeight == dispHeight
      ensures windowParams == Some(InitialWindowPosition(dispWidth, dispHeight, AdaptWidth(viewWidth, sizePx)))
      ensures centrePoint == Some(Point(JavaDiv(dispWidth, 2), dispHeight - JavaDiv(dispHeight, 6)))
      ensures events == ConstructionEvents()
    {
      hasCircle := true;
      events := [ChildAdded];
      this.dispWidth := dispWidth;
      this.dispHeight := dispHeight;
      visibility := Invisible;
      hidden := true;
      grew := false;
      var params := InitialWindowPosition(dispWidth, dispHeight, AdaptWidth(viewWidth, sizePx));
      windowParams := Some(params);
      hasSpring := true;
      endValue := SCALE_HIDDEN;
      currentValue := SCALE_HIDDEN;
      events := events + [SpringCreated];
      centrePoint := Some(CentreOf(params, AdaptWidth(viewWidth, sizePx)));
      events := events + [WindowAttached];
    }

    /**
     * The centre of the view on screen. The cached point is returned as it is; only
     * when there is none is it computed from the window position and the current
     * width, which needs the layout parameters.
     */
    method GetCenterCoordinates(viewWidth: int, sizePx: int) returns (p: Point)
      requires centrePoint.Some? || windowParams.Some?
      modifies this`centrePoint
      ensures centrePoint == Some(p)
      ensures old(centrePoint).Some? ==> p == old(centrePoint).value
      ensures old(centrePoint).None? ==> p == CentreOf(windowParams.value, AdaptWidth(viewWidth, sizePx))
    {
      if centrePoint.None? {
        var offset := JavaDiv(AdaptWidth(viewWidth, sizePx), 2);
        var params := windowParams.value;
        centrePoint := Some(Point(params.x + offset, params.y + offset));
      }
      p := centrePoint.value;
    }

    method Hide()
      requires Valid()
      requires !hidden ==> hasSpring
      modifies this`hidden, this`endValue
      ensures Valid()
      ensures State() == HideStep(old(State()))
    {
      if !hidden {
        endValue := SCALE_HIDDEN;
        hidden := true;
      }
    }

    method Reveal()
      requires Valid()
      requires hidden ==> hasSpring
      modifies this`visibility, this`hidden, this`endValue
      ensures Valid()
      ensures State() == RevealStep(old(State()))
    {
      visibility := Visible;
      if hidden {
        endValue := SCALE_REVEALED;
        hidden := false;
      }
    }

    method Grow()
      requires Valid()
      requires !grew ==> hasSpring
      modifies this`currentValue, this`endValue, this`grew
      ensures Valid()
      ensures State() == GrowStep(old(State()))
    {
      if !grew {
        currentValue := SCALE_REVEALED;
        endValue := SCALE_GROWN;
        grew := true;
      }
    }

    method Shrink()
      requires Valid()
      requires grew ==> hasSpring
      modifies this`endValue, this`grew
      ensures Valid()
      ensures State() == ShrinkStep(old(State()))
    {
      if grew {
        endValue := SCALE_REVEALED;
        grew := false;
      }
    }

    /**
     * Teardown: stop and destroy the spring, remove the circle, release the layout
     * parameters, detach from the window manager, and only then clear the centre and
     * the static instance.
     */
    method DestroySelf(singleton: RemoveWebHeadSingleton)
      requires Valid() && Live()
      modifies this`hasSpring, this`hasCircle, this`windowParams, this`centrePoint, this`events
      modifies singleton`instance
      ensures Valid() && Released()
      ensures State() == old(State())
      ensures events == old(events) + TeardownEvents()
      ensures singleton.instance == null
    {
      events := events + [SpringAtRest];
      events := events + [SpringDestroyed];
      hasSpring := false;
      events := events + [ChildRemoved];
      hasCircle := false;
      windowParams := None;
      events := events + [WindowDetached];
      centrePoint := None;
      events := events + [CentreCleared];
      singleton.instance := null;
      events := events + [InstanceCleared];
    }
  }

  /** The static `sOurInstance` and the static operations on it. */
  class RemoveWebHeadSingleton {
    var instance: RemoveWebHead?
    /** How many views have been constructed through this holder. */
    ghost var constructions: nat

    ghost predicate Valid()
      reads this, instance
    {
      instance != null ==> instance.Valid() && instance.Live()
    }

    constructor ()
      ensures Valid() && instance == null && constructions == 0
    {
      instance := null;
      constructions := 0;
    }

    /** Return the live instance, or build, attach and publish a new one. */
    method Get(dispWidth: int, dispHeight: int, viewWidth: int, sizePx: int) returns (r: RemoveWebHead)
      requires Valid()
      modifies this
      ensures Valid() && instance == r
      ensures old(instance) != null ==> r == old(instance) && constructions == old(constructions)
      ensures old(instance) == null ==> fresh(r) && constructions == old(constructions) + 1
      ensures old(instance) == null ==> r.State() == InitialState() && r.events == ConstructionEvents()
      ensures old(instance) == null ==>
                r.centrePoint == Some(Point(JavaDiv(dispWidth, 2), dispHeight - JavaDiv(dispHeight, 6)))
    {
      if instance != null {
        r := instance;
      } else {
        r := new RemoveWebHead(dispWidth, dispHeight, viewWidth, sizePx);
        instance := r;
        constructions := constructions + 1;
      }
    }

    method Init(dispWidth: int, dispHeight: int, viewWidth: int, sizePx: int)
      requires Valid()
      modifies this
      ensures Valid() && instance != null
      ensures old(instance) != null ==> instance == old(instance) && constructions == old(constructions)
      ensures old(instance) == null ==> fresh(instance) && constructions == old(constructions) + 1
    {
      var _ := Get(dispWidth, dispHeight, viewWidth, sizePx);
    }

    method Destroy()
      requires Valid()
      modifies this, if instance != null then {instance} else {}
      ensures Valid() && instance == null && constructions == old(constructions)
      ensures old(instance) != null ==> old(instance).Released() && old(instance).State() == old(instance.State())
      ensures old(instance) != null ==> old(instance).events == old(instance.events) + TeardownEvents()
    {
      if instance != null {
        instance.DestroySelf(this);
      }
    }

    method Disappear()
      requires Valid()
      modifies if instance != null then {instance} else {}
      ensures Valid() && instance == old(instance)
      ensures instance != null ==> instance.State() == HideStep(old(instance.State()))
      ensures instance != null ==> instance.events == old(instance.events)
      ensures instance != null ==> instance.windowParams == old(instance.windowParams)
      ensures instance != null ==> instance.centrePoint == old(instance.centrePoint)
    {
      if instance != null {
        instance.Hide();
      }
    }
  }

  /** Two calls of `get` with no `destroy` between them give the same view, built at most once. */
  method GetTwiceGivesOneInstance(singleton: RemoveWebHeadSingleton, dispWidth: int, dispHeight: int, viewWidth: int, sizePx: int)
    returns (a: RemoveWebHead, b: RemoveWebHead)
    requires singleton.Valid()
    modifies singleton
    ensures a == b && singleton.instance == a
    ensures singleton.constructions <= old(singleton.constructions) + 1
  {
    a := singleton.Get(dispWidth, dispHeight, viewWidth, sizePx);
    b := singleton.Get(dispWidth, dispHeight, viewWidth, sizePx);
  }

  /** After `destroy`, `get` builds a fresh view in the initial state; a second `destroy` does nothing. */
  method RebuildAfterDestroy(singleton: RemoveWebHeadSingleton, dispWidth: int, dispHeight: int, viewWidth: int, sizePx: int)
    returns (r: RemoveWebHead)
    requires singleton.Valid()
    modifies singleton, singleton.instance
    ensures fresh(r) && singleton.instance == r
    ensures r.State() == InitialState() && r.hidden && !r.grew && r.visibility == Invisible
    ensures singleton.constructions == old(singleton.constructions) + 1
  {
    singleton.Destroy();
    singleton.Destroy();
    r := singleton.Get(dispWidth, dispHeight, viewWidth, sizePx);
  }
}
