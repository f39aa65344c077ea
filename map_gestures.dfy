/** The pinch-zoom and pan transform of the campus map screen.

    The screen keeps six shared animated values: the current `scale` and
    translation, and the "last" baselines that a gesture starts from. Pinch
    and pan frames move the view freely (a pinch never below scale 1); the
    end of a gesture clamps the translation so that the scaled image still
    covers the viewport.

    Numbers are `real`s. A `withSpring(x)` animation is modelled by the value
    it settles at, `x`. */
module MapGestures {

  /** The states a gesture handler reports; the handlers act only on END. */
  datatype HandlerState = Undetermined | Began | Active | Cancelled | Failed | End

  /** The window size the map image fills. */
  datatype Viewport = Viewport(width: real, height: real)
  {
    predicate Valid() { width > 0.0 && height > 0.0 }
  }

  function Max(a: real, b: real): (r: real)
    ensures r >= a && r >= b && (r == a || r == b)
  {
    if a >= b then a else b
  }

  function Min(a: real, b: real): (r: real)
    ensures r <= a && r <= b && (r == a || r == b)
  {
    if a <= b then a else b
  }

  /** `(scale·dim − dim)/2`: how far the image, zoomed by `scale` about its
      centre, may be shifted along an axis of length `dim`. It is
      non-negative exactly at scale 1 and above, and zero exactly at scale 1. */
  function MaxTranslate(scale: real, dim: real): (m: real)
    requires dim > 0.0
    ensures m >= 0.0 <==> scale >= 1.0
    ensures m == 0.0 <==> scale == 1.0
  {
    (scale * dim - dim) / 2.0
  }

  /** `min(max(v, -m), m)`: the point of `[-m, m]` nearest to `v` when the
      interval is not empty. */
  function Clamp(v: real, m: real): (r: real)
    ensures m >= 0.0 ==> -m <= r <= m
    ensures m >= 0.0 && -m <= v <= m ==> r == v
    ensures m >= 0.0 && v < -m ==> r == -m
    ensures v > m ==> r == m
  {
    Min(Max(v, -m), m)
  }

  /** An image of length `scale·dim`, centred at offset `t`, covers the
      viewport `[-dim/2, dim/2]` of that axis. */
  ghost predicate Covers(scale: real, dim: real, t: real)
  {
    t - scale * dim / 2.0 <= -dim / 2.0 && dim / 2.0 <= t + scale * dim / 2.0
  }

  /** The bound is exactly the set of offsets at which the image covers the
      viewport. */
  lemma BoundMeansCoverage(scale: real, dim: real, t: real)
    requires dim > 0.0
    ensures -MaxTranslate(scale, dim) <= t <= MaxTranslate(scale, dim) <==> Covers(scale, dim, t)
  {
  }

  /** Clamping twice is clamping once. */
  lemma ClampIdempotent(v: real, m: real)
    ensures Clamp(Clamp(v, m), m) == Clamp(v, m)
  {
  }

  /** No point of the interval is nearer to `v` than its clamp. */
  lemma ClampIsNearest(v: real, m: real, u: real)
    requires -m <= u <= m
    ensures var r := Clamp(v, m); (if r >= v then r - v else v - r) <= (if u >= v then u - v else v - u)
  {
  }

  /** A larger zoom allows a larger shift. */
  lemma MaxTranslateMonotonic(s1: real, s2: real, dim: real)
    requires dim > 0.0 && s1 <= s2
    ensures MaxTranslate(s1, dim) <= MaxTranslate(s2, dim)
  {
    assert s2 * dim - s1 * dim == (s2 - s1) * dim;
    assert (s2 - s1) * dim >= 0.0 by {
      assert s2 - s1 >= 0.0 && dim > 0.0;
    }
  }

  /** The six shared values of the map transform. */
  datatype Transform = Transform(
    scale: real, lastScale: real,
    translateX: real, translateY: real,
    lastTranslateX: real, lastTranslateY: real)
  {
    /** What the handlers keep at all times: the view is never zoomed out
        past the image's own size. */
    predicate Valid() { scale >= 1.0 && lastScale >= 1.0 }
  }

  /** The values on screen mount. */
  const Initial := Transform(1.0, 1.0, 0.0, 0.0, 0.0, 0.0)

  /** The displayed translation lies within the bound of the current scale. */
  predicate InBounds(vp: Viewport, t: Transform)
    requires vp.Valid()
  {
    && -MaxTranslate(t.scale, vp.width) <= t.translateX <= MaxTranslate(t.scale, vp.width)
    && -MaxTranslate(t.scale, vp.height) <= t.translateY <= MaxTranslate(t.scale, vp.height)
  }

  /** One call of a gesture handler. `PinchFrame.factor` is the pinch
      gesture's cumulative scale; `PanFrame` carries the pan gesture's
      cumulative translation. At the end of a pinch the handler reads the
      translation back right after assigning it a spring animation; what
      that read returns is up to the animation library, so it is an input
      of the event (`readBackX`, `readBackY`). */
  datatype GestureEvent =
    | PinchFrame(factor: real)
    | PinchStateChange(state: HandlerState, readBackX: real, readBackY: real)
    | PanFrame(translationX: real, translationY: real)
    | PanStateChange(panState: HandlerState)
  {
    predicate IsPan() { PanFrame? || PanStateChange? }
  }

  /** The effect of one handler call on the transform. */
  function Step(vp: Viewport, t: Transform, e: GestureEvent): Transform
    requires vp.Valid()
  {
    match e
    case PinchFrame(factor) =>
      t.(scale := Max(t.lastScale * factor, 1.0))
    case PinchStateChange(state, readBackX, readBackY) =>
      if state != End then t
      else
        var s := Max(t.scale, 1.0);
        t.(scale := s, lastScale := s,
           translateX := Clamp(t.translateX, MaxTranslate(s, vp.width)),
           translateY := Clamp(t.translateY, MaxTranslate(s, vp.height)),
           lastTranslateX := readBackX, lastTranslateY := readBackY)
    case PanFrame(dx, dy) =>
      t.(translateX := t.lastTranslateX + dx, translateY := t.lastTranslateY + dy)
    case PanStateChange(state) =>
      if state != End then t
      else
        var cx := Clamp(t.translateX, MaxTranslate(t.scale, vp.width));
        var cy := Clamp(t.translateY, MaxTranslate(t.scale, vp.height));
        t.(translateX := cx, translateY := cy, lastTranslateX := cx, lastTranslateY := cy)
  }

  /** The effect of a sequence of handler calls, in order. */
  function Run(vp: Viewport, t: Transform, events: seq<GestureEvent>): Transform
    requires vp.Valid()
    decreases |events|
  {
    if events == [] then t
    else Run(vp, Step(vp, t, events[0]), events[1..])
  }

  /** Every handler call keeps the scale at 1 or above. */
  lemma StepKeepsValid(vp: Viewport, t: Transform, e: GestureEvent)
    requires vp.Valid() && t.Valid()
    ensures Step(vp, t, e).Valid()
  {
  }

  /** Whatever the gestures, the scale never drops below 1. */
  lemma {:induction false} RunKeepsValid(vp: Viewport, t: Transform, events: seq<GestureEvent>)
    requires vp.Valid() && t.Valid()
    ensures Run(vp, t, events).Valid()
    decreases |events|
  {
    if events != [] {
      StepKeepsValid(vp, t, events[0]);
      RunKeepsValid(vp, Step(vp, t, events[0]), events[1..]);
    }
  }

  /** Running one more event is stepping the result of the run. */
  lemma {:induction false} RunSnoc(vp: Viewport, t: Transform, events: seq<GestureEvent>, e: GestureEvent)
    requires vp.Valid()
    ensures Run(vp, t, events + [e]) == Step(vp, Run(vp, t, events), e)
    decreases |events|
  {
    if events == [] {
      assert [e][1..] == [];
    } else {
      assert (events + [e])[1..] == events[1..] + [e];
      RunSnoc(vp, Step(vp, t, events[0]), events[1..], e);
    }
  }

  /** After any gesture history that ends with a released pan, the view and
      its baseline coincide, both lie within the bounds of the current
      scale, and they are exactly the clamp of the translation the pan left. */
  lemma ReleasedPanIsInBounds(vp: Viewport, t: Transform, events: seq<GestureEvent>)
    requires vp.Valid() && t.Valid()
    ensures var before := Run(vp, t, events);
            var r := Run(vp, t, events + [PanStateChange(End)]);
            && r.Valid() && InBounds(vp, r)
            && r.scale == before.scale && r.lastScale == before.lastScale
            && r.lastTranslateX == r.translateX == Clamp(before.translateX, MaxTranslate(r.scale, vp.width))
            && r.lastTranslateY == r.translateY == Clamp(before.translateY, MaxTranslate(r.scale, vp.height))
  {
    RunSnoc(vp, t, events, PanStateChange(End));
    RunKeepsValid(vp, t, events);
  }

  /** At minimum zoom a released pan settles at the origin: the image cannot
      be panned at scale 1. */
  lemma ReleasedPanAtMinimumZoom(vp: Viewport, t: Transform, events: seq<GestureEvent>)
    requires vp.Valid() && t.Valid()
    requires Run(vp, t, events).scale == 1.0
    ensures var r := Run(vp, t, events + [PanStateChange(End)]);
            r.translateX == r.translateY == r.lastTranslateX == r.lastTranslateY == 0.0
  {
    ReleasedPanIsInBounds(vp, t, events);
  }

  /** After any gesture history that ends with a released pinch, the scale
      is at least 1, it is the new baseline, and the displayed translation
      lies within the bounds of that scale. */
  lemma ReleasedPinchIsInBounds(vp: Viewport, t: Transform, events: seq<GestureEvent>, readBackX: real, readBackY: real)
    requires vp.Valid() && t.Valid()
    ensures var r := Run(vp, t, events + [PinchStateChange(End, readBackX, readBackY)]);
            r.Valid() && r.lastScale == r.scale && InBounds(vp, r)
  {
    RunSnoc(vp, t, events, PinchStateChange(End, readBackX, readBackY));
    RunKeepsValid(vp, t, events);
  }

  /** Pan events never touch the zoom. */
  lemma {:induction false} PanKeepsScale(vp: Viewport, t: Transform, events: seq<GestureEvent>)
    requires vp.Valid()
    requires forall i :: 0 <= i < |events| ==> events[i].IsPan()
    ensures Run(vp, t, events).scale == t.scale
    ensures Run(vp, t, events).lastScale == t.lastScale
    decreases |events|
  {
    if events != [] {
      PanKeepsScale(vp, Step(vp, t, events[0]), events[1..]);
    }
  }

  /** Pan frames are not cumulative: after any non-empty run of frames the
      view sits at the baseline plus the latest frame's translation, and the
      baseline has not moved. */
  lemma {:induction false} PanFramesFollowLatest(vp: Viewport, t: Transform, events: seq<GestureEvent>)
    requires vp.Valid()
    requires |events| > 0 && forall i :: 0 <= i < |events| ==> events[i].PanFrame?
    ensures var r := Run(vp, t, events);
            var last := events[|events| - 1];
            && r.translateX == t.lastTranslateX + last.translationX
            && r.translateY == t.lastTranslateY + last.translationY
            && r.lastTranslateX == t.lastTranslateX && r.lastTranslateY == t.lastTranslateY
            && r.scale == t.scale
    decreases |events|
  {
    if |events| > 1 {
      PanFramesFollowLatest(vp, Step(vp, t, events[0]), events[1..]);
    }
  }

  /** The map screen's transform controller: one method per gesture
      callback, each assigning the shared values in the order the callback
      does. */
  class MapView {
    const viewport: Viewport
    var scale: real
    var lastScale: real
    var translateX: real
    var translateY: real
    var lastTranslateX: real
    var lastTranslateY: real

    /** The current values as one snapshot. */
    function State(): Transform
      reads this
    {
      Transform(scale, lastScale, translateX, translateY, lastTranslateX, lastTranslateY)
    }

    ghost predicate Valid()
      reads this
    {
      viewport.Valid() && State().Valid()
    }

    constructor (width: real, height: real)
      requires width > 0.0 && height > 0.0
      ensures Valid() && viewport == Viewport(width, height)
      ensures State() == Initial
    {
      viewport := Viewport(width, height);
      scale, lastScale := 1.0, 1.0;
      translateX, translateY := 0.0, 0.0;
      lastTranslateX, lastTranslateY := 0.0, 0.0;
    }

    /** A pinch frame zooms from the baseline, never below 1. */
    method OnPinchGestureEvent(factor: real)
      requires Valid()
      modifies this
      ensures Valid()
      ensures scale == Max(lastScale * factor, 1.0) && scale >= 1.0
      ensures lastScale == old(lastScale)
      ensures translateX == old(translateX) && translateY == old(translateY)
      ensures lastTranslateX == old(lastTranslateX) && lastTranslateY == old(lastTranslateY)
      ensures State() == Step(viewport, old(State()), PinchFrame(factor))
    {
      scale := Max(lastScale * factor, 1.0);
    }

    /** At the end of a pinch the scale becomes the new baseline and the
        translation springs into the bounds of that scale. */
    method OnPinchHandlerStateChange(state: HandlerState, readBackX: real, readBackY: real)
      requires Valid()
      modifies this
      ensures Valid()
      ensures state != End ==> State() == old(State())
      ensures state == End ==>
        && scale == Max(old(scale), 1.0) && lastScale == scale
        && translateX == Clamp(old(translateX), MaxTranslate(scale, viewport.width))
        && translateY == Clamp(old(translateY), MaxTranslate(scale, viewport.height))
        && InBounds(viewport, State())
        && lastTranslateX == readBackX && lastTranslateY == readBackY
      ensures State() == Step(viewport, old(State()), PinchStateChange(state, readBackX, readBackY))
    {
      if state == End {
        scale := Max(scale, 1.0);
        lastScale := scale;
        var maxTranslateX := MaxTranslate(scale, viewport.width);
        var maxTranslateY := MaxTranslate(scale, viewport.height);
        translateX := Clamp(translateX, maxTranslateX);
        translateY := Clamp(translateY, maxTranslateY);
        lastTranslateX := readBackX;
        lastTranslateY := readBackY;
      }
    }

    /** A pan frame moves the view to baseline plus the gesture's
        translation, without clamping. */
    method OnPanGestureEvent(translationX: real, translationY: real)
      requires Valid()
      modifies this
      ensures Valid()
      ensures translateX == lastTranslateX + translationX
      ensures translateY == lastTranslateY + translationY
      ensures lastTranslateX == old(lastTranslateX) && lastTranslateY == old(lastTranslateY)
      ensures scale == old(scale) && lastScale == old(lastScale)
      ensures State() == Step(viewport, old(State()), PanFrame(translationX, translationY))
    {
      var newTranslateX := lastTranslateX + translationX;
      var newTranslateY := lastTranslateY + translationY;
      translateX := newTranslateX;
      translateY := newTranslateY;
    }

    /** At the end of a pan the translation is clamped into the bounds of
        the current scale and committed as the new baseline. */
    method OnPanHandlerStateChange(state: HandlerState)
      requires Valid()
      modifies this
      ensures Valid()
      ensures state != End ==> State() == old(State())
      ensures state == End ==>
        && scale == old(scale) && lastScale == old(lastScale)
        && lastTranslateX == translateX == Clamp(old(translateX), MaxTranslate(scale, viewport.width))
        && lastTranslateY == translateY == Clamp(old(translateY), MaxTranslate(scale, viewport.height))
        && InBounds(viewport, State())
        && (scale == 1.0 ==> translateX == translateY == 0.0)
      ensures State() == Step(viewport, old(State()), PanStateChange(state))
    {
      if state == End {
        var maxTranslateX := MaxTranslate(scale, viewport.width);
        var maxTranslateY := MaxTranslate(scale, viewport.height);
        var clampedX := Clamp(translateX, maxTranslateX);
        var clampedY := Clamp(translateY, maxTranslateY);
        translateX := clampedX;
        translateY := clampedY;
        lastTranslateX := clampedX;
        lastTranslateY := clampedY;
      }
    }
  }
}
