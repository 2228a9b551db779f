/** The image portal: the full-screen overlay that owns one transform
    hook instance. It computes the fit-to-viewport initial scale when an
    image is opened, turns wheel ticks into a cursor-anchored zoom, turns
    mouse drags into wrapper increments, wires the zoom buttons, and closes
    in two phases (hide now, reset when the animation timer fires). */
module ImagePortal {
  import opened Geometry
  import opened ImageTransform

  datatype Option<T> = None | Some(value: T)

  // ---------------------------------------------------------------------
  // Fit-to-viewport initial scale
  // ---------------------------------------------------------------------

  /** `window.innerWidth` and `window.innerHeight`. */
  datatype Viewport = Viewport(width: real, height: real)

  /** `naturalWidth` and `naturalHeight` of the clicked image; both are 0
      while the image has not loaded. */
  datatype NaturalSize = NaturalSize(width: real, height: real)

  /** The target box is 80% of the window in each dimension. */
  function TargetHeight(window: Viewport): real { window.height * 0.8 }
  function TargetWidth(window: Viewport): real { window.width * 0.8 }

  predicate IsImageTooBig(window: Viewport, image: NaturalSize)
  {
    image.height > TargetHeight(window) || image.width > TargetWidth(window)
  }

  /** The portal's `initialScale` after opening `image`: a too-big image
      gets the uniform scale that fits it into the target box; otherwise
      the previous value is kept (it starts at 1 and is never reset). The
      division only happens for a too-big image, so only then are both
      natural dimensions required to be positive. */
  function FitInitialScale(prev: real, window: Viewport, image: NaturalSize): (r: real)
    requires IsImageTooBig(window, image) ==> image.height > 0.0 && image.width > 0.0
    ensures !IsImageTooBig(window, image) ==> r == prev
    ensures IsImageTooBig(window, image) ==>
      r < 1.0 && r * image.height <= TargetHeight(window) && r * image.width <= TargetWidth(window)
    ensures IsImageTooBig(window, image) && window.height > 0.0 && window.width > 0.0 ==> r > 0.0
  {
    if IsImageTooBig(window, image) then
      FitScale(window, image)
    else
      prev
  }

  /** `Math.min(targetHeight / imageHeight, targetWidth / imageWidth)`. */
  function FitScale(window: Viewport, image: NaturalSize): (r: real)
    requires image.height > 0.0 && image.width > 0.0
    ensures r * image.height <= TargetHeight(window)
    ensures r * image.width <= TargetWidth(window)
    ensures IsImageTooBig(window, image) ==> r < 1.0
    ensures window.height > 0.0 && window.width > 0.0 ==> r > 0.0
  {
    var h := TargetHeight(window) / image.height;
    var w := TargetWidth(window) / image.width;
    DivBound(TargetHeight(window), image.height, Min(h, w));
    DivBound(TargetWidth(window), image.width, Min(h, w));
    Min(h, w)
  }

  /** `s <= a / b` with `b > 0` means `s * b <= a`, and `a / b < 1` when `a < b`. */
  lemma DivBound(a: real, b: real, s: real)
    requires b > 0.0 && s <= a / b
    ensures s * b <= a
    ensures a < b ==> a / b < 1.0
  {
    assert (a / b) * b == a;
    assert s * b <= (a / b) * b by {
      assert (a / b) * b - s * b == (a / b - s) * b;
    }
  }

  /** The fitted scale is the largest uniform scale that fits the image
      into the target box: any scale that fits is at most it. */
  lemma FitScaleIsLargest(window: Viewport, image: NaturalSize, s: real)
    requires image.height > 0.0 && image.width > 0.0
    requires s * image.height <= TargetHeight(window)
    requires s * image.width <= TargetWidth(window)
    ensures s <= FitScale(window, image)
  {
    var h := TargetHeight(window) / image.height;
    var w := TargetWidth(window) / image.width;
    assert h * image.height == TargetHeight(window);
    assert w * image.width == TargetWidth(window);
  }

  /** A 2000x1000 image in a 1000x800 window: target box 800x640, so the
      scale is `min(640/1000, 800/2000) = 0.4`. */
  lemma FitExample()
    ensures FitInitialScale(1.0, Viewport(1000.0, 800.0), NaturalSize(2000.0, 1000.0)) == 0.4
    ensures FitInitialScale(0.5, Viewport(1000.0, 800.0), NaturalSize(400.0, 300.0)) == 0.5
  {
  }

  // ---------------------------------------------------------------------
  // Cursor-anchored wheel zoom
  // ---------------------------------------------------------------------

  /** `getBoundingClientRect()` of the image. */
  datatype Rect = Rect(left: real, top: real, width: real, height: real)

  /** The image element as the wheel handler reads it. */
  datatype ImageElement = ImageElement(rect: Rect, offsetWidth: real, offsetHeight: real)

  datatype WheelEvent = WheelEvent(deltaY: real, clientX: real, clientY: real)

  /** What one wheel tick asks of the transform: a position increment and
      then an absolute scale. */
  datatype WheelUpdate = WheelUpdate(positionDelta: Vec, newScale: real)

  /** Fixed 10% step: scrolling with `deltaY > 0` zooms out. */
  function WheelFactor(deltaY: real): (f: real)
    ensures deltaY > 0.0 <==> f < 1.0
  {
    if deltaY > 0.0 then 0.9 else 1.1
  }

  /** `Math.min(Math.max(v, lo), hi)`. */
  function Clamp(v: real, lo: real, hi: real): (r: real)
    ensures lo <= hi ==> lo <= r <= hi
    ensures lo <= v <= hi ==> r == v
  {
    Min(Max(v, lo), hi)
  }

  function Centre(rect: Rect): Vec
  {
    Vec(rect.left + rect.width / 2.0, rect.top + rect.height / 2.0)
  }

  /** Where the cursor sits relative to the box, per axis: -1 at the near
      edge, 0 at the centre, 1 at the far edge. */
  function CursorRate(cursor: real, centre: real, extent: real): real
    requires extent > 0.0
  {
    (cursor - centre) / (extent / 2.0)
  }

  /** `-((offset * newScale - offset * scale) / 2) * rate`. */
  function AnchorShift(offset: real, scale: real, newScale: real, rate: real): real
  {
    -((offset * newScale - offset * scale) / 2.0) * rate
  }

  /** One wheel tick: `None` when the clamped new scale lands on either
      zoom bound (the handler returns early), otherwise the position
      increment and the new scale. The bounds are not required to be
      ordered: with `minZoom >= maxZoom` every tick is refused. */
  function WheelZoom(scale: real, minZoom: real, maxZoom: real, ev: WheelEvent, img: ImageElement)
    : (r: Option<WheelUpdate>)
    requires img.rect.width > 0.0 && img.rect.height > 0.0
    ensures r.None? <==>
      var c := Clamp(scale * WheelFactor(ev.deltaY), minZoom, maxZoom); c == minZoom || c == maxZoom
    ensures r.Some? ==> minZoom < r.value.newScale < maxZoom
    ensures r.Some? ==>
      r.value.newScale == Clamp(scale * WheelFactor(ev.deltaY), minZoom, maxZoom)
  {
    var newScale := scale * WheelFactor(ev.deltaY);
    var clampedScale := Clamp(newScale, minZoom, maxZoom);
    if clampedScale == maxZoom || clampedScale == minZoom then
      None
    else
      var centre := Centre(img.rect);
      var rate := Vec(CursorRate(ev.clientX, centre.x, img.rect.width),
                      CursorRate(ev.clientY, centre.y, img.rect.height));
      var delta := Vec(AnchorShift(img.offsetWidth, scale, clampedScale, rate.x),
                       AnchorShift(img.offsetHeight, scale, clampedScale, rate.y));
      Some(WheelUpdate(delta, newScale))
  }

  /** A cursor exactly at the centre of the box gives no shift on that axis. */
  lemma WheelCentreNoShift(scale: real, minZoom: real, maxZoom: real, ev: WheelEvent, img: ImageElement)
    requires img.rect.width > 0.0 && img.rect.height > 0.0
    requires WheelZoom(scale, minZoom, maxZoom, ev, img).Some?
    ensures ev.clientX == Centre(img.rect).x ==>
      WheelZoom(scale, minZoom, maxZoom, ev, img).value.positionDelta.x == 0.0
    ensures ev.clientY == Centre(img.rect).y ==>
      WheelZoom(scale, minZoom, maxZoom, ev, img).value.positionDelta.y == 0.0
  {
    var c := Centre(img.rect);
    if ev.clientX == c.x {
      assert CursorRate(ev.clientX, c.x, img.rect.width) == 0.0;
    }
    if ev.clientY == c.y {
      assert CursorRate(ev.clientY, c.y, img.rect.height) == 0.0;
    }
  }

  /** Anchor preservation on one axis: when the box is the offset size
      times the current scale, the shift exactly cancels the movement of
      the point under the cursor. */
  lemma AnchorShiftKeepsCursor(offset: real, scale: real, newScale: real, cursor: real, centre: real)
    requires offset > 0.0 && scale > 0.0
    ensures centre + AnchorShift(offset, scale, newScale, CursorRate(cursor, centre, offset * scale))
            + (cursor - centre) * (newScale / scale) == cursor
  {
    var extent := offset * scale;
    var d := cursor - centre;
    var rate := CursorRate(cursor, centre, extent);
    assert rate * extent == 2.0 * d;
    var shift := AnchorShift(offset, scale, newScale, rate);
    assert shift == -(offset * (newScale - scale)) * rate / 2.0;
    assert shift * scale == -(newScale - scale) * (rate * extent) / 2.0;
    assert shift * scale == -(newScale - scale) * d;
    assert (newScale / scale) * scale == newScale;
    assert (shift + d * (newScale / scale)) * scale == d * scale;
  }

  /** Anchor preservation: with an unrotated image whose box is its offset
      size times the current scale, the image point under the cursor is
      still under the cursor after the position increment and the new
      scale. A point at offset `u` from the box centre moves to
      `centre + delta + u * newScale / scale`. */
  lemma WheelAnchorPreserved(scale: real, minZoom: real, maxZoom: real, ev: WheelEvent, img: ImageElement)
    requires scale > 0.0 && img.offsetWidth > 0.0 && img.offsetHeight > 0.0
    requires img.rect.width == img.offsetWidth * scale
    requires img.rect.height == img.offsetHeight * scale
    requires WheelZoom(scale, minZoom, maxZoom, ev, img).Some?
    ensures var u := WheelZoom(scale, minZoom, maxZoom, ev, img).value;
            var c := Centre(img.rect);
            c.x + u.positionDelta.x + (ev.clientX - c.x) * (u.newScale / scale) == ev.clientX &&
            c.y + u.positionDelta.y + (ev.clientY - c.y) * (u.newScale / scale) == ev.clientY
  {
    var c := Centre(img.rect);
    AnchorShiftKeepsCursor(img.offsetWidth, scale, scale * WheelFactor(ev.deltaY), ev.clientX, c.x);
    AnchorShiftKeepsCursor(img.offsetHeight, scale, scale * WheelFactor(ev.deltaY), ev.clientY, c.y);
  }

  /** A wheel tick that gets through the guard stores the clamped zoom
      scale (when the hook's width range admits it) and moves the image
      position by the anchor shift; the wrapper and rotation stay. */
  lemma WheelTickEffect(p: WidthPolicy, st: TransformState, minZoom: real, maxZoom: real,
                        ev: WheelEvent, img: ImageElement)
    requires p.naturalWidth > 0.0
    requires img.rect.width > 0.0 && img.rect.height > 0.0
    requires WheelZoom(st.scale, minZoom, maxZoom, ev, img).Some?
    requires WidthInRange(p, WheelZoom(st.scale, minZoom, maxZoom, ev, img).value.newScale)
    ensures var u := WheelZoom(st.scale, minZoom, maxZoom, ev, img).value;
            ScaleStep(p, PositionStep(st, u.positionDelta, Increment), u.newScale, Absolute)
            == st.(scale := Clamp(st.scale * WheelFactor(ev.deltaY), minZoom, maxZoom),
                   position := Add(st.position, u.positionDelta))
  {
  }

  /** With a positive scale, `deltaY > 0` zooms out and anything else zooms in. */
  lemma WheelDirection(scale: real, minZoom: real, maxZoom: real, ev: WheelEvent, img: ImageElement)
    requires scale > 0.0
    requires img.rect.width > 0.0 && img.rect.height > 0.0
    requires WheelZoom(scale, minZoom, maxZoom, ev, img).Some?
    ensures ev.deltaY > 0.0 <==> WheelZoom(scale, minZoom, maxZoom, ev, img).value.newScale < scale
  {
  }

  // ---------------------------------------------------------------------
  // Drag-to-pan
  // ---------------------------------------------------------------------

  /** The two refs of the drag machine. */
  datatype DragRefs = DragRefs(isDragging: bool, lastPosition: Vec)

  /** The refs and the wrapper position after a mouse move. */
  datatype DragOutcome = DragOutcome(refs: DragRefs, wrapper: Vec)

  function MouseDownStep(p: Vec): DragRefs
  {
    DragRefs(true, p)
  }

  function MouseUpStep(d: DragRefs): DragRefs
  {
    d.(isDragging := false)
  }

  /** While dragging, the wrapper moves by the pointer delta since the
      last position and the last position follows the pointer; otherwise
      nothing happens. */
  function MouseMoveStep(d: DragRefs, wrapper: Vec, p: Vec): DragOutcome
  {
    if !d.isDragging then DragOutcome(d, wrapper)
    else DragOutcome(DragRefs(true, p), Add(wrapper, Sub(p, d.lastPosition)))
  }

  /** A run of mouse moves, one after the other. */
  function MouseMoves(d: DragRefs, wrapper: Vec, ps: seq<Vec>): DragOutcome
    decreases |ps|
  {
    if ps == [] then DragOutcome(d, wrapper)
    else
      var o := MouseMoveStep(d, wrapper, ps[0]);
      MouseMoves(o.refs, o.wrapper, ps[1..])
  }

  /** Moves while not dragging change nothing. */
  lemma {:induction false} MovesWhileIdle(d: DragRefs, wrapper: Vec, ps: seq<Vec>)
    requires !d.isDragging
    ensures MouseMoves(d, wrapper, ps) == DragOutcome(d, wrapper)
    decreases |ps|
  {
    if ps != [] {
      MovesWhileIdle(d, wrapper, ps[1..]);
    }
  }

  /** Moves while dragging telescope: the wrapper travels by the last
      pointer position minus the position the drag started from. */
  lemma {:induction false} DragTelescopes(d: DragRefs, wrapper: Vec, ps: seq<Vec>)
    requires d.isDragging && ps != []
    ensures MouseMoves(d, wrapper, ps) ==
      DragOutcome(DragRefs(true, ps[|ps| - 1]), Add(wrapper, Sub(ps[|ps| - 1], d.lastPosition)))
    decreases |ps|
  {
    var o := MouseMoveStep(d, wrapper, ps[0]);
    if |ps| > 1 {
      DragTelescopes(o.refs, o.wrapper, ps[1..]);
      assert ps[1..][|ps[1..]| - 1] == ps[|ps| - 1];
    }
  }

  /** A whole gesture: mouse-down at `p0`, moves to `ps`, mouse-up, then
      more moves `qs`. The wrapper ends `last(ps) - p0` away from where it
      started, and the moves after the release are ignored. */
  lemma DragGesture(d: DragRefs, wrapper: Vec, p0: Vec, ps: seq<Vec>, qs: seq<Vec>)
    requires ps != []
    ensures var during := MouseMoves(MouseDownStep(p0), wrapper, ps);
            var after := MouseMoves(MouseUpStep(during.refs), during.wrapper, qs);
            after.wrapper == Add(wrapper, Sub(ps[|ps| - 1], p0)) &&
            !after.refs.isDragging
  {
    DragTelescopes(MouseDownStep(p0), wrapper, ps);
    var during := MouseMoves(MouseDownStep(p0), wrapper, ps);
    MovesWhileIdle(MouseUpStep(during.refs), during.wrapper, qs);
  }

  // ---------------------------------------------------------------------
  // The portal as an object
  // ---------------------------------------------------------------------

  /** Zoom button step (`transformImageScale(±0.1, "increment")`). */
  const ZoomButtonStep: real := 0.1

  class Portal {
    /** The transform hook this portal drives. */
    const transform: Transform
    const minZoom: real
    const maxZoom: real
    /** The portal's own `initialScale` state, passed to the hook. */
    var initialScale: real
    var enterAnimationCompleted: bool
    /** Enter timers scheduled but not yet fired. */
    var enterTimersPending: nat
    /** Close timers scheduled but not yet fired, oldest first. Each holds
        the `initialScale` its `resetImageTransform` callback was memoised
        on when `delayClosePortal` ran. Timers of one duration fire in the
        order they were scheduled. */
    var closeTimers: seq<real>
    /** How many times the `onClose` callback has been invoked. */
    var closeCallbacks: nat
    var isDragging: bool
    var lastPosition: Vec

    /** The hook sees the portal's `initialScale`, and its width policy
        has a positive natural width. */
    ghost predicate Valid()
      reads this, transform
    {
      transform.initialScale == initialScale && transform.policy.naturalWidth > 0.0
    }

    function Refs(): DragRefs
      reads this
    {
      DragRefs(isDragging, lastPosition)
    }

    /** A freshly mounted portal: `initialScale` 1, not yet entered, not
        dragging. The zoom bounds default to 0.2 and 2 in the source. */
    constructor (policy: WidthPolicy, minZoom: real, maxZoom: real)
      requires policy.naturalWidth > 0.0
      ensures Valid() && fresh(transform)
      ensures this.minZoom == minZoom && this.maxZoom == maxZoom && transform.policy == policy
      ensures initialScale == 1.0 && transform.State() == ResetState(1.0)
      ensures !enterAnimationCompleted && enterTimersPending == 0 && closeTimers == []
      ensures closeCallbacks == 0 && Refs() == DragRefs(false, Origin)
    {
      transform := new Transform(policy, 1.0);
      this.minZoom := minZoom;
      this.maxZoom := maxZoom;
      initialScale := 1.0;
      enterAnimationCompleted := false;
      enterTimersPending := 0;
      closeTimers := [];
      closeCallbacks := 0;
      isDragging := false;
      lastPosition := Origin;
    }

    /** The effect run when the clicked image changes: nothing for no
        image; otherwise fit the image into the viewport, let the hook
        re-synchronise its scale if `initialScale` actually changed, and
        schedule the enter-animation timer. */
    method OpenImage(image: Option<NaturalSize>, window: Viewport)
      requires Valid()
      requires image.Some? && IsImageTooBig(window, image.value) ==>
        image.value.height > 0.0 && image.value.width > 0.0
      modifies this`initialScale, this`enterTimersPending, transform`initialScale, transform`scale
      ensures Valid()
      ensures image.None? ==>
        initialScale == old(initialScale) && enterTimersPending == old(enterTimersPending) &&
        transform.State() == old(transform.State())
      ensures image.Some? ==>
        initialScale == FitInitialScale(old(initialScale), window, image.value) &&
        enterTimersPending == old(enterTimersPending) + 1
      ensures image.Some? ==>
        transform.State() == if initialScale == old(initialScale) then old(transform.State())
                             else old(transform.State()).(scale := initialScale)
    {
      if image.None? {
        return;
      }
      var next := FitInitialScale(initialScale, window, image.value);
      if next != initialScale {
        initialScale := next;
        transform.SyncInitialScale(next);
      }
      enterTimersPending := enterTimersPending + 1;
    }

    /** The enter-animation timer fires. */
    method EnterTimerFired()
      requires enterTimersPending > 0
      modifies this`enterTimersPending, this`enterAnimationCompleted
      ensures enterAnimationCompleted && enterTimersPending == old(enterTimersPending) - 1
    {
      enterTimersPending := enterTimersPending - 1;
      enterAnimationCompleted := true;
    }

    /** `delayClosePortal`, first phase: hide now, schedule the close with
        the reset callback of the current render. */
    method DelayClosePortal()
      modifies this`enterAnimationCompleted, this`closeTimers
      ensures !enterAnimationCompleted && closeTimers == old(closeTimers) + [initialScale]
    {
      enterAnimationCompleted := false;
      closeTimers := closeTimers + [initialScale];
    }

    /** `delayClosePortal`, second phase: the oldest timer fires, `onClose`
        is called and the transform is reset to the `initialScale` that
        timer captured, which may differ from the current one. */
    method CloseTimerFired()
      requires Valid() && closeTimers != []
      modifies this`closeTimers, this`closeCallbacks,
        transform`scale, transform`position, transform`rotate, transform`wrapperPosition
      ensures Valid() && initialScale == old(initialScale)
      ensures closeTimers == old(closeTimers)[1..]
      ensures closeCallbacks == old(closeCallbacks) + 1
      ensures transform.State() == ResetState(old(closeTimers)[0])
    {
      var captured := closeTimers[0];
      closeTimers := closeTimers[1..];
      closeCallbacks := closeCallbacks + 1;
      transform.ResetImageTransform(captured);
    }

    /** The reset button: the callback of the current render. */
    method ResetButton()
      requires Valid()
      modifies transform`scale, transform`position, transform`rotate, transform`wrapperPosition
      ensures Valid()
      ensures transform.State() == ResetState(initialScale)
    {
      transform.ResetImageTransform(initialScale);
    }

    /** `handleWheel`: nothing without an image element or when the
        clamped scale hits a zoom bound; otherwise the position increment
        first, then the new scale through the hook's width clamp. */
    method HandleWheel(ev: WheelEvent, img: Option<ImageElement>)
      requires Valid()
      requires img.Some? ==> img.value.rect.width > 0.0 && img.value.rect.height > 0.0
      modifies transform`position, transform`scale
      ensures Valid()
      ensures img.None? ==> transform.State() == old(transform.State())
      ensures img.Some? ==>
        var u := WheelZoom(old(transform.scale), minZoom, maxZoom, ev, img.value);
        transform.State() ==
          if u.None? then old(transform.State())
          else ScaleStep(transform.policy,
                         PositionStep(old(transform.State()), u.value.positionDelta, Increment),
                         u.value.newScale, Absolute)
    {
      if img.None? {
        return;
      }
      var u := WheelZoom(transform.scale, minZoom, maxZoom, ev, img.value);
      if u.Some? {
        transform.TransformPosition(u.value.positionDelta, Increment);
        transform.TransformScale(u.value.newScale, Absolute);
      }
    }

    method HandleMouseDown(p: Vec)
      modifies this`isDragging, this`lastPosition
      ensures Refs() == MouseDownStep(p)
    {
      isDragging := true;
      lastPosition := p;
    }

    /** `handleMouseMove`: only the wrapper position of the transform can
        change. */
    method HandleMouseMove(p: Vec)
      modifies this`lastPosition, transform`wrapperPosition
      ensures var o := MouseMoveStep(old(Refs()), old(transform.wrapperPosition), p);
              Refs() == o.refs && transform.State() == old(transform.State()).(wrapperPosition := o.wrapper)
    {
      if !isDragging {
        return;
      }
      var delta := Vec(p.x - lastPosition.x, p.y - lastPosition.y);
      transform.TransformWrapperPosition(delta, Increment);
      lastPosition := p;
    }

    method HandleMouseUp()
      modifies this`isDragging
      ensures Refs() == MouseUpStep(old(Refs()))
    {
      isDragging := false;
    }

    /** The zoom-in button. */
    method ZoomIn()
      requires Valid()
      modifies transform`scale
      ensures Valid()
      ensures transform.State() == ScaleStep(transform.policy, old(transform.State()), ZoomButtonStep, Increment)
    {
      transform.TransformScale(ZoomButtonStep, Increment);
    }

    /** The zoom-out button. */
    method ZoomOut()
      requires Valid()
      modifies transform`scale
      ensures Valid()
      ensures transform.State() == ScaleStep(transform.policy, old(transform.State()), -ZoomButtonStep, Increment)
    {
      transform.TransformScale(-ZoomButtonStep, Increment);
    }
  }

  /** Opening an image while the close animation of the previous one is
      still running: the pending close timer resets the scale to the
      initial scale of the first image (0.4), not to the current one (0.32). */
  method StaleCloseReset() returns (scale: real, initialScale: real)
    ensures scale == 0.4 && initialScale == 0.32
  {
    var p := new Portal(WidthPolicy(200.0, 10000.0, 2000.0, 1000.0), 0.2, 2.0);
    var window := Viewport(1000.0, 800.0);
    p.OpenImage(Some(NaturalSize(2000.0, 1000.0)), window);
    assert p.initialScale == 0.4;
    p.DelayClosePortal();
    p.OpenImage(Some(NaturalSize(1000.0, 2000.0)), window);
    assert p.initialScale == 0.32;
    p.CloseTimerFired();
    scale, initialScale := p.transform.scale, p.initialScale;
  }
}
