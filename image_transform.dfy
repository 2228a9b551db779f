/** The image transform hook: the state `{scale, position, rotate,
    wrapperPosition}` of one open portal and its mutators. Each mutator
    takes an `Increment` or `Absolute` mode. The scale is clamped so that
    the rendered width `naturalWidth * scale` stays within the configured
    minimum and maximum portal image widths; rotation is reduced with the
    JavaScript remainder operator; positions are unbounded. */
module ImageTransform {
  import opened Geometry

  /** The `type` argument of every mutator. */
  datatype Mode = Increment | Absolute

  /** The width-based props of the hook. `naturalHeight` is read by the
      source but never decides anything. */
  datatype WidthPolicy = WidthPolicy(
    minWidth: real,
    maxWidth: real,
    naturalWidth: real,
    naturalHeight: real)

  /** The four values the hook exposes. */
  datatype TransformState = TransformState(
    scale: real,
    position: Vec,
    rotate: real,
    wrapperPosition: Vec)

  /** The value a mutator starts from: `prev + value` or `value`. */
  function Target(prev: real, value: real, mode: Mode): real
  {
    match mode
    case Increment => prev + value
    case Absolute => value
  }

  /** The position a position mutator stores. */
  function MoveBy(prev: Vec, value: Vec, mode: Mode): Vec
  {
    match mode
    case Increment => Add(prev, value)
    case Absolute => value
  }

  // ---------------------------------------------------------------------
  // Width clamp of the scale
  // ---------------------------------------------------------------------

  predicate WidthInRange(p: WidthPolicy, s: real)
  {
    p.minWidth <= p.naturalWidth * s <= p.maxWidth
  }

  /** The scale stored for a requested scale `s`: below the minimum
      rendered width it snaps to `minWidth / naturalWidth`, above the
      maximum to `maxWidth / naturalWidth`, otherwise `s` itself. The
      minimum is tested first. */
  function WidthClamp(p: WidthPolicy, s: real): (r: real)
    requires p.naturalWidth > 0.0
    ensures p.minWidth <= p.maxWidth ==> WidthInRange(p, r)
    ensures WidthInRange(p, s) ==> r == s
  {
    if p.naturalWidth * s < p.minWidth then
      p.minWidth / p.naturalWidth
    else if p.naturalWidth * s > p.maxWidth then
      p.maxWidth / p.naturalWidth
    else
      s
  }

  /** Out of range the clamp saturates at exactly the nearer bound, and it
      never overshoots it. */
  lemma WidthClampSaturates(p: WidthPolicy, s: real)
    requires p.naturalWidth > 0.0 && p.minWidth <= p.maxWidth
    ensures p.naturalWidth * s < p.minWidth ==>
      WidthClamp(p, s) == p.minWidth / p.naturalWidth && s < WidthClamp(p, s)
    ensures p.naturalWidth * s > p.maxWidth ==>
      WidthClamp(p, s) == p.maxWidth / p.naturalWidth && WidthClamp(p, s) < s
  {
    var w := p.naturalWidth;
    if w * s < p.minWidth {
      assert w * (p.minWidth / w) == p.minWidth;
      assert w * s < w * (p.minWidth / w);
    } else if w * s > p.maxWidth {
      assert w * (p.maxWidth / w) == p.maxWidth;
      assert w * (p.maxWidth / w) < w * s;
    }
  }

  /** Multiplying by a positive natural width keeps a strict order. */
  lemma MulPositiveStrict(w: real, a: real, b: real)
    requires w > 0.0 && a < b
    ensures w * a < w * b
  {
    assert w * b - w * a == w * (b - a);
  }

  /** The clamp is monotone: a larger request never yields a smaller scale. */
  lemma WidthClampMonotone(p: WidthPolicy, s: real, t: real)
    requires p.naturalWidth > 0.0 && p.minWidth <= p.maxWidth
    requires s <= t
    ensures WidthClamp(p, s) <= WidthClamp(p, t)
  {
    var w := p.naturalWidth;
    var a, b := WidthClamp(p, s), WidthClamp(p, t);
    if s < t {
      MulPositiveStrict(w, s, t);
    }
    if a > b {
      MulPositiveStrict(w, b, a);
      assert false;
    }
  }

  /** Clamping an already clamped scale changes nothing. */
  lemma WidthClampIdempotent(p: WidthPolicy, s: real)
    requires p.naturalWidth > 0.0 && p.minWidth <= p.maxWidth
    ensures WidthClamp(p, WidthClamp(p, s)) == WidthClamp(p, s)
  {
  }

  /** Only the width decides: the natural height has no effect. */
  lemma WidthClampIgnoresHeight(p: WidthPolicy, s: real, h: real)
    requires p.naturalWidth > 0.0
    ensures WidthClamp(p.(naturalHeight := h), s) == WidthClamp(p, s)
  {
  }

  // ---------------------------------------------------------------------
  // Rotation: JavaScript `%`
  // ---------------------------------------------------------------------

  /** Truncation toward zero, as JavaScript's `%` uses for its quotient. */
  function Trunc(q: real): (t: int)
    ensures q >= 0.0 ==> 0 <= t && t as real <= q < t as real + 1.0
    ensures q <= 0.0 ==> t <= 0 && t as real - 1.0 < q <= t as real
  {
    if q >= 0.0 then q.Floor else -((-q).Floor)
  }

  /** `x % 360` in JavaScript: a truncated remainder whose sign follows
      the dividend, so `-10 % 360 == -10`. */
  function JsRem360(x: real): (r: real)
    ensures -360.0 < r < 360.0
    ensures x >= 0.0 ==> r >= 0.0
    ensures x <= 0.0 ==> r <= 0.0
  {
    x - 360.0 * (Trunc(x / 360.0) as real)
  }

  /** The remainder is the only value that differs from `x` by a whole
      number of turns, lies strictly inside (-360, 360) and carries the
      sign of `x`. */
  lemma JsRem360Unique(x: real, k: int)
    requires -360.0 < x - 360.0 * (k as real) < 360.0
    requires x >= 0.0 ==> x - 360.0 * (k as real) >= 0.0
    requires x <= 0.0 ==> x - 360.0 * (k as real) <= 0.0
    ensures JsRem360(x) == x - 360.0 * (k as real)
  {
    var t := Trunc(x / 360.0);
    if x >= 0.0 {
      assert t as real <= x / 360.0 < t as real + 1.0;
      assert k as real <= x / 360.0 < k as real + 1.0;
    } else {
      assert t as real - 1.0 < x / 360.0 <= t as real;
      assert k as real - 1.0 < x / 360.0 <= k as real;
    }
    assert t == k;
  }

  /** Reducing twice is reducing once. */
  lemma JsRem360Idempotent(x: real)
    ensures JsRem360(JsRem360(x)) == JsRem360(x)
  {
    JsRem360Unique(JsRem360(x), 0);
  }

  /** A full extra turn leaves a non-negative rotation unchanged. */
  lemma JsRem360FullTurn(x: real)
    requires x >= 0.0
    ensures JsRem360(x + 360.0) == JsRem360(x)
  {
    var k := Trunc(x / 360.0);
    JsRem360Unique(x + 360.0, k + 1);
  }

  /** For a negative rotation a full extra turn changes the stored value
      (by exactly 360) once the sum is positive: `-10` becomes `350`. */
  lemma JsRem360FullTurnNegative(x: real)
    requires -360.0 < x < 0.0
    ensures JsRem360(x + 360.0) == JsRem360(x) + 360.0
  {
    JsRem360Unique(x, 0);
    JsRem360Unique(x + 360.0, 0);
  }

  lemma JsRem360Examples()
    ensures JsRem360(370.0) == 10.0
    ensures JsRem360(-10.0) == -10.0
    ensures JsRem360(-370.0) == -10.0
    ensures JsRem360(720.0) == 0.0
  {
    JsRem360Unique(370.0, 1);
    JsRem360Unique(-10.0, 0);
    JsRem360Unique(-370.0, -1);
    JsRem360Unique(720.0, 2);
  }

  // ---------------------------------------------------------------------
  // The state after each mutator, as functions of the state before
  // ---------------------------------------------------------------------

  function ScaleStep(p: WidthPolicy, st: TransformState, value: real, mode: Mode): (r: TransformState)
    requires p.naturalWidth > 0.0
    ensures p.minWidth <= p.maxWidth ==> WidthInRange(p, r.scale)
    ensures r.(scale := st.scale) == st
  {
    st.(scale := WidthClamp(p, Target(st.scale, value, mode)))
  }

  function PositionStep(st: TransformState, value: Vec, mode: Mode): TransformState
  {
    st.(position := MoveBy(st.position, value, mode))
  }

  function RotateStep(st: TransformState, value: real, mode: Mode): (r: TransformState)
    ensures -360.0 < r.rotate < 360.0
    ensures r.(rotate := st.rotate) == st
  {
    st.(rotate := JsRem360(Target(st.rotate, value, mode)))
  }

  function WrapperStep(st: TransformState, value: Vec, mode: Mode): TransformState
  {
    st.(wrapperPosition := MoveBy(st.wrapperPosition, value, mode))
  }

  /** The state `resetImageTransform` restores. */
  function ResetState(initialScale: real): TransformState
  {
    TransformState(initialScale, Origin, 0.0, Origin)
  }

  /** An in-range scale request is stored exactly: `prev + value` in
      increment mode, `value` in absolute mode. */
  lemma ScaleStepExact(p: WidthPolicy, st: TransformState, value: real, mode: Mode)
    requires p.naturalWidth > 0.0
    requires WidthInRange(p, Target(st.scale, value, mode))
    ensures ScaleStep(p, st, value, mode).scale ==
      (if mode == Increment then st.scale + value else value)
  {
  }

  /** Any sequence of scale requests leaves the rendered width in range. */
  lemma {:induction false} ScaleStepsInRange(p: WidthPolicy, st: TransformState,
                                             values: seq<real>, modes: seq<Mode>)
    requires p.naturalWidth > 0.0 && p.minWidth <= p.maxWidth
    requires |values| == |modes| > 0
    ensures WidthInRange(p, ScaleSteps(p, st, values, modes).scale)
    decreases |values|
  {
    if |values| > 1 {
      ScaleStepsInRange(p, ScaleStep(p, st, values[0], modes[0]), values[1..], modes[1..]);
    }
  }

  /** A sequence of scale requests applied one after the other. */
  function ScaleSteps(p: WidthPolicy, st: TransformState, values: seq<real>, modes: seq<Mode>): TransformState
    requires p.naturalWidth > 0.0
    requires |values| == |modes|
    decreases |values|
  {
    if values == [] then st
    else ScaleSteps(p, ScaleStep(p, st, values[0], modes[0]), values[1..], modes[1..])
  }

  /** Two position increments compose into one increment of the summed
      delta; an absolute write forgets what came before. */
  lemma PositionIncrementsCompose(st: TransformState, a: Vec, b: Vec)
    ensures PositionStep(PositionStep(st, a, Increment), b, Increment)
         == PositionStep(st, Add(a, b), Increment)
    ensures PositionStep(PositionStep(st, a, Increment), b, Absolute)
         == PositionStep(st, b, Absolute)
  {
  }

  lemma WrapperIncrementsCompose(st: TransformState, a: Vec, b: Vec)
    ensures WrapperStep(WrapperStep(st, a, Increment), b, Increment)
         == WrapperStep(st, Add(a, b), Increment)
    ensures WrapperStep(WrapperStep(st, a, Increment), b, Absolute)
         == WrapperStep(st, b, Absolute)
  {
  }

  // ---------------------------------------------------------------------
  // The hook as an object
  // ---------------------------------------------------------------------

  /** One instance of the hook. The width policy is fixed for the life of
      the instance; `initialScale` is the prop the owner may change. */
  class Transform {
    const policy: WidthPolicy
    var initialScale: real
    var scale: real
    var position: Vec
    var rotate: real
    var wrapperPosition: Vec

    function State(): TransformState
      reads this
    {
      TransformState(scale, position, rotate, wrapperPosition)
    }

    /** `useState(props.initialScale)`, `{x: 0, y: 0}`, `0`, `{x: 0, y: 0}`. */
    constructor (policy: WidthPolicy, initialScale: real)
      ensures this.policy == policy && this.initialScale == initialScale
      ensures State() == ResetState(initialScale)
    {
      this.policy := policy;
      this.initialScale := initialScale;
      scale := initialScale;
      position := Origin;
      rotate := 0.0;
      wrapperPosition := Origin;
    }

    /** `transformImageScale(value, type)`. */
    method TransformScale(value: real, mode: Mode)
      requires policy.naturalWidth > 0.0
      modifies this`scale
      ensures State() == ScaleStep(policy, old(State()), value, mode)
      ensures policy.minWidth <= policy.maxWidth ==> WidthInRange(policy, scale)
    {
      var newScale := Target(scale, value, mode);
      if policy.naturalWidth * newScale < policy.minWidth {
        scale := policy.minWidth / policy.naturalWidth;
      } else if policy.naturalWidth * newScale > policy.maxWidth {
        scale := policy.maxWidth / policy.naturalWidth;
      } else {
        scale := newScale;
      }
    }

    /** `transformImagePosition(value, type)`. */
    method TransformPosition(value: Vec, mode: Mode)
      modifies this`position
      ensures State() == PositionStep(old(State()), value, mode)
    {
      if mode == Increment {
        position := Vec(position.x + value.x, position.y + value.y);
      } else {
        position := value;
      }
    }

    /** `transformImageRotate(value, type)`. */
    method TransformRotate(value: real, mode: Mode)
      modifies this`rotate
      ensures State() == RotateStep(old(State()), value, mode)
      ensures -360.0 < rotate < 360.0
    {
      if mode == Increment {
        rotate := JsRem360(rotate + value);
      } else {
        rotate := JsRem360(value);
      }
    }

    /** `transformWrapperPosition(value, type)`. */
    method TransformWrapperPosition(value: Vec, mode: Mode)
      modifies this`wrapperPosition
      ensures State() == WrapperStep(old(State()), value, mode)
    {
      if mode == Increment {
        wrapperPosition := Vec(wrapperPosition.x + value.x, wrapperPosition.y + value.y);
      } else {
        wrapperPosition := value;
      }
    }

    /** `resetImageTransform()`. The callback is memoised on the
        `initialScale` prop, so a copy held by a pending timer restores the
        value `boundInitialScale` of the render that created it, which need
        not be the current `initialScale`. */
    method ResetImageTransform(boundInitialScale: real)
      modifies this`scale, this`position, this`rotate, this`wrapperPosition
      ensures State() == ResetState(boundInitialScale)
    {
      scale := boundInitialScale;
      position := Origin;
      rotate := 0.0;
      wrapperPosition := Origin;
    }

    /** The effect that runs when the `initialScale` prop changes: only
        the scale is re-synchronised. React skips the effect when the new
        value equals the old one. */
    method SyncInitialScale(newInitialScale: real)
      requires newInitialScale != initialScale
      modifies this`initialScale, this`scale
      ensures initialScale == newInitialScale
      ensures State() == old(State()).(scale := newInitialScale)
    {
      initialScale := newInitialScale;
      scale := newInitialScale;
    }
  }

  /** Resetting twice is resetting once, whatever the state was. */
  method ResetTwiceIsOnce(t: Transform)
    modifies t
    ensures t.State() == ResetState(t.initialScale)
    ensures t.initialScale == old(t.initialScale)
  {
    t.ResetImageTransform(t.initialScale);
    var once := t.State();
    t.ResetImageTransform(t.initialScale);
    assert t.State() == once;
  }

  /** The width range is not an invariant of the state: a reset (like the
      first render and the re-sync effect) stores `initialScale` without
      clamping. With a 200px minimum and a 1000px natural width, an
      initial scale of 0.1 renders 100px wide. */
  lemma ResetIgnoresWidthRange()
    ensures !WidthInRange(WidthPolicy(200.0, 10000.0, 1000.0, 500.0), ResetState(0.1).scale)
  {
  }
}
