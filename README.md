# Image transform engine of react-simple-images-zoom, in Dafny

This project models the core of a zoom overlay for images. Clicking a
thumbnail opens a full-screen portal. Inside it the image can be zoomed
with the wheel or the zoom buttons, panned by dragging, and rotated, and
the portal closes with a fade-out.

The model has three modules:

- `Geometry` (`geometry.dfy`): the `{x, y}` vector, component-wise sum and
  difference, and `Math.min`/`Math.max`.
- `ImageTransform` (`image_transform.dfy`): the `useImageTransform` hook.
  - The state is `scale`, `position`, `rotate` and `wrapperPosition`.
  - The class `Transform` holds these fields. Its methods are the hook's
    mutators: `transformImageScale`, `transformImagePosition`,
    `transformImageRotate`, `transformWrapperPosition`,
    `resetImageTransform`, and the effect that re-synchronises `scale`
    when `initialScale` changes.
  - Each method is proved against a pure step function on the
    `TransformState` datatype (`ScaleStep`, `PositionStep`, `RotateStep`,
    `WrapperStep`, `ResetState`). Its `modifies` clause names only the
    field it writes.
  - The scale is clamped on the rendered width `naturalWidth * scale`
    (`WidthClamp`). The minimum is tested first.
  - Rotation uses JavaScript's `%`, a truncated remainder whose sign
    follows the dividend (`JsRem360`).
- `ImagePortal` (`image_portal.dfy`): the `ImagePortal` component.
  - Pure parts: the fit-to-viewport initial scale (`FitInitialScale`), the
    wheel tick (`WheelZoom`: a fixed 0.9/1.1 step, the `minZoom`/`maxZoom`
    guard and the cursor-anchored position shift), and the drag machine as
    step functions (`MouseDownStep`, `MouseMoveStep`, `MouseUpStep`,
    `MouseMoves`).
  - The class `Portal` owns one `Transform`. Its methods are the event
    handlers, the zoom buttons, the open effect and the two phases of
    `delayClosePortal`.

All numbers are `real`.

The component passes `{scale: {min, max}, initialScale}` to the hook, but
the hook's signature expects width-based props. The model keeps the two
bound policies apart:

- The hook's width clamp is the scale mutator.
- `minZoom`/`maxZoom` (defaults 0.2 and 2) is only the wheel handler's
  early-exit guard.

So a wheel tick that passes the guard still goes through the width clamp
when it writes the scale. The width props are assumed to reach the hook;
the code as written does not pass them (see "Left out").

The model follows the code in these behaviours, which are easy to
misread:

- Rotation is not wrapped into `[0, 360)`. `-10` stays `-10`, and a full
  extra turn on a negative rotation moves it by 360 (`-10` becomes `350`).
- The fit-to-viewport box has no minimum-width floor. When the image is
  not too big, `initialScale` keeps its previous value; it is not set
  to 1.
- The hook re-synchronises `scale` only when `initialScale` actually
  changes. React skips the effect for an equal value.
- The width range is not an invariant of the stored scale. The first
  render, a reset and the `initialScale` re-sync all store `initialScale`
  without clamping (`ResetIgnoresWidthRange`).
- A pending close timer resets the scale to the `initialScale` that was
  current when `delayClosePortal` ran, because `resetImageTransform` is
  memoised on that prop. If another image is opened during the close
  animation, the reset uses the old value (`StaleCloseReset`).
- The enter-animation timer is never cancelled. If the portal is closed
  before that timer fires, `EnterTimerFired` still sets
  `enterAnimationCompleted` again.

## Model

| member | source | states |
|---|---|---|
| `ImageTransform.WidthClamp` | src/hooks/useImageTransform.ts:27-42 | when `minWidth <= maxWidth`, the stored scale gives a rendered width in `[minWidth, maxWidth]`; a request whose rendered width is already in range is stored unchanged |
| `ImageTransform.WidthClampSaturates` | src/hooks/useImageTransform.ts:33-39 | below the range the scale becomes exactly `minWidth / naturalWidth`, which is larger than the request; above it, exactly `maxWidth / naturalWidth`, which is smaller; it never overshoots |
| `ImageTransform.WidthClampMonotone` | src/hooks/useImageTransform.ts:53-61 | a larger scale request never yields a smaller stored scale |
| `ImageTransform.WidthClampIdempotent` | src/hooks/useImageTransform.ts:53-61 | clamping a clamped scale changes nothing |
| `ImageTransform.WidthClampIgnoresHeight` | src/hooks/useImageTransform.ts:28-40 | the natural height has no effect on the stored scale |
| `ImageTransform.ScaleStep` | src/hooks/useImageTransform.ts:21-63 | after a scale request in either mode the rendered width is in range, and no other field changes |
| `ImageTransform.ScaleStepExact` | src/hooks/useImageTransform.ts:23-61 | an in-range request stores `prev + value` in increment mode and `value` in absolute mode |
| `ImageTransform.ScaleStepsInRange` | src/hooks/useImageTransform.ts:21-63 | after any non-empty sequence of scale requests the rendered width is in range |
| `ImageTransform.Trunc` | src/hooks/useImageTransform.ts:97 | the quotient used by `%` is truncated toward zero: between 0 and the real quotient |
| `ImageTransform.JsRem360` | src/hooks/useImageTransform.ts:94-103 | `x % 360` lies strictly inside (-360, 360) and has the sign of `x` |
| `ImageTransform.JsRem360Unique` | src/hooks/useImageTransform.ts:97 | `x % 360` is the only value that differs from `x` by whole turns, lies in (-360, 360) and has the sign of `x` |
| `ImageTransform.JsRem360Idempotent` | src/hooks/useImageTransform.ts:101 | reducing a reduced rotation changes nothing |
| `ImageTransform.JsRem360FullTurn` | src/hooks/useImageTransform.ts:94-98 | adding 360 to a non-negative rotation leaves the stored value unchanged |
| `ImageTransform.JsRem360FullTurnNegative` | src/hooks/useImageTransform.ts:94-98 | adding 360 to a rotation in (-360, 0) raises the stored value by exactly 360 |
| `ImageTransform.JsRem360Examples` | src/hooks/useImageTransform.ts:101 | `370 -> 10`, `-10 -> -10`, `-370 -> -10`, `720 -> 0` |
| `ImageTransform.RotateStep` | src/hooks/useImageTransform.ts:92-106 | after a rotation in either mode the value is strictly inside (-360, 360), and no other field changes |
| `ImageTransform.PositionIncrementsCompose` | src/hooks/useImageTransform.ts:78-87 | two position increments equal one increment by their sum; an absolute write after an increment forgets it |
| `ImageTransform.WrapperIncrementsCompose` | src/hooks/useImageTransform.ts:113-122 | the same composition laws for the wrapper position |
| `ImageTransform.Transform.constructor` | src/hooks/useImageTransform.ts:13-19 | a new hook starts at `scale = initialScale`, both positions `(0, 0)` and rotation 0 |
| `ImageTransform.Transform.TransformScale` | src/hooks/useImageTransform.ts:21-71 | only `scale` changes, and it becomes the width-clamped `prev + value` or `value` |
| `ImageTransform.Transform.TransformPosition` | src/hooks/useImageTransform.ts:73-90 | only `position` changes: it is added to component-wise, or replaced |
| `ImageTransform.Transform.TransformRotate` | src/hooks/useImageTransform.ts:92-106 | only `rotate` changes, to `(prev + value) % 360` or `value % 360` |
| `ImageTransform.Transform.TransformWrapperPosition` | src/hooks/useImageTransform.ts:108-125 | only `wrapperPosition` changes: it is added to component-wise, or replaced |
| `ImageTransform.Transform.ResetImageTransform` | src/hooks/useImageTransform.ts:127-132 | the state becomes the `initialScale` the callback was memoised on, `(0, 0)`, 0, `(0, 0)`, whatever it was before |
| `ImageTransform.Transform.SyncInitialScale` | src/hooks/useImageTransform.ts:134-136 | a changed `initialScale` sets `scale` to it and changes nothing else of the state |
| `ImageTransform.ResetIgnoresWidthRange` | src/hooks/useImageTransform.ts:127-132 | a reset stores `initialScale` unclamped: with a 200px minimum and natural width 1000, scale 0.1 renders 100px wide |
| `ImageTransform.ResetTwiceIsOnce` | src/hooks/useImageTransform.ts:127-132 | two resets in a row leave the same state as one |
| `ImagePortal.FitInitialScale` | src/components/image-portal/image-portal.tsx:55-73 | a too-big image gets a scale below 1 that fits both dimensions into 80% of the window, positive for a positive window; otherwise the previous `initialScale` is kept |
| `ImagePortal.FitScale` | src/components/image-portal/image-portal.tsx:67-70 | the minimum of the two target ratios fits both dimensions into the target box |
| `ImagePortal.FitScaleIsLargest` | src/components/image-portal/image-portal.tsx:67-70 | every uniform scale that fits the image into the target box is at most the fitted scale |
| `ImagePortal.FitExample` | src/components/image-portal/image-portal.tsx:55-73 | a 2000x1000 image in a 1000x800 window gets 0.4; a small image keeps the previous value |
| `ImagePortal.WheelFactor` | src/components/image-portal/image-portal.tsx:122 | the step shrinks the scale exactly when `deltaY > 0` |
| `ImagePortal.Clamp` | src/components/image-portal/image-portal.tsx:123 | with ordered bounds the result lies between them, and an in-range value is kept |
| `ImagePortal.WheelZoom` | src/components/image-portal/image-portal.tsx:95-151 | the tick is refused exactly when the clamped scale equals `minZoom` or `maxZoom`; an accepted new scale lies strictly inside `(minZoom, maxZoom)` and equals the clamped scale |
| `ImagePortal.WheelCentreNoShift` | src/components/image-portal/image-portal.tsx:101-145 | a cursor at the centre of the box gives a zero position shift on that axis |
| `ImagePortal.AnchorShiftKeepsCursor` | src/components/image-portal/image-portal.tsx:110-145 | on one axis the shift cancels the scale-induced movement of the point under the cursor |
| `ImagePortal.WheelAnchorPreserved` | src/components/image-portal/image-portal.tsx:101-148 | for an unrotated image whose box is its offset size times the scale, the image point under the cursor stays under the cursor after the shift and the new scale |
| `ImagePortal.WheelTickEffect` | src/components/image-portal/image-portal.tsx:122-148 | an accepted tick whose scale the width clamp admits stores the clamped zoom scale and moves the position by the shift, wrapper and rotation untouched |
| `ImagePortal.WheelDirection` | src/components/image-portal/image-portal.tsx:122 | for a positive scale, an accepted tick zooms out exactly when `deltaY > 0` |
| `ImagePortal.MovesWhileIdle` | src/components/image-portal/image-portal.tsx:159-160 | mouse moves while not dragging change neither the refs nor the wrapper |
| `ImagePortal.DragTelescopes` | src/components/image-portal/image-portal.tsx:159-165 | moves while dragging shift the wrapper by the last pointer position minus the drag origin |
| `ImagePortal.DragGesture` | src/components/image-portal/image-portal.tsx:153-169 | mouse-down at `p0`, moves to `p1..pn`, mouse-up and further moves leave the wrapper moved by `pn - p0` and dragging off |
| `ImagePortal.Portal.constructor` | src/components/image-portal/image-portal.tsx:28-48 | a mounted portal has `initialScale` 1, a hook at its reset state, entry not completed and no drag |
| `ImagePortal.Portal.OpenImage` | src/components/image-portal/image-portal.tsx:50-78 | no image changes nothing; otherwise `initialScale` becomes the fitted value, `scale` follows it only if it changed, and an enter timer is scheduled |
| `ImagePortal.Portal.EnterTimerFired` | src/components/image-portal/image-portal.tsx:75-77 | the enter timer marks the entry animation completed |
| `ImagePortal.Portal.DelayClosePortal` | src/components/image-portal/image-portal.tsx:85-93 | the portal hides at once and one close timer is queued, holding the current `initialScale` |
| `ImagePortal.Portal.CloseTimerFired` | src/components/image-portal/image-portal.tsx:88-92 | the oldest close timer calls `onClose` once and resets the transform to the `initialScale` it captured; the portal's `initialScale` is unchanged |
| `ImagePortal.Portal.ResetButton` | src/components/image-portal/image-portal.tsx:229 | the reset button restores the current `initialScale`, `(0, 0)`, 0, `(0, 0)` |
| `ImagePortal.StaleCloseReset` | src/components/image-portal/image-portal.tsx:85-93 | opening a 1000x2000 image during the close of a 2000x1000 one in a 1000x800 window leaves scale 0.4 while `initialScale` is 0.32 |
| `ImagePortal.Portal.HandleWheel` | src/components/image-portal/image-portal.tsx:95-151 | no element or a refused tick changes nothing; otherwise the position increment is applied first, then the new scale through the hook's width clamp |
| `ImagePortal.Portal.HandleMouseDown` | src/components/image-portal/image-portal.tsx:153-157 | dragging starts at the pointer position |
| `ImagePortal.Portal.HandleMouseMove` | src/components/image-portal/image-portal.tsx:159-165 | one drag step: only the wrapper position and the last position can change |
| `ImagePortal.Portal.HandleMouseUp` | src/components/image-portal/image-portal.tsx:167-169 | dragging stops and the last position is kept |
| `ImagePortal.Portal.ZoomIn` | src/components/image-portal/image-portal.tsx:215 | the zoom-in button is a scale increment of 0.1 through the hook's width clamp (assumed wiring, see "Left out") |
| `ImagePortal.Portal.ZoomOut` | src/components/image-portal/image-portal.tsx:222 | the zoom-out button is a scale increment of -0.1 through the hook's width clamp (assumed wiring, see "Left out") |

## Left out

- Rendering is not modelled: the portal element, the JSX, class names, the CSS transform strings and transitions. They are presentation with no invariants.
- Body-scroll locking and unlocking (`useLockBodyScroll`) is not modelled. It is a DOM side effect outside the transform state.
- Registering and removing the document `mouseup` listener is not modelled, and neither is the thumbnail click wiring (`useBindImages`). They are event plumbing. Every mouse-up is assumed to reach `HandleMouseUp`.
- Timer durations (`portalAnimationDuration`) are not modelled. Pending enter timers are a count and pending close timers a queue; firing one is a separate step.
- `onClose` is a callback owned by the caller. The model only counts how often it is invoked.
- Touch and pinch gestures are not modelled, because the code has no handlers for them.
- Floating-point behaviour is not modelled: rounding, NaN and Infinity. All arithmetic is exact over `real`.
- The hook's width props are fixed for the life of a `Transform`. A change of the min width, max width or natural size is not modelled as an update. Only `initialScale` changes.
- `ImageTransform.Transform.TransformScale` requires `naturalWidth > 0`. With a zero width the source divides by zero on the out-of-range paths and stores ±Infinity (`minWidth / 0` or `maxWidth / 0`).
- `ImagePortal.Portal.HandleWheel` requires a bounding box of positive width and height. The source does not guard this division and would write NaN or Infinity into the position.
- `ImagePortal.FitInitialScale` requires positive natural dimensions only for a too-big image, because only that branch divides. With one dimension 0 the source's `Math.min` would pick the finite ratio.
- `ImagePortal.Portal.constructor` takes a width `policy` that the component does not supply. The component passes only `{scale, initialScale}` to the hook and never reads `minPortalImageWidth` or `maxPortalImageWidth`, so in the code as written every width prop is `undefined`. The products with the scale are then NaN, every clamp comparison is false, and every scale write (zoom buttons, wheel) is stored unclamped. The model assumes the width props are wired through; the unclamped behaviour rests on NaN and is not modelled.
