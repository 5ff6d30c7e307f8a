# Image-map viewer: viewport transform engine in Dafny

This project models the pan/zoom engine of an image-map viewer. The engine shows a large
image inside a fixed viewport and keeps the image covering the viewport ("cover" fit, no
letterboxing). The engine exists in two hosts, each modelled in its own module:

- **`Web`** (`web/main.js`): the browser viewer. Its mutable `state` record and the
  module-level `MIN_SCALE` are the fields of class `MapState`. The touch, mouse and wheel
  handlers are its methods. Each method ends with the per-axis boundary policy
  (`BoundAxis`):
  - an oversized axis is clamped to `[viewport - scaled, 0]`;
  - any other axis is forced to the centred value.
- **`MiniProgram`** (`miniprogram/pages/index/index.js`): the mini-program page, class
  `IndexPage`. It does the same cover fit through a `movable-view` component (class
  `MovableView`). It corrects the component's reported positions after the fact
  (`OnViewChange`, specified by `ViewClamp`). It also runs the marker popup and the video
  player flags.
- **`Cover`**: the cover-scale and centring arithmetic that both hosts compute.
- **`Decimal`**: the integer-to-text rendering used for a marker's default description.
- **`Agreement`**: proves that the two hosts' boundary corrections are the same function.

All arithmetic uses Dafny `real`, which is exact. Products of a side length and a scale go
through `Cover.Scaled`.

The main proved facts:
- the image covers the viewport in every reachable viewer state
  (`MapState.Valid` and `ValidStateShowsNoBackground`);
- the cover scale is the least scale that covers the viewport;
- pinch and wheel zoom keep the image point under the gesture anchor fixed, before the
  boundary correction;
- zoom requests saturate at the limits;
- the two boundary policies agree;
- `resetView` reproduces the view placed when the image was loaded.

The code has no guard against a pinch whose start distance is zero. Such a pinch can
happen: the start distance is 0 in the initial state, and `touchmove` listens on the whole
document while `touchstart` listens only on the map container. With a positive current
distance, the JavaScript factor is an infinity. `Math.min` turns it into `MAX_SCALE`, so the
scale becomes `max(MIN_SCALE, MAX_SCALE)` (`PinchScale`), and the model covers this case.
Only a zero current distance together with a zero start distance (0 / 0, `NaN`) is excluded.

Scenario proofs are written as lemmas over the specification functions
(`DragStopsAtLeftEdge`, `BoundaryPoliciesAgree`), one step per function. The method
contracts chain one handler at a time. A single client method that calls many `MapState`
handlers in a row gives the solver all their frames and nonlinear products at once. Such
a method is best split into one method per step, each carrying `Valid()`.

## Model

| member | source | states |
|---|---|---|
| `Cover.CoverScale` | web/main.js:54-56 | the cover scale is the larger of the two axis ratios; at it the image covers both viewport sides, one of them exactly; it is positive when a viewport side is |
| `Cover.CoverScaleIsLeast` | web/main.js:53-59 | every scale at which the image covers both axes is at least the cover scale, so MIN_SCALE is the least covering scale |
| `Web.Clamp` | web/main.js:79-81 | the result lies in `[lo, hi]` when `lo <= hi`; an in-range value is returned unchanged; values below or above saturate at the nearer bound |
| `Web.BoundAxis` | web/main.js:141-153 | the corrected translate obeys the per-axis policy (oversized: within `[v - scaled, 0]`; otherwise centred); a translate that already obeys it is kept; overshoot saturates at the edge bound |
| `Web.PlacedCoversAxis` | web/main.js:141-153 | on an axis at least as large as the viewport, a placed translate leaves no gap at either viewport edge |
| `Web.ZoomScale` | web/main.js:164-165 | the saturated scale is at least MIN_SCALE and at most max(MIN_SCALE, MAX_SCALE); it is at most MAX_SCALE when MIN_SCALE <= MAX_SCALE; a request inside the limits is kept, one above MAX_SCALE gives exactly MAX_SCALE |
| `Web.PinchScale` | web/main.js:159-165 | the pinch scale lies within the zoom limits; with a non-zero start distance it is the saturated request `initialScale * cur / start`; with a zero start distance and a positive current distance, the infinite request saturates like every request at or above MAX_SCALE (a negative one like every request at or below MIN_SCALE) |
| `Web.ImageScreenRoundTrip` | web/main.js:73-76 | the screen position `q * scale + t` and the image position `(p - t) / scale` are inverse maps |
| `Web.PinchKeepsAnchor` | web/main.js:167-174 | with `t' = c - (c - t0) * (s' / s0)`, the image point that was under the pinch centre `c` at gesture start is again under `c` at scale `s'` |
| `Web.WheelIsAnchoredZoom` | web/main.js:254-256 | the wheel update `t + (p - t) * (1 - ratio)` is the pinch update anchored at the pointer `p` |
| `Web.WheelKeepsAnchor` | web/main.js:250-257 | the wheel update keeps the image point under the pointer fixed |
| `Web.MapState.constructor` | web/main.js:5-30 | the initial `state` literal and `MIN_SCALE = 1`; the invariant holds from the start |
| `Web.MapState.SetupMap` | web/main.js:43-63 | sizes are recorded; `scale` and `MIN_SCALE` become the cover scale; the image covers both axes; both axes are centred, and the constraining axis has translate 0; the invariant is re-established |
| `Web.MapState.ApplyBounds` | web/main.js:176-192 | each translate becomes `BoundAxis` of its previous value for the current scale; nothing else changes |
| `Web.MapState.MoveTo` | web/main.js:172-192 | installs the new scale and the corrected candidate translate; keeps the invariant when the scale is within the zoom limits |
| `Web.MapState.DragTo` | web/main.js:131-156 | adds the delta since the last recorded pointer position, corrects both axes, and records the pointer as the last position (incremental deltas); scale unchanged |
| `Web.MapState.TouchStart` | web/main.js:108-124 | one touch starts a drag at the touch; two touches stop dragging and snapshot distance, scale and translate; other counts change nothing |
| `Web.MapState.TouchMove` | web/main.js:126-196 | a one-finger move while dragging is a drag step; a two-finger move sets `PinchScale` (also for a zero start distance) and the anchor-preserving, then corrected, translate; the touch-start snapshot is outside its frame and is never changed; otherwise nothing changes; the invariant is kept |
| `Web.MapState.PinchTo` | web/main.js:159-195 | scale becomes `PinchScale`, which is `ZoomScale(MIN_SCALE, initialScale * cur / initialDistance)` for a non-zero start distance and `max(MIN_SCALE, MAX_SCALE)` for a zero one with a positive current distance; translate is the corrected pinch-anchored translate computed from the snapshot |
| `Web.MapState.TouchEnd` | web/main.js:198-200 | the drag ends; nothing else changes |
| `Web.MapState.MouseDown` | web/main.js:204-208 | a drag starts at the pointer |
| `Web.MapState.MouseMove` | web/main.js:210-241 | while dragging, a drag step to the pointer; otherwise the state is unchanged |
| `Web.MapState.MouseUp` | web/main.js:243-245 | the drag ends; nothing else changes |
| `Web.MapState.Wheel` | web/main.js:247-278 | the factor is 0.9 for `deltaY > 0` and 1.1 otherwise; the scale saturates like the pinch scale; translate is the pointer-anchored update, then corrected per axis; the invariant is kept |
| `Web.ValidStateShowsNoBackground` | web/main.js:58-63 | in every state satisfying the invariant, on both axes, `translate <= 0` and `translate + scaled >= viewport`: no background shows |
| `Web.DragStopsAtLeftEdge` | web/main.js:131-153 | 300 x 300 viewport, 1200 x 734 image: the cover scale is 300/734 and the vertical translate is exactly 0; a +50 drag is kept; a following -200 drag stops at `viewport - scaledWidth` |
| `Decimal.NatToString` | miniprogram/pages/index/index.js:228 | the decimal text of a natural number is non-empty, all digits, with no leading zero unless the number is 0 |
| `Decimal.NatToStringRoundTrip` | miniprogram/pages/index/index.js:228 | reading the digits back gives the number |
| `Decimal.IntToStringRoundTrip` | miniprogram/pages/index/index.js:228 | the text of an integer starts with '-' exactly for negatives, and parsing it back gives the integer |
| `MiniProgram.FindMarker` | miniprogram/pages/index/index.js:220-221 | None exactly when no marker has the id; otherwise the first marker with that id |
| `MiniProgram.ViewClamp` | miniprogram/pages/index/index.js:176-199 | an undersized axis gives exactly the centred value; otherwise the result is in `[v - scaled, 0]`, an in-bounds position is kept, and overshoot saturates at the nearer bound |
| `MiniProgram.InitialView` | miniprogram/pages/index/index.js:291-311 | the cover scale with both axes centred; for a positive image size it covers the viewport and is a fixed point of `ViewClamp` |
| `MiniProgram.IndexPage.constructor` | miniprogram/pages/index/index.js:4-67 | the initial page data with the window size as viewport and current view (0, 0, 1) |
| `MiniProgram.IndexPage.LoadMapImage` | miniprogram/pages/index/index.js:73-130 | the loaded size, or the fallback 1200 x 734 on failure, so the scale is never computed from zero sizes; `initialScale` is the cover scale; with the component present the current view and the component both equal `InitialView`; without it the current view is unchanged |
| `MiniProgram.IndexPage.InitMapView` | miniprogram/pages/index/index.js:133-166 | with the component present, position is the centred value (the later `<` branches do not change it) and both the component and the current view get it; without the component nothing changes |
| `MiniProgram.IndexPage.OnViewChange` | miniprogram/pages/index/index.js:169-216 | the scale is the reported one when given and the previous one otherwise; the current position is `ViewClamp` of the reported position; the component is pushed the clamped position only when it differs |
| `MiniProgram.IndexPage.OnMarkerTap` | miniprogram/pages/index/index.js:219-232 | an unknown id changes nothing; a known one opens the popup with title (default '标记点'), image, description (default: the coordinates) and video URL |
| `MiniProgram.IndexPage.WatchVideo` | miniprogram/pages/index/index.js:235-258 | with no popup video nothing changes; otherwise the player opens on the popup's video |
| `MiniProgram.IndexPage.ClosePopup` | miniprogram/pages/index/index.js:261-266 | both the popup and the player are closed |
| `MiniProgram.IndexPage.CloseVideoPlayer` | miniprogram/pages/index/index.js:269-278 | only the player is closed |
| `MiniProgram.IndexPage.ResetView` | miniprogram/pages/index/index.js:287-327 | with a zero image side nothing changes; otherwise the current view is `InitialView` of the current sizes, whatever it was before, also without the component; the component gets it when present |
| `MiniProgram.ResetRestoresInitialView` | miniprogram/pages/index/index.js:287-327 | after loading, any reported move and then a reset, the view equals the one placed at load time, and a second reset changes nothing |
| `Agreement.BoundaryPoliciesAgree` | miniprogram/pages/index/index.js:182-199 | the page's correction and the viewer's boundary policy give the same translate for every input, including an image exactly as large as the viewport |
| `Agreement.ViewClampFixesExactlyPlaced` | miniprogram/pages/index/index.js:197-214 | the correction leaves a position unchanged if and only if the position obeys the boundary policy |

## Left out

- Rendering and host plumbing is not modelled: element lookup, the `transform` style string of
  `updateTransform`, image `style.width/height`, the background colour, event binding and
  `preventDefault`, `setData` rendering, the `wx` window/image/toast APIs, `console.error`,
  the video context's `play`/`stop` and the `setTimeout` around `play`. These are I/O with no
  visible contract. The window size, the image-information result and the component lookup
  (`selectComponent`, null when missing) are parameters instead.
- `getDistance` is not modelled because it is a floating-point `Math.sqrt`. The two-finger
  distance is a parameter of `TouchStart` and `TouchMove`.
- IEEE floating point is not modelled: no rounding, `NaN` or `Infinity`. All properties hold
  over exact reals.
- `Web.MapState.TouchMove`: for two touches, requires that the start distance and the current
  distance are not both zero. In that case the code computes 0 / 0, which is `NaN`. The scale,
  both translates and the transform would then become `NaN`, and exact reals cannot represent
  that. A zero start distance with a positive current distance is modelled.
- `Web.MapState.PinchTo` and `Web.PinchScale`: carry the same requires as `TouchMove`, for the same
  reason. `PinchScale` also requires a positive snapshot scale, which `MapState.Valid` guarantees.
- `Web.MapState.SetupMap`: requires a positive natural image size and one positive viewport
  side. Otherwise the code computes a zero, infinite or `NaN` scale.
- `MiniProgram.IndexPage.LoadMapImage`: requires a positive size on a successful load. With a
  zero side, the cover-scale computation divides by zero and produces an infinite or `NaN` scale.
- The page's `setData` call in `onLoad` runs `initMapView` from its callback, after rendering
  (miniprogram/pages/index/index.js:92-99, 115-121). `LoadMapImage` merges the size update and
  the view initialisation into one atomic step. The model does not cover events that arrive
  between the two.
- The screen-position map `ScreenPos` takes the transform origin to be the top-left corner of
  the map container. The stylesheet is not part of this model.
- Event ordering is not modelled. Handlers are bound only after `setupMap` runs, and touch and
  mouse handlers can interleave. The model accepts any call order, and the invariant holds from
  the constructor on.
- `data.initialScale` and `this._initialScale` hold the same value and are one field
  (`initialScale`).
- `stopPropagation` does nothing and is not modelled.
- Marker data is kept as the three sample markers. Coordinates are integers, as in that data;
  the number-to-text rendering of non-integral coordinates is not modelled.
