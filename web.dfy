/** The browser viewer: one mutable state record plus the module-level
    MIN_SCALE, updated by touch, mouse and wheel handlers. Every update that
    moves the image ends with the same per-axis boundary policy. */
module Web {
  import opened Cover

  /** Upper zoom limit. */
  const MAX_SCALE: real := 3.0

  /** A touch or pointer position, in viewport pixels. */
  datatype Point = Point(clientX: real, clientY: real)

  /** `clamp(value, min, max)`: Math.min(Math.max(value, min), max). */
  function Clamp(value: real, lo: real, hi: real): (r: real)
    ensures lo <= hi ==> lo <= r <= hi
    ensures lo <= value <= hi ==> r == value
    ensures lo <= hi && value < lo ==> r == lo
    ensures value > hi ==> r == hi
  {
    Min(Max(value, lo), hi)
  }

  /** The boundary policy on one axis, as a condition on the translate `t`:
      on an oversized axis the image edges stay on or beyond the viewport
      edges; an axis that is not oversized is centred. */
  predicate Placed(t: real, v: real, scaled: real) {
    if scaled > v then v - scaled <= t <= 0.0 else t == Centred(v, scaled)
  }

  /** The boundary correction on one axis, applied after every move. */
  function BoundAxis(t: real, v: real, scaled: real): (r: real)
    ensures Placed(r, v, scaled)
    ensures Placed(t, v, scaled) ==> r == t
    ensures scaled > v && t < v - scaled ==> r == v - scaled
    ensures scaled > v && t > 0.0 ==> r == 0.0
  {
    if scaled > v then Clamp(t, v - scaled, 0.0) else Centred(v, scaled)
  }

  /** A placed axis at or above viewport size shows no background: the
      image spans the whole viewport on that axis. */
  lemma PlacedCoversAxis(t: real, v: real, scaled: real)
    requires Placed(t, v, scaled) && scaled >= v
    ensures t <= 0.0 && v <= t + scaled
  {
  }

  /** A requested zoom level saturated to [MIN_SCALE, MAX_SCALE]:
      Math.max(MIN_SCALE, Math.min(MAX_SCALE, requested)). */
  function ZoomScale(minScale: real, requested: real): (r: real)
    ensures minScale <= r <= Max(minScale, MAX_SCALE)
    ensures minScale <= MAX_SCALE ==> r <= MAX_SCALE
    ensures minScale <= requested <= MAX_SCALE ==> r == requested
    ensures minScale <= MAX_SCALE <= requested ==> r == MAX_SCALE
    ensures requested <= minScale || MAX_SCALE <= minScale ==> r == minScale
  {
    Max(minScale, Min(MAX_SCALE, requested))
  }

  /** A scale multiplied by a zoom factor. */
  function Rescaled(scale: real, factor: real): real { scale * factor }

  /** Zoom step of one wheel event: out when scrolling down, in otherwise. */
  function WheelFactor(deltaY: real): real {
    if deltaY > 0.0 then 0.9 else 1.1
  }

  /** The saturated pinch scale `Math.max(MIN_SCALE, Math.min(MAX_SCALE,
      initialScale * (distance / initialDistance)))`. A zero start distance
      makes the JavaScript factor an infinity, which saturates like every
      request beyond that limit; only 0 / 0 (NaN) is excluded. */
  function PinchScale(minScale: real, initialScale: real, distance: real, initialDistance: real): (r: real)
    requires initialDistance != 0.0 || distance != 0.0
    requires 0.0 < initialScale
    ensures minScale <= r <= Max(minScale, MAX_SCALE)
    ensures initialDistance != 0.0 ==> r == ZoomScale(minScale, Rescaled(initialScale, distance / initialDistance))
    ensures initialDistance == 0.0 && distance > 0.0 ==> forall q :: MAX_SCALE <= q ==> r == ZoomScale(minScale, q)
    ensures initialDistance == 0.0 && distance < 0.0 ==> forall q :: q <= minScale ==> r == ZoomScale(minScale, q)
  {
    if initialDistance != 0.0 then ZoomScale(minScale, Rescaled(initialScale, distance / initialDistance))
    else if distance > 0.0 then Max(minScale, MAX_SCALE)
    else minScale
  }

  /** Screen coordinate of image coordinate `q` under (scale, translate). */
  function ScreenPos(q: real, scale: real, t: real): real { q * scale + t }

  /** Image coordinate shown at screen coordinate `p` under (scale, translate). */
  function ImagePos(p: real, scale: real, t: real): real
    requires scale != 0.0
  {
    (p - t) / scale
  }

  /** The two coordinate maps are inverse to each other. */
  lemma ImageScreenRoundTrip(q: real, p: real, scale: real, t: real)
    requires scale != 0.0
    ensures ImagePos(ScreenPos(q, scale, t), scale, t) == q
    ensures ScreenPos(ImagePos(p, scale, t), scale, t) == p
  {
    assert (q * scale + t - t) / scale == q * scale / scale;
  }

  /** Translate after rescaling by `ratio` about screen point `center`,
      starting from translate `t0` (the pinch formula). */
  function PinchTranslate(center: real, t0: real, ratio: real): real {
    center - (center - t0) * ratio
  }

  /** Translate after rescaling by `ratio` about the pointer (the wheel formula). */
  function WheelTranslate(t: real, pointer: real, ratio: real): real {
    t + (pointer - t) * (1.0 - ratio)
  }

  /** `a / b * c == a * (c / b)` over the reals. */
  lemma DivMulSwap(a: real, b: real, c: real)
    requires b != 0.0
    ensures a / b * c == a * (c / b)
  {
    assert a / b * c == (a * c) / b;
    assert a * (c / b) == (a * c) / b;
  }

  /** The pinch formula keeps the image point that was under the pinch centre
      at gesture start under the centre at the new scale. */
  lemma PinchKeepsAnchor(center: real, t0: real, s0: real, s1: real)
    requires s0 != 0.0
    ensures ScreenPos(ImagePos(center, s0, t0), s1, PinchTranslate(center, t0, s1 / s0)) == center
  {
    DivMulSwap(center - t0, s0, s1);
  }

  /** The wheel formula is the pinch formula anchored at the pointer. */
  lemma WheelIsAnchoredZoom(t: real, pointer: real, ratio: real)
    ensures WheelTranslate(t, pointer, ratio) == PinchTranslate(pointer, t, ratio)
  {
    assert (pointer - t) * (1.0 - ratio) == (pointer - t) - (pointer - t) * ratio;
  }

  /** The wheel formula keeps the image point under the pointer fixed. */
  lemma WheelKeepsAnchor(pointer: real, t: real, s0: real, s1: real)
    requires s0 != 0.0
    ensures ScreenPos(ImagePos(pointer, s0, t), s1, WheelTranslate(t, pointer, s1 / s0)) == pointer
  {
    WheelIsAnchoredZoom(t, pointer, s1 / s0);
    PinchKeepsAnchor(pointer, t, s0, s1);
  }

  /** The `state` record of the viewer together with MIN_SCALE. */
  class MapState {
    var scale: real
    var translateX: real
    var translateY: real
    var imageWidth: real
    var imageHeight: real
    var viewportWidth: real
    var viewportHeight: real
    var isDragging: bool
    var lastX: real
    var lastY: real
    var initialDistance: real
    var initialScale: real
    var initialTranslateX: real
    var initialTranslateY: real
    /** The module-level MIN_SCALE, reassigned by SetupMap. */
    var minScale: real

    /** The scale lies in [MIN_SCALE, max(MIN_SCALE, MAX_SCALE)], the pinch
        snapshot scale can be divided by, and MIN_SCALE makes the image cover
        the viewport. */
    ghost predicate ScaleInvariant()
      reads this`minScale, this`scale, this`initialScale
      reads this`imageWidth, this`imageHeight, this`viewportWidth, this`viewportHeight
    {
      && 0.0 < minScale <= scale <= Max(minScale, MAX_SCALE)
      && 0.0 < initialScale
      && 0.0 <= imageWidth && 0.0 <= imageHeight
      && viewportWidth <= Scaled(imageWidth, minScale)
      && viewportHeight <= Scaled(imageHeight, minScale)
    }

    /** Both axes obey the boundary policy. */
    ghost predicate Placement()
      reads this`translateX, this`translateY, this`scale
      reads this`imageWidth, this`imageHeight, this`viewportWidth, this`viewportHeight
    {
      && Placed(translateX, viewportWidth, Scaled(imageWidth, scale))
      && Placed(translateY, viewportHeight, Scaled(imageHeight, scale))
    }

    /** The viewer's invariant. */
    ghost predicate Valid()
      reads this
    {
      ScaleInvariant() && Placement()
    }

    /** The initial `state` literal and `MIN_SCALE = 1`. */
    constructor ()
      ensures Valid()
      ensures scale == 1.0 && translateX == 0.0 && translateY == 0.0
      ensures imageWidth == 0.0 && imageHeight == 0.0
      ensures viewportWidth == 0.0 && viewportHeight == 0.0
      ensures !isDragging && lastX == 0.0 && lastY == 0.0
      ensures initialDistance == 0.0 && initialScale == 1.0
      ensures initialTranslateX == 0.0 && initialTranslateY == 0.0
      ensures minScale == 1.0
    {
      scale, translateX, translateY := 1.0, 0.0, 0.0;
      imageWidth, imageHeight := 0.0, 0.0;
      viewportWidth, viewportHeight := 0.0, 0.0;
      isDragging, lastX, lastY := false, 0.0, 0.0;
      initialDistance, initialScale := 0.0, 1.0;
      initialTranslateX, initialTranslateY := 0.0, 0.0;
      minScale := 1.0;
    }

    /** Cover-fit initialisation from the image's natural size and the
        viewport's client size; MIN_SCALE becomes the cover scale. */
    method SetupMap(naturalWidth: real, naturalHeight: real, clientWidth: real, clientHeight: real)
      requires Valid()
      requires naturalWidth > 0.0 && naturalHeight > 0.0
      requires clientWidth > 0.0 || clientHeight > 0.0
      modifies this`imageWidth, this`imageHeight, this`viewportWidth, this`viewportHeight
      modifies this`scale, this`minScale, this`translateX, this`translateY
      ensures Valid()
      ensures imageWidth == naturalWidth && imageHeight == naturalHeight
      ensures viewportWidth == clientWidth && viewportHeight == clientHeight
      ensures scale == CoverScale(clientWidth, clientHeight, naturalWidth, naturalHeight)
      ensures minScale == scale
      ensures viewportWidth <= Scaled(imageWidth, scale) && viewportHeight <= Scaled(imageHeight, scale)
      ensures translateX == Centred(viewportWidth, Scaled(imageWidth, scale))
      ensures translateY == Centred(viewportHeight, Scaled(imageHeight, scale))
      ensures translateX == 0.0 || translateY == 0.0
    {
      imageWidth := naturalWidth;
      imageHeight := naturalHeight;
      viewportWidth := clientWidth;
      viewportHeight := clientHeight;
      var scaleX := viewportWidth / imageWidth;
      var scaleY := viewportHeight / imageHeight;
      scale := Max(scaleX, scaleY);
      minScale := scale;
      translateX := Centred(viewportWidth, Scaled(imageWidth, scale));
      translateY := Centred(viewportHeight, Scaled(imageHeight, scale));
      assert scale == CoverScale(clientWidth, clientHeight, naturalWidth, naturalHeight);
    }

    /** The boundary block that ends every move, on both axes. */
    method ApplyBounds()
      modifies this`translateX, this`translateY
      ensures translateX == BoundAxis(old(translateX), viewportWidth, Scaled(imageWidth, scale))
      ensures translateY == BoundAxis(old(translateY), viewportHeight, Scaled(imageHeight, scale))
    {
      var scaledWidth := Scaled(imageWidth, scale);
      var scaledHeight := Scaled(imageHeight, scale);
      translateX := BoundAxis(translateX, viewportWidth, scaledWidth);
      translateY := BoundAxis(translateY, viewportHeight, scaledHeight);
    }

    /** Installs a new scale and candidate translate, then corrects both
        axes: the common tail of the pinch and wheel handlers. */
    method MoveTo(x: real, y: real, newScale: real)
      requires Valid()
      requires minScale <= newScale <= Max(minScale, MAX_SCALE)
      modifies this`translateX, this`translateY, this`scale
      ensures Valid()
      ensures scale == newScale
      ensures translateX == BoundAxis(x, viewportWidth, Scaled(imageWidth, newScale))
      ensures translateY == BoundAxis(y, viewportHeight, Scaled(imageHeight, newScale))
    {
      translateX := x;
      translateY := y;
      scale := newScale;
      ApplyBounds();
    }

    /** One drag step to pointer (x, y): add the delta since the last
        recorded position, correct, and record (x, y) as the last position. */
    method DragTo(x: real, y: real)
      requires Valid()
      modifies this`translateX, this`translateY, this`lastX, this`lastY
      ensures Valid()
      ensures translateX == BoundAxis(old(translateX) + (x - old(lastX)), viewportWidth, Scaled(imageWidth, scale))
      ensures translateY == BoundAxis(old(translateY) + (y - old(lastY)), viewportHeight, Scaled(imageHeight, scale))
      ensures lastX == x && lastY == y
    {
      var deltaX := x - lastX;
      var deltaY := y - lastY;
      translateX := translateX + deltaX;
      translateY := translateY + deltaY;
      ApplyBounds();
      lastX := x;
      lastY := y;
    }

    /** One finger starts a drag; two fingers snapshot distance, scale and
        translate for the pinch. `distance` is the distance of the first two
        touches. */
    method TouchStart(touches: seq<Point>, distance: real)
      requires Valid()
      modifies this`isDragging, this`lastX, this`lastY, this`initialDistance
      modifies this`initialScale, this`initialTranslateX, this`initialTranslateY
      ensures Valid()
      ensures if |touches| == 1 then
                && isDragging && lastX == touches[0].clientX && lastY == touches[0].clientY
                && initialDistance == old(initialDistance) && initialScale == old(initialScale)
                && initialTranslateX == old(initialTranslateX) && initialTranslateY == old(initialTranslateY)
              else if |touches| == 2 then
                && !isDragging && lastX == old(lastX) && lastY == old(lastY)
                && initialDistance == distance && initialScale == scale
                && initialTranslateX == translateX && initialTranslateY == translateY
              else
                unchanged(this)
    {
      if |touches| == 1 {
        isDragging := true;
        lastX := touches[0].clientX;
        lastY := touches[0].clientY;
      } else if |touches| == 2 {
        isDragging := false;
        initialDistance := distance;
        initialScale := scale;
        initialTranslateX := translateX;
        initialTranslateY := translateY;
      }
    }

    /** One finger while dragging pans; two fingers zoom about their midpoint
        relative to the touch-start snapshot, which itself is not changed.
        `distance` is the current distance of the first two touches. */
    method TouchMove(touches: seq<Point>, distance: real)
      requires Valid()
      requires |touches| == 2 ==> initialDistance != 0.0 || distance != 0.0
      modifies this`translateX, this`translateY, this`lastX, this`lastY, this`scale
      ensures Valid()
      ensures if |touches| == 1 && isDragging then
                && scale == old(scale)
                && translateX == BoundAxis(old(translateX) + (touches[0].clientX - old(lastX)), viewportWidth, Scaled(imageWidth, scale))
                && translateY == BoundAxis(old(translateY) + (touches[0].clientY - old(lastY)), viewportHeight, Scaled(imageHeight, scale))
                && lastX == touches[0].clientX && lastY == touches[0].clientY
              else if |touches| == 2 then
                && scale == PinchScale(minScale, initialScale, distance, initialDistance)
                && translateX == BoundAxis(PinchTranslate((touches[0].clientX + touches[1].clientX) / 2.0, initialTranslateX, scale / initialScale),
                                           viewportWidth, Scaled(imageWidth, scale))
                && translateY == BoundAxis(PinchTranslate((touches[0].clientY + touches[1].clientY) / 2.0, initialTranslateY, scale / initialScale),
                                           viewportHeight, Scaled(imageHeight, scale))
                && lastX == old(lastX) && lastY == old(lastY)
              else
                unchanged(this)
    {
      if |touches| == 1 && isDragging {
        DragTo(touches[0].clientX, touches[0].clientY);
      } else if |touches| == 2 {
        PinchTo((touches[0].clientX + touches[1].clientX) / 2.0,
                (touches[0].clientY + touches[1].clientY) / 2.0, distance);
      }
    }

    /** The two-finger branch of TouchMove: zoom relative to the touch-start
        snapshot about the centre (centerX, centerY) of the two touches. */
    method PinchTo(centerX: real, centerY: real, distance: real)
      requires Valid()
      requires initialDistance != 0.0 || distance != 0.0
      modifies this`translateX, this`translateY, this`scale
      ensures Valid()
      ensures scale == PinchScale(minScale, initialScale, distance, initialDistance)
      ensures translateX == BoundAxis(PinchTranslate(centerX, initialTranslateX, scale / initialScale),
                                      viewportWidth, Scaled(imageWidth, scale))
      ensures translateY == BoundAxis(PinchTranslate(centerY, initialTranslateY, scale / initialScale),
                                      viewportHeight, Scaled(imageHeight, scale))
    {
      var newScale := PinchScale(minScale, initialScale, distance, initialDistance);
      var scaleRatio := newScale / initialScale;
      MoveTo(PinchTranslate(centerX, initialTranslateX, scaleRatio),
             PinchTranslate(centerY, initialTranslateY, scaleRatio), newScale);
    }

    /** Lifting the fingers ends the drag. */
    method TouchEnd()
      modifies this`isDragging
      ensures !isDragging
    {
      isDragging := false;
    }

    /** Pressing the mouse button starts a drag at (clientX, clientY). */
    method MouseDown(clientX: real, clientY: real)
      modifies this`isDragging, this`lastX, this`lastY
      ensures isDragging && lastX == clientX && lastY == clientY
    {
      isDragging := true;
      lastX := clientX;
      lastY := clientY;
    }

    /** Moving the mouse pans while dragging and does nothing otherwise. */
    method MouseMove(clientX: real, clientY: real)
      requires Valid()
      modifies this`translateX, this`translateY, this`lastX, this`lastY
      ensures Valid()
      ensures if isDragging then
                && translateX == BoundAxis(old(translateX) + (clientX - old(lastX)), viewportWidth, Scaled(imageWidth, scale))
                && translateY == BoundAxis(old(translateY) + (clientY - old(lastY)), viewportHeight, Scaled(imageHeight, scale))
                && lastX == clientX && lastY == clientY
              else
                unchanged(this)
    {
      if !isDragging {
        return;
      }
      DragTo(clientX, clientY);
    }

    /** Releasing the mouse button ends the drag. */
    method MouseUp()
      modifies this`isDragging
      ensures !isDragging
    {
      isDragging := false;
    }

    /** One wheel step zooms by 0.9 or 1.1 about the pointer, saturated to
        the zoom limits, then corrects both axes. */
    method Wheel(deltaY: real, clientX: real, clientY: real)
      requires Valid()
      modifies this`translateX, this`translateY, this`scale
      ensures Valid()
      ensures scale == ZoomScale(minScale, Rescaled(old(scale), WheelFactor(deltaY)))
      ensures translateX == BoundAxis(WheelTranslate(old(translateX), clientX, scale / old(scale)), viewportWidth, Scaled(imageWidth, scale))
      ensures translateY == BoundAxis(WheelTranslate(old(translateY), clientY, scale / old(scale)), viewportHeight, Scaled(imageHeight, scale))
    {
      var delta := if deltaY > 0.0 then 0.9 else 1.1;
      var newScale := Rescaled(scale, delta);
      newScale := ZoomScale(minScale, newScale);
      var scaleRatio := newScale / scale;
      MoveTo(WheelTranslate(translateX, clientX, scaleRatio),
             WheelTranslate(translateY, clientY, scaleRatio), newScale);
    }
  }

  /** In every valid state the image covers the whole viewport on both axes. */
  lemma ValidStateShowsNoBackground(m: MapState)
    requires m.Valid()
    ensures m.translateX <= 0.0 && m.viewportWidth <= m.translateX + Scaled(m.imageWidth, m.scale)
    ensures m.translateY <= 0.0 && m.viewportHeight <= m.translateY + Scaled(m.imageHeight, m.scale)
  {
    ScaledIsMonotonic(m.imageWidth, m.minScale, m.scale);
    ScaledIsMonotonic(m.imageHeight, m.minScale, m.scale);
    PlacedCoversAxis(m.translateX, m.viewportWidth, Scaled(m.imageWidth, m.scale));
    PlacedCoversAxis(m.translateY, m.viewportHeight, Scaled(m.imageHeight, m.scale));
  }

  /** A 300 x 300 viewport showing a 1200 x 734 image at its cover scale:
      a drag of (+50, -20) followed by a drag of (-200, 0) stops at the
      left-edge bound, and the constraining vertical axis stays at 0. */
  lemma DragStopsAtLeftEdge()
    ensures var s := CoverScale(300.0, 300.0, 1200.0, 734.0);
      var x0 := Centred(300.0, Scaled(1200.0, s));
      var y0 := Centred(300.0, Scaled(734.0, s));
      var x1 := BoundAxis(x0 + 50.0, 300.0, Scaled(1200.0, s));
      var y1 := BoundAxis(y0 - 20.0, 300.0, Scaled(734.0, s));
      && s == 300.0 / 734.0
      && y0 == 0.0 && y1 == 0.0
      && x1 == x0 + 50.0
      && BoundAxis(x1 - 200.0, 300.0, Scaled(1200.0, s)) == 300.0 - Scaled(1200.0, s)
  {
    var s := 300.0 / 734.0;
    assert CoverScale(300.0, 300.0, 1200.0, 734.0) == s;
    var width := Scaled(1200.0, s);
    assert width == 1200.0 * s;
    assert 490.0 < width < 491.0;
    assert Scaled(734.0, s) == 300.0;
  }
}
