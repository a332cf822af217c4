/** The canvas viewport: a scale factor and an integer pixel offset mapping image
  * pixels to screen pixels (annotation.py:443-472, 548-565). */
module Viewport {
  import opened Numeric

  /** `scale_factor` and `offset` of the annotation canvas. */
  datatype View = View(scale: real, offsetX: int, offsetY: int)

  const MinScale: real := 0.01
  const MaxScale: real := 50.0
  const FitMargin: real := 0.95
  const ZoomInRate: real := 1.1
  const ZoomOutRate: real := 0.9

  /** `img_to_screen` on one axis: `int(x * scale + offset)`. */
  function ImgToScreen(x: real, scale: real, offset: int): (r: int)
    ensures -1.0 < x * scale + offset as real - r as real < 1.0
  {
    TruncClose(x * scale + offset as real);
    Trunc(x * scale + offset as real)
  }

  /** `screen_to_img` on one axis: `int((s - offset) / scale)`. */
  function ScreenToImg(s: real, scale: real, offset: int): (r: int)
    requires scale > 0.0
    ensures -1.0 < (s - offset as real) / scale - r as real < 1.0
  {
    TruncClose((s - offset as real) / scale);
    Trunc((s - offset as real) / scale)
  }

  lemma BackError(s: real, x: real, k: real, o: real)
    requires k > 0.0 && -1.0 < s - (x * k + o) < 1.0
    ensures -1.0 / k < (s - o) / k - x < 1.0 / k
  {
    var d := s - (x * k + o);
    assert (s - o) / k - x == d / k;
    assert -1.0 / k < d / k < 1.0 / k;
  }

  /** The error of the round trip, on abstract values: `s` is the screen value
    * within one of `x * k + o`, and `back` within one of `(s - o) / k`. */
  lemma RoundTripError(x: real, k: real, o: real, s: real, back: real)
    requires k > 0.0 && -1.0 < s - (x * k + o) < 1.0
    requires -1.0 < back - (s - o) / k < 1.0
    ensures -1.0 - 1.0 / k < back - x < 1.0 + 1.0 / k
  {
    BackError(s, x, k, o);
  }

  /** Mapping an image pixel to the screen and back lands within `1 + 1/scale`
    * of it: screen truncation costs up to `1/scale` image pixels, the final
    * truncation less than one more. */
  lemma ScreenRoundTrip(x: int, scale: real, offset: int)
    requires scale > 0.0
    ensures var back := ScreenToImg(ImgToScreen(x as real, scale, offset) as real, scale, offset);
      -1.0 - 1.0 / scale < (back - x) as real < 1.0 + 1.0 / scale
  {
    var s := ImgToScreen(x as real, scale, offset);
    var back := ScreenToImg(s as real, scale, offset);
    RoundTripError(x as real, scale, offset as real, s as real, back as real);
  }

  /** At a scale of one or more the round trip returns the pixel or a neighbour. */
  lemma ScreenRoundTripZoomedIn(x: int, scale: real, offset: int)
    requires scale >= 1.0
    ensures var back := ScreenToImg(ImgToScreen(x as real, scale, offset) as real, scale, offset);
      x - 1 <= back <= x + 1
  {
    ScreenRoundTrip(x, scale, offset);
    assert 1.0 / scale <= 1.0;
  }

  /** Below scale one a pixel need not come back to itself or a neighbour:
    * at scale 0.3 pixel 3 lands on screen pixel 0, which maps back to 0. */
  lemma ScreenRoundTripZoomedOut()
    ensures ImgToScreen(3.0, 0.3, 0) == 0
    ensures ScreenToImg(0.0, 0.3, 0) == 0
  {
    TruncClose(0.9);
    TruncClose(0.0);
  }

  /** The wheel's rate: 1.1 for a positive angle, 0.9 otherwise. */
  function ZoomRate(angle: int): (r: real)
    ensures angle > 0 ==> r > 1.0
    ensures angle <= 0 ==> 0.0 < r < 1.0
  {
    if angle > 0 then ZoomInRate else ZoomOutRate
  }

  /** The scale after one wheel step, kept within `[0.01, 50.0]`. */
  function ZoomScale(scale: real, angle: int): (r: real)
    requires scale > 0.0
    ensures MinScale <= r <= MaxScale
    ensures MinScale <= scale <= MaxScale && angle > 0 ==> scale <= r
    ensures MinScale <= scale <= MaxScale && angle <= 0 ==> r <= scale
  {
    ClampReal(scale * ZoomRate(angle), MinScale, MaxScale)
  }

  /** The new offset on one axis: `int(mouse - (mouse - offset) * (new / old))`. */
  function ZoomOffset(mouse: real, offset: int, oldScale: real, newScale: real): (r: int)
    requires oldScale > 0.0
    ensures -1.0 < mouse - (mouse - offset as real) * (newScale / oldScale) - r as real < 1.0
  {
    TruncClose(mouse - (mouse - offset as real) * (newScale / oldScale));
    Trunc(mouse - (mouse - offset as real) * (newScale / oldScale))
  }

  /** Zooming keeps the image point under the cursor under it: that point,
    * drawn at the new scale and offset, is less than one screen pixel away
    * from the cursor (the offset is truncated to whole pixels). */
  lemma ZoomKeepsAnchor(mouse: real, offset: int, oldScale: real, newScale: real)
    requires oldScale > 0.0 && newScale > 0.0
    ensures var anchor := (mouse - offset as real) / oldScale;
      var o := ZoomOffset(mouse, offset, oldScale, newScale);
      -1.0 < anchor * newScale + o as real - mouse < 1.0
  {
    var d := mouse - offset as real;
    DivThenScale(d, oldScale, newScale);
    TruncWithin(d / oldScale * newScale, d * (newScale / oldScale), mouse);
  }

  lemma TruncWithin(a: real, x: real, mouse: real)
    requires a == x
    ensures -1.0 < a + Trunc(mouse - x) as real - mouse < 1.0
  {
    TruncClose(mouse - x);
  }

  lemma DivThenScale(d: real, k: real, n: real)
    requires k > 0.0
    ensures d / k * n == d * (n / k)
  {
    var q := d / k;
    assert q * k == d;
    assert (n / k) * k == n;
    assert (q * n) * k == (d * (n / k)) * k;
  }

  /** `min(view_w / img_w, view_h / img_h) * 0.95`. */
  function FitScale(viewW: int, viewH: int, imgW: int, imgH: int): (r: real)
    requires imgW > 0 && imgH > 0
    ensures r <= viewW as real / imgW as real * FitMargin && r <= viewH as real / imgH as real * FitMargin
    ensures r == viewW as real / imgW as real * FitMargin || r == viewH as real / imgH as real * FitMargin
  {
    MinReal(viewW as real / imgW as real, viewH as real / imgH as real) * FitMargin
  }

  /** `int((view - img * scale) / 2)`: centring on one axis. */
  function FitOffset(view: int, img: int, scale: real): (r: int)
    ensures -1.0 < (view as real - img as real * scale) / 2.0 - r as real < 1.0
  {
    TruncClose((view as real - img as real * scale) / 2.0);
    Trunc((view as real - img as real * scale) / 2.0)
  }

  /** `reset_view_fit` with a loaded image: nothing for a view of zero width or
    * height, the fitted scale and centring offsets otherwise. */
  function FitView(v: View, viewW: int, viewH: int, imgW: int, imgH: int): (r: View)
    requires viewW >= 0 && viewH >= 0 && imgW > 0 && imgH > 0
    ensures viewW == 0 || viewH == 0 ==> r == v
    ensures viewW > 0 && viewH > 0 ==> r.scale > 0.0
  {
    if viewW == 0 || viewH == 0 then v
    else
      var s := FitScale(viewW, viewH, imgW, imgH);
      FitScaleFits(viewW, viewH, imgW, imgH);
      View(s, FitOffset(viewW, imgW, s), FitOffset(viewH, imgH, s))
  }

  /** A view of scale `scale` and offsets `offsetX`, `offsetY` shows the whole image: the scale is positive, the
    * scaled image lies inside the view on both axes with a non-negative offset,
    * it is centred to within a pixel on each axis, and one axis fills 95% of the
    * view. */
  predicate ShowsWholeImage(scale: real, offsetX: int, offsetY: int, viewW: int, viewH: int, imgW: int, imgH: int)
  {
    scale > 0.0
    && 0 <= offsetX && offsetX as real + imgW as real * scale <= viewW as real
    && 0 <= offsetY && offsetY as real + imgH as real * scale <= viewH as real
    && -1.0 < offsetX as real + imgW as real * scale / 2.0 - viewW as real / 2.0 <= 0.0
    && -1.0 < offsetY as real + imgH as real * scale / 2.0 - viewH as real / 2.0 <= 0.0
    && (imgW as real * scale == FitMargin * viewW as real || imgH as real * scale == FitMargin * viewH as real)
  }

  /** Fitting a view of non-zero size shows the whole image. */
  lemma FitViewShowsWholeImage(v: View, viewW: int, viewH: int, imgW: int, imgH: int)
    requires viewW > 0 && viewH > 0 && imgW > 0 && imgH > 0
    ensures var r := FitView(v, viewW, viewH, imgW, imgH);
      ShowsWholeImage(r.scale, r.offsetX, r.offsetY, viewW, viewH, imgW, imgH)
  {
    var s := FitScale(viewW, viewH, imgW, imgH);
    FitShowsWholeImage(viewW, viewH, imgW, imgH);
    assert FitView(v, viewW, viewH, imgW, imgH) == View(s, FitOffset(viewW, imgW, s), FitOffset(viewH, imgH, s));
  }

  /** The fitted scale with the centring offsets shows the whole image. */
  lemma FitShowsWholeImage(viewW: int, viewH: int, imgW: int, imgH: int)
    requires viewW > 0 && viewH > 0 && imgW > 0 && imgH > 0
    ensures var s := FitScale(viewW, viewH, imgW, imgH);
      ShowsWholeImage(s, FitOffset(viewW, imgW, s), FitOffset(viewH, imgH, s), viewW, viewH, imgW, imgH)
  {
    var s := FitScale(viewW, viewH, imgW, imgH);
    FitScaleFits(viewW, viewH, imgW, imgH);
    FitAxis(viewW, imgW, s);
    FitAxis(viewH, imgH, s);
  }

  /** `on_wheel_event`: the scale steps toward the wheel's direction and stays in
    * `[0.01, 50.0]`. */
  function ZoomView(v: View, angle: int, mouseX: real, mouseY: real): (r: View)
    requires v.scale > 0.0
    ensures MinScale <= r.scale <= MaxScale
    ensures MinScale <= v.scale <= MaxScale && angle > 0 ==> v.scale <= r.scale
    ensures MinScale <= v.scale <= MaxScale && angle <= 0 ==> r.scale <= v.scale
  {
    var s := ZoomScale(v.scale, angle);
    View(s, ZoomOffset(mouseX, v.offsetX, v.scale, s), ZoomOffset(mouseY, v.offsetY, v.scale, s))
  }

  /** A wheel step keeps the image point under the cursor under it to within a
    * pixel on each axis. */
  lemma ZoomViewKeepsAnchor(v: View, angle: int, mouseX: real, mouseY: real)
    requires v.scale > 0.0
    ensures var r := ZoomView(v, angle, mouseX, mouseY);
      -1.0 < (mouseX - v.offsetX as real) / v.scale * r.scale + r.offsetX as real - mouseX < 1.0
      && -1.0 < (mouseY - v.offsetY as real) / v.scale * r.scale + r.offsetY as real - mouseY < 1.0
  {
    var s := ZoomScale(v.scale, angle);
    ZoomKeepsAnchor(mouseX, v.offsetX, v.scale, s);
    ZoomKeepsAnchor(mouseY, v.offsetY, v.scale, s);
  }

  lemma FitAxis(view: int, img: int, scale: real)
    requires view > 0 && img > 0 && 0.0 < scale && img as real * scale <= FitMargin * view as real
    ensures 0 <= FitOffset(view, img, scale)
    ensures FitOffset(view, img, scale) as real + img as real * scale <= view as real
    ensures -1.0 < FitOffset(view, img, scale) as real + img as real * scale / 2.0 - view as real / 2.0 <= 0.0
  {
    var t := (view as real - img as real * scale) / 2.0;
    TruncClose(t);
  }

  lemma MarginFit(v: int, i: int, m: real)
    requires v > 0 && i > 0 && 0.0 < m <= v as real / i as real
    ensures i as real * (m * FitMargin) <= FitMargin * v as real
    ensures m == v as real / i as real ==> i as real * (m * FitMargin) == FitMargin * v as real
  {
    assert i as real * (v as real / i as real) == v as real;
    assert i as real * (m * FitMargin) == (i as real * m) * FitMargin;
    ScaleUp(m, v as real / i as real, i as real);
  }

  lemma ScaleUp(a: real, b: real, k: real)
    requires a <= b && 0.0 <= k
    ensures k * a <= k * b
  {
    assert k * b - k * a == k * (b - a);
  }

  lemma FitScaleFits(viewW: int, viewH: int, imgW: int, imgH: int)
    requires viewW > 0 && viewH > 0 && imgW > 0 && imgH > 0
    ensures var s := FitScale(viewW, viewH, imgW, imgH);
      s > 0.0
      && imgW as real * s <= FitMargin * viewW as real
      && imgH as real * s <= FitMargin * viewH as real
      && (imgW as real * s == FitMargin * viewW as real || imgH as real * s == FitMargin * viewH as real)
  {
    var rw, rh := viewW as real / imgW as real, viewH as real / imgH as real;
    var m := MinReal(rw, rh);
    MarginFit(viewW, imgW, m);
    MarginFit(viewH, imgH, m);
  }
}
