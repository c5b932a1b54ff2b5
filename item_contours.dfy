/** A contour kept by the filter, with the frame area it was measured against and
    the scale of the analysed frame relative to the original. The image library's
    measurements of the point array (its area and its bounding rectangle) are
    values the model is given. */
module ItemContours {
  import opened Errors

  /** `cv2.boundingRect`: top-left corner, width and height, in analysed-frame pixels. */
  datatype Rect = Rect(x: int, y: int, w: int, h: int)

  /** A contour as the image library measures it: `cv2.contourArea` and `cv2.boundingRect`. */
  datatype Contour = Contour(area: real, rect: Rect)

  datatype Point = Point(x: int, y: int)

  /** A region of interest: its top-left and bottom-right corners. */
  datatype Box = Box(topLeft: Point, bottomRight: Point)

  /** Python's `round(x, 1)` on an exact value: to the nearest tenth, ties to the
      even tenth. */
  function RoundTenth(x: real): (r: real)
    ensures -0.05 <= r - x <= 0.05
    ensures (r * 10.0).Floor as real == r * 10.0
  {
    var scaled := x * 10.0;
    var low := scaled.Floor;
    var frac := scaled - low as real;
    var n := if frac < 0.5 then low
             else if frac > 0.5 then low + 1
             else if low % 2 == 0 then low else low + 1;
    n as real / 10.0
  }

  /** `round((contour_area / frame_area) * 100, 1)`: the contour's share of the
      frame in percent, to one decimal. */
  function AreaPercent(contourArea: real, frameArea: real): (r: Result<real>)
    ensures r.Err? <==> frameArea == 0.0
    ensures r.Err? ==> r.error == ZeroDivisionError
    ensures r.Ok? ==> -0.05 <= r.value - contourArea / frameArea * 100.0 <= 0.05
  {
    if frameArea == 0.0 then Err(ZeroDivisionError)
    else Ok(RoundTenth(contourArea / frameArea * 100.0))
  }

  /** Python's `int(x)` on a float: truncation toward zero. */
  function Trunc(x: real): (n: int)
    ensures x >= 0.0 ==> 0 <= n && n as real <= x < n as real + 1.0
    ensures x < 0.0 ==> n <= 0 && n as real - 1.0 < x <= n as real
  {
    if x >= 0.0 then x.Floor else -((-x).Floor)
  }

  datatype ContourItem = ContourItem(contour: Contour, frameArea: real, scale: real)
  {
    function AreaRatio(): Result<real>
    {
      AreaPercent(contour.area, frameArea)
    }

    /** The bounding box in original-frame coordinates: each of x, y, w, h divided
        by the scale and truncated on its own. */
    function Roi(): (r: Result<Box>)
      ensures r.Err? <==> scale == 0.0
      ensures r.Err? ==> r.error == ZeroDivisionError
      ensures r.Ok? ==> r.value.topLeft == Point(Trunc(contour.rect.x as real / scale), Trunc(contour.rect.y as real / scale))
      ensures r.Ok? ==> r.value.bottomRight.x - r.value.topLeft.x == Trunc(contour.rect.w as real / scale)
      ensures r.Ok? ==> r.value.bottomRight.y - r.value.topLeft.y == Trunc(contour.rect.h as real / scale)
    {
      if scale == 0.0 then Err(ZeroDivisionError)
      else
        var x := Trunc(contour.rect.x as real / scale);
        var y := Trunc(contour.rect.y as real / scale);
        var w := Trunc(contour.rect.w as real / scale);
        var h := Trunc(contour.rect.h as real / scale);
        Ok(Box(Point(x, y), Point(x + w, y + h)))
    }

    /** The bounding box in analysed-frame coordinates. */
    function ScaledRoi(): (b: Box)
      ensures b.topLeft == Point(contour.rect.x, contour.rect.y)
      ensures b.bottomRight.x - b.topLeft.x == contour.rect.w
      ensures b.bottomRight.y - b.topLeft.y == contour.rect.h
    {
      var r := contour.rect;
      Box(Point(r.x, r.y), Point(r.x + r.w, r.y + r.h))
    }
  }

  /** An item built with the dataclass defaults `frame_area = 0.0`, `scale = 0.0`. */
  function WithDefaults(c: Contour): ContourItem
  {
    ContourItem(c, 0.0, 0.0)
  }

  /** With the defaults left in place both derived values divide by zero. */
  lemma DefaultsDivideByZero(c: Contour)
    ensures WithDefaults(c).AreaRatio() == Err(ZeroDivisionError)
    ensures WithDefaults(c).Roi() == Err(ZeroDivisionError)
  {
  }

  /** At scale 1 the original-frame box is the analysed-frame box. */
  lemma RoiAtScaleOne(item: ContourItem)
    requires item.scale == 1.0
    ensures item.Roi() == Ok(item.ScaledRoi())
  {
    var r := item.contour.rect;
    assert Trunc(r.x as real) == r.x && Trunc(r.y as real) == r.y;
    assert Trunc(r.w as real) == r.w && Trunc(r.h as real) == r.h;
  }

  /** For a non-negative rectangle and a positive scale, the box maps the analysed
      box back to within truncation error: each corner coordinate is at most the
      exact rescaled value and less than one pixel below it (two for the far
      corner, which adds two truncated values), and the far corner is never
      before the near one. */
  lemma RoiRescales(item: ContourItem)
    requires item.scale > 0.0
    requires var r := item.contour.rect; r.x >= 0 && r.y >= 0 && r.w >= 0 && r.h >= 0
    ensures item.Roi().Ok?
    ensures var b, r, s := item.Roi().value, item.contour.rect, item.scale;
      && b.topLeft.x as real <= r.x as real / s < b.topLeft.x as real + 1.0
      && b.topLeft.y as real <= r.y as real / s < b.topLeft.y as real + 1.0
      && b.bottomRight.x as real <= (r.x + r.w) as real / s < b.bottomRight.x as real + 2.0
      && b.bottomRight.y as real <= (r.y + r.h) as real / s < b.bottomRight.y as real + 2.0
      && b.topLeft.x <= b.bottomRight.x && b.topLeft.y <= b.bottomRight.y
  {
    var r, s := item.contour.rect, item.scale;
    assert (r.x + r.w) as real / s == r.x as real / s + r.w as real / s;
    assert (r.y + r.h) as real / s == r.y as real / s + r.h as real / s;
    assert r.x as real / s >= 0.0 && r.w as real / s >= 0.0;
    assert r.y as real / s >= 0.0 && r.h as real / s >= 0.0;
  }

  /** Ties go to the even tenth, on the exact value. The ties below are exact
      binary fractions, so Python's `round` treats them the same way. */
  lemma RoundTiesToEven()
    ensures RoundTenth(0.25) == 0.2 && RoundTenth(0.75) == 0.8 && RoundTenth(1.25) == 1.2
    ensures RoundTenth(1.96) == 2.0
  {
    assert (0.25 * 10.0).Floor == 2;
    assert (0.75 * 10.0).Floor == 7;
    assert (1.25 * 10.0).Floor == 12;
    assert (1.96 * 10.0).Floor == 19;
  }
}
