/** The pure part of the measurement tools: the three unit formatters and the
    angle routine of the angle tool. Lengths and areas on the sphere come from
    OpenLayers and enter here as plain reals. */
module MeasureFormat {
  import opened Geo

  /** A formatted measurement value. The number shown is `hundredths / 100`
      (`Math.round(v * 100) / 100`), or the angle in degrees with one decimal. */
  datatype Label =
    | Metres(hundredths: int)
    | Kilometres(hundredths: int)
    | SquareMetres(hundredths: int)
    | SquareKilometres(hundredths: int)
    | Degrees(value: real)

  /** How many base units (metres or square metres) one displayed unit stands for. */
  function Scale(l: Label): real
  {
    match l
    case Kilometres(_) => 1000.0
    case SquareKilometres(_) => 1000000.0
    case _ => 1.0
  }

  function Hundredths(l: Label): int
    requires !l.Degrees?
  {
    l.hundredths
  }

  /** The displayed number, converted back to base units, is within half a
      hundredth of a displayed unit of the measured value. */
  ghost predicate Shows(l: Label, v: real)
    requires !l.Degrees?
  {
    var shown := Hundredths(l) as real / 100.0 * Scale(l);
    -Scale(l) / 200.0 < shown - v <= Scale(l) / 200.0
  }

  /** `formatLength`: kilometres only for lengths strictly above 1000 m. */
  function FormatLength(length: real): (r: Label)
    ensures r.Kilometres? <==> length > 1000.0
    ensures r.Metres? <==> length <= 1000.0
    ensures Shows(r, length)
  {
    if length > 1000.0 then Kilometres(Round(length / 1000.0 * 100.0))
    else Metres(Round(length * 100.0))
  }

  /** `formatArea`: square kilometres only for areas strictly above 1 000 000 m². */
  function FormatArea(area: real): (r: Label)
    ensures r.SquareKilometres? <==> area > 1000000.0
    ensures r.SquareMetres? <==> area <= 1000000.0
    ensures Shows(r, area)
  {
    if area > 1000000.0 then SquareKilometres(Round(area / 1000000.0 * 100.0))
    else SquareMetres(Round(area * 100.0))
  }

  /** The radius `formatRadius` reads off a geometry: the radius of a circle,
      the planar distance from the interior point to the first vertex of a
      polygon's outer ring, and 0 otherwise. */
  function RadiusOf(sdk: Sdk, g: Geometry): (r: real)
    ensures g.Circle? ==> r == g.radius
    ensures (g.Point? || g.LineString?) ==> r == 0.0
    ensures g.Polygon? && (|g.rings| == 0 || |g.rings[0]| == 0) ==> r == 0.0
    ensures g.Polygon? && |g.rings| > 0 && |g.rings[0]| > 0 ==>
              r == SegmentLength(sdk, sdk.interiorPoint(g.rings), g.rings[0][0])
  {
    match g
    case Circle(_, radius) => radius
    case Polygon(rings) =>
      if |rings| > 0 && |rings[0]| > 0 then SegmentLength(sdk, sdk.interiorPoint(rings), rings[0][0])
      else 0.0
    case _ => 0.0
  }

  /** `formatRadius`: the radius formatted with the same thresholds as a length. */
  function FormatRadius(sdk: Sdk, g: Geometry): (r: Label)
    ensures r.Kilometres? <==> RadiusOf(sdk, g) > 1000.0
    ensures r.Metres? <==> RadiusOf(sdk, g) <= 1000.0
    ensures Shows(r, RadiusOf(sdk, g))
    ensures (g.Point? || g.LineString?) ==> r == Metres(0)
    ensures g.Polygon? && (g.rings == [] || g.rings[0] == []) ==> r == Metres(0)
    ensures g.Circle? ==> r == FormatLength(g.radius)
  {
    var radius := RadiusOf(sdk, g);
    if radius > 1000.0 then Kilometres(Round(radius / 1000.0 * 100.0))
    else Metres(Round(radius * 100.0))
  }

  /** `Math.PI`. */
  const Pi: real := 3.141592653589793

  /** `Math.max(-1, Math.min(1, x))`. */
  function Clamp(x: real): (r: real)
    ensures -1.0 <= r <= 1.0
    ensures -1.0 <= x <= 1.0 ==> r == x
  {
    Max(-1.0, Min(1.0, x))
  }

  /** The clamped cosine of the angle at `b`; absent when a point is missing
      or either ray has length 0 (the early `return 0` cases). */
  function AngleCosine(sdk: Sdk, a: Option<Coord>, b: Option<Coord>, c: Option<Coord>): (r: Option<real>)
    ensures r.Some? ==> -1.0 <= r.value <= 1.0
    ensures (a.None? || b.None? || c.None?) ==> r.None?
  {
    if a.None? || b.None? || c.None? then None
    else
      var ux, uy := a.value.x - b.value.x, a.value.y - b.value.y;
      var vx, vy := c.value.x - b.value.x, c.value.y - b.value.y;
      var nu, nv := sdk.hypot(ux, uy), sdk.hypot(vx, vy);
      if nu == 0.0 || nv == 0.0 then None
      else Some(Clamp((ux * vx + uy * vy) / (nu * nv)))
  }

  /** `calculateAngleDegrees`: the angle at `b` in degrees, rounded to one decimal. */
  function CalculateAngleDegrees(sdk: Sdk, a: Option<Coord>, b: Option<Coord>, c: Option<Coord>): (r: real)
    ensures AngleCosine(sdk, a, b, c).None? ==> r == 0.0
    ensures AngleCosine(sdk, a, b, c).Some? ==>
              -1.0 / 20.0 < r - sdk.acos(AngleCosine(sdk, a, b, c).value) * 180.0 / Pi <= 1.0 / 20.0
  {
    match AngleCosine(sdk, a, b, c)
    case None => 0.0
    case Some(cos) => Round(sdk.acos(cos) * 180.0 / Pi * 10.0) as real / 10.0
  }

  /** `formatAngleValue`: the degrees with one decimal and the degree sign. */
  function FormatAngleValue(deg: real): (r: Label)
    ensures r.Degrees? && r.value == deg
  {
    Degrees(deg)
  }

  /** The angle does not depend on which ray is named first. */
  lemma AngleSymmetric(sdk: Sdk, a: Option<Coord>, b: Option<Coord>, c: Option<Coord>)
    ensures AngleCosine(sdk, a, b, c) == AngleCosine(sdk, c, b, a)
    ensures CalculateAngleDegrees(sdk, a, b, c) == CalculateAngleDegrees(sdk, c, b, a)
  {
    if a.Some? && b.Some? && c.Some? {
      var ux, uy := a.value.x - b.value.x, a.value.y - b.value.y;
      var vx, vy := c.value.x - b.value.x, c.value.y - b.value.y;
      assert ux * vx + uy * vy == vx * ux + vy * uy;
      assert sdk.hypot(ux, uy) * sdk.hypot(vx, vy) == sdk.hypot(vx, vy) * sdk.hypot(ux, uy);
    }
  }

  /** A click on the vertex itself leaves a ray of length 0, and the angle is the
      sentinel 0 whatever the third point, given that `hypot(0, 0)` is 0. */
  lemma AngleDegenerateRay(sdk: Sdk, a: Coord, b: Coord, c: Coord)
    requires sdk.hypot(0.0, 0.0) == 0.0
    requires a == b || c == b
    ensures AngleCosine(sdk, Some(a), Some(b), Some(c)).None?
    ensures CalculateAngleDegrees(sdk, Some(a), Some(b), Some(c)) == 0.0
  {
    if a == b {
      assert a.x - b.x == 0.0 && a.y - b.y == 0.0;
    } else {
      assert c.x - b.x == 0.0 && c.y - b.y == 0.0;
    }
  }
}
