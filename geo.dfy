/** Value types shared by the map modules: planar coordinates, the geometry
    kinds the measurement code inspects, the numeric routines the code
    borrows from the browser and from OpenLayers, kept opaque, and the flag
    flip the layer toggles share. */
module Geo {

  datatype Option<+T> = None | Some(value: T)

  /** The handle an optional variable holds, as a set: empty when it is null. */
  function OptSet<T>(o: Option<T>): set<T>
  {
    if o.Some? then {o.value} else {}
  }

  /** A projected (planar) map coordinate, `[x, y]` in the source. */
  datatype Coord = Coord(x: real, y: real)

  /** The geometry kinds that `getType()` distinguishes in the measurement code. */
  datatype Geometry =
    | Point(at: Coord)
    | LineString(coords: seq<Coord>)
    | Polygon(rings: seq<seq<Coord>>)
    | Circle(center: Coord, radius: real)

  /** Numeric routines the source takes from the platform and from OpenLayers.
      Nothing is assumed about them beyond their types. */
  datatype Sdk = Sdk(
    hypot: (real, real) -> real,                // Math.hypot
    acos: real -> real,                         // Math.acos
    interiorPoint: seq<seq<Coord>> -> Coord,    // Polygon.getInteriorPoint
    circleRing: (Coord, real) -> seq<Coord>)    // Polygon.fromCircle(circle, 128), outer ring

  /** JavaScript's `Math.round`: halves go up. */
  function Round(x: real): (r: int)
    ensures x - 1.0 / 2.0 < r as real <= x + 1.0 / 2.0
  {
    (x + 1.0 / 2.0).Floor
  }

  function Min(a: real, b: real): (r: real)
    ensures r <= a && r <= b && (r == a || r == b)
  {
    if a <= b then a else b
  }

  function Max(a: real, b: real): (r: real)
    ensures r >= a && r >= b && (r == a || r == b)
  {
    if a <= b then b else a
  }

  /** Rounding never goes down when its argument goes up. */
  lemma RoundMonotone(x: real, y: real)
    requires x <= y
    ensures Round(x) <= Round(y)
  {
  }

  /** Planar length of the two-point line `[a, b]` (OpenLayers `getLength`). */
  function SegmentLength(sdk: Sdk, a: Coord, b: Coord): (r: real)
    ensures a == b ==> r == sdk.hypot(0.0, 0.0)
  {
    sdk.hypot(b.x - a.x, b.y - a.y)
  }

  /** The length of a segment depends only on the displacement from its
      first point to its second: moving both points by the same offset
      leaves it unchanged. */
  lemma SegmentLengthShift(sdk: Sdk, a: Coord, b: Coord, dx: real, dy: real)
    ensures SegmentLength(sdk, Coord(a.x + dx, a.y + dy), Coord(b.x + dx, b.y + dy)) == SegmentLength(sdk, a, b)
  {
    assert (b.x + dx) - (a.x + dx) == b.x - a.x;
    assert (b.y + dy) - (a.y + dy) == b.y - a.y;
  }

  /** A dictionary of visibility flags with the flag of `name` inverted; a
      name that is not a key changes nothing. */
  function Flipped(flags: map<string, bool>, name: string): (r: map<string, bool>)
    ensures r.Keys == flags.Keys
    ensures name in flags ==> r[name] == !flags[name]
    ensures forall n :: n in flags && n != name ==> r[n] == flags[n]
  {
    if name in flags then flags[name := !flags[name]] else flags
  }

  /** Flipping the same flag twice restores the dictionary. */
  lemma FlippedTwice(flags: map<string, bool>, name: string)
    ensures Flipped(Flipped(flags, name), name) == flags
  {
  }
}
