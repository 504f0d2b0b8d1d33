/** The two pure helpers of the utility module: the "distance" between two
    coordinates and the metre/kilometre formatter. */
module Helpers {
  import opened Geo

  /** The text `formatDistance` produces: `"<n>m"` or `"<k>km"` with two decimals. */
  datatype DistanceText =
    | Meters(whole: int)            // `${Math.round(meters)}m`
    | Kilometers(hundredths: int)   // `${(meters / 1000).toFixed(2)}km`

  /** What `calculateDistance` returns: only the x difference, despite its name. */
  function CalculateDistance(c1: Coord, c2: Coord): (r: real)
    ensures r == 0.0 <==> c1.x == c2.x
    ensures r > 0.0 <==> c1.x > c2.x
  {
    c1.x - c2.x
  }

  /** The y components never matter, and swapping the arguments negates the result. */
  lemma CalculateDistanceShape(c1: Coord, c2: Coord, y1: real, y2: real)
    ensures CalculateDistance(c1, c2) == CalculateDistance(Coord(c1.x, y1), Coord(c2.x, y2))
    ensures CalculateDistance(c1, c2) == -CalculateDistance(c2, c1)
  {
  }

  function FormatDistance(meters: real): (r: DistanceText)
    ensures r.Meters? <==> meters < 1000.0
    ensures r.Meters? ==> -1.0 / 2.0 < r.whole as real - meters <= 1.0 / 2.0
    ensures r.Kilometers? ==> r.hundredths >= 100
    ensures r.Kilometers? ==> -5.0 < r.hundredths as real * 10.0 - meters <= 5.0
  {
    if meters < 1000.0 then Meters(Round(meters)) else Kilometers(Round(meters / 1000.0 * 100.0))
  }

  /** Exactly 1000 m is already written in kilometres, as "1.00km". */
  lemma FormatDistanceAtThousand()
    ensures FormatDistance(1000.0) == Kilometers(100)
  {
  }
}
