/** The road-view panel: the conversion of the OpenLayers zoom to a Kakao map
    level, the query the panel's frame is opened with, and the state of the
    road-view button. */
module Roadview {
  import opened Geo

  /** What `getZoom()` can hand over: no zoom yet, a number that is not a
      number, or a zoom value. */
  datatype Zoom = Undefined | NaN | Value(z: real)

  /** `undefined`, `NaN` and `0` are falsy in `vworldZoom || 10`. */
  predicate Falsy(zoom: Zoom)
  {
    zoom.Undefined? || zoom.NaN? || zoom == Value(0.0)
  }

  /** `Math.max(0, Number(vworldZoom || 10))`. */
  function EffectiveZoom(zoom: Zoom): (r: real)
    ensures r >= 0.0
    ensures Falsy(zoom) ==> r == 10.0
    ensures zoom.Value? && zoom.z < 0.0 ==> r == 0.0
    ensures zoom.Value? && zoom.z > 0.0 ==> r == zoom.z
  {
    if Falsy(zoom) then 10.0 else Max(0.0, zoom.z)
  }

  /** The level for an effective zoom: 14 up to zoom 2, 1 from zoom 21 on,
      the rounded linear interpolation between, clamped to 1..14. */
  function LevelAt(z: real): (r: int)
    ensures 1 <= r <= 14
    ensures z <= 2.0 ==> r == 14
    ensures z >= 21.0 ==> r == 1
  {
    var level :=
      if z <= 2.0 then 14
      else if z >= 21.0 then 1
      else Round(14.0 - (z - 2.0) * 13.0 / 19.0);
    if level < 1 then 1 else if level > 14 then 14 else level
  }

  /** `olZoomToKakaoLevel`. */
  function OlZoomToKakaoLevel(zoom: Zoom): (r: int)
    ensures 1 <= r <= 14
  {
    LevelAt(EffectiveZoom(zoom))
  }

  /** Zooming in never raises the level. */
  lemma LevelAtMonotone(a: real, b: real)
    requires a <= b
    ensures LevelAt(a) >= LevelAt(b)
  {
    if 2.0 < a && b < 21.0 {
      assert 14.0 - (b - 2.0) * 13.0 / 19.0 <= 14.0 - (a - 2.0) * 13.0 / 19.0;
      RoundMonotone(14.0 - (b - 2.0) * 13.0 / 19.0, 14.0 - (a - 2.0) * 13.0 / 19.0);
    }
  }

  /** Between zoom 2 and 21 the rounded interpolation is already a level, so
      the clamp leaves it alone. */
  lemma {:induction false} LevelAtInterpolates(z: real)
    requires 2.0 < z < 21.0
    ensures LevelAt(z) == Round(14.0 - (z - 2.0) * 13.0 / 19.0)
  {
    var v := 14.0 - (z - 2.0) * 13.0 / 19.0;
    assert 1.0 < v < 14.0;
  }

  /** A missing, non-numeric or zero zoom is read as zoom 10, level 9; a
      negative zoom as zoom 0, level 14. */
  lemma OlZoomEdgeCases(zoom: Zoom)
    ensures Falsy(zoom) ==> OlZoomToKakaoLevel(zoom) == 9
    ensures zoom.Value? && zoom.z < 0.0 ==> OlZoomToKakaoLevel(zoom) == 14
  {
    if Falsy(zoom) {
      LevelAtInterpolates(10.0);
      assert 14.0 - (10.0 - 2.0) * 13.0 / 19.0 == 162.0 / 19.0;
    }
  }

  /** The parameters of the panel's frame: position, search radius in
      metres and Kakao level. */
  datatype RoadviewQuery = RoadviewQuery(lon: real, lat: real, radius: real, level: int)

  /** The defaulting in `drawRoadView`: the map centre unless the options
      carry a two-element coordinate array, radius 200 unless the options
      carry a number, and the level converted from the map's zoom. */
  function QueryFor(center: Coord, zoom: Zoom, coordinate: Option<seq<real>>, radius: Option<real>): (q: RoadviewQuery)
    ensures 1 <= q.level <= 14 && q.level == OlZoomToKakaoLevel(zoom)
    ensures radius.None? ==> q.radius == 200.0
    ensures radius.Some? ==> q.radius == radius.value
    ensures coordinate.Some? && |coordinate.value| == 2 ==>
              q.lon == coordinate.value[0] && q.lat == coordinate.value[1]
    ensures !(coordinate.Some? && |coordinate.value| == 2) ==> q.lon == center.x && q.lat == center.y
  {
    var lonLat :=
      if coordinate.Some? && |coordinate.value| == 2 then Coord(coordinate.value[0], coordinate.value[1])
      else center;
    RoadviewQuery(lonLat.x, lonLat.y, if radius.Some? then radius.value else 200.0, OlZoomToKakaoLevel(zoom))
  }

  /** The element id `toggleRoadviewBtn` opens and closes. */
  const PanelTag: string := "roadviewPanel"

  /** What `drawRoadView` reads from the map's view: its centre, in
      longitude and latitude, and its zoom. */
  datatype MapView = MapView(center: Coord, zoom: Zoom)

  /** The module flag `roadviewBtnActive` and the open road-view panels. */
  class RoadviewState {
    /** Whether the page has the `loadviewBtn` element. */
    const hasButton: bool
    var btnActive: bool
    /** The road-view containers in the document, by element id, each with
        the query of its frame. */
    var panels: map<string, RoadviewQuery>

    constructor (hasButton: bool)
      ensures this.hasButton == hasButton && !btnActive && panels == map[]
    {
      this.hasButton := hasButton;
      btnActive, panels := false, map[];
    }

    /** `drawRoadView(tag, options)` given the view of `getMap()`, if there is
        a map: the container `tag` is created or emptied and shows the frame
        for the resolved query. Without a map, reading its view throws, the
        error is caught and logged, and no panel changes. */
    method DrawRoadView(tag: string, view: Option<MapView>, coordinate: Option<seq<real>>, radius: Option<real>)
      modifies this`panels
      ensures view.None? ==> panels == old(panels)
      ensures view.Some? ==>
                panels == old(panels)[tag := QueryFor(view.value.center, view.value.zoom, coordinate, radius)]
    {
      if view.None? {
        return;
      }
      panels := panels[tag := QueryFor(view.value.center, view.value.zoom, coordinate, radius)];
    }

    /** `toggleRoadviewBtn`: nothing without the button; otherwise the flag
        flips, and the panel opens when it turns on (if there is a map to read
        the view of) and closes when it turns off. */
    method ToggleRoadviewBtn(view: Option<MapView>)
      modifies this
      ensures !hasButton ==> unchanged(this)
      ensures hasButton ==> btnActive == !old(btnActive)
      ensures hasButton && btnActive && view.Some? ==>
                panels == old(panels)[PanelTag := QueryFor(view.value.center, view.value.zoom, None, None)]
      ensures hasButton && btnActive && view.None? ==> panels == old(panels)
      ensures hasButton && !btnActive ==> panels == old(panels) - {PanelTag}
    {
      if !hasButton {
        return;
      }
      btnActive := !btnActive;
      if btnActive {
        DrawRoadView(PanelTag, view, None, None);
      } else {
        panels := panels - {PanelTag};
      }
    }

    /** The close button of panel `tag`: the panel removed and the flag off. */
    method ClosePanel(tag: string)
      modifies this
      ensures !btnActive && panels == old(panels) - {tag}
    {
      panels := panels - {tag};
      btnActive := false;
    }
  }
}
