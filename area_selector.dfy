/** The rectangular area selection of the map editor: after the selection
    mode is switched on, a first click fixes one corner, the pointer drags a
    dashed preview rectangle, a second click fixes the opposite corner and
    draws the final rectangle, which the image editor later captures. */
module AreaSelector {
  import opened Geo

  /** The axis-aligned box spanned by two corners: `lo` holds the minimum,
      `hi` the maximum of each axis (`Math.min`/`Math.max` per axis). */
  datatype Extent = Extent(lo: Coord, hi: Coord)

  /** The box spanned by two clicks, whichever way round they were made. */
  function Span(a: Coord, b: Coord): (e: Extent)
    ensures e.lo.x <= e.hi.x && e.lo.y <= e.hi.y
    ensures (e.lo.x == a.x && e.hi.x == b.x) || (e.lo.x == b.x && e.hi.x == a.x)
    ensures (e.lo.y == a.y && e.hi.y == b.y) || (e.lo.y == b.y && e.hi.y == a.y)
  {
    Extent(Coord(Min(a.x, b.x), Min(a.y, b.y)), Coord(Max(a.x, b.x), Max(a.y, b.y)))
  }

  /** The outer ring of the rectangle polygon built from two clicks: the four
      corners from the minimum corner round, closed by repeating the first. */
  function RectangleRing(a: Coord, b: Coord): (r: seq<Coord>)
    ensures |r| == 5 && r[0] == r[4]
  {
    var e := Span(a, b);
    [e.lo, Coord(e.hi.x, e.lo.y), e.hi, Coord(e.lo.x, e.hi.y), e.lo]
  }

  /** The ring is a closed axis-aligned rectangle from the minimum to the
      maximum corner, with both clicks among its corners and every point
      inside the box the clicks span. */
  lemma RectangleRingShape(a: Coord, b: Coord)
    ensures var r := RectangleRing(a, b);
            && |r| == 5 && r[0] == r[4]
            && r[0] == Span(a, b).lo && r[2] == Span(a, b).hi
            && a in r[..4] && b in r[..4]
            && (forall i :: 0 <= i < 4 ==> r[i].x == r[i + 1].x || r[i].y == r[i + 1].y)
            && (forall i :: 0 <= i < 5 ==>
                  Span(a, b).lo.x <= r[i].x <= Span(a, b).hi.x && Span(a, b).lo.y <= r[i].y <= Span(a, b).hi.y)
  {
    var r := RectangleRing(a, b);
    assert a == r[0] || a == r[1] || a == r[2] || a == r[3];
    assert b == r[0] || b == r[1] || b == r[2] || b == r[3];
  }

  /** Swapping the two clicks draws the same rectangle. */
  lemma {:induction false} RectangleRingSymmetric(a: Coord, b: Coord)
    ensures Span(a, b) == Span(b, a)
    ensures RectangleRing(a, b) == RectangleRing(b, a)
  {
    var e, f := Span(a, b), Span(b, a);
    assert e.lo.x == f.lo.x && e.hi.x == f.hi.x;
    assert e.lo.y == f.lo.y && e.hi.y == f.hi.y;
  }

  /** What `updateAreaInfo` reports: the minimum and maximum corners and the
      width and height of the selected box. */
  datatype AreaInfo = AreaInfo(topLeft: Coord, bottomRight: Coord, width: real, height: real)

  function Abs(x: real): (r: real)
    ensures r >= 0.0 && (r == x || r == -x)
  {
    if x < 0.0 then -x else x
  }

  /** `updateAreaInfo`: nothing unless both corners are set; the width and
      height are never negative and are the distances between the clicks
      along each axis. */
  function AreaInfoOf(start: Option<Coord>, end: Option<Coord>): (r: Option<AreaInfo>)
    ensures r.Some? <==> start.Some? && end.Some?
    ensures r.Some? ==> r.value.width >= 0.0 && r.value.height >= 0.0
    ensures r.Some? ==>
              r.value.width == Abs(start.value.x - end.value.x) && r.value.height == Abs(start.value.y - end.value.y)
    ensures r.Some? ==>
              r.value.topLeft == Span(start.value, end.value).lo && r.value.bottomRight == Span(start.value, end.value).hi
  {
    if start.None? || end.None? then None
    else
      var e := Span(start.value, end.value);
      Some(AreaInfo(e.lo, e.hi, e.hi.x - e.lo.x, e.hi.y - e.lo.y))
  }

  /** Identifies a vector layer this module has added to the map. */
  type LayerId = nat

  /** The outcome of `openFabricEditor`: refused with an alert when a corner
      is missing, stopped when there is no map, or the capture of `area` under way. */
  datatype Capture = Refused | NoMap | Capturing(area: Extent)

  /** Every layer on the map is the preview or the final rectangle, and both
      handles are older than the next fresh one. */
  ghost predicate Tracked(layers: map<LayerId, seq<Coord>>, temp: Option<LayerId>, selection: Option<LayerId>, next: LayerId)
  {
    && (forall l :: l in layers ==> Some(l) == temp || Some(l) == selection)
    && (temp.Some? ==> temp.value < next)
    && (selection.Some? ==> selection.value < next)
  }

  /** The layer `handle` names, when it is on the map, shows the rectangle
      with corners `a` and `b`. */
  ghost predicate Draws(layers: map<LayerId, seq<Coord>>, handle: Option<LayerId>, a: Coord, b: Coord)
  {
    handle.Some? && handle.value in layers ==> layers[handle.value] == RectangleRing(a, b)
  }

  /** Taking both rectangles off the map leaves none of the module's layers on it. */
  lemma Untracked(layers: map<LayerId, seq<Coord>>, temp: Option<LayerId>, selection: Option<LayerId>, next: LayerId)
    requires Tracked(layers, temp, selection, next)
    ensures layers - OptSet(selection) - OptSet(temp) == map[]
    ensures layers - OptSet(temp) - OptSet(selection) == map[]
  {
    assert (layers - OptSet(selection) - OptSet(temp)).Keys == {};
    assert (layers - OptSet(temp) - OptSet(selection)).Keys == {};
  }

  /** Replacing the preview by a fresh layer keeps every layer tracked and
      leaves the final rectangle as it was. */
  lemma PreviewReplaced(layers: map<LayerId, seq<Coord>>, temp: Option<LayerId>, selection: Option<LayerId>, next: LayerId,
                        from: Coord, to: Coord, selectedFrom: Coord, selectedTo: Coord)
    requires Tracked(layers, temp, selection, next) && Draws(layers, selection, selectedFrom, selectedTo)
    ensures var after := (layers - OptSet(temp))[next := RectangleRing(from, to)];
            Tracked(after, Some(next), selection, next + 1)
            && Draws(after, Some(next), from, to) && Draws(after, selection, selectedFrom, selectedTo)
  {
  }

  /** A final rectangle alone on the map, under a fresh handle, is tracked. */
  lemma OnlySelection(next: LayerId, a: Coord, b: Coord, from: Coord, to: Coord)
    ensures var layers := map[next := RectangleRing(a, b)];
            layers.Keys == {next} && Tracked(layers, None, Some(next), next + 1)
            && Draws(layers, Some(next), a, b) && Draws(layers, None, from, to)
  {
  }

  /** The module variables of the area selector, with the rectangle layers it
      has put on the map. */
  class Selector {
    /** Whether `getMap()` returns a map; every operation but the two
        handlers returns at once without one. */
    const hasMap: bool
    var isAreaSelecting: bool
    var isDragging: bool
    var startCoordinate: Option<Coord>
    var endCoordinate: Option<Coord>
    var tempRectangle: Option<LayerId>
    var selectionRectangle: Option<LayerId>
    /** The rectangle layers of this module that are on the map, each with the
        outer ring of its one polygon. */
    var mapLayers: map<LayerId, seq<Coord>>
    var nextLayer: LayerId
    /** The two corners the preview rectangle was last drawn from. */
    ghost var previewFrom: Coord
    ghost var previewTo: Coord
    /** The two corners the final rectangle was drawn from. */
    ghost var selectedFrom: Coord
    ghost var selectedTo: Coord

    /** No rectangle is on the map that the module has lost track of; each
        rectangle on the map is the ring of the corners it was drawn from; a
        drag only runs from a first click. */
    ghost predicate Valid()
      reads this
    {
      && (!hasMap ==> mapLayers == map[])
      && Tracked(mapLayers, tempRectangle, selectionRectangle, nextLayer)
      && Draws(mapLayers, tempRectangle, previewFrom, previewTo)
      && Draws(mapLayers, selectionRectangle, selectedFrom, selectedTo)
      && (isDragging ==> startCoordinate.Some? && endCoordinate.None?)
      && (endCoordinate.Some? ==> startCoordinate.Some?)
    }

    /** The module's initial variables. */
    constructor (hasMap: bool)
      ensures Valid() && this.hasMap == hasMap
      ensures !isAreaSelecting && !isDragging
      ensures startCoordinate.None? && endCoordinate.None?
      ensures tempRectangle.None? && selectionRectangle.None? && mapLayers == map[]
    {
      this.hasMap := hasMap;
      isAreaSelecting, isDragging := false, false;
      startCoordinate, endCoordinate := None, None;
      tempRectangle, selectionRectangle := None, None;
      mapLayers, nextLayer := map[], 0;
      previewFrom, previewTo := Coord(0.0, 0.0), Coord(0.0, 0.0);
      selectedFrom, selectedTo := Coord(0.0, 0.0), Coord(0.0, 0.0);
    }

    /** `startAreaSelection`: selection mode on, and any earlier selection
        cleared, so the next click is a first click. */
    method Start()
      requires Valid()
      modifies this
      ensures Valid()
      ensures !hasMap ==> unchanged(this)
      ensures hasMap ==> isAreaSelecting && !isDragging
                         && startCoordinate.None? && endCoordinate.None?
                         && tempRectangle.None? && selectionRectangle.None? && mapLayers == map[]
    {
      if !hasMap {
        return;
      }
      isAreaSelecting := true;
      Clear();
    }

    /** `stopAreaSelection`: selection mode and dragging off, nothing else changed. */
    method Stop()
      requires Valid()
      modifies this`isAreaSelecting, this`isDragging
      ensures Valid()
      ensures !hasMap ==> unchanged(this)
      ensures hasMap ==> !isAreaSelecting && !isDragging
    {
      if !hasMap {
        return;
      }
      isAreaSelecting, isDragging := false, false;
    }

    /** `clearAreaSelection`: both rectangles off the map and forgotten, both
        corners cleared, dragging off; the selection mode is left as it was. */
    method Clear()
      requires Valid()
      modifies this`selectionRectangle, this`tempRectangle, this`mapLayers,
               this`startCoordinate, this`endCoordinate, this`isDragging
      ensures Valid()
      ensures !hasMap ==> unchanged(this)
      ensures hasMap ==> mapLayers == map[] && tempRectangle.None? && selectionRectangle.None?
                         && startCoordinate.None? && endCoordinate.None? && !isDragging
    {
      if !hasMap {
        return;
      }
      if selectionRectangle.Some? {
        mapLayers := mapLayers - {selectionRectangle.value};
        selectionRectangle := None;
      }
      if tempRectangle.Some? {
        mapLayers := mapLayers - {tempRectangle.value};
        tempRectangle := None;
      }
      startCoordinate, endCoordinate := None, None;
      isDragging := false;
    }

    /** `handleMapClick`: ignored outside selection mode; the first click
        fixes the start corner and starts the drag; the second fixes the end
        corner, draws the final rectangle and leaves selection mode. */
    method HandleMapClick(c: Coord)
      requires Valid()
      modifies this
      ensures Valid()
      ensures !old(isAreaSelecting) ==> unchanged(this)
      ensures old(isAreaSelecting) && old(startCoordinate).None? ==>
                startCoordinate == Some(c) && isDragging && isAreaSelecting && endCoordinate.None?
                && mapLayers == old(mapLayers) && nextLayer == old(nextLayer)
                && tempRectangle == old(tempRectangle) && selectionRectangle == old(selectionRectangle)
      ensures old(isAreaSelecting) && old(startCoordinate).Some? ==>
                startCoordinate == old(startCoordinate) && endCoordinate == Some(c) && !isDragging
      ensures old(isAreaSelecting) && old(startCoordinate).Some? && hasMap ==>
                !isAreaSelecting && tempRectangle.None? && selectionRectangle.Some?
                && mapLayers.Keys == {selectionRectangle.value}
                && Draws(mapLayers, selectionRectangle, old(startCoordinate).value, c)
      ensures old(isAreaSelecting) && old(startCoordinate).Some? && !hasMap ==>
                isAreaSelecting && mapLayers == old(mapLayers) && nextLayer == old(nextLayer)
                && tempRectangle == old(tempRectangle) && selectionRectangle == old(selectionRectangle)
    {
      if !isAreaSelecting {
        return;
      }
      if startCoordinate.None? {
        startCoordinate := Some(c);
        isDragging := true;
      } else {
        endCoordinate := Some(c);
        isDragging := false;
        CreateSelectionRectangle();
        Stop();
      }
    }

    /** `handleMapPointerMove`: while a drag is under way, the preview is
        redrawn from the start corner to the pointer; otherwise nothing. */
    method HandleMapPointerMove(c: Coord)
      requires Valid()
      modifies this`tempRectangle, this`mapLayers, this`nextLayer, this`previewFrom, this`previewTo
      ensures Valid()
      ensures isAreaSelecting == old(isAreaSelecting) && isDragging == old(isDragging)
      ensures startCoordinate == old(startCoordinate) && endCoordinate == old(endCoordinate)
      ensures !(old(isAreaSelecting) && old(isDragging) && old(startCoordinate).Some?) ==> unchanged(this)
      ensures !hasMap ==> unchanged(this)
      ensures old(isAreaSelecting) && old(isDragging) && old(startCoordinate).Some? && hasMap ==>
                tempRectangle == Some(old(nextLayer)) && selectionRectangle == old(selectionRectangle)
                && mapLayers == (old(mapLayers) - OptSet(old(tempRectangle)))[tempRectangle.value := RectangleRing(old(startCoordinate).value, c)]
    {
      if !isAreaSelecting || !isDragging || startCoordinate.None? {
        return;
      }
      UpdateTempRectangle(startCoordinate.value, c);
    }

    /** `updateTempRectangle`: the old preview off the map, a new one from
        `from` to `to` on it under a fresh layer. */
    method UpdateTempRectangle(from: Coord, to: Coord)
      requires Valid()
      modifies this`tempRectangle, this`mapLayers, this`nextLayer, this`previewFrom, this`previewTo
      ensures Valid()
      ensures !hasMap ==> unchanged(this)
      ensures hasMap ==> tempRectangle == Some(old(nextLayer))
                         && mapLayers == (old(mapLayers) - OptSet(old(tempRectangle)))[old(nextLayer) := RectangleRing(from, to)]
    {
      if !hasMap {
        return;
      }
      PreviewReplaced(mapLayers, tempRectangle, selectionRectangle, nextLayer, from, to, selectedFrom, selectedTo);
      mapLayers := mapLayers - OptSet(tempRectangle);
      tempRectangle := Some(nextLayer);
      mapLayers := mapLayers[nextLayer := RectangleRing(from, to)];
      nextLayer := nextLayer + 1;
      previewFrom, previewTo := from, to;
    }

    /** `createSelectionRectangle`: with both corners set, the preview and
        any earlier final rectangle off the map and the new final rectangle
        the only one on it. */
    method CreateSelectionRectangle()
      requires Valid()
      modifies this`tempRectangle, this`selectionRectangle, this`mapLayers, this`nextLayer,
               this`selectedFrom, this`selectedTo
      ensures Valid()
      ensures !(hasMap && startCoordinate.Some? && endCoordinate.Some?) ==> unchanged(this)
      ensures hasMap && startCoordinate.Some? && endCoordinate.Some? ==>
                tempRectangle.None? && selectionRectangle == Some(old(nextLayer))
                && mapLayers.Keys == {old(nextLayer)} && Draws(mapLayers, selectionRectangle, startCoordinate.value, endCoordinate.value)
    {
      if !hasMap || startCoordinate.None? || endCoordinate.None? {
        return;
      }
      var a, b := startCoordinate.value, endCoordinate.value;
      Untracked(mapLayers, tempRectangle, selectionRectangle, nextLayer);
      // the earlier final rectangle and the preview, when there are any, come off the map
      mapLayers := mapLayers - OptSet(selectionRectangle) - OptSet(tempRectangle);
      tempRectangle := None;
      var ring := RectangleRing(a, b);
      OnlySelection(nextLayer, a, b, previewFrom, previewTo);
      selectionRectangle := Some(nextLayer);
      mapLayers := mapLayers[nextLayer := ring];
      assert mapLayers == map[nextLayer := ring];
      nextLayer := nextLayer + 1;
      selectedFrom, selectedTo := a, b;
    }

    /** `openFabricEditor` with the synchronous part of `captureMapArea`:
        refused unless both corners are set; otherwise both rectangles are
        taken off the map before the capture of the selected box, while the
        variables keep naming them. */
    method OpenFabricEditor() returns (r: Capture)
      requires Valid()
      modifies this`mapLayers
      ensures Valid()
      ensures r.Refused? <==> startCoordinate.None? || endCoordinate.None?
      ensures r.NoMap? <==> startCoordinate.Some? && endCoordinate.Some? && !hasMap
      ensures !r.Capturing? ==> mapLayers == old(mapLayers)
      ensures r.Capturing? ==> r.area == Span(startCoordinate.value, endCoordinate.value) && mapLayers == map[]
    {
      if startCoordinate.None? || endCoordinate.None? {
        return Refused;
      }
      if !hasMap {
        return NoMap;
      }
      var area := Span(startCoordinate.value, endCoordinate.value);
      if selectionRectangle.Some? {
        mapLayers := mapLayers - {selectionRectangle.value};
      }
      if tempRectangle.Some? {
        mapLayers := mapLayers - {tempRectangle.value};
      }
      return Capturing(area);
    }
  }
}
