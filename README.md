# Map front-end state logic, modelled in Dafny

The web map front-end wires OpenLayers and the Kakao road-view SDK into a
page. Under that wiring sit small pieces of state-holding logic, and this
project models them. Each SDK object is an opaque handle, and each SDK
numeric routine is an uninterpreted function.

- **Measurement tools** (`MeasureFormat`, `MeasureRegistry`, `MeasureAngle`,
  `MeasureRadius`).
  - The unit formatters and the angle routine.
  - The two parallel registries of finished measurements and the popups on
    the map.
  - The angle tool and the radius tool as classes whose fields are the
    variables their closures share.
  - The map and document listeners each run holds, as a set of (run,
    handler) pairs. Subscribing a listener that is already subscribed
    changes nothing.
- **Area selector** (`AreaSelector`).
  - The selection flags and the two corners.
  - The preview and final rectangle layers on the map.
  - The closed 5-point ring built from two clicks.
  - The guard of the image editor.
- **Event manager** (`MapEvents`). The `eventListeners` Map from id to
  records: registration deduplicated per (id, type), teardown per id and
  global, and the listing of (id, type) pairs.
- **Road view** (`Roadview`). The conversion of the OpenLayers zoom to a
  Kakao level, the defaulting of the panel's query, and the button flag.
- **Layer visibility** (`Wms`, `Wfs`, `Layers`).
  - The WMS and WFS visibility and active dictionaries.
  - The cluster styling rules.
  - Background-layer switching and overlay toggling. `map.js` and
    `map-layers.js` carry the same code over their own dictionaries, and
    the class `Layers.LayerSet` models either one.
- **Helpers** (`Helpers`). The x-difference "distance" and the
  metre/kilometre formatter.

The SDK numerics sit in a `Geo.Sdk` value of total functions:
`Math.hypot`, `Math.acos`, `Polygon.getInteriorPoint` and the ring of
`Polygon.fromCircle`. Geodesic lengths and areas enter the formatters as
plain reals. `Math.round` is `floor(x + 1/2)` over the reals. Formatted
strings are label datatypes that carry the displayed number, in hundredths
or tenths, and the unit.

`calculateDistance` (js/utils/helpers.js:32-36) is commented as a distance
in metres. It returns the difference of the x coordinates, and the model
follows the code.

## Model

| member | source | states |
|---|---|---|
| Geo.Round | js/modules/map/map-measure.js:1268 | `Math.round`: the integer is within half a unit of its argument, with halves going up |
| Geo.SegmentLength | js/modules/map/map-measure.js:909-912 | the length of `new ol.geom.LineString([a, b]).getLength()`; a segment with equal ends measures `hypot(0, 0)` |
| Geo.SegmentLengthShift | js/modules/map/map-measure.js:1296 | the length depends only on the displacement between the two points: moving both by the same offset keeps it |
| Geo.Flipped | js/modules/map/map-wms.js:143-148 | a flag toggle inverts exactly the named flag, keeps every other flag and the set of names, and ignores an unknown name |
| Geo.FlippedTwice | js/modules/map/map-wfs.js:202-207 | toggling the same layer twice restores the dictionary |
| Helpers.CalculateDistance | js/utils/helpers.js:32-36 | the result is zero exactly when the x values are equal, and positive exactly when the first x is larger |
| Helpers.CalculateDistanceShape | js/utils/helpers.js:35 | the y coordinates never matter, and swapping the arguments negates the result |
| Helpers.FormatDistance | js/utils/helpers.js:43-49 | metres exactly below 1000, rounded to the nearest metre; otherwise kilometres with two decimals, at least "1.00", within half a hundredth of a kilometre |
| Helpers.FormatDistanceAtThousand | js/utils/helpers.js:44-47 | exactly 1000 m is written "1.00km" |
| MeasureFormat.FormatLength | js/modules/map/map-measure.js:1264-1273 | kilometres exactly when the length is above 1000 (1000 itself stays in metres); the shown number is within half a hundredth of a unit of the length |
| MeasureFormat.FormatArea | js/modules/map/map-measure.js:1276-1285 | square kilometres exactly when the area is above 1 000 000; the shown number is within half a hundredth of a unit of the area |
| MeasureFormat.FormatRadius | js/modules/map/map-measure.js:1288-1312 | the same thresholds and precision for the radius read off the shape; "0 m" for a point, a line or a polygon with no ring or an empty ring; a circle formats like its radius |
| MeasureFormat.RadiusOf | js/modules/map/map-measure.js:1289-1302 | a circle's own radius; for a polygon with a non-empty outer ring, the segment length from its interior point to the ring's first vertex; 0 for a polygon without one and for every other geometry |
| MeasureFormat.Clamp | js/modules/map/map-measure.js:439 | the cosine is clamped to [-1, 1] and left alone inside it |
| MeasureFormat.AngleCosine | js/modules/map/map-measure.js:427-439 | absent when a point is missing; otherwise, when present, in [-1, 1] |
| MeasureFormat.CalculateAngleDegrees | js/modules/map/map-measure.js:427-444 | 0 when a point is missing or a ray has length 0; otherwise within 1/20 of a degree of `acos(cos) * 180 / PI` |
| MeasureFormat.FormatAngleValue | js/modules/map/map-measure.js:446-448 | the label carries the degrees it was given |
| MeasureFormat.AngleSymmetric | js/modules/map/map-measure.js:427-437 | swapping the first and third points leaves the cosine and the angle unchanged |
| MeasureFormat.AngleDegenerateRay | js/modules/map/map-measure.js:434-436 | a click on the vertex gives a ray of length 0 and the angle 0, whatever the third point |
| MeasureRegistry.AnchorOf | js/modules/map/map-measure.js:1159-1167 | a line's popup sits on one of its vertices (none for an empty line); a polygon's on its interior point; a point's or circle's nowhere |
| MeasureRegistry.AnchorOfShortLines | js/modules/map/map-measure.js:1161-1164 | the vertex at index floor(n/2): B for an `A-B-C` angle line, the second point of a two-point line |
| MeasureRegistry.FindOverlay | js/modules/map/map-measure.js:1196-1198 | -1 exactly when no entry has the feature; otherwise the first entry that has it |
| MeasureRegistry.FindFeature | js/modules/map/map-measure.js:1218-1220 | -1 exactly when the feature is absent; otherwise its first position |
| MeasureRegistry.OverlayIdsRemove | js/modules/map/map-measure.js:1199-1217 | splicing out one entry whose popups are distinct takes exactly that popup off the set of popups |
| MeasureRegistry.RemoveKeepsParallel | js/modules/map/map-measure.js:1216-1223 | splicing the same index out of both registries keeps them parallel, with distinct popups |
| MeasureRegistry.MeasureLayer.constructor | js/modules/map/map-measure.js:53-58 | both registries, the source, the popups and the listeners start empty, and no tool is current |
| MeasureRegistry.MeasureLayer.CreateMeasurePopup | js/modules/map/map-measure.js:1159-1181 | exactly one entry appended to each registry and one popup on the map, anchored by `AnchorOf`; the registries stay parallel |
| MeasureRegistry.MeasureLayer.CloseMeasurePopup | js/modules/map/map-measure.js:1187-1227 | an unknown id changes nothing; otherwise the first matching entry leaves both registries, its popup leaves the map, and the feature and any linked centre point leave the source; the other entries are unchanged |
| MeasureRegistry.MeasureLayer.DeleteMeasure | js/modules/map/map-measure.js:1230-1238 | the delete button behaves exactly like the close button |
| MeasureRegistry.MeasureLayer.ClearMeasurements | js/modules/map/map-measure.js:1241-1261 | every popup off the map, both registries and the source empty, no current tool |
| MeasureRegistry.MeasureLayer.AddFeature | js/modules/map/map-measure.js:533-537 | a fresh feature with the given geometry joins the source |
| MeasureRegistry.MeasureLayer.RemoveFeature | js/modules/map/map-measure.js:497-500 | the feature leaves the source, nothing else changes |
| MeasureRegistry.MeasureLayer.SetGeometry | js/modules/map/map-measure.js:588-591 | only that feature's geometry changes |
| MeasureRegistry.MeasureLayer.Listen | js/modules/map/map-measure.js:544-549 | subscriptions are a set: the removed listeners go, the added ones come, and a second subscription adds nothing |
| MeasureRegistry.MeasureLayer.LinkCenter | js/modules/map/map-measure.js:864 | the circle's `centerFeature` is set to the centre point |
| MeasureRegistry.MeasureLayer.UnlinkCenter | js/modules/map/map-measure.js:952 | the circle's `centerFeature` link is cleared |
| MeasureRegistry.MeasureLayer.SetMeasureType | js/modules/map/map-measure.js:651 | `currentMeasureType` is set, nothing else changes |
| MeasureRegistry.MeasureLayer.NewSession | js/modules/map/map-measure.js:415-424 | each call of a tool gets fresh closures, so its listeners differ from every earlier run's |
| MeasureAngle.AngleTool.PhaseOfListener | js/modules/map/map-measure.js:544-549 | which of the run's listeners is subscribed determines the step the run is in |
| MeasureAngle.AngleTool.constructor | js/modules/map/map-measure.js:415-424 | all measurements cleared, A, B, the shape and `isCompleted` unset, and only click, pre-move, cancel and Esc subscribed; the current tool is the angle |
| MeasureAngle.AngleTool.Click | js/modules/map/map-measure.js:519-555 | the first click sets only A and drops the hover point, leaving B, the shape and the temporary line as they were; the second sets B, adds the line `A-B-B`, drops the temporary line, and swaps click and pre-move for move and finish |
| MeasureAngle.AngleTool.DropHover | js/modules/map/map-measure.js:524-527 | the hover point, if any, leaves the source and is forgotten |
| MeasureAngle.AngleTool.DropTempLine | js/modules/map/map-measure.js:540-543 | the temporary line, if any, leaves the source and is forgotten |
| MeasureAngle.AngleTool.StartPreview | js/modules/map/map-measure.js:530-550 | B set, the line `A-B-B` added, the start listeners swapped for the preview listeners |
| MeasureAngle.AngleTool.PreMove | js/modules/map/map-measure.js:558-582 | before A a hover point at the pointer, after A a temporary line from A to the pointer; each is created once under a fresh id and then moved, and no other feature's geometry changes |
| MeasureAngle.AngleTool.Move | js/modules/map/map-measure.js:584-597 | only the third vertex of the shape follows the pointer |
| MeasureAngle.AngleTool.RecordAngle | js/modules/map/map-measure.js:608-611 | one popup with the angle of the shape, anchored at the vertex |
| MeasureAngle.AngleTool.Finish | js/modules/map/map-measure.js:599-644 | C fixed, one popup with the angle, A and B cleared, `isCompleted` set, move, finish, cancel and Esc off and the completed-cancel pair on |
| MeasureAngle.AngleTool.EndPreview | js/modules/map/map-measure.js:613-639 | the preview listeners swapped for the completed-cancel pair |
| MeasureAngle.AngleTool.Cancel | js/modules/map/map-measure.js:475-511 | every listener of the run off; a popup exactly when A, B and the shape exist; hover point and temporary line always removed; A, B and `isCompleted` reset; no current tool; centre links and shapes' geometry untouched |
| MeasureAngle.AngleTool.RecordIfDrawn | js/modules/map/map-measure.js:484-492 | a popup with the angle of the shape's first, second and last vertex exactly when A, B and the shape exist |
| MeasureAngle.AngleTool.Reset | js/modules/map/map-measure.js:494-506 | the run's variables back to the start, hover point and temporary line removed, no current tool |
| MeasureAngle.AngleTool.StopListening | js/modules/map/map-measure.js:477-482 | all six handlers of the run unsubscribed |
| MeasureAngle.AngleTool.EscKey | js/modules/map/map-measure.js:513-517 | any other key leaves the tool and the layer unchanged; Escape has `Cancel`'s whole effect: every listener of the run off, a popup exactly when the angle was being drawn, the hover point and temporary line removed, the variables reset, no current tool, and centre links untouched |
| MeasureAngle.AngleTool.CompletedCancel | js/modules/map/map-measure.js:623-632 | the completed-cancel pair off and no current tool |
| MeasureAngle.AngleTool.CompletedEscKey | js/modules/map/map-measure.js:633-637 | Escape runs the completed cancel; any other key changes nothing |
| MeasureRadius.CirclePolygon | js/modules/map/map-measure.js:773-778 | a polygon whose one ring is the platform's circle approximation |
| MeasureRadius.CirclePolygonShowsRadius | js/modules/map/map-measure.js:1292-1297 | when the approximation's interior point is the centre and its first vertex is at the radius, the popup shows the radius that was set, anchored at the centre |
| MeasureRadius.RadiusTool.PhaseOfListener | js/modules/map/map-measure.js:866-877 | which of the run's listeners is subscribed determines the step the run is in |
| MeasureRadius.RadiusTool.constructor | js/modules/map/map-measure.js:761-770 | all measurements cleared and only click and pre-move subscribed, with no cancel or Esc yet; the current tool is the radius |
| MeasureRadius.RadiusTool.DropHover | js/modules/map/map-measure.js:843-846 | the hover point, if any, leaves the source and is forgotten |
| MeasureRadius.RadiusTool.Click | js/modules/map/map-measure.js:837-882 | the centre fixed, the hover point dropped, a centre point and a circle of radius 0 added and linked, the start listeners swapped for move, finish, cancel and Esc |
| MeasureRadius.RadiusTool.PlaceCenter | js/modules/map/map-measure.js:847-877 | the centre and circle added and linked, and the listeners swapped |
| MeasureRadius.RadiusTool.AddShapes | js/modules/map/map-measure.js:849-864 | two fresh features, the centre point and the circle of radius 0, with the circle linked to the centre |
| MeasureRadius.RadiusTool.PreMove | js/modules/map/map-measure.js:885-901 | a hover point at the pointer, created once under a fresh id and then moved; no other feature's geometry changes |
| MeasureRadius.RadiusTool.Move | js/modules/map/map-measure.js:904-926 | only the circle changes, redrawn around the centre with the planar distance to the pointer as radius |
| MeasureRadius.RadiusTool.RecordRadius | js/modules/map/map-measure.js:943-946 | one popup with the radius read off the circle |
| MeasureRadius.RadiusTool.Finish | js/modules/map/map-measure.js:929-992 | the circle fixed, one popup with its radius, the centre point removed and unlinked, every in-progress listener off and the completed-cancel pair on |
| MeasureRadius.RadiusTool.DropCenter | js/modules/map/map-measure.js:948-953 | the centre point leaves the source and the link is cleared |
| MeasureRadius.RadiusTool.EndSizing | js/modules/map/map-measure.js:955-987 | the sizing listeners off, the run's variables cleared, the completed-cancel pair on |
| MeasureRadius.RadiusTool.Cancel | js/modules/map/map-measure.js:781-827 | only reachable with the centre and circle set, so the circle always gets its popup and no shape is removed; every listener the cancel names off; variables cleared, hover point included; no current tool |
| MeasureRadius.RadiusTool.StopListening | js/modules/map/map-measure.js:784-791 | the start and sizing listeners all unsubscribed |
| MeasureRadius.RadiusTool.ClearRun | js/modules/map/map-measure.js:814-821 | the run's variables cleared and no current tool |
| MeasureRadius.RadiusTool.EscKey | js/modules/map/map-measure.js:830-834 | any other key leaves the tool and the layer unchanged; Escape has `Cancel`'s whole effect: the circle kept with its popup, the source unchanged, the run's listeners off, the variables cleared, and no current tool |
| MeasureRadius.RadiusTool.CompletedCancel | js/modules/map/map-measure.js:969-978 | the completed-cancel pair off and no current tool |
| MeasureRadius.RadiusTool.CompletedEscKey | js/modules/map/map-measure.js:980-984 | Escape runs the completed cancel; any other key changes nothing |
| AreaSelector.Span | js/modules/map/map-area-selector.js:195-198 | the minimum and maximum corners: ordered on each axis, each axis taken from the two clicks |
| AreaSelector.RectangleRing | js/modules/map/map-area-selector.js:195-207 | a closed ring of five points; `RectangleRingShape` proves it runs from the minimum to the maximum corner along axis-aligned edges, with both clicks among its corners |
| AreaSelector.RectangleRingShape | js/modules/map/map-area-selector.js:195-207 | five points, closed, from the minimum to the maximum corner, with both clicks among the corners, axis-aligned edges and every point inside the spanned box |
| AreaSelector.RectangleRingSymmetric | js/modules/map/map-area-selector.js:257-269 | swapping the two clicks gives the same box and the same ring |
| AreaSelector.AreaInfoOf | js/modules/map/map-area-selector.js:304-320 | nothing unless both corners are set; width and height never negative and equal to the distances between the clicks on each axis |
| AreaSelector.Untracked | js/modules/map/map-area-selector.js:245-254 | proof helper for the selector's invariant: removing both rectangle layers leaves none of the module's layers on the map |
| AreaSelector.PreviewReplaced | js/modules/map/map-area-selector.js:189-192 | proof helper for the selector's invariant: replacing the preview by a fresh layer keeps every layer accounted for and the final rectangle as drawn |
| AreaSelector.OnlySelection | js/modules/map/map-area-selector.js:293-298 | proof helper for the selector's invariant: a final rectangle alone on the map under a fresh handle is accounted for |
| AreaSelector.Selector.constructor | js/modules/map/map-area-selector.js:74-79 | not selecting, not dragging, no corners and no rectangle layers |
| AreaSelector.Selector.Start | js/modules/map/map-area-selector.js:82-96 | no map: nothing; otherwise selecting, no corners, no drag and no rectangle on the map |
| AreaSelector.Selector.Stop | js/modules/map/map-area-selector.js:111-123 | no map: nothing; otherwise selection mode and dragging off, nothing else changed |
| AreaSelector.Selector.Clear | js/modules/map/map-area-selector.js:126-146 | no map: nothing; otherwise both rectangles off the map and forgotten, both corners cleared, no drag, selection mode kept |
| AreaSelector.Selector.HandleMapClick | js/modules/map/map-area-selector.js:149-171 | ignored unless selecting; the first click sets the start corner and the drag and leaves both rectangles and the map as they were; the second sets the end corner, ends drag and selection, and leaves only the final rectangle of the two clicks on the map |
| AreaSelector.Selector.HandleMapPointerMove | js/modules/map/map-area-selector.js:174-192 | the preview is redrawn from the start corner to the pointer only while selecting and dragging from a start corner, and only with a map; the selection flags, the drag flag and both corners never change |
| AreaSelector.Selector.UpdateTempRectangle | js/modules/map/map-area-selector.js:185-238 | the old preview off the map and the ring of the two corners on it under a fresh layer |
| AreaSelector.Selector.CreateSelectionRectangle | js/modules/map/map-area-selector.js:241-301 | with both corners set, the preview and any earlier final rectangle off the map and the ring of the corners the only layer on it |
| AreaSelector.Selector.OpenFabricEditor | js/modules/map/map-area-selector.js:480-507 | refused exactly when a corner is missing; stopped without a map; otherwise both rectangles off the map before the capture of the spanned box |
| MapEvents.TargetOf | js/modules/map/map-events.js:31-41 | `change:resolution` goes on the view and every other type on the map |
| MapEvents.HasKind | js/modules/map/map-events.js:17-19 | true exactly when some record of the id has the type |
| MapEvents.IndexOf | js/modules/map/map-events.js:15-16 | -1 exactly when the id is not a key; otherwise the position of that key |
| MapEvents.AttachedAppend | js/modules/map/map-events.js:34-41 | a new last key adds exactly its own listeners |
| MapEvents.AttachedRemove | js/modules/map/map-events.js:239-243 | deleting one key removes exactly that key's listeners |
| MapEvents.AttachedExtend | js/modules/map/map-events.js:37-41 | pushing a record onto a key adds exactly its listener |
| MapEvents.SlotPairs | js/modules/map/map-events.js:263-265 | one (id, type) pair per record of the key, in order |
| MapEvents.PairsExact | js/modules/map/map-events.js:260-268 | as many pairs as records, and a pair is listed exactly when some key holds a record of it |
| MapEvents.EventManager.constructor | js/modules/map/map-events.js:5 | an empty registry with no listeners attached |
| MapEvents.EventManager.HasHandler | js/modules/map/map-events.js:271-273 | true exactly when the id is a key |
| MapEvents.EventManager.Duplicate | js/modules/map/map-events.js:15-24 | true exactly when the id already holds a record of the type |
| MapEvents.EventManager.Register | js/modules/map/map-events.js:10-229 | no map or a duplicate (id, type): nothing; otherwise one listener attached to the type's target and its record pushed under the id, a new id becoming the last key; the registry still matches the attached listeners |
| MapEvents.EventManager.AttachUnderNewKey | js/modules/map/map-events.js:31-41 | a new last key holding the one record, and its listener attached |
| MapEvents.EventManager.AttachUnderKey | js/modules/map/map-events.js:31-41 | the record appended to the existing key, and its listener attached |
| MapEvents.EventManager.UnregisterHandler | js/modules/map/map-events.js:232-245 | an unknown id: nothing; otherwise every listener of the id detached and the key deleted, the other keys kept in order; afterwards `hasHandler` is false |
| MapEvents.EventManager.Detach | js/modules/map/map-events.js:239-241 | the loop detaches exactly the key's listeners |
| MapEvents.EventManager.UnregisterAllHandlers | js/modules/map/map-events.js:248-257 | every listener detached and the registry empty |
| MapEvents.EventManager.GetRegisteredHandlers | js/modules/map/map-events.js:260-268 | the pairs key by key in insertion order, one per record, and the registry unchanged |
| Roadview.EffectiveZoom | js/modules/map/map-roadview.js:225 | never negative; a falsy zoom (missing, NaN, 0) reads as 10, a negative one as 0, a positive one as itself |
| Roadview.LevelAt | js/modules/map/map-roadview.js:229-254 | always in 1..14; 14 up to zoom 2 and 1 from zoom 21 on |
| Roadview.OlZoomToKakaoLevel | js/modules/map/map-roadview.js:223-258 | always a level in 1..14 |
| Roadview.LevelAtMonotone | js/modules/map/map-roadview.js:248-250 | zooming in never raises the level |
| Roadview.LevelAtInterpolates | js/modules/map/map-roadview.js:245-254 | between zoom 2 and 21 the level is round(14 - (z - 2) * 13 / 19), untouched by the clamp |
| Roadview.OlZoomEdgeCases | js/modules/map/map-roadview.js:225 | a falsy zoom gives level 9 and a negative zoom gives level 14 |
| Roadview.QueryFor | js/modules/map/map-roadview.js:31-58 | radius 200 unless a number is given; the centre replaced only by a two-element coordinate array; the level converted from the zoom |
| Roadview.RoadviewState.constructor | js/modules/map/map-roadview.js:15 | the button flag starts off and no panel is open |
| Roadview.RoadviewState.DrawRoadView | js/modules/map/map-roadview.js:22-147 | with a map, the container `tag` shows the frame for the resolved query and no other panel changes; without one, the error is caught and no panel changes |
| Roadview.RoadviewState.ToggleRoadviewBtn | js/modules/map/map-roadview.js:152-186 | no button: nothing; otherwise the flag flips, the panel opens when the flag turns on (no panel without a map, though the flag is still on) and closes when it turns off |
| Roadview.RoadviewState.ClosePanel | js/modules/map/map-roadview.js:94-100 | the panel removed and the flag off |
| Wms.WmsLayers.constructor | js/modules/map/map-wms.js:59-61 | one hidden, inactive layer per configured name |
| Wms.WmsLayers.Toggle | js/modules/map/map-wms.js:137-162 | an unknown name returns nothing and changes nothing; otherwise exactly that layer flips, its active flag follows, the new visibility is returned, and the source is refreshed exactly when the layer comes on |
| Wfs.ClusterStyleFor | js/modules/map/map-wfs.js:94-122 | the icon exactly for one feature; otherwise a radius in 12..40, red above 100, orange above 50, light orange up to 50, and the "k" label in 12px exactly above 999, else the count in 14px |
| Wfs.ClusterRadius | js/modules/map/map-wfs.js:101 | the radius is 2 * size + 8 from 2 to 16 features and 40 from then on, and never shrinks as the cluster grows |
| Wfs.Hex | js/modules/map/map-wfs.js:106 | each fill is a `#rrggbb` colour string |
| Wfs.HexDistinct | js/modules/map/map-wfs.js:106 | the three fills have three different colours |
| Wfs.WfsLayers.constructor | js/modules/map/map-wfs.js:135-137 | one hidden, inactive layer per configured name |
| Wfs.WfsLayers.Toggle | js/modules/map/map-wfs.js:196-213 | an unknown name returns nothing and changes nothing; otherwise exactly that layer flips, its active flag follows and the new visibility is returned |
| Wfs.WfsLayers.ClearAll | js/modules/map/map-wfs.js:252-256 | every layer hidden and inactive |
| Wfs.WfsLayers.ToggleConvenienceStore | js/modules/map/map-wfs.js:216-249 | without the WMS layer, false and no flag changed. With it, only the WMS flag of that name flips, and its source is refreshed exactly when it comes on. The result is the new WMS visibility, the WFS layer of that name is left off, and every other WFS layer keeps its flags |
| Wfs.WfsLayers.LayerInfoOf | js/modules/map/map-wfs.js:282-295 | nothing for an unknown name; otherwise the configured title, the visibility, the source's features and their count |
| Wfs.WfsLayers.FeaturesAt | js/modules/map/map-wfs.js:268-279 | the empty list for an unknown name; otherwise what the layer's source finds |
| Layers.LayerSet.constructor | js/modules/map.js:3-44 | "common" is the current and only visible background; the hybrid overlay is hidden |
| Layers.LayerSet.CurrentLayer | js/modules/map/map-layers.js:27-29 | no background other than the current one is visible |
| Layers.LayerSet.SwitchLayer | js/modules/map.js:103-114 | a known name: exactly that background visible and current; an unknown name: every background hidden and the current name kept (`map-layers.js` lines 5-16 run the same switch over the window's dictionary) |
| Layers.LayerSet.ToggleOverlay | js/modules/map.js:117-122 | only the named overlay flips; an unknown name changes nothing (`map-layers.js` lines 19-24 run the same toggle over the window's dictionary) |

## Left out

- The distance and area tools (`measureDistance`, `measureArea`) and their `ol.interaction.Draw` interaction. Their lengths and areas come from `ol.sphere` and reach the model only as inputs to the formatters.
- `measureInteraction` is never set to an interaction in the code that is modelled, so the removal at the start of `clearMeasurements` is left out.
- The popup markup, styles, `stopPropagation` handlers, toasts, alerts, cursors and console output.
- `showEditPopup`, `closeEditPopup` and `startMapEdit`. Apart from the DOM they only call `clearAreaSelection` and `startAreaSelection`.
- `updateAreaSelectionUI`, which does nothing.
- The canvas work of `captureMapArea` after its `setTimeout`, and `openFabricEditorWithImage`.
- The `initializeAreaSelector` and `initializeMeasureTools` wiring, and the construction of layers and sources.
- Network I/O and timers: WFS and WMS fetching, the single-click debounce, `testWfsUrl`, `makeAjaxRequest`, and the WFS and WMS popups and click handlers.
- The Kakao SDK loader, the road-view picker, the view synchronisation, the `road_view_location` variable and the app key in the frame's query.
- The Escape listener that `drawRoadView` puts on the document. The model has the close button, which that listener clicks.
- `getAllLayers`, `debugHandlers`, `registerMeasureEventListeners` and `unregisterMeasureEventListeners`. The last two are never called.
- The handler callbacks `MapEventManager` wraps. The model keeps the listener's id, type and target, not the function it calls.
- Floating point. Coordinates, lengths and zooms are reals; `Math.hypot`, `Math.acos`, the interior point and the circle approximation are uninterpreted.
- `toFixed`: the model rounds half up like `Math.round` and states each label's precision as a bound.
- Helpers.FormatDistance: kilometres are rounded half up instead of by `toFixed(2)`, so the kilometre figure is stated only within half a hundredth.
- Wfs.ClusterStyleFor: the "k" label is rounded half up instead of by `toFixed(1)`, so its figure is stated only within half a tenth of a thousand.
- MeasureFormat.FormatAngleValue: the label keeps the degrees as a real; the one-decimal `toFixed(1)` rendering is not modelled.
- MeasureRadius.RadiusTool.Cancel: the branch of `cancelMeasurement` that removes the centre, circle and hover point is not modelled. The cancel is only subscribed once the centre and circle exist, so that branch cannot run.
- The listeners of different tool runs share one set. A run that is left by starting another tool keeps its subscriptions, and the model does not track what those stale listeners do.
- A zoom of exactly 0 is falsy and reads as zoom 10 (level 9), while 0.5 gives level 14. The model states this as the code has it.
- MeasureAngle.AngleTool.Click: the code adds the line `A-B-B` before it removes the temporary line, and the model removes the line first. Both orders end in the same state, and rendering between the two steps is not modelled.
- The background and overlay dictionaries that `map-core.js` builds for `window.baseLayers` are not modelled separately. They hold the same layers as those of `map.js`, where `LayerSet` starts.
- Inherited object keys. Several guards test a name by the truthiness of `dict[name]`, so an inherited key such as `toString` passes them. The model treats only the configured names as keys, and these guards are affected:
  - `switchLayer` in `map.js` and `map-layers.js`;
  - `toggleOverlay` (js/modules/map.js:118 and js/modules/map/map-layers.js:20);
  - `toggleWmsLayer` (js/modules/map/map-wms.js:138);
  - `toggleWfsLayer`, `queryWfsFeaturesAt` and `getWfsLayerInfo` (js/modules/map/map-wfs.js:197, 269, 283).
  With such a key these functions call a layer method on a plain function and throw a `TypeError`. The model returns nothing or changes nothing instead.
