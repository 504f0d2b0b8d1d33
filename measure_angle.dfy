/** The angle tool (`measureAngle`): one run of it is one `AngleTool`, whose
    fields are the variables its closures share. Click A, click the vertex B,
    move to preview C, click C; Esc or right click cancels before completion. */
module MeasureAngle {
  import opened Geo
  import opened MeasureFormat
  import opened MeasureRegistry

  /** Listeners of a run before B is set: `clickListener`, `preMoveListener`, cancel and Esc. */
  function StartSubs(s: Uid): set<Sub>
  {
    {Sub(s, ClickListener), Sub(s, PreMoveListener),
     Sub(s, CancelMeasurement), Sub(s, EscKeyListener)}
  }

  /** Listeners while C follows the pointer: `moveListener`, `finishAngle`, cancel and Esc. */
  function DrawSubs(s: Uid): set<Sub>
  {
    {Sub(s, MoveListener), Sub(s, FinishListener),
     Sub(s, CancelMeasurement), Sub(s, EscKeyListener)}
  }

  /** Listeners after completion: the completed-cancel pair. */
  function DoneSubs(s: Uid): set<Sub>
  {
    {Sub(s, CompletedCancelMeasurement), Sub(s, CompletedEscKeyListener)}
  }

  /** Every listener a run of the angle tool ever subscribes. */
  function AllSubs(s: Uid): set<Sub>
  {
    StartSubs(s) + DrawSubs(s) + DoneSubs(s)
  }

  /** The steps of one run of the angle tool. */
  datatype Phase = AwaitingA | AwaitingB | Previewing | Finished

  /** The listeners a run holds in each phase. */
  function Expected(p: Phase, listening: bool, s: Uid): set<Sub>
  {
    if !listening then {}
    else match p
      case AwaitingA => StartSubs(s)
      case AwaitingB => StartSubs(s)
      case Previewing => DrawSubs(s)
      case Finished => DoneSubs(s)
  }

  class AngleTool {
    const layer: MeasureLayer
    const session: Uid
    var pointA: Option<Coord>
    var pointB: Option<Coord>
    var angleFeature: Option<Uid>
    var isCompleted: bool
    var hoverFeature: Option<Uid>
    var tempLineFeature: Option<Uid>

    /** Which step of the run the closures are in; `listening` is false once a
        run is cancelled or its completed-cancel pair has fired. */
    ghost var phase: Phase
    ghost var listening: bool

    /** Each phase's variables and shapes, and exactly the listeners it holds. */
    ghost predicate Valid()
      reads this, layer
    {
      layer.Valid() && session < layer.nextUid
      && (hoverFeature.Some? ==> hoverFeature.value in layer.geometry)
      && (tempLineFeature.Some? ==> tempLineFeature.value in layer.geometry)
      && (angleFeature.Some? ==> angleFeature.value in layer.geometry)
      && HoldsExactly(layer.subs, session, Expected(phase, listening, session))
      && (phase.AwaitingA? ==> pointA.None? && pointB.None? && !isCompleted && angleFeature.None?)
      && (phase.AwaitingB? ==> pointA.Some? && pointB.None? && !isCompleted && angleFeature.None? && hoverFeature.None?)
      && (phase.Previewing? ==>
            pointA.Some? && pointB.Some? && !isCompleted && angleFeature.Some?
            && hoverFeature.None? && tempLineFeature.None?
            && layer.geometry[angleFeature.value].LineString?
            && |layer.geometry[angleFeature.value].coords| == 3
            && layer.geometry[angleFeature.value].coords[0] == pointA.value
            && layer.geometry[angleFeature.value].coords[1] == pointB.value)
      && (phase.Finished? ==>
            pointA.None? && pointB.None? && isCompleted && hoverFeature.None? && tempLineFeature.None?)
    }

    /** The third vertex of the shape being previewed. */
    ghost function ThirdVertex(): Coord
      reads this, layer
      requires Valid() && phase.Previewing?
    {
      layer.geometry[angleFeature.value].coords[2]
    }

    /** Which listener is subscribed tells the phase, since each phase holds
        its own set of them. */
    lemma PhaseOfListener()
      requires Valid()
      ensures Sub(session, ClickListener) in layer.subs ==> listening && (phase.AwaitingA? || phase.AwaitingB?)
      ensures Sub(session, PreMoveListener) in layer.subs ==> listening && (phase.AwaitingA? || phase.AwaitingB?)
      ensures Sub(session, MoveListener) in layer.subs ==> phase.Previewing?
      ensures Sub(session, FinishListener) in layer.subs ==> phase.Previewing?
      ensures Sub(session, CancelMeasurement) in layer.subs ==> listening && !phase.Finished?
      ensures Sub(session, EscKeyListener) in layer.subs ==> listening && !phase.Finished?
      ensures Sub(session, CompletedCancelMeasurement) in layer.subs ==> listening && phase.Finished?
      ensures Sub(session, CompletedEscKeyListener) in layer.subs ==> listening && phase.Finished?
    {
    }

    /** `measureAngle()`: clear all measurements, then listen for the first click. */
    constructor (layer: MeasureLayer)
      requires layer.Valid()
      modifies layer
      ensures Valid() && this.layer == layer && session == old(layer.nextUid)
      ensures pointA.None? && pointB.None? && angleFeature.None? && !isCompleted
      ensures hoverFeature.None? && tempLineFeature.None?
      ensures phase == AwaitingA && listening
      ensures layer.subs == old(layer.subs) + StartSubs(session)
      ensures layer.measureOverlays == [] && layer.measureFeatures == [] && layer.source == {}
      ensures layer.currentMeasureType == Some(Angle)
    {
      layer.ClearMeasurements();
      var s := layer.NewSession();
      assert forall h: Handler :: Sub(s, h) !in layer.subs;
      layer.subs := layer.subs + StartSubs(s);
      layer.SetMeasureType(Some(Angle));
      this.layer := layer;
      session := s;
      pointA, pointB, angleFeature, isCompleted := None, None, None, false;
      hoverFeature, tempLineFeature := None, None;
      phase, listening := AwaitingA, true;
    }

    /** `clickListener`: the first click fixes A, the second fixes the vertex B,
        draws `A-B-B` and swaps to the preview listeners. */
    method Click(c: Coord)
      requires Valid() && Sub(session, ClickListener) in layer.subs
      modifies this, layer`geometry, layer`source, layer`nextUid, layer`subs
      ensures Valid() && isCompleted == old(isCompleted)
      ensures old(pointA).None? ==>
                phase == AwaitingB && pointA == Some(c) && hoverFeature.None?
                && pointB == old(pointB) && angleFeature == old(angleFeature) && tempLineFeature == old(tempLineFeature)
                && layer.source == old(layer.source) - OptSet(old(hoverFeature))
                && layer.geometry == old(layer.geometry) && layer.subs == old(layer.subs)
      ensures old(pointA).Some? ==>
                phase == Previewing && pointA == old(pointA) && pointB == Some(c)
                && angleFeature == Some(old(layer.nextUid)) && tempLineFeature.None?
                && layer.geometry == old(layer.geometry)[old(layer.nextUid) := LineString([old(pointA).value, c, c])]
                && layer.source == (old(layer.source) + {old(layer.nextUid)}) - OptSet(old(tempLineFeature))
                && layer.subs == old(layer.subs) - {Sub(session, PreMoveListener), Sub(session, ClickListener)}
                                 + DrawSubs(session)
    {
      PhaseOfListener();
      if pointA.None? {
        DropHover();
        pointA := Some(c);
        phase := AwaitingB;
      } else if pointB.None? {
        DropTempLine();
        StartPreview(c);
      }
    }

    /** Removes the hover point, if there is one. */
    method DropHover()
      requires Valid()
      modifies this`hoverFeature, layer`source
      ensures Valid() && hoverFeature.None? && layer.source == old(layer.source) - OptSet(old(hoverFeature))
    {
      if hoverFeature.Some? {
        layer.RemoveFeature(hoverFeature.value);
        hoverFeature := None;
      }
    }

    /** Removes the temporary line from A, if there is one. */
    method DropTempLine()
      requires Valid()
      modifies this`tempLineFeature, layer`source
      ensures Valid() && tempLineFeature.None? && layer.source == old(layer.source) - OptSet(old(tempLineFeature))
    {
      if tempLineFeature.Some? {
        layer.RemoveFeature(tempLineFeature.value);
        tempLineFeature := None;
      }
    }

    /** The second click: B is fixed, the shape `A-B-B` is added and the
        listeners switch from the start set to the preview set. */
    method StartPreview(c: Coord)
      requires Valid() && phase.AwaitingB? && listening && tempLineFeature.None?
      modifies this`pointB, this`angleFeature, this`phase, layer`geometry, layer`source, layer`nextUid, layer`subs
      ensures Valid() && phase == Previewing && pointB == Some(c) && angleFeature == Some(old(layer.nextUid))
      ensures layer.geometry == old(layer.geometry)[old(layer.nextUid) := LineString([pointA.value, c, c])]
      ensures layer.source == old(layer.source) + {old(layer.nextUid)}
      ensures layer.subs == old(layer.subs) - {Sub(session, PreMoveListener), Sub(session, ClickListener)}
                            + DrawSubs(session)
    {
      pointB := Some(c);
      var f := layer.AddFeature(LineString([pointA.value, c, c]));
      angleFeature := Some(f);
      // off: preMoveListener, clickListener; on: moveListener, finishAngle,
      // and again cancelMeasurement and escKeyListener, which adds nothing
      var off := {Sub(session, PreMoveListener), Sub(session, ClickListener)};
      layer.Listen(DrawSubs(session), off);
      phase := Previewing;
    }

    /** `preMoveListener`: before A a hover point follows the pointer; after A
        a temporary line runs from A to the pointer. */
    method PreMove(c: Coord)
      requires Valid() && Sub(session, PreMoveListener) in layer.subs
      modifies this`hoverFeature, this`tempLineFeature, layer`geometry, layer`source, layer`nextUid
      ensures Valid()
      ensures pointA.None? ==> hoverFeature.Some? && layer.geometry[hoverFeature.value] == Point(c)
                               && tempLineFeature == old(tempLineFeature)
      ensures pointA.None? && old(hoverFeature).Some? ==> hoverFeature == old(hoverFeature) && layer.source == old(layer.source)
      ensures pointA.None? && old(hoverFeature).None? ==> layer.source == old(layer.source) + {hoverFeature.value}
      ensures pointA.Some? ==> tempLineFeature.Some? && layer.geometry[tempLineFeature.value] == LineString([pointA.value, c])
                               && hoverFeature == old(hoverFeature)
      ensures pointA.Some? && old(tempLineFeature).Some? ==> tempLineFeature == old(tempLineFeature) && layer.source == old(layer.source)
      ensures pointA.Some? && old(tempLineFeature).None? ==> layer.source == old(layer.source) + {tempLineFeature.value}
      ensures pointA.None? ==> layer.geometry == old(layer.geometry)[hoverFeature.value := Point(c)]
      ensures pointA.Some? ==> layer.geometry == old(layer.geometry)[tempLineFeature.value := LineString([pointA.value, c])]
      ensures pointA.None? && old(hoverFeature).None? ==>
                hoverFeature == Some(old(layer.nextUid)) && layer.nextUid == old(layer.nextUid) + 1
      ensures pointA.Some? && old(tempLineFeature).None? ==>
                tempLineFeature == Some(old(layer.nextUid)) && layer.nextUid == old(layer.nextUid) + 1
      ensures (if pointA.None? then old(hoverFeature) else old(tempLineFeature)).Some? ==>
                layer.nextUid == old(layer.nextUid)
    {
      PhaseOfListener();
      if pointA.None? {
        if hoverFeature.None? {
          var f := layer.AddFeature(Point(c));
          hoverFeature := Some(f);
        } else {
          layer.SetGeometry(hoverFeature.value, Point(c));
        }
      } else if pointB.None? {
        if tempLineFeature.None? {
          var f := layer.AddFeature(LineString([pointA.value, c]));
          tempLineFeature := Some(f);
        } else {
          layer.SetGeometry(tempLineFeature.value, LineString([pointA.value, c]));
        }
      }
    }

    /** `moveListener`: the third vertex follows the pointer. */
    method Move(c: Coord)
      requires Valid() && Sub(session, MoveListener) in layer.subs
      modifies layer`geometry
      ensures Valid() && pointA.Some? && pointB.Some? && angleFeature.Some?
      ensures layer.geometry == old(layer.geometry)[angleFeature.value := LineString([pointA.value, pointB.value, c])]
    {
      PhaseOfListener();
      var f := angleFeature.value;
      var coords := layer.geometry[f].coords;
      assert coords[2 := c] == [pointA.value, pointB.value, c];
      layer.SetGeometry(f, LineString(coords[2 := c]));
    }

    /** Shows the angle of the shape `a-b-c` in a popup at the vertex `b`. */
    method RecordAngle(a: Coord, b: Coord, c: Coord)
      requires Valid() && phase.Previewing? && pointA == Some(a) && pointB == Some(b)
      requires layer.geometry[angleFeature.value] == LineString([a, b, c])
      modifies layer`measureOverlays, layer`measureFeatures, layer`mapOverlays, layer`nextUid
      ensures Valid()
      ensures layer.measureOverlays == old(layer.measureOverlays)
                + [OverlayInfo(old(layer.nextUid), angleFeature.value, Some(b), Angle,
                               Degrees(CalculateAngleDegrees(layer.sdk, Some(a), Some(b), Some(c))))]
      ensures layer.measureFeatures == old(layer.measureFeatures) + [angleFeature.value]
      ensures layer.mapOverlays == old(layer.mapOverlays) + {old(layer.nextUid)}
    {
      var deg := CalculateAngleDegrees(layer.sdk, Some(a), Some(b), Some(c));
      AnchorOfShortLines(layer.sdk, a, b, c);
      layer.CreateMeasurePopup(angleFeature.value, Angle, FormatAngleValue(deg));
    }

    /** `finishAngle`: fix C, show the angle in a popup at the vertex, stop
        listening for the drawing and listen for the completed-cancel pair. */
    method Finish(c: Coord)
      requires Valid() && Sub(session, FinishListener) in layer.subs
      modifies this`pointA, this`pointB, this`isCompleted, this`phase
      modifies layer`geometry, layer`measureOverlays, layer`measureFeatures, layer`mapOverlays, layer`nextUid, layer`subs
      ensures Valid() && phase == Finished && old(pointA).Some? && old(pointB).Some? && angleFeature.Some?
      ensures pointA.None? && pointB.None? && isCompleted
      ensures layer.geometry == old(layer.geometry)[angleFeature.value := LineString([old(pointA).value, old(pointB).value, c])]
      ensures layer.measureOverlays == old(layer.measureOverlays)
                + [OverlayInfo(old(layer.nextUid), angleFeature.value, old(pointB), Angle,
                               Degrees(CalculateAngleDegrees(layer.sdk, old(pointA), old(pointB), Some(c))))]
      ensures layer.measureFeatures == old(layer.measureFeatures) + [angleFeature.value]
      ensures layer.subs == old(layer.subs) - DrawSubs(session) + DoneSubs(session)
      ensures layer.source == old(layer.source)
    {
      PhaseOfListener();
      var a, b := pointA.value, pointB.value;
      layer.SetGeometry(angleFeature.value, LineString([a, b, c]));
      RecordAngle(a, b, c);
      EndPreview();
    }

    /** Drops the preview listeners for the completed-cancel pair. */
    method EndPreview()
      requires Valid() && phase.Previewing? && listening
      modifies this`pointA, this`pointB, this`isCompleted, this`phase, layer`subs
      ensures Valid() && phase == Finished && pointA.None? && pointB.None? && isCompleted
      ensures layer.subs == old(layer.subs) - DrawSubs(session) + DoneSubs(session)
    {
      pointA, pointB, isCompleted := None, None, true;
      layer.Listen(DoneSubs(session), DrawSubs(session));
      phase := Finished;
    }

    /** `cancelMeasurement` (right click, or Esc through `escKeyListener`):
        drop every listener of the run, keep the angle only if A, B and the
        shape exist (with its popup), remove hover point and temporary line. */
    method Cancel()
      requires Valid() && Sub(session, CancelMeasurement) in layer.subs
      modifies this, layer
      ensures Valid() && phase == AwaitingA && !listening
      ensures pointA.None? && pointB.None? && angleFeature.None? && !isCompleted
      ensures hoverFeature.None? && tempLineFeature.None?
      ensures layer.subs == old(layer.subs) - AllSubs(session)
      ensures layer.source == old(layer.source) - OptSet(old(hoverFeature)) - OptSet(old(tempLineFeature))
      ensures layer.currentMeasureType == None && layer.geometry == old(layer.geometry)
      ensures layer.centerLink == old(layer.centerLink)
      ensures old(phase).Previewing? <==> old(pointA).Some? && old(pointB).Some? && old(angleFeature).Some?
      ensures old(phase).Previewing? ==>
                layer.measureOverlays == old(layer.measureOverlays)
                  + [OverlayInfo(old(layer.nextUid), old(angleFeature).value, old(pointB), Angle,
                                 Degrees(CalculateAngleDegrees(layer.sdk, old(pointA), old(pointB), Some(old(ThirdVertex())))))]
                && layer.measureFeatures == old(layer.measureFeatures) + [old(angleFeature).value]
                && layer.mapOverlays == old(layer.mapOverlays) + {old(layer.nextUid)}
      ensures !old(phase).Previewing? ==>
                layer.measureOverlays == old(layer.measureOverlays) && layer.measureFeatures == old(layer.measureFeatures)
                && layer.mapOverlays == old(layer.mapOverlays)
    {
      PhaseOfListener();
      StopListening();
      RecordIfDrawn();
      Reset();
    }

    /** The part of `cancelMeasurement` that keeps a drawn angle: with A, B
        and the shape present, the angle of its first, second and last
        vertex is shown in a popup. */
    method RecordIfDrawn()
      requires Valid()
      modifies layer`measureOverlays, layer`measureFeatures, layer`mapOverlays, layer`nextUid
      ensures Valid()
      ensures phase.Previewing? <==> pointA.Some? && pointB.Some? && angleFeature.Some?
      ensures phase.Previewing? ==>
                layer.measureOverlays == old(layer.measureOverlays)
                  + [OverlayInfo(old(layer.nextUid), angleFeature.value, pointB, Angle,
                                 Degrees(CalculateAngleDegrees(layer.sdk, pointA, pointB, Some(ThirdVertex()))))]
                && layer.measureFeatures == old(layer.measureFeatures) + [angleFeature.value]
                && layer.mapOverlays == old(layer.mapOverlays) + {old(layer.nextUid)}
      ensures !phase.Previewing? ==>
                layer.measureOverlays == old(layer.measureOverlays) && layer.measureFeatures == old(layer.measureFeatures)
                && layer.mapOverlays == old(layer.mapOverlays) && layer.nextUid == old(layer.nextUid)
    {
      if angleFeature.Some? && pointA.Some? && pointB.Some? {
        var coords := layer.geometry[angleFeature.value].coords;
        assert coords == [coords[0], coords[1], coords[|coords| - 1]];
        RecordAngle(coords[0], coords[1], coords[|coords| - 1]);
      }
    }

    /** The rest of `cancelMeasurement`: the run's variables back to the
        start, hover point and temporary line removed, no current tool. */
    method Reset()
      requires Valid() && !phase.Finished? && !listening
      modifies this`pointA, this`pointB, this`angleFeature, this`phase, this`hoverFeature, this`tempLineFeature
      modifies this`isCompleted, layer`source, layer`currentMeasureType
      ensures Valid() && phase == AwaitingA
      ensures pointA.None? && pointB.None? && angleFeature.None? && !isCompleted
      ensures hoverFeature.None? && tempLineFeature.None?
      ensures layer.source == old(layer.source) - OptSet(old(hoverFeature)) - OptSet(old(tempLineFeature))
      ensures layer.currentMeasureType == None
    {
      pointA, pointB, angleFeature := None, None, None;
      phase := AwaitingA;
      DropHover();
      DropTempLine();
      isCompleted := false;
      layer.SetMeasureType(None);
    }

    /** Every listener of the run off the map and the document. */
    method StopListening()
      requires Valid() && !phase.Finished?
      modifies this`listening, layer`subs
      ensures Valid() && !listening && layer.subs == old(layer.subs) - AllSubs(session)
    {
      layer.Listen({}, AllSubs(session));
      listening := false;
    }

    /** `escKeyListener`: cancel on the Escape key, ignore other keys. */
    method EscKey(isEscape: bool)
      requires Valid() && Sub(session, EscKeyListener) in layer.subs
      modifies this, layer
      ensures Valid()
      ensures !isEscape ==> unchanged(this) && unchanged(layer)
      ensures isEscape ==> phase == AwaitingA && !listening
      ensures isEscape ==> pointA.None? && pointB.None? && angleFeature.None? && !isCompleted
      ensures isEscape ==> hoverFeature.None? && tempLineFeature.None?
      ensures isEscape ==> layer.subs == old(layer.subs) - AllSubs(session)
      ensures isEscape ==>
                layer.source == old(layer.source) - OptSet(old(hoverFeature)) - OptSet(old(tempLineFeature))
      ensures isEscape ==> layer.currentMeasureType == None && layer.geometry == old(layer.geometry)
      ensures isEscape ==> layer.centerLink == old(layer.centerLink)
      ensures isEscape && old(phase).Previewing? ==>
                layer.measureOverlays == old(layer.measureOverlays)
                  + [OverlayInfo(old(layer.nextUid), old(angleFeature).value, old(pointB), Angle,
                                 Degrees(CalculateAngleDegrees(layer.sdk, old(pointA), old(pointB), Some(old(ThirdVertex())))))]
                && layer.measureFeatures == old(layer.measureFeatures) + [old(angleFeature).value]
                && layer.mapOverlays == old(layer.mapOverlays) + {old(layer.nextUid)}
      ensures isEscape && !old(phase).Previewing? ==>
                layer.measureOverlays == old(layer.measureOverlays) && layer.measureFeatures == old(layer.measureFeatures)
                && layer.mapOverlays == old(layer.mapOverlays)
    {
      PhaseOfListener();
      if isEscape {
        Cancel();
      }
    }

    /** `completedCancelMeasurement`: after completion, right click or Esc only
        drops the completed-cancel pair and clears the current tool. */
    method CompletedCancel()
      requires Valid() && Sub(session, CompletedCancelMeasurement) in layer.subs
      modifies this`listening, layer`subs, layer`currentMeasureType
      ensures Valid() && !listening
      ensures layer.subs == old(layer.subs) - DoneSubs(session)
      ensures layer.currentMeasureType == None
    {
      PhaseOfListener();
      layer.Listen({}, DoneSubs(session));
      layer.SetMeasureType(None);
      listening := false;
    }

    /** `completedEscKeyListener`: the completed-cancel on the Escape key. */
    method CompletedEscKey(isEscape: bool)
      requires Valid() && Sub(session, CompletedEscKeyListener) in layer.subs
      modifies this`listening, layer`subs, layer`currentMeasureType
      ensures Valid()
      ensures !isEscape ==> layer.subs == old(layer.subs) && layer.currentMeasureType == old(layer.currentMeasureType)
      ensures isEscape ==> !listening && layer.currentMeasureType == None
    {
      PhaseOfListener();
      if isEscape {
        CompletedCancel();
      }
    }
  }
}
