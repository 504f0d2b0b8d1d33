/** The radius tool (`measureRadius`): one run of it is one `RadiusTool`,
    whose fields are the variables its closures share. The first click fixes
    the centre, the circle follows the pointer, the second click fixes the
    radius; right click or Esc cancels once the centre is set. */
module MeasureRadius {
  import opened Geo
  import opened MeasureFormat
  import opened MeasureRegistry

  /** Listeners before the centre is set: `clickListener` and `preMoveListener`. */
  function StartSubs(s: Uid): set<Sub>
  {
    {Sub(s, ClickListener), Sub(s, PreMoveListener)}
  }

  /** Listeners while the circle follows the pointer. */
  function SizingSubs(s: Uid): set<Sub>
  {
    {Sub(s, MoveListener), Sub(s, FinishListener), Sub(s, CancelMeasurement), Sub(s, EscKeyListener)}
  }

  /** Listeners after completion: the completed-cancel pair. */
  function DoneSubs(s: Uid): set<Sub>
  {
    {Sub(s, CompletedCancelMeasurement), Sub(s, CompletedEscKeyListener)}
  }

  /** Everything `cancelMeasurement` unsubscribes. */
  function CancelledSubs(s: Uid): set<Sub>
  {
    StartSubs(s) + SizingSubs(s)
  }

  /** The steps of one run of the radius tool. */
  datatype Phase = AwaitingCenter | Sizing | Finished

  /** The listeners a run holds in each phase. */
  function Expected(p: Phase, listening: bool, s: Uid): set<Sub>
  {
    if !listening then {}
    else match p
      case AwaitingCenter => StartSubs(s)
      case Sizing => SizingSubs(s)
      case Finished => DoneSubs(s)
  }

  /** `createCirclePolygon`: the circle as a polygon whose one ring is the
      platform's 128-gon approximation. */
  function CirclePolygon(sdk: Sdk, center: Coord, radius: real): (g: Geometry)
    ensures g.Polygon? && |g.rings| == 1 && g.rings[0] == sdk.circleRing(center, radius)
  {
    Polygon([sdk.circleRing(center, radius)])
  }

  /** The popup of a circle polygon reads the radius back off the shape:
      when the approximation puts its interior point on the centre and its
      first vertex at the radius, the popup shows the radius that was set. */
  lemma CirclePolygonShowsRadius(sdk: Sdk, center: Coord, radius: real)
    requires |sdk.circleRing(center, radius)| > 0
    requires sdk.interiorPoint([sdk.circleRing(center, radius)]) == center
    requires SegmentLength(sdk, center, sdk.circleRing(center, radius)[0]) == radius
    ensures FormatRadius(sdk, CirclePolygon(sdk, center, radius)) == FormatLength(radius)
    ensures AnchorOf(sdk, CirclePolygon(sdk, center, radius)) == Some(center)
  {
    var g := CirclePolygon(sdk, center, radius);
    assert RadiusOf(sdk, g) == radius;
  }

  class RadiusTool {
    const layer: MeasureLayer
    const session: Uid
    var startPoint: Option<Coord>
    var radiusFeature: Option<Uid>
    var centerFeature: Option<Uid>
    var hoverFeature: Option<Uid>

    /** Which step of the run the closures are in; `listening` is false once
        a run is cancelled or its completed-cancel pair has fired. */
    ghost var phase: Phase
    ghost var listening: bool

    /** Each phase's variables, and exactly the listeners it holds. */
    ghost predicate Valid()
      reads this, layer
    {
      layer.Valid() && session < layer.nextUid
      && (hoverFeature.Some? ==> hoverFeature.value in layer.geometry)
      && (radiusFeature.Some? ==> radiusFeature.value in layer.geometry)
      && (centerFeature.Some? ==> centerFeature.value in layer.geometry)
      && HoldsExactly(layer.subs, session, Expected(phase, listening, session))
      && (phase.AwaitingCenter? ==> startPoint.None? && radiusFeature.None? && centerFeature.None?)
      && (phase.Sizing? ==> startPoint.Some? && radiusFeature.Some? && centerFeature.Some? && hoverFeature.None?)
      && (phase.Finished? ==> startPoint.None? && radiusFeature.None? && centerFeature.None? && hoverFeature.None?)
    }

    /** The shape of the circle being sized. */
    ghost function Shape(): Geometry
      reads this, layer
      requires Valid() && phase.Sizing?
    {
      layer.geometry[radiusFeature.value]
    }

    /** Which listener is subscribed tells the phase. */
    lemma PhaseOfListener()
      requires Valid()
      ensures Sub(session, ClickListener) in layer.subs ==> listening && phase.AwaitingCenter?
      ensures Sub(session, PreMoveListener) in layer.subs ==> listening && phase.AwaitingCenter?
      ensures Sub(session, MoveListener) in layer.subs ==> listening && phase.Sizing?
      ensures Sub(session, FinishListener) in layer.subs ==> listening && phase.Sizing?
      ensures Sub(session, CancelMeasurement) in layer.subs ==> listening && phase.Sizing?
      ensures Sub(session, EscKeyListener) in layer.subs ==> listening && phase.Sizing?
      ensures Sub(session, CompletedCancelMeasurement) in layer.subs ==> listening && phase.Finished?
      ensures Sub(session, CompletedEscKeyListener) in layer.subs ==> listening && phase.Finished?
    {
    }

    /** `measureRadius()`: clear all measurements, then listen for the centre. */
    constructor (layer: MeasureLayer)
      requires layer.Valid()
      modifies layer
      ensures Valid() && this.layer == layer && session == old(layer.nextUid)
      ensures phase == AwaitingCenter && listening
      ensures startPoint.None? && radiusFeature.None? && centerFeature.None? && hoverFeature.None?
      ensures layer.subs == old(layer.subs) + StartSubs(session)
      ensures layer.measureOverlays == [] && layer.measureFeatures == [] && layer.source == {}
      ensures layer.currentMeasureType == Some(Radius)
    {
      layer.ClearMeasurements();
      var s := layer.NewSession();
      assert forall h: Handler :: Sub(s, h) !in layer.subs;
      layer.Listen(StartSubs(s), {});
      layer.SetMeasureType(Some(Radius));
      this.layer := layer;
      session := s;
      startPoint, radiusFeature, centerFeature, hoverFeature := None, None, None, None;
      phase, listening := AwaitingCenter, true;
    }

    /** Removes the hover point, if there is one. */
    method DropHover()
      requires Valid()
      modifies this`hoverFeature, layer`source
      ensures Valid() && hoverFeature.None? && layer.source == old(layer.source) - OptSet(old(hoverFeature))
    {
      if hoverFeature.Some? {
        layer.RemoveFeature(hoverFeature.value);
        hoverFeature := None;
      }
    }

    /** `clickListener`: fix the centre, drop the hover point, add the centre
        point and a circle of radius 0 linked to it, and switch to the sizing
        listeners. */
    method Click(c: Coord)
      requires Valid() && Sub(session, ClickListener) in layer.subs
      modifies this, layer`geometry, layer`source, layer`nextUid, layer`subs, layer`centerLink
      ensures Valid() && phase == Sizing
      ensures startPoint == Some(c) && hoverFeature.None?
      ensures centerFeature == Some(old(layer.nextUid)) && radiusFeature == Some(old(layer.nextUid) + 1)
      ensures layer.geometry == old(layer.geometry)[old(layer.nextUid) := Point(c)]
                                                   [old(layer.nextUid) + 1 := CirclePolygon(layer.sdk, c, 0.0)]
      ensures layer.source == old(layer.source) - OptSet(old(hoverFeature)) + {old(layer.nextUid), old(layer.nextUid) + 1}
      ensures layer.centerLink == old(layer.centerLink)[old(layer.nextUid) + 1 := old(layer.nextUid)]
      ensures layer.subs == old(layer.subs) - StartSubs(session) + SizingSubs(session)
    {
      PhaseOfListener();
      DropHover();
      PlaceCenter(c);
    }

    /** The part of `clickListener` after the hover point is gone. */
    method PlaceCenter(c: Coord)
      requires Valid() && phase.AwaitingCenter? && listening && hoverFeature.None?
      modifies this`startPoint, this`centerFeature, this`radiusFeature, this`phase
      modifies layer`geometry, layer`source, layer`nextUid, layer`subs, layer`centerLink
      ensures Valid() && phase == Sizing && startPoint == Some(c)
      ensures centerFeature == Some(old(layer.nextUid)) && radiusFeature == Some(old(layer.nextUid) + 1)
      ensures layer.geometry == old(layer.geometry)[old(layer.nextUid) := Point(c)]
                                                   [old(layer.nextUid) + 1 := CirclePolygon(layer.sdk, c, 0.0)]
      ensures layer.source == old(layer.source) + {old(layer.nextUid), old(layer.nextUid) + 1}
      ensures layer.centerLink == old(layer.centerLink)[old(layer.nextUid) + 1 := old(layer.nextUid)]
      ensures layer.subs == old(layer.subs) - StartSubs(session) + SizingSubs(session)
    {
      startPoint := Some(c);
      var center, radius := AddShapes(c);
      centerFeature, radiusFeature := Some(center), Some(radius);
      layer.Listen(SizingSubs(session), StartSubs(session));
      phase := Sizing;
    }

    /** The centre point and the circle of radius 0, linked to each other. */
    method AddShapes(c: Coord) returns (center: Uid, radius: Uid)
      requires layer.Valid()
      modifies layer`geometry, layer`source, layer`nextUid, layer`centerLink
      ensures layer.Valid() && center == old(layer.nextUid) && radius == center + 1 && layer.nextUid == radius + 1
      ensures layer.geometry == old(layer.geometry)[center := Point(c)][radius := CirclePolygon(layer.sdk, c, 0.0)]
      ensures layer.source == old(layer.source) + {center, radius}
      ensures layer.centerLink == old(layer.centerLink)[radius := center]
    {
      center := layer.AddFeature(Point(c));
      radius := layer.AddFeature(CirclePolygon(layer.sdk, c, 0.0));
      layer.LinkCenter(radius, center);
    }

    /** `preMoveListener`: before the centre is set a hover point follows the pointer. */
    method PreMove(c: Coord)
      requires Valid() && Sub(session, PreMoveListener) in layer.subs
      modifies this`hoverFeature, layer`geometry, layer`source, layer`nextUid
      ensures Valid() && hoverFeature.Some? && layer.geometry == old(layer.geometry)[hoverFeature.value := Point(c)]
      ensures old(hoverFeature).Some? ==>
                hoverFeature == old(hoverFeature) && layer.source == old(layer.source) && layer.nextUid == old(layer.nextUid)
      ensures old(hoverFeature).None? ==> hoverFeature == Some(old(layer.nextUid)) && layer.nextUid == old(layer.nextUid) + 1
                                          && layer.source == old(layer.source) + {old(layer.nextUid)}
    {
      PhaseOfListener();
      if hoverFeature.None? {
        var f := layer.AddFeature(Point(c));
        hoverFeature := Some(f);
      } else {
        layer.SetGeometry(hoverFeature.value, Point(c));
      }
    }

    /** `moveListener`: the circle is redrawn with the planar distance from
        the centre to the pointer as its radius. */
    method Move(c: Coord)
      requires Valid() && Sub(session, MoveListener) in layer.subs
      modifies layer`geometry
      ensures Valid() && startPoint.Some? && radiusFeature.Some?
      ensures layer.geometry == old(layer.geometry)[radiusFeature.value :=
                CirclePolygon(layer.sdk, startPoint.value, SegmentLength(layer.sdk, startPoint.value, c))]
    {
      PhaseOfListener();
      var radius := SegmentLength(layer.sdk, startPoint.value, c);
      layer.SetGeometry(radiusFeature.value, CirclePolygon(layer.sdk, startPoint.value, radius));
    }

    /** Shows the radius read off the circle in a popup at its interior point. */
    method RecordRadius()
      requires Valid() && phase.Sizing?
      modifies layer`measureOverlays, layer`measureFeatures, layer`mapOverlays, layer`nextUid
      ensures Valid()
      ensures layer.measureOverlays == old(layer.measureOverlays)
                + [OverlayInfo(old(layer.nextUid), radiusFeature.value, AnchorOf(layer.sdk, Shape()), Radius,
                               FormatRadius(layer.sdk, Shape()))]
      ensures layer.measureFeatures == old(layer.measureFeatures) + [radiusFeature.value]
      ensures layer.mapOverlays == old(layer.mapOverlays) + {old(layer.nextUid)}
    {
      var circle := layer.geometry[radiusFeature.value];
      layer.CreateMeasurePopup(radiusFeature.value, Radius, FormatRadius(layer.sdk, circle));
    }

    /** `finishRadius`: fix the radius, show it in a popup, remove the centre
        point and its link, and listen for the completed-cancel pair only. */
    method Finish(c: Coord)
      requires Valid() && Sub(session, FinishListener) in layer.subs
      modifies this, layer
      ensures Valid() && phase == Finished && listening
      ensures old(startPoint).Some? && old(radiusFeature).Some? && old(centerFeature).Some?
      ensures startPoint.None? && radiusFeature.None? && centerFeature.None?
      ensures var circle := CirclePolygon(layer.sdk, old(startPoint).value, SegmentLength(layer.sdk, old(startPoint).value, c));
              layer.geometry == old(layer.geometry)[old(radiusFeature).value := circle]
              && layer.measureOverlays == old(layer.measureOverlays)
                   + [OverlayInfo(old(layer.nextUid), old(radiusFeature).value, AnchorOf(layer.sdk, circle), Radius,
                                  FormatRadius(layer.sdk, circle))]
      ensures layer.measureFeatures == old(layer.measureFeatures) + [old(radiusFeature).value]
      ensures layer.mapOverlays == old(layer.mapOverlays) + {old(layer.nextUid)}
      ensures layer.source == old(layer.source) - {old(centerFeature).value}
      ensures layer.centerLink == old(layer.centerLink) - {old(radiusFeature).value}
      ensures layer.subs == old(layer.subs) - CancelledSubs(session) + DoneSubs(session)
      ensures layer.currentMeasureType == old(layer.currentMeasureType)
    {
      PhaseOfListener();
      var start, radius := startPoint.value, radiusFeature.value;
      layer.SetGeometry(radius, CirclePolygon(layer.sdk, start, SegmentLength(layer.sdk, start, c)));
      RecordRadius();
      DropCenter();
      EndSizing();
    }

    /** Removes the centre point and unlinks it from the circle. */
    method DropCenter()
      requires Valid() && phase.Sizing?
      modifies layer`source, layer`centerLink
      ensures Valid()
      ensures layer.source == old(layer.source) - {centerFeature.value}
      ensures layer.centerLink == old(layer.centerLink) - {radiusFeature.value}
    {
      layer.RemoveFeature(centerFeature.value);
      layer.UnlinkCenter(radiusFeature.value);
    }

    /** The end of `finishRadius`: the sizing listeners off, the run's
        variables cleared, the completed-cancel pair on. */
    method EndSizing()
      requires Valid() && phase.Sizing? && listening
      modifies this`startPoint, this`radiusFeature, this`centerFeature, this`phase, layer`subs
      ensures Valid() && phase == Finished && listening
      ensures startPoint.None? && radiusFeature.None? && centerFeature.None?
      ensures layer.subs == old(layer.subs) - CancelledSubs(session) + DoneSubs(session)
    {
      layer.Listen(DoneSubs(session), CancelledSubs(session));
      startPoint, radiusFeature, centerFeature := None, None, None;
      phase := Finished;
    }

    /** `cancelMeasurement` (right click, or Esc through `escKeyListener`):
        every listener of the run off; since it is only subscribed once the
        centre and the circle exist, the circle is kept with its popup and
        its centre point stays in the source, linked to it. */
    method Cancel()
      requires Valid() && Sub(session, CancelMeasurement) in layer.subs
      modifies this, layer
      ensures Valid() && phase == AwaitingCenter && !listening
      ensures startPoint.None? && radiusFeature.None? && centerFeature.None? && hoverFeature.None?
      ensures old(phase).Sizing?
      ensures layer.measureOverlays == old(layer.measureOverlays)
                + [OverlayInfo(old(layer.nextUid), old(radiusFeature).value, AnchorOf(layer.sdk, old(Shape())), Radius,
                               FormatRadius(layer.sdk, old(Shape())))]
      ensures layer.measureFeatures == old(layer.measureFeatures) + [old(radiusFeature).value]
      ensures layer.mapOverlays == old(layer.mapOverlays) + {old(layer.nextUid)}
      ensures layer.source == old(layer.source) && layer.geometry == old(layer.geometry)
      ensures layer.centerLink == old(layer.centerLink)
      ensures layer.subs == old(layer.subs) - CancelledSubs(session)
      ensures layer.currentMeasureType == None
    {
      PhaseOfListener();
      StopListening();
      RecordRadius();
      ClearRun();
    }

    /** Every listener `cancelMeasurement` names off the map and the document. */
    method StopListening()
      requires Valid() && phase.Sizing?
      modifies this`listening, layer`subs
      ensures Valid() && !listening && layer.subs == old(layer.subs) - CancelledSubs(session)
    {
      layer.Listen({}, CancelledSubs(session));
      listening := false;
    }

    /** The end of `cancelMeasurement`: the run's variables cleared, no current tool. */
    method ClearRun()
      requires Valid() && phase.Sizing? && !listening
      modifies this`startPoint, this`radiusFeature, this`centerFeature, this`phase, layer`currentMeasureType
      ensures Valid() && phase == AwaitingCenter
      ensures startPoint.None? && radiusFeature.None? && centerFeature.None?
      ensures layer.currentMeasureType == None
    {
      startPoint, radiusFeature, centerFeature := None, None, None;
      phase := AwaitingCenter;
      layer.SetMeasureType(None);
    }

    /** `escKeyListener`: cancel on the Escape key, ignore other keys. */
    method EscKey(isEscape: bool)
      requires Valid() && Sub(session, EscKeyListener) in layer.subs
      modifies this, layer
      ensures Valid()
      ensures !isEscape ==> unchanged(this) && unchanged(layer)
      ensures isEscape ==> phase == AwaitingCenter && !listening
      ensures isEscape ==> startPoint.None? && radiusFeature.None? && centerFeature.None? && hoverFeature.None?
      ensures isEscape ==> old(phase).Sizing?
      ensures isEscape ==>
                layer.measureOverlays == old(layer.measureOverlays)
                  + [OverlayInfo(old(layer.nextUid), old(radiusFeature).value, AnchorOf(layer.sdk, old(Shape())), Radius,
                                 FormatRadius(layer.sdk, old(Shape())))]
                && layer.measureFeatures == old(layer.measureFeatures) + [old(radiusFeature).value]
                && layer.mapOverlays == old(layer.mapOverlays) + {old(layer.nextUid)}
      ensures isEscape ==> layer.source == old(layer.source) && layer.geometry == old(layer.geometry)
      ensures isEscape ==> layer.centerLink == old(layer.centerLink)
      ensures isEscape ==> layer.subs == old(layer.subs) - CancelledSubs(session)
      ensures isEscape ==> layer.currentMeasureType == None
    {
      PhaseOfListener();
      if isEscape {
        Cancel();
      }
    }

    /** `completedCancelMeasurement`: the completed-cancel pair off and no current tool. */
    method CompletedCancel()
      requires Valid() && Sub(session, CompletedCancelMeasurement) in layer.subs
      modifies this`listening, layer`subs, layer`currentMeasureType
      ensures Valid() && !listening
      ensures layer.subs == old(layer.subs) - DoneSubs(session)
      ensures layer.currentMeasureType == None
    {
      PhaseOfListener();
      layer.Listen({}, DoneSubs(session));
      layer.SetMeasureType(None);
      listening := false;
    }

    /** `completedEscKeyListener`: the completed-cancel on the Escape key. */
    method CompletedEscKey(isEscape: bool)
      requires Valid() && Sub(session, CompletedEscKeyListener) in layer.subs
      modifies this`listening, layer`subs, layer`currentMeasureType
      ensures Valid()
      ensures !isEscape ==> layer.subs == old(layer.subs) && layer.currentMeasureType == old(layer.currentMeasureType)
      ensures isEscape ==> !listening && layer.currentMeasureType == None
    {
      PhaseOfListener();
      if isEscape {
        CompletedCancel();
      }
    }
  }
}
