/** The shared state of the measurement tools: the vector source the shapes
    live in, the two parallel registries of finished measurements
    (`measureOverlays`, `measureFeatures`), the popups on the map, the map and
    document listeners the tools have subscribed, and `currentMeasureType`. */
module MeasureRegistry {
  import opened Geo
  import opened MeasureFormat

  /** OpenLayers' `ol_uid`: every feature, overlay and tool session gets a fresh one. */
  type Uid = nat

  datatype MeasureType = Distance | Area | Radius | Angle

  /** One entry of `measureOverlays`: the popup overlay, the measured feature,
      where the popup is anchored, and what it displays. */
  datatype OverlayInfo = OverlayInfo(overlay: Uid, feature: Uid, anchor: Option<Coord>, kind: MeasureType, value: Label)

  /** The closures a tool subscribes; their identity is the name plus the tool session. */
  datatype Handler =
    | ClickListener | PreMoveListener | MoveListener | FinishListener
    | CancelMeasurement | EscKeyListener | CompletedCancelMeasurement | CompletedEscKeyListener

  /** A subscribed closure of one run of a tool. Each closure is only ever
      subscribed to one event: `click` for the click and finish listeners,
      `pointermove` for the two move listeners, the map's `contextmenu` for
      the two cancels and the document's `keydown` for the two Esc listeners. */
  datatype Sub = Sub(session: Uid, handler: Handler)

  /** Of the closures of run `s`, exactly those in `expected` are subscribed. */
  ghost predicate HoldsExactly(subs: set<Sub>, s: Uid, expected: set<Sub>)
  {
    forall h: Handler :: Sub(s, h) in subs <==> Sub(s, h) in expected
  }

  /** Where a popup is placed: the middle vertex of a line, the interior
      point of a polygon, nowhere (`undefined`) otherwise. */
  function AnchorOf(sdk: Sdk, g: Geometry): (r: Option<Coord>)
    ensures g.LineString? ==> (r.Some? <==> |g.coords| > 0)
    ensures g.LineString? && r.Some? ==> r.value in g.coords
    ensures g.Polygon? ==> r == Some(sdk.interiorPoint(g.rings))
    ensures (g.Point? || g.Circle?) ==> r.None?
  {
    match g
    case LineString(coords) => if |coords| == 0 then None else Some(coords[|coords| / 2])
    case Polygon(rings) => Some(sdk.interiorPoint(rings))
    case _ => None
  }

  /** The popup of an angle `A-B-C` sits on the vertex `B`; that of a two-point
      line on its second point. */
  lemma AnchorOfShortLines(sdk: Sdk, a: Coord, b: Coord, c: Coord)
    ensures AnchorOf(sdk, LineString([a, b, c])) == Some(b)
    ensures AnchorOf(sdk, LineString([a, b])) == Some(b)
  {
  }

  /** `measureOverlays.findIndex(info => info.feature.ol_uid === id)`. */
  function FindOverlay(os: seq<OverlayInfo>, id: Uid): (r: int)
    ensures -1 <= r < |os|
    ensures r == -1 <==> forall k :: 0 <= k < |os| ==> os[k].feature != id
    ensures r >= 0 ==> os[r].feature == id && forall k :: 0 <= k < r ==> os[k].feature != id
  {
    if |os| == 0 then -1
    else if os[0].feature == id then 0
    else
      var r := FindOverlay(os[1..], id);
      if r == -1 then -1 else r + 1
  }

  /** `measureFeatures.findIndex(f => f.ol_uid === id)`. */
  function FindFeature(fs: seq<Uid>, id: Uid): (r: int)
    ensures -1 <= r < |fs|
    ensures r == -1 <==> id !in fs
    ensures r >= 0 ==> fs[r] == id && id !in fs[..r]
  {
    if |fs| == 0 then -1
    else if fs[0] == id then 0
    else
      var r := FindFeature(fs[1..], id);
      assert fs[1..][..(if r < 0 then 0 else r)] == fs[1..(if r < 0 then 0 else r) + 1];
      if r == -1 then -1 else r + 1
  }

  /** The popup ids of a list of registry entries. */
  ghost function OverlayIds(os: seq<OverlayInfo>): set<Uid>
  {
    set i | 0 <= i < |os| :: os[i].overlay
  }

  /** Removing the entry at `i` from a list of entries with distinct popups
      removes exactly that popup's id. */
  lemma OverlayIdsRemove(os: seq<OverlayInfo>, i: nat)
    requires i < |os|
    requires forall j, k :: 0 <= j < k < |os| ==> os[j].overlay != os[k].overlay
    ensures OverlayIds(os[..i] + os[i + 1..]) == OverlayIds(os) - {os[i].overlay}
  {
    var rest := os[..i] + os[i + 1..];
    forall o | o in OverlayIds(rest) ensures o in OverlayIds(os) - {os[i].overlay} {
      var j :| 0 <= j < |rest| && rest[j].overlay == o;
      if j < i { assert rest[j] == os[j]; } else { assert rest[j] == os[j + 1]; }
    }
    forall o | o in OverlayIds(os) - {os[i].overlay} ensures o in OverlayIds(rest) {
      var j :| 0 <= j < |os| && os[j].overlay == o;
      if j < i { assert rest[j] == os[j]; } else { assert rest[j - 1] == os[j]; }
    }
  }

  /** The two registries are parallel, popups are distinct and every popup
      identifier is below `bound`. */
  ghost predicate Registered(os: seq<OverlayInfo>, fs: seq<Uid>, bound: nat)
  {
    |fs| == |os|
    && (forall i :: 0 <= i < |os| ==> fs[i] == os[i].feature)
    && (forall j, k :: 0 <= j < k < |os| ==> os[j].overlay != os[k].overlay)
    && (forall i :: 0 <= i < |os| ==> os[i].overlay < bound)
  }

  /** Every feature identifier was already handed out. */
  ghost predicate IdsBelow(ids: set<Uid>, bound: nat)
  {
    forall f :: f in ids ==> f < bound
  }

  /** Every listener belongs to a run that was already started. */
  ghost predicate SessionsBelow(subs: set<Sub>, bound: nat)
  {
    forall s :: s in subs ==> s.session < bound
  }

  /** Removing the same index from two parallel registries keeps them parallel
      and keeps the popups distinct. */
  lemma RemoveKeepsParallel(os: seq<OverlayInfo>, fs: seq<Uid>, i: nat, bound: nat)
    requires i < |os| && Registered(os, fs, bound)
    ensures Registered(os[..i] + os[i + 1..], fs[..i] + fs[i + 1..], bound)
  {
    var os', fs' := os[..i] + os[i + 1..], fs[..i] + fs[i + 1..];
    forall k | 0 <= k < |os'| ensures fs'[k] == os'[k].feature && os'[k].overlay < bound {
      if k < i { assert os'[k] == os[k] && fs'[k] == fs[k]; }
      else { assert os'[k] == os[k + 1] && fs'[k] == fs[k + 1]; }
    }
    forall j, k | 0 <= j < k < |os'| ensures os'[j].overlay != os'[k].overlay {
      var j0 := if j < i then j else j + 1;
      var k0 := if k < i then k else k + 1;
      assert os'[j] == os[j0] && os'[k] == os[k0];
    }
  }

  class MeasureLayer {
    const sdk: Sdk
    /** Features currently in `measureSource`. */
    var source: set<Uid>
    /** The geometry of every feature created so far. */
    var geometry: map<Uid, Geometry>
    /** The `"centerFeature"` property of a feature, where it is set and not null. */
    var centerLink: map<Uid, Uid>
    var measureOverlays: seq<OverlayInfo>
    var measureFeatures: seq<Uid>
    /** Popup overlays currently added to the map. */
    var mapOverlays: set<Uid>
    /** Listeners the tools hold on the map and the document. */
    var subs: set<Sub>
    var currentMeasureType: Option<MeasureType>
    /** Next fresh `ol_uid`. */
    var nextUid: nat

    /** The two registries are parallel, the map shows exactly their popups,
        and every identifier in use was handed out already. */
    ghost predicate Valid()
      reads this
    {
      Registered(measureOverlays, measureFeatures, nextUid)
      && mapOverlays == OverlayIds(measureOverlays)
      && IdsBelow(geometry.Keys, nextUid)
      && source <= geometry.Keys
      && SessionsBelow(subs, nextUid)
    }

    constructor (sdk: Sdk)
      ensures Valid() && this.sdk == sdk
      ensures source == {} && geometry == map[] && centerLink == map[]
      ensures measureOverlays == [] && measureFeatures == [] && mapOverlays == {}
      ensures subs == {} && currentMeasureType == None
    {
      this.sdk := sdk;
      source, geometry, centerLink := {}, map[], map[];
      measureOverlays, measureFeatures, mapOverlays := [], [], {};
      subs, currentMeasureType, nextUid := {}, None, 0;
    }

    /** `createMeasurePopup`: one popup on the map, one entry in each registry. */
    method CreateMeasurePopup(feature: Uid, kind: MeasureType, value: Label)
      requires Valid() && feature in geometry
      modifies this`measureOverlays, this`measureFeatures, this`mapOverlays, this`nextUid
      ensures Valid()
      ensures nextUid == old(nextUid) + 1
      ensures measureOverlays == old(measureOverlays)
                + [OverlayInfo(old(nextUid), feature, AnchorOf(sdk, geometry[feature]), kind, value)]
      ensures measureFeatures == old(measureFeatures) + [feature]
      ensures mapOverlays == old(mapOverlays) + {old(nextUid)}
    {
      var overlay := nextUid;
      nextUid := nextUid + 1;
      var info := OverlayInfo(overlay, feature, AnchorOf(sdk, geometry[feature]), kind, value);
      assert OverlayIds(measureOverlays + [info]) == OverlayIds(measureOverlays) + {overlay} by {
        var os := measureOverlays + [info];
        forall o | o in OverlayIds(os) ensures o in OverlayIds(measureOverlays) + {overlay} {
          var j :| 0 <= j < |os| && os[j].overlay == o;
          if j < |measureOverlays| { assert os[j] == measureOverlays[j]; }
        }
        forall o | o in OverlayIds(measureOverlays) ensures o in OverlayIds(os) {
          var j :| 0 <= j < |measureOverlays| && measureOverlays[j].overlay == o;
          assert os[j] == measureOverlays[j];
        }
        assert os[|measureOverlays|] == info;
      }
      measureOverlays := measureOverlays + [info];
      measureFeatures := measureFeatures + [feature];
      mapOverlays := mapOverlays + {overlay};
    }

    /** `closeMeasurePopup`: forget the first finished measurement of `id`,
        taking its popup off the map and its shape (and the centre point a
        radius shape is linked to) out of the source. */
    method CloseMeasurePopup(id: Uid)
      requires Valid()
      modifies this`measureOverlays, this`measureFeatures, this`mapOverlays, this`source
      ensures Valid()
      ensures var i := FindOverlay(old(measureOverlays), id);
              if i == -1 then
                measureOverlays == old(measureOverlays) && measureFeatures == old(measureFeatures)
                && mapOverlays == old(mapOverlays) && source == old(source)
              else
                measureOverlays == old(measureOverlays)[..i] + old(measureOverlays)[i + 1..]
                && measureFeatures == old(measureFeatures)[..i] + old(measureFeatures)[i + 1..]
                && mapOverlays == old(mapOverlays) - {old(measureOverlays)[i].overlay}
                && source == old(source) - {id} - (if id in centerLink then {centerLink[id]} else {})
    {
      var idx := FindOverlay(measureOverlays, id);
      if idx != -1 {
        var info := measureOverlays[idx];
        var fidx := FindFeature(measureFeatures, id);
        assert fidx == idx by {
          assert measureFeatures[idx] == id;
          assert id !in measureFeatures[..idx];
        }
        RemoveKeepsParallel(measureOverlays, measureFeatures, idx, nextUid);
        OverlayIdsRemove(measureOverlays, idx);
        var os', fs' := measureOverlays[..idx] + measureOverlays[idx + 1..], measureFeatures[..fidx] + measureFeatures[fidx + 1..];
        mapOverlays := mapOverlays - {info.overlay};
        source := source - {info.feature};
        if info.feature in centerLink {
          source := source - {centerLink[info.feature]};
        }
        measureOverlays := os';
        measureFeatures := fs';
      }
    }

    /** `deleteMeasure`: the popup's delete button, which closes it the same way. */
    method DeleteMeasure(id: Uid)
      requires Valid()
      modifies this`measureOverlays, this`measureFeatures, this`mapOverlays, this`source
      ensures Valid()
      ensures var i := FindOverlay(old(measureOverlays), id);
              if i == -1 then
                measureOverlays == old(measureOverlays) && measureFeatures == old(measureFeatures)
                && mapOverlays == old(mapOverlays) && source == old(source)
              else
                measureOverlays == old(measureOverlays)[..i] + old(measureOverlays)[i + 1..]
                && measureFeatures == old(measureFeatures)[..i] + old(measureFeatures)[i + 1..]
                && mapOverlays == old(mapOverlays) - {old(measureOverlays)[i].overlay}
                && source == old(source) - {id} - (if id in centerLink then {centerLink[id]} else {})
    {
      CloseMeasurePopup(id);
    }

    /** `clearMeasurements`: every popup off the map, both registries and the
        source emptied, no current tool. Listeners are left alone. */
    method ClearMeasurements()
      requires Valid()
      modifies this`measureOverlays, this`measureFeatures, this`mapOverlays, this`source, this`currentMeasureType
      ensures Valid()
      ensures measureOverlays == [] && measureFeatures == [] && mapOverlays == {} && source == {}
      ensures currentMeasureType == None
    {
      var i := 0;
      while i < |measureOverlays|
        invariant 0 <= i <= |measureOverlays|
        invariant measureOverlays == old(measureOverlays)
        invariant mapOverlays == old(mapOverlays) - OverlayIds(measureOverlays[..i])
      {
        assert OverlayIds(measureOverlays[..i + 1]) == OverlayIds(measureOverlays[..i]) + {measureOverlays[i].overlay} by {
          var pre, pre1 := measureOverlays[..i], measureOverlays[..i + 1];
          forall o | o in OverlayIds(pre1) ensures o in OverlayIds(pre) + {measureOverlays[i].overlay} {
            var j :| 0 <= j < |pre1| && pre1[j].overlay == o;
            if j < i { assert pre1[j] == pre[j]; }
          }
          forall o | o in OverlayIds(pre) ensures o in OverlayIds(pre1) {
            var j :| 0 <= j < |pre| && pre[j].overlay == o;
            assert pre1[j] == pre[j];
          }
          assert pre1[i] == measureOverlays[i];
        }
        mapOverlays := mapOverlays - {measureOverlays[i].overlay};
        i := i + 1;
      }
      assert measureOverlays[..i] == measureOverlays;
      assert mapOverlays == {};
      measureOverlays := [];
      assert OverlayIds(measureOverlays) == {};
      measureFeatures := [];
      source := {};
      currentMeasureType := None;
    }

    /** A new feature with geometry `g`, added to the source. */
    method AddFeature(g: Geometry) returns (f: Uid)
      requires Valid()
      modifies this`geometry, this`source, this`nextUid
      ensures Valid()
      ensures f == old(nextUid) && nextUid == old(nextUid) + 1
      ensures geometry == old(geometry)[f := g] && source == old(source) + {f}
    {
      f := nextUid;
      nextUid := nextUid + 1;
      geometry := geometry[f := g];
      source := source + {f};
    }

    /** `measureSource.removeFeature`. */
    method RemoveFeature(f: Uid)
      requires Valid()
      modifies this`source
      ensures Valid() && source == old(source) - {f}
    {
      source := source - {f};
    }

    /** `geometry.setCoordinates` on an existing feature. */
    method SetGeometry(f: Uid, g: Geometry)
      requires Valid() && f in geometry
      modifies this`geometry
      ensures Valid() && geometry == old(geometry)[f := g]
    {
      geometry := geometry[f := g];
    }

    /** `map.on` / `addEventListener` for listeners of existing runs, and
        `map.un` / `removeEventListener` for `off`; a listener already
        subscribed is not added twice. */
    method Listen(on: set<Sub>, off: set<Sub>)
      requires Valid() && forall s :: s in on ==> s.session < nextUid
      modifies this`subs
      ensures Valid() && subs == old(subs) - off + on
    {
      subs := subs - off + on;
    }

    /** `radiusFeature.set("centerFeature", centerFeature)`. */
    method LinkCenter(radius: Uid, center: Uid)
      requires Valid()
      modifies this`centerLink
      ensures Valid() && centerLink == old(centerLink)[radius := center]
    {
      centerLink := centerLink[radius := center];
    }

    /** `radiusFeature.set("centerFeature", null)`. */
    method UnlinkCenter(radius: Uid)
      requires Valid()
      modifies this`centerLink
      ensures Valid() && centerLink == old(centerLink) - {radius}
    {
      centerLink := centerLink - {radius};
    }

    /** Sets `currentMeasureType`. */
    method SetMeasureType(t: Option<MeasureType>)
      requires Valid()
      modifies this`currentMeasureType
      ensures Valid() && currentMeasureType == t
    {
      currentMeasureType := t;
    }

    /** A fresh identifier for one run of a tool (the closures of one call of `measureAngle` or `measureRadius`). */
    method NewSession() returns (s: Uid)
      requires Valid()
      modifies this`nextUid
      ensures Valid()
      ensures s == old(nextUid) && nextUid == old(nextUid) + 1
    {
      s := nextUid;
      nextUid := nextUid + 1;
    }
  }
}
