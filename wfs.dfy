/** The clustered WFS vector layers: the style of a cluster by its size, and
    the visibility and `wfsActive` flags per layer name. */
module Wfs {
  import opened Geo
  import Wms

  /** The three fill colours of a cluster circle. */
  datatype Fill = Red | Orange | LightOrange

  /** The hex colour `clusterStyle` writes for a fill. */
  function Hex(f: Fill): (r: string)
    ensures |r| == 7 && r[0] == '#'
  {
    match f
    case Red => "#ff4444"
    case Orange => "#ff6b35"
    case LightOrange => "#ff8c42"
  }

  /** The three fills are told apart by their colours. */
  lemma HexDistinct(f: Fill, g: Fill)
    requires f != g
    ensures Hex(f) != Hex(g)
  {
  }

  /** The label of a cluster: the count itself, or thousands with one decimal
      and a "k" (`tenths / 10` thousands). */
  datatype ClusterLabel = Count(n: nat) | Thousands(tenths: int)

  /** The style `clusterStyle` returns: the configured icon for a single
      feature, else a circle of `radius` pixels with a fill, a label and a
      bold Arial font of `fontPx` pixels. */
  datatype ClusterStyle =
    | Icon
    | Bubble(radius: int, fill: Fill, text: ClusterLabel, fontPx: int)

  /** `clusterStyle` for a cluster of `size` features. */
  function ClusterStyleFor(size: nat): (r: ClusterStyle)
    ensures r.Icon? <==> size == 1
    ensures r.Bubble? ==> 12 <= r.radius <= 40
    ensures r.Bubble? ==> (r.fill == Red <==> size > 100)
    ensures r.Bubble? ==> (r.fill == Orange <==> 50 < size <= 100)
    ensures r.Bubble? ==> (r.fill == LightOrange <==> size <= 50)
    ensures r.Bubble? ==> (r.text.Thousands? <==> size > 999) && (r.fontPx == 12 <==> size > 999)
    ensures r.Bubble? && size <= 999 ==> r.text == Count(size) && r.fontPx == 14
    ensures r.Bubble? && size > 999 ==>
              -1.0 / 2.0 < r.text.tenths as real - size as real / 100.0 <= 1.0 / 2.0
  {
    if size == 1 then Icon
    else
      // two pixels per feature over 8, clamped to 12..40
      var grown := size * 2 + 8;
      var radius := if grown < 12 then 12 else if grown > 40 then 40 else grown;
      var fill := if size > 100 then Red else if size > 50 then Orange else LightOrange;
      var text := if size > 999 then Thousands(Round(size as real / 1000.0 * 10.0)) else Count(size);
      Bubble(radius, fill, text, if size > 999 then 12 else 14)
  }

  /** The circle grows by 2 pixels per feature from 12 pixels at 2 features to
      its cap of 40 pixels at 16, and never shrinks as the cluster grows. */
  lemma ClusterRadius(size: nat, larger: nat)
    requires size != 1 && larger != 1 && size <= larger
    ensures 2 <= size <= 16 ==> ClusterStyleFor(size).radius == 2 * size + 8
    ensures size >= 16 ==> ClusterStyleFor(size).radius == 40
    ensures ClusterStyleFor(size).radius <= ClusterStyleFor(larger).radius
  {
  }

  /** The information `getWfsLayerInfo` returns about a known layer: its
      display name, its visibility and its source's features with their count. */
  datatype LayerInfo = LayerInfo(title: string, visible: bool, featureCount: nat, features: seq<FeatureId>)

  /** A feature of a WFS source, by identity. */
  type FeatureId = nat

  /** The module dictionaries `wfsLayers` (by visibility) and `wfsActive`,
      with each layer's configured display name. */
  class WfsLayers {
    /** `WFS_CONFIG[name].name` for every configured layer. */
    const titles: map<string, string>
    var visible: map<string, bool>
    var active: map<string, bool>

    /** One layer per configured name, each with an active flag that
        mirrors its visibility. */
    ghost predicate Valid()
      reads this
    {
      && visible.Keys == titles.Keys
      && active.Keys == titles.Keys
      && forall n :: n in visible ==> active[n] == visible[n]
    }

    /** `initializeWfsLayers`: one hidden, inactive layer per configured name. */
    constructor (titles: map<string, string>)
      ensures Valid() && this.titles == titles
      ensures forall n :: n in visible ==> !visible[n]
    {
      this.titles := titles;
      visible := map n | n in titles :: false;
      active := map n | n in titles :: false;
    }

    /** `toggleWfsLayer`: an unknown name returns `undefined` and changes
        nothing; otherwise the layer's visibility flips, its active flag
        follows, and the new visibility is returned. */
    method Toggle(name: string) returns (r: Option<bool>)
      requires Valid()
      modifies this`visible, this`active
      ensures Valid()
      ensures r.None? <==> name !in titles
      ensures visible == Flipped(old(visible), name)
      ensures r.None? ==> active == old(active)
      ensures r.Some? ==> r.value == visible[name]
    {
      if name !in visible {
        return None;
      }
      var isVisible := visible[name];
      visible := visible[name := !isVisible];
      active := active[name := !isVisible];
      return Some(!isVisible);
    }

    /** `clearAllWfsLayers`: every layer hidden and inactive. */
    method ClearAll()
      requires Valid()
      modifies this`visible, this`active
      ensures Valid()
      ensures forall n :: n in visible ==> !visible[n] && !active[n]
    {
      var remaining := visible.Keys;
      while remaining != {}
        invariant Valid() && remaining <= titles.Keys
        invariant forall n :: n in visible && n !in remaining ==> !visible[n]
        decreases remaining
      {
        var n :| n in remaining;
        visible := visible[n := false];
        active := active[n := false];
        remaining := remaining - {n};
      }
    }

    /** `toggleConvenienceStore`: without the WMS layer, `false` and no flag
        changed; with it, only the WMS layer of that name flips (and is
        refreshed when it comes on), the result is its new visibility, and
        the WFS layer of the same name is left off while every other WFS
        layer keeps its flags. */
    method ToggleConvenienceStore(wms: Wms.WmsLayers) returns (r: bool)
      requires Valid() && wms.Valid()
      modifies this`visible, this`active, wms
      ensures Valid() && wms.Valid()
      ensures Wms.ConvenienceStore !in old(wms.visible) ==>
                !r && visible == old(visible) && active == old(active) && unchanged(wms)
      ensures Wms.ConvenienceStore in old(wms.visible) ==>
                Wms.ConvenienceStore in wms.visible && r == wms.visible[Wms.ConvenienceStore]
                && r == !old(wms.visible)[Wms.ConvenienceStore]
                && (Wms.ConvenienceStore in visible ==> !visible[Wms.ConvenienceStore] && !active[Wms.ConvenienceStore])
      ensures Wms.ConvenienceStore in old(wms.visible) ==>
                wms.visible == Flipped(old(wms.visible), Wms.ConvenienceStore)
                && wms.refreshed == old(wms.refreshed) + (if r then [Wms.ConvenienceStore] else [])
      ensures visible.Keys == old(visible).Keys
      ensures forall n :: n in visible && n != Wms.ConvenienceStore ==>
                visible[n] == old(visible)[n] && active[n] == old(active)[n]
    {
      if Wms.ConvenienceStore !in wms.visible {
        return false;
      }
      var isActive := wms.Toggle(Wms.ConvenienceStore);
      if Wms.ConvenienceStore in active && active[Wms.ConvenienceStore] {
        var _ := Toggle(Wms.ConvenienceStore);
      }
      return isActive.value;
    }

    /** `getWfsLayerInfo`, given the features each layer's source holds:
        `null` for an unknown name. */
    function LayerInfoOf(name: string, sourceFeatures: string -> seq<FeatureId>): (r: Option<LayerInfo>)
      requires Valid()
      reads this
      ensures r.None? <==> name !in titles
      ensures r.Some? ==> r.value.title == titles[name] && r.value.visible == visible[name]
      ensures r.Some? ==> r.value.features == sourceFeatures(name) && r.value.featureCount == |r.value.features|
    {
      if name !in titles then None
      else
        var features := sourceFeatures(name);
        Some(LayerInfo(titles[name], visible[name], |features|, features))
    }

    /** `queryWfsFeaturesAt`, given what each layer's source finds at a
        coordinate: the empty list for an unknown name. */
    function FeaturesAt(coordinate: Coord, name: string, lookup: (string, Coord) -> seq<FeatureId>): (r: seq<FeatureId>)
      reads this
      ensures name !in titles ==> r == []
      ensures name in titles ==> r == lookup(name, coordinate)
    {
      if name !in titles then [] else lookup(name, coordinate)
    }
  }
}
