/** The background and overlay layers of the map: at most one background
    layer is shown, the one named by `currentLayer`, and overlays are
    switched on and off one by one. `map.js` and `map-layers.js` carry the
    same `switchLayer`/`toggleOverlay` code over their own dictionaries; one
    `LayerSet` models either. */
module Layers {
  import opened Geo

  /** The background layer shown when the page starts. */
  const Common: string := "common"

  /** The layers `initializeMap` creates, with their initial visibility. */
  const InitialBase: map<string, bool> := map["common" := true, "satellite" := false]
  const InitialOverlays: map<string, bool> := map["hybrid" := false]

  /** The visibility of the background layers and of the overlays, and the
      name of the current background. */
  class LayerSet {
    var baseVisible: map<string, bool>
    var overlayVisible: map<string, bool>
    var currentLayer: string

    /** A visible background layer is the current one. */
    ghost predicate Valid()
      reads this
    {
      forall n :: n in baseVisible && baseVisible[n] ==> n == currentLayer
    }

    /** The module variables with the layers `initializeMap` creates:
        `currentLayer` starts as "common", the one visible background. */
    constructor ()
      ensures Valid() && currentLayer == Common
      ensures baseVisible == InitialBase && overlayVisible == InitialOverlays
    {
      baseVisible, overlayVisible := InitialBase, InitialOverlays;
      currentLayer := Common;
    }

    /** `getCurrentLayer`: no other background layer is visible. */
    function CurrentLayer(): (r: string)
      requires Valid()
      reads this
      ensures forall n :: n in baseVisible && baseVisible[n] ==> n == r
    {
      currentLayer
    }

    /** `switchLayer`: every background hidden; a known name then shown and
        made current; an unknown name leaves none shown and the current name
        as it was. Overlays are untouched. */
    method SwitchLayer(layerType: string)
      requires Valid()
      modifies this`baseVisible, this`currentLayer
      ensures Valid()
      ensures baseVisible.Keys == old(baseVisible).Keys
      ensures layerType in baseVisible ==>
                currentLayer == layerType && forall n :: n in baseVisible ==> (baseVisible[n] <==> n == layerType)
      ensures layerType !in baseVisible ==>
                currentLayer == old(currentLayer) && forall n :: n in baseVisible ==> !baseVisible[n]
    {
      var remaining := baseVisible.Keys;
      while remaining != {}
        invariant remaining <= baseVisible.Keys && baseVisible.Keys == old(baseVisible).Keys
        invariant currentLayer == old(currentLayer)
        invariant forall n :: n in baseVisible ==> baseVisible[n] == (n in remaining && old(baseVisible)[n])
        decreases remaining
      {
        var n :| n in remaining;
        baseVisible := baseVisible[n := false];
        remaining := remaining - {n};
      }
      if layerType in baseVisible {
        baseVisible := baseVisible[layerType := true];
        currentLayer := layerType;
      }
    }

    /** `toggleOverlay`: only the named overlay flips; an unknown name
        changes nothing. */
    method ToggleOverlay(overlayType: string)
      modifies this`overlayVisible
      ensures overlayVisible == Flipped(old(overlayVisible), overlayType)
    {
      if overlayType in overlayVisible {
        overlayVisible := overlayVisible[overlayType := !overlayVisible[overlayType]];
      }
    }
  }
}
