/** The WMS tile layers: a visibility flag per layer name, the `wmsActive`
    dictionary beside it, and the source refreshes a toggle triggers. */
module Wms {
  import opened Geo

  /** The one layer name the WMS configuration defines. */
  const ConvenienceStore: string := "convenience_store"

  /** The module dictionaries `wmsLayers` (by visibility) and `wmsActive`. */
  class WmsLayers {
    /** `wmsLayers[name].getVisible()` for every created layer. */
    var visible: map<string, bool>
    /** `wmsActive[name]`. */
    var active: map<string, bool>
    /** The layers whose source has been refreshed, in call order. */
    var refreshed: seq<string>

    /** Every layer has an active flag, and the flag mirrors its visibility. */
    ghost predicate Valid()
      reads this
    {
      active.Keys == visible.Keys && forall n :: n in visible ==> active[n] == visible[n]
    }

    /** `initializeWmsLayers`: one hidden, inactive layer per configured name. */
    constructor (names: set<string>)
      ensures Valid() && visible.Keys == names && refreshed == []
      ensures forall n :: n in visible ==> !visible[n]
    {
      visible := map n | n in names :: false;
      active := map n | n in names :: false;
      refreshed := [];
    }

    /** `toggleWmsLayer`: an unknown name returns `undefined` and changes
        nothing; otherwise the layer's visibility flips, its active flag
        follows, the source is refreshed exactly when the layer comes on,
        and the new visibility is returned. */
    method Toggle(name: string) returns (r: Option<bool>)
      requires Valid()
      modifies this
      ensures Valid()
      ensures r.None? <==> name !in old(visible)
      ensures r.None? ==> unchanged(this)
      ensures visible == Flipped(old(visible), name)
      ensures r.Some? ==> r.value == visible[name]
      ensures r.Some? && r.value ==> refreshed == old(refreshed) + [name]
      ensures r.Some? && !r.value ==> refreshed == old(refreshed)
    {
      if name !in visible {
        return None;
      }
      var isVisible := visible[name];
      visible := visible[name := !isVisible];
      active := active[name := !isVisible];
      if !isVisible {
        refreshed := refreshed + [name];
      }
      return Some(!isVisible);
    }
  }
}
