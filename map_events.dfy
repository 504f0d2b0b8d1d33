/** `MapEventManager`: a registry, keyed by a caller-chosen id, of the
    listeners it has put on the map and on the map's view, with at most one
    listener per event type under each id. */
module MapEvents {

  /** The six event types the manager registers. */
  datatype EventType = ChangeResolution | MoveEnd | Click | SingleClick | PointerMove | ContextMenu

  /** What a listener is attached to: the map's view or the map itself. */
  datatype Target = View | Map

  /** `change:resolution` is a view event; the five others are map events. */
  function TargetOf(t: EventType): (r: Target)
    ensures r == View <==> t == ChangeResolution
  {
    if t == ChangeResolution then View else Map
  }

  type Id = string

  /** One stored `{type, listener, target}` record; the listener closure
      itself is identified by the id and type it was registered under, which
      the no-duplicate rule makes unique among live closures. */
  datatype Entry = Entry(kind: EventType, target: Target)

  /** One key of the `eventListeners` Map with its list of records. */
  datatype Slot = Slot(id: Id, entries: seq<Entry>)

  /** A listener closure attached to a target with `on(type, listener)`. */
  datatype Listener = Listener(owner: Id, kind: EventType, target: Target)

  /** An element of the list `getRegisteredHandlers` returns. */
  datatype Registration = Registration(id: Id, kind: EventType)

  /** The records under one id: at least one (a key is only created to push
      onto it), pairwise different types, each on the target its type names. */
  ghost predicate SlotOk(es: seq<Entry>)
  {
    && |es| > 0
    && (forall i, j :: 0 <= i < j < |es| ==> es[i].kind != es[j].kind)
    && (forall i :: 0 <= i < |es| ==> es[i].target == TargetOf(es[i].kind))
  }

  /** The Map's keys are distinct and every key's list is well formed. */
  ghost predicate Registry(table: seq<Slot>)
  {
    && (forall i, j :: 0 <= i < j < |table| ==> table[i].id != table[j].id)
    && (forall i :: 0 <= i < |table| ==> SlotOk(table[i].entries))
  }

  /** Whether some record under this id has this type (`find` on the list). */
  function HasKind(es: seq<Entry>, kind: EventType): (r: bool)
    ensures r <==> exists i :: 0 <= i < |es| && es[i].kind == kind
  {
    exists i :: 0 <= i < |es| && es[i].kind == kind
  }

  /** Position of `id` among the keys, -1 when absent (`has`/`get`). */
  function IndexOf(table: seq<Slot>, id: Id): (r: int)
    ensures -1 <= r < |table|
    ensures r == -1 <==> forall i :: 0 <= i < |table| ==> table[i].id != id
    ensures r >= 0 ==> table[r].id == id
  {
    if |table| == 0 then -1
    else if table[|table| - 1].id == id then |table| - 1
    else IndexOf(table[..|table| - 1], id)
  }

  /** The listeners the records of one key stand for. */
  ghost function SlotListeners(s: Slot): set<Listener>
  {
    set e | e in s.entries :: Listener(s.id, e.kind, e.target)
  }

  /** The listeners the whole Map stands for. */
  ghost function Attached(table: seq<Slot>): set<Listener>
  {
    set i, e | 0 <= i < |table| && e in table[i].entries :: Listener(table[i].id, e.kind, e.target)
  }

  /** Adding a key at the end adds exactly that key's listeners. */
  lemma AttachedAppend(table: seq<Slot>, s: Slot)
    ensures Attached(table + [s]) == Attached(table) + SlotListeners(s)
  {
    var t := table + [s];
    forall l | l in Attached(t)
      ensures l in Attached(table) + SlotListeners(s)
    {
      var i, e :| 0 <= i < |t| && e in t[i].entries && l == Listener(t[i].id, e.kind, e.target);
      if i < |table| {
        assert t[i] == table[i];
      }
    }
    forall l | l in Attached(table)
      ensures l in Attached(t)
    {
      var i, e :| 0 <= i < |table| && e in table[i].entries && l == Listener(table[i].id, e.kind, e.target);
      assert t[i] == table[i];
    }
    forall l | l in SlotListeners(s)
      ensures l in Attached(t)
    {
      var e :| e in s.entries && l == Listener(s.id, e.kind, e.target);
      assert t[|table|] == s;
    }
  }

  /** Taking one key out of a registry takes out exactly that key's listeners. */
  lemma AttachedRemove(table: seq<Slot>, k: nat)
    requires k < |table| && Registry(table)
    ensures Attached(table[..k] + table[k + 1..]) == Attached(table) - SlotListeners(table[k])
  {
    var t := table[..k] + table[k + 1..];
    forall l | l in Attached(t)
      ensures l in Attached(table) - SlotListeners(table[k])
    {
      var i, e :| 0 <= i < |t| && e in t[i].entries && l == Listener(t[i].id, e.kind, e.target);
      var j := if i < k then i else i + 1;
      assert t[i] == table[j];
      assert table[j].id != table[k].id;
    }
    forall l | l in Attached(table) - SlotListeners(table[k])
      ensures l in Attached(t)
    {
      var j, e :| 0 <= j < |table| && e in table[j].entries && l == Listener(table[j].id, e.kind, e.target);
      assert l in SlotListeners(table[j]);
      if j < k {
        assert t[j] == table[j];
      } else {
        assert t[j - 1] == table[j];
      }
    }
  }

  /** Appending a record to one key adds exactly its listener. */
  lemma AttachedExtend(table: seq<Slot>, k: nat, e: Entry)
    requires k < |table|
    ensures Attached(table[k := Slot(table[k].id, table[k].entries + [e])])
         == Attached(table) + {Listener(table[k].id, e.kind, e.target)}
  {
    var t := table[k := Slot(table[k].id, table[k].entries + [e])];
    forall l | l in Attached(t)
      ensures l in Attached(table) + {Listener(table[k].id, e.kind, e.target)}
    {
      var i, f :| 0 <= i < |t| && f in t[i].entries && l == Listener(t[i].id, f.kind, f.target);
      if i != k {
        assert t[i] == table[i];
      } else if f != e {
        assert f in table[k].entries;
      }
    }
    forall l | l in Attached(table)
      ensures l in Attached(t)
    {
      var i, f :| 0 <= i < |table| && f in table[i].entries && l == Listener(table[i].id, f.kind, f.target);
      assert f in t[i].entries;
    }
    assert e in t[k].entries;
  }

  /** The list `getRegisteredHandlers` builds for one key. */
  function SlotPairs(s: Slot): (r: seq<Registration>)
    ensures |r| == |s.entries|
    ensures forall j :: 0 <= j < |r| ==> r[j] == Registration(s.id, s.entries[j].kind)
  {
    seq(|s.entries|, j requires 0 <= j < |s.entries| => Registration(s.id, s.entries[j].kind))
  }

  /** The list for the whole Map: key by key in insertion order, and each
      key's records in the order they were pushed. */
  function Pairs(table: seq<Slot>): seq<Registration>
  {
    if |table| == 0 then [] else Pairs(table[..|table| - 1]) + SlotPairs(table[|table| - 1])
  }

  /** How many records the Map holds in all. */
  function EntryCount(table: seq<Slot>): nat
  {
    if |table| == 0 then 0 else EntryCount(table[..|table| - 1]) + |table[|table| - 1].entries|
  }

  /** One pair per stored record: the list is as long as the records are
      many, and a pair is listed exactly when some key holds a record of it. */
  lemma {:induction false} PairsExact(table: seq<Slot>)
    ensures |Pairs(table)| == EntryCount(table)
    ensures forall r :: r in Pairs(table) <==>
              exists i, j :: 0 <= i < |table| && 0 <= j < |table[i].entries|
                             && table[i].id == r.id && table[i].entries[j].kind == r.kind
  {
    if |table| > 0 {
      var front, last := table[..|table| - 1], table[|table| - 1];
      PairsExact(front);
      forall r
        ensures r in Pairs(table) <==>
                exists i, j :: 0 <= i < |table| && 0 <= j < |table[i].entries|
                               && table[i].id == r.id && table[i].entries[j].kind == r.kind
      {
        if r in Pairs(table) {
          if r in Pairs(front) {
            var i, j :| 0 <= i < |front| && 0 <= j < |front[i].entries|
                        && front[i].id == r.id && front[i].entries[j].kind == r.kind;
            assert table[i] == front[i];
          } else {
            var j :| 0 <= j < |SlotPairs(last)| && SlotPairs(last)[j] == r;
            assert table[|table| - 1].entries[j].kind == r.kind;
          }
        }
        if exists i, j :: 0 <= i < |table| && 0 <= j < |table[i].entries|
                          && table[i].id == r.id && table[i].entries[j].kind == r.kind {
          var i, j :| 0 <= i < |table| && 0 <= j < |table[i].entries|
                      && table[i].id == r.id && table[i].entries[j].kind == r.kind;
          if i < |front| {
            assert front[i] == table[i];
            assert r in Pairs(front);
          } else {
            assert SlotPairs(last)[j] == r;
          }
        }
      }
    }
  }

  /** The `eventListeners` Map with the listeners it has attached. */
  class EventManager {
    /** Whether `getMap()` returns a map; registration does nothing without one. */
    const hasMap: bool
    /** The Map's entries in key insertion order. */
    var table: seq<Slot>
    /** The manager's listeners currently attached to the map and the view. */
    var attached: set<Listener>

    /** Every attached listener is recorded and every record is attached. */
    ghost predicate Valid()
      reads this
    {
      Registry(table) && attached == Attached(table)
    }

    /** The empty registry. */
    constructor (hasMap: bool)
      ensures Valid() && this.hasMap == hasMap && table == [] && attached == {}
    {
      this.hasMap := hasMap;
      table, attached := [], {};
    }

    /** `hasHandler`: whether the id is a key. */
    function HasHandler(id: Id): (r: bool)
      reads this
      ensures r <==> exists i :: 0 <= i < |table| && table[i].id == id
    {
      IndexOf(table, id) >= 0
    }

    /** The id already holds a listener of this type. */
    function Duplicate(id: Id, kind: EventType): (r: bool)
      requires Valid()
      reads this
      ensures r <==> exists i, j :: 0 <= i < |table| && 0 <= j < |table[i].entries|
                                   && table[i].id == id && table[i].entries[j].kind == kind
    {
      var k := IndexOf(table, id);
      assert forall i :: 0 <= i < |table| && table[i].id == id ==> i == k;
      k >= 0 && HasKind(table[k].entries, kind)
    }

    /** `registerZoomHandler`, `registerMoveHandler`, `registerClickHandler`,
        `registerSingleClickHandler`, `registerPointerMoveHandler` and
        `registerContextMenuHandler`: without a map, or when the id already
        holds a listener of this type, nothing changes; otherwise a listener
        is attached to the type's target and its record pushed under the id,
        a new id becoming the last key. */
    method Register(id: Id, kind: EventType)
      requires Valid()
      modifies this
      ensures Valid()
      ensures !hasMap ==> unchanged(this)
      ensures old(Duplicate(id, kind)) ==> unchanged(this)
      ensures hasMap && old(HasHandler(id)) && !old(Duplicate(id, kind)) ==>
                var k := IndexOf(old(table), id);
                table == old(table)[k := Slot(id, old(table)[k].entries + [Entry(kind, TargetOf(kind))])]
      ensures hasMap && !old(HasHandler(id)) ==> table == old(table) + [Slot(id, [Entry(kind, TargetOf(kind))])]
      ensures hasMap && !old(Duplicate(id, kind)) ==> attached == old(attached) + {Listener(id, kind, TargetOf(kind))}
    {
      if !hasMap {
        return;
      }
      var k := IndexOf(table, id);
      if k >= 0 && HasKind(table[k].entries, kind) {
        return;
      }
      if k < 0 {
        AttachUnderNewKey(id, kind);
      } else {
        AttachUnderKey(k, kind);
      }
    }

    /** `target.on(type, listener)` for an id that is not a key yet, then
        `set(id, [])` and the push: the id becomes the last key. */
    method AttachUnderNewKey(id: Id, kind: EventType)
      requires Valid() && !HasHandler(id)
      modifies this
      ensures Valid()
      ensures table == old(table) + [Slot(id, [Entry(kind, TargetOf(kind))])]
      ensures attached == old(attached) + {Listener(id, kind, TargetOf(kind))}
    {
      var e := Entry(kind, TargetOf(kind));
      attached := attached + {Listener(id, kind, e.target)};
      AttachedAppend(table, Slot(id, [e]));
      assert SlotListeners(Slot(id, [e])) == {Listener(id, kind, e.target)};
      table := table + [Slot(id, [e])];
    }

    /** `target.on(type, listener)` for the key at position `k`, which holds
        no listener of this type, then the push onto its list. */
    method AttachUnderKey(k: nat, kind: EventType)
      requires Valid() && k < |table| && !HasKind(table[k].entries, kind)
      modifies this
      ensures Valid()
      ensures table == old(table)[k := Slot(old(table)[k].id, old(table)[k].entries + [Entry(kind, TargetOf(kind))])]
      ensures attached == old(attached) + {Listener(old(table)[k].id, kind, TargetOf(kind))}
    {
      var e := Entry(kind, TargetOf(kind));
      attached := attached + {Listener(table[k].id, kind, e.target)};
      AttachedExtend(table, k, e);
      table := table[k := Slot(table[k].id, table[k].entries + [e])];
    }

    /** `unregisterHandler`: an unknown id changes nothing; otherwise every
        listener recorded under the id is detached and the key deleted, the
        other keys keeping their order and their listeners. */
    method UnregisterHandler(id: Id)
      requires Valid()
      modifies this
      ensures Valid()
      ensures !old(HasHandler(id)) ==> unchanged(this)
      ensures !HasHandler(id)
      ensures old(HasHandler(id)) ==>
                var k := IndexOf(old(table), id);
                table == old(table)[..k] + old(table)[k + 1..]
                && attached == old(attached) - SlotListeners(old(table)[k])
    {
      var k := IndexOf(table, id);
      if k < 0 {
        return;
      }
      Detach(table[k]);
      AttachedRemove(table, k);
      var t := table[..k] + table[k + 1..];
      assert forall i :: 0 <= i < |t| ==> t[i] == table[if i < k then i else i + 1];
      table := t;
    }

    /** The `forEach` over one key's records: `target.un(type, listener)`
        for each, detaching exactly the key's listeners. */
    method Detach(s: Slot)
      modifies this`attached
      ensures attached == old(attached) - SlotListeners(s)
    {
      var es := s.entries;
      for j := 0 to |es|
        invariant attached == old(attached) - SlotListeners(Slot(s.id, es[..j]))
      {
        attached := attached - {Listener(s.id, es[j].kind, es[j].target)};
        assert es[..j + 1] == es[..j] + [es[j]];
        assert SlotListeners(Slot(s.id, es[..j + 1]))
            == SlotListeners(Slot(s.id, es[..j])) + {Listener(s.id, es[j].kind, es[j].target)};
      }
      assert es[..|es|] == es;
    }

    /** `unregisterAllHandlers`: every recorded listener detached, key by
        key, and the Map emptied. */
    method UnregisterAllHandlers()
      requires Valid()
      modifies this
      ensures Valid()
      ensures table == [] && attached == {}
    {
      ghost var all := attached;
      for i := 0 to |table|
        invariant table == old(table)
        invariant attached == all - Attached(table[..i])
      {
        Detach(table[i]);
        AttachedAppend(table[..i], table[i]);
        assert table[..i + 1] == table[..i] + [table[i]];
      }
      assert table[..|table|] == table;
      table := [];
    }

    /** `getRegisteredHandlers`: one (id, type) pair per record, key by key in
        insertion order; the registry is left as it was. */
    method GetRegisteredHandlers() returns (handlers: seq<Registration>)
      requires Valid()
      ensures handlers == Pairs(table)
      ensures |handlers| == EntryCount(table)
    {
      handlers := [];
      for i := 0 to |table|
        invariant handlers == Pairs(table[..i])
      {
        var s := table[i];
        for j := 0 to |s.entries|
          invariant handlers == Pairs(table[..i]) + SlotPairs(s)[..j]
        {
          handlers := handlers + [Registration(s.id, s.entries[j].kind)];
        }
        assert table[..i + 1][..i] == table[..i];
      }
      assert table[..|table|] == table;
      PairsExact(table);
    }
  }
}
