/**
 The in-memory processed-event and inventory-view repositories, and the inventory observation
 running on them: an event's delta is applied when its id is first marked.
 */
module MemoryInventory {
  import opened Types
  import WorkDb
  import MapSum

  datatype Change = Change(id: EventId, sku: Sku, delta: int, at: Time)

  class ProcessedEventRepo {
    var seen: set<EventId>

    constructor ()
      ensures seen == {}
    {
      seen := {};
    }

    method TryMarkProcessed(e: EventId) returns (already: bool)
      modifies this
      ensures already <==> e in old(seen)
      ensures seen == old(seen) + {e}
    {
      if e in seen {
        assert seen == seen + {e};
        return true;
      }
      seen := seen + {e};
      return false;
    }

    /** Takes the mark back, so that the event can be tried again. */
    method ReleaseProcessed(e: EventId)
      modifies this
      ensures seen == old(seen) - {e}
    {
      seen := seen - {e};
    }
  }

  class InventoryViewRepo {
    var bySku: map<Sku, WorkDb.Usable>

    constructor ()
      ensures bySku == map[]
    {
      bySku := map[];
    }

    method ApplyDelta(sku: Sku, delta: int, at: Time) returns (view: WorkDb.Usable)
      modifies this
      ensures bySku == old(bySku)[sku := view]
      ensures view == WorkDb.Usable((if sku in old(bySku) then old(bySku)[sku].quantity else 0) + delta, at)
    {
      view := if sku in bySku then bySku[sku] else WorkDb.Usable(0, at);
      view := WorkDb.Usable(view.quantity + delta, at);
      bySku := bySku[sku := view];
    }

    function Quantity(sku: Sku): int
      reads this
    {
      if sku in bySku then bySku[sku].quantity else 0
    }
  }

  // ---------- What the views mean ----------

  /** Which event each id stands for: the first one delivered under it. */
  function FirstById(stream: seq<Change>): map<EventId, Change> {
    if stream == [] then map[]
    else
      var before, c := FirstById(stream[..|stream| - 1]), stream[|stream| - 1];
      if c.id in before then before else before[c.id := c]
  }

  /** The deltas of the applied events of one SKU. */
  ghost function DeltasOf(applied: map<EventId, Change>, sku: Sku): map<EventId, int> {
    map id | id in applied && applied[id].sku == sku :: applied[id].delta
  }

  lemma DeltasWith(applied: map<EventId, Change>, c: Change, sku: Sku)
    requires c.id !in applied
    ensures MapSum.Sum(DeltasOf(applied[c.id := c], sku)) == MapSum.Sum(DeltasOf(applied, sku)) +
      (if c.sku == sku then c.delta else 0)
  {
    if c.sku == sku {
      assert DeltasOf(applied[c.id := c], sku) == DeltasOf(applied, sku)[c.id := c.delta];
      MapSum.SumWith(DeltasOf(applied, sku), c.id, c.delta);
    } else {
      assert DeltasOf(applied[c.id := c], sku) == DeltasOf(applied, sku);
    }
  }

  class InventoryProjection {
    const processed: ProcessedEventRepo
    const views: InventoryViewRepo
    ghost var stream: seq<Change>

    /** The marks are the applied events, and each view is the sum of their deltas. */
    ghost predicate Valid()
      reads this, processed, views
    {
      && processed.seen == FirstById(stream).Keys
      && forall sku :: views.Quantity(sku) == MapSum.Sum(DeltasOf(FirstById(stream), sku))
    }

    constructor ()
      ensures Valid() && stream == [] && fresh(processed) && fresh(views)
    {
      processed := new ProcessedEventRepo();
      views := new InventoryViewRepo();
      stream := [];
      new;
      forall sku ensures DeltasOf(FirstById([]), sku) == map[] { }
    }

    /** One delivery; when the event is a redelivery, only the current view is looked up. */
    method Observe(c: Change) returns (already: bool, view: Option<WorkDb.Usable>)
      requires Valid()
      modifies this, processed, views
      ensures Valid() && stream == old(stream) + [c]
      ensures already <==> c.id in old(processed.seen)
      ensures already ==> views.bySku == old(views.bySku) && processed.seen == old(processed.seen)
      ensures !already ==> views.Quantity(c.sku) == old(views.Quantity(c.sku)) + c.delta
      ensures forall sku :: sku != c.sku ==> views.Quantity(sku) == old(views.Quantity(sku))
      ensures view == if c.sku in views.bySku then Some(views.bySku[c.sku]) else None
    {
      assert (stream + [c])[..|stream|] == stream;
      ghost var applied := FirstById(stream);
      stream := stream + [c];
      already := processed.TryMarkProcessed(c.id);
      if already {
        view := if c.sku in views.bySku then Some(views.bySku[c.sku]) else None;
        return;
      }
      ghost var before := views.bySku;
      var v := views.ApplyDelta(c.sku, c.delta, c.at);
      view := Some(v);
      forall sku ensures views.Quantity(sku) == MapSum.Sum(DeltasOf(FirstById(stream), sku)) {
        DeltasWith(applied, c, sku);
      }
    }
  }

  // ---------- Repeats and order do not matter ----------

  /** An event id stands for one event. */
  ghost predicate Coherent(stream: seq<Change>) {
    forall i, j :: 0 <= i < |stream| && 0 <= j < |stream| && stream[i].id == stream[j].id ==> stream[i] == stream[j]
  }

  lemma {:induction false} FirstByIdIsTheEvent(stream: seq<Change>, c: Change)
    requires Coherent(stream)
    ensures c in stream <==> c.id in FirstById(stream) && FirstById(stream)[c.id] == c
  {
    if stream != [] {
      var before, last := stream[..|stream| - 1], stream[|stream| - 1];
      assert stream == before + [last];
      assert Coherent(before);
      FirstByIdIsTheEvent(before, c);
      FirstByIdHasIds(before, last.id);
      if last.id in FirstById(before) {
        var i :| 0 <= i < |before| && before[i].id == last.id;
        assert stream[i] == stream[|before|];
        assert before[i] in before;
      }
    }
  }

  lemma {:induction false} FirstByIdHasIds(stream: seq<Change>, id: EventId)
    ensures id in FirstById(stream) ==>
      exists i :: 0 <= i < |stream| && stream[i].id == id && FirstById(stream)[id] == stream[i]
  {
    if stream != [] {
      var before, last := stream[..|stream| - 1], stream[|stream| - 1];
      FirstByIdHasIds(before, id);
      if id in FirstById(before) {
        var i :| 0 <= i < |before| && before[i].id == id && FirstById(before)[id] == before[i];
        assert stream[i] == before[i];
      }
    }
  }

  /** Redeliveries and reorderings leave every usable quantity as it is. */
  lemma OnlyTheEventsMatter(a: InventoryProjection, b: InventoryProjection, sku: Sku)
    requires a.Valid() && b.Valid() && Coherent(a.stream) && Coherent(b.stream)
    requires forall c :: c in a.stream <==> c in b.stream
    ensures a.views.Quantity(sku) == b.views.Quantity(sku) && a.processed.seen == b.processed.seen
  {
    var f, g := FirstById(a.stream), FirstById(b.stream);
    forall id ensures id in f <==> id in g {
      if id in f { SameEvent(a.stream, b.stream, id); }
      if id in g { SameEvent(b.stream, a.stream, id); }
    }
    forall id | id in f ensures f[id] == g[id] {
      SameEvent(a.stream, b.stream, id);
    }
    assert f == g;
  }

  lemma SameEvent(a: seq<Change>, b: seq<Change>, id: EventId)
    requires Coherent(a) && Coherent(b) && (forall c :: c in a <==> c in b) && id in FirstById(a)
    ensures id in FirstById(b) && FirstById(b)[id] == FirstById(a)[id]
  {
    FirstByIdHasIds(a, id);
    var c := FirstById(a)[id];
    assert c.id == id && c in a;
    FirstByIdIsTheEvent(b, c);
  }
}
