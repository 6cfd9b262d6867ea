/** The WorkPool and WorkUnit aggregates, updated in place. */
module Aggregates {
  import opened Types
  import opened PoolSpec
  import WorkDb
  import Ledger

  datatype UnitError = EmptyId | EmptyReference | UnitAlreadyReleased | UnitNotReleased | UnitAlreadyCompleted

  /** A releasable unit of work: released at most once, completed at most once and only after. */
  class WorkUnit {
    const id: UnitId
    const path: PathId
    const cpt: Time
    const reference: string
    var sku: Sku
    var giftWrap: bool
    var stage: Stage
    var releasedAt: Option<Time>
    var completedAt: Option<Time>

    /** The unit as its table row; the gift-wrap request is not a column. */
    function Value(): WorkDb.Unit
      reads this
    {
      WorkDb.Unit(id, path, cpt, reference, sku, stage, releasedAt, completedAt)
    }

    ghost predicate Valid()
      reads this
    {
      id != "" && reference != "" && Ledger.UnitOk(Value())
    }

    constructor (id: UnitId, path: PathId, cpt: Time, reference: string)
      ensures Value() == WorkDb.Unit(id, path, cpt, reference, "", Pending, None, None) && !giftWrap
    {
      this.id, this.path, this.cpt, this.reference := id, path, cpt, reference;
      sku, giftWrap, stage, releasedAt, completedAt := "", false, Pending, None, None;
    }

    method SetSku(sku: Sku)
      modifies this`sku
      ensures this.sku == sku
    {
      this.sku := sku;
    }

    method SetGiftWrap(giftWrap: bool)
      modifies this`giftWrap
      ensures this.giftWrap == giftWrap
    {
      this.giftWrap := giftWrap;
    }

    method Release(at: Time) returns (err: Option<UnitError>)
      requires Valid()
      modifies this`stage, this`releasedAt
      ensures Valid()
      ensures old(stage) == Pending ==>
        err == None && Value() == old(Value()).(stage := Released, releasedAt := Some(at))
      ensures old(stage) != Pending ==> err == Some(UnitAlreadyReleased) && Value() == old(Value())
    {
      if stage != Pending { return Some(UnitAlreadyReleased); }
      stage, releasedAt := Released, Some(at);
      return None;
    }

    method Complete(at: Time) returns (err: Option<UnitError>)
      requires Valid()
      modifies this`stage, this`completedAt
      ensures Valid()
      ensures old(stage) == Released ==>
        err == None && Value() == old(Value()).(stage := Completed, completedAt := Some(at))
      ensures old(stage) != Released ==>
        err == Some(if old(stage) == Completed then UnitAlreadyCompleted else UnitNotReleased) &&
          Value() == old(Value())
    {
      if stage == Completed { return Some(UnitAlreadyCompleted); }
      if stage != Released { return Some(UnitNotReleased); }
      stage, completedAt := Completed, Some(at);
      return None;
    }
  }

  method NewWorkUnit(id: UnitId, path: PathId, cpt: Time, reference: string)
      returns (unit: WorkUnit?, err: Option<UnitError>)
    ensures err == (if id == "" then Some(EmptyId) else if reference == "" then Some(EmptyReference) else None)
    ensures unit == null <==> err != None
    ensures unit != null ==> fresh(unit) && unit.Valid() && !unit.giftWrap
    ensures unit != null ==> unit.Value() == WorkDb.Unit(id, path, cpt, reference, "", Pending, None, None)
  {
    unit := null;
    if id == "" { return null, Some(EmptyId); }
    if reference == "" { return null, Some(EmptyReference); }
    unit := new WorkUnit(id, path, cpt, reference);
    return unit, None;
  }

  /** The queue of one process path. */
  class WorkPool {
    const path: PathId
    const mode: FeedMode
    const wipLimit: int
    const alarm: int
    var entries: seq<Entry>
    var version: int

    /** The aggregate as a value. */
    function Value(): Pool
      reads this
    {
      Pool(path, mode, wipLimit, alarm, entries, version)
    }

    ghost predicate Valid()
      reads this
    {
      Distinct(entries)
    }

    constructor (path: PathId, mode: FeedMode, wipLimit: int, alarm: int)
      ensures Value() == Pool(path, mode, wipLimit, alarm, [], 0)
      ensures Valid()
    {
      this.path, this.mode, this.wipLimit, this.alarm := path, mode, wipLimit, alarm;
      entries, version := [], 0;
    }

    method SetVersion(v: int)
      modifies this`version
      ensures version == v
    {
      version := v;
    }

    /** The first index holding the id, or the number of entries. */
    method Find(id: UnitId) returns (i: nat)
      ensures i == IndexOf(entries, id)
    {
      i := 0;
      while i < |entries|
        invariant i <= |entries|
        invariant forall k :: 0 <= k < i ==> entries[k].id != id
      {
        if entries[i].id == id { return; }
        i := i + 1;
      }
    }

    method Enqueue(id: UnitId, cpt: Time) returns (err: Option<PoolError>)
      requires Valid()
      modifies this`entries
      ensures Valid()
      ensures err == None <==> !HasId(old(entries), id)
      ensures err == None ==> entries == old(entries) + [Entry(id, cpt, Pending)]
      ensures err != None ==> err == Some(DuplicateEntry) && entries == old(entries)
    {
      var i := Find(id);
      if i < |entries| { return Some(DuplicateEntry); }
      entries := entries + [Entry(id, cpt, Pending)];
      return None;
    }

    /** Re-adds a persisted entry as stored, without looking at the WIP limit. */
    method RestoreEntry(id: UnitId, cpt: Time, isReleased: bool, isCompleted: bool) returns (err: Option<PoolError>)
      requires Valid()
      modifies this`entries
      ensures Valid()
      ensures err == None <==> !HasId(old(entries), id)
      ensures err == None ==>
        entries == old(entries) +
          [Entry(id, cpt, if isCompleted then Completed else if isReleased then Released else Pending)]
      ensures err != None ==> err == Some(DuplicateEntry) && entries == old(entries)
    {
      var i := Find(id);
      if i < |entries| { return Some(DuplicateEntry); }
      entries := entries +
        [Entry(id, cpt, if isCompleted then Completed else if isReleased then Released else Pending)];
      return None;
    }

    method CountStage(st: Stage) returns (count: nat)
      ensures count == Count(entries, st)
    {
      count := 0;
      var i := 0;
      while i < |entries|
        invariant i <= |entries| && count == Count(entries[..i], st)
      {
        if entries[i].stage == st { count := count + 1; }
        i := i + 1;
        assert entries[..i][..i - 1] == entries[..i - 1];
      }
      assert entries[..i] == entries;
    }

    method BacklogDepth() returns (depth: nat)
      ensures depth == Count(entries, Pending)
    {
      depth := CountStage(Pending);
    }

    method Wip() returns (wip: nat)
      ensures wip == Count(entries, Released)
    {
      wip := CountStage(Released);
    }

    /** The pending entry of earliest CPT, the first of them on a tie; -1 when none is pending. */
    method NextPendingIndex() returns (best: int)
      ensures IsNext(entries, best)
      ensures best == NextPending(entries)
    {
      best := -1;
      var i := 0;
      while i < |entries|
        invariant i <= |entries| && -1 <= best < i
        invariant best == -1 ==> forall j :: 0 <= j < i ==> entries[j].stage != Pending
        invariant best != -1 ==> entries[best].stage == Pending
        invariant best != -1 ==> forall j :: 0 <= j < i && j != best && entries[j].stage == Pending ==>
          Before(entries, best, j)
      {
        if entries[i].stage == Pending {
          if best == -1 || entries[i].cpt < entries[best].cpt { best := i; }
        }
        i := i + 1;
      }
    }

    /**
     Hands out the most urgent pending entry. Fails without a change when nothing is pending or
     a release-fed pool is at its limit.
     */
    method ReleaseNext() returns (r: Result<UnitId, PoolError>)
      requires Valid()
      modifies this`entries
      ensures Valid()
      ensures match PoolSpec.ReleaseNext(old(Value()))
              case Ok(x) => r == Ok(x.0) && Value() == x.1
              case Err(e) => r == Err(e) && Value() == old(Value())
      ensures r == Err(EmptyPool) <==> forall i :: 0 <= i < |entries| ==> old(entries)[i].stage != Pending
      ensures r == Err(WipLimitReached) <==>
        r != Err(EmptyPool) && mode == ReleaseFed && Count(old(entries), Released) >= wipLimit
      ensures r.Ok? ==> exists i ::
        && 0 <= i < |old(entries)| && IsNext(old(entries), i) && r == Ok(old(entries)[i].id)
        && entries == old(entries)[i := Entry(r.value, old(entries)[i].cpt, Released)]
    {
      var best := NextPendingIndex();
      if best == -1 { return Err(EmptyPool); }
      if mode == ReleaseFed {
        var wip := Wip();
        if wip >= wipLimit { return Err(WipLimitReached); }
      }
      entries := entries[best := entries[best].(stage := Released)];
      return Ok(entries[best].id);
    }

    method Release(id: UnitId) returns (err: Option<PoolError>)
      requires Valid()
      modifies this`entries
      ensures Valid()
      ensures err == Some(UnknownEntry) <==> !HasId(old(entries), id)
      ensures err != None ==> entries == old(entries)
      ensures forall i :: 0 <= i < |old(entries)| && old(entries)[i].id == id ==>
        if old(entries)[i].stage != Pending then err == Some(AlreadyReleased)
        else if mode == ReleaseFed && Count(old(entries), Released) >= wipLimit then err == Some(WipLimitReached)
        else err == None && entries == old(entries)[i := Entry(id, old(entries)[i].cpt, Released)]
      ensures match PoolSpec.Release(old(Value()), id)
              case Ok(p) => err == None && Value() == p
              case Err(e) => err == Some(e) && Value() == old(Value())
    {
      var i := Find(id);
      if i == |entries| { return Some(UnknownEntry); }
      if entries[i].stage == Released || entries[i].stage == Completed { return Some(AlreadyReleased); }
      if mode == ReleaseFed {
        var wip := Wip();
        if wip >= wipLimit { return Some(WipLimitReached); }
      }
      entries := entries[i := entries[i].(stage := Released)];
      return None;
    }

    /** Frees the WIP slot of a released entry; repeating it is a success without effect. */
    method Complete(id: UnitId) returns (err: Option<PoolError>)
      requires Valid()
      modifies this`entries
      ensures Valid()
      ensures err == Some(UnknownEntry) <==> !HasId(old(entries), id)
      ensures err != None ==> entries == old(entries)
      ensures forall i :: 0 <= i < |old(entries)| && old(entries)[i].id == id ==>
        match old(entries)[i].stage
        case Pending => err == Some(NotReleased)
        case Released => err == None && entries == old(entries)[i := Entry(id, old(entries)[i].cpt, Completed)]
        case Completed => err == None && entries == old(entries)
      ensures match PoolSpec.Complete(old(Value()), id)
              case Ok(p) => err == None && Value() == p
              case Err(e) => err == Some(e) && Value() == old(Value())
    {
      var i := Find(id);
      if i == |entries| { return Some(UnknownEntry); }
      if entries[i].stage == Completed { return None; }
      if entries[i].stage != Released { return Some(NotReleased); }
      entries := entries[i := entries[i].(stage := Completed)];
      return None;
    }

    /** Moves an entry forward to its unit's lifecycle, never backwards. */
    method Reconcile(id: UnitId, unitReleased: bool, unitCompleted: bool) returns (err: Option<PoolError>)
      requires Valid()
      modifies this`entries
      ensures Valid()
      ensures err == (if HasId(old(entries), id) then None else Some(UnknownEntry))
      ensures err != None ==> entries == old(entries)
      ensures forall i :: 0 <= i < |old(entries)| && old(entries)[i].id == id ==>
        entries == old(entries)[i := Entry(id, old(entries)[i].cpt,
          if unitCompleted || old(entries)[i].stage == Completed then Completed
          else if unitReleased || old(entries)[i].stage == Released then Released
          else Pending)]
      ensures match PoolSpec.Reconcile(old(Value()), id, unitReleased, unitCompleted)
              case Ok(p) => err == None && Value() == p
              case Err(e) => err == Some(e) && Value() == old(Value())
    {
      var i := Find(id);
      if i == |entries| { return Some(UnknownEntry); }
      entries := entries[i := entries[i].(stage := Reconciled(entries[i].stage, unitReleased, unitCompleted))];
      return None;
    }

    /** Known only for a release-fed pool with a positive limit; then the limit minus the WIP. */
    method RemainingCapacity() returns (remaining: int, known: bool)
      ensures known <==> mode == ReleaseFed && wipLimit > 0
      ensures remaining == if known then wipLimit - Count(entries, Released) else 0
      ensures Count(entries, Released) <= wipLimit ==> remaining >= 0
    {
      if mode != ReleaseFed || wipLimit <= 0 { return 0, false; }
      var wip := Wip();
      return wipLimit - wip, true;
    }
  }
}
