/**
 The in-memory repositories. They keep and hand out copies, so that a caller's object never is
 the stored one, and the pool repository compares versions before it stores.
 */
module MemoryRepos {
  import opened Types
  import opened PoolSpec
  import opened Aggregates
  import WorkDb

  datatype RepoError = NotFound | ConcurrentModification

  method ClonePool(p: WorkPool) returns (cp: WorkPool)
    requires p.Valid()
    ensures fresh(cp) && cp.Valid() && cp.Value() == p.Value()
  {
    cp := new WorkPool(p.path, p.mode, p.wipLimit, p.alarm);
    var i := 0;
    while i < |p.entries|
      invariant i <= |p.entries|
      invariant fresh(cp) && cp.Valid()
      invariant cp.Value() == p.Value().(entries := p.entries[..i], version := 0)
      modifies cp`entries
    {
      var e := p.entries[i];
      assert !HasId(p.entries[..i], e.id);
      var err := cp.RestoreEntry(e.id, e.cpt, e.stage != Pending, e.stage == Completed);
      i := i + 1;
    }
    assert p.entries[..i] == p.entries;
    cp.SetVersion(p.version);
  }

  class WorkPoolRepo {
    var byPath: map<PathId, WorkPool>

    function Stored(): set<WorkPool>
      reads this
    {
      byPath.Values
    }

    ghost predicate Valid()
      reads this, byPath.Values
    {
      forall p :: p in byPath ==> byPath[p].path == p && byPath[p].Valid()
    }

    /** What is stored, as values. */
    ghost function Contents(): map<PathId, Pool>
      reads this, byPath.Values
    {
      map p | p in byPath :: byPath[p].Value()
    }

    ghost function VersionOf(path: PathId): int
      reads this, byPath.Values
    {
      if path in byPath then byPath[path].version else 0
    }

    constructor ()
      ensures Valid() && Contents() == map[]
    {
      byPath := map[];
    }

    /** Stores a copy, and only over the version the pool was loaded at. */
    method Save(pool: WorkPool) returns (err: Option<RepoError>)
      requires Valid() && pool.Valid() && pool !in Stored()
      modifies this, pool`version
      ensures Valid() && pool !in Stored() && fresh(Stored() - old(Stored()))
      ensures err == None <==> old(pool.version) == old(VersionOf(pool.path))
      ensures err == None ==>
        Contents() == old(Contents())[pool.path := pool.Value()] &&
          pool.Value() == old(pool.Value()).(version := old(pool.version) + 1)
      ensures err != None ==>
        err == Some(ConcurrentModification) && Contents() == old(Contents()) && pool.Value() == old(pool.Value())
    {
      var key := pool.path;
      var stored := 0;
      if key in byPath { stored := byPath[key].version; }
      if pool.version != stored { return Some(ConcurrentModification); }
      ghost var before := Contents();
      pool.SetVersion(stored + 1);
      var copy := ClonePool(pool);
      byPath := byPath[key := copy];
      assert Contents() == before[key := pool.Value()];
      return None;
    }

    /** Hands out a copy the repository does not keep. */
    method FindByPathId(path: PathId) returns (pool: WorkPool?, err: Option<RepoError>)
      requires Valid()
      ensures err == (if path in Contents() then None else Some(NotFound))
      ensures pool != null <==> err == None
      ensures pool != null ==> fresh(pool) && pool !in Stored() && pool.Valid() && pool.Value() == Contents()[path]
    {
      if path !in byPath { return null, Some(NotFound); }
      pool := ClonePool(byPath[path]);
      return pool, None;
    }
  }

  /** A loaded copy can be changed at will: the store does not notice until a save. */
  method MutationStaysPrivate(repo: WorkPoolRepo, path: PathId, id: UnitId, cpt: Time)
    requires repo.Valid()
    ensures repo.Valid() && repo.Contents() == old(repo.Contents())
  {
    var pool, err := repo.FindByPathId(path);
    if pool != null {
      var dup := pool.Enqueue(id, cpt);
      var next := pool.ReleaseNext();
    }
  }

  /** Of two writers that loaded the same version, the second to save is refused. */
  method StaleSaveIsRejected(repo: WorkPoolRepo, a: WorkPool, b: WorkPool)
      returns (first: Option<RepoError>, second: Option<RepoError>)
    requires repo.Valid() && a.Valid() && b.Valid() && a != b && a !in repo.Stored() && b !in repo.Stored()
    requires a.path == b.path && a.version == b.version == repo.VersionOf(a.path)
    modifies repo, a`version, b`version
    ensures repo.Valid() && first == None && second == Some(ConcurrentModification)
    ensures repo.Contents() == old(repo.Contents())[a.path := old(a.Value()).(version := old(a.version) + 1)]
  {
    first := repo.Save(a);
    assert repo.byPath[a.path].Value() == repo.Contents()[a.path];
    second := repo.Save(b);
  }

  /** Rebuilt the way a stored row is: construct, set the optional fields, replay the lifecycle. */
  method CloneWorkUnit(u: WorkUnit) returns (cp: WorkUnit)
    requires u.Valid()
    ensures fresh(cp) && cp.Valid() && cp.Value() == u.Value() && cp.giftWrap == u.giftWrap
  {
    var c, err := NewWorkUnit(u.id, u.path, u.cpt, u.reference);
    cp := c;
    cp.SetSku(u.sku);
    cp.SetGiftWrap(u.giftWrap);
    if u.releasedAt.Some? { var _ := cp.Release(u.releasedAt.value); }
    if u.completedAt.Some? { var _ := cp.Complete(u.completedAt.value); }
  }

  class WorkUnitRepo {
    var byId: map<UnitId, WorkUnit>

    function Stored(): set<WorkUnit>
      reads this
    {
      byId.Values
    }

    ghost predicate Valid()
      reads this, byId.Values
    {
      forall id :: id in byId ==> byId[id].id == id && byId[id].Valid()
    }

    ghost function Contents(): map<UnitId, (WorkDb.Unit, bool)>
      reads this, byId.Values
    {
      map id | id in byId :: (byId[id].Value(), byId[id].giftWrap)
    }

    constructor ()
      ensures Valid() && Contents() == map[]
    {
      byId := map[];
    }

    method Save(unit: WorkUnit)
      requires Valid() && unit.Valid() && unit !in Stored()
      modifies this
      ensures Valid() && unit !in Stored() && fresh(Stored() - old(Stored()))
      ensures Contents() == old(Contents())[unit.id := (unit.Value(), unit.giftWrap)]
    {
      ghost var before := Contents();
      var copy := CloneWorkUnit(unit);
      byId := byId[unit.id := copy];
      assert Contents() == before[unit.id := (unit.Value(), unit.giftWrap)];
    }

    method FindById(id: UnitId) returns (unit: WorkUnit?, err: Option<RepoError>)
      requires Valid()
      ensures err == (if id in Contents() then None else Some(NotFound))
      ensures unit != null <==> err == None
      ensures unit != null ==>
        fresh(unit) && unit !in Stored() && unit.Valid() && (unit.Value(), unit.giftWrap) == Contents()[id]
    {
      if id !in byId { return null, Some(NotFound); }
      unit := CloneWorkUnit(byId[id]);
      return unit, None;
    }
  }
}
