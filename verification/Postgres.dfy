/**
 The Postgres adapters: one connection's view of the database, with at most one open
 transaction. The environment says which statements fail, and which saves find that another
 writer got in first.
 */
module Postgres {
  import opened Types
  import opened PoolSpec
  import opened WorkDb
  import opened PoolRows
  import opened Aggregates
  import opened Ledger
  import opened Environments

  datatype AppError =
    | OfPool(pool: PoolError)
    | OfUnit(unit: UnitError)
    | NotFound
    | ConcurrentModification
    | UnknownPath
    | Infrastructure

  datatype State = State(db: Db, marks: set<EventId>)

  /** Rows the adapters can rehydrate: saved pools have a version, units a consistent lifecycle. */
  ghost predicate RowsOk(d: Db) {
    && (forall p :: p in d.pools ==> d.pools[p].version >= 1)
    && (forall id :: id in d.units ==>
      d.units[id].id == id && id != "" && d.units[id].reference != "" && UnitOk(d.units[id]))
  }

  /** Errors raised before the failing attempt has written anything. */
  predicate Clean(err: Option<AppError>) {
    err.Some? && err.value != Infrastructure
  }

  /** Why a scope or statement answered as it did: each failing answer has a failing last step. */
  ghost predicate Explained(env: Environment, since: Moment, err: Option<AppError>)
    reads env
  {
    && env.waits == since.waits
    && match err
       case Some(Infrastructure) => env.BrokeSince(since)
       case Some(ConcurrentModification) => env.BrokeSince(since) && env.fate(env.steps - 1) == Overtaken
       case _ => env.SmoothSince(since)
  }

  /** The version the pool was loaded at is the stored one. */
  ghost predicate VersionFits(d: Db, path: PathId, version: int) {
    if version == 0 then path !in d.pools else path in d.pools && d.pools[path].version == version
  }

  function StageName(st: Stage): string {
    match st
    case Pending => "pending"
    case Released => "released"
    case Completed => "completed"
  }

  /** What a stored entry row is restored to. */
  function StageNamed(name: string): Stage {
    StageOf(name == "released" || name == "completed", name == "completed")
  }

  lemma StageNameRoundTrip(st: Stage)
    ensures StageNamed(StageName(st)) == st
  {
    assert "released" != "completed" by { assert "released"[0] != "completed"[0]; }
    assert "pending"[0] != "completed"[0] && "pending"[0] != "released"[0];
  }

  lemma {:induction false} EarliestExists(m: map<UnitId, Row>, ids: set<UnitId>)
    requires ids <= m.Keys && ids != {}
    ensures exists id :: id in ids && forall j :: j in ids ==> m[id].cpt <= m[j].cpt
    decreases |ids|
  {
    var x :| x in ids;
    var rest := ids - {x};
    if rest != {} {
      EarliestExists(m, rest);
      var y :| y in rest && forall j :: j in rest ==> m[y].cpt <= m[j].cpt;
      assert forall j :: j in ids ==> j == x || j in rest;
      var best := if m[x].cpt <= m[y].cpt then x else y;
      assert best in ids && forall j :: j in ids ==> m[best].cpt <= m[j].cpt;
    } else {
      assert forall j :: j in ids ==> j in rest || j == x;
      assert x in ids && forall j :: j in ids ==> m[x].cpt <= m[j].cpt;
    }
  }

  /** SELECT ... ORDER BY cpt: every row once, ties in an order the database chooses. */
  method OrderedRows(m: map<UnitId, Row>) returns (ids: seq<UnitId>)
    ensures forall id :: id in ids <==> id in m
    ensures forall i :: 0 <= i < |ids| ==> ids[i] in m
    ensures forall i, j :: 0 <= i < j < |ids| ==> ids[i] != ids[j]
    ensures forall i, j :: 0 <= i < j < |ids| ==> m[ids[i]].cpt <= m[ids[j]].cpt
  {
    ids := [];
    var rest := m.Keys;
    while rest != {}
      invariant rest <= m.Keys
      invariant forall id :: id in ids <==> id in m.Keys - rest
      invariant forall i :: 0 <= i < |ids| ==> ids[i] in m
      invariant forall i, j :: 0 <= i < j < |ids| ==> ids[i] != ids[j]
      invariant forall i, j :: 0 <= i < j < |ids| ==> m[ids[i]].cpt <= m[ids[j]].cpt
      invariant forall i, id :: 0 <= i < |ids| && id in rest ==> m[ids[i]].cpt <= m[id].cpt
      decreases rest
    {
      EarliestExists(m, rest);
      var id :| id in rest && forall j :: j in rest ==> m[id].cpt <= m[j].cpt;
      assert id !in ids;
      ids := ids + [id];
      rest := rest - {id};
    }
  }

  /** The save of `pool` went through: its version was the stored one and its rows are stored now. */
  ghost predicate SavedPool(before: State, after: State, pool: Pool) {
    && VersionFits(before.db, pool.path, pool.version)
    && after ==
      before.(db := before.db.(pools := before.db.pools[pool.path := ToRow(pool).(version := pool.version + 1)]))
  }

  function WithEntries(st: State, path: PathId, m: map<UnitId, Row>): State
    requires path in st.db.pools
  {
    st.(db := st.db.(pools := st.db.pools[path := st.db.pools[path].(entries := m)]))
  }

  lemma EntriesTwice(st: State, path: PathId, a: map<UnitId, Row>, b: map<UnitId, Row>)
    requires path in st.db.pools
    ensures WithEntries(WithEntries(st, path, a), path, b) == WithEntries(st, path, b)
  {
    assert st.db.pools[path := st.db.pools[path].(entries := a)][path := st.db.pools[path].(entries := b)] ==
      st.db.pools[path := st.db.pools[path].(entries := b)];
  }

  class Store {
    const env: Environment
    const uow: bool       // false: no UnitOfWork is wired, every statement commits by itself
    const releases: bool  // the processed-event repository can take a mark back
    var committed: State
    var tx: Option<State>

    constructor (env: Environment, uow: bool, releases: bool, committed: State)
      requires RowsOk(committed.db)
      ensures Valid() && tx == None && this.env == env && this.uow == uow && this.releases == releases
      ensures this.committed == committed
    {
      this.env, this.uow, this.releases, this.committed, tx := env, uow, releases, committed, None;
    }

    /** What this connection's statements read and write. */
    function Now(): State
      reads this
    {
      if tx.Some? then tx.value else committed
    }

    ghost predicate Valid()
      reads this
    {
      RowsOk(committed.db) && (tx.Some? ==> uow && RowsOk(tx.value.db))
    }

    /** The mark of a failed event can be undone: by the rollback, or by hand. */
    predicate Undoable() {
      uow || releases
    }

    method Write(st: State)
      requires Valid() && RowsOk(st.db)
      modifies this
      ensures Valid() && Now() == st && tx.Some? == old(tx).Some?
      ensures tx.Some? ==> committed == old(committed)
    {
      if tx.Some? { tx := Some(st); } else { committed := st; }
    }

    /** Opens the scope's transaction, or joins the one that is already open. */
    method Open() returns (owned: bool)
      requires Valid()
      modifies this`tx
      ensures Valid() && Now() == old(Now())
      ensures owned <==> uow && old(tx) == None
      ensures tx.Some? <==> uow
    {
      owned := uow && tx == None;
      if owned { tx := Some(committed); }
    }

    /** Ends a scope: its owner commits or rolls back, a joined scope leaves that to the owner. */
    method Close(owned: bool, err: Option<AppError>) returns (result: Option<AppError>)
      requires Valid() && (owned ==> tx.Some?)
      modifies this, env
      ensures Valid()
      ensures !owned ==> result == err && tx == old(tx) && committed == old(committed)
      ensures owned ==> tx == None
      ensures owned && result == None ==> err == None && committed == old(tx).value
      ensures owned && result != None ==> committed == old(committed)
      ensures err != None ==> result == err
      ensures err == None ==> !Clean(result)
      ensures owned && err == None ==> Explained(env, old(env.Now()), result)
      ensures !owned || err != None ==> env.Now() == old(env.Now())
    {
      if !owned { return err; }
      if err == None {
        var fate := env.Try();
        if fate == Goes {
          committed, tx := tx.value, None;
          return None;
        }
        tx := None;
        return Some(Infrastructure);
      }
      tx := None;
      return err;
    }

    // ---------- Reads ----------

    /** The version row, then the entry rows. */
    method FindPool(path: PathId) returns (pool: WorkPool?, err: Option<AppError>)
      requires Valid()
      modifies env
      ensures Explained(env, old(env.Now()), err)
      ensures pool != null <==> err == None
      ensures err == None ==> fresh(pool) && pool.Valid() && path in Now().db.pools
      ensures err == None ==> pool.path == path && ToRow(pool.Value()) == Now().db.pools[path]
      ensures err == Some(NotFound) ==> path !in Now().db.pools
      ensures err.Some? ==> err.value in {NotFound, Infrastructure}
    {
      var fate := env.Try();
      if fate != Goes { return null, Some(Infrastructure); }
      if path !in Now().db.pools { return null, Some(NotFound); }
      var row := Now().db.pools[path];
      pool := new WorkPool(path, row.mode, row.wipLimit, row.alarm);
      pool.SetVersion(row.version);
      fate := env.Try();
      if fate != Goes { return null, Some(Infrastructure); }
      RestoreRows(pool, row.entries);
      return pool, None;
    }

    /** The entry rows of a loaded pool, re-added by CPT. */
    method RestoreRows(pool: WorkPool, m: map<UnitId, Row>)
      requires pool.entries == []
      modifies pool`entries
      ensures pool.Valid() && Table(pool.entries) == m
    {
      var ids := OrderedRows(m);
      var i := 0;
      while i < |ids|
        invariant i <= |ids| && pool.Valid() && |pool.entries| == i
        invariant forall k :: 0 <= k < i ==> pool.entries[k] == Entry(ids[k], m[ids[k]].cpt, m[ids[k]].stage)
      {
        var cpt, name := m[ids[i]].cpt, StageName(m[ids[i]].stage);
        StageNameRoundTrip(m[ids[i]].stage);
        assert !HasId(pool.entries, ids[i]);
        var dup := pool.RestoreEntry(ids[i], cpt, name == "released" || name == "completed", name == "completed");
        i := i + 1;
      }
      TableIs(pool.entries, m, ids);
    }

    method FindUnit(id: UnitId) returns (unit: WorkUnit?, err: Option<AppError>)
      requires Valid()
      modifies env
      ensures Explained(env, old(env.Now()), err)
      ensures unit != null <==> err == None
      ensures err == None ==> fresh(unit) && unit.Valid() && id in Now().db.units
      ensures err == None ==> unit.Value() == Now().db.units[id] && !unit.giftWrap
      ensures err == Some(NotFound) ==> id !in Now().db.units
      ensures err.Some? ==> err.value in {NotFound, Infrastructure}
    {
      unit := null;
      var fate := env.Try();
      if fate != Goes { return null, Some(Infrastructure); }
      if id !in Now().db.units { return null, Some(NotFound); }
      var row := Now().db.units[id];
      unit, err := ScanUnit(row);
    }

    // ---------- Writes ----------

    /** The guard of a save: insert a pool never saved, update only the version that was loaded. */
    method SaveVersionedPoolRow(pool: WorkPool) returns (err: Option<AppError>)
      requires Valid() && pool.version >= 0
      modifies this, env
      ensures Explained(env, old(env.Now()), err) ||
        (err == Some(ConcurrentModification) && !VersionFits(old(Now()).db, pool.path, pool.version))
      ensures Valid() && tx.Some? == old(tx).Some? && (tx.Some? ==> committed == old(committed))
      ensures err == None ==>
        && VersionFits(old(Now()).db, pool.path, pool.version)
        && (var m := if pool.version == 0 then map[] else old(Now()).db.pools[pool.path].entries;
            Now() == old(Now()).(db := old(Now()).db.(pools := old(Now()).db.pools[pool.path :=
              PoolRow(pool.mode, pool.wipLimit, pool.alarm, pool.version + 1, m)])))
      ensures err != None ==> Now() == old(Now()) && err.value in {ConcurrentModification, Infrastructure}
    {
      var fate := env.Try();
      if fate == Overtaken { return Some(ConcurrentModification); }
      if fate != Goes { return Some(Infrastructure); }
      var st := Now();
      var m: map<UnitId, Row> := map[];
      if pool.version == 0 {
        if pool.path in st.db.pools { return Some(ConcurrentModification); }
      } else {
        if pool.path !in st.db.pools || st.db.pools[pool.path].version != pool.version {
          return Some(ConcurrentModification);
        }
        m := st.db.pools[pool.path].entries;
      }
      var row := PoolRow(pool.mode, pool.wipLimit, pool.alarm, pool.version + 1, m);
      Write(st.(db := st.db.(pools := st.db.pools[pool.path := row])));
      return None;
    }

    /** One INSERT of every entry, built column by column. */
    method InsertPoolEntries(pool: WorkPool)
      requires Valid() && pool.Valid() && pool.path in Now().db.pools && Now().db.pools[pool.path].entries == map[]
      modifies this
      ensures Valid() && tx.Some? == old(tx).Some? && (tx.Some? ==> committed == old(committed))
      ensures Now() == WithEntries(old(Now()), pool.path, Table(pool.entries))
    {
      var m: map<UnitId, Row> := map[];
      var i := 0;
      while i < |pool.entries|
        modifies {}
        invariant i <= |pool.entries| && m == Table(pool.entries[..i])
      {
        var e := pool.entries[i];
        StageNameRoundTrip(e.stage);
        m := m[e.id := Row(e.cpt, StageNamed(StageName(e.stage)))];
        i := i + 1;
        assert pool.entries[..i][..i - 1] == pool.entries[..i - 1];
      }
      assert pool.entries[..i] == pool.entries;
      Write(WithEntries(Now(), pool.path, m));
    }

    /** DELETE the stored entries and INSERT the aggregate's; either statement may fail. */
    method RewriteEntries(pool: WorkPool) returns (err: Option<AppError>)
      requires Valid() && pool.Valid() && pool.path in Now().db.pools
      modifies this, env
      ensures Explained(env, old(env.Now()), err)
      ensures Valid() && tx.Some? == old(tx).Some? && (tx.Some? ==> committed == old(committed))
      ensures err == None ==>
        Now() == WithEntries(old(Now()), pool.path, Table(pool.entries))
      ensures err != None ==> err == Some(Infrastructure)
      ensures Now().marks == old(Now()).marks
    {
      var fate := env.Try();
      if fate != Goes { return Some(Infrastructure); }
      ghost var before := Now();
      Write(WithEntries(Now(), pool.path, map[]));
      fate := env.Try();
      if fate != Goes { return Some(Infrastructure); }
      InsertPoolEntries(pool);
      EntriesTwice(before, pool.path, map[], Table(pool.entries));
      return None;
    }

    /**
     Saves the row and rewrites the entries in one transaction, its own when none is open. A
     lost race is noticed by the first statement, before anything is written.
     */
    method SavePool(pool: WorkPool) returns (err: Option<AppError>)
      requires Valid() && pool.Valid() && pool.version >= 0
      modifies this, pool`version, env
      ensures Explained(env, old(env.Now()), err) ||
        (err == Some(ConcurrentModification) && !VersionFits(old(Now()).db, pool.path, old(pool.version)))
      ensures Valid() && tx.Some? == old(tx).Some? && (tx.Some? ==> committed == old(committed))
      ensures err == None ==> SavedPool(old(Now()), Now(), old(pool.Value())) && pool.version == old(pool.version) + 1
      ensures err != None ==> err.value in {ConcurrentModification, Infrastructure}
      ensures err == Some(ConcurrentModification) || (err != None && old(tx) == None) ==> Now() == old(Now())
      ensures Now().marks == old(Now()).marks
    {
      var alone, kept := tx == None, committed;
      err := SaveVersionedPoolRow(pool);
      if err != None { return; }
      ghost var mid := Now();
      err := RewriteEntries(pool);
      if err != None {
        if alone { committed := kept; }
        return;
      }
      pool.SetVersion(pool.version + 1);
    }

    /** Upserts the unit row, whatever was there. */
    method SaveUnit(unit: WorkUnit) returns (err: Option<AppError>)
      requires Valid() && unit.Valid()
      modifies this, env
      ensures Explained(env, old(env.Now()), err)
      ensures Valid() && tx.Some? == old(tx).Some? && (tx.Some? ==> committed == old(committed))
      ensures err == None ==>
        Now() == old(Now()).(db := old(Now()).db.(units := old(Now()).db.units[unit.id := unit.Value()]))
      ensures err != None ==> err == Some(Infrastructure) && Now() == old(Now())
    {
      var fate := env.Try();
      if fate != Goes { return Some(Infrastructure); }
      var st := Now();
      Write(st.(db := st.db.(units := st.db.units[unit.id := unit.Value()])));
      return None;
    }

    method Publish(event: Event) returns (err: Option<AppError>)
      requires Valid()
      modifies this, env
      ensures Explained(env, old(env.Now()), err)
      ensures Valid() && tx.Some? == old(tx).Some? && (tx.Some? ==> committed == old(committed))
      ensures err == None ==> Now() == old(Now()).(db := old(Now()).db.(outbox := old(Now()).db.outbox + [event]))
      ensures err != None ==> err == Some(Infrastructure) && Now() == old(Now())
    {
      var fate := env.Try();
      if fate != Goes { return Some(Infrastructure); }
      var st := Now();
      Write(st.(db := st.db.(outbox := st.db.outbox + [event])));
      return None;
    }

    /** INSERT ... ON CONFLICT DO NOTHING; seen when the mark is already there. */
    method TryMarkProcessed(e: EventId) returns (seen: bool, err: Option<AppError>)
      requires Valid()
      modifies this, env
      ensures Explained(env, old(env.Now()), err)
      ensures Valid() && tx.Some? == old(tx).Some? && (tx.Some? ==> committed == old(committed))
      ensures err == None ==> seen == (e in old(Now()).marks) && Now() == old(Now()).(marks := old(Now()).marks + {e})
      ensures err != None ==> err == Some(Infrastructure) && Now() == old(Now())
    {
      seen := false;
      var fate := env.Try();
      if fate != Goes { return false, Some(Infrastructure); }
      var st := Now();
      seen := e in st.marks;
      assert seen ==> st.marks + {e} == st.marks;
      Write(st.(marks := st.marks + {e}));
      return seen, None;
    }

    method ApplyDelta(sku: Sku, delta: int, at: Time) returns (err: Option<AppError>)
      requires Valid()
      modifies this, env
      ensures Explained(env, old(env.Now()), err)
      ensures Valid() && tx.Some? == old(tx).Some? && (tx.Some? ==> committed == old(committed))
      ensures err == None ==> Now() == old(Now()).(db := AfterDelta(old(Now()).db, sku, delta, at))
      ensures err != None ==> err == Some(Infrastructure) && Now() == old(Now())
    {
      var fate := env.Try();
      if fate != Goes { return Some(Infrastructure); }
      var st := Now();
      var quantity := delta;
      if sku in st.db.views { quantity := st.db.views[sku].quantity + delta; }
      Write(st.(db := st.db.(views := st.db.views[sku := Usable(quantity, at)])));
      return None;
    }
  }

  /** A fresh unit replays the row's lifecycle; the gift-wrap request is not stored. */
  method ScanUnit(row: Unit) returns (unit: WorkUnit?, err: Option<AppError>)
    requires row.id != "" && row.reference != "" && UnitOk(row)
    ensures err == None && unit != null && fresh(unit) && unit.Valid() && unit.Value() == row && !unit.giftWrap
  {
    var u, e := NewWorkUnit(row.id, row.path, row.cpt, row.reference);
    unit := u;
    unit.SetSku(row.sku);
    if row.stage == Released || row.stage == Completed { var _ := unit.Release(row.releasedAt.value); }
    if row.stage == Completed { var _ := unit.Complete(row.completedAt.value); }
    return unit, None;
  }

  /** A unit survives the round trip through its row, except for a gift-wrap request. */
  method SaveThenLoad(s: Store, unit: WorkUnit) returns (loaded: WorkUnit?, err: Option<AppError>)
    requires s.Valid() && unit.Valid()
    modifies s, s.env
    ensures Explained(s.env, old(s.env.Now()), err)
    ensures err == None ==> loaded != null && fresh(loaded) && loaded.Valid() && loaded.Value() == unit.Value()
    ensures err == None ==> (loaded.giftWrap == unit.giftWrap <==> !unit.giftWrap)
  {
    err := s.SaveUnit(unit);
    if err != None { return null, err; }
    loaded, err := s.FindUnit(unit.id);
  }

  lemma TableIs(es: seq<Entry>, m: map<UnitId, Row>, ids: seq<UnitId>)
    requires Distinct(es) && |es| == |ids|
    requires forall id :: id in ids <==> id in m
    requires forall i :: 0 <= i < |es| ==> es[i] == Entry(ids[i], m[ids[i]].cpt, m[ids[i]].stage)
    ensures Table(es) == m
  {
    forall id ensures (id in Table(es) <==> id in m) && (id in m ==> Table(es)[id] == m[id]) {
      TableKeys(es, id);
      if id in m {
        var i :| 0 <= i < |ids| && ids[i] == id;
        TableAt(es, i);
      }
    }
  }
}
