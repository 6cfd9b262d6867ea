/**
 The use cases as written: load the aggregates, change them, save them in one scope. Each is
 proved to do one operation of the sequential specification, or to fail without a trace.
 */
module UseCases {
  import opened Types
  import opened PoolSpec
  import opened WorkDb
  import opened PoolRows
  import opened Aggregates
  import opened Postgres
  import opened Environments

  datatype EnqueueRequest = EnqueueRequest(id: UnitId, path: PathId, cpt: Time, reference: string, sku: Sku,
      giftWrap: bool)

  const MAX_POOL_SAVE_ATTEMPTS := 12

  function Requested(req: EnqueueRequest): Unit {
    Unit(req.id, req.path, req.cpt, req.reference, req.sku, Pending, None, None)
  }

  /** From `before` to `after`, exactly `op` happened, and it was allowed. */
  ghost predicate Did(before: State, after: State, op: Op) {
    EnabledAlone(before.db, op) && after == before.(db := Step(before.db, op))
  }

  // ---------- What a caller sees of a success ----------

  /** The request is stored: its entry pending with its CPT, its unit as asked for, and the news of it. */
  ghost predicate IsEnqueued(before: Db, after: Db, req: EnqueueRequest, at: Time) {
    && (req.path in before.pools ==> req.id !in before.pools[req.path].entries)
    && req.path in after.pools && req.id in after.pools[req.path].entries
    && after.pools[req.path].entries[req.id] == Row(req.cpt, Pending)
    && req.id in after.units
    && after.units[req.id] == Unit(req.id, req.path, req.cpt, req.reference, req.sku, Pending, None, None)
    && after.outbox == before.outbox + [WorkUnitCreated(req.id, req.path, at)]
    && (req.path !in before.pools ==>
          after.pools[req.path] == PoolRow(ReleaseFed, 1000, 1000, 1, map[req.id := Row(req.cpt, Pending)]))
  }

  /** A pending unit of the pool is handed out, none that is still pending being more urgent, and announced. */
  ghost predicate IsHandedOut(before: Db, after: Db, path: PathId, id: UnitId, at: Time) {
    && path in before.pools && path in after.pools
    && id in before.pools[path].entries && before.pools[path].entries[id].stage == Pending
    && id in after.pools[path].entries
    && after.pools[path].entries[id] == Row(before.pools[path].entries[id].cpt, Released)
    && (forall j :: j in after.pools[path].entries && after.pools[path].entries[j].stage == Pending ==>
          after.pools[path].entries[id].cpt <= after.pools[path].entries[j].cpt)
    && id in before.units && before.units[id].stage == Pending
    && after.units == before.units[id := before.units[id].(stage := Released, releasedAt := Some(at))]
    && after.outbox == before.outbox + [WorkReleased(id, path, at)]
  }

  /** A released unit is completed, its entry too if its pool has one, and announced. */
  ghost predicate IsClosed(before: Db, after: Db, id: UnitId, at: Time) {
    && id in before.units && before.units[id].stage == Released
    && after.units == before.units[id := before.units[id].(stage := Completed, completedAt := Some(at))]
    && var path := before.units[id].path;
    && (path in before.pools && id in before.pools[path].entries ==>
          && path in after.pools && id in after.pools[path].entries
          && after.pools[path].entries[id] == Row(before.pools[path].entries[id].cpt, Completed))
    && after.outbox == before.outbox + [WorkUnitCompleted(id, path, at)]
  }

  // ---------- What a caller learns from a refusal ----------

  /** Healing the pool leaves nothing pending. */
  ghost predicate Drained(row: PoolRow, units: map<UnitId, Unit>, healed: seq<UnitId>) {
    && HealOk(row, units, healed)
    && forall id :: id in Heal(row, units, healed).entries ==> Heal(row, units, healed).entries[id].stage != Pending
  }

  /** Healing the pool leaves something pending, and no room within the limit. */
  ghost predicate Full(row: PoolRow, units: map<UnitId, Unit>, healed: seq<UnitId>) {
    && HealOk(row, units, healed)
    && (exists id :: id in Heal(row, units, healed).entries && Heal(row, units, healed).entries[id].stage == Pending)
    && row.mode == ReleaseFed && Wip(Heal(row, units, healed).entries) >= row.wipLimit
  }

  /** Healing the pool comes to an entry whose unit is not stored. */
  ghost predicate UnitMissing(row: PoolRow, units: map<UnitId, Unit>, healed: seq<UnitId>) {
    HealOk(row, units, healed) && exists id :: CanRelease(Heal(row, units, healed), id) && id !in units
  }

  ghost predicate ReleaseRefused(d: Db, path: PathId, err: AppError) {
    match err
    case OfPool(e) =>
      && path in d.pools
      && (e == EmptyPool || e == WipLimitReached)
      && (e == EmptyPool ==> exists healed :: Drained(d.pools[path], d.units, healed))
      && (e == WipLimitReached ==> exists healed :: Full(d.pools[path], d.units, healed))
    case NotFound => path in d.pools ==> exists healed :: UnitMissing(d.pools[path], d.units, healed)
    case _ => err == ConcurrentModification || err == Infrastructure
  }

  ghost predicate EnqueueRefused(d: Db, req: EnqueueRequest, err: AppError) {
    match err
    case OfUnit(e) => (req.id == "" && e == EmptyId) || (req.id != "" && req.reference == "" && e == EmptyReference)
    case OfPool(e) =>
      e == DuplicateEntry && req.path in d.pools && req.id in d.pools[req.path].entries
    case _ => err == ConcurrentModification || err == Infrastructure
  }

  ghost predicate CompletionRefused(d: Db, id: UnitId, err: AppError) {
    match err
    case NotFound => id !in d.units
    case OfUnit(e) =>
      && id in d.units && d.units[id].stage != Released
      && e == if d.units[id].stage == Completed then UnitAlreadyCompleted else UnitNotReleased
    case _ => err == ConcurrentModification || err == Infrastructure
  }

  function PoolsSaved(pools: map<PathId, PoolRow>, p: Option<Pool>): map<PathId, PoolRow> {
    if p.Some? then pools[p.value.path := ToRow(p.value).(version := p.value.version + 1)] else pools
  }

  /** The rows after a pool (if any), a unit and an event were saved over the loaded version. */
  ghost predicate SavedAll(before: State, after: State, p: Option<Pool>, u: Unit, event: Event) {
    && (p.Some? ==> VersionFits(before.db, p.value.path, p.value.version))
    && after == before.(db := before.db.(
         pools := PoolsSaved(before.db.pools, p),
         units := before.db.units[u.id := u],
         outbox := before.db.outbox + [event]))
  }

  function ValueOf(pool: WorkPool?): Option<Pool>
    reads pool
  {
    if pool == null then None else Some(pool.Value())
  }

  /** The writes every use case makes inside its scope, in their order. */
  method SaveAll(s: Store, pool: WorkPool?, unit: WorkUnit, event: Event) returns (err: Option<AppError>)
    requires s.Valid() && unit.Valid() && (pool != null ==> pool.Valid() && pool.version >= 0)
    modifies s, s.env
    modifies if pool != null then {pool} else {}
    ensures Explained(s.env, old(s.env.Now()), err) ||
      (&& err == Some(ConcurrentModification) && pool != null
       && !VersionFits(old(s.Now()).db, pool.path, old(pool.version)))
    ensures s.Valid() && s.tx.Some? == old(s.tx).Some? && (s.tx.Some? ==> s.committed == old(s.committed))
    ensures err == None ==> SavedAll(old(s.Now()), s.Now(), old(ValueOf(pool)), old(unit.Value()), event)
    ensures err != None ==> err.value in {ConcurrentModification, Infrastructure}
    ensures err == Some(ConcurrentModification) ==> s.Now() == old(s.Now())
    ensures s.Now().marks == old(s.Now()).marks
  {
    if pool != null {
      err := s.SavePool(pool);
      if err != None { return; }
    }
    err := SaveUnitAndEvent(s, unit, event);
  }

  method SaveUnitAndEvent(s: Store, unit: WorkUnit, event: Event) returns (err: Option<AppError>)
    requires s.Valid() && unit.Valid()
    modifies s, s.env
    ensures Explained(s.env, old(s.env.Now()), err) && (err == None || err == Some(Infrastructure))
    ensures s.Valid() && s.tx.Some? == old(s.tx).Some? && (s.tx.Some? ==> s.committed == old(s.committed))
    ensures err == None ==> SavedAll(old(s.Now()), s.Now(), None, unit.Value(), event)
    ensures s.Now().marks == old(s.Now()).marks
  {
    err := s.SaveUnit(unit);
    if err != None { return; }
    err := s.Publish(event);
  }

  /** The same writes in a scope: all of them happen, or none where the scope is the use case's own. */
  method SaveAtomically(s: Store, pool: WorkPool, unit: WorkUnit, event: Event) returns (err: Option<AppError>)
    requires s.Valid() && unit.Valid() && pool.Valid() && pool.version >= 0
    requires VersionFits(s.Now().db, pool.path, pool.version)
    modifies s, s.env, pool
    ensures Explained(s.env, old(s.env.Now()), err)
    ensures s.Valid() && s.tx.Some? == old(s.tx).Some? && (s.tx.Some? ==> s.committed == old(s.committed))
    ensures err == None ==> SavedAll(old(s.Now()), s.Now(), Some(old(pool.Value())), old(unit.Value()), event)
    ensures err != None ==> err.value in {ConcurrentModification, Infrastructure}
    ensures Clean(err) || (err != None && s.uow && old(s.tx) == None) ==> s.Now() == old(s.Now())
    ensures s.Now().marks == old(s.Now()).marks
  {
    var owned := s.Open();
    err := SaveAll(s, pool, unit, event);
    err := s.Close(owned, err);
  }

  // ---------- Enqueue ----------

  ghost predicate LoadedOrNew(d: Db, p: Pool) {
    if p.path in d.pools then p.version != 0 && ToRow(p) == d.pools[p.path]
    else p == Pool(p.path, ReleaseFed, DEFAULT_WIP_LIMIT, DEFAULT_ALARM_THRESHOLD, [], 0)
  }

  method BuildUnit(req: EnqueueRequest) returns (unit: WorkUnit?, err: Option<AppError>)
    ensures err == (if req.id == "" then Some(OfUnit(EmptyId))
                    else if req.reference == "" then Some(OfUnit(EmptyReference)) else None)
    ensures unit != null <==> err == None
    ensures unit != null ==>
      fresh(unit) && unit.Valid() && unit.Value() == Requested(req) && unit.giftWrap == req.giftWrap
  {
    var u, uerr := NewWorkUnit(req.id, req.path, req.cpt, req.reference);
    if u == null { return null, Some(OfUnit(uerr.value)); }
    u.SetSku(req.sku);
    u.SetGiftWrap(req.giftWrap);
    return u, None;
  }

  method LoadOrCreate(s: Store, path: PathId) returns (pool: WorkPool?, err: Option<AppError>)
    requires s.Valid()
    modifies s.env
    ensures Explained(s.env, old(s.env.Now()), err)
    ensures pool == null ==> err == Some(Infrastructure)
    ensures pool != null ==> err == None && fresh(pool) && pool.Valid() && pool.path == path && pool.version >= 0
    ensures pool != null ==> LoadedOrNew(s.Now().db, pool.Value())
  {
    pool, err := s.FindPool(path);
    if err == Some(NotFound) {
      pool := new WorkPool(path, ReleaseFed, DEFAULT_WIP_LIMIT, DEFAULT_ALARM_THRESHOLD);
      err := None;
    }
  }

  method EnqueueOnce(s: Store, req: EnqueueRequest, at: Time) returns (err: Option<AppError>)
    requires s.Valid()
    modifies s, s.env
    ensures Explained(s.env, old(s.env.Now()), err)
    ensures err == None ==> IsEnqueued(old(s.Now()).db, s.Now().db, req, at)
    ensures err.Some? ==> EnqueueRefused(old(s.Now()).db, req, err.value)
    ensures req.id == "" || req.reference == "" ==> err.Some? && err.value.OfUnit?
    ensures s.Valid() && s.tx.Some? == old(s.tx).Some? && (s.tx.Some? ==> s.committed == old(s.committed))
    ensures err == None ==> Did(old(s.Now()), s.Now(), Enq(Requested(req), at))
    ensures Clean(err) || (err != None && s.uow && old(s.tx) == None) ==> s.Now() == old(s.Now())
    ensures s.Now().marks == old(s.Now()).marks
  {
    ghost var before := s.Now();
    var unit, uerr := BuildUnit(req);
    if unit == null { return uerr; }
    var pool, perr := LoadOrCreate(s, req.path);
    if pool == null { return perr; }
    ghost var p0 := pool.Value();
    var dup := pool.Enqueue(unit.id, unit.cpt);
    if dup != None {
      EnqueueOnTable(p0, unit.id, unit.cpt);
      return Some(OfPool(dup.value));
    }
    ghost var p1 := pool.Value();
    err := SaveAtomically(s, pool, unit, WorkUnitCreated(unit.id, req.path, at));
    if err == None {
      EnqueueIsStep(before, s.Now(), p0, p1, Requested(req), at);
      EnqueueIsSeen(before, s.Now(), req, at);
    }
  }

  lemma EnqueueIsStep(before: State, after: State, p0: Pool, p1: Pool, u: Unit, at: Time)
    requires Distinct(p0.entries) && u == Freshly(u) && p0.path == u.path && PoolSpec.Enqueue(p0, u.id, u.cpt) == Ok(p1)
    requires LoadedOrNew(before.db, p0)
    requires SavedAll(before, after, Some(p1), u, WorkUnitCreated(u.id, u.path, at))
    ensures Did(before, after, Enq(u, at))
  {
    EnqueueOnTable(p0, u.id, u.cpt);
  }

  lemma EnqueueIsSeen(before: State, after: State, req: EnqueueRequest, at: Time)
    requires Did(before, after, Enq(Requested(req), at))
    ensures IsEnqueued(before.db, after.db, req, at)
  {
  }

  // ---------- Release ----------

  /** The pool hands out its next entry, and the entry's unit is loaded. */
  method NextCandidate(s: Store, pool: WorkPool) returns (unit: WorkUnit?, err: Option<AppError>)
    requires s.Valid() && pool.Valid()
    modifies pool`entries, s.env
    ensures pool.Valid() && Explained(s.env, old(s.env.Now()), err)
    ensures err == None ==>
      && ReleaseNext(old(pool.Value())).Ok? && pool.Value() == ReleaseNext(old(pool.Value())).value.1
      && unit != null && fresh(unit) && unit.Valid() && unit.id == ReleaseNext(old(pool.Value())).value.0
      && unit.id in s.Now().db.units && unit.Value() == s.Now().db.units[unit.id]
    ensures err.Some? ==> CandidateRefused(s.Now().db, old(pool.Value()), err.value)
  {
    var next := pool.ReleaseNext();
    if next.Err? { return null, Some(OfPool(next.error)); }
    unit, err := s.FindUnit(next.value);
  }

  ghost predicate CandidateRefused(d: Db, p: Pool, err: AppError) {
    match err
    case OfPool(e) => ReleaseNext(p) == Err(e)
    case NotFound => ReleaseNext(p).Ok? && ReleaseNext(p).value.0 !in d.units
    case _ => err == Infrastructure
  }

  /**
   Advances the pool to its next pending entry whose unit is still Pending, healing in place
   the entries whose units had already moved on. Each turn takes one entry off the backlog.
   */
  method NextReleasable(s: Store, pool: WorkPool)
      returns (unit: WorkUnit?, err: Option<AppError>, ghost healed: seq<UnitId>)
    requires s.Valid() && pool.Valid()
    requires pool.path in s.Now().db.pools && ToRow(pool.Value()) == s.Now().db.pools[pool.path]
    modifies pool`entries, s.env
    ensures pool.Valid()
    ensures Explained(s.env, old(s.env.Now()), err)
    ensures err.Some? ==> ReleaseRefused(s.Now().db, pool.path, err.value) && err != Some(ConcurrentModification)
    ensures err == None ==>
      && unit != null && fresh(unit) && unit.Valid() && unit.stage == Pending
      && MayRelease(s.Now().db, pool.path, healed, unit.id)
      && unit.Value() == s.Now().db.units[unit.id]
      && ToRow(pool.Value()) == StageIn(Heal(s.Now().db.pools[pool.path], s.Now().db.units, healed), unit.id, Released)
    ensures err == None ==> Count(pool.entries, Pending) + |healed| + 1 == Count(old(pool.entries), Pending)
  {
    healed := [];
    while true
      invariant HealedTo(s.Now().db, pool.Value(), healed)
      invariant Count(pool.entries, Pending) + |healed| == Count(old(pool.entries), Pending)
      invariant Explained(s.env, old(s.env.Now()), None)
      decreases Count(pool.entries, Pending)
      modifies pool`entries, s.env
    {
      unit, err, healed := TakeTurn(s, pool, healed);
      if err != None || unit.stage == Pending { return; }
    }
  }

  /** The pool is the stored one with `healed` healed. */
  ghost predicate HealedTo(d: Db, p: Pool, healed: seq<UnitId>) {
    && p.path in d.pools && Distinct(p.entries)
    && HealOk(d.pools[p.path], d.units, healed) && ToRow(p) == Heal(d.pools[p.path], d.units, healed)
  }

  /** One turn: the unit of the next entry is Pending and chosen, or the entry is healed. */
  method TakeTurn(s: Store, pool: WorkPool, ghost before: seq<UnitId>)
      returns (unit: WorkUnit?, err: Option<AppError>, ghost healed: seq<UnitId>)
    requires s.Valid() && HealedTo(s.Now().db, pool.Value(), before)
    modifies pool`entries, s.env
    ensures pool.Valid() && Explained(s.env, old(s.env.Now()), err)
    ensures err.Some? ==> ReleaseRefused(s.Now().db, pool.path, err.value) && err != Some(ConcurrentModification)
    ensures err == None ==>
      && unit != null && fresh(unit) && unit.Valid() && unit.id in s.Now().db.units
      && unit.Value() == s.Now().db.units[unit.id]
      && Count(pool.entries, Pending) == Count(old(pool.entries), Pending) - 1
    ensures err == None && unit.stage == Pending ==>
      && healed == before && MayRelease(s.Now().db, pool.path, healed, unit.id)
      && ToRow(pool.Value()) == StageIn(Heal(s.Now().db.pools[pool.path], s.Now().db.units, healed), unit.id, Released)
    ensures err == None && unit.stage != Pending ==>
      healed == before + [unit.id] && HealedTo(s.Now().db, pool.Value(), healed)
  {
    ghost var d, p0 := s.Now().db, pool.Value();
    healed := before;
    unit, err := NextCandidate(s, pool);
    if err != None {
      WhyRefused(d, pool.path, healed, p0, err.value);
      return;
    }
    TurnTaken(d.pools[pool.path], d.units, healed, p0);
    if unit.stage != Pending {
      var rerr := pool.Reconcile(unit.id, true, unit.stage == Completed);
      healed := healed + [unit.id];
    }
  }

  /** Why the pool, healed as far as it got, hands out nothing. */
  lemma WhyRefused(d: Db, path: PathId, healed: seq<UnitId>, p0: Pool, err: AppError)
    requires path in d.pools && HealOk(d.pools[path], d.units, healed) && CandidateRefused(d, p0, err)
    requires Distinct(p0.entries) && ToRow(p0) == Heal(d.pools[path], d.units, healed)
    ensures ReleaseRefused(d, path, err) && err != ConcurrentModification
  {
    var row, units := d.pools[path], d.units;
    ReleaseNextOnTable(p0);
    HealShape(row, units, healed);
    var h := Heal(row, units, healed);
    assert h.entries == Table(p0.entries);
    match err
    case OfPool(EmptyPool) =>
      forall id | id in h.entries ensures h.entries[id].stage != Pending { assert id in Table(p0.entries); }
      assert Drained(row, units, healed);
    case OfPool(WipLimitReached) => assert Full(row, units, healed);
    case NotFound => assert UnitMissing(row, units, healed);
    case _ =>
  }

  /** One turn at the next entry: it is the one to release, or it is healed off the backlog. */
  lemma TurnTaken(row: PoolRow, units: map<UnitId, Unit>, healed: seq<UnitId>, p0: Pool)
    requires Distinct(p0.entries) && HealOk(row, units, healed) && ToRow(p0) == Heal(row, units, healed)
    requires ReleaseNext(p0).Ok? && ReleaseNext(p0).value.0 in units
    ensures var (id, p1) := ReleaseNext(p0).value;
      && CanRelease(Heal(row, units, healed), id)
      && ToRow(p1) == StageIn(Heal(row, units, healed), id, Released)
      && Count(p1.entries, Pending) == Count(p0.entries, Pending) - 1
      && PoolSpec.Reconcile(p1, id, true, units[id].stage == Completed).Ok?
      && (units[id].stage != Pending ==>
            var p2 := PoolSpec.Reconcile(p1, id, true, units[id].stage == Completed).value;
            && HealOk(row, units, healed + [id]) && ToRow(p2) == Heal(row, units, healed + [id])
            && Count(p2.entries, Pending) == Count(p0.entries, Pending) - 1)
  {
    var (id, p1) := ReleaseNext(p0).value;
    var completed := units[id].stage == Completed;
    ReleaseNextOnTable(p0);
    BacklogShrinks(p0);
    BacklogKept(p1, id, completed);
    if units[id].stage != Pending {
      EntryHealed(row, units, healed, id, p1);
    }
  }

  lemma EntryHealed(row: PoolRow, units: map<UnitId, Unit>, healed: seq<UnitId>, id: UnitId, p1: Pool)
    requires Distinct(p1.entries) && HealOk(row, units, healed) && CanRelease(Heal(row, units, healed), id)
    requires ToRow(p1) == StageIn(Heal(row, units, healed), id, Released)
    requires id in units && units[id].stage != Pending
    ensures PoolSpec.Reconcile(p1, id, true, units[id].stage == Completed).Ok?
    ensures HealOk(row, units, healed + [id])
    ensures ToRow(PoolSpec.Reconcile(p1, id, true, units[id].stage == Completed).value) ==
      Heal(row, units, healed + [id])
  {
    ReconcileOnTable(p1, id, true, units[id].stage == Completed);
    assert (healed + [id])[..|healed|] == healed;
  }

  lemma BacklogShrinks(p: Pool)
    ensures ReleaseNext(p).Ok? ==> Count(ReleaseNext(p).value.1.entries, Pending) == Count(p.entries, Pending) - 1
  {
    var b := NextPending(p.entries);
    if b != -1 {
      CountUpdate(p.entries, b, p.entries[b].(stage := Released), Pending);
    }
  }

  lemma BacklogKept(p: Pool, id: UnitId, completed: bool)
    requires id in Table(p.entries) && Table(p.entries)[id].stage != Pending && Distinct(p.entries)
    ensures PoolSpec.Reconcile(p, id, true, completed).Ok?
    ensures Count(PoolSpec.Reconcile(p, id, true, completed).value.entries, Pending) == Count(p.entries, Pending)
  {
    TableKeys(p.entries, id);
    var i := IndexOf(p.entries, id);
    TableAt(p.entries, i);
    CountUpdate(p.entries, i, p.entries[i].(stage := Reconciled(p.entries[i].stage, true, completed)), Pending);
  }

  /** Whatever the healing visited now agrees with its unit; nothing else changed. */
  lemma HealingIsSound(d: Db, path: PathId, healed: seq<UnitId>, id: UnitId, other: UnitId)
    requires MayRelease(d, path, healed, id) && other in d.pools[path].entries
    ensures other in Heal(d.pools[path], d.units, healed).entries
    ensures var was, now := d.pools[path].entries[other], Heal(d.pools[path], d.units, healed).entries[other];
      if other in healed then
        was.stage == Pending && other in d.units && now.stage == d.units[other].stage && now.stage != Pending
      else now == was
    ensures id in d.pools[path].entries
    ensures other !in healed && d.pools[path].entries[other].stage == Pending ==>
      d.pools[path].entries[id].cpt <= d.pools[path].entries[other].cpt
  {
    HealShape(d.pools[path], d.units, healed);
    var h := Heal(d.pools[path], d.units, healed);
    assert h.entries[other].cpt == d.pools[path].entries[other].cpt;
  }

  /** Loads the pool of the path and advances it to its next releasable unit. */
  method Choose(s: Store, path: PathId)
      returns (pool: WorkPool?, unit: WorkUnit?, err: Option<AppError>, ghost healed: seq<UnitId>)
    requires s.Valid()
    modifies s.env
    ensures Explained(s.env, old(s.env.Now()), err)
    ensures err.Some? ==> ReleaseRefused(s.Now().db, path, err.value) && err != Some(ConcurrentModification)
    ensures err == None ==>
      && pool != null && fresh(pool) && pool.Valid() && pool.path == path
      && unit != null && fresh(unit) && unit.Valid() && unit.stage == Pending
      && MayRelease(s.Now().db, path, healed, unit.id) && unit.Value() == s.Now().db.units[unit.id]
      && ToRow(pool.Value()) == StageIn(Heal(s.Now().db.pools[path], s.Now().db.units, healed), unit.id, Released)
      && pool.version >= 0 && VersionFits(s.Now().db, path, pool.version)
  {
    unit, healed := null, [];
    pool, err := s.FindPool(path);
    if err != None { return; }
    unit, err, healed := NextReleasable(s, pool);
  }

  method ReleaseOnce(s: Store, path: PathId, at: Time) returns (err: Option<AppError>, ghost op: Op)
    requires s.Valid()
    modifies s, s.env
    ensures Explained(s.env, old(s.env.Now()), err)
    ensures err == None ==> op.Rel? && IsHandedOut(old(s.Now()).db, s.Now().db, path, op.id, at)
    ensures err.Some? ==> ReleaseRefused(old(s.Now()).db, path, err.value)
    ensures s.Valid() && s.tx.Some? == old(s.tx).Some? && (s.tx.Some? ==> s.committed == old(s.committed))
    ensures err == None ==> op.Rel? && op.path == path && op.at == at && Did(old(s.Now()), s.Now(), op)
    ensures Clean(err) || (err != None && s.uow && old(s.tx) == None) ==> s.Now() == old(s.Now())
    ensures s.Now().marks == old(s.Now()).marks
  {
    ghost var before := s.Now();
    op := Rel(path, [], "", at);
    var pool, unit, uerr, healed := Choose(s, path);
    if uerr != None { return uerr, op; }
    op := Rel(path, healed, unit.id, at);
    ghost var u0, p1 := unit.Value(), pool.Value();
    var rerr := unit.Release(at);
    assert rerr == None;
    err := SaveAtomically(s, pool, unit, WorkReleased(unit.id, path, at));
    if err == None {
      ReleaseIsStep(before, s.Now(), p1, u0, healed, at);
      ReleaseIsSeen(before, s.Now(), path, healed, unit.id, at);
    }
  }

  lemma ReleaseIsStep(before: State, after: State, p1: Pool, u0: Unit, healed: seq<UnitId>, at: Time)
    requires MayRelease(before.db, p1.path, healed, u0.id) && u0 == before.db.units[u0.id]
    requires ToRow(p1) == StageIn(Heal(before.db.pools[p1.path], before.db.units, healed), u0.id, Released)
    requires SavedAll(before, after, Some(p1), u0.(stage := Released, releasedAt := Some(at)),
      WorkReleased(u0.id, p1.path, at))
    ensures Did(before, after, Rel(p1.path, healed, u0.id, at))
  {
  }

  lemma ReleaseIsSeen(before: State, after: State, path: PathId, healed: seq<UnitId>, id: UnitId, at: Time)
    requires Did(before, after, Rel(path, healed, id, at))
    ensures IsHandedOut(before.db, after.db, path, id, at)
  {
    var row := before.db.pools[path];
    HealShape(row, before.db.units, healed);
    HealingIsSound(before.db, path, healed, id, id);
    assert after.db.pools[path].entries == StageIn(Heal(row, before.db.units, healed), id, Released).entries;
  }

  // ---------- Complete ----------

  /** Loads the unit's pool, if it has one that holds it, and moves its entry to Completed. */
  method LoadReconciled(s: Store, unit: WorkUnit)
      returns (pool: WorkPool?, err: Option<AppError>, ghost p0: Option<Pool>)
    requires s.Valid() && unit.Valid()
    modifies s.env
    ensures Explained(s.env, old(s.env.Now()), err)
    ensures err == None || err == Some(Infrastructure)
    ensures pool != null ==> fresh(pool) && pool.Valid() && pool.version >= 0
    ensures err == None ==> StoredPool(s.Now().db, unit.path, p0) && ValueOf(pool) == ReconciledPool(p0, unit.id)
  {
    pool, err := s.FindPool(unit.path);
    if err == Some(Infrastructure) { return null, err, None; }
    p0 := if pool != null then Some(pool.Value()) else None;
    err := None;
    if pool != null {
      ReconcileOnTable(p0.value, unit.id, true, true);
      var rerr := pool.Reconcile(unit.id, true, true);
      if rerr != None { pool := null; }
    }
  }

  /** `p0` is the pool stored for the path, None when there is none. */
  ghost predicate StoredPool(d: Db, path: PathId, p0: Option<Pool>) {
    && (p0.Some? <==> path in d.pools)
    && (p0.Some? ==> Distinct(p0.value.entries) && p0.value.path == path && ToRow(p0.value) == d.pools[path])
  }

  ghost function ReconciledPool(p0: Option<Pool>, id: UnitId): Option<Pool> {
    if p0.Some? && PoolSpec.Reconcile(p0.value, id, true, true).Ok?
    then Some(PoolSpec.Reconcile(p0.value, id, true, true).value) else None
  }

  /** Inside the scope of a completion: the pool entry, the unit, the event. */
  method SaveCompleted(s: Store, unit: WorkUnit, event: Event) returns (err: Option<AppError>, ghost p0: Option<Pool>)
    requires s.Valid() && unit.Valid()
    modifies s, s.env
    ensures Explained(s.env, old(s.env.Now()), err)
    ensures s.Valid() && s.tx.Some? == old(s.tx).Some? && (s.tx.Some? ==> s.committed == old(s.committed))
    ensures err == None ==>
      && StoredPool(old(s.Now()).db, unit.path, p0)
      && SavedAll(old(s.Now()), s.Now(), ReconciledPool(p0, unit.id), unit.Value(), event)
    ensures err != None ==> err.value in {ConcurrentModification, Infrastructure}
    ensures err == Some(ConcurrentModification) ==> s.Now() == old(s.Now())
    ensures s.Now().marks == old(s.Now()).marks
  {
    var pool: WorkPool?;
    pool, err, p0 := LoadReconciled(s, unit);
    if err == None { err := SaveAll(s, pool, unit, event); }
  }

  method CompleteOnce(s: Store, id: UnitId, at: Time) returns (err: Option<AppError>)
    requires s.Valid()
    modifies s, s.env
    ensures Explained(s.env, old(s.env.Now()), err)
    ensures err == None ==> IsClosed(old(s.Now()).db, s.Now().db, id, at)
    ensures err.Some? ==> CompletionRefused(old(s.Now()).db, id, err.value)
    ensures s.Valid() && s.tx.Some? == old(s.tx).Some? && (s.tx.Some? ==> s.committed == old(s.committed))
    ensures err == None ==> Did(old(s.Now()), s.Now(), Cmp(id, at))
    ensures Clean(err) || (err != None && s.uow && old(s.tx) == None) ==> s.Now() == old(s.Now())
    ensures s.Now().marks == old(s.Now()).marks
  {
    ghost var before := s.Now();
    var unit, uerr := s.FindUnit(id);
    if uerr != None { return uerr; }
    ghost var u0 := unit.Value();
    var cerr := unit.Complete(at);
    if cerr != None { return Some(OfUnit(cerr.value)); }
    ghost var p0: Option<Pool>;
    err, p0 := CompleteAtomically(s, unit, WorkUnitCompleted(id, unit.path, at));
    if err == None {
      CompletionIsStep(before, s.Now(), p0, u0, at);
      CompletionIsSeen(before, s.Now(), id, at);
    }
  }

  method CompleteAtomically(s: Store, unit: WorkUnit, event: Event)
      returns (err: Option<AppError>, ghost p0: Option<Pool>)
    requires s.Valid() && unit.Valid()
    modifies s, s.env
    ensures Explained(s.env, old(s.env.Now()), err)
    ensures s.Valid() && s.tx.Some? == old(s.tx).Some? && (s.tx.Some? ==> s.committed == old(s.committed))
    ensures err == None ==>
      && StoredPool(old(s.Now()).db, unit.path, p0)
      && SavedAll(old(s.Now()), s.Now(), ReconciledPool(p0, unit.id), unit.Value(), event)
    ensures err != None ==> err.value in {ConcurrentModification, Infrastructure}
    ensures Clean(err) || (err != None && s.uow && old(s.tx) == None) ==> s.Now() == old(s.Now())
    ensures s.Now().marks == old(s.Now()).marks
  {
    var owned := s.Open();
    err, p0 := SaveCompleted(s, unit, event);
    err := s.Close(owned, err);
  }

  lemma CompletionIsSeen(before: State, after: State, id: UnitId, at: Time)
    requires Did(before, after, Cmp(id, at))
    ensures IsClosed(before.db, after.db, id, at)
  {
  }

  lemma CompletionIsStep(before: State, after: State, p0: Option<Pool>, u0: Unit, at: Time)
    requires u0.id in before.db.units && u0 == before.db.units[u0.id] && u0.stage == Released
    requires StoredPool(before.db, u0.path, p0)
    requires SavedAll(before, after, ReconciledPool(p0, u0.id),
      u0.(stage := Completed, completedAt := Some(at)), WorkUnitCompleted(u0.id, u0.path, at))
    ensures Did(before, after, Cmp(u0.id, at))
  {
    if p0.Some? {
      ReconcileOnTable(p0.value, u0.id, true, true);
    }
  }

  // ---------- Retrying a lost race ----------

  /**
   What a retried operation says of its attempts: only lost races are retried, all of them until
   twelve were lost or a wait was cut short, and any failing answer has its cause.
   */
  ghost predicate Retried(env: Environment, since: Moment, err: Option<AppError>)
    reads env
  {
    && env.LaterThan(since) && Overtakings(env.fate, since.steps, env.steps) <= 12
    && (err == Some(ConcurrentModification) ==>
          env.EndedSince(since) || Overtakings(env.fate, since.steps, env.steps) == 12)
    && (err == Some(ConcurrentModification) || err == Some(Infrastructure) ==> env.TroubledSince(since))
    && (err == Some(Infrastructure) ==> since.steps < env.steps && env.fate(env.steps - 1) != Goes)
    && (forall n :: since.steps <= n < env.steps - (if err == Some(Infrastructure) then 1 else 0) ==>
          env.fate(n) == Goes || env.fate(n) == Overtaken)
  }

  /** After `lost` lost races: each attempt so far was overtaken at its last step. */
  ghost predicate Losing(env: Environment, since: Moment, lost: nat)
    reads env
  {
    && env.LaterThan(since) && Overtakings(env.fate, since.steps, env.steps) == lost
    && (lost > 0 ==> env.TroubledSince(since))
    && (forall n :: since.steps <= n < env.steps ==> env.fate(n) == Goes || env.fate(n) == Overtaken)
  }

  /** One more attempt, from `then`. */
  lemma AttemptCounts(env: Environment, since: Moment, began: Moment, lost: nat, err: Option<AppError>)
    requires since.steps <= began.steps && since.waits <= began.waits && began.waits == env.waits
    requires Overtakings(env.fate, since.steps, began.steps) == lost < MAX_POOL_SAVE_ATTEMPTS
    requires forall n :: since.steps <= n < began.steps ==> env.fate(n) == Goes || env.fate(n) == Overtaken
    requires Explained(env, began, err)
    ensures err != Some(ConcurrentModification) ==> Retried(env, since, err)
    ensures err == Some(ConcurrentModification) ==> Losing(env, since, lost + 1)
  {
    if err == Some(ConcurrentModification) || err == Some(Infrastructure) {
      NoneOvertaken(env.fate, since.steps, began.steps, env.steps - 1);
    } else {
      NoneOvertaken(env.fate, since.steps, began.steps, env.steps);
    }
  }

  /**
   Runs attempts until one ends otherwise than by a lost race, twelve at most. However many
   lost, a success did the operation once and a failed scope left nothing.
   */
  method Enqueue(s: Store, req: EnqueueRequest, at: Time) returns (err: Option<AppError>)
    requires s.Valid()
    modifies s, s.env
    ensures s.Valid() && s.tx.Some? == old(s.tx).Some? && (s.tx.Some? ==> s.committed == old(s.committed))
    ensures Retried(s.env, old(s.env.Now()), err)
    ensures err == None ==> Did(old(s.Now()), s.Now(), Enq(Requested(req), at))
    ensures err == None ==> IsEnqueued(old(s.Now()).db, s.Now().db, req, at)
    ensures err.Some? ==> EnqueueRefused(old(s.Now()).db, req, err.value)
    ensures Clean(err) || (err != None && s.uow && old(s.tx) == None) ==> s.Now() == old(s.Now())
    ensures s.Now().marks == old(s.Now()).marks
  {
    err := Some(ConcurrentModification);
    for i := 0 to MAX_POOL_SAVE_ATTEMPTS
      invariant s.Valid() && s.tx.Some? == old(s.tx).Some? && (s.tx.Some? ==> s.committed == old(s.committed))
      invariant err == Some(ConcurrentModification) && s.Now() == old(s.Now())
      invariant Losing(s.env, old(s.env.Now()), i)
    {
      ghost var began := s.env.Now();
      err := EnqueueOnce(s, req, at);
      AttemptCounts(s.env, old(s.env.Now()), began, i, err);
      if err != Some(ConcurrentModification) { return; }
      var ended := s.env.Wait();
      if ended { return; }
    }
  }

  method ReleaseNextWork(s: Store, path: PathId, at: Time) returns (err: Option<AppError>, ghost op: Op)
    requires s.Valid()
    modifies s, s.env
    ensures s.Valid() && s.tx.Some? == old(s.tx).Some? && (s.tx.Some? ==> s.committed == old(s.committed))
    ensures Retried(s.env, old(s.env.Now()), err)
    ensures err == None ==> op.Rel? && op.path == path && op.at == at && Did(old(s.Now()), s.Now(), op)
    ensures err == None ==> IsHandedOut(old(s.Now()).db, s.Now().db, path, op.id, at)
    ensures err.Some? ==> ReleaseRefused(old(s.Now()).db, path, err.value)
    ensures Clean(err) || (err != None && s.uow && old(s.tx) == None) ==> s.Now() == old(s.Now())
    ensures s.Now().marks == old(s.Now()).marks
  {
    err, op := Some(ConcurrentModification), Rel(path, [], "", at);
    for i := 0 to MAX_POOL_SAVE_ATTEMPTS
      invariant s.Valid() && s.tx.Some? == old(s.tx).Some? && (s.tx.Some? ==> s.committed == old(s.committed))
      invariant err == Some(ConcurrentModification) && s.Now() == old(s.Now())
      invariant Losing(s.env, old(s.env.Now()), i)
    {
      ghost var began := s.env.Now();
      err, op := ReleaseOnce(s, path, at);
      AttemptCounts(s.env, old(s.env.Now()), began, i, err);
      if err != Some(ConcurrentModification) { return; }
      var ended := s.env.Wait();
      if ended { return; }
    }
  }

  method RecordCompletion(s: Store, id: UnitId, at: Time) returns (err: Option<AppError>)
    requires s.Valid()
    modifies s, s.env
    ensures s.Valid() && s.tx.Some? == old(s.tx).Some? && (s.tx.Some? ==> s.committed == old(s.committed))
    ensures Retried(s.env, old(s.env.Now()), err)
    ensures err == None ==> Did(old(s.Now()), s.Now(), Cmp(id, at))
    ensures err == None ==> IsClosed(old(s.Now()).db, s.Now().db, id, at)
    ensures err.Some? ==> CompletionRefused(old(s.Now()).db, id, err.value)
    ensures Clean(err) || (err != None && s.uow && old(s.tx) == None) ==> s.Now() == old(s.Now())
    ensures s.Now().marks == old(s.Now()).marks
  {
    err := Some(ConcurrentModification);
    for i := 0 to MAX_POOL_SAVE_ATTEMPTS
      invariant s.Valid() && s.tx.Some? == old(s.tx).Some? && (s.tx.Some? ==> s.committed == old(s.committed))
      invariant err == Some(ConcurrentModification) && s.Now() == old(s.Now())
      invariant Losing(s.env, old(s.env.Now()), i)
    {
      ghost var began := s.env.Now();
      err := CompleteOnce(s, id, at);
      AttemptCounts(s.env, old(s.env.Now()), began, i, err);
      if err != Some(ConcurrentModification) { return; }
      var ended := s.env.Wait();
      if ended { return; }
    }
  }
}
