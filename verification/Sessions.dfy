/**
 What one session knows and has done, whatever ids it and others use on which paths. All of it
 is about single pool rows, so it needs no more than the versions and the row locks.
 */
module Sessions {
  import opened Types
  import opened PoolSpec
  import opened WorkDb
  import opened PoolRows
  import opened Ledger
  import opened RowHistory
  import opened Protocol

  function RowOf(d: Db, p: PathId): Option<PoolRow> {
    if p in d.pools then Some(d.pools[p]) else None
  }

  /** The operations of the session on the pool of path `p`. */
  function OpsOn(saves: seq<Option<PoolSave>>, p: PathId): seq<RowOp> {
    if saves == [] then []
    else
      var save := saves[|saves| - 1];
      OpsOn(saves[..|saves| - 1], p) + (if save.Some? && save.value.path == p then [save.value.op] else [])
  }

  // ---------- What a session has read ----------

  /** A loaded version row is never newer than the row it was read from. */
  ghost predicate HeadOk(v: Db, pool: Pool) {
    && pool.version >= 1
    && pool.path in v.pools
    && var row := v.pools[pool.path];
    && pool.version <= row.version
    && pool.mode == row.mode && pool.wipLimit == row.wipLimit && pool.alarm == row.alarm
  }

  /** If the stored pool still has the loaded version, what was loaded is exactly what is stored. */
  ghost predicate LoadOk(v: Db, pool: Pool, healed: seq<UnitId>, units: map<UnitId, Unit>) {
    && HeadOk(v, pool)
    && var row := v.pools[pool.path];
    && Table(pool.entries).Keys <= row.entries.Keys
    && (pool.version == row.version ==>
          HealOk(row, units, healed) && ToRow(pool) == Heal(row, units, healed))
  }

  ghost predicate ChoiceOk(v: Db, id: UnitId, pool: Pool, healed: seq<UnitId>, units: map<UnitId, Unit>) {
    && HeadOk(v, pool)
    && var row := v.pools[pool.path];
    && (pool.version == row.version ==>
          && HealOk(row, units, healed)
          && CanRelease(Heal(row, units, healed), id)
          && ToRow(pool) == StageIn(Heal(row, units, healed), id, Released))
  }

  /** What is being loaded is the pool the job is about. */
  ghost predicate RightPool(a: Session, target: Option<Unit>, path: PathId)
    requires |a.done| < |a.jobs|
  {
    match JobOf(a)
    case Enqueuing(u, _) => target == None && path == u.path
    case Releasing(p, _) => target == None && path == p
    case Completing(id, _) => target.Some? && target.value.id == id && target.value.path == path
    case Observing(_, _, _) => false
  }

  ghost predicate PhaseSound(v: Db, a: Session) {
    match a.phase
    case Start => true
    case UnitRead(u) => |a.done| < |a.jobs| && JobOf(a).Completing? && JobOf(a).id == u.id
    case PoolAbsent(u) => |a.done| < |a.jobs| && JobOf(a).Completing? && JobOf(a).id == u.id
    case RowRead(target, head) =>
      |a.done| < |a.jobs| && HeadOk(v, head) && RightPool(a, target, head.path)
    case PoolRead(target, pool, healed, seen) =>
      && |a.done| < |a.jobs| && Distinct(pool.entries) && RightPool(a, target, pool.path)
      && (!JobOf(a).Releasing? ==> healed == [])
      && (pool.version == 0 ==> JobOf(a).Enqueuing? && pool == NewPool(pool.path))
      && (pool.version != 0 ==> LoadOk(v, pool, healed, seen))
    case Chosen(u, pool, healed, seen) =>
      && |a.done| < |a.jobs| && RightPool(a, None, pool.path) && JobOf(a).Releasing?
      && ChoiceOk(v, u.id, pool, healed, seen)
  }

  // ---------- What a session has done ----------

  /** The job, what it did, and what it did to a pool row belong together. */
  ghost predicate Accounts(job: Job, res: Option<Op>, save: Option<PoolSave>) {
    match job
    case Enqueuing(u, at) =>
      || (res == None && save == None)
      || (res == Some(Enq(u, at)) && save == Some(PoolSave(u.path, Add(u.id, u.cpt))))
    case Releasing(p, at) =>
      && res.Some? && res.value.Rel? && res.value.path == p && res.value.at == at
      && save.Some? && save.value.path == p && save.value.op.Hand?
      && save.value.op.healed == res.value.healed && save.value.op.id == res.value.id
    case Completing(id, at) =>
      || (res == None && save == None)
      || (res == Some(Cmp(id, at)) && (save.Some? ==> save.value.op == Close(id)))
    case Observing(sku, delta, at) => res == Some(Obs(sku, delta, at)) && save == None
  }

  ghost predicate Stored(v: Db, u: Unit) {
    u.path in v.pools && u.id in v.pools[u.path].entries
  }

  /** Every job done is accounted for, and every line done or skipped is in its pool. */
  ghost predicate JobsDone(v: Db, jobs: seq<Job>, done: seq<Option<Op>>, saves: seq<Option<PoolSave>>) {
    && |saves| == |done| <= |jobs|
    && (forall i :: 0 <= i < |done| ==> Accounts(jobs[i], done[i], saves[i]))
    && (forall i :: 0 <= i < |done| && jobs[i].Enqueuing? ==> Stored(v, jobs[i].unit))
  }

  /** The pool row the session sees is what its own operations make of the committed one. */
  ghost predicate RowInv(d: Db, a: Session, p: PathId) {
    && RowValid(RowOf(d, p), OpsOn(a.saves, p))
    && RowOf(View(d, a.over), p) == RowRun(RowOf(d, p), OpsOn(a.saves, p))
    && (p !in a.over.pools ==> OpsOn(a.saves, p) == [])
  }

  /** The session announces a handout for each one it made, and no other. */
  ghost predicate NewsInv(a: Session, p: PathId, id: UnitId) {
    HandoutsOn(a.over.events, p, id) == Hands(OpsOn(a.saves, p), id)
  }

  ghost predicate QuantityInv(d: Db, a: Session, sku: Sku) {
    && QuantityOf(View(d, a.over), sku) == QuantityOf(d, sku) + Deltas(Ops(a.done), sku)
    && (sku !in a.over.views ==> Deltas(Ops(a.done), sku) == 0)
  }

  ghost predicate Effects(d: Db, a: Session) {
    && (forall p :: RowInv(d, a, p))
    && (forall p, id :: NewsInv(a, p, id))
    && (forall sku :: QuantityInv(d, a, sku))
  }

  ghost predicate SessionSound(d: Db, a: Session) {
    && JobsFresh(a.jobs)
    && RowsSound(View(d, a.over))
    && JobsDone(View(d, a.over), a.jobs, a.done, a.saves)
    && PhaseSound(View(d, a.over), a)
    && Effects(d, a)
  }

  // ---------- Reads ----------

  lemma TurnPicks(v: Db, pool: Pool, healed: seq<UnitId>, units: map<UnitId, Unit>, id: UnitId, p1: Pool)
    requires LoadOk(v, pool, healed, units) && Distinct(pool.entries) && ReleaseNext(pool) == Ok((id, p1))
    ensures ChoiceOk(v, id, p1, healed, units)
  {
    ReleaseNextOnTable(pool);
  }

  /** Healing the next entry, seen on the pool's own rows. */
  lemma TurnReconciles(pool: Pool, id: UnitId, stage: Stage, p1: Pool, p2: Pool)
    requires Distinct(pool.entries) && ReleaseNext(pool) == Ok((id, p1)) && stage != Pending
    requires Reconcile(p1, id, true, stage == Completed) == Ok(p2)
    ensures Distinct(p2.entries) && CanRelease(ToRow(pool), id) && ToRow(p2) == StageIn(ToRow(pool), id, stage)
    ensures p2.path == pool.path && Table(p2.entries).Keys == Table(pool.entries).Keys
  {
    ReleaseNextOnTable(pool);
    ReconcileOnTable(p1, id, true, stage == Completed);
    assert ToRow(p1) == StageIn(ToRow(pool), id, Released);
  }

  lemma TurnHeals(v: Db, pool: Pool, healed: seq<UnitId>, units: map<UnitId, Unit>, id: UnitId, unit: Unit, p1: Pool,
      p2: Pool)
    requires LoadOk(v, pool, healed, units) && Distinct(pool.entries)
    requires ReleaseNext(pool) == Ok((id, p1)) && unit.stage != Pending
    requires Reconcile(p1, id, true, unit.stage == Completed) == Ok(p2)
    ensures LoadOk(v, p2, healed + [id], units[id := unit]) && Distinct(p2.entries)
  {
    TurnReconciles(pool, id, unit.stage, p1, p2);
    var row := v.pools[pool.path];
    if pool.version == row.version { HealOneMore(row, units, healed, id, unit); }
  }

  lemma ReadsKeep(v: Db, a: Session, b: Session)
    requires RowsSound(v) && |a.done| < |a.jobs| && PhaseSound(v, a)
    requires ReadUnit(v, a, b) || ReadRow(v, a, b) || ReadEntries(v, a, b) || LoseRace(v, a, b)
    ensures PhaseSound(v, b) && b == a.(phase := b.phase)
  {
  }

  lemma TurnKeeps(v: Db, a: Session, b: Session)
    requires RowsSound(v) && |a.done| < |a.jobs| && PhaseSound(v, a) && Turn(v, a, b)
    ensures PhaseSound(v, b) && b == a.(phase := b.phase)
  {
    var pool, healed, seen := a.phase.pool, a.phase.healed, a.phase.seen;
    var (id, p1) := ReleaseNext(pool).value;
    if v.units[id].stage == Pending {
      TurnPicks(v, pool, healed, seen, id, p1);
    } else {
      TurnHeals(v, pool, healed, seen, id, v.units[id], p1, b.phase.pool);
    }
  }

  // ---------- Writes, seen on the pool row ----------

  lemma EnqueueRow(v: Db, pool: Pool, u: Unit, p1: Pool)
    requires Distinct(pool.entries) && u.path == pool.path && Enqueue(pool, u.id, u.cpt) == Ok(p1)
    requires VersionMatches(v, p1)
    requires if pool.version == 0 then pool == NewPool(pool.path) else RowOf(v, pool.path) == Some(ToRow(pool))
    ensures RowMay(RowOf(v, pool.path), Add(u.id, u.cpt))
    ensures RowAfter(RowOf(v, pool.path), Add(u.id, u.cpt)) == Some(ToRow(p1).(version := p1.version + 1))
  {
    EnqueueOnTable(pool, u.id, u.cpt);
    var row := RowOf(v, pool.path);
    if pool.version == 0 {
      assert row == None && ToRow(pool) == NEW_ROW;
    } else {
      assert row == Some(ToRow(pool));
    }
    assert ToRow(p1) == ToRow(pool).(entries := Table(pool.entries)[u.id := Row(u.cpt, Pending)]);
  }

  lemma ReleaseRow(v: Db, pool: Pool, healed: seq<UnitId>, units: map<UnitId, Unit>, id: UnitId)
    requires ChoiceOk(v, id, pool, healed, units) && VersionMatches(v, pool)
    ensures RowMay(RowOf(v, pool.path), Hand(healed, units, id))
    ensures RowAfter(RowOf(v, pool.path), Hand(healed, units, id)) == Some(ToRow(pool).(version := pool.version + 1))
  {
    HealShape(v.pools[pool.path], units, healed);
  }

  lemma CompletionRow(v: Db, pool: Pool, id: UnitId, p1: Pool)
    requires Distinct(pool.entries) && RowOf(v, pool.path) == Some(ToRow(pool))
    requires Reconcile(pool, id, true, true) == Ok(p1)
    ensures RowMay(RowOf(v, pool.path), Close(id))
    ensures RowAfter(RowOf(v, pool.path), Close(id)) == Some(ToRow(p1).(version := p1.version + 1))
  {
    ReconcileOnTable(pool, id, true, true);
  }

  // ---------- Writes, seen on everything the session did ----------

  /** The row after the write: the save's operation where it was made, unchanged elsewhere. */
  ghost predicate RowWritten(d: Db, o: Overlay, o1: Overlay, save: Option<PoolSave>, p: PathId) {
    if save.Some? && save.value.path == p then
      && RowMay(RowOf(View(d, o), p), save.value.op)
      && RowOf(View(d, o1), p) == RowAfter(RowOf(View(d, o), p), save.value.op)
      && p in o1.pools
    else RowOf(View(d, o1), p) == RowOf(View(d, o), p) && (p in o.pools <==> p in o1.pools)
  }

  ghost predicate NewsWritten(o: Overlay, o1: Overlay, save: Option<PoolSave>, p: PathId, id: UnitId) {
    HandoutsOn(o1.events, p, id) == HandoutsOn(o.events, p, id)
      + (if save.Some? && save.value.path == p && save.value.op.Hand? && save.value.op.id == id then 1 else 0)
  }

  ghost predicate QuantityWritten(d: Db, o: Overlay, o1: Overlay, op: Op, sku: Sku) {
    && QuantityOf(View(d, o1), sku) == QuantityOf(View(d, o), sku) + (if op.Obs? && op.sku == sku then op.delta else 0)
    && (sku !in o1.views ==> sku !in o.views && !(op.Obs? && op.sku == sku))
  }

  /** What a write leaves in the overlay: nothing but the effects of its operation. */
  ghost predicate Written(d: Db, o: Overlay, o1: Overlay, op: Op, save: Option<PoolSave>) {
    && (forall p :: RowWritten(d, o, o1, save, p))
    && (forall p, id :: NewsWritten(o, o1, save, p, id))
    && (forall sku :: QuantityWritten(d, o, o1, op, sku))
  }

  lemma OpsOnAppend(saves: seq<Option<PoolSave>>, save: Option<PoolSave>, p: PathId)
    ensures OpsOn(saves + [save], p)
         == OpsOn(saves, p) + (if save.Some? && save.value.path == p then [save.value.op] else [])
  {
    assert (saves + [save])[..|saves|] == saves;
  }

  lemma HandsAppend(ops: seq<RowOp>, op: RowOp, id: UnitId)
    ensures Hands(ops + [op], id) == Hands(ops, id) + (if op.Hand? && op.id == id then 1 else 0)
  {
    assert (ops + [op])[..|ops|] == ops;
  }

  lemma OpsAppend(done: seq<Option<Op>>, res: Option<Op>)
    ensures Ops(done + [res]) == Ops(done) + (if res.Some? then [res.value] else [])
  {
    assert (done + [res])[..|done|] == done;
  }

  lemma DeltasAppend(ops: seq<Op>, op: Op, sku: Sku)
    ensures Deltas(ops + [op], sku) == Deltas(ops, sku) + (if op.Obs? && op.sku == sku then op.delta else 0)
  {
    assert (ops + [op])[..|ops|] == ops;
  }

  lemma RowSaved(d: Db, a: Session, o: Overlay, op: Op, save: Option<PoolSave>, p: PathId)
    requires RowInv(d, a, p) && RowWritten(d, a.over, o, save, p)
    ensures RowInv(d, Finished(a, o, op, save), p)
  {
    OpsOnAppend(a.saves, save, p);
    var before := OpsOn(a.saves, p);
    if save.Some? && save.value.path == p {
      assert (before + [save.value.op])[..|before|] == before;
    } else {
      assert OpsOn(a.saves + [save], p) == before;
    }
  }

  lemma NewsSaved(a: Session, o: Overlay, op: Op, save: Option<PoolSave>, p: PathId, id: UnitId)
    requires NewsInv(a, p, id) && NewsWritten(a.over, o, save, p, id)
    ensures NewsInv(Finished(a, o, op, save), p, id)
  {
    OpsOnAppend(a.saves, save, p);
    if save.Some? && save.value.path == p {
      HandsAppend(OpsOn(a.saves, p), save.value.op, id);
    } else {
      assert OpsOn(a.saves + [save], p) == OpsOn(a.saves, p);
    }
  }

  lemma QuantitySaved(d: Db, a: Session, o: Overlay, op: Op, save: Option<PoolSave>, sku: Sku)
    requires QuantityInv(d, a, sku) && QuantityWritten(d, a.over, o, op, sku)
    ensures QuantityInv(d, Finished(a, o, op, save), sku)
  {
    OpsAppend(a.done, Some(op));
    DeltasAppend(Ops(a.done), op, sku);
  }

  lemma EffectsSaved(d: Db, a: Session, o: Overlay, op: Op, save: Option<PoolSave>)
    requires Effects(d, a) && Written(d, a.over, o, op, save)
    ensures Effects(d, Finished(a, o, op, save))
  {
    forall p ensures RowInv(d, Finished(a, o, op, save), p) { RowSaved(d, a, o, op, save, p); }
    forall p, id ensures NewsInv(Finished(a, o, op, save), p, id) { NewsSaved(a, o, op, save, p, id); }
    forall sku ensures QuantityInv(d, Finished(a, o, op, save), sku) { QuantitySaved(d, a, o, op, save, sku); }
  }

  lemma StoredStays(d: Db, o: Overlay, o1: Overlay, save: Option<PoolSave>, u: Unit)
    requires RowsSound(View(d, o)) && RowWritten(d, o, o1, save, u.path) && Stored(View(d, o), u)
    ensures Stored(View(d, o1), u)
  {
    if save.Some? && save.value.path == u.path { StepFacts(RowOf(View(d, o), u.path), save.value.op); }
  }

  lemma JobSaved(d: Db, a: Session, o: Overlay, op: Op, save: Option<PoolSave>)
    requires |a.done| < |a.jobs| && JobsDone(View(d, a.over), a.jobs, a.done, a.saves)
    requires RowsSound(View(d, a.over)) && (forall p :: RowWritten(d, a.over, o, save, p))
    requires Accounts(JobOf(a), Some(op), save)
    ensures JobsDone(View(d, o), a.jobs, a.done + [Some(op)], a.saves + [save])
  {
    forall i | 0 <= i < |a.done| && a.jobs[i].Enqueuing? ensures Stored(View(d, o), a.jobs[i].unit) {
      assert RowWritten(d, a.over, o, save, a.jobs[i].unit.path);
      StoredStays(d, a.over, o, save, a.jobs[i].unit);
    }
    if op.Enq? { assert RowWritten(d, a.over, o, save, op.unit.path); }
  }

  lemma WriteSound(d: Db, a: Session, o: Overlay, op: Op, save: Option<PoolSave>)
    requires SessionSound(d, a) && |a.done| < |a.jobs| && Accounts(JobOf(a), Some(op), save)
    requires Written(d, a.over, o, op, save) && RowsSound(View(d, o))
    ensures SessionSound(d, Finished(a, o, op, save))
  {
    JobSaved(d, a, o, op, save);
    EffectsSaved(d, a, o, op, save);
  }

  lemma SavedView(d: Db, o: Overlay, pool: Pool, u: Unit, e: Event)
    ensures var v, w := View(d, o), View(d, Saved(o, pool, u, e));
      && w.pools == v.pools[pool.path := ToRow(pool).(version := pool.version + 1)]
      && w.units == v.units[u.id := u] && w.views == v.views && w.outbox == v.outbox + [e]
  {
  }

  /** One more event that hands out nothing, or exactly what the operation handed out. */
  lemma NewsOf(o: Overlay, o1: Overlay, e: Event, save: Option<PoolSave>)
    requires o1.events == o.events + [e]
    requires if save.Some? && save.value.op.Hand?
             then e.WorkReleased? && e.id == save.value.op.id && e.path == save.value.path else !e.WorkReleased?
    ensures forall p, id :: NewsWritten(o, o1, save, p, id)
  {
    forall p, id ensures NewsWritten(o, o1, save, p, id) {
      OccurrencesAppend(o.events, e, IsHandoutOn(p, id));
    }
  }

  lemma RowsOfSave(d: Db, o: Overlay, pool: Pool, u: Unit, e: Event, rop: RowOp)
    requires RowMay(RowOf(View(d, o), pool.path), rop)
    requires RowAfter(RowOf(View(d, o), pool.path), rop) == Some(ToRow(pool).(version := pool.version + 1))
    ensures forall p :: RowWritten(d, o, Saved(o, pool, u, e), Some(PoolSave(pool.path, rop)), p)
  {
  }

  /** The save of a pool, a unit and an event does `op` to the pool row and nothing to the others. */
  lemma SavedIsWritten(d: Db, o: Overlay, pool: Pool, u: Unit, e: Event, op: Op, rop: RowOp)
    requires RowMay(RowOf(View(d, o), pool.path), rop)
    requires RowAfter(RowOf(View(d, o), pool.path), rop) == Some(ToRow(pool).(version := pool.version + 1))
    requires if rop.Hand? then e.WorkReleased? && e.id == rop.id && e.path == pool.path else !e.WorkReleased?
    requires !op.Obs?
    ensures Written(d, o, Saved(o, pool, u, e), op, Some(PoolSave(pool.path, rop)))
  {
    RowsOfSave(d, o, pool, u, e, rop);
    NewsOf(o, Saved(o, pool, u, e), e, Some(PoolSave(pool.path, rop)));
  }

  lemma SavedIsSound(d: Db, o: Overlay, pool: Pool, u: Unit, e: Event)
    requires RowsSound(View(d, o)) && pool.version >= 0
    ensures RowsSound(View(d, Saved(o, pool, u, e)))
  {
    SavedView(d, o, pool, u, e);
  }

  lemma SaveEnqueueKeeps(d: Db, a: Session, b: Session)
    requires SessionSound(d, a) && |a.done| < |a.jobs| && SaveEnqueue(View(d, a.over), a, b)
    ensures SessionSound(d, b)
  {
    var v, job, pool := View(d, a.over), JobOf(a), a.phase.pool;
    var p1 := Enqueue(pool, job.unit.id, job.unit.cpt).value;
    assert pool.version != 0 ==> ToRow(pool) == Heal(v.pools[pool.path], a.phase.seen, []);
    EnqueueRow(v, pool, job.unit, p1);
    var e := WorkUnitCreated(job.unit.id, job.unit.path, job.at);
    SavedIsWritten(d, a.over, p1, job.unit, e, Enq(job.unit, job.at), Add(job.unit.id, job.unit.cpt));
    SavedIsSound(d, a.over, p1, job.unit, e);
    WriteSound(d, a, b.over, Enq(job.unit, job.at), b.saves[|a.saves|]);
  }

  lemma SaveReleaseKeeps(d: Db, a: Session, b: Session)
    requires SessionSound(d, a) && |a.done| < |a.jobs| && SaveRelease(View(d, a.over), a, b)
    ensures SessionSound(d, b)
  {
    var job, pool, u := JobOf(a), a.phase.pool, a.phase.unit;
    ReleaseRow(View(d, a.over), pool, a.phase.healed, a.phase.seen, u.id);
    var op, rop := Rel(job.path, a.phase.healed, u.id, job.at), Hand(a.phase.healed, a.phase.seen, u.id);
    var v, e := u.(stage := Released, releasedAt := Some(job.at)), WorkReleased(u.id, job.path, job.at);
    SavedIsWritten(d, a.over, pool, v, e, op, rop);
    SavedIsSound(d, a.over, pool, v, e);
    WriteSound(d, a, b.over, op, Some(PoolSave(pool.path, rop)));
  }

  lemma SaveCompletionKeeps(d: Db, a: Session, b: Session)
    requires SessionSound(d, a) && |a.done| < |a.jobs| && SaveCompletion(View(d, a.over), a, b)
    ensures SessionSound(d, b)
  {
    var v, at, pool, u := View(d, a.over), JobOf(a).at, a.phase.pool, a.phase.target.value;
    var p1 := Reconcile(pool, u.id, true, true).value;
    assert ToRow(pool) == Heal(v.pools[pool.path], a.phase.seen, []);
    CompletionRow(v, pool, u.id, p1);
    var w, e := u.(stage := Completed, completedAt := Some(at)), WorkUnitCompleted(u.id, u.path, at);
    SavedIsWritten(d, a.over, p1, w, e, Cmp(u.id, at), Close(u.id));
    SavedIsSound(d, a.over, p1, w, e);
    WriteSound(d, a, b.over, Cmp(u.id, at), Some(PoolSave(p1.path, Close(u.id))));
  }

  lemma SaveUnitAloneKeeps(d: Db, a: Session, b: Session)
    requires SessionSound(d, a) && |a.done| < |a.jobs| && SaveUnitAlone(View(d, a.over), a, b)
    ensures SessionSound(d, b)
  {
    var u := if a.phase.PoolAbsent? then a.phase.unit else a.phase.target.value;
    var op := Cmp(u.id, JobOf(a).at);
    NewsOf(a.over, b.over, WorkUnitCompleted(u.id, u.path, JobOf(a).at), None);
    assert Written(d, a.over, b.over, op, None);
    WriteSound(d, a, b.over, op, None);
  }

  lemma DeltaIsWritten(d: Db, o: Overlay, sku: Sku, delta: int, at: Time)
    ensures var op := Obs(sku, delta, at);
      Written(d, o, o.(views := o.views[sku := Step(View(d, o), op).views[sku]]), op, None)
  {
  }

  lemma ApplyDeltaKeeps(d: Db, a: Session, b: Session)
    requires SessionSound(d, a) && |a.done| < |a.jobs| && ApplyDelta(View(d, a.over), a, b)
    ensures SessionSound(d, b)
  {
    var job := JobOf(a);
    DeltaIsWritten(d, a.over, job.sku, job.delta, job.at);
    WriteSound(d, a, b.over, Obs(job.sku, job.delta, job.at), None);
  }

  /** A skipped line is in its pool; true of a torn or stale read too, as entries are never deleted. */
  lemma SkippedIsStored(v: Db, a: Session, b: Session)
    requires |a.done| < |a.jobs| && PhaseSound(v, a) && Skip(v, a, b) && JobOf(a).Enqueuing?
    ensures Stored(v, JobOf(a).unit)
  {
    TableKeys(a.phase.pool.entries, JobOf(a).unit.id);
  }

  /** The same overlay, operations and saves have the same effects. */
  lemma EffectsSame(d: Db, a: Session, b: Session)
    requires Effects(d, a) && b.over == a.over && Ops(b.done) == Ops(a.done)
    requires forall p :: OpsOn(b.saves, p) == OpsOn(a.saves, p)
    ensures Effects(d, b)
  {
    forall p ensures RowInv(d, b, p) { assert RowInv(d, a, p); }
    forall p, id ensures NewsInv(b, p, id) { assert NewsInv(a, p, id); }
    forall sku ensures QuantityInv(d, b, sku) { assert QuantityInv(d, a, sku); }
  }

  lemma JobSkipped(v: Db, a: Session, b: Session)
    requires |a.done| < |a.jobs| && PhaseSound(v, a) && JobsDone(v, a.jobs, a.done, a.saves) && Skip(v, a, b)
    ensures JobsDone(v, b.jobs, b.done, b.saves)
  {
    if JobOf(a).Enqueuing? { SkippedIsStored(v, a, b); }
  }

  lemma SkipKeeps(d: Db, a: Session, b: Session)
    requires SessionSound(d, a) && |a.done| < |a.jobs| && Skip(View(d, a.over), a, b)
    ensures SessionSound(d, b)
  {
    JobSkipped(View(d, a.over), a, b);
    OpsAppend(a.done, None);
    forall p ensures OpsOn(b.saves, p) == OpsOn(a.saves, p) { OpsOnAppend(a.saves, None, p); }
    EffectsSame(d, a, b);
  }

  lemma PhaseOnlyKeeps(d: Db, a: Session, b: Session)
    requires SessionSound(d, a) && b == a.(phase := b.phase) && PhaseSound(View(d, a.over), b)
    ensures SessionSound(d, b)
  {
    EffectsSame(d, a, b);
  }

  lemma ActKeeps(d: Db, a: Session, b: Session)
    requires SessionSound(d, a) && Local(View(d, a.over), a, b)
    ensures SessionSound(d, b) && b.event == a.event && b.jobs == a.jobs
  {
    var v := View(d, a.over);
    if SaveEnqueue(v, a, b) { SaveEnqueueKeeps(d, a, b); }
    else if SaveRelease(v, a, b) { SaveReleaseKeeps(d, a, b); }
    else if SaveCompletion(v, a, b) { SaveCompletionKeeps(d, a, b); }
    else if SaveUnitAlone(v, a, b) { SaveUnitAloneKeeps(d, a, b); }
    else if ApplyDelta(v, a, b) { ApplyDeltaKeeps(d, a, b); }
    else if Skip(v, a, b) { SkipKeeps(d, a, b); }
    else {
      if Turn(v, a, b) { TurnKeeps(v, a, b); } else { ReadsKeep(v, a, b); }
      PhaseOnlyKeeps(d, a, b);
    }
  }
}
