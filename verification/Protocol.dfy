/**
 The use cases as they run concurrently over read-committed Postgres.

 A session is one transaction scope: the outermost unit of work, in which every nested scope
 joins. Its writes stay in an overlay that only it reads, together with the row locks those
 writes took, until it commits or disappears (rollback, error or crash). A session works
 through its jobs one after another. Each job reads in separate statements (unit, version row,
 entry rows, units met while healing), each of which may see a different committed state, and
 writes once, guarded by the version it loaded. A lost race goes back to the first read.
 */
module Protocol {
  import opened Types
  import opened PoolSpec
  import opened WorkDb
  import opened PoolRows
  import opened Ledger
  import opened RowHistory

  datatype Job =
    | Enqueuing(unit: Unit, at: Time)
    | Releasing(path: PathId, at: Time)
    | Completing(id: UnitId, at: Time)
    | Observing(sku: Sku, delta: int, at: Time)

  datatype Phase =
    | Start
    | UnitRead(unit: Unit)
    | RowRead(target: Option<Unit>, head: Pool)
    | PoolRead(target: Option<Unit>, pool: Pool, healed: seq<UnitId>, seen: map<UnitId, Unit>)
    | PoolAbsent(unit: Unit)
    | Chosen(unit: Unit, pool: Pool, healed: seq<UnitId>, seen: map<UnitId, Unit>)

  datatype Overlay = Overlay(pools: map<PathId, PoolRow>, units: map<UnitId, Unit>, views: map<Sku, Usable>,
      events: seq<Event>)

  /** One save of a pool row. */
  datatype PoolSave = PoolSave(path: PathId, op: RowOp)

  /**
   `done[i]` is what job i did, None for a job skipped as a benign repeat; `saves[i]` is what it
   did to a pool row, None when it saved none.
   */
  datatype Session = Session(event: Option<EventId>, jobs: seq<Job>, done: seq<Option<Op>>,
                             saves: seq<Option<PoolSave>>, phase: Phase, over: Overlay)

  datatype Batch = Batch(event: Option<EventId>, jobs: seq<Job>, done: seq<Option<Op>>, saves: seq<Option<PoolSave>>)

  datatype Sys = Sys(db: Db, marks: set<EventId>, sessions: map<nat, Session>, log: seq<Batch>)

  const NOTHING: Overlay := Overlay(map[], map[], map[], [])

  /** What a statement of the session reads: its own writes over the committed state. */
  function View(d: Db, o: Overlay): Db {
    Db(d.pools + o.pools, d.units + o.units, d.views + o.views, d.outbox + o.events)
  }

  function Ops(done: seq<Option<Op>>): seq<Op> {
    if done == [] then []
    else Ops(done[..|done| - 1]) + (if done[|done| - 1].Some? then [done[|done| - 1].value] else [])
  }

  function Flatten(log: seq<Batch>): seq<Op> {
    if log == [] then [] else Flatten(log[..|log| - 1]) + Ops(log[|log| - 1].done)
  }

  function JobOf(a: Session): Job
    requires |a.done| < |a.jobs|
  {
    a.jobs[|a.done|]
  }

  function Head(path: PathId, row: PoolRow): Pool {
    Pool(path, row.mode, row.wipLimit, row.alarm, [], row.version)
  }

  function NewPool(path: PathId): Pool {
    Pool(path, ReleaseFed, DEFAULT_WIP_LIMIT, DEFAULT_ALARM_THRESHOLD, [], 0)
  }

  // ---------- Reads ----------

  /** RecordCompletion reads its unit before anything else, and needs it Released. */
  ghost predicate ReadUnit(v: Db, a: Session, b: Session)
    requires |a.done| < |a.jobs|
  {
    var job := JobOf(a);
    && a.phase == Start && job.Completing?
    && job.id in v.units && v.units[job.id].stage == Released
    && b == a.(phase := UnitRead(v.units[job.id]))
  }

  /** First statement of loading a pool: the version row. */
  ghost predicate ReadRow(v: Db, a: Session, b: Session)
    requires |a.done| < |a.jobs|
  {
    var job := JobOf(a);
    match job
    case Enqueuing(u, _) =>
      && a.phase == Start
      && b == a.(phase := if u.path in v.pools then RowRead(None, Head(u.path, v.pools[u.path]))
                          else PoolRead(None, NewPool(u.path), [], map[]))
    case Releasing(path, _) =>
      && a.phase == Start && path in v.pools
      && b == a.(phase := RowRead(None, Head(path, v.pools[path])))
    case Completing(_, _) =>
      && a.phase.UnitRead?
      && var u := a.phase.unit;
         b == a.(phase := if u.path in v.pools then RowRead(Some(u), Head(u.path, v.pools[u.path])) else PoolAbsent(u))
    case Observing(_, _, _) => false
  }

  /** Second statement: the entry rows, in any order their CPTs allow. */
  ghost predicate ReadEntries(v: Db, a: Session, b: Session) {
    && a.phase.RowRead?
    && a.phase.head.path in v.pools
    && b.phase.PoolRead?
    && IsReading(v.pools[a.phase.head.path].entries, b.phase.pool.entries)
    && b == a.(phase := PoolRead(a.phase.target, a.phase.head.(entries := b.phase.pool.entries), [], map[]))
  }

  /** One turn of nextReleasableUnit: take the next entry, and heal it if its unit moved on. */
  ghost predicate Turn(v: Db, a: Session, b: Session)
    requires |a.done| < |a.jobs|
  {
    && JobOf(a).Releasing? && a.phase.PoolRead?
    && ReleaseNext(a.phase.pool).Ok?
    && var (id, p1) := ReleaseNext(a.phase.pool).value;
    && id in v.units
    && (if v.units[id].stage == Pending then
          b == a.(phase := Chosen(v.units[id], p1, a.phase.healed, a.phase.seen))
        else
          && var r := Reconcile(p1, id, true, v.units[id].stage == Completed);
          && r.Ok?
          && b == a.(phase := PoolRead(None, r.value, a.phase.healed + [id], a.phase.seen[id := v.units[id]])))
  }

  // ---------- Writes ----------

  /** The guard of the versioned save: insert only a new row, update only the loaded version. */
  predicate VersionMatches(v: Db, pool: Pool) {
    if pool.version == 0 then pool.path !in v.pools
    else pool.path in v.pools && v.pools[pool.path].version == pool.version
  }

  function Saved(o: Overlay, pool: Pool, u: Unit, e: Event): Overlay {
    var row := ToRow(pool).(version := pool.version + 1);
    Overlay(o.pools[pool.path := row], o.units[u.id := u], o.views, o.events + [e])
  }

  function Finished(a: Session, o: Overlay, op: Op, save: Option<PoolSave>): Session {
    a.(over := o, done := a.done + [Some(op)], saves := a.saves + [save], phase := Start)
  }

  ghost predicate SaveEnqueue(v: Db, a: Session, b: Session)
    requires |a.done| < |a.jobs|
  {
    && JobOf(a).Enqueuing? && a.phase.PoolRead?
    && var job := JobOf(a);
    && var r := Enqueue(a.phase.pool, job.unit.id, job.unit.cpt);
    && r.Ok? && VersionMatches(v, r.value)
    && b == Finished(a, Saved(a.over, r.value, job.unit, WorkUnitCreated(job.unit.id, job.unit.path, job.at)),
                     Enq(job.unit, job.at), Some(PoolSave(r.value.path, Add(job.unit.id, job.unit.cpt))))
  }

  ghost predicate SaveRelease(v: Db, a: Session, b: Session)
    requires |a.done| < |a.jobs|
  {
    && JobOf(a).Releasing? && a.phase.Chosen?
    && var job, u := JobOf(a), a.phase.unit;
    && VersionMatches(v, a.phase.pool)
    && b == Finished(a, Saved(a.over, a.phase.pool, u.(stage := Released, releasedAt := Some(job.at)),
                              WorkReleased(u.id, job.path, job.at)),
                     Rel(job.path, a.phase.healed, u.id, job.at),
                     Some(PoolSave(a.phase.pool.path, Hand(a.phase.healed, a.phase.seen, u.id))))
  }

  ghost predicate SaveCompletion(v: Db, a: Session, b: Session)
    requires |a.done| < |a.jobs|
  {
    && JobOf(a).Completing? && a.phase.PoolRead? && a.phase.target.Some?
    && var at, u := JobOf(a).at, a.phase.target.value;
    && var r := Reconcile(a.phase.pool, u.id, true, true);
    && r.Ok? && VersionMatches(v, r.value)
    && b == Finished(a, Saved(a.over, r.value, u.(stage := Completed, completedAt := Some(at)),
                              WorkUnitCompleted(u.id, u.path, at)),
                     Cmp(u.id, at), Some(PoolSave(r.value.path, Close(u.id))))
  }

  /** A completion whose pool is missing or never held the unit writes the unit alone. */
  ghost predicate SaveUnitAlone(v: Db, a: Session, b: Session)
    requires |a.done| < |a.jobs|
  {
    && JobOf(a).Completing?
    && (|| a.phase.PoolAbsent?
        || (a.phase.PoolRead? && a.phase.target.Some? && !HasId(a.phase.pool.entries, a.phase.target.value.id)))
    && var at := JobOf(a).at;
    && var u := if a.phase.PoolAbsent? then a.phase.unit else a.phase.target.value;
    && b == Finished(a, a.over.(units := a.over.units[u.id := u.(stage := Completed, completedAt := Some(at))],
                                events := a.over.events + [WorkUnitCompleted(u.id, u.path, at)]),
                     Cmp(u.id, at), None)
  }

  /** The save found another version: nothing is written, the attempt starts over. */
  ghost predicate LoseRace(v: Db, a: Session, b: Session) {
    && (a.phase.PoolRead? || a.phase.Chosen?)
    && !VersionMatches(v, a.phase.pool)
    && b == a.(phase := Start)
  }

  ghost predicate ApplyDelta(v: Db, a: Session, b: Session)
    requires |a.done| < |a.jobs|
  {
    && JobOf(a).Observing? && a.phase == Start
    && var job := JobOf(a);
    && var op := Obs(job.sku, job.delta, job.at);
    && b == Finished(a, a.over.(views := a.over.views[job.sku := Step(v, op).views[job.sku]]), op, None)
  }

  /** Inbound events skip a line that is already enqueued and a unit that was never planned. */
  ghost predicate Skip(v: Db, a: Session, b: Session)
    requires |a.done| < |a.jobs|
  {
    && a.event.Some?
    && var job := JobOf(a);
    && (|| (job.Enqueuing? && a.phase.PoolRead? && HasId(a.phase.pool.entries, job.unit.id))
        || (job.Completing? && a.phase == Start && job.id !in v.units))
    && b == a.(done := a.done + [None], saves := a.saves + [None], phase := Start)
  }

  ghost predicate Local(v: Db, a: Session, b: Session) {
    && |a.done| < |a.jobs|
    && (|| ReadUnit(v, a, b) || ReadRow(v, a, b) || ReadEntries(v, a, b) || Turn(v, a, b)
        || SaveEnqueue(v, a, b) || SaveRelease(v, a, b) || SaveCompletion(v, a, b) || SaveUnitAlone(v, a, b)
        || LoseRace(v, a, b) || ApplyDelta(v, a, b) || Skip(v, a, b))
  }

  // ---------- The system ----------

  /** No two open sessions hold the same pool row, view row or processed-event row. */
  ghost predicate Disjoint(a: Session, b: Session) {
    && a.over.pools.Keys !! b.over.pools.Keys
    && a.over.views.Keys !! b.over.views.Keys
    && (a.event.Some? ==> a.event != b.event)
  }

  /** Every enqueue is of a freshly built unit. */
  ghost predicate JobsFresh(jobs: seq<Job>) {
    forall i :: 0 <= i < |jobs| && jobs[i].Enqueuing? ==> jobs[i].unit == Freshly(jobs[i].unit)
  }

  /** A scope opens; an inbound event's scope first takes its processed-event mark. */
  ghost predicate Open(s: Sys, t: Sys, n: nat) {
    && n !in s.sessions && n in t.sessions
    && var a := t.sessions[n];
    && JobsFresh(a.jobs)
    && a == Session(a.event, a.jobs, [], [], Start, NOTHING)
    && (a.event.Some? ==> a.event.value !in s.marks)
    && (forall m :: m in s.sessions ==> Disjoint(a, s.sessions[m]) && Disjoint(s.sessions[m], a))
    && t == s.(sessions := s.sessions[n := a])
  }

  /** A statement runs; one that needs a row another session holds has to wait. */
  ghost predicate Act(s: Sys, t: Sys, n: nat) {
    && n in s.sessions && n in t.sessions
    && Local(View(s.db, s.sessions[n].over), s.sessions[n], t.sessions[n])
    && (forall m :: m in s.sessions && m != n ==>
          Disjoint(t.sessions[n], s.sessions[m]) && Disjoint(s.sessions[m], t.sessions[n]))
    && t == s.(sessions := s.sessions[n := t.sessions[n]])
  }

  ghost predicate Commit(s: Sys, t: Sys, n: nat) {
    && n in s.sessions
    && var a := s.sessions[n];
    && |a.done| == |a.jobs|
    && t == Sys(View(s.db, a.over),
                s.marks + (if a.event.Some? then {a.event.value} else {}),
                s.sessions - {n},
                s.log + [Batch(a.event, a.jobs, a.done, a.saves)])
  }

  /** Rollback, an error that ends the scope, or a crash. */
  ghost predicate Vanish(s: Sys, t: Sys, n: nat) {
    n in s.sessions && t == s.(sessions := s.sessions - {n})
  }

  ghost predicate StepOf(s: Sys, t: Sys, n: nat) {
    Open(s, t, n) || Act(s, t, n) || Commit(s, t, n) || Vanish(s, t, n)
  }

  ghost predicate Next(s: Sys, t: Sys) {
    exists n: nat :: StepOf(s, t, n)
  }

  /** Stored pools have been saved at least once, and units are stored under their own ids. */
  ghost predicate RowsSound(d: Db) {
    && (forall p :: p in d.pools ==> d.pools[p].version >= 1)
    && (forall id :: id in d.units ==> d.units[id].id == id)
  }

  ghost predicate Init(s: Sys) {
    RowsSound(s.db) && s.sessions == map[] && s.log == []
  }

  /** Any number of sessions from any sound state, whatever ids they enqueue on which paths. */
  ghost predicate IsRun(run: seq<Sys>) {
    && |run| > 0 && Init(run[0])
    && forall i :: 0 <= i < |run| - 1 ==> Next(run[i], run[i + 1])
  }

  // ---------- Runs in which each id is used on one path ----------

  ghost predicate JobsAtHome(home: Home, jobs: seq<Job>) {
    forall i :: 0 <= i < |jobs| && jobs[i].Enqueuing? ==> jobs[i].unit.path == home(jobs[i].unit.id)
  }

  ghost predicate LogAtHome(home: Home, log: seq<Batch>) {
    forall k :: 0 <= k < |log| ==> JobsAtHome(home, log[k].jobs)
  }

  /**
   Up to point i the run started from units and entries filed under each other, and committed
   enqueues on their ids' own paths only. What never committed may have tried anything.
   */
  ghost predicate IsRunAtHome(home: Home, run: seq<Sys>, i: nat) {
    IsRun(run) && i < |run| && WellFormed(home, run[0].db) && LogAtHome(home, run[i].log)
  }
}
