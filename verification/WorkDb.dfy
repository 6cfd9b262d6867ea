/**
 The persisted state of the service (pools, work units, inventory views and the outbox) and
 the sequential specification of the use cases: one atomic operation per committed use case.
 A stored pool keeps its entries as a table keyed by work unit id; a read may return them in
 any order that agrees with the CPTs.
 */
module WorkDb {
  import opened Types
  import opened PoolSpec

  datatype Row = Row(cpt: Time, stage: Stage)

  datatype PoolRow = PoolRow(mode: FeedMode, wipLimit: int, alarm: int, version: int, entries: map<UnitId, Row>)

  datatype Unit = Unit(id: UnitId, path: PathId, cpt: Time, reference: string, sku: string,
                       stage: Stage, releasedAt: Option<Time>, completedAt: Option<Time>)

  datatype Usable = Usable(quantity: int, observedAt: Time)

  datatype Event =
    | WorkUnitCreated(id: UnitId, path: PathId, at: Time)
    | WorkReleased(id: UnitId, path: PathId, at: Time)
    | WorkUnitCompleted(id: UnitId, path: PathId, at: Time)

  datatype Db = Db(pools: map<PathId, PoolRow>, units: map<UnitId, Unit>, views: map<Sku, Usable>, outbox: seq<Event>)

  const DEFAULT_WIP_LIMIT := 1000
  const DEFAULT_ALARM_THRESHOLD := 1000

  const EMPTY: Db := Db(map[], map[], map[], [])

  /**
   One committed use case: enqueue a fresh unit, release `id` after healing the stale entries
   `healed` in that order, complete `id`, or apply an inventory delta.
   */
  datatype Op =
    | Enq(unit: Unit, at: Time)
    | Rel(path: PathId, healed: seq<UnitId>, id: UnitId, at: Time)
    | Cmp(id: UnitId, at: Time)
    | Obs(sku: Sku, delta: int, at: Time)

  // ---------- Pools ----------

  function Freshly(unit: Unit): Unit {
    unit.(stage := Pending, releasedAt := None, completedAt := None)
  }

  function StageIn(row: PoolRow, id: UnitId, st: Stage): PoolRow
    requires id in row.entries
  {
    row.(entries := row.entries[id := row.entries[id].(stage := st)])
  }

  function Outstanding(m: map<UnitId, Row>): set<UnitId> {
    set id | id in m && m[id].stage == Released
  }

  function Wip(m: map<UnitId, Row>): nat {
    |Outstanding(m)|
  }

  ghost predicate WithinLimit(row: PoolRow) {
    row.mode == ReleaseFed ==> Wip(row.entries) <= row.wipLimit
  }

  /** The pool may hand out `id`: pending, of minimal CPT, within the WIP limit. */
  ghost predicate CanRelease(row: PoolRow, id: UnitId) {
    && id in row.entries
    && row.entries[id].stage == Pending
    && (forall j :: j in row.entries && row.entries[j].stage == Pending ==> row.entries[id].cpt <= row.entries[j].cpt)
    && (row.mode == ReleaseFed ==> Wip(row.entries) < row.wipLimit)
  }

  /** The pool after visiting and healing `ids` in order. */
  function Heal(row: PoolRow, units: map<UnitId, Unit>, ids: seq<UnitId>): PoolRow {
    if ids == [] then row
    else
      var r := Heal(row, units, ids[..|ids| - 1]);
      var id := ids[|ids| - 1];
      if id in r.entries && id in units then StageIn(r, id, units[id].stage) else r
  }

  /** Each of `ids` was the next to release in its turn, and its unit had already moved on. */
  ghost predicate HealOk(row: PoolRow, units: map<UnitId, Unit>, ids: seq<UnitId>) {
    ids == [] ||
    (var id := ids[|ids| - 1];
     && HealOk(row, units, ids[..|ids| - 1])
     && CanRelease(Heal(row, units, ids[..|ids| - 1]), id)
     && id in units && units[id].stage != Pending)
  }

  // ---------- The sequential specification ----------

  ghost predicate MayEnqueue(d: Db, unit: Unit) {
    unit == Freshly(unit) && (unit.path in d.pools ==> unit.id !in d.pools[unit.path].entries)
  }

  ghost predicate MayRelease(d: Db, path: PathId, healed: seq<UnitId>, id: UnitId) {
    && path in d.pools
    && HealOk(d.pools[path], d.units, healed)
    && CanRelease(Heal(d.pools[path], d.units, healed), id)
    && id in d.units && d.units[id].stage == Pending
  }

  ghost predicate MayComplete(d: Db, id: UnitId) {
    id in d.units && d.units[id].stage != Pending
  }

  ghost predicate Enabled(d: Db, op: Op) {
    match op
    case Enq(unit, _) => MayEnqueue(d, unit)
    case Rel(path, healed, id, _) => MayRelease(d, path, healed, id)
    case Cmp(id, _) => MayComplete(d, id)
    case Obs(_, _, _) => true
  }

  /** The completion a caller with no concurrent completion gets: the unit must be Released. */
  ghost predicate EnabledAlone(d: Db, op: Op) {
    Enabled(d, op) && (op.Cmp? ==> d.units[op.id].stage == Released)
  }

  function AfterEnqueue(d: Db, unit: Unit, at: Time): Db {
    var row := if unit.path in d.pools then d.pools[unit.path]
               else PoolRow(ReleaseFed, DEFAULT_WIP_LIMIT, DEFAULT_ALARM_THRESHOLD, 0, map[]);
    d.(pools :=
      d.pools[unit.path := row.(entries := row.entries[unit.id := Row(unit.cpt, Pending)], version := row.version + 1)],
       units := d.units[unit.id := unit],
       outbox := d.outbox + [WorkUnitCreated(unit.id, unit.path, at)])
  }

  function AfterRelease(d: Db, path: PathId, healed: seq<UnitId>, id: UnitId, at: Time): Db {
    if path !in d.pools || id !in d.units then d
    else
      var row := Heal(d.pools[path], d.units, healed);
      if id !in row.entries then d
      else
        d.(pools := d.pools[path := StageIn(row, id, Released).(version := row.version + 1)],
           units := d.units[id := d.units[id].(stage := Released, releasedAt := Some(at))],
           outbox := d.outbox + [WorkReleased(id, path, at)])
  }

  function AfterCompletion(d: Db, id: UnitId, at: Time): Db {
    if id !in d.units then d
    else
      var u := d.units[id];
      var pools := if u.path in d.pools && id in d.pools[u.path].entries
                   then d.pools[u.path :=
                     StageIn(d.pools[u.path], id, Completed).(version := d.pools[u.path].version + 1)]
                   else d.pools;
      d.(pools := pools,
         units := d.units[id := u.(stage := Completed, completedAt := Some(at))],
         outbox := d.outbox + [WorkUnitCompleted(id, u.path, at)])
  }

  function AfterDelta(d: Db, sku: Sku, delta: int, at: Time): Db {
    d.(views := d.views[sku := Usable((if sku in d.views then d.views[sku].quantity else 0) + delta, at)])
  }

  function Step(d: Db, op: Op): Db {
    match op
    case Enq(unit, at) => AfterEnqueue(d, unit, at)
    case Rel(path, healed, id, at) => AfterRelease(d, path, healed, id, at)
    case Cmp(id, at) => AfterCompletion(d, id, at)
    case Obs(sku, delta, at) => AfterDelta(d, sku, delta, at)
  }

  function Run(d: Db, ops: seq<Op>): Db {
    if ops == [] then d else Step(Run(d, ops[..|ops| - 1]), ops[|ops| - 1])
  }

  /** Every operation was enabled when its turn came. */
  ghost predicate Valid(d: Db, ops: seq<Op>) {
    ops == [] || (Valid(d, ops[..|ops| - 1]) && Enabled(Run(d, ops[..|ops| - 1]), ops[|ops| - 1]))
  }

  /** Each unit id is only ever enqueued on its own path. */
  ghost predicate AtHome(home: UnitId -> PathId, op: Op) {
    op.Enq? ==> op.unit.path == home(op.unit.id)
  }

  ghost predicate AllAtHome(home: UnitId -> PathId, ops: seq<Op>) {
    forall i :: 0 <= i < |ops| ==> AtHome(home, ops[i])
  }

  lemma {:induction false} RunConcat(d: Db, a: seq<Op>, b: seq<Op>)
    ensures Run(d, a + b) == Run(Run(d, a), b)
    ensures Valid(d, a + b) <==> Valid(d, a) && Valid(Run(d, a), b)
    decreases |b|
  {
    if b == [] {
      assert a + b == a;
    } else {
      var n := |b| - 1;
      assert (a + b)[..|a + b| - 1] == a + b[..n];
      RunConcat(d, a, b[..n]);
    }
  }

  // ---------- What healing leaves alone ----------

  /** Healing changes stages only: the listed entries follow their units, all others stay. */
  lemma {:induction false} HealShape(row: PoolRow, units: map<UnitId, Unit>, ids: seq<UnitId>)
    requires HealOk(row, units, ids)
    ensures Healed(row, Heal(row, units, ids), units, ids)
  {
    if ids != [] {
      var n := |ids| - 1;
      var r := Heal(row, units, ids[..n]);
      HealShape(row, units, ids[..n]);
      assert ids == ids[..n] + [ids[n]];
    }
  }

  ghost predicate Healed(row: PoolRow, h: PoolRow, units: map<UnitId, Unit>, ids: seq<UnitId>) {
    && h.mode == row.mode && h.wipLimit == row.wipLimit && h.alarm == row.alarm && h.version == row.version
    && h.entries.Keys == row.entries.Keys
    && (forall id :: id in row.entries ==> h.entries[id].cpt == row.entries[id].cpt)
    && (forall id :: id in row.entries && id !in ids ==> h.entries[id].stage == row.entries[id].stage)
    && (forall id :: id in ids ==>
          && id in row.entries && row.entries[id].stage == Pending
          && id in units && h.entries[id].stage == units[id].stage && units[id].stage != Pending)
  }

  /** Healing only looks at the units it visits. */
  lemma {:induction false} HealFrame(row: PoolRow, u1: map<UnitId, Unit>, u2: map<UnitId, Unit>, ids: seq<UnitId>)
    requires HealOk(row, u1, ids)
    requires forall id :: id in row.entries && id in u1 ==> id in u2 && u1[id] == u2[id]
    ensures HealOk(row, u2, ids) && Heal(row, u1, ids) == Heal(row, u2, ids)
  {
    if ids != [] {
      HealFrame(row, u1, u2, ids[..|ids| - 1]);
      HealShape(row, u1, ids[..|ids| - 1]);
    }
  }

  lemma WipUpdate(m: map<UnitId, Row>, id: UnitId, r: Row)
    ensures Wip(m[id := r]) == Wip(m) - (if id in m && m[id].stage == Released then 1 else 0)
                             + (if r.stage == Released then 1 else 0)
  {
    assert Outstanding(m[id := r]) == (Outstanding(m) - {id}) + (if r.stage == Released then {id} else {});
  }

  lemma {:induction false} HealKeepsWip(row: PoolRow, units: map<UnitId, Unit>, ids: seq<UnitId>)
    requires HealOk(row, units, ids)
    requires WithinLimit(row)
    ensures WithinLimit(Heal(row, units, ids))
  {
    if ids != [] {
      var n := |ids| - 1;
      HealKeepsWip(row, units, ids[..n]);
      HealShape(row, units, ids[..n]);
      var r := Heal(row, units, ids[..n]);
      WipUpdate(r.entries, ids[n], r.entries[ids[n]].(stage := units[ids[n]].stage));
    }
  }
}
