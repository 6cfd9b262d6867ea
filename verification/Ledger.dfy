/**
 What every sequence of committed use cases keeps. `home` gives each work unit id the one
 path it is enqueued on.
 */
module Ledger {
  import opened Types
  import opened PoolSpec
  import opened WorkDb

  type Home = UnitId -> PathId

  ghost predicate UnitOk(u: Unit) {
    match u.stage
    case Pending => u.releasedAt == None && u.completedAt == None
    case Released => u.releasedAt.Some? && u.completedAt == None
    case Completed => u.releasedAt.Some? && u.completedAt.Some?
  }

  ghost predicate UnitFiled(home: Home, d: Db, id: UnitId)
    requires id in d.units
  {
    var u := d.units[id];
    && UnitOk(u) && u.id == id && u.path == home(id)
    && u.path in d.pools && id in d.pools[u.path].entries
  }

  /** The entry is on its unit's path, and never ahead of its unit. */
  ghost predicate EntryFiled(home: Home, d: Db, p: PathId, id: UnitId)
    requires p in d.pools && id in d.pools[p].entries
  {
    && home(id) == p && id in d.units
    && d.pools[p].entries[id].stage.Rank() <= d.units[id].stage.Rank()
  }

  /** Units and entries name each other, and no entry is ahead of its unit (it may lag). */
  ghost predicate WellFormed(home: Home, d: Db) {
    && (forall id :: id in d.units ==> UnitFiled(home, d, id))
    && (forall p :: p in d.pools ==> d.pools[p].version >= 1)
    && (forall p, id :: p in d.pools && id in d.pools[p].entries ==> EntryFiled(home, d, p, id))
  }

  /** Each entry agrees with its unit. */
  ghost predicate InSync(d: Db) {
    forall p, id :: p in d.pools && id in d.pools[p].entries && id in d.units ==>
      d.pools[p].entries[id].stage == d.units[id].stage
  }

  ghost predicate AllWithinLimit(d: Db) {
    forall p :: p in d.pools ==> WithinLimit(d.pools[p])
  }

  /** `v` is `u` at the same or a later point of its life. */
  ghost predicate Evolves(u: Unit, v: Unit) {
    && v.(stage := u.stage, releasedAt := u.releasedAt, completedAt := u.completedAt) == u
    && u.stage.Rank() <= v.stage.Rank()
    && (u.stage != Pending ==> v.releasedAt == u.releasedAt)
  }

  /** The pool of path `p` and the units filed on it are the same in both states. */
  ghost predicate SamePath(home: Home, d: Db, e: Db, p: PathId) {
    && (p in d.pools <==> p in e.pools)
    && (p in d.pools ==> d.pools[p] == e.pools[p])
    && (forall id :: home(id) == p ==> (id in d.units <==> id in e.units))
    && (forall id :: home(id) == p && id in d.units ==> d.units[id] == e.units[id])
  }

  /** Pool `e` is a later version of pool `d`. */
  ghost predicate Newer(d: PoolRow, e: PoolRow) {
    && d.mode == e.mode && d.wipLimit == e.wipLimit && d.alarm == e.alarm
    && d.version < e.version
    && (forall id :: id in d.entries ==>
          id in e.entries && e.entries[id].cpt == d.entries[id].cpt
          && d.entries[id].stage.Rank() <= e.entries[id].stage.Rank())
  }

  /**
   From `d` to `e` nothing moves backwards, and a path on which anything at all changed
   carries a higher pool version.
   */
  ghost predicate Advances(home: Home, d: Db, e: Db) {
    && (forall p :: p in d.pools ==> p in e.pools && (SamePath(home, d, e, p) || Newer(d.pools[p], e.pools[p])))
    && (forall id :: id in d.units ==> id in e.units && Evolves(d.units[id], e.units[id]))
  }

  lemma AdvancesTransitive(home: Home, d: Db, e: Db, f: Db)
    requires Advances(home, d, e) && Advances(home, e, f)
    ensures Advances(home, d, f)
  {
    forall p | p in d.pools
      ensures p in f.pools && (SamePath(home, d, f, p) || Newer(d.pools[p], f.pools[p]))
    {
      assert p in e.pools && p in f.pools;
      if SamePath(home, d, e, p) && SamePath(home, e, f, p) {
        assert SamePath(home, d, f, p);
      }
    }
    forall id | id in d.units
      ensures id in f.units && Evolves(d.units[id], f.units[id])
    {
      assert Evolves(d.units[id], e.units[id]) && Evolves(e.units[id], f.units[id]);
    }
  }

  // ---------- One operation ----------

  /** `row` is a pool of path `p` whose entries fit the units of `d`, `id` aside. */
  ghost predicate Fits(home: Home, d: Db, p: PathId, row: PoolRow, id: UnitId) {
    && row.version >= 1
    && (forall j :: j in row.entries && j != id ==>
          home(j) == p && j in d.units && row.entries[j].stage.Rank() <= d.units[j].stage.Rank())
  }

  /** `e` is `d` with one pool and one of that pool's units rewritten. */
  ghost predicate Rewritten(home: Home, d: Db, e: Db, p: PathId, row: PoolRow, u: Unit) {
    && e.pools == d.pools[p := row] && e.units == d.units[u.id := u]
    && home(u.id) == p && u.path == p && UnitOk(u)
    && Fits(home, d, p, row, u.id)
    && u.id in row.entries && row.entries[u.id].stage == u.stage
    && (p in d.pools ==> Newer(d.pools[p], row))
    && (u.id in d.units ==> Evolves(d.units[u.id], u))
  }

  lemma RewriteFits(home: Home, d: Db, e: Db, p: PathId, row: PoolRow, u: Unit)
    requires WellFormed(home, d) && Rewritten(home, d, e, p, row, u)
    ensures WellFormed(home, e)
  {
    forall id | id in e.units
      ensures UnitFiled(home, e, id)
    {
      if id != u.id {
        assert UnitFiled(home, d, id);
      }
    }
    forall q, id | q in e.pools && id in e.pools[q].entries
      ensures EntryFiled(home, e, q, id)
    {
      RewriteFiles(home, d, e, p, row, u, q, id);
    }
  }

  lemma RewriteFiles(home: Home, d: Db, e: Db, p: PathId, row: PoolRow, u: Unit, q: PathId, id: UnitId)
    requires WellFormed(home, d) && Rewritten(home, d, e, p, row, u)
    requires q in e.pools && id in e.pools[q].entries
    ensures EntryFiled(home, e, q, id)
  {
    if q == p {
      assert e.pools[q] == row;
    } else {
      assert e.pools[q] == d.pools[q];
      assert EntryFiled(home, d, q, id);
    }
  }

  lemma RewriteAdvances(home: Home, d: Db, e: Db, p: PathId, row: PoolRow, u: Unit)
    requires WellFormed(home, d) && Rewritten(home, d, e, p, row, u)
    ensures Advances(home, d, e)
  {
    forall q | q in d.pools
      ensures q in e.pools && (SamePath(home, d, e, q) || Newer(d.pools[q], e.pools[q]))
    {
      if q == p {
        assert e.pools[q] == row;
      } else {
        assert e.pools[q] == d.pools[q];
        assert SamePath(home, d, e, q);
      }
    }
    forall id | id in d.units
      ensures id in e.units && Evolves(d.units[id], e.units[id])
    {
      if id != u.id {
        assert e.units[id] == d.units[id];
      }
    }
  }

  lemma RewriteSyncs(home: Home, d: Db, e: Db, p: PathId, row: PoolRow, u: Unit)
    requires WellFormed(home, d) && InSync(d) && Rewritten(home, d, e, p, row, u)
    requires forall j :: j in row.entries && j != u.id && j in d.units ==> row.entries[j].stage == d.units[j].stage
    ensures InSync(e)
  {
    forall q, id | q in e.pools && id in e.pools[q].entries && id in e.units
      ensures e.pools[q].entries[id].stage == e.units[id].stage
    {
      if q != p {
        assert EntryFiled(home, d, q, id);
      }
    }
  }

  lemma RewriteKeeps(home: Home, d: Db, e: Db, p: PathId, row: PoolRow, u: Unit)
    requires WellFormed(home, d) && Rewritten(home, d, e, p, row, u)
    requires InSync(d) ==> forall j :: j in row.entries && j != u.id && j in d.units ==>
      row.entries[j].stage == d.units[j].stage
    ensures WellFormed(home, e) && Advances(home, d, e)
    ensures InSync(d) ==> InSync(e)
  {
    RewriteFits(home, d, e, p, row, u);
    RewriteAdvances(home, d, e, p, row, u);
    if InSync(d) { RewriteSyncs(home, d, e, p, row, u); }
  }

  /** Where ids stay on their paths, an id new to its pool is new altogether. */
  lemma UnitIsFresh(home: Home, d: Db, unit: Unit)
    requires WellFormed(home, d) && MayEnqueue(d, unit) && unit.path == home(unit.id)
    ensures unit.id !in d.units
  {
    assert unit.id in d.units ==> UnitFiled(home, d, unit.id);
  }

  lemma EnqueueRewrites(home: Home, d: Db, unit: Unit, at: Time)
    requires WellFormed(home, d) && MayEnqueue(d, unit) && unit.path == home(unit.id)
    ensures unit.id !in d.units
    ensures var e := AfterEnqueue(d, unit, at);
      Rewritten(home, d, e, unit.path, e.pools[unit.path], unit)
  {
    var p := unit.path;
    UnitIsFresh(home, d, unit);
    assert Fits(home, d, p, AfterEnqueue(d, unit, at).pools[p], unit.id) by {
      if p in d.pools {
        forall j | j in d.pools[p].entries ensures EntryFiled(home, d, p, j) { }
      }
    }
  }

  lemma EnqueueKeeps(home: Home, d: Db, unit: Unit, at: Time)
    requires WellFormed(home, d) && MayEnqueue(d, unit) && unit.path == home(unit.id)
    ensures var e := AfterEnqueue(d, unit, at);
      WellFormed(home, e) && Advances(home, d, e) && (InSync(d) ==> InSync(e))
    ensures unit.id !in d.units
  {
    var e, p := AfterEnqueue(d, unit, at), unit.path;
    EnqueueRewrites(home, d, unit, at);
    RewriteKeeps(home, d, e, p, e.pools[p], unit);
  }

  lemma ReleaseEntry(home: Home, d: Db, path: PathId, healed: seq<UnitId>, id: UnitId, at: Time, j: UnitId)
    requires MayRelease(d, path, healed, id) && j in d.pools[path].entries && EntryFiled(home, d, path, j)
    ensures var e := AfterRelease(d, path, healed, id, at);
      && path in e.pools && j in e.pools[path].entries
      && e.pools[path].entries[j].cpt == d.pools[path].entries[j].cpt
      && d.pools[path].entries[j].stage.Rank() <= e.pools[path].entries[j].stage.Rank()
      && (j != id ==> e.pools[path].entries[j].stage.Rank() <= d.units[j].stage.Rank())
      && (j != id && d.pools[path].entries[j].stage == d.units[j].stage ==>
        e.pools[path].entries[j].stage == d.units[j].stage)
  {
    HealShape(d.pools[path], d.units, healed);
  }

  lemma ReleaseShape(d: Db, path: PathId, healed: seq<UnitId>, id: UnitId, at: Time)
    requires MayRelease(d, path, healed, id)
    ensures var e := AfterRelease(d, path, healed, id, at);
      && path in e.pools
      && e.pools == d.pools[path := e.pools[path]]
      && e.units == d.units[id := d.units[id].(stage := Released, releasedAt := Some(at))]
      && e.views == d.views && e.outbox == d.outbox + [WorkReleased(id, path, at)]
      && e.pools[path].version == d.pools[path].version + 1
      && e.pools[path].mode == d.pools[path].mode
      && e.pools[path].wipLimit == d.pools[path].wipLimit
      && e.pools[path].alarm == d.pools[path].alarm
      && e.pools[path].entries.Keys == d.pools[path].entries.Keys
      && id in e.pools[path].entries && e.pools[path].entries[id].stage == Released
  {
    HealShape(d.pools[path], d.units, healed);
  }

  lemma RewriteFromParts(home: Home, d: Db, e: Db, p: PathId, id: UnitId)
    requires WellFormed(home, d) && p in d.pools && p in e.pools && id in d.units && id in e.units
    requires e.pools == d.pools[p := e.pools[p]] && e.units == d.units[id := e.units[id]]
    requires e.units[id].id == id && e.units[id].path == p && home(id) == p && UnitOk(e.units[id])
    requires Evolves(d.units[id], e.units[id])
    requires e.pools[p].version == d.pools[p].version + 1 && e.pools[p].mode == d.pools[p].mode
    requires e.pools[p].wipLimit == d.pools[p].wipLimit && e.pools[p].alarm == d.pools[p].alarm
    requires e.pools[p].entries.Keys == d.pools[p].entries.Keys
    requires id in e.pools[p].entries && e.pools[p].entries[id].stage == e.units[id].stage
    requires forall j :: j in e.pools[p].entries ==>
      && home(j) == p && j in d.units
      && d.pools[p].entries[j].stage.Rank() <= e.pools[p].entries[j].stage.Rank()
      && d.pools[p].entries[j].cpt == e.pools[p].entries[j].cpt
      && (j != id ==> e.pools[p].entries[j].stage.Rank() <= d.units[j].stage.Rank())
    ensures Rewritten(home, d, e, p, e.pools[p], e.units[id])
  {
  }

  lemma ReleaseKeeps(home: Home, d: Db, path: PathId, healed: seq<UnitId>, id: UnitId, at: Time)
    requires WellFormed(home, d) && MayRelease(d, path, healed, id)
    ensures var e := AfterRelease(d, path, healed, id, at);
      WellFormed(home, e) && Advances(home, d, e) && (InSync(d) ==> InSync(e))
  {
    var e := AfterRelease(d, path, healed, id, at);
    ReleaseShape(d, path, healed, id, at);
    assert UnitFiled(home, d, id);
    assert EntryFiled(home, d, path, id);
    forall j | j in e.pools[path].entries
      ensures home(j) == path && j in d.units
      ensures d.pools[path].entries[j].stage.Rank() <= e.pools[path].entries[j].stage.Rank()
      ensures d.pools[path].entries[j].cpt == e.pools[path].entries[j].cpt
      ensures j != id ==> e.pools[path].entries[j].stage.Rank() <= d.units[j].stage.Rank()
      ensures j != id && d.pools[path].entries[j].stage == d.units[j].stage ==>
        e.pools[path].entries[j].stage == d.units[j].stage
    {
      assert EntryFiled(home, d, path, j);
      ReleaseEntry(home, d, path, healed, id, at, j);
    }
    RewriteFromParts(home, d, e, path, id);
    RewriteKeeps(home, d, e, path, e.pools[path], e.units[id]);
  }

  lemma CompletionKeeps(home: Home, d: Db, id: UnitId, at: Time)
    requires WellFormed(home, d) && MayComplete(d, id)
    ensures var e := AfterCompletion(d, id, at);
      WellFormed(home, e) && Advances(home, d, e) && (InSync(d) ==> InSync(e))
  {
    var e, p := AfterCompletion(d, id, at), home(id);
    assert UnitFiled(home, d, id);
    var row := d.pools[p];
    forall j | j in row.entries
      ensures home(j) == p && j in d.units && row.entries[j].stage.Rank() <= d.units[j].stage.Rank()
    {
      assert EntryFiled(home, d, p, j);
    }
    RewriteFromParts(home, d, e, p, id);
    RewriteKeeps(home, d, e, p, e.pools[p], e.units[id]);
  }

  /** A step that leaves pools and units alone. */
  lemma UntouchedKeeps(home: Home, d: Db, e: Db)
    requires WellFormed(home, d) && e.pools == d.pools && e.units == d.units
    ensures WellFormed(home, e) && Advances(home, d, e)
    ensures InSync(d) ==> InSync(e)
  {
    forall id | id in e.units ensures UnitFiled(home, e, id) { assert UnitFiled(home, d, id); }
    forall p, id | p in e.pools && id in e.pools[p].entries
      ensures EntryFiled(home, e, p, id)
    {
      assert EntryFiled(home, d, p, id);
    }
    forall p | p in d.pools ensures SamePath(home, d, e, p) { }
    forall id | id in d.units ensures Evolves(d.units[id], e.units[id]) { }
  }

  lemma StepKeeps(home: Home, d: Db, op: Op)
    requires WellFormed(home, d) && Enabled(d, op) && AtHome(home, op)
    ensures WellFormed(home, Step(d, op)) && Advances(home, d, Step(d, op))
    ensures InSync(d) ==> InSync(Step(d, op))
  {
    match op
    case Enq(unit, at) => EnqueueKeeps(home, d, unit, at);
    case Rel(path, healed, id, at) => ReleaseKeeps(home, d, path, healed, id, at);
    case Cmp(id, at) => CompletionKeeps(home, d, id, at);
    case Obs(_, _, _) => UntouchedKeeps(home, d, Step(d, op));
  }

  lemma ReleaseWithinLimit(d: Db, path: PathId, healed: seq<UnitId>, id: UnitId, at: Time)
    requires MayRelease(d, path, healed, id) && WithinLimit(d.pools[path])
    ensures WithinLimit(AfterRelease(d, path, healed, id, at).pools[path])
  {
    var row := d.pools[path];
    HealShape(row, d.units, healed);
    HealKeepsWip(row, d.units, healed);
    var h := Heal(row, d.units, healed);
    WipUpdate(h.entries, id, h.entries[id].(stage := Released));
  }

  lemma StepWithinLimit(d: Db, op: Op)
    requires Enabled(d, op) && AllWithinLimit(d)
    ensures AllWithinLimit(Step(d, op))
  {
    match op
    case Enq(unit, _) =>
      var m := if unit.path in d.pools then d.pools[unit.path].entries else map[];
      WipUpdate(m, unit.id, Row(unit.cpt, Pending));
    case Rel(path, healed, id, at) => ReleaseWithinLimit(d, path, healed, id, at);
    case Cmp(id, _) =>
      var p := d.units[id].path;
      if p in d.pools && id in d.pools[p].entries {
        var row := d.pools[p];
        WipUpdate(row.entries, id, row.entries[id].(stage := Completed));
      }
    case Obs(_, _, _) =>
  }

  // ---------- Whole runs ----------

  lemma {:induction false} RunKeeps(home: Home, d: Db, ops: seq<Op>)
    requires WellFormed(home, d) && Valid(d, ops) && AllAtHome(home, ops)
    ensures WellFormed(home, Run(d, ops)) && Advances(home, d, Run(d, ops))
    ensures InSync(d) ==> InSync(Run(d, ops))
    ensures AllWithinLimit(d) ==> AllWithinLimit(Run(d, ops))
  {
    if ops != [] {
      var n := |ops| - 1;
      RunKeeps(home, d, ops[..n]);
      StepKeeps(home, Run(d, ops[..n]), ops[n]);
      if AllWithinLimit(d) { StepWithinLimit(Run(d, ops[..n]), ops[n]); }
      AdvancesTransitive(home, d, Run(d, ops[..n]), Run(d, ops));
    }
  }

  // ---------- Counting events ----------

  function Occurrences(events: seq<Event>, wanted: Event -> bool): nat {
    if events == [] then 0
    else Occurrences(events[..|events| - 1], wanted) + (if wanted(events[|events| - 1]) then 1 else 0)
  }

  lemma {:induction false} OccurrencesConcat(a: seq<Event>, b: seq<Event>, wanted: Event -> bool)
    ensures Occurrences(a + b, wanted) == Occurrences(a, wanted) + Occurrences(b, wanted)
    decreases |b|
  {
    if b == [] {
      assert a + b == a;
    } else {
      assert (a + b)[..|a + b| - 1] == a + b[..|b| - 1];
      OccurrencesConcat(a, b[..|b| - 1], wanted);
    }
  }

  lemma OccurrencesAppend(a: seq<Event>, x: Event, wanted: Event -> bool)
    ensures Occurrences(a + [x], wanted) == Occurrences(a, wanted) + (if wanted(x) then 1 else 0)
  {
    assert (a + [x])[..|a|] == a;
  }

  function IsHandout(id: UnitId): Event -> bool {
    (e: Event) => e.WorkReleased? && e.id == id
  }

  function IsHandoutOn(p: PathId, id: UnitId): Event -> bool {
    (e: Event) => e.WorkReleased? && e.id == id && e.path == p
  }

  function IsAnnouncement(id: UnitId): Event -> bool {
    (e: Event) => e.WorkUnitCompleted? && e.id == id
  }

  function Handouts(outbox: seq<Event>, id: UnitId): nat { Occurrences(outbox, IsHandout(id)) }

  function HandoutsOn(outbox: seq<Event>, p: PathId, id: UnitId): nat { Occurrences(outbox, IsHandoutOn(p, id)) }

  function Announced(outbox: seq<Event>, id: UnitId): nat { Occurrences(outbox, IsAnnouncement(id)) }

  function HandedOut(d: Db, id: UnitId): nat {
    if id in d.units && d.units[id].stage != Pending then 1 else 0
  }

  ghost predicate HandoutsBalance(d: Db, e: Db, id: UnitId) {
    Handouts(e.outbox, id) - Handouts(d.outbox, id) == HandedOut(e, id) - HandedOut(d, id)
  }

  lemma ReleaseHandouts(d: Db, path: PathId, healed: seq<UnitId>, rid: UnitId, at: Time, id: UnitId)
    requires MayRelease(d, path, healed, rid)
    ensures HandoutsBalance(d, AfterRelease(d, path, healed, rid, at), id)
  {
    ReleaseShape(d, path, healed, rid, at);
    OccurrencesAppend(d.outbox, WorkReleased(rid, path, at), IsHandout(id));
  }

  lemma StepHandouts(home: Home, d: Db, op: Op, id: UnitId)
    requires WellFormed(home, d) && Enabled(d, op) && AtHome(home, op)
    ensures HandoutsBalance(d, Step(d, op), id)
  {
    match op
    case Enq(unit, at) =>
      OccurrencesAppend(d.outbox, WorkUnitCreated(unit.id, unit.path, at), IsHandout(id));
      assert unit.id in d.units ==> UnitFiled(home, d, unit.id);
    case Rel(path, healed, rid, at) => ReleaseHandouts(d, path, healed, rid, at, id);
    case Cmp(cid, at) => OccurrencesAppend(d.outbox, WorkUnitCompleted(cid, d.units[cid].path, at), IsHandout(id));
    case Obs(_, _, _) =>
  }

  /** Each unit that leaves Pending does so with exactly one WorkReleased event. */
  lemma {:induction false} HandoutConservation(home: Home, d: Db, ops: seq<Op>, id: UnitId)
    requires WellFormed(home, d) && Valid(d, ops) && AllAtHome(home, ops)
    ensures Handouts(Run(d, ops).outbox, id) - Handouts(d.outbox, id)
         == HandedOut(Run(d, ops), id) - HandedOut(d, id)
  {
    if ops != [] {
      var n := |ops| - 1;
      HandoutConservation(home, d, ops[..n], id);
      RunKeeps(home, d, ops[..n]);
      StepHandouts(home, Run(d, ops[..n]), ops[n], id);
    }
  }

  /** The path whose pool an operation rewrites. */
  function Touched(home: Home, op: Op): Option<PathId> {
    match op
    case Enq(unit, _) => Some(unit.path)
    case Rel(path, _, _, _) => Some(path)
    case Cmp(id, _) => Some(home(id))
    case Obs(_, _, _) => None
  }

  function Rewrites(home: Home, ops: seq<Op>, p: PathId): nat {
    if ops == [] then 0
    else Rewrites(home, ops[..|ops| - 1], p) + (if Touched(home, ops[|ops| - 1]) == Some(p) then 1 else 0)
  }

  function Enqueues(ops: seq<Op>, p: PathId): nat {
    if ops == [] then 0
    else Enqueues(ops[..|ops| - 1], p) + (if ops[|ops| - 1].Enq? && ops[|ops| - 1].unit.path == p then 1 else 0)
  }

  function VersionOf(d: Db, p: PathId): int { if p in d.pools then d.pools[p].version else 0 }

  function SizeOf(d: Db, p: PathId): nat { if p in d.pools then |d.pools[p].entries| else 0 }

  /** The version counts the committed operations of the path, the size its enqueues. */
  lemma {:induction false} VersionCounts(home: Home, d: Db, ops: seq<Op>, p: PathId)
    requires WellFormed(home, d) && Valid(d, ops) && AllAtHome(home, ops)
    ensures VersionOf(Run(d, ops), p) == VersionOf(d, p) + Rewrites(home, ops, p)
    ensures SizeOf(Run(d, ops), p) == SizeOf(d, p) + Enqueues(ops, p)
  {
    if ops != [] {
      var n := |ops| - 1;
      var e, op := Run(d, ops[..n]), ops[n];
      VersionCounts(home, d, ops[..n], p);
      RunKeeps(home, d, ops[..n]);
      StepCounts(home, e, op, p);
    }
  }

  lemma SameKeysSameSize(a: map<UnitId, Row>, b: map<UnitId, Row>)
    requires a.Keys == b.Keys
    ensures |a| == |b|
  {
    assert |a| == |a.Keys| && |b| == |b.Keys|;
  }

  ghost predicate CountsOne(home: Home, d: Db, e: Db, op: Op, p: PathId) {
    && VersionOf(e, p) == VersionOf(d, p) + (if Touched(home, op) == Some(p) then 1 else 0)
    && SizeOf(e, p) == SizeOf(d, p) + (if op.Enq? && op.unit.path == p then 1 else 0)
  }

  lemma ReleaseCounts(home: Home, d: Db, op: Op, p: PathId)
    requires op.Rel? && MayRelease(d, op.path, op.healed, op.id)
    ensures CountsOne(home, d, Step(d, op), op, p)
  {
    ReleaseShape(d, op.path, op.healed, op.id, op.at);
    SameKeysSameSize(d.pools[op.path].entries, Step(d, op).pools[op.path].entries);
  }

  lemma CompletionCounts(home: Home, d: Db, op: Op, p: PathId)
    requires op.Cmp? && MayComplete(d, op.id) && UnitFiled(home, d, op.id)
    ensures CountsOne(home, d, Step(d, op), op, p)
  {
    var q := home(op.id);
    SameKeysSameSize(d.pools[q].entries, Step(d, op).pools[q].entries);
  }

  lemma StepCounts(home: Home, d: Db, op: Op, p: PathId)
    requires WellFormed(home, d) && Enabled(d, op) && AtHome(home, op)
    ensures CountsOne(home, d, Step(d, op), op, p)
  {
    if op.Rel? {
      ReleaseCounts(home, d, op, p);
    } else if op.Cmp? {
      assert UnitFiled(home, d, op.id);
      CompletionCounts(home, d, op, p);
    }
  }

  /** A release hands out work no later than anything still pending on its path. */
  lemma ReleaseIsMostUrgent(d: Db, op: Op, other: UnitId)
    requires op.Rel? && Enabled(d, op)
    requires other in Step(d, op).pools[op.path].entries && Step(d, op).pools[op.path].entries[other].stage == Pending
    ensures op.id in d.pools[op.path].entries && d.pools[op.path].entries[op.id].stage == Pending
    ensures other in d.pools[op.path].entries && d.pools[op.path].entries[other].stage == Pending
    ensures d.pools[op.path].entries[op.id].cpt <= d.pools[op.path].entries[other].cpt
  {
    HealShape(d.pools[op.path], d.units, op.healed);
  }

  /** The usable quantity of a SKU moves by exactly the deltas applied to it. */
  function Deltas(ops: seq<Op>, sku: Sku): int {
    if ops == [] then 0
    else Deltas(ops[..|ops| - 1], sku)
         + (if ops[|ops| - 1].Obs? && ops[|ops| - 1].sku == sku then ops[|ops| - 1].delta else 0)
  }

  function QuantityOf(d: Db, sku: Sku): int { if sku in d.views then d.views[sku].quantity else 0 }

  lemma {:induction false} QuantityIsSumOfDeltas(d: Db, ops: seq<Op>, sku: Sku)
    ensures QuantityOf(Run(d, ops), sku) == QuantityOf(d, sku) + Deltas(ops, sku)
  {
    if ops != [] { QuantityIsSumOfDeltas(d, ops[..|ops| - 1], sku); }
  }
}
