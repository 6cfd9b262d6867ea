/**
 Two runs in which one id is used on two paths: in the first a release on one path overlaps an
 enqueue of the id on the other, and its save takes the place of the unit the enqueue stored; in
 the second the id is enqueued again after it was handed out, and handed out again.
 */
module ReusedIdRun {
  import opened Types
  import opened PoolSpec
  import opened WorkDb
  import opened PoolRows
  import opened Ledger
  import opened RowHistory
  import opened Protocol
  import opened RunBuilding

  /** The unit starts out on path `pick` and is enqueued on path `pack` as well. */
  datatype Reuse = Reuse(pick: PathId, pack: PathId, unit: UnitId) {
    function UnitOn(path: PathId): Unit {
      Unit(unit, path, 0, "order", "", Pending, None, None)
    }

    function ReleasedUnit(path: PathId): Unit {
      UnitOn(path).(stage := Released, releasedAt := Some(1))
    }

    function PoolOf(st: Stage, version: int): PoolRow {
      PoolRow(ReleaseFed, DEFAULT_WIP_LIMIT, DEFAULT_ALARM_THRESHOLD, version, map[unit := Row(0, st)])
    }

    /** One unit, pending on the first path. */
    function Before(): Db {
      Db(map[pick := PoolOf(Pending, 1)], map[unit := UnitOn(pick)], map[], [])
    }

    /** The unit waits on `path`, as its enqueue left it. */
    ghost predicate Waiting(d: Db, path: PathId) {
      && path in d.pools && d.pools[path] == PoolOf(Pending, 1)
      && unit in d.units && d.units[unit] == UnitOn(path)
    }

    // ---------- The sessions ----------

    function Releaser(path: PathId, phase: Phase): Session {
      Begun([Releasing(path, 1)]).(phase := phase)
    }

    function LoadedPool(path: PathId, st: Stage): Pool {
      Pool(path, ReleaseFed, DEFAULT_WIP_LIMIT, DEFAULT_ALARM_THRESHOLD, [Entry(unit, 0, st)], 1)
    }

    /** It has chosen the unit, as it was on that path. */
    function Choice(path: PathId): Session {
      Releaser(path, Chosen(UnitOn(path), LoadedPool(path, Released), [], map[]))
    }

    function ReleaseSaved(path: PathId): Session {
      Session(None, [Releasing(path, 1)], [Some(Rel(path, [], unit, 1))],
              [Some(PoolSave(path, Hand([], map[], unit)))], Start,
              Overlay(map[path := PoolOf(Released, 2)], map[unit := ReleasedUnit(path)], map[],
                [WorkReleased(unit, path, 1)]))
    }

    function Handed(path: PathId): Batch {
      var a := ReleaseSaved(path);
      Batch(None, a.jobs, a.done, a.saves)
    }

    function AfterHanded(d: Db, path: PathId): Db { View(d, ReleaseSaved(path).over) }

    function Enqueuer(phase: Phase): Session {
      Begun([Enqueuing(UnitOn(pack), 2)]).(phase := phase)
    }

    function EnqueueSaved(): Session {
      Session(None, [Enqueuing(UnitOn(pack), 2)], [Some(Enq(UnitOn(pack), 2))],
              [Some(PoolSave(pack, Add(unit, 0)))], Start,
              Overlay(map[pack := PoolOf(Pending, 1)], map[unit := UnitOn(pack)], map[],
                [WorkUnitCreated(unit, pack, 2)]))
    }

    function Enqueued(): Batch {
      var a := EnqueueSaved();
      Batch(None, a.jobs, a.done, a.saves)
    }

    function AfterEnqueued(d: Db): Db { View(d, EnqueueSaved().over) }

    // ---------- Their statements ----------

    lemma TableOfOne(st: Stage)
      ensures Table([Entry(unit, 0, st)]) == map[unit := Row(0, st)]
    {
      assert [Entry(unit, 0, st)][..0] == [];
    }

    lemma ReleaserLoads(d: Db, path: PathId)
      requires Waiting(d, path)
      ensures var head := Head(path, PoolOf(Pending, 1));
        && Local(View(d, NOTHING), Releaser(path, Start), Releaser(path, RowRead(None, head)))
        && Local(View(d, NOTHING), Releaser(path, RowRead(None, head)),
             Releaser(path, PoolRead(None, LoadedPool(path, Pending), [], map[])))
    {
      assert View(d, NOTHING) == d;
      var row := Releaser(path, RowRead(None, Head(path, PoolOf(Pending, 1))));
      assert ReadRow(d, Releaser(path, Start), row);
      TableOfOne(Pending);
      assert ReadEntries(d, row, Releaser(path, PoolRead(None, LoadedPool(path, Pending), [], map[])));
    }

    lemma ReleaserChooses(d: Db, path: PathId)
      requires Waiting(d, path)
      ensures Local(View(d, NOTHING), Releaser(path, PoolRead(None, LoadedPool(path, Pending), [], map[])),
        Choice(path))
    {
      assert View(d, NOTHING) == d;
      var es := LoadedPool(path, Pending).entries;
      assert es[..0] == [];
      assert NextPending(es) == 0;
      assert Count(es, Released) == 0;
      assert es[0 := Entry(unit, 0, Released)] == LoadedPool(path, Released).entries;
      assert ReleaseNext(LoadedPool(path, Pending)) == Ok((unit, LoadedPool(path, Released)));
      assert Turn(d, Releaser(path, PoolRead(None, LoadedPool(path, Pending), [], map[])), Choice(path));
    }

    lemma ReleaserSaves(d: Db, path: PathId)
      requires path in d.pools && d.pools[path] == PoolOf(Pending, 1)
      ensures Local(View(d, NOTHING), Choice(path), ReleaseSaved(path))
    {
      assert View(d, NOTHING) == d;
      TableOfOne(Released);
      assert SaveRelease(d, Choice(path), ReleaseSaved(path));
    }

    lemma EnqueuerLoads(d: Db)
      requires pack !in d.pools
      ensures Local(View(d, NOTHING), Enqueuer(Start), Enqueuer(PoolRead(None, NewPool(pack), [], map[])))
    {
      assert View(d, NOTHING) == d;
      assert ReadRow(d, Enqueuer(Start), Enqueuer(PoolRead(None, NewPool(pack), [], map[])));
    }

    lemma EnqueueIsSaved(r: Result<Pool, PoolError>)
      requires r == Enqueue(NewPool(pack), unit, 0)
      ensures r.Ok? && r.value == NewPool(pack).(entries := [Entry(unit, 0, Pending)])
      ensures ToRow(r.value).(version := 1) == PoolOf(Pending, 1)
    {
      TableOfOne(Pending);
      assert [] + [Entry(unit, 0, Pending)] == [Entry(unit, 0, Pending)];
    }

    lemma EnqueuerSaves(d: Db)
      requires pack !in d.pools
      ensures Local(View(d, NOTHING), Enqueuer(PoolRead(None, NewPool(pack), [], map[])), EnqueueSaved())
    {
      assert View(d, NOTHING) == d;
      EnqueueIsSaved(Enqueue(NewPool(pack), unit, 0));
      assert SaveEnqueue(d, Enqueuer(PoolRead(None, NewPool(pack), [], map[])), EnqueueSaved());
    }

    // ---------- Their transactions ----------

    /** A release gets as far as choosing the unit. */
    lemma Chooses(run: seq<Sys>, d: Db, path: PathId, log: seq<Batch>) returns (more: seq<Sys>)
      requires Reaches(run, Sys(d, {}, map[], log)) && Waiting(d, path)
      ensures Reaches(more, Now(d, 1, Choice(path), map[], log)) && run <= more
    {
      var row := Releaser(path, RowRead(None, Head(path, PoolOf(Pending, 1))));
      var pool := Releaser(path, PoolRead(None, LoadedPool(path, Pending), [], map[]));
      more := ThenOpens(run, d, 1, [Releasing(path, 1)], map[], log);
      ReleaserLoads(d, path);
      more := ThenActs(more, d, 1, Releaser(path, Start), row, map[], log);
      more := ThenActs(more, d, 1, row, pool, map[], log);
      ReleaserChooses(d, path);
      more := ThenActs(more, d, 1, pool, Choice(path), map[], log);
    }

    /** It saves what it chose, whatever has become of the unit meanwhile, and commits. */
    lemma Hands(run: seq<Sys>, d: Db, path: PathId, log: seq<Batch>) returns (more: seq<Sys>)
      requires Reaches(run, Now(d, 1, Choice(path), map[], log))
      requires path in d.pools && d.pools[path] == PoolOf(Pending, 1)
      ensures Reaches(more, Sys(AfterHanded(d, path), {}, map[], log + [Handed(path)])) && run <= more
    {
      ReleaserSaves(d, path);
      more := ThenActs(run, d, 1, Choice(path), ReleaseSaved(path), map[], log);
      more := ThenCommits(more, d, AfterHanded(d, path), 1, ReleaseSaved(path), map[], log);
    }

    /** The enqueue on the second path, beside sessions that hold no rows. */
    lemma Enqueues(run: seq<Sys>, d: Db, others: map<nat, Session>, log: seq<Batch>) returns (more: seq<Sys>)
      requires Reaches(run, Sys(d, {}, others, log)) && pack !in d.pools && 0 !in others && Idle(others)
      ensures Reaches(more, Sys(AfterEnqueued(d), {}, others, log + [Enqueued()])) && run <= more
    {
      var pool := Enqueuer(PoolRead(None, NewPool(pack), [], map[]));
      more := ThenOpens(run, d, 0, [Enqueuing(UnitOn(pack), 2)], others, log);
      EnqueuerLoads(d);
      more := ThenActs(more, d, 0, Enqueuer(Start), pool, others, log);
      EnqueuerSaves(d);
      more := ThenActs(more, d, 0, pool, EnqueueSaved(), others, log);
      more := ThenCommits(more, d, AfterEnqueued(d), 0, EnqueueSaved(), others, log);
    }

    // ---------- The first run ----------

    lemma OvertakenRun() returns (run: seq<Sys>)
      requires pick != pack
      ensures Reaches(run, Sys(AfterHanded(AfterEnqueued(Before()), pick), {}, map[], [Enqueued(), Handed(pick)]))
      ensures run[0] == Sys(Before(), {}, map[], [])
    {
      var d := Before();
      run := Chooses([Sys(d, {}, map[], [])], d, pick, []);
      assert Now(d, 1, Choice(pick), map[], []) == Sys(d, {}, map[1 := Choice(pick)], []);
      run := Enqueues(run, d, map[1 := Choice(pick)], []);
      d := AfterEnqueued(d);
      assert [] + [Enqueued()] == [Enqueued()];
      assert Now(d, 1, Choice(pick), map[], [Enqueued()]) == Sys(d, {}, map[1 := Choice(pick)], [Enqueued()]);
      run := Hands(run, d, pick, [Enqueued()]);
      assert [Enqueued()] + [Handed(pick)] == [Enqueued(), Handed(pick)];
    }

    lemma LoggedOps()
      ensures Flatten([Enqueued(), Handed(pick)]) == [Enq(UnitOn(pack), 2), Rel(pick, [], unit, 1)]
    {
      OneOp(Enq(UnitOn(pack), 2));
      OneOp(Rel(pick, [], unit, 1));
      TwoBatches(Enqueued(), Handed(pick));
      assert [Enq(UnitOn(pack), 2)] + [Rel(pick, [], unit, 1)] == [Enq(UnitOn(pack), 2), Rel(pick, [], unit, 1)];
    }

    /** Done one after the other, the two operations leave the unit on the path of its second enqueue. */
    lemma InTurn()
      requires pick != pack
      ensures Run(Before(), [Enq(UnitOn(pack), 2), Rel(pick, [], unit, 1)]) !=
        AfterHanded(AfterEnqueued(Before()), pick)
    {
      var a, b := Enq(UnitOn(pack), 2), Rel(pick, [], unit, 1);
      assert [a, b][..1] == [a] && [a][..0] == [];
      var d := AfterEnqueue(Before(), UnitOn(pack), 2);
      assert Run(Before(), [a]) == d;
      assert Run(Before(), [a, b]) == AfterRelease(d, pick, [], unit, 1);
      assert unit in d.units && d.units[unit].path == pack;
      ReleaseKeepsPath(d, pick, [], unit, 1);
    }

    /** The run is not what its committed operations make of its start in turn. */
    lemma NotSerializable() returns (run: seq<Sys>)
      requires pick != pack
      ensures IsRun(run) && run[0].db == Before() && run[|run| - 1].log == [Enqueued(), Handed(pick)]
      ensures run[|run| - 1].db != Run(run[0].db, Flatten(run[|run| - 1].log))
    {
      run := OvertakenRun();
      LoggedOps();
      InTurn();
    }

    // ---------- The second run ----------

    lemma HandedOut() returns (run: seq<Sys>)
      ensures Reaches(run, Sys(AfterHanded(Before(), pick), {}, map[], [Handed(pick)]))
      ensures run[0] == Sys(Before(), {}, map[], [])
    {
      run := Chooses([Sys(Before(), {}, map[], [])], Before(), pick, []);
      run := Hands(run, Before(), pick, []);
      assert [] + [Handed(pick)] == [Handed(pick)];
    }

    /** After that the id is enqueued on the second path. */
    lemma EnqueuedAgain() returns (run: seq<Sys>, i: nat)
      requires pick != pack
      ensures i < |run| && run[0] == Sys(Before(), {}, map[], []) && run[i].db == AfterHanded(Before(), pick)
      ensures Reaches(run, Sys(AfterEnqueued(AfterHanded(Before(), pick)), {}, map[], [Handed(pick), Enqueued()]))
    {
      run := HandedOut();
      i := |run| - 1;
      run := Enqueues(run, AfterHanded(Before(), pick), map[], [Handed(pick)]);
      assert [Handed(pick)] + [Enqueued()] == [Handed(pick), Enqueued()];
    }

    /** The unit is still there, no earlier in its life. */
    ghost predicate Keeps(d: Db, e: Db) {
      unit in d.units ==> unit in e.units && Evolves(d.units[unit], e.units[unit])
    }

    /** Its unit, handed out, is set back to Pending. */
    lemma MovesBack() returns (run: seq<Sys>, i: nat)
      requires pick != pack
      ensures IsRun(run) && run[0].db == Before() && i < |run|
      ensures run[|run| - 1].log == [Handed(pick), Enqueued()]
      ensures !Keeps(run[i].db, run[|run| - 1].db)
    {
      run, i := EnqueuedAgain();
    }

    /** Then the other pool hands it out a second time. */
    lemma HandedOutTwice() returns (run: seq<Sys>)
      requires pick != pack
      ensures IsRun(run) && run[0].db == Before()
      ensures run[|run| - 1].log == [Handed(pick), Enqueued(), Handed(pack)]
      ensures Handouts(run[|run| - 1].db.outbox, unit) == Handouts(run[0].db.outbox, unit) + 2
    {
      var log := [Handed(pick), Enqueued()];
      var i: nat;
      run, i := EnqueuedAgain();
      var d := AfterEnqueued(AfterHanded(Before(), pick));
      run := Chooses(run, d, pack, log);
      run := Hands(run, d, pack, log);
      assert log + [Handed(pack)] == [Handed(pick), Enqueued(), Handed(pack)];
      CountsTwo();
    }

    lemma CountsTwo()
      ensures Handouts(AfterHanded(AfterEnqueued(AfterHanded(Before(), pick)), pack).outbox, unit) ==
        Handouts(Before().outbox, unit) + 2
    {
      var first := Before().outbox;
      var a, b, c := WorkReleased(unit, pick, 1), WorkUnitCreated(unit, pack, 2), WorkReleased(unit, pack, 1);
      OccurrencesAppend(first, a, IsHandout(unit));
      OccurrencesAppend(first + [a], b, IsHandout(unit));
      OccurrencesAppend(first + [a] + [b], c, IsHandout(unit));
    }
  }

  lemma OneOp(op: Op)
    ensures Ops([Some(op)]) == [op]
  {
    assert [Some(op)][..0] == [];
  }

  lemma TwoBatches(a: Batch, b: Batch)
    ensures Flatten([a, b]) == Ops(a.done) + Ops(b.done)
  {
    assert [a, b][..1] == [a] && [a][..0] == [];
    assert Flatten([a]) == Ops(a.done);
  }

  lemma ReleaseKeepsPath(d: Db, path: PathId, healed: seq<UnitId>, id: UnitId, at: Time)
    requires id in d.units
    ensures id in AfterRelease(d, path, healed, id, at).units
    ensures AfterRelease(d, path, healed, id, at).units[id].path == d.units[id].path
  {
  }
}
