/** A run in which two completions of one unit overlap: both commit, and both are announced. */
module OverlappingRun {
  import opened Types
  import opened PoolSpec
  import opened WorkDb
  import opened PoolRows
  import opened Ledger
  import opened RowHistory
  import opened Protocol
  import opened RunBuilding

  const PATH := "pick"
  const UNIT := "unit"
  const ANNOUNCEMENT := WorkUnitCompleted(UNIT, PATH, 2)

  function TheUnit(st: Stage): Unit {
    Unit(UNIT, PATH, 0, "order", "", st, Some(1), if st == Completed then Some(2) else None)
  }

  function TheRow(st: Stage, version: int): PoolRow {
    PoolRow(ReleaseFed, 1, 1, version, map[UNIT := Row(0, st)])
  }

  function TheDb(st: Stage, version: int, outbox: seq<Event>): Db {
    Db(map[PATH := TheRow(st, version)], map[UNIT := TheUnit(st)], map[], outbox)
  }

  function Loaded(st: Stage, version: int): Pool {
    Pool(PATH, ReleaseFed, 1, 1, [Entry(UNIT, 0, st)], version)
  }

  function At(phase: Phase): Session {
    Begun([Completing(UNIT, 2)]).(phase := phase)
  }

  /** A session that had read the unit as Released. */
  function Stale(): Session { At(UnitRead(TheUnit(Released))) }

  /** Such a session after saving its completion over version `v`. */
  function SavedOver(v: int): Session {
    Session(None, [Completing(UNIT, 2)], [Some(Cmp(UNIT, 2))], [Some(PoolSave(PATH, Close(UNIT)))], Start,
            Overlay(map[PATH := TheRow(Completed, v + 1)], map[UNIT := TheUnit(Completed)], map[], [ANNOUNCEMENT]))
  }

  function Done(): Batch {
    Batch(None, [Completing(UNIT, 2)], [Some(Cmp(UNIT, 2))], [Some(PoolSave(PATH, Close(UNIT)))])
  }

  function HomeOf(id: UnitId): PathId { PATH }

  lemma ReadsUnit(d: Db)
    requires d == TheDb(Released, 1, [])
    ensures Local(View(d, NOTHING), At(Start), Stale())
  {
    assert View(d, NOTHING) == d && ReadUnit(d, At(Start), Stale());
  }

  lemma LoadsRow(st: Stage, v: int, outbox: seq<Event>)
    ensures var d, u := TheDb(st, v, outbox), TheUnit(Released);
      Local(View(d, NOTHING), Stale(), At(RowRead(Some(u), Head(PATH, TheRow(st, v)))))
  {
    var d, u := TheDb(st, v, outbox), TheUnit(Released);
    assert View(d, NOTHING) == d;
    assert ReadRow(d, Stale(), At(RowRead(Some(u), Head(PATH, TheRow(st, v)))));
  }

  lemma LoadsEntries(st: Stage, v: int, outbox: seq<Event>)
    ensures var d, u := TheDb(st, v, outbox), TheUnit(Released);
      Local(View(d, NOTHING), At(RowRead(Some(u), Head(PATH, TheRow(st, v)))),
        At(PoolRead(Some(u), Loaded(st, v), [], map[])))
  {
    var d, u := TheDb(st, v, outbox), TheUnit(Released);
    assert View(d, NOTHING) == d;
    TableOfOne(st);
    assert ReadEntries(d, At(RowRead(Some(u), Head(PATH, TheRow(st, v)))),
      At(PoolRead(Some(u), Loaded(st, v), [], map[])));
  }

  lemma Saves(st: Stage, v: int, outbox: seq<Event>)
    requires v >= 1
    ensures var d, u := TheDb(st, v, outbox), TheUnit(Released);
      Local(View(d, NOTHING), At(PoolRead(Some(u), Loaded(st, v), [], map[])), SavedOver(v))
  {
    var d, u := TheDb(st, v, outbox), TheUnit(Released);
    assert View(d, NOTHING) == d;
    TableOfOne(Completed);
    assert Loaded(st, v).entries[0 := Entry(UNIT, 0, Completed)] == Loaded(Completed, v).entries;
    assert SaveCompletion(d, At(PoolRead(Some(u), Loaded(st, v), [], map[])), SavedOver(v));
  }

  lemma TableOfOne(st: Stage)
    ensures Table([Entry(UNIT, 0, st)]) == map[UNIT := Row(0, st)]
  {
    assert [Entry(UNIT, 0, st)][..0] == [];
  }

  lemma LoadsPool(run: seq<Sys>, st: Stage, v: int, outbox: seq<Event>, k: nat, others: map<nat, Session>,
      log: seq<Batch>)
      returns (more: seq<Sys>)
    requires k !in others && Idle(others) && Reaches(run, Now(TheDb(st, v, outbox), k, Stale(), others, log))
    ensures Reaches(more,
      Now(TheDb(st, v, outbox), k, At(PoolRead(Some(TheUnit(Released)), Loaded(st, v), [], map[])), others, log))
    ensures |more| == |run| + 2 && more[0] == run[0]
  {
    var d, u := TheDb(st, v, outbox), TheUnit(Released);
    var row, pool := At(RowRead(Some(u), Head(PATH, TheRow(st, v)))), At(PoolRead(Some(u), Loaded(st, v), [], map[]));
    assert Local(View(d, NOTHING), Stale(), row) by { LoadsRow(st, v, outbox); }
    more := ThenActs(run, d, k, Stale(), row, others, log);
    assert Local(View(d, NOTHING), row, pool) by { LoadsEntries(st, v, outbox); }
    more := ThenActs(more, d, k, row, pool, others, log);
  }

  lemma SavedIsCompleted(st: Stage, v: int, outbox: seq<Event>)
    ensures View(TheDb(st, v, outbox), SavedOver(v).over) == TheDb(Completed, v + 1, outbox + [ANNOUNCEMENT])
  {
  }

  /** A session that has read the unit as Released loads the pool, reconciles it, saves and commits. */
  lemma Completes(run: seq<Sys>, st: Stage, v: int, outbox: seq<Event>, k: nat, others: map<nat, Session>,
      log: seq<Batch>)
      returns (more: seq<Sys>)
    requires v >= 1 && k !in others && Idle(others) && Reaches(run, Now(TheDb(st, v, outbox), k, Stale(), others, log))
    ensures Reaches(more, Sys(TheDb(Completed, v + 1, outbox + [ANNOUNCEMENT]), {}, others, log + [Done()]))
    ensures |more| == |run| + 4 && more[0] == run[0]
  {
    var d, pool := TheDb(st, v, outbox), At(PoolRead(Some(TheUnit(Released)), Loaded(st, v), [], map[]));
    more := LoadsPool(run, st, v, outbox, k, others, log);
    assert Local(View(d, NOTHING), pool, SavedOver(v)) by { Saves(st, v, outbox); }
    more := ThenActs(more, d, k, pool, SavedOver(v), others, log);
    SavedIsCompleted(st, v, outbox);
    more := ThenCommits(more, d, TheDb(Completed, v + 1, outbox + [ANNOUNCEMENT]), k, SavedOver(v), others, log);
  }

  lemma BothRead(d: Db) returns (run: seq<Sys>)
    requires d == TheDb(Released, 1, [])
    ensures Reaches(run, Now(d, 0, Stale(), map[1 := Stale()], [])) && |run| == 5 && run[0] == Sys(d, {}, map[], [])
  {
    run := [Sys(d, {}, map[], [])];
    run := ThenOpens(run, d, 1, [Completing(UNIT, 2)], map[], []);
    ReadsUnit(d);
    run := ThenActs(run, d, 1, At(Start), Stale(), map[], []);
    assert Now(d, 1, Stale(), map[], []) == Sys(d, {}, map[1 := Stale()], []);
    run := ThenOpens(run, d, 0, [Completing(UNIT, 2)], map[1 := Stale()], []);
    run := ThenActs(run, d, 0, At(Start), Stale(), map[1 := Stale()], []);
  }

  lemma BothComplete() returns (run: seq<Sys>)
    ensures Reaches(run, Sys(TheDb(Completed, 3, [ANNOUNCEMENT, ANNOUNCEMENT]), {}, map[], [Done(), Done()]))
    ensures |run| == 13 && run[0] == Sys(TheDb(Released, 1, []), {}, map[], [])
  {
    run := BothRead(TheDb(Released, 1, []));
    run := Completes(run, Released, 1, [], 0, map[1 := Stale()], []);
    assert [] + [ANNOUNCEMENT] == [ANNOUNCEMENT] && [] + [Done()] == [Done()];
    assert map[1 := Stale()] == map[][1 := Stale()];
    run := Completes(run, Completed, 2, [ANNOUNCEMENT], 1, map[], [Done()]);
    assert [ANNOUNCEMENT] + [ANNOUNCEMENT] == [ANNOUNCEMENT, ANNOUNCEMENT] && [Done()] + [Done()] == [Done(), Done()];
  }

  lemma StartsInOrder()
    ensures WellFormed(HomeOf, TheDb(Released, 1, [])) && InSync(TheDb(Released, 1, []))
    ensures RowsSound(TheDb(Released, 1, []))
  {
  }

  lemma TwiceIsTwo()
    ensures Announced([ANNOUNCEMENT, ANNOUNCEMENT], UNIT) == 2
  {
    assert [ANNOUNCEMENT, ANNOUNCEMENT] == [] + [ANNOUNCEMENT] + [ANNOUNCEMENT];
    OccurrencesAppend([], ANNOUNCEMENT, IsAnnouncement(UNIT));
    OccurrencesAppend([] + [ANNOUNCEMENT], ANNOUNCEMENT, IsAnnouncement(UNIT));
  }

  /**
   Session 1 reads the unit, session 0 completes it, and session 1, which loads the pool only
   now, completes it again.
   */
  lemma TwoAnnouncements() returns (run: seq<Sys>)
    ensures IsRunAtHome(HomeOf, run, 12) && |run| == 13
    ensures run[0].db == TheDb(Released, 1, []) && InSync(run[0].db)
    ensures Announced(run[12].db.outbox, UNIT) == 2
  {
    run := BothComplete();
    StartsInOrder();
    TwiceIsTwo();
    assert LogAtHome(HomeOf, run[12].log);
  }
}
