/**
 Concurrent runs judged by what they committed: as long as no id has come to be in two pools, the
 run is serializable, and pools and units agree. What never committed does not matter.
 */
module OnePath {
  import opened Types
  import opened WorkDb
  import opened Ledger
  import opened RowHistory
  import opened Protocol
  import opened Sessions
  import opened IdReuse
  import PoolRuns
  import Guarantees

  /** No id is in the pools of two paths. */
  ghost predicate OnePathPerId(d: Db) {
    forall p, q, id :: p in d.pools && q in d.pools && id in d.pools[p].entries && id in d.pools[q].entries ==> p == q
  }

  ghost function PathHolding(d: Db, id: UnitId): PathId {
    if exists p :: p in d.pools && id in d.pools[p].entries then
      var p :| p in d.pools && id in d.pools[p].entries;
      p
    else ""
  }

  /** The path of each id, read off the stored pools. */
  ghost function HomeIn(d: Db): Home {
    (id: UnitId) => PathHolding(d, id)
  }

  /** Units and entries name each other, and no entry is ahead of its unit. */
  ghost predicate Filed(d: Db) {
    WellFormed(HomeIn(d), d)
  }

  lemma HomeIsThePool(d: Db, p: PathId, id: UnitId)
    requires OnePathPerId(d) && p in d.pools && id in d.pools[p].entries
    ensures HomeIn(d)(id) == p
  {
  }

  lemma HomeStays(d: Db, e: Db, p: PathId, id: UnitId)
    requires Later(RowOf(d, p), RowOf(e, p)) && OnePathPerId(e) && p in d.pools && id in d.pools[p].entries
    ensures HomeIn(e)(id) == p
  {
    HomeIsThePool(e, p, id);
  }

  lemma FiledStill(d: Db, e: Db)
    requires Filed(d) && PoolRuns.PoolsLater(d, e) && OnePathPerId(e)
    ensures WellFormed(HomeIn(e), d)
  {
    forall id | id in d.units ensures UnitFiled(HomeIn(e), d, id) {
      assert UnitFiled(HomeIn(d), d, id);
      HomeStays(d, e, d.units[id].path, id);
    }
    forall p, id | p in d.pools && id in d.pools[p].entries ensures EntryFiled(HomeIn(e), d, p, id) {
      assert EntryFiled(HomeIn(d), d, p, id);
      HomeStays(d, e, p, id);
    }
  }

  lemma LogIsAtHome(d: Db, log: seq<Batch>)
    requires OnePathPerId(d) && forall k :: 0 <= k < |log| ==> PoolRuns.BatchOk(d, log[k])
    ensures LogAtHome(HomeIn(d), log)
  {
    forall k, j | 0 <= k < |log| && 0 <= j < |log[k].jobs| && log[k].jobs[j].Enqueuing?
      ensures log[k].jobs[j].unit.path == HomeIn(d)(log[k].jobs[j].unit.id)
    {
      var u := log[k].jobs[j].unit;
      assert PoolRuns.BatchOk(d, log[k]);
      assert Stored(d, u);
      HomeIsThePool(d, u.path, u.id);
    }
  }

  /** What a run committed tells the path of every id it used. */
  lemma RunIsAtHome(run: seq<Sys>, i: nat)
    requires IsRun(run) && i < |run| && Filed(run[0].db) && OnePathPerId(run[i].db)
    ensures IsRunAtHome(HomeIn(run[i].db), run, i)
  {
    forall p ensures Later(RowOf(run[0].db, p), RowOf(run[i].db, p)) { PoolRuns.PoolsOnlyGrow(run, 0, i, p); }
    FiledStill(run[0].db, run[i].db);
    PoolRuns.RunInv(run, i);
    LogIsAtHome(run[i].db, run[i].log);
  }

  /** A run that has put no id in two pools is serializable, whatever was attempted meanwhile. */
  lemma Serializable(run: seq<Sys>, i: nat)
    requires IsRun(run) && i < |run| && Filed(run[0].db) && OnePathPerId(run[i].db)
    ensures Valid(run[0].db, Flatten(run[i].log))
    ensures run[i].db == Run(run[0].db, Flatten(run[i].log))
  {
    RunIsAtHome(run, i);
    Guarantees.Serializable(HomeIn(run[i].db), run, i);
  }

  lemma OnePathBefore(run: seq<Sys>, j: nat, i: nat)
    requires IsRun(run) && j <= i < |run| && OnePathPerId(run[i].db)
    ensures OnePathPerId(run[j].db)
  {
    forall p ensures Later(RowOf(run[j].db, p), RowOf(run[i].db, p)) { PoolRuns.PoolsOnlyGrow(run, j, i, p); }
    forall p, q, id | p in run[j].db.pools && q in run[j].db.pools && id in run[j].db.pools[p].entries &&
      id in run[j].db.pools[q].entries
      ensures p == q
    {
      assert Later(RowOf(run[j].db, p), RowOf(run[i].db, p)) && Later(RowOf(run[j].db, q), RowOf(run[i].db, q));
    }
  }

  lemma AgreesWhenOnePath(run: seq<Sys>, i: nat)
    requires IsRun(run) && i < |run| && Filed(run[0].db) && InSync(run[0].db) && OnePathPerId(run[i].db)
    ensures AllAgree(run[i].db)
  {
    RunIsAtHome(run, i);
    PoolRuns.RunInv(run, i);
    forall p, id | p in run[i].db.pools && id in run[i].db.pools[p].entries ensures EntryAgrees(run[i].db, p, id) {
      Guarantees.PoolAndUnitAgree(HomeIn(run[i].db), run, i, p, id);
    }
  }

  ghost predicate AgreedSoFar(run: seq<Sys>, i: nat)
    requires i < |run|
  {
    forall j :: 0 <= j <= i ==> AllAgree(run[j].db)
  }

  /** Over concurrent runs pools and units agree throughout exactly when no id comes to be in two pools. */
  lemma AgreementIff(run: seq<Sys>, i: nat)
    requires IsRun(run) && i < |run| && Filed(run[0].db) && InSync(run[0].db)
    ensures AgreedSoFar(run, i) <==> OnePathPerId(run[i].db)
  {
    if OnePathPerId(run[i].db) {
      forall j | 0 <= j <= i ensures AllAgree(run[j].db) {
        OnePathBefore(run, j, i);
        AgreesWhenOnePath(run, j);
      }
    }
    if AllAgree(run[i].db) {
      var d := run[i].db;
      forall p, q, id | p in d.pools && q in d.pools && id in d.pools[p].entries && id in d.pools[q].entries
        ensures p == q
      {
        assert EntryAgrees(d, p, id) && EntryAgrees(d, q, id);
      }
    }
  }
}
