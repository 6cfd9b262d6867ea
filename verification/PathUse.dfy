/**
 Which ids go on which paths, known before anything runs: the exact condition under which every
 run is serializable, never takes a unit back, and hands no unit out twice.
 */
module PathUse {
  import opened Types
  import opened WorkDb
  import opened Ledger
  import opened Protocol
  import opened ReusedIdRun
  import OnePath
  import Guarantees

  /** The ids a deployment uses on each path. */
  type Use = (UnitId, PathId) -> bool

  ghost predicate EntriesUse(used: Use, d: Db) {
    forall p, id :: p in d.pools && id in d.pools[p].entries ==> used(id, p)
  }

  ghost predicate JobsUse(used: Use, jobs: seq<Job>) {
    forall j :: 0 <= j < |jobs| && jobs[j].Enqueuing? ==> used(jobs[j].unit.id, jobs[j].unit.path)
  }

  ghost predicate LogUses(used: Use, log: seq<Batch>) {
    forall k :: 0 <= k < |log| ==> JobsUse(used, log[k].jobs)
  }

  /** Up to point i the run started from filed units and entries, and committed, as `used` says. */
  ghost predicate Uses(used: Use, run: seq<Sys>, i: nat) {
    && IsRun(run) && i < |run| && OnePath.Filed(run[0].db)
    && EntriesUse(used, run[0].db) && LogUses(used, run[i].log)
  }

  /** No id is used on two paths. */
  ghost predicate OneEach(used: Use) {
    forall id, p, q :: used(id, p) && used(id, q) ==> p == q
  }

  // ---------- When each id has one path ----------

  ghost function PathFor(used: Use, id: UnitId): PathId {
    if exists p :: used(id, p) then
      var p :| used(id, p);
      p
    else ""
  }

  ghost function HomeBy(used: Use): Home {
    (id: UnitId) => PathFor(used, id)
  }

  lemma FiledByUse(used: Use, d: Db)
    requires OneEach(used) && OnePath.Filed(d) && EntriesUse(used, d)
    ensures WellFormed(HomeBy(used), d)
  {
    var home := OnePath.HomeIn(d);
    forall id | id in d.units ensures UnitFiled(HomeBy(used), d, id) {
      assert UnitFiled(home, d, id);
      assert used(id, d.units[id].path);
    }
    forall p, id | p in d.pools && id in d.pools[p].entries ensures EntryFiled(HomeBy(used), d, p, id) {
      assert EntryFiled(home, d, p, id);
      assert used(id, p);
    }
  }

  lemma RunIsAtHome(used: Use, run: seq<Sys>, i: nat)
    requires OneEach(used) && Uses(used, run, i)
    ensures IsRunAtHome(HomeBy(used), run, i)
  {
    FiledByUse(used, run[0].db);
    forall k | 0 <= k < |run[i].log| ensures JobsAtHome(HomeBy(used), run[i].log[k].jobs) {
      assert JobsUse(used, run[i].log[k].jobs);
    }
  }

  // ---------- When some id has two ----------

  lemma StartsFiled(w: Reuse, used: Use)
    requires used(w.unit, w.pick)
    ensures OnePath.Filed(w.Before()) && EntriesUse(used, w.Before())
  {
    OnePath.HomeIsThePool(w.Before(), w.pick, w.unit);
  }

  lemma BatchesUse(w: Reuse, used: Use, log: seq<Batch>)
    requires used(w.unit, w.pack)
    requires forall k :: 0 <= k < |log| ==> log[k] in {w.Enqueued(), w.Handed(w.pick), w.Handed(w.pack)}
    ensures LogUses(used, log)
  {
  }

  // ---------- Serializability ----------

  /** At this point the state is what the committed operations, each allowed in its turn, make of the start. */
  ghost predicate Serial(run: seq<Sys>, i: nat)
    requires i < |run|
  {
    Valid(run[0].db, Flatten(run[i].log)) && run[i].db == Run(run[0].db, Flatten(run[i].log))
  }

  ghost predicate AlwaysSerial(used: Use) {
    forall run, i :: Uses(used, run, i) ==> Serial(run, i)
  }

  lemma SomeRunIsNotSerial(used: Use, id: UnitId, p: PathId, q: PathId)
    requires used(id, p) && used(id, q) && p != q
    ensures !AlwaysSerial(used)
  {
    var w := Reuse(p, q, id);
    var run := w.NotSerializable();
    StartsFiled(w, used);
    BatchesUse(w, used, run[|run| - 1].log);
    assert Uses(used, run, |run| - 1) && !Serial(run, |run| - 1);
  }

  /** Every run is serializable exactly when no id is used on two paths. */
  lemma SerializableIff(used: Use)
    ensures AlwaysSerial(used) <==> OneEach(used)
  {
    if OneEach(used) {
      forall run, i | Uses(used, run, i) ensures Serial(run, i) {
        RunIsAtHome(used, run, i);
        Guarantees.Serializable(HomeBy(used), run, i);
      }
    } else {
      var id, p, q :| used(id, p) && used(id, q) && p != q;
      SomeRunIsNotSerial(used, id, p, q);
    }
  }

  // ---------- Nothing moves back ----------

  /** Every unit is still there, the same but for its stage, and no earlier in its life. */
  ghost predicate UnitsAdvance(d: Db, e: Db) {
    forall id :: id in d.units ==> id in e.units && Evolves(d.units[id], e.units[id])
  }

  ghost predicate AlwaysForward(used: Use) {
    forall run: seq<Sys>, i: nat, j: nat :: Uses(used, run, j) && i <= j ==> UnitsAdvance(run[i].db, run[j].db)
  }

  lemma SomeRunMovesBack(used: Use, id: UnitId, p: PathId, q: PathId)
    requires used(id, p) && used(id, q) && p != q
    ensures !AlwaysForward(used)
  {
    var w := Reuse(p, q, id);
    var run, i := w.MovesBack();
    StartsFiled(w, used);
    BatchesUse(w, used, run[|run| - 1].log);
    assert Uses(used, run, |run| - 1) && !UnitsAdvance(run[i].db, run[|run| - 1].db);
  }

  /** No run ever takes a unit back exactly when no id is used on two paths. */
  lemma ForwardIff(used: Use)
    ensures AlwaysForward(used) <==> OneEach(used)
  {
    if OneEach(used) {
      forall run: seq<Sys>, i: nat, j: nat | Uses(used, run, j) && i <= j ensures UnitsAdvance(run[i].db, run[j].db) {
        RunIsAtHome(used, run, j);
        Guarantees.NothingMovesBack(HomeBy(used), run, i, j);
      }
    } else {
      var id, p, q :| used(id, p) && used(id, q) && p != q;
      SomeRunMovesBack(used, id, p, q);
    }
  }

  // ---------- At most one handout ----------

  ghost predicate HandedOutOnce(run: seq<Sys>, i: nat, id: UnitId)
    requires i < |run|
  {
    Handouts(run[i].db.outbox, id) <= Handouts(run[0].db.outbox, id) + 1
  }

  ghost predicate AlwaysHandedOutOnce(used: Use) {
    forall run, i, id :: Uses(used, run, i) ==> HandedOutOnce(run, i, id)
  }

  lemma SomeRunHandsOutTwice(used: Use, id: UnitId, p: PathId, q: PathId)
    requires used(id, p) && used(id, q) && p != q
    ensures !AlwaysHandedOutOnce(used)
  {
    var w := Reuse(p, q, id);
    var run := w.HandedOutTwice();
    StartsFiled(w, used);
    BatchesUse(w, used, run[|run| - 1].log);
    assert Uses(used, run, |run| - 1) && !HandedOutOnce(run, |run| - 1, id);
  }

  /** No run hands a unit out twice exactly when no id is used on two paths. */
  lemma HandedOutOnceIff(used: Use)
    ensures AlwaysHandedOutOnce(used) <==> OneEach(used)
  {
    if OneEach(used) {
      forall run, i, id | Uses(used, run, i) ensures HandedOutOnce(run, i, id) {
        RunIsAtHome(used, run, i);
        Guarantees.AtMostOnceHandout(HomeBy(used), run, i, id);
      }
    } else {
      var id, p, q :| used(id, p) && used(id, q) && p != q;
      SomeRunHandsOutTwice(used, id, p, q);
    }
  }
}
