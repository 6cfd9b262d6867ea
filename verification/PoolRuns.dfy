/**
 What every run of the concurrent system guarantees, whatever ids are used on which paths: the
 history of each pool, the handouts made from it, its limit, and the inbound events.
 */
module PoolRuns {
  import opened Types
  import opened PoolSpec
  import opened WorkDb
  import opened PoolRows
  import opened Ledger
  import opened RowHistory
  import opened Protocol
  import opened Sessions

  // ---------- What others commit ----------

  /** Every pool is unchanged, or a later version of itself. */
  ghost predicate PoolsLater(d: Db, e: Db) {
    forall p :: Later(RowOf(d, p), RowOf(e, p))
  }

  lemma LaterTransitive(r: Option<PoolRow>, s: Option<PoolRow>, t: Option<PoolRow>)
    requires Later(r, s) && Later(s, t)
    ensures Later(r, t)
  {
  }

  lemma LoadStable(v: Db, w: Db, pool: Pool, healed: seq<UnitId>, units: map<UnitId, Unit>)
    requires LoadOk(v, pool, healed, units) && Later(RowOf(v, pool.path), RowOf(w, pool.path))
    ensures LoadOk(w, pool, healed, units)
  {
  }

  /** Whatever others commit, what a session knows stays true of what it reads. */
  lemma PhaseStable(v: Db, w: Db, a: Session)
    requires PhaseSound(v, a) && PoolsLater(v, w)
    ensures PhaseSound(w, a)
  {
    match a.phase
    case RowRead(_, head) =>
      assert Later(RowOf(v, head.path), RowOf(w, head.path));
    case PoolRead(_, pool, healed, seen) =>
      assert Later(RowOf(v, pool.path), RowOf(w, pool.path));
      if pool.version != 0 { LoadStable(v, w, pool, healed, seen); }
    case Chosen(_, pool, _, _) =>
      assert Later(RowOf(v, pool.path), RowOf(w, pool.path));
    case _ =>
  }

  lemma JobsStable(v: Db, w: Db, jobs: seq<Job>, done: seq<Option<Op>>, saves: seq<Option<PoolSave>>)
    requires JobsDone(v, jobs, done, saves) && PoolsLater(v, w)
    ensures JobsDone(w, jobs, done, saves)
  {
    forall i | 0 <= i < |done| && jobs[i].Enqueuing? ensures Stored(w, jobs[i].unit) {
      assert Later(RowOf(v, jobs[i].unit.path), RowOf(w, jobs[i].unit.path));
    }
  }

  /** The session's locked rows are the same in both states. */
  ghost predicate Untouched(d: Db, e: Db, o: Overlay) {
    && (forall p :: p in o.pools ==> RowOf(e, p) == RowOf(d, p))
    && (forall sku :: sku in o.views ==> QuantityOf(e, sku) == QuantityOf(d, sku))
  }

  lemma EffectsStable(d: Db, e: Db, a: Session)
    requires Effects(d, a) && Untouched(d, e, a.over)
    ensures Effects(e, a)
  {
    forall p ensures RowInv(e, a, p) { assert RowInv(d, a, p); }
    forall sku ensures QuantityInv(e, a, sku) { assert QuantityInv(d, a, sku); }
  }

  lemma ViewLater(d: Db, e: Db, o: Overlay)
    requires PoolsLater(d, e)
    ensures PoolsLater(View(d, o), View(e, o))
  {
    forall p ensures Later(RowOf(View(d, o), p), RowOf(View(e, o), p)) {
      assert Later(RowOf(d, p), RowOf(e, p));
    }
  }

  lemma SessionStable(d: Db, e: Db, a: Session)
    requires SessionSound(d, a) && RowsSound(e) && PoolsLater(d, e) && Untouched(d, e, a.over)
    ensures SessionSound(e, a)
  {
    ViewLater(d, e, a.over);
    PhaseStable(View(d, a.over), View(e, a.over), a);
    JobsStable(View(d, a.over), View(e, a.over), a.jobs, a.done, a.saves);
    EffectsStable(d, e, a);
    assert RowsSound(View(e, a.over)) by {
      assert forall p :: p in a.over.pools ==>
        p in View(d, a.over).pools && View(d, a.over).pools[p] == a.over.pools[p];
      assert forall id :: id in a.over.units ==>
        id in View(d, a.over).units && View(d, a.over).units[id] == a.over.units[id];
    }
  }

  lemma CommitLater(d: Db, a: Session)
    requires RowsSound(d) && SessionSound(d, a)
    ensures PoolsLater(d, View(d, a.over))
  {
    forall p ensures Later(RowOf(d, p), RowOf(View(d, a.over), p)) {
      assert RowInv(d, a, p);
      HistoryIsLater(RowOf(d, p), OpsOn(a.saves, p));
    }
  }

  lemma CommitStable(d: Db, a: Session, b: Session)
    requires RowsSound(d) && SessionSound(d, a) && SessionSound(d, b) && Disjoint(a, b)
    ensures SessionSound(View(d, a.over), b)
  {
    var e := View(d, a.over);
    CommitLater(d, a);
    assert Untouched(d, e, b.over) by {
      forall p | p in b.over.pools ensures RowOf(e, p) == RowOf(d, p) { assert p in b.over.pools.Keys; }
      forall sku | sku in b.over.views
        ensures QuantityOf(e, sku) == QuantityOf(d, sku)
      {
        assert sku in b.over.views.Keys;
      }
    }
    SessionStable(d, e, b);
  }

  // ---------- The system ----------

  function LogOpsOn(log: seq<Batch>, p: PathId): seq<RowOp> {
    if log == [] then [] else LogOpsOn(log[..|log| - 1], p) + OpsOn(log[|log| - 1].saves, p)
  }

  /** The stored pool is what the committed operations on it, each allowed in its turn, made of it. */
  ghost predicate PoolOk(s0: Sys, s: Sys, p: PathId) {
    && RowValid(RowOf(s0.db, p), LogOpsOn(s.log, p))
    && RowOf(s.db, p) == RowRun(RowOf(s0.db, p), LogOpsOn(s.log, p))
  }

  ghost predicate NewsOk(s0: Sys, s: Sys, p: PathId, id: UnitId) {
    HandoutsOn(s.db.outbox, p, id) == HandoutsOn(s0.db.outbox, p, id) + Hands(LogOpsOn(s.log, p), id)
  }

  ghost predicate QuantityOk(s0: Sys, s: Sys, sku: Sku) {
    QuantityOf(s.db, sku) == QuantityOf(s0.db, sku) + Deltas(Flatten(s.log), sku)
  }

  ghost predicate Booked(s0: Sys, s: Sys) {
    && (forall p :: PoolOk(s0, s, p))
    && (forall p, id :: NewsOk(s0, s, p, id))
    && (forall sku :: QuantityOk(s0, s, sku))
  }

  ghost predicate BatchOk(d: Db, b: Batch) {
    |b.done| == |b.jobs| && JobsDone(d, b.jobs, b.done, b.saves)
  }

  ghost predicate SessionsSound(s: Sys) {
    && (forall n :: n in s.sessions ==> SessionSound(s.db, s.sessions[n]))
    && (forall n, m :: n in s.sessions && m in s.sessions && n != m ==> Disjoint(s.sessions[n], s.sessions[m]))
  }

  /** The events of the open sessions are still unmarked. */
  ghost predicate Unmarked(s: Sys) {
    forall m :: m in s.sessions && s.sessions[m].event.Some? ==> s.sessions[m].event.value !in s.marks
  }

  /** Exactly the events with a committed batch are marked, each by one batch. */
  ghost predicate Marked(m0: set<EventId>, s: Sys) {
    && m0 <= s.marks
    && (forall e :: e in s.marks - m0 <==> exists i :: 0 <= i < |s.log| && s.log[i].event == Some(e))
    && (forall i, j :: 0 <= i < j < |s.log| && s.log[i].event.Some? ==> s.log[i].event != s.log[j].event)
    && Unmarked(s)
  }

  ghost predicate Inv(s0: Sys, s: Sys) {
    && RowsSound(s.db)
    && SessionsSound(s)
    && Booked(s0, s)
    && (forall k :: 0 <= k < |s.log| ==> BatchOk(s.db, s.log[k]))
    && Marked(s0.marks, s)
  }

  // ---------- One step ----------

  lemma {:induction false} HandsConcat(a: seq<RowOp>, b: seq<RowOp>, id: UnitId)
    ensures Hands(a + b, id) == Hands(a, id) + Hands(b, id)
    decreases |b|
  {
    if b == [] {
      assert a + b == a;
    } else {
      assert (a + b)[..|a + b| - 1] == a + b[..|b| - 1];
      HandsConcat(a, b[..|b| - 1], id);
    }
  }

  lemma {:induction false} DeltasConcat(a: seq<Op>, b: seq<Op>, sku: Sku)
    ensures Deltas(a + b, sku) == Deltas(a, sku) + Deltas(b, sku)
    decreases |b|
  {
    if b == [] {
      assert a + b == a;
    } else {
      assert (a + b)[..|a + b| - 1] == a + b[..|b| - 1];
      DeltasConcat(a, b[..|b| - 1], sku);
    }
  }

  lemma CommitBooks(s0: Sys, s: Sys, t: Sys, n: nat)
    requires Booked(s0, s) && Commit(s, t, n) && SessionSound(s.db, s.sessions[n])
    ensures Booked(s0, t)
  {
    var a := s.sessions[n];
    assert t.log[..|t.log| - 1] == s.log;
    forall p ensures PoolOk(s0, t, p) {
      assert PoolOk(s0, s, p) && RowInv(s.db, a, p);
      RowRunConcat(RowOf(s0.db, p), LogOpsOn(s.log, p), OpsOn(a.saves, p));
    }
    forall p, id ensures NewsOk(s0, t, p, id) {
      assert NewsOk(s0, s, p, id) && NewsInv(a, p, id);
      OccurrencesConcat(s.db.outbox, a.over.events, IsHandoutOn(p, id));
      HandsConcat(LogOpsOn(s.log, p), OpsOn(a.saves, p), id);
    }
    forall sku ensures QuantityOk(s0, t, sku) {
      assert QuantityOk(s0, s, sku) && QuantityInv(s.db, a, sku);
      DeltasConcat(Flatten(s.log), Ops(a.done), sku);
    }
  }

  lemma CommitBatches(s: Sys, t: Sys, n: nat)
    requires Commit(s, t, n) && PoolsLater(s.db, t.db)
    requires JobsDone(t.db, s.sessions[n].jobs, s.sessions[n].done, s.sessions[n].saves)
    requires forall k :: 0 <= k < |s.log| ==> BatchOk(s.db, s.log[k])
    ensures forall k :: 0 <= k < |t.log| ==> BatchOk(t.db, t.log[k])
  {
    forall k | 0 <= k < |t.log| ensures BatchOk(t.db, t.log[k]) {
      if k < |s.log| {
        assert t.log[k] == s.log[k];
        JobsStable(s.db, t.db, s.log[k].jobs, s.log[k].done, s.log[k].saves);
      }
    }
  }

  lemma CommitMarks(m0: set<EventId>, s: Sys, t: Sys, n: nat)
    requires Marked(m0, s) && Commit(s, t, n)
    requires forall m :: m in s.sessions && m != n ==> Disjoint(s.sessions[n], s.sessions[m])
    ensures Marked(m0, t)
  {
    var a := s.sessions[n];
    assert forall i :: 0 <= i < |s.log| ==> t.log[i] == s.log[i];
    assert t.log[|s.log|].event == a.event;
    forall e | e in t.marks - m0
      ensures exists i :: 0 <= i < |t.log| && t.log[i].event == Some(e)
    {
      if e in s.marks {
        var i :| 0 <= i < |s.log| && s.log[i].event == Some(e);
        assert t.log[i].event == Some(e);
      }
    }
    forall i, j | 0 <= i < j < |t.log| && t.log[i].event.Some?
      ensures t.log[i].event != t.log[j].event
    {
      if j == |s.log| {
        assert s.log[i].event.value in s.marks - m0;
      }
    }
    forall e | exists i :: 0 <= i < |t.log| && t.log[i].event == Some(e)
      ensures e in t.marks - m0
    {
      var i :| 0 <= i < |t.log| && t.log[i].event == Some(e);
      assert i < |s.log| ==> s.log[i].event == Some(e);
    }
  }

  lemma CommitSessions(s: Sys, t: Sys, n: nat)
    requires RowsSound(s.db) && SessionsSound(s) && Commit(s, t, n)
    ensures SessionsSound(t)
  {
    forall m | m in t.sessions
      ensures m in s.sessions && t.sessions[m] == s.sessions[m] && SessionSound(t.db, t.sessions[m])
    {
      CommitStable(s.db, s.sessions[n], s.sessions[m]);
    }
  }

  lemma CommitKeeps(s0: Sys, s: Sys, t: Sys, n: nat)
    requires Inv(s0, s) && Commit(s, t, n)
    ensures Inv(s0, t) && PoolsLater(s.db, t.db)
  {
    CommitLater(s.db, s.sessions[n]);
    CommitBooks(s0, s, t, n);
    CommitBatches(s, t, n);
    CommitMarks(s0.marks, s, t, n);
    CommitSessions(s, t, n);
  }

  lemma OpenedIsSound(d: Db, a: Session)
    requires RowsSound(d) && JobsFresh(a.jobs) && a == Session(a.event, a.jobs, [], [], Start, NOTHING)
    ensures SessionSound(d, a)
  {
    assert View(d, NOTHING) == d;
  }

  /** A step that commits nothing: the database, the marks and the log stay. */
  lemma QuietKeeps(s0: Sys, s: Sys, t: Sys)
    requires Inv(s0, s) && t == s.(sessions := t.sessions) && SessionsSound(t)
    requires Unmarked(t)
    ensures Inv(s0, t) && PoolsLater(s.db, t.db)
  {
    forall p ensures PoolOk(s0, t, p) { assert PoolOk(s0, s, p); }
    forall p, id ensures NewsOk(s0, t, p, id) { assert NewsOk(s0, s, p, id); }
    forall sku ensures QuantityOk(s0, t, sku) { assert QuantityOk(s0, s, sku); }
  }

  lemma OpenKeeps(s: Sys, t: Sys, n: nat)
    requires RowsSound(s.db) && SessionsSound(s) && Open(s, t, n)
    ensures SessionsSound(t)
  {
    OpenedIsSound(s.db, t.sessions[n]);
    forall m | m in t.sessions && m != n
      ensures m in s.sessions && t.sessions[m] == s.sessions[m]
      ensures Disjoint(t.sessions[n], t.sessions[m]) && Disjoint(t.sessions[m], t.sessions[n])
    {
    }
    PairsDisjoint(s, t, n);
  }

  /** With session `n` apart from each other one, and the others as they were, all are apart. */
  lemma PairsDisjoint(s: Sys, t: Sys, n: nat)
    requires forall m, k :: m in s.sessions && k in s.sessions && m != k ==> Disjoint(s.sessions[m], s.sessions[k])
    requires forall m :: m in t.sessions && m != n ==> m in s.sessions && t.sessions[m] == s.sessions[m]
    requires n in t.sessions
    requires forall m :: m in t.sessions && m != n ==>
      Disjoint(t.sessions[n], t.sessions[m]) && Disjoint(t.sessions[m], t.sessions[n])
    ensures forall m, k :: m in t.sessions && k in t.sessions && m != k ==> Disjoint(t.sessions[m], t.sessions[k])
  {
    forall m, k | m in t.sessions && k in t.sessions && m != k ensures Disjoint(t.sessions[m], t.sessions[k]) {
      if m != n && k != n { assert Disjoint(s.sessions[m], s.sessions[k]); }
    }
  }

  lemma ActsSound(s: Sys, t: Sys, n: nat)
    requires SessionsSound(s) && Act(s, t, n)
    ensures SessionSound(s.db, t.sessions[n]) && t.sessions[n].event == s.sessions[n].event
  {
    ActKeeps(s.db, s.sessions[n], t.sessions[n]);
  }

  lemma StepActKeeps(s: Sys, t: Sys, n: nat)
    requires SessionsSound(s) && Act(s, t, n)
    ensures SessionsSound(t) && t.sessions[n].event == s.sessions[n].event
  {
    ActsSound(s, t, n);
    forall m | m in t.sessions && m != n
      ensures m in s.sessions && t.sessions[m] == s.sessions[m]
      ensures Disjoint(t.sessions[n], t.sessions[m]) && Disjoint(t.sessions[m], t.sessions[n])
    {
    }
    PairsDisjoint(s, t, n);
  }

  lemma StaysUnmarked(s: Sys, t: Sys, n: nat)
    requires Unmarked(s) && t.marks == s.marks && n in t.sessions && t.sessions == s.sessions[n := t.sessions[n]]
    requires t.sessions[n].event.Some? ==> t.sessions[n].event.value !in s.marks
    ensures Unmarked(t)
  {
  }

  lemma OpenInv(s0: Sys, s: Sys, t: Sys, n: nat)
    requires Inv(s0, s) && Open(s, t, n)
    ensures Inv(s0, t) && PoolsLater(s.db, t.db)
  {
    OpenKeeps(s, t, n);
    StaysUnmarked(s, t, n);
    QuietKeeps(s0, s, t);
  }

  lemma ActInv(s0: Sys, s: Sys, t: Sys, n: nat)
    requires Inv(s0, s) && Act(s, t, n)
    ensures Inv(s0, t) && PoolsLater(s.db, t.db)
  {
    StepActKeeps(s, t, n);
    StaysUnmarked(s, t, n);
    QuietKeeps(s0, s, t);
  }

  lemma VanishKeeps(s: Sys, t: Sys, n: nat)
    requires SessionsSound(s) && Unmarked(s) && Vanish(s, t, n)
    ensures SessionsSound(t) && Unmarked(t)
  {
    assert forall m :: m in t.sessions ==> m in s.sessions && t.sessions[m] == s.sessions[m];
    forall m, k | m in t.sessions && k in t.sessions && m != k ensures Disjoint(t.sessions[m], t.sessions[k]) {
      assert Disjoint(s.sessions[m], s.sessions[k]);
    }
  }

  lemma VanishInv(s0: Sys, s: Sys, t: Sys, n: nat)
    requires Inv(s0, s) && Vanish(s, t, n)
    ensures Inv(s0, t) && PoolsLater(s.db, t.db)
  {
    VanishKeeps(s, t, n);
    QuietKeeps(s0, s, t);
  }

  lemma NextKeeps(s0: Sys, s: Sys, t: Sys)
    requires Inv(s0, s) && Next(s, t)
    ensures Inv(s0, t) && PoolsLater(s.db, t.db)
  {
    var n: nat :| StepOf(s, t, n);
    if Commit(s, t, n) { CommitKeeps(s0, s, t, n); }
    else if Open(s, t, n) { OpenInv(s0, s, t, n); }
    else if Act(s, t, n) { ActInv(s0, s, t, n); }
    else { VanishInv(s0, s, t, n); }
  }

  lemma InitInv(s: Sys)
    requires Init(s)
    ensures Inv(s, s)
  {
    assert forall p :: LogOpsOn(s.log, p) == [];
    assert Flatten(s.log) == [];
  }

  lemma {:induction false} RunInv(run: seq<Sys>, i: nat)
    requires IsRun(run) && i < |run|
    ensures Inv(run[0], run[i])
  {
    if i == 0 {
      InitInv(run[0]);
    } else {
      RunInv(run, i - 1);
      assert Next(run[i - 1], run[(i - 1) + 1]);
      NextKeeps(run[0], run[i - 1], run[i]);
    }
  }

  // ---------- Theorems ----------

  /**
   No lost update: at any point of any run the stored pool of a path is what the committed
   operations on it, each allowed in its turn, make of the initial one.
   */
  lemma PoolIsItsHistory(run: seq<Sys>, i: nat, p: PathId)
    requires IsRun(run) && i < |run|
    ensures RowValid(RowOf(run[0].db, p), LogOpsOn(run[i].log, p))
    ensures RowOf(run[i].db, p) == RowRun(RowOf(run[0].db, p), LogOpsOn(run[i].log, p))
  {
    RunInv(run, i);
    assert PoolOk(run[0], run[i], p);
  }

  lemma OneAccounted(job: Job, res: Option<Op>, save: Option<PoolSave>, p: PathId)
    requires Accounts(job, res, save)
    ensures Adds(if save.Some? && save.value.path == p then [save.value.op] else [])
         == Enqueues(if res.Some? then [res.value] else [], p)
  {
    if save.Some? { assert [save.value.op][..0] == []; }
    if res.Some? { assert [res.value][..0] == []; }
  }

  lemma BatchAddsMore(jobs: seq<Job>, done: seq<Option<Op>>, saves: seq<Option<PoolSave>>, n: nat, p: PathId)
    requires n < |done| && n < |saves| && n < |jobs| && Accounts(jobs[n], done[n], saves[n])
    requires Adds(OpsOn(saves[..n], p)) == Enqueues(Ops(done[..n]), p)
    ensures Adds(OpsOn(saves[..n] + [saves[n]], p)) == Enqueues(Ops(done[..n] + [done[n]]), p)
  {
    OpsAppend(done[..n], done[n]);
    OpsOnAppend(saves[..n], saves[n], p);
    EnqueuesConcat(Ops(done[..n]), if done[n].Some? then [done[n].value] else [], p);
    AddsConcat(OpsOn(saves[..n], p), if saves[n].Some? && saves[n].value.path == p then [saves[n].value.op] else []);
    OneAccounted(jobs[n], done[n], saves[n], p);
  }

  lemma {:induction false} BatchAdds(jobs: seq<Job>, done: seq<Option<Op>>, saves: seq<Option<PoolSave>>, p: PathId)
    requires |done| == |saves| <= |jobs| && forall i :: 0 <= i < |done| ==> Accounts(jobs[i], done[i], saves[i])
    ensures Adds(OpsOn(saves, p)) == Enqueues(Ops(done), p)
  {
    if done != [] {
      var n := |done| - 1;
      assert done == done[..n] + [done[n]] && saves == saves[..n] + [saves[n]];
      BatchAdds(jobs, done[..n], saves[..n], p);
      BatchAddsMore(jobs, done, saves, n, p);
    }
  }

  lemma {:induction false} EnqueuesConcat(a: seq<Op>, b: seq<Op>, p: PathId)
    ensures Enqueues(a + b, p) == Enqueues(a, p) + Enqueues(b, p)
    decreases |b|
  {
    if b == [] {
      assert a + b == a;
    } else {
      assert (a + b)[..|a + b| - 1] == a + b[..|b| - 1];
      EnqueuesConcat(a, b[..|b| - 1], p);
    }
  }

  lemma {:induction false} AddsConcat(a: seq<RowOp>, b: seq<RowOp>)
    ensures Adds(a + b) == Adds(a) + Adds(b)
    decreases |b|
  {
    if b == [] {
      assert a + b == a;
    } else {
      assert (a + b)[..|a + b| - 1] == a + b[..|b| - 1];
      AddsConcat(a, b[..|b| - 1]);
    }
  }

  lemma {:induction false} LogAdds(d: Db, log: seq<Batch>, p: PathId)
    requires forall k :: 0 <= k < |log| ==> BatchOk(d, log[k])
    ensures Adds(LogOpsOn(log, p)) == Enqueues(Flatten(log), p)
  {
    if log != [] {
      var n := |log| - 1;
      LogAdds(d, log[..n], p);
      assert BatchOk(d, log[n]);
      BatchAdds(log[n].jobs, log[n].done, log[n].saves, p);
      EnqueuesConcat(Flatten(log[..n]), Ops(log[n].done), p);
      AddsConcat(LogOpsOn(log[..n], p), OpsOn(log[n].saves, p));
    }
  }

  /** Every committed save of a pool raised its version by one, every committed enqueue its size. */
  lemma EverySaveCounts(run: seq<Sys>, i: nat, p: PathId)
    requires IsRun(run) && i < |run|
    ensures VersionOf(run[i].db, p) == VersionOf(run[0].db, p) + |LogOpsOn(run[i].log, p)|
    ensures SizeOf(run[i].db, p) == SizeOf(run[0].db, p) + Enqueues(Flatten(run[i].log), p)
  {
    RunInv(run, i);
    PoolIsItsHistory(run, i, p);
    HistoryCounts(RowOf(run[0].db, p), LogOpsOn(run[i].log, p), "");
    LogAdds(run[i].db, run[i].log, p);
  }

  /** Per path and id at most one WorkReleased is ever committed, when the entry leaves Pending. */
  lemma OneHandoutPerPath(run: seq<Sys>, i: nat, p: PathId, id: UnitId)
    requires IsRun(run) && i < |run|
    ensures HandoutsOn(run[i].db.outbox, p, id) - HandoutsOn(run[0].db.outbox, p, id)
         <= Left(RowOf(run[i].db, p), id) - Left(RowOf(run[0].db, p), id) <= 1
  {
    RunInv(run, i);
    assert NewsOk(run[0], run[i], p, id);
    PoolIsItsHistory(run, i, p);
    HistoryCounts(RowOf(run[0].db, p), LogOpsOn(run[i].log, p), id);
  }

  /** A release-fed pool that starts within its WIP limit stays there, although healing never checks it. */
  lemma WipBound(run: seq<Sys>, i: nat, p: PathId)
    requires IsRun(run) && i < |run| && RowWithinLimit(RowOf(run[0].db, p))
    requires p in run[i].db.pools && run[i].db.pools[p].mode == ReleaseFed
    ensures run[i].db.pools[p].wipLimit - Wip(run[i].db.pools[p].entries) >= 0
  {
    PoolIsItsHistory(run, i, p);
    HistoryWithinLimit(RowOf(run[0].db, p), LogOpsOn(run[i].log, p));
  }

  /** The pool a save of this session would write, and the entries healed on the way to it. */
  predicate Saving(a: Session) {
    a.phase.PoolRead? || a.phase.Chosen?
  }

  /**
   Torn reads are harmless: when a save's guard passes, the pool it was computed from is exactly
   the stored one, with the entries met so far healed as their units were seen, and, once a unit
   is chosen, with the entry of that unit, next in line and within the limit, handed out.
   */
  lemma SaveSawWhatIsStored(run: seq<Sys>, i: nat, n: nat)
    requires IsRun(run) && i < |run| && n in run[i].sessions && Saving(run[i].sessions[n])
    requires VersionMatches(View(run[i].db, run[i].sessions[n].over), run[i].sessions[n].phase.pool)
    ensures var v, ph := View(run[i].db, run[i].sessions[n].over), run[i].sessions[n].phase;
      if ph.pool.path !in v.pools then ph.PoolRead? && ph.pool.entries == []
      else
        var row := v.pools[ph.pool.path];
        && HealOk(row, ph.seen, ph.healed)
        && (ph.PoolRead? ==> ToRow(ph.pool) == Heal(row, ph.seen, ph.healed))
        && (ph.Chosen? ==>
              && CanRelease(Heal(row, ph.seen, ph.healed), ph.unit.id)
              && ToRow(ph.pool) == StageIn(Heal(row, ph.seen, ph.healed), ph.unit.id, Released))
  {
    RunInv(run, i);
    assert SessionSound(run[i].db, run[i].sessions[n]);
  }

  /**
   An inbound event is all or nothing: it is marked exactly when one batch of its writes is in
   the log, and that batch accounts for each of its jobs and has each of its lines stored.
   */
  lemma EventsAreAtomic(run: seq<Sys>, i: nat, e: EventId)
    requires IsRun(run) && i < |run| && e !in run[0].marks
    ensures e in run[i].marks <==> exists k :: 0 <= k < |run[i].log| && run[i].log[k].event == Some(e)
    ensures forall j, k :: 0 <= j < k < |run[i].log| ==> !(run[i].log[j].event == run[i].log[k].event == Some(e))
    ensures forall k :: 0 <= k < |run[i].log| ==> BatchOk(run[i].db, run[i].log[k])
  {
    RunInv(run, i);
    assert Marked(run[0].marks, run[i]);
    assert e in run[i].marks <==> e in run[i].marks - run[0].marks;
    forall j, k | 0 <= j < k < |run[i].log|
      ensures !(run[i].log[j].event == run[i].log[k].event == Some(e))
    {
    }
  }

  function JobDeltas(jobs: seq<Job>, sku: Sku): int {
    if jobs == [] then 0
    else JobDeltas(jobs[..|jobs| - 1], sku)
         + (if jobs[|jobs| - 1].Observing? && jobs[|jobs| - 1].sku == sku then jobs[|jobs| - 1].delta else 0)
  }

  function LogDeltas(log: seq<Batch>, sku: Sku): int {
    if log == [] then 0 else LogDeltas(log[..|log| - 1], sku) + JobDeltas(log[|log| - 1].jobs, sku)
  }

  lemma {:induction false} DoneDeltas(jobs: seq<Job>, done: seq<Option<Op>>, saves: seq<Option<PoolSave>>, sku: Sku)
    requires |jobs| == |done| == |saves| && forall i :: 0 <= i < |done| ==> Accounts(jobs[i], done[i], saves[i])
    ensures Deltas(Ops(done), sku) == JobDeltas(jobs, sku)
  {
    if done != [] {
      var n := |done| - 1;
      DoneDeltas(jobs[..n], done[..n], saves[..n], sku);
      assert Accounts(jobs[n], done[n], saves[n]);
      assert done == done[..n] + [done[n]];
      OpsAppend(done[..n], done[n]);
      if done[n].Some? {
        DeltasAppend(Ops(done[..n]), done[n].value, sku);
      } else {
        assert Ops(done) == Ops(done[..n]);
      }
    }
  }

  lemma {:induction false} FlattenDeltas(d: Db, log: seq<Batch>, sku: Sku)
    requires forall k :: 0 <= k < |log| ==> BatchOk(d, log[k])
    ensures Deltas(Flatten(log), sku) == LogDeltas(log, sku)
  {
    if log != [] {
      var n := |log| - 1;
      FlattenDeltas(d, log[..n], sku);
      assert BatchOk(d, log[n]);
      DoneDeltas(log[n].jobs, log[n].done, log[n].saves, sku);
      DeltasConcat(Flatten(log[..n]), Ops(log[n].done), sku);
    }
  }

  /** The usable quantity of a SKU is the sum of the deltas of the committed events. */
  lemma QuantityIsSumOfCommitted(run: seq<Sys>, i: nat, sku: Sku)
    requires IsRun(run) && i < |run|
    ensures QuantityOf(run[i].db, sku) == QuantityOf(run[0].db, sku) + LogDeltas(run[i].log, sku)
  {
    RunInv(run, i);
    assert QuantityOk(run[0], run[i], sku);
    FlattenDeltas(run[i].db, run[i].log, sku);
  }

  lemma StepLater(run: seq<Sys>, i: nat, p: PathId)
    requires IsRun(run) && i + 1 < |run|
    ensures Later(RowOf(run[i].db, p), RowOf(run[i + 1].db, p))
  {
    RunInv(run, i);
    NextKeeps(run[0], run[i], run[i + 1]);
  }

  lemma {:induction false} LaterChain(run: seq<Sys>, i: nat, j: nat, p: PathId)
    requires i <= j < |run| && forall k :: i <= k < j ==> Later(RowOf(run[k].db, p), RowOf(run[k + 1].db, p))
    ensures Later(RowOf(run[i].db, p), RowOf(run[j].db, p))
  {
    if i < j {
      LaterChain(run, i, j - 1, p);
      assert Later(RowOf(run[j - 1].db, p), RowOf(run[(j - 1) + 1].db, p));
      LaterTransitive(RowOf(run[i].db, p), RowOf(run[j - 1].db, p), RowOf(run[j].db, p));
    }
  }

  /** Between any two points of a run no pool loses an entry or goes back to an earlier version. */
  lemma PoolsOnlyGrow(run: seq<Sys>, i: nat, j: nat, p: PathId)
    requires IsRun(run) && i <= j < |run|
    ensures Later(RowOf(run[i].db, p), RowOf(run[j].db, p))
  {
    forall k | i <= k < j ensures Later(RowOf(run[k].db, p), RowOf(run[k + 1].db, p)) { StepLater(run, k, p); }
    LaterChain(run, i, j, p);
  }
}
