/**
 How often a completion is announced. RecordCompletion reads its unit before it loads the pool
 that guards its save, so a completion can commit after another one already has.
 */
module LateCompletion {
  import opened Types
  import opened PoolSpec
  import opened WorkDb
  import opened PoolRows
  import opened Ledger
  import opened RowHistory
  import opened Protocol
  import opened Sessions
  import opened Attempts
  import PoolRuns
  import ProtocolProof
  import Guarantees

  function IsCompleted(d: Db, id: UnitId): nat {
    if id in d.units && d.units[id].stage == Completed then 1 else 0
  }

  /** Completions of the unit that came when it was Completed already. */
  function Late(d: Db, ops: seq<Op>, id: UnitId): nat {
    if ops == [] then 0
    else
      var op := ops[|ops| - 1];
      Late(d, ops[..|ops| - 1], id)
      + (if op.Cmp? && op.id == id && IsCompleted(Run(d, ops[..|ops| - 1]), id) == 1 then 1 else 0)
  }

  ghost predicate AnnouncesOnce(d: Db, e: Db, op: Op, id: UnitId) {
    Announced(e.outbox, id) - Announced(d.outbox, id)
      == IsCompleted(e, id) - IsCompleted(d, id) + (if op.Cmp? && op.id == id then IsCompleted(d, id) else 0)
  }

  lemma ReleaseAnnounces(d: Db, path: PathId, healed: seq<UnitId>, rid: UnitId, at: Time, id: UnitId)
    requires MayRelease(d, path, healed, rid)
    ensures Announced(AfterRelease(d, path, healed, rid, at).outbox, id) == Announced(d.outbox, id)
    ensures IsCompleted(AfterRelease(d, path, healed, rid, at), id) == IsCompleted(d, id)
  {
    ReleaseShape(d, path, healed, rid, at);
    OccurrencesAppend(d.outbox, WorkReleased(rid, path, at), IsAnnouncement(id));
  }

  lemma EnqueueAnnounces(d: Db, unit: Unit, at: Time, id: UnitId)
    requires unit.id !in d.units && unit.stage == Pending
    ensures Announced(AfterEnqueue(d, unit, at).outbox, id) == Announced(d.outbox, id)
    ensures IsCompleted(AfterEnqueue(d, unit, at), id) == IsCompleted(d, id)
  {
    OccurrencesAppend(d.outbox, WorkUnitCreated(unit.id, unit.path, at), IsAnnouncement(id));
  }

  lemma CompletionAnnounces(d: Db, cid: UnitId, at: Time, id: UnitId)
    requires MayComplete(d, cid)
    ensures Announced(AfterCompletion(d, cid, at).outbox, id) == Announced(d.outbox, id) + (if cid == id then 1 else 0)
    ensures IsCompleted(AfterCompletion(d, cid, at), id) == if cid == id then 1 else IsCompleted(d, id)
  {
    OccurrencesAppend(d.outbox, WorkUnitCompleted(cid, d.units[cid].path, at), IsAnnouncement(id));
  }

  lemma StepAnnounces(home: Home, d: Db, op: Op, id: UnitId)
    requires WellFormed(home, d) && Enabled(d, op) && AtHome(home, op)
    ensures AnnouncesOnce(d, Step(d, op), op, id)
  {
    match op
    case Enq(unit, at) =>
      UnitIsFresh(home, d, unit);
      EnqueueAnnounces(d, unit, at, id);
    case Rel(path, healed, rid, at) => ReleaseAnnounces(d, path, healed, rid, at, id);
    case Cmp(cid, at) => CompletionAnnounces(d, cid, at, id);
    case Obs(_, _, _) =>
  }

  /** One announcement for reaching Completed, and one more for every late completion. */
  lemma {:induction false} AnnouncementsCount(home: Home, d: Db, ops: seq<Op>, id: UnitId)
    requires WellFormed(home, d) && Valid(d, ops) && AllAtHome(home, ops)
    ensures Announced(Run(d, ops).outbox, id) - Announced(d.outbox, id)
         == IsCompleted(Run(d, ops), id) - IsCompleted(d, id) + Late(d, ops, id)
  {
    if ops != [] {
      var n := |ops| - 1;
      AnnouncementsCount(home, d, ops[..n], id);
      RunKeeps(home, d, ops[..n]);
      StepAnnounces(home, Run(d, ops[..n]), ops[n], id);
    }
  }

  lemma StaysCompleted(home: Home, d: Db, op: Op, id: UnitId)
    requires WellFormed(home, d) && Enabled(d, op) && AtHome(home, op)
    ensures IsCompleted(d, id) <= IsCompleted(Step(d, op), id)
    ensures op.Cmp? && op.id == id ==> IsCompleted(Step(d, op), id) == 1
  {
    match op
    case Enq(unit, _) => assert unit.id in d.units ==> UnitFiled(home, d, unit.id);
    case Rel(path, healed, rid, at) => ReleaseShape(d, path, healed, rid, at);
    case Cmp(_, _) =>
    case Obs(_, _, _) =>
  }

  lemma {:induction false} LateMeansCompleted(home: Home, d: Db, ops: seq<Op>, id: UnitId)
    requires WellFormed(home, d) && Valid(d, ops) && AllAtHome(home, ops)
    ensures Late(d, ops, id) > 0 ==> IsCompleted(Run(d, ops), id) == 1
  {
    if ops != [] {
      var n := |ops| - 1;
      LateMeansCompleted(home, d, ops[..n], id);
      RunKeeps(home, d, ops[..n]);
      StaysCompleted(home, Run(d, ops[..n]), ops[n], id);
    }
  }

  // ---------- Counting completions in the log ----------

  function Completions(ops: seq<Op>, id: UnitId): nat {
    if ops == [] then 0
    else Completions(ops[..|ops| - 1], id) + (if ops[|ops| - 1].Cmp? && ops[|ops| - 1].id == id then 1 else 0)
  }

  lemma {:induction false} CompletionsConcat(a: seq<Op>, b: seq<Op>, id: UnitId)
    ensures Completions(a + b, id) == Completions(a, id) + Completions(b, id)
    decreases |b|
  {
    if b == [] {
      assert a + b == a;
    } else {
      assert (a + b)[..|a + b| - 1] == a + b[..|b| - 1];
      CompletionsConcat(a, b[..|b| - 1], id);
    }
  }

  /** Every completion is announced once, whatever state its unit was in. */
  lemma {:induction false} EachCompletionIsAnnounced(d: Db, ops: seq<Op>, id: UnitId)
    requires Valid(d, ops)
    ensures Announced(Run(d, ops).outbox, id) == Announced(d.outbox, id) + Completions(ops, id)
  {
    if ops != [] {
      var n := |ops| - 1;
      var e := Run(d, ops[..n]);
      EachCompletionIsAnnounced(d, ops[..n], id);
      match ops[n]
      case Enq(unit, at) =>
        OccurrencesAppend(e.outbox, WorkUnitCreated(unit.id, unit.path, at), IsAnnouncement(id));
      case Rel(path, healed, rid, at) => ReleaseAnnounces(e, path, healed, rid, at, id);
      case Cmp(cid, at) => CompletionAnnounces(e, cid, at, id);
      case Obs(_, _, _) =>
    }
  }

  lemma {:induction false} CompletedByThen(home: Home, d: Db, ops: seq<Op>, id: UnitId)
    requires WellFormed(home, d) && Valid(d, ops) && AllAtHome(home, ops)
    ensures Completions(ops, id) > 0 || IsCompleted(d, id) == 1 ==> IsCompleted(Run(d, ops), id) == 1
  {
    if ops != [] {
      var n := |ops| - 1;
      CompletedByThen(home, d, ops[..n], id);
      RunKeeps(home, d, ops[..n]);
      StaysCompleted(home, Run(d, ops[..n]), ops[n], id);
    }
  }

  lemma OneMoreDone(done: seq<Option<Op>>, res: Option<Op>, id: UnitId)
    ensures Completions(Ops(done + [res]), id) == Completions(Ops(done), id)
         + (if res.Some? && res.value.Cmp? && res.value.id == id then 1 else 0)
  {
    OpsAppend(done, res);
    var last := if res.Some? then [res.value] else [];
    CompletionsConcat(Ops(done), last, id);
    if last != [] { assert last[..0] == []; }
  }

  /** The last completion of `id` among the jobs done, with the others before it. */
  lemma {:induction false} LastDone(done: seq<Option<Op>>, id: UnitId) returns (q: nat)
    requires Completions(Ops(done), id) > 0
    ensures DidComplete(done, q, id) && Completions(Ops(done[..q]), id) == Completions(Ops(done), id) - 1
  {
    var n := |done| - 1;
    assert done == done[..n] + [done[n]];
    OneMoreDone(done[..n], done[n], id);
    if DidComplete(done, n, id) {
      q := n;
    } else {
      q := LastDone(done[..n], id);
      assert done[..n][..q] == done[..q];
    }
  }

  lemma {:induction false} DoneIsCounted(done: seq<Option<Op>>, q: nat, id: UnitId)
    requires DidComplete(done, q, id)
    ensures Completions(Ops(done), id) > 0
  {
    var n := |done| - 1;
    assert done == done[..n] + [done[n]];
    OneMoreDone(done[..n], done[n], id);
    if q < n { DoneIsCounted(done[..n], q, id); }
  }

  ghost predicate InLog(log: seq<Batch>, k: nat, q: nat, id: UnitId) {
    k < |log| && DidComplete(log[k].done, q, id)
  }

  lemma OneMoreBatch(log: seq<Batch>, k: nat, id: UnitId)
    requires k < |log|
    ensures Completions(Flatten(log[..k + 1]), id) == Completions(Flatten(log[..k]), id) +
      Completions(Ops(log[k].done), id)
  {
    assert log[..k + 1][..k] == log[..k];
    CompletionsConcat(Flatten(log[..k]), Ops(log[k].done), id);
  }

  /** The last completion of `id` in the log, with the others before it. */
  lemma {:induction false} LastInLog(log: seq<Batch>, m: nat, id: UnitId) returns (k: nat, q: nat)
    requires m <= |log| && Completions(Flatten(log[..m]), id) > 0
    ensures k < m && InLog(log, k, q, id)
    ensures Completions(Flatten(log[..k]), id) + Completions(Ops(log[k].done[..q]), id) ==
      Completions(Flatten(log[..m]), id) - 1
    decreases m
  {
    assert m > 0 by { assert log[..0] == []; }
    OneMoreBatch(log, m - 1, id);
    if Completions(Ops(log[m - 1].done), id) > 0 {
      q := LastDone(log[m - 1].done, id);
      k := m - 1;
    } else {
      k, q := LastInLog(log, m - 1, id);
    }
  }

  lemma {:induction false} CountGrows(log: seq<Batch>, a: nat, b: nat, id: UnitId)
    requires a <= b <= |log|
    ensures Completions(Flatten(log[..a]), id) <= Completions(Flatten(log[..b]), id)
    decreases b
  {
    if a < b {
      CountGrows(log, a, b - 1, id);
      OneMoreBatch(log, b - 1, id);
    }
  }

  lemma TwoInLog(log: seq<Batch>, k1: nat, q1: nat, k2: nat, q2: nat, id: UnitId)
    requires InLog(log, k1, q1, id) && InLog(log, k2, q2, id) && k1 < k2
    ensures Completions(Flatten(log), id) >= 2
  {
    DoneIsCounted(log[k1].done, q1, id);
    DoneIsCounted(log[k2].done, q2, id);
    OneMoreBatch(log, k1, id);
    CountGrows(log, k1 + 1, k2, id);
    OneMoreBatch(log, k2, id);
    CountGrows(log, k2 + 1, |log|, id);
    assert log[..|log|] == log;
  }

  // ---------- When a unit is announced twice ----------

  /** A committed completion: the session and job that did it, its unit read, and its commit. */
  datatype Completion = Completion(session: nat, job: nat, read: nat, commit: nat)

  ghost predicate CompletionIn(run: seq<Sys>, x: Completion, id: UnitId) {
    && x.commit + 1 < |run| && Commit(run[x.commit], run[x.commit + 1], x.session)
    && DidComplete(run[x.commit].sessions[x.session].done, x.job, id)
    && ReadAt(run, x.read, x.commit, x.session, x.job, id)
  }

  /** Two completions committed, and the later one had read its unit before the earlier one's commit. */
  ghost predicate Overlap(run: seq<Sys>, i: nat, id: UnitId, x: Completion, y: Completion) {
    && CompletionIn(run, x, id) && CompletionIn(run, y, id)
    && y.read < x.commit < y.commit < i
  }

  ghost predicate Overlapping(run: seq<Sys>, i: nat, id: UnitId) {
    exists x, y :: Overlap(run, i, id, x, y)
  }

  lemma CommittedRead(run: seq<Sys>, c: nat, n: nat, q: nat, id: UnitId) returns (r: nat)
    requires IsRun(run) && c + 1 < |run| && Commit(run[c], run[c + 1], n)
    requires DidComplete(run[c].sessions[n].done, q, id)
    ensures CompletionIn(run, Completion(n, q, r, c), id)
  {
    r := DoneRead(run, c, n, q, id);
  }

  lemma CompletionOf(run: seq<Sys>, i: nat, k: nat, q: nat, id: UnitId) returns (x: Completion)
    requires IsRun(run) && i < |run| && InLog(run[i].log, k, q, id)
    ensures CompletionIn(run, x, id) && x.commit < i && |run[x.commit].log| == k && x.job == q
    ensures run[x.commit].sessions[x.session].jobs == run[i].log[k].jobs
    ensures run[x.commit].sessions[x.session].done == run[i].log[k].done
  {
    var c, n := CommitOf(run, i, k);
    var r := CommittedRead(run, c, n, q, id);
    x := Completion(n, q, r, c);
  }

  /** What the unit read of a completion saw: the unit was Released in its session's view. */
  lemma ReadSawReleased(run: seq<Sys>, r: nat, j: nat, n: nat, q: nat, id: UnitId)
    requires ReadAt(run, r, j, n, q, id)
    ensures IsCompleted(View(run[r].db, run[r].sessions[n].over), id) == 0
  {
  }

  lemma ReadsOpenFrom(run: seq<Sys>, r: nat, j: nat, n: nat, q: nat, id: UnitId)
    requires ReadAt(run, r, j, n, q, id)
    ensures OpenFrom(run, r, j, n)
  {
    forall t | r <= t <= j ensures n in run[t].sessions { if t > r { assert PastStart(run[t], n, q); } }
  }

  /** The view of a session at home is completed once the stored state is, or its own work is. */
  lemma ViewIsCompleted(home: Home, run: seq<Sys>, r: nat, n: nat, id: UnitId)
    requires IsRunAtHome(home, run, r) && n in run[r].sessions && JobsAtHome(home, run[r].sessions[n].jobs)
    requires IsCompleted(run[r].db, id) == 1 || Completions(Ops(run[r].sessions[n].done), id) > 0
    ensures IsCompleted(View(run[r].db, run[r].sessions[n].over), id) == 1
  {
    Guarantees.RunInv(home, run, r);
    assert ProtocolProof.SessionOk(home, run[r].db, run[r].sessions[n]);
    RunKeeps(home, run[0].db, Flatten(run[r].log));
    CompletedByThen(home, run[r].db, Ops(run[r].sessions[n].done), id);
  }

  lemma LoggedIsCompleted(home: Home, run: seq<Sys>, j: nat, k: nat, q: nat, id: UnitId)
    requires IsRunAtHome(home, run, j) && InLog(run[j].log, k, q, id)
    ensures IsCompleted(run[j].db, id) == 1
  {
    Guarantees.RunInv(home, run, j);
    var log := run[j].log;
    DoneIsCounted(log[k].done, q, id);
    OneMoreBatch(log, k, id);
    CountGrows(log, k + 1, |log|, id);
    assert log[..|log|] == log;
    CompletedByThen(home, run[0].db, Flatten(log), id);
  }

  /** What a session had done when it committed stays in the log. */
  lemma CommitIsLogged(run: seq<Sys>, c: nat, n: nat, j: nat)
    requires IsRun(run) && c < j < |run| && Commit(run[c], run[c + 1], n)
    ensures |run[c].log| < |run[j].log| && run[j].log[|run[c].log|].done == run[c].sessions[n].done
  {
    LogGrows(run, c + 1, j);
    assert run[j].log[|run[c].log|] == run[c + 1].log[|run[c].log|];
  }

  /** The commit of a completion leaves its unit Completed for good. */
  lemma CompletedAfter(home: Home, run: seq<Sys>, c: nat, n: nat, q: nat, id: UnitId, j: nat)
    requires IsRunAtHome(home, run, j) && c < j && Commit(run[c], run[c + 1], n)
    requires DidComplete(run[c].sessions[n].done, q, id)
    ensures IsCompleted(run[j].db, id) == 1
  {
    CommitIsLogged(run, c, n, j);
    LoggedIsCompleted(home, run, j, |run[c].log|, q, id);
  }

  /** No session completes a unit twice: after the first time it would not read it as Released. */
  lemma NotTwiceInOne(home: Home, run: seq<Sys>, i: nat, k: nat, q1: nat, q2: nat, id: UnitId)
    requires IsRunAtHome(home, run, i) && InLog(run[i].log, k, q1, id) && InLog(run[i].log, k, q2, id)
    ensures q1 >= q2
  {
    if q1 < q2 {
      var y := CompletionOf(run, i, k, q2, id);
      ReadsOpenFrom(run, y.read, y.commit, y.session, q2, id);
      SameSession(run, y.read, y.commit, y.session);
      Guarantees.AtHomeUpTo(home, run, y.read, i);
      var done := run[y.read].sessions[y.session].done;
      assert DidComplete(done, q1, id);
      DoneIsCounted(done, q1, id);
      ViewIsCompleted(home, run, y.read, y.session, id);
      ReadSawReleased(run, y.read, y.commit, y.session, q2, id);
    }
  }

  /** The step that reads a unit commits nothing. */
  lemma ReadIsNoCommit(run: seq<Sys>, r: nat, j: nat, n: nat, q: nat, id: UnitId, c: nat, m: nat)
    requires ReadAt(run, r, j, n, q, id) && c + 1 < |run| && Commit(run[c], run[c + 1], m)
    ensures r != c
  {
    assert run[r + 1].sessions[n] != run[r].sessions[n];
  }

  /** A session at home when it commits is the same open session, at home, when it reads the unit. */
  lemma AtHomeWhenReading(home: Home, run: seq<Sys>, r: nat, j: nat, n: nat, q: nat, id: UnitId)
    requires IsRun(run) && ReadAt(run, r, j, n, q, id)
    requires n in run[j].sessions && JobsAtHome(home, run[j].sessions[n].jobs)
    ensures n in run[r].sessions && JobsAtHome(home, run[r].sessions[n].jobs)
  {
    ReadsOpenFrom(run, r, j, n, q, id);
    SameSession(run, r, j, n);
  }

  /** What a session at home read as Released had not been completed. */
  lemma ReadsUncompleted(home: Home, run: seq<Sys>, r: nat, j: nat, n: nat, q: nat, id: UnitId)
    requires IsRunAtHome(home, run, r) && ReadAt(run, r, j, n, q, id)
    requires JobsAtHome(home, run[r].sessions[n].jobs)
    ensures IsCompleted(run[r].db, id) == 0
  {
    if IsCompleted(run[r].db, id) == 1 {
      ViewIsCompleted(home, run, r, n, id);
      ReadSawReleased(run, r, j, n, q, id);
    }
  }

  /** So it read before any commit of a completion. */
  lemma ReadsBeforeCommit(home: Home, run: seq<Sys>, x: Completion, id: UnitId, r: nat)
    requires IsRunAtHome(home, run, r) && IsCompleted(run[r].db, id) == 0 && CompletionIn(run, x, id)
    ensures r <= x.commit
  {
    if x.commit < r { CompletedAfter(home, run, x.commit, x.session, x.job, id, r); }
  }

  /** Of two completions in different batches the later one read its unit before the earlier commit. */
  lemma LaterReadBefore(home: Home, run: seq<Sys>, i: nat, x: Completion, y: Completion, id: UnitId)
    requires IsRunAtHome(home, run, i) && CompletionIn(run, x, id) && CompletionIn(run, y, id)
    requires x.commit < y.commit < i && JobsAtHome(home, run[y.commit].sessions[y.session].jobs)
    ensures y.read < x.commit
  {
    ReadIsNoCommit(run, y.read, y.commit, y.session, y.job, id, x.commit, x.session);
    AtHomeWhenReading(home, run, y.read, y.commit, y.session, y.job, id);
    Guarantees.AtHomeUpTo(home, run, y.read, i);
    ReadsUncompleted(home, run, y.read, y.commit, y.session, y.job, id);
    ReadsBeforeCommit(home, run, x, id, y.read);
  }

  lemma TwoCompletionsOverlap(home: Home, run: seq<Sys>, i: nat, id: UnitId)
    requires IsRunAtHome(home, run, i) && Completions(Flatten(run[i].log), id) > 1
    ensures Overlapping(run, i, id)
  {
    var log := run[i].log;
    assert log[..|log|] == log;
    var k2, q2 := LastInLog(log, |log|, id);
    if Completions(Ops(log[k2].done[..q2]), id) > 0 {
      var q1 := LastDone(log[k2].done[..q2], id);
      NotTwiceInOne(home, run, i, k2, q1, q2, id);
    } else {
      var k1, q1 := LastInLog(log, k2, id);
      var x := CompletionOf(run, i, k1, q1, id);
      var y := CompletionOf(run, i, k2, q2, id);
      if x.commit >= y.commit { LogGrows(run, y.commit, x.commit); }
      assert JobsAtHome(home, log[k2].jobs);
      LaterReadBefore(home, run, i, x, y, id);
      assert Overlap(run, i, id, x, y);
    }
  }

  lemma CommittedInLog(run: seq<Sys>, i: nat, x: Completion, id: UnitId)
    requires IsRun(run) && x.commit < i < |run| && CompletionIn(run, x, id)
    ensures InLog(run[i].log, |run[x.commit].log|, x.job, id) && |run[x.commit].log| < |run[i].log|
  {
    CommitIsLogged(run, x.commit, x.session, i);
  }

  lemma OverlapIsTwo(run: seq<Sys>, i: nat, id: UnitId, x: Completion, y: Completion)
    requires IsRun(run) && i < |run| && Overlap(run, i, id, x, y)
    ensures Completions(Flatten(run[i].log), id) > 1
  {
    CommittedInLog(run, i, x, id);
    CommittedInLog(run, i, y, id);
    CommittedInLog(run, y.commit, x, id);
    TwoInLog(run[i].log, |run[x.commit].log|, x.job, |run[y.commit].log|, y.job, id);
  }

  /**
   A unit is announced complete more than once exactly when two completions of it overlapped: both
   committed, and the later one had read the unit before the earlier one's commit. Without such an
   overlap it is announced once, when it reaches Completed.
   */
  lemma AnnouncedTwiceIff(home: Home, run: seq<Sys>, i: nat, id: UnitId)
    requires IsRunAtHome(home, run, i) && IsCompleted(run[0].db, id) == 0
    ensures Announced(run[i].db.outbox, id) - Announced(run[0].db.outbox, id) > 1 <==> Overlapping(run, i, id)
    ensures !Overlapping(run, i, id) ==>
      Announced(run[i].db.outbox, id) - Announced(run[0].db.outbox, id) == IsCompleted(run[i].db, id)
  {
    Guarantees.RunInv(home, run, i);
    var ops := Flatten(run[i].log);
    EachCompletionIsAnnounced(run[0].db, ops, id);
    AnnouncementsCount(home, run[0].db, ops, id);
    LateMeansCompleted(home, run[0].db, ops, id);
    if Completions(ops, id) > 1 { TwoCompletionsOverlap(home, run, i, id); }
    if x, y :| Overlap(run, i, id, x, y) { OverlapIsTwo(run, i, id, x, y); }
  }
}
