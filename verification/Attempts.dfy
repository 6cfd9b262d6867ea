/** When, in a run, a session committed what is in the log, and when it read what it acted on. */
module Attempts {
  import opened Types
  import opened WorkDb
  import opened Protocol
  import opened Sessions
  import PoolRuns

  /** Session `n` is the same open session at every point from `r` to `j`. */
  ghost predicate OpenFrom(run: seq<Sys>, r: nat, j: nat, n: nat)
    requires r <= j < |run|
  {
    forall t :: r <= t <= j ==> n in run[t].sessions
  }

  lemma StepsAre(run: seq<Sys>, i: nat)
    requires IsRun(run) && i + 1 < |run|
    ensures Next(run[i], run[i + 1])
  {
  }

  /** An open session was opened by the last step, did a statement in it, or is as it was. */
  lemma SessionStep(s: Sys, t: Sys, n: nat)
    requires Next(s, t) && n in t.sessions
    ensures n !in s.sessions ==> t.sessions[n].done == [] && t.sessions[n].phase == Start
    ensures n in s.sessions && t.sessions[n] != s.sessions[n] ==>
      t.db == s.db && Local(View(s.db, s.sessions[n].over), s.sessions[n], t.sessions[n])
  {
    var m: nat :| StepOf(s, t, m);
  }

  /** A session goes on with its jobs, keeps what it has done, and stays the session it is. */
  lemma SessionGoesOn(s: Sys, t: Sys, n: nat)
    requires Next(s, t) && n in s.sessions && n in t.sessions
    ensures t.sessions[n].jobs == s.sessions[n].jobs && t.sessions[n].event == s.sessions[n].event
    ensures s.sessions[n].done <= t.sessions[n].done
  {
    SessionStep(s, t, n);
    if t.sessions[n] != s.sessions[n] { LocalGoesOn(View(s.db, s.sessions[n].over), s.sessions[n], t.sessions[n]); }
  }

  lemma LocalGoesOn(v: Db, a: Session, b: Session)
    requires Local(v, a, b)
    ensures b.jobs == a.jobs && b.event == a.event && a.done <= b.done
  {
  }

  ghost predicate SessionKept(s: Sys, t: Sys, n: nat) {
    && n in s.sessions && n in t.sessions
    && t.sessions[n].jobs == s.sessions[n].jobs && s.sessions[n].done <= t.sessions[n].done
  }

  lemma RunGoesOn(run: seq<Sys>, i: nat, n: nat)
    requires IsRun(run) && i + 1 < |run| && n in run[i].sessions && n in run[i + 1].sessions
    ensures SessionKept(run[i], run[i + 1], n)
  {
    SessionGoesOn(run[i], run[i + 1], n);
  }

  lemma {:induction false} KeptChain(run: seq<Sys>, r: nat, j: nat, n: nat)
    requires r <= j < |run| && n in run[r].sessions && forall k :: r <= k < j ==> SessionKept(run[k], run[k + 1], n)
    ensures SessionKept(run[r], run[j], n)
  {
    if r < j {
      KeptChain(run, r, j - 1, n);
      assert SessionKept(run[j - 1], run[(j - 1) + 1], n);
    }
  }

  lemma SameSession(run: seq<Sys>, r: nat, j: nat, n: nat)
    requires IsRun(run) && r <= j < |run| && OpenFrom(run, r, j, n)
    ensures SessionKept(run[r], run[j], n)
  {
    forall k | r <= k < j ensures SessionKept(run[k], run[k + 1], n) {
      assert n in run[k].sessions && n in run[k + 1].sessions;
      RunGoesOn(run, k, n);
    }
    KeptChain(run, r, j, n);
  }

  /** A step leaves the log as it is, or is a commit. */
  lemma LogStep(run: seq<Sys>, i: nat) returns (n: nat)
    requires IsRun(run) && i + 1 < |run|
    ensures run[i + 1].log == run[i].log || Commit(run[i], run[i + 1], n)
    ensures |run[i + 1].log| <= |run[i].log| + 1 && run[i].log <= run[i + 1].log
  {
    n :| StepOf(run[i], run[i + 1], n);
  }

  /** The commit that put batch `k` in the log. */
  lemma {:induction false} CommitOf(run: seq<Sys>, i: nat, k: nat) returns (c: nat, n: nat)
    requires IsRun(run) && i < |run| && k < |run[i].log|
    ensures c < i && Commit(run[c], run[c + 1], n) && |run[c].log| == k
    ensures var a := run[c].sessions[n]; run[i].log[k] == Batch(a.event, a.jobs, a.done, a.saves)
    decreases i
  {
    var m := LogStep(run, i - 1);
    if k < |run[i - 1].log| {
      c, n := CommitOf(run, i - 1, k);
    } else {
      c, n := i - 1, m;
    }
  }

  lemma {:induction false} LogGrows(run: seq<Sys>, i: nat, j: nat)
    requires IsRun(run) && i <= j < |run|
    ensures run[i].log <= run[j].log
  {
    if i < j {
      LogGrows(run, i, j - 1);
      var n := LogStep(run, j - 1);
    }
  }

  // ---------- The unit read behind a completion ----------

  /** Session `n` is past its start of job `q`: working on it, or done with it. */
  ghost predicate PastStart(s: Sys, n: nat, q: nat) {
    && n in s.sessions
    && (|s.sessions[n].done| > q || (|s.sessions[n].done| == q && s.sessions[n].phase != Start))
  }

  /** At step `r` session `n` read unit `id` for its job `q`, and until `j` did not start that job over. */
  ghost predicate ReadAt(run: seq<Sys>, r: nat, j: nat, n: nat, q: nat, id: UnitId) {
    && r < j < |run| && n in run[r].sessions && n in run[r + 1].sessions
    && |run[r].sessions[n].done| == q < |run[r].sessions[n].jobs|
    && JobOf(run[r].sessions[n]).Completing? && JobOf(run[r].sessions[n]).id == id
    && ReadUnit(View(run[r].db, run[r].sessions[n].over), run[r].sessions[n], run[r + 1].sessions[n])
    && forall t :: r < t <= j ==> PastStart(run[t], n, q)
  }

  lemma ReadAtLonger(run: seq<Sys>, r: nat, j: nat, n: nat, q: nat, id: UnitId)
    requires ReadAt(run, r, j, n, q, id) && j + 1 < |run| && PastStart(run[j + 1], n, q)
    ensures ReadAt(run, r, j + 1, n, q, id)
  {
  }

  /** What a completing session does between its unit read and its save. */
  lemma CompletingStep(v: Db, a: Session, b: Session, id: UnitId)
    requires Local(v, a, b) && |b.done| < |b.jobs| && b.jobs[|b.done|].Completing? && b.phase != Start
    requires b.jobs[|b.done|].id == id
    ensures b.done == a.done && b.jobs == a.jobs
    ensures ReadUnit(v, a, b) || a.phase != Start
  {
  }

  /** Session `n` is in the middle of completing `id`. */
  ghost predicate Underway(s: Sys, n: nat, id: UnitId) {
    && n in s.sessions && s.sessions[n].phase != Start
    && var a := s.sessions[n];
    && |a.done| < |a.jobs| && JobOf(a).Completing? && JobOf(a).id == id
  }

  lemma NotAtFirst(run: seq<Sys>, n: nat)
    requires IsRun(run)
    ensures n !in run[0].sessions
  {
  }

  /** Such a session has just read the unit, or was already under way with the same job. */
  lemma UnderwaySince(run: seq<Sys>, j: nat, n: nat, id: UnitId)
    requires IsRun(run) && j + 1 < |run| && Underway(run[j + 1], n, id)
    ensures n in run[j].sessions && |run[j].sessions[n].done| == |run[j + 1].sessions[n].done|
    ensures Underway(run[j], n, id) || ReadAt(run, j, j + 1, n, |run[j + 1].sessions[n].done|, id)
  {
    StepsAre(run, j);
    var s, t := run[j], run[j + 1];
    SessionStep(s, t, n);
    if t.sessions[n] != s.sessions[n] {
      CompletingStep(View(s.db, s.sessions[n].over), s.sessions[n], t.sessions[n], id);
    }
  }

  /** If session `n` is under way after step k, it was before, or that step was its unit read. */
  ghost predicate Traced(run: seq<Sys>, k: nat, n: nat, id: UnitId)
    requires k + 1 < |run|
  {
    Underway(run[k + 1], n, id) ==>
      && n in run[k].sessions && |run[k].sessions[n].done| == |run[k + 1].sessions[n].done|
      && (Underway(run[k], n, id) || ReadAt(run, k, k + 1, n, |run[k + 1].sessions[n].done|, id))
  }

  lemma {:induction false} TraceBack(run: seq<Sys>, j: nat, n: nat, id: UnitId) returns (r: nat)
    requires j < |run| && Underway(run[j], n, id) && n !in run[0].sessions
    requires forall k :: 0 <= k < j ==> Traced(run, k, n, id)
    ensures ReadAt(run, r, j, n, |run[j].sessions[n].done|, id)
    decreases j
  {
    assert Traced(run, j - 1, n, id);
    if Underway(run[j - 1], n, id) {
      r := TraceBack(run, j - 1, n, id);
      assert PastStart(run[j], n, |run[j].sessions[n].done|);
      ReadAtLonger(run, r, j - 1, n, |run[j].sessions[n].done|, id);
    } else {
      r := j - 1;
    }
  }

  /** A completion under way read its unit at some step. */
  lemma AttemptRead(run: seq<Sys>, j: nat, n: nat, id: UnitId) returns (r: nat)
    requires IsRun(run) && j < |run| && Underway(run[j], n, id)
    ensures ReadAt(run, r, j, n, |run[j].sessions[n].done|, id)
  {
    forall k | 0 <= k < j ensures Traced(run, k, n, id) {
      if Underway(run[k + 1], n, id) { UnderwaySince(run, k, n, id); }
    }
    NotAtFirst(run, n);
    r := TraceBack(run, j, n, id);
  }

  ghost predicate DidComplete(done: seq<Option<Op>>, q: nat, id: UnitId) {
    q < |done| && done[q].Some? && done[q].value.Cmp? && done[q].value.id == id
  }

  lemma CompletingSave(v: Db, a: Session, b: Session, q: nat, id: UnitId)
    requires Local(v, a, b) && PhaseSound(v, a) && q >= |a.done| && DidComplete(b.done, q, id)
    ensures |a.done| == q < |a.jobs| && JobOf(a).Completing? && JobOf(a).id == id && a.phase != Start
  {
  }

  /** A completion done was done already one step earlier, or was then under way. */
  lemma DoneSince(run: seq<Sys>, j: nat, n: nat, q: nat, id: UnitId)
    requires IsRun(run) && j + 1 < |run| && n in run[j + 1].sessions && DidComplete(run[j + 1].sessions[n].done, q, id)
    ensures n in run[j].sessions
    ensures DidComplete(run[j].sessions[n].done, q, id) || (Underway(run[j], n, id) && |run[j].sessions[n].done| == q)
  {
    StepsAre(run, j);
    var s, t := run[j], run[j + 1];
    SessionStep(s, t, n);
    if t.sessions[n] != s.sessions[n] {
      SessionGoesOn(s, t, n);
      if q >= |s.sessions[n].done| {
        PoolRuns.RunInv(run, j);
        assert SessionSound(s.db, s.sessions[n]);
        CompletingSave(View(s.db, s.sessions[n].over), s.sessions[n], t.sessions[n], q, id);
      }
    }
  }

  /** A completion done read its unit at some step, and that attempt was never started over. */
  lemma {:induction false} DoneRead(run: seq<Sys>, j: nat, n: nat, q: nat, id: UnitId) returns (r: nat)
    requires IsRun(run) && j < |run| && n in run[j].sessions && DidComplete(run[j].sessions[n].done, q, id)
    ensures ReadAt(run, r, j, n, q, id)
    decreases j
  {
    NotAtFirst(run, n);
    DoneSince(run, j - 1, n, q, id);
    assert PastStart(run[j], n, q);
    if DidComplete(run[j - 1].sessions[n].done, q, id) {
      r := DoneRead(run, j - 1, n, q, id);
    } else {
      r := AttemptRead(run, j - 1, n, id);
    }
    ReadAtLonger(run, r, j - 1, n, q, id);
  }

  // ---------- The units behind a skipped completion ----------

  ghost predicate UnitsKept(d: Db, e: Db) {
    forall id :: id in d.units ==> id in e.units
  }

  lemma StepKeepsUnits(run: seq<Sys>, i: nat)
    requires IsRun(run) && i + 1 < |run|
    ensures UnitsKept(run[i].db, run[i + 1].db)
  {
    StepsAre(run, i);
  }

  lemma {:induction false} UnitsChain(run: seq<Sys>, i: nat, j: nat)
    requires i <= j < |run| && forall k :: i <= k < j ==> UnitsKept(run[k].db, run[k + 1].db)
    ensures UnitsKept(run[i].db, run[j].db)
  {
    if i < j {
      UnitsChain(run, i, j - 1);
      assert UnitsKept(run[j - 1].db, run[(j - 1) + 1].db);
    }
  }

  lemma UnitsStay(run: seq<Sys>, i: nat, j: nat)
    requires IsRun(run) && i <= j < |run|
    ensures UnitsKept(run[i].db, run[j].db)
  {
    forall k | i <= k < j ensures UnitsKept(run[k].db, run[k + 1].db) { StepKeepsUnits(run, k); }
    UnitsChain(run, i, j);
  }

  /** Job `q` was the completion of `id`, and it was skipped. */
  ghost predicate DidSkip(jobs: seq<Job>, done: seq<Option<Op>>, q: nat, id: UnitId) {
    q < |done| && q < |jobs| && jobs[q].Completing? && jobs[q].id == id && done[q] == None
  }

  lemma SkippingStep(v: Db, a: Session, b: Session, q: nat, id: UnitId)
    requires Local(v, a, b) && PhaseSound(v, a) && q >= |a.done| && DidSkip(b.jobs, b.done, q, id)
    ensures id !in v.units
  {
  }

  lemma SkippedSince(run: seq<Sys>, j: nat, n: nat, q: nat, id: UnitId)
    requires IsRun(run) && j + 1 < |run| && n in run[j + 1].sessions
    requires DidSkip(run[j + 1].sessions[n].jobs, run[j + 1].sessions[n].done, q, id)
    ensures n in run[j].sessions
    ensures DidSkip(run[j].sessions[n].jobs, run[j].sessions[n].done, q, id) || id !in run[j].db.units
  {
    StepsAre(run, j);
    var s, t := run[j], run[j + 1];
    SessionStep(s, t, n);
    if t.sessions[n] != s.sessions[n] {
      SessionGoesOn(s, t, n);
      if q >= |s.sessions[n].done| {
        PoolRuns.RunInv(run, j);
        assert SessionSound(s.db, s.sessions[n]);
        SkippingStep(View(s.db, s.sessions[n].over), s.sessions[n], t.sessions[n], q, id);
      }
    }
  }

  lemma {:induction false} SkippedAt(run: seq<Sys>, j: nat, n: nat, q: nat, id: UnitId) returns (t: nat)
    requires IsRun(run) && j < |run| && n in run[j].sessions
    requires DidSkip(run[j].sessions[n].jobs, run[j].sessions[n].done, q, id)
    ensures t < j && OpenFrom(run, t, j, n) && id !in run[t].db.units
    decreases j
  {
    SkippedSince(run, j - 1, n, q, id);
    if id !in run[j - 1].db.units {
      t := j - 1;
    } else {
      t := SkippedAt(run, j - 1, n, q, id);
    }
  }

  /**
   A completion an event's batch skipped was of a unit in no state committed up to the moment,
   within the event's scope, at which it was skipped.
   */
  lemma SkippedWasUnknown(run: seq<Sys>, i: nat, k: nat, q: nat, id: UnitId) returns (t: nat, c: nat, n: nat)
    requires IsRun(run) && i < |run| && k < |run[i].log| && DidSkip(run[i].log[k].jobs, run[i].log[k].done, q, id)
    ensures t < c < i && OpenFrom(run, t, c, n) && Commit(run[c], run[c + 1], n) && |run[c].log| == k
    ensures forall s :: 0 <= s <= t ==> id !in run[s].db.units
  {
    c, n := CommitOf(run, i, k);
    t := SkippedAt(run, c, n, q, id);
    forall s | 0 <= s <= t ensures id !in run[s].db.units { UnitsStay(run, s, t); }
  }
}
