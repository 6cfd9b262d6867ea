/**
 What every run of the concurrent system guarantees as long as each work unit id is used on one
 path: `home` gives the path of each id.
 */
module Guarantees {
  import opened Types
  import opened PoolSpec
  import opened WorkDb
  import opened PoolRows
  import opened Ledger
  import opened Protocol
  import opened Sessions
  import opened ProtocolProof
  import PoolRuns

  // ---------- The system invariant ----------

  ghost predicate Ledgered(home: Home, d0: Db, s: Sys) {
    var ops := Flatten(s.log);
    WellFormed(home, d0) && Valid(d0, ops) && AllAtHome(home, ops) && s.db == Run(d0, ops)
  }

  /** The sessions that keep ids at home are in order; a commit of any other would leave the run. */
  ghost predicate SessionsOk(home: Home, s: Sys) {
    forall n :: n in s.sessions && JobsAtHome(home, s.sessions[n].jobs) ==> SessionOk(home, s.db, s.sessions[n])
  }

  ghost predicate Inv(home: Home, s0: Sys, s: Sys) {
    Ledgered(home, s0.db, s) && SessionsOk(home, s)
  }

  lemma FlattenCommit(s: Sys, t: Sys, n: nat)
    requires Commit(s, t, n)
    ensures Flatten(t.log) == Flatten(s.log) + Ops(s.sessions[n].done)
  {
    assert t.log[..|t.log| - 1] == s.log;
  }

  lemma CommitLedger(home: Home, d0: Db, s: Sys, t: Sys, n: nat)
    requires Ledgered(home, d0, s) && n in s.sessions
    requires OverlayOk(home, s.db, s.sessions[n].over, Ops(s.sessions[n].done))
    requires Commit(s, t, n)
    ensures Ledgered(home, d0, t) && WellFormed(home, s.db) && Advances(home, s.db, t.db)
  {
    var ops := Ops(s.sessions[n].done);
    FlattenCommit(s, t, n);
    RunConcat(d0, Flatten(s.log), ops);
    RunKeeps(home, d0, Flatten(s.log));
    RunKeeps(home, s.db, ops);
  }

  lemma AdvancesReflexive(home: Home, d: Db)
    ensures Advances(home, d, d)
  {
    assert forall p :: p in d.pools ==> SamePath(home, d, d, p);
  }

  lemma CommitInv(home: Home, s0: Sys, s: Sys, t: Sys, n: nat)
    requires Inv(home, s0, s) && PoolRuns.SessionsSound(s) && Commit(s, t, n) && LogAtHome(home, t.log)
    ensures Inv(home, s0, t) && Advances(home, s.db, t.db)
  {
    var a := s.sessions[n];
    assert JobsAtHome(home, a.jobs) by { assert t.log[|s.log|].jobs == a.jobs; }
    assert SessionOk(home, s.db, a);
    CommitLedger(home, s0.db, s, t, n);
    forall m | m in t.sessions && JobsAtHome(home, t.sessions[m].jobs) ensures SessionOk(home, t.db, t.sessions[m]) {
      assert t.sessions[m] == s.sessions[m] && SessionOk(home, s.db, s.sessions[m]);
      CommitStable(home, s.db, a, s.sessions[m]);
    }
  }

  lemma ActSession(home: Home, d: Db, a: Session, b: Session)
    requires WellFormed(home, d) && SessionSound(d, a) && Local(View(d, a.over), a, b)
    requires JobsAtHome(home, a.jobs) ==> SessionOk(home, d, a)
    ensures JobsAtHome(home, b.jobs) ==> SessionOk(home, d, b)
  {
    Sessions.ActKeeps(d, a, b);
    if JobsAtHome(home, a.jobs) { ProtocolProof.ActKeeps(home, d, a, b); }
  }

  /** A step that commits nothing and changes or opens at most session `n`. */
  lemma QuietInv(home: Home, s0: Sys, s: Sys, t: Sys, n: nat)
    requires Inv(home, s0, s) && t.db == s.db && t.log == s.log && t.sessions - {n} == s.sessions - {n}
    requires n in t.sessions && JobsAtHome(home, t.sessions[n].jobs) ==> SessionOk(home, t.db, t.sessions[n])
    ensures Inv(home, s0, t)
  {
    forall m | m in t.sessions && JobsAtHome(home, t.sessions[m].jobs)
      ensures SessionOk(home, t.db, t.sessions[m])
    {
      if m != n {
        assert m in t.sessions - {n};
        assert m in s.sessions && t.sessions[m] == (t.sessions - {n})[m] == (s.sessions - {n})[m] == s.sessions[m];
      }
    }
  }

  lemma OpenedOk(home: Home, d: Db, a: Session)
    requires a == Session(a.event, a.jobs, [], [], Start, NOTHING) && JobsAtHome(home, a.jobs)
    ensures SessionOk(home, d, a)
  {
    assert View(d, NOTHING) == d;
  }

  lemma OpenInv(home: Home, s0: Sys, s: Sys, t: Sys, n: nat)
    requires Inv(home, s0, s) && Open(s, t, n)
    ensures Inv(home, s0, t)
  {
    if JobsAtHome(home, t.sessions[n].jobs) { OpenedOk(home, t.db, t.sessions[n]); }
    assert t.sessions - {n} == s.sessions - {n};
    QuietInv(home, s0, s, t, n);
  }

  lemma LedgerIsWellFormed(home: Home, d0: Db, s: Sys)
    requires Ledgered(home, d0, s)
    ensures WellFormed(home, s.db)
  {
    RunKeeps(home, d0, Flatten(s.log));
  }

  lemma ActIsQuiet(s: Sys, t: Sys, n: nat)
    requires Act(s, t, n)
    ensures n in s.sessions && n in t.sessions && Local(View(s.db, s.sessions[n].over), s.sessions[n], t.sessions[n])
    ensures t.db == s.db && t.log == s.log && t.sessions - {n} == s.sessions - {n}
  {
  }

  lemma ActInv(home: Home, s0: Sys, s: Sys, t: Sys, n: nat)
    requires Inv(home, s0, s) && WellFormed(home, s.db) && PoolRuns.SessionsSound(s) && Act(s, t, n)
    ensures Inv(home, s0, t)
  {
    ActIsQuiet(s, t, n);
    assert JobsAtHome(home, t.sessions[n].jobs) ==> SessionOk(home, t.db, t.sessions[n]) by {
      ActSession(home, s.db, s.sessions[n], t.sessions[n]);
    }
    QuietInv(home, s0, s, t, n);
  }

  lemma VanishInv(home: Home, s0: Sys, s: Sys, t: Sys, n: nat)
    requires Inv(home, s0, s) && Vanish(s, t, n)
    ensures Inv(home, s0, t)
  {
    assert t.sessions - {n} == s.sessions - {n};
    QuietInv(home, s0, s, t, n);
  }

  lemma NextKeeps(home: Home, s0: Sys, s: Sys, t: Sys)
    requires Inv(home, s0, s) && PoolRuns.SessionsSound(s) && Next(s, t) && LogAtHome(home, t.log)
    ensures Inv(home, s0, t) && Advances(home, s.db, t.db)
  {
    var n: nat :| StepOf(s, t, n);
    AdvancesReflexive(home, s.db);
    LedgerIsWellFormed(home, s0.db, s);
    if Commit(s, t, n) { CommitInv(home, s0, s, t, n); }
    else if Open(s, t, n) { OpenInv(home, s0, s, t, n); }
    else if Act(s, t, n) { ActInv(home, s0, s, t, n); }
    else { VanishInv(home, s0, s, t, n); }
  }

  lemma LogGrows(s: Sys, t: Sys)
    requires Next(s, t)
    ensures s.log <= t.log
  {
  }

  lemma AtHomeBefore(home: Home, run: seq<Sys>, i: nat)
    requires IsRunAtHome(home, run, i + 1)
    ensures IsRunAtHome(home, run, i)
  {
    LogGrows(run[i], run[i + 1]);
    forall k | 0 <= k < |run[i].log| ensures JobsAtHome(home, run[i].log[k].jobs) {
      assert run[i].log[k] == run[i + 1].log[k];
    }
  }

  lemma {:induction false} RunInv(home: Home, run: seq<Sys>, i: nat)
    requires IsRunAtHome(home, run, i)
    ensures Inv(home, run[0], run[i])
  {
    if i == 0 {
      assert Flatten(run[0].log) == [];
    } else {
      AtHomeBefore(home, run, i - 1);
      RunInv(home, run, i - 1);
      PoolRuns.RunInv(run, i - 1);
      assert Next(run[i - 1], run[(i - 1) + 1]);
      NextKeeps(home, run[0], run[i - 1], run[i]);
    }
  }

  // ---------- Theorems ----------

  /**
   No lost update: at any point of any run the stored state is what the committed operations,
   each allowed in its turn, make of the initial state one after another.
   */
  lemma Serializable(home: Home, run: seq<Sys>, i: nat)
    requires IsRunAtHome(home, run, i)
    ensures Valid(run[0].db, Flatten(run[i].log))
    ensures run[i].db == Run(run[0].db, Flatten(run[i].log))
  {
    RunInv(home, run, i);
  }

  /** Every committed operation of a path raised its version by one, every enqueue its size. */
  lemma EveryCommitCounts(home: Home, run: seq<Sys>, i: nat, p: PathId)
    requires IsRunAtHome(home, run, i)
    ensures VersionOf(run[i].db, p) == VersionOf(run[0].db, p) + Rewrites(home, Flatten(run[i].log), p)
    ensures SizeOf(run[i].db, p) == SizeOf(run[0].db, p) + Enqueues(Flatten(run[i].log), p)
  {
    RunInv(home, run, i);
    VersionCounts(home, run[0].db, Flatten(run[i].log), p);
  }

  /** Each entry has its unit and is never ahead of it; if all agreed at first, all agree. */
  lemma PoolAndUnitAgree(home: Home, run: seq<Sys>, i: nat, p: PathId, id: UnitId)
    requires IsRunAtHome(home, run, i) && p in run[i].db.pools && id in run[i].db.pools[p].entries
    ensures id in run[i].db.units && run[i].db.units[id].path == p
    ensures run[i].db.pools[p].entries[id].stage.Rank() <= run[i].db.units[id].stage.Rank()
    ensures InSync(run[0].db) ==> run[i].db.pools[p].entries[id].stage == run[i].db.units[id].stage
  {
    RunInv(home, run, i);
    RunKeeps(home, run[0].db, Flatten(run[i].log));
    assert EntryFiled(home, run[i].db, p, id);
    assert UnitFiled(home, run[i].db, id);
  }

  lemma StepAdvances(home: Home, run: seq<Sys>, i: nat)
    requires IsRunAtHome(home, run, i + 1)
    ensures Advances(home, run[i].db, run[i + 1].db)
  {
    AtHomeBefore(home, run, i);
    RunInv(home, run, i);
    PoolRuns.RunInv(run, i);
    NextKeeps(home, run[0], run[i], run[i + 1]);
  }

  lemma {:induction false} AtHomeUpTo(home: Home, run: seq<Sys>, i: nat, j: nat)
    requires IsRunAtHome(home, run, j) && i <= j
    ensures IsRunAtHome(home, run, i)
  {
    if i < j {
      AtHomeBefore(home, run, j - 1);
      AtHomeUpTo(home, run, i, j - 1);
    }
  }

  lemma {:induction false} ChainAdvances(home: Home, run: seq<Sys>, i: nat, j: nat)
    requires i <= j < |run|
    requires forall k :: i <= k < j ==> Advances(home, run[k].db, run[k + 1].db)
    ensures Advances(home, run[i].db, run[j].db)
  {
    if i == j {
      AdvancesReflexive(home, run[i].db);
    } else {
      ChainAdvances(home, run, i, j - 1);
      assert Advances(home, run[j - 1].db, run[(j - 1) + 1].db);
      AdvancesTransitive(home, run[i].db, run[j - 1].db, run[j].db);
    }
  }

  /** Between any two points of a run no unit, entry or version moves backwards. */
  lemma NothingMovesBack(home: Home, run: seq<Sys>, i: nat, j: nat)
    requires IsRunAtHome(home, run, j) && i <= j
    ensures Advances(home, run[i].db, run[j].db)
  {
    forall k | i <= k < j ensures Advances(home, run[k].db, run[k + 1].db) {
      AtHomeUpTo(home, run, k + 1, j);
      StepAdvances(home, run, k);
    }
    ChainAdvances(home, run, i, j);
  }

  /** At most one WorkReleased is ever committed for a unit, and one is as soon as it leaves Pending. */
  lemma AtMostOnceHandout(home: Home, run: seq<Sys>, i: nat, id: UnitId)
    requires IsRunAtHome(home, run, i)
    ensures Handouts(run[i].db.outbox, id) - Handouts(run[0].db.outbox, id)
         == HandedOut(run[i].db, id) - HandedOut(run[0].db, id)
    ensures run[0].db == EMPTY ==>
      Handouts(run[i].db.outbox, id) == (if id in run[i].db.units && run[i].db.units[id].stage != Pending then 1 else 0)
  {
    RunInv(home, run, i);
    HandoutConservation(home, run[0].db, Flatten(run[i].log), id);
  }

  /**
   A save whose guard passes not only saw the stored pool: the units it healed by, and the unit it
   releases, are the stored ones too, so the operation it does is allowed at that very moment.
   */
  lemma SaveSawStoredUnits(home: Home, run: seq<Sys>, i: nat, n: nat)
    requires IsRunAtHome(home, run, i) && n in run[i].sessions && JobsAtHome(home, run[i].sessions[n].jobs)
    requires PoolRuns.Saving(run[i].sessions[n])
    requires VersionMatches(View(run[i].db, run[i].sessions[n].over), run[i].sessions[n].phase.pool)
    ensures var v, ph := View(run[i].db, run[i].sessions[n].over), run[i].sessions[n].phase;
      ph.pool.path in v.pools ==>
        var row := v.pools[ph.pool.path];
        && HealOk(row, v.units, ph.healed)
        && (ph.PoolRead? ==> ToRow(ph.pool) == Heal(row, v.units, ph.healed))
        && (ph.Chosen? ==>
              && MayRelease(v, ph.pool.path, ph.healed, ph.unit.id)
              && v.units[ph.unit.id] == ph.unit
              && ToRow(ph.pool) == StageIn(Heal(row, v.units, ph.healed), ph.unit.id, Released))
  {
    RunInv(home, run, i);
    PoolRuns.RunInv(run, i);
    assert SessionSound(run[i].db, run[i].sessions[n]);
    assert SessionOk(home, run[i].db, run[i].sessions[n]);
  }
}
