/**
 Any number of clients of one in-memory pool. Each loads a copy, calls operations on it as it
 likes, and saves it; the repository's lock makes each load and each save one step.
 */
module VersionedSaves {
  import opened PoolSpec
  import opened PoolCalls

  /** A client's private copy: what it loaded, and what it has called on it so far. */
  datatype Copy = Copy(loaded: Pool, calls: seq<Call>)

  datatype Shared = Shared(stored: Pool, copies: map<nat, Copy>, log: seq<seq<Call>>)

  ghost predicate Load(s: Shared, t: Shared, n: nat) {
    n !in s.copies && t == s.(copies := s.copies[n := Copy(s.stored, [])])
  }

  ghost predicate Change(s: Shared, t: Shared, n: nat, call: Call) {
    n in s.copies && t == s.(copies := s.copies[n := s.copies[n].(calls := s.copies[n].calls + [call])])
  }

  /** The save compares the copy's version with the stored one; either way the attempt is over. */
  ghost predicate Save(s: Shared, t: Shared, n: nat) {
    && n in s.copies
    && var c := s.copies[n];
    && (if c.loaded.version == s.stored.version then
          t == Shared(AfterAll(c.loaded, c.calls).(version := c.loaded.version + 1), s.copies - {n}, s.log + [c.calls])
        else t == s.(copies := s.copies - {n}))
  }

  ghost predicate GiveUp(s: Shared, t: Shared, n: nat) {
    n in s.copies && t == s.(copies := s.copies - {n})
  }

  ghost predicate Next(s: Shared, t: Shared) {
    || (exists n :: Load(s, t, n) || Save(s, t, n) || GiveUp(s, t, n))
    || (exists n, call :: Change(s, t, n, call))
  }

  ghost predicate IsRun(run: seq<Shared>) {
    && |run| > 0 && run[0].copies == map[] && run[0].log == [] && Distinct(run[0].stored.entries)
    && forall i :: 0 <= i < |run| - 1 ==> Next(run[i], run[i + 1])
  }

  /** The committed changes applied one after another, each raising the version by one. */
  function Replay(p: Pool, log: seq<seq<Call>>): Pool {
    if log == [] then p
    else
      var q := Replay(p, log[..|log| - 1]);
      AfterAll(q, log[|log| - 1]).(version := q.version + 1)
  }

  ghost predicate Inv(p0: Pool, s: Shared) {
    && s.stored == Replay(p0, s.log)
    && forall n :: n in s.copies ==>
         s.copies[n].loaded.version <= s.stored.version
         && (s.copies[n].loaded.version == s.stored.version ==> s.copies[n].loaded == s.stored)
  }

  lemma NextKeeps(p0: Pool, s: Shared, t: Shared)
    requires Inv(p0, s) && Next(s, t)
    ensures Inv(p0, t) && s.stored.version <= t.stored.version
  {
    if n :| Save(s, t, n) && s.copies[n].loaded.version == s.stored.version {
      assert t.log[..|s.log|] == s.log;
    }
  }

  lemma {:induction false} RunInv(run: seq<Shared>, i: nat)
    requires IsRun(run) && i < |run|
    ensures Inv(run[0].stored, run[i])
  {
    if i > 0 {
      RunInv(run, i - 1);
      assert Next(run[i - 1], run[(i - 1) + 1]);
      NextKeeps(run[0].stored, run[i - 1], run[i]);
    }
  }

  lemma {:induction false} ReplayGrows(p: Pool, log: seq<seq<Call>>)
    requires Distinct(p.entries)
    ensures Replay(p, log).version == p.version + |log|
    ensures Distinct(Replay(p, log).entries) && Grown(p, Replay(p, log).(version := p.version))
  {
    if log != [] {
      var n := |log| - 1;
      ReplayGrows(p, log[..n]);
      var q := Replay(p, log[..n]);
      CallsKeep(q, log[n]);
    }
  }

  /** No lost update: the stored pool at version n is what the n committed changes make of it in turn. */
  lemma NoLostUpdate(run: seq<Shared>, i: nat)
    requires IsRun(run) && i < |run|
    ensures run[i].stored == Replay(run[0].stored, run[i].log)
    ensures run[i].stored.version == run[0].stored.version + |run[i].log|
    ensures Grown(run[0].stored, run[i].stored.(version := run[0].stored.version))
  {
    RunInv(run, i);
    ReplayGrows(run[0].stored, run[i].log);
  }

  /** A save goes through exactly when no other went through since its load. */
  lemma SaveSucceedsIff(run: seq<Shared>, i: nat, j: nat, n: nat)
    requires IsRun(run) && i < j && j + 1 < |run|
    requires Load(run[i], run[i + 1], n) && Save(run[j], run[j + 1], n)
    requires forall k :: i < k <= j ==> n in run[k].copies && run[k].copies[n].loaded == run[i].stored
    ensures run[j + 1].log != run[j].log <==> |run[j].log| == |run[i].log|
  {
    NoLostUpdate(run, i);
    NoLostUpdate(run, j);
    assert n in run[j].copies && run[j].copies[n].loaded == run[i].stored;
  }
}
