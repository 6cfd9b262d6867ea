/** Building concrete runs of the concurrent system, one step after another. */
module RunBuilding {
  import opened Types
  import opened WorkDb
  import opened Protocol

  /** Session `k` is in state `a`. */
  function Now(d: Db, k: nat, a: Session, others: map<nat, Session>, log: seq<Batch>): Sys {
    Sys(d, {}, others[k := a], log)
  }

  /** These sessions hold no rows. */
  ghost predicate Idle(others: map<nat, Session>) {
    forall m :: m in others ==> others[m].over == NOTHING && others[m].event == None
  }

  function Begun(jobs: seq<Job>): Session {
    Session(None, jobs, [], [], Start, NOTHING)
  }

  ghost predicate Steps(run: seq<Sys>) {
    forall i :: 0 <= i < |run| - 1 ==> Next(run[i], run[i + 1])
  }

  ghost predicate Reaches(run: seq<Sys>, s: Sys) {
    |run| > 0 && Steps(run) && run[|run| - 1] == s
  }

  lemma Then(run: seq<Sys>, s: Sys, t: Sys) returns (more: seq<Sys>)
    requires Reaches(run, s) && Next(s, t)
    ensures Reaches(more, t) && |more| == |run| + 1 && run <= more
  {
    more := run + [t];
    forall i | 0 <= i < |more| - 1 ensures Next(more[i], more[i + 1]) {
      if i < |run| - 1 { assert Next(run[i], run[i + 1]); }
    }
  }

  lemma ThenOpens(run: seq<Sys>, d: Db, k: nat, jobs: seq<Job>, others: map<nat, Session>, log: seq<Batch>)
      returns (more: seq<Sys>)
    requires Reaches(run, Sys(d, {}, others, log)) && k !in others && Idle(others) && JobsFresh(jobs)
    ensures Reaches(more, Now(d, k, Begun(jobs), others, log)) && |more| == |run| + 1 && run <= more
  {
    var s, t := Sys(d, {}, others, log), Now(d, k, Begun(jobs), others, log);
    assert Open(s, t, k);
    assert StepOf(s, t, k);
    more := Then(run, s, t);
  }

  lemma ActNow(d: Db, k: nat, a: Session, b: Session, others: map<nat, Session>, log: seq<Batch>)
    requires k !in others && Idle(others) && Local(View(d, a.over), a, b) && b.event == None
    ensures Act(Now(d, k, a, others, log), Now(d, k, b, others, log), k)
  {
    var s, t := Now(d, k, a, others, log), Now(d, k, b, others, log);
    assert s.sessions[k := b] == t.sessions;
    assert s.sessions[k] == a && t.sessions[k] == b;
    forall m | m in s.sessions && m != k ensures Disjoint(b, s.sessions[m]) && Disjoint(s.sessions[m], b) {
      assert s.sessions[m] == others[m];
    }
  }

  lemma ThenActs(run: seq<Sys>, d: Db, k: nat, a: Session, b: Session, others: map<nat, Session>, log: seq<Batch>)
      returns (more: seq<Sys>)
    requires Reaches(run, Now(d, k, a, others, log)) && k !in others && Idle(others)
    requires Local(View(d, a.over), a, b) && b.event == None
    ensures Reaches(more, Now(d, k, b, others, log)) && |more| == |run| + 1 && run <= more
  {
    var s, t := Now(d, k, a, others, log), Now(d, k, b, others, log);
    assert StepOf(s, t, k) by { ActNow(d, k, a, b, others, log); }
    more := Then(run, s, t);
  }

  lemma ThenCommits(run: seq<Sys>, d: Db, e: Db, k: nat, a: Session, others: map<nat, Session>, log: seq<Batch>)
      returns (more: seq<Sys>)
    requires Reaches(run, Now(d, k, a, others, log)) && k !in others
    requires |a.done| == |a.jobs| && a.event == None && e == View(d, a.over)
    ensures Reaches(more, Sys(e, {}, others, log + [Batch(None, a.jobs, a.done, a.saves)]))
    ensures |more| == |run| + 1 && run <= more
  {
    var s, t := Now(d, k, a, others, log), Sys(e, {}, others, log + [Batch(None, a.jobs, a.done, a.saves)]);
    assert s.sessions - {k} == others;
    assert Commit(s, t, k);
    assert StepOf(s, t, k);
    more := Then(run, s, t);
  }
}
