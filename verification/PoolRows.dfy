/** How an aggregate's entry list and the stored entry table represent each other. */
module PoolRows {
  import opened Types
  import opened PoolSpec
  import opened WorkDb

  function Table(es: seq<Entry>): map<UnitId, Row> {
    if es == [] then map[]
    else Table(es[..|es| - 1])[es[|es| - 1].id := Row(es[|es| - 1].cpt, es[|es| - 1].stage)]
  }

  function ToRow(p: Pool): PoolRow {
    PoolRow(p.mode, p.wipLimit, p.alarm, p.version, Table(p.entries))
  }

  /** A read of `m`: each row once, by CPT, in any order the CPTs allow. */
  ghost predicate IsReading(m: map<UnitId, Row>, es: seq<Entry>) {
    && Distinct(es)
    && Table(es) == m
    && forall i, j :: 0 <= i < j < |es| ==> es[i].cpt <= es[j].cpt
  }

  lemma {:induction false} TableKeys(es: seq<Entry>, id: UnitId)
    ensures id in Table(es) <==> HasId(es, id)
  {
    if es != [] {
      var n := |es| - 1;
      TableKeys(es[..n], id);
      if HasId(es, id) {
        var i :| 0 <= i < |es| && es[i].id == id;
        assert i < n ==> es[..n][i].id == id;
      }
      if HasId(es[..n], id) {
        var i :| 0 <= i < n && es[..n][i].id == id;
        assert es[i].id == id;
      }
      assert es[n].id == id ==> HasId(es, id);
    }
  }

  lemma {:induction false} TableAt(es: seq<Entry>, i: nat)
    requires Distinct(es) && i < |es|
    ensures es[i].id in Table(es) && Table(es)[es[i].id] == Row(es[i].cpt, es[i].stage)
  {
    if i < |es| - 1 {
      assert es[i] == es[..|es| - 1][i];
      TableAt(es[..|es| - 1], i);
    }
  }

  lemma {:induction false} TableUpdate(es: seq<Entry>, i: nat, st: Stage)
    requires Distinct(es) && i < |es|
    ensures Table(es[i := es[i].(stage := st)]) == Table(es)[es[i].id := Row(es[i].cpt, st)]
    ensures Distinct(es[i := es[i].(stage := st)])
  {
    var n := |es| - 1;
    var e := es[i].(stage := st);
    if i == n {
      assert es[i := e][..n] == es[..n];
    } else {
      assert es[i := e][..n] == es[..n][i := e];
      TableUpdate(es[..n], i, st);
    }
  }

  /** Encoding an entry list and reading it back keeps every entry, up to order. */
  lemma ReadingRoundTrip(es: seq<Entry>, back: seq<Entry>)
    requires Distinct(es) && IsReading(Table(es), back)
    ensures multiset(back) == multiset(es)
  {
    forall e ensures multiset(back)[e] == multiset(es)[e] {
      Occurs(es, e);
      Occurs(back, e);
    }
  }

  lemma {:induction false} Occurs(es: seq<Entry>, e: Entry)
    requires Distinct(es)
    ensures multiset(es)[e] == if e.id in Table(es) && Table(es)[e.id] == Row(e.cpt, e.stage) then 1 else 0
  {
    if es != [] {
      var n := |es| - 1;
      Occurs(es[..n], e);
      TableKeys(es[..n], es[n].id);
      assert es == es[..n] + [es[n]];
    }
  }

  lemma {:induction false} CountIsWip(es: seq<Entry>)
    requires Distinct(es)
    ensures Count(es, Released) == Wip(Table(es))
  {
    if es != [] {
      var n := |es| - 1;
      CountIsWip(es[..n]);
      TableKeys(es[..n], es[n].id);
      WipUpdate(Table(es[..n]), es[n].id, Row(es[n].cpt, es[n].stage));
    } else {
      assert Outstanding(Table(es)) == {};
    }
  }

  // ---------- The aggregate's operations, seen on the table ----------

  lemma EnqueueOnTable(p: Pool, id: UnitId, cpt: Time)
    requires Distinct(p.entries)
    ensures Enqueue(p, id, cpt).Ok? <==> id !in Table(p.entries)
    ensures Enqueue(p, id, cpt).Ok? ==>
      var q := Enqueue(p, id, cpt).value;
      Distinct(q.entries) && ToRow(q) == ToRow(p).(entries := Table(p.entries)[id := Row(cpt, Pending)])
  {
    TableKeys(p.entries, id);
    if Enqueue(p, id, cpt).Ok? {
      var q := Enqueue(p, id, cpt).value;
      assert q.entries[..|q.entries| - 1] == p.entries;
    }
  }

  ghost predicate RowIs(es: seq<Entry>, i: nat, id: UnitId)
    requires i < |es| && id in Table(es)
  {
    es[i].id == id && Table(es)[id] == Row(es[i].cpt, es[i].stage)
  }

  lemma ReleaseNextOnTable(p: Pool)
    requires Distinct(p.entries)
    ensures ReleaseNext(p).Ok? ==>
      var (id, q) := ReleaseNext(p).value;
      && CanRelease(ToRow(p), id) && Distinct(q.entries)
      && ToRow(q) == StageIn(ToRow(p), id, Released)
    ensures ReleaseNext(p) == Err(EmptyPool) <==> forall id :: id in Table(p.entries) ==>
      Table(p.entries)[id].stage != Pending
    ensures ReleaseNext(p) == Err(WipLimitReached) ==> p.mode == ReleaseFed && Wip(Table(p.entries)) >= p.wipLimit
  {
    var b := NextPending(p.entries);
    CountIsWip(p.entries);
    forall id | id in Table(p.entries)
      ensures exists i :: 0 <= i < |p.entries| && RowIs(p.entries, i, id)
    {
      TableKeys(p.entries, id);
      var i :| 0 <= i < |p.entries| && p.entries[i].id == id;
      TableAt(p.entries, i);
      assert RowIs(p.entries, i, id);
    }
    if b != -1 {
      TableAt(p.entries, b);
      TableUpdate(p.entries, b, Released);
    }
  }

  lemma ReconcileOnTable(p: Pool, id: UnitId, unitReleased: bool, unitCompleted: bool)
    requires Distinct(p.entries)
    ensures Reconcile(p, id, unitReleased, unitCompleted).Ok? <==> id in Table(p.entries)
    ensures Reconcile(p, id, unitReleased, unitCompleted).Ok? ==>
      var q := Reconcile(p, id, unitReleased, unitCompleted).value;
      && Distinct(q.entries) && id in Table(p.entries)
      && ToRow(q) == StageIn(ToRow(p), id, Reconciled(Table(p.entries)[id].stage, unitReleased, unitCompleted))
  {
    TableKeys(p.entries, id);
    var i := IndexOf(p.entries, id);
    if i < |p.entries| {
      TableAt(p.entries, i);
      TableUpdate(p.entries, i, Reconciled(p.entries[i].stage, unitReleased, unitCompleted));
    }
  }
}
