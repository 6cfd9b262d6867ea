/**
 Agreement of pools and units when nothing keeps a work unit id to one path. The duplicate check looks at one
 pool only, and saving a unit overwrites whatever is stored under its id.
 */
module IdReuse {
  import opened Types
  import opened PoolSpec
  import opened WorkDb
  import opened Ledger

  /** The entry names a unit of the same path and stage. */
  ghost predicate EntryAgrees(d: Db, p: PathId, id: UnitId)
    requires p in d.pools && id in d.pools[p].entries
  {
    && id in d.units && d.units[id].id == id && d.units[id].path == p
    && d.units[id].stage == d.pools[p].entries[id].stage
  }

  ghost predicate AllAgree(d: Db) {
    forall p, id :: p in d.pools && id in d.pools[p].entries ==> EntryAgrees(d, p, id)
  }

  /** What the enqueue would have to look up: no other path's pool holds the id. */
  ghost predicate FreshElsewhere(d: Db, unit: Unit) {
    forall p :: p in d.pools && p != unit.path ==> unit.id !in d.pools[p].entries
  }

  /** An enqueue keeps pools and units in agreement exactly when no other pool holds its id. */
  lemma EnqueueAgreesIff(d: Db, unit: Unit, at: Time)
    requires AllAgree(d) && MayEnqueue(d, unit)
    ensures AllAgree(AfterEnqueue(d, unit, at)) <==> FreshElsewhere(d, unit)
  {
    var e := AfterEnqueue(d, unit, at);
    if FreshElsewhere(d, unit) {
      forall p, id | p in e.pools && id in e.pools[p].entries ensures EntryAgrees(e, p, id) {
        if p != unit.path || id != unit.id { assert EntryAgrees(d, p, id); }
      }
    } else {
      var p :| p in d.pools && p != unit.path && unit.id in d.pools[p].entries;
      assert e.pools[p] == d.pools[p];
      assert !EntryAgrees(e, p, unit.id);
    }
  }

  /** While all agree, a release finds nothing to heal. */
  lemma NothingToHeal(d: Db, path: PathId, healed: seq<UnitId>)
    requires AllAgree(d) && path in d.pools && HealOk(d.pools[path], d.units, healed)
    ensures healed == []
  {
    forall id | id in d.pools[path].entries
      ensures id in d.units && d.units[id].stage == d.pools[path].entries[id].stage
    {
      assert EntryAgrees(d, path, id);
    }
    if healed != [] {
      assert healed[|healed| - 1] in healed;
      HealShape(d.pools[path], d.units, healed);
    }
  }

  lemma ReleaseAgrees(d: Db, path: PathId, healed: seq<UnitId>, id: UnitId, at: Time)
    requires AllAgree(d) && MayRelease(d, path, healed, id)
    ensures AllAgree(AfterRelease(d, path, healed, id, at))
  {
    NothingToHeal(d, path, healed);
    var e := AfterRelease(d, path, healed, id, at);
    assert EntryAgrees(d, path, id);
    forall p, j | p in e.pools && j in e.pools[p].entries ensures EntryAgrees(e, p, j) {
      assert EntryAgrees(d, p, j);
    }
  }

  lemma CompletionAgrees(d: Db, id: UnitId, at: Time)
    requires AllAgree(d) && MayComplete(d, id)
    ensures AllAgree(AfterCompletion(d, id, at))
  {
    var e := AfterCompletion(d, id, at);
    forall p, j | p in e.pools && j in e.pools[p].entries ensures EntryAgrees(e, p, j) {
      assert EntryAgrees(d, p, j);
    }
  }

  /** Every enqueue of the run, in its turn, used an id no other path's pool held. */
  ghost predicate NeverReused(d: Db, ops: seq<Op>) {
    ops == [] ||
    (&& NeverReused(d, ops[..|ops| - 1])
     && (ops[|ops| - 1].Enq? ==> FreshElsewhere(Run(d, ops[..|ops| - 1]), ops[|ops| - 1].unit)))
  }

  ghost predicate AlwaysAgrees(d: Db, ops: seq<Op>) {
    AllAgree(Run(d, ops)) && (ops == [] || AlwaysAgrees(d, ops[..|ops| - 1]))
  }

  /** Operations done one after another keep agreement throughout exactly when none enqueues an id on a second path. */
  lemma {:induction false} AgreementIff(d: Db, ops: seq<Op>)
    requires AllAgree(d) && Valid(d, ops)
    ensures AlwaysAgrees(d, ops) <==> NeverReused(d, ops)
  {
    if ops != [] {
      var n := |ops| - 1;
      var e := Run(d, ops[..n]);
      AgreementIff(d, ops[..n]);
      if AllAgree(e) {
        match ops[n]
        case Enq(unit, at) => EnqueueAgreesIff(e, unit, at);
        case Rel(path, healed, id, at) => ReleaseAgrees(e, path, healed, id, at);
        case Cmp(id, at) => CompletionAgrees(e, id, at);
        case Obs(_, _, _) => assert AllAgree(Step(e, ops[n])) by {
          forall p, id | p in e.pools && id in e.pools[p].entries ensures EntryAgrees(Step(e, ops[n]), p, id) {
            assert EntryAgrees(e, p, id);
          }
        }
      }
    }
  }

  function NewUnit(id: UnitId, path: PathId, cpt: Time, reference: string): Unit {
    Unit(id, path, cpt, reference, "", Pending, None, None)
  }

  /** One id on two paths: the second enqueue takes the first pool's unit away. */
  lemma ReuseBreaksAgreement(id: UnitId, p: PathId, q: PathId, cpt: Time, reference: string, at: Time)
    requires p != q
    ensures var u, v := NewUnit(id, p, cpt, reference), NewUnit(id, q, cpt, reference);
      Valid(EMPTY, [Enq(u, at), Enq(v, at)]) && !AllAgree(Run(EMPTY, [Enq(u, at), Enq(v, at)]))
  {
    var u, v := NewUnit(id, p, cpt, reference), NewUnit(id, q, cpt, reference);
    var one, two := [Enq(u, at)], [Enq(u, at), Enq(v, at)];
    assert one[..0] == [] && two[..1] == one;
    assert Run(EMPTY, one) == AfterEnqueue(EMPTY, u, at);
    assert Valid(EMPTY, one) && Valid(EMPTY, two);
    var e := Run(EMPTY, two);
    assert e == AfterEnqueue(AfterEnqueue(EMPTY, u, at), v, at);
    assert p in e.pools && id in e.pools[p].entries && !EntryAgrees(e, p, id);
  }
}
