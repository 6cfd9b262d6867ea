/**
 Where each id is used on one path, the concurrent system refines the sequential specification:
 what a session adds to what it is sound about, and how its statements keep it.
 */
module ProtocolProof {
  import opened Types
  import opened PoolSpec
  import opened WorkDb
  import opened PoolRows
  import opened Ledger
  import opened RowHistory
  import opened Protocol
  import opened Sessions

  // ---------- An operation depends on, and writes, its own path only ----------

  ghost predicate SameView(d: Db, e: Db, sku: Sku) {
    (sku in d.views <==> sku in e.views) && (sku in d.views ==> d.views[sku] == e.views[sku])
  }

  ghost predicate AgreeOn(home: Home, d: Db, e: Db, ps: set<PathId>, ss: set<Sku>) {
    (forall p :: p in ps ==> SamePath(home, d, e, p)) && (forall k :: k in ss ==> SameView(d, e, k))
  }

  ghost predicate AgreeOff(home: Home, d: Db, e: Db, ps: set<PathId>, ss: set<Sku>) {
    (forall p :: p !in ps ==> SamePath(home, d, e, p)) && (forall k :: k !in ss ==> SameView(d, e, k))
  }

  ghost predicate Within(home: Home, op: Op, ps: set<PathId>, ss: set<Sku>) {
    && (Touched(home, op).Some? ==> Touched(home, op).value in ps)
    && (op.Obs? ==> op.sku in ss)
  }

  ghost predicate AllWithin(home: Home, ops: seq<Op>, ps: set<PathId>, ss: set<Sku>) {
    forall i :: 0 <= i < |ops| ==> Within(home, ops[i], ps, ss)
  }

  /** Going from d to d1 and from e to e1 appended the same events to the outbox. */
  ghost predicate SameNews(d: Db, d1: Db, e: Db, e1: Db) {
    && d.outbox <= d1.outbox && e.outbox <= e1.outbox
    && d1.outbox[|d.outbox|..] == e1.outbox[|e.outbox|..]
  }

  lemma StepElsewhere(home: Home, d: Db, op: Op, q: PathId)
    requires WellFormed(home, d) && AtHome(home, op) && Enabled(d, op) && Touched(home, op) != Some(q)
    ensures SamePath(home, d, Step(d, op), q)
  {
    match op
    case Enq(_, _) =>
    case Rel(path, healed, id, at) =>
      ReleaseShape(d, path, healed, id, at);
      assert EntryFiled(home, d, path, id);
    case Cmp(id, _) => assert UnitFiled(home, d, id);
    case Obs(_, _, _) =>
  }

  lemma OneEvent(d: Db, d1: Db, e: Db, e1: Db, x: Event)
    requires d1.outbox == d.outbox + [x] && e1.outbox == e.outbox + [x]
    ensures SameNews(d, d1, e, e1)
  {
    assert d1.outbox[|d.outbox|..] == [x] == e1.outbox[|e.outbox|..];
  }

  lemma ReleaseAlike(d: Db, e: Db, path: PathId, healed: seq<UnitId>, id: UnitId, at: Time)
    requires MayRelease(d, path, healed, id)
    requires path in e.pools && e.pools[path] == d.pools[path]
    requires forall j :: j in d.pools[path].entries && j in d.units ==> j in e.units && d.units[j] == e.units[j]
    ensures MayRelease(e, path, healed, id)
    ensures AfterRelease(e, path, healed, id, at).pools[path] == AfterRelease(d, path, healed, id, at).pools[path]
    ensures d.units[id] == e.units[id]
  {
    var row := d.pools[path];
    HealShape(row, d.units, healed);
    HealFrame(row, d.units, e.units, healed);
    assert id in row.entries;
  }

  lemma EnqueueAlike(home: Home, d: Db, e: Db, unit: Unit, at: Time)
    requires MayEnqueue(d, unit) && unit.path == home(unit.id) && SamePath(home, d, e, unit.path)
    ensures MayEnqueue(e, unit)
    ensures SamePath(home, AfterEnqueue(d, unit, at), AfterEnqueue(e, unit, at), unit.path)
    ensures SameNews(d, AfterEnqueue(d, unit, at), e, AfterEnqueue(e, unit, at))
  {
    OneEvent(d, AfterEnqueue(d, unit, at), e, AfterEnqueue(e, unit, at), WorkUnitCreated(unit.id, unit.path, at));
  }

  lemma CompletionAlike(home: Home, d: Db, e: Db, id: UnitId, at: Time)
    requires MayComplete(d, id) && UnitFiled(home, d, id) && SamePath(home, d, e, home(id))
    ensures MayComplete(e, id)
    ensures SamePath(home, AfterCompletion(d, id, at), AfterCompletion(e, id, at), home(id))
    ensures SameNews(d, AfterCompletion(d, id, at), e, AfterCompletion(e, id, at))
  {
    OneEvent(d, AfterCompletion(d, id, at), e, AfterCompletion(e, id, at), WorkUnitCompleted(id, home(id), at));
  }

  lemma StepAlike(home: Home, d: Db, e: Db, op: Op)
    requires WellFormed(home, d) && AtHome(home, op) && Enabled(d, op)
    requires Touched(home, op).Some? ==> SamePath(home, d, e, Touched(home, op).value)
    ensures Enabled(e, op)
    ensures Touched(home, op).Some? ==> SamePath(home, Step(d, op), Step(e, op), Touched(home, op).value)
    ensures SameNews(d, Step(d, op), e, Step(e, op))
  {
    match op
    case Enq(unit, at) => EnqueueAlike(home, d, e, unit, at);
    case Rel(path, healed, id, at) =>
      forall j | j in d.pools[path].entries ensures EntryFiled(home, d, path, j) { }
      ReleaseAlike(d, e, path, healed, id, at);
      ReleaseShape(d, path, healed, id, at);
      ReleaseShape(e, path, healed, id, at);
      OneEvent(d, Step(d, op), e, Step(e, op), WorkReleased(id, path, at));
    case Cmp(id, at) => CompletionAlike(home, d, e, id, at);
    case Obs(_, _, _) =>
  }

  lemma StepFrame(home: Home, d: Db, e: Db, op: Op, ps: set<PathId>, ss: set<Sku>)
    requires WellFormed(home, d) && WellFormed(home, e) && AtHome(home, op) && Within(home, op, ps, ss)
    requires AgreeOn(home, d, e, ps, ss) && Enabled(d, op)
    ensures Enabled(e, op)
    ensures AgreeOn(home, Step(d, op), Step(e, op), ps, ss)
    ensures AgreeOff(home, e, Step(e, op), ps, ss)
    ensures SameNews(d, Step(d, op), e, Step(e, op))
  {
    StepAlike(home, d, e, op);
    forall p | p in ps
      ensures SamePath(home, Step(d, op), Step(e, op), p)
    {
      if Touched(home, op) != Some(p) {
        StepElsewhere(home, d, op, p);
        StepElsewhere(home, e, op, p);
      }
    }
    forall p | p !in ps
      ensures SamePath(home, e, Step(e, op), p)
    {
      StepElsewhere(home, e, op, p);
    }
    forall k
      ensures k in ss ==> SameView(Step(d, op), Step(e, op), k)
      ensures k !in ss ==> SameView(e, Step(e, op), k)
    {
      assert k in ss ==> SameView(d, e, k);
      assert op.Obs? || (Step(d, op).views == d.views && Step(e, op).views == e.views);
    }
  }

  lemma {:induction false} RunFrame(home: Home, d: Db, e: Db, ops: seq<Op>, ps: set<PathId>, ss: set<Sku>)
    requires WellFormed(home, d) && WellFormed(home, e) && AllAtHome(home, ops) && AllWithin(home, ops, ps, ss)
    requires AgreeOn(home, d, e, ps, ss) && Valid(d, ops)
    ensures Valid(e, ops)
    ensures AgreeOn(home, Run(d, ops), Run(e, ops), ps, ss)
    ensures AgreeOff(home, e, Run(e, ops), ps, ss)
    ensures SameNews(d, Run(d, ops), e, Run(e, ops))
  {
    if ops != [] {
      var n := |ops| - 1;
      var d1, e1 := Run(d, ops[..n]), Run(e, ops[..n]);
      RunFrame(home, d, e, ops[..n], ps, ss);
      RunKeeps(home, d, ops[..n]);
      RunKeeps(home, e, ops[..n]);
      StepFrame(home, d1, e1, ops[n], ps, ss);
      AgreeOffTransitive(home, e, e1, Run(e, ops), ps, ss);
      NewsTransitive(d, d1, Run(d, ops), e, e1, Run(e, ops));
    }
  }

  lemma AgreeOffTransitive(home: Home, d: Db, e: Db, f: Db, ps: set<PathId>, ss: set<Sku>)
    requires AgreeOff(home, d, e, ps, ss) && AgreeOff(home, e, f, ps, ss)
    ensures AgreeOff(home, d, f, ps, ss)
  {
    forall p | p !in ps ensures SamePath(home, d, f, p) {
      assert SamePath(home, d, e, p) && SamePath(home, e, f, p);
    }
    forall k | k !in ss ensures SameView(d, f, k) {
      assert SameView(d, e, k) && SameView(e, f, k);
    }
  }

  lemma NewsTransitive(d: Db, d1: Db, d2: Db, e: Db, e1: Db, e2: Db)
    requires SameNews(d, d1, e, e1) && SameNews(d1, d2, e1, e2)
    ensures SameNews(d, d2, e, e2)
  {
    assert d2.outbox[|d.outbox|..] == d1.outbox[|d.outbox|..] + d2.outbox[|d1.outbox|..];
    assert e2.outbox[|e.outbox|..] == e1.outbox[|e.outbox|..] + e2.outbox[|e1.outbox|..];
  }

  // ---------- What one session knows ----------

  ghost predicate SeenUnit(v: Db, u: Unit) {
    u.stage == Released && u.id in v.units && Evolves(u, v.units[u.id])
  }

  /** What a session knows beyond its pool: its unit, and that healing saw the units as they are. */
  ghost predicate PhaseOk(v: Db, a: Session) {
    match a.phase
    case Start => true
    case UnitRead(u) => SeenUnit(v, u)
    case PoolAbsent(_) => false
    case RowRead(target, _) => target.Some? ==> SeenUnit(v, target.value)
    case PoolRead(target, pool, healed, _) =>
      && (target.Some? ==> SeenUnit(v, target.value) && target.value.id in Table(pool.entries))
      && (pool.version != 0 ==> LoadOk(v, pool, healed, v.units))
    case Chosen(u, pool, healed, _) => u.stage == Pending && UnitChosen(v, u, pool, healed)
  }

  ghost predicate UnitChosen(v: Db, u: Unit, pool: Pool, healed: seq<UnitId>) {
    && ChoiceOk(v, u.id, pool, healed, v.units)
    && (pool.version == v.pools[pool.path].version ==> u.id in v.units && v.units[u.id] == u)
  }

  /** Whatever others commit, what a session knows stays true of what it reads. */
  lemma PhaseStable(home: Home, v: Db, w: Db, a: Session)
    requires WellFormed(home, v) && Advances(home, v, w) && PhaseOk(v, a)
    ensures PhaseOk(w, a)
  {
    match a.phase
    case Start =>
    case UnitRead(u) =>
    case RowRead(target, head) =>
    case PoolRead(target, pool, healed, _) =>
      if pool.version != 0 {
        LoadStable(home, v, w, pool, healed);
      }
    case Chosen(u, pool, healed, _) =>
      ChoiceStable(home, v, w, u, pool, healed);
  }

  lemma HealStable(home: Home, v: Db, w: Db, p: PathId, healed: seq<UnitId>)
    requires WellFormed(home, v) && p in v.pools && SamePath(home, v, w, p)
    requires HealOk(v.pools[p], v.units, healed)
    ensures HealOk(w.pools[p], w.units, healed)
    ensures Heal(w.pools[p], w.units, healed) == Heal(v.pools[p], v.units, healed)
  {
    forall j | j in v.pools[p].entries ensures EntryFiled(home, v, p, j) { }
    HealFrame(v.pools[p], v.units, w.units, healed);
  }

  lemma LoadStable(home: Home, v: Db, w: Db, pool: Pool, healed: seq<UnitId>)
    requires WellFormed(home, v) && Advances(home, v, w) && LoadOk(v, pool, healed, v.units)
    ensures LoadOk(w, pool, healed, w.units)
  {
    var p := pool.path;
    if SamePath(home, v, w, p) {
      if pool.version == v.pools[p].version { HealStable(home, v, w, p, healed); }
    } else {
      assert Newer(v.pools[p], w.pools[p]);
    }
  }

  lemma ChoiceStable(home: Home, v: Db, w: Db, u: Unit, pool: Pool, healed: seq<UnitId>)
    requires WellFormed(home, v) && Advances(home, v, w) && UnitChosen(v, u, pool, healed)
    ensures UnitChosen(w, u, pool, healed)
  {
    var p := pool.path;
    if SamePath(home, v, w, p) {
      if pool.version == v.pools[p].version {
        HealStable(home, v, w, p, healed);
        assert UnitFiled(home, v, u.id);
        HealShape(v.pools[p], v.units, healed);
        assert EntryFiled(home, v, p, u.id);
      }
    } else {
      assert Newer(v.pools[p], w.pools[p]);
    }
  }

  // ---------- The session invariant ----------

  /** The overlay is what the session's operations make of the committed state. */
  ghost predicate OverlayOk(home: Home, d: Db, o: Overlay, ops: seq<Op>) {
    && Valid(d, ops) && AllAtHome(home, ops)
    && AllWithin(home, ops, o.pools.Keys, o.views.Keys)
    && View(d, o) == Run(d, ops)
    && forall id :: id in o.units ==> home(id) in o.pools
  }

  ghost predicate SessionOk(home: Home, d: Db, a: Session) {
    var v := View(d, a.over);
    JobsAtHome(home, a.jobs) && OverlayOk(home, d, a.over, Ops(a.done)) && PhaseOk(v, a)
  }

  /** The premises under which an overlay over `e` is the run over `e`. */
  ghost predicate Carries(home: Home, d: Db, e: Db, dr: Db, er: Db, o: Overlay) {
    && View(d, o) == dr
    && AgreeOn(home, d, e, o.pools.Keys, o.views.Keys)
    && AgreeOn(home, dr, er, o.pools.Keys, o.views.Keys)
    && AgreeOff(home, e, er, o.pools.Keys, o.views.Keys)
    && SameNews(d, dr, e, er)
    && forall id :: id in o.units ==> home(id) in o.pools
  }

  lemma CarriesPools(home: Home, d: Db, e: Db, dr: Db, er: Db, o: Overlay)
    requires Carries(home, d, e, dr, er, o)
    ensures View(e, o).pools == er.pools
  {
    var v := View(e, o);
    forall p ensures (p in v.pools <==> p in er.pools) && (p in v.pools ==> v.pools[p] == er.pools[p]) {
      if p in o.pools {
        assert SamePath(home, dr, er, p) && p in dr.pools;
      } else {
        assert SamePath(home, e, er, p);
      }
    }
  }

  ghost predicate SameUnit(d: Db, e: Db, id: UnitId) {
    (id in d.units <==> id in e.units) && (id in d.units ==> d.units[id] == e.units[id])
  }

  lemma CarriesUnit(home: Home, d: Db, e: Db, dr: Db, er: Db, o: Overlay, id: UnitId)
    requires View(d, o).units == dr.units && (id in o.units ==> home(id) in o.pools)
    requires home(id) in o.pools ==> SameUnit(d, e, id) && SameUnit(dr, er, id)
    requires home(id) !in o.pools ==> SameUnit(e, er, id)
    ensures SameUnit(View(e, o), er, id)
  {
    assert id in dr.units <==> id in d.units || id in o.units;
  }

  lemma SamePathUnit(home: Home, d: Db, e: Db, id: UnitId)
    requires SamePath(home, d, e, home(id))
    ensures SameUnit(d, e, id)
  {
  }

  lemma CarriesUnitAt(home: Home, d: Db, e: Db, dr: Db, er: Db, o: Overlay, id: UnitId)
    requires Carries(home, d, e, dr, er, o)
    ensures SameUnit(View(e, o), er, id)
  {
    if home(id) in o.pools.Keys {
      SamePathUnit(home, d, e, id);
      SamePathUnit(home, dr, er, id);
    } else {
      SamePathUnit(home, e, er, id);
    }
    CarriesUnit(home, d, e, dr, er, o, id);
  }

  lemma SameUnits(v: Db, w: Db)
    requires forall id :: SameUnit(v, w, id)
    ensures v.units == w.units
  {
    assert forall id :: SameUnit(v, w, id) ==> (id in v.units <==> id in w.units);
  }

  lemma CarriesUnits(home: Home, d: Db, e: Db, dr: Db, er: Db, o: Overlay)
    requires Carries(home, d, e, dr, er, o)
    ensures View(e, o).units == er.units
  {
    forall id ensures SameUnit(View(e, o), er, id) {
      CarriesUnitAt(home, d, e, dr, er, o, id);
    }
    SameUnits(View(e, o), er);
  }

  lemma CarriesRest(home: Home, d: Db, e: Db, dr: Db, er: Db, o: Overlay)
    requires Carries(home, d, e, dr, er, o)
    ensures View(e, o).views == er.views && View(e, o).outbox == er.outbox
  {
    var v := View(e, o);
    forall k ensures (k in v.views <==> k in er.views) && (k in v.views ==> v.views[k] == er.views[k]) {
      if k in o.views {
        assert SameView(dr, er, k) && k in dr.views;
      } else {
        assert SameView(e, er, k);
      }
    }
    assert dr.outbox[|d.outbox|..] == o.events;
    assert er.outbox == e.outbox + er.outbox[|e.outbox|..];
  }

  lemma OverlayStable(home: Home, d: Db, e: Db, o: Overlay, ops: seq<Op>)
    requires WellFormed(home, d) && WellFormed(home, e)
    requires AgreeOn(home, d, e, o.pools.Keys, o.views.Keys) && OverlayOk(home, d, o, ops)
    ensures OverlayOk(home, e, o, ops)
    ensures AgreeOn(home, View(d, o), View(e, o), o.pools.Keys, o.views.Keys)
    ensures AgreeOff(home, d, View(d, o), o.pools.Keys, o.views.Keys)
    ensures AgreeOff(home, e, View(e, o), o.pools.Keys, o.views.Keys)
  {
    var ps, ss := o.pools.Keys, o.views.Keys;
    RunFrame(home, d, e, ops, ps, ss);
    assert AgreeOn(home, d, d, ps, ss);
    RunFrame(home, d, d, ops, ps, ss);
    var dr, er := Run(d, ops), Run(e, ops);
    CarriesPools(home, d, e, dr, er, o);
    CarriesUnits(home, d, e, dr, er, o);
    CarriesRest(home, d, e, dr, er, o);
  }

  lemma ViewAdvances(home: Home, d: Db, e: Db, o: Overlay, ops: seq<Op>)
    requires WellFormed(home, d) && WellFormed(home, e) && Advances(home, d, e)
    requires AgreeOn(home, d, e, o.pools.Keys, o.views.Keys) && OverlayOk(home, d, o, ops)
    ensures Advances(home, View(d, o), View(e, o))
  {
    OverlayStable(home, d, e, o, ops);
    var v, w := View(d, o), View(e, o);
    forall p | p in v.pools
      ensures p in w.pools && (SamePath(home, v, w, p) || Newer(v.pools[p], w.pools[p]))
    {
      if p !in o.pools {
        assert SamePath(home, d, v, p) && SamePath(home, e, w, p);
        assert SamePath(home, d, e, p) || Newer(d.pools[p], e.pools[p]);
        if SamePath(home, d, e, p) { assert SamePath(home, v, w, p); }
      }
    }
    forall id | id in v.units
      ensures id in w.units && Evolves(v.units[id], w.units[id])
    {
      if home(id) in o.pools {
        assert SamePath(home, v, w, home(id));
      } else {
        assert SamePath(home, d, v, home(id)) && SamePath(home, e, w, home(id));
        assert Evolves(d.units[id], e.units[id]);
      }
    }
  }

  lemma SessionStable(home: Home, d: Db, e: Db, a: Session)
    requires WellFormed(home, d) && WellFormed(home, e) && Advances(home, d, e)
    requires AgreeOn(home, d, e, a.over.pools.Keys, a.over.views.Keys) && SessionOk(home, d, a)
    ensures SessionOk(home, e, a)
  {
    var v, w := View(d, a.over), View(e, a.over);
    OverlayStable(home, d, e, a.over, Ops(a.done));
    ViewAdvances(home, d, e, a.over, Ops(a.done));
    RunKeeps(home, d, Ops(a.done));
    PhaseStable(home, v, w, a);
  }

  // ---------- One statement of one session ----------

  lemma ReadsKeep(home: Home, v: Db, a: Session, b: Session)
    requires WellFormed(home, v) && |a.done| < |a.jobs| && PhaseSound(v, a) && PhaseOk(v, a)
    requires ReadUnit(v, a, b) || ReadRow(v, a, b) || LoseRace(v, a, b)
    ensures PhaseOk(v, b) && b == a.(phase := b.phase)
  {
    if ReadRow(v, a, b) {
      if a.phase.UnitRead? {
        assert UnitFiled(home, v, a.phase.unit.id);
      }
    }
  }

  lemma ReadEntriesKeeps(home: Home, v: Db, a: Session, b: Session)
    requires WellFormed(home, v) && |a.done| < |a.jobs| && PhaseSound(v, a) && PhaseOk(v, a) && ReadEntries(v, a, b)
    ensures PhaseOk(v, b) && b == a.(phase := b.phase)
  {
    if a.phase.target.Some? {
      assert UnitFiled(home, v, a.phase.target.value.id);
    }
  }

  lemma TurnKeeps(home: Home, v: Db, a: Session, b: Session)
    requires WellFormed(home, v) && |a.done| < |a.jobs| && PhaseSound(v, a) && PhaseOk(v, a) && Turn(v, a, b)
    ensures PhaseOk(v, b) && b == a.(phase := b.phase)
  {
    var pool, healed := a.phase.pool, a.phase.healed;
    var (id, p1) := ReleaseNext(pool).value;
    if pool.version != 0 {
      if v.units[id].stage == Pending {
        assert UnitFiled(home, v, id);
        TurnPicks(v, pool, healed, v.units, id, p1);
      } else {
        assert v.units[id := v.units[id]] == v.units;
        TurnHeals(v, pool, healed, v.units, id, v.units[id], p1, b.phase.pool);
      }
    }
  }

  lemma OverlayGrows(home: Home, d: Db, o: Overlay, o1: Overlay, ops: seq<Op>, op: Op)
    requires WellFormed(home, d) && OverlayOk(home, d, o, ops)
    requires Enabled(View(d, o), op) && AtHome(home, op)
    requires View(d, o1) == Step(View(d, o), op)
    requires o.pools.Keys <= o1.pools.Keys && o.views.Keys <= o1.views.Keys
    requires Within(home, op, o1.pools.Keys, o1.views.Keys)
    requires forall id :: id in o1.units ==> home(id) in o1.pools
    ensures OverlayOk(home, d, o1, ops + [op])
    ensures Advances(home, View(d, o), View(d, o1))
  {
    OneMore(d, ops, op);
    WithinGrows(home, ops, op, o.pools.Keys, o.views.Keys, o1.pools.Keys, o1.views.Keys);
    RunKeeps(home, d, ops);
    StepKeeps(home, Run(d, ops), op);
  }

  lemma OneMore(d: Db, ops: seq<Op>, op: Op)
    requires Valid(d, ops) && Enabled(Run(d, ops), op)
    ensures Valid(d, ops + [op]) && Run(d, ops + [op]) == Step(Run(d, ops), op)
  {
    assert (ops + [op])[..|ops|] == ops;
  }

  lemma WithinGrows(home: Home, ops: seq<Op>, op: Op, ps: set<PathId>, ss: set<Sku>, ps1: set<PathId>, ss1: set<Sku>)
    requires AllAtHome(home, ops) && AtHome(home, op) && AllWithin(home, ops, ps, ss)
    requires ps <= ps1 && ss <= ss1 && Within(home, op, ps1, ss1)
    ensures AllAtHome(home, ops + [op]) && AllWithin(home, ops + [op], ps1, ss1)
  {
    forall i | 0 <= i < |ops + [op]|
      ensures AtHome(home, (ops + [op])[i]) && Within(home, (ops + [op])[i], ps1, ss1)
    {
      if i < |ops| {
        assert AtHome(home, ops[i]) && Within(home, ops[i], ps, ss);
      }
    }
  }

  /** A write that is one enabled operation of the specification keeps the session in order. */
  lemma WriteKeeps(home: Home, d: Db, a: Session, o: Overlay, op: Op, save: Option<PoolSave>)
    requires WellFormed(home, d) && SessionOk(home, d, a) && |a.done| < |a.jobs|
    requires Enabled(View(d, a.over), op) && AtHome(home, op)
    requires View(d, o) == Step(View(d, a.over), op)
    requires a.over.pools.Keys <= o.pools.Keys && a.over.views.Keys <= o.views.Keys
    requires Within(home, op, o.pools.Keys, o.views.Keys)
    requires forall id :: id in o.units ==> home(id) in o.pools
    ensures SessionOk(home, d, Finished(a, o, op, save))
  {
    var b, ops := Finished(a, o, op, save), Ops(a.done);
    assert b.done[..|b.done| - 1] == a.done;
    assert Ops(b.done) == ops + [op];
    OverlayGrows(home, d, a.over, o, ops, op);
  }

  lemma EnqueueWrites(v: Db, pool: Pool, u: Unit, p1: Pool, at: Time)
    requires Distinct(pool.entries) && u.path == pool.path && u == Freshly(u)
    requires if pool.version == 0 then pool == NewPool(pool.path) else RowOf(v, pool.path) == Some(ToRow(pool))
    requires Enqueue(pool, u.id, u.cpt) == Ok(p1) && VersionMatches(v, p1)
    ensures Enabled(v, Enq(u, at))
    ensures Step(v, Enq(u, at)).pools == v.pools[pool.path := ToRow(p1).(version := p1.version + 1)]
  {
    EnqueueRow(v, pool, u, p1);
  }

  lemma SaveEnqueueKeeps(home: Home, d: Db, a: Session, b: Session)
    requires WellFormed(home, d) && SessionSound(d, a) && SessionOk(home, d, a) && |a.done| < |a.jobs|
    requires SaveEnqueue(View(d, a.over), a, b)
    ensures SessionOk(home, d, b)
  {
    var v, job, pool := View(d, a.over), JobOf(a), a.phase.pool;
    var p1 := Enqueue(pool, job.unit.id, job.unit.cpt).value;
    assert job.unit == Freshly(job.unit) && job.unit.path == home(job.unit.id);
    assert pool.version != 0 ==> ToRow(pool) == Heal(v.pools[pool.path], v.units, []);
    EnqueueWrites(v, pool, job.unit, p1, job.at);
    SavedView(d, a.over, p1, job.unit, WorkUnitCreated(job.unit.id, job.unit.path, job.at));
    WriteKeeps(home, d, a, b.over, Enq(job.unit, job.at), b.saves[|a.saves|]);
  }

  lemma ReleaseWrites(v: Db, pool: Pool, healed: seq<UnitId>, u: Unit, at: Time)
    requires UnitChosen(v, u, pool, healed) && pool.version == v.pools[pool.path].version && u.stage == Pending
    ensures MayRelease(v, pool.path, healed, u.id)
    ensures var w := AfterRelease(v, pool.path, healed, u.id, at);
      && w.pools == v.pools[pool.path := ToRow(pool).(version := pool.version + 1)]
      && w.units == v.units[u.id := u.(stage := Released, releasedAt := Some(at))]
      && w.views == v.views && w.outbox == v.outbox + [WorkReleased(u.id, pool.path, at)]
      && u.id in v.pools[pool.path].entries
  {
    ReleaseShape(v, pool.path, healed, u.id, at);
  }

  lemma SaveReleaseKeeps(home: Home, d: Db, a: Session, b: Session)
    requires WellFormed(home, d) && SessionSound(d, a) && SessionOk(home, d, a) && |a.done| < |a.jobs|
    requires SaveRelease(View(d, a.over), a, b)
    ensures SessionOk(home, d, b)
  {
    var v, job, pool, u := View(d, a.over), JobOf(a), a.phase.pool, a.phase.unit;
    ReleaseWrites(v, pool, a.phase.healed, u, job.at);
    SavedView(d, a.over, pool, u.(stage := Released, releasedAt := Some(job.at)), WorkReleased(u.id, job.path, job.at));
    RunKeeps(home, d, Ops(a.done));
    assert EntryFiled(home, v, pool.path, u.id);
    WriteKeeps(home, d, a, b.over, Rel(job.path, a.phase.healed, u.id, job.at), b.saves[|a.saves|]);
  }

  lemma CompletionWrites(home: Home, v: Db, pool: Pool, u: Unit, p1: Pool, at: Time)
    requires Distinct(pool.entries) && pool.path in v.pools && ToRow(pool) == v.pools[pool.path]
    requires SeenUnit(v, u) && u.path == pool.path
    requires Reconcile(pool, u.id, true, true) == Ok(p1)
    ensures Enabled(v, Cmp(u.id, at))
    ensures var w := Step(v, Cmp(u.id, at));
      && w.pools == v.pools[pool.path := ToRow(p1).(version := p1.version + 1)]
      && w.units == v.units[u.id := u.(stage := Completed, completedAt := Some(at))]
      && w.views == v.views && w.outbox == v.outbox + [WorkUnitCompleted(u.id, pool.path, at)]
  {
    ReconcileOnTable(pool, u.id, true, true);
    assert u.(stage := Completed, completedAt := Some(at)) ==
      v.units[u.id].(stage := Completed, completedAt := Some(at));
  }

  lemma SaveCompletionKeeps(home: Home, d: Db, a: Session, b: Session)
    requires WellFormed(home, d) && SessionSound(d, a) && SessionOk(home, d, a) && |a.done| < |a.jobs|
    requires SaveCompletion(View(d, a.over), a, b)
    ensures SessionOk(home, d, b)
  {
    var v, at, pool, u := View(d, a.over), JobOf(a).at, a.phase.pool, a.phase.target.value;
    var p1 := Reconcile(pool, u.id, true, true).value;
    assert ToRow(pool) == Heal(v.pools[pool.path], v.units, []);
    CompletionWrites(home, v, pool, u, p1, at);
    SavedView(d, a.over, p1, u.(stage := Completed, completedAt := Some(at)), WorkUnitCompleted(u.id, u.path, at));
    RunKeeps(home, d, Ops(a.done));
    assert UnitFiled(home, v, u.id);
    WriteKeeps(home, d, a, b.over, Cmp(u.id, at), b.saves[|a.saves|]);
  }

  /** A completion that was let in always finds its entry, so the unit is never saved alone. */
  lemma NeverAlone(v: Db, a: Session, b: Session)
    requires |a.done| < |a.jobs| && PhaseSound(v, a) && PhaseOk(v, a)
    ensures !SaveUnitAlone(v, a, b)
  {
    if a.phase.PoolRead? && a.phase.target.Some? {
      TableKeys(a.phase.pool.entries, a.phase.target.value.id);
    }
  }

  lemma ApplyDeltaKeeps(home: Home, d: Db, a: Session, b: Session)
    requires WellFormed(home, d) && SessionOk(home, d, a) && |a.done| < |a.jobs|
    requires ApplyDelta(View(d, a.over), a, b)
    ensures SessionOk(home, d, b)
  {
    var v, job := View(d, a.over), JobOf(a);
    var op := Obs(job.sku, job.delta, job.at);
    ViewWithSku(d, a.over, job.sku, Step(v, op).views[job.sku]);
    WriteKeeps(home, d, a, b.over, op, None);
  }

  lemma ViewWithSku(d: Db, o: Overlay, sku: Sku, x: Usable)
    ensures View(d, o.(views := o.views[sku := x])) == View(d, o).(views := View(d, o).views[sku := x])
  {
  }

  lemma SkipKeeps(home: Home, d: Db, a: Session, b: Session)
    requires SessionOk(home, d, a) && |a.done| < |a.jobs|
    requires Skip(View(d, a.over), a, b)
    ensures SessionOk(home, d, b)
  {
    OpsAppend(a.done, None);
    assert Ops(b.done) == Ops(a.done);
  }

  lemma ActKeeps(home: Home, d: Db, a: Session, b: Session)
    requires WellFormed(home, d) && SessionSound(d, a) && SessionOk(home, d, a) && Local(View(d, a.over), a, b)
    ensures SessionOk(home, d, b)
  {
    var v := View(d, a.over);
    RunKeeps(home, d, Ops(a.done));
    NeverAlone(v, a, b);
    if ReadUnit(v, a, b) || ReadRow(v, a, b) || LoseRace(v, a, b) { ReadsKeep(home, v, a, b); }
    else if ReadEntries(v, a, b) { ReadEntriesKeeps(home, v, a, b); }
    else if Turn(v, a, b) { TurnKeeps(home, v, a, b); }
    else if SaveEnqueue(v, a, b) { SaveEnqueueKeeps(home, d, a, b); }
    else if SaveRelease(v, a, b) { SaveReleaseKeeps(home, d, a, b); }
    else if SaveCompletion(v, a, b) { SaveCompletionKeeps(home, d, a, b); }
    else if ApplyDelta(v, a, b) { ApplyDeltaKeeps(home, d, a, b); }
    else { SkipKeeps(home, d, a, b); }
  }

  // ---------- Another session's commit ----------

  /** A commit leaves alone what another session has locked. */
  lemma CommitElsewhere(home: Home, d: Db, a: Session, b: Session)
    requires WellFormed(home, d) && OverlayOk(home, d, a.over, Ops(a.done)) && Disjoint(a, b)
    ensures AgreeOn(home, d, View(d, a.over), b.over.pools.Keys, b.over.views.Keys)
  {
    var e := View(d, a.over);
    assert AgreeOn(home, d, d, a.over.pools.Keys, a.over.views.Keys);
    OverlayStable(home, d, d, a.over, Ops(a.done));
    forall p | p in b.over.pools.Keys ensures SamePath(home, d, e, p) { assert p !in a.over.pools.Keys; }
    forall k | k in b.over.views.Keys ensures SameView(d, e, k) { assert k !in a.over.views.Keys; }
  }

  lemma CommitStable(home: Home, d: Db, a: Session, b: Session)
    requires WellFormed(home, d) && SessionOk(home, d, a) && SessionOk(home, d, b) && Disjoint(a, b)
    ensures SessionOk(home, View(d, a.over), b)
  {
    CommitElsewhere(home, d, a, b);
    RunKeeps(home, d, Ops(a.done));
    SessionStable(home, d, View(d, a.over), b);
  }
}
