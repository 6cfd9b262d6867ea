/**
 Inbound integration events. The processed-event mark and the event's writes share one scope,
 in which the use cases' own scopes join without savepoints; or, with no unit of work wired,
 the mark is taken back by hand when the effect failed, if the repository can do that: the
 in-memory one can, the Postgres one cannot.
 */
module InboundEvents {
  import opened Types
  import opened PoolSpec
  import opened WorkDb
  import opened Postgres
  import opened UseCases
  import opened Environments
  import DerivedIds

  datatype TaskOutcome = Applied | AlreadyProcessed | UnknownWorkUnit

  datatype OrderLine = OrderLine(lineNo: int, sku: Sku, path: PathId, giftWrap: bool)

  /** `after` holds the mark of `e` and what `ops` make of `before`, nothing else. */
  ghost predicate Processed(before: State, after: State, e: EventId, ops: seq<Op>) {
    && e !in before.marks && after.marks == before.marks + {e}
    && Valid(before.db, ops) && after.db == Run(before.db, ops)
  }

  /**
   A success leaves the mark. A failure leaves none, except where nothing can take it back: then
   the event is marked without its effect, and its redelivery will be taken for a repeat.
   */
  ghost predicate MarkKept(s: Store, e: EventId, err: Option<AppError>, before: set<EventId>)
    reads s
  {
    && (err == None ==> s.committed.marks == before + {e})
    && (err != None && s.Undoable() ==> s.committed.marks == before)
    && (err != None ==> before <= s.committed.marks <= before + {e})
  }

  method ReleaseProcessed(s: Store, e: EventId)
    requires s.Valid()
    modifies s
    ensures s.Valid() && s.tx.Some? == old(s.tx).Some?
    ensures s.Now() == old(s.Now()).(marks := old(s.Now()).marks - {e})
  {
    var st := s.Now();
    s.Write(st.(marks := st.marks - {e}));
  }

  /** Ends an event's scope; without a unit of work, undoes the mark of a failed effect. */
  method Finish(s: Store, owned: bool, e: EventId, effect: Option<AppError>, ghost before: State)
      returns (err: Option<AppError>)
    requires s.Valid() && (owned ==> s.tx.Some?) && (s.uow ==> owned) && e !in before.marks
    modifies s, s.env
    ensures if owned && effect == None then Explained(s.env, old(s.env.Now()), err)
            else err == effect && s.env.Now() == old(s.env.Now())
    ensures effect == None ==> !Clean(err)
    ensures s.Valid() && s.tx.Some? == (if owned then false else old(s.tx).Some?)
    ensures owned && err == None ==> effect == None && s.committed == old(s.tx).value
    ensures owned && err != None ==> s.committed == old(s.committed)
    ensures !owned ==> err == effect
    ensures !owned && err == None ==> s.Now() == old(s.Now())
    ensures !owned && err != None && s.releases ==> s.Now() == old(s.Now()).(marks := old(s.Now()).marks - {e})
    ensures !owned && err != None && !s.releases ==> s.Now() == old(s.Now())
  {
    err := s.Close(owned, effect);
    if err != None && !s.uow && s.releases { ReleaseProcessed(s, e); }
  }

  /** The SKU's usable quantity moved by the delta, every other is as it was. */
  ghost predicate Counted(before: Db, after: Db, sku: Sku, delta: int, at: Time) {
    after.views ==
      before.views[sku := Usable((if sku in before.views then before.views[sku].quantity else 0) + delta, at)]
  }

  method ObserveInventoryChange(s: Store, e: EventId, sku: Sku, delta: int, at: Time)
      returns (already: bool, err: Option<AppError>)
    requires s.Valid() && s.tx == None
    modifies s, s.env
    ensures s.Valid() && s.tx == None
    ensures Explained(s.env, old(s.env.Now()), err) && (err == None || err == Some(Infrastructure))
    ensures err == None ==> already == (e in old(s.committed).marks)
    ensures err == None && !already ==> Processed(old(s.committed), s.committed, e, [Obs(sku, delta, at)])
    ensures err == None && !already ==> Counted(old(s.committed).db, s.committed.db, sku, delta, at)
    ensures already || (err != None && s.Undoable()) ==> s.committed == old(s.committed)
    ensures err != None ==> s.committed.db == old(s.committed).db
    ensures e in old(s.committed).marks ==> s.committed == old(s.committed)
    ensures MarkKept(s, e, err, old(s.committed).marks)
  {
    ghost var before := s.committed;
    already := false;
    var owned := s.Open();
    var seen, merr := s.TryMarkProcessed(e);
    if merr != None || seen {
      assert seen && merr == None ==> s.Now() == before;
      err := s.Close(owned, merr);
      return err == None, err;
    }
    var derr := s.ApplyDelta(sku, delta, at);
    err := Finish(s, owned, e, derr, before);
    OneOp(before.db, Obs(sku, delta, at));
  }

  lemma OneOp(d: Db, op: Op)
    ensures Run(d, [op]) == Step(d, op)
    ensures Valid(d, [op]) <==> Enabled(d, op)
  {
    assert [op][..0] == [];
  }

  // ---------- TaskCompleted ----------

  method ApplyTaskCompleted(s: Store, e: EventId, id: UnitId, at: Time)
      returns (outcome: TaskOutcome, err: Option<AppError>)
    requires s.Valid() && s.tx == None
    modifies s, s.env
    ensures s.Valid() && s.tx == None && s.env.LaterThan(old(s.env.Now()))
    ensures err.Some? ==>
      (s.env.TroubledSince(old(s.env.Now())) ||
       (err.value.OfUnit? && CompletionRefused(old(s.committed).db, id, err.value)))
    ensures err == None && outcome == Applied ==> IsClosed(old(s.committed).db, s.committed.db, id, at)
    ensures err == None ==> (outcome == AlreadyProcessed <==> e in old(s.committed).marks)
    ensures err == None && outcome == Applied ==>
      Processed(old(s.committed), s.committed, e, [Cmp(id, at)]) && EnabledAlone(old(s.committed).db, Cmp(id, at))
    ensures err == None && outcome == UnknownWorkUnit ==>
      Processed(old(s.committed), s.committed, e, []) && id !in old(s.committed).db.units
    ensures err == None && outcome == AlreadyProcessed ==> s.committed == old(s.committed)
    ensures err != None && (s.uow || (Clean(err) && s.releases)) ==> s.committed == old(s.committed)
    ensures Clean(err) ==> s.committed.db == old(s.committed).db
    ensures MarkKept(s, e, err, old(s.committed).marks)
    ensures e in old(s.committed).marks ==> s.committed == old(s.committed)
  {
    ghost var before := s.committed;
    outcome := Applied;
    var owned := s.Open();
    var seen, merr := s.TryMarkProcessed(e);
    if merr != None || seen {
      assert seen && merr == None ==> s.Now() == before;
      err := s.Close(owned, merr);
      return AlreadyProcessed, err;
    }
    var rerr := RecordCompletion(s, id, at);
    if rerr == Some(NotFound) {
      outcome, rerr := UnknownWorkUnit, None;
    }
    assert (before.marks + {e}) - {e} == before.marks;
    err := Finish(s, owned, e, rerr, before);
    OneOp(before.db, Cmp(id, at));
  }

  // ---------- OrderAllocated ----------

  function LineRequest(orderId: string, promise: Time, line: OrderLine): EnqueueRequest {
    EnqueueRequest(DerivedIds.LineId(orderId, line.lineNo), line.path, promise, orderId, line.sku, line.giftWrap)
  }

  /** `ops` enqueues some of the requests, in their order, and leaves the others out. */
  ghost predicate Picks(reqs: seq<EnqueueRequest>, at: Time, ops: seq<Op>) {
    if reqs == [] then ops == []
    else
      || Picks(reqs[..|reqs| - 1], at, ops)
      || (&& ops != [] && ops[|ops| - 1] == Enq(Requested(reqs[|reqs| - 1]), at)
          && Picks(reqs[..|reqs| - 1], at, ops[..|ops| - 1]))
  }

  // What an order's lines leave in the database, in terms of the order alone.

  ghost function LineName(orderId: string, line: OrderLine): UnitId {
    orderId + "-line-" + DerivedIds.Decimal(line.lineNo)
  }

  /** Lines of different numbers, or of different orders, never share a name. */
  lemma LineNamesDiffer(order1: string, line1: OrderLine, order2: string, line2: OrderLine)
    requires LineName(order1, line1) == LineName(order2, line2)
    ensures order1 == order2 && line1.lineNo == line2.lineNo
  {
    DerivedIds.LineIdInjective(order1, line1.lineNo, order2, line2.lineNo);
  }

  ghost predicate EntryOfLine(orderId: string, promise: Time, line: OrderLine, p: PathId, id: UnitId, row: Row) {
    p == line.path && id == LineName(orderId, line) && row == Row(promise, Pending)
  }

  ghost predicate UnitOfLine(orderId: string, promise: Time, line: OrderLine, u: Unit) {
    u == Unit(LineName(orderId, line), line.path, promise, orderId, line.sku, Pending, None, None)
  }

  ghost predicate IsUnitOfOrder(orderId: string, promise: Time, lines: seq<OrderLine>, u: Unit) {
    exists i :: 0 <= i < |lines| && UnitOfLine(orderId, promise, lines[i], u)
  }

  /** An entry that was there before is as it was. */
  ghost predicate KeptEntry(before: Db, after: Db, p: PathId, id: UnitId)
    requires p in after.pools && id in after.pools[p].entries
  {
    p in before.pools && id in before.pools[p].entries && after.pools[p].entries[id] == before.pools[p].entries[id]
  }

  /** An entry that was not is that of one of the lines, and so is the unit now stored under its id. */
  ghost predicate NewEntry(before: Db, after: Db, orderId: string, promise: Time, lines: seq<OrderLine>,
      p: PathId, id: UnitId)
    requires p in after.pools && id in after.pools[p].entries
  {
    && (p in before.pools ==> id !in before.pools[p].entries)
    && (exists i :: 0 <= i < |lines| && EntryOfLine(orderId, promise, lines[i], p, id, after.pools[p].entries[id]))
    && id in after.units && IsUnitOfOrder(orderId, promise, lines, after.units[id])
  }

  ghost predicate HasLine(d: Db, orderId: string, line: OrderLine) {
    line.path in d.pools && LineName(orderId, line) in d.pools[line.path].entries
  }

  /** What was not there before belongs to the lines, and everything else is as it was. */
  ghost predicate OnlyLinesAdded(before: Db, after: Db, orderId: string, promise: Time, lines: seq<OrderLine>) {
    && (forall p, id :: p in before.pools && id in before.pools[p].entries ==>
          p in after.pools && id in after.pools[p].entries)
    && (forall p, id :: p in after.pools && id in after.pools[p].entries ==>
          KeptEntry(before, after, p, id) || NewEntry(before, after, orderId, promise, lines, p, id))
    && (forall id :: id in before.units ==> id in after.units)
    && (forall id :: id in after.units ==>
          (id in before.units && after.units[id] == before.units[id])
          || IsUnitOfOrder(orderId, promise, lines, after.units[id]))
  }

  /** Every line has its entry, and only lines were added. */
  ghost predicate OrderApplied(before: Db, after: Db, orderId: string, promise: Time, lines: seq<OrderLine>) {
    && (forall i :: 0 <= i < |lines| ==> HasLine(after, orderId, lines[i]))
    && OnlyLinesAdded(before, after, orderId, promise, lines)
  }

  ghost predicate LineStored(d: Db, req: EnqueueRequest) {
    req.path in d.pools && req.id in d.pools[req.path].entries
  }

  /** Validates every line's path before anything is enqueued. */
  method EnqueueRequests(known: PathId -> bool, orderId: string, promise: Time, lines: seq<OrderLine>)
      returns (reqs: seq<EnqueueRequest>, err: Option<AppError>)
    ensures err == None <==> forall i :: 0 <= i < |lines| ==> lines[i].path != "" && known(lines[i].path)
    ensures err == None ==> |reqs| == |lines| && forall i :: 0 <= i < |lines| ==>
      && reqs[i].id == orderId + "-line-" + DerivedIds.Decimal(lines[i].lineNo) && reqs[i].path == lines[i].path
      && reqs[i].cpt == promise && reqs[i].reference == orderId
      && reqs[i].sku == lines[i].sku && reqs[i].giftWrap == lines[i].giftWrap
    ensures err != None ==> err == Some(UnknownPath)
  {
    reqs := [];
    for i := 0 to |lines|
      invariant |reqs| == i
      invariant forall j :: 0 <= j < i ==> lines[j].path != "" && known(lines[j].path)
      invariant forall j :: 0 <= j < i ==> reqs[j] == LineRequest(orderId, promise, lines[j])
    {
      if lines[i].path == "" || !known(lines[i].path) { return reqs, Some(UnknownPath); }
      var req := LineRequest(orderId, promise, lines[i]);
      reqs := reqs + [req];
    }
    return reqs, None;
  }

  /** After `reqs`, the operations `ops` have been done and every request is in its pool. */
  ghost predicate Enqueued(d: Db, now: Db, reqs: seq<EnqueueRequest>, at: Time, ops: seq<Op>) {
    && Valid(d, ops) && now == Run(d, ops) && Picks(reqs, at, ops)
    && forall i :: 0 <= i < |reqs| ==> LineStored(now, reqs[i])
  }

  lemma LineAdded(d: Db, now: Db, reqs: seq<EnqueueRequest>, at: Time, ops: seq<Op>, req: EnqueueRequest)
    requires Enqueued(d, now, reqs, at, ops) && MayEnqueue(now, Requested(req))
    ensures Enqueued(d, AfterEnqueue(now, Requested(req), at), reqs + [req], at, ops + [Enq(Requested(req), at)])
  {
    var op := Enq(Requested(req), at);
    var e := AfterEnqueue(now, Requested(req), at);
    assert (ops + [op])[..|ops|] == ops;
    assert (reqs + [req])[..|reqs|] == reqs;
    forall i | 0 <= i < |reqs + [req]| ensures LineStored(e, (reqs + [req])[i]) {
      if i < |reqs| { assert LineStored(now, reqs[i]); }
    }
  }

  lemma LineRepeated(d: Db, now: Db, reqs: seq<EnqueueRequest>, at: Time, ops: seq<Op>, req: EnqueueRequest)
    requires Enqueued(d, now, reqs, at, ops) && LineStored(now, req)
    ensures Enqueued(d, now, reqs + [req], at, ops)
  {
    assert (reqs + [req])[..|reqs|] == reqs;
  }

  /** A request without an id or a reference, which no unit can be built from. */
  ghost predicate Unnamed(reqs: seq<EnqueueRequest>) {
    exists i :: 0 <= i < |reqs| && (reqs[i].id == "" || reqs[i].reference == "")
  }

  /** `reqs` asks for the lines of the order, one by one. */
  ghost predicate AskFor(orderId: string, promise: Time, lines: seq<OrderLine>, reqs: seq<EnqueueRequest>) {
    |reqs| == |lines| && forall i :: 0 <= i < |lines| ==>
      UnitOfLine(orderId, promise, lines[i], Requested(reqs[i])) && reqs[i].path == lines[i].path
  }

  ghost predicate IsLineOp(orderId: string, promise: Time, lines: seq<OrderLine>, op: Op) {
    op.Enq? && IsUnitOfOrder(orderId, promise, lines, op.unit)
  }

  ghost predicate IsRequested(reqs: seq<EnqueueRequest>, at: Time, op: Op) {
    exists i :: 0 <= i < |reqs| && op == Enq(Requested(reqs[i]), at)
  }

  lemma RequestedStill(reqs: seq<EnqueueRequest>, at: Time, op: Op)
    requires reqs != [] && IsRequested(reqs[..|reqs| - 1], at, op)
    ensures IsRequested(reqs, at, op)
  {
    var i :| 0 <= i < |reqs| - 1 && op == Enq(Requested(reqs[..|reqs| - 1][i]), at);
    assert op == Enq(Requested(reqs[i]), at);
  }

  /** Only requests are picked. */
  lemma {:induction false} PickedAreRequested(reqs: seq<EnqueueRequest>, at: Time, ops: seq<Op>, k: nat)
    requires Picks(reqs, at, ops) && k < |ops|
    ensures IsRequested(reqs, at, ops[k])
  {
    var n := |reqs| - 1;
    if Picks(reqs[..n], at, ops) {
      PickedAreRequested(reqs[..n], at, ops, k);
      RequestedStill(reqs, at, ops[k]);
    } else if k < |ops| - 1 {
      PickedAreRequested(reqs[..n], at, ops[..|ops| - 1], k);
      RequestedStill(reqs, at, ops[k]);
    } else {
      assert ops[k] == Enq(Requested(reqs[n]), at);
    }
  }

  /** The entry and the unit of the line just enqueued. */
  lemma OwnEntryIsNew(d: Db, mid: Db, orderId: string, promise: Time, lines: seq<OrderLine>, unit: Unit, at: Time)
    requires MayEnqueue(mid, unit) && IsUnitOfOrder(orderId, promise, lines, unit)
    requires unit.path in d.pools && unit.id in d.pools[unit.path].entries ==>
      unit.path in mid.pools && unit.id in mid.pools[unit.path].entries
    ensures var after := AfterEnqueue(mid, unit, at);
      && unit.path in after.pools && unit.id in after.pools[unit.path].entries
      && NewEntry(d, after, orderId, promise, lines, unit.path, unit.id)
  {
    var after := AfterEnqueue(mid, unit, at);
    var i :| 0 <= i < |lines| && UnitOfLine(orderId, promise, lines[i], unit);
    assert EntryOfLine(orderId, promise, lines[i], unit.path, unit.id, after.pools[unit.path].entries[unit.id]);
  }

  /** Any other entry is as it was, or was new before. */
  lemma OtherEntryStays(d: Db, mid: Db, orderId: string, promise: Time, lines: seq<OrderLine>, unit: Unit, at: Time,
      p: PathId, id: UnitId)
    requires IsUnitOfOrder(orderId, promise, lines, unit) && (p != unit.path || id != unit.id)
    requires p in AfterEnqueue(mid, unit, at).pools && id in AfterEnqueue(mid, unit, at).pools[p].entries
    requires p in mid.pools && id in mid.pools[p].entries ==>
      KeptEntry(d, mid, p, id) || NewEntry(d, mid, orderId, promise, lines, p, id)
    ensures var after := AfterEnqueue(mid, unit, at);
      KeptEntry(d, after, p, id) || NewEntry(d, after, orderId, promise, lines, p, id)
  {
    var after := AfterEnqueue(mid, unit, at);
    assert p in mid.pools && id in mid.pools[p].entries;
    assert after.pools[p].entries[id] == mid.pools[p].entries[id];
  }

  lemma OneLineAdded(d: Db, mid: Db, orderId: string, promise: Time, lines: seq<OrderLine>, unit: Unit, at: Time)
    requires OnlyLinesAdded(d, mid, orderId, promise, lines) && MayEnqueue(mid, unit)
    requires IsUnitOfOrder(orderId, promise, lines, unit)
    ensures OnlyLinesAdded(d, AfterEnqueue(mid, unit, at), orderId, promise, lines)
  {
    var after := AfterEnqueue(mid, unit, at);
    forall p, id | p in after.pools && id in after.pools[p].entries
      ensures KeptEntry(d, after, p, id) || NewEntry(d, after, orderId, promise, lines, p, id)
    {
      if p == unit.path && id == unit.id {
        OwnEntryIsNew(d, mid, orderId, promise, lines, unit, at);
      } else {
        OtherEntryStays(d, mid, orderId, promise, lines, unit, at, p, id);
      }
    }
  }

  lemma {:induction false} LineOpsAdd(d: Db, orderId: string, promise: Time, lines: seq<OrderLine>, ops: seq<Op>)
    requires Valid(d, ops) && forall k :: 0 <= k < |ops| ==> IsLineOp(orderId, promise, lines, ops[k])
    ensures OnlyLinesAdded(d, Run(d, ops), orderId, promise, lines)
  {
    if ops != [] {
      var n := |ops| - 1;
      LineOpsAdd(d, orderId, promise, lines, ops[..n]);
      assert IsLineOp(orderId, promise, lines, ops[n]);
      OneLineAdded(d, Run(d, ops[..n]), orderId, promise, lines, ops[n].unit, ops[n].at);
    }
  }

  lemma LinesAreApplied(d: Db, now: Db, orderId: string, promise: Time, lines: seq<OrderLine>,
      reqs: seq<EnqueueRequest>, at: Time, ops: seq<Op>)
    requires AskFor(orderId, promise, lines, reqs) && Enqueued(d, now, reqs, at, ops)
    ensures OrderApplied(d, now, orderId, promise, lines)
  {
    forall k | 0 <= k < |ops| ensures IsLineOp(orderId, promise, lines, ops[k]) {
      PickedAreRequested(reqs, at, ops, k);
      var i :| 0 <= i < |reqs| && ops[k] == Enq(Requested(reqs[i]), at);
      assert UnitOfLine(orderId, promise, lines[i], Requested(reqs[i]));
    }
    LineOpsAdd(d, orderId, promise, lines, ops);
    forall i | 0 <= i < |lines| ensures HasLine(now, orderId, lines[i]) {
      assert LineStored(now, reqs[i]) && UnitOfLine(orderId, promise, lines[i], Requested(reqs[i]));
    }
  }

  /** Enqueues the lines one after another; a line already in its pool is a benign repeat. */
  method EnqueueAll(s: Store, reqs: seq<EnqueueRequest>, at: Time) returns (err: Option<AppError>, ghost ops: seq<Op>)
    requires s.Valid()
    modifies s, s.env
    ensures s.Valid() && s.tx.Some? == old(s.tx).Some? && (s.tx.Some? ==> s.committed == old(s.committed))
    ensures err.Some? ==> s.env.TroubledSince(old(s.env.Now())) || Unnamed(reqs)
    ensures s.env.LaterThan(old(s.env.Now()))
    ensures s.Now().marks == old(s.Now()).marks
    ensures err == None ==> Enqueued(old(s.Now()).db, s.Now().db, reqs, at, ops)
  {
    ghost var d := s.Now().db;
    ops := [];
    for i := 0 to |reqs|
      invariant s.Valid() && s.tx.Some? == old(s.tx).Some? && (s.tx.Some? ==> s.committed == old(s.committed))
      invariant s.env.LaterThan(old(s.env.Now()))
      invariant s.Now().marks == old(s.Now()).marks && Enqueued(d, s.Now().db, reqs[..i], at, ops)
    {
      ghost var now, began := s.Now().db, s.env.Now();
      var lerr := UseCases.Enqueue(s, reqs[i], at);
      assert reqs[..i + 1] == reqs[..i] + [reqs[i]];
      if lerr == None {
        LineAdded(d, now, reqs[..i], at, ops, reqs[i]);
        ops := ops + [Enq(Requested(reqs[i]), at)];
      } else if lerr == Some(OfPool(DuplicateEntry)) {
        LineRepeated(d, now, reqs[..i], at, ops, reqs[i]);
      } else {
        if s.env.TroubledSince(began) { TroubleSinceEarlier(s.env, old(s.env.Now()), began); }
        return lerr, ops;
      }
    }
    assert reqs[..|reqs|] == reqs;
    return None, ops;
  }

  /** A path without a name or outside the catalogue, or lines of an order without an id. */
  ghost predicate OrderRefused(known: PathId -> bool, orderId: string, lines: seq<OrderLine>) {
    || (exists i :: 0 <= i < |lines| && (lines[i].path == "" || !known(lines[i].path)))
    || (orderId == "" && lines != [])
  }

  /** Within the scope: every path is looked up, then every line is enqueued. */
  method ApplyLines(s: Store, known: PathId -> bool, orderId: string, promise: Time, lines: seq<OrderLine>, at: Time)
      returns (err: Option<AppError>, ghost ops: seq<Op>)
    requires s.Valid()
    modifies s, s.env
    ensures s.Valid() && s.tx.Some? == old(s.tx).Some? && (s.tx.Some? ==> s.committed == old(s.committed))
    ensures s.env.LaterThan(old(s.env.Now()))
    ensures err.Some? ==> s.env.TroubledSince(old(s.env.Now())) || OrderRefused(known, orderId, lines)
    ensures s.Now().marks == old(s.Now()).marks
    ensures err == None ==>
      && Valid(old(s.Now()).db, ops) && s.Now().db == Run(old(s.Now()).db, ops)
      && OrderApplied(old(s.Now()).db, s.Now().db, orderId, promise, lines)
    ensures (exists i :: 0 <= i < |lines| && !known(lines[i].path)) ==> err != None && s.Now() == old(s.Now())
  {
    ops := [];
    ghost var d := s.Now().db;
    var reqs: seq<EnqueueRequest>;
    reqs, err := EnqueueRequests(known, orderId, promise, lines);
    if err == None {
      err, ops := EnqueueAll(s, reqs, at);
      if err == None { LinesAreApplied(d, s.Now().db, orderId, promise, lines, reqs, at, ops); }
    }
  }

  method ApplyOrderAllocated(s: Store, known: PathId -> bool, e: EventId, orderId: string, promise: Time,
      lines: seq<OrderLine>, at: Time)
      returns (already: bool, err: Option<AppError>, ghost ops: seq<Op>)
    requires s.Valid() && s.tx == None
    modifies s, s.env
    ensures s.Valid() && s.tx == None && s.env.LaterThan(old(s.env.Now()))
    ensures err.Some? ==> s.env.TroubledSince(old(s.env.Now())) || OrderRefused(known, orderId, lines)
    ensures err == None ==> already == (e in old(s.committed).marks)
    ensures err == None && already ==> s.committed == old(s.committed)
    ensures err == None && !already ==>
      && Processed(old(s.committed), s.committed, e, ops)
      && OrderApplied(old(s.committed).db, s.committed.db, orderId, promise, lines)
    ensures err != None && s.uow ==> s.committed == old(s.committed)
    ensures MarkKept(s, e, err, old(s.committed).marks)
    ensures e in old(s.committed).marks ==> s.committed == old(s.committed)
    ensures (exists i :: 0 <= i < |lines| && !known(lines[i].path)) && e !in old(s.committed).marks ==>
      err != None && s.committed.db == old(s.committed).db && (s.Undoable() ==> s.committed == old(s.committed))
  {
    ghost var before := s.committed;
    ops := [];
    already := false;
    var owned := s.Open();
    var seen, merr := s.TryMarkProcessed(e);
    if merr != None || seen {
      assert seen && merr == None ==> s.Now() == before;
      err := s.Close(owned, merr);
      return err == None, err, ops;
    }
    var verr: Option<AppError>;
    verr, ops := ApplyLines(s, known, orderId, promise, lines, at);
    assert (before.marks + {e}) - {e} == before.marks;
    err := Finish(s, owned, e, verr, before);
  }
}
