/**
 The history of one stored pool. Every committed save of a use case does one operation on its
 pool row, whatever happens to units, events and other pools.
 */
module RowHistory {
  import opened Types
  import opened PoolSpec
  import opened WorkDb

  /**
   What a save did to its pool: add a pending entry; hand out `id` after healing the entries
   `healed`, whose units were `seen` to have moved on; or close the entry of a completed unit.
   */
  datatype RowOp =
    | Add(id: UnitId, cpt: Time)
    | Hand(healed: seq<UnitId>, seen: map<UnitId, Unit>, id: UnitId)
    | Close(id: UnitId)

  const NEW_ROW := PoolRow(ReleaseFed, DEFAULT_WIP_LIMIT, DEFAULT_ALARM_THRESHOLD, 0, map[])

  ghost predicate RowMay(row: Option<PoolRow>, op: RowOp) {
    match op
    case Add(id, _) => row.Some? ==> id !in row.value.entries
    case Hand(healed, seen, id) =>
      row.Some? && HealOk(row.value, seen, healed) && CanRelease(Heal(row.value, seen, healed), id)
    case Close(id) => row.Some? && id in row.value.entries
  }

  function RowAfter(row: Option<PoolRow>, op: RowOp): Option<PoolRow> {
    match op
    case Add(id, cpt) =>
      var r := if row.Some? then row.value else NEW_ROW;
      Some(r.(entries := r.entries[id := Row(cpt, Pending)], version := r.version + 1))
    case Hand(healed, seen, id) =>
      if row.None? || id !in Heal(row.value, seen, healed).entries then row
      else
        var h := Heal(row.value, seen, healed);
        Some(StageIn(h, id, Released).(version := h.version + 1))
    case Close(id) =>
      if row.None? || id !in row.value.entries then row
      else Some(StageIn(row.value, id, Completed).(version := row.value.version + 1))
  }

  function RowRun(row: Option<PoolRow>, ops: seq<RowOp>): Option<PoolRow> {
    if ops == [] then row else RowAfter(RowRun(row, ops[..|ops| - 1]), ops[|ops| - 1])
  }

  ghost predicate RowValid(row: Option<PoolRow>, ops: seq<RowOp>) {
    ops == [] || (RowValid(row, ops[..|ops| - 1]) && RowMay(RowRun(row, ops[..|ops| - 1]), ops[|ops| - 1]))
  }

  lemma {:induction false} RowRunConcat(row: Option<PoolRow>, a: seq<RowOp>, b: seq<RowOp>)
    ensures RowRun(row, a + b) == RowRun(RowRun(row, a), b)
    ensures RowValid(row, a + b) <==> RowValid(row, a) && RowValid(RowRun(row, a), b)
    decreases |b|
  {
    if b == [] {
      assert a + b == a;
    } else {
      assert (a + b)[..|a + b| - 1] == a + b[..|b| - 1];
      RowRunConcat(row, a, b[..|b| - 1]);
    }
  }

  // ---------- What a history keeps ----------

  function Version(row: Option<PoolRow>): int { if row.Some? then row.value.version else 0 }

  function Size(row: Option<PoolRow>): nat { if row.Some? then |row.value.entries| else 0 }

  function Adds(ops: seq<RowOp>): nat {
    if ops == [] then 0 else Adds(ops[..|ops| - 1]) + (if ops[|ops| - 1].Add? then 1 else 0)
  }

  function Hands(ops: seq<RowOp>, id: UnitId): nat {
    if ops == [] then 0
    else Hands(ops[..|ops| - 1], id) + (if ops[|ops| - 1].Hand? && ops[|ops| - 1].id == id then 1 else 0)
  }

  /** The entry exists and has left Pending. */
  function Left(row: Option<PoolRow>, id: UnitId): nat {
    if row.Some? && id in row.value.entries && row.value.entries[id].stage != Pending then 1 else 0
  }

  ghost predicate RowWithinLimit(row: Option<PoolRow>) {
    row.Some? ==> WithinLimit(row.value)
  }

  /** `s` is the row unchanged, or a later version of it that lost no entry. */
  ghost predicate Later(r: Option<PoolRow>, s: Option<PoolRow>) {
    || r == s
    || (s.Some? && r.None? && s.value.version >= 1)
    || (&& s.Some? && r.Some? && r.value.version < s.value.version
        && s.value.mode == r.value.mode && s.value.wipLimit == r.value.wipLimit && s.value.alarm == r.value.alarm
        && r.value.entries.Keys <= s.value.entries.Keys)
  }

  /** What one operation does to the version, the size and the entries of its pool. */
  lemma StepFacts(row: Option<PoolRow>, op: RowOp)
    requires RowMay(row, op)
    ensures RowAfter(row, op).Some? && Version(RowAfter(row, op)) == Version(row) + 1
    ensures Size(RowAfter(row, op)) == Size(row) + (if op.Add? then 1 else 0)
    ensures Later(row, RowAfter(row, op)) || (row.None? && op.Add?)
  {
    if op.Hand? { HealShape(row.value, op.seen, op.healed); }
    if !op.Add? { SameSize(row.value.entries, RowAfter(row, op).value.entries); }
  }

  lemma SameSize(a: map<UnitId, Row>, b: map<UnitId, Row>)
    requires a.Keys == b.Keys
    ensures |a| == |b|
  {
    assert |a| == |a.Keys| && |b| == |b.Keys|;
  }

  lemma StepLeft(row: Option<PoolRow>, op: RowOp, id: UnitId)
    requires RowMay(row, op)
    ensures Left(RowAfter(row, op), id) >= Left(row, id) + (if op.Hand? && op.id == id then 1 else 0)
  {
    if op.Hand? { HealShape(row.value, op.seen, op.healed); }
  }

  lemma StepLimit(row: Option<PoolRow>, op: RowOp)
    requires RowMay(row, op) && RowWithinLimit(row)
    ensures RowWithinLimit(RowAfter(row, op))
  {
    match op
    case Add(id, cpt) => WipUpdate(if row.Some? then row.value.entries else map[], id, Row(cpt, Pending));
    case Hand(healed, seen, id) =>
      HealShape(row.value, seen, healed);
      HealKeepsWip(row.value, seen, healed);
      var h := Heal(row.value, seen, healed);
      WipUpdate(h.entries, id, h.entries[id].(stage := Released));
    case Close(id) => WipUpdate(row.value.entries, id, row.value.entries[id].(stage := Completed));
  }

  /** The version counts the operations, the size the enqueues, and no handout is repeated. */
  lemma {:induction false} HistoryCounts(row: Option<PoolRow>, ops: seq<RowOp>, id: UnitId)
    requires RowValid(row, ops)
    ensures Version(RowRun(row, ops)) == Version(row) + |ops|
    ensures Size(RowRun(row, ops)) == Size(row) + Adds(ops)
    ensures Hands(ops, id) <= Left(RowRun(row, ops), id) - Left(row, id)
  {
    if ops != [] {
      var n := |ops| - 1;
      HistoryCounts(row, ops[..n], id);
      StepFacts(RowRun(row, ops[..n]), ops[n]);
      StepLeft(RowRun(row, ops[..n]), ops[n], id);
    }
  }

  lemma {:induction false} HistoryWithinLimit(row: Option<PoolRow>, ops: seq<RowOp>)
    requires RowValid(row, ops) && RowWithinLimit(row)
    ensures RowWithinLimit(RowRun(row, ops))
  {
    if ops != [] {
      var n := |ops| - 1;
      HistoryWithinLimit(row, ops[..n]);
      StepLimit(RowRun(row, ops[..n]), ops[n]);
    }
  }

  lemma {:induction false} HistoryIsLater(row: Option<PoolRow>, ops: seq<RowOp>)
    requires RowValid(row, ops) && (row.Some? ==> row.value.version >= 1)
    ensures Later(row, RowRun(row, ops))
    ensures RowRun(row, ops).Some? ==> RowRun(row, ops).value.version >= 1
  {
    if ops != [] {
      var n := |ops| - 1;
      HistoryIsLater(row, ops[..n]);
      StepFacts(RowRun(row, ops[..n]), ops[n]);
    }
  }

  // ---------- Healing with what was seen ----------

  /** Healing only looks at the units of the entries it visits. */
  lemma {:induction false} HealSeen(row: PoolRow, u1: map<UnitId, Unit>, u2: map<UnitId, Unit>, ids: seq<UnitId>)
    requires HealOk(row, u1, ids) && forall id :: id in ids ==> id in u1 && id in u2 && u1[id] == u2[id]
    ensures HealOk(row, u2, ids) && Heal(row, u1, ids) == Heal(row, u2, ids)
  {
    if ids != [] {
      assert ids[|ids| - 1] in ids;
      HealSeen(row, u1, u2, ids[..|ids| - 1]);
    }
  }

  /** One more turn: the next entry, whose unit was seen to have moved on, is healed. */
  lemma HealOneMore(row: PoolRow, seen: map<UnitId, Unit>, ids: seq<UnitId>, id: UnitId, unit: Unit)
    requires HealOk(row, seen, ids) && CanRelease(Heal(row, seen, ids), id) && unit.stage != Pending
    ensures HealOk(row, seen[id := unit], ids + [id])
    ensures Heal(row, seen[id := unit], ids + [id]) == StageIn(Heal(row, seen, ids), id, unit.stage)
  {
    HealShape(row, seen, ids);
    assert id !in ids;
    HealSeen(row, seen, seen[id := unit], ids);
    assert (ids + [id])[..|ids|] == ids;
  }
}
