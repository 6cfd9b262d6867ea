/**
 A work pool as a value: what each operation of the aggregate computes, and what the
 aggregate promises about whole sequences of operations.
 */
module PoolSpec {
  import opened Types

  datatype FeedMode = ReleaseFed | FlowFed

  datatype Entry = Entry(id: UnitId, cpt: Time, stage: Stage)

  datatype PoolError =
    | DuplicateEntry | UnknownEntry | AlreadyReleased | NotReleased | WipLimitReached | EmptyPool

  datatype Pool = Pool(path: PathId, mode: FeedMode, wipLimit: int, alarm: int, entries: seq<Entry>, version: int)

  ghost predicate Distinct(es: seq<Entry>) {
    forall i, j :: 0 <= i < j < |es| ==> es[i].id != es[j].id
  }

  predicate HasId(es: seq<Entry>, id: UnitId) {
    exists i :: 0 <= i < |es| && es[i].id == id
  }

  /** The first index holding `id`, or the length when there is none. */
  function IndexOf(es: seq<Entry>, id: UnitId): (i: nat)
    ensures i <= |es|
    ensures i < |es| ==> es[i].id == id
    ensures forall k :: 0 <= k < i ==> es[k].id != id
    ensures i < |es| <==> HasId(es, id)
  {
    if es == [] then 0
    else if es[0].id == id then 0
    else
      assert HasId(es[1..], id) ==> HasId(es, id) by {
        if HasId(es[1..], id) {
          var j :| 0 <= j < |es[1..]| && es[1..][j].id == id;
          assert es[j + 1].id == id;
        }
      }
      assert HasId(es, id) ==> HasId(es[1..], id) by {
        if HasId(es, id) {
          var j :| 0 <= j < |es| && es[j].id == id;
          assert es[1..][j - 1].id == id;
        }
      }
      1 + IndexOf(es[1..], id)
  }

  function Count(es: seq<Entry>, st: Stage): nat {
    if es == [] then 0
    else Count(es[..|es| - 1], st) + (if es[|es| - 1].stage == st then 1 else 0)
  }

  lemma {:induction false} CountUpdate(es: seq<Entry>, i: nat, e: Entry, st: Stage)
    requires i < |es|
    ensures Count(es[i := e], st)
         == Count(es, st) - (if es[i].stage == st then 1 else 0) + (if e.stage == st then 1 else 0)
  {
    var n := |es| - 1;
    if i == n {
      assert es[i := e][..n] == es[..n];
    } else {
      assert es[i := e][..n] == es[..n][i := e];
      CountUpdate(es[..n], i, e, st);
    }
  }

  lemma {:induction false} CountPositive(es: seq<Entry>, i: nat, st: Stage)
    requires i < |es| && es[i].stage == st
    ensures Count(es, st) > 0
  {
    if i < |es| - 1 { CountPositive(es[..|es| - 1], i, st); }
  }

  lemma {:induction false} CountZero(es: seq<Entry>, st: Stage)
    requires forall i :: 0 <= i < |es| ==> es[i].stage != st
    ensures Count(es, st) == 0
  {
    if es != [] { CountZero(es[..|es| - 1], st); }
  }

  /** `a` is handed out before `b`: earlier CPT, and entry order among equal CPTs. */
  predicate Before(es: seq<Entry>, a: nat, b: nat)
    requires a < |es| && b < |es|
  {
    es[a].cpt < es[b].cpt || (es[a].cpt == es[b].cpt && a < b)
  }

  /** `b` is the index the pool must hand out next; -1 exactly when nothing is pending. */
  ghost predicate IsNext(es: seq<Entry>, b: int) {
    if b == -1 then forall j :: 0 <= j < |es| ==> es[j].stage != Pending
    else
      && 0 <= b < |es|
      && es[b].stage == Pending
      && forall j :: 0 <= j < |es| && j != b && es[j].stage == Pending ==> Before(es, b, j)
  }

  function NextPending(es: seq<Entry>): (b: int)
    ensures -1 <= b < |es|
    ensures IsNext(es, b)
  {
    if es == [] then -1
    else
      var n := |es| - 1;
      var best := NextPending(es[..n]);
      assert forall j :: 0 <= j < n ==> es[j] == es[..n][j];
      assert best != -1 ==> forall j :: 0 <= j < n && j != best && es[j].stage == Pending ==> Before(es[..n], best, j);
      if es[n].stage != Pending then best
      else if best == -1 || es[n].cpt < es[best].cpt then n
      else best
  }

  predicate AtLimit(p: Pool) {
    p.mode == ReleaseFed && Count(p.entries, Released) >= p.wipLimit
  }

  function WithStage(p: Pool, i: nat, st: Stage): Pool
    requires i < |p.entries|
  {
    p.(entries := p.entries[i := p.entries[i].(stage := st)])
  }

  function Enqueue(p: Pool, id: UnitId, cpt: Time): Result<Pool, PoolError> {
    if HasId(p.entries, id) then Err(DuplicateEntry)
    else Ok(p.(entries := p.entries + [Entry(id, cpt, Pending)]))
  }

  function ReleaseNext(p: Pool): Result<(UnitId, Pool), PoolError> {
    var b := NextPending(p.entries);
    if b == -1 then Err(EmptyPool)
    else if AtLimit(p) then Err(WipLimitReached)
    else Ok((p.entries[b].id, WithStage(p, b, Released)))
  }

  function Release(p: Pool, id: UnitId): Result<Pool, PoolError> {
    var i := IndexOf(p.entries, id);
    if i == |p.entries| then Err(UnknownEntry)
    else if p.entries[i].stage != Pending then Err(AlreadyReleased)
    else if AtLimit(p) then Err(WipLimitReached)
    else Ok(WithStage(p, i, Released))
  }

  function Complete(p: Pool, id: UnitId): Result<Pool, PoolError> {
    var i := IndexOf(p.entries, id);
    if i == |p.entries| then Err(UnknownEntry)
    else match p.entries[i].stage
      case Completed => Ok(p)
      case Pending => Err(NotReleased)
      case Released => Ok(WithStage(p, i, Completed))
  }

  function StageOf(isReleased: bool, isCompleted: bool): Stage {
    if isCompleted then Completed else if isReleased then Released else Pending
  }

  function RestoreEntry(p: Pool, id: UnitId, cpt: Time, isReleased: bool, isCompleted: bool): Result<Pool, PoolError> {
    if HasId(p.entries, id) then Err(DuplicateEntry)
    else Ok(p.(entries := p.entries + [Entry(id, cpt, StageOf(isReleased, isCompleted))]))
  }

  /** The forward-only merge of a stored stage with the unit's lifecycle. */
  function Reconciled(stored: Stage, unitReleased: bool, unitCompleted: bool): (st: Stage)
    ensures st.Rank() >= stored.Rank()
    ensures st.Rank() == (if stored.Rank() > StageOf(unitReleased, unitCompleted).Rank() then stored.Rank()
                          else StageOf(unitReleased, unitCompleted).Rank())
  {
    if unitCompleted then Completed
    else if unitReleased && stored == Pending then Released
    else stored
  }

  function Reconcile(p: Pool, id: UnitId, unitReleased: bool, unitCompleted: bool): Result<Pool, PoolError> {
    var i := IndexOf(p.entries, id);
    if i == |p.entries| then Err(UnknownEntry)
    else Ok(WithStage(p, i, Reconciled(p.entries[i].stage, unitReleased, unitCompleted)))
  }

  // ---------- Draining a pool is a stable sort by CPT ----------

  /** The indices of the pending entries in the order repeated releases visit them. */
  function DrainOrder(es: seq<Entry>): (out: seq<nat>)
    decreases Count(es, Pending)
  {
    var b := NextPending(es);
    if b == -1 then []
    else
      CountUpdate(es, b, es[b].(stage := Released), Pending);
      [b] + DrainOrder(es[b := es[b].(stage := Released)])
  }

  /** The drain order lists each pending entry exactly once, by CPT, ties in entry order. */
  lemma {:induction false} DrainOrderIsStableSort(es: seq<Entry>)
    ensures forall k :: 0 <= k < |DrainOrder(es)| ==> DrainOrder(es)[k] < |es|
    ensures forall i: nat :: i in DrainOrder(es) <==> i < |es| && es[i].stage == Pending
    ensures forall j, k :: 0 <= j < k < |DrainOrder(es)| ==> Before(es, DrainOrder(es)[j], DrainOrder(es)[k])
    ensures |DrainOrder(es)| == Count(es, Pending)
    decreases Count(es, Pending)
  {
    var b := NextPending(es);
    if b == -1 {
      CountZero(es, Pending);
    } else {
      var es1 := es[b := es[b].(stage := Released)];
      var rest := DrainOrder(es1);
      CountUpdate(es, b, es[b].(stage := Released), Pending);
      DrainOrderIsStableSort(es1);
      assert DrainOrder(es) == [b] + rest;
      forall j, k | 0 <= j < k < |DrainOrder(es)|
        ensures Before(es, DrainOrder(es)[j], DrainOrder(es)[k])
      {
        if j == 0 {
          assert rest[k - 1] in rest;
        } else {
          assert Before(es1, rest[j - 1], rest[k - 1]);
        }
      }
    }
  }

  /** The pool after n calls of ReleaseNext; a call that fails changes nothing. */
  function AfterReleases(p: Pool, n: nat): Pool
    decreases n
  {
    if n == 0 then p
    else match ReleaseNext(p)
      case Ok(r) => AfterReleases(r.1, n - 1)
      case Err(_) => p
  }

  /** How many releases the limit still admits, out of k wanted. */
  function Admitted(p: Pool, k: nat): nat {
    if p.mode == FlowFed then k
    else
      var room := p.wipLimit - Count(p.entries, Released);
      if room <= 0 then 0 else if room < k then room else k
  }

  ghost predicate DrainAnswer(p: Pool, n: nat) {
    var order := DrainOrder(p.entries);
    var k := Admitted(p, |order|);
    && (forall i :: 0 <= i < |order| ==> order[i] < |p.entries|)
    && k <= |order|
    && match ReleaseNext(AfterReleases(p, n))
       case Ok(r) => n < k && r.0 == p.entries[order[n]].id
       case Err(e) => n >= k && e == (if k == |order| then EmptyPool else WipLimitReached)
  }

  lemma FirstRelease(p: Pool, b: nat, p1: Pool)
    requires b == NextPending(p.entries) && !AtLimit(p) && p1 == WithStage(p, b, Released)
    ensures DrainOrder(p.entries) == [b] + DrainOrder(p1.entries)
    ensures Admitted(p, |DrainOrder(p.entries)|) == 1 + Admitted(p1, |DrainOrder(p1.entries)|)
  {
    CountUpdate(p.entries, b, p.entries[b].(stage := Released), Released);
  }

  /** The drain order stays inside the entries and has one place per pending entry. */
  lemma OrderShape(p: Pool)
    ensures |DrainOrder(p.entries)| == Count(p.entries, Pending)
    ensures forall i :: 0 <= i < |DrainOrder(p.entries)| ==> DrainOrder(p.entries)[i] < |p.entries|
  {
    DrainOrderIsStableSort(p.entries);
  }

  lemma StuckAnswer(p: Pool, n: nat)
    requires ReleaseNext(p).Err?
    ensures DrainAnswer(p, n)
  {
    OrderShape(p);
    var b := NextPending(p.entries);
    if b == -1 {
      assert DrainOrder(p.entries) == [];
    } else {
      assert Admitted(p, |DrainOrder(p.entries)|) == 0;
      CountPositive(p.entries, b, Pending);
    }
  }

  lemma LaterAnswer(p: Pool, b: nat, n: nat)
    requires b == NextPending(p.entries) && !AtLimit(p) && DrainAnswer(WithStage(p, b, Released), n)
    ensures DrainAnswer(p, n + 1)
  {
    OrderShape(p);
    FirstRelease(p, b, WithStage(p, b, Released));
    assert ReleaseNext(p) == Ok((p.entries[b].id, WithStage(p, b, Released)));
    assert AfterReleases(p, n + 1) == AfterReleases(WithStage(p, b, Released), n);
  }

  /**
   What the (n+1)-st of a series of releases answers: the n-th pending entry of the stable
   sort while the limit admits it, and after that the reason nothing more comes out.
   */
  lemma {:induction false} NthRelease(p: Pool, n: nat)
    ensures DrainAnswer(p, n)
    decreases n
  {
    var b := NextPending(p.entries);
    if ReleaseNext(p).Err? {
      StuckAnswer(p, n);
    } else if n == 0 {
      OrderShape(p);
      FirstRelease(p, b, WithStage(p, b, Released));
    } else {
      NthRelease(WithStage(p, b, Released), n - 1);
      LaterAnswer(p, b, n - 1);
    }
  }
}
