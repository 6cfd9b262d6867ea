/** The in-memory analytics rollup: five counters per path and hour, one effect per event id. */
module Analytics {
  import opened Types
  import MapSum

  datatype Kind = WorkReleased | WorkUnitCompleted | BacklogThresholdBreached | PathThrottled | RateDeviationDetected

  datatype Fact = Fact(id: EventId, kind: Kind, path: string, at: int)

  datatype RowKey = RowKey(path: string, hour: int)

  datatype RowAcc = RowAcc(workReleased: nat, workUnitCompleted: nat, backlogThresholdBreached: nat,
                           pathThrottled: nat, rateDeviationDetected: nat)
  {
    function Of(kind: Kind): nat {
      match kind
      case WorkReleased => workReleased
      case WorkUnitCompleted => workUnitCompleted
      case BacklogThresholdBreached => backlogThresholdBreached
      case PathThrottled => pathThrottled
      case RateDeviationDetected => rateDeviationDetected
    }

    function Sum(): nat {
      workReleased + workUnitCompleted + backlogThresholdBreached + pathThrottled + rateDeviationDetected
    }
  }

  datatype Query = Query(path: string, from: int, until: int)

  /** Rounds down to the hour, also before the epoch. */
  function HourBucket(at: int): (hour: int)
    ensures hour % 3600 == 0 && hour <= at < hour + 3600
  {
    at / 3600 * 3600
  }

  function KeyOf(f: Fact): RowKey { RowKey(f.path, HourBucket(f.at)) }

  // ---------- What the counters mean ----------

  function Ids(history: seq<Fact>): set<EventId> {
    if history == [] then {} else Ids(history[..|history| - 1]) + {history[|history| - 1].id}
  }

  /** The ids whose first event in the stream was of this kind, path and hour. */
  function FirstIds(history: seq<Fact>, key: RowKey, kind: Kind): set<EventId> {
    if history == [] then {}
    else
      var before, f := history[..|history| - 1], history[|history| - 1];
      FirstIds(before, key, kind) + (if f.id !in Ids(before) && KeyOf(f) == key && f.kind == kind then {f.id} else {})
  }

  /** The counters of a row; one that is not there yet has counted nothing. */
  function RowAt(rows: map<RowKey, RowAcc>, key: RowKey): RowAcc {
    if key in rows then rows[key] else RowAcc(0, 0, 0, 0, 0)
  }

  lemma MissingIsZero(rows: map<RowKey, RowAcc>, key: RowKey)
    ensures RowAt(rows, key).Sum() == if key in rows then rows[key].Sum() else 0
  {
  }

  function CountOf(rows: map<RowKey, RowAcc>, key: RowKey, kind: Kind): nat {
    RowAt(rows, key).Of(kind)
  }

  /** An event id stands for one event. */
  ghost predicate Coherent(history: seq<Fact>) {
    forall i, j :: 0 <= i < |history| && 0 <= j < |history| && history[i].id == history[j].id ==>
      history[i] == history[j]
  }

  /** The event is of this kind and path, and happened within the hour that starts at `key.hour`. */
  ghost predicate Matches(f: Fact, key: RowKey, kind: Kind) {
    f.kind == kind && f.path == key.path && key.hour % 3600 == 0 && key.hour <= f.at < key.hour + 3600
  }

  lemma MatchesIffKey(f: Fact, key: RowKey, kind: Kind)
    ensures Matches(f, key, kind) <==> KeyOf(f) == key && f.kind == kind
  {
    if key.hour % 3600 == 0 && key.hour <= f.at < key.hour + 3600 { AlignedBound(f.at, key.hour); }
  }

  /** The distinct ids of the events of this kind, path and hour. */
  ghost function MatchingIds(history: seq<Fact>, key: RowKey, kind: Kind): set<EventId> {
    set i | 0 <= i < |history| && Matches(history[i], key, kind) :: history[i].id
  }

  lemma {:induction false} IdsAre(history: seq<Fact>, id: EventId)
    ensures id in Ids(history) <==> exists i :: 0 <= i < |history| && history[i].id == id
  {
    if history != [] {
      var before := history[..|history| - 1];
      IdsAre(before, id);
      if i :| 0 <= i < |history| && history[i].id == id { assert i < |before| ==> before[i].id == id; }
      if i :| 0 <= i < |before| && before[i].id == id { assert history[i].id == id; }
    }
  }

  lemma MatchingNext(before: seq<Fact>, f: Fact, key: RowKey, kind: Kind)
    ensures MatchingIds(before + [f], key, kind) ==
      MatchingIds(before, key, kind) + (if Matches(f, key, kind) then {f.id} else {})
  {
    var more := before + [f];
    assert more[|before|] == f;
    forall id | id in MatchingIds(before, key, kind) ensures id in MatchingIds(more, key, kind) {
      var i :| 0 <= i < |before| && Matches(before[i], key, kind) && before[i].id == id;
      assert more[i] == before[i];
    }
  }

  lemma {:induction false} FirstIdsAreMatching(history: seq<Fact>, key: RowKey, kind: Kind)
    requires Coherent(history)
    ensures FirstIds(history, key, kind) == MatchingIds(history, key, kind)
  {
    if history != [] {
      var before, f := history[..|history| - 1], history[|history| - 1];
      assert history == before + [f];
      assert Coherent(before);
      FirstIdsAreMatching(before, key, kind);
      MatchingNext(before, f, key, kind);
      MatchesIffKey(f, key, kind);
      if f.id in Ids(before) && KeyOf(f) == key && f.kind == kind {
        IdsAre(before, f.id);
        var i :| 0 <= i < |before| && before[i].id == f.id;
        assert history[i] == before[i] && history[|before|] == f;
        assert before[i] == f;
        assert f.id in MatchingIds(before, key, kind);
      }
    }
  }

  // ---------- Sums over rows ----------

  ghost function RowSums(rows: map<RowKey, RowAcc>): map<RowKey, int> {
    map k | k in rows :: rows[k].Sum()
  }

  ghost function Total(rows: map<RowKey, RowAcc>): int {
    MapSum.Sum(RowSums(rows))
  }

  lemma TotalWith(rows: map<RowKey, RowAcc>, key: RowKey, acc: RowAcc)
    ensures Total(rows[key := acc]) == Total(rows) - (if key in rows then rows[key].Sum() else 0) + acc.Sum()
  {
    assert RowSums(rows[key := acc]) == RowSums(rows)[key := acc.Sum()];
    MapSum.SumWith(RowSums(rows), key, acc.Sum());
  }

  lemma TotalOfUnion(a: map<RowKey, RowAcc>, b: map<RowKey, RowAcc>)
    requires a.Keys !! b.Keys
    ensures Total(a + b) == Total(a) + Total(b)
  {
    assert RowSums(a + b) == RowSums(a) + RowSums(b);
    MapSum.SumOfUnion(RowSums(a), RowSums(b));
  }

  // ---------- The store ----------

  /** Each counter is the number of ids first seen with its kind, path and hour. */
  ghost predicate Counts(rows: map<RowKey, RowAcc>, history: seq<Fact>) {
    forall key, kind :: CountOf(rows, key, kind) == |FirstIds(history, key, kind)|
  }

  /** The newest time of the events, or the zero time. */
  ghost predicate IsLatest(history: seq<Fact>, latest: int) {
    && latest >= 0 && (latest == 0 || exists i :: 0 <= i < |history| && history[i].at == latest)
    && (Coherent(history) ==> forall i :: 0 <= i < |history| ==> history[i].at <= latest)
  }

  function Bumped(acc: RowAcc, kind: Kind): (r: RowAcc)
  {
    match kind
    case WorkReleased => acc.(workReleased := acc.workReleased + 1)
    case WorkUnitCompleted => acc.(workUnitCompleted := acc.workUnitCompleted + 1)
    case BacklogThresholdBreached => acc.(backlogThresholdBreached := acc.backlogThresholdBreached + 1)
    case PathThrottled => acc.(pathThrottled := acc.pathThrottled + 1)
    case RateDeviationDetected => acc.(rateDeviationDetected := acc.rateDeviationDetected + 1)
  }

  lemma BumpedCounts(acc: RowAcc, kind: Kind)
    ensures Bumped(acc, kind).Sum() == acc.Sum() + 1
    ensures forall k :: Bumped(acc, kind).Of(k) == acc.Of(k) + (if k == kind then 1 else 0)
  {
  }

  function BumpAt(rows: map<RowKey, RowAcc>, key: RowKey, kind: Kind): map<RowKey, RowAcc> {
    rows[key := Bumped(RowAt(rows, key), kind)]
  }

  lemma BumpCountsOne(rows: map<RowKey, RowAcc>, key: RowKey, kind: Kind, key1: RowKey, kind1: Kind)
    ensures CountOf(BumpAt(rows, key, kind), key1, kind1) ==
      CountOf(rows, key1, kind1) + (if key1 == key && kind1 == kind then 1 else 0)
  {
    BumpedCounts(RowAt(rows, key), kind);
    assert RowAt(BumpAt(rows, key, kind), key1) ==
      if key1 == key then Bumped(RowAt(rows, key), kind) else RowAt(rows, key1);
  }

  /** The row of the event, created when missing, with the event's counter bumped. */
  function WithBump(rows: map<RowKey, RowAcc>, f: Fact): map<RowKey, RowAcc> {
    BumpAt(rows, KeyOf(f), f.kind)
  }

  lemma FirstIdsAreSeen(history: seq<Fact>, key: RowKey, kind: Kind)
    ensures FirstIds(history, key, kind) <= Ids(history)
  {
    if history != [] {
      var before := history[..|history| - 1];
      FirstIdsAreSeen(before, key, kind);
    }
  }

  lemma CountsNext(rows: map<RowKey, RowAcc>, rows1: map<RowKey, RowAcc>, history: seq<Fact>, f: Fact)
    requires Counts(rows, history)
    requires f.id in Ids(history) ==> rows1 == rows
    requires f.id !in Ids(history) ==> rows1 == WithBump(rows, f)
    ensures Counts(rows1, history + [f])
  {
    assert (history + [f])[..|history|] == history;
    forall key, kind ensures CountOf(rows1, key, kind) == |FirstIds(history + [f], key, kind)| {
      assert CountOf(rows, key, kind) == |FirstIds(history, key, kind)|;
      FirstIdsAreSeen(history, key, kind);
      BumpCountsOne(rows, KeyOf(f), f.kind, key, kind);
    }
  }

  lemma LatestNext(history: seq<Fact>, f: Fact, latest: int)
    requires IsLatest(history, latest)
    ensures f.id in Ids(history) ==> IsLatest(history + [f], latest)
    ensures f.id !in Ids(history) ==> IsLatest(history + [f], if f.at > latest then f.at else latest)
  {
    var more := history + [f];
    assert forall i :: 0 <= i < |history| ==> more[i] == history[i];
    assert more[|history|] == f;
    if i :| 0 <= i < |history| && history[i].at == latest { assert more[i].at == latest; }
    if Coherent(more) {
      assert Coherent(history) by {
        forall i, j | 0 <= i < |history| && 0 <= j < |history| && history[i].id == history[j].id
          ensures history[i] == history[j]
        {
          assert more[i] == more[j];
        }
      }
      if f.id in Ids(history) {
        IdsAre(history, f.id);
        var i :| 0 <= i < |history| && history[i].id == f.id;
        assert more[i] == more[|history|];
      }
    }
  }

  /** The rows after a stream: an event whose id is new bumps its counter. */
  function RowsOf(history: seq<Fact>): map<RowKey, RowAcc> {
    if history == [] then map[]
    else
      var before, f := history[..|history| - 1], history[|history| - 1];
      var rows := RowsOf(before);
      if f.id in Ids(before) then rows else WithBump(rows, f)
  }

  function LatestOf(history: seq<Fact>): int {
    if history == [] then 0
    else
      var before, f := history[..|history| - 1], history[|history| - 1];
      var latest := LatestOf(before);
      if f.id !in Ids(before) && f.at > latest then f.at else latest
  }

  lemma OneMoreFact(history: seq<Fact>, f: Fact)
    ensures Ids(history + [f]) == Ids(history) + {f.id}
    ensures RowsOf(history + [f]) == if f.id in Ids(history) then RowsOf(history) else WithBump(RowsOf(history), f)
    ensures LatestOf(history + [f]) ==
      (if f.id !in Ids(history) && f.at > LatestOf(history) then f.at else LatestOf(history))
  {
    assert (history + [f])[..|history|] == history;
  }

  lemma {:induction false} RowsCount(history: seq<Fact>)
    ensures Counts(RowsOf(history), history)
  {
    if history != [] {
      var before, f := history[..|history| - 1], history[|history| - 1];
      assert history == before + [f];
      RowsCount(before);
      CountsNext(RowsOf(before), RowsOf(history), before, f);
    }
  }

  /** No row is empty, and the rows add up to `n`. */
  ghost predicate AddUpTo(rows: map<RowKey, RowAcc>, n: int) {
    Total(rows) == n && forall k :: k in rows ==> rows[k].Sum() > 0
  }

  lemma RowAddsOne(rows: map<RowKey, RowAcc>, key: RowKey, acc: RowAcc, n: int)
    requires AddUpTo(rows, n) && acc.Sum() == (if key in rows then rows[key].Sum() else 0) + 1
    ensures AddUpTo(rows[key := acc], n + 1)
  {
    TotalWith(rows, key, acc);
  }

  lemma BumpAddsOne(rows: map<RowKey, RowAcc>, key: RowKey, kind: Kind, n: int)
    requires AddUpTo(rows, n)
    ensures AddUpTo(BumpAt(rows, key, kind), n + 1)
  {
    BumpedCounts(RowAt(rows, key), kind);
    MissingIsZero(rows, key);
    RowAddsOne(rows, key, Bumped(RowAt(rows, key), kind), n);
  }

  lemma {:induction false} RowsAddUp(history: seq<Fact>)
    ensures AddUpTo(RowsOf(history), |Ids(history)|)
  {
    if history != [] {
      var before, f := history[..|history| - 1], history[|history| - 1];
      RowsAddUp(before);
      if f.id in Ids(before) {
        assert Ids(before) + {f.id} == Ids(before);
      } else {
        BumpAddsOne(RowsOf(before), KeyOf(f), f.kind, |Ids(before)|);
      }
    }
  }

  lemma RowsTotal(history: seq<Fact>)
    ensures Total(RowsOf(history)) == |Ids(history)|
    ensures forall k :: k in RowsOf(history) ==> RowsOf(history)[k].Sum() > 0
  {
    RowsAddUp(history);
  }

  lemma {:induction false} LatestIsNewest(history: seq<Fact>)
    ensures IsLatest(history, LatestOf(history))
  {
    if history != [] {
      var before, f := history[..|history| - 1], history[|history| - 1];
      assert history == before + [f];
      LatestIsNewest(before);
      LatestNext(before, f, LatestOf(before));
    }
  }

  /** Only this counter went up, and by one. */
  ghost predicate CounterMoved(was: RowAcc, now: RowAcc, kind: Kind) {
    match kind
    case WorkReleased => now == was.(workReleased := was.workReleased + 1)
    case WorkUnitCompleted => now == was.(workUnitCompleted := was.workUnitCompleted + 1)
    case BacklogThresholdBreached => now == was.(backlogThresholdBreached := was.backlogThresholdBreached + 1)
    case PathThrottled => now == was.(pathThrottled := was.pathThrottled + 1)
    case RateDeviationDetected => now == was.(rateDeviationDetected := was.rateDeviationDetected + 1)
  }

  /** Only this row changed, by a counter; a new row starts from zero. */
  ghost predicate RowMoved(before: map<RowKey, RowAcc>, after: map<RowKey, RowAcc>, key: RowKey, kind: Kind) {
    && key in after && after == before[key := after[key]]
    && CounterMoved(if key in before then before[key] else RowAcc(0, 0, 0, 0, 0), after[key], kind)
  }

  lemma BumpMovesRow(rows: map<RowKey, RowAcc>, key: RowKey, kind: Kind)
    ensures RowMoved(rows, BumpAt(rows, key, kind), key, kind)
  {
  }

  class MemoryStore {
    var seen: set<EventId>
    var rows: map<RowKey, RowAcc>
    var latest: int
    ghost var history: seq<Fact>

    ghost predicate Valid()
      reads this
    {
      seen == Ids(history) && rows == RowsOf(history) && latest == LatestOf(history)
    }

    constructor ()
      ensures Valid() && history == [] && rows == map[]
    {
      seen, rows, latest, history := {}, map[], 0, [];
    }

    /** Marks the id; false for a duplicate. Moves the freshness watermark. */
    method FirstApply(id: EventId, at: int) returns (first: bool)
      modifies this`seen, this`latest
      ensures first <==> id !in old(seen)
      ensures seen == old(seen) + {id}
      ensures latest == if first && at > old(latest) then at else old(latest)
    {
      if id in seen {
        assert seen == seen + {id};
        return false;
      }
      seen := seen + {id};
      if at > latest { latest := at; }
      return true;
    }

    /** The row, created when missing, with the counter bumped. */
    method Bump(key: RowKey, kind: Kind)
      modifies this`rows
      ensures rows == BumpAt(old(rows), key, kind) && RowMoved(old(rows), rows, key, kind)
    {
      BumpMovesRow(rows, key, kind);
      rows := BumpAt(rows, key, kind);
    }

    /** The five Apply methods, which differ only in the counter they bump. */
    method Apply(f: Fact)
      requires Valid()
      modifies this
      ensures Valid() && history == old(history) + [f]
      ensures f.id in old(seen) ==> rows == old(rows) && seen == old(seen) && latest == old(latest)
      ensures f.id !in old(seen) ==> rows == WithBump(old(rows), f) && seen == old(seen) + {f.id}
      ensures f.id !in old(seen) ==> RowMoved(old(rows), rows, RowKey(f.path, HourBucket(f.at)), f.kind)
    {
      ghost var more := history + [f];
      OneMoreFact(history, f);
      var first := FirstApply(f.id, f.at);
      if first { Bump(KeyOf(f), f.kind); }
      history := more;
    }

    /** The rows whose hour lies in [from, until) and whose path passes the filter, in no order. */
    method RunQuery(q: Query) returns (out: seq<(RowKey, RowAcc)>)
      ensures forall i, j :: 0 <= i < j < |out| ==> out[i].0 != out[j].0
      ensures forall i :: 0 <= i < |out| ==>
        out[i].0 in rows && out[i].1 == rows[out[i].0] && Wanted(q, out[i].0)
      ensures forall k :: k in rows && Wanted(q, k) ==> exists i :: 0 <= i < |out| && out[i].0 == k
      ensures forall k :: k in Selected(rows, q) <==> exists i :: 0 <= i < |out| && out[i].0 == k
    {
      out := [];
      var rest := rows.Keys;
      while rest != {}
        invariant rest <= rows.Keys
        invariant forall i :: 0 <= i < |out| ==> out[i].0 !in rest
        invariant forall i, j :: 0 <= i < j < |out| ==> out[i].0 != out[j].0
        invariant forall i :: 0 <= i < |out| ==>
          out[i].0 in rows && out[i].1 == rows[out[i].0] && Wanted(q, out[i].0)
        invariant forall k :: k in rows && Wanted(q, k) && k !in rest ==> exists i :: 0 <= i < |out| && out[i].0 == k
        decreases rest
      {
        var k :| k in rest;
        rest := rest - {k};
        if k.hour < q.from || !(k.hour < q.until) { continue; }
        if q.path != "" && k.path != q.path { continue; }
        ghost var was := out;
        out := out + [(k, rows[k])];
        assert forall i :: 0 <= i < |was| ==> out[i] == was[i];
        assert out[|was|].0 == k;
      }
    }
  }

  /** The row lies in the hours asked for, and on the path asked for if one was. */
  ghost predicate Wanted(q: Query, k: RowKey) {
    q.from <= k.hour < q.until && (q.path == "" || q.path == k.path)
  }

  function Selected(rows: map<RowKey, RowAcc>, q: Query): map<RowKey, RowAcc> {
    map k | k in rows && q.from <= k.hour < q.until && (q.path == "" || k.path == q.path) :: rows[k]
  }

  // ---------- Theorems ----------

  /** When an id determines its event, each counter counts the distinct ids of its kind, path and hour. */
  lemma CountersAreDistinctIds(s: MemoryStore, key: RowKey, kind: Kind)
    requires s.Valid() && Coherent(s.history)
    ensures CountOf(s.rows, key, kind) == |MatchingIds(s.history, key, kind)|
    ensures Total(s.rows) == |Ids(s.history)|
  {
    FirstIdsAreMatching(s.history, key, kind);
    RowsCount(s.history);
    RowsTotal(s.history);
  }

  ghost predicate SameFacts(a: seq<Fact>, b: seq<Fact>) {
    forall f :: f in a <==> f in b
  }

  lemma SameMatching(a: seq<Fact>, b: seq<Fact>, key: RowKey, kind: Kind)
    requires forall f :: f in a ==> f in b
    ensures MatchingIds(a, key, kind) <= MatchingIds(b, key, kind)
  {
    forall id | id in MatchingIds(a, key, kind) ensures id in MatchingIds(b, key, kind) {
      var i :| 0 <= i < |a| && Matches(a[i], key, kind) && a[i].id == id;
      assert a[i] in b;
      var j :| 0 <= j < |b| && b[j] == a[i];
    }
  }

  /** Repeating and reordering the stream changes no row. */
  lemma OnlyTheFactsMatter(a: MemoryStore, b: MemoryStore)
    requires a.Valid() && b.Valid() && Coherent(a.history) && Coherent(b.history) && SameFacts(a.history, b.history)
    ensures a.rows == b.rows && a.latest == b.latest
  {
    forall key, kind ensures CountOf(a.rows, key, kind) == CountOf(b.rows, key, kind) {
      CountersAreDistinctIds(a, key, kind);
      CountersAreDistinctIds(b, key, kind);
      SameMatching(a.history, b.history, key, kind);
      SameMatching(b.history, a.history, key, kind);
      assert MatchingIds(a.history, key, kind) == MatchingIds(b.history, key, kind);
    }
    RowsTotal(a.history);
    RowsTotal(b.history);
    CountsFixRows(a.rows, b.rows);
    LatestIsNewest(a.history);
    LatestIsNewest(b.history);
    LatestBound(a.history, b.history, a.latest, b.latest);
    LatestBound(b.history, a.history, b.latest, a.latest);
  }

  /** Rows without zero sums are determined by their counters. */
  lemma CountsFixRows(a: map<RowKey, RowAcc>, b: map<RowKey, RowAcc>)
    requires (forall k :: k in a ==> a[k].Sum() > 0) && (forall k :: k in b ==> b[k].Sum() > 0)
    requires forall key, kind :: CountOf(a, key, kind) == CountOf(b, key, kind)
    ensures a == b
  {
    forall key
      ensures key in a <==> key in b
      ensures key in a ==> a[key] == b[key]
    {
      assert CountOf(a, key, WorkReleased) == CountOf(b, key, WorkReleased);
      assert CountOf(a, key, WorkUnitCompleted) == CountOf(b, key, WorkUnitCompleted);
      assert CountOf(a, key, BacklogThresholdBreached) == CountOf(b, key, BacklogThresholdBreached);
      assert CountOf(a, key, PathThrottled) == CountOf(b, key, PathThrottled);
      assert CountOf(a, key, RateDeviationDetected) == CountOf(b, key, RateDeviationDetected);
    }
  }

  lemma LatestBound(a: seq<Fact>, b: seq<Fact>, la: int, lb: int)
    requires IsLatest(a, la) && IsLatest(b, lb) && Coherent(b) && forall f :: f in a ==> f in b
    ensures la <= lb
  {
    if la != 0 {
      var i :| 0 <= i < |a| && a[i].at == la;
      assert a[i] in b;
    }
  }

  /** Neighbouring windows split the rows, and the totals, of the whole one. */
  lemma WindowsPartition(rows: map<RowKey, RowAcc>, path: string, a: int, b: int, c: int)
    requires a <= b <= c
    ensures Selected(rows, Query(path, a, b)).Keys !! Selected(rows, Query(path, b, c)).Keys
    ensures Selected(rows, Query(path, a, c)) == Selected(rows, Query(path, a, b)) + Selected(rows, Query(path, b, c))
    ensures Total(Selected(rows, Query(path, a, c))) == Total(Selected(rows, Query(path, a, b))) +
      Total(Selected(rows, Query(path, b, c)))
  {
    TotalOfUnion(Selected(rows, Query(path, a, b)), Selected(rows, Query(path, b, c)));
  }

  /** A query on hour boundaries selects an event's row exactly when it asks for its path and time. */
  lemma AlignedWindowIsByTime(rows: map<RowKey, RowAcc>, f: Fact, q: Query)
    requires q.from % 3600 == 0 && q.until % 3600 == 0
    ensures KeyOf(f) in Selected(WithBump(rows, f), q) <==>
      q.from <= f.at < q.until && (q.path == "" || q.path == f.path)
  {
    AlignedBound(f.at, q.from);
    AlignedBound(f.at, q.until);
  }

  lemma AlignedBound(at: int, bound: int)
    requires bound % 3600 == 0
    ensures bound <= HourBucket(at) <==> bound <= at
  {
    var q := bound / 3600;
    assert bound == q * 3600;
    assert q <= at / 3600 <==> q * 3600 <= at;
  }
}
