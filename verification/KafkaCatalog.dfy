/**
 The path catalogue as replayed from a partitioned topic: a fold over the events in whatever
 order the partitions are interleaved, and a gate that opens once the backlog has been read.
 */
module KafkaCatalog {
  import opened Types
  import opened PathCatalog
  import opened Environments

  /** What a message decodes to; `Skipped` when it is malformed or of another type. */
  datatype PathEvent =
    | Upsert(path: string, def: PathDefinition)
    | Deactivate(path: string)
    | Skipped

  datatype Record = Record(offset: nat, event: PathEvent)

  type Log = map<nat, seq<Record>>

  type Paths = map<string, PathDefinition>

  /** One record as it was read, with the partition it came from. */
  datatype Read = Read(partition: nat, record: Record)

  function Apply(upper: Casing, paths: Paths, event: PathEvent): Paths {
    match event
    case Upsert(path, def) => paths[upper(path) := def]
    case Deactivate(path) => paths - {upper(path)}
    case Skipped => paths
  }

  function Fold(upper: Casing, history: seq<Read>): Paths {
    if history == [] then map[]
    else Apply(upper, Fold(upper, history[..|history| - 1]), history[|history| - 1].record.event)
  }

  /** The reads of one partition, in order. */
  function OnPartition(history: seq<Read>, p: nat): seq<Record> {
    if history == [] then []
    else OnPartition(history[..|history| - 1], p)
         + (if history[|history| - 1].partition == p then [history[|history| - 1].record] else [])
  }

  predicate Names(upper: Casing, event: PathEvent, key: string) {
    !event.Skipped? && upper(event.path) == key
  }

  /** The last event about `key`. */
  function LastAbout(upper: Casing, records: seq<Record>, key: string): PathEvent {
    if records == [] then Skipped
    else if Names(upper, records[|records| - 1].event, key) then records[|records| - 1].event
    else LastAbout(upper, records[..|records| - 1], key)
  }

  // ---------- Every interleaving gives the same catalogue ----------

  /** Events about the same path are only ever found on one partition. */
  ghost predicate OneHome(upper: Casing, history: seq<Read>, home: string -> nat) {
    forall i :: 0 <= i < |history| && !history[i].record.event.Skipped? ==>
      home(upper(history[i].record.event.path)) == history[i].partition
  }

  /** What the catalogue says of a key is what the last event about it on its partition says. */
  lemma {:induction false} FoldIsLastAbout(upper: Casing, history: seq<Read>, home: string -> nat, key: string)
    requires OneHome(upper, history, home)
    ensures var last := LastAbout(upper, OnPartition(history, home(key)), key);
      if last.Upsert? then key in Fold(upper, history) && Fold(upper, history)[key] == last.def
      else key !in Fold(upper, history)
  {
    if history != [] {
      var n := |history| - 1;
      FoldIsLastAbout(upper, history[..n], home, key);
      var r := history[n];
      assert Names(upper, r.record.event, key) ==> r.partition == home(key);
      var before := OnPartition(history[..n], home(key));
      if r.partition == home(key) {
        assert (before + [r.record])[..|before|] == before;
      } else {
        assert OnPartition(history, home(key)) == before;
      }
    }
  }

  /** Two interleavings of the same partition logs build the same catalogue. */
  lemma InterleavingsAgree(upper: Casing, a: seq<Read>, b: seq<Read>, home: string -> nat)
    requires OneHome(upper, a, home) && OneHome(upper, b, home)
    requires forall p :: OnPartition(a, p) == OnPartition(b, p)
    ensures Fold(upper, a) == Fold(upper, b)
  {
    forall key
      ensures key in Fold(upper, a) <==> key in Fold(upper, b)
      ensures key in Fold(upper, a) ==> Fold(upper, a)[key] == Fold(upper, b)[key]
    {
      FoldIsLastAbout(upper, a, home, key);
      FoldIsLastAbout(upper, b, home, key);
    }
  }

  /** Without that, the order of reading shows: one path's events on two partitions. */
  lemma SplitPathDisagrees(upper: Casing, path: string, def: PathDefinition, o: nat)
    ensures var up, down := Read(0, Record(o, Upsert(path, def))), Read(1, Record(o, Deactivate(path)));
      && (forall p :: OnPartition([up, down], p) == OnPartition([down, up], p))
      && Fold(upper, [up, down]) != Fold(upper, [down, up])
  {
    var up, down := Read(0, Record(o, Upsert(path, def))), Read(1, Record(o, Deactivate(path)));
    assert [up, down][..1] == [up] && [down, up][..1] == [down] && [up][..0] == [] && [down][..0] == [];
    forall p ensures OnPartition([up, down], p) == OnPartition([down, up], p) {
      assert OnPartition([up], p) == (if p == 0 then [up.record] else []);
      assert OnPartition([down], p) == (if p == 1 then [down.record] else []);
    }
    assert upper(path) in Fold(upper, [down, up]);
    assert upper(path) !in Fold(upper, [up, down]);
  }

  // ---------- Exactly when the order of reading shows ----------

  function At(paths: Paths, key: string): Option<PathDefinition> {
    if key in paths then Some(paths[key]) else None
  }

  /** What an event leaves in the catalogue for its path. */
  function EffectOf(event: PathEvent): Option<PathDefinition> {
    if event.Upsert? then Some(event.def) else None
  }

  /** The last event about `key` over all partitions. */
  function LastOf(upper: Casing, history: seq<Read>, key: string): PathEvent {
    if history == [] then Skipped
    else if Names(upper, history[|history| - 1].record.event, key) then history[|history| - 1].record.event
    else LastOf(upper, history[..|history| - 1], key)
  }

  ghost predicate SameLogs(a: seq<Read>, b: seq<Read>) {
    forall p :: OnPartition(a, p) == OnPartition(b, p)
  }

  /** Where two partitions both have a last word on a path, the two words come to the same. */
  ghost predicate OneStory(upper: Casing, history: seq<Read>) {
    forall key, p, q :: !Last(upper, history, p, key).Skipped? && !Last(upper, history, q, key).Skipped? ==>
      EffectOf(Last(upper, history, p, key)) == EffectOf(Last(upper, history, q, key))
  }

  function Last(upper: Casing, history: seq<Read>, p: nat, key: string): PathEvent {
    LastAbout(upper, OnPartition(history, p), key)
  }

  lemma {:induction false} FoldAt(upper: Casing, history: seq<Read>, key: string)
    ensures At(Fold(upper, history), key) == EffectOf(LastOf(upper, history, key))
  {
    if history != [] { FoldAt(upper, history[..|history| - 1], key); }
  }

  /** The last word on a path is the last word of some partition. */
  lemma {:induction false} LastIsSomewhere(upper: Casing, history: seq<Read>, key: string) returns (p: nat)
    requires !LastOf(upper, history, key).Skipped?
    ensures Last(upper, history, p, key) == LastOf(upper, history, key)
  {
    var n := |history| - 1;
    var r := history[n];
    if Names(upper, r.record.event, key) {
      p := r.partition;
      var before := OnPartition(history[..n], p);
      assert (before + [r.record])[..|before|] == before;
    } else {
      p := LastIsSomewhere(upper, history[..n], key);
      var before := OnPartition(history[..n], p);
      if r.partition == p {
        assert (before + [r.record])[..|before|] == before;
      } else {
        assert OnPartition(history, p) == before;
      }
    }
  }

  /** The same reads, those of partition `p` after all others. */
  function MoveLast(history: seq<Read>, p: nat): seq<Read> {
    Others(history, p) + Only(history, p)
  }

  function Others(history: seq<Read>, p: nat): seq<Read> {
    if history == [] then []
    else
      var r := history[|history| - 1];
      Others(history[..|history| - 1], p) + (if r.partition != p then [r] else [])
  }

  function Only(history: seq<Read>, p: nat): seq<Read> {
    if history == [] then []
    else
      var r := history[|history| - 1];
      Only(history[..|history| - 1], p) + (if r.partition == p then [r] else [])
  }

  lemma {:induction false} OnPartitionConcat(a: seq<Read>, b: seq<Read>, q: nat)
    ensures OnPartition(a + b, q) == OnPartition(a, q) + OnPartition(b, q)
    decreases |b|
  {
    if b == [] {
      assert a + b == a;
    } else {
      assert (a + b)[..|a + b| - 1] == a + b[..|b| - 1];
      OnPartitionConcat(a, b[..|b| - 1], q);
    }
  }

  lemma OnPartitionAppend(a: seq<Read>, r: Read, q: nat)
    ensures OnPartition(a + [r], q) == OnPartition(a, q) + (if r.partition == q then [r.record] else [])
  {
    assert (a + [r])[..|a|] == a;
  }

  lemma {:induction false} OthersOnPartition(history: seq<Read>, p: nat, q: nat)
    ensures OnPartition(Others(history, p), q) == if q == p then [] else OnPartition(history, q)
  {
    if history != [] {
      var n := |history| - 1;
      OthersOnPartition(history[..n], p, q);
      if history[n].partition != p {
        OnPartitionAppend(Others(history[..n], p), history[n], q);
      } else {
        assert Others(history, p) == Others(history[..n], p);
      }
    }
  }

  lemma {:induction false} OnlyOnPartition(history: seq<Read>, p: nat, q: nat)
    ensures OnPartition(Only(history, p), q) == if q == p then OnPartition(history, q) else []
  {
    if history != [] {
      var n := |history| - 1;
      OnlyOnPartition(history[..n], p, q);
      if history[n].partition == p {
        OnPartitionAppend(Only(history[..n], p), history[n], q);
      } else {
        assert Only(history, p) == Only(history[..n], p);
      }
    }
  }

  lemma MoveLastKeepsLogs(history: seq<Read>, p: nat)
    ensures SameLogs(history, MoveLast(history, p))
  {
    forall q ensures OnPartition(history, q) == OnPartition(MoveLast(history, p), q) {
      OnPartitionConcat(Others(history, p), Only(history, p), q);
      OthersOnPartition(history, p, q);
      OnlyOnPartition(history, p, q);
    }
  }

  lemma {:induction false} LastOfConcat(upper: Casing, a: seq<Read>, b: seq<Read>, key: string)
    requires !LastOf(upper, b, key).Skipped?
    ensures LastOf(upper, a + b, key) == LastOf(upper, b, key)
    decreases |b|
  {
    assert (a + b)[..|a + b| - 1] == a + b[..|b| - 1];
    if !Names(upper, b[|b| - 1].record.event, key) { LastOfConcat(upper, a, b[..|b| - 1], key); }
  }

  lemma {:induction false} LastOfOnly(upper: Casing, history: seq<Read>, p: nat, key: string)
    ensures LastOf(upper, Only(history, p), key) == Last(upper, history, p, key)
  {
    if history != [] {
      var n := |history| - 1;
      LastOfOnly(upper, history[..n], p, key);
      if history[n].partition == p {
        var before, log := Only(history[..n], p), OnPartition(history[..n], p);
        assert (before + [history[n]])[..|before|] == before;
        assert (log + [history[n].record])[..|log|] == log;
      } else {
        assert Only(history, p) == Only(history[..n], p);
        assert OnPartition(history, p) == OnPartition(history[..n], p);
      }
    }
  }

  /** Read last, a partition has the last word on the paths it names. */
  lemma LastPartitionDecides(upper: Casing, history: seq<Read>, p: nat, key: string)
    requires !Last(upper, history, p, key).Skipped?
    ensures At(Fold(upper, MoveLast(history, p)), key) == EffectOf(Last(upper, history, p, key))
  {
    LastOfOnly(upper, history, p, key);
    LastOfConcat(upper, Others(history, p), Only(history, p), key);
    FoldAt(upper, MoveLast(history, p), key);
  }

  lemma OneStoryAgrees(upper: Casing, a: seq<Read>, b: seq<Read>, key: string)
    requires OneStory(upper, a) && SameLogs(a, b)
    ensures At(Fold(upper, a), key) == At(Fold(upper, b), key)
  {
    FoldAt(upper, a, key);
    FoldAt(upper, b, key);
    forall p ensures Last(upper, a, p, key) == Last(upper, b, p, key) { assert OnPartition(a, p) == OnPartition(b, p); }
    if !LastOf(upper, a, key).Skipped? {
      var p := LastIsSomewhere(upper, a, key);
      NamedIsRead(upper, b, p, key);
      var q := LastIsSomewhere(upper, b, key);
      assert Last(upper, a, q, key) == Last(upper, b, q, key);
    } else if !LastOf(upper, b, key).Skipped? {
      var q := LastIsSomewhere(upper, b, key);
      NamedIsRead(upper, a, q, key);
    }
  }

  lemma {:induction false} NamedIsRead(upper: Casing, history: seq<Read>, p: nat, key: string)
    requires !Last(upper, history, p, key).Skipped?
    ensures !LastOf(upper, history, key).Skipped?
  {
    var n := |history| - 1;
    var before := OnPartition(history[..n], p);
    if history[n].partition == p {
      assert (before + [history[n].record])[..|before|] == before;
    } else {
      assert OnPartition(history, p) == before;
    }
    if !Names(upper, history[n].record.event, key) { NamedIsRead(upper, history[..n], p, key); }
  }

  ghost predicate OrderShows(upper: Casing, history: seq<Read>) {
    exists b :: SameLogs(history, b) && Fold(upper, b) != Fold(upper, history)
  }

  /** All interleavings of the same logs agree exactly when the partitions tell one story of each path. */
  lemma InterleavingsAgreeIff(upper: Casing, history: seq<Read>)
    ensures !OrderShows(upper, history) <==> OneStory(upper, history)
  {
    if OneStory(upper, history) {
      forall b | SameLogs(history, b) ensures Fold(upper, b) == Fold(upper, history) {
        forall key
          ensures At(Fold(upper, b), key) == At(Fold(upper, history), key)
        {
          OneStoryAgrees(upper, history, b, key);
        }
        SameAt(Fold(upper, b), Fold(upper, history));
      }
    } else {
      var key, p, q :| !Last(upper, history, p, key).Skipped? && !Last(upper, history, q, key).Skipped?
        && EffectOf(Last(upper, history, p, key)) != EffectOf(Last(upper, history, q, key));
      LastPartitionDecides(upper, history, p, key);
      LastPartitionDecides(upper, history, q, key);
      MoveLastKeepsLogs(history, p);
      MoveLastKeepsLogs(history, q);
    }
  }

  lemma SameAt(a: Paths, b: Paths)
    requires forall key :: At(a, key) == At(b, key)
    ensures a == b
  {
    forall key ensures key in a <==> key in b { assert At(a, key) == At(b, key); }
    forall key | key in a ensures a[key] == b[key] { assert At(a, key) == At(b, key); }
  }

  // ---------- The consumer ----------

  ghost predicate Ordered(records: seq<Record>) {
    forall i, j :: 0 <= i < j < |records| ==> records[i].offset < records[j].offset
  }

  /** Some record at or past the last one before the target has been read. */
  ghost predicate Passed(read: seq<Record>, target: nat) {
    exists i :: 0 <= i < |read| && read[i].offset + 1 >= target
  }

  /** How many messages of each partition have been read. */
  function Positions(log: Log, history: seq<Read>): (m: map<nat, nat>)
    ensures log.Keys <= m.Keys
  {
    if history == [] then map p | p in log :: 0
    else
      var m, p := Positions(log, history[..|history| - 1]), history[|history| - 1].partition;
      m[p := (if p in m then m[p] else 0) + 1]
  }

  /** Each read took the next message of its partition. */
  ghost predicate Replays(log: Log, history: seq<Read>) {
    history == [] ||
    (var before, r := history[..|history| - 1], history[|history| - 1];
     && Replays(log, before) && r.partition in log
     && Positions(log, before)[r.partition] < |log[r.partition]|
     && r.record == log[r.partition][Positions(log, before)[r.partition]])
  }

  /** The start-up targets not yet passed: each is struck off by the first read at or past its end. */
  function Awaited(start: map<nat, nat>, history: seq<Read>): map<nat, nat> {
    if history == [] then start
    else
      var t, r := Awaited(start, history[..|history| - 1]), history[|history| - 1];
      if r.partition in t && r.record.offset + 1 >= t[r.partition] then t - {r.partition} else t
  }

  /** The reads are, partition by partition, the log up to the position reached. */
  lemma {:induction false} ReplayIsPrefix(log: Log, history: seq<Read>, p: nat)
    requires Replays(log, history) && p in log
    ensures Positions(log, history)[p] <= |log[p]|
    ensures OnPartition(history, p) == log[p][..Positions(log, history)[p]]
  {
    if history != [] {
      var n := |history| - 1;
      ReplayIsPrefix(log, history[..n], p);
      var k := Positions(log, history[..n])[p];
      if history[n].partition == p { assert log[p][..k + 1] == log[p][..k] + [log[p][k]]; }
    }
  }

  /** A partition is still awaited exactly while its start-up target has not been passed. */
  lemma {:induction false} AwaitedIsNotPassed(start: map<nat, nat>, history: seq<Read>, p: nat)
    ensures p in Awaited(start, history) <==> p in start && !Passed(OnPartition(history, p), start[p])
    ensures p in Awaited(start, history) ==> Awaited(start, history)[p] == start[p]
  {
    if history != [] {
      var n := |history| - 1;
      AwaitedIsNotPassed(start, history[..n], p);
      var before := OnPartition(history[..n], p);
      if history[n].partition != p {
        assert OnPartition(history, p) == before;
      } else if p in start {
        PassedNext(before, history[n].record, start[p]);
      }
    }
  }

  /** The positions after one more delivery of partition `p`, which may have nothing more to give. */
  ghost function ReadOnce(log: Log, at: map<nat, nat>, p: nat): map<nat, nat> {
    if p in log && p in at && at[p] < |log[p]| then at[p := at[p] + 1] else at
  }

  ghost function ReadOn(log: Log, at: map<nat, nat>, order: seq<nat>): map<nat, nat> {
    if order == [] then at else ReadOnce(log, ReadOn(log, at, order[..|order| - 1]), order[|order| - 1])
  }

  /** Every partition is read on as often as it is delivered, as far as it goes. */
  lemma {:induction false} ReadsEveryPartition(log: Log, at: map<nat, nat>, order: seq<nat>, p: nat)
    requires p in log && p in at && at[p] <= |log[p]|
    ensures var n := at[p] + multiset(order)[p];
      p in ReadOn(log, at, order) && ReadOn(log, at, order)[p] == if n < |log[p]| then n else |log[p]|
  {
    if order != [] {
      var k := |order| - 1;
      ReadsEveryPartition(log, at, order[..k], p);
      assert order == order[..k] + [order[k]];
    }
  }

  class CatalogueConsumer {
    const env: Environment
    const log: Log
    const upper: Casing
    const lower: Casing
    ghost const startTarget: map<nat, nat>
    var paths: Paths
    var ready: bool
    var channelClosed: bool
    var target: map<nat, nat>
    var position: map<nat, nat>
    ghost var history: seq<Read>

    ghost predicate Valid()
      reads this
    {
      && (forall p :: p in log ==> Ordered(log[p]))
      && startTarget.Keys <= log.Keys
      && Replays(log, history) && position == Positions(log, history)
      && paths == Fold(upper, history) && target == Awaited(startTarget, history)
      && (ready <==> target == map[]) && channelClosed == ready
    }

    constructor (env: Environment, log: Log, target: map<nat, nat>, upper: Casing, lower: Casing)
      requires (forall p :: p in log ==> Ordered(log[p])) && target.Keys <= log.Keys
      ensures Valid() && this.log == log && this.startTarget == target && this.upper == upper && this.lower == lower
      ensures paths == map[] && ready == (target == map[]) && this.env == env
    {
      this.env := env;
      this.log, this.upper, this.lower, this.startTarget := log, upper, lower, target;
      paths, ready, channelClosed, this.target, history := map[], false, false, target, [];
      position := map p | p in log :: 0;
      new;
      if target == map[] { MarkReady(); }
    }

    /** Closing a closed channel would panic. */
    method CloseChannel()
      requires !channelClosed
      modifies this`channelClosed
      ensures channelClosed
    {
      channelClosed := true;
    }

    method MarkReady()
      requires channelClosed == ready
      modifies this`ready, this`channelClosed
      ensures ready && channelClosed
    {
      var alreadyReady := ready;
      ready := true;
      if !alreadyReady { CloseChannel(); }
    }

    method CheckReady(p: nat, offset: nat)
      requires (ready <==> target == map[]) && channelClosed == ready
      modifies this`target, this`ready, this`channelClosed
      ensures (ready <==> target == map[]) && channelClosed == ready
      ensures target == if p in old(target) && offset + 1 >= old(target)[p] then old(target) - {p} else old(target)
    {
      if ready || p !in target { return; }
      if offset + 1 < target[p] { return; }
      assert target.Keys != {};
      target := target - {p};
      if |target| == 0 { MarkReady(); }
    }

    method Handle(event: PathEvent)
      modifies this`paths
      ensures paths == Apply(upper, old(paths), event)
      ensures event.Upsert? ==> paths == old(paths)[upper(event.path) := event.def]
      ensures event.Deactivate? ==> paths == old(paths) - {upper(event.path)}
      ensures event.Skipped? ==> paths == old(paths)
    {
      match event
      case Upsert(path, def) => paths := paths[upper(path) := def];
      case Deactivate(path) => paths := paths - {upper(path)};
      case Skipped =>
    }

    /** Reads and handles the next message of one partition; a malformed one is only skipped. */
    method Next(p: nat)
      requires Valid() && p in log && position[p] < |log[p]|
      modifies this
      ensures Valid()
      ensures position == old(position)[p := old(position)[p] + 1]
      ensures history == old(history) + [Read(p, log[p][old(position)[p]])]
      ensures old(ready) ==> ready
    {
      var r := log[p][position[p]];
      ReplayIsPrefix(log, history, p);
      ghost var before := history;
      history := history + [Read(p, r)];
      assert history[..|history| - 1] == before;
      position := position[p := position[p] + 1];
      Handle(r.event);
      CheckReady(p, r.offset);
    }

    /** How many messages of the partition have been read. */
    ghost function Position(p: nat): nat
      reads this
    {
      if p in position then position[p] else 0
    }

    /** Reads messages in whatever order the broker delivers the partitions. */
    method Run(order: seq<nat>)
      requires Valid()
      modifies this, env
      ensures Valid() && (old(ready) ==> ready)
      ensures env.TroubledSince(old(env.Now())) || position == ReadOn(log, old(position), order)
    {
      ghost var was, from, began := ready, position, env.Now();
      for i := 0 to |order|
        invariant Valid() && (was ==> ready) && env.LaterThan(began)
        invariant position == ReadOn(log, from, order[..i])
      {
        assert order[..i + 1][..i] == order[..i];
        var ok := Deliver(order[i]);
        if !ok { return; }
      }
      assert order[..|order|] == order;
    }

    /** One delivery; fails when the reader does, or the context was cancelled. */
    method Deliver(p: nat) returns (ok: bool)
      requires Valid()
      modifies this, env
      ensures Valid() && (old(ready) ==> ready)
      ensures env.steps == old(env.steps) + 1 && env.waits == old(env.waits)
      ensures !ok ==> env.fate(env.steps - 1) != Goes
      ensures ok ==> position == ReadOnce(log, old(position), p)
    {
      var fate := env.Try();
      ok := fate == Goes;
      if ok && p in log && position[p] < |log[p]| { Next(p); }
    }

    /** A longest match among the current definitions; which one, on a tie, is up to the map's order. */
    method Lookup(id: string) returns (answer: Option<PathDefinition>)
      ensures answer == None <==> forall k :: k in paths ==> !Recognizes(lower, paths[k], id)
      ensures answer.Some? ==> exists k :: k in paths && paths[k] == answer.value && Recognizes(lower, paths[k], id)
      ensures answer.Some? ==> forall k :: k in paths && Recognizes(lower, paths[k], id) ==>
        |lower(paths[k].matchPrefix)| <= |lower(answer.value.matchPrefix)|
    {
      var out: seq<PathDefinition>, rest := [], paths.Keys;
      while rest != {}
        invariant rest <= paths.Keys
        invariant forall d :: d in out <==> exists k :: k in paths && k !in rest && paths[k] == d
        decreases rest
      {
        var k :| k in rest;
        out := out + [paths[k]];
        rest := rest - {k};
      }
      var c := new Catalogue(out, lower);
      answer := c.Lookup(id);
      assert forall k :: k in paths ==> paths[k] in out;
    }
  }

  /** Reading one more record passes the target exactly if that record does, or it was passed. */
  lemma PassedNext(was: seq<Record>, r: Record, target: nat)
    ensures Passed(was + [r], target) <==> Passed(was, target) || r.offset + 1 >= target
  {
    var now := was + [r];
    if i :| 0 <= i < |was| && was[i].offset + 1 >= target { assert now[i] == was[i]; }
    if r.offset + 1 >= target { assert now[|was|] == r; }
    if i :| 0 <= i < |now| && now[i].offset + 1 >= target { assert i < |was| ==> was[i] == now[i]; }
  }

  /** Ready exactly when every partition that had a backlog was read up to its end. */
  lemma ReadyMeansCaughtUp(c: CatalogueConsumer)
    requires c.Valid()
    ensures c.ready <==> forall p :: p in c.startTarget ==> Passed(OnPartition(c.history, p), c.startTarget[p])
    ensures c.channelClosed <==> c.ready
  {
    forall p ensures p in c.target <==> p in c.startTarget && !Passed(OnPartition(c.history, p), c.startTarget[p]) {
      AwaitedIsNotPassed(c.startTarget, c.history, p);
    }
    if c.target != map[] {
      assert c.target.Keys != {};
      var p :| p in c.target;
    }
  }

  /** Once ready, every message that was below a start-up target has been read and handled. */
  lemma ReadyHandledBacklog(c: CatalogueConsumer, p: nat, i: nat)
    requires c.Valid() && c.ready && p in c.startTarget && i < |c.log[p]| && c.log[p][i].offset < c.startTarget[p]
    ensures p in c.position && i < c.position[p] && c.log[p][i] in OnPartition(c.history, p)
  {
    ReadyMeansCaughtUp(c);
    ReplayIsPrefix(c.log, c.history, p);
    var read := OnPartition(c.history, p);
    var k :| 0 <= k < |read| && read[k].offset + 1 >= c.startTarget[p];
    assert c.log[p][k] == read[k];
    assert i <= k;
    assert read[i] == c.log[p][i];
  }

  /** Each path's events are kept on one partition of the log. */
  ghost predicate OneHomeLog(upper: Casing, log: Log, home: string -> nat) {
    forall p, i :: p in log && 0 <= i < |log[p]| && !log[p][i].event.Skipped? ==> home(upper(log[p][i].event.path)) == p
  }

  lemma {:induction false} ReadsStayHome(upper: Casing, log: Log, history: seq<Read>, home: string -> nat)
    requires Replays(log, history) && OneHomeLog(upper, log, home)
    ensures OneHome(upper, history, home)
  {
    if history != [] { ReadsStayHome(upper, log, history[..|history| - 1], home); }
  }

  lemma {:induction false} NothingElsewhere(log: Log, history: seq<Read>, p: nat)
    requires Replays(log, history) && p !in log
    ensures OnPartition(history, p) == []
  {
    if history != [] { NothingElsewhere(log, history[..|history| - 1], p); }
  }

  /** Two replicas that read equally far hold the same catalogue, however their reads interleaved. */
  lemma ReplicasAgree(a: CatalogueConsumer, b: CatalogueConsumer, home: string -> nat)
    requires a.Valid() && b.Valid() && a.log == b.log && a.upper == b.upper && a.position == b.position
    requires OneHomeLog(a.upper, a.log, home)
    ensures a.paths == b.paths
  {
    ReadsStayHome(a.upper, a.log, a.history, home);
    ReadsStayHome(b.upper, b.log, b.history, home);
    forall p ensures OnPartition(a.history, p) == OnPartition(b.history, p) {
      if p in a.log {
        ReplayIsPrefix(a.log, a.history, p);
        ReplayIsPrefix(b.log, b.history, p);
      } else {
        NothingElsewhere(a.log, a.history, p);
        NothingElsewhere(b.log, b.history, p);
      }
    }
    InterleavingsAgree(a.upper, a.history, b.history, home);
  }
}
