/** What every sequence of calls on one work pool keeps, calls that fail included. */
module PoolCalls {
  import opened Types
  import opened PoolSpec

  datatype Call =
    | EnqueueCall(id: UnitId, cpt: Time)
    | ReleaseNextCall
    | ReleaseCall(id: UnitId)
    | CompleteCall(id: UnitId)
    | RestoreCall(id: UnitId, cpt: Time, isReleased: bool, isCompleted: bool)
    | ReconcileCall(id: UnitId, unitReleased: bool, unitCompleted: bool)

  function OrElse(r: Result<Pool, PoolError>, p: Pool): Pool {
    match r
    case Ok(q) => q
    case Err(_) => p
  }

  /** The pool after the call; a call that reports an error leaves it as it was. */
  function After(p: Pool, call: Call): Pool {
    match call
    case EnqueueCall(id, cpt) => OrElse(Enqueue(p, id, cpt), p)
    case ReleaseNextCall => if ReleaseNext(p).Ok? then ReleaseNext(p).value.1 else p
    case ReleaseCall(id) => OrElse(Release(p, id), p)
    case CompleteCall(id) => OrElse(Complete(p, id), p)
    case RestoreCall(id, cpt, released, completed) => OrElse(RestoreEntry(p, id, cpt, released, completed), p)
    case ReconcileCall(id, released, completed) => OrElse(Reconcile(p, id, released, completed), p)
  }

  function AfterAll(p: Pool, calls: seq<Call>): Pool {
    if calls == [] then p else After(AfterAll(p, calls[..|calls| - 1]), calls[|calls| - 1])
  }

  /** Entries are only appended; those there keep id, CPT and place, and never move backwards. */
  ghost predicate Grown(p: Pool, q: Pool) {
    && q.(entries := p.entries) == p
    && |p.entries| <= |q.entries|
    && forall i :: 0 <= i < |p.entries| ==>
         q.entries[i].(stage := p.entries[i].stage) == p.entries[i]
         && p.entries[i].stage.Rank() <= q.entries[i].stage.Rank()
  }

  lemma AppendKeeps(p: Pool, e: Entry)
    requires Distinct(p.entries) && !HasId(p.entries, e.id)
    ensures Distinct(p.entries + [e]) && Grown(p, p.(entries := p.entries + [e]))
  {
    assert forall i :: 0 <= i < |p.entries| ==> (p.entries + [e])[i] == p.entries[i];
  }

  lemma StageKeeps(p: Pool, i: nat, st: Stage)
    requires Distinct(p.entries) && i < |p.entries| && p.entries[i].stage.Rank() <= st.Rank()
    ensures Distinct(WithStage(p, i, st).entries) && Grown(p, WithStage(p, i, st))
  {
    var q := WithStage(p, i, st);
    assert forall k :: 0 <= k < |p.entries| && k != i ==> q.entries[k] == p.entries[k];
  }

  predicate Adds(call: Call) { call.EnqueueCall? || call.RestoreCall? }

  lemma AddKeeps(p: Pool, call: Call)
    requires Distinct(p.entries) && Adds(call)
    ensures Distinct(After(p, call).entries) && Grown(p, After(p, call))
  {
    match call
    case EnqueueCall(id, cpt) => if !HasId(p.entries, id) { AppendKeeps(p, Entry(id, cpt, Pending)); }
    case RestoreCall(id, cpt, r, c) => if !HasId(p.entries, id) { AppendKeeps(p, Entry(id, cpt, StageOf(r, c))); }
  }

  lemma ReconcileKeeps(p: Pool, id: UnitId, released: bool, completed: bool)
    requires Distinct(p.entries)
    ensures var q := After(p, ReconcileCall(id, released, completed)); Distinct(q.entries) && Grown(p, q)
  {
    var i := IndexOf(p.entries, id);
    if i < |p.entries| { StageKeeps(p, i, Reconciled(p.entries[i].stage, released, completed)); }
  }

  lemma CallKeeps(p: Pool, call: Call)
    requires Distinct(p.entries)
    ensures Distinct(After(p, call).entries) && Grown(p, After(p, call))
  {
    match call
    case EnqueueCall(_, _) => AddKeeps(p, call);
    case RestoreCall(_, _, _, _) => AddKeeps(p, call);
    case ReleaseNextCall => if ReleaseNext(p).Ok? { StageKeeps(p, NextPending(p.entries), Released); }
    case ReleaseCall(id) => if Release(p, id).Ok? { StageKeeps(p, IndexOf(p.entries, id), Released); }
    case CompleteCall(id) =>
      if Complete(p, id).Ok? && Complete(p, id) != Ok(p) { StageKeeps(p, IndexOf(p.entries, id), Completed); }
    case ReconcileCall(id, r, c) => ReconcileKeeps(p, id, r, c);
  }

  /** No sequence of calls removes, reorders, re-dates or turns back an entry. */
  lemma {:induction false} CallsKeep(p: Pool, calls: seq<Call>)
    requires Distinct(p.entries)
    ensures Distinct(AfterAll(p, calls).entries) && Grown(p, AfterAll(p, calls))
  {
    if calls != [] {
      var n := |calls| - 1;
      CallsKeep(p, calls[..n]);
      CallKeeps(AfterAll(p, calls[..n]), calls[n]);
    }
  }

  // ---------- The WIP limit ----------

  /** The calls that never look at the limit although they can raise the WIP. */
  predicate Unguarded(p: Pool, call: Call) {
    match call
    case RestoreCall(id, _, released, completed) => !HasId(p.entries, id) && StageOf(released, completed) == Released
    case ReconcileCall(id, released, completed) =>
      var i := IndexOf(p.entries, id);
      i < |p.entries| && p.entries[i].stage == Pending && released && !completed
    case _ => false
  }

  predicate PoolWithinLimit(p: Pool) {
    p.mode == ReleaseFed ==> Count(p.entries, Released) <= p.wipLimit
  }

  lemma CountAppend(es: seq<Entry>, e: Entry, st: Stage)
    ensures Count(es + [e], st) == Count(es, st) + (if e.stage == st then 1 else 0)
  {
    assert (es + [e])[..|es|] == es;
  }

  lemma AppendLimit(p: Pool, e: Entry)
    requires PoolWithinLimit(p)
    ensures !PoolWithinLimit(p.(entries := p.entries + [e])) <==> e.stage == Released && AtLimit(p)
  {
    CountAppend(p.entries, e, Released);
  }

  lemma StageLimit(p: Pool, i: nat, st: Stage)
    requires PoolWithinLimit(p) && i < |p.entries|
    ensures !PoolWithinLimit(WithStage(p, i, st)) <==> st == Released && p.entries[i].stage != Released && AtLimit(p)
  {
    CountUpdate(p.entries, i, p.entries[i].(stage := st), Released);
  }

  /** A single call leaves the limit exactly when it is unguarded and meets a pool that is full. */
  lemma LimitLeftIff(p: Pool, call: Call)
    requires PoolWithinLimit(p)
    ensures !PoolWithinLimit(After(p, call)) <==> Unguarded(p, call) && AtLimit(p)
  {
    match call
    case EnqueueCall(id, cpt) => AppendLimit(p, Entry(id, cpt, Pending));
    case RestoreCall(id, cpt, r, c) => AppendLimit(p, Entry(id, cpt, StageOf(r, c)));
    case ReleaseNextCall => if NextPending(p.entries) != -1 { StageLimit(p, NextPending(p.entries), Released); }
    case ReleaseCall(id) => if HasId(p.entries, id) { StageLimit(p, IndexOf(p.entries, id), Released); }
    case CompleteCall(id) => if HasId(p.entries, id) { StageLimit(p, IndexOf(p.entries, id), Completed); }
    case ReconcileCall(id, r, c) =>
      var i := IndexOf(p.entries, id);
      if i < |p.entries| { StageLimit(p, i, Reconciled(p.entries[i].stage, r, c)); }
  }

  /** No call of the sequence was unguarded on a full pool. */
  predicate NeverOverfilled(p: Pool, calls: seq<Call>) {
    calls == [] ||
    (&& NeverOverfilled(p, calls[..|calls| - 1])
     && !(Unguarded(AfterAll(p, calls[..|calls| - 1]), calls[|calls| - 1]) &&
       AtLimit(AfterAll(p, calls[..|calls| - 1]))))
  }

  predicate AlwaysWithin(p: Pool, calls: seq<Call>) {
    PoolWithinLimit(AfterAll(p, calls)) && (calls == [] || AlwaysWithin(p, calls[..|calls| - 1]))
  }

  /** The pool stays within its limit throughout exactly when it is never overfilled that way. */
  lemma {:induction false} LimitKeptIff(p: Pool, calls: seq<Call>)
    requires PoolWithinLimit(p)
    ensures AlwaysWithin(p, calls) <==> NeverOverfilled(p, calls)
  {
    if calls != [] {
      var n := |calls| - 1;
      LimitKeptIff(p, calls[..n]);
      if AlwaysWithin(p, calls[..n]) { LimitLeftIff(AfterAll(p, calls[..n]), calls[n]); }
    }
  }

  /** A pool of limit one, holding one released and one pending entry, goes over it by one reconcile. */
  lemma ReconcileLeavesLimit()
    ensures var p := Pool("pick", ReleaseFed, 1, 1, [Entry("a", 0, Released), Entry("b", 0, Pending)], 1);
      PoolWithinLimit(p) && !PoolWithinLimit(After(p, ReconcileCall("b", true, false)))
  {
    var es := [Entry("a", 0, Released), Entry("b", 0, Pending)];
    var p := Pool("pick", ReleaseFed, 1, 1, es, 1);
    assert es[..1] == [es[0]] && [es[0]][..0] == [];
    assert Count(es, Released) == 1;
    assert "a"[0] != "b"[0];
    assert IndexOf(es, "b") == 1 by { assert es[1].id == "b" && HasId(es, "b"); }
    LimitLeftIff(p, ReconcileCall("b", true, false));
  }
}
