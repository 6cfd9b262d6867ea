/**
 The transactional outbox. A row is one encoded message; its position in the table stands for
 its id, so rows become visible in id order.
 */
module Outbox {
  import opened Types
  import opened WorkDb
  import opened Environments

  datatype Encoded = Encoded(topic: string, eventType: string, key: string, value: string,
      headers: seq<(string, string)>)

  datatype OutboxRow = OutboxRow(msg: Encoded, published: bool)

  type Delivery = (nat, Encoded)

  /** One encoder per topic; None when an event cannot be encoded. */
  type Encoder = seq<Event> -> Option<seq<Encoded>>

  function MessageCount(encoder: Encoder, events: seq<Event>): nat {
    match encoder(events)
    case Some(msgs) => |msgs|
    case None => 0
  }

  /** How many messages the first `n` encoders make of the events. */
  ghost function Earlier(encoders: seq<Encoder>, events: seq<Event>, n: nat): nat
    requires n <= |encoders|
  {
    if n == 0 then 0 else Earlier(encoders, events, n - 1) + MessageCount(encoders[n - 1], events)
  }

  lemma {:induction false} EarlierGrows(encoders: seq<Encoder>, events: seq<Event>, i: nat, n: nat)
    requires i < n <= |encoders|
    ensures Earlier(encoders, events, i) + MessageCount(encoders[i], events) <= Earlier(encoders, events, n)
  {
    if i < n - 1 { EarlierGrows(encoders, events, i, n - 1); }
  }

  /** From `base` on the rows are the messages of the first `n` encoders, each encoder's in its order. */
  ghost predicate HoldsMessages(rows: seq<OutboxRow>, base: nat, encoders: seq<Encoder>, events: seq<Event>, n: nat)
    requires n <= |encoders|
  {
    && |rows| == base + Earlier(encoders, events, n)
    && forall i, j :: 0 <= i < n && 0 <= j < MessageCount(encoders[i], events) ==>
      HoldsMessage(rows, base, encoders, events, i, j)
  }

  ghost predicate HoldsMessage(rows: seq<OutboxRow>, base: nat, encoders: seq<Encoder>, events: seq<Event>,
      i: nat, j: nat)
    requires i < |encoders| && j < MessageCount(encoders[i], events)
  {
    var at := base + Earlier(encoders, events, i) + j;
    at < |rows| && rows[at] == OutboxRow(encoders[i](events).value[j], false)
  }

  /** The rows of one more encoder. */
  lemma MoreMessages(rows: seq<OutboxRow>, base: nat, encoders: seq<Encoder>, events: seq<Event>, n: nat,
      more: seq<OutboxRow>)
    requires n < |encoders| && base <= |rows| && HoldsMessages(rows, base, encoders, events, n)
    requires |more| == MessageCount(encoders[n], events)
    requires forall j :: 0 <= j < |more| ==> more[j] == OutboxRow(encoders[n](events).value[j], false)
    ensures HoldsMessages(rows + more, base, encoders, events, n + 1)
  {
    forall i, j | 0 <= i < n + 1 && 0 <= j < MessageCount(encoders[i], events)
      ensures HoldsMessage(rows + more, base, encoders, events, i, j)
    {
      if i < n {
        EarlierGrows(encoders, events, i, n);
        assert HoldsMessage(rows, base, encoders, events, i, j);
      }
    }
  }

  // ---------- Deliveries with repeats removed ----------

  /** The row ids of a delivery log in the order they first appear. */
  function FirstSeen(log: seq<Delivery>): seq<nat> {
    if log == [] then []
    else
      var before := FirstSeen(log[..|log| - 1]);
      var id := log[|log| - 1].0;
      if id in before then before else before + [id]
  }

  function UpTo(k: nat): (s: seq<nat>)
    ensures |s| == k && forall i :: 0 <= i < k ==> s[i] == i
  {
    seq(k, i requires 0 <= i < k => i)
  }

  lemma SendKeepsOrder(log: seq<Delivery>, k: nat, x: Delivery)
    requires FirstSeen(log) == UpTo(k) && x.0 <= k
    ensures FirstSeen(log + [x]) == UpTo(if x.0 == k then k + 1 else k)
  {
    assert (log + [x])[..|log|] == log;
    assert x.0 in UpTo(k) <==> x.0 < k by {
      if x.0 < k { assert UpTo(k)[x.0] == x.0; }
    }
  }

  // ---------- One relay ----------

  datatype Outcome = AllSent | SendFailed | Died

  function WithPublished(rows: seq<OutboxRow>, n: nat): (r: seq<OutboxRow>)
    ensures |r| == |rows| && forall i :: 0 <= i < |r| ==> r[i] == rows[i].(published := i < n)
  {
    seq(|rows|, i requires 0 <= i < |rows| => rows[i].(published := i < n))
  }

  /** Either every step since then went through, or the last one did not and the answer says so. */
  ghost predicate Went(env: Environment, since: Moment, ok: bool)
    reads env
  {
    env.waits == since.waits && if ok then env.SmoothSince(since) else env.BrokeSince(since)
  }

  /** One of the last two steps, the record of a failed attempt and the commit, did not go through. */
  ghost predicate FailedLately(env: Environment)
    reads env
  {
    env.steps >= 1 && (env.fate(env.steps - 1) != Goes || (env.steps >= 2 && env.fate(env.steps - 2) != Goes))
  }

  class OutboxRelay {
    const env: Environment
    var rows: seq<OutboxRow>
    var sink: seq<Delivery>

    /** The rows below `m` are published, no other; the sink got the rows below `k`, in order. */
    ghost predicate Fifo(m: nat, k: nat)
      reads this
    {
      && m <= k <= |rows|
      && (forall i :: 0 <= i < |rows| ==> (rows[i].published <==> i < m))
      && FirstSeen(sink) == UpTo(k)
      && (forall j :: 0 <= j < |sink| ==> sink[j].0 < |rows| && sink[j].1 == rows[sink[j].0].msg)
    }

    ghost predicate Valid()
      reads this
    {
      exists m: nat, k: nat :: Fifo(m, k)
    }

    constructor (env: Environment)
      ensures Valid() && rows == [] && sink == [] && this.env == env
    {
      this.env, rows, sink := env, [], [];
      new;
      assert Fifo(0, 0);
    }

    /**
     Publish inside the caller's transaction, which then commits: one row per message of each
     encoder. When an encoder or an insert fails the transaction is rolled back.
     */
    method Publish(encoders: seq<Encoder>, events: seq<Event>) returns (ok: bool)
      requires Valid()
      modifies this`rows, env
      ensures Valid() && old(rows) <= rows
      ensures !ok || events == [] ==> rows == old(rows)
      ensures events == [] ==> ok
      ensures !ok ==>
        || env.TroubledSince(old(env.Now()))
        || exists i :: 0 <= i < |encoders| && encoders[i](events) == None
      ensures ok && events != [] ==>
        && (forall i :: 0 <= i < |encoders| ==> encoders[i](events).Some?)
        && HoldsMessages(rows, |old(rows)|, encoders, events, |encoders|)
    {
      if events == [] { return true; }
      ghost var m: nat, k: nat :| Fifo(m, k);
      var inserted: seq<OutboxRow> := [];
      for i := 0 to |encoders|
        invariant env.LaterThan(old(env.Now()))
        invariant forall j :: 0 <= j < i ==> encoders[j](events).Some?
        invariant HoldsMessages(rows + inserted, |rows|, encoders, events, i)
        invariant forall n :: 0 <= n < |inserted| ==> !inserted[n].published
        modifies env
      {
        var msgs := encoders[i](events);
        if msgs == None { return false; }
        var more: seq<OutboxRow>;
        ghost var began := env.Now();
        more, ok := InsertAll(msgs.value);
        if !ok {
          TroubleSinceEarlier(env, old(env.Now()), began);
          return false;
        }
        MoreMessages(rows + inserted, |rows|, encoders, events, i, more);
        assert rows + inserted + more == rows + (inserted + more);
        inserted := inserted + more;
      }
      rows := rows + inserted;
      assert Fifo(m, k);
      return true;
    }

    /** One INSERT per message. */
    method InsertAll(msgs: seq<Encoded>) returns (inserted: seq<OutboxRow>, ok: bool)
      modifies env
      ensures env.LaterThan(old(env.Now()))
      ensures ok ==>
        |inserted| == |msgs| && forall j :: 0 <= j < |msgs| ==> inserted[j] == OutboxRow(msgs[j], false)
      ensures !ok ==> env.TroubledSince(old(env.Now()))
    {
      inserted := [];
      for j := 0 to |msgs|
        invariant |inserted| == j && env.LaterThan(old(env.Now()))
        invariant forall n :: 0 <= n < j ==> inserted[n] == OutboxRow(msgs[n], false)
      {
        ghost var n := env.steps;
        var fate := env.Try();
        if fate != Goes {
          assert env.fate(n) != Goes;
          return inserted, false;
        }
        inserted := inserted + [OutboxRow(msgs[j], false)];
      }
      return inserted, true;
    }

    /** Other transactions commit rows of their own, as they may between any two statements of a pass. */
    method OthersPublish(ghost m: nat, ghost k: nat)
      requires Fifo(m, k)
      modifies this`rows
      ensures Fifo(m, k) && old(rows) <= rows
    {
      var more: seq<Encoded> := *;
      rows := rows + seq(|more|, i requires 0 <= i < |more| => OutboxRow(more[i], false));
    }

    /** SELECT the oldest unpublished rows, at most `batchSize` of them. */
    method Claim(batchSize: nat, ghost m: nat, ghost k: nat) returns (batch: seq<nat>)
      requires Fifo(m, k)
      ensures |batch| == if batchSize < |rows| - m then batchSize else |rows| - m
      ensures forall i :: 0 <= i < |batch| ==> batch[i] == m + i
    {
      batch := [];
      var i := 0;
      while i < |rows| && |batch| < batchSize
        invariant i <= |rows| && |batch| <= batchSize
        invariant |batch| == if i <= m then 0 else i - m
        invariant forall j :: 0 <= j < |batch| ==> batch[j] == m + j
      {
        if !rows[i].published { batch := batch + [i]; }
        i := i + 1;
      }
    }

    /** One send: it may fail before delivery, or be delivered and still report a failure. */
    method Send(row: nat, ghost m: nat, ghost k: nat) returns (ok: bool, ghost k1: nat)
      requires Fifo(m, k) && row <= k && row < |rows|
      modifies this`sink, env
      ensures Went(env, old(env.Now()), ok)
      ensures Fifo(m, k1) && k1 >= k && (ok ==> row < k1)
      ensures sink == old(sink) || sink == old(sink) + [(row, rows[row].msg)]
      ensures ok ==> sink == old(sink) + [(row, rows[row].msg)]
    {
      var fate := env.Try();
      if fate != Goes && fate != Unheard { return false, k; }
      SendKeepsOrder(sink, k, (row, rows[row].msg));
      sink := sink + [(row, rows[row].msg)];
      k1 := if row == k then k + 1 else k;
      ok := fate == Goes;
    }

    /** Commits a transaction that marked the `n` oldest unpublished rows; the commit may fail. */
    method CommitMarks(n: nat, ghost m: nat, ghost k: nat) returns (ok: bool)
      requires Fifo(m, k) && m + n <= k
      modifies this`rows, env
      ensures Fifo(if ok then m + n else m, k)
      ensures rows == WithPublished(old(rows), if ok then m + n else m)
      ensures env.steps == old(env.steps) + 1 && env.waits == old(env.waits)
      ensures ok <==> env.fate(old(env.steps)) == Goes
    {
      var fate := env.Try();
      if fate != Goes { return false; }
      var first := 0;
      while first < |rows| && rows[first].published
        invariant first <= m
      {
        first := first + 1;
      }
      rows := WithPublished(rows, first + n);
      return true;
    }

    /** The sink got the `sent` rows from the m-th on, in order, since it was `sink0`. */
    ghost predicate SentSince(sink0: seq<Delivery>, m: nat, sent: nat)
      reads this
    {
      && m + sent <= |rows|
      && |sink| == |sink0| + sent && sink0 <= sink
      && forall j :: |sink0| <= j < |sink| ==> sink[j] == (m + j - |sink0|, rows[m + j - |sink0|].msg)
    }

    /** The next send of a pass, with what others publish before it. */
    method SendOne(row: nat, ghost m: nat, ghost k: nat, ghost sink0: seq<Delivery>, ghost sent: nat)
        returns (ok: bool, ghost k1: nat, ghost now: nat)
      requires Fifo(m, k) && SentSince(sink0, m, sent) && row == m + sent < |rows| && m + sent <= k
      modifies this`sink, this`rows, env
      ensures Went(env, old(env.Now()), ok)
      ensures Fifo(m, k1) && k <= k1 && old(rows) <= rows
      ensures SentSince(sink0, m, now) && sent <= now <= sent + 1
      ensures ok ==> now == sent + 1 && m + now <= k1
    {
      OthersPublish(m, k);
      ok, k1 := Send(row, m, k);
      now := |sink| - |sink0|;
    }

    /** Such a send, and its mark. */
    method SendNext(row: nat, ghost m: nat, ghost k: nat, ghost sink0: seq<Delivery>, ghost sent: nat)
        returns (outcome: Outcome, ghost k1: nat, ghost now: nat)
      requires Fifo(m, k) && SentSince(sink0, m, sent) && row == m + sent < |rows| && m + sent <= k
      modifies this`sink, this`rows, env
      ensures Went(env, old(env.Now()), outcome == AllSent)
      ensures Fifo(m, k1) && k <= k1 && old(rows) <= rows
      ensures SentSince(sink0, m, now) && sent <= now <= sent + 1
      ensures outcome == AllSent ==> now == sent + 1 && m + now <= k1
    {
      var ok: bool;
      ok, k1, now := SendOne(row, m, k, sink0, sent);
      if !ok { return SendFailed, k1, now; }
      var fate := env.Try();
      outcome := if fate == Goes then AllSent else Died;  // when the mark failed, all of the pass is undone
    }

    /**
     Sends each claimed row in id order and marks it in the open transaction. It stops at the
     first failure: no later row may overtake a failed one. Others may publish meanwhile.
     */
    method PublishBatch(batch: seq<nat>, ghost m: nat, ghost k: nat)
        returns (marked: nat, outcome: Outcome, ghost sent: nat, ghost k1: nat)
      requires Fifo(m, k) && m + |batch| <= |rows| && forall i :: 0 <= i < |batch| ==> batch[i] == m + i
      modifies this`sink, this`rows, env
      ensures Went(env, old(env.Now()), outcome == AllSent)
      ensures Fifo(m, k1) && k <= k1 && m + marked <= k1 && old(rows) <= rows
      ensures SentSince(old(sink), m, sent) && marked <= sent <= marked + 1 && sent <= |batch|
      ensures outcome == AllSent ==> marked == sent == |batch|
      ensures outcome == SendFailed ==> marked < |batch|
    {
      k1, marked, sent, outcome := k, 0, 0, AllSent;
      ghost var sink0 := sink;
      while marked < |batch|
        invariant marked == sent <= |batch| && k <= k1 && m + marked <= k1 && old(rows) <= rows && outcome == AllSent
        invariant Fifo(m, k1) && SentSince(sink0, m, sent) && Went(env, old(env.Now()), true)
      {
        outcome, k1, sent := SendNext(batch[marked], m, k1, sink0, sent);
        if outcome != AllSent { return; }
        marked := marked + 1;
      }
    }

    /**
     One pass: claim, publish the batch, commit. Sends may fail before or after delivery, marks
     and commits may fail, the process may die between any two statements, and others may publish
     there. Unless a step fails the pass sends and publishes the whole batch; when a send fails, what
     was marked before it is committed; any other pass publishes nothing.
     */
    method RelayOnce(batchSize: nat, ghost m: nat, ghost k: nat)
        returns (marked: nat, ok: bool, outcome: Outcome, ghost sent: nat, ghost published: nat, ghost k1: nat)
      requires Fifo(m, k)
      modifies this, env
      ensures Fifo(m + published, k1) && k <= k1
      ensures SentSince(old(sink), m, sent) && published <= sent
      ensures |old(rows)| <= |rows| && forall i :: 0 <= i < |old(rows)| ==> rows[i].msg == old(rows)[i].msg
      ensures outcome == Died ==> published == 0
      ensures outcome == SendFailed && published < marked ==> FailedLately(env)
      ensures !ok ==> env.TroubledSince(old(env.Now()))
      ensures ok ==> marked == sent == published == (if batchSize < |old(rows)| - m then batchSize else |old(rows)| - m)
    {
      ghost var began, sink0 := env.Now(), sink;
      marked, outcome, sent, k1 := ClaimAndSend(batchSize, m, k);
      published, ok := 0, false;
      if outcome != Died {
        ok := EndPass(marked, outcome == SendFailed, m, k1, sink0, sent, began);
        published := if ok then marked else 0;
      }
      ok := ok && outcome == AllSent;
    }

    /** Claims a batch and sends it, marking what was sent. */
    method ClaimAndSend(batchSize: nat, ghost m: nat, ghost k: nat)
        returns (marked: nat, outcome: Outcome, ghost sent: nat, ghost k1: nat)
      requires Fifo(m, k)
      modifies this`sink, this`rows, env
      ensures env.LaterThan(old(env.Now())) && (outcome != AllSent ==> env.TroubledSince(old(env.Now())))
      ensures Fifo(m, k1) && k <= k1 && m + marked <= k1 && old(rows) <= rows
      ensures SentSince(old(sink), m, sent) && marked <= sent
      ensures outcome == AllSent ==>
        marked == sent == (if batchSize < |old(rows)| - m then batchSize else |old(rows)| - m)
    {
      ghost var n := env.steps;
      var fate := env.Try();
      if fate != Goes {
        assert env.fate(n) != Goes;
        return 0, Died, 0, k;
      }
      var batch := Claim(batchSize, m, k);
      marked, outcome, sent, k1 := PublishBatch(batch, m, k);
      assert outcome != AllSent ==> env.fate(env.steps - 1) != Goes;
    }

    /** Records the failed attempt, if there was one, on its row, and commits what was marked. */
    method EndPass(marked: nat, failed: bool, ghost m: nat, ghost k: nat, ghost sink0: seq<Delivery>, ghost sent: nat,
        ghost since: Moment) returns (ok: bool)
      requires Fifo(m, k) && m + marked <= k && SentSince(sink0, m, sent) && env.LaterThan(since)
      modifies this`rows, env
      ensures Fifo(if ok then m + marked else m, k) && SentSince(sink0, m, sent)
      ensures |old(rows)| <= |rows| && forall i :: 0 <= i < |old(rows)| ==> rows[i].msg == old(rows)[i].msg
      ensures !ok ==> FailedLately(env) && env.TroubledSince(since)
      ensures old(env.TroubledSince(since)) ==> env.TroubledSince(since)
      ensures ok <== env.SmoothSince(old(env.Now()))
    {
      OthersPublish(m, k);
      if failed {
        ghost var n := env.steps;
        var fate := env.Try();
        if fate != Goes {
          assert env.fate(n) != Goes;
          return false;
        }
      }
      ok := CommitMarks(marked, m, k);
      assert !ok ==> env.fate(env.steps - 1) != Goes;
    }
  }

  /** What the invariant of one relay means for a published row: it was delivered, with its bytes. */
  lemma PublishedWasDelivered(r: OutboxRelay, m: nat, k: nat)
    requires r.Fifo(m, k)
    ensures forall i :: 0 <= i < |r.rows| && r.rows[i].published ==> (i, r.rows[i].msg) in r.sink
  {
    forall i | 0 <= i < |r.rows| && r.rows[i].published
      ensures (i, r.rows[i].msg) in r.sink
    {
      assert UpTo(k)[i] == i;
      SeenIsSent(r.sink, i);
      var j :| 0 <= j < |r.sink| && r.sink[j].0 == i;
      assert r.sink[j] == (i, r.rows[i].msg);
    }
  }

  lemma {:induction false} SeenIsSent(log: seq<Delivery>, id: nat)
    requires id in FirstSeen(log)
    ensures exists j :: 0 <= j < |log| && log[j].0 == id
  {
    var n := |log| - 1;
    if id in FirstSeen(log[..n]) {
      SeenIsSent(log[..n], id);
      var j :| 0 <= j < n && log[..n][j].0 == id;
      assert log[j].0 == id;
    } else {
      assert log[n].0 == id;
    }
  }
}
