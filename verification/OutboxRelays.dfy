/**
 Any number of relays draining one outbox, statement by statement. A pass locks the rows it
 claims, so passes never share a row; it may end at any point by a commit, a failure or a crash.
 */
module OutboxRelays {
  import opened Outbox

  /** `next` rows of the claim were marked; `sent` says the row at `next` was sent as well. */
  datatype Pass = Pass(claim: seq<nat>, next: nat, sent: bool, failed: bool)

  datatype Relays = Relays(rows: seq<OutboxRow>, sink: seq<Delivery>, passes: map<nat, Pass>)

  ghost predicate Claimable(s: Relays, i: nat) {
    i < |s.rows| && !s.rows[i].published && forall n :: n in s.passes ==> i !in s.passes[n].claim
  }

  /** A use case commits new rows. */
  ghost predicate Append(s: Relays, t: Relays, msgs: seq<Encoded>) {
    t == s.(rows := s.rows + seq(|msgs|, i requires 0 <= i < |msgs| => OutboxRow(msgs[i], false)))
  }

  /** FOR UPDATE SKIP LOCKED: the oldest rows that are neither published nor locked. */
  ghost predicate Claim(s: Relays, t: Relays, n: nat, claim: seq<nat>) {
    && n !in s.passes
    && (forall i :: 0 <= i < |claim| ==> Claimable(s, claim[i]))
    && (forall i, j :: 0 <= i < j < |claim| ==> claim[i] < claim[j])
    && (forall r: nat, j :: 0 <= j < |claim| && r < claim[j] && Claimable(s, r) ==> r in claim[..j])
    && t == s.(passes := s.passes[n := Pass(claim, 0, false, false)])
  }

  ghost predicate Sends(s: Relays, t: Relays, n: nat, delivered: bool, reported: bool) {
    && n in s.passes
    && var p := s.passes[n];
    && p.next < |p.claim| && !p.sent && !p.failed && p.claim[p.next] < |s.rows|
    && (reported ==> delivered)
    && t == s.(sink := if delivered then s.sink + [(p.claim[p.next], s.rows[p.claim[p.next]].msg)] else s.sink,
               passes := s.passes[n := if reported then p.(sent := true) else p.(failed := true)])
  }

  ghost predicate Marks(s: Relays, t: Relays, n: nat) {
    && n in s.passes
    && var p := s.passes[n];
    && p.sent
    && t == s.(passes := s.passes[n := p.(next := p.next + 1, sent := false)])
  }

  /** The whole batch is marked, or a send failed and what went before it is kept. */
  ghost predicate Commits(s: Relays, t: Relays, n: nat) {
    && n in s.passes
    && var p := s.passes[n];
    && ((p.next == |p.claim|) || p.failed) && p.next <= |p.claim|
    && t == s.(rows := seq(|s.rows|, i requires 0 <= i < |s.rows| =>
                           if i in p.claim[..p.next] then s.rows[i].(published := true) else s.rows[i]),
               passes := s.passes - {n})
  }

  /** A failed mark or commit, or a crash: the transaction is gone, the sends are not. */
  ghost predicate Dies(s: Relays, t: Relays, n: nat) {
    n in s.passes && t == s.(passes := s.passes - {n})
  }

  ghost predicate Next(s: Relays, t: Relays) {
    || (exists msgs :: Append(s, t, msgs))
    || (exists n, claim :: Claim(s, t, n, claim))
    || (exists n, delivered, reported :: Sends(s, t, n, delivered, reported))
    || (exists n :: Marks(s, t, n) || Commits(s, t, n) || Dies(s, t, n))
  }

  ghost predicate Delivered(s: Relays, i: nat) {
    i < |s.rows| && (i, s.rows[i].msg) in s.sink
  }

  /** Everything published was delivered, and so was everything a pass may still commit. */
  ghost predicate PassOk(s: Relays, p: Pass) {
    && p.next <= |p.claim|
    && (p.sent ==> p.next < |p.claim| && Delivered(s, p.claim[p.next]))
    && (forall j :: 0 <= j < p.next ==> Delivered(s, p.claim[j]))
    && (forall j :: 0 <= j < |p.claim| ==> p.claim[j] < |s.rows| && !s.rows[p.claim[j]].published)
  }

  ghost predicate Inv(s: Relays) {
    && (forall i: nat :: i < |s.rows| && s.rows[i].published ==> Delivered(s, i))
    && (forall n :: n in s.passes ==> PassOk(s, s.passes[n]))
    && (forall n, o :: n in s.passes && o in s.passes && n != o ==> NoneShared(s.passes[n].claim, s.passes[o].claim))
    && (forall j :: 0 <= j < |s.sink| ==> s.sink[j].0 < |s.rows| && s.sink[j].1 == s.rows[s.sink[j].0].msg)
  }

  ghost predicate NoneShared(a: seq<nat>, b: seq<nat>) {
    forall i :: i in a ==> i !in b
  }

  /** Rows are only added, keep their bytes and stay published; deliveries are only added. */
  ghost predicate Grows(s: Relays, t: Relays) {
    && |s.rows| <= |t.rows|
    && (forall i :: 0 <= i < |s.rows| ==>
      t.rows[i].msg == s.rows[i].msg && (s.rows[i].published ==> t.rows[i].published))
    && s.sink <= t.sink
  }

  lemma DeliveredGrows(s: Relays, t: Relays, i: nat)
    requires Grows(s, t) && Delivered(s, i)
    ensures Delivered(t, i)
  {
    var j :| 0 <= j < |s.sink| && s.sink[j] == (i, s.rows[i].msg);
    assert t.sink[j] == s.sink[j];
  }

  lemma PassStays(s: Relays, t: Relays, p: Pass)
    requires Grows(s, t) && PassOk(s, p)
    requires forall j :: 0 <= j < |p.claim| ==> !t.rows[p.claim[j]].published
    ensures PassOk(t, p)
  {
    forall j | 0 <= j < p.next ensures Delivered(t, p.claim[j]) { DeliveredGrows(s, t, p.claim[j]); }
    if p.sent { DeliveredGrows(s, t, p.claim[p.next]); }
  }

  lemma SendKeeps(s: Relays, t: Relays, n: nat, delivered: bool, reported: bool)
    requires Inv(s) && Sends(s, t, n, delivered, reported)
    ensures Inv(t) && Grows(s, t)
  {
    var p := s.passes[n];
    var i := p.claim[p.next];
    if delivered { assert t.sink[|s.sink|] == (i, s.rows[i].msg); }
    forall k: nat | k < |t.rows| && t.rows[k].published ensures Delivered(t, k) { DeliveredGrows(s, t, k); }
    forall o | o in t.passes ensures PassOk(t, t.passes[o]) { PassStays(s, t, s.passes[o]); }
  }

  lemma CommitKeeps(s: Relays, t: Relays, n: nat)
    requires Inv(s) && Commits(s, t, n)
    ensures Inv(t) && Grows(s, t)
  {
    var p := s.passes[n];
    forall k: nat | k < |t.rows| && t.rows[k].published ensures Delivered(t, k) {
      if k in p.claim[..p.next] {
        var j :| 0 <= j < p.next && p.claim[j] == k;
      }
      DeliveredGrows(s, t, k);
    }
    forall o | o in t.passes ensures PassOk(t, t.passes[o]) {
      var q := s.passes[o];
      forall j | 0 <= j < |q.claim| ensures !t.rows[q.claim[j]].published {
        assert q.claim[j] in q.claim && NoneShared(q.claim, p.claim);
      }
      PassStays(s, t, q);
    }
  }

  lemma AppendKeeps(s: Relays, t: Relays, msgs: seq<Encoded>)
    requires Inv(s) && Append(s, t, msgs)
    ensures Inv(t) && Grows(s, t)
  {
    forall k: nat | k < |t.rows| && t.rows[k].published ensures Delivered(t, k) { DeliveredGrows(s, t, k); }
    forall o | o in t.passes ensures PassOk(t, t.passes[o]) { PassStays(s, t, s.passes[o]); }
  }

  lemma ClaimKeeps(s: Relays, t: Relays, n: nat, claim: seq<nat>)
    requires Inv(s) && Claim(s, t, n, claim)
    ensures Inv(t) && Grows(s, t)
  {
    forall k: nat | k < |t.rows| && t.rows[k].published ensures Delivered(t, k) { DeliveredGrows(s, t, k); }
    forall o | o in t.passes ensures PassOk(t, t.passes[o]) {
      if o != n { PassStays(s, t, s.passes[o]); }
    }
  }

  lemma MarkOrDieKeeps(s: Relays, t: Relays, n: nat)
    requires Inv(s) && (Marks(s, t, n) || Dies(s, t, n))
    ensures Inv(t) && Grows(s, t)
  {
    forall k: nat | k < |t.rows| && t.rows[k].published ensures Delivered(t, k) { DeliveredGrows(s, t, k); }
    forall o | o in t.passes ensures PassOk(t, t.passes[o]) { PassStays(s, t, s.passes[o]); }
  }

  lemma NextKeeps(s: Relays, t: Relays)
    requires Inv(s) && Next(s, t)
    ensures Inv(t) && Grows(s, t)
  {
    if msgs :| Append(s, t, msgs) { AppendKeeps(s, t, msgs); }
    else if n, claim :| Claim(s, t, n, claim) { ClaimKeeps(s, t, n, claim); }
    else if n, delivered, reported :| Sends(s, t, n, delivered, reported) { SendKeeps(s, t, n, delivered, reported); }
    else {
      var n :| Marks(s, t, n) || Commits(s, t, n) || Dies(s, t, n);
      if Commits(s, t, n) { CommitKeeps(s, t, n); }
      else { MarkOrDieKeeps(s, t, n); }
    }
  }

  ghost predicate IsRun(run: seq<Relays>) {
    && |run| > 0 && run[0] == Relays([], [], map[])
    && forall i :: 0 <= i < |run| - 1 ==> Next(run[i], run[i + 1])
  }

  lemma {:induction false} RunInv(run: seq<Relays>, i: nat)
    requires IsRun(run) && i < |run|
    ensures Inv(run[i])
  {
    if i > 0 {
      RunInv(run, i - 1);
      assert Next(run[i - 1], run[(i - 1) + 1]);
      NextKeeps(run[i - 1], run[i]);
    }
  }

  /** At least once: a published row was delivered, and every delivery carries its row's bytes. */
  lemma PublishedWasSent(run: seq<Relays>, i: nat, row: nat)
    requires IsRun(run) && i < |run| && row < |run[i].rows|
    ensures run[i].rows[row].published ==> (row, run[i].rows[row].msg) in run[i].sink
    ensures forall j :: 0 <= j < |run[i].sink| && run[i].sink[j].0 == row ==> run[i].sink[j].1 == run[i].rows[row].msg
  {
    RunInv(run, i);
    assert run[i].rows[row].published ==> Delivered(run[i], row);
  }

  lemma {:induction false} RowsStay(run: seq<Relays>, i: nat, j: nat)
    requires IsRun(run) && i <= j < |run|
    ensures Grows(run[i], run[j])
  {
    if i < j {
      RowsStay(run, i, j - 1);
      RunInv(run, j - 1);
      assert Next(run[j - 1], run[(j - 1) + 1]);
      NextKeeps(run[j - 1], run[j]);
    }
  }

  /** Nothing is lost: an unpublished row is claimable, or held by one pass whose end frees it. */
  lemma UnpublishedIsClaimable(run: seq<Relays>, i: nat, row: nat)
    requires IsRun(run) && i < |run| && row < |run[i].rows| && !run[i].rows[row].published
    ensures Claimable(run[i], row) ||
      exists n: nat, t: Relays :: Dies(run[i], t, n) && row in run[i].passes[n].claim && Claimable(t, row)
  {
    RunInv(run, i);
    var s := run[i];
    if !Claimable(s, row) {
      var n :| n in s.passes && row in s.passes[n].claim;
      var t := s.(passes := s.passes - {n});
      forall o | o in t.passes ensures row !in t.passes[o].claim {
        assert NoneShared(s.passes[n].claim, s.passes[o].claim);
      }
      assert Dies(s, t, n) && Claimable(t, row);
    }
  }

  // ---------- With one pass at a time, order ----------

  /** The pass holds the oldest unpublished rows, in order, and what it sent are the first of them. */
  ghost predicate PassInLine(s: Relays, m: nat, k: nat, p: Pass) {
    && p.next <= |p.claim| && m + |p.claim| <= |s.rows|
    && (forall j :: 0 <= j < |p.claim| ==> p.claim[j] == m + j)
    && m + p.next + (if p.sent then 1 else 0) <= k
    && (p.sent ==> p.next < |p.claim|)
  }

  /** The rows below `m` are published, no other, and the sink first saw the rows below `k` in order. */
  ghost predicate InLine(s: Relays, m: nat, k: nat) {
    && m <= k <= |s.rows|
    && (forall i :: 0 <= i < |s.rows| ==> (s.rows[i].published <==> i < m))
    && FirstSeen(s.sink) == UpTo(k)
    && forall n :: n in s.passes ==> PassInLine(s, m, k, s.passes[n])
  }

  /** With no row locked, a claim takes the unpublished rows from the oldest on. */
  lemma {:induction false} ClaimIsOldest(s: Relays, t: Relays, n: nat, claim: seq<nat>, m: nat, j: nat)
    requires Claim(s, t, n, claim) && s.passes == map[] && j < |claim| && m <= |s.rows|
    requires forall i :: 0 <= i < |s.rows| ==> (s.rows[i].published <==> i < m)
    ensures claim[j] == m + j
  {
    forall i | 0 <= i < j ensures claim[i] == m + i { ClaimIsOldest(s, t, n, claim, m, i); }
    assert Claimable(s, claim[j]);
    if claim[j] > m + j {
      assert Claimable(s, m + j);
    } else if j > 0 {
      assert claim[j - 1] < claim[j];
    }
  }

  lemma ClaimInLine(s: Relays, t: Relays, n: nat, claim: seq<nat>, m: nat, k: nat)
    requires InLine(s, m, k) && Claim(s, t, n, claim) && s.passes == map[]
    ensures InLine(t, m, k)
  {
    forall j | 0 <= j < |claim| ensures claim[j] == m + j { ClaimIsOldest(s, t, n, claim, m, j); }
    if claim != [] { assert Claimable(s, claim[|claim| - 1]); }
  }

  lemma SendInLine(s: Relays, t: Relays, n: nat, delivered: bool, reported: bool, m: nat, k: nat) returns (k1: nat)
    requires InLine(s, m, k) && Sends(s, t, n, delivered, reported) && |s.passes| <= 1
    ensures InLine(t, m, k1)
  {
    OnlyOne(s.passes, n);
    assert PassInLine(s, m, k, s.passes[n]);
    var row := s.passes[n].claim[s.passes[n].next];
    k1 := k;
    if delivered {
      SendKeepsOrder(s.sink, k, (row, s.rows[row].msg));
      k1 := if row == k then k + 1 else k;
    }
  }

  lemma OnlyOne(passes: map<nat, Pass>, n: nat)
    requires |passes| <= 1 && n in passes
    ensures passes - {n} == map[] && forall o :: o in passes ==> o == n
  {
    forall o | o in passes ensures o == n {
      if o != n {
        assert {n, o} <= passes.Keys && |{n, o}| == 2;
        Fits({n, o}, passes.Keys);
      }
    }
  }

  lemma {:induction false} Fits(a: set<nat>, b: set<nat>)
    requires a <= b
    ensures |a| <= |b|
    decreases |a|
  {
    if a != {} {
      var x :| x in a;
      Fits(a - {x}, b - {x});
    }
  }

  lemma CommitInLine(s: Relays, t: Relays, n: nat, m: nat, k: nat) returns (m1: nat)
    requires InLine(s, m, k) && Commits(s, t, n) && |s.passes| <= 1
    ensures InLine(t, m1, k)
  {
    OnlyOne(s.passes, n);
    var p := s.passes[n];
    assert PassInLine(s, m, k, p);
    m1 := m + p.next;
    forall i | 0 <= i < |t.rows| ensures t.rows[i].published <==> i < m1 {
      if m <= i < m1 { assert p.claim[..p.next][i - m] == i; }
      if i in p.claim[..p.next] {
        var j :| 0 <= j < p.next && p.claim[j] == i;
      }
    }
  }

  lemma QuietInLine(s: Relays, t: Relays, n: nat, m: nat, k: nat)
    requires InLine(s, m, k) && (Marks(s, t, n) || Dies(s, t, n))
    ensures InLine(t, m, k)
  {
    forall o | o in t.passes ensures PassInLine(t, m, k, t.passes[o]) { assert PassInLine(s, m, k, s.passes[o]); }
  }

  lemma AppendInLine(s: Relays, t: Relays, msgs: seq<Encoded>, m: nat, k: nat)
    requires InLine(s, m, k) && Append(s, t, msgs)
    ensures InLine(t, m, k)
  {
    forall o | o in t.passes ensures PassInLine(t, m, k, t.passes[o]) { assert PassInLine(s, m, k, s.passes[o]); }
  }

  lemma NextInLine(s: Relays, t: Relays, m: nat, k: nat) returns (m1: nat, k1: nat)
    requires InLine(s, m, k) && Next(s, t) && |s.passes| <= 1 && |t.passes| <= 1
    ensures InLine(t, m1, k1)
  {
    m1, k1 := m, k;
    if msgs :| Append(s, t, msgs) { AppendInLine(s, t, msgs, m, k); }
    else if n, claim :| Claim(s, t, n, claim) {
      OnlyOne(t.passes, n);
      assert s.passes == t.passes - {n};
      ClaimInLine(s, t, n, claim, m, k);
    }
    else if n, delivered, reported :| Sends(s, t, n, delivered, reported) {
      k1 := SendInLine(s, t, n, delivered, reported, m, k);
    }
    else {
      var n :| Marks(s, t, n) || Commits(s, t, n) || Dies(s, t, n);
      if Commits(s, t, n) { m1 := CommitInLine(s, t, n, m, k); }
      else { QuietInLine(s, t, n, m, k); }
    }
  }

  lemma {:induction false} RunInLine(run: seq<Relays>, i: nat) returns (m: nat, k: nat)
    requires IsRun(run) && i < |run| && forall j :: 0 <= j <= i ==> |run[j].passes| <= 1
    ensures InLine(run[i], m, k)
  {
    if i == 0 {
      m, k := 0, 0;
    } else {
      m, k := RunInLine(run, i - 1);
      assert Next(run[i - 1], run[(i - 1) + 1]);
      m, k := NextInLine(run[i - 1], run[i], m, k);
    }
  }

  /**
   In any run with at most one pass open at a time, whatever is appended, fails or crashes between
   its statements, the sink with repeats removed is always a prefix of the outbox in id order, the
   published rows are a prefix of it too, and all of those have been delivered.
   */
  lemma SinkIsPrefixOfOutbox(run: seq<Relays>, i: nat)
    requires IsRun(run) && i < |run| && forall j :: 0 <= j <= i ==> |run[j].passes| <= 1
    ensures var k := |FirstSeen(run[i].sink)|;
      && FirstSeen(run[i].sink) == UpTo(k) && k <= |run[i].rows|
      && (forall a :: 0 <= a < |run[i].rows| && run[i].rows[a].published ==> a < k)
    ensures forall a, b :: 0 <= a < b < |run[i].rows| && run[i].rows[b].published ==> run[i].rows[a].published
  {
    var m, k := RunInLine(run, i);
  }
}
