/**
 The Idempotency-Key middleware: the key row, the handler's writes and the recorded response
 are one transaction, and a concurrent insert of the same key waits for it to end.
 */
module Idempotency {
  import opened Types
  import opened Environments

  type Key = string
  type Hash = string
  type Write = string

  datatype Response = Response(status: int, headers: map<string, seq<string>>, body: string)

  datatype KeyRow = KeyRow(hash: Hash, outcome: Option<Response>)

  datatype Handled = Responds(response: Response, writes: seq<Write>) | Panics

  datatype Answer =
    | Verbatim(response: Response)   // the handler's own response, or its replay
    | KeyRequired                    // 400
    | KeyReused                      // 422
    | ServerError                    // 500

  // ---------- One request ----------

  class Middleware {
    const env: Environment
    const hash: string -> Hash
    var keys: map<Key, KeyRow>
    var app: seq<Write>

    ghost predicate Valid()
      reads this
    {
      forall k :: k in keys ==> keys[k].outcome.Some?
    }

    constructor (env: Environment, hash: string -> Hash)
      ensures Valid() && keys == map[] && app == [] && this.env == env && this.hash == hash
    {
      this.env, this.hash := env, hash;
      keys, app := map[], [];
    }

    method Serve(key: Key, body: string, next: string -> Handled) returns (answer: Answer, ghost panicked: bool)
      requires Valid()
      modifies this, env
      ensures Valid() && env.LaterThan(old(env.Now()))
      ensures answer == ServerError ==>
        env.TroubledSince(old(env.Now())) || (key != "" && key !in old(keys) && next(body).Panics?)
      ensures key == "" ==> answer == KeyRequired
      ensures key == "" || key in old(keys) || answer == ServerError ==> keys == old(keys) && app == old(app)
      ensures key != "" && key in old(keys) ==>
        answer == ServerError ||
        answer == (if old(keys)[key].hash == hash(body) then Verbatim(old(keys)[key].outcome.value) else KeyReused)
      ensures key != "" && key !in old(keys) && answer != ServerError ==>
        && next(body).Responds? && answer == Verbatim(next(body).response)
        && keys == old(keys)[key := KeyRow(hash(body), Some(next(body).response))]
        && app == old(app) + next(body).writes
      ensures panicked ==> answer == ServerError && next(body).Panics?
    {
      panicked := false;
      if key == "" { return KeyRequired, false; }
      ghost var n := env.steps;
      var fate := env.Try();
      if fate != Goes {  // begin or insert failed
        assert env.fate(n) != Goes;
        return ServerError, false;
      }
      if key in keys {
        answer := Replay(key, hash(body));
        return;
      }
      // The transaction sees its own uncommitted row; nobody else does.
      var txKeys, txApp := keys[key := KeyRow(hash(body), None)], app;
      var handled := next(body);
      if handled.Panics? { return ServerError, true; }
      txApp := txApp + handled.writes;
      n := env.steps;
      fate := env.Try();
      if fate != Goes {  // the outcome could not be recorded
        assert env.fate(n) != Goes;
        return ServerError, false;
      }
      txKeys := txKeys[key := txKeys[key].(outcome := Some(handled.response))];
      n := env.steps;
      fate := env.Try();
      if fate != Goes {  // the commit failed
        assert env.fate(n) != Goes;
        return ServerError, false;
      }
      assert txKeys == keys[key := KeyRow(hash(body), Some(handled.response))];
      keys, app := txKeys, txApp;
      return Verbatim(handled.response), false;
    }

    method Replay(key: Key, requestHash: Hash) returns (answer: Answer)
      requires Valid() && key in keys
      modifies env
      ensures env.LaterThan(old(env.Now()))
      ensures answer == ServerError ==> env.steps > old(env.steps) && env.fate(old(env.steps)) != Goes
      ensures answer == ServerError ||
              answer == (if keys[key].hash == requestHash then Verbatim(keys[key].outcome.value) else KeyReused)
    {
      var fate := env.Try();
      if fate != Goes { return ServerError; }  // the read failed
      var row := keys[key];
      if row.hash != requestHash { return KeyReused; }
      assert row.outcome.Some?;  // the source's guard against a row without outcome never fires
      return Verbatim(row.outcome.value);
    }
  }

  /** Retrying the same request answers the same and writes nothing more. */
  method RetryIsReplay(m: Middleware, key: Key, body: string, next: string -> Handled)
      returns (first: Answer, second: Answer)
    requires m.Valid() && key != "" && key !in m.keys
    modifies m, m.env
    ensures next(body).Responds? && !m.env.TroubledSince(old(m.env.Now())) ==> first.Verbatim? && second.Verbatim?
    ensures first.Verbatim? && second.Verbatim? ==> first == second
    ensures first.Verbatim? ==> next(body).Responds? && m.app == old(m.app) + next(body).writes
  {
    ghost var p1, p2;
    ghost var began := m.env.Now();
    first, p1 := m.Serve(key, body, next);
    ghost var middle := m.env.Now();
    second, p2 := m.Serve(key, body, next);
    if m.env.TroubledSince(middle) { TroubleSinceEarlier(m.env, began, middle); }
  }

  // ---------- Any number of concurrent clients ----------

  datatype Phase =
    | Arrived
    | Holding                      // inserted the key row, not committed
    | HandlerDone(response: Response)
    | Recorded(response: Response)
    | Replaying

  datatype Client = Client(key: Key, hash: Hash, phase: Phase)

  /** An answer given from a run or a replay. */
  datatype Told = Told(key: Key, hash: Hash, response: Response)

  datatype World = World(keys: map<Key, KeyRow>, runs: seq<Key>, clients: map<nat, Client>, told: seq<Told>)

  /** The client's transaction has an uncommitted row for its key. */
  predicate Holds(c: Client) {
    c.phase.Holding? || c.phase.HandlerDone? || c.phase.Recorded?
  }

  ghost predicate Arrive(w: World, x: World, n: nat, c: Client) {
    n !in w.clients && c.phase == Arrived && x == w.(clients := w.clients[n := c])
  }

  /** The insert waits while another transaction holds the key. */
  ghost predicate Insert(w: World, x: World, n: nat) {
    && n in w.clients && w.clients[n].phase == Arrived
    && var c := w.clients[n];
    && (forall m :: m in w.clients && w.clients[m].key == c.key ==> !Holds(w.clients[m]))
    && x == w.(clients := w.clients[n := c.(phase := if c.key in w.keys then Replaying else Holding)])
  }

  ghost predicate Handle(w: World, x: World, n: nat, response: Response) {
    && n in w.clients && w.clients[n].phase == Holding
    && x == w.(clients := w.clients[n := w.clients[n].(phase := HandlerDone(response))])
  }

  ghost predicate Record(w: World, x: World, n: nat) {
    && n in w.clients && w.clients[n].phase.HandlerDone?
    && x == w.(clients := w.clients[n := w.clients[n].(phase := Recorded(w.clients[n].phase.response))])
  }

  /** The row and the handler's writes become visible together; only then the client is answered. */
  ghost predicate Commit(w: World, x: World, n: nat) {
    && n in w.clients && w.clients[n].phase.Recorded?
    && var c := w.clients[n];
    && x == World(w.keys[c.key := KeyRow(c.hash, Some(c.phase.response))], w.runs + [c.key],
                  w.clients - {n}, w.told + [Told(c.key, c.hash, c.phase.response)])
  }

  ghost predicate AnswerFromRow(w: World, x: World, n: nat) {
    && n in w.clients && w.clients[n].phase == Replaying
    && var c := w.clients[n];
    && c.key in w.keys && w.keys[c.key].hash == c.hash && w.keys[c.key].outcome.Some?
    && x == w.(clients := w.clients - {n}, told := w.told + [Told(c.key, c.hash, w.keys[c.key].outcome.value)])
  }

  /** 422, 500, a panic, a failed statement or commit, or a crash. */
  ghost predicate Leave(w: World, x: World, n: nat) {
    n in w.clients && x == w.(clients := w.clients - {n})
  }

  ghost predicate StepOf(w: World, x: World, n: nat) {
    || Insert(w, x, n) || Record(w, x, n) || Commit(w, x, n) || AnswerFromRow(w, x, n) || Leave(w, x, n)
    || (exists c :: Arrive(w, x, n, c)) || (exists r :: Handle(w, x, n, r))
  }

  ghost predicate Next(w: World, x: World) {
    exists n: nat :: StepOf(w, x, n)
  }

  function RunsOf(runs: seq<Key>, key: Key): nat {
    if runs == [] then 0 else RunsOf(runs[..|runs| - 1], key) + (if runs[|runs| - 1] == key then 1 else 0)
  }

  /** A row is visible exactly when one run of its key committed, and then has its outcome. */
  ghost predicate RowsOk(w: World) {
    && (forall k :: k in w.keys ==> w.keys[k].outcome.Some?)
    && (forall k :: RunsOf(w.runs, k) == if k in w.keys then 1 else 0)
    && (forall i :: 0 <= i < |w.told| ==> ToldRight(w, w.told[i]))
  }

  ghost predicate ClientOk(w: World, c: Client) {
    && (Holds(c) ==> c.key !in w.keys)
    && (c.phase == Replaying ==> c.key in w.keys)
  }

  ghost predicate ClientsOk(w: World) {
    && (forall n :: n in w.clients ==> ClientOk(w, w.clients[n]))
    && (forall n, m :: n in w.clients && m in w.clients && n != m && Holds(w.clients[n]) && Holds(w.clients[m]) ==>
          w.clients[n].key != w.clients[m].key)
  }

  ghost predicate Inv(w: World) {
    RowsOk(w) && ClientsOk(w)
  }

  ghost predicate ToldRight(w: World, t: Told) {
    t.key in w.keys && w.keys[t.key] == KeyRow(t.hash, Some(t.response))
  }

  /** Committed rows never change, and answers are never taken back. */
  ghost predicate Keeps(w: World, x: World) {
    (forall k :: k in w.keys ==> k in x.keys && x.keys[k] == w.keys[k]) && w.told <= x.told
  }

  lemma CommitKeeps(w: World, x: World, n: nat)
    requires Inv(w) && Commit(w, x, n)
    ensures Inv(x) && Keeps(w, x)
  {
    var c := w.clients[n];
    assert ClientOk(w, c);
    forall k ensures RunsOf(x.runs, k) == if k in x.keys then 1 else 0 {
      assert x.runs[..|w.runs|] == w.runs;
      assert RunsOf(w.runs, k) == if k in w.keys then 1 else 0;
    }
    forall i | 0 <= i < |x.told| ensures ToldRight(x, x.told[i]) {
      if i < |w.told| { assert ToldRight(w, w.told[i]); }
    }
    forall m | m in x.clients ensures ClientOk(x, x.clients[m]) {
      assert ClientOk(w, w.clients[m]);
    }
  }

  lemma AnswerKeeps(w: World, x: World, n: nat)
    requires Inv(w) && AnswerFromRow(w, x, n)
    ensures Inv(x) && Keeps(w, x)
  {
    forall i | 0 <= i < |x.told| ensures ToldRight(x, x.told[i]) {
      if i < |w.told| { assert ToldRight(w, w.told[i]); }
    }
    forall m | m in x.clients ensures ClientOk(x, x.clients[m]) {
      assert ClientOk(w, w.clients[m]);
    }
  }

  /** A step of one client that leaves the database and the answers alone. */
  lemma PhaseKeeps(w: World, x: World, n: nat)
    requires Inv(w) && x.keys == w.keys && x.runs == w.runs && x.told == w.told
    requires x.clients - {n} == w.clients - {n}
    requires n in x.clients ==> ClientOk(w, x.clients[n])
    requires n in x.clients && Holds(x.clients[n]) ==>
      forall m :: m in w.clients && m != n && Holds(w.clients[m]) ==> w.clients[m].key != x.clients[n].key
    ensures Inv(x) && Keeps(w, x)
  {
    assert forall m :: m != n ==>
      (m in x.clients <==> m in x.clients - {n}) && (m in w.clients <==> m in w.clients - {n});
    assert forall m :: m in x.clients && m != n ==>
      m in w.clients && x.clients[m] == (x.clients - {n})[m] == w.clients[m];
    forall m | m in x.clients ensures ClientOk(x, x.clients[m]) {
      if m != n { assert ClientOk(w, w.clients[m]); }
    }
    forall i | 0 <= i < |x.told| ensures ToldRight(x, x.told[i]) {
      assert ToldRight(w, w.told[i]);
    }
  }

  lemma NextKeeps(w: World, x: World)
    requires Inv(w) && Next(w, x)
    ensures Inv(x) && Keeps(w, x)
  {
    var n: nat :| StepOf(w, x, n);
    if Commit(w, x, n) { CommitKeeps(w, x, n); }
    else if AnswerFromRow(w, x, n) { AnswerKeeps(w, x, n); }
    else {
      assert n in w.clients ==> ClientOk(w, w.clients[n]);
      if Insert(w, x, n) || Record(w, x, n) || Leave(w, x, n) {
      } else if r :| Handle(w, x, n, r) {
      } else {
        var c :| Arrive(w, x, n, c);
      }
      PhaseKeeps(w, x, n);
    }
  }

  ghost predicate IsRun(run: seq<World>) {
    && |run| > 0 && run[0] == World(map[], [], map[], [])
    && forall i :: 0 <= i < |run| - 1 ==> Next(run[i], run[i + 1])
  }

  lemma {:induction false} RunInv(run: seq<World>, i: nat)
    requires IsRun(run) && i < |run|
    ensures Inv(run[i])
  {
    if i > 0 {
      RunInv(run, i - 1);
      assert Next(run[i - 1], run[(i - 1) + 1]);
      NextKeeps(run[i - 1], run[i]);
    }
  }

  /** No committed key row lacks its outcome, and per key at most one handler run ever commits. */
  lemma OutcomeRecordedOnce(run: seq<World>, i: nat, key: Key)
    requires IsRun(run) && i < |run|
    ensures key in run[i].keys ==> run[i].keys[key].outcome.Some?
    ensures RunsOf(run[i].runs, key) == if key in run[i].keys then 1 else 0
  {
    RunInv(run, i);
  }

  /** A client sent to the replay branch always finds a row, with its outcome. */
  lemma ReplayFindsOutcome(run: seq<World>, i: nat, n: nat)
    requires IsRun(run) && i < |run| && n in run[i].clients && run[i].clients[n].phase == Replaying
    ensures var c := run[i].clients[n]; c.key in run[i].keys && run[i].keys[c.key].outcome.Some?
  {
    RunInv(run, i);
  }

  /** However many clients use a key, all responses given for it and one body are the same. */
  lemma OneAnswerPerKey(run: seq<World>, i: nat, a: nat, b: nat)
    requires IsRun(run) && i < |run| && a < |run[i].told| && b < |run[i].told|
    requires run[i].told[a].key == run[i].told[b].key
    ensures run[i].told[a] == run[i].told[b]
  {
    RunInv(run, i);
    assert ToldRight(run[i], run[i].told[a]) && ToldRight(run[i], run[i].told[b]);
  }

  /** No answer is ever given to a request whose body differs from the recorded one. */
  lemma DifferentBodyIsNeverAnswered(run: seq<World>, i: nat, a: nat)
    requires IsRun(run) && i < |run| && a < |run[i].told|
    ensures var t := run[i].told[a]; t.key in run[i].keys && run[i].keys[t.key].hash == t.hash
  {
    RunInv(run, i);
    assert ToldRight(run[i], run[i].told[a]);
  }

  lemma StepOfRunKeeps(run: seq<World>, i: nat)
    requires IsRun(run) && i + 1 < |run|
    ensures Keeps(run[i], run[i + 1])
  {
    RunInv(run, i);
    NextKeeps(run[i], run[i + 1]);
  }

  lemma {:induction false} KeepsChain(run: seq<World>, i: nat, j: nat)
    requires i <= j < |run| && forall k :: i <= k < j ==> Keeps(run[k], run[k + 1])
    ensures Keeps(run[i], run[j])
  {
    if i < j {
      KeepsChain(run, i, j - 1);
      assert Keeps(run[j - 1], run[(j - 1) + 1]);
    }
  }

  /** Once a key is recorded, no step of any client changes its row or adds a run of it. */
  lemma RecordedForGood(run: seq<World>, i: nat, j: nat, key: Key)
    requires IsRun(run) && i <= j < |run| && key in run[i].keys
    ensures key in run[j].keys && run[j].keys[key] == run[i].keys[key]
    ensures RunsOf(run[j].runs, key) == RunsOf(run[i].runs, key) == 1
  {
    RunInv(run, i);
    RunInv(run, j);
    forall k | i <= k < j ensures Keeps(run[k], run[k + 1]) { StepOfRunKeeps(run, k); }
    KeepsChain(run, i, j);
  }
}
