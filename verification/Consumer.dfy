/**
 The Kafka consumer of one partition: fetch, decode, handle with bounded retry, dead-letter what
 cannot be handled, and only then commit the offset.
 */
module Consumer {
  import opened Types
  import opened WorkDb
  import opened Postgres
  import opened UseCases
  import opened InboundEvents
  import opened Environments

  datatype Topic = Inventory | Fulfillment | OrderManagement

  /** `Malformed` is a payload whose fields do not parse; `OtherType` any type not listed here. */
  datatype Payload =
    | StockReserved(sku: Sku, quantity: int)
    | ReservationRevoked(sku: Sku, quantity: int)
    | TaskCompleted(workUnit: UnitId)
    | OrderAllocated(orderId: string, promise: Time, lines: seq<OrderLine>)
    | Malformed(topic: Topic)
    | OtherType

  datatype CloudEvent = CloudEvent(id: EventId, payload: Payload, at: Time)

  datatype Message = Message(key: string, value: string, headers: seq<(string, string)>)

  const MAX_HANDLER_ATTEMPTS := 3
  const DLQ_TOPIC_READY_ATTEMPTS := 40

  /** The event type is not one this topic's handler consumes. */
  predicate Ignored(topic: Topic, payload: Payload) {
    match payload
    case StockReserved(_, _) | ReservationRevoked(_, _) => topic != Inventory
    case TaskCompleted(_) => topic != Fulfillment
    case OrderAllocated(_, _, _) => topic != OrderManagement
    case Malformed(t) => topic != t
    case OtherType => true
  }

  /** A dead letter carries the original bytes: same key, same value, the headers extended. */
  predicate DeadLetterOf(msg: Message, letter: Message) {
    letter.key == msg.key && letter.value == msg.value && msg.headers <= letter.headers
  }

  /** What each topic is read for; a payload of these types that does not parse counts as consumed. */
  predicate Consumes(topic: Topic, payload: Payload) {
    match topic
    case Inventory => payload.StockReserved? || payload.ReservationRevoked? || payload == Malformed(Inventory)
    case Fulfillment => payload.TaskCompleted? || payload == Malformed(Fulfillment)
    case OrderManagement => payload.OrderAllocated? || payload == Malformed(OrderManagement)
  }

  /** What the event asks for has happened between `before` and `after`. */
  ghost predicate Effect(event: CloudEvent, before: Db, after: Db) {
    match event.payload
    case StockReserved(sku, quantity) => Counted(before, after, sku, -quantity, event.at)
    case ReservationRevoked(sku, quantity) => Counted(before, after, sku, quantity, event.at)
    case TaskCompleted(id) => if id in before.units then IsClosed(before, after, id, event.at) else after == before
    case OrderAllocated(orderId, promise, lines) => OrderApplied(before, after, orderId, promise, lines)
    case _ => false
  }

  /** What the handler cannot do with the event, however often it tries. */
  ghost predicate HandlerRefuses(known: PathId -> bool, event: CloudEvent, d: Db) {
    match event.payload
    case TaskCompleted(id) => id in d.units && d.units[id].stage != Released
    case OrderAllocated(orderId, _, lines) => OrderRefused(known, orderId, lines)
    case Malformed(_) => true
    case _ => false
  }

  /** The event was applied: its mark and its effect, and nothing else, were added. */
  ghost predicate AppliedFrom(event: CloudEvent, before: State, after: State) {
    Effect(event, before.db, after.db) && exists ops :: Processed(before, after, event.id, ops)
  }

  datatype Application = Application(event: CloudEvent, before: State, after: State)

  /** From `start`, these applications one after another, and nothing else, lead to `now`. */
  ghost predicate Chain(start: State, applied: seq<Application>, now: State) {
    if applied == [] then now == start
    else
      var last := applied[|applied| - 1];
      last.after == now && Chain(start, applied[..|applied| - 1], last.before)
  }

  ghost predicate AllApplied(applied: seq<Application>) {
    forall i :: 0 <= i < |applied| ==> AppliedFrom(applied[i].event, applied[i].before, applied[i].after)
  }

  ghost predicate AppliedEvent(applied: seq<Application>, e: EventId) {
    exists i :: 0 <= i < |applied| && applied[i].event.id == e
  }

  /** What events applied one after another make of the database is a run of use cases. */
  lemma {:induction false} ChainIsRun(start: State, applied: seq<Application>, now: State) returns (ops: seq<Op>)
    requires Chain(start, applied, now) && AllApplied(applied)
    ensures Valid(start.db, ops) && now.db == Run(start.db, ops)
  {
    if applied == [] {
      ops := [];
    } else {
      var n := |applied| - 1;
      var last := applied[n];
      ops := ChainIsRun(start, applied[..n], last.before);
      assert AppliedFrom(last.event, last.before, last.after);
      var more :| Processed(last.before, last.after, last.event.id, more);
      RunConcat(start.db, ops, more);
      ops := ops + more;
    }
  }

  /**
   Why a decodable message was given up: what was stored before its handler first ran, how often
   it ran, whether the context ended, and whether anything had gone wrong meanwhile.
   */
  datatype Failure = Failure(before: Db, runs: nat, ended: bool, troubled: bool)

  /** What a consumer had done at some moment. */
  datatype Snapshot = Snapshot(marks: set<EventId>, letters: seq<Message>, given: map<nat, Failure>, committed: nat,
      runs: nat, moment: Moment)

  /**
   The consumer of one partition. A mark that a failed event leaves can be undone in every wiring
   it is built for: in the transaction of a unit of work, or by the in-memory repository.
   */
  class PartitionConsumer {
    const topic: Topic
    const log: seq<Message>
    const decode: string -> Option<CloudEvent>
    const known: PathId -> bool
    const hasWriter: bool
    const store: Store
    var committed: nat
    var dlq: seq<Message>
    ghost const start: State
    ghost var applied: seq<Application>
    ghost var runs: nat                 // of the handler
    ghost var given: map<nat, Failure>  // the offsets given up
    ghost var letterOf: seq<nat>        // the offset each dead letter was written for

    constructor (topic: Topic, log: seq<Message>, decode: string -> Option<CloudEvent>, known: PathId -> bool,
                 hasWriter: bool, store: Store)
      requires store.Valid() && store.tx == None && store.Undoable()
      ensures Valid() && NoLoss() && committed == 0 && this.store == store && this.log == log && this.topic == topic
      ensures this.decode == decode && this.known == known && this.hasWriter == hasWriter
      ensures start == store.committed && applied == [] && runs == 0 && given == map[] && dlq == []
    {
      this.topic, this.log, this.decode, this.known := topic, log, decode, known;
      this.hasWriter, this.store := hasWriter, store;
      committed, dlq := 0, [];
      start, applied, runs, given, letterOf := store.committed, [], 0, map[], [];
    }

    ghost predicate Valid()
      reads this, store
    {
      && store.Valid() && store.tx == None && store.Undoable() && committed <= |log|
      && MarksExplained() && LettersExplained()
    }

    /** Behind every mark set since the start there is an application; within a unit of work, nothing else happened. */
    ghost predicate MarksExplained()
      reads this`applied, store
    {
      && AllApplied(applied)
      && (forall e :: e in store.committed.marks ==> e in start.marks || AppliedEvent(applied, e))
      && (store.uow ==> Chain(start, applied, store.committed))
    }

    /** A message was only given up after three runs of its handler, or because the context ended. */
    ghost predicate GivenUpRightly(i: nat, f: Failure) {
      && i < |log| && decode(log[i].value).Some?
      && 1 <= f.runs && (f.ended || f.runs == 3)
      && (f.troubled || HandlerRefuses(known, decode(log[i].value).value, f.before))
    }

    /** Every dead letter is of a message that does not decode, or was given up. */
    ghost predicate LettersExplained()
      reads this`given, this`dlq, this`letterOf
    {
      && (forall i :: i in given ==> GivenUpRightly(i, given[i]))
      && |letterOf| == |dlq|
      && forall k :: 0 <= k < |dlq| ==>
        && letterOf[k] < |log| && DeadLetterOf(log[letterOf[k]], dlq[k])
        && (decode(log[letterOf[k]].value) == None || letterOf[k] in given)
    }

    ghost predicate HasLetter(letters: seq<Message>, msg: Message) {
      exists k :: 0 <= k < |letters| && DeadLetterOf(msg, letters[k])
    }

    /** Applied now or earlier, of a type not consumed, or given up and kept byte for byte as a dead letter. */
    ghost predicate Accounted(i: nat, marks: set<EventId>, letters: seq<Message>, given: map<nat, Failure>)
      requires i < |log|
    {
      match decode(log[i].value)
      case None => HasLetter(letters, log[i])
      case Some(event) =>
        !Consumes(topic, event.payload) || event.id in marks || (i in given && HasLetter(letters, log[i]))
    }

    /** Every message whose offset is committed is accounted for. */
    ghost predicate NoLoss()
      reads this, store
    {
      committed <= |log| && AllAccounted(committed, store.committed.marks, dlq, given)
    }

    ghost predicate AllAccounted(n: nat, marks: set<EventId>, letters: seq<Message>, given: map<nat, Failure>)
      requires n <= |log|
    {
      forall i :: 0 <= i < n ==> Accounted(i, marks, letters, given)
    }

    ghost function Shot(): Snapshot
      reads this, store, store.env
    {
      Snapshot(store.committed.marks, dlq, given, committed, runs, store.env.Now())
    }

    /**
     Since then no mark, dead letter or message given up was taken back, every committed message that
     decodes was handed to its handler, and whatever was given up amid trouble had trouble to blame.
     */
    ghost predicate Keeps(was: Snapshot)
      reads this, store, store.env
    {
      && was.committed <= committed <= |log|
      && was.marks <= store.committed.marks && was.letters <= dlq && was.given.Keys <= given.Keys
      && store.env.LaterThan(was.moment) && (NewTrouble(was.given, given) ==> store.env.TroubledSince(was.moment))
      && runs - was.runs >= Decodable(was.committed, committed)
    }

    /** A message was given up amid trouble, and not only because its handler refuses it. */
    ghost predicate NewTrouble(was: map<nat, Failure>, now: map<nat, Failure>) {
      exists i :: i in now && (i !in was || now[i] != was[i]) && now[i].troubled
    }

    lemma KeepsOn(was: Snapshot, mid: Snapshot)
      requires was.committed <= mid.committed && was.marks <= mid.marks && was.letters <= mid.letters
      requires was.given.Keys <= mid.given.Keys
      requires was.moment.steps <= mid.moment.steps && was.moment.waits <= mid.moment.waits
      requires NewTrouble(was.given, mid.given) ==> store.env.TroubledSince(was.moment)
      requires Keeps(mid) && mid.runs - was.runs >= Decodable(was.committed, mid.committed)
      ensures Keeps(was)
      ensures store.env.TroubledSince(mid.moment) ==> store.env.TroubledSince(was.moment)
    {
      DecodableConcat(was.committed, mid.committed, committed);
      if store.env.TroubledSince(mid.moment) { TroubleSinceEarlier(store.env, was.moment, mid.moment); }
      if i :| i in given && (i !in was.given || given[i] != was.given[i]) && given[i].troubled {
        if i in mid.given && mid.given[i] == given[i] {
          assert NewTrouble(was.given, mid.given);
        } else {
          assert NewTrouble(mid.given, given);
        }
      }
    }

    /** The use case for the event, in one scope; a malformed payload fails before it. */
    method CallUseCase(event: CloudEvent) returns (ok: bool)
      requires store.Valid() && store.tx == None && store.Undoable() && !event.payload.OtherType?
      modifies store, store.env
      ensures store.Valid() && store.tx == None && store.env.LaterThan(old(store.env.Now()))
      ensures ok ==> store.committed.marks == old(store.committed).marks + {event.id}
      ensures ok && event.id !in old(store.committed).marks ==>
        AppliedFrom(event, old(store.committed), store.committed)
      ensures event.id in old(store.committed).marks ==> store.committed == old(store.committed)
      ensures !ok ==> store.committed.marks == old(store.committed).marks
      ensures !ok && store.uow ==> store.committed == old(store.committed)
      ensures !ok ==>
        store.env.TroubledSince(old(store.env.Now())) || HandlerRefuses(known, event, old(store.committed).db)
      ensures event.payload.Malformed? ==> !ok
    {
      var err: Option<AppError>;
      match event.payload {
        case StockReserved(sku, quantity) =>
          var already: bool;
          already, err := ObserveInventoryChange(store, event.id, sku, -quantity, event.at);
        case ReservationRevoked(sku, quantity) =>
          var already: bool;
          already, err := ObserveInventoryChange(store, event.id, sku, quantity, event.at);
        case TaskCompleted(id) =>
          var outcome: TaskOutcome;
          outcome, err := ApplyTaskCompleted(store, event.id, id, event.at);
        case OrderAllocated(orderId, promise, lines) =>
          var already: bool;
          ghost var ops: seq<Op>;
          already, err, ops := ApplyOrderAllocated(store, known, event.id, orderId, promise, lines, event.at);
        case Malformed(_) => return false;
      }
      return err == None;
    }

    /** The topic's handler: nothing to do for a foreign type, else the use case. */
    method Handle(event: CloudEvent) returns (ok: bool)
      requires Valid()
      modifies store, store.env, this`applied, this`runs
      ensures Valid() && old(applied) <= applied && runs == old(runs) + 1
      ensures store.env.LaterThan(old(store.env.Now()))
      ensures !ok ==> store.committed.marks == old(store.committed).marks
      ensures !ok ==>
        && Consumes(topic, event.payload)
        && (store.env.TroubledSince(old(store.env.Now())) || HandlerRefuses(known, event, old(store.committed).db))
      ensures ok && Consumes(topic, event.payload) ==>
        store.committed.marks == old(store.committed).marks + {event.id}
      ensures ok && Consumes(topic, event.payload) && event.id !in old(store.committed).marks ==>
        AppliedFrom(event, old(store.committed), store.committed)
      ensures !Consumes(topic, event.payload) || event.id in old(store.committed).marks ==>
        store.committed == old(store.committed)
      ensures !ok && store.uow ==> store.committed == old(store.committed)
      ensures event.payload.Malformed? && Consumes(topic, event.payload) ==> !ok
    {
      runs := runs + 1;
      if Ignored(topic, event.payload) { return true; }
      ghost var before := store.committed;
      ok := CallUseCase(event);
      if ok && event.id !in before.marks { Record(event, before); }
    }

    ghost method Record(event: CloudEvent, before: State)
      requires AllApplied(applied) && AppliedFrom(event, before, store.committed)
      requires forall e :: e in before.marks ==> e in start.marks || AppliedEvent(applied, e)
      requires store.uow ==> Chain(start, applied, before)
      modifies this`applied
      ensures MarksExplained() && applied == old(applied) + [Application(event, before, store.committed)]
    {
      ghost var was := applied;
      applied := applied + [Application(event, before, store.committed)];
      assert applied[..|was|] == was;
      forall e | e in store.committed.marks ensures e in start.marks || AppliedEvent(applied, e) {
        if e in before.marks {
          if i :| 0 <= i < |was| && was[i].event.id == e { assert applied[i].event.id == e; }
        } else {
          assert applied[|was|].event.id == e;
        }
      }
    }

    /** Up to three runs of the handler, with waits between them in which the caller's context may end. */
    method HandleWithRetry(event: CloudEvent) returns (ok: bool, attempts: nat, ended: bool)
      requires Valid()
      modifies store, store.env, this`applied, this`runs
      ensures Valid() && 1 <= attempts <= MAX_HANDLER_ATTEMPTS && runs == old(runs) + attempts
      ensures store.env.LaterThan(old(store.env.Now()))
      ensures ended ==> !ok && store.env.EndedSince(old(store.env.Now()))
      ensures !ok && !ended ==> attempts == 3
      ensures !ok ==>
        && Consumes(topic, event.payload)
        && (store.env.TroubledSince(old(store.env.Now())) || HandlerRefuses(known, event, old(store.committed).db))
      ensures store.committed.marks == old(store.committed).marks +
        (if ok && Consumes(topic, event.payload) then {event.id} else {})
      ensures ok && store.uow && Consumes(topic, event.payload) && event.id !in old(store.committed).marks ==>
        AppliedFrom(event, old(store.committed), store.committed)
      ensures !ok && store.uow ==> store.committed == old(store.committed)
    {
      attempts, ended := 0, false;
      ghost var began, before := store.env.Now(), store.committed.db;
      while true
        invariant Valid() && attempts < MAX_HANDLER_ATTEMPTS && runs == old(runs) + attempts && !ended
        invariant store.committed.marks == old(store.committed).marks
        invariant store.uow ==> store.committed == old(store.committed)
        invariant store.env.LaterThan(began)
        invariant store.committed.db == before || Failing(event, before, began)
        decreases MAX_HANDLER_ATTEMPTS - attempts
      {
        ok := HandleOnce(event, before, began);
        attempts := attempts + 1;
        if ok || attempts == MAX_HANDLER_ATTEMPTS { return; }
        ended := store.env.Wait();
        if ended { return; }
      }
    }

    /** Something went wrong since, or the handler refuses the event. */
    ghost predicate Failing(event: CloudEvent, before: Db, since: Moment)
      reads store, store.env
    {
      store.env.TroubledSince(since) || HandlerRefuses(known, event, before)
    }

    method HandleOnce(event: CloudEvent, ghost before: Db, ghost since: Moment) returns (ok: bool)
      requires Valid() && store.env.LaterThan(since)
      requires store.committed.db == before || Failing(event, before, since)
      modifies store, store.env, this`applied, this`runs
      ensures Valid() && runs == old(runs) + 1 && store.env.LaterThan(since)
      ensures store.committed.marks == old(store.committed).marks +
        (if ok && Consumes(topic, event.payload) then {event.id} else {})
      ensures !ok ==> Consumes(topic, event.payload) && Failing(event, before, since)
      ensures ok && Consumes(topic, event.payload) && event.id !in old(store.committed).marks ==>
        AppliedFrom(event, old(store.committed), store.committed)
      ensures !ok && store.uow ==> store.committed == old(store.committed)
    {
      ghost var middle := store.env.Now();
      ok := Handle(event);
      if store.env.TroubledSince(middle) { TroubleSinceEarlier(store.env, since, middle); }
    }

    /** Waits, within bounds, for a dead-letter topic that is still being created. */
    method WriteDlq(letter: Message) returns (ok: bool)
      modifies this`dlq, store.env
      ensures ok ==> dlq == old(dlq) + [letter]
      ensures !ok ==> dlq == old(dlq) || dlq == old(dlq) + [letter]
      ensures old(store.env.steps) < store.env.steps <= old(store.env.steps) + DLQ_TOPIC_READY_ATTEMPTS
      ensures forall n :: old(store.env.steps) <= n < store.env.steps - 1 ==> store.env.fate(n) == NotReady
      ensures ok <==> store.env.fate(store.env.steps - 1) == Goes
      ensures !ok && store.env.fate(store.env.steps - 1) == NotReady ==>
        || store.env.steps == old(store.env.steps) + 40
        || store.env.EndedSince(old(store.env.Now()))
      ensures store.env.LaterThan(old(store.env.Now()))
    {
      for i := 0 to DLQ_TOPIC_READY_ATTEMPTS
        invariant dlq == old(dlq) && store.env.steps == old(store.env.steps) + i
        invariant forall n :: old(store.env.steps) <= n < store.env.steps ==> store.env.fate(n) == NotReady
        invariant store.env.LaterThan(old(store.env.Now()))
      {
        var fate := store.env.Try();
        if fate == Goes {
          dlq := dlq + [letter];
          return true;
        }
        if fate != NotReady {  // another error, perhaps after the broker took the message
          if fate == Unheard { dlq := dlq + [letter]; }
          return false;
        }
        var ended := store.env.Wait();
        if ended { return false; }
      }
      return false;
    }

    /** Without a registered writer this does nothing and reports success. */
    method DlqPublish(i: nat, cause: string, now: string) returns (ok: bool)
      requires i < |log| && LettersExplained() && (decode(log[i].value) == None || i in given)
      modifies this`dlq, this`letterOf, store.env
      ensures LettersExplained() && old(dlq) <= dlq && store.env.LaterThan(old(store.env.Now()))
      ensures ok && hasWriter ==>
        dlq == old(dlq) + [Message(log[i].key, log[i].value, log[i].headers +
          [("x-dlq-source-topic", TopicName(topic)), ("x-dlq-error", cause), ("x-dlq-failed-at", now)])]
      ensures !hasWriter ==> ok && dlq == old(dlq)
      ensures ok && hasWriter ==> HasLetter(dlq, log[i])
      ensures !ok ==> store.env.TroubledSince(old(store.env.Now()))
    {
      if !hasWriter { return true; }
      var headers :=
        log[i].headers + [("x-dlq-source-topic", TopicName(topic)), ("x-dlq-error", cause), ("x-dlq-failed-at", now)];
      var letter := Message(log[i].key, log[i].value, headers);
      ghost var was := dlq;
      ok := WriteDlq(letter);
      if dlq != was {
        letterOf := letterOf + [i];
        assert DeadLetterOf(log[i], dlq[|was|]);
      }
    }

    /**
     Decodes and handles the message, and dead-letters it when it does not decode or its handler
     has failed for good. Fails only when the dead letter could not be written.
     */
    method Dispatch(i: nat, now: string) returns (ok: bool, ghost handled: bool)
      requires Valid() && i < |log|
      modifies store, store.env, this`dlq, this`letterOf, this`applied, this`runs, this`given
      ensures Valid() && Keeps(old(Shot()))
      ensures decode(log[i].value) == None ==>
        !handled && runs == old(runs) && given == old(given) && store.committed == old(store.committed)
      ensures decode(log[i].value).Some? ==> old(runs) < runs <= old(runs) + MAX_HANDLER_ATTEMPTS
      ensures handled ==> ok && dlq == old(dlq) && given == old(given)
      ensures handled && Consumes(topic, decode(log[i].value).value.payload) ==>
        decode(log[i].value).value.id in store.committed.marks
      ensures decode(log[i].value).Some? && !handled ==>
        && i in given && given == old(given)[i := given[i]] && given[i].runs == runs - old(runs)
        && given[i].before == old(store.committed).db
        && (given[i].ended ==> store.env.EndedSince(old(store.env.Now())))
        && (given[i].troubled ==> store.env.TroubledSince(old(store.env.Now())))
        && store.committed.marks == old(store.committed).marks
      ensures ok && hasWriter ==> Accounted(i, store.committed.marks, dlq, given)
      ensures !ok ==> store.env.TroubledSince(old(store.env.Now()))
      ensures !hasWriter ==> ok && dlq == old(dlq)
    {
      ghost var began, before := store.env.Now(), store.committed.db;
      handled := false;
      var event := decode(log[i].value);
      if event == None {
        ok := DlqPublish(i, "not a CloudEvent", now);
        return;
      }
      var attempts: nat, ended: bool;
      ok, attempts, ended := HandleWithRetry(event.value);
      handled := ok;
      if !ok {
        ok := GiveUp(i, Failure(before, attempts, ended, store.env.TroubledSince(began)), now, began);
      }
    }

    /** The message goes to the dead letters, for the reason given. */
    method GiveUp(i: nat, ghost f: Failure, now: string, ghost since: Moment) returns (ok: bool)
      requires i < |log| && LettersExplained() && GivenUpRightly(i, f) && store.env.LaterThan(since)
      modifies this`dlq, this`letterOf, this`given, store.env
      ensures LettersExplained() && given == old(given)[i := f]
      ensures old(dlq) <= dlq && store.env.LaterThan(since)
      ensures ok && hasWriter ==> HasLetter(dlq, log[i])
      ensures !hasWriter ==> ok && dlq == old(dlq)
      ensures !ok || old(store.env.TroubledSince(since)) ==> store.env.TroubledSince(since)
      ensures old(store.env.EndedSince(since)) ==> store.env.EndedSince(since)
    {
      given := given[i := f];
      ghost var middle := store.env.Now();
      ok := DlqPublish(i, "handler failed", now);
      if store.env.TroubledSince(middle) { TroubleSinceEarlier(store.env, since, middle); }
    }

    lemma AccountedStays(n: nat, marks: set<EventId>, letters: seq<Message>, given: map<nat, Failure>,
        marks1: set<EventId>, letters1: seq<Message>, given1: map<nat, Failure>)
      requires n <= |log| && marks <= marks1 && letters <= letters1 && given.Keys <= given1.Keys
      ensures AllAccounted(n, marks, letters, given) ==> AllAccounted(n, marks1, letters1, given1)
    {
      forall i | 0 <= i < n && AllAccounted(n, marks, letters, given) ensures Accounted(i, marks1, letters1, given1) {
        assert Accounted(i, marks, letters, given);
        if HasLetter(letters, log[i]) {
          var k :| 0 <= k < |letters| && DeadLetterOf(log[i], letters[k]);
          assert DeadLetterOf(log[i], letters1[k]);
        }
      }
    }

    /** The offset moves past the message only after it was dispatched and the commit went through. */
    method HandleMessage(now: string) returns (ok: bool, ghost handled: bool)
      requires Valid() && committed < |log|
      modifies this, store, store.env
      ensures Valid() && Keeps(old(Shot()))
      ensures hasWriter && old(NoLoss()) ==> NoLoss()
      ensures old(committed) <= committed <= old(committed) + 1
      ensures ok ==> committed == old(committed) + 1
      ensures !ok ==> store.env.TroubledSince(old(store.env.Now()))
      ensures Settled(old(committed), handled, old(runs), old(dlq), old(given))
    {
      ok, handled := DispatchNext(now);
      if ok { ok := CommitOffset(old(Shot())); }
    }

    /**
     What became of message `i`: one that decodes was handed to its handler, and either that succeeded,
     without a dead letter and with the mark of a consumed event, or the message was given up.
     */
    ghost predicate Settled(i: nat, handled: bool, runs: nat, letters: seq<Message>, given: map<nat, Failure>)
      requires i < |log|
      reads this`runs, this`dlq, this`given, store
    {
      match decode(log[i].value)
      case None => !handled
      case Some(event) =>
        && this.runs > runs
        && (handled ==> dlq == letters && this.given == given)
        && (handled && Consumes(topic, event.payload) ==> event.id in store.committed.marks)
        && (!handled ==> i in this.given && this.given == given[i := this.given[i]])
    }

    /** Dispatches the next message; what was accounted for still is, and if it went well so is this one. */
    method DispatchNext(now: string) returns (ok: bool, ghost handled: bool)
      requires Valid() && committed < |log|
      modifies store, store.env, this`dlq, this`letterOf, this`applied, this`runs, this`given
      ensures Valid() && Keeps(old(Shot()))
      ensures hasWriter && old(NoLoss()) ==> NoLoss()
      ensures hasWriter && old(NoLoss()) && ok ==> AllAccounted(committed + 1, store.committed.marks, dlq, given)
      ensures !ok ==> store.env.TroubledSince(old(store.env.Now()))
      ensures Settled(committed, handled, old(runs), old(dlq), old(given))
    {
      ghost var marks0, dlq0, given0 := store.committed.marks, dlq, given;
      ok, handled := Dispatch(committed, now);
      AccountedStays(committed, marks0, dlq0, given0, store.committed.marks, dlq, given);
    }

    /** Commits the offset of the message; the commit may go through and still be reported as failed. */
    method CommitOffset(ghost was: Snapshot) returns (ok: bool)
      requires Valid() && committed < |log| && Keeps(was) && committed == was.committed
      requires decode(log[committed].value).Some? ==> runs > was.runs
      modifies this`committed, store.env
      ensures Valid() && Keeps(was)
      ensures !ok ==> store.env.TroubledSince(was.moment)
      ensures committed == old(committed) || committed == old(committed) + 1
      ensures ok ==> committed == old(committed) + 1
      ensures old(AllAccounted(committed + 1, store.committed.marks, dlq, given)) ==> NoLoss()
    {
      ghost var n := store.env.steps;
      var fate := store.env.Try();
      if fate == Goes || fate == Unheard { committed := committed + 1; }
      ok := fate == Goes;
      assert !ok ==> store.env.fate(n) != Goes;
    }

    /** Consumes until the log is exhausted or an error or a crash ends the loop; a restart resumes here. */
    method ConsumeLoop(now: string) returns (drained: bool)
      requires Valid()
      modifies this, store, store.env
      ensures Valid() && (drained ==> committed == |log|)
      ensures !drained ==> store.env.TroubledSince(old(store.env.Now()))
      ensures hasWriter && old(NoLoss()) ==> NoLoss()
      ensures old(committed) <= committed
      ensures Keeps(old(Shot()))
    {
      ghost var safe, was := hasWriter && NoLoss(), Shot();
      while committed < |log|
        invariant Valid() && (safe ==> NoLoss())
        invariant Keeps(was)
      {
        var ok := FetchAndHandle(now, was);
        if !ok { return false; }
      }
      return true;
    }

    /** One turn of the loop: the fetch may fail, or the context be cancelled. */
    method FetchAndHandle(now: string, ghost was: Snapshot) returns (ok: bool)
      requires Valid() && committed < |log| && Keeps(was)
      modifies this, store, store.env
      ensures Valid() && Keeps(was)
      ensures hasWriter && old(NoLoss()) ==> NoLoss()
      ensures old(committed) <= committed <= old(committed) + 1
      ensures ok ==> committed == old(committed) + 1
      ensures !ok ==> store.env.TroubledSince(was.moment)
    {
      ghost var n := store.env.steps;
      var fate := store.env.Try();
      if fate != Goes {
        assert store.env.fate(n) != Goes;
        return false;
      }
      ghost var handled: bool;
      ghost var mid := Shot();
      ok, handled := HandleMessage(now);
      KeepsOn(was, mid);
    }

    lemma {:induction false} DecodableConcat(from: nat, mid: nat, until: nat)
      requires from <= mid <= until <= |log|
      ensures Decodable(from, until) == Decodable(from, mid) + Decodable(mid, until)
      decreases until
    {
      if mid < until { DecodableConcat(from, mid, until - 1); }
    }

    /** How many messages of this part of the log decode. */
    ghost function Decodable(from: nat, until: nat): nat
      requires until <= |log|
      decreases until
    {
      if until <= from then 0
      else Decodable(from, until - 1) + (if decode(log[until - 1].value).Some? then 1 else 0)
    }
  }

  function TopicName(topic: Topic): string {
    match topic
    case Inventory => "warehouse.inventory.events"
    case Fulfillment => "warehouse.fulfillment.events"
    case OrderManagement => "warehouse.order-management.events"
  }

  /**
   In every run, however often it is stopped and restarted, no committed message is lost, each that
   decodes was handed to its handler, and within a unit of work the database is what the applied
   events make of it.
   */
  method RunWithRestarts(c: PartitionConsumer, starts: nat, now: string)
    requires c.Valid() && c.hasWriter && c.NoLoss()
    modifies c, c.store, c.store.env
    ensures c.Valid() && c.NoLoss() && old(c.committed) <= c.committed
    ensures c.Keeps(old(c.Shot()))
    ensures starts > 0 && !c.store.env.TroubledSince(old(c.store.env.Now())) ==> c.committed == |c.log|
    ensures c.store.uow ==>
      exists ops :: Valid(c.start.db, ops) && c.store.committed.db == Run(c.start.db, ops)
  {
    ghost var was := c.Shot();
    for i := 0 to starts
      invariant c.Valid() && c.NoLoss() && c.Keeps(was)
      invariant i > 0 && !c.store.env.TroubledSince(was.moment) ==> c.committed == |c.log|
    {
      ghost var mid := c.Shot();
      var drained := c.ConsumeLoop(now);
      c.KeepsOn(was, mid);
    }
    if c.store.uow { var ops := ChainIsRun(c.start, c.applied, c.store.committed); }
  }
}
