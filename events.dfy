/**
 * The event store the hub drives (index.js), reduced to the claims and
 * marks the hub issues against it, and the two event pipelines of the hub
 * as functions of that store: the publish pipeline
 * (`#attemptToConsumeAndBroadcastPublishedMessage` with
 * `#broadcastPublishedMessage`) and one tick of the scheduled-event loop
 * (`#sheduledInterval`). The Hub class runs these step by step.
 */
module Events {
  import opened Common
  import opened Subscribers

  /** An event is addressed by its domain and id. */
  datatype Key = Key(domain: Value, id: Value)

  datatype Schedule = Scheduled | Executed | Succeeded | Failed

  /**
   * `published`: events still waiting to be consumed; `consumedBy`: the hub
   * that consumed each consumed event; `orphans`: events consumed while no
   * spoke subscribed; `schedule`: the state of each scheduled event;
   * `faults`: events whose consume call fails; `quit`: hubs marked as quit.
   */
  datatype EventStore = EventStore(
    published: set<Key>,
    consumedBy: map<Key, string>,
    orphans: set<Key>,
    schedule: map<Key, Schedule>,
    faults: set<Key>,
    quit: set<string>)

  datatype DbError = DbError

  /** An action the hub hands to the channel. */
  datatype Outgoing<S> =
    | Broadcast(targets: seq<S>, record: seq<Value>)
    | Transmit(peer: string, host: Value, port: Value, record: seq<Value>)
    | Hangup(peer: string)
    | End(socket: S)

  // ---------------------------------------------------------------------
  // Claims and marks.

  /**
   * `updateEventPublishedToConsumedByHub`: a compare-and-set that moves a
   * published event to consumed by `hub` and answers whether it did.
   */
  function Consume(db: EventStore, key: Key, hub: string): (r: (EventStore, Result<bool, DbError>))
    ensures key in db.faults <==> r.1.Failure?
    ensures r.1 == Success(true) <==> key !in db.faults && key in db.published
    ensures r.1 == Success(true) ==>
      && r.0.published == db.published - {key} && r.0.consumedBy == db.consumedBy[key := hub]
      && r.0.orphans == db.orphans && r.0.schedule == db.schedule && r.0.faults == db.faults && r.0.quit == db.quit
    ensures r.1 != Success(true) ==> r.0 == db
  {
    if key in db.faults then (db, Failure(DbError))
    else if key in db.published then
      (db.(published := db.published - {key}, consumedBy := db.consumedBy[key := hub]), Success(true))
    else (db, Success(false))
  }

  /** The claim succeeds at most once: a second claim on the same event answers false. */
  lemma ConsumeAtMostOnce(db: EventStore, key: Key, hub: string, other: string)
    requires Consume(db, key, hub).1 == Success(true)
    ensures Consume(Consume(db, key, hub).0, key, other) == (Consume(db, key, hub).0, Success(false))
  {
  }

  /** `updateEventScheduledExecuted`: a compare-and-set from scheduled to executed. */
  function Execute(db: EventStore, key: Key): (r: (EventStore, bool))
    ensures r.1 <==> key in db.schedule && db.schedule[key] == Scheduled
    ensures r.1 ==> r.0 == db.(schedule := db.schedule[key := Executed])
    ensures !r.1 ==> r.0 == db
  {
    if key in db.schedule && db.schedule[key] == Scheduled then (db.(schedule := db.schedule[key := Executed]), true)
    else (db, false)
  }

  lemma ExecuteAtMostOnce(db: EventStore, key: Key)
    requires Execute(db, key).1
    ensures !Execute(Execute(db, key).0, key).1
  {
  }

  /** `updateEventScheduledSuccess` and `updateEventScheduledFailed`. */
  function Mark(db: EventStore, key: Key, state: Schedule): (r: EventStore)
    ensures r.schedule == db.schedule[key := state]
    ensures r.published == db.published && r.consumedBy == db.consumedBy && r.orphans == db.orphans
    ensures r.faults == db.faults && r.quit == db.quit
  {
    db.(schedule := db.schedule[key := state])
  }

  /** `updateEventPublishedToOrphan`. */
  function Orphaned(db: EventStore, key: Key): (r: EventStore)
    ensures r.orphans == db.orphans + {key}
    ensures r.published == db.published && r.consumedBy == db.consumedBy && r.schedule == db.schedule
    ensures r.faults == db.faults && r.quit == db.quit
  {
    db.(orphans := db.orphans + {key})
  }

  // ---------------------------------------------------------------------
  // The publish pipeline.

  /** What one run of the publish pipeline leaves behind. */
  datatype Publication<S> = Publication(db: EventStore, out: seq<Outgoing<S>>, result: Result<bool, DbError>)

  function PublishRecord(domain: Value, id: Value, name: Value, pid: Value): seq<Value> {
    [Text("publish"), domain, id, name, pid]
  }

  /**
   * Claim the event for `hub`; when the claim holds, mark it orphan if
   * `get(domain, name)` is empty and otherwise broadcast the publish
   * record to exactly those sockets. The result is the claim's answer.
   */
  function Publish<S(==)>(db: EventStore, index: Index<S>, hub: string, domain: Value, id: Value, name: Value, pid: Value)
    : (p: Publication<S>)
    ensures p.result == Consume(db, Key(domain, id), hub).1
    ensures p.result != Success(true) ==> p.db == db && p.out == []
    ensures p.result == Success(true) && Subscribed(index, domain, name) == [] ==>
      p.db == Orphaned(Consume(db, Key(domain, id), hub).0, Key(domain, id)) && p.out == []
    ensures p.result == Success(true) && Subscribed(index, domain, name) != [] ==>
      && p.db == Consume(db, Key(domain, id), hub).0
      && p.out == [Broadcast(Subscribed(index, domain, name), PublishRecord(domain, id, name, pid))]
  {
    var key := Key(domain, id);
    var (claimed, consumed) := Consume(db, key, hub);
    if consumed != Success(true) then Publication(claimed, [], consumed)
    else
      var sockets := Subscribed(index, domain, name);
      if sockets == [] then Publication(Orphaned(claimed, key), [], consumed)
      else Publication(claimed, [Broadcast(sockets, PublishRecord(domain, id, name, pid))], consumed)
  }

  /** Nothing is broadcast and nothing is marked orphan unless this hub won the claim. */
  lemma PublishNeedsClaim<S>(db: EventStore, index: Index<S>, hub: string, domain: Value, id: Value, name: Value, pid: Value)
    ensures var p := Publish(db, index, hub, domain, id, name, pid);
      (p.out != [] || p.db.orphans != db.orphans) ==>
        p.result == Success(true) && Key(domain, id) in db.published && p.db.consumedBy[Key(domain, id)] == hub
  {
  }

  /** An event is marked orphan exactly when the claim holds and nobody subscribes to it. */
  lemma OrphanIff<S>(db: EventStore, index: Index<S>, hub: string, domain: Value, id: Value, name: Value, pid: Value)
    requires Key(domain, id) !in db.orphans
    ensures var p := Publish(db, index, hub, domain, id, name, pid);
      Key(domain, id) in p.db.orphans <==> p.result == Success(true) && Subscribed(index, domain, name) == []
  {
  }

  /**
   * An event published twice reaches its subscribers once: the second run
   * finds the event consumed, answers false and does nothing.
   */
  lemma PublishAtMostOnce<S>(db: EventStore, index: Index<S>, hub: string, other: string,
                             domain: Value, id: Value, name: Value, pid: Value, pid': Value)
    requires Publish(db, index, hub, domain, id, name, pid).result == Success(true)
    ensures var first := Publish(db, index, hub, domain, id, name, pid);
      Publish(first.db, index, other, domain, id, name, pid') == Publication(first.db, [], Success(false))
  {
  }

  // ---------------------------------------------------------------------
  // One tick of the scheduled-event loop.

  datatype ScheduledEvent = ScheduledEvent(domain: Value, id: Value, name: Value)

  /**
   * Why a tick ended: it ran to the end of the batch, it returned because
   * the abort signal was set, or it raised and the outer handler caught it.
   */
  datatype Status = Running | Stopped | Raised(fault: Fault)

  /**
   * `Db`: the publish pipeline raised, and the event was marked failed
   * before the error was rethrown. `Unbound`: the not-consumed branch
   * refers to a variable `error` that is not in scope, which raises a
   * ReferenceError once the event is marked failed.
   */
  datatype Fault = Db(error: DbError) | Unbound

  datatype Tick<S> = Tick(db: EventStore, out: seq<Outgoing<S>>, aborted: bool, status: Status)

  /**
   * The loop body for event `e`, the `i`-th of the batch. The abort signal
   * is set from check `abortAt` on (destroy ran during an earlier await),
   * or was set before the tick.
   */
  function Step<S(==)>(t: Tick<S>, index: Index<S>, hub: string, e: ScheduledEvent, i: nat, abortAt: nat): (u: Tick<S>)
    requires t.status == Running
    ensures u.aborted <==> t.aborted || i >= abortAt
    ensures u.aborted ==> u == t.(aborted := true, status := Stopped)
    ensures u.db.consumedBy.Keys >= t.db.consumedBy.Keys && u.db.published <= t.db.published
    ensures |u.out| >= |t.out| && u.out[..|t.out|] == t.out
    // before the signal: an event whose execution claim fails is skipped; a
    // claimed one runs the pipeline without a pid and is marked by its outcome
    ensures !t.aborted && i < abortAt ==>
      var key := Key(e.domain, e.id);
      var x := Execute(t.db, key);
      var p := Publish(x.0, index, hub, e.domain, e.id, e.name, Undefined);
      && (!x.1 ==> u == t)
      && (x.1 && p.result == Success(true) ==>
            u == t.(db := Mark(p.db, key, Succeeded), out := t.out + p.out))
      && (x.1 && p.result == Success(false) ==>
            u == t.(db := Mark(p.db, key, Failed), status := Raised(Unbound)))
      && (x.1 && p.result.Failure? ==>
            u == t.(db := Mark(p.db, key, Failed), status := Raised(Db(p.result.error))))
  {
    if t.aborted || i >= abortAt then t.(aborted := true, status := Stopped)
    else
      var key := Key(e.domain, e.id);
      var (db1, executed) := Execute(t.db, key);
      if !executed then t.(db := db1)
      else
        var p := Publish(db1, index, hub, e.domain, e.id, e.name, Undefined);
        match p.result
        case Failure(err) => t.(db := Mark(p.db, key, Failed), out := t.out + p.out, status := Raised(Db(err)))
        case Success(consumed) =>
          if consumed then t.(db := Mark(p.db, key, Succeeded), out := t.out + p.out)
          else t.(db := Mark(p.db, key, Failed), out := t.out + p.out, status := Raised(Unbound))
  }

  /** The tick from event `i` of the batch on. */
  function Batch<S(==)>(t: Tick<S>, index: Index<S>, hub: string, events: seq<ScheduledEvent>, i: nat, abortAt: nat)
    : (u: Tick<S>)
    ensures |u.out| >= |t.out| && u.out[..|t.out|] == t.out
    decreases |events| - i
  {
    if t.status != Running || i >= |events| then t
    else Batch(Step(t, index, hub, events[i], i, abortAt), index, hub, events, i + 1, abortAt)
  }

  /**
   * The position after the last event the tick from event `i` on looks
   * at. It is also the number of the read of the abort signal that
   * follows the loop: the one in `finally`, or the next step of
   * `asyncInterval` when the batch runs to its end. Read `j < n` is the
   * check before event `j`.
   */
  function LastRead<S(==)>(t: Tick<S>, index: Index<S>, hub: string, events: seq<ScheduledEvent>, i: nat, abortAt: nat)
    : (n: nat)
    decreases |events| - i
  {
    if t.status != Running || i >= |events| then i
    else LastRead(Step(t, index, hub, events[i], i, abortAt), index, hub, events, i + 1, abortAt)
  }

  /**
   * The read after the loop comes no earlier than the event the tick
   * starts from, after every event a running tick looks at, and no later
   * than the end of the batch.
   */
  lemma {:induction false} LastReadBounds<S>(t: Tick<S>, index: Index<S>, hub: string, events: seq<ScheduledEvent>,
                                             i: nat, abortAt: nat)
    ensures var n := LastRead(t, index, hub, events, i, abortAt);
      && i <= n && (i <= |events| ==> n <= |events|)
      && (t.status == Running && i < |events| ==> i < n)
    decreases |events| - i
  {
    if t.status == Running && i < |events| {
      LastReadBounds(Step(t, index, hub, events[i], i, abortAt), index, hub, events, i + 1, abortAt);
    }
  }

  /**
   * A whole tick as `#sheduledInterval` runs it: the loop over the batch,
   * then the read of the signal after it. The next tick is scheduled
   * exactly when that read does not see the signal.
   */
  function Polled<S(==)>(t: Tick<S>, index: Index<S>, hub: string, events: seq<ScheduledEvent>, abortAt: nat): (u: Tick<S>)
    requires t.status == Running
    ensures u.aborted <==> t.aborted || abortAt <= LastRead(t, index, hub, events, 0, abortAt)
  {
    var b := Batch(t, index, hub, events, 0, abortAt);
    BatchAbortedIff(t, index, hub, events, 0, abortAt);
    b.(aborted := b.aborted || abortAt <= LastRead(t, index, hub, events, 0, abortAt))
  }

  /** The tick from a running event on is its step followed by the tick from the next event on. */
  lemma BatchUnfold<S>(t: Tick<S>, index: Index<S>, hub: string, events: seq<ScheduledEvent>, i: nat, abortAt: nat)
    requires t.status == Running && i < |events|
    ensures var s := Step(t, index, hub, events[i], i, abortAt);
      && Batch(t, index, hub, events, i, abortAt) == Batch(s, index, hub, events, i + 1, abortAt)
      && LastRead(t, index, hub, events, i, abortAt) == LastRead(s, index, hub, events, i + 1, abortAt)
  {
  }

  /** A tick that has stopped, or has come to the end of the batch, is over: nothing more happens and no more is read. */
  lemma BatchDone<S>(t: Tick<S>, index: Index<S>, hub: string, events: seq<ScheduledEvent>, i: nat, abortAt: nat)
    requires t.status != Running || i >= |events|
    ensures Batch(t, index, hub, events, i, abortAt) == t && LastRead(t, index, hub, events, i, abortAt) == i
  {
  }

  /**
   * A signal set while the last event handled awaits the store is seen
   * by the read after the loop: a one-event batch whose event raises ends
   * with the signal set exactly when it is set from read 1 on.
   */
  lemma RaisedThenAborted<S>(t: Tick<S>, index: Index<S>, hub: string, e: ScheduledEvent, abortAt: nat)
    requires t.status == Running && !t.aborted && 1 <= abortAt
    requires Step(t, index, hub, e, 0, abortAt).status.Raised?
    ensures var u := Polled(t, index, hub, [e], abortAt);
      u.status.Raised? && (u.aborted <==> abortAt == 1)
  {
    var s := Step(t, index, hub, e, 0, abortAt);
    assert Batch(t, index, hub, [e], 0, abortAt) == Batch(s, index, hub, [e], 1, abortAt) == s;
    assert LastRead(t, index, hub, [e], 0, abortAt) == LastRead(s, index, hub, [e], 1, abortAt) == 1;
  }

  /**
   * A tick that no earlier check stopped ends stopped by the signal
   * exactly when the signal was set before it, or one of its own checks
   * came at or after `abortAt`; an event handled is never one whose check
   * saw the signal.
   */
  lemma {:induction false} BatchAbortedIff<S>(t: Tick<S>, index: Index<S>, hub: string, events: seq<ScheduledEvent>,
                                             i: nat, abortAt: nat)
    requires t.status == Running && i <= abortAt
    ensures Batch(t, index, hub, events, i, abortAt).aborted <==>
      t.aborted || abortAt < LastRead(t, index, hub, events, i, abortAt)
    decreases |events| - i
  {
    if i < |events| && !t.aborted && i < abortAt {
      var s := Step(t, index, hub, events[i], i, abortAt);
      if s.status == Running {
        BatchAbortedIff(s, index, hub, events, i + 1, abortAt);
      }
    }
  }

  /** No event is both waiting to be consumed and consumed. */
  ghost predicate Consistent(db: EventStore) {
    forall k :: k in db.published ==> k !in db.consumedBy
  }

  /** Consumed events stay consumed by the same hub. */
  ghost predicate Keeps(before: EventStore, after: EventStore) {
    && before.consumedBy.Keys <= after.consumedBy.Keys
    && (forall k :: k in before.consumedBy ==> after.consumedBy[k] == before.consumedBy[k])
    && after.published <= before.published
  }

  /**
   * Every event a tick marks succeeded was scheduled before the tick,
   * and this hub consumed it during the tick.
   */
  ghost predicate SucceededByThisHub(before: EventStore, after: EventStore, hub: string) {
    forall k :: k in after.schedule && after.schedule[k] == Succeeded && (k !in before.schedule || before.schedule[k] != Succeeded) ==>
      && k in before.schedule && before.schedule[k] == Scheduled
      && k in before.published && k in after.consumedBy && after.consumedBy[k] == hub
  }

  /**
   * Every event a tick consumes is consumed by this hub, was scheduled
   * before the tick, and is marked succeeded: the converse of
   * SucceededByThisHub.
   */
  ghost predicate ConsumedThenSucceeded(before: EventStore, after: EventStore, hub: string) {
    forall k :: k in after.consumedBy && k !in before.consumedBy ==>
      && after.consumedBy[k] == hub
      && k in before.schedule && before.schedule[k] == Scheduled
      && k in after.schedule && after.schedule[k] == Succeeded
  }

  /** Every schedule entry a tick changes was in the scheduled state before it. */
  ghost predicate TouchesOnlyScheduled(before: EventStore, after: EventStore) {
    && after.schedule.Keys == before.schedule.Keys
    && forall k :: k in after.schedule && after.schedule[k] != before.schedule[k] ==> before.schedule[k] == Scheduled
  }

  lemma StepKeeps<S>(t: Tick<S>, index: Index<S>, hub: string, e: ScheduledEvent, i: nat, abortAt: nat)
    requires t.status == Running && Consistent(t.db)
    ensures var u := Step(t, index, hub, e, i, abortAt);
      && Consistent(u.db) && Keeps(t.db, u.db) && SucceededByThisHub(t.db, u.db, hub) && TouchesOnlyScheduled(t.db, u.db)
      && ConsumedThenSucceeded(t.db, u.db, hub)
  {
    StepTouches(t, index, hub, e, i, abortAt);
    if !t.aborted && i < abortAt {
      var key := Key(e.domain, e.id);
      var x := Execute(t.db, key);
      if x.1 {
        var p := Publish(x.0, index, hub, e.domain, e.id, e.name, Undefined);
        if p.result == Success(true) {
          assert p.db.consumedBy == t.db.consumedBy[key := hub] && p.db.published == t.db.published - {key};
        } else {
          assert p.db == x.0;
        }
      }
    }
  }

  /** One step changes only the schedule entry of its own event, and only from scheduled. */
  lemma StepTouches<S>(t: Tick<S>, index: Index<S>, hub: string, e: ScheduledEvent, i: nat, abortAt: nat)
    requires t.status == Running
    ensures TouchesOnlyScheduled(t.db, Step(t, index, hub, e, i, abortAt).db)
  {
    if !t.aborted && i < abortAt {
      var key := Key(e.domain, e.id);
      var x := Execute(t.db, key);
      if x.1 {
        var p := Publish(x.0, index, hub, e.domain, e.id, e.name, Undefined);
        assert p.db.schedule == x.0.schedule;
      }
    }
  }

  /**
   * The batch invariant: a tick keeps every consumed event with its hub,
   * marks succeeded exactly the events that were scheduled and that this
   * hub consumed during the tick, and changes only schedule entries that
   * were scheduled.
   */
  lemma {:induction false} BatchInvariant<S>(t: Tick<S>, index: Index<S>, hub: string, events: seq<ScheduledEvent>, i: nat, abortAt: nat)
    requires Consistent(t.db)
    ensures var u := Batch(t, index, hub, events, i, abortAt);
      && Consistent(u.db) && Keeps(t.db, u.db) && SucceededByThisHub(t.db, u.db, hub) && TouchesOnlyScheduled(t.db, u.db)
      && ConsumedThenSucceeded(t.db, u.db, hub)
    decreases |events| - i
  {
    if t.status == Running && i < |events| {
      var s := Step(t, index, hub, events[i], i, abortAt);
      StepKeeps(t, index, hub, events[i], i, abortAt);
      BatchInvariant(s, index, hub, events, i + 1, abortAt);
      var u := Batch(s, index, hub, events, i + 1, abortAt);
      forall k | k in u.db.schedule && u.db.schedule[k] == Succeeded && (k !in t.db.schedule || t.db.schedule[k] != Succeeded)
        ensures k in t.db.schedule && t.db.schedule[k] == Scheduled
        ensures k in t.db.published && k in u.db.consumedBy && u.db.consumedBy[k] == hub
      {
        if k in s.db.schedule && s.db.schedule[k] == Succeeded {
          assert k in s.db.consumedBy && s.db.consumedBy[k] == hub;
        } else {
          assert s.db.schedule[k] == Scheduled;
        }
      }
      forall k | k in u.db.consumedBy && k !in t.db.consumedBy
        ensures u.db.consumedBy[k] == hub && k in t.db.schedule && t.db.schedule[k] == Scheduled
        ensures k in u.db.schedule && u.db.schedule[k] == Succeeded
      {
        if k in s.db.consumedBy {
          assert s.db.schedule[k] == Succeeded;
        } else {
          assert s.db.schedule[k] == Scheduled;
        }
      }
    }
  }

  /** Once the signal is set, a tick does nothing but stop at its first check. */
  lemma AbortedTickStops<S>(t: Tick<S>, index: Index<S>, hub: string, events: seq<ScheduledEvent>, i: nat, abortAt: nat)
    requires t.status == Running && i < |events| && (t.aborted || i >= abortAt)
    ensures Batch(t, index, hub, events, i, abortAt) == t.(aborted := true, status := Stopped)
  {
  }

  /** The events before the first abort check and only those are looked at: the store is untouched by the rest. */
  lemma {:induction false} BatchUntilAbort<S>(t: Tick<S>, index: Index<S>, hub: string, events: seq<ScheduledEvent>, abortAt: nat)
    requires t.status == Running && !t.aborted && abortAt < |events|
    ensures Batch(t, index, hub, events, 0, abortAt) == Batch(t, index, hub, events[..abortAt] + [events[abortAt]], 0, abortAt)
  {
    PrefixAgrees(t, index, hub, events, events[..abortAt] + [events[abortAt]], 0, abortAt);
  }

  /** Two batches that agree up to and including the abort check end alike. */
  lemma {:induction false} PrefixAgrees<S>(t: Tick<S>, index: Index<S>, hub: string, a: seq<ScheduledEvent>, b: seq<ScheduledEvent>,
                                           i: nat, abortAt: nat)
    requires abortAt < |a| && abortAt < |b| && i <= abortAt
    requires forall j :: i <= j <= abortAt ==> a[j] == b[j]
    ensures Batch(t, index, hub, a, i, abortAt) == Batch(t, index, hub, b, i, abortAt)
    decreases abortAt - i
  {
    if t.status == Running {
      var s := Step(t, index, hub, a[i], i, abortAt);
      if i < abortAt {
        PrefixAgrees(s, index, hub, a, b, i + 1, abortAt);
      } else {
        assert s.status == Stopped;
      }
    }
  }

  /**
   * The not-consumed branch ends the tick: an event this hub claims for
   * execution but that is no longer published (consumed elsewhere) is
   * marked failed and the tick raises, leaving the rest of the batch
   * unlooked at.
   */
  lemma UnconsumedEndsTick<S>(t: Tick<S>, index: Index<S>, hub: string, events: seq<ScheduledEvent>, i: nat, abortAt: nat)
    requires t.status == Running && !t.aborted && i < |events| && i < abortAt
    requires var key := Key(events[i].domain, events[i].id);
      Execute(t.db, key).1 && key !in t.db.faults && key !in t.db.published
    ensures var key := Key(events[i].domain, events[i].id);
      Batch(t, index, hub, events, i, abortAt) == t.(db := Mark(Execute(t.db, key).0, key, Failed), status := Raised(Unbound))
  {
    var key := Key(events[i].domain, events[i].id);
    var x := Execute(t.db, key);
    assert Publish(x.0, index, hub, events[i].domain, events[i].id, events[i].name, Undefined).result == Success(false);
  }

  // ---------------------------------------------------------------------
  // The peer announcement loop.

  /** A row of `readOnlineHubs`. */
  datatype HubRecord = HubRecord(id: string, ip: Value, port: Value)

  datatype Announcement = Skipped | Announced | Unannounced

  function OnlineRecord(externalIp: Value, externalPort: Value): seq<Value> {
    [Text("online"), externalIp, externalPort]
  }

  /** What the announcement loop hands to the channel for the peers it reached, in order. */
  function Transmissions<S>(hubs: seq<HubRecord>, outcomes: seq<Announcement>, record: seq<Value>): (out: seq<Outgoing<S>>)
    requires |outcomes| == |hubs|
    ensures forall j :: 0 <= j < |out| ==> out[j].Transmit? || out[j].Hangup?
    ensures forall j :: 0 <= j < |out| && out[j].Transmit? ==> out[j].record == record
    ensures forall j :: 0 <= j < |out| ==> out[j].peer in AnnouncedIds(hubs, outcomes)
    decreases |hubs|
  {
    if hubs == [] then []
    else
      var rest := Transmissions(hubs[1..], outcomes[1..], record);
      if outcomes[0] == Announced then
        [Transmit(hubs[0].id, hubs[0].ip, hubs[0].port, record), Hangup(hubs[0].id)] + rest
      else rest
  }

  /** The loop's trace grows one row at a time. */
  lemma {:induction false} TransmissionsSnoc<S>(hubs: seq<HubRecord>, outcomes: seq<Announcement>, h: HubRecord, o: Announcement, record: seq<Value>)
    requires |outcomes| == |hubs|
    ensures Transmissions<S>(hubs + [h], outcomes + [o], record) ==
      Transmissions<S>(hubs, outcomes, record) + if o == Announced then [Transmit(h.id, h.ip, h.port, record), Hangup(h.id)] else []
    decreases |hubs|
  {
    if hubs == [] {
      assert (hubs + [h])[1..] == [] && (outcomes + [o])[1..] == [];
    } else {
      assert (hubs + [h])[1..] == hubs[1..] + [h] && (outcomes + [o])[1..] == outcomes[1..] + [o];
      TransmissionsSnoc<S>(hubs[1..], outcomes[1..], h, o, record);
    }
  }

  /** The ids of the rows whose announcement went out. */
  function AnnouncedIds(hubs: seq<HubRecord>, outcomes: seq<Announcement>): set<string>
    requires |outcomes| == |hubs|
    decreases |hubs|
  {
    if hubs == [] then {}
    else (if outcomes[0] == Announced then {hubs[0].id} else {}) + AnnouncedIds(hubs[1..], outcomes[1..])
  }

  lemma {:induction false} AnnouncedIdsOnlyAnnounced(hubs: seq<HubRecord>, outcomes: seq<Announcement>, id: string)
    requires |outcomes| == |hubs|
    ensures id in AnnouncedIds(hubs, outcomes) <==> exists i :: 0 <= i < |hubs| && outcomes[i] == Announced && hubs[i].id == id
    decreases |hubs|
  {
    if hubs != [] {
      AnnouncedIdsOnlyAnnounced(hubs[1..], outcomes[1..], id);
      if exists i :: 0 <= i < |hubs| && outcomes[i] == Announced && hubs[i].id == id {
        var i :| 0 <= i < |hubs| && outcomes[i] == Announced && hubs[i].id == id;
        if i > 0 {
          assert outcomes[1..][i - 1] == Announced && hubs[1..][i - 1].id == id;
        }
      }
      if id in AnnouncedIds(hubs[1..], outcomes[1..]) {
        var i :| 0 <= i < |hubs[1..]| && outcomes[1..][i] == Announced && hubs[1..][i].id == id;
        assert outcomes[i + 1] == Announced && hubs[i + 1].id == id;
      }
    }
  }

  /** A hub never announces itself: no row skipped as its own is ever addressed. */
  lemma NeverAnnouncesSelf<S>(hubs: seq<HubRecord>, outcomes: seq<Announcement>, record: seq<Value>, self: string)
    requires |outcomes| == |hubs|
    requires forall i :: 0 <= i < |hubs| && hubs[i].id == self ==> outcomes[i] == Skipped
    ensures var out := Transmissions<S>(hubs, outcomes, record);
      forall j :: 0 <= j < |out| ==> (out[j].Transmit? || out[j].Hangup?) && out[j].peer != self
  {
    if self in AnnouncedIds(hubs, outcomes) {
      AnnouncedIdsOnlyAnnounced(hubs, outcomes, self);
    }
  }
}
