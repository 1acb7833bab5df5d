/**
 The publication outbox: lifecycle transitions queue intents, and a dispatch writes each unpublished intent to
 the broker and the run's event ledger. The broker write or the ledger save may fail every time.
 */
module PublicationOutbox {
  import opened Prelude
  import opened SimopsState
  import opened SimopsStore

  /** How one Publish goes: everything works, the broker write fails, or it works but the ledger save fails. */
  datatype PublishFault = Delivered | BrokerFails | LedgerFails

  class RedpandaEventLog {
    const store: InMemorySimopsStore
    var broker: seq<Event>

    constructor (store: InMemorySimopsStore)
      ensures this.store == store && broker == []
    {
      this.store, broker := store, [];
    }

    method Publish(e: Event, fault: PublishFault) returns (r: Result<(), string>)
      requires store.Valid()
      modifies this`broker, store`files
      ensures store.Valid()
      ensures broker == if fault == BrokerFails then old(broker) else old(broker) + [e]
      ensures r.Ok? <==> fault == Delivered && e.run in old(store.files)
      ensures store.files ==
              if r.Ok? then old(store.files)[e.run := WithEvent(old(store.files)[e.run], e)] else old(store.files)
    {
      if fault == BrokerFails {
        return Err("broker write failed");
      }
      broker := broker + [e];
      if fault == LedgerFails {
        return Err("event could not be saved");
      }
      var saved := store.SaveEvent(e);
      r := if saved.Ok? then Ok(()) else Err("simops run not found");
    }
  }

  // ---------------------------------------------------------------- dispatching

  /** A run's file and the broker stream. */
  datatype Ledger = Ledger(file: RunFile, broker: seq<Event>)

  function PublishError(fault: PublishFault): string
  {
    if fault == BrokerFails then "broker write failed" else "event could not be saved"
  }

  /** One turn of dispatchSimopsPublicationIntents; `intent` is the copy the dispatch listed. */
  function DispatchOne(l: Ledger, id: IntentId, intent: Intent, fault: PublishFault, now: Time): Ledger
    requires id in l.file.intents
  {
    if intent.state == PublishedIntent then l
    else
      match fault
      case Delivered => Ledger(MarkPublished(WithEvent(l.file, intent.event), id, intent.event, now),
          l.broker + [intent.event])
      case BrokerFails => Ledger(MarkFailed(l.file, id, PublishError(fault), now), l.broker)
      case LedgerFails => Ledger(MarkFailed(l.file, id, PublishError(fault), now), l.broker + [intent.event])
  }

  ghost function Dispatch(
    l: Ledger, listed: map<IntentId, Intent>, order: seq<IntentId>, fault: IntentId -> PublishFault,
    now: Time): (m: Ledger)
    requires forall id :: id in order ==> id in listed
    requires listed.Keys <= l.file.intents.Keys
    ensures m.file.intents.Keys == l.file.intents.Keys
    ensures m.file == l.file.(intents := m.file.intents, events := m.file.events)
  {
    if order == [] then l
    else
      assert forall id :: id in order[..|order| - 1] ==> id in order;
      var id := order[|order| - 1];
      DispatchOne(Dispatch(l, listed, order[..|order| - 1], fault, now), id, listed[id], fault(id), now)
  }

  /** Every intent is filed under its own event's id, and the event is the run's own. */
  ghost predicate OwnIntents(f: RunFile)
  {
    forall id :: id in f.intents ==>
      IdOf(f.intents[id].event) == id && id.run == f.run.id && f.intents[id].event.worker == ""
  }

  /** The loop body of dispatchSimopsPublicationIntents. */
  method DispatchIntent(
    store: InMemorySimopsStore, log: RedpandaEventLog, id: IntentId, intent: Intent, fault: PublishFault, now: Time)
    returns (failed: bool)
    requires store.Valid() && log.store == store
    requires id.run in store.files && id in store.files[id.run].intents && intent.event.run == id.run
    modifies store`files, log`broker
    ensures store.Valid()
    ensures var m := DispatchOne(Ledger(old(store.files)[id.run], old(log.broker)), id, intent, fault, now);
      store.files == old(store.files)[id.run := m.file] && log.broker == m.broker
    ensures failed <==> intent.state != PublishedIntent && fault != Delivered
  {
    failed := false;
    if intent.state != PublishedIntent {
      var published := log.Publish(intent.event, fault);
      if published.Err? {
        var marked := store.MarkPublicationIntentFailed(id, PublishError(fault), now);
        failed := true;
      } else {
        var marked := store.MarkPublicationIntentPublished(id, intent.event, now);
      }
    }
  }

  lemma DispatchUnrolls(
    l: Ledger, listed: map<IntentId, Intent>, order: seq<IntentId>, i: nat, fault: IntentId -> PublishFault, now: Time)
    requires i < |order| && (forall id :: id in order ==> id in listed) && listed.Keys <= l.file.intents.Keys
    ensures order[i] in listed && (forall id :: id in order[..i] ==> id in listed)
            && (forall id :: id in order[..i + 1] ==> id in listed)
    ensures order[i] in Dispatch(l, listed, order[..i], fault, now).file.intents
    ensures Dispatch(l, listed, order[..i + 1], fault, now)
            == DispatchOne(Dispatch(l, listed, order[..i], fault, now), order[i], listed[order[i]], fault(order[i]),
                now)
  {
    assert order[..i + 1][..i] == order[..i];
    assert order[i] in order;
    assert forall id :: id in order[..i] ==> id in order;
    assert forall id :: id in order[..i + 1] ==> id in order;
  }

  /** `order` is the order in which ranging over the run's intents happens to list them. */
  method DispatchPublicationIntents(
    store: InMemorySimopsStore, log: RedpandaEventLog, run: string, order: seq<IntentId>,
    fault: IntentId -> PublishFault, now: Time) returns (errors: nat)
    requires store.Valid() && log.store == store
    requires run in store.files ==> Visits(order, store.files[run].intents.Keys) && OwnIntents(store.files[run])
    modifies store`files, log`broker
    ensures store.Valid()
    ensures run !in old(store.files) ==> store.files == old(store.files) && log.broker == old(log.broker) && errors > 0
    ensures run in old(store.files) ==>
      var was := Ledger(old(store.files)[run], old(log.broker));
      var now := Dispatch(was, was.file.intents, order, fault, now);
      store.files == old(store.files)[run := now.file] && log.broker == now.broker
    ensures run in old(store.files) ==> errors == Troubles(old(store.files)[run].intents, order, fault)
  {
    if run !in store.files {
      return 1;
    }
    errors := DispatchListed(store, log, run, order, fault, now);
  }

  /** The loop over the listed intents. */
  method DispatchListed(
    store: InMemorySimopsStore, log: RedpandaEventLog, run: string, order: seq<IntentId>,
    fault: IntentId -> PublishFault, now: Time) returns (errors: nat)
    requires store.Valid() && log.store == store && run in store.files
    requires Visits(order, store.files[run].intents.Keys) && OwnIntents(store.files[run])
    modifies store`files, log`broker
    ensures store.Valid()
    ensures DispatchedSoFar(old(store.files), store.files, log.broker, run,
                            Ledger(old(store.files)[run], old(log.broker)), order, fault, now)
    ensures errors == Troubles(old(store.files)[run].intents, order, fault)
  {
    errors := 0;
    var listed := store.files[run].intents;
    ghost var before, was := store.files, Ledger(store.files[run], log.broker);
    for i := 0 to |order|
      invariant store.Valid() && DispatchedSoFar(before, store.files, log.broker, run, was, order[..i], fault, now)
      invariant errors == Troubles(listed, order[..i], fault)
    {
      var failed := DispatchNext(store, log, run, listed, order, i, fault, now, before, was);
      TroublesOneMore(listed, order, i, fault);
      errors := if failed then errors + 1 else errors;
    }
    assert order[..|order|] == order;
  }

  lemma TroublesOneMore(listed: map<IntentId, Intent>, order: seq<IntentId>, i: nat, fault: IntentId -> PublishFault)
    requires i < |order|
    ensures Troubles(listed, order[..i + 1], fault)
            == Troubles(listed, order[..i], fault) + (if Goes(listed, order[i], fault) then 0 else 1)
  {
    assert order[..i + 1][..i] == order[..i];
  }

  /** One turn of the loop, on the store and the broker as the turns before it left them. */
  method DispatchNext(
    store: InMemorySimopsStore, log: RedpandaEventLog, run: string, listed: map<IntentId, Intent>, order: seq<IntentId>,
    i: nat, fault: IntentId -> PublishFault, now: Time, ghost before: map<string, RunFile>, ghost was: Ledger)
    returns (failed: bool)
    requires store.Valid() && log.store == store && i < |order| && listed == was.file.intents
    requires Visits(order, listed.Keys) && OwnIntents(was.file) && was.file.run.id == run
    requires DispatchedSoFar(before, store.files, log.broker, run, was, order[..i], fault, now)
    modifies store`files, log`broker
    ensures store.Valid() && DispatchedSoFar(before, store.files, log.broker, run, was, order[..i + 1], fault, now)
    ensures failed <==> !Goes(listed, order[i], fault)
  {
    ghost var files, broker := store.files, log.broker;
    NextIsReady(before, files, broker, run, was, order, i, fault, now);
    failed := DispatchIntent(store, log, order[i], listed[order[i]], fault(order[i]), now);
    NextIsDone(before, files, store.files, broker, log.broker, run, was, order, i, fault, now);
  }

  /** A listed intent is no trouble: it is published already, or its event is delivered. */
  predicate Goes(listed: map<IntentId, Intent>, id: IntentId, fault: IntentId -> PublishFault)
  {
    id in listed && (listed[id].state == PublishedIntent || fault(id) == Delivered)
  }

  /** How many of the intents are trouble. */
  function Troubles(listed: map<IntentId, Intent>, order: seq<IntentId>, fault: IntentId -> PublishFault): nat
  {
    if order == [] then 0
    else
      Troubles(listed, order[..|order| - 1], fault) + (if Goes(listed, order[|order| - 1], fault) then 0 else 1)
  }

  /** The store and the broker after dispatching `done` of the listed intents. */
  ghost predicate DispatchedSoFar(
    before: map<string, RunFile>, files: map<string, RunFile>, broker: seq<Event>, run: string, was: Ledger,
    done: seq<IntentId>, fault: IntentId -> PublishFault, now: Time)
  {
    && (forall id :: id in done ==> id in was.file.intents)
    && var l := Dispatch(was, was.file.intents, done, fault, now);
       files == before[run := l.file] && broker == l.broker
  }

  lemma NextIsReady(
    before: map<string, RunFile>, files: map<string, RunFile>, broker: seq<Event>, run: string, was: Ledger,
    order: seq<IntentId>, i: nat, fault: IntentId -> PublishFault, now: Time)
    requires i < |order| && Visits(order, was.file.intents.Keys) && OwnIntents(was.file) && was.file.run.id == run
    requires DispatchedSoFar(before, files, broker, run, was, order[..i], fault, now)
    ensures order[i] in was.file.intents && order[i].run == run && was.file.intents[order[i]].event.run == run
    ensures run in files && order[i] in files[run].intents
  {
    DispatchUnrolls(was, was.file.intents, order, i, fault, now);
  }

  lemma NextIsDone(
    before: map<string, RunFile>, files: map<string, RunFile>, after: map<string, RunFile>, broker: seq<Event>,
    next: seq<Event>, run: string, was: Ledger, order: seq<IntentId>, i: nat, fault: IntentId -> PublishFault,
    now: Time)
    requires i < |order| && Visits(order, was.file.intents.Keys) && order[i] in was.file.intents
    requires DispatchedSoFar(before, files, broker, run, was, order[..i], fault, now) && order[i] in files[run].intents
    requires var m := DispatchOne(Ledger(files[run], broker), order[i], was.file.intents[order[i]], fault(order[i]),
        now);
      after == files[run := m.file] && next == m.broker
    ensures DispatchedSoFar(before, after, next, run, was, order[..i + 1], fault, now)
  {
    DispatchUnrolls(was, was.file.intents, order, i, fault, now);
    PutTwice(before, run, files[run], after[run]);
  }

  lemma PutTwice<K, V>(m: map<K, V>, k: K, v: V, w: V)
    ensures m[k := v][k := w] == m[k := w]
  {
  }

  // ---------------------------------------------------------------- exactly once in the ledger

  function CountOf(events: seq<Event>, id: IntentId): nat
  {
    if events == [] then 0
    else CountOf(events[..|events| - 1], id) + (if IdOf(events[|events| - 1]) == id then 1 else 0)
  }

  lemma CountOneMore(events: seq<Event>, e: Event, id: IntentId)
    ensures CountOf(events + [e], id) == CountOf(events, id) + (if IdOf(e) == id then 1 else 0)
  {
    assert (events + [e])[..|events|] == events;
  }

  predicate IsPublished(f: RunFile, id: IntentId)
  {
    id in f.intents && f.intents[id].state == PublishedIntent
  }

  /** Besides `past` entries of earlier publications the ledger holds a published intent once and any other not at
      all, and the broker has seen all of it. */
  ghost predicate Books(l: Ledger, id: IntentId, past: nat)
  {
    && CountOf(l.file.events, id) == past + (if IsPublished(l.file, id) then 1 else 0)
    && CountOf(l.broker, id) >= CountOf(l.file.events, id)
  }

  /** `m` follows `l`: same run, published intents stay so, and both streams only grow. */
  ghost predicate Follows(l: Ledger, m: Ledger, id: IntentId)
  {
    && m.file.run.id == l.file.run.id
    && (IsPublished(l.file, id) ==> IsPublished(m.file, id))
    && l.file.events <= m.file.events
    && l.broker <= m.broker
  }

  /** What one turn did: an unpublished intent is sent and saved as far as the fault lets it. */
  ghost predicate Turned(l: Ledger, m: Ledger, key: IntentId, intent: Intent, fault: PublishFault)
  {
    && m.file.run == l.file.run
    && m.file.intents.Keys == l.file.intents.Keys && key in l.file.intents
    && (forall other :: other in l.file.intents && other != key ==> m.file.intents[other] == l.file.intents[other])
    && m.file.intents[key].event == l.file.intents[key].event
    && (intent.state == PublishedIntent ==> m == l)
    && (intent.state != PublishedIntent ==>
          && m.file.events == (if fault == Delivered then l.file.events + [intent.event] else l.file.events)
          && m.broker == (if fault == BrokerFails then l.broker else l.broker + [intent.event])
          && (m.file.intents[key].state == PublishedIntent <==> fault == Delivered))
  }

  /** Publishing has already saved the event, so marking the intent published does not save it again. */
  lemma DispatchOneTurns(l: Ledger, key: IntentId, intent: Intent, fault: PublishFault, now: Time)
    requires key in l.file.intents
    ensures Turned(l, DispatchOne(l, key, intent, fault, now), key, intent, fault)
  {
    assert intent.event in l.file.events + [intent.event];
  }

  lemma TurnKeepsIntents(l: Ledger, m: Ledger, key: IntentId, intent: Intent, fault: PublishFault)
    requires OwnIntents(l.file) && key in l.file.intents && Turned(l, m, key, intent, fault)
    ensures OwnIntents(m.file)
  {
    forall id | id in m.file.intents ensures m.file.intents[id].event == l.file.intents[id].event {
    }
  }

  lemma TurnKeepsBooks(
    l: Ledger, m: Ledger, key: IntentId, intent: Intent, fault: PublishFault, id: IntentId, past: nat)
    requires Books(l, id, past) && key in l.file.intents && intent == l.file.intents[key] && IdOf(intent.event) == key
    requires Turned(l, m, key, intent, fault)
    ensures Books(m, id, past)
    ensures key == id ==> IsPublished(m.file, id) == (IsPublished(l.file, id) || fault == Delivered)
  {
    CountOneMore(l.file.events, intent.event, id);
    CountOneMore(l.broker, intent.event, id);
  }

  lemma TurnKeeps(l: Ledger, m: Ledger, key: IntentId, intent: Intent, fault: PublishFault, id: IntentId, past: nat)
    requires OwnIntents(l.file) && Books(l, id, past)
    requires key in l.file.intents && intent == l.file.intents[key] && Turned(l, m, key, intent, fault)
    ensures OwnIntents(m.file) && Books(m, id, past) && Follows(l, m, id)
    ensures key == id ==> IsPublished(m.file, id) == (IsPublished(l.file, id) || fault == Delivered)
  {
    TurnKeepsIntents(l, m, key, intent, fault);
    TurnKeepsBooks(l, m, key, intent, fault, id, past);
  }

  /** What a dispatch over `order` did, as far as intent `id` is concerned. */
  ghost predicate Dispatched(
    l: Ledger, m: Ledger, order: seq<IntentId>, fault: IntentId -> PublishFault, id: IntentId, past: nat)
  {
    && OwnIntents(m.file) && Books(m, id, past) && Follows(l, m, id)
    && m.file.intents.Keys == l.file.intents.Keys
    && (id in order ==> IsPublished(m.file, id) == (IsPublished(l.file, id) || fault(id) == Delivered))
    && (forall k :: k in l.file.intents && k !in order ==> m.file.intents[k] == l.file.intents[k])
  }

  lemma DispatchedOneMore(
    l: Ledger, m: Ledger, n: Ledger, order: seq<IntentId>, key: IntentId, fault: IntentId -> PublishFault, id: IntentId,
    past: nat)
    requires Dispatched(l, m, order, fault, id, past)
    requires key in l.file.intents && key !in order && Turned(m, n, key, l.file.intents[key], fault(key))
    ensures Dispatched(l, n, order + [key], fault, id, past)
  {
    TurnKeeps(m, n, key, l.file.intents[key], fault(key), id, past);
  }

  /** The last turn of a dispatch, on whatever the turns before it left. */
  lemma LastTurn(
    l: Ledger, m: Ledger, order: seq<IntentId>, fault: IntentId -> PublishFault, now: Time, id: IntentId, past: nat)
    requires order != [] && AllDifferent(order) && order[|order| - 1] in l.file.intents
    requires Dispatched(l, m, order[..|order| - 1], fault, id, past)
    ensures var key := order[|order| - 1];
      Dispatched(l, DispatchOne(m, key, l.file.intents[key], fault(key), now), order, fault, id, past)
  {
    var key := order[|order| - 1];
    SplitLast(order);
    DispatchOneTurns(m, key, l.file.intents[key], fault(key), now);
    DispatchedOneMore(l, m, DispatchOne(m, key, l.file.intents[key], fault(key), now), order[..|order| - 1], key, fault,
        id, past);
  }

  lemma {:induction false} DispatchKeeps(
    l: Ledger, order: seq<IntentId>, fault: IntentId -> PublishFault, now: Time, id: IntentId, past: nat)
    requires OwnIntents(l.file) && Books(l, id, past)
    requires AllDifferent(order)
    requires forall k :: k in order ==> k in l.file.intents
    ensures Dispatched(l, Dispatch(l, l.file.intents, order, fault, now), order, fault, id, past)
    decreases |order|
  {
    if order != [] {
      var before, key := order[..|order| - 1], order[|order| - 1];
      assert forall k :: k in before ==> k in order;
      assert AllDifferent(before);
      DispatchKeeps(l, before, fault, now, id, past);
      LastTurn(l, Dispatch(l, l.file.intents, before, fault, now), order, fault, now, id, past);
    }
  }

  // ---------------------------------------------------------------- over whole runs

  const LIFECYCLE_EVENT := "run.lifecycle"

  /** What may happen to a run's file and the broker once the run exists. */
  datatype Step =
    | Queue(lifecycle: Lifecycle, now: Time)
    | DispatchAll(order: seq<IntentId>, fault: IntentId -> PublishFault, now: Time)
    | Record(event: Event)
    | StopStep(transition: StopTransition, visited: seq<string>, now: Time)
    | ObserveStep(observation: Observation, visited: seq<string>, now: Time)

  /** Queueing, dispatching, recording any other event, stopping and observing. A step that does not fit is skipped. */
  ghost function StepLedger(l: Ledger, step: Step): Ledger
  {
    match step
    case Queue(lifecycle, now) =>
      var event := Event(l.file.run.id, "", LIFECYCLE_EVENT, Some(lifecycle), "", now);
      l.(file := TransitionWithIntent(l.file, lifecycle, event, now))
    case DispatchAll(order, fault, now) =>
      if Visits(order, l.file.intents.Keys) then Dispatch(l, l.file.intents, order, fault, now) else l
    case Record(event) =>
      if event.eventType == LIFECYCLE_EVENT then l else l.(file := WithEvent(l.file, event))
    case StopStep(transition, order, now) =>
      if Visits(order, l.file.workers.Keys) then l.(file := StopFile(l.file, transition, order, now)) else l
    case ObserveStep(observation, order, now) =>
      if Visits(order, l.file.workers.Keys) && observation.worker in l.file.workers
      then l.(file := ObservedIn(l.file, observation, order, now)) else l
  }

  ghost function RunLedger(l: Ledger, steps: seq<Step>): Ledger
  {
    if steps == [] then l else StepLedger(RunLedger(l, steps[..|steps| - 1]), steps[|steps| - 1])
  }

  lemma QueueKeeps(l: Ledger, lifecycle: Lifecycle, now: Time, id: IntentId, past: nat)
    requires OwnIntents(l.file) && Books(l, id, past) && l.file.run.id != ""
    ensures var m := StepLedger(l, Queue(lifecycle, now));
      OwnIntents(m.file) && Books(m, id, past) && Follows(l, m, id)
  {
  }

  lemma StopKeeps(l: Ledger, t: StopTransition, order: seq<string>, now: Time, id: IntentId, past: nat)
    requires OwnIntents(l.file) && Books(l, id, past) && Visits(order, l.file.workers.Keys)
    requires id.lifecycle != Some(LifecycleStopped)
    ensures var m := l.(file := StopFile(l.file, t, order, now));
      OwnIntents(m.file) && Books(m, id, past) && Follows(l, m, id)
  {
    StopEachKeepsKeys(l.file, t, order, now);
  }

  lemma RecordKeeps(l: Ledger, event: Event, id: IntentId, past: nat)
    requires OwnIntents(l.file) && Books(l, id, past) && id.eventType == LIFECYCLE_EVENT
    ensures var m := StepLedger(l, Record(event));
      OwnIntents(m.file) && Books(m, id, past) && Follows(l, m, id)
  {
    CountOneMore(l.file.events, event, id);
  }

  lemma ObserveKeeps(l: Ledger, observation: Observation, order: seq<string>, now: Time, id: IntentId, past: nat)
    requires OwnIntents(l.file) && Books(l, id, past)
    ensures var m := StepLedger(l, ObserveStep(observation, order, now));
      OwnIntents(m.file) && Books(m, id, past) && Follows(l, m, id)
  {
  }

  lemma StepKeeps(l: Ledger, step: Step, id: IntentId, past: nat)
    requires OwnIntents(l.file) && Books(l, id, past) && l.file.run.id != ""
    requires id.eventType == LIFECYCLE_EVENT && (step.StopStep? ==> id.lifecycle != Some(LifecycleStopped))
    ensures var m := StepLedger(l, step);
      OwnIntents(m.file) && Books(m, id, past) && Follows(l, m, id)
  {
    match step {
      case Queue(lifecycle, now) => QueueKeeps(l, lifecycle, now, id, past);
      case DispatchAll(order, fault, now) =>
        if Visits(order, l.file.intents.Keys) {
          DispatchKeeps(l, order, fault, now, id, past);
        }
      case Record(event) => RecordKeeps(l, event, id, past);
      case StopStep(transition, order, now) =>
        if Visits(order, l.file.workers.Keys) {
          StopKeeps(l, transition, order, now, id, past);
        }
      case ObserveStep(observation, order, now) => ObserveKeeps(l, observation, order, now, id, past);
    }
  }

  lemma {:induction false} RunKeeps(l: Ledger, steps: seq<Step>, id: IntentId, past: nat)
    requires OwnIntents(l.file) && Books(l, id, past) && l.file.run.id != ""
    requires id.lifecycle != Some(LifecycleStopped) && id.eventType == LIFECYCLE_EVENT
    ensures var m := RunLedger(l, steps);
      OwnIntents(m.file) && Books(m, id, past) && Follows(l, m, id)
    decreases |steps|
  {
    if steps != [] {
      RunKeeps(l, steps[..|steps| - 1], id, past);
      StepKeeps(RunLedger(l, steps[..|steps| - 1]), steps[|steps| - 1], id, past);
    }
  }

  function StreamingId(run: string): IntentId
  {
    IntentId(run, LIFECYCLE_EVENT, Some(Streaming))
  }

  /**
   From a fresh run, whatever is queued, dispatched, recorded, stopped or observed, and whatever fails: the
   streaming event is in the run's ledger once if its intent is published and not at all otherwise, and a
   published one is in the broker stream.
   */
  lemma StreamingPublishedOnce(record: Run, workers: seq<Worker>, broker: seq<Event>, steps: seq<Step>)
    requires record.id != ""
    ensures var l := RunLedger(Ledger(NewFile(record, workers), broker), steps);
      var id := StreamingId(record.id);
      && CountOf(l.file.events, id) == (if IsPublished(l.file, id) then 1 else 0)
      && (IsPublished(l.file, id) ==> CountOf(l.broker, id) >= 1)
  {
    RunKeeps(Ledger(NewFile(record, workers), broker), steps, StreamingId(record.id), 0);
  }

  /** Once published, the streaming intent is never reopened. */
  lemma PublishedIsAbsorbing(record: Run, workers: seq<Worker>, broker: seq<Event>, steps: seq<Step>, more: seq<Step>)
    requires record.id != ""
    ensures var l := Ledger(NewFile(record, workers), broker);
      IsPublished(RunLedger(l, steps).file, StreamingId(record.id)) ==>
        IsPublished(RunLedger(RunLedger(l, steps), more).file, StreamingId(record.id))
  {
    var l := Ledger(NewFile(record, workers), broker);
    RunKeeps(l, steps, StreamingId(record.id), 0);
    RunKeeps(RunLedger(l, steps), more, StreamingId(record.id), 0);
  }

  /** A dispatch in which nothing fails leaves every intent published. */
  lemma QuietDispatchPublishes(
    l: Ledger, order: seq<IntentId>, fault: IntentId -> PublishFault, now: Time, id: IntentId, past: nat)
    requires OwnIntents(l.file) && Books(l, id, past) && Visits(order, l.file.intents.Keys)
    requires id in l.file.intents && fault(id) == Delivered
    ensures IsPublished(Dispatch(l, l.file.intents, order, fault, now).file, id)
  {
    DispatchKeeps(l, order, fault, now, id, past);
  }

  /** Repeating a transition keeps the first intent: none is added and none is reset. */
  lemma RepeatedTransitionKeepsIntent(f: RunFile, lifecycle: Lifecycle, event: Event, now: Time, later: Time)
    requires event.run != "" && event.occurredAt != ZERO_TIME
    ensures TransitionWithIntent(TransitionWithIntent(f, lifecycle, event, now), lifecycle, event, later).intents
            == TransitionWithIntent(f, lifecycle, event, now).intents
  {
  }
}
