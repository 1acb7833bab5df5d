/**
 The Timescale telemetry consumer: fetch a broker message, project it, save the projection in one
 transaction guarded by a processed-message row, then commit the broker offset. Any store or broker
 call may fail, and a restart replays the log from the committed offset.
 */
module TelemetryProjection {
  import opened Prelude

  // ---------------------------------------------------------------- messages and their projection

  /** What parsing one optional timestamp text gives. */
  datatype Timestamp = Absent | Unparsable | At(time: int)

  /** Go's zero time. */
  const ZERO_TIME := 0

  /** The `frame` member of an event, after json.Unmarshal. */
  datatype Frame =
    | Missing
    | Malformed
    | Decoded(runId: string, workerId: string, sequence: nat, emittedAt: Timestamp, receivedAt: Timestamp, raw: string)

  datatype Event = Event(eventType: string, runId: string, workerId: string, frame: Frame, occurredAt: int)

  /** One broker message: the event it decodes to, or None when its value is not an event. */
  datatype Message = Message(event: Option<Event>)

  datatype Projection = Projection(
    receivedAt: int, emittedAt: int, runId: string, workerId: string, sequence: nat, frame: string, offset: nat)

  datatype Projected = Skip | Reject | Project(projection: Projection)

  /** ProjectTelemetryEvent: only telemetry events are projected, and a malformed one is an error. */
  function ProjectTelemetryEvent(offset: nat, event: Event): Projected
  {
    if event.eventType != "worker.telemetry" then Skip
    else
      match event.frame
      case Missing => Reject
      case Malformed => Reject
      case Decoded(runId, workerId, sequence, emittedAt, receivedAt, raw) =>
        if !emittedAt.At? || receivedAt.Unparsable? then Reject
        else
          var received := if receivedAt.At? then receivedAt.time else event.occurredAt;
          Project(Projection(
            if received == ZERO_TIME then emittedAt.time else received,
            emittedAt.time,
            if Blank(runId) then event.runId else runId,
            if Blank(workerId) then event.workerId else workerId,
            sequence, raw, offset))
  }

  /** An event is projected exactly if it is telemetry with a decodable frame, a parsable emission time and no broken
      reception time; then nothing that identifies the row is lost: it only has a blank run or worker, or no reception
      time, if neither frame nor event has one. */
  lemma ProjectionKeepsIdentity(offset: nat, event: Event)
    ensures var p := ProjectTelemetryEvent(offset, event);
      && (p.Project? <==> event.eventType == "worker.telemetry" && event.frame.Decoded? && event.frame.emittedAt.At?
                          && !event.frame.receivedAt.Unparsable?)
      && (p.Skip? <==> event.eventType != "worker.telemetry")
      && (p.Project? ==>
            && p.projection.offset == offset && p.projection.sequence == event.frame.sequence
            && (Blank(p.projection.runId) <==> Blank(event.frame.runId) && Blank(event.runId))
            && (Blank(p.projection.workerId) <==> Blank(event.frame.workerId) && Blank(event.workerId))
            && (p.projection.receivedAt == ZERO_TIME ==> p.projection.emittedAt == ZERO_TIME))
  {
  }

  /** What the consumer has to do with the message at `offset`. */
  function Disposition(log: seq<Message>, offset: nat): Projected
    requires offset < |log|
  {
    match log[offset].event
    case None => Skip
    case Some(event) => ProjectTelemetryEvent(offset, event)
  }

  // ---------------------------------------------------------------- the store

  /** The three tables, restricted to one topic and partition. */
  datatype Tables = Tables(processed: set<(string, nat)>, frames: seq<Projection>, offsets: map<string, nat>)

  /** Where one SaveProjection transaction is interrupted. */
  datatype TxFault =
    | NoFault
    | BeginFails
    | DedupInsertFails
    | FrameInsertFails
    | OffsetUpsertFails
    | CommitLost          // the commit fails and nothing is durable
    | CommitUnreported    // the commit is durable, but the caller sees an error

  /** The effect of one committed transaction: the dedup row decides whether anything else happens. */
  function Saved(t: Tables, consumer: string, p: Projection): Tables
  {
    if (consumer, p.offset) in t.processed then t
    else
      var newest := if consumer in t.offsets && t.offsets[consumer] > p.offset then t.offsets[consumer] else p.offset;
      Tables(t.processed + {(consumer, p.offset)}, t.frames + [p], t.offsets[consumer := newest])
  }

  class TimescaleTelemetryStore {
    var processed: set<(string, nat)>
    var frames: seq<Projection>
    var offsets: map<string, nat>

    constructor ()
      ensures Contents() == Tables({}, [], map[])
    {
      processed, frames, offsets := {}, [], map[];
    }

    function Contents(): Tables
      reads this
    {
      Tables(processed, frames, offsets)
    }

    /** Returns whether a frame row was written. The statements run on a transaction's private copy. */
    method SaveProjection(consumer: string, p: Projection, fault: TxFault) returns (r: Result<bool, ()>)
      modifies this
      ensures r.Ok? <==> !Blank(consumer)
                         && (fault == NoFault
                             || (fault in {FrameInsertFails, OffsetUpsertFails}
                                 && (consumer, p.offset) in old(processed)))
      ensures r.Ok? ==> r.value == ((consumer, p.offset) !in old(processed))
      ensures Contents() == if r.Ok? || (fault == CommitUnreported && !Blank(consumer))
                            then Saved(old(Contents()), consumer, p) else old(Contents())
    {
      if Blank(consumer) || fault == BeginFails || fault == DedupInsertFails {
        return Err(());
      }
      var txProcessed, txFrames, txOffsets := processed, frames, offsets;
      var affected := (consumer, p.offset) !in txProcessed;
      txProcessed := txProcessed + {(consumer, p.offset)};
      if affected {
        if fault == FrameInsertFails { return Err(()); }
        txFrames := txFrames + [p];
        if fault == OffsetUpsertFails { return Err(()); }
        if consumer !in txOffsets || txOffsets[consumer] < p.offset {
          txOffsets := txOffsets[consumer := p.offset];
        }
      }
      if fault == CommitLost { return Err(()); }
      processed, frames, offsets := txProcessed, txFrames, txOffsets;
      if fault == CommitUnreported { return Err(()); }
      return Ok(affected);
    }
  }

  // ---------------------------------------------------------------- the broker

  datatype CommitFault = CommitOk | CommitDropped | CommitAppliedUnreported

  /** One partition as the consumer group sees it: the log, the committed offset, the reader's place. */
  class KafkaPartition {
    var log: seq<Message>
    var committed: nat
    var position: nat

    constructor ()
      ensures log == [] && committed == 0 && position == 0
    {
      log, committed, position := [], 0, 0;
    }

    method Produce(m: Message)
      modifies this`log
      ensures log == old(log) + [m]
    {
      log := log + [m];
    }

    /** A new reader of the group starts at the committed offset. */
    method Reopen()
      modifies this`position
      ensures position == committed
    {
      position := committed;
    }

    method FetchMessage() returns (offset: nat)
      requires position < |log|
      modifies this`position
      ensures offset == old(position) && position == offset + 1
    {
      offset := position;
      position := position + 1;
    }

    method CommitMessages(offset: nat, fault: CommitFault) returns (ok: bool)
      modifies this`committed
      ensures ok <==> fault == CommitOk
      ensures committed == if fault == CommitDropped then old(committed) else offset + 1
    {
      if fault != CommitDropped {
        committed := offset + 1;
      }
      ok := fault == CommitOk;
    }
  }

  // ---------------------------------------------------------------- the consumer loop

  /** What the environment does to one turn of the consumer loop. */
  datatype Turn = FetchFails | Proceed(save: TxFault, commit: CommitFault)

  /** The whole pipeline as a value: broker, tables, and whether the consumer loop is still running. */
  datatype System = System(log: seq<Message>, committed: nat, position: nat, tables: Tables, running: bool)

  /** One turn of the loop that finds a message. */
  function Consume(s: System, group: string, turn: Turn): System
    requires s.running && s.position < |s.log|
  {
    if turn.FetchFails? then s.(running := false)
    else
      var offset := s.position;
      var fetched := s.(position := offset + 1);
      match Disposition(s.log, offset)
      case Reject => fetched.(running := false)
      case Skip => Committed(fetched, offset, turn.commit)
      case Project(p) =>
        var saved := SaveSucceeds(s.tables, group, p, turn.save);
        var after := fetched.(
          tables := if saved || (turn.save == CommitUnreported && !Blank(group))
            then Saved(s.tables, group, p) else s.tables);
        if saved then Committed(after, offset, turn.commit) else after.(running := false)
  }

  predicate SaveSucceeds(t: Tables, group: string, p: Projection, fault: TxFault)
  {
    !Blank(group)
    && (fault == NoFault || (fault in {FrameInsertFails, OffsetUpsertFails} && (group, p.offset) in t.processed))
  }

  function Committed(s: System, offset: nat, fault: CommitFault): System
  {
    s.(committed := if fault == CommitDropped then s.committed else offset + 1, running := fault == CommitOk)
  }

  /** The loop under a script of turns; it blocks (and the script ends) when no message is left. */
  function ConsumeAll(s: System, group: string, turns: seq<Turn>): System
    decreases |turns|
  {
    if turns == [] || !s.running || s.position >= |s.log| then s
    else ConsumeAll(Consume(s, group, turns[0]), group, turns[1..])
  }

  ghost function Snapshot(reader: KafkaPartition, store: TimescaleTelemetryStore, running: bool): System
    reads reader, store
  {
    System(reader.log, reader.committed, reader.position, store.Contents(), running)
  }

  /** RunTimescaleTelemetryConsumer: returns false when the loop ends with an error. */
  method RunTimescaleTelemetryConsumer(
    group: string, reader: KafkaPartition, store: TimescaleTelemetryStore, turns: seq<Turn>) returns (ok: bool)
    modifies reader`position, reader`committed, store
    ensures Snapshot(reader, store, ok) == ConsumeAll(old(Snapshot(reader, store, true)), group, turns)
  {
    var i := 0;
    ok := true;
    while i < |turns| && reader.position < |reader.log|
      invariant 0 <= i <= |turns|
      invariant ok
      invariant ConsumeAll(Snapshot(reader, store, true), group, turns[i..])
             == ConsumeAll(old(Snapshot(reader, store, true)), group, turns)
    {
      var turn := turns[i];
      assert turns[i..][1..] == turns[i + 1..];
      i := i + 1;
      if turn.FetchFails? {
        return false;
      }
      var offset := reader.FetchMessage();
      var message := reader.log[offset];
      match message.event {
        case None =>
          var commitOk := reader.CommitMessages(offset, turn.commit);
          if !commitOk { return false; }
        case Some(event) =>
          match ProjectTelemetryEvent(offset, event) {
            case Reject => return false;
            case Skip =>
              var commitOk := reader.CommitMessages(offset, turn.commit);
              if !commitOk { return false; }
            case Project(p) =>
              var saved := store.SaveProjection(group, p, turn.save);
              if saved.Err? { return false; }
              var commitOk := reader.CommitMessages(offset, turn.commit);
              if !commitOk { return false; }
          }
      }
    }
  }

  // ---------------------------------------------------------------- exactly-once effect

  /** Everything that can happen to the pipeline. */
  datatype Step = Produce(message: Message) | Restart | Loop(turns: seq<Turn>)

  function Next(s: System, group: string, step: Step): System
  {
    match step
    case Produce(m) => s.(log := s.log + [m])
    case Restart => s.(position := s.committed, running := true)
    case Loop(turns) => ConsumeAll(s, group, turns)
  }

  function Run(s: System, group: string, steps: seq<Step>): System
    decreases |steps|
  {
    if steps == [] then s
    else Next(Run(s, group, steps[..|steps| - 1]), group, steps[|steps| - 1])
  }

  const INITIAL := System([], 0, 0, Tables({}, [], map[]), false)

  /** The specification: the projections of the first `n` messages, in log order. */
  function Rows(log: seq<Message>, n: nat): seq<Projection>
    requires n <= |log|
  {
    if n == 0 then []
    else
      var earlier := Rows(log, n - 1);
      match Disposition(log, n - 1)
      case Project(p) => earlier + [p]
      case _ => earlier
  }

  /** Telemetry offsets below `n`. */
  function ProjectedOffsets(log: seq<Message>, n: nat): set<nat>
    requires n <= |log|
  {
    set o: nat | o < n && Disposition(log, o).Project?
  }

  /** The tables are exactly what projecting the first `h` messages once each produces. */
  ghost predicate Mirrors(t: Tables, group: string, log: seq<Message>, h: nat)
    requires h <= |log|
  {
    && t.frames == Rows(log, h)
    && t.processed == (set o | o in ProjectedOffsets(log, h) :: (group, o))
    && t.offsets.Keys == (if ProjectedOffsets(log, h) == {} then {} else {group})
    && (group in t.offsets ==>
          t.offsets[group] in ProjectedOffsets(log, h)
          && forall o :: o in ProjectedOffsets(log, h) ==> o <= t.offsets[group])
  }

  /** The first `h` messages are handled: projected exactly once, none rejected, and no commit beyond them. */
  ghost predicate ExactUpTo(s: System, group: string, h: nat)
  {
    && s.committed <= h <= |s.log|
    && Mirrors(s.tables, group, s.log, h)
    && forall o: nat :: o < h ==> !Disposition(s.log, o).Reject?
  }

  /** The inductive form: the running loop's place lies between the committed offset and `h`. */
  ghost predicate HandledTo(s: System, group: string, h: nat)
  {
    && ExactUpTo(s, group, h)
    && s.committed <= s.position
    && (s.running ==> s.position <= h)
  }

  lemma {:induction false} RowsOfLongerLog(log: seq<Message>, m: Message, n: nat)
    requires n <= |log|
    ensures Rows(log + [m], n) == Rows(log, n)
  {
    if n > 0 {
      RowsOfLongerLog(log, m, n - 1);
      assert Disposition(log + [m], n - 1) == Disposition(log, n - 1);
    }
  }

  lemma ProducePreserves(s: System, group: string, m: Message, h: nat)
    requires HandledTo(s, group, h)
    ensures HandledTo(s.(log := s.log + [m]), group, h)
  {
    RowsOfLongerLog(s.log, m, h);
    var log' := s.log + [m];
    assert forall o: nat :: o < h ==> Disposition(log', o) == Disposition(s.log, o);
    assert ProjectedOffsets(log', h) == ProjectedOffsets(s.log, h);
  }

  /** Saving the projection of message `h` moves the tables from mirroring `h` messages to `h + 1`. */
  lemma SavingNextMirrors(t: Tables, group: string, log: seq<Message>, h: nat)
    requires h < |log| && Mirrors(t, group, log, h)
    requires Disposition(log, h).Project?
    ensures Mirrors(Saved(t, group, Disposition(log, h).projection), group, log, h + 1)
  {
    var p := Disposition(log, h).projection;
    assert p.offset == h;
    assert ProjectedOffsets(log, h + 1) == ProjectedOffsets(log, h) + {h};
    var after := Saved(t, group, p);
    assert (group, h) !in t.processed;
    assert after.processed == (set o | o in ProjectedOffsets(log, h + 1) :: (group, o));
  }

  lemma SkippingNextMirrors(t: Tables, group: string, log: seq<Message>, h: nat)
    requires h < |log| && Mirrors(t, group, log, h)
    requires Disposition(log, h).Skip?
    ensures Mirrors(t, group, log, h + 1)
  {
    assert ProjectedOffsets(log, h + 1) == ProjectedOffsets(log, h);
  }

  /** One loop turn handles at most one more message, and never undoes anything. */
  lemma ConsumePreserves(s: System, group: string, turn: Turn, h: nat) returns (h': nat)
    requires s.running && s.position < |s.log| && HandledTo(s, group, h)
    ensures h <= h' <= h + 1 && HandledTo(Consume(s, group, turn), group, h')
  {
    h' := h;
    var offset := s.position;
    if turn.FetchFails? || Disposition(s.log, offset).Reject? {
    } else if offset < h {
      if Disposition(s.log, offset).Project? {
        var p := Disposition(s.log, offset).projection;
        assert p.offset == offset;
        assert offset in ProjectedOffsets(s.log, h);
        assert (group, offset) in s.tables.processed;
        assert Saved(s.tables, group, p) == s.tables;
      }
    } else if Disposition(s.log, h).Skip? {
      SkippingNextMirrors(s.tables, group, s.log, h);
      h' := h + 1;
    } else {
      var p := Disposition(s.log, h).projection;
      assert h !in ProjectedOffsets(s.log, h);
      assert (group, h) !in s.tables.processed;
      if !Blank(group) && turn.save in {NoFault, CommitUnreported} {
        SavingNextMirrors(s.tables, group, s.log, h);
        h' := h + 1;
      }
    }
  }

  lemma {:induction false} ConsumeAllPreserves(s: System, group: string, turns: seq<Turn>, h: nat) returns (h': nat)
    requires HandledTo(s, group, h)
    ensures h <= h' && HandledTo(ConsumeAll(s, group, turns), group, h')
    decreases |turns|
  {
    h' := h;
    if turns != [] && s.running && s.position < |s.log| {
      h' := ConsumePreserves(s, group, turns[0], h);
      h' := ConsumeAllPreserves(Consume(s, group, turns[0]), group, turns[1..], h');
    }
  }

  lemma {:induction false} RunHandles(group: string, steps: seq<Step>) returns (h: nat)
    ensures HandledTo(Run(INITIAL, group, steps), group, h)
    decreases |steps|
  {
    if steps == [] {
      h := 0;
    } else {
      h := RunHandles(group, steps[..|steps| - 1]);
      var s := Run(INITIAL, group, steps[..|steps| - 1]);
      match steps[|steps| - 1] {
        case Produce(m) => ProducePreserves(s, group, m, h);
        case Restart =>
        case Loop(turns) => h := ConsumeAllPreserves(s, group, turns, h);
      }
    }
  }

  /** How many frame rows carry a given offset. */
  function RowsAt(frames: seq<Projection>, offset: nat): nat
  {
    if frames == [] then 0
    else RowsAt(frames[..|frames| - 1], offset) + (if frames[|frames| - 1].offset == offset then 1 else 0)
  }

  lemma {:induction false} RowsAtPrefix(log: seq<Message>, n: nat, offset: nat)
    requires n <= |log|
    ensures RowsAt(Rows(log, n), offset) == if offset in ProjectedOffsets(log, n) then 1 else 0
  {
    if n > 0 {
      RowsAtPrefix(log, n - 1, offset);
      var earlier := Rows(log, n - 1);
      if Disposition(log, n - 1).Project? {
        var p := Disposition(log, n - 1).projection;
        assert (earlier + [p])[..|earlier|] == earlier;
      }
    }
  }

  /**
   Exactly-once effect from at-least-once delivery. After any history of produced messages, restarts
   and loop runs with any faults, there is a prefix of the log such that the frame table is the
   in-order projection of that prefix, the offsets row is its largest projected offset, and the
   committed offset lies inside it: no telemetry message below it is missing or rejected.
   */
  lemma ExactlyOnce(group: string, steps: seq<Step>)
    ensures exists h: nat :: ExactUpTo(Run(INITIAL, group, steps), group, h)
  {
    var h := RunHandles(group, steps);
    assert ExactUpTo(Run(INITIAL, group, steps), group, h);
  }

  /** Read off row by row: one row for every telemetry message below the committed offset, never two. */
  lemma OneRowPerMessage(group: string, steps: seq<Step>, offset: nat)
    ensures var s := Run(INITIAL, group, steps);
      s.committed <= |s.log|
      && RowsAt(s.tables.frames, offset) <= 1
      && (offset < s.committed && Disposition(s.log, offset).Project? ==> RowsAt(s.tables.frames, offset) == 1)
      && (RowsAt(s.tables.frames, offset) == 1 ==> offset < |s.log| && Disposition(s.log, offset).Project?)
  {
    var s := Run(INITIAL, group, steps);
    var h := RunHandles(group, steps);
    RowsAtPrefix(s.log, h, offset);
  }

  // ---------------------------------------------------------------- catching up

  /** A turn in which nothing fails. */
  const CLEAN_TURN := Proceed(NoFault, CommitOk)

  lemma {:induction false} CleanLoop(s: System, group: string, turns: seq<Turn>, h: nat)
    requires s.running && HandledTo(s, group, h) && s.committed == s.position
    requires forall i :: 0 <= i < |turns| ==> turns[i] == CLEAN_TURN
    requires |turns| >= |s.log| - s.position && !Blank(group)
    ensures var s' := ConsumeAll(s, group, turns);
      (s'.committed == |s.log| && s'.tables.frames == Rows(s.log, |s.log|))
      <==> (forall o: nat :: o < |s.log| ==> !Disposition(s.log, o).Reject?)
    decreases |turns|
  {
    if s.position < |s.log| {
      var offset := s.position;
      var s1 := Consume(s, group, turns[0]);
      if Disposition(s.log, offset).Reject? {
        assert ConsumeAll(s, group, turns) == ConsumeAll(s1, group, turns[1..]) == s1;
      } else {
        var h1 := ConsumePreserves(s, group, turns[0], h);
        CleanLoop(s1, group, turns[1..], h1);
      }
    } else {
      assert ConsumeAll(s, group, turns) == s;
    }
  }

  /**
   After any history at all, one restart followed by a fault-free loop of at least |log| turns leaves
   the frame table equal to the projection of the whole log, with everything committed, if and only
   if no telemetry message in the log is one the projector rejects. A rejected message is never
   committed and blocks everything behind it.
   */
  lemma CatchesUp(group: string, steps: seq<Step>, turns: seq<Turn>)
    requires !Blank(group)
    requires forall i :: 0 <= i < |turns| ==> turns[i] == CLEAN_TURN
    requires |turns| >= |Run(INITIAL, group, steps).log|
    ensures var s := Run(INITIAL, group, steps + [Restart, Loop(turns)]);
      (s.committed == |s.log| && s.tables.frames == Rows(s.log, |s.log|))
      <==> (forall o: nat :: o < |s.log| ==> !Disposition(s.log, o).Reject?)
  {
    var s := Run(INITIAL, group, steps);
    var h := RunHandles(group, steps);
    var all := steps + [Restart, Loop(turns)];
    assert all[..|all| - 1] == steps + [Restart];
    assert (steps + [Restart])[..|steps|] == steps;
    var restarted := s.(position := s.committed, running := true);
    assert Run(INITIAL, group, steps + [Restart]) == restarted;
    LogUnchanged(restarted, group, turns);
    CleanLoop(restarted, group, turns, h);
  }

  lemma {:induction false} LogUnchanged(s: System, group: string, turns: seq<Turn>)
    ensures ConsumeAll(s, group, turns).log == s.log
    decreases |turns|
  {
    if turns != [] && s.running && s.position < |s.log| {
      LogUnchanged(Consume(s, group, turns[0]), group, turns[1..]);
    }
  }
}
