/** Ingesting one verified event and a whole signed batch. Clock readings, the active profile and
    fresh ids are drawn per item, as the program draws them. */
module RelayBatch {
  import opened Common
  import opened Domain
  import opened Ledger
  import opened Relay
  import opened RelayTheorems

  datatype ParseResult = Parsed(observation: Observation) | MultipleAmounts | Unrecognized

  /** The notification parser. */
  type Parser = EventInput -> ParseResult

  /** The verified device of a request, and its enrollment epoch. */
  datatype Env = Env(device: Id, epoch: int)

  /** What is drawn while one item is ingested. One request reads the relay clock once, so there
      acceptedAt == processedAt; a run resumed after a cut may process at another reading. */
  datatype Draw = Draw(
    acceptedAt: int, newId: Id,                                                          // accept
    processedAt: int, paymentNow: int, active: Option<string>, rowIds: RowIds)  // process

  datatype Item = Item(input: EventInput, draw: Draw)

  const OCCURRENCE_TOLERANCE: int := 2 * 60 * 1000

  predicate Tolerable(o: Observation, epoch: int, reading: int) {
    epoch <= o.occurredAt <= reading + OCCURRENCE_TOLERANCE
  }

  predicate Reliable(input: EventInput, reading: int) {
    SanitizePostedAt(input.postedAtMs, reading).1
  }

  /** ingestVerifiedEvent after the event was accepted as pending. */
  ghost function ProcessPending(w: World, event: Id, env: Env, parse: Parser, item: Item): (World, Option<Refusal>) {
    if !Reliable(item.input, item.draw.processedAt) then (FinishTx(w, event, EventIgnored), None)
    else
      match parse(item.input)
      case MultipleAmounts => (FinishTx(w, event, EventAmbiguous), None)
      case Unrecognized => (FinishTx(w, event, EventIgnored), None)
      case Parsed(o) =>
        if !Tolerable(o, env.epoch, item.draw.processedAt) then (FinishTx(w, event, EventIgnored), None)
        else
          match ProcessTx(w, event, env, o, item.draw)
          case Ok(a) => (a.world, None)
          case Err(e) =>
            if e == InPayments(RelayEventNotFound) then (FinishTx(w, event, EventIgnored), None) else (w, Some(e))
  }

  ghost function ProcessTx(w: World, event: Id, env: Env, o: Observation, draw: Draw): Result<Applied, Refusal> {
    ApplyTx(w, event, env.device, env.epoch, o, draw.active, draw.processedAt, draw.paymentNow, draw.rowIds)
  }

  ghost function AcceptItem(w: World, env: Env, item: Item): Result<Accepted, Refusal> {
    AcceptTx(w, env.device, env.epoch, item.input, item.draw.acceptedAt, item.draw.newId)
  }

  ghost function IngestTx(w: World, env: Env, parse: Parser, item: Item): (World, Option<Refusal>) {
    match AcceptItem(w, env, item)
    case Err(e) => (w, Some(e))
    case Ok(a) => if a.pending then ProcessPending(a.world, a.event, env, parse, item) else (a.world, None)
  }

  /** The batch loop: items in order, up to the first error. */
  ghost function BatchTx(w: World, env: Env, parse: Parser, items: seq<Item>): (World, Option<Refusal>)
    decreases |items|
  {
    if items == [] then (w, None)
    else
      var (next, failed) := IngestTx(w, env, parse, items[0]);
      if failed.Some? then (next, failed) else BatchTx(next, env, parse, items[1..])
  }

  lemma {:induction false} BatchSplits(w: World, env: Env, parse: Parser, a: seq<Item>, b: seq<Item>)
    ensures var (next, failed) := BatchTx(w, env, parse, a);
      BatchTx(w, env, parse, a + b) == if failed.Some? then (next, failed) else BatchTx(next, env, parse, b)
    decreases |a|
  {
    hide IngestTx;
    if a == [] {
      assert a + b == b;
    } else {
      assert (a + b)[0] == a[0] && (a + b)[1..] == a[1..] + b;
      BatchSplits(IngestTx(w, env, parse, a[0]).0, env, parse, a[1..], b);
    }
  }

  // ----- Batches are runs -----

  lemma {:induction false} RunAllSplits(w: World, a: seq<RelayStep>, b: seq<RelayStep>)
    ensures RunAll(w, a + b) == RunAll(RunAll(w, a), b)
    decreases |a|
  {
    hide Next;
    if a == [] {
      assert a + b == b;
    } else {
      assert (a + b)[0] == a[0] && (a + b)[1..] == a[1..] + b;
      RunAllSplits(Next(w, a[0]), a[1..], b);
    }
  }

  lemma {:induction false} RunOfOne(w: World, step: RelayStep)
    ensures RunAll(w, [step]) == Next(w, step)
  {
    hide Next;
    assert [step][1..] == [];
    assert RunAll(Next(w, step), []) == Next(w, step);
  }

  lemma ProcessIsRun(w: World, event: Id, env: Env, parse: Parser, item: Item) returns (steps: seq<RelayStep>)
    ensures |steps| <= 1 && RunAll(w, steps) == ProcessPending(w, event, env, parse, item).0
  {
    hide ApplyTx, FinishTx, Reliable, Tolerable;
    var ignored, ambiguous := FinishIgnored(event), FinishAmbiguous(event);
    RunOfOne(w, ignored);
    RunOfOne(w, ambiguous);
    steps := [ignored];
    if Reliable(item.input, item.draw.processedAt) {
      match parse(item.input)
      case MultipleAmounts => steps := [ambiguous];
      case Unrecognized =>
      case Parsed(o) =>
        if Tolerable(o, env.epoch, item.draw.processedAt) {
          var d := item.draw;
          var apply := Process(event, env.device, env.epoch, o, d.active, d.processedAt, d.paymentNow, d.rowIds);
          var r := ProcessTx(w, event, env, o, d);
          RunOfOne(w, apply);
          if r.Ok? || r.error != InPayments(RelayEventNotFound) { steps := [apply]; }
        }
    }
  }

  /** Ingesting a batch is a run of the relay world's own transactions, at most two an item; so
      every theorem about runs holds of batches, interleaved with anything else. */
  lemma {:induction false} BatchIsRun(w: World, env: Env, parse: Parser, items: seq<Item>)
    returns (steps: seq<RelayStep>)
    ensures |steps| <= 2 * |items| && RunAll(w, steps) == BatchTx(w, env, parse, items).0
    decreases |items|
  {
    hide AcceptTx, ProcessPending;
    if items == [] {
      steps := [];
    } else {
      var item := items[0];
      var accept := Accept(env.device, env.epoch, item.input, item.draw.acceptedAt, item.draw.newId);
      var r := AcceptItem(w, env, item);
      RunOfOne(w, accept);
      steps := [accept];
      if r.Ok? && r.value.pending {
        var more := ProcessIsRun(r.value.world, r.value.event, env, parse, item);
        RunAllSplits(w, steps, more);
        steps := steps + more;
      }
      var (next, failed) := IngestTx(w, env, parse, item);
      assert RunAll(w, steps) == next;
      if failed.None? {
        var rest := BatchIsRun(next, env, parse, items[1..]);
        RunAllSplits(w, steps, rest);
        steps := steps + rest;
      }
    }
  }

  // ----- What one item leaves -----

  /** Decided rows stay exactly as they are. */
  ghost predicate DecidedFrozen(before: map<Id, RelayEvent>, after: map<Id, RelayEvent>) {
    forall e :: e in before ==>
      && e in after && after[e].device == before[e].device && after[e].source == before[e].source
      && (before[e].status != Received ==> after[e] == before[e])
  }

  lemma FrozenIsTransitive(a: map<Id, RelayEvent>, b: map<Id, RelayEvent>, c: map<Id, RelayEvent>)
    requires DecidedFrozen(a, b) && DecidedFrozen(b, c)
    ensures DecidedFrozen(a, c)
  {
  }

  lemma OnlyEventOf(w: World, device: Id, source: string, e: Id)
    requires SourcesUnique(w.events) && IsEventOf(w, e, device, source)
    ensures Known(w, device, source) && EventOf(w, device, source) == e
  {
  }

  lemma UniqueSources(w: World)
    requires RelayInv(w)
    ensures SourcesUnique(w.events)
  {
  }

  /** The stored event and the input carry the same data, checked at a clock reading. */
  predicate SameAt(e: RelayEvent, input: EventInput, reading: int) {
    SameEvent(e, input, SanitizePostedAt(input.postedAtMs, reading).0, SanitizePostedAt(input.postedAtMs, reading).1)
  }

  /** The row an input found or made, which carries its data. */
  ghost predicate AcceptedIn(w: World, env: Env, item: Item, event: Id) {
    && Authorized(w, env.device, env.epoch) && w.devices[env.device].lastSeenAt == Some(item.draw.acceptedAt)
    && IsEventOf(w, event, env.device, item.input.eventId)
    && SameAt(w.events[event], item.input, item.draw.acceptedAt)
  }

  lemma AcceptShape(w: World, env: Env, item: Item, a: Accepted)
    requires RelayInv(w) && AcceptItem(w, env, item) == Ok(a)
    ensures RelayInv(a.world) && AcceptedIn(a.world, env, item, a.event)
    ensures DecidedFrozen(w.events, a.world.events)
    ensures a.pending <==> a.world.events[a.event].status == Received
    ensures a.world.db == w.db && a.world.sessions == w.sessions && a.world.devices.Keys == w.devices.Keys
  {
    AcceptEvolves(w, env.device, env.epoch, item.input, item.draw.acceptedAt, item.draw.newId, a);
    hide RelayInv, FieldsEqual, SanitizePostedAt;
  }

  lemma FinishedIn(w: World, event: Id, env: Env, item: Item, status: EventStatus)
    requires RelayInv(w) && AcceptedIn(w, env, item, event) && w.events[event].status == Received
    requires status in {EventIgnored, EventAmbiguous}
    ensures var next := FinishTx(w, event, status);
      && RelayInv(next) && DecidedFrozen(w.events, next.events) && next == w.(events := next.events)
      && AcceptedIn(next, env, item, event) && next.events[event] == w.events[event].(status := status)
  {
    FinishEvolves(w, event, status);
    hide RelayInv, SameEvent;
    SameAtIgnoresStatus(w.events[event], status, item.input, item.draw.acceptedAt);
  }

  lemma SameAtIgnoresStatus(e: RelayEvent, status: EventStatus, input: EventInput, reading: int)
    ensures SameAt(e.(status := status), input, reading) == SameAt(e, input, reading)
  {
  }

  lemma AppliedIn(w: World, event: Id, env: Env, item: Item, o: Observation, a: Applied)
    requires RelayInv(w) && AcceptedIn(w, env, item, event) && w.events[event].status == Received
    requires ProcessTx(w, event, env, o, item.draw) == Ok(a)
    ensures RelayInv(a.world) && DecidedFrozen(w.events, a.world.events)
    ensures AcceptedIn(a.world, env, item, event)
    ensures a.world.events[event] == w.events[event].(status := StatusOf(a.outcome))
  {
    hide ApplyTx, SameAt;
    var d := item.draw;
    ProcessDecides(w, event, env.device, env.epoch, o, d.active, d.processedAt, d.paymentNow, d.rowIds, a);
    DecisionKeepsInv(w, event, env.device, env.epoch, a.world);
    hide RelayInv;
    SameAtIgnoresStatus(w.events[event], a.world.events[event].status, item.input, d.acceptedAt);
  }

  /** Processing without an error decides the pending event and touches no other decided one. */
  lemma ProcessShape(w: World, event: Id, env: Env, parse: Parser, item: Item)
    requires RelayInv(w) && AcceptedIn(w, env, item, event) && w.events[event].status == Received
    ensures var (next, failed) := ProcessPending(w, event, env, parse, item);
      && RelayInv(next) && DecidedFrozen(w.events, next.events)
      && (failed.Some? ==> next == w)
      && (failed.None? ==> AcceptedIn(next, env, item, event) && next.events[event].status != Received)
  {
    FinishedIn(w, event, env, item, EventIgnored);
    FinishedIn(w, event, env, item, EventAmbiguous);
    if parse(item.input).Parsed? {
      var o := parse(item.input).observation;
      var r := ProcessTx(w, event, env, o, item.draw);
      if r.Ok? { AppliedIn(w, event, env, item, o, r.value); }
    }
    hide RelayInv, AcceptedIn, ProcessTx, FinishTx, Reliable, Tolerable;
  }

  /** The item's event is stored and decided, and carries its data as seen at this reading. */
  ghost predicate Done(w: World, env: Env, input: EventInput, reading: int) {
    && Authorized(w, env.device, env.epoch)
    && Known(w, env.device, input.eventId)
    && w.events[EventOf(w, env.device, input.eventId)].status != Received
    && SameAt(w.events[EventOf(w, env.device, input.eventId)], input, reading)
  }

  lemma IngestShape(w: World, env: Env, parse: Parser, item: Item)
    requires RelayInv(w)
    ensures var (next, failed) := IngestTx(w, env, parse, item);
      && RelayInv(next) && DecidedFrozen(w.events, next.events)
      && (failed.None? ==> Done(next, env, item.input, item.draw.acceptedAt))
      && (failed.None? ==> AcceptItem(w, env, item).Ok?)
      && (AcceptItem(w, env, item).Ok? ==>
            && Authorized(next, env.device, env.epoch)
            && next.devices[env.device].lastSeenAt == Some(item.draw.acceptedAt))
  {
    hide RelayInv, SameAt;
    var r := AcceptItem(w, env, item);
    hide AcceptItem, ProcessPending;
    if r.Ok? {
      var a := r.value;
      AcceptShape(w, env, item, a);
      if a.pending {
        ProcessShape(a.world, a.event, env, parse, item);
        var next := ProcessPending(a.world, a.event, env, parse, item).0;
        FrozenIsTransitive(w.events, a.world.events, next.events);
        UniqueSources(next);
        if IsEventOf(next, a.event, env.device, item.input.eventId) {
          OnlyEventOf(next, env.device, item.input.eventId, a.event);
        }
      } else {
        UniqueSources(a.world);
        OnlyEventOf(a.world, env.device, item.input.eventId, a.event);
      }
    }
  }

  ghost predicate Decides(w: World, device: Id, source: string) {
    Known(w, device, source) && w.events[EventOf(w, device, source)].status != Received
  }

  lemma DecidedIsUntouched(w: World, env: Env, parse: Parser, item: Item)
    requires RelayInv(w) && Decides(w, env.device, item.input.eventId)
    ensures var next := IngestTx(w, env, parse, item).0;
      next.db == w.db && next.events == w.events && next.sessions == w.sessions
  {
    hide RelayInv, SameEvent;
  }

  /** A batch of events that are already decided, whenever and with whatever draws it is sent, in
      whatever state the device is: rows, payments, history and outbox all stay, however far the
      batch gets. */
  lemma {:induction false} DecidedBatchIsUntouched(w: World, env: Env, parse: Parser, items: seq<Item>)
    requires RelayInv(w) && forall i :: 0 <= i < |items| ==> Decides(w, env.device, items[i].input.eventId)
    ensures var next := BatchTx(w, env, parse, items).0;
      next.db == w.db && next.events == w.events && next.sessions == w.sessions
    decreases |items|
  {
    if items != [] {
      var next := IngestTx(w, env, parse, items[0]).0;
      DecidedIsUntouched(w, env, parse, items[0]);
      IngestShape(w, env, parse, items[0]);
      UniqueSources(next);
      hide RelayInv, IngestTx;
      forall i | 0 <= i < |items| - 1 ensures Decides(next, env.device, items[1..][i].input.eventId) {
        var source := items[i + 1].input.eventId;
        OnlyEventOf(next, env.device, source, EventOf(w, env.device, source));
      }
      DecidedBatchIsUntouched(next, env, parse, items[1..]);
    }
  }
}
