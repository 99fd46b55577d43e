/** The relay service as the program runs it: devices, pairing sessions and events updated in
    place beside the payment service, one method per transaction, and the two ingestion
    procedures that string them together. */
module RelayService {
  import opened Common
  import opened Domain
  import opened Ledger
  import opened Fingerprint
  import opened Relay
  import opened RelayTheorems
  import opened RelayBatch
  import PaymentService

  // ----- Event validation -----

  const MAX_TEXT_BYTES: int := 32768
  const MAX_BATCH_EVENTS: int := 50

  predicate IsHex(s: string) {
    forall i :: 0 <= i < |s| ==> '0' <= s[i] <= '9' || 'a' <= s[i] <= 'f' || 'A' <= s[i] <= 'F'
  }

  predicate BlockedPackage(package: string) {
    ToLower(Trim(package)) in {"com.google.android.apps.messaging", "com.google.android.gm"}
  }

  /** validateEventInput: the normalized event, or a refusal. */
  function ValidateEvent(schemaVersion: int, input: EventInput): Result<EventInput, Refusal> {
    var eventId, package := ToLower(Trim(input.eventId)), Trim(input.package);
    var size := ByteLength(input.title) + ByteLength(input.text) + ByteLength(input.bigText);
    if schemaVersion != 1 || |eventId| != 64 || !IsHex(eventId)
      || package == "" || ByteLength(package) > 255 || BlockedPackage(package)
      || size == 0 || size > MAX_TEXT_BYTES
      || (input.hint != 0 && (input.hint <= 0 || input.hint % 100 == 0))
    then Err(InvalidEvent)
    else Ok(input.(eventId := eventId, package := package))
  }

  ghost function RedactCount(w: World, snapshots: seq<(Id, RelayEvent)>, before: int): nat
    decreases |snapshots|
  {
    if snapshots == [] then 0
    else
      var (e, snapshot) := snapshots[0];
      var changed := e in w.events && w.events[e].receivedAt < before && HasBody(w.events[e]);
      (if changed then 1 else 0) + RedactCount(RedactOne(w, e, snapshot, before), snapshots[1..], before)
  }

  lemma {:induction false} RedactFrom(w: World, snapshots: seq<(Id, RelayEvent)>, n: nat, before: int)
    requires n <= |snapshots|
    ensures n == |snapshots| ==> RedactTx(w, snapshots[n..], before) == w && RedactCount(w, snapshots[n..], before) == 0
    ensures n < |snapshots| ==>
      var (e, snapshot) := snapshots[n];
      var next := RedactOne(w, e, snapshot, before);
      && RedactTx(w, snapshots[n..], before) == RedactTx(next, snapshots[n + 1..], before)
      && RedactCount(w, snapshots[n..], before)
         == (if e in w.events && w.events[e].receivedAt < before && HasBody(w.events[e]) then 1 else 0)
            + RedactCount(next, snapshots[n + 1..], before)
  {
    if n < |snapshots| {
      assert snapshots[n..][0] == snapshots[n] && snapshots[n..][1..] == snapshots[n + 1..];
    }
  }

  lemma {:induction false} BatchFrom(w: World, env: Env, parse: Parser, items: seq<Item>, n: nat)
    requires n <= |items|
    ensures n == |items| ==> BatchTx(w, env, parse, items[n..]) == (w, None)
    ensures n < |items| ==>
      var (next, failed) := IngestTx(w, env, parse, items[n]);
      BatchTx(w, env, parse, items[n..])
      == if failed.Some? then (next, failed) else BatchTx(next, env, parse, items[n + 1..])
  {
    hide IngestTx;
    if n < |items| {
      assert items[n..][0] == items[n] && items[n..][1..] == items[n + 1..];
    }
  }

  // ----- The bodies a redaction selects -----

  predicate ExpiredBody(e: RelayEvent, before: int) {
    e.receivedAt < before && HasBody(e)
  }

  /** ORDER BY received_at, id */
  predicate OlderBody(events: map<Id, RelayEvent>, a: Id, b: Id)
    requires a in events && b in events
  {
    events[a].receivedAt < events[b].receivedAt || (events[a].receivedAt == events[b].receivedAt && a < b)
  }

  /** The first `limit` expired bodies, in order. */
  ghost predicate OldestBodies(events: map<Id, RelayEvent>, before: int, limit: nat, ids: seq<Id>) {
    && |ids| <= limit
    && (forall k :: 0 <= k < |ids| ==> ids[k] in events && ExpiredBody(events[ids[k]], before))
    && (forall j, k :: 0 <= j < k < |ids| ==> OlderBody(events, ids[j], ids[k]))
    && (forall e :: e in events && ExpiredBody(events[e], before) && e !in ids
          ==> |ids| == limit && forall k :: 0 <= k < |ids| ==> OlderBody(events, ids[k], e))
  }

  function RedactionLimit(limit: int): nat {
    if limit <= 0 || limit > 5000 then 500 else limit
  }

  function Snapshots(events: map<Id, RelayEvent>, ids: seq<Id>): seq<(Id, RelayEvent)>
    requires forall k :: 0 <= k < |ids| ==> ids[k] in events
  {
    seq(|ids|, k requires 0 <= k < |ids| => (ids[k], events[ids[k]]))
  }

  function WithoutBodies(events: map<Id, RelayEvent>, ids: seq<Id>): map<Id, RelayEvent> {
    map e | e in events :: if e in ids then Redacted(events[e], events[e]) else events[e]
  }

  /** Nothing happened between the query and the transaction: every listed body goes, no other. */
  lemma {:induction false} FreshRedaction(w: World, events: map<Id, RelayEvent>, ids: seq<Id>, before: int, n: nat)
    requires n <= |ids| && w.events == WithoutBodies(events, ids[..n])
    requires forall j, k :: 0 <= j < k < |ids| ==> ids[j] != ids[k]
    requires forall k :: 0 <= k < |ids| ==> ids[k] in events && ExpiredBody(events[ids[k]], before)
    ensures RedactTx(w, Snapshots(events, ids)[n..], before) == w.(events := WithoutBodies(events, ids))
    ensures RedactCount(w, Snapshots(events, ids)[n..], before) == |ids| - n
    decreases |ids| - n
  {
    var snapshots := Snapshots(events, ids);
    RedactFrom(w, snapshots, n, before);
    if n == |ids| {
      assert ids[..n] == ids;
    } else {
      hide RedactTx, RedactCount, Redacted, HasBody;
      assert ids[n] !in ids[..n] && w.events[ids[n]] == events[ids[n]];
      var next := RedactOne(w, ids[n], events[ids[n]], before);
      assert ids[..n + 1] == ids[..n] + [ids[n]];
      assert next.events == WithoutBodies(events, ids[..n + 1]);
      FreshRedaction(next, events, ids, before, n + 1);
    }
  }

  predicate ValidBatch(schemaVersion: int, submitted: seq<EventInput>) {
    && 1 <= |submitted| <= MAX_BATCH_EVENTS
    && forall i :: 0 <= i < |submitted| ==> ValidateEvent(schemaVersion, submitted[i]).Ok?
  }

  function Normalized(schemaVersion: int, submitted: seq<EventInput>): seq<EventInput>
    requires ValidBatch(schemaVersion, submitted)
  {
    seq(|submitted|, i requires 0 <= i < |submitted| => ValidateEvent(schemaVersion, submitted[i]).value)
  }

  /** What is drawn for one item of a request beside its one reading of the relay clock. */
  datatype ItemDraw = ItemDraw(newId: Id, paymentNow: int, active: Option<string>, rowIds: RowIds)

  function Drawn(inputs: seq<EventInput>, now: int, draws: seq<ItemDraw>): seq<Item>
    requires |inputs| == |draws|
  {
    seq(|inputs|, i requires 0 <= i < |inputs| =>
      Item(inputs[i], Draw(now, draws[i].newId, now, draws[i].paymentNow, draws[i].active, draws[i].rowIds)))
  }

  class Service {
    const payments: PaymentService.Service
    var devices: map<Id, Device>
    var sessions: map<string, Session>
    var events: map<Id, RelayEvent>

    ghost function View(): World
      reads this, payments
    {
      World(payments.View(), devices, sessions, events)
    }

    /** UNIQUE(device_id, source_event_id), which the schema enforces. */
    ghost predicate Valid()
      reads this
    {
      SourcesUnique(events)
    }

    constructor (payments: PaymentService.Service)
      ensures Valid() && this.payments == payments
      ensures View() == World(payments.View(), map[], map[], map[])
    {
      this.payments := payments;
      devices, sessions, events := map[], map[], map[];
    }

    method CreatePairing(token: string, now: int, ttl: int) returns (r: Result<int, Refusal>)
      modifies this`sessions
      ensures View() == Next(old(View()), RelayStep.CreatePairing(token, now, ttl))
      ensures match CreatePairingTx(old(View()), token, now, ttl)
        case Err(e) => r == Err(e)
        case Ok(_) => r == Ok(sessions[token].expiresAt)
    {
      hide Trim, ByteLength;
      var lifetime := ttl;
      if lifetime <= 0 {
        lifetime := DEFAULT_PAIRING_TTL;
      }
      var expiresAt := now + lifetime;
      if ByteLength(Trim(token)) < MIN_TOKEN_BYTES {
        return Err(TokenTooShort);
      }
      if token in sessions {
        return Err(Storage);
      }
      sessions := sessions[token := Session(now, expiresAt, None)];
      return Ok(expiresAt);
    }

    method PairDevice(device: Id, token: string, now: int) returns (r: Result<int, Refusal>)
      modifies this`devices, this`sessions
      ensures View() == Next(old(View()), RelayStep.Pair(device, token, now))
      ensures match PairTx(old(View()), device, token, now)
        case Err(e) => r == Err(e)
        case Ok(w) => r == Ok(w.devices[device].epoch)
    {
      if token !in sessions {
        return Err(TokenInvalid);
      }
      if sessions[token].consumedAt.Some? {
        return Err(TokenUsed);
      }
      if now >= sessions[token].expiresAt {
        return Err(TokenExpired);
      }
      var enrollmentEpoch, seen := now, None;
      if device in devices {
        seen := devices[device].lastSeenAt;
        if devices[device].epoch >= enrollmentEpoch {
          if devices[device].epoch == MAX_INT64 {
            return Err(EpochExhausted);
          }
          enrollmentEpoch := devices[device].epoch + 1;
        }
      }
      if now < sessions[token].createdAt {
        return Err(Storage);
      }
      devices := devices[device := Device(true, enrollmentEpoch, true, seen)];
      sessions := sessions[token := sessions[token].(consumedAt := Some(now))];
      return Ok(enrollmentEpoch);
    }

    method RevokeDevice(device: Id) returns (r: Result<(), Refusal>)
      modifies this`devices
      ensures View() == Next(old(View()), RelayStep.Revoke(device))
      ensures r.Ok? <==> RevokeTx(old(View()), device).Ok?
    {
      if device !in devices || !devices[device].enabled {
        return Err(InvalidDevice);
      }
      devices := devices[device := devices[device].(enabled := false)];
      return Ok(());
    }

    /** acceptEvent with its duplicate check. */
    method AcceptEvent(device: Id, epoch: int, input: EventInput, now: int,
                       newId: Id) returns (r: Result<(Id, bool, bool), Refusal>)
      requires Valid()
      modifies this`devices, this`events
      ensures Valid()
      ensures match AcceptTx(old(View()), device, epoch, input, now, newId)
        case Err(e) => r == Err(e) && View() == old(View())
        case Ok(a) => r == Ok((a.event, a.duplicate, a.pending)) && View() == a.world
    {
      ghost var start := View();
      if device !in devices || !devices[device].enabled || devices[device].epoch != epoch {
        return Err(UnknownDevice);
      }
      var (postedAt, reliable) := SanitizePostedAt(input.postedAtMs, now);
      if exists e :: e in events && events[e].device == device && events[e].source == input.eventId {
        var id :| id in events && events[id].device == device && events[id].source == input.eventId;
        assert IsEventOf(start, id, device, input.eventId);
        OnlyEventOf(start, device, input.eventId, id);
        if !SameEvent(events[id], input, postedAt, reliable) {
          return Err(EventIdConflict);
        }
        devices := devices[device := devices[device].(lastSeenAt := Some(now))];
        return Ok((id, true, events[id].status == Received));
      }
      assert !Known(start, device, input.eventId);
      if newId in events {
        return Err(Storage);
      }
      devices := devices[device := devices[device].(lastSeenAt := Some(now))];
      var status := Received;
      if reliable && postedAt < epoch {
        status := EventIgnored;
      }
      events := events[newId := RelayEvent(device, input.eventId, input.package, postedAt, now,
                                           NullableAmount(input.hint), NullableText(input.title),
                                           NullableText(input.text), NullableText(input.bigText),
                                           RawHash(input.raw), status)];
      assert events[newId] == NewEvent(device, epoch, input, now);
      return Ok((newId, false, status == Received));
    }

    /** ApplyObservationForRelay. */
    method ApplyObservation(event: Id, device: Id, epoch: int, o: Observation, active: Option<string>,
                            receivedAt: int, now: int, ids: RowIds)
      returns (r: Result<(MatchOutcome, Option<Id>, bool), Refusal>)
      requires Valid()
      modifies this`events, payments
      ensures Valid() && events.Keys == old(events.Keys)
      ensures match ApplyTx(old(View()), event, device, epoch, o, active, receivedAt, now, ids)
        case Err(e) => r == Err(e) && View() == old(View())
        case Ok(a) => r == Ok((a.outcome, a.payment, a.transitioned)) && View() == a.world
    {
      hide SettleTx, ObservationOf;
      if !ValidObservation(o) {
        return Err(InPayments(InvalidObservation));
      }
      if event !in events || events[event].status != Received || events[event].device != device {
        return Err(InPayments(RelayEventNotFound));
      }
      if device !in devices || !devices[device].enabled || devices[device].epoch != epoch {
        return Err(InPayments(RelayEventNotFound));
      }
      var existing := ObservationOf(payments.observations, event);
      if existing.Some? {
        return Ok((existing.value.outcome, existing.value.payment, false));
      }
      if o.source == PaytmNotification && events[event].package != PAYTM_PACKAGE {
        return Err(InPayments(InvalidObservation));
      }
      var settled := payments.Settle(event, o, active, receivedAt, now, ids);
      if settled.Err? {
        return Err(InPayments(settled.error));
      }
      var (outcome, payment, transitioned) := settled.value;
      events := events[event := events[event].(status := StatusOf(outcome))];
      return Ok((outcome, payment, transitioned));
    }

    /** finishIgnored and finishAmbiguous; the answer is the status the row ends up with. */
    method Finish(event: Id, status: EventStatus) returns (last: Option<EventStatus>)
      requires Valid()
      modifies this`events
      ensures Valid()
      ensures View() == FinishTx(old(View()), event, status)
      ensures last == if event in events then Some(events[event].status) else None
    {
      if event in events && events[event].status == Received {
        events := events[event := events[event].(status := status)];
      }
      last := if event in events then Some(events[event].status) else None;
    }

    /** The guarded UPDATE of one row. */
    method RedactRow(event: Id, snapshot: RelayEvent, before: int) returns (changed: bool)
      requires Valid()
      modifies this`events
      ensures Valid()
      ensures View() == RedactOne(old(View()), event, snapshot, before)
      ensures changed <==> event in old(events) && old(events)[event].receivedAt < before && HasBody(old(events)[event])
    {
      hide Encode;
      var payloadHash := snapshot.hash;
      if payloadHash == NoHash {
        payloadHash := LegacyHash(Encode(StoredFields(snapshot)));
      }
      changed := event in events && events[event].receivedAt < before && HasBody(events[event]);
      if changed {
        var status := events[event].status;
        events := events[event := events[event].(title := None, text := None, bigText := None, hash := payloadHash,
                                                 status := if status == Received then EventIgnored else status)];
      }
    }

    /** The transaction of a redaction: guarded updates from rows that were read before it. */
    method RedactSelected(snapshots: seq<(Id, RelayEvent)>, before: int) returns (redacted: nat)
      requires Valid()
      modifies this`events
      ensures Valid()
      ensures View() == RedactTx(old(View()), snapshots, before)
      ensures redacted == RedactCount(old(View()), snapshots, before)
    {
      redacted := 0;
      var n := 0;
      assert snapshots[0..] == snapshots;
      hide RedactTx, RedactCount, RedactOne, HasBody, SourcesUnique;
      while n < |snapshots|
        invariant 0 <= n <= |snapshots| && Valid()
        invariant RedactTx(old(View()), snapshots, before) == RedactTx(View(), snapshots[n..], before)
        invariant RedactCount(old(View()), snapshots, before) == redacted + RedactCount(View(), snapshots[n..], before)
      {
        RedactFrom(View(), snapshots, n, before);
        var (event, snapshot) := snapshots[n];
        var changed := RedactRow(event, snapshot, before);
        if changed {
          redacted := redacted + 1;
        }
        n := n + 1;
      }
      RedactFrom(View(), snapshots, n, before);
    }

    /** The oldest expired body not listed yet, if any. */
    method NextBody(before: int, listed: seq<Id>) returns (first: Option<Id>)
      ensures first.None? ==> forall e :: e in events && ExpiredBody(events[e], before) ==> e in listed
      ensures first.Some? ==>
        && first.value in events && ExpiredBody(events[first.value], before) && first.value !in listed
        && forall e :: e in events && ExpiredBody(events[e], before) && e !in listed && e != first.value
             ==> OlderBody(events, first.value, e)
    {
      first := None;
      var todo := events.Keys;
      while todo != {}
        invariant todo <= events.Keys
        invariant first.None? ==>
          forall e :: e in events && e !in todo && ExpiredBody(events[e], before) ==> e in listed
        invariant first.Some? ==>
          && first.value in events && ExpiredBody(events[first.value], before) && first.value !in listed
          && forall e :: e in events && e !in todo && ExpiredBody(events[e], before) && e !in listed && e != first.value
               ==> OlderBody(events, first.value, e)
        decreases todo
      {
        var e :| e in todo;
        if ExpiredBody(events[e], before) && e !in listed && (first.None? || OlderBody(events, e, first.value)) {
          first := Some(e);
        }
        todo := todo - {e};
      }
    }

    method SelectBodies(before: int, limit: nat) returns (ids: seq<Id>)
      ensures OldestBodies(events, before, limit, ids)
    {
      ids := [];
      while |ids| < limit
        invariant |ids| <= limit
        invariant forall k :: 0 <= k < |ids| ==> ids[k] in events && ExpiredBody(events[ids[k]], before)
        invariant forall j, k :: 0 <= j < k < |ids| ==> OlderBody(events, ids[j], ids[k])
        invariant forall e :: e in events && ExpiredBody(events[e], before) && e !in ids
                    ==> forall k :: 0 <= k < |ids| ==> OlderBody(events, ids[k], e)
        decreases limit - |ids|
      {
        var first := NextBody(before, ids);
        if first.None? {
          return;
        }
        ids := ids + [first.value];
      }
    }

    /** RedactRawEvents, undisturbed between its query and its transaction: exactly the oldest
        expired bodies up to the limit are redacted, and counted. */
    method RedactRawEvents(before: int, limit: int) returns (redacted: nat, ghost ids: seq<Id>)
      requires Valid()
      modifies this`events
      ensures Valid()
      ensures OldestBodies(old(events), before, RedactionLimit(limit), ids) && redacted == |ids|
      ensures View() == old(View()).(events := WithoutBodies(old(events), ids))
    {
      var listed := SelectBodies(before, RedactionLimit(limit));
      ids := listed;
      assert forall j, k :: 0 <= j < k < |ids| ==> ids[j] != ids[k];
      hide RedactTx, RedactCount, SourcesUnique, ExpiredBody, OlderBody, Redacted;
      assert events == WithoutBodies(events, ids[..0]);
      FreshRedaction(View(), events, ids, before, 0);
      assert Snapshots(events, ids)[0..] == Snapshots(events, ids);
      redacted := RedactSelected(Snapshots(events, listed), before);
    }

    /** ingestVerifiedEvent: accept, then parse and process or finish. */
    method IngestVerifiedEvent(env: Env, parse: Parser, item: Item) returns (failed: Option<Refusal>)
      requires Valid()
      modifies this`devices, this`events, payments
      ensures Valid()
      ensures (View(), failed) == IngestTx(old(View()), env, parse, item)
    {
      var input, draw := item.input, item.draw;
      var accepted := AcceptEvent(env.device, env.epoch, input, draw.acceptedAt, draw.newId);
      hide AcceptTx, ApplyTx;
      if accepted.Err? {
        return Some(accepted.error);
      }
      var (event, _, pending) := accepted.value;
      if !pending {
        return None;
      }
      var (postedAt, postedReliable) := SanitizePostedAt(input.postedAtMs, draw.processedAt);
      if !postedReliable {
        var _ := Finish(event, EventIgnored);
        return None;
      }
      var parsed := parse(input);
      if parsed.MultipleAmounts? {
        var _ := Finish(event, EventAmbiguous);
        return None;
      }
      if parsed.Unrecognized? {
        var _ := Finish(event, EventIgnored);
        return None;
      }
      var o := parsed.observation;
      if o.occurredAt > draw.processedAt + OCCURRENCE_TOLERANCE || o.occurredAt < env.epoch {
        var _ := Finish(event, EventIgnored);
        return None;
      }
      var matched := ApplyObservation(event, env.device, env.epoch, o, draw.active, draw.processedAt,
                                      draw.paymentNow, draw.rowIds);
      if matched.Err? {
        if matched.error == InPayments(RelayEventNotFound) {
          var _ := Finish(event, EventIgnored);
          return None;
        }
        return Some(matched.error);
      }
      return None;
    }

    /** The batch loop: items in order, up to the first error. */
    method IngestAll(env: Env, parse: Parser, items: seq<Item>) returns (failed: Option<Refusal>)
      requires Valid()
      modifies this`devices, this`events, payments
      ensures Valid()
      ensures (View(), failed) == BatchTx(old(View()), env, parse, items)
    {
      hide IngestTx, BatchTx, SourcesUnique;
      var n := 0;
      assert items[0..] == items;
      while n < |items|
        invariant 0 <= n <= |items| && Valid()
        invariant BatchTx(old(View()), env, parse, items) == BatchTx(View(), env, parse, items[n..])
      {
        BatchFrom(View(), env, parse, items, n);
        failed := IngestVerifiedEvent(env, parse, items[n]);
        if failed.Some? {
          return;
        }
        n := n + 1;
      }
      BatchFrom(View(), env, parse, items, n);
      failed := None;
    }

    /** IngestBatchSigned after verification: nothing is stored unless every item is valid. The
        relay clock is read once; the payment clock, the active profile and the ids per item. */
    method IngestBatch(env: Env, parse: Parser, schemaVersion: int, submitted: seq<EventInput>, now: int,
                       draws: seq<ItemDraw>)
      returns (failed: Option<Refusal>)
      requires Valid() && |draws| == |submitted|
      modifies this`devices, this`events, payments
      ensures Valid()
      ensures ValidBatch(schemaVersion, submitted)
        ==> (View(), failed) == BatchTx(old(View()), env, parse,
                                        Drawn(Normalized(schemaVersion, submitted), now, draws))
      ensures !ValidBatch(schemaVersion, submitted) ==> failed == Some(InvalidEvent) && View() == old(View())
    {
      hide ValidateEvent, BatchTx, SourcesUnique;
      if |submitted| == 0 || |submitted| > MAX_BATCH_EVENTS {
        return Some(InvalidEvent);
      }
      var inputs: seq<EventInput> := [];
      while |inputs| < |submitted|
        invariant |inputs| <= |submitted|
        invariant forall i :: 0 <= i < |inputs| ==> ValidateEvent(schemaVersion, submitted[i]) == Ok(inputs[i])
      {
        var v := ValidateEvent(schemaVersion, submitted[|inputs|]);
        if v.Err? {
          return Some(InvalidEvent);
        }
        inputs := inputs + [v.value];
      }
      assert inputs == Normalized(schemaVersion, submitted);
      failed := IngestAll(env, parse, Drawn(inputs, now, draws));
    }
  }
}
