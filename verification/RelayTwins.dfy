/** When two runs that read different clocks end alike: the same items, drawn ids and profiles at
    other readings leave the same rows, timestamps aside, exactly as long as each item is taken
    alike at both readings. */
module RelayTwins {
  import opened Common
  import opened Domain
  import opened Cancellation
  import opened CancellationOrder
  import opened History
  import opened Ledger
  import opened LedgerInvariants
  import opened Relay
  import opened RelayTheorems
  import opened RelayBatch
  import opened RelayRetry

  // ----- Equal but for timestamps -----

  ghost predicate HistoryTwins(a: seq<HistoryRow>, b: seq<HistoryRow>) {
    |a| == |b| && forall i :: 0 <= i < |a| ==> a[i] == b[i].(at := a[i].at)
  }

  ghost predicate OutboxTwins(a: seq<OutboxRow>, b: seq<OutboxRow>) {
    |a| == |b| && forall i :: 0 <= i < |a| ==> a[i] == b[i].(at := a[i].at)
  }

  ghost predicate ObservationTwins(a: seq<ObservationRow>, b: seq<ObservationRow>) {
    |a| == |b| && forall i :: 0 <= i < |a| ==> a[i] == b[i].(receivedAt := a[i].receivedAt)
  }

  ghost predicate TableTwins(a: Tables, b: Tables) {
    && a.payments == b.payments && a.reservations == b.reservations && a.keys == b.keys
    && HistoryTwins(a.history, b.history) && OutboxTwins(a.outbox, b.outbox)
    && ObservationTwins(a.observations, b.observations)
  }

  predicate EventTwins(a: RelayEvent, b: RelayEvent) {
    a == b.(receivedAt := a.receivedAt, postedAt := a.postedAt)
  }

  ghost predicate Twins(a: World, b: World) {
    && TableTwins(a.db, b.db) && a.sessions == b.sessions
    && a.devices.Keys == b.devices.Keys
    && (forall d :: d in a.devices ==> a.devices[d] == b.devices[d].(lastSeenAt := a.devices[d].lastSeenAt))
    && a.events.Keys == b.events.Keys && (forall e :: e in a.events ==> EventTwins(a.events[e], b.events[e]))
  }

  lemma TwinOfItself(w: World)
    ensures Twins(w, w)
  {
  }

  /** The same item at other readings of the clocks. */
  ghost predicate SameButReadings(x: Item, y: Item) {
    && x.input == y.input && x.draw.newId == y.draw.newId
    && x.draw.active == y.draw.active && x.draw.rowIds == y.draw.rowIds
  }

  // ----- Settling -----

  lemma FreshTwins(a: Tables, b: Tables, id: Id)
    requires HistoryTwins(a.history, b.history) && OutboxTwins(a.outbox, b.outbox)
    ensures FreshHistory(a.history, id) <==> FreshHistory(b.history, id)
    ensures FreshEvent(a.outbox, id) <==> FreshEvent(b.outbox, id)
  {
    forall i | 0 <= i < |a.history| ensures a.history[i].id == b.history[i].id {
    }
    forall i | 0 <= i < |a.outbox| ensures a.outbox[i].id == b.outbox[i].id {
    }
  }

  function PaidRow(p: Payment, payment: Id, now: int, id: Id): HistoryRow {
    HistoryRow(id, payment, PaymentPaid, System, Some(StatusChange(p.status, Paid)), false, now)
  }

  lemma RecordTwins(a: Tables, b: Tables, payment: Id, q: Payment, x: HistoryRow, y: HistoryRow, event: Id)
    requires TableTwins(a, b) && x == y.(at := x.at)
    ensures TableTwins(Record(a, payment, q, x, event), Record(b, payment, q, y, event))
  {
  }

  ghost predicate ConfirmAlike(r: Result<(Tables, bool), Failure>, s: Result<(Tables, bool), Failure>) {
    match (r, s)
    case (Err(e), Err(f)) => e == f
    case (Ok((x, t)), Ok((y, u))) => TableTwins(x, y) && t == u
    case _ => false
  }

  lemma ConfirmTwins(a: Tables, b: Tables, payment: Id, o: Observation, nowA: int, nowB: int, ids: RowIds)
    requires TableTwins(a, b) && payment in a.payments
    ensures ConfirmAlike(ConfirmTx(a, payment, o, nowA, ids), ConfirmTx(b, payment, o, nowB, ids))
  {
    var p := a.payments[payment];
    FreshTwins(a, b, ids.history);
    FreshTwins(a, b, ids.event);
    if p.status != Paid {
      RecordTwins(a, b, payment, MarkedPaid(p, o), PaidRow(p, payment, nowA, ids.history),
                  PaidRow(p, payment, nowB, ids.history), ids.event);
      hide TableTwins, Record;
    }
    hide FreshHistory, FreshEvent, HistoryTwins, OutboxTwins, ObservationTwins;
  }

  ghost predicate ObserveAlike(r: Result<Tables, Failure>, s: Result<Tables, Failure>) {
    match (r, s)
    case (Err(e), Err(f)) => e == f
    case (Ok(x), Ok(y)) => TableTwins(x, y)
    case _ => false
  }

  lemma ObservedTwins(a: Tables, b: Tables, event: Id)
    requires ObservationTwins(a.observations, b.observations)
    ensures Observed(a.observations, event) <==> Observed(b.observations, event)
    ensures forall p :: Confirmed(a.observations, p) <==> Confirmed(b.observations, p)
  {
    forall i | 0 <= i < |a.observations|
      ensures a.observations[i].event == b.observations[i].event
      ensures a.observations[i].payment == b.observations[i].payment
      ensures a.observations[i].outcome == b.observations[i].outcome
    {
    }
  }

  lemma ObserveTwins(a: Tables, b: Tables, event: Id, o: Observation, active: Option<string>, receivedA: int,
                     receivedB: int, payment: Option<Id>, outcome: MatchOutcome)
    requires TableTwins(a, b)
    ensures ObserveAlike(Observe(a, event, o, active, receivedA, payment, outcome),
                         Observe(b, event, o, active, receivedB, payment, outcome))
  {
    ObservedTwins(a, b, event);
    hide Observed, Trim, HistoryTwins, OutboxTwins;
  }

  /** SettleTx with its only candidate named. */
  ghost function SettleOn(db: Tables, payment: Id, event: Id, o: Observation, active: Option<string>, receivedAt: int,
                          now: int, ids: RowIds): Result<Settled, Failure>
    requires payment in db.payments && payment in db.reservations
  {
    var attributed := o.(profile := db.reservations[payment].profile);
    var outcome := if db.payments[payment].status == Paid && Confirmed(db.observations, payment)
                   then Corroborated else Matched;
    match ConfirmTx(db, payment, attributed, now, ids)
    case Err(e) => Err(e)
    case Ok((next, transitioned)) =>
      match Observe(next, event, attributed, active, receivedAt, Some(payment), outcome)
      case Err(e) => Err(e)
      case Ok(last) => Ok(Settled(last, outcome, Some(payment), transitioned))
  }

  lemma SettleOnOnly(db: Tables, payment: Id, event: Id, o: Observation, active: Option<string>, receivedAt: int,
                     now: int, ids: RowIds)
    requires ValidObservation(o) && MatchSet(db, o) == {payment} && payment in db.payments && payment in db.reservations
    ensures SettleTx(db, event, o, active, receivedAt, now, ids)
         == SettleOn(db, payment, event, o, active, receivedAt, now, ids)
  {
    hide ConfirmTx, Observe, Confirmed;
  }

  ghost predicate SettleAlike(r: Result<Settled, Failure>, s: Result<Settled, Failure>) {
    match (r, s)
    case (Err(e), Err(f)) => e == f
    case (Ok(x), Ok(y)) =>
      TableTwins(x.db, y.db) && x.outcome == y.outcome && x.payment == y.payment && x.transitioned == y.transitioned
    case _ => false
  }

  lemma SettleOnTwins(a: Tables, b: Tables, payment: Id, event: Id, o: Observation, active: Option<string>,
                      receivedA: int, receivedB: int, nowA: int, nowB: int, ids: RowIds)
    requires TableTwins(a, b) && payment in a.payments && payment in a.reservations
    ensures SettleAlike(SettleOn(a, payment, event, o, active, receivedA, nowA, ids),
                        SettleOn(b, payment, event, o, active, receivedB, nowB, ids))
  {
    var attributed := o.(profile := a.reservations[payment].profile);
    ConfirmTwins(a, b, payment, attributed, nowA, nowB, ids);
    ObservedTwins(a, b, event);
    assert a.reservations == b.reservations && a.payments == b.payments;
    hide TableTwins, Confirmed, ConfirmTx, Observe;
    var outcome := if a.payments[payment].status == Paid && Confirmed(a.observations, payment)
                   then Corroborated else Matched;
    if ConfirmTx(a, payment, attributed, nowA, ids).Ok? {
      var x := ConfirmTx(a, payment, attributed, nowA, ids).value.0;
      var y := ConfirmTx(b, payment, attributed, nowB, ids).value.0;
      ObserveTwins(x, y, event, attributed, active, receivedA, receivedB, Some(payment), outcome);
    }
  }

  /** With the same candidates the matcher does the same. */
  lemma SettleTwins(a: Tables, b: Tables, event: Id, o: Observation, active: Option<string>,
                    receivedA: int, receivedB: int, nowA: int, nowB: int, ids: RowIds)
    requires TableTwins(a, b) && MatchSet(a, o) == MatchSet(b, o)
    ensures SettleAlike(SettleTx(a, event, o, active, receivedA, nowA, ids),
                        SettleTx(b, event, o, active, receivedB, nowB, ids))
  {
    var c := MatchSet(a, o);
    if |c| == 1 && ValidObservation(o) {
      var p :| p in c;
      SingletonSet(c, p);
      SettleOnOnly(a, p, event, o, active, receivedA, nowA, ids);
      SettleOnOnly(b, p, event, o, active, receivedB, nowB, ids);
      hide SettleTx, SettleOn;
      SettleOnTwins(a, b, p, event, o, active, receivedA, receivedB, nowA, nowB, ids);
    } else {
      ObserveTwins(a, b, event, o, active, receivedA, receivedB, None, if |c| > 1 then Ambiguous else Unmatched);
      hide TableTwins, Observe, ConfirmTx, MatchSet, Confirmed, ValidObservation;
    }
  }

  /** With the same answer it does the same too, whatever the candidates. */
  lemma SameAnswerTwins(a: Tables, b: Tables, event: Id, o: Observation, active: Option<string>,
                        receivedA: int, receivedB: int, nowA: int, nowB: int, ids: RowIds, r: Settled, s: Settled)
    requires TableTwins(a, b) && r.payment == s.payment && r.outcome == s.outcome
    requires SettleTx(a, event, o, active, receivedA, nowA, ids) == Ok(r)
    requires SettleTx(b, event, o, active, receivedB, nowB, ids) == Ok(s)
    ensures TableTwins(r.db, s.db) && r.transitioned == s.transitioned
  {
    SettleShape(a, event, o, active, receivedA, nowA, ids, r);
    SettleShape(b, event, o, active, receivedB, nowB, ids, s);
    hide SettleTx, TableTwins, MatchSet, ConfirmTx, Observe;
    if r.payment.Some? {
      SettleTwins(a, b, event, o, active, receivedA, receivedB, nowA, nowB, ids);
    } else {
      ObserveTwins(a, b, event, o, active, receivedA, receivedB, None, r.outcome);
    }
  }

  // ----- Processing -----

  ghost predicate AppliedAlike(r: Result<Applied, Refusal>, s: Result<Applied, Refusal>) {
    match (r, s)
    case (Err(e), Err(f)) => e == f
    case (Ok(x), Ok(y)) => Twins(x.world, y.world)
    case _ => false
  }

  lemma SettledTwins(a: World, b: World, x: Tables, y: Tables, event: Id, status: EventStatus)
    requires Twins(a, b) && TableTwins(x, y) && event in a.events
    ensures Twins(a.(db := x, events := a.events[event := a.events[event].(status := status)]),
                  b.(db := y, events := b.events[event := b.events[event].(status := status)]))
  {
    hide TableTwins;
  }

  /** What a processing transaction answers: its refusal, or what it decided of which payment. */
  function Answer(r: Result<Applied, Refusal>): Result<(MatchOutcome, Option<Id>), Refusal> {
    match r
    case Ok(a) => Ok((a.outcome, a.payment))
    case Err(e) => Err(e)
  }

  /** The same answer leaves the same rows. */
  lemma ProcessTwins(a: World, b: World, event: Id, env: Env, o: Observation, x: Draw, y: Draw)
    requires Twins(a, b) && RelayInv(a) && RelayInv(b) && x.active == y.active && x.rowIds == y.rowIds
    requires Answer(ProcessTx(a, event, env, o, x)) == Answer(ProcessTx(b, event, env, o, y))
    ensures AppliedAlike(ProcessTx(a, event, env, o, x), ProcessTx(b, event, env, o, y))
  {
    var r, s := ProcessTx(a, event, env, o, x), ProcessTx(b, event, env, o, y);
    if r.Ok? {
      ProcessDecides(a, event, env.device, env.epoch, o, x.active, x.processedAt, x.paymentNow, x.rowIds, r.value);
      ProcessDecides(b, event, env.device, env.epoch, o, y.active, y.processedAt, y.paymentNow, y.rowIds, s.value);
      OpenMeansUnobserved(a, event);
      OpenMeansUnobserved(b, event);
      ObservationOfFinds(a.db.observations, event);
      ObservationOfFinds(b.db.observations, event);
      hide RelayInv, SettleTx, TableTwins, ObservationOf, Observed, ValidObservation, Authorized, Decided;
      var u := Settled(r.value.world.db, r.value.outcome, r.value.payment, r.value.transitioned);
      var v := Settled(s.value.world.db, s.value.outcome, s.value.payment, s.value.transitioned);
      SameAnswerTwins(a.db, b.db, event, o, x.active, x.processedAt, y.processedAt, x.paymentNow, y.paymentNow,
                      x.rowIds, u, v);
      SettledTwins(a, b, u.db, v.db, event, StatusOf(u.outcome));
      hide Twins;
    } else {
      hide ProcessTx, RelayInv, Twins;
    }
  }

  /** With the same candidates, the same answer. */
  lemma SameCandidatesSameAnswer(a: World, b: World, event: Id, env: Env, o: Observation, x: Draw, y: Draw)
    requires Twins(a, b) && RelayInv(a) && RelayInv(b) && x.active == y.active && x.rowIds == y.rowIds
    requires MatchSet(a.db, o) == MatchSet(b.db, o)
    ensures Answer(ProcessTx(a, event, env, o, x)) == Answer(ProcessTx(b, event, env, o, y))
  {
    SettleTwins(a.db, b.db, event, o, x.active, x.processedAt, y.processedAt, x.paymentNow, y.paymentNow, x.rowIds);
    if event in a.events && a.events[event].status == Received {
      OpenMeansUnobserved(a, event);
      OpenMeansUnobserved(b, event);
      ObservationOfFinds(a.db.observations, event);
      ObservationOfFinds(b.db.observations, event);
    }
    hide RelayInv, ObservationOf, Observed, SettleTx, ValidObservation, MatchSet;
    assert event in a.events ==> EventTwins(a.events[event], b.events[event]);
    assert Authorized(a, env.device, env.epoch) <==> Authorized(b, env.device, env.epoch);
    hide Twins, TableTwins, Authorized;
  }

  // ----- The verdict on an item -----

  datatype Verdict = Refuse(error: Refusal) | AlreadyDone | Ignore | ManyAmounts | Settle(o: Observation)

  /** What processing decides, from the posting time, the parser and the occurrence tolerance. */
  function Decision(parse: Parser, env: Env, item: Item): Verdict {
    if !Reliable(item.input, item.draw.processedAt) then Ignore
    else
      match parse(item.input)
      case MultipleAmounts => ManyAmounts
      case Unrecognized => Ignore
      case Parsed(o) => if Tolerable(o, env.epoch, item.draw.processedAt) then Verdict.Settle(o) else Ignore
  }

  ghost function VerdictOf(w: World, env: Env, parse: Parser, item: Item): Verdict {
    match AcceptItem(w, env, item)
    case Err(e) => Refuse(e)
    case Ok(a) => if a.pending then Decision(parse, env, item) else if a.duplicate then AlreadyDone else Ignore
  }

  /** The event an item is about, and its row once accepted. */
  ghost function RowOf(w: World, env: Env, item: Item): (Id, RelayEvent) {
    if Known(w, env.device, item.input.eventId)
    then (EventOf(w, env.device, item.input.eventId), w.events[EventOf(w, env.device, item.input.eventId)])
    else (item.draw.newId, NewEvent(env.device, env.epoch, item.input, item.draw.acceptedAt))
  }

  /** The device seen, and the item's event stored with a status. */
  ghost function StoredWith(w: World, env: Env, item: Item, status: EventStatus): World
    requires env.device in w.devices
  {
    var (id, row) := RowOf(w, env, item);
    Touch(w, env.device, item.draw.acceptedAt).(events := w.events[id := row.(status := status)])
  }

  lemma AcceptedIs(w: World, env: Env, item: Item, a: Accepted)
    requires AcceptItem(w, env, item) == Ok(a)
    ensures env.device in w.devices && a.event == RowOf(w, env, item).0
    ensures var row := RowOf(w, env, item).1;
      && a.world == StoredWith(w, env, item, row.status) && (a.pending <==> row.status == Received)
      && (a.duplicate <==> Known(w, env.device, item.input.eventId))
      && (!a.pending && !a.duplicate ==> row.status == EventIgnored)
  {
    hide SameEvent, SanitizePostedAt;
    var (id, row) := RowOf(w, env, item);
    assert row.(status := row.status) == row;
    if Known(w, env.device, item.input.eventId) {
      assert w.events[id := row] == w.events;
    }
  }

  /** The world and the answer of an item, verdict by verdict. */
  lemma IngestBy(w: World, env: Env, parse: Parser, item: Item)
    ensures var r := IngestTx(w, env, parse, item);
      match VerdictOf(w, env, parse, item)
      case Refuse(e) => r == (w, Some(e)) && e in {UnknownDevice, EventIdConflict, Storage}
      case AlreadyDone => env.device in w.devices && r == (Touch(w, env.device, item.draw.acceptedAt), None)
      case Ignore => env.device in w.devices && r == (StoredWith(w, env, item, EventIgnored), None)
      case ManyAmounts => env.device in w.devices && r == (StoredWith(w, env, item, EventAmbiguous), None)
      case Settle(o) =>
        && env.device in w.devices && RowOf(w, env, item).1.status == Received
        && var stored := StoredWith(w, env, item, Received);
        && RowOf(w, env, item).0 in stored.events && stored.events[RowOf(w, env, item).0].status == Received
        && r == match ProcessTx(stored, RowOf(w, env, item).0, env, o, item.draw)
                case Ok(a) => (a.world, None)
                case Err(e) => if e == InPayments(RelayEventNotFound)
                               then (FinishTx(stored, RowOf(w, env, item).0, EventIgnored), None) else (stored, Some(e))
  {
    hide ApplyTx, Reliable, Tolerable, SameEvent, SanitizePostedAt;
    var r := AcceptItem(w, env, item);
    if r.Ok? {
      AcceptedIs(w, env, item, r.value);
      var (id, row) := RowOf(w, env, item);
      FinishStored(w, env, item, EventIgnored);
      FinishStored(w, env, item, EventAmbiguous);
      if Known(w, env.device, item.input.eventId) && row.status != Received {
        assert w.events[id := row] == w.events && row.(status := row.status) == row;
      }
    }
    hide RowOf, Touch;
  }

  lemma FinishStored(w: World, env: Env, item: Item, status: EventStatus)
    requires env.device in w.devices
    ensures RowOf(w, env, item).0 in StoredWith(w, env, item, Received).events
    ensures StoredWith(w, env, item, Received).events[RowOf(w, env, item).0].status == Received
    ensures FinishTx(StoredWith(w, env, item, Received), RowOf(w, env, item).0, status)
         == StoredWith(w, env, item, status)
  {
    var (id, row) := RowOf(w, env, item);
    assert row.(status := Received).(status := status) == row.(status := status);
    assert w.events[id := row.(status := Received)][id := row.(status := status)]
        == w.events[id := row.(status := status)];
  }

  // ----- Same verdict, same rows -----

  lemma KnownTwins(a: World, b: World, device: Id, source: string)
    requires Twins(a, b) && SourcesUnique(a.events) && SourcesUnique(b.events)
    ensures Known(a, device, source) <==> Known(b, device, source)
    ensures Known(a, device, source) ==> EventOf(a, device, source) == EventOf(b, device, source)
  {
    forall e ensures IsEventOf(a, e, device, source) <==> IsEventOf(b, e, device, source) {
      if e in a.events { assert EventTwins(a.events[e], b.events[e]); }
    }
    if Known(a, device, source) {
      OnlyEventOf(b, device, source, EventOf(a, device, source));
    }
  }

  lemma RowTwins(a: World, b: World, env: Env, x: Item, y: Item, status: EventStatus)
    requires Twins(a, b) && SourcesUnique(a.events) && SourcesUnique(b.events) && SameButReadings(x, y)
    ensures var (i, r), (j, s) := RowOf(a, env, x), RowOf(b, env, y);
      && i == j && EventTwins(r.(status := status), s.(status := status))
      && (Known(a, env.device, x.input.eventId) ==> r.status == s.status)
  {
    KnownTwins(a, b, env.device, x.input.eventId);
    hide SourcesUnique, SanitizePostedAt;
    if Known(a, env.device, x.input.eventId) {
      var e := EventOf(a, env.device, x.input.eventId);
      assert EventTwins(a.events[e], b.events[e]);
    }
  }

  lemma TouchTwins(a: World, b: World, device: Id, x: int, y: int)
    requires Twins(a, b) && device in a.devices && device in b.devices
    ensures Twins(Touch(a, device, x), Touch(b, device, y))
  {
    hide TableTwins;
  }

  lemma StoredTwins(a: World, b: World, env: Env, x: Item, y: Item, status: EventStatus)
    requires Twins(a, b) && SourcesUnique(a.events) && SourcesUnique(b.events) && SameButReadings(x, y)
    requires env.device in a.devices && env.device in b.devices
    ensures Twins(StoredWith(a, env, x, status), StoredWith(b, env, y, status))
  {
    RowTwins(a, b, env, x, y, status);
    TouchTwins(a, b, env.device, x.draw.acceptedAt, y.draw.acceptedAt);
    hide RowOf, Touch, TableTwins, SourcesUnique, EventTwins;
  }

  /** An item that is settled was stored as received. */
  lemma StoredForSettling(w: World, env: Env, parse: Parser, item: Item)
    requires RelayInv(w) && VerdictOf(w, env, parse, item).Settle?
    ensures env.device in w.devices && RelayInv(StoredWith(w, env, item, Received))
    ensures StoredWith(w, env, item, Received).db == w.db
    ensures Authorized(StoredWith(w, env, item, Received), env.device, env.epoch)
    ensures var (id, _), stored := RowOf(w, env, item), StoredWith(w, env, item, Received);
      id in stored.events && stored.events[id].device == env.device && stored.events[id].status == Received
  {
    var a := AcceptItem(w, env, item).value;
    AcceptShape(w, env, item, a);
    AcceptedIs(w, env, item, a);
    hide RelayInv, AcceptItem, Decision, SameAt;
  }

  /** What the matcher answers for an item that is settled. */
  ghost function MatcherAnswer(w: World, env: Env, item: Item, o: Observation)
    : Result<(MatchOutcome, Option<Id>), Refusal>
    requires env.device in w.devices
  {
    Answer(ProcessTx(StoredWith(w, env, item, Received), RowOf(w, env, item).0, env, o, item.draw))
  }

  /** Two worlds take an item alike: the same verdict and, when it is settled, the same answer. */
  ghost predicate TakenAlike(a: World, b: World, env: Env, parse: Parser, x: Item, y: Item) {
    && VerdictOf(a, env, parse, x) == VerdictOf(b, env, parse, y)
    && (VerdictOf(a, env, parse, x).Settle? && env.device in a.devices && env.device in b.devices ==>
          var o := VerdictOf(a, env, parse, x).o;
          MatcherAnswer(a, env, x, o) == MatcherAnswer(b, env, y, o))
  }

  lemma SameVerdictTwins(a: World, b: World, env: Env, parse: Parser, x: Item, y: Item)
    requires Twins(a, b) && RelayInv(a) && RelayInv(b) && SameButReadings(x, y) && TakenAlike(a, b, env, parse, x, y)
    ensures var r, s := IngestTx(a, env, parse, x), IngestTx(b, env, parse, y); Twins(r.0, s.0) && r.1 == s.1
  {
    IngestBy(a, env, parse, x);
    IngestBy(b, env, parse, y);
    UniqueSources(a);
    UniqueSources(b);
    hide IngestTx;
    match VerdictOf(a, env, parse, x)
    case Refuse(e) =>
    case AlreadyDone =>
      hide VerdictOf, RelayInv;
      TouchTwins(a, b, env.device, x.draw.acceptedAt, y.draw.acceptedAt);
    case Ignore =>
      hide VerdictOf, RelayInv;
      StoredTwins(a, b, env, x, y, EventIgnored);
    case ManyAmounts =>
      hide VerdictOf, RelayInv;
      StoredTwins(a, b, env, x, y, EventAmbiguous);
    case Settle(o) =>
      StoredForSettling(a, env, parse, x);
      StoredForSettling(b, env, parse, y);
      hide VerdictOf, RelayInv;
      SettledAlike(a, b, env, x, y, o);
  }

  lemma SettledAlike(a: World, b: World, env: Env, x: Item, y: Item, o: Observation)
    requires Twins(a, b) && SourcesUnique(a.events) && SourcesUnique(b.events)
    requires SameButReadings(x, y) && env.device in a.devices && env.device in b.devices
    requires RelayInv(StoredWith(a, env, x, Received)) && RelayInv(StoredWith(b, env, y, Received))
    requires MatcherAnswer(a, env, x, o) == MatcherAnswer(b, env, y, o)
    ensures AppliedAlike(ProcessTx(StoredWith(a, env, x, Received), RowOf(a, env, x).0, env, o, x.draw),
                         ProcessTx(StoredWith(b, env, y, Received), RowOf(b, env, y).0, env, o, y.draw))
    ensures Twins(StoredWith(a, env, x, Received), StoredWith(b, env, y, Received))
    ensures Twins(FinishTx(StoredWith(a, env, x, Received), RowOf(a, env, x).0, EventIgnored),
                  FinishTx(StoredWith(b, env, y, Received), RowOf(b, env, y).0, EventIgnored))
  {
    StoredTwins(a, b, env, x, y, Received);
    StoredTwins(a, b, env, x, y, EventIgnored);
    RowTwins(a, b, env, x, y, Received);
    FinishStored(a, env, x, EventIgnored);
    FinishStored(b, env, y, EventIgnored);
    hide Twins, RelayInv, RowOf, StoredWith, SourcesUnique, FinishTx, ProcessTx;
    ProcessTwins(StoredWith(a, env, x, Received), StoredWith(b, env, y, Received), RowOf(a, env, x).0, env, o, x.draw,
                 y.draw);
  }

  // ----- Other verdict, other rows -----

  /** Settling an open event of the request's device either fails for a payment's reason or leaves
      one more observation. */
  lemma SettlingObserves(w: World, event: Id, env: Env, o: Observation, draw: Draw)
    requires RelayInv(w) && event in w.events && w.events[event].status == Received
    requires w.events[event].device == env.device
    requires Authorized(w, env.device, env.epoch)
    ensures match ProcessTx(w, event, env, o, draw)
      case Err(e) => e.InPayments? && e != InPayments(RelayEventNotFound)
      case Ok(a) => |a.world.db.observations| == |w.db.observations| + 1
  {
    OpenMeansUnobserved(w, event);
    ObservationOfFinds(w.db.observations, event);
    var r := ProcessTx(w, event, env, o, draw);
    if r.Ok? {
      ProcessDecides(w, event, env.device, env.epoch, o, draw.active, draw.processedAt, draw.paymentNow, draw.rowIds,
                     r.value);
    }
    hide RelayInv, MatchSet, Confirmed;
  }

  lemma SettleAnswer(w: World, env: Env, parse: Parser, item: Item)
    requires RelayInv(w) && VerdictOf(w, env, parse, item).Settle?
    ensures var (next, failed) := IngestTx(w, env, parse, item);
      if failed.Some? then failed.value.InPayments? else |next.db.observations| == |w.db.observations| + 1
  {
    IngestBy(w, env, parse, item);
    StoredForSettling(w, env, parse, item);
    var stored, o := StoredWith(w, env, item, Received), VerdictOf(w, env, parse, item).o;
    hide VerdictOf, RelayInv, IngestTx, ProcessTx, RowOf, StoredWith;
    SettlingObserves(stored, RowOf(w, env, item).0, env, o, item.draw);
  }

  ghost predicate IngestedAlike(a: World, b: World, env: Env, parse: Parser, x: Item, y: Item) {
    var r, s := IngestTx(a, env, parse, x), IngestTx(b, env, parse, y);
    Twins(r.0, s.0) && r.1 == s.1
  }

  lemma StatusesDiffer(a: World, b: World, env: Env, x: Item, y: Item, s: EventStatus, t: EventStatus)
    requires Twins(a, b) && SourcesUnique(a.events) && SourcesUnique(b.events) && SameButReadings(x, y)
    requires env.device in a.devices && env.device in b.devices && s != t
    ensures !Twins(StoredWith(a, env, x, s), StoredWith(b, env, y, t))
  {
    RowTwins(a, b, env, x, y, s);
    var id := RowOf(a, env, x).0;
    assert StoredWith(a, env, x, s).events[id].status == s && StoredWith(b, env, y, t).events[id].status == t;
    hide RowOf, StoredWith, TableTwins;
  }

  lemma ObservationsOfStored(w: World, env: Env, item: Item, status: EventStatus)
    requires env.device in w.devices
    ensures StoredWith(w, env, item, status).db == w.db
  {
  }

  /** Two items that would be taken differently do not leave twins with the same answer. */
  lemma OtherVerdictsDiffer(a: World, b: World, env: Env, parse: Parser, x: Item, y: Item)
    requires Twins(a, b) && RelayInv(a) && RelayInv(b) && SameButReadings(x, y)
    requires VerdictOf(a, env, parse, x) != VerdictOf(b, env, parse, y)
    ensures !IngestedAlike(a, b, env, parse, x, y)
  {
    IngestBy(a, env, parse, x);
    IngestBy(b, env, parse, y);
    UniqueSources(a);
    UniqueSources(b);
    var v, u := VerdictOf(a, env, parse, x), VerdictOf(b, env, parse, y);
    SettlesDiffer(a, b, env, parse, x, y);
    DoneTogether(a, b, env, parse, x, y);
    if v.Settle? { SettleAnswer(a, env, parse, x); }
    if u.Settle? { SettleAnswer(b, env, parse, y); }
    if v in {Ignore, ManyAmounts} && u in {Ignore, ManyAmounts} {
      hide VerdictOf, RelayInv, IngestTx;
      StatusesDiffer(a, b, env, x, y, if v == Ignore then EventIgnored else EventAmbiguous,
                     if u == Ignore then EventIgnored else EventAmbiguous);
    } else {
      assert |a.db.observations| == |b.db.observations|;
      if v in {Ignore, ManyAmounts} {
        ObservationsOfStored(a, env, x, if v == Ignore then EventIgnored else EventAmbiguous);
      }
      if u in {Ignore, ManyAmounts} {
        ObservationsOfStored(b, env, y, if u == Ignore then EventIgnored else EventAmbiguous);
      }
      hide VerdictOf, RelayInv, IngestTx, StoredWith, ProcessTx, RowOf;
    }
  }

  /** The parser sees the event alone, so two settlements are of the same observation. */
  lemma SettlesDiffer(a: World, b: World, env: Env, parse: Parser, x: Item, y: Item)
    requires SameButReadings(x, y)
    ensures VerdictOf(a, env, parse, x).Settle? && VerdictOf(b, env, parse, y).Settle?
      ==> VerdictOf(a, env, parse, x) == VerdictOf(b, env, parse, y)
  {
    hide AcceptItem, Reliable, Tolerable;
  }

  /** An item that is already done in one twin is done or refused in the other. */
  lemma DoneTogether(a: World, b: World, env: Env, parse: Parser, x: Item, y: Item)
    requires Twins(a, b) && RelayInv(a) && RelayInv(b) && SameButReadings(x, y)
    ensures VerdictOf(a, env, parse, x).AlreadyDone? ==>
      VerdictOf(b, env, parse, y) == AlreadyDone || VerdictOf(b, env, parse, y).Refuse?
    ensures VerdictOf(b, env, parse, y).AlreadyDone? ==>
      VerdictOf(a, env, parse, x) == AlreadyDone || VerdictOf(a, env, parse, x).Refuse?
  {
    UniqueSources(a);
    UniqueSources(b);
    KnownTwins(a, b, env.device, x.input.eventId);
    RowTwins(a, b, env, x, y, Received);
    var r, s := AcceptItem(a, env, x), AcceptItem(b, env, y);
    if r.Ok? { AcceptedIs(a, env, x, r.value); }
    if s.Ok? { AcceptedIs(b, env, y, s.value); }
    hide RelayInv, AcceptItem, Decision, RowOf, Known, StoredWith;
  }

  /** Two settlements of one event with other answers differ in their refusal, or in the last
      observation. */
  lemma OtherAnswersDiffer(a: World, b: World, env: Env, parse: Parser, x: Item, y: Item, o: Observation)
    requires RelayInv(a) && RelayInv(b) && SameButReadings(x, y) && |a.db.observations| == |b.db.observations|
    requires VerdictOf(a, env, parse, x) == VerdictOf(b, env, parse, y) == Verdict.Settle(o)
    requires env.device in a.devices && env.device in b.devices
    requires MatcherAnswer(a, env, x, o) != MatcherAnswer(b, env, y, o)
    ensures !IngestedAlike(a, b, env, parse, x, y)
  {
    IngestBy(a, env, parse, x);
    IngestBy(b, env, parse, y);
    StoredForSettling(a, env, parse, x);
    StoredForSettling(b, env, parse, y);
    hide VerdictOf, RelayInv, IngestTx, RowOf, StoredWith, ProcessTx;
    AnswerIsWritten(StoredWith(a, env, x, Received), RowOf(a, env, x).0, env, o, x.draw);
    AnswerIsWritten(StoredWith(b, env, y, Received), RowOf(b, env, y).0, env, o, y.draw);
    hide FinishTx;
  }

  /** The last observation tells the answer. */
  lemma AnswerIsWritten(w: World, event: Id, env: Env, o: Observation, draw: Draw)
    requires RelayInv(w) && event in w.events && w.events[event].status == Received
    requires w.events[event].device == env.device
    requires Authorized(w, env.device, env.epoch)
    ensures match ProcessTx(w, event, env, o, draw)
      case Err(e) => e.InPayments? && e != InPayments(RelayEventNotFound)
      case Ok(a) =>
        && |a.world.db.observations| == |w.db.observations| + 1
        && var last := a.world.db.observations[|w.db.observations|];
           last.outcome == a.outcome && last.payment == a.payment
  {
    SettlingObserves(w, event, env, o, draw);
    var r := ProcessTx(w, event, env, o, draw);
    if r.Ok? {
      var a, d := r.value, draw;
      ProcessDecides(w, event, env.device, env.epoch, o, d.active, d.processedAt, d.paymentNow, d.rowIds, a);
      hide RelayInv, ProcessTx;
      SettleShape(w.db, event, o, d.active, d.processedAt, d.paymentNow, d.rowIds,
                  Settled(a.world.db, a.outcome, a.payment, a.transitioned));
      hide SettleTx, MatchSet, Confirmed;
    }
  }

  /** One item, two readings: the worlds stay equal but for timestamps and the answers equal, if
      and only if the item is taken alike at both. */
  lemma IngestedAlikeIff(a: World, b: World, env: Env, parse: Parser, x: Item, y: Item)
    requires Twins(a, b) && RelayInv(a) && RelayInv(b) && SameButReadings(x, y)
    ensures IngestedAlike(a, b, env, parse, x, y) <==> TakenAlike(a, b, env, parse, x, y)
  {
    if TakenAlike(a, b, env, parse, x, y) {
      SameVerdictTwins(a, b, env, parse, x, y);
    } else if VerdictOf(a, env, parse, x) == VerdictOf(b, env, parse, y) {
      assert |a.db.observations| == |b.db.observations|;
      hide IngestedAlike;
      OtherAnswersDiffer(a, b, env, parse, x, y, VerdictOf(a, env, parse, x).o);
    } else {
      hide IngestedAlike;
      OtherVerdictsDiffer(a, b, env, parse, x, y);
    }
  }

  // ----- Whole batches -----

  ghost predicate AllSameButReadings(xs: seq<Item>, ys: seq<Item>) {
    |xs| == |ys| && forall i :: 0 <= i < |xs| ==> SameButReadings(xs[i], ys[i])
  }

  /** After the first n items the worlds are twins and the answers equal. */
  ghost predicate AlikeAfter(a: World, b: World, env: Env, parse: Parser, xs: seq<Item>, ys: seq<Item>, n: nat)
    requires n <= |xs| == |ys|
  {
    var r, s := BatchTx(a, env, parse, xs[..n]), BatchTx(b, env, parse, ys[..n]);
    Twins(r.0, s.0) && r.1 == s.1
  }

  ghost predicate AlikeThroughout(a: World, b: World, env: Env, parse: Parser, xs: seq<Item>, ys: seq<Item>)
    requires |xs| == |ys|
  {
    forall n :: 0 <= n <= |xs| ==> AlikeAfter(a, b, env, parse, xs, ys, n)
  }

  /** Every item the batch gets to is taken alike in both runs. */
  ghost predicate TakenAlikeThroughout(a: World, b: World, env: Env, parse: Parser, xs: seq<Item>, ys: seq<Item>)
    requires |xs| == |ys|
    decreases |xs|
  {
    xs == [] ||
    (TakenAlike(a, b, env, parse, xs[0], ys[0])
     && var (next, failed) := IngestTx(a, env, parse, xs[0]);
        failed.Some? || TakenAlikeThroughout(next, IngestTx(b, env, parse, ys[0]).0, env, parse, xs[1..], ys[1..]))
  }

  lemma AlikeAfterHead(a: World, b: World, env: Env, parse: Parser, xs: seq<Item>, ys: seq<Item>, n: nat)
    requires 0 < n <= |xs| == |ys| && IngestedAlike(a, b, env, parse, xs[0], ys[0])
    ensures var (next, failed) := IngestTx(a, env, parse, xs[0]);
      AlikeAfter(a, b, env, parse, xs, ys, n)
      <==> failed.Some? || AlikeAfter(next, IngestTx(b, env, parse, ys[0]).0, env, parse, xs[1..], ys[1..], n - 1)
  {
    hide IngestTx, Twins;
    assert xs[..n][0] == xs[0] && xs[..n][1..] == xs[1..][..n - 1];
    assert ys[..n][0] == ys[0] && ys[..n][1..] == ys[1..][..n - 1];
  }

  lemma AlikeAfterOne(a: World, b: World, env: Env, parse: Parser, xs: seq<Item>, ys: seq<Item>)
    requires 0 < |xs| == |ys|
    ensures AlikeAfter(a, b, env, parse, xs, ys, 1) <==> IngestedAlike(a, b, env, parse, xs[0], ys[0])
  {
    assert xs[..1] == [xs[0]] && ys[..1] == [ys[0]];
    OneMore(a, env, parse, xs[0]);
    OneMore(b, env, parse, ys[0]);
    hide BatchTx, IngestTx, Twins;
  }

  lemma AlikeAtStart(a: World, b: World, env: Env, parse: Parser, xs: seq<Item>, ys: seq<Item>)
    requires Twins(a, b) && |xs| == |ys|
    ensures AlikeAfter(a, b, env, parse, xs, ys, 0)
  {
    assert xs[..0] == [] && ys[..0] == [];
  }

  /** Two batches of the same items at other readings leave equal rows but for timestamps, and the
      same answer, at every boundary between items, if and only if every item they get to is taken
      alike in both. */
  lemma {:induction false} BatchesAlikeIff(a: World, b: World, env: Env, parse: Parser, xs: seq<Item>, ys: seq<Item>)
    requires Twins(a, b) && RelayInv(a) && RelayInv(b) && AllSameButReadings(xs, ys)
    ensures AlikeThroughout(a, b, env, parse, xs, ys) <==> TakenAlikeThroughout(a, b, env, parse, xs, ys)
    decreases |xs|
  {
    AlikeAtStart(a, b, env, parse, xs, ys);
    hide Twins, RelayInv, AlikeAfter, TakenAlike, IngestTx;
    if xs != [] {
      AlikeAfterOne(a, b, env, parse, xs, ys);
      IngestedAlikeIff(a, b, env, parse, xs[0], ys[0]);
      if IngestedAlike(a, b, env, parse, xs[0], ys[0]) {
        var (next, failed) := IngestTx(a, env, parse, xs[0]);
        var other := IngestTx(b, env, parse, ys[0]).0;
        forall n | 0 < n <= |xs|
          ensures AlikeAfter(a, b, env, parse, xs, ys, n)
             <==> failed.Some? || AlikeAfter(next, other, env, parse, xs[1..], ys[1..], n - 1)
        {
          AlikeAfterHead(a, b, env, parse, xs, ys, n);
        }
        if failed.None? {
          NextAlike(a, b, env, parse, xs, ys);
          BatchesAlikeIff(next, other, env, parse, xs[1..], ys[1..]);
          ShiftThroughout(a, b, next, other, env, parse, xs, ys);
        }
      }
    }
  }

  lemma NextAlike(a: World, b: World, env: Env, parse: Parser, xs: seq<Item>, ys: seq<Item>)
    requires RelayInv(a) && RelayInv(b) && xs != [] && AllSameButReadings(xs, ys)
    ensures RelayInv(IngestTx(a, env, parse, xs[0]).0) && RelayInv(IngestTx(b, env, parse, ys[0]).0)
    ensures AllSameButReadings(xs[1..], ys[1..])
  {
    IngestShape(a, env, parse, xs[0]);
    IngestShape(b, env, parse, ys[0]);
    hide RelayInv, IngestTx, SameButReadings;
    forall i | 0 <= i < |xs| - 1 ensures SameButReadings(xs[1..][i], ys[1..][i]) {
      assert SameButReadings(xs[i + 1], ys[i + 1]);
    }
  }

  lemma ShiftThroughout(a: World, b: World, next: World, other: World, env: Env, parse: Parser, xs: seq<Item>,
                        ys: seq<Item>)
    requires 0 < |xs| == |ys| && AlikeAfter(a, b, env, parse, xs, ys, 0)
    requires forall n :: 0 < n <= |xs| ==>
      (AlikeAfter(a, b, env, parse, xs, ys, n) <==> AlikeAfter(next, other, env, parse, xs[1..], ys[1..], n - 1))
    ensures AlikeThroughout(a, b, env, parse, xs, ys) <==> AlikeThroughout(next, other, env, parse, xs[1..], ys[1..])
  {
    hide AlikeAfter;
    if AlikeThroughout(a, b, env, parse, xs, ys) {
      forall n | 0 <= n <= |xs| - 1 ensures AlikeAfter(next, other, env, parse, xs[1..], ys[1..], n) {
        assert AlikeAfter(a, b, env, parse, xs, ys, n + 1);
      }
    }
  }

  // ----- A later retry -----

  /** The item as it would have been ingested at the first attempt's readings. */
  function AtReadingsOf(first: Item, item: Item): Item {
    item.(draw := item.draw.(acceptedAt := first.draw.acceptedAt, processedAt := first.draw.processedAt,
                             paymentNow := first.draw.paymentNow))
  }

  function AllAtReadingsOf(first: seq<Item>, items: seq<Item>): (r: seq<Item>)
    requires |first| == |items|
    ensures |r| == |items|
  {
    seq(|items|, i requires 0 <= i < |items| => AtReadingsOf(first[i], items[i]))
  }

  /** The batch as an uninterrupted first attempt would have ingested it, at its own readings, had
      it drawn the ids and profiles the retry drew from the cut on. */
  function AtFirstReadings(first: seq<Item>, retry: seq<Item>, k: nat, accepted: bool): seq<Item>
    requires k <= |first| == |retry| && (accepted ==> k < |first|)
  {
    first[..k] + AllAtReadingsOf(first[k..], Spliced(first, retry, k, accepted)[k..])
  }

  /** After n items the retry of the cut batch has left what the first attempt would have left,
      timestamps aside, with the same answer. */
  ghost predicate RetryAgrees(w: World, cut: World, env: Env, parse: Parser, first: seq<Item>, retry: seq<Item>,
                              k: nat, accepted: bool, n: nat)
    requires k <= |first| == |retry| && (accepted ==> k < |first|) && n <= |first|
  {
    var r := BatchTx(cut, env, parse, retry[..n]);
    var s := BatchTx(w, env, parse, AtFirstReadings(first, retry, k, accepted)[..n]);
    Twins(r.0, s.0) && r.1 == s.1
  }

  lemma UnseenTwins(a: World, b: World, c: World, device: Id)
    requires Unseen(a, device) == Unseen(b, device)
    ensures Twins(a, c) <==> Twins(b, c)
  {
    UnseenMeans(a, b, device);
    hide Unseen, TableTwins;
    forall d | d in a.devices && d in c.devices
      ensures a.devices[d] == c.devices[d].(lastSeenAt := a.devices[d].lastSeenAt)
         <==> b.devices[d] == c.devices[d].(lastSeenAt := b.devices[d].lastSeenAt)
    {
    }
  }

  /** The first n items of the retry of a cut batch are the retry of the first n items. */
  lemma {:induction false} RetryPrefix(w: World, env: Env, parse: Parser, first: seq<Item>, retry: seq<Item>, k: nat,
                                       accepted: bool, cut: World, n: nat)
    requires RelayInv(w) && SameInputs(first, retry) && CutAt(w, env, parse, first, k, accepted, cut)
    requires var m := if accepted then k + 1 else k; m <= n <= |first| && StillSame(cut, env, retry, m)
    ensures var done := BatchTx(w, env, parse, first[..k]).0;
      var rest := Spliced(first, retry, k, accepted)[k..];
      Alike(BatchTx(cut, env, parse, retry[..n]), BatchTx(done, env, parse, rest[..n - k]), env.device)
  {
    hide RelayInv, BatchTx, Unseen, AcceptItem, SameStored;
    var m := if accepted then k + 1 else k;
    var rest := Spliced(first, retry, k, accepted)[k..];
    assert first[..n][..k] == first[..k] && (accepted ==> first[..n][k] == first[k]);
    assert forall i :: 0 <= i < m ==> retry[..n][i] == retry[i];
    RetryContinues(w, env, parse, first[..n], retry[..n], k, accepted, cut);
    assert Spliced(first[..n], retry[..n], k, accepted) == first[..k] + rest[..n - k];
    BatchSplits(w, env, parse, first[..k], rest[..n - k]);
  }

  /** So the retry agrees after n items when the two rests do. */
  lemma {:induction false} RetryAgreesWhen(w: World, env: Env, parse: Parser, first: seq<Item>, retry: seq<Item>,
                                           k: nat, accepted: bool, cut: World, n: nat)
    requires RelayInv(w) && SameInputs(first, retry) && CutAt(w, env, parse, first, k, accepted, cut)
    requires var m := if accepted then k + 1 else k; m <= n <= |first| && StillSame(cut, env, retry, m)
    ensures var done := BatchTx(w, env, parse, first[..k]).0;
      var rest := Spliced(first, retry, k, accepted)[k..];
      RetryAgrees(w, cut, env, parse, first, retry, k, accepted, n)
      <==> AlikeAfter(done, done, env, parse, rest, AllAtReadingsOf(first[k..], rest), n - k)
  {
    RetryPrefix(w, env, parse, first, retry, k, accepted, cut, n);
    hide RelayInv, BatchTx, Unseen, AcceptItem, StillSame, Twins;
    var done := BatchTx(w, env, parse, first[..k]).0;
    var rest := Spliced(first, retry, k, accepted)[k..];
    var other := AllAtReadingsOf(first[k..], rest);
    assert AtFirstReadings(first, retry, k, accepted)[..n] == first[..k] + other[..n - k];
    BatchSplits(w, env, parse, first[..k], other[..n - k]);
    UnseenTwins(BatchTx(cut, env, parse, retry[..n]).0, BatchTx(done, env, parse, rest[..n - k]).0,
                BatchTx(done, env, parse, other[..n - k]).0, env.device);
  }

  /** What a later retry of a cut batch leaves equals, but for timestamps and at every boundary
      between items, what the first attempt would have left uninterrupted at its own readings, if and
      only if every item from the cut on is taken alike at both readings. */
  lemma {:induction false} LaterRetryAgreesIff(w: World, env: Env, parse: Parser, first: seq<Item>, retry: seq<Item>,
                                               k: nat, accepted: bool, cut: World)
    requires RelayInv(w) && SameInputs(first, retry) && CutAt(w, env, parse, first, k, accepted, cut)
    requires StillSame(cut, env, retry, if accepted then k + 1 else k)
    ensures var m := if accepted then k + 1 else k;
      var done := BatchTx(w, env, parse, first[..k]).0;
      var rest := Spliced(first, retry, k, accepted)[k..];
      (forall n :: m <= n <= |first| ==> RetryAgrees(w, cut, env, parse, first, retry, k, accepted, n))
      <==> TakenAlikeThroughout(done, done, env, parse, rest, AllAtReadingsOf(first[k..], rest))
  {
    var m := if accepted then k + 1 else k;
    var done := BatchTx(w, env, parse, first[..k]).0;
    var rest := Spliced(first, retry, k, accepted)[k..];
    var other := AllAtReadingsOf(first[k..], rest);
    BatchLeavesDone(w, env, parse, first[..k]);
    TwinOfItself(done);
    hide RelayInv, BatchTx, Twins, StillSame, AcceptItem;
    assert AllSameButReadings(rest, other);
    BatchesAlikeIff(done, done, env, parse, rest, other);
    AlikeAtStart(done, done, env, parse, rest, other);
    hide TakenAlikeThroughout, AlikeAfter, RetryAgrees;
    forall n | m <= n <= |first|
      ensures RetryAgrees(w, cut, env, parse, first, retry, k, accepted, n)
         <==> AlikeAfter(done, done, env, parse, rest, other, n - k)
    {
      RetryAgreesWhen(w, env, parse, first, retry, k, accepted, cut, n);
    }
    RetryAgreesThroughout(w, cut, done, env, parse, first, retry, k, accepted, rest, other);
  }

  lemma RetryAgreesThroughout(w: World, cut: World, done: World, env: Env, parse: Parser, first: seq<Item>,
                              retry: seq<Item>, k: nat, accepted: bool, rest: seq<Item>, other: seq<Item>)
    requires k <= |first| == |retry| && (accepted ==> k < |first|) && |rest| == |other| == |first| - k
    requires AlikeAfter(done, done, env, parse, rest, other, 0)
    requires forall n :: (if accepted then k + 1 else k) <= n <= |first| ==>
      (RetryAgrees(w, cut, env, parse, first, retry, k, accepted, n)
       <==> AlikeAfter(done, done, env, parse, rest, other, n - k))
    ensures (forall n :: (if accepted then k + 1 else k) <= n <= |first| ==>
               RetryAgrees(w, cut, env, parse, first, retry, k, accepted, n))
       <==> AlikeThroughout(done, done, env, parse, rest, other)
  {
    hide AlikeAfter, RetryAgrees;
    if forall n :: (if accepted then k + 1 else k) <= n <= |first| ==>
         RetryAgrees(w, cut, env, parse, first, retry, k, accepted, n)
    {
      forall n | 0 <= n <= |rest| ensures AlikeAfter(done, done, env, parse, rest, other, n) {
        if n > 0 { assert RetryAgrees(w, cut, env, parse, first, retry, k, accepted, n + k); }
      }
    }
  }

  // ----- When items are taken alike -----

  /** The verdicts agree when the posting time is equally reliable at both readings, the occurrence
      equally tolerable, and a stored event equally the same or another. */
  lemma VerdictFollowsReadings(a: World, b: World, env: Env, parse: Parser, x: Item, y: Item)
    requires Twins(a, b) && SourcesUnique(a.events) && SourcesUnique(b.events) && SameButReadings(x, y)
    requires Reliable(x.input, x.draw.acceptedAt) == Reliable(x.input, y.draw.acceptedAt)
    requires Reliable(x.input, x.draw.processedAt) == Reliable(x.input, y.draw.processedAt)
    requires parse(x.input).Parsed? ==>
      (Tolerable(parse(x.input).observation, env.epoch, x.draw.processedAt)
       <==> Tolerable(parse(x.input).observation, env.epoch, y.draw.processedAt))
    requires Known(a, env.device, x.input.eventId) ==> (SameStored(a, env, x) <==> SameStored(b, env, y))
    ensures VerdictOf(a, env, parse, x) == VerdictOf(b, env, parse, y)
  {
    KnownTwins(a, b, env.device, x.input.eventId);
    RowTwins(a, b, env, x, y, Received);
    assert Decision(parse, env, x) == Decision(parse, env, y);
    assert Authorized(a, env.device, env.epoch) <==> Authorized(b, env.device, env.epoch);
    assert NewEvent(env.device, env.epoch, x.input, x.draw.acceptedAt).status
        == NewEvent(env.device, env.epoch, y.input, y.draw.acceptedAt).status;
    hide SourcesUnique, SameEvent, SanitizePostedAt, Decision, NewEvent, TableTwins, Authorized;
  }

  /** With equal verdicts an item is taken alike when the filter drops the same instants in both. */
  lemma SameFilterTakesAlike(a: World, b: World, env: Env, parse: Parser, x: Item, y: Item)
    requires Twins(a, b) && RelayInv(a) && RelayInv(b) && SameButReadings(x, y) && SameFilter(a.db, b.db)
    requires VerdictOf(a, env, parse, x) == VerdictOf(b, env, parse, y)
    ensures TakenAlike(a, b, env, parse, x, y)
  {
    if VerdictOf(a, env, parse, x).Settle? {
      UniqueSources(a);
      UniqueSources(b);
      StoredForSettling(a, env, parse, x);
      StoredForSettling(b, env, parse, y);
      StoredTwins(a, b, env, x, y, Received);
      RowTwins(a, b, env, x, y, Received);
      var o := VerdictOf(a, env, parse, x).o;
      MatchTwins(a.db, b.db, o);
      hide VerdictOf, RelayInv, Twins, RowOf, StoredWith, ProcessTx, SameFilter, MatchSet, SourcesUnique;
      SameCandidatesSameAnswer(StoredWith(a, env, x, Received), StoredWith(b, env, y, Received), RowOf(a, env, x).0,
                               env, o, x.draw, y.draw);
    }
  }

  ghost predicate SameFilter(a: Tables, b: Tables) {
    forall p, t :: CancelledAt(a, p, t) <==> CancelledAt(b, p, t)
  }

  lemma MatchTwins(a: Tables, b: Tables, o: Observation)
    requires TableTwins(a, b) && SameFilter(a, b)
    ensures MatchSet(a, o) == MatchSet(b, o)
  {
    hide CancelledAt, HistoryTwins, OutboxTwins, ObservationTwins;
  }

  /** A payment.paid row of this id and instant is read after the status rows of every unpaid
      payment; so it is when the payment clock has moved on since they were written. */
  ghost predicate AppendsLast(db: Tables, id: Id, at: int) {
    forall i :: 0 <= i < |db.history| && db.history[i].payment in db.payments
      && db.payments[db.history[i].payment].status != Paid && HasStatus(db.history[i])
      ==> db.history[i].at < at || (db.history[i].at == at && db.history[i].id <= id)
  }

  lemma RecordKeepsFilter(db: Tables, payment: Id, q: Payment, row: HistoryRow, event: Id)
    requires payment in db.payments && db.payments[payment].status != Paid && row.payment == payment
    requires IsOtherStatus(row) && !IsDirectReopen(row) && AppendsLast(db, row.id, row.at)
    ensures SameFilter(Record(db, payment, q, row, event), db)
  {
    var next := Record(db, payment, q, row, event);
    forall p, t ensures CancelledAt(next, p, t) <==> CancelledAt(db, p, t) {
      AppendHistory(db.history, row, p);
      if p == payment {
        var rows := HistoryOf(db.history, p);
        HistoryOfIsSelection(db.history, p);
        forall i | 0 <= i < |rows| && HasStatus(rows[i]) ensures !Before(row, rows[i]) {
          assert rows[i] in rows && rows[i] in db.history;
        }
        hide HistoryOf, SortRows, Rejected, Record;
        LateExitKeepsVerdict(rows, row, t);
      }
    }
  }

  lemma SameHistorySameFilter(a: Tables, b: Tables)
    requires a.history == b.history
    ensures SameFilter(a, b)
  {
  }

  /** A settlement at a payment clock that has moved on changes no verdict of the filter. */
  lemma SettleKeepsFilter(db: Tables, event: Id, o: Observation, active: Option<string>, receivedAt: int, now: int,
                          ids: RowIds, s: Settled)
    requires SettledAs(db, event, o, active, receivedAt, now, ids, s) && AppendsLast(db, ids.history, now)
    ensures SameFilter(s.db, db)
  {
    hide MatchSet, Confirmed, SameFilter, AppendsLast;
    if s.payment.Some? && db.payments[s.payment.value].status != Paid {
      var payment := s.payment.value;
      var p, attributed := db.payments[payment], o.(profile := db.reservations[payment].profile);
      var row := PaidRow(p, payment, now, ids.history);
      RecordKeepsFilter(db, payment, MarkedPaid(p, attributed), row, ids.event);
      SameHistorySameFilter(s.db, Record(db, payment, MarkedPaid(p, attributed), row, ids.event));
      SameFilterTwice(s.db, Record(db, payment, MarkedPaid(p, attributed), row, ids.event), db);
    } else {
      SameHistorySameFilter(s.db, db);
    }
  }

  lemma SameFilterTwice(a: Tables, b: Tables, c: Tables)
    requires SameFilter(a, b) && SameFilter(b, c)
    ensures SameFilter(a, c)
  {
    hide CancelledAt;
    forall p, t ensures CancelledAt(a, p, t) <==> CancelledAt(c, p, t) {
      assert CancelledAt(a, p, t) <==> CancelledAt(b, p, t);
    }
  }

  /** So as long as the payment clock has moved past the status rows of unpaid payments, ingestion
      leaves the filter as it was, and twins stay alike in it. */
  lemma TimelyItemKeepsFilter(w: World, env: Env, parse: Parser, item: Item)
    requires AppendsLast(w.db, item.draw.rowIds.history, item.draw.paymentNow)
    ensures SameFilter(IngestTx(w, env, parse, item).0.db, w.db)
  {
    IngestBy(w, env, parse, item);
    SameHistorySameFilter(w.db, w.db);
    if env.device in w.devices {
      ObservationsOfStored(w, env, item, EventIgnored);
      ObservationsOfStored(w, env, item, EventAmbiguous);
      ObservationsOfStored(w, env, item, Received);
      FinishStored(w, env, item, EventIgnored);
    }
    if VerdictOf(w, env, parse, item).Settle? {
      var stored, o := StoredWith(w, env, item, Received), VerdictOf(w, env, parse, item).o;
      var r := ProcessTx(stored, RowOf(w, env, item).0, env, o, item.draw);
      hide VerdictOf, IngestTx, ProcessTx, RowOf, StoredWith, AppendsLast, FinishTx, SameFilter;
      if r.Ok? { ProcessKeepsFilter(stored, RowOf(w, env, item).0, env, o, item.draw, r.value); }
    } else {
      hide VerdictOf, IngestTx, ProcessTx, RowOf, StoredWith, AppendsLast, SameFilter;
    }
  }

  lemma ProcessKeepsFilter(w: World, event: Id, env: Env, o: Observation, draw: Draw, a: Applied)
    requires ProcessTx(w, event, env, o, draw) == Ok(a) && AppendsLast(w.db, draw.rowIds.history, draw.paymentNow)
    ensures SameFilter(a.world.db, w.db)
  {
    SameHistorySameFilter(w.db, w.db);
    hide SettleTx, AppendsLast, SameFilter;
    var r := SettleTx(w.db, event, o, draw.active, draw.processedAt, draw.paymentNow, draw.rowIds);
    if a.world.db != w.db {
      SettleShape(w.db, event, o, draw.active, draw.processedAt, draw.paymentNow, draw.rowIds, r.value);
      SettleKeepsFilter(w.db, event, o, draw.active, draw.processedAt, draw.paymentNow, draw.rowIds, r.value);
    }
  }

  /** Every item the batch gets to meets the same verdict in both runs, at payment clocks that have
      moved past the status rows of the payments not paid by then. */
  ghost predicate SameVerdictsInTime(a: World, b: World, env: Env, parse: Parser, xs: seq<Item>, ys: seq<Item>)
    requires |xs| == |ys|
    decreases |xs|
  {
    xs == [] ||
    (VerdictOf(a, env, parse, xs[0]) == VerdictOf(b, env, parse, ys[0])
     && AppendsLast(a.db, xs[0].draw.rowIds.history, xs[0].draw.paymentNow)
     && AppendsLast(b.db, ys[0].draw.rowIds.history, ys[0].draw.paymentNow)
     && var (next, failed) := IngestTx(a, env, parse, xs[0]);
        failed.Some? || SameVerdictsInTime(next, IngestTx(b, env, parse, ys[0]).0, env, parse, xs[1..], ys[1..]))
  }

  /** Then the matcher's answers agree too: the verdicts are all there is to compare. */
  lemma {:induction false} SameVerdictsSuffice(a: World, b: World, env: Env, parse: Parser, xs: seq<Item>,
                                               ys: seq<Item>)
    requires Twins(a, b) && RelayInv(a) && RelayInv(b) && AllSameButReadings(xs, ys) && SameFilter(a.db, b.db)
    requires SameVerdictsInTime(a, b, env, parse, xs, ys)
    ensures TakenAlikeThroughout(a, b, env, parse, xs, ys)
    decreases |xs|
  {
    hide Twins, RelayInv, VerdictOf, IngestTx, AppendsLast, SameFilter, TakenAlike;
    if xs != [] {
      SameFilterTakesAlike(a, b, env, parse, xs[0], ys[0]);
      IngestedAlikeIff(a, b, env, parse, xs[0], ys[0]);
      var (next, failed) := IngestTx(a, env, parse, xs[0]);
      var other := IngestTx(b, env, parse, ys[0]).0;
      if failed.None? {
        NextAlike(a, b, env, parse, xs, ys);
        TimelyItemKeepsFilter(a, env, parse, xs[0]);
        TimelyItemKeepsFilter(b, env, parse, ys[0]);
        SameFilterTwice(next.db, a.db, b.db);
        FilterIsSymmetric(other.db, b.db);
        SameFilterTwice(next.db, b.db, other.db);
        SameVerdictsSuffice(next, other, env, parse, xs[1..], ys[1..]);
      }
    }
  }

  lemma FilterIsSymmetric(a: Tables, b: Tables)
    requires SameFilter(a, b)
    ensures SameFilter(b, a)
  {
  }

  /** The readings do matter: an event posted too far in the future of the first attempt is ignored
      there, but cut after its acceptance and re-sent later it is processed. */
  lemma RetryAtLaterClockMayDiffer(w: World, env: Env, parse: Parser, input: EventInput, first: Draw, retry: Draw)
    requires RelayInv(w) && Authorized(w, env.device, env.epoch) && !Known(w, env.device, input.eventId)
    requires first.newId !in w.events && parse(input).MultipleAmounts? && first.acceptedAt == first.processedAt
    requires YEAR_2020 <= input.postedAtMs && first.processedAt + FUTURE_TOLERANCE < input.postedAtMs
    requires input.postedAtMs <= retry.processedAt + FUTURE_TOLERANCE
    ensures var (x, y) := (Item(input, first), Item(input, retry));
      var whole, resumed := IngestTx(w, env, parse, x).0, IngestTx(w, env, parse, Resumed(x, y)).0;
      && CutAt(w, env, parse, [x], 0, true, AcceptItem(w, env, x).value.world)
      && first.newId in whole.events && whole.events[first.newId].status == EventIgnored
      && first.newId in resumed.events && resumed.events[first.newId].status == EventAmbiguous
  {
    var (x, y) := (Item(input, first), Item(input, retry));
    IngestBy(w, env, parse, x);
    IngestBy(w, env, parse, Resumed(x, y));
    assert [x][..0] == [];
    hide RelayInv;
  }
}
