/** The payment transactions as functions on a snapshot of the tables. Each function is what
    one committed BEGIN IMMEDIATE transaction does; Err stands for a rolled-back one. */
module Ledger {
  import opened Common
  import opened Domain
  import opened Cancellation
  import opened History
  import opened Allocator

  // ----- Tables -----

  datatype Key = Key(scope: string, key: string)

  /** The part of a create request its fingerprint covers. */
  datatype Request = Request(amount: int, name: string, externalId: string, metadata: string)

  datatype KeyRow = KeyRow(request: Request, payment: Id, createdAt: int, expiresAt: int)

  datatype Tables = Tables(
    payments: map<Id, Payment>,
    reservations: map<Id, Reservation>,  // by payment: payment_id is UNIQUE
    history: seq<HistoryRow>,
    outbox: seq<OutboxRow>,
    keys: map<Key, KeyRow>,
    observations: seq<ObservationRow>)

  const IDEMPOTENCY_TTL: int := 24 * 60 * 60 * 1000

  datatype Profile = Profile(id: string, upiId: string, payee: string)

  /** Ids drawn for one history row and one webhook. */
  datatype RowIds = RowIds(history: Id, event: Id)

  predicate FreshHistory(history: seq<HistoryRow>, id: Id) {
    forall i :: 0 <= i < |history| ==> history[i].id != id
  }

  predicate FreshEvent(outbox: seq<OutboxRow>, id: Id) {
    forall i :: 0 <= i < |outbox| ==> outbox[i].id != id
  }

  /** Stores a changed payment with its history row and, unless only the note changed, its webhook. */
  function Record(db: Tables, payment: Id, next: Payment, row: HistoryRow, event: Id): Tables {
    db.(payments := db.payments[payment := next],
        history := db.history + [row],
        outbox := if row.onlyNote then db.outbox
                  else db.outbox + [OutboxRow(event, row.kind, payment, next, row.at)])
  }

  /** Record guarded by the two primary keys. */
  function Append(db: Tables, payment: Id, next: Payment, row: HistoryRow, event: Id): Result<Tables, Failure> {
    if FreshHistory(db.history, row.id) && (row.onlyNote || FreshEvent(db.outbox, event))
    then Ok(Record(db, payment, next, row, event))
    else Err(StorageConstraint)
  }

  // ----- Create -----

  datatype Metadata = Malformed | Canonical(json: string)

  datatype CreateInput = CreateInput(
    requested: int, name: string, externalId: string, metadata: Metadata, scope: string, key: string)

  datatype Windows = Windows(active: int, grace: int, quarantine: int)

  datatype CreateIds = CreateIds(payment: Id, rows: RowIds)

  datatype Created = Created(db: Tables, payment: Id, replayed: bool)

  const DEFAULT_WINDOW: int := 5 * 60 * 1000

  function PositiveOr(value: int, fallback: int): int {
    if value <= 0 then fallback else value
  }

  function NormalizeCreate(input: CreateInput): Result<(Key, Request), Failure> {
    var name, externalId := Trim(input.name), Trim(input.externalId);
    var scope, key := Trim(input.scope), Trim(input.key);
    if input.requested <= 0 || input.requested % 100 != 0 || input.requested > MAX_INT64 - 199
      || name == "" || |name| > 120 || ByteLength(externalId) > 255
      || scope == "" || ByteLength(scope) > 120 || key == "" || ByteLength(key) > 255
      || input.metadata.Malformed?
    then Err(InvalidPaymentInput)
    else Ok((Key(scope, key), Request(input.requested, name, externalId, input.metadata.json)))
  }

  function Purge(keys: map<Key, KeyRow>, now: int): map<Key, KeyRow> {
    map k | k in keys && !(keys[k].expiresAt <= now) :: keys[k]
  }

  function NewPayment(request: Request, payable: int, profile: Profile, windows: Windows, now: int): Payment {
    var expires := now + PositiveOr(windows.active, DEFAULT_WINDOW);
    var grace := expires + PositiveOr(windows.grace, DEFAULT_WINDOW);
    var reuse := grace + PositiveOr(windows.quarantine, DEFAULT_WINDOW);
    Payment(request.name, request.externalId, request.metadata, request.amount, payable, payable - request.amount,
            Pending, profile.id, profile.upiId, profile.payee, now, expires, grace, reuse, None, "", "", "")
  }

  /** The CHECK constraints of the payments table. */
  predicate PaymentChecks(p: Payment) {
    && 0 < p.requested && p.requested % 100 == 0
    && p.requested < p.payable && p.payable % 100 != 0
    && 1 <= p.adjustment <= 599 && p.payable == p.requested + p.adjustment
    && p.createdAt < p.expiresAt < p.graceUntil < p.reuseAfter
    && (p.status == Paid <==> p.paidAt.Some?)
  }

  function CreateTx(db: Tables, key: Key, request: Request, windows: Windows, profile: Option<Profile>,
                    now: int, ids: CreateIds, pick: int): Result<Created, Failure>
  {
    var keys := Purge(db.keys, now);
    if key in keys then
      if keys[key].request != request then Err(IdempotencyConflict)
      else if keys[key].payment !in db.payments then Err(StorageConstraint)
      else Ok(Created(db.(keys := keys), keys[key].payment, true))
    else if profile.None? then Err(NoActiveProfile)
    else if profile.value.id == "" then Err(StorageConstraint)
    else
      var reservations := Release(db.reservations, now);
      match SelectFrom(reservations, request.amount, now - SOFT_HORIZON, 0, pick)
      case Err(e) => Err(e)
      case Ok(payable) =>
        var p := NewPayment(request, payable, profile.value, windows, now);
        if !PaymentChecks(p) || ids.payment in db.payments || ids.payment in reservations || Held(reservations, payable)
        then Err(StorageConstraint)
        else
          var reserved := db.(
            reservations := reservations[ids.payment := Reservation(p.profile, payable, now, p.reuseAfter, None, now)],
            keys := keys[key := KeyRow(request, ids.payment, now, now + IDEMPOTENCY_TTL)]);
          var row := HistoryRow(ids.rows.history, ids.payment, PaymentCreated, System, None, false, now);
          match Append(reserved, ids.payment, p, row, ids.rows.event)
          case Err(e) => Err(e)
          case Ok(next) => Ok(Created(next, ids.payment, false))
  }

  // ----- Cancel and ExpireDue -----

  function CancelTx(db: Tables, payment: Id, now: int, ids: RowIds): Result<Tables, Failure> {
    if payment !in db.payments then Err(PaymentNotFound)
    else
      var p := db.payments[payment];
      match p.status
      case Cancelled => Ok(db)
      case Paid => Err(PaymentTerminal)
      case Expired => Err(PaymentTerminal)
      case Pending =>
        Append(db, payment, p.(status := Cancelled),
               HistoryRow(ids.history, payment, PaymentCancelled, System, Some(StatusChange(Pending, Cancelled)),
                          false, now),
               ids.event)
  }

  predicate IsDue(payments: map<Id, Payment>, payment: Id, now: int) {
    payment in payments && payments[payment].status == Pending && payments[payment].graceUntil <= now
  }

  function DueSet(payments: map<Id, Payment>, now: int): set<Id> {
    set p | p in payments && IsDue(payments, p, now)
  }

  /** ORDER BY grace_until, id */
  predicate DueBefore(payments: map<Id, Payment>, a: Id, b: Id)
    requires a in payments && b in payments
  {
    payments[a].graceUntil < payments[b].graceUntil || (payments[a].graceUntil == payments[b].graceUntil && a < b)
  }

  ghost predicate IsEarliest(payments: map<Id, Payment>, due: set<Id>, p: Id)
    requires due <= payments.Keys
  {
    p in due && forall q :: q in due && q != p ==> DueBefore(payments, p, q)
  }

  lemma {:induction false} EarliestExists(payments: map<Id, Payment>, due: set<Id>)
    requires due <= payments.Keys && due != {}
    ensures exists p :: IsEarliest(payments, due, p)
  {
    var p :| p in due;
    if due == {p} {
      assert IsEarliest(payments, due, p);
    } else {
      EarliestExists(payments, due - {p});
      var q :| IsEarliest(payments, due - {p}, q);
      if DueBefore(payments, p, q) {
        forall x | x in due && x != p ensures DueBefore(payments, p, x) {
          assert x in due - {p};
        }
        assert IsEarliest(payments, due, p);
      } else {
        assert IsEarliest(payments, due, q);
      }
    }
  }

  ghost function Earliest(payments: map<Id, Payment>, due: set<Id>): (p: Id)
    requires due <= payments.Keys && due != {}
    ensures IsEarliest(payments, due, p)
  {
    EarliestExists(payments, due);
    var p :| IsEarliest(payments, due, p);
    p
  }

  /** The first n payments of a set in (grace_until, id) order. */
  ghost function InDueOrder(payments: map<Id, Payment>, due: set<Id>, n: nat): seq<Id>
    requires due <= payments.Keys
  {
    if due == {} || n == 0 then []
    else var p := Earliest(payments, due); [p] + InDueOrder(payments, due - {p}, n - 1)
  }

  function ExpireAll(db: Tables, due: seq<Id>, now: int, ids: seq<RowIds>): Result<(Tables, nat), Failure>
    decreases |due|
  {
    if due == [] then Ok((db, 0))
    else if !IsDue(db.payments, due[0], now) then ExpireAll(db, due[1..], now, ids)
    else if ids == [] then Err(StorageConstraint)
    else
      var row := HistoryRow(ids[0].history, due[0], PaymentExpired, System, Some(StatusChange(Pending, Expired)),
                            false, now);
      match Append(db, due[0], db.payments[due[0]].(status := Expired), row, ids[0].event)
      case Err(e) => Err(e)
      case Ok(next) =>
        match ExpireAll(next, due[1..], now, ids[1..])
        case Err(e) => Err(e)
        case Ok((last, count)) => Ok((last, count + 1))
  }

  ghost function ExpireTx(db: Tables, limit: int, now: int, ids: seq<RowIds>): Result<(Tables, nat), Failure> {
    ExpireAll(db, InDueOrder(db.payments, DueSet(db.payments, now), ClampLimit(limit)), now, ids)
  }

  // ----- Operator edit -----

  datatype EditInput = EditInput(
    name: Option<string>, externalId: Option<string>, metadata: Option<Metadata>, status: Option<string>,
    payerName: Option<string>, payerUpi: Option<string>, paidAt: Option<int>, note: Option<string>)

  datatype Field = NameField | ExternalIdField | MetadataField | StatusField
                 | PayerNameField | PayerUpiField | PaidAtField | NoteField

  datatype Edited = Edited(next: Payment, changes: set<Field>)

  function ParseStatus(text: string): Option<Status> {
    var value := ToLower(Trim(text));
    if value == "pending" then Some(Pending)
    else if value == "paid" then Some(Paid)
    else if value == "expired" then Some(Expired)
    else if value == "cancelled" then Some(Cancelled)
    else None
  }

  /** A submitted text, trimmed, or the current one. */
  function Text(submitted: Option<string>, current: string): string {
    if submitted.Some? then Trim(submitted.value) else current
  }

  predicate EditAccepted(p: Payment, e: EditInput) {
    && (e.name.Some? ==> 1 <= |Trim(e.name.value)| <= 120)
    && (e.externalId.Some? ==> ByteLength(Trim(e.externalId.value)) <= 255)
    && (e.metadata.Some? ==> e.metadata.value.Canonical?)
    && (e.status.Some? ==> ParseStatus(e.status.value).Some?)
    && (e.payerName.Some? ==> |Trim(e.payerName.value)| <= 255)
    && (e.payerUpi.Some? ==> |Trim(e.payerUpi.value)| <= 255)
    && (e.note.Some? ==> |Trim(e.note.value)| <= 4000)
    && (e.paidAt.Some? ==> EditedStatus(p, e) == Paid)
  }

  function EditedStatus(p: Payment, e: EditInput): Status {
    if e.status.Some? && ParseStatus(e.status.value).Some? then ParseStatus(e.status.value).value else p.status
  }

  /** The payment after an accepted edit: paid_at is kept, taken from the operator or from the
      clock while the status is paid, and dropped otherwise. */
  function EditedPayment(p: Payment, e: EditInput, now: int): Payment {
    var status := EditedStatus(p, e);
    p.(name := Text(e.name, p.name),
       externalId := Text(e.externalId, p.externalId),
       metadata := if e.metadata.Some? && e.metadata.value.Canonical? then e.metadata.value.json else p.metadata,
       status := status,
       payerName := Text(e.payerName, p.payerName),
       payerUpi := Text(e.payerUpi, p.payerUpi),
       note := Text(e.note, p.note),
       paidAt := if status != Paid then None
                 else if e.paidAt.Some? then e.paidAt
                 else if p.paidAt.Some? then p.paidAt
                 else Some(now))
  }

  predicate Differs(p: Payment, q: Payment, f: Field) {
    match f
    case NameField => p.name != q.name
    case ExternalIdField => p.externalId != q.externalId
    case MetadataField => p.metadata != q.metadata
    case StatusField => p.status != q.status
    case PayerNameField => p.payerName != q.payerName
    case PayerUpiField => p.payerUpi != q.payerUpi
    case PaidAtField => p.paidAt != q.paidAt
    case NoteField => p.note != q.note
  }

  const ALL_FIELDS: set<Field> :=
    {NameField, ExternalIdField, MetadataField, StatusField, PayerNameField, PayerUpiField, PaidAtField, NoteField}

  function ChangedFields(p: Payment, q: Payment): set<Field> {
    set f | f in ALL_FIELDS && Differs(p, q, f)
  }

  function OperatorEvent(from: Status, to: Status): EventKind {
    if from == to then PaymentUpdated
    else match to
      case Paid => PaymentPaid
      case Cancelled => if from == Pending then PaymentCancelled else PaymentUpdated
      case Expired => if from == Pending then PaymentExpired else PaymentUpdated
      case Pending => PaymentUpdated
  }

  function ChangeOf(p: Payment, q: Payment): Option<StatusChange> {
    if p.status == q.status then None else Some(StatusChange(p.status, q.status))
  }

  function EditTx(db: Tables, payment: Id, e: EditInput, now: int, ids: RowIds): Result<Tables, Failure> {
    if payment !in db.payments then Err(PaymentNotFound)
    else
      var p := db.payments[payment];
      if !EditAccepted(p, e) then Err(InvalidEdit)
      else
        var q := EditedPayment(p, e, now);
        var changes := ChangedFields(p, q);
        if changes == {} then Ok(db)
        else if p.status != Pending && q.status == Pending && now >= p.reuseAfter then Err(UnsafeReopen)
        else if p.status != Pending && q.status == Pending && payment !in db.reservations then Err(StorageConstraint)
        else if p.status != Pending && q.status == Pending && db.reservations[payment].releasedAt.Some?
        then Err(UnsafeReopen)
        else
          var row := HistoryRow(ids.history, payment, OperatorEvent(p.status, q.status), Admin, ChangeOf(p, q),
                                changes == {NoteField}, now);
          Append(db, payment, q, row, ids.event)
  }

  // ----- Matching an observation -----

  predicate ValidObservation(o: Observation) {
    && o.amount > 0 && o.amount % 100 != 0 && o.occurredAt != ZERO_INSTANT
    && (o.source == PaytmNotification ==> Trim(o.profile) == "paytm")
  }

  /** The matcher's reservation query: exact amount, an instant inside the window, and for the
      Paytm source the profile. */
  predicate InWindow(db: Tables, payment: Id, o: Observation) {
    && payment in db.reservations && payment in db.payments
    && db.reservations[payment].payable == o.amount
    && db.payments[payment].createdAt <= o.occurredAt <= db.reservations[payment].reservedUntil
    && (db.reservations[payment].releasedAt.Some? ==> db.reservations[payment].releasedAt.value >= o.occurredAt)
    && (o.source == PaytmNotification ==> db.reservations[payment].profile == o.profile)
  }

  ghost predicate CancelledAt(db: Tables, payment: Id, instant: int) {
    Rejected(SortRows(HistoryOf(db.history, payment)), instant)
  }

  ghost function MatchSet(db: Tables, o: Observation): set<Id> {
    set p | p in db.reservations && InWindow(db, p, o) && !CancelledAt(db, p, o.occurredAt)
  }

  predicate Confirmed(observations: seq<ObservationRow>, payment: Id) {
    exists i :: 0 <= i < |observations| && observations[i].payment == Some(payment)
             && observations[i].outcome in {Matched, Corroborated}
  }

  predicate Observed(observations: seq<ObservationRow>, event: Id) {
    exists i :: 0 <= i < |observations| && observations[i].event == event
  }

  datatype Settled = Settled(db: Tables, outcome: MatchOutcome, payment: Option<Id>, transitioned: bool)

  /** Later evidence for a payment that is already paid only fills blank payer fields. */
  function Enriched(p: Payment, o: Observation): Payment {
    p.(payerName := if p.payerName == "" then o.payerName else p.payerName,
       payerUpi := if p.payerUpi == "" then o.payerUpi else p.payerUpi)
  }

  function MarkedPaid(p: Payment, o: Observation): Payment {
    p.(status := Paid, paidAt := Some(o.occurredAt),
       payerName := if o.payerName != "" then o.payerName else p.payerName,
       payerUpi := if o.payerUpi != "" then o.payerUpi else p.payerUpi)
  }

  /** applyMatchedPayment */
  function ConfirmTx(db: Tables, payment: Id, o: Observation, now: int, ids: RowIds): Result<(Tables, bool), Failure>
    requires payment in db.payments
  {
    var p := db.payments[payment];
    if p.status == Paid then Ok((db.(payments := db.payments[payment := Enriched(p, o)]), false))
    else
      var row := HistoryRow(ids.history, payment, PaymentPaid, System, Some(StatusChange(p.status, Paid)), false, now);
      match Append(db, payment, MarkedPaid(p, o), row, ids.event)
      case Err(e) => Err(e)
      case Ok(next) => Ok((next, true))
  }

  /** The observation row, attributed to a profile; the event may have only one. */
  function Observe(db: Tables, event: Id, o: Observation, active: Option<string>, receivedAt: int,
                   payment: Option<Id>, outcome: MatchOutcome): Result<Tables, Failure>
  {
    if Trim(o.profile) == "" && active.None? then Err(InvalidObservation)
    else if Observed(db.observations, event) then Err(StorageConstraint)
    else
      var attributed := if Trim(o.profile) == "" then o.(profile := active.value) else o;
      Ok(db.(observations := db.observations + [ObservationRow(event, attributed, receivedAt, payment, outcome)]))
  }

  /** applyObservation from the candidate query on, for an event that has no observation yet. */
  ghost function SettleTx(db: Tables, event: Id, o: Observation, active: Option<string>, receivedAt: int,
                          now: int, ids: RowIds): Result<Settled, Failure>
  {
    if !ValidObservation(o) then Err(InvalidObservation)
    else
      var candidates := MatchSet(db, o);
      if |candidates| == 1 then
        var payment :| payment in candidates;
        var attributed := o.(profile := db.reservations[payment].profile);
        var outcome := if db.payments[payment].status == Paid && Confirmed(db.observations, payment)
                       then Corroborated else Matched;
        match ConfirmTx(db, payment, attributed, now, ids)
        case Err(e) => Err(e)
        case Ok((next, transitioned)) =>
          match Observe(next, event, attributed, active, receivedAt, Some(payment), outcome)
          case Err(e) => Err(e)
          case Ok(last) => Ok(Settled(last, outcome, Some(payment), transitioned))
      else
        var outcome := if |candidates| > 1 then Ambiguous else Unmatched;
        match Observe(db, event, o, active, receivedAt, None, outcome)
        case Err(e) => Err(e)
        case Ok(last) => Ok(Settled(last, outcome, None, false))
  }

  // ----- Runs -----

  datatype Step =
    | Create(input: CreateInput, windows: Windows, profile: Option<Profile>, now: int, createIds: CreateIds, pick: int)
    | Cancel(payment: Id, now: int, rowIds: RowIds)
    | ExpireDue(limit: int, now: int, expireIds: seq<RowIds>)
    | Edit(payment: Id, edit: EditInput, now: int, rowIds: RowIds)
    | Settle(event: Id, observation: Observation, active: Option<string>, receivedAt: int, now: int, rowIds: RowIds)

  /** The tables after one service call; a refused call changes nothing. */
  ghost function Apply(db: Tables, step: Step): Tables {
    match step
    case Create(input, windows, profile, now, ids, pick) =>
      (match NormalizeCreate(input)
       case Err(_) => db
       case Ok((key, request)) =>
         var r := CreateTx(db, key, request, windows, profile, now, ids, pick);
         if r.Ok? then r.value.db else db)
    case Cancel(payment, now, ids) =>
      var r := CancelTx(db, payment, now, ids); if r.Ok? then r.value else db
    case ExpireDue(limit, now, ids) =>
      var r := ExpireTx(db, limit, now, ids); if r.Ok? then r.value.0 else db
    case Edit(payment, e, now, ids) =>
      var r := EditTx(db, payment, e, now, ids); if r.Ok? then r.value else db
    case Settle(event, o, active, receivedAt, now, ids) =>
      var r := SettleTx(db, event, o, active, receivedAt, now, ids); if r.Ok? then r.value.db else db
  }

  ghost function Run(db: Tables, steps: seq<Step>): Tables
    decreases |steps|
  {
    if steps == [] then db else Run(Apply(db, steps[0]), steps[1..])
  }

  /** The latest reading a create has committed with; no other step dates a window or a key. */
  function ClockAfter(clock: int, step: Step): int {
    if step.Create? then step.now else clock
  }

  /** The clock readings of the creates never decrease and start no earlier than clock. */
  ghost predicate ClockForward(clock: int, steps: seq<Step>)
    decreases |steps|
  {
    steps == [] || (clock <= ClockAfter(clock, steps[0]) && ClockForward(ClockAfter(clock, steps[0]), steps[1..]))
  }

  /** No row names the payment. */
  ghost predicate Unnamed(db: Tables, p: Id) {
    && p !in db.payments
    && (forall i :: 0 <= i < |db.history| ==> db.history[i].payment != p)
    && (forall i :: 0 <= i < |db.outbox| ==> db.outbox[i].payment != p)
    && (forall i :: 0 <= i < |db.observations| ==> db.observations[i].payment != Some(p))
  }

  const EMPTY: Tables := Tables(map[], map[], [], [], map[], [])
}
