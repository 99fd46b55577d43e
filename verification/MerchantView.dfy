/** What a merchant learns from webhooks alone: following a payment's events, checking each event
    name against the status before and after, gives what a webhook sends of the stored payment. */
module MerchantView {
  import opened Common
  import opened Domain
  import opened Ledger
  import opened LedgerInvariants

  /** The event names that may report a move from one status to another. */
  predicate Reports(before: Status, kind: EventKind, after: Status) {
    && kind != PaymentCreated
    && (kind == PaymentPaid <==> before != Paid && after == Paid)
    && (kind == PaymentCancelled <==> before == Pending && after == Cancelled)
    && (kind == PaymentExpired <==> before == Pending && after == Expired)
  }

  /** What a webhook sends of a payment; paid_at and the payer only once it is paid. The id and the
      transaction note follow from the row's payment id. */
  datatype Body = Body(
    name: string, externalId: string, status: Status, requested: int, payable: int, metadata: string,
    paidAt: Option<int>, payer: Option<(string, string)>)

  function BodyOf(p: Payment): Body {
    Body(p.name, p.externalId, p.status, p.requested, p.payable, p.metadata, p.paidAt,
         if p.paidAt.Some? then Some((p.payerName, p.payerUpi)) else None)
  }

  /** The payment as the bodies of the webhooks so far describe it; None before its creation or after an event
      that does not report what happened. */
  function Picture(outbox: seq<OutboxRow>, payment: Id): Option<Body> {
    if outbox == [] then None
    else
      var known := Picture(outbox[..|outbox| - 1], payment);
      var last := outbox[|outbox| - 1];
      var body := BodyOf(last.payload);
      if last.payment != payment then known
      else if known.None? then
        if last.kind == PaymentCreated && body.status == Pending then Some(body) else None
      else if Reports(known.value.status, last.kind, body.status) then Some(body)
      else None
  }

  /** The body is what would be sent of the payment now, but for payer fields that were blank and
      that later evidence filled silently. */
  predicate Shows(b: Body, p: Payment) {
    && b.name == p.name && b.externalId == p.externalId && b.status == p.status && b.requested == p.requested
    && b.payable == p.payable && b.metadata == p.metadata && b.paidAt == p.paidAt
    && (b.payer.Some? <==> p.paidAt.Some?)
    && (b.payer.Some? ==>
          && (b.payer.value.0 != "" ==> b.payer.value.0 == p.payerName)
          && (b.payer.value.1 != "" ==> b.payer.value.1 == p.payerUpi))
  }

  /** An update no webhook tells of: it fills blank payer fields at most. */
  predicate Silent(p: Payment, q: Payment) {
    && q == p.(note := q.note, payerName := q.payerName, payerUpi := q.payerUpi)
    && (p.payerName != "" ==> q.payerName == p.payerName) && (p.payerUpi != "" ==> q.payerUpi == p.payerUpi)
  }

  ghost predicate Shown(payments: map<Id, Payment>, outbox: seq<OutboxRow>, payment: Id) {
    if payment in payments
    then Picture(outbox, payment).Some? && Shows(Picture(outbox, payment).value, payments[payment])
    else Picture(outbox, payment).None?
  }

  lemma {:induction false} PictureAfter(outbox: seq<OutboxRow>, row: OutboxRow, payment: Id)
    ensures var known := Picture(outbox, payment);
      Picture(outbox + [row], payment)
      == if row.payment != payment then known
         else if known.None? then
           if row.kind == PaymentCreated && row.payload.status == Pending then Some(BodyOf(row.payload)) else None
         else if Reports(known.value.status, row.kind, row.payload.status) then Some(BodyOf(row.payload))
         else None
  {
    assert (outbox + [row])[..|outbox|] == outbox;
  }

  lemma RecordIsShown(db: Tables, payment: Id, next: Payment, row: HistoryRow, event: Id, p: Id)
    requires Shown(db.payments, db.outbox, p)
    requires payment in db.payments ==>
      if row.onlyNote then Silent(db.payments[payment], next)
      else Reports(db.payments[payment].status, row.kind, next.status)
    requires payment !in db.payments ==> !row.onlyNote && row.kind == PaymentCreated && next.status == Pending
    ensures Shown(Record(db, payment, next, row, event).payments, Record(db, payment, next, row, event).outbox, p)
  {
    PictureAfter(db.outbox, OutboxRow(event, row.kind, payment, next, row.at), p);
  }

  lemma SilentUpdateIsShown(db: Tables, payment: Id, next: Payment, p: Id)
    requires Shown(db.payments, db.outbox, p) && payment in db.payments && Silent(db.payments[payment], next)
    ensures Shown(db.payments[payment := next], db.outbox, p)
  {
  }

  // ----- One transaction at a time -----

  lemma CreateIsShown(db: Tables, key: Key, request: Request, windows: Windows, profile: Option<Profile>,
                      now: int, ids: CreateIds, pick: int, created: Created, p: Id)
    requires Shown(db.payments, db.outbox, p)
    requires CreateTx(db, key, request, windows, profile, now, ids, pick) == Ok(created)
    ensures Shown(created.db.payments, created.db.outbox, p)
  {
    hide Shown;
    if !created.replayed {
      CreateInserts(db, key, request, windows, profile, now, ids, pick, created);
      var row := HistoryRow(ids.rows.history, ids.payment, PaymentCreated, System, None, false, now);
      RecordIsShown(db, ids.payment, created.db.payments[ids.payment], row, ids.rows.event, p);
    }
  }

  lemma CancelIsShown(db: Tables, payment: Id, now: int, ids: RowIds, next: Tables, p: Id)
    requires Shown(db.payments, db.outbox, p) && CancelTx(db, payment, now, ids) == Ok(next)
    ensures Shown(next.payments, next.outbox, p)
  {
    hide Shown;
    if db.payments[payment].status == Pending {
      var row := HistoryRow(ids.history, payment, PaymentCancelled, System, Some(StatusChange(Pending, Cancelled)),
                            false, now);
      RecordIsShown(db, payment, db.payments[payment].(status := Cancelled), row, ids.event, p);
    }
  }

  lemma {:induction false} ExpiryIsShown(db: Tables, due: seq<Id>, now: int, ids: seq<RowIds>, next: Tables, count: nat,
                                         p: Id)
    requires Shown(db.payments, db.outbox, p) && ExpireAll(db, due, now, ids) == Ok((next, count))
    ensures Shown(next.payments, next.outbox, p)
    decreases |due|
  {
    hide Shown;
    if due == [] {
    } else if !IsDue(db.payments, due[0], now) {
      ExpiryIsShown(db, due[1..], now, ids, next, count, p);
    } else {
      ExpireAllUnfold(db, due, now, ids, next, count);
      var row := HistoryRow(ids[0].history, due[0], PaymentExpired, System, Some(StatusChange(Pending, Expired)),
                            false, now);
      RecordIsShown(db, due[0], db.payments[due[0]].(status := Expired), row, ids[0].event, p);
      hide ExpireAll;
      ExpiryIsShown(ExpireOne(db, due[0], now, ids[0]), due[1..], now, ids[1..], next, count - 1, p);
    }
  }

  lemma NoteIsInvisible(p: Payment, q: Payment)
    requires ChangedFields(p, q) == {NoteField} && SameIdentity(p, q)
    ensures Silent(p, q)
  {
    assert forall f :: f in ALL_FIELDS && f != NoteField ==> !Differs(p, q, f) by {
      forall f | f in ALL_FIELDS && f != NoteField ensures !Differs(p, q, f) {
        assert f !in ChangedFields(p, q);
      }
    }
    assert !Differs(p, q, NameField) && !Differs(p, q, ExternalIdField) && !Differs(p, q, MetadataField);
    assert !Differs(p, q, StatusField) && !Differs(p, q, PaidAtField);
  }

  lemma EditIsShown(db: Tables, payment: Id, e: EditInput, now: int, ids: RowIds, next: Tables, p: Id)
    requires Shown(db.payments, db.outbox, p) && EditTx(db, payment, e, now, ids) == Ok(next)
    ensures Shown(next.payments, next.outbox, p)
  {
    hide Shown, Trim, ToLower, ByteLength;
    var before := db.payments[payment];
    var q := EditedPayment(before, e, now);
    var changes := ChangedFields(before, q);
    if changes != {} {
      var row := HistoryRow(ids.history, payment, OperatorEvent(before.status, q.status), Admin, ChangeOf(before, q),
                            changes == {NoteField}, now);
      if changes == {NoteField} { NoteIsInvisible(before, q); }
      RecordIsShown(db, payment, q, row, ids.event, p);
    }
  }

  lemma SettlementIsShown(db: Tables, event: Id, o: Observation, active: Option<string>, receivedAt: int,
                          now: int, ids: RowIds, s: Settled, p: Id)
    requires Shown(db.payments, db.outbox, p) && SettledAs(db, event, o, active, receivedAt, now, ids, s)
    ensures Shown(s.db.payments, s.db.outbox, p)
  {
    hide Shown, MatchSet;
    if s.payment.Some? {
      var payment := s.payment.value;
      var before, attributed := db.payments[payment], o.(profile := db.reservations[payment].profile);
      if before.status == Paid {
        SilentUpdateIsShown(db, payment, Enriched(before, attributed), p);
      } else {
        var row := HistoryRow(ids.history, payment, PaymentPaid, System, Some(StatusChange(before.status, Paid)), false,
                              now);
        RecordIsShown(db, payment, MarkedPaid(before, attributed), row, ids.event, p);
      }
    }
  }

  lemma StepIsShown(db: Tables, step: Step, p: Id)
    requires Shown(db.payments, db.outbox, p)
    ensures Shown(Apply(db, step).payments, Apply(db, step).outbox, p)
  {
    hide Shown;
    match step
    case Create(input, windows, profile, now, ids, pick) =>
      hide CreateTx;
      if NormalizeCreate(input).Ok? {
        var (key, request) := NormalizeCreate(input).value;
        var r := CreateTx(db, key, request, windows, profile, now, ids, pick);
        if r.Ok? { CreateIsShown(db, key, request, windows, profile, now, ids, pick, r.value, p); }
      }
    case Cancel(payment, now, ids) =>
      hide CancelTx;
      var r := CancelTx(db, payment, now, ids);
      if r.Ok? { CancelIsShown(db, payment, now, ids, r.value, p); }
    case ExpireDue(limit, now, ids) =>
      var due := InDueOrder(db.payments, DueSet(db.payments, now), ClampLimit(limit));
      var r := ExpireAll(db, due, now, ids);
      hide ExpireAll;
      if r.Ok? { ExpiryIsShown(db, due, now, ids, r.value.0, r.value.1, p); }
    case Edit(payment, e, now, ids) =>
      hide EditTx;
      var r := EditTx(db, payment, e, now, ids);
      if r.Ok? { EditIsShown(db, payment, e, now, ids, r.value, p); }
    case Settle(event, o, active, receivedAt, now, ids) =>
      hide SettleTx;
      var r := SettleTx(db, event, o, active, receivedAt, now, ids);
      if r.Ok? {
        SettleShape(db, event, o, active, receivedAt, now, ids, r.value);
        SettlementIsShown(db, event, o, active, receivedAt, now, ids, r.value, p);
      }
  }

  /** No step of any run, at any clock readings, breaks the picture of a payment, whatever the
      database holds of others. */
  lemma {:induction false} RunIsShown(db: Tables, steps: seq<Step>, p: Id)
    requires Shown(db.payments, db.outbox, p)
    ensures Shown(Run(db, steps).payments, Run(db, steps).outbox, p)
    decreases |steps|
  {
    hide Shown, Apply;
    if steps != [] {
      StepIsShown(db, steps[0], p);
      RunIsShown(Apply(db, steps[0]), steps[1..], p);
    }
  }

  lemma {:induction false} NoPicture(outbox: seq<OutboxRow>, p: Id)
    requires forall i :: 0 <= i < |outbox| ==> outbox[i].payment != p
    ensures Picture(outbox, p).None?
  {
    if outbox != [] {
      NoPicture(outbox[..|outbox| - 1], p);
      assert outbox[|outbox| - 1].payment != p;
    }
  }

  /** On every run from any database, at any clock readings, the webhooks of a payment of the run
      start with its creation, each names the status change it reports, and the last one's body is
      what a webhook would now send of the stored payment, but for silently added payer fields. */
  lemma {:induction false} WebhooksTellTheState(base: Tables, steps: seq<Step>, payment: Id)
    requires Unnamed(base, payment)
    ensures var db := Run(base, steps);
      if payment in db.payments
      then Picture(db.outbox, payment).Some? && Shows(Picture(db.outbox, payment).value, db.payments[payment])
      else Picture(db.outbox, payment).None?
  {
    hide Run;
    NoPicture(base.outbox, payment);
    RunIsShown(base, steps, payment);
  }

  /** From an empty database, of every payment. */
  lemma {:induction false} EmptyStartIsShown(steps: seq<Step>)
    ensures var db := Run(EMPTY, steps); forall p :: Shown(db.payments, db.outbox, p)
  {
    hide Run;
    forall p ensures Shown(Run(EMPTY, steps).payments, Run(EMPTY, steps).outbox, p) {
      WebhooksTellTheState(EMPTY, steps, p);
    }
  }
}
