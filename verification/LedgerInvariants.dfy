/** Invariants of the payment tables, and their preservation by every transaction under a
    clock that does not run backwards between the commits of creates. */
module LedgerInvariants {
  import opened Common
  import opened Domain
  import opened History
  import opened Allocator
  import opened Ledger

  // ----- The invariants -----

  /** A reservation mirrors its payment and is released no earlier than its window ends. */
  predicate Backed(p: Payment, r: Reservation) {
    && r.profile == p.profile && r.payable == p.payable
    && r.reservedAt == p.createdAt && r.lastUsedAt == p.createdAt && r.reservedUntil == p.reuseAfter
    && (r.releasedAt.Some? ==> r.releasedAt.value >= r.reservedUntil)
  }

  ghost predicate RowsOk(db: Tables) {
    && (forall p :: p in db.payments <==> p in db.reservations)
    && (forall p :: p in db.payments ==> PaymentChecks(db.payments[p]))
    && (forall p :: p in db.payments ==> Backed(db.payments[p], db.reservations[p]))
  }

  /** No reservation was released after the last create. */
  ghost predicate ClockOk(db: Tables, clock: int) {
    forall p :: p in db.reservations && db.reservations[p].releasedAt.Some? ==>
      db.reservations[p].releasedAt.value <= clock
  }

  ghost predicate UniqueHeld(res: Reservations) {
    forall p, q :: p in res && q in res && p != q && res[p].releasedAt.None? && res[q].releasedAt.None?
      ==> res[p].payable != res[q].payable
  }

  predicate Apart(r: Reservation, s: Reservation) {
    r.reservedUntil <= s.reservedAt || s.reservedUntil <= r.reservedAt
  }

  /** The windows of two reservations of one amount meet in at most one instant, unless both are
      among the given payments. */
  ghost predicate ApartSince(res: Reservations, given: set<Id>) {
    forall p, q :: p in res && q in res && p != q && !(p in given && q in given) && res[p].payable == res[q].payable
      ==> Apart(res[p], res[q])
  }

  /** What keeps amounts apart: it needs no history, outbox or key, so it also holds of a database
      filled by other means, such as an import, with all its payments given. */
  ghost predicate WindowsOk(db: Tables, given: set<Id>, clock: int) {
    RowsOk(db) && ClockOk(db, clock) && UniqueHeld(db.reservations) && ApartSince(db.reservations, given)
  }

  /** Replaying a payment's history from Pending links and ends in the stored status. */
  ghost predicate HistoryOk(payments: map<Id, Payment>, history: seq<HistoryRow>) {
    && (forall i :: 0 <= i < |history| ==> RowWellFormed(history[i]) && history[i].payment in payments)
    && (forall p {:trigger Replay(HistoryOf(history, p))} :: p in payments ==>
          Replay(HistoryOf(history, p)) == Some(payments[p].status))
  }

  /** The outbox announces exactly the history, note-only edits aside, in the same order. */
  ghost predicate OutboxOk(history: seq<HistoryRow>, outbox: seq<OutboxRow>) {
    Announced(history) == Published(outbox)
  }

  ghost predicate KeysOk(payments: map<Id, Payment>, keys: map<Key, KeyRow>, clock: int) {
    forall k :: k in keys ==>
      && keys[k].payment in payments
      && keys[k].createdAt == payments[keys[k].payment].createdAt <= clock
      && keys[k].expiresAt == keys[k].createdAt + IDEMPOTENCY_TTL
      && keys[k].request.amount == payments[keys[k].payment].requested
  }

  ghost predicate ObservationsOk(payments: map<Id, Payment>, observations: seq<ObservationRow>) {
    && (forall i, j :: 0 <= i < j < |observations| ==> observations[i].event != observations[j].event)
    && (forall i :: 0 <= i < |observations| ==>
          && (observations[i].payment.Some? <==> observations[i].outcome in {Matched, Corroborated})
          && (observations[i].payment.Some? ==> observations[i].payment.value in payments))
  }

  ghost predicate Inv(db: Tables, clock: int) {
    match db
    case Tables(payments, _, history, outbox, keys, observations) =>
      && WindowsOk(db, {}, clock)
      && HistoryOk(payments, history)
      && OutboxOk(history, outbox)
      && KeysOk(payments, keys, clock)
      && ObservationsOk(payments, observations)
  }

  // ----- Changes to one existing payment -----

  /** The identity of a payment: fixed when it is created. */
  predicate SameIdentity(p: Payment, q: Payment) {
    && p.requested == q.requested && p.payable == q.payable && p.adjustment == q.adjustment
    && p.profile == q.profile && p.upiId == q.upiId && p.payee == q.payee
    && p.createdAt == q.createdAt && p.expiresAt == q.expiresAt
    && p.graceUntil == q.graceUntil && p.reuseAfter == q.reuseAfter
  }

  predicate LegalUpdate(p: Payment, q: Payment) {
    SameIdentity(p, q) && (q.status == Paid <==> q.paidAt.Some?)
  }

  /** A history row that tells the truth about an update committed at now. */
  predicate TruthfulRow(row: HistoryRow, payment: Id, p: Payment, q: Payment, now: int) {
    && row.payment == payment && row.at == now
    && row.change == ChangeOf(p, q)
    && RowWellFormed(row)
  }

  /** Appending a row moves the replay of its own payment and of no other. */
  lemma {:induction false} ReplayAfterAppend(history: seq<HistoryRow>, row: HistoryRow, p: Id)
    ensures row.payment != p || row.change.None? ==>
      Replay(HistoryOf(history + [row], p)) == Replay(HistoryOf(history, p))
    ensures row.payment == p && row.change.Some? && Replay(HistoryOf(history, p)) == Some(row.change.value.from)
      ==> Replay(HistoryOf(history + [row], p)) == Some(row.change.value.to)
  {
    AppendHistory(history, row, p);
    AppendReplay(HistoryOf(history, p), row);
  }

  lemma OutboxAfterRecord(db: Tables, payment: Id, q: Payment, row: HistoryRow, event: Id)
    requires OutboxOk(db.history, db.outbox) && row.payment == payment
    ensures OutboxOk(Record(db, payment, q, row, event).history, Record(db, payment, q, row, event).outbox)
  {
    AppendHistory(db.history, row, payment);
    AppendPublished(db.outbox, OutboxRow(event, row.kind, payment, q, row.at));
  }

  lemma RecordKeepsHistory(payments: map<Id, Payment>, history: seq<HistoryRow>, payment: Id, q: Payment,
                           row: HistoryRow, now: int)
    requires HistoryOk(payments, history)
    requires payment in payments && TruthfulRow(row, payment, payments[payment], q, now)
    ensures HistoryOk(payments[payment := q], history + [row])
  {
    forall p {:trigger Replay(HistoryOf(history + [row], p))} | p in payments
      ensures Replay(HistoryOf(history + [row], p)) == Some(payments[payment := q][p].status) {
      ReplayAfterAppend(history, row, p);
    }
  }

  lemma UpdateKeepsRows(db: Tables, next: Tables, payment: Id, q: Payment)
    requires RowsOk(db) && payment in db.payments && LegalUpdate(db.payments[payment], q)
    requires next.payments == db.payments[payment := q] && next.reservations == db.reservations
    ensures RowsOk(next)
  {
  }

  lemma UpdateKeepsKeys(payments: map<Id, Payment>, keys: map<Key, KeyRow>, clock: int, payment: Id, q: Payment)
    requires KeysOk(payments, keys, clock)
    requires payment in payments && SameIdentity(payments[payment], q)
    ensures KeysOk(payments[payment := q], keys, clock)
  {
  }

  lemma GrowthKeepsObservations(payments: map<Id, Payment>, more: map<Id, Payment>, observations: seq<ObservationRow>)
    requires ObservationsOk(payments, observations) && payments.Keys <= more.Keys
    ensures ObservationsOk(more, observations)
  {
  }

  lemma RecordKeepsInv(db: Tables, payment: Id, q: Payment, row: HistoryRow, event: Id, clock: int, now: int)
    requires Inv(db, clock)
    requires payment in db.payments && LegalUpdate(db.payments[payment], q)
    requires TruthfulRow(row, payment, db.payments[payment], q, now)
    ensures Inv(Record(db, payment, q, row, event), clock)
  {
    var next := Record(db, payment, q, row, event);
    RecordKeepsHistory(db.payments, db.history, payment, q, row, now);
    OutboxAfterRecord(db, payment, q, row, event);
    UpdateKeepsRows(db, next, payment, q);
    UpdateKeepsKeys(db.payments, db.keys, clock, payment, q);
    GrowthKeepsObservations(db.payments, next.payments, db.observations);
  }

  lemma SameStatusKeepsHistory(payments: map<Id, Payment>, history: seq<HistoryRow>, payment: Id, q: Payment)
    requires HistoryOk(payments, history) && payment in payments && q.status == payments[payment].status
    ensures HistoryOk(payments[payment := q], history)
  {
  }

  lemma ClockMayAdvance(db: Tables, clock: int, now: int)
    requires Inv(db, clock) && clock <= now
    ensures Inv(db, now)
  {
    ClockOkLater(db, clock, now);
  }

  lemma ClockOkLater(db: Tables, clock: int, now: int)
    requires ClockOk(db, clock) && KeysOk(db.payments, db.keys, clock) && clock <= now
    ensures ClockOk(db, now) && KeysOk(db.payments, db.keys, now)
  {
  }

  /** Later evidence changes no status and writes no history. */
  lemma EnrichKeepsInv(db: Tables, payment: Id, q: Payment, clock: int)
    requires Inv(db, clock)
    requires payment in db.payments && LegalUpdate(db.payments[payment], q) && q.status == db.payments[payment].status
    ensures Inv(db.(payments := db.payments[payment := q]), clock)
  {
    var next := db.(payments := db.payments[payment := q]);
    SameStatusKeepsHistory(db.payments, db.history, payment, q);
    UpdateKeepsRows(db, next, payment, q);
    UpdateKeepsKeys(db.payments, db.keys, clock, payment, q);
    GrowthKeepsObservations(db.payments, next.payments, db.observations);
  }

  // ----- Create -----

  /** Due reservations are released, none before its payment's reuse_after. */
  lemma ReleaseKeepsRows(db: Tables, now: int)
    requires RowsOk(db)
    ensures RowsOk(db.(reservations := Release(db.reservations, now)))
    ensures forall p :: p in db.reservations && db.reservations[p].releasedAt.None?
                        && Release(db.reservations, now)[p].releasedAt.Some? ==>
              db.payments[p].reuseAfter <= now
  {
    var res := Release(db.reservations, now);
    forall p | p in res ensures p in db.payments && Backed(db.payments[p], res[p]) {
      assert p in db.reservations && res[p] == ReleaseRow(db.reservations[p], now);
    }
  }

  lemma ReleaseKeepsClock(db: Tables, clock: int, now: int)
    requires ClockOk(db, clock) && clock <= now
    ensures ClockOk(db.(reservations := Release(db.reservations, now)), now)
  {
  }

  lemma ReleaseKeepsWindows(res: Reservations, given: set<Id>, now: int)
    requires ApartSince(res, given) && UniqueHeld(res)
    ensures ApartSince(Release(res, now), given) && UniqueHeld(Release(res, now))
  {
  }

  lemma PurgeKeeps(db: Tables, clock: int, now: int)
    requires Inv(db, clock)
    ensures Inv(db.(keys := Purge(db.keys, now)), clock)
  {
  }

  /** A free amount: every earlier reservation of it was released, so its window has ended. */
  lemma FreshWindowIsApart(res: Reservations, given: set<Id>, payment: Id, r: Reservation, now: int)
    requires ApartSince(res, given) && UniqueHeld(res) && payment !in res
    requires forall p :: p in res && res[p].releasedAt.Some? ==> res[p].reservedUntil <= res[p].releasedAt.value <= now
    requires r.reservedAt == now && !Held(res, r.payable)
    ensures ApartSince(res[payment := r], given) && UniqueHeld(res[payment := r])
  {
    forall p | p in res && res[p].payable == r.payable ensures res[p].reservedUntil <= now && res[p].releasedAt.Some? {
      assert res[p].releasedAt.Some?;
    }
  }

  lemma {:induction false} NewPaymentHasNoHistory(payments: map<Id, Payment>, history: seq<HistoryRow>, payment: Id)
    requires forall i :: 0 <= i < |history| ==> history[i].payment in payments
    requires payment !in payments
    ensures HistoryOf(history, payment) == []
  {
    if history != [] {
      NewPaymentHasNoHistory(payments, history[..|history| - 1], payment);
      assert history[|history| - 1].payment != payment;
    }
  }

  lemma InsertKeepsHistory(payments: map<Id, Payment>, history: seq<HistoryRow>, payment: Id, p: Payment,
                           row: HistoryRow)
    requires HistoryOk(payments, history)
    requires payment !in payments && p.status == Pending
    requires row.payment == payment && row.change.None? && RowWellFormed(row)
    ensures HistoryOk(payments[payment := p], history + [row])
  {
    NewPaymentHasNoHistory(payments, history, payment);
    forall x {:trigger Replay(HistoryOf(history + [row], x))} | x == payment || x in payments
      ensures Replay(HistoryOf(history + [row], x)) == Some(payments[payment := p][x].status)
    {
      ReplayAfterAppend(history, row, x);
    }
  }

  /** The rows a successful, not replayed Create leaves. */
  ghost predicate Inserted(db: Tables, created: Created, key: Key, request: Request, profile: Profile,
                           windows: Windows, now: int, ids: CreateIds)
  {
    && !created.replayed && created.payment == ids.payment && ids.payment !in db.payments
    && var res := Release(db.reservations, now);
    && ids.payment in created.db.payments
    && var p := created.db.payments[ids.payment];
    && p == NewPayment(request, p.payable, profile, windows, now)
    && PaymentChecks(p) && !Held(res, p.payable) && ids.payment !in res
    && var row := HistoryRow(ids.rows.history, ids.payment, PaymentCreated, System, None, false, now);
    && created.db == Record(
         db.(reservations := res[ids.payment := Reservation(p.profile, p.payable, now, p.reuseAfter, None, now)],
             keys := Purge(db.keys, now)[key := KeyRow(request, ids.payment, now, now + IDEMPOTENCY_TTL)]),
         ids.payment, p, row, ids.rows.event)
  }

  lemma {:induction false} CreateInserts(db: Tables, key: Key, request: Request, windows: Windows,
                                         profile: Option<Profile>, now: int, ids: CreateIds, pick: int,
                                         created: Created)
    requires CreateTx(db, key, request, windows, profile, now, ids, pick) == Ok(created) && !created.replayed
    ensures profile.Some? && key !in Purge(db.keys, now)
    ensures Inserted(db, created, key, request, profile.value, windows, now, ids)
    ensures SelectFrom(Release(db.reservations, now), request.amount, now - SOFT_HORIZON, 0, pick)
         == Ok(created.db.payments[ids.payment].payable)
  {
  }

  lemma InsertKeepsRows(db: Tables, res: Reservations, next: Tables, payment: Id, p: Payment, r: Reservation)
    requires RowsOk(db.(reservations := res)) && payment !in res
    requires PaymentChecks(p) && Backed(p, r)
    requires next.payments == db.payments[payment := p] && next.reservations == res[payment := r]
    ensures RowsOk(next)
  {
  }

  /** At whatever clock reading a payment is created, reservations go on mirroring the payments. */
  lemma InsertedKeepsRows(db: Tables, created: Created, key: Key, request: Request, profile: Profile,
                          windows: Windows, now: int, ids: CreateIds)
    requires RowsOk(db) && Inserted(db, created, key, request, profile, windows, now, ids)
    ensures RowsOk(created.db)
  {
    ReleaseKeepsRows(db, now);
    var p := created.db.payments[ids.payment];
    InsertKeepsRows(db, Release(db.reservations, now), created.db, ids.payment, p,
                    Reservation(p.profile, p.payable, now, p.reuseAfter, None, now));
  }

  lemma InsertKeepsKeys(payments: map<Id, Payment>, keys: map<Key, KeyRow>, clock: int, payment: Id, p: Payment,
                        key: Key, row: KeyRow, now: int)
    requires KeysOk(payments, keys, clock) && clock <= now && payment !in payments
    requires row == KeyRow(row.request, payment, now,
                           now + IDEMPOTENCY_TTL) && p.createdAt == now && p.requested == row.request.amount
    ensures KeysOk(payments[payment := p], Purge(keys, now)[key := row], now)
  {
  }

  /** A new payment takes a free amount, so its window starts after all others of that amount. */
  lemma InsertedKeepsWindows(db: Tables, created: Created, key: Key, request: Request, profile: Profile,
                             windows: Windows, given: set<Id>, clock: int, now: int, ids: CreateIds)
    requires WindowsOk(db, given, clock) && clock <= now
    requires Inserted(db, created, key, request, profile, windows, now, ids)
    ensures WindowsOk(created.db, given, now)
  {
    ReleaseKeepsRows(db, now);
    ReleaseKeepsClock(db, clock, now);
    ReleaseKeepsWindows(db.reservations, given, now);
    var res := Release(db.reservations, now);
    var p := created.db.payments[ids.payment];
    var r := Reservation(p.profile, p.payable, now, p.reuseAfter, None, now);
    ReleasedInTime(db.(reservations := res), now);
    FreshWindowIsApart(res, given, ids.payment, r, now);
    InsertKeepsRows(db, res, created.db, ids.payment, p, r);
  }

  lemma InsertedKeepsInv(db: Tables, created: Created, key: Key, request: Request, profile: Profile,
                         windows: Windows, clock: int, now: int, ids: CreateIds)
    requires Inv(db, clock) && clock <= now
    requires Inserted(db, created, key, request, profile, windows, now, ids)
    ensures Inv(created.db, now)
  {
    InsertedKeepsWindows(db, created, key, request, profile, windows, {}, clock, now, ids);
    var p := created.db.payments[ids.payment];
    var row := HistoryRow(ids.rows.history, ids.payment, PaymentCreated, System, None, false, now);
    InsertKeepsHistory(db.payments, db.history, ids.payment, p, row);
    OutboxAfterRecord(db, ids.payment, p, row, ids.rows.event);
    InsertKeepsKeys(db.payments, db.keys, clock, ids.payment, p, key,
                    KeyRow(request, ids.payment, now, now + IDEMPOTENCY_TTL), now);
    GrowthKeepsObservations(db.payments, created.db.payments, db.observations);
  }

  lemma ReleasedInTime(db: Tables, now: int)
    requires RowsOk(db) && ClockOk(db, now)
    ensures forall p :: p in db.reservations && db.reservations[p].releasedAt.Some?
              ==> db.reservations[p].reservedUntil <= db.reservations[p].releasedAt.value <= now
  {
  }

  lemma CreateKeepsInv(db: Tables, key: Key, request: Request, windows: Windows, profile: Option<Profile>,
                       clock: int, now: int, ids: CreateIds, pick: int, created: Created)
    requires Inv(db, clock) && clock <= now
    requires CreateTx(db, key, request, windows, profile, now, ids, pick) == Ok(created)
    ensures Inv(created.db, now)
  {
    hide Inv;
    if created.replayed {
      PurgeKeeps(db, clock, now);
      ClockMayAdvance(created.db, clock, now);
    } else {
      CreateInserts(db, key, request, windows, profile, now, ids, pick, created);
      InsertedKeepsInv(db, created, key, request, profile.value, windows, clock, now, ids);
    }
  }

  // ----- Cancel, ExpireDue, Edit -----

  lemma PaidIffDated(db: Tables, clock: int, payment: Id)
    requires Inv(db, clock) && payment in db.payments
    ensures db.payments[payment].status == Paid <==> db.payments[payment].paidAt.Some?
  {
  }

  lemma CancelKeepsInv(db: Tables, payment: Id, clock: int, now: int, ids: RowIds, next: Tables)
    requires Inv(db, clock) && CancelTx(db, payment, now, ids) == Ok(next)
    ensures Inv(next, clock)
  {
    PaidIffDated(db, clock, payment);
    hide Inv;
    if db.payments[payment].status == Pending {
      var row := HistoryRow(ids.history, payment, PaymentCancelled, System, Some(StatusChange(Pending, Cancelled)),
                            false, now);
      RecordKeepsInv(db, payment, db.payments[payment].(status := Cancelled), row, ids.event, clock, now);
    }
  }

  function ExpireOne(db: Tables, payment: Id, now: int, ids: RowIds): Tables
    requires payment in db.payments
  {
    Record(db, payment, db.payments[payment].(status := Expired),
           HistoryRow(ids.history, payment, PaymentExpired, System, Some(StatusChange(Pending, Expired)), false, now),
           ids.event)
  }

  lemma {:induction false} ExpireAllUnfold(db: Tables, due: seq<Id>, now: int, ids: seq<RowIds>, next: Tables,
                                           count: nat)
    requires due != [] && IsDue(db.payments, due[0], now)
    requires ExpireAll(db, due, now, ids) == Ok((next, count))
    ensures ids != [] && count > 0
    ensures ExpireAll(ExpireOne(db, due[0], now, ids[0]), due[1..], now, ids[1..]) == Ok((next, count - 1))
  {
  }

  lemma ExpireOneKeepsInv(db: Tables, payment: Id, clock: int, now: int, ids: RowIds)
    requires Inv(db, clock) && IsDue(db.payments, payment, now)
    ensures Inv(ExpireOne(db, payment, now, ids), clock)
  {
    PaidIffDated(db, clock, payment);
    hide Inv;
    var row := HistoryRow(ids.history, payment, PaymentExpired, System, Some(StatusChange(Pending, Expired)), false,
                          now);
    RecordKeepsInv(db, payment, db.payments[payment].(status := Expired), row, ids.event, clock, now);
  }

  lemma {:induction false} ExpireKeepsInv(db: Tables, due: seq<Id>, clock: int, now: int, ids: seq<RowIds>,
                                          next: Tables, count: nat)
    requires Inv(db, clock) && ExpireAll(db, due, now, ids) == Ok((next, count))
    ensures Inv(next, clock)
    decreases |due|
  {
    hide Inv;
    if due == [] {
    } else if !IsDue(db.payments, due[0], now) {
      ExpireKeepsInv(db, due[1..], clock, now, ids, next, count);
    } else {
      ExpireAllUnfold(db, due, now, ids, next, count);
      ExpireOneKeepsInv(db, due[0], clock, now, ids[0]);
      ExpireKeepsInv(ExpireOne(db, due[0], now, ids[0]), due[1..], clock, now, ids[1..], next, count - 1);
    }
  }

  lemma EditKeepsInv(db: Tables, payment: Id, e: EditInput, clock: int, now: int, ids: RowIds, next: Tables)
    requires Inv(db, clock) && EditTx(db, payment, e, now, ids) == Ok(next)
    ensures Inv(next, clock)
  {
    hide Inv;
    var p := db.payments[payment];
    var q := EditedPayment(p, e, now);
    if ChangedFields(p, q) != {} {
      var onlyNote := ChangedFields(p, q) == {NoteField};
      assert StatusField in ChangedFields(p, q) <==> p.status != q.status;
      var row := HistoryRow(ids.history, payment, OperatorEvent(p.status, q.status), Admin, ChangeOf(p, q), onlyNote,
                            now);
      RecordKeepsInv(db, payment, q, row, ids.event, clock, now);
    }
  }

  // ----- Settle -----

  lemma ConfirmKeepsInv(db: Tables, payment: Id, o: Observation, clock: int, now: int, ids: RowIds, next: Tables,
                        transitioned: bool)
    requires Inv(db, clock) && payment in db.payments
    requires ConfirmTx(db, payment, o, now, ids) == Ok((next, transitioned))
    ensures Inv(next, clock) && next.observations == db.observations
  {
    PaidIffDated(db, clock, payment);
    hide Inv;
    var p := db.payments[payment];
    if p.status == Paid {
      EnrichKeepsInv(db, payment, Enriched(p, o), clock);
    } else {
      var row := HistoryRow(ids.history, payment, PaymentPaid, System, Some(StatusChange(p.status, Paid)), false, now);
      RecordKeepsInv(db, payment, MarkedPaid(p, o), row, ids.event, clock, now);
    }
  }

  lemma AppendObservation(payments: map<Id, Payment>, observations: seq<ObservationRow>, row: ObservationRow)
    requires ObservationsOk(payments, observations) && !Observed(observations, row.event)
    requires row.payment.Some? <==> row.outcome in {Matched, Corroborated}
    requires row.payment.Some? ==> row.payment.value in payments
    ensures ObservationsOk(payments, observations + [row])
  {
  }

  lemma NewObservationKeepsInv(db: Tables, more: seq<ObservationRow>, clock: int)
    requires Inv(db, clock) && ObservationsOk(db.payments, more)
    ensures Inv(db.(observations := more), clock)
  {
  }

  lemma InvObservations(db: Tables, clock: int)
    requires Inv(db, clock)
    ensures ObservationsOk(db.payments, db.observations)
  {
  }

  lemma ObserveKeepsInv(db: Tables, event: Id, o: Observation, active: Option<string>, receivedAt: int,
                        payment: Option<Id>, outcome: MatchOutcome, clock: int, next: Tables)
    requires Inv(db, clock)
    requires payment.Some? <==> outcome in {Matched, Corroborated}
    requires payment.Some? ==> payment.value in db.payments
    requires Observe(db, event, o, active, receivedAt, payment, outcome) == Ok(next)
    ensures Inv(next, clock)
  {
    hide Inv;
    InvObservations(db, clock);
    var row := next.observations[|db.observations|];
    AppendObservation(db.payments, db.observations, row);
    NewObservationKeepsInv(db, db.observations + [row], clock);
  }

  /** What a settled observation did: nothing to the payments, or a confirmation of one candidate. */
  ghost predicate SettledAs(db: Tables, event: Id, o: Observation, active: Option<string>, receivedAt: int,
                            now: int, ids: RowIds, s: Settled)
  {
    match s.payment
    case None =>
      && |MatchSet(db, o)| != 1 && !s.transitioned
      && s.outcome == (if |MatchSet(db, o)| > 1 then Ambiguous else Unmatched)
      && Observe(db, event, o, active, receivedAt, None, s.outcome) == Ok(s.db)
    case Some(payment) =>
      && MatchSet(db, o) == {payment} && payment in db.reservations && payment in db.payments
      && var attributed := o.(profile := db.reservations[payment].profile);
      && s.outcome == (if db.payments[payment].status == Paid && Confirmed(db.observations, payment)
                       then Corroborated else Matched)
      && ConfirmTx(db, payment, attributed, now, ids).Ok?
      && var (next, transitioned) := ConfirmTx(db, payment, attributed, now, ids).value;
      && s.transitioned == transitioned
      && Observe(next, event, attributed, active, receivedAt, Some(payment), s.outcome) == Ok(s.db)
  }

  lemma SettleShape(db: Tables, event: Id, o: Observation, active: Option<string>, receivedAt: int,
                    now: int, ids: RowIds, s: Settled)
    requires SettleTx(db, event, o, active, receivedAt, now, ids) == Ok(s)
    ensures ValidObservation(o) && SettledAs(db, event, o, active, receivedAt, now, ids, s)
  {
    if s.payment.Some? {
      SingletonSet(MatchSet(db, o), s.payment.value);
    }
  }

  lemma ConfirmedKeepsInv(db: Tables, event: Id, o: Observation, active: Option<string>, receivedAt: int, payment: Id,
                          outcome: MatchOutcome, clock: int, now: int, ids: RowIds,
                          next: Tables, transitioned: bool, last: Tables)
    requires Inv(db, clock) && payment in db.payments && outcome in {Matched, Corroborated}
    requires ConfirmTx(db, payment, o, now, ids) == Ok((next, transitioned))
    requires Observe(next, event, o, active, receivedAt, Some(payment), outcome) == Ok(last)
    ensures Inv(last, clock)
  {
    hide Inv;
    ConfirmKeepsInv(db, payment, o, clock, now, ids, next, transitioned);
    ObserveKeepsInv(next, event, o, active, receivedAt, Some(payment), outcome, clock, last);
  }

  lemma UnconfirmedKeepsInv(db: Tables, event: Id, o: Observation, active: Option<string>, receivedAt: int,
                            outcome: MatchOutcome, clock: int, last: Tables)
    requires Inv(db, clock) && outcome in {Unmatched, Ambiguous}
    requires Observe(db, event, o, active, receivedAt, None, outcome) == Ok(last)
    ensures Inv(last, clock)
  {
    hide Inv;
    ObserveKeepsInv(db, event, o, active, receivedAt, None, outcome, clock, last);
  }

  lemma SettleKeepsInv(db: Tables, event: Id, o: Observation, active: Option<string>, receivedAt: int,
                       clock: int, now: int, ids: RowIds, s: Settled)
    requires Inv(db, clock)
    requires SettledAs(db, event, o, active, receivedAt, now, ids, s)
    ensures Inv(s.db, clock)
  {
    hide Inv;
    if s.payment.Some? {
      var payment := s.payment.value;
      var attributed := o.(profile := db.reservations[payment].profile);
      var (next, transitioned) := ConfirmTx(db, payment, attributed, now, ids).value;
      ConfirmedKeepsInv(db, event, attributed, active, receivedAt, payment, s.outcome, clock, now, ids, next,
                        transitioned, s.db);
    } else {
      UnconfirmedKeepsInv(db, event, o, active, receivedAt, s.outcome, clock, s.db);
    }
  }

  // ----- Every step, every run -----

  lemma StepKeepsInv(db: Tables, step: Step, clock: int)
    requires Inv(db, clock) && clock <= ClockAfter(clock, step)
    ensures Inv(Apply(db, step), ClockAfter(clock, step))
  {
    hide Inv;
    ClockMayAdvance(db, clock, ClockAfter(clock, step));
    match step
    case Create(input, windows, profile, now, ids, pick) =>
      if NormalizeCreate(input).Ok? {
        var (key, request) := NormalizeCreate(input).value;
        var r := CreateTx(db, key, request, windows, profile, now, ids, pick);
        if r.Ok? { CreateKeepsInv(db, key, request, windows, profile, clock, now, ids, pick, r.value); }
      }
    case Cancel(payment, now, ids) =>
      var r := CancelTx(db, payment, now, ids);
      if r.Ok? { CancelKeepsInv(db, payment, clock, now, ids, r.value); }
    case ExpireDue(limit, now, ids) =>
      var due := InDueOrder(db.payments, DueSet(db.payments, now), ClampLimit(limit));
      var r := ExpireAll(db, due, now, ids);
      if r.Ok? { ExpireKeepsInv(db, due, clock, now, ids, r.value.0, r.value.1); }
    case Edit(payment, e, now, ids) =>
      var r := EditTx(db, payment, e, now, ids);
      if r.Ok? { EditKeepsInv(db, payment, e, clock, now, ids, r.value); }
    case Settle(event, o, active, receivedAt, now, ids) =>
      var r := SettleTx(db, event, o, active, receivedAt, now, ids);
      if r.Ok? {
        SettleShape(db, event, o, active, receivedAt, now, ids, r.value);
        SettleKeepsInv(db, event, o, active, receivedAt, clock, now, ids, r.value);
      }
  }

  ghost function LastClock(clock: int, steps: seq<Step>): int
    decreases |steps|
  {
    if steps == [] then clock else LastClock(ClockAfter(clock, steps[0]), steps[1..])
  }

  /** Every run of Create, Cancel, ExpireDue, Edit and matching keeps all invariants, whatever the
      clock readings of all steps but the creates. */
  lemma {:induction false} RunKeepsInv(db: Tables, steps: seq<Step>, clock: int)
    requires Inv(db, clock) && ClockForward(clock, steps)
    ensures Inv(Run(db, steps), LastClock(clock, steps))
    decreases |steps|
  {
    hide Inv;
    if steps != [] {
      StepKeepsInv(db, steps[0], clock);
      RunKeepsInv(Apply(db, steps[0]), steps[1..], ClockAfter(clock, steps[0]));
    }
  }
}
