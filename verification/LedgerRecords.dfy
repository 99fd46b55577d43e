/** What the tables record of one payment, on every run from any database and at any clock readings:
    its history replays to the stored status, and webhooks announce the new history rows. */
module LedgerRecords {
  import opened Common
  import opened Domain
  import opened Cancellation
  import opened History
  import opened Ledger
  import opened LedgerInvariants

  // ----- History replays -----

  /** The payment's history is well formed and leads to its status, and paid_at is set exactly while it
      is paid; before it is created it has no history. */
  ghost predicate Told(db: Tables, p: Id) {
    match db
    case Tables(payments, _, history, _, _, _) =>
      var rows := HistoryOf(history, p);
      if p in payments then
        && (forall i :: 0 <= i < |rows| ==> RowWellFormed(rows[i]))
        && Replay(rows) == Some(payments[p].status)
        && (payments[p].status == Paid <==> payments[p].paidAt.Some?)
      else rows == []
  }

  lemma RecordKeepsTold(db: Tables, payment: Id, q: Payment, row: HistoryRow, event: Id, p: Id)
    requires Told(db, p) && payment in db.payments
    requires TruthfulRow(row, payment, db.payments[payment], q, row.at)
    requires payment == p ==> (q.status == Paid <==> q.paidAt.Some?)
    ensures Told(Record(db, payment, q, row, event), p)
  {
    AppendHistory(db.history, row, p);
    AppendReplay(HistoryOf(db.history, p), row);
    hide HistoryOf, Replay;
  }

  lemma CreateKeepsTold(db: Tables, key: Key, request: Request, windows: Windows, profile: Option<Profile>,
                        now: int, ids: CreateIds, pick: int, created: Created, p: Id)
    requires Told(db, p) && CreateTx(db, key, request, windows, profile, now, ids, pick) == Ok(created)
    ensures Told(created.db, p)
  {
    if !created.replayed {
      CreateInserts(db, key, request, windows, profile, now, ids, pick, created);
      hide CreateTx, Told;
      InsertedKeepsTold(db, created, key, request, profile.value, windows, now, ids, p);
    }
  }

  lemma InsertedKeepsTold(db: Tables, created: Created, key: Key, request: Request, profile: Profile, windows: Windows,
                          now: int, ids: CreateIds, p: Id)
    requires Told(db, p) && Inserted(db, created, key, request, profile, windows, now, ids)
    ensures Told(created.db, p)
  {
    var row := HistoryRow(ids.rows.history, ids.payment, PaymentCreated, System, None, false, now);
    AppendHistory(db.history, row, p);
    AppendReplay(HistoryOf(db.history, p), row);
    hide Replay, HistoryOf, Purge;
    if p == ids.payment {
      NoRowsReplay();
      assert [] + [row] == [row];
    }
  }

  lemma NoRowsReplay()
    ensures Replay([]) == Some(Pending)
  {
  }

  lemma SilentKeepsTold(db: Tables, payment: Id, q: Payment, more: seq<ObservationRow>, p: Id)
    requires Told(db, p) && payment in db.payments
    requires q.status == db.payments[payment].status && q.paidAt == db.payments[payment].paidAt
    ensures Told(db.(payments := db.payments[payment := q], observations := more), p)
  {
    hide HistoryOf, Replay;
  }

  lemma SameRecordsKeepTold(db: Tables, next: Tables, p: Id)
    requires Told(db, p) && next.payments == db.payments && next.history == db.history
    ensures Told(next, p)
  {
  }

  lemma DatedWhilePaid(db: Tables, p: Id)
    requires Told(db, p) && p in db.payments
    ensures db.payments[p].status == Paid <==> db.payments[p].paidAt.Some?
  {
  }

  lemma CancelKeepsTold(db: Tables, payment: Id, now: int, ids: RowIds, next: Tables, p: Id)
    requires Told(db, p) && CancelTx(db, payment, now, ids) == Ok(next)
    ensures Told(next, p)
  {
    if p == payment { DatedWhilePaid(db, p); }
    hide Told;
    if db.payments[payment].status == Pending {
      var row := HistoryRow(ids.history, payment, PaymentCancelled, System, Some(StatusChange(Pending, Cancelled)),
                            false, now);
      RecordKeepsTold(db, payment, db.payments[payment].(status := Cancelled), row, ids.event, p);
    }
  }

  lemma {:induction false} ExpireKeepsTold(db: Tables, due: seq<Id>, now: int, ids: seq<RowIds>, next: Tables,
                                           count: nat, p: Id)
    requires Told(db, p) && ExpireAll(db, due, now, ids) == Ok((next, count))
    ensures Told(next, p)
    decreases |due|
  {
    hide Told;
    if due == [] {
    } else if !IsDue(db.payments, due[0], now) {
      ExpireKeepsTold(db, due[1..], now, ids, next, count, p);
    } else {
      ExpireAllUnfold(db, due, now, ids, next, count);
      if p == due[0] { DatedWhilePaid(db, p); }
      var row := HistoryRow(ids[0].history, due[0], PaymentExpired, System, Some(StatusChange(Pending, Expired)),
                            false, now);
      RecordKeepsTold(db, due[0], db.payments[due[0]].(status := Expired), row, ids[0].event, p);
      hide ExpireAll;
      ExpireKeepsTold(ExpireOne(db, due[0], now, ids[0]), due[1..], now, ids[1..], next, count - 1, p);
    }
  }

  lemma EditKeepsTold(db: Tables, payment: Id, e: EditInput, now: int, ids: RowIds, next: Tables, p: Id)
    requires Told(db, p) && EditTx(db, payment, e, now, ids) == Ok(next)
    ensures Told(next, p)
  {
    hide Told;
    var before := db.payments[payment];
    var q := EditedPayment(before, e, now);
    if ChangedFields(before, q) != {} {
      var onlyNote := ChangedFields(before, q) == {NoteField};
      assert StatusField in ChangedFields(before, q) <==> before.status != q.status;
      var row := HistoryRow(ids.history, payment, OperatorEvent(before.status, q.status), Admin, ChangeOf(before, q),
                            onlyNote, now);
      RecordKeepsTold(db, payment, q, row, ids.event, p);
    }
  }

  lemma SettleKeepsTold(db: Tables, event: Id, o: Observation, active: Option<string>, receivedAt: int,
                        now: int, ids: RowIds, s: Settled, p: Id)
    requires Told(db, p) && SettledAs(db, event, o, active, receivedAt, now, ids, s)
    ensures Told(s.db, p)
  {
    hide Told, MatchSet;
    if s.payment.Some? {
      var payment := s.payment.value;
      var before, attributed := db.payments[payment], o.(profile := db.reservations[payment].profile);
      if before.status == Paid {
        SilentKeepsTold(db, payment, Enriched(before, attributed), s.db.observations, p);
      } else {
        var row := HistoryRow(ids.history, payment, PaymentPaid, System, Some(StatusChange(before.status, Paid)), false,
                              now);
        RecordKeepsTold(db, payment, MarkedPaid(before, attributed), row, ids.event, p);
        SameRecordsKeepTold(Record(db, payment, MarkedPaid(before, attributed), row, ids.event), s.db, p);
      }
    } else {
      SameRecordsKeepTold(db, s.db, p);
    }
  }

  lemma StepKeepsTold(db: Tables, step: Step, p: Id)
    requires Told(db, p)
    ensures Told(Apply(db, step), p)
  {
    hide Told;
    match step
    case Create(input, windows, profile, now, ids, pick) =>
      hide CreateTx;
      if NormalizeCreate(input).Ok? {
        var (key, request) := NormalizeCreate(input).value;
        var r := CreateTx(db, key, request, windows, profile, now, ids, pick);
        if r.Ok? { CreateKeepsTold(db, key, request, windows, profile, now, ids, pick, r.value, p); }
      }
    case Cancel(payment, now, ids) =>
      hide CancelTx;
      var r := CancelTx(db, payment, now, ids);
      if r.Ok? { CancelKeepsTold(db, payment, now, ids, r.value, p); }
    case ExpireDue(limit, now, ids) =>
      hide ExpireAll;
      var due := InDueOrder(db.payments, DueSet(db.payments, now), ClampLimit(limit));
      var r := ExpireAll(db, due, now, ids);
      if r.Ok? { ExpireKeepsTold(db, due, now, ids, r.value.0, r.value.1, p); }
    case Edit(payment, e, now, ids) =>
      hide EditTx;
      var r := EditTx(db, payment, e, now, ids);
      if r.Ok? { EditKeepsTold(db, payment, e, now, ids, r.value, p); }
    case Settle(event, o, active, receivedAt, now, ids) =>
      hide SettleTx;
      var r := SettleTx(db, event, o, active, receivedAt, now, ids);
      if r.Ok? {
        SettleShape(db, event, o, active, receivedAt, now, ids, r.value);
        SettleKeepsTold(db, event, o, active, receivedAt, now, ids, r.value, p);
      }
  }

  /** Every run, at any clock readings, keeps the record of every payment that has one. */
  lemma {:induction false} RunKeepsTold(db: Tables, steps: seq<Step>, p: Id)
    requires Told(db, p)
    ensures Told(Run(db, steps), p)
    decreases |steps|
  {
    hide Told, Apply;
    if steps != [] {
      StepKeepsTold(db, steps[0], p);
      RunKeepsTold(Apply(db, steps[0]), steps[1..], p);
    }
  }

  lemma {:induction false} NoHistory(history: seq<HistoryRow>, p: Id)
    requires forall i :: 0 <= i < |history| ==> history[i].payment != p
    ensures HistoryOf(history, p) == []
  {
    if history != [] {
      NoHistory(history[..|history| - 1], p);
      assert history[|history| - 1].payment != p;
    }
  }

  lemma UnnamedIsTold(db: Tables, p: Id)
    requires Unnamed(db, p)
    ensures Told(db, p)
  {
    NoHistory(db.history, p);
  }

  lemma {:induction false} ToldIsLinked(db: Tables, p: Id)
    requires Told(db, p) && p in db.payments
    ensures Linked(HistoryOf(db.history, p))
  {
    ReplayedIsLinked(HistoryOf(db.history, p));
  }

  // ----- Webhooks announce history -----

  /** next has the rows of db and more, and its webhooks announce exactly the new history rows. */
  ghost predicate Announces(db: Tables, next: Tables, news: seq<Event>) {
    && Announced(next.history) == Announced(db.history) + news
    && Published(next.outbox) == Published(db.outbox) + news
  }

  lemma RecordAnnounces(db: Tables, payment: Id, q: Payment, row: HistoryRow, event: Id) returns (news: seq<Event>)
    requires row.payment == payment
    ensures Announces(db, Record(db, payment, q, row, event), news)
  {
    news := if row.onlyNote then [] else [Event(row.kind, row.payment, row.at)];
    AppendHistory(db.history, row, payment);
    AppendPublished(db.outbox, OutboxRow(event, row.kind, payment, q, row.at));
  }

  lemma NothingAnnounced(db: Tables, next: Tables)
    requires next.history == db.history && next.outbox == db.outbox
    ensures Announces(db, next, [])
  {
    assert Announced(db.history) + [] == Announced(db.history);
    assert Published(db.outbox) + [] == Published(db.outbox);
  }

  lemma AnnouncesMore(a: Tables, b: Tables, c: Tables, x: seq<Event>, y: seq<Event>)
    requires Announces(a, b, x) && Announces(b, c, y)
    ensures Announces(a, c, x + y)
  {
    assert Announced(a.history) + x + y == Announced(a.history) + (x + y);
    assert Published(a.outbox) + x + y == Published(a.outbox) + (x + y);
  }

  lemma {:induction false} ExpireAnnounces(db: Tables, due: seq<Id>, now: int, ids: seq<RowIds>, next: Tables,
                                           count: nat) returns (news: seq<Event>)
    requires ExpireAll(db, due, now, ids) == Ok((next, count))
    ensures Announces(db, next, news)
    decreases |due|
  {
    if due == [] {
      news := [];
      NothingAnnounced(db, next);
    } else if !IsDue(db.payments, due[0], now) {
      news := ExpireAnnounces(db, due[1..], now, ids, next, count);
    } else {
      ExpireAllUnfold(db, due, now, ids, next, count);
      var row := HistoryRow(ids[0].history, due[0], PaymentExpired, System, Some(StatusChange(Pending, Expired)),
                            false, now);
      var first := ExpireOne(db, due[0], now, ids[0]);
      var expiry := RecordAnnounces(db, due[0], db.payments[due[0]].(status := Expired), row, ids[0].event);
      hide Announces, ExpireAll;
      var rest := ExpireAnnounces(first, due[1..], now, ids[1..], next, count - 1);
      AnnouncesMore(db, first, next, expiry, rest);
      news := expiry + rest;
    }
  }

  lemma CreateAnnounces(db: Tables, key: Key, request: Request, windows: Windows, profile: Option<Profile>,
                        now: int, ids: CreateIds, pick: int, created: Created) returns (news: seq<Event>)
    requires CreateTx(db, key, request, windows, profile, now, ids, pick) == Ok(created)
    ensures Announces(db, created.db, news)
  {
    hide Announces;
    if created.replayed {
      news := [];
      NothingAnnounced(db, created.db);
    } else {
      CreateInserts(db, key, request, windows, profile, now, ids, pick, created);
      var row := HistoryRow(ids.rows.history, ids.payment, PaymentCreated, System, None, false, now);
      hide CreateTx;
      news := RecordAnnounces(db, ids.payment, created.db.payments[ids.payment], row, ids.rows.event);
      SameAnnouncement(db, Record(db, ids.payment, created.db.payments[ids.payment], row, ids.rows.event), created.db,
                       news);
    }
  }

  lemma SameAnnouncement(db: Tables, next: Tables, other: Tables, news: seq<Event>)
    requires Announces(db, next, news) && other.history == next.history && other.outbox == next.outbox
    ensures Announces(db, other, news)
  {
  }

  lemma EditAnnounces(db: Tables, payment: Id, e: EditInput, now: int, ids: RowIds, next: Tables)
    returns (news: seq<Event>)
    requires EditTx(db, payment, e, now, ids) == Ok(next)
    ensures Announces(db, next, news)
  {
    hide Announces, EditAccepted;
    var before := db.payments[payment];
    var q := EditedPayment(before, e, now);
    if ChangedFields(before, q) == {} {
      news := [];
      NothingAnnounced(db, next);
    } else {
      var row := HistoryRow(ids.history, payment, OperatorEvent(before.status, q.status), Admin, ChangeOf(before, q),
                            ChangedFields(before, q) == {NoteField}, now);
      news := RecordAnnounces(db, payment, q, row, ids.event);
    }
  }

  lemma SettleAnnounces(db: Tables, event: Id, o: Observation, active: Option<string>, receivedAt: int,
                        now: int, ids: RowIds, s: Settled) returns (news: seq<Event>)
    requires SettledAs(db, event, o, active, receivedAt, now, ids, s)
    ensures Announces(db, s.db, news)
  {
    hide Announces, MatchSet;
    if s.payment.Some? && db.payments[s.payment.value].status != Paid {
      var payment := s.payment.value;
      var before, attributed := db.payments[payment], o.(profile := db.reservations[payment].profile);
      var row := HistoryRow(ids.history, payment, PaymentPaid, System, Some(StatusChange(before.status, Paid)), false,
                            now);
      news := RecordAnnounces(db, payment, MarkedPaid(before, attributed), row, ids.event);
      SameAnnouncement(db, Record(db, payment, MarkedPaid(before, attributed), row, ids.event), s.db, news);
    } else {
      news := [];
      NothingAnnounced(db, s.db);
    }
  }

  lemma StepAnnounces(db: Tables, step: Step) returns (news: seq<Event>)
    ensures Announces(db, Apply(db, step), news)
  {
    news := [];
    NothingAnnounced(db, db);
    hide Announces;
    match step
    case Create(input, windows, profile, now, ids, pick) =>
      hide CreateTx;
      if NormalizeCreate(input).Ok? {
        var (key, request) := NormalizeCreate(input).value;
        var r := CreateTx(db, key, request, windows, profile, now, ids, pick);
        if r.Ok? { news := CreateAnnounces(db, key, request, windows, profile, now, ids, pick, r.value); }
      }
    case Cancel(payment, now, ids) =>
      var r := CancelTx(db, payment, now, ids);
      if r.Ok? && db.payments[payment].status == Pending {
        var row := HistoryRow(ids.history, payment, PaymentCancelled, System, Some(StatusChange(Pending, Cancelled)),
                              false, now);
        news := RecordAnnounces(db, payment, db.payments[payment].(status := Cancelled), row, ids.event);
      }
    case ExpireDue(limit, now, ids) =>
      hide ExpireAll;
      var due := InDueOrder(db.payments, DueSet(db.payments, now), ClampLimit(limit));
      var r := ExpireAll(db, due, now, ids);
      if r.Ok? { news := ExpireAnnounces(db, due, now, ids, r.value.0, r.value.1); }
    case Edit(payment, e, now, ids) =>
      hide EditTx;
      var r := EditTx(db, payment, e, now, ids);
      if r.Ok? { news := EditAnnounces(db, payment, e, now, ids, r.value); }
    case Settle(event, o, active, receivedAt, now, ids) =>
      hide SettleTx;
      var r := SettleTx(db, event, o, active, receivedAt, now, ids);
      if r.Ok? {
        SettleShape(db, event, o, active, receivedAt, now, ids, r.value);
        news := SettleAnnounces(db, event, o, active, receivedAt, now, ids, r.value);
      }
  }

  /** On every run from any database, at any clock readings, the webhooks added are exactly those of
      the history rows added, note-only edits aside, in the same order. */
  lemma {:induction false} RunAnnounces(db: Tables, steps: seq<Step>) returns (news: seq<Event>)
    ensures Announces(db, Run(db, steps), news)
    decreases |steps|
  {
    news := [];
    NothingAnnounced(db, db);
    hide Announces, Apply;
    if steps != [] {
      var next := Apply(db, steps[0]);
      var first := StepAnnounces(db, steps[0]);
      var rest := RunAnnounces(next, steps[1..]);
      AnnouncesMore(db, next, Run(db, steps), first, rest);
      news := first + rest;
    }
  }

  /** The events of one payment. */
  function About(events: seq<Event>, p: Id): seq<Event> {
    if events == [] then []
    else
      var rest := About(events[..|events| - 1], p);
      var last := events[|events| - 1];
      if last.payment == p then rest + [last] else rest
  }

  lemma {:induction false} AboutConcat(a: seq<Event>, b: seq<Event>, p: Id)
    ensures About(a + b, p) == About(a, p) + About(b, p)
  {
    if b == [] {
      assert a + b == a;
    } else {
      assert (a + b)[..|a + b| - 1] == a + b[..|b| - 1] && (a + b)[|a + b| - 1] == b[|b| - 1];
      AboutConcat(a, b[..|b| - 1], p);
    }
  }

  lemma {:induction false} NothingAbout(history: seq<HistoryRow>, outbox: seq<OutboxRow>, p: Id)
    requires forall i :: 0 <= i < |history| ==> history[i].payment != p
    requires forall i :: 0 <= i < |outbox| ==> outbox[i].payment != p
    ensures About(Announced(history), p) == [] == About(Published(outbox), p)
    decreases |history| + |outbox|
  {
    if history != [] {
      NothingAbout(history[..|history| - 1], outbox, p);
      var front, last := history[..|history| - 1], history[|history| - 1];
      assert last.payment != p;
      AboutConcat(Announced(front), [Event(last.kind, last.payment, last.at)], p);
    } else if outbox != [] {
      NothingAbout(history, outbox[..|outbox| - 1], p);
      var front, last := outbox[..|outbox| - 1], outbox[|outbox| - 1];
      assert last.payment != p;
      AboutConcat(Published(front), [Event(last.kind, last.payment, last.at)], p);
    }
  }

  // ----- Every payment of a run -----

  /** On every run from any database, at any clock readings, the history of each payment of the run
      links up from "pending" to the stored status, paid_at is set exactly while it is paid, and its
      webhooks announce exactly its history, note-only edits aside, in the same order. */
  lemma {:induction false} HistoryReplays(base: Tables, steps: seq<Step>, p: Id)
    requires Unnamed(base, p) && p in Run(base, steps).payments
    ensures var db := Run(base, steps);
      && Replay(HistoryOf(db.history, p)) == Some(db.payments[p].status)
      && (db.payments[p].status == Paid <==> db.payments[p].paidAt.Some?)
      && About(Published(db.outbox), p) == About(Announced(db.history), p)
  {
    UnnamedIsTold(base, p);
    RunKeepsTold(base, steps, p);
    var news := RunAnnounces(base, steps);
    NothingAbout(base.history, base.outbox, p);
    AboutConcat(Announced(base.history), news, p);
    AboutConcat(Published(base.outbox), news, p);
    hide Run;
  }
}
