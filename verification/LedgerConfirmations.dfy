/** Evidence over whole runs: which observations confirmed a payment, in which order, and
    that a payment no operator touched is only ever paid on evidence. */
module LedgerConfirmations {
  import opened Common
  import opened Domain
  import opened Ledger
  import opened LedgerInvariants
  import opened LedgerWindows

  /** Outcomes of the observations that confirmed a payment, oldest first. */
  function Confirmations(observations: seq<ObservationRow>, payment: Id): seq<MatchOutcome> {
    if observations == [] then []
    else
      var rest := Confirmations(observations[..|observations| - 1], payment);
      var last := observations[|observations| - 1];
      if last.payment == Some(payment) then rest + [last.outcome] else rest
  }

  predicate IsSystemPaid(r: HistoryRow, payment: Id) {
    r.payment == payment && r.kind == PaymentPaid && r.actor == System
  }

  function SystemPaid(history: seq<HistoryRow>, payment: Id): nat {
    if history == [] then 0
    else
      var last := if IsSystemPaid(history[|history| - 1], payment) then 1 else 0;
      SystemPaid(history[..|history| - 1], payment) + last
  }

  /** No edit ever moved the payment out of paid (nothing else can). */
  ghost predicate NeverLeftPaid(history: seq<HistoryRow>, payment: Id) {
    forall i :: 0 <= i < |history| && history[i].payment == payment && history[i].change.Some?
      ==> history[i].change.value.from != Paid
  }

  ghost predicate NoOperator(history: seq<HistoryRow>, payment: Id) {
    forall i :: 0 <= i < |history| && history[i].payment == payment ==> history[i].actor == System
  }

  ghost predicate MatchedThenCorroborated(outcomes: seq<MatchOutcome>) {
    outcomes == [] || (outcomes[0] == Matched && forall i :: 1 <= i < |outcomes| ==> outcomes[i] == Corroborated)
  }

  /** The first confirmation is "matched", all later ones "corroborated", and the system
      settled the payment at most once. */
  ghost predicate ConfirmedInOrder(p: Payment, confirmations: seq<MatchOutcome>, systemPaid: nat) {
    && MatchedThenCorroborated(confirmations)
    && (confirmations != [] ==> p.status == Paid)
    && systemPaid <= 1
    && (p.status != Paid ==> systemPaid == 0)
  }

  /** A confirming observation of exactly this payment: its amount, at paid_at, in its window. */
  predicate IsEvidence(r: ObservationRow, payment: Id, p: Payment) {
    && r.payment == Some(payment) && r.outcome == Matched
    && r.observation.amount == p.payable
    && p.paidAt == Some(r.observation.occurredAt)
    && p.createdAt <= r.observation.occurredAt <= p.reuseAfter
    && (r.observation.source == PaytmNotification ==> r.observation.profile == p.profile)
  }

  ghost predicate HasEvidence(observations: seq<ObservationRow>, payment: Id, p: Payment) {
    exists i :: 0 <= i < |observations| && IsEvidence(observations[i], payment, p)
  }

  // ----- One payment at a time -----

  ghost predicate PaymentConfirmOk(p: Id, payment: Payment, history: seq<HistoryRow>,
                                   observations: seq<ObservationRow>)
  {
    && (NeverLeftPaid(history, p) ==> ConfirmedInOrder(payment, Confirmations(observations, p), SystemPaid(history, p)))
    && (NoOperator(history, p) && payment.status == Paid ==> HasEvidence(observations, p, payment))
  }

  /** Observations of a payment confirm it. */
  ghost predicate ProperOutcomes(observations: seq<ObservationRow>, p: Id) {
    forall i :: 0 <= i < |observations| && observations[i].payment == Some(p) ==>
      observations[i].outcome in {Matched, Corroborated}
  }

  /** The record of one payment; before it is created there is none. */
  ghost predicate Confirmable(db: Tables, p: Id) {
    match db
    case Tables(payments, _, history, _, _, observations) =>
      && ProperOutcomes(observations, p)
      && if p in payments then PaymentConfirmOk(p, payments[p], history, observations)
         else Confirmations(observations, p) == [] && SystemPaid(history, p) == 0
  }

  lemma {:induction false} AppendConfirmation(observations: seq<ObservationRow>, row: ObservationRow, p: Id)
    ensures Confirmations(observations + [row], p)
         == if row.payment == Some(p) then Confirmations(observations, p) + [row.outcome]
            else Confirmations(observations, p)
  {
    assert (observations + [row])[..|observations|] == observations;
  }

  lemma {:induction false} AppendSystemPaid(history: seq<HistoryRow>, row: HistoryRow, p: Id)
    ensures SystemPaid(history + [row], p) == SystemPaid(history, p) + (if IsSystemPaid(row, p) then 1 else 0)
  {
    assert (history + [row])[..|history|] == history;
  }

  lemma {:induction false} ConfirmedIffConfirmations(observations: seq<ObservationRow>, p: Id)
    requires ProperOutcomes(observations, p)
    ensures Confirmed(observations, p) <==> Confirmations(observations, p) != []
  {
    if observations != [] {
      var front, last := observations[..|observations| - 1], observations[|observations| - 1];
      ConfirmedIffConfirmations(front, p);
      if Confirmed(front, p) {
        var i :| 0 <= i < |front| && front[i].payment == Some(p) && front[i].outcome in {Matched, Corroborated};
        assert observations[i] == front[i];
      }
      if last.payment == Some(p) {
        assert Confirmed(observations, p);
      }
    }
  }

  /** Rows of other payments leave a payment's record as it was. */
  lemma OthersUntouched(p: Id, payment: Payment, history: seq<HistoryRow>, row: HistoryRow,
                        observations: seq<ObservationRow>)
    requires PaymentConfirmOk(p, payment, history, observations) && row.payment != p
    ensures PaymentConfirmOk(p, payment, history + [row], observations)
  {
    AppendSystemPaid(history, row, p);
    PrefixFacts(history, row, p);
  }

  lemma PrefixFacts(history: seq<HistoryRow>, row: HistoryRow, p: Id)
    ensures NeverLeftPaid(history + [row], p) <==>
              NeverLeftPaid(history, p) && (row.payment == p && row.change.Some? ==> row.change.value.from != Paid)
    ensures NoOperator(history + [row], p) <==> NoOperator(history, p) && (row.payment == p ==> row.actor == System)
  {
    var more := history + [row];
    assert more[|history|] == row;
    assert forall i :: 0 <= i < |history| ==> more[i] == history[i];
  }

  lemma MoreObservations(p: Id, payment: Payment, history: seq<HistoryRow>, observations: seq<ObservationRow>,
                         row: ObservationRow)
    requires PaymentConfirmOk(p, payment, history, observations) && row.payment != Some(p)
    ensures PaymentConfirmOk(p, payment, history, observations + [row])
  {
    AppendConfirmation(observations, row, p);
    if HasEvidence(observations, p, payment) {
      EvidenceStays(observations, row, p, payment);
    }
  }

  lemma EvidenceStays(observations: seq<ObservationRow>, row: ObservationRow, p: Id, payment: Payment)
    requires HasEvidence(observations, p, payment)
    ensures HasEvidence(observations + [row], p, payment)
  {
    var i :| 0 <= i < |observations| && IsEvidence(observations[i], p, payment);
    assert (observations + [row])[i] == observations[i];
  }

  /** A cancellation, an expiry or an edit: no evidence, and never a system settlement. */
  lemma UnprovenUpdate(p: Id, before: Payment, after: Payment, history: seq<HistoryRow>, row: HistoryRow,
                       observations: seq<ObservationRow>, now: int)
    requires PaymentConfirmOk(p, before, history, observations)
    requires TruthfulRow(row, p, before, after, now)
    requires row.actor == Admin || (row.kind != PaymentPaid && after.status != Paid)
    ensures PaymentConfirmOk(p, after, history + [row], observations)
  {
    AppendSystemPaid(history, row, p);
    PrefixFacts(history, row, p);
  }

  /** The matcher settles an unpaid payment on a first observation. */
  lemma FirstEvidence(p: Id, before: Payment, after: Payment, history: seq<HistoryRow>, row: HistoryRow,
                      observations: seq<ObservationRow>, seen: ObservationRow, now: int)
    requires PaymentConfirmOk(p, before, history, observations)
    requires before.status != Paid && after.status == Paid
    requires TruthfulRow(row, p, before, after, now) && IsSystemPaid(row, p)
    requires IsEvidence(seen, p, after)
    ensures PaymentConfirmOk(p, after, history + [row], observations + [seen])
  {
    AppendSystemPaid(history, row, p);
    PrefixFacts(history, row, p);
    AppendConfirmation(observations, seen, p);
    var more := observations + [seen];
    assert IsEvidence(more[|observations|], p, after);
  }

  /** Evidence for a payment that is already paid. */
  lemma {:induction false} LaterEvidence(p: Id, before: Payment, after: Payment, history: seq<HistoryRow>,
                                         observations: seq<ObservationRow>, seen: ObservationRow)
    requires PaymentConfirmOk(p, before, history, observations)
    requires before.status == Paid == after.status && before.paidAt == after.paidAt && SameIdentity(before, after)
    requires seen.payment == Some(p)
    requires seen.outcome == if Confirmations(observations, p) != [] then Corroborated else Matched
    ensures PaymentConfirmOk(p, after, history, observations + [seen])
  {
    AppendConfirmation(observations, seen, p);
    if HasEvidence(observations, p, before) {
      var i :| 0 <= i < |observations| && IsEvidence(observations[i], p, before);
      assert IsEvidence(observations[i], p, after);
      EvidenceStays(observations, seen, p, after);
    }
  }

  // ----- Every transaction -----

  lemma RecordKeepsConfirm(db: Tables, payment: Id, q: Payment, row: HistoryRow, event: Id, now: int, p: Id)
    requires Confirmable(db, p) && payment in db.payments
    requires TruthfulRow(row, payment, db.payments[payment], q, now)
    requires row.actor == Admin || (row.kind != PaymentPaid && q.status != Paid)
    ensures Confirmable(Record(db, payment, q, row, event), p)
  {
    if p == payment {
      UnprovenUpdate(p, db.payments[p], q, db.history, row, db.observations, now);
    } else if p in db.payments {
      OthersUntouched(p, db.payments[p], db.history, row, db.observations);
    } else {
      AppendSystemPaid(db.history, row, p);
    }
    hide PaymentConfirmOk, ProperOutcomes;
  }

  lemma InsertKeepsConfirm(db: Tables, created: Created, key: Key, request: Request, profile: Profile,
                           windows: Windows, now: int, ids: CreateIds, p: Id)
    requires Confirmable(db, p) && Inserted(db, created, key, request, profile, windows, now, ids)
    ensures Confirmable(created.db, p)
  {
    var row := HistoryRow(ids.rows.history, ids.payment, PaymentCreated, System, None, false, now);
    AppendSystemPaid(db.history, row, p);
    if p != ids.payment && p in db.payments {
      OthersUntouched(p, db.payments[p], db.history, row, db.observations);
      hide PaymentConfirmOk;
    }
    hide ProperOutcomes;
  }

  lemma {:induction false} ExpireKeepsConfirm(db: Tables, due: seq<Id>, now: int, ids: seq<RowIds>, next: Tables,
                                              count: nat, p: Id)
    requires Confirmable(db, p) && ExpireAll(db, due, now, ids) == Ok((next, count))
    ensures Confirmable(next, p)
    decreases |due|
  {
    hide Confirmable;
    if due == [] {
    } else if !IsDue(db.payments, due[0], now) {
      ExpireKeepsConfirm(db, due[1..], now, ids, next, count, p);
    } else {
      ExpireAllUnfold(db, due, now, ids, next, count);
      var row := HistoryRow(ids[0].history, due[0], PaymentExpired, System, Some(StatusChange(Pending, Expired)),
                            false, now);
      RecordKeepsConfirm(db, due[0], db.payments[due[0]].(status := Expired), row, ids[0].event, now, p);
      ExpireKeepsConfirm(ExpireOne(db, due[0], now, ids[0]), due[1..], now, ids[1..], next, count - 1, p);
    }
  }

  /** The observation row a settled observation leaves. */
  lemma ObservedRow(db: Tables, event: Id, o: Observation, active: Option<string>, receivedAt: int,
                    payment: Option<Id>, outcome: MatchOutcome, next: Tables) returns (row: ObservationRow)
    requires Observe(db, event, o, active, receivedAt, payment, outcome) == Ok(next)
    ensures next == db.(observations := db.observations + [row])
    ensures row.event == event && row.payment == payment && row.outcome == outcome
    ensures row.observation == o.(profile := row.observation.profile)
    ensures Trim(o.profile) != "" ==> row.observation == o
  {
    row := next.observations[|db.observations|];
  }

  /** One more observation, of no payment or of another one. */
  lemma OtherObservationKeepsConfirm(db: Tables, row: ObservationRow, p: Id)
    requires Confirmable(db, p) && row.payment != Some(p)
    ensures Confirmable(db.(observations := db.observations + [row]), p)
  {
    AppendConfirmation(db.observations, row, p);
    OtherObservationIsProper(db.observations, row, p);
    if p in db.payments {
      MoreObservations(p, db.payments[p], db.history, db.observations, row);
    }
    hide PaymentConfirmOk, ProperOutcomes;
  }

  lemma OtherObservationIsProper(observations: seq<ObservationRow>, row: ObservationRow, p: Id)
    requires ProperOutcomes(observations, p) && row.payment != Some(p)
    ensures ProperOutcomes(observations + [row], p)
  {
  }

  /** Another payment changes. */
  lemma OtherPaymentKeepsConfirm(db: Tables, payment: Id, q: Payment, p: Id)
    requires Confirmable(db, p) && payment in db.payments && payment != p
    ensures Confirmable(db.(payments := db.payments[payment := q]), p)
  {
    hide PaymentConfirmOk, ProperOutcomes;
  }

  /** A paid candidate: payer fields only, one more observation. */
  lemma {:induction false} CorroborationKeepsConfirm(db: Tables, payment: Id, q: Payment, seen: ObservationRow, p: Id)
    requires Confirmable(db, p) && payment in db.payments
    requires db.payments[payment].status == Paid && q == Enriched(db.payments[payment], seen.observation)
    requires seen.payment == Some(payment) && seen.outcome in {Matched, Corroborated}
    requires payment == p ==>
      seen.outcome == if Confirmations(db.observations, payment) != [] then Corroborated else Matched
    ensures Confirmable(db.(payments := db.payments[payment := q], observations := db.observations + [seen]), p)
  {
    if p == payment {
      LaterEvidence(p, db.payments[p], q, db.history, db.observations, seen);
      hide PaymentConfirmOk;
    } else {
      hide Confirmable;
      OtherPaymentKeepsConfirm(db, payment, q, p);
      OtherObservationKeepsConfirm(db.(payments := db.payments[payment := q]), seen, p);
    }
  }

  /** An unpaid candidate: it becomes paid at the occurrence. */
  lemma SettlementKeepsConfirm(db: Tables, payment: Id, q: Payment, row: HistoryRow, event: Id, seen: ObservationRow,
                               now: int, p: Id)
    requires Confirmable(db, p) && payment in db.payments
    requires db.payments[payment].status != Paid && q.status == Paid
    requires TruthfulRow(row, payment, db.payments[payment], q, now) && IsSystemPaid(row, payment)
    requires IsEvidence(seen, payment, q)
    ensures Confirmable(Record(db, payment, q, row, event).(observations := db.observations + [seen]), p)
  {
    if p == payment {
      FirstEvidence(p, db.payments[p], q, db.history, row, db.observations, seen, now);
      hide PaymentConfirmOk;
    } else {
      if p in db.payments {
        OthersUntouched(p, db.payments[p], db.history, row, db.observations);
        MoreObservations(p, db.payments[p], db.history + [row], db.observations, seen);
      }
      AppendSystemPaid(db.history, row, p);
      AppendConfirmation(db.observations, seen, p);
      hide PaymentConfirmOk;
    }
  }

  lemma SettleKeepsConfirm(db: Tables, event: Id, o: Observation, active: Option<string>, receivedAt: int,
                           now: int, ids: RowIds, s: Settled, p: Id)
    requires RowsOk(db) && Confirmable(db, p)
    requires SettledAs(db, event, o, active, receivedAt, now, ids, s) && ValidObservation(o)
    ensures Confirmable(s.db, p)
  {
    if s.payment.None? {
      hide RowsOk, Confirmable;
      var row := ObservedRow(db, event, o, active, receivedAt, None, s.outcome, s.db);
      OtherObservationKeepsConfirm(db, row, p);
    } else {
      var payment := s.payment.value;
      CandidateFacts(db, payment, o);
      ConfirmedAreListed(db, p);
      hide RowsOk, Confirmable;
      var before := db.payments[payment];
      var attributed := o.(profile := before.profile);
      var (middle, transitioned) := ConfirmTx(db, payment, attributed, now, ids).value;
      var seen := ObservedRow(middle, event, attributed, active, receivedAt, s.payment, s.outcome, s.db);
      if before.status == Paid {
        CorroborationKeepsConfirm(db, payment, Enriched(before, attributed), seen, p);
      } else {
        var row := HistoryRow(ids.history, payment, PaymentPaid, System, Some(StatusChange(before.status, Paid)), false,
                              now);
        SettlementKeepsConfirm(db, payment, MarkedPaid(before, attributed), row, ids.event, seen, now, p);
      }
    }
  }

  lemma {:induction false} ConfirmedAreListed(db: Tables, p: Id)
    requires Confirmable(db, p)
    ensures Confirmed(db.observations, p) <==> Confirmations(db.observations, p) != []
  {
    ConfirmedIffConfirmations(db.observations, p);
  }

  lemma CandidateFacts(db: Tables, payment: Id, o: Observation)
    requires RowsOk(db) && payment in MatchSet(db, o)
    ensures payment in db.payments && payment in db.reservations
    ensures db.reservations[payment].profile == db.payments[payment].profile
    ensures o.amount == db.payments[payment].payable
    ensures db.payments[payment].createdAt <= o.occurredAt <= db.payments[payment].reuseAfter
    ensures o.source == PaytmNotification ==> o.profile == db.payments[payment].profile
  {
  }

  lemma CreateKeepsConfirm(db: Tables, key: Key, request: Request, windows: Windows, profile: Option<Profile>,
                           now: int, ids: CreateIds, pick: int, created: Created, p: Id)
    requires Confirmable(db, p) && CreateTx(db, key, request, windows, profile, now, ids, pick) == Ok(created)
    ensures Confirmable(created.db, p)
  {
    if created.replayed {
      SameRowsKeepConfirm(db, created.db, p);
    } else {
      hide Confirmable;
      CreateInserts(db, key, request, windows, profile, now, ids, pick, created);
      InsertKeepsConfirm(db, created, key, request, profile.value, windows, now, ids, p);
    }
  }

  lemma CancelKeepsConfirm(db: Tables, payment: Id, now: int, ids: RowIds, next: Tables, p: Id)
    requires Confirmable(db, p) && CancelTx(db, payment, now, ids) == Ok(next)
    ensures Confirmable(next, p)
  {
    hide Confirmable;
    if db.payments[payment].status == Pending {
      var row := HistoryRow(ids.history, payment, PaymentCancelled, System, Some(StatusChange(Pending, Cancelled)),
                            false, now);
      RecordKeepsConfirm(db, payment, db.payments[payment].(status := Cancelled), row, ids.event, now, p);
    }
  }

  /** Every step keeps the record of every payment, at any clock reading. */
  lemma StepKeepsConfirm(db: Tables, step: Step, p: Id)
    requires RowsOk(db) && Confirmable(db, p)
    ensures Confirmable(Apply(db, step), p)
  {
    hide RowsOk, Confirmable;
    match step
    case Create(input, windows, profile, now, ids, pick) =>
      hide CreateTx;
      if NormalizeCreate(input).Ok? {
        var (key, request) := NormalizeCreate(input).value;
        var r := CreateTx(db, key, request, windows, profile, now, ids, pick);
        if r.Ok? { CreateKeepsConfirm(db, key, request, windows, profile, now, ids, pick, r.value, p); }
      }
    case Cancel(payment, now, ids) =>
      hide CancelTx;
      var r := CancelTx(db, payment, now, ids);
      if r.Ok? { CancelKeepsConfirm(db, payment, now, ids, r.value, p); }
    case ExpireDue(limit, now, ids) =>
      hide ExpireAll;
      var due := InDueOrder(db.payments, DueSet(db.payments, now), ClampLimit(limit));
      var r := ExpireAll(db, due, now, ids);
      if r.Ok? { ExpireKeepsConfirm(db, due, now, ids, r.value.0, r.value.1, p); }
    case Edit(payment, e, now, ids) =>
      hide EditTx;
      var r := EditTx(db, payment, e, now, ids);
      if r.Ok? { EditKeepsConfirm(db, payment, e, now, ids, r.value, p); }
    case Settle(event, o, active, receivedAt, now, ids) =>
      hide SettleTx;
      var r := SettleTx(db, event, o, active, receivedAt, now, ids);
      if r.Ok? {
        SettleShape(db, event, o, active, receivedAt, now, ids, r.value);
        SettleKeepsConfirm(db, event, o, active, receivedAt, now, ids, r.value, p);
      }
  }

  lemma SameRowsKeepConfirm(db: Tables, next: Tables, p: Id)
    requires Confirmable(db, p) && next == db.(keys := next.keys)
    ensures Confirmable(next, p)
  {
  }

  lemma EditKeepsConfirm(db: Tables, payment: Id, e: EditInput, now: int, ids: RowIds, next: Tables, p: Id)
    requires Confirmable(db, p) && EditTx(db, payment, e, now, ids) == Ok(next)
    ensures Confirmable(next, p)
  {
    hide Confirmable;
    var before := db.payments[payment];
    var q := EditedPayment(before, e, now);
    if ChangedFields(before, q) != {} {
      var onlyNote := ChangedFields(before, q) == {NoteField};
      assert StatusField in ChangedFields(before, q) <==> before.status != q.status;
      var row := HistoryRow(ids.history, payment, OperatorEvent(before.status, q.status), Admin, ChangeOf(before, q),
                            onlyNote, now);
      RecordKeepsConfirm(db, payment, q, row, ids.event, now, p);
    }
  }

  /** Over every run, at any clock readings, from any database whose reservations mirror its payments:
      confirmations of a payment come as matched, then corroborated; the system settles it at most
      once; and untouched by an operator it is paid only on evidence. */
  lemma {:induction false} RunKeepsConfirm(db: Tables, steps: seq<Step>, p: Id)
    requires RowsOk(db) && Confirmable(db, p)
    ensures Confirmable(Run(db, steps), p)
    decreases |steps|
  {
    hide RowsOk, Confirmable, Apply;
    if steps != [] {
      StepKeepsRows(db, steps[0]);
      StepKeepsConfirm(db, steps[0], p);
      RunKeepsConfirm(Apply(db, steps[0]), steps[1..], p);
    }
  }

  lemma {:induction false} NoConfirmations(observations: seq<ObservationRow>, p: Id)
    requires forall i :: 0 <= i < |observations| ==> observations[i].payment != Some(p)
    ensures Confirmations(observations, p) == []
  {
    if observations != [] {
      NoConfirmations(observations[..|observations| - 1], p);
      assert observations[|observations| - 1].payment != Some(p);
    }
  }

  lemma {:induction false} NoSystemPaid(history: seq<HistoryRow>, p: Id)
    requires forall i :: 0 <= i < |history| ==> history[i].payment != p
    ensures SystemPaid(history, p) == 0
  {
    if history != [] {
      NoSystemPaid(history[..|history| - 1], p);
      assert history[|history| - 1].payment != p;
    }
  }

  lemma UnnamedIsConfirmable(db: Tables, p: Id)
    requires Unnamed(db, p)
    ensures Confirmable(db, p)
  {
    NoConfirmations(db.observations, p);
    NoSystemPaid(db.history, p);
  }
}
