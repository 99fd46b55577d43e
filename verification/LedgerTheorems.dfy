/** The main theorems about the payment engine: matching is sound and complete, the cancellation
    filter errs exactly where the query misreads the history, payments keep their identity, and
    create is idempotent. */
module LedgerTheorems {
  import opened Common
  import opened Domain
  import opened Cancellation
  import opened CancellationOrder
  import opened History
  import opened Allocator
  import opened Ledger
  import opened LedgerHistory
  import opened LedgerInvariants
  import opened LedgerRecords
  import opened LedgerWindows
  import opened LedgerConfirmations

  /** A database some run of the service, from an empty one, led to, with no create later than clock. */
  ghost predicate Reachable(db: Tables, clock: int) {
    exists start, steps :: ClockForward(start, steps) && db == Run(EMPTY, steps) && LastClock(start, steps) <= clock
  }

  lemma EmptyIsSound(clock: int)
    ensures Inv(EMPTY, clock)
  {
  }

  /** From an empty database every invariant of the tables holds. */
  lemma ReachableIsSound(db: Tables, clock: int)
    requires Reachable(db, clock)
    ensures Inv(db, clock)
  {
    hide Inv;
    var start, steps :| ClockForward(start, steps) && db == Run(EMPTY, steps) && LastClock(start, steps) <= clock;
    EmptyIsSound(start);
    RunKeepsInv(EMPTY, steps, start);
    ClockMayAdvance(db, LastClock(start, steps), clock);
  }

  /** Distinct history ids, on every run from a database that has them. */
  lemma ReachableIds(base: Tables, db: Tables, clock: int)
    requires ReachableFrom(base, db, clock) && DistinctIds(base.history)
    ensures DistinctIds(db.history)
  {
    hide Run, Startable;
    var start, steps :|
      && Startable(base, start) && ClockForward(start, steps)
      && db == Run(base, steps) && LastClock(start, steps) <= clock;
    RunKeepsIds(base, steps);
  }

  // ----- From an empty database -----

  lemma ReachableIsFrom(db: Tables, clock: int)
    requires Reachable(db, clock)
    ensures ReachableFrom(EMPTY, db, clock) && DistinctIds(db.history)
  {
    hide Run;
    var start, steps :| ClockForward(start, steps) && db == Run(EMPTY, steps) && LastClock(start, steps) <= clock;
    assert Startable(EMPTY, start);
    ReachableIds(EMPTY, db, clock);
  }

  /** From an empty database an amount and an instant leave at most one candidate, except at a
      shared window boundary, where there are at most two. */
  lemma EmptyStartIsUnambiguous(db: Tables, clock: int, o: Observation)
    requires Reachable(db, clock)
    ensures |MatchSet(db, o)| <= 2
    ensures |MatchSet(db, o)| == 2 ==> exists p, q :: SharedBoundary(db, o, p, q)
  {
    ReachableIsFrom(db, clock);
    CandidatesAreUnambiguous(EMPTY, db, clock, o);
    hide Reachable, ReachableFrom, SharedBoundary, MatchSet;
    var c := MatchSet(db, o);
    assert c * EMPTY.payments.Keys == {};
    if |c| == 2 {
      var p :| p in c;
      assert |c - {p}| == 1;
      var q :| q in c - {p};
      assert SharedBoundary(db, o, p, q) || SharedBoundary(db, o, q, p);
    }
  }

  /** From an empty database an observation is ambiguous only at a shared boundary. */
  lemma EmptyStartFailsClosed(db: Tables, clock: int, event: Id, o: Observation, active: Option<string>,
                              receivedAt: int, now: int, ids: RowIds, s: Settled)
    requires Reachable(db, clock) && SettleTx(db, event, o, active, receivedAt, now, ids) == Ok(s)
    ensures s.outcome == Ambiguous <==> exists p, q :: SharedBoundary(db, o, p, q)
    ensures s.outcome in {Ambiguous, Unmatched} ==>
      s.payment.None? && !s.transitioned && s.db == db.(observations := s.db.observations)
  {
    ReachableIsFrom(db, clock);
    AmbiguityFailsClosed(EMPTY, db, clock, event, o, active, receivedAt, now, ids, s);
    hide SettleTx, Reachable, ReachableFrom, SharedBoundary, Claims;
    forall p, q ensures !BothGiven(EMPTY, db, o, p, q) {
    }
  }

  // ----- Matching: sound and complete -----

  /** The filter drops an instant if and only if the query reads the payment as cancelled at it. */
  lemma {:induction false} InstantIsDroppedIff(db: Tables, p: Id, t: int)
    requires DistinctIds(db.history)
    ensures CancelledAt(db, p, t) <==> ReadCancelledAt(HistoryOf(db.history, p), t)
  {
    HistoryOfHasDistinctIds(db.history, p);
    hide DistinctIds, Rejected, SortRows, ReadCancelledAt;
    RejectedIff(HistoryOf(db.history, p), t);
  }

  /** An observation of the payment's amount, strictly inside its window and of a fitting profile. */
  ghost predicate MoneyInside(db: Tables, p: Id, o: Observation) {
    && p in db.payments && o.amount == db.payments[p].payable
    && db.payments[p].createdAt < o.occurredAt < db.payments[p].reuseAfter
    && (o.source == PaytmNotification ==> o.profile == db.payments[p].profile)
  }

  /** No other given payment claims it too; none does when the payment itself was not given. */
  ghost predicate NoRival(db: Tables, given: set<Id>, p: Id, o: Observation) {
    p in given ==> forall q :: q in given && q != p ==> !Claims(db, q, o)
  }

  /** Money strictly inside a payment's window that the cancellation scan accepts has that payment
      as its only candidate. */
  lemma AcceptedMoneyIsUnique(db: Tables, given: set<Id>, clock: int, p: Id, o: Observation)
    requires WindowsOk(db, given, clock) && MoneyInside(db, p, o) && !CancelledAt(db, p, o.occurredAt)
    requires NoRival(db, given, p, o)
    ensures MatchSet(db, o) == {p}
  {
    CandidateIff(db, p, o);
    hide CancelledAt;
    forall q | q in MatchSet(db, o) ensures q == p {
      if q != p {
        CandidateIff(db, q, o);
        WindowsMeet(db, given, clock, p, q, o);
      }
    }
  }

  /** Such money has the payment as its only candidate, unless the query reads the payment as
      cancelled at that instant; then it is no candidate. */
  lemma {:induction false} InsideWindowIsUnique(base: Tables, db: Tables, clock: int, p: Id, o: Observation)
    requires ReachableFrom(base, db, clock) && DistinctIds(base.history)
    requires MoneyInside(db, p, o) && NoRival(db, base.payments.Keys, p, o)
    ensures if ReadCancelledAt(HistoryOf(db.history, p), o.occurredAt) then p !in MatchSet(db, o)
            else MatchSet(db, o) == {p}
  {
    ReachableWindows(base, db, clock);
    ReachableIds(base, db, clock);
    InstantIsDroppedIff(db, p, o.occurredAt);
    hide WindowsOk, ReachableFrom, DistinctIds, ReadCancelledAt, CancelledAt, MoneyInside, HistoryOf, NoRival;
    if !CancelledAt(db, p, o.occurredAt) {
      AcceptedMoneyIsUnique(db, base.payments.Keys, clock, p, o);
    }
  }

  /** Outside the periods in which the payment really was cancelled the scan accepts, when the
      status changes are read as they happened and "cancelled" was left cleanly. */
  lemma {:induction false} OutsidePeriodsIsAccepted(db: Tables, p: Id, t: int)
    requires Linked(HistoryOf(db.history, p))
    requires InsertionOrder(HistoryOf(db.history, p)) && LeavesCancelledCleanly(HistoryOf(db.history, p))
    requires !InCancelledPeriod(HistoryOf(db.history, p), t)
    ensures !CancelledAt(db, p, t)
  {
    OrderedVerdictIsExactIff(HistoryOf(db.history, p));
    hide Linked, InsertionOrder, LeavesCancelledCleanly, InCancelledPeriod, Rejected;
  }

  lemma {:induction false} AcceptedIsOutsidePeriods(db: Tables, p: Id, t: int)
    requires !CancelledAt(db, p, t)
    ensures var rows := HistoryOf(db.history, p);
      Linked(rows) && InsertionOrder(rows) ==> !InCancelledPeriod(rows, t)
  {
    hide Linked, InsertionOrder, InCancelledPeriod, Rejected;
    if Linked(HistoryOf(db.history, p)) && InsertionOrder(HistoryOf(db.history, p)) {
      OrderedVerdictIsExactIff(HistoryOf(db.history, p));
    }
  }

  /** What completeness promises of an observation: it is settled on p, which is paid afterwards,
      at the occurrence if it was not paid before. */
  ghost predicate SettlesOn(db: Tables, p: Id, o: Observation, r: Result<Settled, Failure>)
    requires p in db.payments
  {
    && r.Ok? && r.value.payment == Some(p) && r.value.outcome in {Matched, Corroborated}
    && p in r.value.db.payments && r.value.db.payments[p].status == Paid
    && (r.value.transitioned <==> db.payments[p].status != Paid)
    && r.value.db.payments[p].paidAt == if r.value.transitioned then Some(o.occurredAt) else db.payments[p].paidAt
  }

  /** Room for the rows a settlement writes, and a profile to attribute it to. */
  ghost predicate CanRecord(db: Tables, p: Id, event: Id, active: Option<string>, ids: RowIds) {
    && FreshHistory(db.history, ids.history) && FreshEvent(db.outbox, ids.event) && !Observed(db.observations, event)
    && p in db.payments && (Trim(db.payments[p].profile) != "" || active.Some?)
  }

  lemma AcceptedMoneySettles(db: Tables, given: set<Id>, clock: int, p: Id, event: Id, o: Observation,
                             active: Option<string>, receivedAt: int, now: int, ids: RowIds)
    requires WindowsOk(db, given, clock) && NoRival(db, given, p, o)
    requires ValidObservation(o) && MoneyInside(db, p, o) && !CancelledAt(db, p, o.occurredAt)
    requires CanRecord(db, p, event, active, ids)
    ensures SettlesOn(db, p, o, SettleTx(db, event, o, active, receivedAt, now, ids))
  {
    AcceptedMoneyIsUnique(db, given, clock, p, o);
    assert Backed(db.payments[p], db.reservations[p]);
    hide WindowsOk, MatchSet, SettleTx, SettlesOn, CancelledAt;
    SingleCandidateSettles(db, p, event, o, active, receivedAt, now, ids);
  }

  /** Completeness, on every run from a database without duplicate amounts: money strictly inside
      a payment's window resolves to exactly that payment, if and only if the query does not read
      the payment as cancelled at its instant. Only two payments that were both there before the run
      may be rivals for it. */
  lemma {:induction false} MatchingIsComplete(base: Tables, db: Tables, clock: int, p: Id, event: Id, o: Observation,
                                              active: Option<string>, receivedAt: int, now: int, ids: RowIds)
    requires ReachableFrom(base, db, clock) && DistinctIds(base.history)
    requires ValidObservation(o) && MoneyInside(db, p, o) && NoRival(db, base.payments.Keys, p, o)
    requires CanRecord(db, p, event, active, ids)
    ensures SettlesOn(db, p, o, SettleTx(db, event, o, active, receivedAt, now, ids))
       <==> !ReadCancelledAt(HistoryOf(db.history, p), o.occurredAt)
  {
    ReachableWindows(base, db, clock);
    ReachableIds(base, db, clock);
    InstantIsDroppedIff(db, p, o.occurredAt);
    InsideWindowIsUnique(base, db, clock, p, o);
    hide WindowsOk, ReachableFrom, DistinctIds, ReadCancelledAt, CancelledAt, MoneyInside, HistoryOf, CanRecord;
    hide NoRival, SettleTx, MatchSet, ValidObservation;
    var r := SettleTx(db, event, o, active, receivedAt, now, ids);
    if !CancelledAt(db, p, o.occurredAt) {
      hide SettlesOn;
      AcceptedMoneySettles(db, base.payments.Keys, clock, p, event, o, active, receivedAt, now, ids);
    } else if r.Ok? && r.value.payment == Some(p) {
      SettleShape(db, event, o, active, receivedAt, now, ids, r.value);
    }
  }

  /** On every run from any database the status changes of a payment of the run link up. */
  lemma {:induction false} ReachableLinks(base: Tables, db: Tables, clock: int, p: Id)
    requires ReachableFrom(base, db, clock) && Unnamed(base, p) && p in db.payments
    ensures Linked(HistoryOf(db.history, p))
  {
    hide Run, Startable;
    var start, steps :|
      && Startable(base, start) && ClockForward(start, steps)
      && db == Run(base, steps) && LastClock(start, steps) <= clock;
    UnnamedIsTold(base, p);
    RunKeepsTold(base, steps, p);
    ToldIsLinked(db, p);
  }

  /** So money outside the cancelled periods of a payment of the run resolves to it, when its status
      changes are read as they happened and "cancelled" was left cleanly. */
  lemma {:induction false} OrderedMatchingIsComplete(base: Tables, db: Tables, clock: int, p: Id, event: Id,
                                                     o: Observation, active: Option<string>, receivedAt: int, now: int,
                                                     ids: RowIds)
    requires ReachableFrom(base, db, clock) && Unnamed(base, p)
    requires ValidObservation(o) && MoneyInside(db, p, o) && CanRecord(db, p, event, active, ids)
    requires InsertionOrder(HistoryOf(db.history, p)) && LeavesCancelledCleanly(HistoryOf(db.history, p))
    requires !InCancelledPeriod(HistoryOf(db.history, p), o.occurredAt)
    ensures SettlesOn(db, p, o, SettleTx(db, event, o, active, receivedAt, now, ids))
  {
    ReachableWindows(base, db, clock);
    ReachableLinks(base, db, clock, p);
    hide ReachableFrom, WindowsOk, Linked, SettleTx, SettlesOn, CancelledAt, InsertionOrder, LeavesCancelledCleanly;
    hide InCancelledPeriod, CanRecord, ValidObservation, HistoryOf;
    OutsidePeriodsIsAccepted(db, p, o.occurredAt);
    AcceptedMoneySettles(db, base.payments.Keys, clock, p, event, o, active, receivedAt, now, ids);
  }

  lemma SingleCandidateSettles(db: Tables, p: Id, event: Id, o: Observation, active: Option<string>,
                               receivedAt: int, now: int, ids: RowIds)
    requires ValidObservation(o) && MatchSet(db, o) == {p} && p in db.payments && p in db.reservations
    requires FreshHistory(db.history, ids.history) && FreshEvent(db.outbox, ids.event)
    requires !Observed(db.observations, event)
    requires Trim(db.reservations[p].profile) != "" || active.Some?
    ensures SettlesOn(db, p, o, SettleTx(db, event, o, active, receivedAt, now, ids))
  {
    assert ConfirmTx(db, p, o.(profile := db.reservations[p].profile), now, ids).Ok?;
  }

  /** New evidence, or what was known when it is blank. */
  predicate Fills(evidence: string, known: string, after: string) {
    after == if evidence != "" then evidence else known
  }

  /** The whole effect of a settled observation on the payments: at most one payment changes, the only
      candidate. Unless it was paid already, it is paid at the occurrence, by the payer the observation
      names where it names one, and one history row and one webhook tell of it; if it was, only
      blank payer fields take what the observation says. */
  ghost predicate SoundSettlement(db: Tables, o: Observation, s: Settled, now: int) {
    && s.db.reservations == db.reservations && s.db.keys == db.keys
    && (s.payment.None? ==>
          s.db.payments == db.payments && s.db.history == db.history && s.db.outbox == db.outbox && !s.transitioned)
    && (s.payment.Some? ==>
          var p := s.payment.value;
          && MatchSet(db, o) == {p} && p in db.payments && p in s.db.payments
          && s.db.payments == db.payments[p := s.db.payments[p]]
          && var before, after := db.payments[p], s.db.payments[p];
          && (s.transitioned <==> before.status != Paid)
          && (s.transitioned ==>
                && after == before.(status := Paid, paidAt := Some(o.occurredAt), payerName := after.payerName,
                                    payerUpi := after.payerUpi)
                && Fills(o.payerName, before.payerName, after.payerName)
                && Fills(o.payerUpi, before.payerUpi, after.payerUpi)
                && |s.db.history| == |db.history| + 1 && |s.db.outbox| == |db.outbox| + 1
                && s.db.history[..|db.history|] == db.history && s.db.outbox[..|db.outbox|] == db.outbox
                && s.db.history[|db.history|] == HistoryRow(s.db.history[|db.history|].id, p, PaymentPaid, System,
                                                            Some(StatusChange(before.status, Paid)), false, now)
                && s.db.outbox[|db.outbox|] == OutboxRow(s.db.outbox[|db.outbox|].id, PaymentPaid, p, after, now))
          && (!s.transitioned ==>
                && after == before.(payerName := after.payerName, payerUpi := after.payerUpi)
                && Fills(before.payerName, o.payerName, after.payerName)
                && Fills(before.payerUpi, o.payerUpi, after.payerUpi)
                && s.db.history == db.history && s.db.outbox == db.outbox))
  }

  /** Soundness: an automatic move to paid happens only for the payment whose exact amount and
      window fit and whose scan accepts the instant; so never inside a cancelled period, when the
      status changes are read as they happened. */
  lemma MatchingIsSound(db: Tables, event: Id, o: Observation, active: Option<string>,
                        receivedAt: int, now: int, ids: RowIds, s: Settled)
    requires RowsOk(db)
    requires SettleTx(db, event, o, active, receivedAt, now, ids) == Ok(s)
    ensures SoundSettlement(db, o, s, now)
    ensures s.payment.Some? ==>
      var p := s.payment.value;
      && p in db.payments && p in db.reservations && o.amount == db.payments[p].payable
      && db.payments[p].createdAt <= o.occurredAt <= db.payments[p].reuseAfter
      && (db.reservations[p].releasedAt.Some? ==> o.occurredAt <= db.reservations[p].releasedAt.value)
      && !CancelledAt(db, p, o.occurredAt)
      && var rows := HistoryOf(db.history, p);
      && (Linked(rows) && InsertionOrder(rows) ==> !InCancelledPeriod(rows, o.occurredAt))
      && (o.source == PaytmNotification ==> db.payments[p].profile == o.profile)
  {
    SettleShape(db, event, o, active, receivedAt, now, ids, s);
    hide SettleTx, MatchSet, Linked, InsertionOrder, InCancelledPeriod, SoundSettlement, CancelledAt, HistoryOf;
    if s.payment.Some? {
      var p := s.payment.value;
      CandidateFacts(db, p, o);
      hide RowsOk;
      CandidateIsInside(db, p, o);
      AcceptedIsOutsidePeriods(db, p, o.occurredAt);
      SettledEffect(db, event, o, active, receivedAt, now, ids, s, p);
    } else {
      UnsettledEffect(db, event, o, active, receivedAt, now, ids, s);
    }
  }

  lemma CandidateIsInside(db: Tables, p: Id, o: Observation)
    requires p in MatchSet(db, o)
    ensures p in db.reservations && !CancelledAt(db, p, o.occurredAt)
    ensures db.reservations[p].releasedAt.Some? ==> o.occurredAt <= db.reservations[p].releasedAt.value
  {
    hide CancelledAt;
  }

  lemma UnsettledEffect(db: Tables, event: Id, o: Observation, active: Option<string>, receivedAt: int,
                        now: int, ids: RowIds, s: Settled)
    requires SettledAs(db, event, o, active, receivedAt, now, ids, s) && s.payment.None?
    ensures SoundSettlement(db, o, s, now)
  {
    hide MatchSet;
  }

  lemma SettledEffect(db: Tables, event: Id, o: Observation, active: Option<string>, receivedAt: int,
                      now: int, ids: RowIds, s: Settled, p: Id)
    requires SettledAs(db, event, o, active, receivedAt, now, ids, s) && s.payment == Some(p)
    ensures SoundSettlement(db, o, s, now)
  {
    var attributed := o.(profile := db.reservations[p].profile);
    var (middle, transitioned) := ConfirmTx(db, p, attributed, now, ids).value;
    assert s.db == middle.(observations := s.db.observations);
  }

  /** On every run, at any clock readings, from any database whose reservations mirror its payments: a
      payment of the run that no operator ever touched and that is paid has a matched observation of
      its exact amount, at paid_at, inside its window. */
  lemma {:induction false} UntouchedPaidHasEvidence(base: Tables, steps: seq<Step>, p: Id)
    requires RowsOk(base) && Unnamed(base, p) && p in Run(base, steps).payments
    requires NoOperator(Run(base, steps).history, p) && Run(base, steps).payments[p].status == Paid
    ensures HasEvidence(Run(base, steps).observations, p, Run(base, steps).payments[p])
  {
    UnnamedIsConfirmable(base, p);
    RunKeepsConfirm(base, steps, p);
    hide Run, RowsOk, Unnamed;
  }

  /** On every such run a payment of the run that never left "paid" was confirmed by "matched" first
      and "corroborated" after, and was settled by the system at most once. */
  lemma {:induction false} ConfirmationsAreOrdered(base: Tables, steps: seq<Step>, p: Id)
    requires RowsOk(base) && Unnamed(base, p) && p in Run(base, steps).payments
    requires NeverLeftPaid(Run(base, steps).history, p)
    ensures var db := Run(base, steps);
      && MatchedThenCorroborated(Confirmations(db.observations, p)) && SystemPaid(db.history, p) <= 1
      && (Confirmations(db.observations, p) != [] ==> db.payments[p].status == Paid)
  {
    UnnamedIsConfirmable(base, p);
    RunKeepsConfirm(base, steps, p);
    hide Run, RowsOk, Unnamed;
  }

  // ----- Replay and outbox, from an empty database -----

  /** The history of every payment replays, and the whole outbox mirrors the whole history. */
  lemma {:induction false} EmptyStartReplays(steps: seq<Step>)
    ensures var db := Run(EMPTY, steps);
      && (forall p {:trigger db.payments[p]} :: p in db.payments ==>
            && Replay(HistoryOf(db.history, p)) == Some(db.payments[p].status)
            && (db.payments[p].status == Paid <==> db.payments[p].paidAt.Some?))
      && Published(db.outbox) == Announced(db.history)
  {
    var db := Run(EMPTY, steps);
    var _ := RunAnnounces(EMPTY, steps);
    hide Run;
    forall p {:trigger db.payments[p]} | p in db.payments
      ensures Replay(HistoryOf(db.history, p)) == Some(db.payments[p].status)
      ensures db.payments[p].status == Paid <==> db.payments[p].paidAt.Some?
    {
      HistoryReplays(EMPTY, steps, p);
    }
  }

  // ----- What the filter says of the payments of a run -----

  /** The filter over the instants of one payment of a run, at any clock readings and from any database:
      exact at all of them if and only if at the instant of each status change and a millisecond
      later. When the status changes are read as they happened it never accepts an instant of a
      cancelled period, and is exact if and only if "cancelled" was left cleanly. */
  lemma {:induction false} CancellationFilterIsExactIff(base: Tables, steps: seq<Step>, p: Id)
    requires DistinctIds(base.history) && Unnamed(base, p) && p in Run(base, steps).payments
    ensures var db, rows := Run(base, steps), HistoryOf(Run(base, steps).history, p);
      && (forall t :: CancelledAt(db, p, t) <==> ReadCancelledAt(rows, t))
      && ((forall t :: CancelledAt(db, p, t) <==> InCancelledPeriod(rows, t)) <==> ExactAtChanges(rows))
      && (InsertionOrder(rows) ==>
            && (forall t :: InCancelledPeriod(rows, t) ==> CancelledAt(db, p, t))
            && (ExactAtChanges(rows) <==> LeavesCancelledCleanly(rows)))
  {
    var db := Run(base, steps);
    UnnamedIsTold(base, p);
    RunKeepsTold(base, steps, p);
    RunKeepsIds(base, steps);
    ToldIsLinked(db, p);
    HistoryOfHasDistinctIds(db.history, p);
    hide Run, Told, Unnamed, Linked, DistinctIds, InsertionOrder, LeavesCancelledCleanly;
    hide InCancelledPeriod, Rejected, SortRows, HistoryOf, ReadCancelledAt, ExactAtChanges;
    var rows := HistoryOf(db.history, p);
    forall t ensures CancelledAt(db, p, t) <==> ReadCancelledAt(rows, t) {
      InstantIsDroppedIff(db, p, t);
    }
    ExactIffAtChanges(rows);
    if InsertionOrder(rows) {
      OrderedVerdictIsExactIff(rows);
    }
  }

  /** Between a cancellation or a reopen of a payment of the run and its next status change, on every
      run forward in time: the instant is dropped if and only if the query reads that span as
      cancelled. */
  lemma {:induction false} SpanIsDroppedIff(base: Tables, steps: seq<Step>, start: int, p: Id, t: int, i: int)
    requires CommitsForward(start, steps) && DistinctIds(base.history) && Unnamed(base, p)
    requires var rows := HistoryOf(Run(base, steps).history, p); InSpanOf(rows, t, i) && IsToggle(rows[i])
    ensures var db := Run(base, steps); CancelledAt(db, p, t) <==> ReadAsCancelled(HistoryOf(db.history, p), i)
  {
    NoHistory(base.history, p);
    assert Chronicle([], start);
    RunKeepsOwnChronicle(base, steps, start, p);
    RunKeepsIds(base, steps);
    var rows := HistoryOf(Run(base, steps).history, p);
    HistoryOfHasDistinctIds(Run(base, steps).history, p);
    OwnRowsAreChronological(rows, LastCommit(start, steps));
    hide Run, Unnamed, CommitsForward, Chronicle, DistinctIds, Chronological, HistoryOf;
    hide Rejected, ReadAsCancelled, InSpanOf, SortRows;
    SpanIsRejectedIff(rows, t, i);
  }

  /** So money strictly inside the window, of an instant after a cancellation or a reopen and before
      the next status change, finds the payment, and then as its only candidate, if and only if the
      query does not read that span as cancelled. */
  lemma {:induction false} SpanMoneyMatchesIff(base: Tables, steps: seq<Step>, start: int, p: Id, o: Observation,
                                               i: int)
    requires CommitsForward(start, steps) && Startable(base, start) && DistinctIds(base.history) && Unnamed(base, p)
    requires MoneyInside(Run(base, steps), p, o)
    requires var rows := HistoryOf(Run(base, steps).history, p); InSpanOf(rows, o.occurredAt, i) && IsToggle(rows[i])
    ensures var db := Run(base, steps);
      && (p in MatchSet(db, o) <==> !ReadAsCancelled(HistoryOf(db.history, p), i))
      && (p in MatchSet(db, o) ==> MatchSet(db, o) == {p})
  {
    SpanIsDroppedIff(base, steps, start, p, o.occurredAt, i);
    var db, given := Run(base, steps), base.payments.Keys;
    CommitsForwardIsClockForward(start, start, steps);
    assert WindowsOk(base, given, start);
    hide WindowsOk, Startable, Run, CommitsForward, ClockForward, DistinctIds, ReadAsCancelled, InSpanOf, CancelledAt;
    hide HistoryOf;
    RunKeepsWindows(base, steps, given, start);
    if !CancelledAt(db, p, o.occurredAt) {
      AcceptedMoneyIsUnique(db, given, LastClock(start, steps), p, o);
    }
  }

  /** Money of a payment whose last status change was the reopen in row r is refused, at every later
      instant of its window, if and only if a cancellation of the reopen's own millisecond has an id
      beyond those of all reopens of it. */
  lemma {:induction false} ReopenedMoneyIsRefusedIff(base: Tables, steps: seq<Step>, start: int, p: Id, o: Observation,
                                                     r: int)
    requires CommitsForward(start, steps) && Startable(base, start) && DistinctIds(base.history) && Unnamed(base, p)
    requires MoneyInside(Run(base, steps), p, o)
    requires var rows := HistoryOf(Run(base, steps).history, p);
      && 0 <= r < |rows| && IsDirectReopen(rows[r]) && rows[r].at < o.occurredAt
      && forall k :: r < k < |rows| ==> !HasStatus(rows[k])
    ensures var db := Run(base, steps);
      p !in MatchSet(db, o) <==> exists c :: ReadLast(HistoryOf(db.history, p), r, c)
  {
    hide Run, CommitsForward, Startable, DistinctIds, Unnamed, MoneyInside, HistoryOf, MatchSet, ReadLast;
    SpanMoneyMatchesIff(base, steps, start, p, o, r);
  }

  // ----- Amounts are never shared while protected -----

  /** From an empty database: until reuse_after a reservation is unreleased, and no other payment
      still protected at that time has its amount. */
  lemma EmptyStartProtects(db: Tables, clock: int, now: int, p: Id, q: Id)
    requires Reachable(db, clock) && clock <= now && p in db.payments && q in db.payments && p != q
    requires now < db.payments[p].reuseAfter && now < db.payments[q].reuseAfter
    ensures db.payments[p].payable != db.payments[q].payable
    ensures p in db.reservations && db.reservations[p].releasedAt.None?
  {
    ReachableIsFrom(db, clock);
    hide Reachable, ReachableFrom;
    ProtectedAmountsDiffer(EMPTY, db, clock, now, p, q);
  }

  /** Reopening is refused from reuse_after on and after the release; an edit that does not read an
      earlier clock than the last create is refused exactly from reuse_after on, as the check that
      the reservation is unreleased then follows from the check on time. */
  lemma ReopenRefusedIffTooLate(base: Tables, db: Tables, clock: int, payment: Id, e: EditInput, now: int, ids: RowIds)
    requires ReachableFrom(base, db, clock) && payment in db.payments
    requires EditAccepted(db.payments[payment], e)
    requires db.payments[payment].status != Pending && EditedStatus(db.payments[payment], e) == Pending
    ensures payment in db.reservations
    ensures EditTx(db, payment, e, now, ids) == Err(UnsafeReopen)
       <==> now >= db.payments[payment].reuseAfter || db.reservations[payment].releasedAt.Some?
    ensures clock <= now ==>
      (EditTx(db, payment, e, now, ids) == Err(UnsafeReopen) <==> now >= db.payments[payment].reuseAfter)
  {
    ReachableWindows(base, db, clock);
    var p := db.payments[payment];
    assert StatusField in ChangedFields(p, EditedPayment(p, e, now));
    assert Backed(p, db.reservations[payment]);
  }

  // ----- Identity -----

  lemma {:induction false} ExpireKeepsIdentity(db: Tables, due: seq<Id>, now: int, ids: seq<RowIds>, next: Tables,
                                               count: nat, p: Id)
    requires ExpireAll(db, due, now, ids) == Ok((next, count))
    ensures p in db.payments ==> p in next.payments && SameIdentity(db.payments[p], next.payments[p])
    ensures next.keys == db.keys && next.reservations == db.reservations
    decreases |due|
  {
    if due == [] {
    } else if !IsDue(db.payments, due[0], now) {
      ExpireKeepsIdentity(db, due[1..], now, ids, next, count, p);
    } else {
      ExpireAllUnfold(db, due, now, ids, next, count);
      ExpireKeepsIdentity(ExpireOne(db, due[0], now, ids[0]), due[1..], now, ids[1..], next, count - 1, p);
    }
  }

  lemma CreateFrame(db: Tables, key: Key, request: Request, windows: Windows, profile: Option<Profile>,
                    now: int, ids: CreateIds, pick: int, created: Created)
    requires CreateTx(db, key, request, windows, profile, now, ids, pick) == Ok(created)
    ensures forall p :: p in db.payments ==> p in created.db.payments && created.db.payments[p] == db.payments[p]
    ensures forall k :: k in Purge(db.keys, now) ==> k in created.db.keys && created.db.keys[k] == db.keys[k]
  {
    if !created.replayed {
      CreateInserts(db, key, request, windows, profile, now, ids, pick, created);
    }
  }

  lemma SettleFrame(db: Tables, event: Id, o: Observation, active: Option<string>, receivedAt: int,
                    now: int, ids: RowIds, s: Settled)
    requires SettleTx(db, event, o, active, receivedAt, now, ids) == Ok(s)
    ensures SoundSettlement(db, o, s, now)
  {
    SettleShape(db, event, o, active, receivedAt, now, ids, s);
    hide SettleTx, MatchSet, SoundSettlement, ConfirmTx, Observe;
    if s.payment.Some? {
      SettledEffect(db, event, o, active, receivedAt, now, ids, s, s.payment.value);
    } else {
      UnsettledEffect(db, event, o, active, receivedAt, now, ids, s);
    }
  }

  /** No step deletes a payment, changes its amounts, destination or instants, or drops a key
      that has not expired. */
  lemma StepFrame(db: Tables, step: Step, p: Id, key: Key)
    ensures p in db.payments ==>
      p in Apply(db, step).payments && SameIdentity(db.payments[p], Apply(db, step).payments[p])
    ensures key in db.keys && (step.Create? ==> step.now < db.keys[key].expiresAt)
      ==> key in Apply(db, step).keys && Apply(db, step).keys[key] == db.keys[key]
  {
    hide SelectFrom;
    match step
    case Create(input, windows, profile, now, ids, pick) =>
      if NormalizeCreate(input).Ok? {
        var (k, request) := NormalizeCreate(input).value;
        var r := CreateTx(db, k, request, windows, profile, now, ids, pick);
        hide CreateTx;
        if r.Ok? { CreateFrame(db, k, request, windows, profile, now, ids, pick, r.value); }
      }
    case Cancel(payment, now, ids) =>
      hide CancelTx;
      var r := CancelTx(db, payment, now, ids);
      if r.Ok? { CancelFrame(db, payment, now, ids, r.value); }
    case ExpireDue(limit, now, ids) =>
      var due := InDueOrder(db.payments, DueSet(db.payments, now), ClampLimit(limit));
      var r := ExpireAll(db, due, now, ids);
      hide ExpireAll;
      if r.Ok? { ExpireKeepsIdentity(db, due, now, ids, r.value.0, r.value.1, p); }
    case Edit(payment, e, now, ids) =>
      hide EditTx;
      var r := EditTx(db, payment, e, now, ids);
      if r.Ok? { EditFrame(db, payment, e, now, ids, r.value); }
    case Settle(event, o, active, receivedAt, now, ids) =>
      hide SettleTx;
      var r := SettleTx(db, event, o, active, receivedAt, now, ids);
      if r.Ok? { SettleFrame(db, event, o, active, receivedAt, now, ids, r.value); }
  }

  lemma {:induction false} RunKeepsIdentity(db: Tables, steps: seq<Step>, p: Id)
    requires p in db.payments
    ensures p in Run(db, steps).payments && SameIdentity(db.payments[p], Run(db, steps).payments[p])
    decreases |steps|
  {
    hide Apply;
    if steps != [] {
      StepFrame(db, steps[0], p, Key("", ""));
      RunKeepsIdentity(Apply(db, steps[0]), steps[1..], p);
    }
  }

  // ----- Idempotent create -----

  /** A key row survives every run without a create after it expires. */
  lemma {:induction false} KeyOutlivesRun(db: Tables, steps: seq<Step>, clock: int, key: Key)
    requires ClockForward(clock, steps) && key in db.keys
    requires LastClock(clock, steps) < db.keys[key].expiresAt
    ensures key in Run(db, steps).keys && Run(db, steps).keys[key] == db.keys[key]
    decreases |steps|
  {
    hide Apply;
    if steps != [] {
      ClockOnlyAdvances(ClockAfter(clock, steps[0]), steps[1..]);
      StepFrame(db, steps[0], 0, key);
      KeyOutlivesRun(Apply(db, steps[0]), steps[1..], ClockAfter(clock, steps[0]), key);
    }
  }

  lemma {:induction false} ClockOnlyAdvances(clock: int, steps: seq<Step>)
    requires ClockForward(clock, steps)
    ensures clock <= LastClock(clock, steps)
    decreases |steps|
  {
    if steps != [] { ClockOnlyAdvances(ClockAfter(clock, steps[0]), steps[1..]); }
  }

  /** The stored payment is answered and no row is added or changed; expired keys may go. */
  ghost predicate Replayed(db: Tables, payment: Id, r: Result<Created, Failure>) {
    r.Ok? && r.value == Created(db.(keys := r.value.db.keys), payment, true)
  }

  /** For 24 hours after a create, whatever runs in between, the same request under the same key
      is answered with the same payment, of the same amount and destination, and any other
      request under that key is refused; neither adds a payment. So two distinct payments of
      one key are created at least 24 hours apart. */
  lemma {:induction false} CreateIsIdempotent(db: Tables, key: Key, request: Request, windows: Windows,
                                              profile: Option<Profile>, now: int, ids: CreateIds, pick: int,
                                              created: Created, steps: seq<Step>, request': Request, windows': Windows,
                                              profile': Option<Profile>, now': int, ids': CreateIds, pick': int)
    requires CreateTx(db, key, request, windows, profile, now, ids, pick) == Ok(created) && !created.replayed
    requires ClockForward(now, steps) && LastClock(now, steps) <= now' < now + IDEMPOTENCY_TTL
    ensures var later := Run(created.db, steps);
      var r := CreateTx(later, key, request', windows', profile', now', ids', pick');
      && created.payment in created.db.payments && created.payment in later.payments
      && SameIdentity(created.db.payments[created.payment], later.payments[created.payment])
      && (request' != request ==> r == Err(IdempotencyConflict))
      && (request' == request ==> Replayed(later, created.payment, r))
  {
    CreateInserts(db, key, request, windows, profile, now, ids, pick, created);
    assert created.db.keys[key] == KeyRow(request, ids.payment, now, now + IDEMPOTENCY_TTL);
    KeyOutlivesRun(created.db, steps, now, key);
    hide Inserted, Run;
    RunKeepsIdentity(created.db, steps, created.payment);
  }

  // ----- Capacity and constraints -----

  /** With fewer than 594 unreleased reservations in the database a create with fresh ids for an
      active profile succeeds, whatever the random index, unless that lies outside the candidates:
      the allocator finds an amount and every constraint accepts it. */
  lemma CreateSucceedsWithRoom(db: Tables, key: Key, request: Request, windows: Windows, profile: Profile,
                               now: int, ids: CreateIds, pick: int)
    requires RowsOk(db) && key !in Purge(db.keys, now) && profile.id != ""
    requires Roomy(request.amount) && |Unreleased(db.reservations)| < 594
    requires ids.payment !in db.payments
    requires FreshHistory(db.history, ids.rows.history) && FreshEvent(db.outbox, ids.rows.event)
    ensures var r := CreateTx(db, key, request, windows, Some(profile), now, ids, pick);
      r.Ok? || (r == Err(BadRandomIndex) && pick != 0)
  {
    var res := Release(db.reservations, now);
    assert ids.payment !in res;
    hide RowsOk;
    assert Unreleased(res) <= Unreleased(db.reservations);
    SubsetSize(Unreleased(res), Unreleased(db.reservations));
    RoomChoice(res, request.amount, now - SOFT_HORIZON, pick);
    hide SelectFrom, Held, Release, Purge;
    var choice := SelectFrom(res, request.amount, now - SOFT_HORIZON, 0, pick);
    if choice.Ok? {
      assert PaymentChecks(NewPayment(request, choice.value, profile, windows, now));
    }
  }

  /** With room, the allocator answers with a free amount that every amount CHECK accepts. */
  lemma {:induction false} RoomChoice(res: map<Id, Reservation>, requested: int, cutoff: int, pick: int)
    requires Roomy(requested) && |Unreleased(res)| < 594
    ensures var r := SelectFrom(res, requested, cutoff, 0, pick);
      && (r.Err? ==> r.error == BadRandomIndex && pick != 0)
      && (r.Ok? ==> !Held(res, r.value) && 1 <= r.value - requested <= 599 && r.value % 100 != 0)
  {
    RoomMeansCapacity(res, requested, cutoff, pick);
    SelectIsBest(res, requested, cutoff, pick);
    var r := SelectFrom(res, requested, cutoff, 0, pick);
    hide SelectFrom, BestChoice, Slot, Held, Unreleased, AllHeld;
    if r.Ok? {
      var b, k :| r.value == Slot(requested, b, k) && BestChoice(res, requested, cutoff, b, k);
      BestFits(res, requested, cutoff, b, k);
    }
  }

  // ----- ExpireDue -----

  /** ExpireDue moves exactly the listed due payments from pending to expired. */
  lemma {:induction false} ExpireIsExact(db: Tables, due: seq<Id>, now: int, ids: seq<RowIds>, next: Tables, count: nat)
    requires ExpireAll(db, due, now, ids) == Ok((next, count))
    requires forall i :: 0 <= i < |due| ==> IsDue(db.payments, due[i], now)
    requires forall i, j :: 0 <= i < j < |due| ==> due[i] != due[j]
    ensures count == |due| && next.payments.Keys == db.payments.Keys
    ensures forall p :: p in db.payments ==>
              next.payments[p] == (if p in due then db.payments[p].(status := Expired) else db.payments[p])
    decreases |due|
  {
    if due != [] {
      ExpireAllUnfold(db, due, now, ids, next, count);
      var first, tail := ExpireOne(db, due[0], now, ids[0]), due[1..];
      assert first.payments == db.payments[due[0] := db.payments[due[0]].(status := Expired)];
      hide ExpireOne, ExpireAll;
      assert due[0] !in tail && forall i :: 0 <= i < |tail| ==> tail[i] == due[i + 1];
      ExpireIsExact(first, tail, now, ids[1..], next, count - 1);
      hide IsDue;
      forall p | p in db.payments
        ensures next.payments[p] == (if p in due then db.payments[p].(status := Expired) else db.payments[p])
      {
        assert p in due <==> p == due[0] || p in tail;
      }
    }
  }

  /** The listed payments: distinct, due, at most the limit, and none left out is earlier. */
  lemma {:induction false} DueOrderIsExact(payments: map<Id, Payment>, due: set<Id>, n: nat)
    requires due <= payments.Keys
    ensures var listed := InDueOrder(payments, due, n);
      && (forall i :: 0 <= i < |listed| ==> listed[i] in due)
      && (forall i, j :: 0 <= i < j < |listed| ==> listed[i] != listed[j] && DueBefore(payments, listed[i], listed[j]))
      && (forall i, p :: 0 <= i < |listed| && p in due && p !in listed ==> DueBefore(payments, listed[i], p))
      && |listed| == if n <= |due| then n else |due|
    decreases n
  {
    if due != {} && n > 0 {
      var p := Earliest(payments, due);
      DueOrderIsExact(payments, due - {p}, n - 1);
      var rest := InDueOrder(payments, due - {p}, n - 1);
      assert InDueOrder(payments, due, n) == [p] + rest;
      assert |due - {p}| == |due| - 1;
    }
  }
}
