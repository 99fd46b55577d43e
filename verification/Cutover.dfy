/** From the v3 cutover to the running service: what an import leaves is a database the payment
    theorems start from, whatever its history, keys and outbox look like. */
module Cutover {
  import opened Common
  import opened Domain
  import opened History
  import opened Ledger
  import opened LedgerConfirmations
  import opened LedgerInvariants
  import opened LedgerRecords
  import opened LedgerWindows
  import opened MerchantView
  import LedgerTheorems
  import opened Relay
  import RelayTheorems
  import Preflight

  function PaymentOf(m: Preflight.Migrated): Payment {
    Payment(m.name, m.externalId, m.metadata, m.requested, m.payable, m.adjustment, m.status, m.profile, m.upiId,
            m.payee, m.createdAt, m.expiresAt, m.graceUntil, m.reuseAfter, Preflight.StoredTime(m.paidAt),
            m.payerName, m.payerUpi, m.note)
  }

  function ReservationOf(m: Preflight.Migrated, now: int): Reservation {
    Reservation(m.profile, m.payable, m.createdAt, m.reuseAfter, Preflight.ReleasedAt(m, now), m.createdAt)
  }

  /** The tables after the import; a payment's id is its position. The rest is what the import
      writes beside them: tombstones of keys, and history rows without webhooks. */
  function ImportedTables(out: seq<Preflight.Migrated>, now: int, rest: Tables): Tables {
    rest.(payments := map i: Id | i < |out| :: PaymentOf(out[i]),
          reservations := map i: Id | i < |out| :: ReservationOf(out[i], now))
  }

  lemma ImportedRow(m: Preflight.Migrated, now: int)
    requires Preflight.MeetsChecks(m, now)
    ensures PaymentChecks(PaymentOf(m)) && Backed(PaymentOf(m), ReservationOf(m, now))
    ensures ReservationOf(m, now).releasedAt.Some? ==> ReservationOf(m, now).releasedAt.value <= now
  {
  }

  lemma ImportedRows(out: seq<Preflight.Migrated>, now: int, rest: Tables)
    requires Preflight.AllInsertable(out, now, |out|)
    ensures RowsOk(ImportedTables(out, now, rest)) && ClockOk(ImportedTables(out, now, rest), now)
  {
    hide Preflight.MeetsChecks, Preflight.KeysFree, PaymentChecks, PaymentOf, ReservationOf, Backed;
    var base := ImportedTables(out, now, rest);
    forall i: Id | i < |out|
      ensures PaymentChecks(base.payments[i]) && Backed(base.payments[i], base.reservations[i])
      ensures base.reservations[i].releasedAt.Some? ==> base.reservations[i].releasedAt.value <= now
    {
      ImportedRow(out[i], now);
    }
  }

  lemma ImportedAmountsDiffer(out: seq<Preflight.Migrated>, now: int, rest: Tables)
    requires Preflight.HeldAmountsDiffer(out, now, |out|)
    ensures UniqueHeld(ImportedTables(out, now, rest).reservations)
  {
    hide PaymentOf;
    var res := ImportedTables(out, now, rest).reservations;
    forall p, q | p in res && q in res && p != q && res[p].releasedAt.None? && res[q].releasedAt.None?
      ensures res[p].payable != res[q].payable
    {
      var (i, j) := if p < q then (p, q) else (q, p);
      assert !Preflight.SameHeldAmount(out[i], out[j], now);
    }
  }

  /** A legacy payment after the cutover: every column of its payment and its reservation, which is released
      once its amount may be used again. */
  ghost predicate StoredFrom(p: Preflight.LegacyPayment, opts: Preflight.Options, now: int, q: Payment,
                             r: Reservation)
  {
    && (exists m :: Preflight.MigratedFrom(p, opts, now, m)
          && q.name == m.name && q.externalId == m.externalId && q.metadata == m.metadata
          && q.requested == m.requested && q.payable == m.payable && q.adjustment == m.adjustment
          && q.status == m.status && q.profile == m.profile && q.upiId == m.upiId && q.payee == m.payee
          && q.createdAt == m.createdAt && q.expiresAt == m.expiresAt && q.graceUntil == m.graceUntil
          && q.reuseAfter == m.reuseAfter && q.paidAt == m.paidAt && q.payerName == m.payerName
          && q.payerUpi == m.payerUpi && q.note == m.note)
    && r.profile == q.profile && r.payable == q.payable && r.reservedAt == q.createdAt
    && r.reservedUntil == q.reuseAfter && r.lastUsedAt == q.createdAt
    && r.releasedAt == if q.reuseAfter <= now then Some(q.reuseAfter) else None
  }

  /** A successful import stores every legacy row so, and nothing else as a payment or a reservation. */
  lemma {:induction false} LegacyIsStored(rows: seq<Preflight.LegacyPayment>, opts: Preflight.Options, now: int,
                                          rest: Tables)
    requires Preflight.AllAcceptable(rows, opts)
    requires Preflight.Imported(Preflight.NormalizedAll(rows, opts, now), now, |rows|).Some?
    ensures var db := ImportedTables(Preflight.NormalizedAll(rows, opts, now), now, rest);
      && (forall i: Id :: i in db.payments <==> i < |rows|) && (forall i: Id :: i in db.reservations <==> i < |rows|)
      && forall i: Id :: i < |rows| ==> StoredFrom(rows[i], opts, now, db.payments[i], db.reservations[i])
  {
    var out := Preflight.NormalizedAll(rows, opts, now);
    hide Preflight.Imported, Preflight.Acceptable, Preflight.Normalized, StoredFrom, PaymentOf, ReservationOf;
    hide Preflight.NormalizedAll, Preflight.MeetsChecks, Preflight.MigratedFrom, ImportedTables;
    TablesHold(out, now, rest);
    assert |out| == |rows|;
    forall i: Id | i < |rows| ensures StoredFrom(rows[i], opts, now, PaymentOf(out[i]), ReservationOf(out[i], now)) {
      assert Preflight.Acceptable(rows[i], opts) && out[i] == Preflight.Normalized(rows[i], opts, now);
      Preflight.NormalizedIsMigrated(rows[i], opts, now);
      ImportedMeetsChecks(out, now, i);
      RowIsStored(rows[i], opts, now, out[i]);
    }
  }

  lemma TablesHold(out: seq<Preflight.Migrated>, now: int, rest: Tables)
    ensures var db := ImportedTables(out, now, rest);
      && (forall i: Id :: i in db.payments <==> i < |out|) && (forall i: Id :: i in db.reservations <==> i < |out|)
      && forall i: Id :: i < |out| ==>
           db.payments[i] == PaymentOf(out[i]) && db.reservations[i] == ReservationOf(out[i], now)
  {
    hide PaymentOf, ReservationOf;
  }

  lemma {:induction false} ImportedMeetsChecks(out: seq<Preflight.Migrated>, now: int, i: nat)
    requires Preflight.Imported(out, now, |out|).Some? && i < |out|
    ensures Preflight.MeetsChecks(out[i], now)
  {
    Preflight.ImportedIff(out, now);
    hide Preflight.Imported, Preflight.HeldAmountsDiffer, Preflight.KeysFree, Preflight.MeetsChecks;
  }

  lemma RowIsStored(p: Preflight.LegacyPayment, opts: Preflight.Options, now: int, m: Preflight.Migrated)
    requires Preflight.MigratedFrom(p, opts, now, m) && Preflight.MeetsChecks(m, now)
    ensures StoredFrom(p, opts, now, PaymentOf(m), ReservationOf(m, now))
  {
    assert Preflight.StoredTime(m.paidAt) == m.paidAt by { hide Trim, ToLower, IsSpace; }
    hide Preflight.MigratedFrom, Preflight.MeetsChecks;
  }

  /** A successful import is a start for any run whose clock begins no earlier. */
  lemma {:induction false} ImportIsStartable(out: seq<Preflight.Migrated>, now: int, rest: Tables, start: int)
    requires Preflight.Imported(out, now, |out|).Some? && now <= start
    ensures Startable(ImportedTables(out, now, rest), start)
  {
    hide Preflight.Imported, Preflight.AllInsertable, Preflight.HeldAmountsDiffer, ImportedTables, RowsOk, UniqueHeld;
    Preflight.ImportedIff(out, now);
    ImportedRows(out, now, rest);
    ImportedAmountsDiffer(out, now, rest);
  }

  /** The candidates that were created by the service. */
  ghost function NewCandidates(db: Tables, o: Observation, imported: nat): set<Id> {
    set p | p in MatchSet(db, o) && p >= imported
  }

  /** So after the cutover, on every run of the service: two candidates for one amount and instant
      share a window boundary, unless both were imported; at most two candidates are new; and while
      two payments are protected their amounts differ, imported or not. */
  lemma {:induction false} CutoverIsUnambiguous(out: seq<Preflight.Migrated>, now: int, rest: Tables, start: int,
                                                steps: seq<Step>, o: Observation)
    requires Preflight.Imported(out, now, |out|).Some? && now <= start && ClockForward(start, steps)
    ensures var db := Run(ImportedTables(out, now, rest), steps);
      && (forall p, q :: p in MatchSet(db, o) && q in MatchSet(db, o) && p != q ==>
            SharedBoundary(db, o, p, q) || SharedBoundary(db, o, q, p) || (p < |out| && q < |out|))
      && |NewCandidates(db, o, |out|)| <= 2
      && forall p, q :: p in db.payments && q in db.payments && p != q
           && LastClock(start, steps) < db.payments[p].reuseAfter && LastClock(start, steps) < db.payments[q].reuseAfter
           ==> db.payments[p].payable != db.payments[q].payable
  {
    var base := ImportedTables(out, now, rest);
    var db, clock := Run(base, steps), LastClock(start, steps);
    hide Preflight.Imported, Startable, Run, SharedBoundary, MatchSet, PaymentOf, ReservationOf, ClockForward;
    ImportIsStartable(out, now, rest, start);
    assert ReachableFrom(base, db, clock);
    assert forall p: Id :: p in base.payments <==> p < |out|;
    hide ReachableFrom, ImportedTables;
    CandidatesAreUnambiguous(base, db, clock, o);
    assert NewCandidates(db, o, |out|) == MatchSet(db, o) - base.payments.Keys;
    forall p, q | p in db.payments && q in db.payments && p != q
              && clock < db.payments[p].reuseAfter && clock < db.payments[q].reuseAfter
      ensures db.payments[p].payable != db.payments[q].payable
    {
      ProtectedAmountsDiffer(base, db, clock, clock, p, q);
    }
  }

  // ----- What new payments record -----

  /** Rows beside n imported payments: history of those payments alone, no webhook, no observation. */
  ghost predicate ImportedRest(rest: Tables, n: nat) {
    && rest.outbox == [] && rest.observations == []
    && forall i :: 0 <= i < |rest.history| ==> rest.history[i].payment < n
  }

  lemma NewIsUnnamed(out: seq<Preflight.Migrated>, now: int, rest: Tables, p: Id)
    requires ImportedRest(rest, |out|) && p >= |out|
    ensures Unnamed(ImportedTables(out, now, rest), p)
  {
  }

  /** After the cutover, on every run at any clock readings, the records of each new payment: its history
      replays, its webhooks announce it and show the payment, and while it never leaves "paid" it is
      matched before it is corroborated and settled by the system at most once. */
  lemma {:induction false} NewPaymentsAreRecorded(out: seq<Preflight.Migrated>, now: int, rest: Tables,
                                                  steps: seq<Step>, p: Id)
    requires Preflight.Imported(out, now, |out|).Some? && ImportedRest(rest, |out|) && p >= |out|
    requires p in Run(ImportedTables(out, now, rest), steps).payments
    ensures var db := Run(ImportedTables(out, now, rest), steps);
      && Replay(HistoryOf(db.history, p)) == Some(db.payments[p].status)
      && (db.payments[p].status == Paid <==> db.payments[p].paidAt.Some?)
      && About(Published(db.outbox), p) == About(Announced(db.history), p)
      && Picture(db.outbox, p).Some? && Shows(Picture(db.outbox, p).value, db.payments[p])
      && (NoOperator(db.history, p) && db.payments[p].status == Paid ==>
            HasEvidence(db.observations, p, db.payments[p]))
      && (NeverLeftPaid(db.history, p) ==>
            MatchedThenCorroborated(Confirmations(db.observations, p)) && SystemPaid(db.history, p) <= 1)
  {
    var base := ImportedTables(out, now, rest);
    NewIsUnnamed(out, now, rest, p);
    ImportIsStartable(out, now, rest, now);
    assert RowsOk(base);
    hide Preflight.Imported, ImportedTables, ImportedRest, Run, RowsOk, Unnamed, Startable, Replay, HistoryOf;
    hide About, Published, Announced, Picture, Shows, HasEvidence, MatchedThenCorroborated, Confirmations, SystemPaid;
    hide NoOperator, NeverLeftPaid;
    HistoryReplays(base, steps, p);
    WebhooksTellTheState(base, steps, p);
    var db := Run(base, steps);
    if NoOperator(db.history, p) && db.payments[p].status == Paid {
      LedgerTheorems.UntouchedPaidHasEvidence(base, steps, p);
    }
    if NeverLeftPaid(db.history, p) {
      LedgerTheorems.ConfirmationsAreOrdered(base, steps, p);
    }
  }

  // ----- Relay workers -----

  /** Relay workers after the cutover, in any interleaving: every event keeps at most one verdict, and
      what they make of the tables is a run from the imported ones, with all that is said of those. */
  lemma {:induction false} RelayAfterCutover(out: seq<Preflight.Migrated>, now: int, rest: Tables,
                                             devices: map<Id, Device>, start: int, steps: seq<RelayStep>,
                                             o: Observation)
    requires Preflight.Imported(out, now, |out|).Some? && ImportedRest(rest, |out|) && now <= start
    requires var w := World(ImportedTables(out, now, rest), devices, map[], map[]);
      ClockForward(start, RelayTheorems.Project(w, steps))
    ensures var w := World(ImportedTables(out, now, rest), devices, map[], map[]);
      var later := RunAll(w, steps);
      && RelayTheorems.RelayInv(later)
      && ReachableFrom(w.db, later.db, LastClock(start, RelayTheorems.Project(w, steps)))
      && |NewCandidates(later.db, o, |out|)| <= 2
  {
    var base := ImportedTables(out, now, rest);
    var w := World(base, devices, map[], map[]);
    ImportIsStartable(out, now, rest, start);
    RelayTheorems.QuietWorldIsSound(base, devices, map[]);
    RelayTheorems.RunEvolves(w, steps);
    RelayTheorems.RelayWorldsAreReachable(w, steps, start);
    RelayTheorems.RunProjects(w, steps);
    hide Preflight.Imported, ImportedTables, ImportedRest, Run, RunAll, RelayTheorems.RelayInv;
    hide ReachableFrom, NewCandidates, Startable;
    CutoverIsUnambiguous(out, now, rest, start, RelayTheorems.Project(w, steps), o);
  }

  // ----- Imported rivals -----

  /** Two expired v3 payments of one amount whose windows overlap, both released by now. */
  predicate Rivals(m: Preflight.Migrated, n: Preflight.Migrated, now: int, t: int) {
    && Preflight.MeetsChecks(m, now) && Preflight.MeetsChecks(n, now) && m.id != n.id && m.payable == n.payable
    && (m.idempotencyKey == "" || m.idempotencyKey != n.idempotencyKey)
    && m.createdAt < t < m.reuseAfter <= now && n.createdAt < t < n.reuseAfter <= now
  }

  /** They are imported, and money of an instant in both windows has both as candidates: neither the
      preflight nor the import looks at windows that are over. */
  lemma {:induction false} RivalsAreImported(m: Preflight.Migrated, n: Preflight.Migrated, now: int, o: Observation)
    requires Rivals(m, n, now, o.occurredAt) && o.source == GenericNotification && o.amount == m.payable
    ensures Preflight.Imported([m, n], now, 2).Some? && !Preflight.Collide(m, n, now)
    ensures var db := ImportedTables([m, n], now, EMPTY);
      MatchSet(db, o) == {0, 1} && BothGiven(db, db, o, 0, 1) && !SharedBoundary(db, o, 0, 1)
  {
    var out := [m, n];
    var db := ImportedTables(out, now, EMPTY);
    RivalsMayBeImported(out, now, o.occurredAt);
    Preflight.ImportedIff(out, now);
    hide Preflight.Imported, Preflight.MeetsChecks, Preflight.AllInsertable, Preflight.HeldAmountsDiffer;
    ImportedRows(out, now, EMPTY);
    hide RowsOk, ClockOk, MatchSet, CancelledAt;
    forall p: Id | p in {0, 1} ensures Claims(db, p, o) {
      NoHistoryNoRejection(db, p, o.occurredAt);
    }
    forall p ensures p in MatchSet(db, o) <==> p in {0, 1} {
      CandidateIff(db, p, o);
    }
  }

  lemma RivalsMayBeImported(out: seq<Preflight.Migrated>, now: int, t: int)
    requires |out| == 2 && Rivals(out[0], out[1], now, t)
    ensures Preflight.HeldAmountsDiffer(out, now, 2) && Preflight.AllInsertable(out, now, 2)
  {
    hide Preflight.MeetsChecks;
  }

  lemma NoHistoryNoRejection(db: Tables, p: Id, t: int)
    requires db.history == []
    ensures !CancelledAt(db, p, t)
  {
  }
}
