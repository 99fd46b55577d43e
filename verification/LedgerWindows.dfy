/** One amount, one instant, one payment: on every run from a database whose held amounts differ,
    whatever else that database contains, an empty or an imported one. */
module LedgerWindows {
  import opened Common
  import opened Domain
  import opened Ledger
  import opened LedgerInvariants

  // ----- Every step keeps reservations and payments in step -----

  lemma PaidIsDated(db: Tables, payment: Id)
    requires RowsOk(db) && payment in db.payments
    ensures db.payments[payment].status == Paid <==> db.payments[payment].paidAt.Some?
  {
  }

  lemma CancelFrame(db: Tables, payment: Id, now: int, ids: RowIds, next: Tables)
    requires CancelTx(db, payment, now, ids) == Ok(next)
    ensures payment in db.payments && next.keys == db.keys && next.reservations == db.reservations
    ensures db.payments[payment].status in {Pending, Cancelled}
    ensures next.payments == db.payments[payment := db.payments[payment].(status := Cancelled)]
  {
    if db.payments[payment].status == Cancelled {
      assert db.payments[payment].(status := Cancelled) == db.payments[payment];
    }
  }

  lemma {:induction false} ExpireKeepsRows(db: Tables, due: seq<Id>, now: int, ids: seq<RowIds>, next: Tables,
                                           count: nat)
    requires RowsOk(db) && ExpireAll(db, due, now, ids) == Ok((next, count))
    ensures RowsOk(next) && next.reservations == db.reservations
    decreases |due|
  {
    if due == [] {
    } else if !IsDue(db.payments, due[0], now) {
      ExpireKeepsRows(db, due[1..], now, ids, next, count);
    } else {
      ExpireAllUnfold(db, due, now, ids, next, count);
      PaidIsDated(db, due[0]);
      hide RowsOk, ExpireAll;
      var first := ExpireOne(db, due[0], now, ids[0]);
      UpdateKeepsRows(db, first, due[0], db.payments[due[0]].(status := Expired));
      ExpireKeepsRows(first, due[1..], now, ids[1..], next, count - 1);
    }
  }

  lemma EditFrame(db: Tables, payment: Id, e: EditInput, now: int, ids: RowIds, next: Tables)
    requires EditTx(db, payment, e, now, ids) == Ok(next)
    ensures payment in db.payments && next.keys == db.keys && next.reservations == db.reservations
    ensures next.observations == db.observations
    ensures next == db || next.payments == db.payments[payment := EditedPayment(db.payments[payment], e, now)]
  {
  }

  lemma SettleKeepsRows(db: Tables, event: Id, o: Observation, active: Option<string>, receivedAt: int,
                        now: int, ids: RowIds, s: Settled)
    requires RowsOk(db) && SettledAs(db, event, o, active, receivedAt, now, ids, s)
    ensures RowsOk(s.db) && s.db.reservations == db.reservations
  {
    hide MatchSet;
    if s.payment.Some? {
      var payment := s.payment.value;
      var attributed := o.(profile := db.reservations[payment].profile);
      var p := db.payments[payment];
      PaidIsDated(db, payment);
      hide RowsOk;
      if p.status == Paid {
        UpdateKeepsRows(db, s.db, payment, Enriched(p, attributed));
      } else {
        UpdateKeepsRows(db, s.db, payment, MarkedPaid(p, attributed));
      }
    }
  }

  lemma CreateKeepsRows(db: Tables, key: Key, request: Request, windows: Windows, profile: Option<Profile>,
                        now: int, ids: CreateIds, pick: int, created: Created)
    requires RowsOk(db) && CreateTx(db, key, request, windows, profile, now, ids, pick) == Ok(created)
    ensures RowsOk(created.db)
  {
    if !created.replayed {
      CreateInserts(db, key, request, windows, profile, now, ids, pick, created);
      hide RowsOk, CreateTx;
      InsertedKeepsRows(db, created, key, request, profile.value, windows, now, ids);
    }
  }

  /** At any clock reading, every step keeps the mirror, and only creates touch reservations. */
  lemma StepKeepsRows(db: Tables, step: Step)
    requires RowsOk(db)
    ensures RowsOk(Apply(db, step)) && (!step.Create? ==> Apply(db, step).reservations == db.reservations)
  {
    match step
    case Create(input, windows, profile, now, ids, pick) =>
      hide RowsOk, CreateTx;
      if NormalizeCreate(input).Ok? {
        var (key, request) := NormalizeCreate(input).value;
        var r := CreateTx(db, key, request, windows, profile, now, ids, pick);
        if r.Ok? { CreateKeepsRows(db, key, request, windows, profile, now, ids, pick, r.value); }
      }
    case Cancel(payment, now, ids) =>
      var r := CancelTx(db, payment, now, ids);
      if r.Ok? {
        CancelFrame(db, payment, now, ids, r.value);
        PaidIsDated(db, payment);
        hide RowsOk, CancelTx;
        UpdateKeepsRows(db, r.value, payment, db.payments[payment].(status := Cancelled));
      }
    case ExpireDue(limit, now, ids) =>
      hide RowsOk, ExpireAll;
      var due := InDueOrder(db.payments, DueSet(db.payments, now), ClampLimit(limit));
      var r := ExpireAll(db, due, now, ids);
      if r.Ok? { ExpireKeepsRows(db, due, now, ids, r.value.0, r.value.1); }
    case Edit(payment, e, now, ids) =>
      hide RowsOk, EditTx;
      var r := EditTx(db, payment, e, now, ids);
      if r.Ok? {
        EditFrame(db, payment, e, now, ids, r.value);
        if r.value != db {
          UpdateKeepsRows(db, r.value, payment, EditedPayment(db.payments[payment], e, now));
        }
      }
    case Settle(event, o, active, receivedAt, now, ids) =>
      hide RowsOk, SettleTx;
      var r := SettleTx(db, event, o, active, receivedAt, now, ids);
      if r.Ok? {
        SettleShape(db, event, o, active, receivedAt, now, ids, r.value);
        SettleKeepsRows(db, event, o, active, receivedAt, now, ids, r.value);
      }
  }

  // ----- Every step keeps the windows apart -----

  lemma CreateKeepsWindows(db: Tables, key: Key, request: Request, windows: Windows, profile: Option<Profile>,
                           given: set<Id>, clock: int, now: int, ids: CreateIds, pick: int, created: Created)
    requires WindowsOk(db, given, clock) && clock <= now
    requires CreateTx(db, key, request, windows, profile, now, ids, pick) == Ok(created)
    ensures WindowsOk(created.db, given, now)
  {
    if created.replayed {
      SameRowsKeepWindows(db, created.db, given, clock, now);
    } else {
      hide WindowsOk;
      CreateInserts(db, key, request, windows, profile, now, ids, pick, created);
      InsertedKeepsWindows(db, created, key, request, profile.value, windows, given, clock, now, ids);
    }
  }

  /** No reservation changes. */
  lemma SameRowsKeepWindows(db: Tables, next: Tables, given: set<Id>, clock: int, now: int)
    requires WindowsOk(db, given, clock) && clock <= now && RowsOk(next) && next.reservations == db.reservations
    ensures WindowsOk(next, given, now)
  {
    hide RowsOk;
  }

  lemma StepKeepsWindows(db: Tables, step: Step, given: set<Id>, clock: int)
    requires WindowsOk(db, given, clock) && clock <= ClockAfter(clock, step)
    ensures WindowsOk(Apply(db, step), given, ClockAfter(clock, step))
  {
    hide RowsOk, CreateTx;
    StepKeepsRows(db, step);
    if step.Create? && NormalizeCreate(step.input).Ok? {
      var (key, request) := NormalizeCreate(step.input).value;
      var r := CreateTx(db, key, request, step.windows, step.profile, step.now, step.createIds, step.pick);
      if r.Ok? {
        CreateKeepsWindows(db, key, request, step.windows, step.profile, given, clock, step.now, step.createIds,
                           step.pick, r.value);
      } else {
        SameRowsKeepWindows(db, Apply(db, step), given, clock, ClockAfter(clock, step));
      }
    } else {
      SameRowsKeepWindows(db, Apply(db, step), given, clock, ClockAfter(clock, step));
    }
  }

  /** Every run keeps held amounts different and the windows of one amount apart, but for windows
      that both were given. */
  lemma {:induction false} RunKeepsWindows(db: Tables, steps: seq<Step>, given: set<Id>, clock: int)
    requires WindowsOk(db, given, clock) && ClockForward(clock, steps)
    ensures WindowsOk(Run(db, steps), given, LastClock(clock, steps))
    decreases |steps|
  {
    hide WindowsOk, Apply;
    if steps != [] {
      StepKeepsWindows(db, steps[0], given, clock);
      RunKeepsWindows(Apply(db, steps[0]), steps[1..], given, ClockAfter(clock, steps[0]));
    }
  }

  // ----- Runs from any database without duplicate amounts -----

  /** What a run may start from: reservations that mirror the payments, none dated after start, and
      held amounts that differ. History, outbox, keys and observations may be anything. */
  ghost predicate Startable(base: Tables, start: int) {
    RowsOk(base) && ClockOk(base, start) && UniqueHeld(base.reservations)
  }

  /** A database some run led to from base, with no create later than clock. */
  ghost predicate ReachableFrom(base: Tables, db: Tables, clock: int) {
    exists start, steps ::
      Startable(base, start) && ClockForward(start, steps) && db == Run(base, steps) && LastClock(start, steps) <= clock
  }

  lemma ReachableWindows(base: Tables, db: Tables, clock: int)
    requires ReachableFrom(base, db, clock)
    ensures WindowsOk(db, base.payments.Keys, clock)
  {
    var start, steps :|
      && Startable(base, start) && ClockForward(start, steps)
      && db == Run(base, steps) && LastClock(start, steps) <= clock;
    assert WindowsOk(base, base.payments.Keys, start);
    hide WindowsOk, Run;
    RunKeepsWindows(base, steps, base.payments.Keys, start);
    SameRowsKeepWindows(db, db, base.payments.Keys, LastClock(start, steps), clock);
  }

  // ----- Candidates -----

  /** A payment an observation may settle, said of the payment alone. */
  ghost predicate Claims(db: Tables, p: Id, o: Observation) {
    && p in db.payments && db.payments[p].payable == o.amount
    && db.payments[p].createdAt <= o.occurredAt <= db.payments[p].reuseAfter
    && (o.source == PaytmNotification ==> db.payments[p].profile == o.profile)
    && !CancelledAt(db, p, o.occurredAt)
  }

  /** The reservation query adds nothing: a released reservation was released after its window. */
  lemma CandidateIff(db: Tables, p: Id, o: Observation)
    requires RowsOk(db)
    ensures p in MatchSet(db, o) <==> Claims(db, p, o)
  {
    hide CancelledAt;
    if p in db.payments {
      assert Backed(db.payments[p], db.reservations[p]);
    }
  }

  /** Two payments can claim one amount and instant only at the single instant at which the
      older window ends and the newer one begins, unless both were given. */
  lemma WindowsMeet(db: Tables, given: set<Id>, clock: int, p: Id, q: Id, o: Observation)
    requires WindowsOk(db, given, clock) && p != q && !(p in given && q in given)
    requires InWindow(db, p, o) && InWindow(db, q, o)
    ensures || db.payments[p].reuseAfter == o.occurredAt == db.payments[q].createdAt
            || db.payments[q].reuseAfter == o.occurredAt == db.payments[p].createdAt
  {
    assert Backed(db.payments[p], db.reservations[p]) && Backed(db.payments[q], db.reservations[q]);
    assert Apart(db.reservations[p], db.reservations[q]);
  }

  /** So on every run from a database without duplicate amounts. */
  lemma WindowsMeetAtOneInstant(base: Tables, db: Tables, clock: int, p: Id, q: Id, o: Observation)
    requires ReachableFrom(base, db, clock) && p != q && !(p in base.payments && q in base.payments)
    requires InWindow(db, p, o) && InWindow(db, q, o)
    ensures || db.payments[p].reuseAfter == o.occurredAt == db.payments[q].createdAt
            || db.payments[q].reuseAfter == o.occurredAt == db.payments[p].createdAt
  {
    ReachableWindows(base, db, clock);
    hide ReachableFrom, WindowsOk;
    WindowsMeet(db, base.payments.Keys, clock, p, q, o);
  }

  lemma WindowsAreProper(db: Tables, p: Id)
    requires RowsOk(db) && p in db.payments
    ensures db.payments[p].createdAt < db.payments[p].reuseAfter
  {
  }

  /** Never more than two, at most one of them given. */
  lemma NeverThreeCandidates(db: Tables, given: set<Id>, clock: int, p: Id, q: Id, r: Id, o: Observation)
    requires WindowsOk(db, given, clock) && InWindow(db, p, o) && InWindow(db, q, o) && InWindow(db, r, o)
    requires !(p in given && q in given) && !(q in given && r in given) && !(p in given && r in given)
    ensures p == q || q == r || p == r
  {
    WindowsAreProper(db, p);
    WindowsAreProper(db, q);
    WindowsAreProper(db, r);
    if p != q && q != r && p != r {
      WindowsMeet(db, given, clock, p, q, o);
      WindowsMeet(db, given, clock, q, r, o);
      WindowsMeet(db, given, clock, p, r, o);
    }
  }

  /** Two payments of the observed amount, the window of one ending at the observed instant and
      that of the other beginning, both of a fitting profile and neither read as cancelled. */
  ghost predicate SharedBoundary(db: Tables, o: Observation, p: Id, q: Id) {
    && p != q && p in db.payments && q in db.payments
    && db.payments[p].payable == o.amount == db.payments[q].payable
    && db.payments[p].reuseAfter == o.occurredAt == db.payments[q].createdAt
    && (o.source == PaytmNotification ==> db.payments[p].profile == o.profile == db.payments[q].profile)
    && !CancelledAt(db, p, o.occurredAt) && !CancelledAt(db, q, o.occurredAt)
  }

  lemma BoundaryClaims(db: Tables, o: Observation, p: Id, q: Id)
    requires RowsOk(db) && SharedBoundary(db, o, p, q)
    ensures p in MatchSet(db, o) && q in MatchSet(db, o)
  {
    CandidateIff(db, p, o);
    CandidateIff(db, q, o);
    WindowsAreProper(db, p);
    WindowsAreProper(db, q);
    hide CancelledAt, MatchSet, RowsOk;
  }

  lemma CandidatesShare(db: Tables, given: set<Id>, clock: int, o: Observation, p: Id, q: Id)
    requires WindowsOk(db, given, clock) && p in MatchSet(db, o) && q in MatchSet(db, o) && p != q
    ensures SharedBoundary(db, o, p, q) || SharedBoundary(db, o, q, p) || (p in given && q in given)
  {
    CandidateIff(db, p, o);
    CandidateIff(db, q, o);
    hide CancelledAt;
    if !(p in given && q in given) {
      WindowsMeet(db, given, clock, p, q, o);
    }
  }

  lemma ThreeOf(s: set<Id>) returns (p: Id, q: Id, r: Id)
    requires |s| >= 3
    ensures p in s && q in s && r in s && p != q && q != r && p != r
  {
    p :| p in s;
    assert |s - {p}| >= 2;
    q :| q in s - {p};
    assert |s - {p} - {q}| >= 1;
    r :| r in s - {p} - {q};
  }

  /** Candidates of which no two were given are at most two. */
  lemma FewCandidates(db: Tables, given: set<Id>, clock: int, o: Observation, some: set<Id>)
    requires WindowsOk(db, given, clock) && some <= MatchSet(db, o)
    requires forall p, q :: p in some && q in some && p != q ==> !(p in given && q in given)
    ensures |some| <= 2
  {
    hide WindowsOk, CancelledAt;
    if |some| >= 3 {
      var p, q, r := ThreeOf(some);
      assert InWindow(db, p, o) && InWindow(db, q, o) && InWindow(db, r, o);
      NeverThreeCandidates(db, given, clock, p, q, r, o);
    }
  }

  lemma AtMostOneOf(s: set<Id>, p: Id, q: Id)
    requires |s| <= 1 && p in s && q in s
    ensures p == q
  {
    if p != q {
      SubsetSize({p, q}, s);
    }
  }

  /** On every run from a database without duplicate amounts: two candidates for one amount and
      instant share a window boundary, unless both were there before the run. So at most two
      candidates are new, and there are at most two in all unless two were there before. */
  lemma CandidatesAreUnambiguous(base: Tables, db: Tables, clock: int, o: Observation)
    requires ReachableFrom(base, db, clock)
    ensures forall p, q :: p in MatchSet(db, o) && q in MatchSet(db, o) && p != q ==>
              SharedBoundary(db, o, p, q) || SharedBoundary(db, o, q, p) || (p in base.payments && q in base.payments)
    ensures |MatchSet(db, o) - base.payments.Keys| <= 2
    ensures |MatchSet(db, o) * base.payments.Keys| <= 1 ==> |MatchSet(db, o)| <= 2
  {
    ReachableWindows(base, db, clock);
    hide ReachableFrom, WindowsOk, SharedBoundary, CancelledAt;
    var c, given := MatchSet(db, o), base.payments.Keys;
    forall p, q | p in c && q in c && p != q
      ensures SharedBoundary(db, o, p, q) || SharedBoundary(db, o, q, p) || (p in given && q in given)
    {
      CandidatesShare(db, given, clock, o, p, q);
    }
    hide MatchSet;
    FewCandidates(db, given, clock, o, c - given);
    if |c * given| <= 1 {
      forall p, q | p in c && q in c && p in given && q in given ensures p == q {
        AtMostOneOf(c * given, p, q);
      }
      FewCandidates(db, given, clock, o, c);
    }
  }

  ghost predicate BothGiven(base: Tables, db: Tables, o: Observation, p: Id, q: Id) {
    p != q && p in base.payments && q in base.payments && Claims(db, p, o) && Claims(db, q, o)
  }

  /** On such a run an observation is ambiguous if and only if its instant is the shared boundary of
      two payments' windows or two payments from before the run claim it; and without a single
      candidate no payment, history row or webhook changes. */
  lemma AmbiguityFailsClosed(base: Tables, db: Tables, clock: int, event: Id, o: Observation, active: Option<string>,
                             receivedAt: int, now: int, ids: RowIds, s: Settled)
    requires ReachableFrom(base, db, clock) && SettleTx(db, event, o, active, receivedAt, now, ids) == Ok(s)
    ensures s.outcome == Ambiguous
       <==> (exists p, q :: SharedBoundary(db, o, p, q)) || (exists p, q :: BothGiven(base, db, o, p, q))
    ensures s.outcome in {Ambiguous, Unmatched} ==>
      s.payment.None? && !s.transitioned && s.db == db.(observations := s.db.observations)
  {
    SettleShape(db, event, o, active, receivedAt, now, ids, s);
    assert s.outcome == Ambiguous <==> |MatchSet(db, o)| > 1;
    ReachableWindows(base, db, clock);
    hide SettleTx, ReachableFrom, CancelledAt, ConfirmTx, SettledAs;
    AmbiguousIff(base, db, clock, o);
  }

  lemma AmbiguousIff(base: Tables, db: Tables, clock: int, o: Observation)
    requires WindowsOk(db, base.payments.Keys, clock)
    ensures |MatchSet(db, o)| > 1
       <==> (exists p, q :: SharedBoundary(db, o, p, q)) || (exists p, q :: BothGiven(base, db, o, p, q))
  {
    hide CancelledAt, MatchSet;
    var c := MatchSet(db, o);
    if |c| > 1 {
      var p :| p in c;
      assert |c - {p}| >= 1;
      var q :| q in c - {p};
      CandidatesShare(db, base.payments.Keys, clock, o, p, q);
      CandidateIff(db, p, o);
      CandidateIff(db, q, o);
      hide SharedBoundary, Claims, WindowsOk;
      if p in base.payments && q in base.payments { assert BothGiven(base, db, o, p, q); }
    }
    if p, q :| SharedBoundary(db, o, p, q) {
      BoundaryClaims(db, o, p, q);
      TwoMembers(c, p, q);
    }
    if p, q :| BothGiven(base, db, o, p, q) {
      CandidateIff(db, p, o);
      CandidateIff(db, q, o);
      TwoMembers(c, p, q);
    }
  }

  lemma TwoMembers(s: set<Id>, p: Id, q: Id)
    requires p in s && q in s && p != q
    ensures |s| > 1
  {
    SubsetSize({p, q}, s);
  }

  /** On such a run a reservation is unreleased until reuse_after, and no other payment still
      protected at that time has its amount. */
  lemma ProtectedAmountsDiffer(base: Tables, db: Tables, clock: int, now: int, p: Id, q: Id)
    requires ReachableFrom(base, db, clock) && clock <= now && p in db.payments && q in db.payments && p != q
    requires now < db.payments[p].reuseAfter && now < db.payments[q].reuseAfter
    ensures db.payments[p].payable != db.payments[q].payable
    ensures p in db.reservations && db.reservations[p].releasedAt.None?
  {
    ReachableWindows(base, db, clock);
    assert Backed(db.payments[p], db.reservations[p]) && Backed(db.payments[q], db.reservations[q]);
  }
}
