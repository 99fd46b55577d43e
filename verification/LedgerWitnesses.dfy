/** Concrete runs of the payment service that show the exceptions in the main theorems do occur. */
module LedgerWitnesses {
  import opened Common
  import opened Domain
  import opened Cancellation
  import opened CancellationOrder
  import opened History
  import opened Allocator
  import opened Ledger
  import opened LedgerHistory
  import opened LedgerInvariants
  import opened LedgerWindows
  import opened LedgerTheorems
  import opened ClockAssumption

  const STANDARD: Windows := Windows(0, 0, 0)
  const LONG: Windows := Windows(24 * HOUR, 0, 0)

  /** A create request the service accepts, for an active profile. */
  predicate Acceptable(input: CreateInput, profile: Profile) {
    NormalizeCreate(input).Ok? && Roomy(RequestOf(input).amount) && Trim(profile.id) != "" && profile.id != ""
  }

  function RequestOf(input: CreateInput): Request {
    if NormalizeCreate(input).Ok? then NormalizeCreate(input).value.1 else Request(0, "", "", "")
  }

  function KeyOf(input: CreateInput): Key {
    if NormalizeCreate(input).Ok? then NormalizeCreate(input).value.0 else Key("", "")
  }

  /** There is one: one rupee, for the name "n", under scope "s" and key "k". */
  lemma AnOrderIsAcceptable(input: CreateInput, profile: Profile)
    requires input == CreateInput(100, "n", "", Canonical("{}"), "s", "k") && profile == Profile("kotak", "a@b", "")
    ensures Acceptable(input, profile)
  {
    TightIsTrimmed("n");
    TightIsTrimmed("s");
    TightIsTrimmed("k");
    TightIsTrimmed("kotak");
    TrimOfSpace("");
    hide Trim;
    assert ByteLength("") == 0;
    ShortKey("s");
    ShortKey("k");
  }

  lemma {:induction false} ShortKey(s: string)
    requires |s| == 1 && s[0] < '\U{0080}'
    ensures ByteLength(s) == 1
  {
    assert ByteLength(s[1..]) == 0;
  }

  function Ids(payment: Id, row: Id): CreateIds {
    CreateIds(payment, RowIds(row, row))
  }

  function Ordered(input: CreateInput, profile: Profile, windows: Windows, now: int): Payment {
    NewPayment(RequestOf(input), RequestOf(input).amount + 1, profile, windows, now)
  }

  function Placed(input: CreateInput, profile: Profile, windows: Windows): Step {
    Step.Create(input, windows, Some(profile), 0, Ids(1, 100), 0)
  }

  const CREATED: HistoryRow := HistoryRow(100, 1, PaymentCreated, System, None, false, 0)

  /** Payment 1 alone, in the given status, with these rows. */
  ghost predicate Holds(db: Tables, p: Payment, status: Status, history: seq<HistoryRow>) {
    && db.payments == map[1 := p.(status := status)]
    && db.reservations == map[1 := Reservation(p.profile, p.payable, p.createdAt, p.reuseAfter, None, p.createdAt)]
    && db.history == history && db.observations == []
    && |db.outbox| == |history| && forall i :: 0 <= i < |history| ==> db.outbox[i].id == history[i].id
  }

  lemma PlacedOrder(input: CreateInput, profile: Profile, windows: Windows)
    requires Acceptable(input, profile)
    ensures var db, p := Apply(EMPTY, Placed(input, profile, windows)), Ordered(input, profile, windows, 0);
      && Holds(db, p, Pending, [CREATED])
      && db.keys == map[KeyOf(input) := KeyRow(RequestOf(input), 1, 0, IDEMPOTENCY_TTL)]
  {
    hide NormalizeCreate;
    CreateTakesFirstSlot(EMPTY, KeyOf(input), RequestOf(input), windows, profile, 0, Ids(1, 100));
    hide CreateTx;
    assert Purge(map[], 0) == map[] && Release(map[], 0) == map[];
    var p := Ordered(input, profile, windows, 0);
    assert p.(status := Pending) == p;
  }

  lemma {:induction false} RunStep(db: Tables, step: Step, rest: seq<Step>)
    ensures Run(db, [step] + rest) == Run(Apply(db, step), rest)
  {
    assert ([step] + rest)[1..] == rest;
    hide Apply;
  }

  lemma {:induction false} RunTwo(db: Tables, a: Step, b: Step)
    ensures Run(db, [a, b]) == Apply(Apply(db, a), b)
  {
    RunStep(db, a, [b]);
    RunStep(Apply(db, a), b, []);
    assert [a] + [b] == [a, b] && [b] + [] == [b];
    hide Apply;
  }

  lemma {:induction false} RunThree(db: Tables, a: Step, b: Step, c: Step)
    ensures Run(db, [a, b, c]) == Apply(Apply(Apply(db, a), b), c)
  {
    RunStep(db, a, [b, c]);
    RunTwo(Apply(db, a), b, c);
    assert [a] + [b, c] == [a, b, c];
    hide Apply;
  }

  lemma {:induction false} RunFour(db: Tables, a: Step, b: Step, c: Step, d: Step)
    ensures Run(db, [a, b, c, d]) == Apply(Apply(Apply(Apply(db, a), b), c), d)
  {
    RunStep(db, a, [b, c, d]);
    RunThree(Apply(db, a), b, c, d);
    assert [a] + [b, c, d] == [a, b, c, d];
    hide Apply;
  }

  // ----- Two status changes in one millisecond -----

  const REOPEN: EditInput := EditInput(None, None, None, Some("pending"), None, None, None, None)

  function Cancelled(at: int, id: Id): Step {
    Step.Cancel(1, at, RowIds(id, id))
  }

  function Reopened(at: int, id: Id): Step {
    Step.Edit(1, REOPEN, at, RowIds(id, id))
  }

  function CancelRow(at: int, id: Id): HistoryRow {
    HistoryRow(id, 1, PaymentCancelled, System, Some(StatusChange(Pending, Status.Cancelled)), false, at)
  }

  function ReopenRow(at: int, id: Id): HistoryRow {
    HistoryRow(id, 1, PaymentUpdated, Admin, Some(StatusChange(Status.Cancelled, Pending)), false, at)
  }

  lemma CancelStep(db: Tables, p: Payment, history: seq<HistoryRow>, at: int, id: Id)
    requires Holds(db, p, Pending, history) && FreshHistory(history, id)
    ensures Holds(Apply(db, Cancelled(at, id)), p, Status.Cancelled, history + [CancelRow(at, id)])
  {
    assert FreshEvent(db.outbox, id);
    assert p.(status := Pending).(status := Status.Cancelled) == p.(status := Status.Cancelled);
  }

  lemma ReopenIsAccepted(p: Payment)
    ensures EditAccepted(p, REOPEN) && EditedStatus(p, REOPEN) == Pending
  {
    TightIsTrimmed("pending");
    assert NoUpperCase("pending");
    LowerCaseStays("pending");
    hide Trim, ToLower;
  }

  lemma ReopenEdits(p: Payment, at: int)
    requires p.paidAt == None
    ensures EditedPayment(p, REOPEN, at) == p.(status := Pending)
  {
    ReopenIsAccepted(p);
    hide EditedStatus, ParseStatus;
  }

  lemma ReopenChanges(p: Payment)
    requires p.status == Status.Cancelled
    ensures ChangedFields(p, p.(status := Pending)) == {StatusField}
  {
    assert Differs(p, p.(status := Pending), StatusField);
  }

  lemma ReopenTx(db: Tables, at: int, id: Id)
    requires 1 in db.payments && db.payments[1].status == Status.Cancelled && db.payments[1].paidAt == None
    requires 1 in db.reservations && db.reservations[1].releasedAt == None && at < db.payments[1].reuseAfter
    requires FreshHistory(db.history, id) && FreshEvent(db.outbox, id)
    ensures EditTx(db, 1, REOPEN, at, RowIds(id, id))
         == Ok(Record(db, 1, db.payments[1].(status := Pending), ReopenRow(at, id), id))
  {
    var before := db.payments[1];
    ReopenIsAccepted(before);
    ReopenEdits(before, at);
    ReopenChanges(before);
    hide EditAccepted, EditedPayment, ChangedFields, EditedStatus, FreshHistory, FreshEvent;
    assert {StatusField} != {NoteField} by { assert StatusField in {StatusField}; }
  }

  lemma ReopenStep(db: Tables, p: Payment, history: seq<HistoryRow>, at: int, id: Id)
    requires Holds(db, p, Status.Cancelled, history) && FreshHistory(history, id) && at < p.reuseAfter
    requires p.paidAt == None
    ensures Holds(Apply(db, Reopened(at, id)), p, Pending, history + [ReopenRow(at, id)])
  {
    assert FreshEvent(db.outbox, id);
    ReopenTx(db, at, id);
    AppliedEdit(db, 1, REOPEN, at, RowIds(id, id));
    assert db.payments[1].(status := Pending) == p.(status := Pending);
    RecordHolds(db, p, Status.Cancelled, Pending, history, ReopenRow(at, id), id);
    hide Apply, EditTx, Record, Holds, FreshHistory, FreshEvent;
  }

  lemma AppliedEdit(db: Tables, payment: Id, e: EditInput, now: int, ids: RowIds)
    ensures Apply(db, Step.Edit(payment, e, now, ids))
         == if EditTx(db, payment, e, now, ids).Ok? then EditTx(db, payment, e, now, ids).value else db
  {
    hide EditTx, CreateTx, CancelTx, ExpireTx, SettleTx, NormalizeCreate;
  }

  lemma RecordHolds(db: Tables, p: Payment, status: Status, next: Status, history: seq<HistoryRow>, row: HistoryRow,
                    id: Id)
    requires Holds(db, p, status, history) && row.id == id && !row.onlyNote
    ensures Holds(Record(db, 1, p.(status := next), row, id), p, next, history + [row])
  {
  }

  lemma {:induction false} OwnRows(history: seq<HistoryRow>)
    requires forall i :: 0 <= i < |history| ==> history[i].payment == 1
    ensures HistoryOf(history, 1) == history
  {
    if history != [] {
      OwnRows(history[..|history| - 1]);
    }
  }

  function TwiceCancelled(input: CreateInput, profile: Profile): seq<Step> {
    [Placed(input, profile, STANDARD), Cancelled(10, 9), Reopened(20, 5), Cancelled(20, 3)]
  }

  const TWICE: seq<HistoryRow> := [CREATED, CancelRow(10, 9), ReopenRow(20, 5), CancelRow(20, 3)]

  lemma TwiceCancelledRuns(input: CreateInput, profile: Profile)
    requires Acceptable(input, profile)
    ensures Holds(Run(EMPTY, TwiceCancelled(input, profile)), Ordered(input, profile, STANDARD, 0), Status.Cancelled,
                  TWICE)
  {
    RunFour(EMPTY, Placed(input, profile, STANDARD), Cancelled(10, 9), Reopened(20, 5), Cancelled(20, 3));
    PlacedOrder(input, profile, STANDARD);
    hide Apply, Run, Holds, NormalizeCreate, Acceptable, Ordered;
    var p := Ordered(input, profile, STANDARD, 0);
    var rows1, rows2 := [CREATED] + [CancelRow(10, 9)], [CREATED] + [CancelRow(10, 9)] + [ReopenRow(20, 5)];
    var first := Apply(EMPTY, Placed(input, profile, STANDARD));
    CancelStep(first, p, [CREATED], 10, 9);
    var second := Apply(first, Cancelled(10, 9));
    ReopenStep(second, p, rows1, 20, 5);
    CancelStep(Apply(second, Reopened(20, 5)), p, rows2, 20, 3);
    assert rows2 + [CancelRow(20, 3)] == TWICE;
  }

  lemma TwiceCancelledForward(input: CreateInput, profile: Profile)
    ensures CommitsForward(0, TwiceCancelled(input, profile)) && LastCommit(0, TwiceCancelled(input, profile)) == 20
  {
    var steps := TwiceCancelled(input, profile);
    var a, b, c := steps[1..], steps[2..], steps[3..];
    assert a[1..] == b && b[1..] == c && c[1..] == [];
    assert CommitsForward(20, c) && LastCommit(20, c) == 20;
    assert CommitsForward(10, b) && LastCommit(10, b) == 20;
    assert CommitsForward(0, a) && LastCommit(0, a) == 20;
  }

  /** The second cancellation is not read as one: the reopen of its millisecond is read after it. */
  lemma TwiceIsMisread()
    ensures HistoryOf(TWICE, 1) == TWICE && InPeriodOf(TWICE, 25, 3) && !ReadAsCancelled(TWICE, 3)
  {
    OwnRows(TWICE);
    assert IsDirectReopen(TWICE[2]) && TWICE[2].at == TWICE[3].at;
  }

  /** Cancelled at 10, reopened and cancelled again at 20: with ids 5 and 3 the query reads the
      reopen last, the filter accepts instant 25, and its money pays the cancelled payment. */
  lemma CancelledInstantIsAccepted(input: CreateInput, profile: Profile, o: Observation)
    requires Acceptable(input, profile)
    requires o == Observation(GenericNotification, profile.id, RequestOf(input).amount + 1, "", "", 25)
    ensures var db := Run(EMPTY, TwiceCancelled(input, profile));
      && CommitsForward(0, TwiceCancelled(input, profile))
      && 1 in db.payments && db.payments[1].status == Status.Cancelled
      && InCancelledPeriod(HistoryOf(db.history, 1), 25) && !CancelledAt(db, 1, 25)
      && SettlesOn(db, 1, o, SettleTx(db, 7, o, None, 25, 25, RowIds(200, 200)))
  {
    var db := Run(EMPTY, TwiceCancelled(input, profile));
    TwiceCancelledRuns(input, profile);
    TwiceCancelledForward(input, profile);
    hide Run, TwiceCancelled, Holds, SettlesOn, CancelledAt, InCancelledPeriod, NormalizeCreate, CommitsForward;
    hide LastCommit, HistoryOf;
    OrderFacts(input, profile, o);
    hide Acceptable, Ordered, ValidObservation, Trim;
    MisreadSettles(TwiceCancelled(input, profile), Ordered(input, profile, STANDARD, 0), o);
  }

  lemma OrderFacts(input: CreateInput, profile: Profile, o: Observation)
    requires Acceptable(input, profile)
    requires o == Observation(GenericNotification, profile.id, RequestOf(input).amount + 1, "", "", 25)
    ensures var p := Ordered(input, profile, STANDARD, 0);
      && p.createdAt < 25 < p.reuseAfter && Trim(p.profile) != ""
      && ValidObservation(o) && o.amount == p.payable
  {
    hide NormalizeCreate, Trim;
  }

  lemma {:induction false} MisreadSettles(steps: seq<Step>, p: Payment, o: Observation)
    requires CommitsForward(0, steps) && Holds(Run(EMPTY, steps), p, Status.Cancelled, TWICE)
    requires p.createdAt < 25 < p.reuseAfter && Trim(p.profile) != ""
    requires ValidObservation(o) && o.source == GenericNotification && o.amount == p.payable && o.occurredAt == 25
    ensures var db := Run(EMPTY, steps);
      && 1 in db.payments && db.payments[1].status == Status.Cancelled
      && InCancelledPeriod(HistoryOf(db.history, 1), 25) && !CancelledAt(db, 1, 25)
      && SettlesOn(db, 1, o, SettleTx(db, 7, o, None, 25, 25, RowIds(200, 200)))
  {
    var db := Run(EMPTY, steps);
    TwiceIsMisread();
    HeldFacts(db, p);
    hide Run, Holds, ReadAsCancelled, InPeriodOf, HistoryOf, CancelledAt, SettleTx, SettlesOn, Trim, ValidObservation;
    assert InCancelledPeriod(TWICE, 25);
    SpanIsDroppedIff(EMPTY, steps, 0, 1, 25, 3);
    hide InCancelledPeriod, DistinctIds, CommitsForward;
    CommitsForwardIsClockForward(0, 0, steps);
    RunKeepsWindows(EMPTY, steps, {}, 0);
    hide WindowsOk, ClockForward, LastClock;
    AcceptedMoneySettles(db, {}, LastClock(0, steps), 1, 7, o, None, 25, 25, RowIds(200, 200));
  }

  lemma HeldFacts(db: Tables, p: Payment)
    requires Holds(db, p, Status.Cancelled, TWICE)
    ensures 1 in db.payments && db.payments[1] == p.(status := Status.Cancelled) && db.history == TWICE
    ensures FreshHistory(db.history, 200) && FreshEvent(db.outbox, 200) && !Observed(db.observations, 7)
  {
  }

  /** Cancelled and reopened at 20: with ids 5 and 3 the query reads the cancellation last, and the
      filter rejects every later instant of a payment that is pending again. */
  lemma ReopenedInstantIsRejected(input: CreateInput, profile: Profile, t: int)
    requires Acceptable(input, profile) && t > 20
    ensures var steps := [Placed(input, profile, STANDARD), Cancelled(20, 5), Reopened(20, 3)];
      var db := Run(EMPTY, steps);
      && CommitsForward(0, steps) && 1 in db.payments && db.payments[1].status == Pending
      && LeavesCancelledCleanly(HistoryOf(db.history, 1))
      && !InCancelledPeriod(HistoryOf(db.history, 1), t) && CancelledAt(db, 1, t)
  {
    var steps := [Placed(input, profile, STANDARD), Cancelled(20, 5), Reopened(20, 3)];
    ThreeForward(steps);
    ReopenedRuns(input, profile);
    hide Run, NormalizeCreate, CommitsForward, Acceptable, Ordered, Holds;
    ReopenedFacts(Run(EMPTY, steps), Ordered(input, profile, STANDARD, 0), t);
    hide HistoryOf, LeavesCancelledCleanly, InCancelledPeriod, CancelledAt;
  }

  lemma ReopenedFacts(db: Tables, p: Payment, t: int)
    requires Holds(db, p, Pending, REOPENED) && t > 20
    ensures 1 in db.payments && db.payments[1].status == Pending
    ensures LeavesCancelledCleanly(HistoryOf(db.history, 1))
    ensures !InCancelledPeriod(HistoryOf(db.history, 1), t) && CancelledAt(db, 1, t)
  {
    OwnRows(REOPENED);
    hide HistoryOf, LeavesCancelledCleanly, InCancelledPeriod, Rejected, SortRows;
    ReopenReadFirst(REOPENED, t);
  }

  const REOPENED: seq<HistoryRow> := [CREATED, CancelRow(20, 5), ReopenRow(20, 3)]

  lemma ReopenedRuns(input: CreateInput, profile: Profile)
    requires Acceptable(input, profile)
    ensures Holds(Run(EMPTY, [Placed(input, profile, STANDARD), Cancelled(20, 5), Reopened(20, 3)]),
                  Ordered(input, profile, STANDARD, 0), Pending, REOPENED)
  {
    RunThree(EMPTY, Placed(input, profile, STANDARD), Cancelled(20, 5), Reopened(20, 3));
    PlacedOrder(input, profile, STANDARD);
    hide Apply, Run, Holds, NormalizeCreate, Acceptable, Ordered;
    var p := Ordered(input, profile, STANDARD, 0);
    var first := Apply(EMPTY, Placed(input, profile, STANDARD));
    CancelStep(first, p, [CREATED], 20, 5);
    ReopenStep(Apply(first, Cancelled(20, 5)), p, [CREATED] + [CancelRow(20, 5)], 20, 3);
    assert [CREATED] + [CancelRow(20, 5)] + [ReopenRow(20, 3)] == REOPENED;
  }

  lemma {:induction false} ThreeForward(steps: seq<Step>)
    requires |steps| == 3 && 0 <= steps[0].now <= steps[1].now <= steps[2].now
    ensures CommitsForward(0, steps)
  {
    var a, b := steps[1..], steps[2..];
    assert a[1..] == b && b[1..] == [];
    assert CommitsForward(steps[1].now, b);
    assert CommitsForward(steps[0].now, a);
  }

  lemma {:induction false} ReopenReadFirst(rows: seq<HistoryRow>, t: int)
    requires rows == REOPENED && t > 20
    ensures LeavesCancelledCleanly(rows) && !InCancelledPeriod(rows, t) && Rejected(SortRows(rows), t)
  {
    assert NextStatus(rows, 1, 2);
    var s := SortRows(rows);
    SortRowsIsSort(rows);
    hide SortRows;
    assert rows[1] in rows;
    var c := IndexIn(s, rows[1]);
    var a := LastCancelBy(s, 20, c);
    assert s[a] in rows && s[a] == rows[1];
    assert forall x :: a < x < |s| ==> s[x] in rows && !Before(s[x], s[a]);
    assert StillOpen(s, t, a);
  }

  // ----- A shared window boundary -----

  function Followed(input: CreateInput, profile: Profile, at: int): Step {
    Step.Create(input, LONG, Some(profile), at, Ids(2, 101), 0)
  }

  /** Payments 1 and 2 of one amount, the second created when the first one's window ended. */
  ghost predicate BackToBack(db: Tables, p: Payment, q: Payment) {
    && q.createdAt == p.reuseAfter && p.payable == q.payable
    && db.payments == map[1 := p, 2 := q] && db.observations == []
    && db.reservations == map[1 := Reservation(p.profile, p.payable, p.createdAt, p.reuseAfter, Some(p.reuseAfter),
                                               p.createdAt),
                              2 := Reservation(q.profile, q.payable, q.createdAt, q.reuseAfter, None, q.createdAt)]
    && forall i :: 0 <= i < |db.history| ==> !HasStatus(db.history[i])
  }

  lemma FollowedOrder(db: Tables, first: CreateInput, second: CreateInput, profile: Profile)
    requires Acceptable(first, profile) && Acceptable(second, profile)
    requires RequestOf(first).amount == RequestOf(second).amount
    requires Holds(db, Ordered(first, profile, LONG, 0), Pending, [CREATED])
    requires db.keys == map[KeyOf(first) := KeyRow(RequestOf(first), 1, 0, IDEMPOTENCY_TTL)]
    ensures var p := Ordered(first, profile, LONG, 0);
      BackToBack(Apply(db, Followed(second, profile, p.reuseAfter)), p, Ordered(second, profile, LONG, p.reuseAfter))
  {
    hide NormalizeCreate, CreateTx, Roomy;
    var p := Ordered(first, profile, LONG, 0);
    var end := p.reuseAfter;
    assert p.(status := Pending) == p;
    assert Purge(db.keys, end) == map[];
    hide Purge, Release, Held, RecentlyUsed;
    ReleasedFirst(db.reservations, p, RequestOf(second).amount + 1);
    CreateTakesFirstSlot(db, KeyOf(second), RequestOf(second), LONG, profile, end, Ids(2, 101));
    var next := Apply(db, Followed(second, profile, end));
    assert next.history == [CREATED, HistoryRow(101, 2, PaymentCreated, System, None, false, end)];
  }

  lemma ReleasedFirst(res: map<Id, Reservation>, p: Payment, amount: int)
    requires res == map[1 := Reservation(p.profile, p.payable, p.createdAt, p.reuseAfter, None, p.createdAt)]
    requires p.createdAt < p.reuseAfter - SOFT_HORIZON
    ensures Release(res, p.reuseAfter)
         == map[1 := Reservation(p.profile, p.payable, p.createdAt, p.reuseAfter, Some(p.reuseAfter), p.createdAt)]
    ensures !Held(Release(res, p.reuseAfter), amount)
    ensures !RecentlyUsed(Release(res, p.reuseAfter), amount, p.reuseAfter - SOFT_HORIZON)
  {
  }

  lemma BackToBackIsAmbiguous(db: Tables, p: Payment, q: Payment, o: Observation)
    requires BackToBack(db, p, q) && p.createdAt < p.reuseAfter && q.createdAt < q.reuseAfter && Trim(o.profile) != ""
    requires o.source == GenericNotification && o.occurredAt == p.reuseAfter && o.amount == p.payable
    requires ValidObservation(o)
    ensures SharedBoundary(db, o, 1, 2)
    ensures var r := SettleTx(db, 7, o, None, o.occurredAt, o.occurredAt, RowIds(200, 200));
      r.Ok? && r.value.outcome == Ambiguous && r.value.payment.None?
  {
    NoStatusNoRejection(db.history, 1, o.occurredAt);
    NoStatusNoRejection(db.history, 2, o.occurredAt);
    hide CancelledAt, ConfirmTx, Trim;
    assert !CancelledAt(db, 1, o.occurredAt) && !CancelledAt(db, 2, o.occurredAt);
    assert MatchSet(db, o) == {1, 2};
    hide MatchSet;
    assert |{1, 2}| == 2;
  }

  lemma BoundaryFacts(first: CreateInput, second: CreateInput, profile: Profile, o: Observation)
    requires Acceptable(first, profile) && Acceptable(second, profile)
    requires RequestOf(first).amount == RequestOf(second).amount
    requires o == Observation(GenericNotification, profile.id, RequestOf(first).amount + 1, "", "",
                              Ordered(first, profile, LONG, 0).reuseAfter)
    ensures var p := Ordered(first, profile, LONG, 0);
      var q := Ordered(second, profile, LONG, p.reuseAfter);
      && p.createdAt < p.reuseAfter && q.createdAt < q.reuseAfter && p.reuseAfter > 0 && Trim(o.profile) != ""
      && ValidObservation(o) && o.amount == p.payable
  {
    hide NormalizeCreate, Trim;
  }

  lemma {:induction false} TwoForward(steps: seq<Step>)
    requires |steps| == 2 && 0 <= steps[0].now <= steps[1].now
    ensures CommitsForward(0, steps)
  {
    var a := steps[1..];
    assert a[1..] == [];
    assert CommitsForward(steps[0].now, a);
  }

  /** Two creates with 24-hour windows, the second at the very instant the first window ends: money
      of that instant has two candidates and settles as ambiguous. */
  lemma BoundaryIsAmbiguous(first: CreateInput, second: CreateInput, profile: Profile, o: Observation)
    requires Acceptable(first, profile) && Acceptable(second, profile)
    requires RequestOf(first).amount == RequestOf(second).amount
    requires o == Observation(GenericNotification, profile.id, RequestOf(first).amount + 1, "", "",
                              Ordered(first, profile, LONG, 0).reuseAfter)
    ensures var end := Ordered(first, profile, LONG, 0).reuseAfter;
      var steps := [Placed(first, profile, LONG), Followed(second, profile, end)];
      var db := Run(EMPTY, steps);
      var r := SettleTx(db, 7, o, None, end, end, RowIds(200, 200));
      && CommitsForward(0, steps) && SharedBoundary(db, o, 1, 2)
      && r.Ok? && r.value.outcome == Ambiguous && r.value.payment.None?
  {
    var end := Ordered(first, profile, LONG, 0).reuseAfter;
    var steps := [Placed(first, profile, LONG), Followed(second, profile, end)];
    RunTwo(EMPTY, steps[0], steps[1]);
    PlacedOrder(first, profile, LONG);
    hide Apply, Run, NormalizeCreate, SettleTx, SharedBoundary, Holds, BackToBack, CommitsForward;
    FollowedOrder(Apply(EMPTY, steps[0]), first, second, profile);
    TwoForward(steps);
    BoundaryFacts(first, second, profile, o);
    hide Ordered, Acceptable, Trim, ValidObservation;
    BackToBackIsAmbiguous(Run(EMPTY, steps), Ordered(first, profile, LONG, 0), Ordered(second, profile, LONG, end), o);
  }

  lemma {:induction false} NoStatusNoRejection(history: seq<HistoryRow>, payment: Id, t: int)
    requires forall i :: 0 <= i < |history| ==> !HasStatus(history[i])
    ensures !Rejected(SortRows(HistoryOf(history, payment)), t)
  {
    var rows := HistoryOf(history, payment);
    HistoryOfIsSelection(history, payment);
    SortRowsIsSort(rows);
    hide SortRows, HistoryOf;
    forall i | 0 <= i < |SortRows(rows)| ensures !IsCancel(SortRows(rows)[i]) {
      assert SortRows(rows)[i] in rows;
      assert SortRows(rows)[i] in history;
    }
  }
}
