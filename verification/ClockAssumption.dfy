/** Why the run theorems assume a commit clock that does not go back: the program reads the
    clock before it takes the write lock, and a late commit with an early reading can give one
    amount to two payments whose windows overlap. */
module ClockAssumption {
  import opened Common
  import opened Domain
  import opened Allocator
  import opened Ledger

  const HOUR: int := 60 * 60 * 1000

  lemma {:induction false} SiftKeepsFirst(res: Reservations, start: int, end: int, cutoff: int, n: nat)
    requires MIN_INT64 <= start <= end <= MAX_INT64 && n >= 1
    requires !Held(res, start) && !RecentlyUsed(res, start, cutoff)
    ensures Sift(res, start, end, cutoff, false, n) != [] && Sift(res, start, end, cutoff, false, n)[0] == start
  {
    hide Held, RecentlyUsed;
    if n == 1 {
      assert Wrap64(start) == start;
      assert Sift(res, start, end, cutoff, false, 0) == [];
    } else {
      SiftKeepsFirst(res, start, end, cutoff, n - 1);
    }
  }

  /** Index 0 picks the very first slot when it is free and not recently used. */
  lemma {:induction false} FirstSlot(res: Reservations, requested: int, cutoff: int)
    requires Roomy(requested) && !Held(res, requested + 1) && !RecentlyUsed(res, requested + 1, cutoff)
    ensures SelectFrom(res, requested, cutoff, 0, 0) == Ok(requested + 1)
  {
    hide Held, RecentlyUsed;
    assert BucketStart(requested, 0) == requested + 1 && Wrap64(requested + 99) == requested + 99;
    SiftKeepsFirst(res, requested + 1, requested + 99, cutoff, SLOTS);
    hide Sift;
  }

  /** A create with a new key whose first slot is free and not recent takes exactly that slot. */
  lemma CreateTakesFirstSlot(db: Tables, key: Key, request: Request, windows: Windows, profile: Profile, now: int,
                             ids: CreateIds)
    requires Roomy(request.amount) && profile.id != "" && key !in Purge(db.keys, now)
    requires ids.payment !in db.payments && ids.payment !in db.reservations
    requires FreshHistory(db.history, ids.rows.history) && FreshEvent(db.outbox, ids.rows.event)
    requires var res := Release(db.reservations, now);
      !Held(res, request.amount + 1) && !RecentlyUsed(res, request.amount + 1, now - SOFT_HORIZON)
    ensures var r := CreateTx(db, key, request, windows, Some(profile), now, ids, 0);
      var p := NewPayment(request, request.amount + 1, profile, windows, now);
      && r.Ok?
      && r.value.db.payments == db.payments[ids.payment := p]
      && r.value.db.reservations == Release(db.reservations, now)
           [ids.payment := Reservation(p.profile, p.payable, now, p.reuseAfter, None, now)]
      && r.value.db.keys == Purge(db.keys, now)[key := KeyRow(request, ids.payment, now, now + IDEMPOTENCY_TTL)]
      && r.value.db.history == db.history
         + [HistoryRow(ids.rows.history, ids.payment, PaymentCreated, System, None, false, now)]
      && r.value.db.outbox == db.outbox + [OutboxRow(ids.rows.event, PaymentCreated, ids.payment, p, now)]
      && r.value.db.observations == db.observations
  {
    var res := Release(db.reservations, now);
    FirstSlot(res, request.amount, now - SOFT_HORIZON);
    hide SelectFrom, Release, Purge, RecentlyUsed;
    assert PaymentChecks(NewPayment(request, request.amount + 1, profile, windows, now));
  }

  const WINDOWS: Windows := Windows(24 * HOUR, 0, 0)

  function Slot1(request: Request, profile: Profile, now: int): Payment {
    NewPayment(request, request.amount + 1, profile, WINDOWS, now)
  }

  function Reserved(p: Payment, releasedAt: Option<int>): Reservation {
    Reservation(p.profile, p.payable, p.createdAt, p.reuseAfter, releasedAt, p.createdAt)
  }

  function Key1(request: Request, payment: Id, now: int): KeyRow {
    KeyRow(request, payment, now, now + IDEMPOTENCY_TTL)
  }

  /** The database after the first create, at clock reading 0. */
  ghost predicate AfterFirst(db: Tables, key: Key, request: Request, profile: Profile, ids: CreateIds) {
    && db.payments == map[ids.payment := Slot1(request, profile, 0)]
    && db.reservations == map[ids.payment := Reserved(Slot1(request, profile, 0), None)]
    && db.keys == map[key := Key1(request, ids.payment, 0)]
    && |db.history| == 1 && db.history[0].id == ids.rows.history
    && |db.outbox| == 1 && db.outbox[0].id == ids.rows.event
  }

  lemma FirstCreate(key: Key, request: Request, profile: Profile, ids: CreateIds)
    requires Roomy(request.amount) && profile.id != ""
    ensures var r := CreateTx(EMPTY, key, request, WINDOWS, Some(profile), 0, ids, 0);
      r.Ok? && AfterFirst(r.value.db, key, request, profile, ids)
  {
    CreateTakesFirstSlot(EMPTY, key, request, WINDOWS, profile, 0, ids);
    hide CreateTx;
    assert Purge(map[], 0) == map[] && Release(map[], 0) == map[];
  }

  /** After the second create, 48 hours later: the first reservation is released, its key gone. */
  ghost predicate AfterSecond(db: Tables, key: Key, request: Request, other: Request, profile: Profile,
                              ids1: CreateIds, ids2: CreateIds)
  {
    var (p, q) := (Slot1(request, profile, 0), Slot1(other, profile, 48 * HOUR));
    && db.payments == map[ids1.payment := p, ids2.payment := q]
    && db.reservations == map[ids1.payment := Reserved(p, Some(48 * HOUR)), ids2.payment := Reserved(q, None)]
    && db.keys == map[key := Key1(other, ids2.payment, 48 * HOUR)]
    && |db.history| == 2 && db.history[0].id == ids1.rows.history && db.history[1].id == ids2.rows.history
    && |db.outbox| == 2 && db.outbox[0].id == ids1.rows.event && db.outbox[1].id == ids2.rows.event
  }

  lemma ReleaseFirst(res: Reservations, payment: Id, p: Payment)
    requires res == map[payment := Reserved(p, None)] && p.reuseAfter <= 48 * HOUR
    ensures Release(res, 48 * HOUR) == map[payment := Reserved(p, Some(48 * HOUR))]
  {
  }

  lemma SecondCreate(db: Tables, keys: (Key, Key), request: Request, other: Request, profile: Profile,
                     ids1: CreateIds, ids2: CreateIds)
    requires Roomy(request.amount) && Roomy(other.amount) && request.amount != other.amount && profile.id != ""
    requires ids1.payment != ids2.payment && ids1.rows.history != ids2.rows.history
    requires ids1.rows.event != ids2.rows.event
    requires AfterFirst(db, keys.0, request, profile, ids1)
    ensures var r := CreateTx(db, keys.1, other, WINDOWS, Some(profile), 48 * HOUR, ids2, 0);
      r.Ok? && AfterSecond(r.value.db, keys.1, request, other, profile, ids1, ids2)
  {
    ReleaseFirst(db.reservations, ids1.payment, Slot1(request, profile, 0));
    assert Purge(db.keys, 48 * HOUR) == map[];
    hide Release, Purge, SelectFrom;
    CreateTakesFirstSlot(db, keys.1, other, WINDOWS, profile, 48 * HOUR, ids2);
    hide CreateTx;
  }

  lemma NothingToRelease(res: Reservations, a: Id, b: Id, p: Payment, q: Payment)
    requires a != b && res == map[a := Reserved(p, Some(48 * HOUR)), b := Reserved(q, None)] && q.reuseAfter > 12 * HOUR
    ensures Release(res, 12 * HOUR) == res
  {
  }

  lemma ThirdCreate(db: Tables, keys: (Key, Key), request: Request, other: Request, profile: Profile,
                    ids1: CreateIds, ids2: CreateIds, ids3: CreateIds)
    requires Roomy(request.amount) && Roomy(other.amount) && request.amount != other.amount
    requires profile.id != "" && keys.0 != keys.1
    requires ids1.payment != ids2.payment && ids1.payment != ids3.payment && ids2.payment != ids3.payment
    requires ids1.rows.history != ids3.rows.history && ids2.rows.history != ids3.rows.history
    requires ids1.rows.event != ids3.rows.event && ids2.rows.event != ids3.rows.event
    requires AfterSecond(db, keys.0, request, other, profile, ids1, ids2)
    ensures var r := CreateTx(db, keys.1, request, WINDOWS, Some(profile), 12 * HOUR, ids3, 0);
      var (p, q) := (Slot1(request, profile, 0), Slot1(request, profile, 12 * HOUR));
      && r.Ok?
      && r.value.db.payments == db.payments[ids3.payment := q]
      && ids1.payment in db.payments && db.payments[ids1.payment] == p
      && r.value.db.reservations == db.reservations[ids3.payment := Reserved(q, None)]
      && ids1.payment in db.reservations && db.reservations[ids1.payment] == Reserved(p, Some(48 * HOUR))
  {
    NothingToRelease(db.reservations, ids1.payment, ids2.payment, Slot1(request, profile, 0),
                     Slot1(other, profile, 48 * HOUR));
    assert keys.1 !in Purge(db.keys, 12 * HOUR);
    hide Release, Purge, SelectFrom;
    CreateTakesFirstSlot(db, keys.1, request, WINDOWS, profile, 12 * HOUR, ids3);
    hide CreateTx;
  }

  /** Three creates with 24-hour windows, committed at clock readings 0, 48 hours and, from a
      request that read its clock long before, 12 hours: the first and the third payment have the
      same amount, and every occurrence of the following 12 hours lies in both windows. */
  lemma BackwardClockSharesAmount(keys: (Key, Key, Key), request: Request, other: Request, profile: Profile,
                                  ids1: CreateIds, ids2: CreateIds, ids3: CreateIds)
    requires Roomy(request.amount) && Roomy(other.amount) && request.amount != other.amount && profile.id != ""
    requires keys.0 != keys.1 && keys.0 != keys.2 && keys.1 != keys.2
    requires ids1.payment != ids2.payment && ids1.payment != ids3.payment && ids2.payment != ids3.payment
    requires ids1.rows.history != ids2.rows.history && ids1.rows.history != ids3.rows.history
    requires ids2.rows.history != ids3.rows.history
    requires ids1.rows.event != ids2.rows.event && ids1.rows.event != ids3.rows.event
    requires ids2.rows.event != ids3.rows.event
    ensures var first := CreateTx(EMPTY, keys.0, request, WINDOWS, Some(profile), 0, ids1, 0);
      && first.Ok?
      && var second := CreateTx(first.value.db, keys.1, other, WINDOWS, Some(profile), 48 * HOUR, ids2, 0);
      && second.Ok?
      && var third := CreateTx(second.value.db, keys.2, request, WINDOWS, Some(profile), 12 * HOUR, ids3, 0);
      && third.Ok?
      && forall o: Observation :: o.source == GenericNotification && o.amount == request.amount + 1
           && 12 * HOUR <= o.occurredAt <= 24 * HOUR
           ==> InWindow(third.value.db, ids1.payment, o) && InWindow(third.value.db, ids3.payment, o)
  {
    hide CreateTx, AfterFirst, AfterSecond, Roomy;
    FirstCreate(keys.0, request, profile, ids1);
    var first := CreateTx(EMPTY, keys.0, request, WINDOWS, Some(profile), 0, ids1, 0).value.db;
    SecondCreate(first, (keys.0, keys.1), request, other, profile, ids1, ids2);
    var second := CreateTx(first, keys.1, other, WINDOWS, Some(profile), 48 * HOUR, ids2, 0).value.db;
    ThirdCreate(second, (keys.1, keys.2), request, other, profile, ids1, ids2, ids3);
  }
}
