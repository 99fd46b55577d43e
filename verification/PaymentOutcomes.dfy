/** What each operation of the payment service answers and leaves, in plain numbers and words: an account
    of the transactions that shares with them only the rows, the reading of texts and the candidate set. */
module PaymentOutcomes {
  import opened Common
  import opened Domain
  import opened Allocator
  import opened Fingerprint
  import opened Ledger
  import opened LedgerInvariants
  import opened LedgerTheorems

  // ----- Create: the request -----

  /** The service takes requests of whole rupees up to 9223372036854775608 paise, with a name of 1 to 120
      characters, an external id of at most 255 bytes, an idempotency scope of 1 to 120 and a key of 1
      to 255 bytes, all but for surrounding white space, and JSON metadata. It keeps the trimmed texts. */
  lemma RequestIsTakenIff(input: CreateInput)
    ensures var name, externalId := Trim(input.name), Trim(input.externalId);
      var scope, key := Trim(input.scope), Trim(input.key);
      && (NormalizeCreate(input).Ok?
          <==> && 0 < input.requested <= 9223372036854775608 && input.requested % 100 == 0
               && 1 <= |name| <= 120 && |Utf8(externalId)| <= 255
               && 1 <= |Utf8(scope)| <= 120 && 1 <= |Utf8(key)| <= 255
               && input.metadata != Metadata.Malformed)
      && (NormalizeCreate(input).Ok? ==>
            NormalizeCreate(input).value
            == (Key(scope, key), Request(input.requested, name, externalId, input.metadata.json)))
      && (NormalizeCreate(input).Err? ==> NormalizeCreate(input).error == InvalidPaymentInput)
  {
    ByteLengthIsUtf8Length(Trim(input.externalId));
    ByteLengthIsUtf8Length(Trim(input.scope));
    ByteLengthIsUtf8Length(Trim(input.key));
    NoBytesNoText(Trim(input.scope));
    NoBytesNoText(Trim(input.key));
    hide Trim, ByteLength, Utf8;
  }

  lemma {:induction false} NoBytesNoText(s: string)
    ensures ByteLength(s) == 0 <==> s == ""
  {
  }

  // ----- Create: the rows -----

  /** A window as given, or five minutes when none is. */
  predicate Lasts(given: int, duration: int) {
    duration == if given > 0 then given else 300000
  }

  /** The payment a request becomes. */
  predicate StartsAs(p: Payment, request: Request, profile: Profile, windows: Windows, now: int) {
    && p.createdAt == now && Lasts(windows.active, p.expiresAt - p.createdAt)
    && Lasts(windows.grace, p.graceUntil - p.expiresAt) && Lasts(windows.quarantine, p.reuseAfter - p.graceUntil)
    && p.name == request.name && p.externalId == request.externalId && p.metadata == request.metadata
    && p.requested == request.amount && p.payable == p.requested + p.adjustment
    && p.profile == profile.id && p.upiId == profile.upiId && p.payee == profile.payee
    && 0 < p.requested && p.requested % 100 == 0 && 1 <= p.adjustment <= 599 && p.payable % 100 != 0
    && p.status == Pending && p.paidAt == None && p.payerName == "" && p.payerUpi == "" && p.note == ""
  }

  /** A create row by row: its payment, which holds its amount until reuse_after; every unreleased reservation
      that is over, released; the key, kept for 24 hours, and no key that has expired; one history row
      and one webhook. */
  lemma CreateLeaves(db: Tables, key: Key, request: Request, windows: Windows, profile: Option<Profile>,
                     now: int, ids: CreateIds, pick: int, created: Created)
    requires CreateTx(db, key, request, windows, profile, now, ids, pick) == Ok(created) && !created.replayed
    ensures profile.Some? && created.payment == ids.payment && ids.payment !in db.payments
    ensures ids.payment in created.db.payments
    ensures var next, p := created.db, created.db.payments[ids.payment];
      && StartsAs(p, request, profile.value, windows, now) && next.payments == db.payments[ids.payment := p]
      && next.reservations.Keys == db.reservations.Keys + {ids.payment}
      && next.reservations[ids.payment] == Reservation(p.profile, p.payable, now, p.reuseAfter, None, now)
      && (forall q :: q in db.reservations && q != ids.payment ==>
            var r := db.reservations[q];
            next.reservations[q]
            == if r.releasedAt.None? && r.reservedUntil <= now then r.(releasedAt := Some(now)) else r)
      && key in next.keys && next.keys[key] == KeyRow(request, ids.payment, now, now + 86400000)
      && (forall k :: k != key ==> (k in next.keys <==> k in db.keys && now < db.keys[k].expiresAt))
      && (forall k :: k != key && k in next.keys ==> next.keys[k] == db.keys[k])
      && next.history
         == db.history + [HistoryRow(ids.rows.history, ids.payment, PaymentCreated, System, None, false, now)]
      && next.outbox == db.outbox + [OutboxRow(ids.rows.event, PaymentCreated, ids.payment, p, now)]
      && next.observations == db.observations
  {
    CreateInserts(db, key, request, windows, profile, now, ids, pick, created);
    hide CreateTx, Held, PaymentChecks;
  }

  // ----- Create: the amount -----

  /** An unreleased reservation that is not over holds the amount. */
  predicate HeldNow(res: Reservations, amount: int, now: int) {
    exists q :: q in res && res[q].payable == amount && res[q].releasedAt.None? && now < res[q].reservedUntil
  }

  predicate UsedSince(res: Reservations, amount: int, from: int) {
    exists q :: q in res && res[q].payable == amount && from <= res[q].lastUsedAt
  }

  /** An adjustment is 1 to 599 paise that leave no whole rupees; its bucket is its hundreds. */
  predicate Adjusts(n: int) {
    1 <= n <= 599 && n % 100 != 0
  }

  /** Free, in the first bucket with a free amount, and used in the last four hours only if every free
      amount of that bucket was. */
  ghost predicate PreferredAdjustment(res: Reservations, requested: int, n: int, now: int) {
    && Adjusts(n) && !HeldNow(res, requested + n, now)
    && (forall m :: Adjusts(m) && m / 100 < n / 100 ==> HeldNow(res, requested + m, now))
    && (UsedSince(res, requested + n, now - 14400000) ==>
          forall m :: Adjusts(m) && m / 100 == n / 100 ==>
            HeldNow(res, requested + m, now) || UsedSince(res, requested + m, now - 14400000))
  }

  lemma ReleaseAndUse(res: Reservations, amount: int, now: int, from: int)
    ensures Held(Release(res, now), amount) <==> HeldNow(res, amount, now)
    ensures RecentlyUsed(Release(res, now), amount, from) <==> UsedSince(res, amount, from)
  {
    var released := Release(res, now);
    forall q | q in res ensures q in released && released[q] == ReleaseRow(res[q], now) {
    }
    if HeldNow(res, amount, now) {
      var q :| q in res && res[q].payable == amount && res[q].releasedAt.None? && now < res[q].reservedUntil;
      assert released[q].payable == amount && released[q].releasedAt.None?;
    }
    if UsedSince(res, amount, from) {
      var q :| q in res && res[q].payable == amount && from <= res[q].lastUsedAt;
      assert released[q].payable == amount && released[q].lastUsedAt >= from;
    }
  }

  predicate WholeRupees(requested: int) {
    0 < requested <= MAX_INT64 - 599 && requested % 100 == 0
  }

  lemma SlotIsAdjustment(requested: int, n: int)
    requires Adjusts(n)
    ensures 0 <= n / 100 < BUCKETS && 1 <= n % 100 <= SLOTS && Slot(requested, n / 100, n % 100) == requested + n
  {
  }

  lemma AdjustmentOfSlot(requested: int, b: int, k: int)
    requires 0 <= b < BUCKETS && 1 <= k <= SLOTS
    ensures var n := Slot(requested, b, k) - requested; Adjusts(n) && n / 100 == b && n % 100 == k
  {
  }

  /** In a bucket whose slots are all held, every adjustment is. */
  lemma FullBucketIsHeld(res: Reservations, requested: int, b: int, now: int)
    requires 0 <= b < BUCKETS
    ensures BucketFull(Release(res, now), requested, b)
       <==> forall m :: Adjusts(m) && m / 100 == b ==> HeldNow(res, requested + m, now)
  {
    hide Held, Release, HeldNow;
    forall k | 1 <= k <= SLOTS
      ensures Adjusts(b * 100 + k) && (b * 100 + k) / 100 == b
      ensures Held(Release(res, now), Slot(requested, b, k)) <==> HeldNow(res, requested + (b * 100 + k), now)
    {
      ReleaseAndUse(res, Slot(requested, b, k), now, 0);
      assert Slot(requested, b, k) == requested + (b * 100 + k);
    }
    forall m | Adjusts(m) && m / 100 == b
      ensures Held(Release(res, now), Slot(requested, b, m % 100)) <==> HeldNow(res, requested + m, now)
    {
      SlotIsAdjustment(requested, m);
      ReleaseAndUse(res, requested + m, now, 0);
    }
  }

  lemma EarlierBuckets(res: Reservations, requested: int, bucket: int, now: int)
    requires 0 <= bucket < BUCKETS
    ensures (forall b :: 0 <= b < bucket ==> BucketFull(Release(res, now), requested, b))
       <==> forall m :: Adjusts(m) && m / 100 < bucket ==> HeldNow(res, requested + m, now)
  {
    hide Release, HeldNow, BucketFull;
    forall b | 0 <= b < bucket
      ensures BucketFull(Release(res, now), requested, b)
         <==> forall m :: Adjusts(m) && m / 100 == b ==> HeldNow(res, requested + m, now)
    {
      FullBucketIsHeld(res, requested, b, now);
    }
    if forall b :: 0 <= b < bucket ==> BucketFull(Release(res, now), requested, b) {
      forall m | Adjusts(m) && m / 100 < bucket ensures HeldNow(res, requested + m, now) {
        assert BucketFull(Release(res, now), requested, m / 100);
      }
    }
  }

  /** No amount of the bucket is both free and unused since. */
  lemma NoneUnused(res: Reservations, requested: int, bucket: int, now: int, from: int)
    requires 0 <= bucket < BUCKETS
    ensures (forall j :: 1 <= j <= SLOTS ==>
               || Held(Release(res, now), Slot(requested, bucket, j))
               || RecentlyUsed(Release(res, now), Slot(requested, bucket, j), from))
       <==> forall m :: Adjusts(m) && m / 100 == bucket ==>
              HeldNow(res, requested + m, now) || UsedSince(res, requested + m, from)
  {
    var released := Release(res, now);
    hide Held, Release, HeldNow, UsedSince, RecentlyUsed;
    if forall m :: Adjusts(m) && m / 100 == bucket ==>
         HeldNow(res, requested + m, now) || UsedSince(res, requested + m, from)
    {
      forall j | 1 <= j <= SLOTS
        ensures Held(released, Slot(requested, bucket, j)) || RecentlyUsed(released, Slot(requested, bucket, j), from)
      {
        var m := bucket * 100 + j;
        assert Adjusts(m) && m / 100 == bucket && Slot(requested, bucket, j) == requested + m;
        ReleaseAndUse(res, requested + m, now, from);
      }
    }
    if forall j :: 1 <= j <= SLOTS ==>
         Held(released, Slot(requested, bucket, j)) || RecentlyUsed(released, Slot(requested, bucket, j), from)
    {
      forall m | Adjusts(m) && m / 100 == bucket
        ensures HeldNow(res, requested + m, now) || UsedSince(res, requested + m, from)
      {
        SlotIsAdjustment(requested, m);
        var slot := Slot(requested, bucket, m % 100);
        assert Held(released, slot) || RecentlyUsed(released, slot, from);
        ReleaseAndUse(res, requested + m, now, from);
      }
    }
  }

  lemma BestIsPreferred(res: Reservations, requested: int, n: int, now: int)
    requires Adjusts(n)
    ensures BestChoice(Release(res, now), requested, now - SOFT_HORIZON, n / 100, n % 100)
       <==> PreferredAdjustment(res, requested, n, now)
  {
    SlotIsAdjustment(requested, n);
    ReleaseAndUse(res, requested + n, now, now - SOFT_HORIZON);
    EarlierBuckets(res, requested, n / 100, now);
    NoneUnused(res, requested, n / 100, now, now - SOFT_HORIZON);
    hide Held, Release, HeldNow, UsedSince, RecentlyUsed, BucketFull;
  }

  /** The amount a create hands out: the preferred of the 594, by the reservations before it. */
  lemma PayableIsPreferred(db: Tables, key: Key, request: Request, windows: Windows, profile: Option<Profile>,
                           now: int, ids: CreateIds, pick: int, created: Created)
    requires CreateTx(db, key, request, windows, profile, now, ids, pick) == Ok(created) && !created.replayed
    requires WholeRupees(request.amount)
    ensures ids.payment in created.db.payments
    ensures PreferredAdjustment(db.reservations, request.amount,
                                created.db.payments[ids.payment].payable - request.amount, now)
  {
    CreateInserts(db, key, request, windows, profile, now, ids, pick, created);
    hide CreateTx, Inserted;
    var payable := created.db.payments[ids.payment].payable;
    SelectIsBest(Release(db.reservations, now), request.amount, now - SOFT_HORIZON, pick);
    hide SelectFrom, Release, BestChoice, PreferredAdjustment, Slot, AllHeld, Adjusts;
    var b, k :| payable == Slot(request.amount, b, k)
      && BestChoice(Release(db.reservations, now), request.amount, now - SOFT_HORIZON, b, k);
    BestFits(Release(db.reservations, now), request.amount, now - SOFT_HORIZON, b, k);
    var n := payable - request.amount;
    AdjustmentOfSlot(request.amount, b, k);
    BestIsPreferred(db.reservations, request.amount, n, now);
  }


  /** The random index draws this adjustment. */
  predicate Draws(res: Reservations, requested: int, now: int, index: int, n: int) {
    SelectFrom(Release(res, now), requested, now - 14400000, 0, index) == Ok(requested + n)
  }

  /** Each preferred amount is drawn by exactly one index: with a uniform index the choice among them is
      uniform. */
  lemma PreferredAreDrawn(res: Reservations, requested: int, n: int, now: int) returns (index: nat)
    requires WholeRupees(requested) && PreferredAdjustment(res, requested, n, now)
    ensures Draws(res, requested, now, index, n)
    ensures forall other :: Draws(res, requested, now, other, n) ==> other == index
  {
    SlotIsAdjustment(requested, n);
    BestIsPreferred(res, requested, n, now);
    index := EveryBestIsDrawn(Release(res, now), requested, now - 14400000, 0, n / 100, n % 100);
    hide SelectFrom, Release, BestChoice, PreferredAdjustment;
    forall other | Draws(res, requested, now, other, n) ensures other == index {
      DrawsDiffer(Release(res, now), requested, now - 14400000, 0, index, other);
    }
  }

  // ----- Create: the other answers -----

  /** The key was used within the last 24 hours. */
  predicate Remembered(keys: map<Key, KeyRow>, key: Key, now: int) {
    key in keys && now < keys[key].expiresAt
  }

  /** What else a create may answer: a conflict or the stored payment under a remembered key, no active
      profile, or no capacity, just when all 594 amounts are held. A replay only drops expired keys. */
  lemma CreateAnswers(db: Tables, key: Key, request: Request, windows: Windows, profile: Option<Profile>,
                      now: int, ids: CreateIds, pick: int)
    requires WholeRupees(request.amount)
    ensures var r := CreateTx(db, key, request, windows, profile, now, ids, pick);
      var remembered := Remembered(db.keys, key, now);
      && (r == Err(IdempotencyConflict) <==> remembered && db.keys[key].request != request)
      && (r.Ok? && r.value.replayed
          <==> remembered && db.keys[key].request == request && db.keys[key].payment in db.payments)
      && (r.Ok? && r.value.replayed ==>
            && r.value.payment == db.keys[key].payment && r.value.db == db.(keys := r.value.db.keys)
            && (forall k :: k in r.value.db.keys <==> k in db.keys && now < db.keys[k].expiresAt)
            && (forall k :: k in r.value.db.keys ==> r.value.db.keys[k] == db.keys[k]))
      && (r == Err(NoActiveProfile) <==> !remembered && profile.None?)
      && (r == Err(PaymentCapacity)
          <==> && !remembered && profile.Some? && profile.value.id != ""
               && forall n :: Adjusts(n) ==> HeldNow(db.reservations, request.amount + n, now))
      && (r.Err? ==>
            r.error in {IdempotencyConflict, NoActiveProfile, PaymentCapacity, BadRandomIndex, StorageConstraint})
  {
    var released, cutoff := Release(db.reservations, now), now - SOFT_HORIZON;
    SelectIsBest(released, request.amount, cutoff, pick);
    AllHeldIff(db.reservations, request.amount, now);
    hide SelectFrom, Release, HeldNow, Held, AllHeld, PaymentChecks;
  }

  lemma AllHeldIff(res: Reservations, requested: int, now: int)
    ensures AllHeld(Release(res, now), requested) <==> forall n :: Adjusts(n) ==> HeldNow(res, requested + n, now)
  {
    hide Release, HeldNow, BucketFull;
    forall b | 0 <= b < BUCKETS
      ensures BucketFull(Release(res, now), requested, b)
         <==> forall m :: Adjusts(m) && m / 100 == b ==> HeldNow(res, requested + m, now)
    {
      FullBucketIsHeld(res, requested, b, now);
    }
    if AllHeld(Release(res, now), requested) {
      forall n | Adjusts(n) ensures HeldNow(res, requested + n, now) {
        assert BucketFull(Release(res, now), requested, n / 100);
      }
    }
  }

  // ----- Cancel -----

  /** Cancelling an unknown payment and a paid or expired one is refused; a cancelled one stays as it is;
      a pending one is cancelled with one history row and one webhook, if their ids are new. */
  lemma CancelAnswers(db: Tables, payment: Id, now: int, ids: RowIds)
    ensures var r := CancelTx(db, payment, now, ids);
      && (r == Err(PaymentNotFound) <==> payment !in db.payments)
      && (r == Err(PaymentTerminal) <==> payment in db.payments && db.payments[payment].status in {Paid, Expired})
      && (payment in db.payments && db.payments[payment].status == Cancelled ==> r == Ok(db))
      && (payment in db.payments && db.payments[payment].status == Pending ==>
            var p := db.payments[payment].(status := Cancelled);
            r == if (exists i :: 0 <= i < |db.history| && db.history[i].id == ids.history)
                    || (exists i :: 0 <= i < |db.outbox| && db.outbox[i].id == ids.event)
                 then Err(StorageConstraint)
                 else Ok(db.(payments := db.payments[payment := p],
                             history := db.history + [HistoryRow(ids.history, payment, PaymentCancelled, System,
                                                                 Some(StatusChange(Pending, Cancelled)), false, now)],
                             outbox := db.outbox + [OutboxRow(ids.event, PaymentCancelled, payment, p, now)])))
  {
  }

  // ----- ExpireDue -----

  function ExpiryRows(due: seq<Id>, now: int, ids: seq<RowIds>): seq<HistoryRow>
    requires |due| <= |ids|
  {
    seq(|due|, i requires 0 <= i < |due| =>
      HistoryRow(ids[i].history, due[i], PaymentExpired, System, Some(StatusChange(Pending, Expired)), false, now))
  }

  predicate AllIn(due: seq<Id>, payments: map<Id, Payment>) {
    forall i :: 0 <= i < |due| ==> due[i] in payments
  }

  function ExpiryEvents(payments: map<Id, Payment>, due: seq<Id>, now: int, ids: seq<RowIds>): seq<OutboxRow>
    requires |due| <= |ids| && AllIn(due, payments)
  {
    seq(|due|, i requires 0 <= i < |due| =>
      OutboxRow(ids[i].event, PaymentExpired, due[i], payments[due[i]].(status := Expired), now))
  }

  /** Pending, and past its grace window. */
  predicate Overdue(payments: map<Id, Payment>, p: Id, now: int) {
    p in payments && payments[p].status == Pending && payments[p].graceUntil <= now
  }

  /** Overdue payments, each once. */
  predicate Listed(payments: map<Id, Payment>, due: seq<Id>, now: int) {
    && (forall i :: 0 <= i < |due| ==> Overdue(payments, due[i], now))
    && (forall i, j :: 0 <= i < j < |due| ==> due[i] != due[j])
  }

  lemma RestStaysListed(payments: map<Id, Payment>, later: map<Id, Payment>, due: seq<Id>, now: int)
    requires due != [] && Listed(payments, due, now) && due[0] in payments
    requires later == payments[due[0] := payments[due[0]].(status := Expired)]
    ensures AllIn(due[1..], later) && Listed(later, due[1..], now)
    ensures forall i :: 0 < i < |due| ==> later[due[i]] == payments[due[i]]
  {
    assert forall i :: 0 <= i < |due| - 1 ==> due[1..][i] == due[i + 1] && due[i + 1] != due[0];
  }

  lemma RowsUnfold(due: seq<Id>, now: int, ids: seq<RowIds>)
    requires due != [] && |due| <= |ids|
    ensures ExpiryRows(due, now, ids) == ExpiryRows(due[..1], now, ids) + ExpiryRows(due[1..], now, ids[1..])
  {
  }

  lemma EventsUnfold(payments: map<Id, Payment>, later: map<Id, Payment>, due: seq<Id>, now: int, ids: seq<RowIds>)
    requires due != [] && |due| <= |ids| && AllIn(due, payments) && AllIn(due[1..], later)
    requires forall i :: 0 < i < |due| ==> later[due[i]] == payments[due[i]]
    ensures ExpiryEvents(payments, due, now, ids)
         == ExpiryEvents(payments, due[..1], now, ids) + ExpiryEvents(later, due[1..], now, ids[1..])
  {
  }

  lemma FirstExpiry(db: Tables, due: seq<Id>, now: int, ids: seq<RowIds>)
    requires due != [] && ids != [] && due[0] in db.payments
    ensures ExpireOne(db, due[0], now, ids[0])
         == db.(payments := db.payments[due[0] := db.payments[due[0]].(status := Expired)],
                history := db.history + ExpiryRows(due[..1], now, ids),
                outbox := db.outbox + ExpiryEvents(db.payments, due[..1], now, ids))
  {
  }

  lemma ExpiriesJoin(db: Tables, first: Tables, next: Tables, due: seq<Id>, now: int, ids: seq<RowIds>)
    requires due != [] && |due| <= |ids| && AllIn(due, db.payments) && AllIn(due[1..], first.payments)
    requires forall i :: 0 < i < |due| ==> first.payments[due[i]] == db.payments[due[i]]
    requires first == db.(payments := first.payments, history := db.history + ExpiryRows(due[..1], now, ids),
                          outbox := db.outbox + ExpiryEvents(db.payments, due[..1], now, ids))
    requires next == first.(payments := next.payments,
                            history := first.history + ExpiryRows(due[1..], now, ids[1..]),
                            outbox := first.outbox + ExpiryEvents(first.payments, due[1..], now, ids[1..]))
    ensures next == db.(payments := next.payments, history := db.history + ExpiryRows(due, now, ids),
                        outbox := db.outbox + ExpiryEvents(db.payments, due, now, ids))
  {
    RowsUnfold(due, now, ids);
    EventsUnfold(db.payments, first.payments, due, now, ids);
    hide ExpiryRows, ExpiryEvents;
  }

  /** Each expired payment gets one history row and one webhook, in the order of the listing. */
  lemma {:induction false} ExpiryIsRecorded(db: Tables, due: seq<Id>, now: int, ids: seq<RowIds>, next: Tables,
                                            count: nat)
    requires ExpireAll(db, due, now, ids) == Ok((next, count))
    requires AllIn(due, db.payments) && Listed(db.payments, due, now)
    ensures |due| <= |ids|
    ensures next == db.(payments := next.payments, history := db.history + ExpiryRows(due, now, ids),
                        outbox := db.outbox + ExpiryEvents(db.payments, due, now, ids))
    decreases |due|
  {
    if due != [] {
      assert IsDue(db.payments, due[0], now);
      ExpireAllUnfold(db, due, now, ids, next, count);
      FirstExpiry(db, due, now, ids);
      hide ExpireAll, ExpireOne, ExpiryRows, ExpiryEvents, Listed;
      var first := ExpireOne(db, due[0], now, ids[0]);
      RestStaysListed(db.payments, first.payments, due, now);
      ExpiryIsRecorded(first, due[1..], now, ids[1..], next, count - 1);
      ExpiriesJoin(db, first, next, due, now, ids);
    }
  }

  function DueLimit(limit: int): nat {
    if limit <= 0 then 100 else if limit > 500 then 500 else limit
  }

  /** The overdue payments, earliest grace window first and by id on ties, at most 100 of them unless another
      limit up to 500 is given; what is left out is no earlier. */
  ghost predicate IsListing(payments: map<Id, Payment>, limit: int, now: int, listed: seq<Id>) {
    && AllIn(listed, payments) && Listed(payments, listed, now) && |listed| <= DueLimit(limit)
    && (forall i, j :: 0 <= i < j < |listed| ==>
          var a, b := payments[listed[i]].graceUntil, payments[listed[j]].graceUntil;
          a < b || (a == b && listed[i] < listed[j]))
    && (forall p :: p in payments && Overdue(payments, p, now) && p !in listed ==>
          && |listed| == DueLimit(limit)
          && forall i :: 0 <= i < |listed| ==> payments[listed[i]].graceUntil <= payments[p].graceUntil)
  }

  lemma {:induction false} QueryIsListing(payments: map<Id, Payment>, limit: int, now: int)
    ensures IsListing(payments, limit, now, InDueOrder(payments, DueSet(payments, now), ClampLimit(limit)))
  {
    var due := DueSet(payments, now);
    var listed := InDueOrder(payments, due, ClampLimit(limit));
    DueOrderIsExact(payments, due, ClampLimit(limit));
    ListedAll(due, listed);
    hide InDueOrder;
    forall p | Overdue(payments, p, now) ensures p in due {
    }
    hide ClampLimit;
    assert ClampLimit(limit) == DueLimit(limit) by { LimitIs(limit); }
  }

  lemma LimitIs(limit: int)
    ensures ClampLimit(limit) == DueLimit(limit)
  {
  }

  /** ExpireDue as a whole: the listed payments are expired, recorded and counted, and nothing else changes. */
  lemma ExpireDueLeaves(db: Tables, limit: int, now: int, ids: seq<RowIds>, next: Tables, count: nat)
    returns (listed: seq<Id>)
    requires ExpireTx(db, limit, now, ids) == Ok((next, count))
    ensures IsListing(db.payments, limit, now, listed) && count == |listed| <= |ids|
    ensures next.payments.Keys == db.payments.Keys
    ensures forall p :: p in db.payments ==>
              next.payments[p] == if p in listed then db.payments[p].(status := Expired) else db.payments[p]
    ensures next.history == db.history + ExpiryRows(listed, now, ids)
    ensures next.outbox == db.outbox + ExpiryEvents(db.payments, listed, now, ids)
    ensures next.reservations == db.reservations && next.keys == db.keys && next.observations == db.observations
  {
    listed := InDueOrder(db.payments, DueSet(db.payments, now), ClampLimit(limit));
    QueryIsListing(db.payments, limit, now);
    hide InDueOrder, DueSet, ExpireAll, ExpiryRows, ExpiryEvents, ClampLimit;
    assert forall i :: 0 <= i < |listed| ==> IsDue(db.payments, listed[i], now);
    ExpireIsExact(db, listed, now, ids, next, count);
    ExpiryIsRecorded(db, listed, now, ids, next, count);
  }

  /** A listing as long as the set leaves nothing out. */
  lemma ListedAll(due: set<Id>, listed: seq<Id>)
    requires forall i :: 0 <= i < |listed| ==> listed[i] in due
    requires forall i, j :: 0 <= i < j < |listed| ==> listed[i] != listed[j]
    ensures |listed| == |due| ==> forall p :: p in due ==> p in listed
  {
    if |listed| == |due| {
      forall p | p in due && p !in listed ensures false {
        DistinctFit(due - {p}, listed);
      }
    }
  }

  lemma {:induction false} DistinctFit(s: set<Id>, listed: seq<Id>)
    requires forall i :: 0 <= i < |listed| ==> listed[i] in s
    requires forall i, j :: 0 <= i < j < |listed| ==> listed[i] != listed[j]
    ensures |listed| <= |s|
  {
    if listed != [] {
      var last := listed[|listed| - 1];
      DistinctFit(s - {last}, listed[..|listed| - 1]);
    }
  }

  // ----- Edit -----

  /** The word for a status. */
  function WordFor(status: Status): string {
    match status
    case Pending => "pending"
    case Paid => "paid"
    case Expired => "expired"
    case Cancelled => "cancelled"
  }

  predicate NamesStatus(word: string) {
    word == "pending" || word == "paid" || word == "expired" || word == "cancelled"
  }

  predicate AtMost(submitted: Option<string>, limit: nat) {
    submitted.Some? ==> |Trim(submitted.value)| <= limit
  }

  /** What an operator may submit for a payment. */
  predicate Editable(p: Payment, e: EditInput) {
    && (e.name.Some? ==> Trim(e.name.value) != "") && AtMost(e.name, 120)
    && (e.externalId.Some? ==> |Utf8(Trim(e.externalId.value))| <= 255)
    && e.metadata != Some(Metadata.Malformed)
    && (e.status.Some? ==> NamesStatus(Word(e.status.value)))
    && AtMost(e.payerName, 255) && AtMost(e.payerUpi, 255) && AtMost(e.note, 4000)
    && (e.paidAt.Some? ==> if e.status.Some? then Word(e.status.value) == "paid" else p.status == Paid)
  }

  /** The operator moves a payment back to pending. */
  predicate Reopens(p: Payment, e: EditInput) {
    p.status != Pending && e.status.Some? && Word(e.status.value) == "pending"
  }

  /** An edit of an unknown payment, an edit with something that may not be submitted, and a reopen after
      reuse_after or after the release are refused as such, and nothing else is but clashing ids. */
  lemma EditAnswers(db: Tables, payment: Id, e: EditInput, now: int, ids: RowIds)
    ensures var r := EditTx(db, payment, e, now, ids);
      && (r == Err(PaymentNotFound) <==> payment !in db.payments)
      && (r == Err(InvalidEdit) <==> payment in db.payments && !Editable(db.payments[payment], e))
      && (r == Err(UnsafeReopen)
          <==> && payment in db.payments && Editable(db.payments[payment], e) && Reopens(db.payments[payment], e)
               && (|| now >= db.payments[payment].reuseAfter
                   || (payment in db.reservations && db.reservations[payment].releasedAt.Some?)))
      && (r.Err? ==> r.error in {PaymentNotFound, InvalidEdit, UnsafeReopen, StorageConstraint})
      && (r == Err(StorageConstraint) ==>
            || (payment in db.payments && Reopens(db.payments[payment], e) && payment !in db.reservations)
            || (exists i :: 0 <= i < |db.history| && db.history[i].id == ids.history)
            || (exists i :: 0 <= i < |db.outbox| && db.outbox[i].id == ids.event))
  {
    if e.externalId.Some? { ByteLengthIsUtf8Length(Trim(e.externalId.value)); }
    hide Trim, ToLower, ByteLength, Utf8;
    if payment in db.payments {
      var p := db.payments[payment];
      EditableIsAccepted(p, e);
      hide EditAccepted, Editable;
      var q := EditedPayment(p, e, now);
      assert q.status != p.status ==> StatusField in ChangedFields(p, q);
    }
  }

  lemma EditableIsAccepted(p: Payment, e: EditInput)
    ensures Editable(p, e) <==> EditAccepted(p, e)
    ensures Editable(p, e) && e.status.Some? ==> Word(e.status.value) == WordFor(EditedStatus(p, e))
    ensures e.status.None? ==> EditedStatus(p, e) == p.status
    ensures Editable(p, e) ==> (Reopens(p, e) <==> p.status != Pending && EditedStatus(p, e) == Pending)
  {
    if e.externalId.Some? { ByteLengthIsUtf8Length(Trim(e.externalId.value)); }
    WordsDiffer();
    hide Trim, ToLower, ByteLength, Utf8;
  }

  lemma WordsDiffer()
    ensures forall a, b :: WordFor(a) == WordFor(b) ==> a == b
  {
    forall a, b | WordFor(a) == WordFor(b) ensures a == b {
      assert WordFor(a)[1] == WordFor(b)[1];
      assert WordFor(a)[0] == WordFor(b)[0];
    }
  }

  /** A submitted text replaces the stored one, without surrounding white space. */
  predicate Replaces(submitted: Option<string>, before: string, after: string) {
    after == if submitted.Some? then Trim(submitted.value) else before
  }

  /** The payment an edit leaves: the status named by the word, the texts and metadata submitted, paid_at
      as long as it is paid, from the operator, else as before, else from the clock; and nothing else. */
  predicate EditedTo(p: Payment, e: EditInput, now: int, q: Payment) {
    && (if e.status.Some? then Word(e.status.value) == WordFor(q.status) else q.status == p.status)
    && Replaces(e.name, p.name, q.name) && Replaces(e.externalId, p.externalId, q.externalId)
    && Replaces(e.payerName, p.payerName, q.payerName) && Replaces(e.payerUpi, p.payerUpi, q.payerUpi)
    && Replaces(e.note, p.note, q.note)
    && (e.metadata.None? ==> q.metadata == p.metadata)
    && (e.metadata.Some? ==> e.metadata.value == Metadata.Canonical(q.metadata))
    && (q.status != Paid ==> q.paidAt == None)
    && (q.status == Paid ==>
          q.paidAt == if e.paidAt.Some? then e.paidAt else if p.paidAt.Some? then p.paidAt else Some(now))
    && SameIdentity(p, q)
  }

  /** The event an edit is recorded as: paid, cancelled and expired only for a move there, the last two
      from pending, and updated for everything else. */
  predicate RecordedAs(before: Status, after: Status, kind: EventKind) {
    && (kind == PaymentPaid <==> before != Paid && after == Paid)
    && (kind == PaymentCancelled <==> before == Pending && after == Cancelled)
    && (kind == PaymentExpired <==> before == Pending && after == Expired)
    && kind != PaymentCreated
  }

  /** An edit that commits: without a change nothing is written; with one, one history row of the operator, which
      tells of the status only if it changed, and one webhook unless only the note changed. */
  lemma EditLeaves(db: Tables, payment: Id, e: EditInput, now: int, ids: RowIds, next: Tables)
    requires EditTx(db, payment, e, now, ids) == Ok(next)
    ensures payment in db.payments && payment in next.payments
    ensures var p, q := db.payments[payment], next.payments[payment];
      && EditedTo(p, e, now, q) && (q == p ==> next == db)
      && (q != p ==>
            exists kind ::
              && RecordedAs(p.status, q.status, kind)
              && next == db.(
                   payments := db.payments[payment := q],
                   history := db.history + [HistoryRow(ids.history, payment, kind, Admin,
                                                       if p.status == q.status then None
                                                       else Some(StatusChange(p.status, q.status)),
                                                       q == p.(note := q.note), now)],
                   outbox := if q == p.(note := q.note) then db.outbox
                             else db.outbox + [OutboxRow(ids.event, kind, payment, q, now)]))
  {
    var p := db.payments[payment];
    EditableIsAccepted(p, e);
    hide EditAccepted, Trim, ToLower, ByteLength, Utf8;
    var q := EditedPayment(p, e, now);
    ChangesAreExact(p, q);
    hide ChangedFields;
    assert RecordedAs(p.status, q.status, OperatorEvent(p.status, q.status));
    hide RecordedAs, OperatorEvent, FreshHistory, FreshEvent;
  }

  lemma ChangesAreExact(p: Payment, q: Payment)
    requires SameIdentity(p, q)
    ensures ChangedFields(p, q) == {} <==> p == q
    ensures p != q ==> (ChangedFields(p, q) == {NoteField} <==> q == p.(note := q.note))
  {
    var changes := ChangedFields(p, q);
    forall f ensures f in changes <==> Differs(p, q, f) {
      match f
      case NameField => case ExternalIdField => case MetadataField => case StatusField =>
      case PayerNameField => case PayerUpiField => case PaidAtField => case NoteField =>
    }
    hide ChangedFields;
    if changes == {} {
      assert !Differs(p, q, NameField) && !Differs(p, q, ExternalIdField) && !Differs(p, q, MetadataField);
      assert !Differs(p, q, StatusField) && !Differs(p, q, PayerNameField) && !Differs(p, q, PayerUpiField);
      assert !Differs(p, q, PaidAtField) && !Differs(p, q, NoteField);
    }
    if q == p.(note := q.note) && p != q {
      assert Differs(p, q, NoteField);
      forall f | f in changes ensures f == NoteField {
        assert Differs(p, q, f);
      }
    }
    if changes == {NoteField} {
      assert forall f :: f != NoteField ==> !Differs(p, q, f);
      assert !Differs(p, q, NameField) && !Differs(p, q, ExternalIdField) && !Differs(p, q, MetadataField);
      assert !Differs(p, q, StatusField) && !Differs(p, q, PayerNameField) && !Differs(p, q, PayerUpiField);
      assert !Differs(p, q, PaidAtField);
    }
  }

  // ----- Settle -----

  /** Money that can belong to no payment, of no time, or of a Paytm notification for another profile. */
  predicate Unusable(o: Observation) {
    || o.amount <= 0 || o.amount % 100 == 0 || o.occurredAt == -62135596800000
    || (o.source == PaytmNotification && Trim(o.profile) != "paytm")
  }

  /** The profile an observation is filed under: the payment's, or its own, or the active one when that
      is blank. */
  function FiledUnder(db: Tables, o: Observation, active: Option<string>, payment: Option<Id>): Option<string> {
    var profile := if payment.Some? && payment.value in db.reservations then db.reservations[payment.value].profile
                   else o.profile;
    if Trim(profile) != "" then Some(profile) else active
  }

  /** Some evidence already confirmed the payment. */
  ghost predicate ConfirmedBefore(db: Tables, p: Id) {
    exists i :: 0 <= i < |db.observations| && db.observations[i].payment == Some(p)
             && (db.observations[i].outcome == Matched || db.observations[i].outcome == Corroborated)
  }

  /** What a settlement answers and files: no candidate is unmatched, several are ambiguous, one is
      matched, or corroborated if the payment is paid and evidence confirmed it before; exactly one
      observation row says so. The history row and the webhook take the ids that were drawn. */
  lemma SettleAnswers(db: Tables, event: Id, o: Observation, active: Option<string>, receivedAt: int,
                      now: int, ids: RowIds, s: Settled)
    requires SettleTx(db, event, o, active, receivedAt, now, ids) == Ok(s)
    ensures !Unusable(o)
    ensures s.payment.Some? <==> |MatchSet(db, o)| == 1
    ensures s.payment.Some? ==> s.payment.value in MatchSet(db, o) && s.payment.value in db.payments
    ensures s.outcome == if |MatchSet(db, o)| == 0 then Unmatched
                         else if |MatchSet(db, o)| > 1 then Ambiguous
                         else if db.payments[s.payment.value].status == Paid && ConfirmedBefore(db, s.payment.value)
                         then Corroborated else Matched
    ensures var profile := FiledUnder(db, o, active, s.payment);
      && profile.Some?
      && s.db.observations
         == db.observations + [ObservationRow(event, o.(profile := profile.value), receivedAt, s.payment, s.outcome)]
    ensures s.transitioned ==>
              && |s.db.history| > 0 && s.db.history[|s.db.history| - 1].id == ids.history
              && |s.db.outbox| > 0 && s.db.outbox[|s.db.outbox| - 1].id == ids.event
  {
    SettleShape(db, event, o, active, receivedAt, now, ids, s);
    hide SettleTx, MatchSet, Trim, FreshHistory, FreshEvent, Observed;
    if s.payment.Some? {
      var p := s.payment.value;
      assert MatchSet(db, o) == {p};
      assert Confirmed(db.observations, p) <==> ConfirmedBefore(db, p);
      hide Confirmed, ConfirmedBefore;
    }
  }

  /** And what it refuses: unusable money, money that can be filed under no profile, a second observation
      of an event, and clashing ids. */
  lemma SettleRefuses(db: Tables, event: Id, o: Observation, active: Option<string>, receivedAt: int,
                      now: int, ids: RowIds)
    ensures var r := SettleTx(db, event, o, active, receivedAt, now, ids);
      && (Unusable(o) ==> r == Err(InvalidObservation))
      && (r == Err(InvalidObservation) ==> Unusable(o) || active == None)
      && (r.Err? ==> r.error in {InvalidObservation, StorageConstraint})
      && (r == Err(StorageConstraint) ==>
            || (exists i :: 0 <= i < |db.observations| && db.observations[i].event == event)
            || (exists i :: 0 <= i < |db.history| && db.history[i].id == ids.history)
            || (exists i :: 0 <= i < |db.outbox| && db.outbox[i].id == ids.event))
  {
    hide MatchSet, Trim, Confirmed;
  }
}
