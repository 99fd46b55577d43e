/** The payment service as the program runs it: tables updated in place, one method per
    BEGIN IMMEDIATE transaction, restored by hand where the program rolls back. Every method
    is proved to do exactly what its transaction function says. */
module PaymentService {
  import opened Common
  import opened Domain
  import opened Cancellation
  import opened History
  import opened Allocator
  import opened Ledger

  /** The changes noted so far are exactly the fields in which the edited payment differs. */
  ghost predicate Noted(current: Payment, next: Payment, changes: set<Field>, merchantVisible: bool) {
    && (forall f :: f in changes <==> Differs(current, next, f))
    && (merchantVisible <==> exists f :: f in changes && f != NoteField)
  }

  lemma NothingNoted(p: Payment)
    ensures Noted(p, p, {}, false)
  {
  }

  lemma NotedIsChanged(current: Payment, next: Payment, changes: set<Field>, merchantVisible: bool)
    requires Noted(current, next, changes, merchantVisible)
    ensures changes == ChangedFields(current, next)
    ensures merchantVisible <==> exists f :: f in changes && f != NoteField
  {
  }

  lemma NoteChange(current: Payment, before: Payment, next: Payment, changes: set<Field>, visible: bool, f: Field)
    requires Noted(current, before, changes, visible) && !Differs(current, before, f) && Differs(current, next, f)
    requires forall g :: g != f ==> (Differs(current, next, g) <==> Differs(current, before, g))
    ensures Noted(current, next, changes + {f}, visible || f != NoteField)
  {
    if f != NoteField { assert f in changes + {f}; }
    if visible {
      var g :| g in changes && g != NoteField;
      assert g in changes + {f};
    }
  }

  /** The name, external id and metadata part of applyEdit. */
  method EditDescription(current: Payment, input: EditInput) returns (r: Result<Edited, Failure>, merchantVisible: bool)
    ensures r.Ok? <==> ((input.name.Some? ==> 1 <= |Trim(input.name.value)| <= 120)
                        && (input.externalId.Some? ==> ByteLength(Trim(input.externalId.value)) <= 255)
                        && (input.metadata.Some? ==> input.metadata.value.Canonical?))
    ensures r.Err? ==> r.error == InvalidEdit
    ensures r.Ok? ==> r.value.next == current.(name := Text(input.name, current.name),
                                               externalId := Text(input.externalId, current.externalId),
                                               metadata := if input.metadata.Some? then input.metadata.value.json
                                                           else current.metadata)
    ensures r.Ok? ==> Noted(current, r.value.next, r.value.changes, merchantVisible)
  {
    hide Trim, ByteLength, Noted;
    NothingNoted(current);
    var next := current;
    var changes: set<Field> := {};
    merchantVisible := false;
    if input.name.Some? {
      var value := Trim(input.name.value);
      if value == "" || |value| > 120 { return Err(InvalidEdit), false; }
      if value != next.name {
        NoteChange(current, next, next.(name := value), changes, merchantVisible, NameField);
        next, changes, merchantVisible := next.(name := value), changes + {NameField}, true;
      }
    }
    if input.externalId.Some? {
      var value := Trim(input.externalId.value);
      if ByteLength(value) > 255 { return Err(InvalidEdit), false; }
      if value != next.externalId {
        NoteChange(current, next, next.(externalId := value), changes, merchantVisible, ExternalIdField);
        next, changes, merchantVisible := next.(externalId := value), changes + {ExternalIdField}, true;
      }
    }
    if input.metadata.Some? {
      if input.metadata.value.Malformed? { return Err(InvalidEdit), false; }
      var value := input.metadata.value.json;
      if value != next.metadata {
        NoteChange(current, next, next.(metadata := value), changes, merchantVisible, MetadataField);
        next, changes, merchantVisible := next.(metadata := value), changes + {MetadataField}, true;
      }
    }
    return Ok(Edited(next, changes)), merchantVisible;
  }

  /** The status, payer and note part, on what the first part made of the payment. */
  method EditOutcome(current: Payment, edited: Edited, visible: bool, input: EditInput)
    returns (r: Result<Edited, Failure>, merchantVisible: bool)
    requires Noted(current, edited.next, edited.changes, visible)
    requires edited.next == current.(name := edited.next.name, externalId := edited.next.externalId,
                                     metadata := edited.next.metadata)
    ensures r.Ok? <==> ((input.status.Some? ==> ParseStatus(input.status.value).Some?)
                        && (input.payerName.Some? ==> |Trim(input.payerName.value)| <= 255)
                        && (input.payerUpi.Some? ==> |Trim(input.payerUpi.value)| <= 255)
                        && (input.note.Some? ==> |Trim(input.note.value)| <= 4000))
    ensures r.Err? ==> r.error == InvalidEdit
    ensures r.Ok? ==> r.value.next == edited.next.(status := EditedStatus(current, input),
                                                   payerName := Text(input.payerName, current.payerName),
                                                   payerUpi := Text(input.payerUpi, current.payerUpi),
                                                   note := Text(input.note, current.note))
    ensures r.Ok? ==> Noted(current, r.value.next, r.value.changes, merchantVisible)
  {
    hide Trim, ParseStatus, Noted;
    var next, changes := edited.next, edited.changes;
    merchantVisible := visible;
    if input.status.Some? {
      var status := ParseStatus(input.status.value);
      if status.None? { return Err(InvalidEdit), false; }
      if status.value != next.status {
        NoteChange(current, next, next.(status := status.value), changes, merchantVisible, StatusField);
        next, changes, merchantVisible := next.(status := status.value), changes + {StatusField}, true;
      }
    }
    if input.payerName.Some? {
      var value := Trim(input.payerName.value);
      if |value| > 255 { return Err(InvalidEdit), false; }
      if value != next.payerName {
        NoteChange(current, next, next.(payerName := value), changes, merchantVisible, PayerNameField);
        next, changes, merchantVisible := next.(payerName := value), changes + {PayerNameField}, true;
      }
    }
    if input.payerUpi.Some? {
      var value := Trim(input.payerUpi.value);
      if |value| > 255 { return Err(InvalidEdit), false; }
      if value != next.payerUpi {
        NoteChange(current, next, next.(payerUpi := value), changes, merchantVisible, PayerUpiField);
        next, changes, merchantVisible := next.(payerUpi := value), changes + {PayerUpiField}, true;
      }
    }
    if input.note.Some? {
      var value := Trim(input.note.value);
      if |value| > 4000 { return Err(InvalidEdit), false; }
      if value != next.note {
        NoteChange(current, next, next.(note := value), changes, merchantVisible, NoteField);
        next, changes := next.(note := value), changes + {NoteField};
      }
    }
    return Ok(Edited(next, changes)), merchantVisible;
  }

  /** The paid_at part: kept, taken from the operator or the clock while paid, dropped otherwise. */
  method EditPaidAt(current: Payment, edited: Edited, visible: bool, submitted: Option<int>, now: int)
    returns (r: Result<Edited, Failure>, merchantVisible: bool)
    requires Noted(current, edited.next, edited.changes, visible) && edited.next.paidAt == current.paidAt
    ensures r.Ok? <==> (submitted.Some? ==> edited.next.status == Paid)
    ensures r.Err? ==> r.error == InvalidEdit
    ensures r.Ok? ==> r.value.next == edited.next.(paidAt := if edited.next.status != Paid then None
                                                             else if submitted.Some? then submitted
                                                             else if current.paidAt.Some? then current.paidAt
                                                             else Some(now))
    ensures r.Ok? ==> Noted(current, r.value.next, r.value.changes, merchantVisible)
  {
    hide Noted;
    var next, changes := edited.next, edited.changes;
    merchantVisible := visible;
    if next.status == Paid {
      if submitted.Some? {
        if next.paidAt != submitted {
          NoteChange(current, next, next.(paidAt := submitted), changes, merchantVisible, PaidAtField);
          next, changes, merchantVisible := next.(paidAt := submitted), changes + {PaidAtField}, true;
        }
      } else if next.paidAt.None? {
        NoteChange(current, next, next.(paidAt := Some(now)), changes, merchantVisible, PaidAtField);
        next, changes, merchantVisible := next.(paidAt := Some(now)), changes + {PaidAtField}, true;
      }
    } else {
      if submitted.Some? { return Err(InvalidEdit), false; }
      if next.paidAt.Some? {
        NoteChange(current, next, next.(paidAt := None), changes, merchantVisible, PaidAtField);
        next, changes, merchantVisible := next.(paidAt := None), changes + {PaidAtField}, true;
      }
    }
    return Ok(Edited(next, changes)), merchantVisible;
  }

  /** applyEdit: the edited payment, the fields that changed, and whether merchants see it. */
  method ApplyEdit(current: Payment, input: EditInput, now: int)
    returns (r: Result<Edited, Failure>, merchantVisible: bool)
    ensures r == if EditAccepted(current, input)
                 then Ok(Edited(EditedPayment(current, input, now),
                                ChangedFields(current, EditedPayment(current, input, now))))
                 else Err(InvalidEdit)
    ensures r.Ok? ==> (merchantVisible <==> exists f :: f in r.value.changes && f != NoteField)
  {
    hide Trim, ByteLength, ParseStatus, Noted, ChangedFields;
    r, merchantVisible := EditDescription(current, input);
    if r.Err? { return; }
    r, merchantVisible := EditOutcome(current, r.value, merchantVisible, input);
    if r.Err? { return; }
    r, merchantVisible := EditPaidAt(current, r.value, merchantVisible, input.paidAt, now);
    if r.Err? { return; }
    NotedIsChanged(current, r.value.next, r.value.changes, merchantVisible);
  }

  lemma EarliestIsUnique(payments: map<Id, Payment>, due: set<Id>, p: Id, q: Id)
    requires due <= payments.Keys && IsEarliest(payments, due, p) && IsEarliest(payments, due, q)
    ensures p == q
  {
  }

  method FindEarliest(payments: map<Id, Payment>, rest: set<Id>) returns (first: Id)
    requires rest <= payments.Keys && rest != {}
    ensures IsEarliest(payments, rest, first)
  {
    first :| first in rest;
    var todo := rest - {first};
    while todo != {}
      invariant first in rest && todo <= rest
      invariant forall q :: q in rest && q !in todo && q != first ==> DueBefore(payments, first, q)
      decreases todo
    {
      var q :| q in todo;
      if DueBefore(payments, q, first) { first := q; }
      todo := todo - {q};
    }
  }

  /** SELECT id ... WHERE status='pending' AND grace_until <= now ORDER BY grace_until,id LIMIT n */
  method ListDue(payments: map<Id, Payment>, now: int, limit: nat) returns (listed: seq<Id>)
    ensures listed == InDueOrder(payments, DueSet(payments, now), limit)
  {
    listed := [];
    var rest := DueSet(payments, now);
    while rest != {} && |listed| < limit
      invariant rest <= payments.Keys && |listed| <= limit
      invariant listed + InDueOrder(payments, rest, limit - |listed|)
           == InDueOrder(payments, DueSet(payments, now), limit)
      decreases |rest|
    {
      var first := FindEarliest(payments, rest);
      EarliestIsUnique(payments, rest, first, Earliest(payments, rest));
      listed, rest := listed + [first], rest - {first};
    }
  }

  class Service {
    var payments: map<Id, Payment>
    var reservations: map<Id, Reservation>
    var history: seq<HistoryRow>
    var outbox: seq<OutboxRow>
    var keys: map<Key, KeyRow>
    var observations: seq<ObservationRow>

    ghost function View(): Tables
      reads this
    {
      Tables(payments, reservations, history, outbox, keys, observations)
    }

    constructor ()
      ensures View() == EMPTY
    {
      payments, reservations, history, outbox, keys, observations := map[], map[], [], [], map[], [];
    }

    /** Stores the payment and appends its history row and, when wanted, its webhook. */
    method Commit(payment: Id, next: Payment, row: HistoryRow, event: Id) returns (ok: bool)
      modifies this
      ensures var r := Append(old(View()), payment, next, row, event);
        && ok == r.Ok?
        && View() == if ok then r.value else old(View())
    {
      if !FreshHistory(history, row.id) || (!row.onlyNote && !FreshEvent(outbox, event)) {
        return false;
      }
      payments := payments[payment := next];
      history := history + [row];
      if !row.onlyNote {
        outbox := outbox + [OutboxRow(event, row.kind, payment, next, row.at)];
      }
      return true;
    }

    /** The allocator: releases due reservations, then scans the buckets. */
    method Select(requested: int, now: int, pick: int) returns (r: Result<int, Failure>)
      modifies this`reservations
      ensures reservations == Release(old(reservations), now)
      ensures r == SelectFrom(reservations, requested, now - SOFT_HORIZON, 0, pick)
    {
      reservations := map p | p in reservations :: ReleaseRow(reservations[p], now);
      r := ScanBuckets(reservations, requested, now, pick);
    }

    method Create(input: CreateInput, windows: Windows, profile: Option<Profile>, now: int, ids: CreateIds, pick: int)
      returns (r: Result<(Id, bool), Failure>)
      modifies this
      ensures View() == Apply(old(View()), Step.Create(input, windows, profile, now, ids, pick))
      ensures match NormalizeCreate(input)
        case Err(e) => r == Err(e)
        case Ok((key, request)) =>
          match CreateTx(old(View()), key, request, windows, profile, now, ids, pick)
          case Err(e) => r == Err(e)
          case Ok(created) => r == Ok((created.payment, created.replayed))
    {
      var normalized := NormalizeCreate(input);
      if normalized.Err? {
        return Err(normalized.error);
      }
      var (key, request) := normalized.value;
      var savedKeys, savedReservations := keys, reservations;
      keys := Purge(keys, now);
      if key in keys {
        var row := keys[key];
        if row.request != request {
          keys := savedKeys;
          return Err(IdempotencyConflict);
        }
        if row.payment !in payments {
          keys := savedKeys;
          return Err(StorageConstraint);
        }
        return Ok((row.payment, true));
      }
      if profile.None? {
        keys := savedKeys;
        return Err(NoActiveProfile);
      }
      if profile.value.id == "" {
        keys := savedKeys;
        return Err(StorageConstraint);
      }
      var selected := Select(request.amount, now, pick);
      if selected.Err? {
        keys, reservations := savedKeys, savedReservations;
        return Err(selected.error);
      }
      var payable := selected.value;
      var p := NewPayment(request, payable, profile.value, windows, now);
      if !PaymentChecks(p) || ids.payment in payments || ids.payment in reservations || Held(reservations, payable) {
        keys, reservations := savedKeys, savedReservations;
        return Err(StorageConstraint);
      }
      reservations := reservations[ids.payment := Reservation(p.profile, payable, now, p.reuseAfter, None, now)];
      keys := keys[key := KeyRow(request, ids.payment, now, now + IDEMPOTENCY_TTL)];
      var ok := Commit(ids.payment, p,
                       HistoryRow(ids.rows.history, ids.payment, PaymentCreated, System, None, false, now),
                       ids.rows.event);
      if !ok {
        keys, reservations := savedKeys, savedReservations;
        return Err(StorageConstraint);
      }
      return Ok((ids.payment, false));
    }

    method Cancel(payment: Id, now: int, ids: RowIds) returns (r: Result<Payment, Failure>)
      modifies this
      ensures View() == Apply(old(View()), Step.Cancel(payment, now, ids))
      ensures match CancelTx(old(View()), payment, now, ids)
        case Err(e) => r == Err(e)
        case Ok(next) => payment in next.payments && r == Ok(next.payments[payment])
    {
      if payment !in payments {
        return Err(PaymentNotFound);
      }
      var p := payments[payment];
      match p.status {
        case Cancelled => return Ok(p);
        case Paid => return Err(PaymentTerminal);
        case Expired => return Err(PaymentTerminal);
        case Pending =>
      }
      p := p.(status := Cancelled);
      var ok := Commit(payment, p, HistoryRow(ids.history, payment, PaymentCancelled, System,
                                              Some(StatusChange(Pending, Cancelled)), false, now), ids.event);
      if !ok {
        return Err(StorageConstraint);
      }
      return Ok(p);
    }

    method ExpireDue(limit: int, now: int, ids: seq<RowIds>) returns (r: Result<nat, Failure>)
      modifies this
      ensures View() == Apply(old(View()), Step.ExpireDue(limit, now, ids))
      ensures match ExpireTx(old(View()), limit, now, ids)
        case Err(e) => r == Err(e)
        case Ok((_, count)) => r == Ok(count)
    {
      var savedPayments, savedHistory, savedOutbox := payments, history, outbox;
      var due := ListDue(payments, now, ClampLimit(limit));
      var expired, n, used := 0, 0, 0;
      hide ExpireAll;
      while n < |due|
        invariant 0 <= n <= |due| && 0 <= used <= |ids|
        invariant reservations == old(reservations) && keys == old(keys) && observations == old(observations)
        invariant ExpireAll(old(View()), due, now, ids)
               == AddCount(ExpireAll(View(), due[n..], now, ids[used..]), expired)
      {
        ExpireAllFrom(View(), due, n, now, ids, used);
        if IsDue(payments, due[n], now) {
          if used == |ids| {
            payments, history, outbox := savedPayments, savedHistory, savedOutbox;
            return Err(StorageConstraint);
          }
          var ok := Commit(due[n], payments[due[n]].(status := Expired),
                           ExpiryRow(due[n], now, ids[used].history), ids[used].event);
          if !ok {
            payments, history, outbox := savedPayments, savedHistory, savedOutbox;
            return Err(StorageConstraint);
          }
          used, expired := used + 1, expired + 1;
        }
        n := n + 1;
      }
      ExpireAllFrom(View(), due, n, now, ids, used);
      return Ok(expired);
    }

    method Edit(payment: Id, input: EditInput, now: int, ids: RowIds) returns (r: Result<Payment, Failure>)
      modifies this
      ensures View() == Apply(old(View()), Step.Edit(payment, input, now, ids))
      ensures match EditTx(old(View()), payment, input, now, ids)
        case Err(e) => r == Err(e)
        case Ok(next) => payment in next.payments && r == Ok(next.payments[payment])
    {
      if payment !in payments {
        return Err(PaymentNotFound);
      }
      var current := payments[payment];
      var edit, merchantVisible := ApplyEdit(current, input, now);
      if edit.Err? {
        return Err(edit.error);
      }
      var next, changes := edit.value.next, edit.value.changes;
      if changes == {} {
        return Ok(current);
      }
      if current.status != Pending && next.status == Pending {
        if now >= current.reuseAfter {
          return Err(UnsafeReopen);
        }
        if payment !in reservations {
          return Err(StorageConstraint);
        }
        if reservations[payment].releasedAt.Some? {
          return Err(UnsafeReopen);
        }
      }
      assert !merchantVisible <==> changes == {NoteField};
      var kind := OperatorEvent(current.status, next.status);
      var row := HistoryRow(ids.history, payment, kind, Admin, ChangeOf(current, next), !merchantVisible, now);
      var ok := Commit(payment, next, row, ids.event);
      if !ok {
        return Err(StorageConstraint);
      }
      return Ok(next);
    }

    /** matchingCandidates: the window query, then the cancellation filter row by row. */
    method MatchingCandidates(o: Observation) returns (candidates: seq<Id>)
      ensures forall p :: p in candidates <==> p in MatchSet(View(), o)
      ensures |candidates| == |MatchSet(View(), o)|
      ensures forall p :: p in candidates ==> p in reservations && p in payments
    {
      var raw := set p | p in reservations && InWindowRow(p, o);
      candidates := [];
      ghost var done: set<Id> := {};
      while raw != {}
        invariant raw !! done
        invariant raw + done == set p | p in reservations && InWindow(View(), p, o)
        invariant forall p :: p in candidates <==> p in done && !CancelledAt(View(), p, o.occurredAt)
        invariant forall i, j :: 0 <= i < j < |candidates| ==> candidates[i] != candidates[j]
        decreases raw
      {
        var p :| p in raw;
        raw, done := raw - {p}, done + {p};
        var rows := SortRows(HistoryOf(history, p));
        var cancelled := OccurredDuringCancellation(rows, o.occurredAt);
        if !cancelled {
          candidates := candidates + [p];
        }
      }
      DistinctCount(candidates, MatchSet(View(), o));
    }

    /** The WHERE clause of the matcher's query. */
    predicate InWindowRow(p: Id, o: Observation)
      reads this
      ensures InWindowRow(p, o) <==> InWindow(View(), p, o)
    {
      && p in reservations && p in payments
      && reservations[p].payable == o.amount
      && payments[p].createdAt <= o.occurredAt && reservations[p].reservedUntil >= o.occurredAt
      && (reservations[p].releasedAt.None? || reservations[p].releasedAt.value >= o.occurredAt)
      && (o.source == PaytmNotification ==> reservations[p].profile == o.profile)
    }

    /** applyMatchedPayment */
    method ApplyMatchedPayment(payment: Id, o: Observation, now: int, ids: RowIds) returns (r: Result<bool, Failure>)
      requires payment in payments
      modifies this
      ensures match ConfirmTx(old(View()), payment, o, now, ids)
        case Err(e) => r == Err(e) && View() == old(View())
        case Ok((next, transitioned)) => r == Ok(transitioned) && View() == next
    {
      var p := payments[payment];
      if p.status == Paid {
        payments := payments[payment := Enriched(p, o)];
        return Ok(false);
      }
      var ok := Commit(payment, MarkedPaid(p, o),
                       HistoryRow(ids.history, payment, PaymentPaid, System, Some(StatusChange(p.status, Paid)),
                                  false, now), ids.event);
      if !ok {
        return Err(StorageConstraint);
      }
      return Ok(true);
    }

    /** applyObservation from the candidate query on. */
    method Settle(event: Id, o: Observation, active: Option<string>, receivedAt: int, now: int, ids: RowIds)
      returns (r: Result<(MatchOutcome, Option<Id>, bool), Failure>)
      modifies this
      ensures match SettleTx(old(View()), event, o, active, receivedAt, now, ids)
        case Err(e) => r == Err(e) && View() == old(View())
        case Ok(s) => r == Ok((s.outcome, s.payment, s.transitioned)) && View() == s.db
    {
      hide MatchSet, Trim;
      if !ValidObservation(o) {
        return Err(InvalidObservation);
      }
      var savedPayments, savedHistory, savedOutbox := payments, history, outbox;
      var candidates := MatchingCandidates(o);
      var outcome, matched, transitioned, seen := Unmatched, None, false, o;
      if |candidates| > 1 {
        outcome := Ambiguous;
      } else if |candidates| == 1 {
        var payment := candidates[0];
        SingletonSet(MatchSet(View(), o), payment);
        seen := o.(profile := reservations[payment].profile);
        outcome, matched := Matched, Some(payment);
        if payments[payment].status == Paid {
          if Confirmed(observations, payment) {
            outcome := Corroborated;
          }
        }
        var applied := ApplyMatchedPayment(payment, seen, now, ids);
        if applied.Err? {
          return Err(applied.error);
        }
        transitioned := applied.value;
      }
      if Trim(seen.profile) == "" {
        if active.None? {
          payments, history, outbox := savedPayments, savedHistory, savedOutbox;
          return Err(InvalidObservation);
        }
        seen := seen.(profile := active.value);
      }
      if Observed(observations, event) {
        payments, history, outbox := savedPayments, savedHistory, savedOutbox;
        return Err(StorageConstraint);
      }
      observations := observations + [ObservationRow(event, seen, receivedAt, matched, outcome)];
      return Ok((outcome, matched, transitioned));
    }
  }

  function ExpiryRow(payment: Id, now: int, id: Id): HistoryRow {
    HistoryRow(id, payment, PaymentExpired, System, Some(StatusChange(Pending, Expired)), false, now)
  }

  /** One round of the expiry loop, seen from the transaction function. */
  lemma {:induction false} ExpireAllFrom(db: Tables, due: seq<Id>, n: nat, now: int, ids: seq<RowIds>, used: nat)
    requires n <= |due| && used <= |ids|
    ensures n == |due| ==> ExpireAll(db, due[n..], now, ids[used..]) == Ok((db, 0))
    ensures n < |due| && !IsDue(db.payments, due[n], now) ==>
              ExpireAll(db, due[n..], now, ids[used..]) == ExpireAll(db, due[n + 1..], now, ids[used..])
    ensures n < |due| && IsDue(db.payments, due[n], now) && used == |ids| ==>
              ExpireAll(db, due[n..], now, ids[used..]) == Err(StorageConstraint)
    ensures n < |due| && IsDue(db.payments, due[n], now) && used < |ids| ==>
              ExpireAll(db, due[n..], now, ids[used..]) ==
                (match Append(db, due[n], db.payments[due[n]].(status := Expired),
                              ExpiryRow(due[n], now, ids[used].history), ids[used].event)
                 case Err(e) => Err(e)
                 case Ok(next) => AddCount(ExpireAll(next, due[n + 1..], now, ids[used + 1..]), 1))
  {
    if n < |due| {
      assert due[n..][0] == due[n] && due[n..][1..] == due[n + 1..];
      if used < |ids| {
        assert ids[used..][0] == ids[used] && ids[used..][1..] == ids[used + 1..];
      }
    }
  }

  ghost function AddCount(r: Result<(Tables, nat), Failure>, n: nat): Result<(Tables, nat), Failure> {
    match r
    case Err(e) => Err(e)
    case Ok((db, count)) => Ok((db, count + n))
  }

  lemma {:induction false} DistinctCount(s: seq<Id>, t: set<Id>)
    requires forall i, j :: 0 <= i < j < |s| ==> s[i] != s[j]
    requires forall p :: p in s <==> p in t
    ensures |s| == |t|
  {
    if s != [] {
      var last := s[|s| - 1];
      var front := s[..|s| - 1];
      assert s == front + [last];
      assert last in s;
      forall p ensures p in front <==> p in t - {last} {
        if p in front { assert p in s; }
        if p in t - {last} { assert p in s; }
      }
      DistinctCount(front, t - {last});
    } else {
      assert t == {};
    }
  }
}
