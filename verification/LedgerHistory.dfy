/** The history table over runs: rows are appended under distinct ids and, when no commit reads an
    earlier clock than the one before, dated in insertion order. */
module LedgerHistory {
  import opened Common
  import opened Domain
  import opened Cancellation
  import opened CancellationOrder
  import opened History
  import opened Ledger
  import opened LedgerInvariants

  /** The clock readings of all committed steps never decrease; equal ones are allowed. */
  ghost predicate CommitsForward(clock: int, steps: seq<Step>)
    decreases |steps|
  {
    steps == [] || (clock <= steps[0].now && CommitsForward(steps[0].now, steps[1..]))
  }

  ghost function LastCommit(clock: int, steps: seq<Step>): int
    decreases |steps|
  {
    if steps == [] then clock else LastCommit(steps[0].now, steps[1..])
  }

  // ----- What one step appends -----

  /** Rows were appended, all of one instant and under new ids. */
  ghost predicate Appended(before: seq<HistoryRow>, after: seq<HistoryRow>, at: int) {
    && |before| <= |after| && after[..|before|] == before
    && (forall i :: |before| <= i < |after| ==> after[i].at == at)
    && (DistinctIds(before) ==> DistinctIds(after))
  }

  lemma AppendedMore(a: seq<HistoryRow>, b: seq<HistoryRow>, c: seq<HistoryRow>, at: int)
    requires Appended(a, b, at) && Appended(b, c, at)
    ensures Appended(a, c, at)
  {
    assert c[..|a|] == c[..|b|][..|a|];
    forall i | |a| <= i < |b| ensures c[i].at == at {
      assert c[i] == c[..|b|][i];
    }
  }

  lemma NothingAppended(history: seq<HistoryRow>, at: int)
    ensures Appended(history, history, at)
  {
  }

  lemma RowAppended(history: seq<HistoryRow>, row: HistoryRow)
    requires FreshHistory(history, row.id)
    ensures Appended(history, history + [row], row.at)
  {
  }

  lemma {:induction false} ExpireAppends(db: Tables, due: seq<Id>, now: int, ids: seq<RowIds>, next: Tables, count: nat)
    requires ExpireAll(db, due, now, ids) == Ok((next, count))
    ensures Appended(db.history, next.history, now)
    decreases |due|
  {
    if due == [] {
      NothingAppended(db.history, now);
    } else if !IsDue(db.payments, due[0], now) {
      ExpireAppends(db, due[1..], now, ids, next, count);
    } else {
      ExpireAllUnfold(db, due, now, ids, next, count);
      var first := ExpireOne(db, due[0], now, ids[0]);
      RowAppended(db.history, first.history[|db.history|]);
      hide Appended;
      ExpireAppends(first, due[1..], now, ids[1..], next, count - 1);
      AppendedMore(db.history, first.history, next.history, now);
    }
  }

  lemma CreateAppends(db: Tables, key: Key, request: Request, windows: Windows, profile: Option<Profile>,
                      now: int, ids: CreateIds, pick: int, created: Created)
    requires CreateTx(db, key, request, windows, profile, now, ids, pick) == Ok(created)
    ensures Appended(db.history, created.db.history, now)
  {
    if !created.replayed {
      CreateInserts(db, key, request, windows, profile, now, ids, pick, created);
    }
  }

  lemma EditAppends(db: Tables, payment: Id, e: EditInput, now: int, ids: RowIds)
    ensures EditTx(db, payment, e, now, ids).Ok? ==>
      Appended(db.history, EditTx(db, payment, e, now, ids).value.history, now)
  {
    hide EditAccepted, EditedPayment, ChangedFields;
  }

  lemma SettleAppends(db: Tables, event: Id, o: Observation, active: Option<string>, receivedAt: int,
                      now: int, ids: RowIds, s: Settled)
    requires SettledAs(db, event, o, active, receivedAt, now, ids, s)
    ensures Appended(db.history, s.db.history, now)
  {
    hide MatchSet;
  }

  lemma StepAppends(db: Tables, step: Step)
    ensures Appended(db.history, Apply(db, step).history, step.now)
  {
    NothingAppended(db.history, step.now);
    match step
    case Create(input, windows, profile, now, ids, pick) =>
      hide CreateTx, Appended;
      if NormalizeCreate(input).Ok? {
        var (key, request) := NormalizeCreate(input).value;
        var r := CreateTx(db, key, request, windows, profile, now, ids, pick);
        if r.Ok? { CreateAppends(db, key, request, windows, profile, now, ids, pick, r.value); }
      }
    case Cancel(payment, now, ids) =>
    case ExpireDue(limit, now, ids) =>
      var due := InDueOrder(db.payments, DueSet(db.payments, now), ClampLimit(limit));
      var r := ExpireAll(db, due, now, ids);
      hide ExpireAll, Appended;
      if r.Ok? { ExpireAppends(db, due, now, ids, r.value.0, r.value.1); }
    case Edit(payment, e, now, ids) =>
      EditAppends(db, payment, e, now, ids);
      hide Appended, EditTx;
    case Settle(event, o, active, receivedAt, now, ids) =>
      hide SettleTx, Appended;
      var r := SettleTx(db, event, o, active, receivedAt, now, ids);
      if r.Ok? {
        SettleShape(db, event, o, active, receivedAt, now, ids, r.value);
        SettleAppends(db, event, o, active, receivedAt, now, ids, r.value);
      }
  }

  // ----- Distinct ids, on every run -----

  lemma {:induction false} RunKeepsIds(db: Tables, steps: seq<Step>)
    requires DistinctIds(db.history)
    ensures DistinctIds(Run(db, steps).history)
    decreases |steps|
  {
    hide Apply, DistinctIds;
    if steps != [] {
      StepAppends(db, steps[0]);
      RunKeepsIds(Apply(db, steps[0]), steps[1..]);
    }
  }

  lemma {:induction false} HistoryOfHasDistinctIds(history: seq<HistoryRow>, payment: Id)
    requires DistinctIds(history)
    ensures DistinctIds(HistoryOf(history, payment))
  {
    if history != [] {
      var front, last := history[..|history| - 1], history[|history| - 1];
      HistoryOfHasDistinctIds(front, payment);
      HistoryOfIsSelection(front, payment);
      var rows := HistoryOf(front, payment);
      forall i | 0 <= i < |rows| ensures rows[i].id != last.id {
        var k :| 0 <= k < |front| && front[k] == rows[i];
        assert history[k] == rows[i];
      }
    }
  }

  // ----- Dated in order, on every run forward in time -----

  ghost predicate Chronicle(history: seq<HistoryRow>, clock: int) {
    && (forall i :: 0 <= i < |history| ==> history[i].at <= clock)
    && (forall i, j :: 0 <= i < j < |history| ==> history[i].at <= history[j].at)
  }

  lemma StepKeepsChronicle(db: Tables, step: Step, clock: int)
    requires Chronicle(db.history, clock) && clock <= step.now
    ensures Chronicle(Apply(db, step).history, step.now)
  {
    StepAppends(db, step);
    var before, after := db.history, Apply(db, step).history;
    hide Apply;
    forall i | 0 <= i < |before| ensures after[i] == before[i] {
      assert after[i] == after[..|before|][i];
    }
  }

  lemma {:induction false} RunKeepsChronicle(db: Tables, steps: seq<Step>, clock: int)
    requires Chronicle(db.history, clock) && CommitsForward(clock, steps)
    ensures Chronicle(Run(db, steps).history, LastCommit(clock, steps))
    decreases |steps|
  {
    hide Chronicle, Apply;
    if steps != [] {
      StepKeepsChronicle(db, steps[0], clock);
      RunKeepsChronicle(Apply(db, steps[0]), steps[1..], steps[0].now);
    }
  }

  lemma {:induction false} HistoryOfConcat(a: seq<HistoryRow>, b: seq<HistoryRow>, p: Id)
    ensures HistoryOf(a + b, p) == HistoryOf(a, p) + HistoryOf(b, p)
  {
    if b == [] {
      assert a + b == a;
    } else {
      assert (a + b)[..|a + b| - 1] == a + b[..|b| - 1] && (a + b)[|a + b| - 1] == b[|b| - 1];
      HistoryOfConcat(a, b[..|b| - 1], p);
    }
  }

  lemma LaterRows(rows: seq<HistoryRow>, more: seq<HistoryRow>, clock: int, now: int)
    requires Chronicle(rows, clock) && clock <= now && forall i :: 0 <= i < |more| ==> more[i].at == now
    ensures Chronicle(rows + more, now)
  {
  }

  /** A step dates a payment's new rows after its old ones, whatever the rows of other payments. */
  lemma {:induction false} StepKeepsOwnChronicle(db: Tables, step: Step, clock: int, p: Id)
    requires Chronicle(HistoryOf(db.history, p), clock) && clock <= step.now
    ensures Chronicle(HistoryOf(Apply(db, step).history, p), step.now)
  {
    StepAppends(db, step);
    var before, after := db.history, Apply(db, step).history;
    hide Apply;
    var added := after[|before|..];
    assert after == before + added;
    HistoryOfConcat(before, added, p);
    HistoryOfIsSelection(added, p);
    var rows, more := HistoryOf(before, p), HistoryOf(added, p);
    hide HistoryOf, Chronicle;
    forall i | 0 <= i < |more| ensures more[i].at == step.now {
      assert more[i] in added;
    }
    LaterRows(rows, more, clock, step.now);
  }

  /** So on a run forward in time the rows of each payment of the run are dated in order. */
  lemma {:induction false} RunKeepsOwnChronicle(db: Tables, steps: seq<Step>, clock: int, p: Id)
    requires Chronicle(HistoryOf(db.history, p), clock) && CommitsForward(clock, steps)
    ensures Chronicle(HistoryOf(Run(db, steps).history, p), LastCommit(clock, steps))
    decreases |steps|
  {
    hide Chronicle, Apply, HistoryOf;
    if steps != [] {
      StepKeepsOwnChronicle(db, steps[0], clock, p);
      RunKeepsOwnChronicle(Apply(db, steps[0]), steps[1..], steps[0].now, p);
    }
  }

  lemma OwnRowsAreChronological(rows: seq<HistoryRow>, clock: int)
    requires Chronicle(rows, clock)
    ensures Chronological(rows)
  {
  }

  /** Forward commits are forward creates. */
  lemma {:induction false} CommitsForwardIsClockForward(clock: int, commit: int, steps: seq<Step>)
    requires clock <= commit && CommitsForward(commit, steps)
    ensures ClockForward(clock, steps) && LastClock(clock, steps) <= LastCommit(commit, steps)
    decreases |steps|
  {
    if steps != [] {
      CommitsForwardIsClockForward(ClockAfter(clock, steps[0]), steps[0].now, steps[1..]);
    }
  }
}
