/** The webhook outbox: leased claims, retries with growing delays and manual retries, with one
    sender at a time that may crash between a claim and its finish. */
module Webhooks {
  import opened Common
  import opened Domain

  datatype DeliveryStatus = WaitingFirst | WaitingRetry | Delivered | Exhausted

  /** A webhook_deliveries row. WaitingFirst and WaitingRetry are "pending" and "retry". */
  datatype Delivery = Delivery(
    event: OutboxRow, status: DeliveryStatus, attempts: nat, nextAt: Option<int>,
    httpStatus: Option<int>, failed: bool, deliveredAt: Option<int>)

  /** What came back from the endpoint: nothing at all, or a status code. */
  datatype Response = NoAnswer | Answered(code: int)

  datatype Claim = Claim(row: nat, attempts: nat)

  /** The table in rowid order, and the claim whose outcome is not written yet. */
  datatype Desk = Desk(rows: seq<Delivery>, inFlight: Option<Claim>)

  /** The sender's settings; non-positive values fall back to the defaults. */
  datatype Settings = Settings(attempts: int, lease: int) {
    function MaxAttempts(): nat { if attempts <= 0 then DEFAULT_ATTEMPTS else attempts }
    function Lease(): nat { if lease <= 0 then DEFAULT_LEASE else lease }
  }

  const MINUTE: int := 60 * 1000
  const DEFAULT_ATTEMPTS: nat := 8
  const DEFAULT_LEASE: nat := 2 * MINUTE
  const DEFAULT_BATCH: nat := 50

  const DELAYS: seq<nat> := [1, 5, 30, 2 * 60, 6 * 60, 12 * 60, 24 * 60]

  /** retryDelay, in minutes. */
  function DelayMinutes(attempt: int): nat {
    var index := if attempt - 1 < 0 then 0 else attempt - 1;
    if index >= |DELAYS| then DELAYS[|DELAYS| - 1] else DELAYS[index]
  }

  predicate RetryableHttpStatus(code: int) {
    code == 408 || code == 425 || code == 429 || code >= 500
  }

  predicate Accepted(response: Response) {
    response.Answered? && 200 <= response.code < 300
  }

  predicate Retryable(response: Response) {
    response.NoAnswer? || RetryableHttpStatus(response.code)
  }

  predicate Waiting(row: Delivery) {
    row.status in {WaitingFirst, WaitingRetry}
  }

  function NextAttempt(row: Delivery): int {
    if row.nextAt.Some? then row.nextAt.value else 0
  }

  predicate Due(row: Delivery, now: int) {
    Waiting(row) && NextAttempt(row) <= now
  }

  // ----- The row updates -----

  function Enqueued(event: OutboxRow): Delivery {
    Delivery(event, WaitingFirst, 0, None, None, false, None)
  }

  function Leased(row: Delivery, now: int, settings: Settings): Delivery {
    row.(attempts := row.attempts + 1, nextAt := Some(now + settings.Lease()))
  }

  /** finish: delivered, given up, or put back with a delay. attempt is the claim's count. */
  function Finished(row: Delivery, attempt: nat, now: int, response: Response, settings: Settings): Delivery {
    var code := if response.Answered? && response.code != 0 then Some(response.code) else None;
    if Accepted(response) then
      row.(status := Delivered, nextAt := None, httpStatus := code, failed := false, deliveredAt := Some(now))
    else if !Retryable(response) || attempt >= settings.MaxAttempts() then
      row.(status := Exhausted, nextAt := None, httpStatus := code, failed := true, deliveredAt := None)
    else
      row.(status := WaitingRetry, nextAt := Some(now + DelayMinutes(attempt) * MINUTE), httpStatus := code,
           failed := true,
           deliveredAt := None)
  }

  function Revived(row: Delivery, now: int): Delivery {
    row.(status := WaitingFirst, attempts := 0, nextAt := Some(now), httpStatus := None, failed := false,
         deliveredAt := None)
  }

  // ----- Runs -----

  datatype Step =
    | Enqueue(event: OutboxRow)
    | Take(row: nat, now: int)                   // claim
    | Conclude(now: int, response: Response)     // the send and finish
    | Lose                                       // a crash, or a finish that was not written
    | Retry(row: nat, now: int)                  // RetryOne

  function Next(d: Desk, step: Step, settings: Settings): Desk {
    match step
    case Enqueue(event) => d.(rows := d.rows + [Enqueued(event)])
    case Take(n, now) =>
      if d.inFlight.None? && n < |d.rows| && Due(d.rows[n], now)
      then Desk(d.rows[n := Leased(d.rows[n], now, settings)], Some(Claim(n, d.rows[n].attempts + 1)))
      else d
    case Conclude(now, response) =>
      if d.inFlight.Some? && d.inFlight.value.row < |d.rows|
      then var c := d.inFlight.value;
           Desk(d.rows[c.row := Finished(d.rows[c.row], c.attempts, now, response, settings)], None)
      else d
    case Lose => d.(inFlight := None)
    case Retry(n, now) =>
      if n < |d.rows| && d.rows[n].status in {WaitingRetry, Exhausted}
      then d.(rows := d.rows[n := Revived(d.rows[n], now)])
      else d
  }

  function Run(d: Desk, steps: seq<Step>, settings: Settings): Desk
    decreases |steps|
  {
    if steps == [] then d else Run(Next(d, steps[0], settings), steps[1..], settings)
  }

  const CLEAR: Desk := Desk([], None)

  /** A claim in flight is on a row that still waits, and delivered rows carry their time. */
  ghost predicate Inv(d: Desk) {
    && (d.inFlight.Some? ==> d.inFlight.value.row < |d.rows| && Waiting(d.rows[d.inFlight.value.row]))
    && (forall n :: 0 <= n < |d.rows| ==> (d.rows[n].status == Delivered <==> d.rows[n].deliveredAt.Some?))
  }

  lemma NextKeepsInv(d: Desk, step: Step, settings: Settings)
    requires Inv(d)
    ensures Inv(Next(d, step, settings)) && |d.rows| <= |Next(d, step, settings).rows|
    ensures forall n :: 0 <= n < |d.rows| ==> Next(d, step, settings).rows[n].event == d.rows[n].event
    ensures forall n :: 0 <= n < |d.rows| && d.rows[n].status == Delivered ==>
      Next(d, step, settings).rows[n] == d.rows[n]
  {
  }

  /** A delivered row is final: no step of any run, not even a crash or a manual retry, changes
      it; and no row's event, payment or payload is ever altered. */
  lemma {:induction false} DeliveredIsFinal(d: Desk, steps: seq<Step>, settings: Settings, n: nat)
    requires Inv(d) && n < |d.rows|
    ensures Inv(Run(d, steps, settings)) && n < |Run(d, steps, settings).rows|
    ensures Run(d, steps, settings).rows[n].event == d.rows[n].event
    ensures d.rows[n].status == Delivered ==> Run(d, steps, settings).rows[n] == d.rows[n]
    decreases |steps|
  {
    if steps != [] {
      NextKeepsInv(d, steps[0], settings);
      DeliveredIsFinal(Next(d, steps[0], settings), steps[1..], settings, n);
    }
  }

  // ----- Counting claims, losses and delays of one row -----

  predicate InFlight(d: Desk, n: nat) {
    d.inFlight.Some? && d.inFlight.value.row == n
  }

  function Takes(d: Desk, step: Step, n: nat): nat {
    if step.Take? && step.row == n && d.inFlight.None? && n < |d.rows| && Due(d.rows[n], step.now) then 1 else 0
  }

  function Loses(d: Desk, step: Step, n: nat): nat {
    if step.Lose? && InFlight(d, n) then 1 else 0
  }

  /** The delay, in minutes, that the step schedules for the row. */
  function Delays(d: Desk, step: Step, n: nat, settings: Settings): nat {
    if step.Conclude? && InFlight(d, n) && !Accepted(step.response) && Retryable(step.response)
       && d.inFlight.value.attempts < settings.MaxAttempts()
    then DelayMinutes(d.inFlight.value.attempts) else 0
  }

  /** Claims, lost finishes and scheduled delay of row n over a whole run. */
  datatype Tally = Tally(claims: nat, lost: nat, delay: nat)

  function TallyOf(d: Desk, steps: seq<Step>, n: nat, settings: Settings): Tally
    decreases |steps|
  {
    if steps == [] then Tally(0, 0, 0)
    else
      var rest := TallyOf(Next(d, steps[0], settings), steps[1..], n, settings);
      Tally(Takes(d, steps[0], n) + rest.claims, Loses(d, steps[0], n) + rest.lost,
            Delays(d, steps[0], n, settings) + rest.delay)
  }

  ghost predicate NotRetried(steps: seq<Step>, n: nat) {
    forall i :: 0 <= i < |steps| ==> !(steps[i].Retry? && steps[i].row == n)
  }

  function AttemptsOf(d: Desk, n: nat): nat {
    if n < |d.rows| then d.rows[n].attempts else 0
  }

  /** What bounds the attempts of a row that was never revived, after `lost` lost finishes. */
  ghost predicate Bounded(d: Desk, n: nat, lost: nat, settings: Settings) {
    && (InFlight(d, n) ==> d.inFlight.value.attempts == AttemptsOf(d, n) >= 1)
    && AttemptsOf(d, n) <= settings.MaxAttempts() + lost
    && (n < |d.rows| && Waiting(d.rows[n]) && !InFlight(d, n) ==> AttemptsOf(d, n) <= settings.MaxAttempts() - 1 + lost)
  }

  lemma StepKeepsBound(d: Desk, step: Step, n: nat, lost: nat, settings: Settings)
    requires Inv(d) && Bounded(d, n, lost, settings) && !(step.Retry? && step.row == n)
    ensures Bounded(Next(d, step, settings), n, lost + Loses(d, step, n), settings)
    ensures AttemptsOf(Next(d, step, settings), n) == AttemptsOf(d, n) + Takes(d, step, n)
  {
  }

  lemma {:induction false} RunKeepsBound(d: Desk, steps: seq<Step>, n: nat, lost: nat, settings: Settings)
    requires Inv(d) && Bounded(d, n, lost, settings) && NotRetried(steps, n)
    ensures var tally, last := TallyOf(d, steps, n, settings), Run(d, steps, settings);
      && Bounded(last, n, lost + tally.lost, settings)
      && AttemptsOf(last, n) == AttemptsOf(d, n) + tally.claims
    decreases |steps|
  {
    if steps != [] {
      var step := steps[0];
      StepKeepsBound(d, step, n, lost, settings);
      NextKeepsInv(d, step, settings);
      assert NotRetried(steps[1..], n);
      hide Next, Inv, Bounded, Takes, Loses, Delays;
      RunKeepsBound(Next(d, step, settings), steps[1..], n, lost + Loses(d, step, n), settings);
    }
  }

  /** Claims of a delivery nobody retries by hand: the attempts column counts exactly the claims,
      and they are at most MaxAttempts plus the number of finishes that were lost. So without a
      loss, MaxAttempts - attempts starts at MaxAttempts, drops by one at every claim and never
      goes below zero. */
  lemma {:induction false} ClaimsAreBounded(steps: seq<Step>, n: nat, settings: Settings)
    requires NotRetried(steps, n)
    ensures var tally := TallyOf(CLEAR, steps, n, settings);
      && AttemptsOf(Run(CLEAR, steps, settings), n) == tally.claims
      && tally.claims <= settings.MaxAttempts() + tally.lost
  {
    RunKeepsBound(CLEAR, steps, n, 0, settings);
  }

  // ----- Delays -----

  lemma DelaysGrow(i: int, j: int)
    requires i <= j
    ensures 1 <= DelayMinutes(i) <= DelayMinutes(j) <= 24 * 60
  {
    assert forall k :: 0 <= k < |DELAYS| - 1 ==> DELAYS[k] <= DELAYS[k + 1];
    if 1 <= i < j {
      DelaysGrow(i, j - 1);
    }
  }

  /** The delays after attempts 1..k together, in minutes. */
  function Backoff(k: nat): nat {
    if k == 0 then 0 else Backoff(k - 1) + DelayMinutes(k)
  }

  /** Attempts of the row whose outcome is settled, up to the last that can be retried. */
  function Settled(d: Desk, n: nat, settings: Settings): nat {
    var done := if InFlight(d, n) && AttemptsOf(d, n) > 0 then AttemptsOf(d, n) - 1 else AttemptsOf(d, n);
    if done < settings.MaxAttempts() then done else settings.MaxAttempts() - 1
  }

  lemma {:induction false} BackoffGrows(i: nat, j: nat)
    requires i <= j
    ensures Backoff(i) <= Backoff(j)
  {
    if i < j {
      BackoffGrows(i, j - 1);
    }
  }

  lemma StepSpendsBackoff(d: Desk, step: Step, n: nat, lost: nat, settings: Settings)
    requires Inv(d) && Bounded(d, n, lost, settings) && !(step.Retry? && step.row == n)
    ensures Settled(d, n, settings) <= Settled(Next(d, step, settings), n, settings)
    ensures Delays(d, step, n, settings)
         <= Backoff(Settled(Next(d, step, settings), n, settings)) - Backoff(Settled(d, n, settings))
  {
    var before, after := Settled(d, n, settings), Settled(Next(d, step, settings), n, settings);
    hide DelayMinutes;
    assert before <= after;
    BackoffGrows(before, after);
  }

  lemma {:induction false} RunSpendsBackoff(d: Desk, steps: seq<Step>, n: nat, lost: nat, settings: Settings)
    requires Inv(d) && Bounded(d, n, lost, settings) && NotRetried(steps, n)
    ensures TallyOf(d, steps, n, settings).delay + Backoff(Settled(d, n, settings))
         <= Backoff(settings.MaxAttempts() - 1)
    decreases |steps|
  {
    if steps == [] {
      BackoffGrows(Settled(d, n, settings), settings.MaxAttempts() - 1);
    } else {
      var step := steps[0];
      StepKeepsBound(d, step, n, lost, settings);
      StepSpendsBackoff(d, step, n, lost, settings);
      NextKeepsInv(d, step, settings);
      assert NotRetried(steps[1..], n);
      hide Next, Inv, Bounded, Takes, Loses, Delays, Settled, Backoff;
      RunSpendsBackoff(Next(d, step, settings), steps[1..], n, lost + Loses(d, step, n), settings);
    }
  }

  /** All delays ever scheduled for a delivery nobody retries by hand, crashes or not, add up to
      at most the delays after the first MaxAttempts - 1 attempts: 2676 minutes by default. */
  lemma {:induction false} BackoffIsBounded(steps: seq<Step>, n: nat, settings: Settings)
    requires NotRetried(steps, n)
    ensures TallyOf(CLEAR, steps, n, settings).delay <= Backoff(settings.MaxAttempts() - 1)
    ensures settings.attempts <= 0 ==> TallyOf(CLEAR, steps, n, settings).delay <= 2676
  {
    RunSpendsBackoff(CLEAR, steps, n, 0, settings);
    assert Backoff(3) == 36;
    assert Backoff(7) == 2676;
  }

  // ----- One attempt, in plain numbers -----

  /** The row may be sent: it waits, and its next attempt, if it has one, is not in the future. */
  predicate MaySend(row: Delivery, now: int) {
    && (row.status == WaitingFirst || row.status == WaitingRetry)
    && match row.nextAt
       case None => 0 <= now
       case Some(at) => at <= now
  }

  /** A claim counts one attempt more and keeps others off the row for two minutes, unless another lease is
      given; a row that may not be sent is not claimed. */
  lemma ClaimLeaves(d: Desk, n: nat, now: int, settings: Settings)
    requires d.inFlight == None && n < |d.rows|
    ensures Next(d, Take(n, now), settings)
         == if MaySend(d.rows[n], now)
            then
              var attempts, lease := d.rows[n].attempts + 1, if settings.lease > 0 then settings.lease else 120000;
              Desk(d.rows[n := d.rows[n].(attempts := attempts, nextAt := Some(now + lease))], Some(Claim(n, attempts)))
            else d
  {
  }

  /** The endpoint took the event. */
  predicate Took(response: Response) {
    response.Answered? && 200 <= response.code <= 299
  }

  /** It may take it later: it did not answer, or timed out, was asked too early or too often, or failed. */
  predicate MayTakeLater(response: Response) {
    match response
    case NoAnswer => true
    case Answered(code) => code == 408 || code == 425 || code == 429 || 500 <= code
  }

  /** The minutes to wait after an attempt. */
  predicate WaitsAfter(attempt: nat, minutes: int) {
    && (attempt <= 1 ==> minutes == 1) && (attempt == 2 ==> minutes == 5) && (attempt == 3 ==> minutes == 30)
    && (attempt == 4 ==> minutes == 120) && (attempt == 5 ==> minutes == 360) && (attempt == 6 ==> minutes == 720)
    && (attempt >= 7 ==> minutes == 1440)
  }

  /** A row after a claim and the conclusion of its attempt. */
  predicate ConcludedAs(before: Delivery, after: Delivery, at: int, response: Response, limit: int) {
    && after.event == before.event && after.attempts == before.attempts + 1
    && (after.status == Delivered <==> Took(response))
    && (after.status == WaitingRetry <==> !Took(response) && MayTakeLater(response) && after.attempts < limit)
    && (after.status == Exhausted <==> !Took(response) && (!MayTakeLater(response) || after.attempts >= limit))
    && (after.failed <==> !Took(response)) && after.deliveredAt == (if Took(response) then Some(at) else None)
    && after.httpStatus == (if response == NoAnswer || response == Answered(0) then None else Some(response.code))
    && (after.status != WaitingRetry ==> after.nextAt == None)
    && (after.status == WaitingRetry ==>
          && after.nextAt.Some? && (after.nextAt.value - at) % 60000 == 0
          && WaitsAfter(after.attempts, (after.nextAt.value - at) / 60000))
  }

  /** One attempt of a row that may be sent: delivered by any 2xx answer; put back with its delay when the
      endpoint may take it later and the attempts are below the limit, eight unless another is given;
      given up otherwise. No other row is touched. */
  lemma AttemptConcludes(d: Desk, n: nat, now: int, at: int, response: Response, settings: Settings)
    requires d.inFlight == None && n < |d.rows| && MaySend(d.rows[n], now)
    ensures var last := Next(Next(d, Take(n, now), settings), Conclude(at, response), settings);
      && last.inFlight == None && |last.rows| == |d.rows| && last.rows == d.rows[n := last.rows[n]]
      && ConcludedAs(d.rows[n], last.rows[n], at, response, if settings.attempts > 0 then settings.attempts else 8)
  {
    ClaimLeaves(d, n, now, settings);
    var claimed := Next(d, Take(n, now), settings);
    var attempt := d.rows[n].attempts + 1;
    assert WaitsAfter(attempt, DelayMinutes(attempt));
    hide DelayMinutes;
    var minutes := DelayMinutes(attempt);
    assert (minutes * MINUTE) % 60000 == 0 && minutes * MINUTE / 60000 == minutes;
  }

  /** A manual retry starts a row over that waits for a retry or was given up, and no other. */
  lemma RetryLeaves(d: Desk, n: nat, now: int, settings: Settings)
    ensures Next(d, Retry(n, now), settings)
         == if n < |d.rows| && (d.rows[n].status == WaitingRetry || d.rows[n].status == Exhausted)
            then d.(rows := d.rows[n := Delivery(d.rows[n].event, WaitingFirst, 0, Some(now), None, false, None)])
            else d
  {
  }

  /** A new event waits to be sent at once. */
  lemma EnqueueLeaves(d: Desk, event: OutboxRow, settings: Settings)
    ensures Next(d, Enqueue(event), settings)
         == d.(rows := d.rows + [Delivery(event, WaitingFirst, 0, None, None, false, None)])
  {
  }

  /** A manual retry while the row is being sent: its reset of the attempts stands, but the outcome
      of the outstanding send decides the rest. The row is given up again, the retry lost, if and
      only if the send is refused for good or was the last attempt; another failure replaces the
      immediate next attempt of the retry by the delay of the old attempt; success delivers. */
  lemma {:induction false} RetryDuringSendIsLostIff(d: Desk, settings: Settings, retriedAt: int, now: int,
                                                    response: Response)
    requires Inv(d) && d.inFlight.Some? && d.rows[d.inFlight.value.row].status == WaitingRetry
    ensures var c := d.inFlight.value;
      var last := Run(d, [Retry(c.row, retriedAt), Conclude(now, response)], settings);
      && |last.rows| == |d.rows| && last.rows[c.row].attempts == 0
      && (last.rows[c.row].status == Exhausted
          <==> !Took(response) && (!MayTakeLater(response) || c.attempts >= settings.MaxAttempts()))
      && (last.rows[c.row].status == WaitingRetry
          <==> !Took(response) && MayTakeLater(response) && c.attempts < settings.MaxAttempts())
      && (last.rows[c.row].status == WaitingRetry
          ==> exists minutes ::
                WaitsAfter(c.attempts, minutes) && last.rows[c.row].nextAt == Some(now + minutes * 60000))
      && (last.rows[c.row].status == Delivered <==> Took(response))
  {
    var n, attempts := d.inFlight.value.row, d.inFlight.value.attempts;
    assert WaitsAfter(attempts, DelayMinutes(attempts));
    hide DelayMinutes;
    var revived := Next(d, Retry(n, retriedAt), settings);
    var last := Next(revived, Conclude(now, response), settings);
    assert [Retry(n, retriedAt), Conclude(now, response)][1..] == [Conclude(now, response)];
    assert Run(last, [], settings) == last;
    assert Run(revived, [Conclude(now, response)], settings) == last;
  }

  /** For one: a first retry answered 404 leaves a manually retried row given up. */
  lemma {:induction false} NotFoundLosesRetry(event: OutboxRow, settings: Settings)
    ensures var d := Desk([Enqueued(event).(status := WaitingRetry, attempts := 2)], Some(Claim(0, 2)));
      var last := Run(d, [Retry(0, 1000), Conclude(2000, Answered(404))], settings);
      Inv(d) && |last.rows| == 1 && last.rows[0].status == Exhausted && last.rows[0].attempts == 0
  {
    var d := Desk([Enqueued(event).(status := WaitingRetry, attempts := 2)], Some(Claim(0, 2)));
    RetryDuringSendIsLostIff(d, settings, 1000, 2000, Answered(404));
    hide Run;
  }

  // ----- One sending round -----

  /** ORDER BY COALESCE(next_attempt_at,0), created_at, rowid */
  predicate Before(rows: seq<Delivery>, i: nat, j: nat)
    requires i < |rows| && j < |rows|
  {
    var a, b := NextAttempt(rows[i]), NextAttempt(rows[j]);
    a < b || (a == b && (rows[i].event.at < rows[j].event.at || (rows[i].event.at == rows[j].event.at && i < j)))
  }

  /** The first `limit` due rows, in order. */
  ghost predicate IsDueBatch(rows: seq<Delivery>, now: int, limit: nat, batch: seq<nat>) {
    && |batch| <= limit
    && (forall k :: 0 <= k < |batch| ==> batch[k] < |rows| && Due(rows[batch[k]], now))
    && (forall j, k :: 0 <= j < k < |batch| ==> Before(rows, batch[j], batch[k]))
    && (forall i: nat :: i < |rows| && Due(rows[i], now) && i !in batch
          ==> |batch| == limit && forall k :: 0 <= k < |batch| ==> Before(rows, batch[k], i))
  }

  predicate Earlier(a: Delivery, b: Delivery) {
    var x, y := if a.nextAt == None then 0 else a.nextAt.value, if b.nextAt == None then 0 else b.nextAt.value;
    x < y || (x == y && a.event.at < b.event.at)
  }

  /** A batch lists rows that may be sent, each once, by the instant of their next attempt, then by that of
      their event, then by position; what it leaves out is no earlier than anything in it. */
  lemma BatchIsOrdered(rows: seq<Delivery>, now: int, limit: nat, batch: seq<nat>)
    requires IsDueBatch(rows, now, limit, batch)
    ensures forall k :: 0 <= k < |batch| ==> batch[k] < |rows| && MaySend(rows[batch[k]], now)
    ensures forall j, k :: 0 <= j < k < |batch| ==>
              || Earlier(rows[batch[j]], rows[batch[k]])
              || (!Earlier(rows[batch[k]], rows[batch[j]]) && batch[j] < batch[k])
    ensures forall i: nat :: i < |rows| && MaySend(rows[i], now) && i !in batch ==>
              |batch| == limit && forall k :: 0 <= k < |batch| ==> !Earlier(rows[i], rows[batch[k]])
  {
    forall i: nat | i < |rows| ensures Due(rows[i], now) <==> MaySend(rows[i], now) {
    }
    hide Due, MaySend;
  }

  /** A due row after its claim and its finish. */
  function Sent(row: Delivery, now: int, at: int, response: Response, settings: Settings): Delivery {
    Finished(Leased(row, now, settings), row.attempts + 1, at, response, settings)
  }

  /** What surrounds one round: its clock reading, what the endpoint answers for each row and when,
      and the manual retries and new events before and during each visit. */
  datatype Round = Round(now: int, endpoint: nat -> Response, clock: nat -> int,
                         before: nat -> seq<Step>, during: nat -> seq<Step>)

  /** What others do to the outbox while a round runs. */
  predicate Outside(steps: seq<Step>) {
    forall i :: 0 <= i < |steps| ==> steps[i].Retry? || steps[i].Enqueue?
  }

  ghost predicate Interleaved(round: Round) {
    match round
    case Round(_, _, _, before, during) => forall k :: Outside(before(k)) && Outside(during(k))
  }

  function Visit(n: nat, k: nat, round: Round): seq<Step> {
    round.before(k) + [Take(n, round.now)] + round.during(k) + [Conclude(round.clock(k), round.endpoint(n))]
  }

  function Visits(ids: seq<nat>, round: Round): seq<Step> {
    if ids == [] then []
    else Visits(ids[..|ids| - 1], round) + Visit(ids[|ids| - 1], |ids| - 1, round)
  }

  /** The rows a round gets to when it is cancelled or fails after so many. */
  function Reached(batch: seq<nat>, stopAfter: nat): seq<nat> {
    batch[..if |batch| <= stopAfter then |batch| else stopAfter]
  }

  /** How many of the visited rows are still due when the claim comes. */
  function ClaimsOf(d: Desk, ids: seq<nat>, round: Round, settings: Settings): nat {
    if ids == [] then 0
    else
      var k := |ids| - 1;
      var at := Run(Run(d, Visits(ids[..k], round), settings), round.before(k), settings);
      ClaimsOf(d, ids[..k], round, settings) + Takes(at, Take(ids[k], round.now), ids[k])
  }

  lemma {:induction false} RunSplits(d: Desk, a: seq<Step>, b: seq<Step>, settings: Settings)
    ensures Run(d, a + b, settings) == Run(Run(d, a, settings), b, settings)
    decreases |a|
  {
    if a == [] {
      assert a + b == b;
    } else {
      assert (a + b)[0] == a[0] && (a + b)[1..] == a[1..] + b;
      RunSplits(Next(d, a[0], settings), a[1..], b, settings);
    }
  }

  lemma {:induction false} RunOfOne(d: Desk, step: Step, settings: Settings)
    ensures Run(d, [step], settings) == Next(d, step, settings)
  {
    assert Run(Next(d, step, settings), [], settings) == Next(d, step, settings);
  }

  lemma {:induction false} OneMoreVisit(d: Desk, ids: seq<nat>, n: nat, round: Round, settings: Settings)
    ensures var k, before := |ids|, Run(d, Visits(ids, round), settings);
      && Run(d, Visits(ids + [n], round), settings) == Run(before, Visit(n, k, round), settings)
      && ClaimsOf(d, ids + [n], round, settings)
         == ClaimsOf(d, ids, round, settings)
            + if Takes(Run(before, round.before(k), settings), Take(n, round.now), n) == 1 then 1 else 0
  {
    assert (ids + [n])[..|ids|] == ids;
    RunSplits(d, Visits(ids, round), Visit(n, |ids|, round), settings);
    hide Visit, Run;
  }

  /** The rows a round has left after these visits, as a run of the outbox, and the rows it has sent. */
  ghost predicate SoFar(start: Desk, rows: seq<Delivery>, visited: seq<nat>, sent: nat, round: Round,
                        settings: Settings)
  {
    match start
    case Desk(_, _) =>
      && Desk(rows, None) == Run(start, Visits(visited, round), settings)
      && sent == ClaimsOf(start, visited, round, settings)
  }

  /** One visit, and whether it found the row still due. */
  ghost predicate Visited(start: Desk, rows: seq<Delivery>, n: nat, k: nat, claimed: bool, round: Round,
                          settings: Settings)
  {
    match start
    case Desk(_, _) =>
      && Desk(rows, None) == Run(start, Visit(n, k, round), settings)
      && (claimed <==> Takes(Run(start, round.before(k), settings), Take(n, round.now), n) == 1)
  }

  lemma NoVisits(rows: seq<Delivery>, round: Round, settings: Settings)
    ensures SoFar(Desk(rows, None), rows, [], 0, round, settings)
  {
  }

  lemma VisitedOneMore(start: Desk, rows: seq<Delivery>, visited: seq<nat>, sent: nat, round: Round, settings: Settings,
                       n: nat, next: seq<Delivery>, claimed: bool)
    requires SoFar(start, rows, visited, sent, round, settings)
    requires Visited(Desk(rows, None), next, n, |visited|, claimed, round, settings)
    ensures SoFar(start, next, visited + [n], sent + if claimed then 1 else 0, round, settings)
  {
    OneMoreVisit(start, visited, n, round, settings);
    hide Visits, Visit, Run, ClaimsOf, Takes;
  }

  lemma {:induction false} VisitRuns(d: Desk, n: nat, k: nat, round: Round, settings: Settings)
    ensures var at := Run(d, round.before(k), settings);
      var taken := Next(at, Take(n, round.now), settings);
      Run(d, Visit(n, k, round), settings)
      == Next(Run(taken, round.during(k), settings), Conclude(round.clock(k), round.endpoint(n)), settings)
  {
    var take, end := [Take(n, round.now)], [Conclude(round.clock(k), round.endpoint(n))];
    RunSplits(d, round.before(k) + take + round.during(k), end, settings);
    RunSplits(d, round.before(k) + take, round.during(k), settings);
    RunSplits(d, round.before(k), take, settings);
    RunOfOne(Run(d, round.before(k), settings), take[0], settings);
    RunOfOne(Run(d, round.before(k) + take + round.during(k), settings), end[0], settings);
  }

  lemma {:induction false} OthersKeepRows(d: Desk, steps: seq<Step>, settings: Settings)
    requires Outside(steps)
    ensures |Run(d, steps, settings).rows| >= |d.rows| && Run(d, steps, settings).inFlight == d.inFlight
    decreases |steps|
  {
    if steps != [] { OthersKeepRows(Next(d, steps[0], settings), steps[1..], settings); }
  }

  /** The visited rows are sent, each with its own response, and no other row has changed. */
  ghost predicate AllSent(rows: seq<Delivery>, last: Desk, ids: seq<nat>, round: Round, settings: Settings)
    requires forall k :: 0 <= k < |ids| ==> ids[k] < |rows|
  {
    && last.inFlight.None? && |last.rows| == |rows|
    && (forall n: nat :: n < |rows| && n !in ids ==> last.rows[n] == rows[n])
    && forall k :: 0 <= k < |ids| ==>
         last.rows[ids[k]] == Sent(rows[ids[k]], round.now, round.clock(k), round.endpoint(ids[k]), settings)
  }

  ghost predicate Undisturbed(round: Round) {
    forall k :: round.before(k) == [] && round.during(k) == []
  }

  ghost predicate DistinctDue(rows: seq<Delivery>, ids: seq<nat>, now: int) {
    && (forall k :: 0 <= k < |ids| ==> ids[k] < |rows| && Due(rows[ids[k]], now))
    && (forall j, k :: 0 <= j < k < |ids| ==> ids[j] != ids[k])
  }

  lemma OneMoreSent(rows: seq<Delivery>, d: Desk, ids: seq<nat>, round: Round, settings: Settings)
    requires ids != [] && DistinctDue(rows, ids, round.now)
    requires var k := |ids| - 1; AllSent(rows, d, ids[..k], round, settings)
    ensures var k := |ids| - 1;
      var row := Sent(rows[ids[k]], round.now, round.clock(k), round.endpoint(ids[k]), settings);
      && ids[k] < |d.rows| && d.rows[ids[k]] == rows[ids[k]]
      && AllSent(rows, Desk(d.rows[ids[k] := row], None), ids, round, settings)
  {
    var k := |ids| - 1;
    assert ids == ids[..k] + [ids[k]];
    assert ids[k] !in ids[..k];
    hide Sent, Due;
  }

  /** Undisturbed, each listed row is claimed exactly once and concluded by its own response, and no
      other row changes. */
  lemma {:induction false} UndisturbedRound(rows: seq<Delivery>, ids: seq<nat>, round: Round, settings: Settings)
    requires Undisturbed(round) && DistinctDue(rows, ids, round.now)
    ensures ClaimsOf(Desk(rows, None), ids, round, settings) == |ids|
    ensures AllSent(rows, Run(Desk(rows, None), Visits(ids, round), settings), ids, round, settings)
  {
    if ids != [] {
      var k := |ids| - 1;
      UndisturbedRound(rows, ids[..k], round, settings);
      var d := Run(Desk(rows, None), Visits(ids[..k], round), settings);
      RunSplits(Desk(rows, None), Visits(ids[..k], round), Visit(ids[k], k, round), settings);
      OneMoreSent(rows, d, ids, round, settings);
      VisitUndisturbed(d, ids[k], k, round, settings);
      assert Run(d, [], settings) == d;
      hide AllSent, Sent, Visit;
    }
  }

  lemma ListedIsDistinct(rows: seq<Delivery>, now: int, limit: nat, batch: seq<nat>, n: nat)
    requires IsDueBatch(rows, now, limit, batch)
    ensures DistinctDue(rows, Reached(batch, n), now)
  {
  }

  /** So an undisturbed SendPending sends every row it gets to. */
  lemma UndisturbedSendsAll(rows: seq<Delivery>, after: seq<Delivery>, limit: nat, batch: seq<nat>, stopAfter: nat,
                            sent: nat, round: Round, settings: Settings)
    requires Undisturbed(round) && IsDueBatch(rows, round.now, limit, batch)
    requires SoFar(Desk(rows, None), after, Reached(batch, stopAfter), sent, round, settings)
    ensures var reached := Reached(batch, stopAfter);
      && sent == |reached| && DistinctDue(rows, reached, round.now)
      && AllSent(rows, Desk(after, None), reached, round, settings)
  {
    ListedIsDistinct(rows, round.now, limit, batch, stopAfter);
    hide IsDueBatch, AllSent, Run, Visits, ClaimsOf, Sent;
    UndisturbedRound(rows, Reached(batch, stopAfter), round, settings);
  }

  lemma {:induction false} VisitUndisturbed(d: Desk, n: nat, k: nat, round: Round, settings: Settings)
    requires round.before(k) == [] && round.during(k) == []
    requires d.inFlight.None? && n < |d.rows| && Due(d.rows[n], round.now)
    ensures Run(d, Visit(n, k, round), settings)
         == Desk(d.rows[n := Sent(d.rows[n], round.now, round.clock(k), round.endpoint(n), settings)], None)
  {
    VisitRuns(d, n, k, round, settings);
    var taken := Next(d, Take(n, round.now), settings);
    assert taken.rows[n := Sent(d.rows[n], round.now, round.clock(k), round.endpoint(n), settings)]
        == d.rows[n := Sent(d.rows[n], round.now, round.clock(k), round.endpoint(n), settings)];
  }

  class Sender {
    var rows: seq<Delivery>
    const settings: Settings
    const batchSize: int

    constructor (settings: Settings, batchSize: int)
      ensures rows == [] && this.settings == settings && this.batchSize == batchSize
    {
      rows := [];
      this.settings, this.batchSize := settings, batchSize;
    }

    function Limit(): (limit: nat)
      ensures limit == if 0 < batchSize <= 500 then batchSize else 50
    {
      if batchSize <= 0 || batchSize > 500 then DEFAULT_BATCH else batchSize
    }

    /** The next due row after those already listed, if any. */
    method NextDue(now: int, listed: seq<nat>) returns (first: Option<nat>)
      ensures first.None? ==> forall i: nat :: i < |rows| && Due(rows[i], now) ==> i in listed
      ensures first.Some? ==>
        && first.value < |rows| && Due(rows[first.value], now) && first.value !in listed
        && forall i: nat :: i < |rows| && Due(rows[i], now) && i !in listed && i != first.value ==>
             Before(rows, first.value, i)
    {
      first := None;
      var i := 0;
      while i < |rows|
        invariant 0 <= i <= |rows|
        invariant first.None? ==> forall j: nat :: j < i && Due(rows[j], now) ==> j in listed
        invariant first.Some? ==>
          && first.value < i && Due(rows[first.value], now) && first.value !in listed
          && forall j: nat :: j < i && Due(rows[j], now) && j !in listed && j != first.value ==>
               Before(rows, first.value, j)
      {
        if Due(rows[i], now) && i !in listed && (first.None? || Before(rows, i, first.value)) {
          first := Some(i);
        }
        i := i + 1;
      }
    }

    method ListDue(now: int) returns (batch: seq<nat>)
      ensures IsDueBatch(rows, now, Limit(), batch)
    {
      batch := [];
      while |batch| < Limit()
        invariant |batch| <= Limit()
        invariant forall k :: 0 <= k < |batch| ==> batch[k] < |rows| && Due(rows[batch[k]], now)
        invariant forall j, k :: 0 <= j < k < |batch| ==> Before(rows, batch[j], batch[k])
        invariant forall i: nat :: i < |rows| && Due(rows[i], now) && i !in batch ==>
          forall k :: 0 <= k < |batch| ==> Before(rows, batch[k], i)
        decreases Limit() - |batch|
      {
        var first := NextDue(now, batch);
        if first.None? {
          return;
        }
        batch := batch + [first.value];
      }
    }

    method TakeOne(n: nat, now: int) returns (claim: Option<Claim>)
      modifies this`rows
      ensures Desk(rows, claim) == Next(Desk(old(rows), None), Take(n, now), settings)
    {
      claim := None;
      if n < |rows| && Waiting(rows[n]) && NextAttempt(rows[n]) <= now {
        rows := rows[n := rows[n].(attempts := rows[n].attempts + 1, nextAt := Some(now + settings.Lease()))];
        claim := Some(Claim(n, rows[n].attempts));
      }
    }

    method Finish(claim: Claim, now: int, response: Response)
      requires claim.row < |rows|
      modifies this`rows
      ensures Desk(rows, None) == Next(Desk(old(rows), Some(claim)), Conclude(now, response), settings)
    {
      var row, code := rows[claim.row], None;
      if response.Answered? && response.code != 0 {
        code := Some(response.code);
      }
      row := row.(nextAt := None, httpStatus := code, deliveredAt := None);
      if Accepted(response) {
        row := row.(status := Delivered, failed := false, deliveredAt := Some(now));
      } else if !Retryable(response) || claim.attempts >= settings.MaxAttempts() {
        row := row.(status := Exhausted, failed := true);
      } else {
        row := row.(status := WaitingRetry, failed := true,
                    nextAt := Some(now + DelayMinutes(claim.attempts) * MINUTE));
      }
      rows := rows[claim.row := row];
    }

    method RetryOne(n: nat, now: int) returns (ok: bool)
      modifies this`rows
      ensures Desk(rows, None) == Next(Desk(old(rows), None), Retry(n, now), settings)
      ensures ok <==> n < |rows| && old(rows)[n].status in {WaitingRetry, Exhausted}
    {
      ok := n < |rows| && (rows[n].status == WaitingRetry || rows[n].status == Exhausted);
      if ok {
        rows := rows[n := Revived(rows[n], now)];
      }
    }

    /** What others do meanwhile. */
    method Meanwhile(steps: seq<Step>, ghost inFlight: Option<Claim>)
      requires Outside(steps)
      modifies this`rows
      ensures Desk(rows, inFlight) == Run(Desk(old(rows), inFlight), steps, settings)
    {
      var i := 0;
      while i < |steps|
        invariant 0 <= i <= |steps|
        invariant Run(Desk(rows, inFlight), steps[i..], settings) == Run(Desk(old(rows), inFlight), steps, settings)
      {
        match steps[i] {
          case Retry(n, now) =>
            var _ := RetryOne(n, now);
          case Enqueue(event) =>
            rows := rows + [Enqueued(event)];
        }
        i := i + 1;
      }
    }

    /** One listed row: claimed if it is still due, sent, and concluded. */
    method VisitRow(n: nat, k: nat, round: Round) returns (claimed: bool)
      requires Interleaved(round)
      modifies this`rows
      ensures Visited(Desk(old(rows), None), rows, n, k, claimed, round, settings)
    {
      VisitRuns(Desk(rows, None), n, k, round, settings);
      hide Visit, Run;
      Meanwhile(round.before(k), None);
      var claim := TakeOne(n, round.now);
      ghost var taken := Desk(rows, claim);
      Meanwhile(round.during(k), claim);
      OthersKeepRows(taken, round.during(k), settings);
      claimed := claim.Some?;
      if claimed {
        Finish(claim.value, round.clock(k), round.endpoint(n));
      }
    }

    /** SendPending, up to the point where it is cancelled or fails: the first due rows are visited in
        order, each is claimed if it is still due then, sent and concluded, and one that no longer is
        due is skipped. With what others do meanwhile this is a run of the outbox. */
    method SendPending(round: Round, stopAfter: nat) returns (sent: nat, ghost batch: seq<nat>)
      requires Interleaved(round)
      modifies this`rows
      ensures IsDueBatch(old(rows), round.now, Limit(), batch)
      ensures SoFar(Desk(old(rows), None), rows, Reached(batch, stopAfter), sent, round, settings)
    {
      var ids := ListDue(round.now);
      batch := ids;
      sent := 0;
      var k := 0;
      NoVisits(rows, round, settings);
      assert ids[..0] == [];
      while k < |ids| && k < stopAfter
        invariant k <= |ids| && k <= stopAfter
        invariant SoFar(Desk(old(rows), None), rows, ids[..k], sent, round, settings)
      {
        ghost var before := rows;
        var claimed := VisitRow(ids[k], k, round);
        VisitedOneMore(Desk(old(rows), None), before, ids[..k], sent, round, settings, ids[k], rows, claimed);
        assert ids[..k + 1] == ids[..k] + [ids[k]];
        sent := sent + if claimed then 1 else 0;
        k := k + 1;
      }
    }
  }
}
