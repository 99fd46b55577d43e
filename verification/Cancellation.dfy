/** The matcher's scan over a payment's history (occurredDuringCancellation): did an
    occurrence fall into a period in which the payment was cancelled? */
module Cancellation {
  import opened Common
  import opened Domain

  predicate IsCancel(r: HistoryRow) {
    r.kind == PaymentCancelled || (r.change.Some? && r.change.value.to == Cancelled)
  }

  predicate IsOtherStatus(r: HistoryRow) {
    !IsCancel(r) && r.change.Some?
  }

  predicate HasStatus(r: HistoryRow) {
    IsCancel(r) || r.change.Some?
  }

  predicate IsDirectReopen(r: HistoryRow) {
    IsOtherStatus(r) && r.change.value == StatusChange(Cancelled, Pending)
  }

  /** Nothing strictly between i and j cancels again or reopens a cancelled payment. */
  ghost predicate OpenBetween(rows: seq<HistoryRow>, i: int, j: int) {
    forall k :: 0 <= i < k < j <= |rows| ==> !IsCancel(rows[k]) && !IsDirectReopen(rows[k])
  }

  /** The cancellation in row i covers t because of the later status row j of its segment. */
  ghost predicate CoveredBy(rows: seq<HistoryRow>, t: int, i: int, j: int) {
    && 0 <= i < j < |rows|
    && IsCancel(rows[i]) && rows[i].at < t
    && OpenBetween(rows, i, j)
    && IsOtherStatus(rows[j]) && t < rows[j].at
  }

  /** The cancellation in row i is never ended by a reopen or another cancellation. */
  ghost predicate StillOpen(rows: seq<HistoryRow>, t: int, i: int) {
    && 0 <= i < |rows|
    && IsCancel(rows[i]) && rows[i].at < t
    && OpenBetween(rows, i, |rows|)
  }

  /** Declarative meaning of the scan: some cancellation before t is either still open at the
      end of the history or is followed, within its segment, by a status row later than t. */
  ghost predicate Rejected(rows: seq<HistoryRow>, t: int) {
    || (exists i, j :: CoveredBy(rows, t, i, j))
    || (exists i :: StillOpen(rows, t, i))
  }

  /** The one-pass scan, for any rows whatever: no linking or ordering is assumed. */
  method OccurredDuringCancellation(rows: seq<HistoryRow>, occurredAt: int) returns (cancelled: bool)
    ensures cancelled <==> Rejected(rows, occurredAt)
  {
    var cancelledAt: Option<int> := None;
    ghost var open := -1;  // the row that set cancelledAt
    var n := 0;
    while n < |rows|
      invariant 0 <= n <= |rows|
      invariant -1 <= open < n
      invariant cancelledAt == if open == -1 then None else Some(rows[open].at)
      invariant open >= 0 ==> IsCancel(rows[open]) && OpenBetween(rows, open, n)
      invariant forall i :: 0 <= i < n && IsCancel(rows[i]) && i != open ==> !OpenBetween(rows, i, n)
      invariant forall i, j :: 0 <= i < j < n ==> !CoveredBy(rows, occurredAt, i, j)
    {
      var row := rows[n];
      if row.kind == PaymentCancelled {
        cancelledAt, open := Some(row.at), n;
      } else if row.change.None? {
      } else if row.change.value.to == Cancelled {
        cancelledAt, open := Some(row.at), n;
      } else if cancelledAt.Some? {
        if occurredAt > cancelledAt.value && occurredAt < row.at {
          assert CoveredBy(rows, occurredAt, open, n);
          return true;
        }
        if row.change.value.from == Cancelled && row.change.value.to == Pending {
          assert IsDirectReopen(rows[n]);
          cancelledAt, open := None, -1;
        }
      }
      forall i | 0 <= i < n + 1 && IsCancel(rows[i]) && i != open
        ensures !OpenBetween(rows, i, n + 1)
      {
        if i < n {
          assert !OpenBetween(rows, i, n) || IsCancel(rows[n]) || IsDirectReopen(rows[n]);
        }
      }
      n := n + 1;
    }
    cancelled := cancelledAt.Some? && occurredAt > cancelledAt.value;
    if cancelled {
      assert StillOpen(rows, occurredAt, open);
    }
  }

  // ----- The verdict depends on the status rows alone -----

  /** The scan from an open cancellation at `open`, if any. */
  function Scan(rows: seq<HistoryRow>, t: int, open: Option<int>): bool {
    if rows == [] then open.Some? && t > open.value
    else if IsCancel(rows[0]) then Scan(rows[1..], t, Some(rows[0].at))
    else if open.None? || rows[0].change.None? then Scan(rows[1..], t, open)
    else if open.value < t < rows[0].at then true
    else Scan(rows[1..], t, if IsDirectReopen(rows[0]) then None else open)
  }

  /** The scan of the rows from n on, with row `open` the last cancellation that is still open. */
  lemma {:induction false} ScanFrom(rows: seq<HistoryRow>, t: int, n: int, open: int)
    requires 0 <= n <= |rows| && -1 <= open < n
    requires open >= 0 ==> IsCancel(rows[open]) && OpenBetween(rows, open, n)
    requires forall i :: 0 <= i < n && IsCancel(rows[i]) && i != open ==> !OpenBetween(rows, i, n)
    requires forall i, j :: 0 <= i < j < n ==> !CoveredBy(rows, t, i, j)
    ensures Scan(rows[n..], t, if open == -1 then None else Some(rows[open].at)) <==> Rejected(rows, t)
    decreases |rows| - n
  {
    if n == |rows| {
      if open >= 0 && rows[open].at < t {
        assert StillOpen(rows, t, open);
      }
    } else {
      var row := rows[n];
      assert rows[n..][0] == row && rows[n..][1..] == rows[n + 1..];
      if !IsCancel(row) && open >= 0 && row.change.Some? && rows[open].at < t < row.at {
        assert CoveredBy(rows, t, open, n);
      } else {
        var next := if IsCancel(row) then n else if IsDirectReopen(row) then -1 else open;
        forall i | 0 <= i < n + 1 && IsCancel(rows[i]) && i != next ensures !OpenBetween(rows, i, n + 1) {
          if i < n {
            assert !OpenBetween(rows, i, n) || IsCancel(rows[n]) || IsDirectReopen(rows[n]);
          }
        }
        ScanFrom(rows, t, n + 1, next);
      }
    }
  }

  lemma {:induction false} ScanMeansRejected(rows: seq<HistoryRow>, t: int)
    ensures Scan(rows, t, None) <==> Rejected(rows, t)
  {
    ScanFrom(rows, t, 0, -1);
    assert rows[0..] == rows;
  }

  function StatusRows(rows: seq<HistoryRow>): seq<HistoryRow> {
    if rows == [] then []
    else if HasStatus(rows[0]) then [rows[0]] + StatusRows(rows[1..])
    else StatusRows(rows[1..])
  }

  lemma {:induction false} ScanSkipsOtherRows(rows: seq<HistoryRow>, t: int, open: Option<int>)
    ensures Scan(rows, t, open) == Scan(StatusRows(rows), t, open)
  {
    if rows != [] {
      ScanSkipsOtherRows(rows[1..], t, open);
      ScanSkipsOtherRows(rows[1..], t, Some(rows[0].at));
      ScanSkipsOtherRows(rows[1..], t, None);
      assert HasStatus(rows[0]) ==> StatusRows(rows)[1..] == StatusRows(rows[1..]);
    }
  }

  lemma {:induction false} SameStatusRowsSameVerdict(a: seq<HistoryRow>, b: seq<HistoryRow>, t: int)
    requires StatusRows(a) == StatusRows(b)
    ensures Rejected(a, t) <==> Rejected(b, t)
  {
    ScanMeansRejected(a, t);
    ScanMeansRejected(b, t);
    ScanSkipsOtherRows(a, t, None);
    ScanSkipsOtherRows(b, t, None);
  }

  // ----- What the scan is for: the periods in which the payment really was cancelled -----

  /** j is the first status row after i. */
  ghost predicate NextStatus(rows: seq<HistoryRow>, i: int, j: int) {
    && 0 <= i < j < |rows|
    && HasStatus(rows[j])
    && (forall k :: i < k < j ==> !HasStatus(rows[k]))
  }

  ghost predicate IsFirstStatus(rows: seq<HistoryRow>, i: int) {
    && 0 <= i < |rows|
    && HasStatus(rows[i])
    && (forall k :: 0 <= k < i ==> !HasStatus(rows[k]))
  }

  /** Status rows chain from Pending, and each really changes the status. */
  ghost predicate Linked(rows: seq<HistoryRow>) {
    && (forall i :: 0 <= i < |rows| && HasStatus(rows[i]) ==>
          && rows[i].change.Some?
          && rows[i].change.value.from != rows[i].change.value.to
          && (rows[i].kind == PaymentCancelled ==> rows[i].change.value.to == Cancelled))
    && (forall i {:trigger IsFirstStatus(rows, i)} :: IsFirstStatus(rows, i) ==> rows[i].change.value.from == Pending)
    && (forall i, j {:trigger NextStatus(rows, i, j)} :: NextStatus(rows, i, j) && HasStatus(rows[i])
          ==> rows[j].change.value.from == rows[i].change.value.to)
  }

  /** The instants of the status rows never decrease; several may share one millisecond. */
  ghost predicate Chronological(rows: seq<HistoryRow>) {
    forall i, j :: 0 <= i < j < |rows| && HasStatus(rows[i]) && HasStatus(rows[j]) ==> rows[i].at <= rows[j].at
  }

  /** t lies strictly after row i and before the next status change, if any. */
  ghost predicate InSpanOf(rows: seq<HistoryRow>, t: int, i: int) {
    && 0 <= i < |rows| && rows[i].at < t
    && forall j {:trigger NextStatus(rows, i, j)} :: NextStatus(rows, i, j) ==> t < rows[j].at
  }

  ghost predicate InPeriodOf(rows: seq<HistoryRow>, t: int, i: int) {
    InSpanOf(rows, t, i) && IsCancel(rows[i])
  }

  ghost predicate InCancelledPeriod(rows: seq<HistoryRow>, t: int) {
    exists i :: InPeriodOf(rows, t, i)
  }

  function Max(a: int, b: int): int {
    if a < b then b else a
  }

  /** The exit in row n from the cancellation in row i is followed by another cancellation before
      any status row of a later instant. */
  ghost predicate CancelledAgain(rows: seq<HistoryRow>, i: int, n: int)
    requires 0 <= i < n < |rows|
  {
    exists k :: n < k < |rows| && IsCancel(rows[k])
      && forall m :: i < m < k && HasStatus(rows[m]) ==> rows[m].at <= Max(rows[i].at + 1, rows[n].at)
  }

  /** Every status row that leaves "cancelled" either reopens the payment to "pending" or is
      followed by another cancellation before any later instant. */
  ghost predicate LeavesCancelledCleanly(rows: seq<HistoryRow>) {
    forall i, n {:trigger NextStatus(rows, i, n)} ::
      NextStatus(rows, i, n) && IsCancel(rows[i]) && !IsDirectReopen(rows[n]) ==> CancelledAgain(rows, i, n)
  }

  /** The first status row after i, when one exists. */
  lemma {:induction false} FirstStatusAfter(rows: seq<HistoryRow>, i: int, j: int) returns (n: int)
    requires 0 <= i < j < |rows| && HasStatus(rows[j])
    ensures NextStatus(rows, i, n) && n <= j
    decreases j - i
  {
    if k :| i < k < j && HasStatus(rows[k]) {
      n := FirstStatusAfter(rows, i, k);
    } else {
      n := j;
    }
  }

  /** The last status row before j, when one exists. */
  lemma {:induction false} LastStatusBefore(rows: seq<HistoryRow>, i: int, j: int) returns (p: int)
    requires 0 <= i < j < |rows| && HasStatus(rows[i]) && HasStatus(rows[j])
    ensures i <= p < j && HasStatus(rows[p]) && NextStatus(rows, p, j)
    decreases j - i
  {
    if k :| i < k < j && HasStatus(rows[k]) {
      p := LastStatusBefore(rows, k, j);
    } else {
      p := i;
    }
  }

  /** What follows a cancellation leaves "cancelled", so it is not a cancellation. */
  lemma ExitIsNoCancel(rows: seq<HistoryRow>, i: int, n: int)
    requires Linked(rows) && 0 <= i < |rows| && IsCancel(rows[i]) && NextStatus(rows, i, n)
    ensures IsOtherStatus(rows[n]) && rows[n].change.value.from == Cancelled
  {
    assert HasStatus(rows[i]);
  }

  /** A cancelled period read in insertion order is always rejected. */
  lemma CancelledPeriodIsRejected(rows: seq<HistoryRow>, t: int)
    requires Linked(rows) && InCancelledPeriod(rows, t)
    ensures Rejected(rows, t)
  {
    var i :| InPeriodOf(rows, t, i);
    if j :| i < j < |rows| && HasStatus(rows[j]) {
      var n := FirstStatusAfter(rows, i, j);
      ExitIsNoCancel(rows, i, n);
      assert CoveredBy(rows, t, i, n);
    } else {
      assert StillOpen(rows, t, i);
    }
  }

  lemma CoveredIsInPeriod(rows: seq<HistoryRow>, t: int, i: int, j: int)
    requires Linked(rows) && Chronological(rows) && LeavesCancelledCleanly(rows)
    requires CoveredBy(rows, t, i, j)
    ensures InPeriodOf(rows, t, i)
  {
    var n := FirstStatusAfter(rows, i, j);
    if n < j {
      assert CancelledAgain(rows, i, n);
      var k :| n < k < |rows| && IsCancel(rows[k])
        && forall m :: i < m < k && HasStatus(rows[m]) ==> rows[m].at <= Max(rows[i].at + 1, rows[n].at);
      assert j < k;
      assert HasStatus(rows[j]);
    }
  }

  lemma StillOpenIsInPeriod(rows: seq<HistoryRow>, t: int, i: int)
    requires Linked(rows) && LeavesCancelledCleanly(rows)
    requires StillOpen(rows, t, i)
    ensures InPeriodOf(rows, t, i)
  {
  }

  /** On a cleanly left history nothing else is rejected. */
  lemma RejectedIsCancelledPeriod(rows: seq<HistoryRow>, t: int)
    requires Linked(rows) && Chronological(rows) && LeavesCancelledCleanly(rows) && Rejected(rows, t)
    ensures InCancelledPeriod(rows, t)
  {
    if i, j :| CoveredBy(rows, t, i, j) {
      CoveredIsInPeriod(rows, t, i, j);
    } else {
      var i :| StillOpen(rows, t, i);
      StillOpenIsInPeriod(rows, t, i);
    }
  }

  lemma ReopenFollowsCancel(rows: seq<HistoryRow>, n: int, m: int)
    requires Linked(rows) && 0 <= n < m < |rows| && HasStatus(rows[n]) && IsDirectReopen(rows[m])
    ensures exists p :: n <= p < m && IsCancel(rows[p])
  {
    var p := LastStatusBefore(rows, n, m);
  }

  /** Up to the next cancellation nothing ends the segment of cancellation i after its exit n. */
  lemma SegmentStaysOpen(rows: seq<HistoryRow>, i: int, n: int, e: int)
    requires Linked(rows) && 0 <= i < n < e <= |rows| && IsCancel(rows[i]) && NextStatus(rows, i, n)
    requires !IsDirectReopen(rows[n]) && forall m :: n < m < e ==> !IsCancel(rows[m])
    ensures OpenBetween(rows, i, e)
  {
    ExitIsNoCancel(rows, i, n);
    forall m | i < m < e ensures !IsCancel(rows[m]) && !IsDirectReopen(rows[m]) {
      if m > n && IsDirectReopen(rows[m]) {
        ReopenFollowsCancel(rows, n, m);
      }
    }
  }

  /** An unclean exit makes the scan reject an instant at which the payment is not cancelled: the
      exit's own, or the first after the cancellation when they share one. */
  lemma UncleanExitIsOverRejected(rows: seq<HistoryRow>, i: int, n: int)
    requires Linked(rows) && Chronological(rows)
    requires NextStatus(rows, i, n) && IsCancel(rows[i]) && !IsDirectReopen(rows[n]) && !CancelledAgain(rows, i, n)
    ensures var t := Max(rows[i].at + 1, rows[n].at); Rejected(rows, t) && !InCancelledPeriod(rows, t)
  {
    var t := Max(rows[i].at + 1, rows[n].at);
    ExitIsNoCancel(rows, i, n);
    if k :| n < k < |rows| && IsCancel(rows[k]) {
      var first := FirstCancelAfter(rows, n, k);
      var m :| i < m < first && HasStatus(rows[m]) && rows[m].at > t;
      SegmentStaysOpen(rows, i, n, first);
      assert n <= m;
      assert CoveredBy(rows, t, i, m);
      forall c ensures !InPeriodOf(rows, t, c) {
        NotInLaterPeriod(rows, t, i, n, first, m, c);
      }
    } else {
      SegmentStaysOpen(rows, i, n, |rows|);
      assert StillOpen(rows, t, i);
      forall c ensures !InPeriodOf(rows, t, c) {
        NotInEarlierPeriod(rows, t, i, n, c);
      }
    }
  }

  lemma {:induction false} FirstCancelAfter(rows: seq<HistoryRow>, n: int, k: int) returns (first: int)
    requires 0 <= n < k < |rows| && IsCancel(rows[k])
    ensures n < first <= k && IsCancel(rows[first]) && forall m :: n < m < first ==> !IsCancel(rows[m])
    decreases k
  {
    if m :| n < m < k && IsCancel(rows[m]) {
      first := FirstCancelAfter(rows, n, m);
    } else {
      first := k;
    }
  }

  lemma NotInEarlierPeriod(rows: seq<HistoryRow>, t: int, i: int, n: int, c: int)
    requires Chronological(rows) && NextStatus(rows, i, n) && IsCancel(rows[i]) && t == Max(rows[i].at + 1, rows[n].at)
    requires c <= i || (0 <= c < |rows| && !IsCancel(rows[c])) || c >= |rows|
    ensures !InPeriodOf(rows, t, c)
  {
    if 0 <= c < i && IsCancel(rows[c]) {
      var d := FirstStatusAfter(rows, c, i);
      assert HasStatus(rows[d]) && HasStatus(rows[i]);
    }
  }

  lemma NotInLaterPeriod(rows: seq<HistoryRow>, t: int, i: int, n: int, first: int, m: int, c: int)
    requires Linked(rows) && Chronological(rows)
    requires NextStatus(rows, i, n) && IsCancel(rows[i]) && t == Max(rows[i].at + 1, rows[n].at)
    requires n < first < |rows| && forall k :: n < k < first ==> !IsCancel(rows[k])
    requires i < m < first && HasStatus(rows[m]) && rows[m].at > t
    ensures !InPeriodOf(rows, t, c)
  {
    ExitIsNoCancel(rows, i, n);
    if c < first {
      NotInEarlierPeriod(rows, t, i, n, c);
    } else if c < |rows| && IsCancel(rows[c]) {
      assert HasStatus(rows[c]);
    }
  }

  /** Read in insertion order, the scan rejects exactly the cancelled periods if and only if the
      history leaves "cancelled" cleanly. */
  lemma ScanIsExactIffLeftCleanly(rows: seq<HistoryRow>)
    requires Linked(rows) && Chronological(rows)
    ensures (forall t :: Rejected(rows, t) <==> InCancelledPeriod(rows, t)) <==> LeavesCancelledCleanly(rows)
  {
    if LeavesCancelledCleanly(rows) {
      forall t ensures Rejected(rows, t) <==> InCancelledPeriod(rows, t) {
        if Rejected(rows, t) { RejectedIsCancelledPeriod(rows, t); }
        if InCancelledPeriod(rows, t) { CancelledPeriodIsRejected(rows, t); }
      }
    } else {
      var i, n :| NextStatus(rows, i, n) && IsCancel(rows[i]) && !IsDirectReopen(rows[n])
        && !CancelledAgain(rows, i, n);
      UncleanExitIsOverRejected(rows, i, n);
    }
  }

  /** Rejection is not monotone: an operator settles a cancelled payment by hand (cancelled to
      paid), and the instant 25 after that is rejected; a later second cancellation accepts it. */
  lemma LaterCancellationAcceptsEarlierInstant(cancel: HistoryRow, settle: HistoryRow, again: HistoryRow)
    requires cancel == HistoryRow(1, 7, PaymentCancelled, System, Some(StatusChange(Pending, Cancelled)), false, 10)
    requires settle == HistoryRow(2, 7, PaymentPaid, Admin, Some(StatusChange(Cancelled, Paid)), false, 20)
    requires again == HistoryRow(3, 7, PaymentUpdated, Admin, Some(StatusChange(Paid, Cancelled)), false, 30)
    ensures Rejected([cancel, settle], 25) && !Rejected([cancel, settle, again], 25)
  {
    assert StillOpen([cancel, settle], 25, 0);
    var rows := [cancel, settle, again];
    assert IsCancel(rows[2]);
    assert !OpenBetween(rows, 0, 3);
  }

  // ----- One row, and the row after a cancellation -----

  /** What begins a cancellation: the event, or a change to that status. */
  predicate Cancels(r: HistoryRow) {
    r.kind == PaymentCancelled || (r.change.Some? && r.change.value.to == Cancelled)
  }

  /** Alone it rejects every later instant. */
  lemma OneRowRejects(r: HistoryRow, t: int)
    ensures Rejected([r], t) <==> Cancels(r) && r.at < t
  {
    if Cancels(r) && r.at < t {
      assert StillOpen([r], t, 0);
    }
  }

  /** A row after it, other than another cancellation, ends it if it is a change from cancelled to pending, at
      its instant; any other row ends nothing. */
  lemma NextRowDecides(c: HistoryRow, r: HistoryRow, t: int)
    requires Cancels(c) && !Cancels(r) && c.at < t
    ensures Rejected([c, r], t) <==> !(r.change == Some(StatusChange(Cancelled, Pending)) && r.at <= t)
  {
    var rows := [c, r];
    assert IsCancel(rows[0]) && !IsCancel(rows[1]);
    if r.change == Some(StatusChange(Cancelled, Pending)) {
      if t < r.at { assert CoveredBy(rows, t, 0, 1); }
    } else {
      assert StillOpen(rows, t, 0);
    }
  }
}
