/** The payment_history table read per payment: selection, SQL order, replay of the
    status changes, and the event stream the webhook outbox must mirror. */
module History {
  import opened Common
  import opened Domain
  import opened Cancellation

  /** The rows of one payment in insertion order. */
  function HistoryOf(history: seq<HistoryRow>, payment: Id): seq<HistoryRow> {
    if history == [] then []
    else
      var rest := HistoryOf(history[..|history| - 1], payment);
      var last := history[|history| - 1];
      if last.payment == payment then rest + [last] else rest
  }

  /** ORDER BY created_at, id */
  predicate Before(a: HistoryRow, b: HistoryRow) {
    a.at < b.at || (a.at == b.at && a.id < b.id)
  }

  function InsertRow(sorted: seq<HistoryRow>, row: HistoryRow): seq<HistoryRow> {
    if sorted == [] || !Before(row, sorted[|sorted| - 1]) then sorted + [row]
    else InsertRow(sorted[..|sorted| - 1], row) + [sorted[|sorted| - 1]]
  }

  function SortRows(rows: seq<HistoryRow>): seq<HistoryRow> {
    if rows == [] then [] else InsertRow(SortRows(rows[..|rows| - 1]), rows[|rows| - 1])
  }

  /** The status the history rows lead to from Pending, or None when a row does not start
      from the status the previous rows ended in. */
  function Replay(rows: seq<HistoryRow>): Option<Status> {
    if rows == [] then Some(Pending)
    else
      var before := Replay(rows[..|rows| - 1]);
      var change := rows[|rows| - 1].change;
      if change.None? then before
      else if before == Some(change.value.from) then Some(change.value.to)
      else None
  }

  /** What every row written by v4 satisfies on its own. */
  predicate RowWellFormed(r: HistoryRow) {
    && (r.change.Some? ==> r.change.value.from != r.change.value.to)
    && (r.kind == PaymentCancelled ==> r.change.Some? && r.change.value.to == Cancelled)
    && (r.onlyNote ==> r.change.None?)
  }

  datatype Event = Event(kind: EventKind, payment: Id, at: int)

  /** The events the history announces: all rows but those that only touch the internal note. */
  function Announced(history: seq<HistoryRow>): seq<Event> {
    if history == [] then []
    else
      var rest := Announced(history[..|history| - 1]);
      var last := history[|history| - 1];
      if last.onlyNote then rest else rest + [Event(last.kind, last.payment, last.at)]
  }

  function Published(outbox: seq<OutboxRow>): seq<Event> {
    if outbox == [] then []
    else
      var last := outbox[|outbox| - 1];
      Published(outbox[..|outbox| - 1]) + [Event(last.kind, last.payment, last.at)]
  }

  lemma {:induction false} AppendHistory(history: seq<HistoryRow>, row: HistoryRow, payment: Id)
    ensures HistoryOf(history + [row], payment)
         == if row.payment == payment then HistoryOf(history, payment) + [row] else HistoryOf(history, payment)
    ensures Announced(history + [row])
         == if row.onlyNote then Announced(history) else Announced(history) + [Event(row.kind, row.payment, row.at)]
  {
    assert (history + [row])[..|history|] == history;
  }

  lemma {:induction false} AppendReplay(rows: seq<HistoryRow>, row: HistoryRow)
    ensures Replay(rows + [row])
         == if row.change.None? then Replay(rows)
            else if Replay(rows) == Some(row.change.value.from) then Some(row.change.value.to) else None
  {
    assert (rows + [row])[..|rows|] == rows;
  }

  lemma {:induction false} AppendPublished(outbox: seq<OutboxRow>, row: OutboxRow)
    ensures Published(outbox + [row]) == Published(outbox) + [Event(row.kind, row.payment, row.at)]
  {
    assert (outbox + [row])[..|outbox|] == outbox;
  }

  lemma {:induction false} HistoryOfIsSelection(history: seq<HistoryRow>, payment: Id)
    ensures forall r :: r in HistoryOf(history, payment) <==> r in history && r.payment == payment
  {
    if history != [] {
      HistoryOfIsSelection(history[..|history| - 1], payment);
      assert history == history[..|history| - 1] + [history[|history| - 1]];
    }
  }

  // ----- SQL order -----

  lemma {:induction false} InsertRowKeepsOrder(sorted: seq<HistoryRow>, row: HistoryRow)
    requires forall i, j :: 0 <= i < j < |sorted| ==> !Before(sorted[j], sorted[i])
    ensures multiset(InsertRow(sorted, row)) == multiset(sorted) + multiset{row}
    ensures forall i, j :: 0 <= i < j < |InsertRow(sorted, row)| ==>
      !Before(InsertRow(sorted, row)[j], InsertRow(sorted, row)[i])
  {
    if sorted != [] && Before(row, sorted[|sorted| - 1]) {
      var front, last := sorted[..|sorted| - 1], sorted[|sorted| - 1];
      InsertRowKeepsOrder(front, row);
      assert sorted == front + [last];
      var inner := InsertRow(front, row);
      forall i | 0 <= i < |inner| ensures !Before(last, inner[i]) {
        assert inner[i] in multiset(front) + multiset{row};
        assert inner[i] == row || inner[i] in front;
      }
    }
  }

  /** SortRows is the query's answer: the same rows, in ascending (created_at, id) order. */
  lemma {:induction false} SortRowsSorts(rows: seq<HistoryRow>)
    ensures multiset(SortRows(rows)) == multiset(rows)
    ensures forall i, j :: 0 <= i < j < |rows| ==>
              |SortRows(rows)| == |rows| && !Before(SortRows(rows)[j], SortRows(rows)[i])
  {
    if rows != [] {
      var front := rows[..|rows| - 1];
      SortRowsSorts(front);
      assert |SortRows(front)| == |multiset(SortRows(front))| == |multiset(front)| == |front|;
      InsertRowKeepsOrder(SortRows(front), rows[|rows| - 1]);
      assert rows == front + [rows[|rows| - 1]];
      assert |SortRows(rows)| == |multiset(SortRows(rows))| == |multiset(rows)| == |rows|;
    }
  }

  // ----- Replay and the cancellation scan -----

  lemma {:induction false} ReplayEndsInLastChange(rows: seq<HistoryRow>, i: int)
    requires Replay(rows).Some?
    requires -1 <= i < |rows| && (i >= 0 ==> rows[i].change.Some?)
    requires forall k :: i < k < |rows| ==> rows[k].change.None?
    ensures Replay(rows).value == if i == -1 then Pending else rows[i].change.value.to
  {
    if rows != [] && i != |rows| - 1 {
      assert rows[|rows| - 1].change.None?;
      ReplayEndsInLastChange(rows[..|rows| - 1], i);
    }
  }

  lemma {:induction false} ReplayPrefix(rows: seq<HistoryRow>, n: int)
    requires 0 <= n <= |rows| && Replay(rows).Some?
    ensures Replay(rows[..n]).Some?
  {
    if n < |rows| {
      ReplayPrefix(rows[..|rows| - 1], n);
      assert rows[..|rows| - 1][..n] == rows[..n];
    } else {
      assert rows[..n] == rows;
    }
  }

  /** Each status row starts from the status the previous one (or Pending) left. */
  lemma {:induction false} ReplayLinks(rows: seq<HistoryRow>, i: int, j: int)
    requires Replay(rows).Some?
    requires -1 <= i < j < |rows| && rows[j].change.Some? && (i >= 0 ==> rows[i].change.Some?)
    requires forall k :: i < k < j ==> rows[k].change.None?
    ensures rows[j].change.value.from == if i == -1 then Pending else rows[i].change.value.to
  {
    ReplayPrefix(rows, j + 1);
    ReplayPrefix(rows, j);
    assert rows[..j + 1][..j] == rows[..j];
    ReplayEndsInLastChange(rows[..j], i);
  }

  lemma StatusMeansChange(r: HistoryRow)
    requires RowWellFormed(r)
    ensures HasStatus(r) <==> r.change.Some?
  {
  }

  /** A history that replays satisfies the linking the cancellation theorems ask for. */
  lemma {:induction false} ReplayedIsLinked(rows: seq<HistoryRow>)
    requires Replay(rows).Some?
    requires forall k :: 0 <= k < |rows| ==> RowWellFormed(rows[k])
    ensures Linked(rows)
  {
    forall k | 0 <= k < |rows| ensures HasStatus(rows[k]) <==> rows[k].change.Some? {
      assert RowWellFormed(rows[k]);
      StatusMeansChange(rows[k]);
    }
    forall i {:trigger IsFirstStatus(rows, i)} | IsFirstStatus(rows, i) ensures rows[i].change.value.from == Pending {
      ReplayLinks(rows, -1, i);
    }
    forall i, j {:trigger NextStatus(rows, i, j)} | NextStatus(rows, i, j) && HasStatus(rows[i])
      ensures rows[j].change.value.from == rows[i].change.value.to
    {
      ReplayLinks(rows, i, j);
    }
  }
}
