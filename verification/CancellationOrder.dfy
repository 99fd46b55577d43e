/** The matcher reads a history in (created_at, id) order, and ids are random: what the scan then
    says about a payment whose status changed more than once in one millisecond. */
module CancellationOrder {
  import opened Common
  import opened Domain
  import opened Cancellation
  import opened History

  // ----- Read in insertion order -----

  /** No status row sorts before an earlier one: the query reads the changes as they happened. */
  ghost predicate InsertionOrder(rows: seq<HistoryRow>) {
    forall i, j :: 0 <= i < j < |rows| && HasStatus(rows[i]) && HasStatus(rows[j]) ==> !Before(rows[j], rows[i])
  }

  lemma {:induction false} StatusOfConcat(a: seq<HistoryRow>, b: seq<HistoryRow>)
    ensures StatusRows(a + b) == StatusRows(a) + StatusRows(b)
  {
    if a == [] {
      assert a + b == b;
    } else {
      assert (a + b)[0] == a[0] && (a + b)[1..] == a[1..] + b;
      StatusOfConcat(a[1..], b);
    }
  }

  lemma {:induction false} StatusOfAppend(a: seq<HistoryRow>, row: HistoryRow)
    ensures StatusRows(a + [row]) == StatusRows(a) + if HasStatus(row) then [row] else []
  {
    StatusOfConcat(a, [row]);
    assert [row][1..] == [];
    assert StatusRows([row]) == if HasStatus(row) then [row] else [];
  }

  lemma {:induction false} InsertedStatus(sorted: seq<HistoryRow>, row: HistoryRow)
    requires HasStatus(row) ==> forall i :: 0 <= i < |sorted| && HasStatus(sorted[i]) ==> !Before(row, sorted[i])
    ensures StatusRows(InsertRow(sorted, row)) == StatusRows(sorted + [row])
  {
    if sorted != [] && Before(row, sorted[|sorted| - 1]) {
      var front, last := sorted[..|sorted| - 1], sorted[|sorted| - 1];
      InsertedStatus(front, row);
      assert sorted == front + [last];
      StatusOfAppend(InsertRow(front, row), last);
      StatusOfAppend(front, row);
      StatusOfAppend(front, last);
      StatusOfAppend(sorted, row);
    }
  }

  lemma {:induction false} SortKeepsStatusOrder(rows: seq<HistoryRow>)
    requires InsertionOrder(rows)
    ensures StatusRows(SortRows(rows)) == StatusRows(rows)
  {
    if rows != [] {
      var front, last := rows[..|rows| - 1], rows[|rows| - 1];
      assert rows == front + [last];
      SortKeepsStatusOrder(front);
      SortRowsSorts(front);
      var sorted := SortRows(front);
      forall i | 0 <= i < |sorted| && HasStatus(sorted[i]) && HasStatus(last) ensures !Before(last, sorted[i]) {
        assert sorted[i] in multiset(sorted);
        var k :| 0 <= k < |front| && front[k] == sorted[i];
        assert rows[k] == sorted[i];
      }
      InsertedStatus(sorted, last);
      StatusOfAppend(sorted, last);
      StatusOfAppend(front, last);
    }
  }

  /** Read in insertion order, the matcher's verdict never accepts an instant of a cancelled
      period, and is exact if and only if the history leaves "cancelled" cleanly. */
  lemma {:induction false} OrderedVerdictIsExactIff(rows: seq<HistoryRow>)
    requires Linked(rows) && InsertionOrder(rows)
    ensures forall t :: InCancelledPeriod(rows, t) ==> Rejected(SortRows(rows), t)
    ensures (forall t :: Rejected(SortRows(rows), t) <==> InCancelledPeriod(rows, t)) <==> LeavesCancelledCleanly(rows)
  {
    SortKeepsStatusOrder(rows);
    assert Chronological(rows);
    forall t ensures Rejected(SortRows(rows), t) <==> Rejected(rows, t) {
      SameStatusRowsSameVerdict(SortRows(rows), rows, t);
    }
    ScanIsExactIffLeftCleanly(rows);
    forall t | InCancelledPeriod(rows, t) ensures Rejected(rows, t) {
      CancelledPeriodIsRejected(rows, t);
    }
    hide Rejected, InCancelledPeriod, LeavesCancelledCleanly, Linked;
  }

  // ----- A last row that ends no cancellation -----

  lemma {:induction false} ScanAppend(rows: seq<HistoryRow>, row: HistoryRow, t: int, open: Option<int>)
    requires IsOtherStatus(row) && !IsDirectReopen(row)
    ensures Scan(rows + [row], t, open) == Scan(rows, t, open)
  {
    if rows == [] {
      assert [row][1..] == [] && rows + [row] == [row];
    } else {
      assert (rows + [row])[0] == rows[0] && (rows + [row])[1..] == rows[1..] + [row];
      ScanAppend(rows[1..], row, t, open);
      ScanAppend(rows[1..], row, t, Some(rows[0].at));
      ScanAppend(rows[1..], row, t, None);
    }
  }

  /** A status row read after all others, neither a cancellation nor a reopen, changes no verdict,
      whatever its instant. */
  lemma {:induction false} LateExitKeepsVerdict(rows: seq<HistoryRow>, row: HistoryRow, t: int)
    requires IsOtherStatus(row) && !IsDirectReopen(row)
    requires forall i :: 0 <= i < |rows| && HasStatus(rows[i]) ==> !Before(row, rows[i])
    ensures Rejected(SortRows(rows + [row]), t) <==> Rejected(SortRows(rows), t)
  {
    var sorted := SortRows(rows);
    assert (rows + [row])[..|rows|] == rows;
    SortRowsIsSort(rows);
    forall i | 0 <= i < |sorted| && HasStatus(sorted[i]) ensures !Before(row, sorted[i]) {
      var k := IndexIn(rows, sorted[i]);
    }
    InsertedStatus(sorted, row);
    SameStatusRowsSameVerdict(InsertRow(sorted, row), sorted + [row], t);
    ScanMeansRejected(sorted, t);
    ScanMeansRejected(sorted + [row], t);
    ScanAppend(sorted, row, t, None);
  }

  // ----- Read in any order -----

  ghost predicate DistinctIds(rows: seq<HistoryRow>) {
    forall i, j :: 0 <= i < j < |rows| ==> rows[i].id != rows[j].id
  }

  /** c is a cancellation of row i's millisecond that every reopen of that millisecond precedes. */
  ghost predicate ReadLast(rows: seq<HistoryRow>, i: int, c: int) {
    && 0 <= i < |rows| && 0 <= c < |rows| && IsCancel(rows[c]) && rows[c].at == rows[i].at
    && forall r :: 0 <= r < |rows| && IsDirectReopen(rows[r]) && rows[r].at == rows[i].at ==> rows[r].id < rows[c].id
  }

  /** m is a status row of row j's millisecond, no cancellation, that precedes every cancellation
      of that millisecond. */
  ghost predicate ReadFirst(rows: seq<HistoryRow>, j: int, m: int) {
    && 0 <= j < |rows| && 0 <= m < |rows| && IsOtherStatus(rows[m]) && rows[m].at == rows[j].at
    && forall c :: 0 <= c < |rows| && IsCancel(rows[c]) && rows[c].at == rows[j].at ==> rows[m].id < rows[c].id
  }

  /** The period of cancellation i is read as one: its millisecond is read as ending cancelled, and
      the millisecond of the next status change as beginning with a change that is no cancellation. */
  ghost predicate ReadAsCancelled(rows: seq<HistoryRow>, i: int) {
    && (exists c :: ReadLast(rows, i, c))
    && (forall j {:trigger NextStatus(rows, i, j)} :: NextStatus(rows, i, j) ==> exists m :: ReadFirst(rows, j, m))
  }

  /** A row that opens or closes a cancellation for the scan. */
  predicate IsToggle(r: HistoryRow) {
    IsCancel(r) || IsDirectReopen(r)
  }

  /** The last toggles up to t are those of row c's millisecond. */
  ghost predicate LastToggles(rows: seq<HistoryRow>, t: int, c: int) {
    && 0 <= c < |rows| && IsToggle(rows[c]) && rows[c].at < t
    && forall k :: 0 <= k < |rows| && IsToggle(rows[k]) ==> rows[k].at <= rows[c].at || t < rows[k].at
  }

  /** j is a status row of the earliest millisecond after t that has one. */
  ghost predicate FirstAfter(rows: seq<HistoryRow>, t: int, j: int) {
    && 0 <= j < |rows| && HasStatus(rows[j]) && t < rows[j].at
    && forall k :: 0 <= k < |rows| && HasStatus(rows[k]) ==> rows[k].at <= t || rows[j].at <= rows[k].at
  }

  /** The query reads the payment as cancelled at t: of the last millisecond before t that has a
      cancellation or a reopen a cancellation is read last, and of the first one after t that has a
      status change a change that is no cancellation is read first. */
  ghost predicate ReadCancelledAt(rows: seq<HistoryRow>, t: int) {
    && (exists c :: LastToggles(rows, t, c) && ReadLast(rows, c, c))
    && (forall j {:trigger FirstAfter(rows, t, j)} :: FirstAfter(rows, t, j) ==> exists m :: ReadFirst(rows, j, m))
  }

  /** s is the query's answer for rows. */
  ghost predicate IsSortOf(s: seq<HistoryRow>, rows: seq<HistoryRow>) {
    && (forall x :: x in s <==> x in rows)
    && (forall a, b :: 0 <= a < b < |s| ==> !Before(s[b], s[a]))
  }

  lemma {:induction false} SortRowsIsSort(rows: seq<HistoryRow>)
    ensures IsSortOf(SortRows(rows), rows)
  {
    SortRowsSorts(rows);
    forall x ensures x in SortRows(rows) <==> x in rows {
      assert x in multiset(SortRows(rows)) <==> x in multiset(rows);
    }
    assert |multiset(SortRows(rows))| == |SortRows(rows)|;
  }

  ghost predicate AtOrBefore(s: seq<HistoryRow>, a: int, at: int) {
    0 <= a < |s| && s[a].at <= at
  }

  /** The last cancellation dated at most `at`. */
  lemma {:induction false} LastCancelBy(s: seq<HistoryRow>, at: int, a: int) returns (last: int)
    requires AtOrBefore(s, a, at) && IsCancel(s[a])
    ensures a <= last && AtOrBefore(s, last, at) && IsCancel(s[last])
    ensures forall x :: last < x < |s| && IsCancel(s[x]) ==> s[x].at > at
    decreases |s| - a
  {
    if x :| a < x < |s| && IsCancel(s[x]) && s[x].at <= at {
      last := LastCancelBy(s, at, x);
    } else {
      last := a;
    }
  }

  /** The first status row dated after `at`. */
  lemma {:induction false} FirstStatusBy(s: seq<HistoryRow>, at: int, b: int) returns (first: int)
    requires 0 <= b < |s| && HasStatus(s[b]) && s[b].at > at
    ensures 0 <= first <= b && HasStatus(s[first]) && s[first].at > at
    ensures forall x :: 0 <= x < first && HasStatus(s[x]) ==> s[x].at <= at
    decreases b
  {
    if x :| 0 <= x < b && HasStatus(s[x]) && s[x].at > at {
      first := FirstStatusBy(s, at, x);
    } else {
      first := b;
    }
  }

  lemma IndexIn(s: seq<HistoryRow>, x: HistoryRow) returns (k: int)
    requires x in s
    ensures 0 <= k < |s| && s[k] == x
  {
    k :| 0 <= k < |s| && s[k] == x;
  }

  lemma EarlierComesFirst(s: seq<HistoryRow>, rows: seq<HistoryRow>, x: int, y: int)
    requires IsSortOf(s, rows) && 0 <= x < |s| && 0 <= y < |s| && s[x].at < s[y].at
    ensures x < y
  {
    assert forall a, b :: 0 <= a < b < |s| ==> s[a].at <= s[b].at;
  }

  /** Read as cancelled, the instant is rejected. */
  lemma ReadCancelledIsRejected(rows: seq<HistoryRow>, s: seq<HistoryRow>, t: int)
    requires IsSortOf(s, rows) && ReadCancelledAt(rows, t)
    ensures Rejected(s, t)
  {
    var c :| LastToggles(rows, t, c) && ReadLast(rows, c, c);
    var at := rows[c].at;
    var c' := IndexIn(s, rows[c]);
    var a := LastCancelBy(s, at, c');
    forall x | a < x < |s| && s[x].at <= t ensures !IsToggle(s[x]) {
      assert !Before(s[x], s[a]) && !Before(s[a], s[c']);
      var k := IndexIn(rows, s[x]);
    }
    if y :| 0 <= y < |s| && HasStatus(s[y]) && s[y].at > t {
      var b := FirstStatusBy(s, t, y);
      EarlierComesFirst(s, rows, a, b);
      FirstIsNoCancel(rows, s, t, b);
      assert OpenBetween(s, a, b);
      assert CoveredBy(s, t, a, b);
    } else {
      assert OpenBetween(s, a, |s|);
      assert StillOpen(s, t, a);
    }
  }

  lemma FirstIsNoCancel(rows: seq<HistoryRow>, s: seq<HistoryRow>, t: int, b: int)
    requires IsSortOf(s, rows) && ReadCancelledAt(rows, t)
    requires 0 <= b < |s| && HasStatus(s[b]) && t < s[b].at
    requires forall x :: 0 <= x < b && HasStatus(s[x]) ==> s[x].at <= t
    ensures !IsCancel(s[b])
  {
    var j := IndexIn(rows, s[b]);
    FirstReadIsFirst(rows, s, t, b, j);
    var m :| ReadFirst(rows, j, m);
    var m' := IndexIn(s, rows[m]);
    assert HasStatus(s[m']);
    assert b <= m' && !Before(s[m'], s[b]);
  }

  /** The first status row the query reads after t is of the earliest such millisecond. */
  lemma FirstReadIsFirst(rows: seq<HistoryRow>, s: seq<HistoryRow>, t: int, b: int, j: int)
    requires IsSortOf(s, rows) && 0 <= b < |s| && HasStatus(s[b]) && t < s[b].at
    requires forall x :: 0 <= x < b && HasStatus(s[x]) ==> s[x].at <= t
    requires 0 <= j < |rows| && rows[j] == s[b]
    ensures FirstAfter(rows, t, j)
  {
    forall k | 0 <= k < |rows| && HasStatus(rows[k]) ensures rows[k].at <= t || rows[j].at <= rows[k].at {
      var k' := IndexIn(s, rows[k]);
      assert b < k' ==> !Before(s[k'], s[b]);
    }
  }

  /** The open cancellation behind a rejection is of the last millisecond with toggles, after every
      reopen of it, and the status rows after t do not begin with a cancellation. */
  lemma RejectedReadsCancelled(rows: seq<HistoryRow>, s: seq<HistoryRow>, t: int, a: int, e: int)
    requires IsSortOf(s, rows) && DistinctIds(rows)
    requires 0 <= a < e <= |s| && IsCancel(s[a]) && s[a].at < t && OpenBetween(s, a, e)
    requires e < |s| ==> IsOtherStatus(s[e]) && t < s[e].at
    ensures ReadCancelledAt(rows, t)
  {
    var c := IndexIn(rows, s[a]);
    forall k | 0 <= k < |rows| && IsToggle(rows[k])
      ensures rows[k].at <= rows[c].at || t < rows[k].at
      ensures IsDirectReopen(rows[k]) && rows[k].at == rows[c].at ==> rows[k].id < rows[c].id
    {
      TogglePrecedes(rows, s, t, a, e, k);
      assert k != c ==> rows[k].id != rows[c].id;
    }
    assert LastToggles(rows, t, c) && ReadLast(rows, c, c);
    forall j {:trigger FirstAfter(rows, t, j)} | FirstAfter(rows, t, j) ensures exists m :: ReadFirst(rows, j, m) {
      EarliestReadsFirst(rows, s, t, a, e, j);
    }
  }

  lemma TogglePrecedes(rows: seq<HistoryRow>, s: seq<HistoryRow>, t: int, a: int, e: int, k: int)
    requires IsSortOf(s, rows) && 0 <= a < e <= |s| && OpenBetween(s, a, e) && s[a].at < t
    requires e < |s| ==> t < s[e].at
    requires 0 <= k < |rows| && IsToggle(rows[k])
    ensures t < rows[k].at || !Before(s[a], rows[k])
  {
    var k' := IndexIn(s, rows[k]);
    if k' > a {
      if e < |s| && rows[k].at <= t { EarlierComesFirst(s, rows, k', e); }
    } else if k' < a {
      assert !Before(s[a], s[k']);
    }
  }

  lemma EarliestReadsFirst(rows: seq<HistoryRow>, s: seq<HistoryRow>, t: int, a: int, e: int, j: int)
    requires IsSortOf(s, rows) && DistinctIds(rows) && FirstAfter(rows, t, j)
    requires 0 <= a < e <= |s| && s[a].at < t && OpenBetween(s, a, e)
    requires e < |s| ==> IsOtherStatus(s[e]) && t < s[e].at
    ensures exists m :: ReadFirst(rows, j, m)
  {
    var j' := IndexIn(s, rows[j]);
    var b := FirstStatusBy(s, t, j');
    var m := IndexIn(rows, s[b]);
    assert rows[m].at == rows[j].at by {
      assert b < j' ==> !Before(s[j'], s[b]);
    }
    EarlierComesFirst(s, rows, a, b);
    assert e < |s| ==> HasStatus(s[e]);
    assert !IsCancel(s[b]);
    forall c | 0 <= c < |rows| && IsCancel(rows[c]) && rows[c].at == rows[j].at ensures rows[m].id < rows[c].id {
      var c' := IndexIn(s, rows[c]);
      assert b <= c' && !Before(s[c'], s[b]);
      assert rows[m].id != rows[c].id;
    }
    assert ReadFirst(rows, j, m);
  }

  /** What the matcher says of every instant, whatever the history and the order its rows are read in. */
  lemma {:induction false} RejectedIff(rows: seq<HistoryRow>, t: int)
    requires DistinctIds(rows)
    ensures Rejected(SortRows(rows), t) <==> ReadCancelledAt(rows, t)
  {
    var s := SortRows(rows);
    SortRowsIsSort(rows);
    hide SortRows;
    if ReadCancelledAt(rows, t) {
      ReadCancelledIsRejected(rows, s, t);
    }
    if a, e :| CoveredBy(s, t, a, e) {
      RejectedReadsCancelled(rows, s, t, a, e);
    } else if a :| StillOpen(s, t, a) {
      RejectedReadsCancelled(rows, s, t, a, |s|);
    }
  }

  // ----- Between a toggle and the next status change -----

  /** In the span of row i, the earliest status rows after t are those of the next one's millisecond. */
  lemma SpanEndsAtNext(rows: seq<HistoryRow>, t: int, i: int, k: int)
    requires Chronological(rows) && InSpanOf(rows, t, i) && HasStatus(rows[i])
    requires 0 <= k < |rows| && HasStatus(rows[k])
    ensures rows[k].at <= rows[i].at
         || (t < rows[k].at && exists j :: NextStatus(rows, i, j) && rows[j].at <= rows[k].at)
  {
    if k > i {
      var j := FirstStatusAfter(rows, i, k);
      assert HasStatus(rows[j]);
    } else if k < i {
      assert HasStatus(rows[i]);
    }
  }

  /** An instant between a cancellation and the next status change is rejected if and only if the
      period is read as one; and an instant between a reopen and the next status change is rejected
      under that very condition too. Where each status change has a millisecond of its own, the
      first always is and the second never. */
  lemma {:induction false} SpanIsRejectedIff(rows: seq<HistoryRow>, t: int, i: int)
    requires Chronological(rows) && DistinctIds(rows) && InSpanOf(rows, t, i) && IsToggle(rows[i])
    ensures Rejected(SortRows(rows), t) <==> ReadAsCancelled(rows, i)
  {
    RejectedIff(rows, t);
    hide Rejected, SortRows;
    forall k | 0 <= k < |rows| && HasStatus(rows[k]) ensures rows[k].at <= rows[i].at || t < rows[k].at {
      SpanEndsAtNext(rows, t, i, k);
    }
    assert LastToggles(rows, t, i);
    forall j {:trigger NextStatus(rows, i, j)} | NextStatus(rows, i, j) ensures FirstAfter(rows, t, j) {
      forall k | 0 <= k < |rows| && HasStatus(rows[k]) ensures rows[k].at <= t || rows[j].at <= rows[k].at {
        SpanEndsAtNext(rows, t, i, k);
      }
    }
    if ReadAsCancelled(rows, i) {
      var c :| ReadLast(rows, i, c);
      assert LastToggles(rows, t, c) && ReadLast(rows, c, c);
      forall j {:trigger FirstAfter(rows, t, j)} | FirstAfter(rows, t, j) ensures exists m :: ReadFirst(rows, j, m) {
        SpanEndsAtNext(rows, t, i, j);
        var n :| NextStatus(rows, i, n) && rows[n].at <= rows[j].at;
        var m :| ReadFirst(rows, n, m);
        assert ReadFirst(rows, j, m);
      }
    }
    if ReadCancelledAt(rows, t) {
      var c :| LastToggles(rows, t, c) && ReadLast(rows, c, c);
      assert ReadLast(rows, i, c);
    }
  }

  // ----- Exactness at all instants -----

  /** At t the verdict is the truth. */
  ghost predicate ExactAt(rows: seq<HistoryRow>, t: int) {
    ReadCancelledAt(rows, t) <==> InCancelledPeriod(rows, t)
  }

  /** At the instant of each status change and a millisecond later. */
  ghost predicate ExactAtChanges(rows: seq<HistoryRow>) {
    forall i :: 0 <= i < |rows| && HasStatus(rows[i]) ==> ExactAt(rows, rows[i].at) && ExactAt(rows, rows[i].at + 1)
  }

  /** Neither verdict nor truth changes while no status row is passed. */
  lemma NothingBetween(rows: seq<HistoryRow>, t: int, u: int)
    requires t <= u && forall k :: 0 <= k < |rows| && HasStatus(rows[k]) ==> rows[k].at < t || u < rows[k].at
    ensures ReadCancelledAt(rows, t) <==> ReadCancelledAt(rows, u)
    ensures InCancelledPeriod(rows, t) <==> InCancelledPeriod(rows, u)
  {
    forall c ensures LastToggles(rows, t, c) <==> LastToggles(rows, u, c) {
    }
    forall j ensures FirstAfter(rows, t, j) <==> FirstAfter(rows, u, j) {
    }
    forall i ensures InPeriodOf(rows, t, i) <==> InPeriodOf(rows, u, i) {
    }
  }

  ghost predicate LatestBy(rows: seq<HistoryRow>, t: int, i: int) {
    && 0 <= i < |rows| && HasStatus(rows[i]) && rows[i].at <= t
    && forall k :: 0 <= k < |rows| && HasStatus(rows[k]) ==> rows[k].at <= rows[i].at || t < rows[k].at
  }

  /** Some status row by t is the latest, if there is any. */
  lemma {:induction false} LatestExists(rows: seq<HistoryRow>, t: int, i: int) returns (last: int)
    requires 0 <= i < |rows| && HasStatus(rows[i]) && rows[i].at <= t
    ensures LatestBy(rows, t, last)
    decreases t - rows[i].at
  {
    if k :| 0 <= k < |rows| && HasStatus(rows[k]) && rows[i].at < rows[k].at <= t {
      last := LatestExists(rows, t, k);
    } else {
      last := i;
    }
  }

  /** Whatever the order: the verdict is the truth at every instant if and only if it is at the
      instant of each status change and a millisecond later. */
  lemma {:induction false} ExactIffAtChanges(rows: seq<HistoryRow>)
    requires DistinctIds(rows)
    ensures (forall t :: Rejected(SortRows(rows), t) <==> InCancelledPeriod(rows, t)) <==> ExactAtChanges(rows)
  {
    hide Rejected, SortRows, InCancelledPeriod, ReadCancelledAt, DistinctIds;
    forall t ensures Rejected(SortRows(rows), t) <==> ReadCancelledAt(rows, t) {
      RejectedIff(rows, t);
    }
    if ExactAtChanges(rows) {
      forall t ensures Rejected(SortRows(rows), t) <==> InCancelledPeriod(rows, t) {
        ExactFromChanges(rows, t);
      }
    } else {
      var i :| 0 <= i < |rows| && HasStatus(rows[i]) && !(ExactAt(rows, rows[i].at) && ExactAt(rows, rows[i].at + 1));
      var t := if ExactAt(rows, rows[i].at) then rows[i].at + 1 else rows[i].at;
      assert !(Rejected(SortRows(rows), t) <==> InCancelledPeriod(rows, t));
    }
  }

  lemma ExactFromChanges(rows: seq<HistoryRow>, t: int)
    requires ExactAtChanges(rows)
    ensures ExactAt(rows, t)
  {
    if k :| 0 <= k < |rows| && HasStatus(rows[k]) && rows[k].at <= t {
      var i := LatestExists(rows, t, k);
      if rows[i].at < t { NothingBetween(rows, rows[i].at + 1, t); }
    }
  }
}
