/** The operator's activity feed: the newest rows of three tables, merged and cut to a limit. */
module Activity {
  import opened Common

  datatype Kind = PaymentKind | DetectedKind | WebhookKind

  /** The kinds in the order of their names "payment", "payment_detected", "webhook". */
  function KindOrder(kind: Kind): nat {
    match kind
    case PaymentKind => 0
    case DetectedKind => 1
    case WebhookKind => 2
  }

  /** One line of the feed: the instant and kind it is sorted by, and the row it shows. */
  datatype Entry = Entry(at: int, kind: Kind, rowid: nat)

  /** The comparison of the final sort: newer first, then by kind. */
  predicate Less(a: Entry, b: Entry) {
    if a.at == b.at then KindOrder(a.kind) < KindOrder(b.kind) else a.at > b.at
  }

  predicate Sorted(s: seq<Entry>) {
    forall i, j :: 0 <= i < j < |s| ==> !Less(s[j], s[i])
  }

  function Take(s: seq<Entry>, k: nat): seq<Entry> {
    if |s| > k then s[..k] else s
  }

  // ----- The stable sort -----

  function Insert(x: Entry, s: seq<Entry>): seq<Entry> {
    if s == [] then [x]
    else if Less(s[0], x) then [s[0]] + Insert(x, s[1..])
    else [x] + s
  }

  function StableSort(s: seq<Entry>): seq<Entry> {
    if s == [] then [] else Insert(s[0], StableSort(s[1..]))
  }

  /** The entries that compare equal to x, in order. */
  function Peers(s: seq<Entry>, x: Entry): seq<Entry> {
    if s == [] then []
    else (if !Less(s[0], x) && !Less(x, s[0]) then [s[0]] else []) + Peers(s[1..], x)
  }

  lemma SortedCons(x: Entry, s: seq<Entry>)
    requires Sorted(s) && (s == [] || !Less(s[0], x))
    ensures Sorted([x] + s)
  {
    forall j | 0 <= j < |s| ensures !Less(s[j], x) {
      assert j == 0 || !Less(s[j], s[0]);
    }
  }

  lemma {:induction false} InsertKeepsRows(x: Entry, s: seq<Entry>)
    ensures multiset(Insert(x, s)) == multiset(s) + multiset{x}
    ensures Insert(x, s)[0] in {x} + (if s == [] then {} else {s[0]})
  {
    if s != [] && Less(s[0], x) {
      InsertKeepsRows(x, s[1..]);
      assert s == [s[0]] + s[1..];
    }
  }

  lemma {:induction false} InsertKeepsSorted(x: Entry, s: seq<Entry>)
    requires Sorted(s)
    ensures Sorted(Insert(x, s))
  {
    if s != [] && Less(s[0], x) {
      InsertKeepsSorted(x, s[1..]);
      InsertKeepsRows(x, s[1..]);
      assert Insert(x, s[1..])[0] == x || (s[1..] != [] && Insert(x, s[1..])[0] == s[1]);
      SortedCons(s[0], Insert(x, s[1..]));
    } else {
      SortedCons(x, s);
    }
  }

  lemma {:induction false} PeersOfCons(x: Entry, s: seq<Entry>, y: Entry)
    ensures Peers([x] + s, y) == (if !Less(x, y) && !Less(y, x) then [x] else []) + Peers(s, y)
  {
    assert ([x] + s)[1..] == s;
  }

  lemma {:induction false} InsertKeepsPeers(x: Entry, s: seq<Entry>, y: Entry)
    ensures Peers(Insert(x, s), y) == Peers([x] + s, y)
  {
    PeersOfCons(x, s, y);
    if s != [] && Less(s[0], x) {
      InsertKeepsPeers(x, s[1..], y);
      PeersOfCons(x, s[1..], y);
      PeersOfCons(s[0], Insert(x, s[1..]), y);
    }
  }

  /** StableSort is what sort.SliceStable promises: the same entries, ordered, with entries that
      compare equal left in their original order. */
  lemma {:induction false} StableSortIsStable(s: seq<Entry>, x: Entry)
    ensures Sorted(StableSort(s)) && multiset(StableSort(s)) == multiset(s)
    ensures Peers(StableSort(s), x) == Peers(s, x)
  {
    if s != [] {
      StableSortIsStable(s[1..], x);
      InsertKeepsRows(s[0], StableSort(s[1..]));
      InsertKeepsSorted(s[0], StableSort(s[1..]));
      InsertKeepsPeers(s[0], StableSort(s[1..]), x);
      PeersOfCons(s[0], StableSort(s[1..]), x);
      hide Sorted, Insert;
      assert s == [s[0]] + s[1..];
    }
  }

  // ----- Merging -----

  function Merge(a: seq<Entry>, b: seq<Entry>): seq<Entry>
    decreases |a| + |b|
  {
    if a == [] then b
    else if b == [] then a
    else if Less(b[0], a[0]) then [b[0]] + Merge(a, b[1..])
    else [a[0]] + Merge(a[1..], b)
  }

  lemma {:induction false} InsertIntoMerge(x: Entry, a: seq<Entry>, b: seq<Entry>)
    ensures Insert(x, Merge(a, b)) == Merge(Insert(x, a), b)
    decreases |a| + |b|
  {
    if b == [] {
    } else if a == [] {
      if Less(b[0], x) { InsertIntoMerge(x, a, b[1..]); }
    } else if Less(b[0], a[0]) {
      InsertIntoMerge(x, a, b[1..]);
      assert ([b[0]] + Merge(a, b[1..]))[1..] == Merge(a, b[1..]);
      assert ([x] + a)[1..] == a;
    } else {
      InsertIntoMerge(x, a[1..], b);
      assert ([a[0]] + Merge(a[1..], b))[1..] == Merge(a[1..], b);
      assert ([a[0]] + Insert(x, a[1..]))[1..] == Insert(x, a[1..]);
      assert ([x] + a)[1..] == a;
    }
  }

  lemma {:induction false} SortOfConcat(a: seq<Entry>, b: seq<Entry>)
    ensures StableSort(a + b) == Merge(StableSort(a), StableSort(b))
  {
    if a == [] {
      assert a + b == b;
    } else {
      assert (a + b)[0] == a[0] && (a + b)[1..] == a[1..] + b;
      SortOfConcat(a[1..], b);
      InsertIntoMerge(a[0], StableSort(a[1..]), StableSort(b));
    }
  }

  lemma {:induction false} SortOfSorted(s: seq<Entry>)
    requires Sorted(s)
    ensures StableSort(s) == s
  {
    if s != [] {
      SortOfSorted(s[1..]);
      assert s == [s[0]] + s[1..];
    }
  }

  lemma TakeOfCons(x: Entry, s: seq<Entry>, k: nat)
    requires k > 0
    ensures Take([x] + s, k) == [x] + Take(s, k - 1)
  {
  }

  lemma TakeHead(s: seq<Entry>, k: nat)
    requires s != [] && k > 0
    ensures Take(s, k) != [] && Take(s, k)[0] == s[0] && Take(s, k)[1..] == Take(s[1..], k - 1)
  {
  }

  lemma TakeTwice(s: seq<Entry>, k: nat)
    requires s != [] && k > 0
    ensures Take(Take(s, k), k - 1) == Take(s, k - 1) && Take(Take(s, k)[1..], k - 1) == Take(s[1..], k - 1)
  {
  }

  lemma {:induction false} MergeHead(a: seq<Entry>, b: seq<Entry>)
    requires a != [] && b != []
    ensures Merge(a, b) == if Less(b[0], a[0]) then [b[0]] + Merge(a, b[1..]) else [a[0]] + Merge(a[1..], b)
  {
  }

  lemma {:induction false} TakeOfMergeTrivially(a: seq<Entry>, b: seq<Entry>, k: nat)
    requires k == 0 || a == [] || b == []
    ensures Take(Merge(a, b), k) == Take(Merge(Take(a, k), Take(b, k)), k)
  {
  }

  /** The first k entries of a merge come from the first k of each side. */
  lemma {:induction false} TakeOfMerge(a: seq<Entry>, b: seq<Entry>, k: nat)
    ensures Take(Merge(a, b), k) == Take(Merge(Take(a, k), Take(b, k)), k)
    decreases k, |a| + |b|
  {
    hide Less, Merge, Take;
    if k > 0 && a != [] && b != [] {
      var (ak, bk) := (Take(a, k), Take(b, k));
      TakeHead(a, k);
      TakeHead(b, k);
      TakeTwice(a, k);
      TakeTwice(b, k);
      MergeHead(a, b);
      MergeHead(ak, bk);
      if Less(b[0], a[0]) {
        TakeOfMerge(a, b[1..], k - 1);
        TakeOfMerge(ak, bk[1..], k - 1);
        TakeOfCons(b[0], Merge(a, b[1..]), k);
        TakeOfCons(b[0], Merge(ak, bk[1..]), k);
      } else {
        TakeOfMerge(a[1..], b, k - 1);
        TakeOfMerge(ak[1..], bk, k - 1);
        TakeOfCons(a[0], Merge(a[1..], b), k);
        TakeOfCons(a[0], Merge(ak[1..], bk), k);
      }
    } else {
      TakeOfMergeTrivially(a, b, k);
    }
  }

  /** Sorting the newest k of three ordered sources and cutting to k gives the newest k of all. */
  lemma {:induction false} TopOfThree(a: seq<Entry>, b: seq<Entry>, c: seq<Entry>, k: nat)
    requires Sorted(a) && Sorted(b) && Sorted(c)
    ensures Take(StableSort(Take(a, k) + Take(b, k) + Take(c, k)), k) == Take(StableSort(a + b + c), k)
  {
    var (ak, bk, ck) := (Take(a, k), Take(b, k), Take(c, k));
    SortOfConcat(a + b, c);
    SortOfConcat(a, b);
    SortOfConcat(ak + bk, ck);
    SortOfConcat(ak, bk);
    SortOfSorted(a);
    SortOfSorted(b);
    SortOfSorted(c);
    SortOfSorted(ak);
    SortOfSorted(bk);
    SortOfSorted(ck);
    TakeOfMerge(a, b, k);
    TakeOfMerge(Merge(a, b), c, k);
    TakeOfMerge(Merge(ak, bk), ck, k);
    assert Take(ck, k) == ck;
  }

  // ----- The three tables -----

  /** Puts a younger row before all rows of the same or an earlier instant. */
  function Place(e: Entry, s: seq<Entry>): seq<Entry> {
    if s == [] then [e]
    else if s[0].at > e.at then [s[0]] + Place(e, s[1..])
    else [e] + s
  }

  /** A whole table in ORDER BY at DESC, rowid DESC; instants[i] is the time of row i. */
  function Ordered(kind: Kind, instants: seq<int>): seq<Entry> {
    if instants == [] then []
    else
      var n := |instants| - 1;
      Place(Entry(instants[n], kind, n), Ordered(kind, instants[..n]))
  }

  predicate InRowOrder(s: seq<Entry>, kind: Kind) {
    && (forall i :: 0 <= i < |s| ==> s[i].kind == kind)
    && (forall i, j :: 0 <= i < j < |s| ==> Above(s[i], s[j]))
  }

  lemma {:induction false} PlaceKeepsRows(e: Entry, s: seq<Entry>)
    ensures multiset(Place(e, s)) == multiset(s) + multiset{e}
  {
    if s != [] && s[0].at > e.at {
      PlaceKeepsRows(e, s[1..]);
      assert s == [s[0]] + s[1..];
    }
  }

  predicate Above(a: Entry, b: Entry) {
    a.at > b.at || (a.at == b.at && a.rowid > b.rowid)
  }

  lemma {:induction false} PlaceKeepsOrder(e: Entry, s: seq<Entry>)
    requires InRowOrder(s, e.kind) && forall x :: x in s ==> x.rowid < e.rowid
    ensures InRowOrder(Place(e, s), e.kind)
  {
    if s != [] && s[0].at > e.at {
      PlaceKeepsOrder(e, s[1..]);
      var rest := Place(e, s[1..]);
      PlaceKeepsRows(e, s[1..]);
      forall x | x in rest ensures Above(s[0], x) {
        assert x in multiset(rest);
        assert x == e || x in s[1..];
      }
      OrderCons(s[0], rest);
    } else {
      forall x | x in s ensures Above(e, x) {
        assert x == s[0] || Above(s[0], x);
      }
      OrderCons(e, s);
    }
  }

  lemma OrderCons(x: Entry, s: seq<Entry>)
    requires InRowOrder(s, x.kind) && forall y :: y in s ==> Above(x, y)
    ensures InRowOrder([x] + s, x.kind)
  {
    var t := [x] + s;
    forall i, j | 0 <= i < j < |t| ensures Above(t[i], t[j]) {
      assert t[j] == s[j - 1];
    }
  }

  function TableRows(kind: Kind, instants: seq<int>): seq<Entry> {
    seq(|instants|, i requires 0 <= i < |instants| => Entry(instants[i], kind, i))
  }

  lemma TableRowsGrow(kind: Kind, instants: seq<int>)
    requires instants != []
    ensures var n := |instants| - 1;
      && TableRows(kind, instants) == TableRows(kind, instants[..n]) + [Entry(instants[n], kind, n)]
      && forall x :: x in multiset(TableRows(kind, instants[..n])) ==> x.rowid < n
  {
  }

  lemma {:induction false} OrderedHasAllRows(kind: Kind, instants: seq<int>)
    ensures multiset(Ordered(kind, instants)) == multiset(TableRows(kind, instants))
  {
    hide TableRows;
    if instants != [] {
      var n := |instants| - 1;
      OrderedHasAllRows(kind, instants[..n]);
      TableRowsGrow(kind, instants);
      PlaceKeepsRows(Entry(instants[n], kind, n), Ordered(kind, instants[..n]));
    } else {
      assert TableRows(kind, instants) == [] by { NoRows(kind); }
    }
  }

  lemma NoRows(kind: Kind)
    ensures TableRows(kind, []) == []
  {
  }

  /** The listing shows every row of the table exactly once, newest first. */
  lemma {:induction false} OrderedListsTable(kind: Kind, instants: seq<int>)
    ensures InRowOrder(Ordered(kind, instants), kind)
    ensures multiset(Ordered(kind, instants)) == multiset(TableRows(kind, instants))
  {
    OrderedHasAllRows(kind, instants);
    if instants != [] {
      var n := |instants| - 1;
      var earlier := Ordered(kind, instants[..n]);
      OrderedListsTable(kind, instants[..n]);
      TableRowsGrow(kind, instants);
      hide TableRows, InRowOrder;
      assert forall x :: x in earlier ==> x in multiset(earlier);
      PlaceKeepsOrder(Entry(instants[n], kind, n), earlier);
    }
  }

  lemma {:induction false} OrderedIsSorted(kind: Kind, instants: seq<int>)
    ensures Sorted(Ordered(kind, instants))
  {
    OrderedListsTable(kind, instants);
  }

  datatype Snapshot = Snapshot(history: seq<int>, observations: seq<int>, webhooks: seq<int>)

  /** Everything there is to show, stably sorted. */
  function FullFeed(tables: Snapshot): seq<Entry> {
    StableSort(Ordered(PaymentKind, tables.history) + Ordered(DetectedKind, tables.observations)
               + Ordered(WebhookKind, tables.webhooks))
  }

  /** Cutting the full feed keeps the newest: nothing left out belongs before anything shown. */
  lemma NothingNewerIsMissing(tables: Snapshot, k: nat, shown: Entry, omitted: Entry)
    requires shown in Take(FullFeed(tables), k) && omitted in FullFeed(tables)
    requires omitted !in Take(FullFeed(tables), k)
    ensures !Less(omitted, shown)
  {
    var all := Ordered(PaymentKind, tables.history) + Ordered(DetectedKind, tables.observations)
      + Ordered(WebhookKind, tables.webhooks);
    StableSortIsStable(all, shown);
    var feed := FullFeed(tables);
    var i :| 0 <= i < |Take(feed, k)| && Take(feed, k)[i] == shown;
    var j :| 0 <= j < |feed| && feed[j] == omitted;
    assert forall m :: 0 <= m < |feed| && m < k ==> Take(feed, k)[m] == feed[m];
  }

  /** The newest k of every table, sorted and cut, are the first k of the full feed. */
  lemma TopOfTables(tables: Snapshot, k: nat)
    ensures Take(StableSort(Take(Ordered(PaymentKind, tables.history), k)
                            + Take(Ordered(DetectedKind, tables.observations), k)
                            + Take(Ordered(WebhookKind, tables.webhooks), k)), k)
         == Take(FullFeed(tables), k)
  {
    OrderedIsSorted(PaymentKind, tables.history);
    OrderedIsSorted(DetectedKind, tables.observations);
    OrderedIsSorted(WebhookKind, tables.webhooks);
    hide Sorted, Ordered, StableSort, Take;
    TopOfThree(Ordered(PaymentKind, tables.history), Ordered(DetectedKind, tables.observations),
               Ordered(WebhookKind, tables.webhooks), k);
  }

  // ----- The feed, entry by entry -----

  /** Entries of one kind and instant stand by row, the younger first. */
  ghost predicate ByRow(s: seq<Entry>) {
    forall i, j :: 0 <= i < j < |s| && s[i].kind == s[j].kind && s[i].at == s[j].at ==> s[i].rowid > s[j].rowid
  }

  /** x precedes the entries of its kind and instant. */
  ghost predicate Precedes(x: Entry, s: seq<Entry>) {
    forall y :: y in s && y.kind == x.kind && y.at == x.at ==> x.rowid > y.rowid
  }

  lemma ByRowCons(x: Entry, s: seq<Entry>)
    ensures ByRow([x] + s) <==> Precedes(x, s) && ByRow(s)
  {
    var t := [x] + s;
    if ByRow(t) {
      forall i, j | 0 <= i < j < |s| && s[i].kind == s[j].kind && s[i].at == s[j].at ensures s[i].rowid > s[j].rowid {
        assert t[i + 1] == s[i] && t[j + 1] == s[j];
      }
      forall y | y in s && y.kind == x.kind && y.at == x.at ensures x.rowid > y.rowid {
        var j :| 0 <= j < |s| && s[j] == y;
        assert t[0] == x && t[j + 1] == y;
      }
    }
    if Precedes(x, s) && ByRow(s) {
      forall i, j | 0 <= i < j < |t| && t[i].kind == t[j].kind && t[i].at == t[j].at ensures t[i].rowid > t[j].rowid {
        assert t[j] == s[j - 1] && s[j - 1] in s;
        assert i > 0 ==> t[i] == s[i - 1];
      }
    }
  }

  lemma {:induction false} InsertKeepsByRow(x: Entry, s: seq<Entry>)
    requires ByRow(s) && Precedes(x, s)
    ensures ByRow(Insert(x, s))
  {
    if s != [] && Less(s[0], x) {
      assert s == [s[0]] + s[1..];
      ByRowCons(s[0], s[1..]);
      InsertKeepsByRow(x, s[1..]);
      InsertKeepsRows(x, s[1..]);
      var rest := Insert(x, s[1..]);
      forall y | y in rest ensures y == x || y in s[1..] {
        assert y in multiset(rest);
      }
      ByRowCons(s[0], rest);
    } else {
      ByRowCons(x, s);
    }
  }

  lemma {:induction false} SortKeepsByRow(s: seq<Entry>)
    requires ByRow(s)
    ensures ByRow(StableSort(s))
  {
    if s != [] {
      assert s == [s[0]] + s[1..];
      ByRowCons(s[0], s[1..]);
      SortKeepsByRow(s[1..]);
      StableSortIsStable(s[1..], s[0]);
      var rest := StableSort(s[1..]);
      forall y | y in rest ensures y in s[1..] {
        assert y in multiset(rest);
      }
      InsertKeepsByRow(s[0], rest);
    }
  }

  /** One entry stands before another: it is newer, or of the same instant and a payment's before a detected
      payment's before a webhook's, or of the same kind too and of a younger row. */
  predicate StandsBefore(a: Entry, b: Entry) {
    || a.at > b.at
    || (a.at == b.at && a.kind == PaymentKind && b.kind != PaymentKind)
    || (a.at == b.at && a.kind == DetectedKind && b.kind == WebhookKind)
    || (a.at == b.at && a.kind == b.kind && a.rowid > b.rowid)
  }

  /** The entry shows a row of its table, at the row's instant. */
  predicate ShowsRow(tables: Snapshot, e: Entry) {
    match e.kind
    case PaymentKind => e.rowid < |tables.history| && e.at == tables.history[e.rowid]
    case DetectedKind => e.rowid < |tables.observations| && e.at == tables.observations[e.rowid]
    case WebhookKind => e.rowid < |tables.webhooks| && e.at == tables.webhooks[e.rowid]
  }

  lemma {:induction false} OrderedShows(kind: Kind, instants: seq<int>, e: Entry)
    ensures e in Ordered(kind, instants) <==> e.kind == kind && e.rowid < |instants| && e.at == instants[e.rowid]
  {
    OrderedListsTable(kind, instants);
    assert e in Ordered(kind, instants) <==> e in multiset(Ordered(kind, instants));
    assert e in TableRows(kind, instants) <==> e in multiset(TableRows(kind, instants));
    if e.kind == kind && e.rowid < |instants| && e.at == instants[e.rowid] {
      assert TableRows(kind, instants)[e.rowid] == e;
    }
    hide Ordered, InRowOrder;
  }

  /** One table after another, each in its own order. */
  lemma ConcatIsByRow(a: seq<Entry>, b: seq<Entry>, c: seq<Entry>)
    requires InRowOrder(a, PaymentKind) && InRowOrder(b, DetectedKind) && InRowOrder(c, WebhookKind)
    ensures ByRow(a + b + c)
  {
  }

  lemma InConcat(a: seq<Entry>, b: seq<Entry>, c: seq<Entry>, e: Entry)
    ensures e in multiset(a + b + c) <==> e in a || e in b || e in c
  {
  }

  lemma SortedStands(s: seq<Entry>)
    requires Sorted(s) && ByRow(s)
    ensures forall i, j :: 0 <= i < j < |s| ==> StandsBefore(s[i], s[j])
  {
  }

  lemma FullFeedIsExact(tables: Snapshot, e: Entry)
    ensures e in FullFeed(tables) <==> ShowsRow(tables, e)
    ensures forall i, j :: 0 <= i < j < |FullFeed(tables)| ==> StandsBefore(FullFeed(tables)[i], FullFeed(tables)[j])
  {
    var a, b := Ordered(PaymentKind, tables.history), Ordered(DetectedKind, tables.observations);
    var c := Ordered(WebhookKind, tables.webhooks);
    OrderedShows(PaymentKind, tables.history, e);
    OrderedShows(DetectedKind, tables.observations, e);
    OrderedShows(WebhookKind, tables.webhooks, e);
    OrderedListsTable(PaymentKind, tables.history);
    OrderedListsTable(DetectedKind, tables.observations);
    OrderedListsTable(WebhookKind, tables.webhooks);
    hide Ordered, TableRows, InRowOrder, StableSort, Sorted, ByRow, StandsBefore, Peers;
    ConcatIsByRow(a, b, c);
    InConcat(a, b, c, e);
    StableSortIsStable(a + b + c, e);
    SortKeepsByRow(a + b + c);
    SortedStands(FullFeed(tables));
    assert e in FullFeed(tables) <==> e in multiset(FullFeed(tables));
  }

  /** The feed in plain words: rows of the three tables in that order, at most 100 of them unless another limit
      up to 500 is asked for, and whatever is left out stands after everything shown. */
  lemma FeedIsExact(tables: Snapshot, requested: int)
    ensures var shown := Take(FullFeed(tables), ClampLimit(requested));
      var limit := if requested <= 0 then 100 else if requested > 500 then 500 else requested;
      && |shown| <= limit && (forall i :: 0 <= i < |shown| ==> ShowsRow(tables, shown[i]))
      && (forall i, j :: 0 <= i < j < |shown| ==> StandsBefore(shown[i], shown[j]))
      && forall e :: ShowsRow(tables, e) && e !in shown ==>
           |shown| == limit && forall i :: 0 <= i < |shown| ==> StandsBefore(shown[i], e)
  {
    var feed, limit := FullFeed(tables), ClampLimit(requested);
    var shown := Take(feed, limit);
    hide FullFeed;
    FullFeedIsExact(tables, Entry(0, PaymentKind, 0));
    forall i | 0 <= i < |shown| ensures ShowsRow(tables, shown[i]) {
      FullFeedIsExact(tables, shown[i]);
      assert shown[i] == feed[i];
    }
    assert forall m :: 0 <= m < |shown| ==> shown[m] == feed[m] && shown[m] in shown;
    forall e | ShowsRow(tables, e) && e !in shown
      ensures |shown| == limit && forall i :: 0 <= i < |shown| ==> StandsBefore(shown[i], e)
    {
      FullFeedIsExact(tables, e);
      var j :| 0 <= j < |feed| && feed[j] == e;
      assert j >= |shown|;
    }
    hide ShowsRow, StandsBefore;
  }

  // ----- The feed as the program builds it -----

  class Feed {
    var entries: seq<Entry>

    constructor ()
      ensures entries == []
    {
      entries := [];
    }

    /** appendPaymentHistory, appendObservations and appendWebhooks: the rows of one query,
        appended to the shared slice one by one. */
    method AppendRows(rows: seq<Entry>)
      modifies this
      ensures entries == old(entries) + rows
    {
      var n := 0;
      while n < |rows|
        invariant 0 <= n <= |rows| && entries == old(entries) + rows[..n]
      {
        entries := entries + [rows[n]];
        n := n + 1;
      }
      assert rows[..n] == rows;
    }

    /** sort.SliceStable */
    method SliceStable()
      modifies this
      ensures entries == StableSort(old(entries))
    {
      var todo, done := entries, [];
      while todo != []
        invariant |todo| <= |entries| && entries == old(entries)
        invariant todo == entries[..|todo|] && done == StableSort(entries[|todo|..])
        decreases |todo|
      {
        var last := |todo| - 1;
        assert entries[last..][0] == todo[last] && entries[last..][1..] == entries[|todo|..];
        done := Insert(todo[last], done);
        todo := todo[..last];
      }
      assert entries[0..] == entries;
      entries := done;
    }

    method Cut(limit: nat)
      modifies this
      ensures entries == Take(old(entries), limit)
    {
      if |entries| > limit {
        entries := entries[..limit];
      }
    }

    /** Activity: exactly the first entries of the full feed, whatever the tables hold. */
    method List(tables: Snapshot, requested: int) returns (shown: seq<Entry>)
      modifies this
      ensures shown == Take(FullFeed(tables), ClampLimit(requested))
    {
      var limit: nat := 100;
      if requested > 500 {
        limit := 500;
      } else if requested > 0 {
        limit := requested;
      }
      entries := [];
      AppendRows(Take(Ordered(PaymentKind, tables.history), limit));
      AppendRows(Take(Ordered(DetectedKind, tables.observations), limit));
      AppendRows(Take(Ordered(WebhookKind, tables.webhooks), limit));
      TopOfTables(tables, limit);
      hide Ordered, StableSort, Take;
      assert entries == Take(Ordered(PaymentKind, tables.history),
                             limit) + Take(Ordered(DetectedKind, tables.observations), limit)
                      + Take(Ordered(WebhookKind, tables.webhooks), limit);
      SliceStable();
      Cut(limit);
      return entries;
    }
  }
}
