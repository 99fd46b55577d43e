/** The amount allocator: six ordered buckets of 99 payable amounts above the requested
    whole-rupee amount, soft avoidance of recently used amounts, 64-bit sums. */
module Allocator {
  import opened Common
  import opened Domain

  const BUCKETS: int := 6
  const SLOTS: int := 99
  const SOFT_HORIZON: int := 4 * 60 * 60 * 1000

  type Reservations = map<Id, Reservation>

  /** UPDATE ... SET released_at = now WHERE released_at IS NULL AND reserved_until <= now */
  function ReleaseRow(r: Reservation, now: int): Reservation {
    if r.releasedAt.None? && r.reservedUntil <= now then r.(releasedAt := Some(now)) else r
  }

  function Release(res: Reservations, now: int): Reservations {
    map p | p in res :: ReleaseRow(res[p], now)
  }

  /** Some unreleased reservation owns the amount. */
  predicate Held(res: Reservations, amount: int) {
    exists p :: p in res && res[p].payable == amount && res[p].releasedAt.None?
  }

  /** The amount was last used at or after the cutoff. */
  predicate RecentlyUsed(res: Reservations, amount: int, cutoff: int) {
    exists p :: p in res && res[p].payable == amount && res[p].lastUsedAt >= cutoff
  }

  /** The free amounts among the first n slots from start, of one kind of recency. Only rows
      between start and end are looked at, as the bucket query does. */
  function Sift(res: Reservations, start: int, end: int, cutoff: int, recent: bool, n: nat): seq<int> {
    if n == 0 then []
    else
      var amount := Wrap64(start + n - 1);
      var seen := start <= amount <= end;
      var rest := Sift(res, start, end, cutoff, recent, n - 1);
      if !(seen && Held(res, amount)) && (seen && RecentlyUsed(res, amount, cutoff)) == recent
      then rest + [amount] else rest
  }

  function Candidates(res: Reservations, start: int, end: int, cutoff: int): seq<int> {
    var preferred := Sift(res, start, end, cutoff, false, SLOTS);
    if preferred != [] then preferred else Sift(res, start, end, cutoff, true, SLOTS)
  }

  function BucketStart(requested: int, bucket: int): int {
    Wrap64(requested + bucket * 100 + 1)
  }

  function SelectFrom(res: Reservations, requested: int, cutoff: int, bucket: int, pick: int): Result<int, Failure>
    decreases BUCKETS - bucket
  {
    if bucket >= BUCKETS || bucket > (MAX_INT64 - requested) / 100 then Err(PaymentCapacity)
    else
      var start := BucketStart(requested, bucket);
      var candidates := Candidates(res, start, Wrap64(start + 98), cutoff);
      if candidates == [] then SelectFrom(res, requested, cutoff, bucket + 1, pick)
      else if 0 <= pick < |candidates| then Ok(candidates[pick])
      else Err(BadRandomIndex)
  }

  lemma WrapWindow(start: int, i: int)
    requires 0 <= i <= 98
    ensures Wrap64(Wrap64(start + i) + 1) == Wrap64(start + i + 1)
    ensures Wrap64(start + i) == Wrap64(start + 98) <==> i == 98
  {
    assert (start + i + 1) % TWO_64 == ((start + i) % TWO_64 + 1) % TWO_64;
    assert (start + 98) % TWO_64 == ((start + i) % TWO_64 + (98 - i)) % TWO_64;
  }

  /** loadBucketCandidates: one pass over the 99 slots with 64-bit counting. */
  method LoadBucketCandidates(res: Reservations, start: int, end: int, cutoff: int) returns (candidates: seq<int>)
    requires start == Wrap64(start) && end == Wrap64(start + 98)
    ensures candidates == Candidates(res, start, end, cutoff)
  {
    var preferred: seq<int> := [];
    var recent: seq<int> := [];
    var amount := start;
    ghost var i := 0;
    while true
      invariant 0 <= i <= 98
      invariant amount == Wrap64(start + i)
      invariant preferred == Sift(res, start, end, cutoff, false, i)
      invariant recent == Sift(res, start, end, cutoff, true, i)
      decreases 98 - i
    {
      WrapWindow(start, i);
      var seen := start <= amount <= end;
      if !(seen && Held(res, amount)) {
        if !(seen && RecentlyUsed(res, amount, cutoff)) {
          preferred := preferred + [amount];
        } else {
          recent := recent + [amount];
        }
      }
      if amount == end {
        break;
      }
      amount := Wrap64(amount + 1);
      i := i + 1;
    }
    candidates := if |preferred| > 0 then preferred else recent;
  }

  /** The bucket loop of Select. */
  method ScanBuckets(res: Reservations, requested: int, now: int, pick: int) returns (r: Result<int, Failure>)
    ensures r == SelectFrom(res, requested, now - SOFT_HORIZON, 0, pick)
  {
    var cutoff := now - SOFT_HORIZON;
    var bucket := 0;
    while bucket < BUCKETS
      invariant 0 <= bucket <= BUCKETS
      invariant SelectFrom(res, requested, cutoff, 0, pick) == SelectFrom(res, requested, cutoff, bucket, pick)
    {
      if bucket > (MAX_INT64 - requested) / 100 {
        return Err(PaymentCapacity);
      }
      var start := BucketStart(requested, bucket);
      var candidates := LoadBucketCandidates(res, start, Wrap64(start + 98), cutoff);
      if |candidates| != 0 {
        if pick < 0 || pick >= |candidates| {
          return Err(BadRandomIndex);
        }
        return Ok(candidates[pick]);
      }
      bucket := bucket + 1;
    }
    return Err(PaymentCapacity);
  }

  // ----- What the allocator promises -----

  /** A whole-rupee request for which no bucket sum leaves the 64-bit range. */
  predicate Roomy(requested: int) {
    0 < requested <= MAX_INT64 - 599 && requested % 100 == 0
  }

  function Slot(requested: int, bucket: int, k: int): int {
    requested + bucket * 100 + k
  }

  ghost predicate BucketFull(res: Reservations, requested: int, bucket: int) {
    forall k :: 1 <= k <= SLOTS ==> Held(res, Slot(requested, bucket, k))
  }

  /** The amount is the best the specification allows: free, in the first bucket that is not
      full, and recently used only if every free amount of that bucket is. */
  ghost predicate BestChoice(res: Reservations, requested: int, cutoff: int, bucket: int, k: int) {
    && 0 <= bucket < BUCKETS && 1 <= k <= SLOTS
    && !Held(res, Slot(requested, bucket, k))
    && (forall b :: 0 <= b < bucket ==> BucketFull(res, requested, b))
    && (RecentlyUsed(res, Slot(requested, bucket, k), cutoff) ==>
          forall j :: 1 <= j <= SLOTS ==>
            Held(res, Slot(requested, bucket, j)) || RecentlyUsed(res, Slot(requested, bucket, j), cutoff))
  }

  /** Without wrapping, one slot more. */
  lemma SiftStep(res: Reservations, start: int, end: int, cutoff: int, recent: bool, n: nat)
    requires MIN_INT64 <= start && end == start + 98 <= MAX_INT64 && 0 < n <= SLOTS
    ensures var rest, last := Sift(res, start, end, cutoff, recent, n - 1), start + n - 1;
      Sift(res, start, end, cutoff, recent, n)
      == if !Held(res, last) && RecentlyUsed(res, last, cutoff) == recent then rest + [last] else rest
  {
    assert Wrap64(start + n - 1) == start + n - 1;
    hide Wrap64, Held, RecentlyUsed;
  }

  lemma {:induction false} SiftContents(res: Reservations, start: int, end: int, cutoff: int, recent: bool, n: nat,
                                        sifted: seq<int>)
    requires MIN_INT64 <= start && end == start + 98 <= MAX_INT64 && n <= SLOTS
    requires sifted == Sift(res, start, end, cutoff, recent, n)
    ensures forall a ::
              a in sifted <==> start <= a < start + n && !Held(res, a) && RecentlyUsed(res, a, cutoff) == recent
  {
    if n > 0 {
      var rest, last := Sift(res, start, end, cutoff, recent, n - 1), start + n - 1;
      SiftContents(res, start, end, cutoff, recent, n - 1, rest);
      SiftStep(res, start, end, cutoff, recent, n);
      hide Sift, Held, RecentlyUsed;
    }
  }

  /** A bucket's candidates are its free amounts, without the recent ones when others exist. */
  lemma BucketCandidates(res: Reservations, requested: int, bucket: int, cutoff: int, c: seq<int>)
    requires requested > 0 && bucket >= 0 && Slot(requested, bucket, SLOTS) <= MAX_INT64
    requires c == Candidates(res, Slot(requested, bucket, 1), Slot(requested, bucket, 1) + 98, cutoff)
    ensures BucketStart(requested, bucket) == Slot(requested, bucket, 1)
    ensures Wrap64(BucketStart(requested, bucket) + 98) == Slot(requested, bucket, 1) + 98
    ensures c == [] <==> BucketFull(res, requested, bucket)
    ensures forall a :: a in c ==> Slot(requested, bucket, 1) <= a <= Slot(requested, bucket, SLOTS) && !Held(res, a)
    ensures forall a :: a in c && RecentlyUsed(res, a, cutoff) ==>
              forall j :: 1 <= j <= SLOTS ==>
                Held(res, Slot(requested, bucket, j)) || RecentlyUsed(res, Slot(requested, bucket, j), cutoff)
  {
    var start := Slot(requested, bucket, 1);
    var preferred := Sift(res, start, start + 98, cutoff, false, SLOTS);
    var recent := Sift(res, start, start + 98, cutoff, true, SLOTS);
    SiftContents(res, start, start + 98, cutoff, false, SLOTS, preferred);
    SiftContents(res, start, start + 98, cutoff, true, SLOTS, recent);
    forall j | 1 <= j <= SLOTS
      ensures preferred == [] ==>
        Held(res, Slot(requested, bucket, j)) || RecentlyUsed(res, Slot(requested, bucket, j), cutoff)
      ensures c == [] ==> Held(res, Slot(requested, bucket, j))
    {
      assert preferred == [] ==> Slot(requested, bucket, j) !in preferred;
      assert c == [] ==> Slot(requested, bucket, j) !in recent;
    }
    if c != [] {
      assert c[0] in c;
      assert c[0] == Slot(requested, bucket, c[0] - requested - bucket * 100);
    }
  }

  /** So a candidate of the first bucket that is not full is the best there is. */
  lemma CandidateIsBest(res: Reservations, requested: int, cutoff: int, bucket: int, c: seq<int>, a: int)
    requires requested > 0 && 0 <= bucket < BUCKETS && Slot(requested, bucket, SLOTS) <= MAX_INT64 && a in c
    requires c == Candidates(res, Slot(requested, bucket, 1), Slot(requested, bucket, 1) + 98, cutoff)
    requires forall b :: 0 <= b < bucket ==> BucketFull(res, requested, b)
    ensures exists b, k :: a == Slot(requested, b, k) && BestChoice(res, requested, cutoff, b, k)
  {
    BucketCandidates(res, requested, bucket, cutoff, c);
    hide Candidates, BucketFull, Held, RecentlyUsed, Wrap64, BucketStart;
    var k := a - requested - bucket * 100;
    assert a == Slot(requested, bucket, k) && BestChoice(res, requested, cutoff, bucket, k);
  }

  ghost predicate AllHeld(res: Reservations, requested: int) {
    forall b :: 0 <= b < BUCKETS ==> BucketFull(res, requested, b)
  }

  /** From a given bucket on: the choice is best, and the only other answers are a full house
      or a random index outside the candidates. */
  lemma {:induction false} SelectFromIsBest(res: Reservations, requested: int, cutoff: int, bucket: int, pick: int)
    requires Roomy(requested) && 0 <= bucket <= BUCKETS
    requires forall b :: 0 <= b < bucket ==> BucketFull(res, requested, b)
    ensures var r := SelectFrom(res, requested, cutoff, bucket, pick);
      && (r == Err(PaymentCapacity) <==> AllHeld(res, requested))
      && (r.Ok? ==> exists b, k :: r.value == Slot(requested, b, k) && BestChoice(res, requested, cutoff, b, k))
      && (r.Err? ==> r.error == PaymentCapacity || (r.error == BadRandomIndex && pick != 0))
    decreases BUCKETS - bucket
  {
    if bucket < BUCKETS {
      var c := Candidates(res, Slot(requested, bucket, 1), Slot(requested, bucket, 1) + 98, cutoff);
      BucketCandidates(res, requested, bucket, cutoff, c);
      if c == [] {
        SelectFromIsBest(res, requested, cutoff, bucket + 1, pick);
      } else if 0 <= pick < |c| {
        CandidateIsBest(res, requested, cutoff, bucket, c, c[pick]);
      }
    }
  }

  /** The allocator refines its specification, and reports capacity exactly when all 594
      amounts are held. */
  lemma {:induction false} SelectIsBest(res: Reservations, requested: int, cutoff: int, pick: int)
    requires Roomy(requested)
    ensures var r := SelectFrom(res, requested, cutoff, 0, pick);
      && (r == Err(PaymentCapacity) <==> AllHeld(res, requested))
      && (r.Ok? ==> exists b, k :: r.value == Slot(requested, b, k) && BestChoice(res, requested, cutoff, b, k))
      && (r.Err? ==> r.error == PaymentCapacity || (r.error == BadRandomIndex && pick != 0))
  {
    SelectFromIsBest(res, requested, cutoff, 0, pick);
  }

  /** Such an amount is free and adds 1 to 599 paise that leave no whole rupees. */
  lemma BestFits(res: Reservations, requested: int, cutoff: int, b: int, k: int)
    requires BestChoice(res, requested, cutoff, b, k)
    ensures 0 <= b < BUCKETS && 1 <= k <= SLOTS && !Held(res, Slot(requested, b, k))
    ensures 1 <= Slot(requested, b, k) - requested <= 599
    ensures requested % 100 == 0 ==> Slot(requested, b, k) % 100 != 0
  {
  }

  // ----- Fair draws -----

  lemma {:induction false} SiftAscends(res: Reservations, start: int, end: int, cutoff: int, recent: bool, n: nat,
                                       sifted: seq<int>)
    requires MIN_INT64 <= start && end == start + 98 <= MAX_INT64 && n <= SLOTS
    requires sifted == Sift(res, start, end, cutoff, recent, n)
    ensures forall i, j :: 0 <= i < j < |sifted| ==> sifted[i] < sifted[j]
  {
    if n > 0 {
      var rest, last := Sift(res, start, end, cutoff, recent, n - 1), start + n - 1;
      SiftAscends(res, start, end, cutoff, recent, n - 1, rest);
      SiftContents(res, start, end, cutoff, recent, n - 1, rest);
      SiftStep(res, start, end, cutoff, recent, n);
      hide Sift, Held, RecentlyUsed;
      assert forall i :: 0 <= i < |rest| ==> rest[i] in rest;
    }
  }

  /** Different indexes draw different amounts. */
  lemma {:induction false} DrawsDiffer(res: Reservations, requested: int, cutoff: int, bucket: int, pick: int,
                                       other: int)
    requires Roomy(requested) && 0 <= bucket <= BUCKETS
    requires SelectFrom(res, requested, cutoff, bucket, pick).Ok?
    requires SelectFrom(res, requested, cutoff, bucket, other) == SelectFrom(res, requested, cutoff, bucket, pick)
    ensures pick == other
    decreases BUCKETS - bucket
  {
    var start := Slot(requested, bucket, 1);
    var c := Candidates(res, start, start + 98, cutoff);
    BucketCandidates(res, requested, bucket, cutoff, c);
    if c == [] {
      DrawsDiffer(res, requested, cutoff, bucket + 1, pick, other);
    } else {
      SiftAscends(res, start, start + 98, cutoff, false, SLOTS, Sift(res, start, start + 98, cutoff, false, SLOTS));
      SiftAscends(res, start, start + 98, cutoff, true, SLOTS, Sift(res, start, start + 98, cutoff, true, SLOTS));
      hide Sift;
    }
  }

  /** Every amount that is as good as any is drawn by some index; so a uniform index chooses uniformly
      among the best. */
  lemma {:induction false} EveryBestIsDrawn(res: Reservations, requested: int, cutoff: int, bucket: int, b: int, k: int)
    returns (pick: nat)
    requires Roomy(requested) && 0 <= bucket <= b && BestChoice(res, requested, cutoff, b, k)
    ensures SelectFrom(res, requested, cutoff, bucket, pick) == Ok(Slot(requested, b, k))
    decreases BUCKETS - bucket
  {
    var start := Slot(requested, bucket, 1);
    var c := Candidates(res, start, start + 98, cutoff);
    BucketCandidates(res, requested, bucket, cutoff, c);
    if bucket < b {
      assert BucketFull(res, requested, bucket);
      pick := EveryBestIsDrawn(res, requested, cutoff, bucket + 1, b, k);
    } else {
      BestIsCandidate(res, requested, cutoff, b, k, c);
      pick :| pick < |c| && c[pick] == Slot(requested, b, k);
    }
  }

  lemma BestIsCandidate(res: Reservations, requested: int, cutoff: int, b: int, k: int, c: seq<int>)
    requires Roomy(requested) && BestChoice(res, requested, cutoff, b, k)
    requires c == Candidates(res, Slot(requested, b, 1), Slot(requested, b, 1) + 98, cutoff)
    ensures Slot(requested, b, k) in c
  {
    var start := Slot(requested, b, 1);
    var preferred := Sift(res, start, start + 98, cutoff, false, SLOTS);
    SiftContents(res, start, start + 98, cutoff, false, SLOTS, preferred);
    SiftContents(res, start, start + 98, cutoff, true, SLOTS, Sift(res, start, start + 98, cutoff, true, SLOTS));
    hide Sift, Held, RecentlyUsed;
    if preferred != [] {
      assert preferred[0] in preferred;
      assert preferred[0] == Slot(requested, b, preferred[0] - requested - b * 100);
    }
  }

  /** Every sum the bucket loop can form fits into 64 bits if and only if the request leaves
      599 paise of room; the guards in the code only ask for 199. */
  lemma SumsFitIff(requested: int)
    requires 0 < requested <= MAX_INT64 - 199 && requested % 100 == 0
    ensures (forall b :: 0 <= b < BUCKETS && b <= (MAX_INT64 - requested) / 100
               ==> Slot(requested, b, SLOTS) <= MAX_INT64)
       <==> requested <= MAX_INT64 - 599
  {
    if requested > MAX_INT64 - 599 {
      var b := (MAX_INT64 - requested) / 100;
      assert b < BUCKETS && Slot(requested, b, SLOTS) > MAX_INT64;
    }
  }

  // ----- Requests beyond the bound -----

  /** The last bucket the guard lets the loop scan for a request of more than MaxInt64 - 599. */
  function LastBucket(requested: int): int {
    (MAX_INT64 - requested) / 100
  }

  /** When its sums wrap around, the bucket query sees no reservation. */
  lemma {:induction false} WrappedSift(res: Reservations, start: int, cutoff: int, n: nat, sifted: seq<int>)
    requires 0 < start <= MAX_INT64 < start + 98 <= MAX_INT64 + 599
    requires sifted == Sift(res, start, Wrap64(start + 98), cutoff, false, n)
    ensures |sifted| == n && forall i :: 0 <= i < n ==> sifted[i] == Wrap64(start + i)
  {
    if n > 0 {
      assert Wrap64(start + 98) < 0;
      var rest := Sift(res, start, Wrap64(start + 98), cutoff, false, n - 1);
      WrappedSift(res, start, cutoff, n - 1, rest);
      hide Wrap64, Held, RecentlyUsed;
      assert sifted == rest + [Wrap64(start + n - 1)];
    }
  }

  lemma LastBucketIs(requested: int)
    requires MAX_INT64 - 599 < requested <= MAX_INT64 - 199 && requested % 100 == 0
    ensures 2 <= LastBucket(requested) < BUCKETS && Slot(requested, LastBucket(requested), 7) == MAX_INT64
  {
    assert MAX_INT64 % 100 == 7;
  }

  lemma SelectInBucket(res: Reservations, requested: int, cutoff: int, bucket: int, pick: int)
    requires 0 <= bucket < BUCKETS && bucket <= LastBucket(requested)
    ensures var start := BucketStart(requested, bucket);
      var c := Candidates(res, start, Wrap64(start + 98), cutoff);
      SelectFrom(res, requested, cutoff, bucket, pick)
      == if c == [] then SelectFrom(res, requested, cutoff, bucket + 1, pick)
         else if 0 <= pick < |c| then Ok(c[pick]) else Err(BadRandomIndex)
  {
    hide Candidates, BucketStart, Wrap64;
  }

  lemma {:induction false} WrappedBucket(res: Reservations, requested: int, cutoff: int, pick: int)
    requires MAX_INT64 - 599 < requested <= MAX_INT64 - 199 && requested % 100 == 0
    ensures var last := LastBucket(requested);
      SelectFrom(res, requested, cutoff, last, pick)
      == if 0 <= pick < SLOTS then Ok(Wrap64(Slot(requested, last, 1 + pick))) else Err(BadRandomIndex)
  {
    var last := LastBucket(requested);
    LastBucketIs(requested);
    SelectInBucket(res, requested, cutoff, last, pick);
    hide SelectFrom;
    var start := Slot(requested, last, 1);
    assert BucketStart(requested, last) == start;
    WrappedSift(res, start, cutoff, SLOTS, Sift(res, start, Wrap64(start + 98), cutoff, false, SLOTS));
    hide Sift, BucketStart, Wrap64, LastBucket;
  }

  /** Some bucket before the last one is not full. */
  ghost predicate RoomBefore(res: Reservations, requested: int, last: int) {
    exists b :: 0 <= b < last && !BucketFull(res, requested, b)
  }

  /** The allocator's answer for a request of more than MaxInt64 - 599, whose last bucket has sums that do not
      fit: the best amount of the buckets before it; once those are full, whatever slot of the last one the
      index draws, held or not, wrapped around but for the first seven; never a lack of capacity. */
  lemma {:induction false} LargeRequestIs(res: Reservations, requested: int, cutoff: int, bucket: int, pick: int)
    requires MAX_INT64 - 599 < requested <= MAX_INT64 - 199 && requested % 100 == 0
    requires 0 <= bucket <= LastBucket(requested)
    requires forall b :: 0 <= b < bucket ==> BucketFull(res, requested, b)
    ensures var r, last := SelectFrom(res, requested, cutoff, bucket, pick), LastBucket(requested);
      if RoomBefore(res, requested, last)
      then r == Err(BadRandomIndex)
        || (r.Ok? && exists b, k :: r.value == Slot(requested, b, k) && BestChoice(res, requested, cutoff, b, k))
      else r == if 0 <= pick < SLOTS then Ok(Wrap64(Slot(requested, last, 1 + pick))) else Err(BadRandomIndex)
    decreases BUCKETS - bucket
  {
    var last := LastBucket(requested);
    LastBucketIs(requested);
    WrappedBucket(res, requested, cutoff, pick);
    if bucket < last {
      SelectInBucket(res, requested, cutoff, bucket, pick);
      var c := Candidates(res, Slot(requested, bucket, 1), Slot(requested, bucket, 1) + 98, cutoff);
      BucketCandidates(res, requested, bucket, cutoff, c);
      hide SelectFrom, LastBucket, Candidates, BucketFull, Held, RecentlyUsed, Wrap64, BucketStart;
      if c == [] {
        LargeRequestIs(res, requested, cutoff, bucket + 1, pick);
      } else {
        assert RoomBefore(res, requested, last);
        if 0 <= pick < |c| { CandidateIsBest(res, requested, cutoff, bucket, c, c[pick]); }
      }
    }
  }

  // ----- Pigeonhole: fewer than 594 unreleased reservations leave room for every request -----

  function Unreleased(res: Reservations): set<Id> {
    set p | p in res && res[p].releasedAt.None?
  }

  /** n distinct held amounts need n distinct unreleased reservations. */
  lemma {:induction false} HeldAmountsNeedRows(res: Reservations, amounts: seq<int>)
    requires forall i :: 0 <= i < |amounts| ==> Held(res, amounts[i])
    requires forall i, j :: 0 <= i < j < |amounts| ==> amounts[i] != amounts[j]
    ensures |amounts| <= |Unreleased(res)|
  {
    if amounts != [] {
      var last := amounts[|amounts| - 1];
      var p :| p in res && res[p].payable == last && res[p].releasedAt.None?;
      var rest := map q | q in res && q != p :: res[q];
      var front := amounts[..|amounts| - 1];
      forall i | 0 <= i < |front| ensures Held(rest, front[i]) {
        assert Held(res, amounts[i]);
        var q :| q in res && res[q].payable == amounts[i] && res[q].releasedAt.None?;
        assert q in rest;
      }
      HeldAmountsNeedRows(rest, front);
      assert Unreleased(res) == Unreleased(rest) + {p};
    }
  }

  lemma {:induction false} RoomMeansCapacity(res: Reservations, requested: int, cutoff: int, pick: int)
    requires Roomy(requested) && |Unreleased(res)| < 594
    ensures SelectFrom(res, requested, cutoff, 0, pick) != Err(PaymentCapacity)
  {
    SelectIsBest(res, requested, cutoff, pick);
    if AllHeld(res, requested) {
      var amounts := seq(594, i => Slot(requested, i / 99, i % 99 + 1));
      forall i | 0 <= i < 594 ensures Held(res, amounts[i]) {
        assert BucketFull(res, requested, i / 99);
      }
      HeldAmountsNeedRows(res, amounts);
    }
  }
}
