/** What a retry of a whole batch does after a crash or a failure at any transaction boundary. The
    retry comes later: it reads other clocks, may find another active profile and draws other ids. */
module RelayRetry {
  import opened Common
  import opened Domain
  import opened Ledger
  import opened Relay
  import opened RelayTheorems
  import opened RelayBatch

  // ----- When a device was last seen decides nothing -----

  /** The world without the record of when the device was last seen. */
  function Unseen(w: World, device: Id): World {
    if device in w.devices then w.(devices := w.devices[device := w.devices[device].(lastSeenAt := None)]) else w
  }

  /** The same results, but for that record. */
  ghost predicate Alike(a: (World, Option<Refusal>), b: (World, Option<Refusal>), device: Id) {
    Unseen(a.0, device) == Unseen(b.0, device) && a.1 == b.1
  }

  lemma UnseenMeans(a: World, b: World, device: Id)
    requires Unseen(a, device) == Unseen(b, device)
    ensures a.db == b.db && a.sessions == b.sessions && a.events == b.events && a.devices.Keys == b.devices.Keys
    ensures forall d :: d in a.devices && d != device ==> a.devices[d] == b.devices[d]
    ensures device in a.devices ==> a.devices[device] == b.devices[device].(lastSeenAt := a.devices[device].lastSeenAt)
  {
    var u, v := Unseen(a, device), Unseen(b, device);
    assert u.devices.Keys == a.devices.Keys && v.devices.Keys == b.devices.Keys;
    assert forall d :: d in u.devices ==> u.devices[d] == v.devices[d];
    if device in a.devices {
      assert a.devices[device].(lastSeenAt := None) == b.devices[device].(lastSeenAt := None);
    }
  }

  lemma TouchOverwrites(a: World, b: World, device: Id, now: int)
    requires Unseen(a, device) == Unseen(b, device) && device in a.devices
    ensures device in b.devices && Touch(a, device, now) == Touch(b, device, now)
  {
    UnseenMeans(a, b, device);
    assert Touch(a, device, now).devices == Touch(b, device, now).devices;
  }

  lemma TouchIsUnseen(w: World, device: Id, now: int)
    requires device in w.devices
    ensures Unseen(Touch(w, device, now), device) == Unseen(w, device)
  {
    var d := w.devices[device];
    assert d.(lastSeenAt := Some(now)).(lastSeenAt := None) == d.(lastSeenAt := None);
    assert Unseen(Touch(w, device, now), device).devices == Unseen(w, device).devices;
  }

  lemma AcceptIgnoresSeen(a: World, b: World, env: Env, item: Item)
    requires Unseen(a, env.device) == Unseen(b, env.device) && SourcesUnique(a.events)
    ensures AcceptItem(a, env, item) == AcceptItem(b, env, item)
  {
    UnseenMeans(a, b, env.device);
    if Authorized(a, env.device, env.epoch) {
      TouchOverwrites(a, b, env.device, item.draw.acceptedAt);
    }
    hide Touch, Unseen, SameEvent, SanitizePostedAt, NewEvent;
    var source := item.input.eventId;
    assert forall e :: IsEventOf(a, e, env.device, source) <==> IsEventOf(b, e, env.device, source);
    if Known(a, env.device, source) {
      OnlyEventOf(b, env.device, source, EventOf(a, env.device, source));
    }
  }

  lemma IngestIgnoresSeen(a: World, b: World, env: Env, parse: Parser, item: Item)
    requires Unseen(a, env.device) == Unseen(b, env.device) && SourcesUnique(a.events)
    ensures Alike(IngestTx(a, env, parse, item), IngestTx(b, env, parse, item), env.device)
  {
    AcceptIgnoresSeen(a, b, env, item);
    hide AcceptItem, ProcessPending, Unseen;
  }

  lemma {:induction false} BatchIgnoresSeen(a: World, b: World, env: Env, parse: Parser, items: seq<Item>)
    requires Unseen(a, env.device) == Unseen(b, env.device) && RelayInv(a) && RelayInv(b)
    ensures Alike(BatchTx(a, env, parse, items), BatchTx(b, env, parse, items), env.device)
    decreases |items|
  {
    hide Unseen, IngestTx;
    if items != [] {
      UniqueSources(a);
      hide RelayInv;
      IngestIgnoresSeen(a, b, env, parse, items[0]);
      IngestShape(a, env, parse, items[0]);
      IngestShape(b, env, parse, items[0]);
      if IngestTx(a, env, parse, items[0]).1.None? {
        BatchIgnoresSeen(IngestTx(a, env, parse, items[0]).0, IngestTx(b, env, parse, items[0]).0, env, parse,
                         items[1..]);
      }
    }
  }

  lemma FinishIgnoresSeen(a: World, b: World, device: Id, event: Id, status: EventStatus)
    requires Unseen(a, device) == Unseen(b, device)
    ensures Unseen(FinishTx(a, event, status), device) == Unseen(FinishTx(b, event, status), device)
  {
    UnseenMeans(a, b, device);
  }

  lemma SameAuthorized(a: World, b: World, env: Env)
    requires Unseen(a, env.device) == Unseen(b, env.device)
    ensures Authorized(a, env.device, env.epoch) <==> Authorized(b, env.device, env.epoch)
  {
    UnseenMeans(a, b, env.device);
  }

  lemma ApplyIgnoresSeen(a: World, b: World, event: Id, env: Env, o: Observation, draw: Draw)
    requires Unseen(a, env.device) == Unseen(b, env.device)
    ensures var r, s := ProcessTx(a, event, env, o, draw), ProcessTx(b, event, env, o, draw);
      && (r.Ok? <==> s.Ok?) && (r.Err? ==> r.error == s.error)
      && (r.Ok? ==> Unseen(r.value.world, env.device) == Unseen(s.value.world, env.device))
  {
    UnseenMeans(a, b, env.device);
    SameAuthorized(a, b, env);
    hide SettleTx, ValidObservation, ObservationOf, Authorized;
  }

  lemma ProcessIgnoresSeen(a: World, b: World, event: Id, env: Env, parse: Parser, item: Item)
    requires Unseen(a, env.device) == Unseen(b, env.device)
    ensures Alike(ProcessPending(a, event, env, parse, item), ProcessPending(b, event, env, parse, item), env.device)
  {
    FinishIgnoresSeen(a, b, env.device, event, EventIgnored);
    FinishIgnoresSeen(a, b, env.device, event, EventAmbiguous);
    if parse(item.input).Parsed? {
      ApplyIgnoresSeen(a, b, event, env, parse(item.input).observation, item.draw);
    }
    hide ProcessTx, FinishTx, Unseen, Reliable, Tolerable;
  }

  // ----- Items that were done before -----

  lemma DoneAgain(w: World, env: Env, parse: Parser, item: Item)
    requires RelayInv(w) && Authorized(w, env.device, env.epoch) && Decides(w, env.device, item.input.eventId)
    ensures var same := SameAt(w.events[EventOf(w, env.device, item.input.eventId)], item.input, item.draw.acceptedAt);
      var r := IngestTx(w, env, parse, item);
      r == if same then (Touch(w, env.device, item.draw.acceptedAt), None) else (w, Some(EventIdConflict))
  {
    hide RelayInv, SameEvent, SanitizePostedAt;
  }

  /** Every one of the first m items still carries the data of its stored event, checked at the
      item's own reading. */
  ghost predicate StillSame(w: World, env: Env, items: seq<Item>, m: nat)
    requires m <= |items|
  {
    forall i :: 0 <= i < m ==> SameStored(w, env, items[i])
  }

  ghost predicate SameStored(w: World, env: Env, item: Item) {
    && Known(w, env.device, item.input.eventId)
    && SameAt(w.events[EventOf(w, env.device, item.input.eventId)], item.input, item.draw.acceptedAt)
  }

  lemma TouchKeepsStored(w: World, env: Env, now: int, item: Item)
    requires env.device in w.devices && SourcesUnique(w.events)
    ensures SameStored(Touch(w, env.device, now), env, item) <==> SameStored(w, env, item)
    ensures Decides(Touch(w, env.device, now), env.device, item.input.eventId)
       <==> Decides(w, env.device, item.input.eventId)
  {
    var t := Touch(w, env.device, now);
    hide SameAt;
    assert forall e ::
        IsEventOf(t, e, env.device, item.input.eventId) <==> IsEventOf(w, e, env.device, item.input.eventId);
    if Known(w, env.device, item.input.eventId) {
      OnlyEventOf(t, env.device, item.input.eventId, EventOf(w, env.device, item.input.eventId));
    }
  }

  lemma TouchKeepsInv(w: World, device: Id, now: int)
    requires RelayInv(w) && device in w.devices
    ensures RelayInv(Touch(w, device, now))
  {
  }

  /** A batch whose first m items are decided passes over them, or stops at the first whose data
      no longer agree. */
  lemma {:induction false} DoneItemsAreSkipped(w: World, env: Env, parse: Parser, items: seq<Item>, m: nat)
    requires RelayInv(w) && m <= |items| && (m > 0 ==> Authorized(w, env.device, env.epoch))
    requires forall i :: 0 <= i < m ==> Decides(w, env.device, items[i].input.eventId)
    ensures StillSame(w, env, items, m) ==>
      Alike(BatchTx(w, env, parse, items), BatchTx(w, env, parse, items[m..]), env.device)
    ensures !StillSame(w, env, items, m) ==>
      Alike(BatchTx(w, env, parse, items), (w, Some(EventIdConflict)), env.device)
    decreases m
  {
    if m == 0 {
      assert items[0..] == items;
    } else {
      DoneAgain(w, env, parse, items[0]);
      UniqueSources(w);
      var stored := w.events[EventOf(w, env.device, items[0].input.eventId)];
      assert SameStored(w, env, items[0]) <==> SameAt(stored, items[0].input, items[0].draw.acceptedAt);
      if SameStored(w, env, items[0]) {
        var now := items[0].draw.acceptedAt;
        var t := Touch(w, env.device, now);
        TouchKeepsInv(w, env.device, now);
        TouchIsUnseen(w, env.device, now);
        SkippedOne(w, t, env, parse, items, m, now);
      }
    }
  }

  lemma {:induction false} SkippedOne(w: World, t: World, env: Env, parse: Parser, items: seq<Item>, m: nat, now: int)
    requires RelayInv(w) && RelayInv(t) && 0 < m <= |items| && Authorized(w, env.device, env.epoch)
    requires t == Touch(w, env.device, now) && Unseen(t, env.device) == Unseen(w, env.device)
    requires forall i :: 0 <= i < m ==> Decides(w, env.device, items[i].input.eventId)
    requires SameStored(w, env, items[0]) && IngestTx(w, env, parse, items[0]) == (t, None)
    ensures StillSame(w, env, items, m) ==>
      Alike(BatchTx(w, env, parse, items), BatchTx(w, env, parse, items[m..]), env.device)
    ensures !StillSame(w, env, items, m) ==>
      Alike(BatchTx(w, env, parse, items), (w, Some(EventIdConflict)), env.device)
    decreases m, 0
  {
    UniqueSources(w);
    hide RelayInv, Unseen, IngestTx, SourcesUnique;
    var rest := items[1..];
    forall i | 0 <= i < m - 1
      ensures Decides(t, env.device, rest[i].input.eventId)
      ensures SameStored(t, env, rest[i]) <==> SameStored(w, env, rest[i])
    {
      TouchKeepsStored(w, env, now, items[i + 1]);
    }
    SameAuthorized(t, w, env);
    hide Touch, Decides, SameStored;
    assert StillSame(w, env, items, m) <==> StillSame(t, env, rest, m - 1) by {
      assert forall i :: 0 <= i < m - 1 ==> rest[i] == items[i + 1];
      assert forall i :: 1 <= i < m ==> items[i] == rest[i - 1];
    }
    DoneItemsAreSkipped(t, env, parse, rest, m - 1);
    assert rest[m - 1..] == items[m..];
    BatchIgnoresSeen(t, w, env, parse, items[m..]);
  }

  // ----- The cut -----

  /** After k items of the first attempt, and possibly the acceptance of the next, it was cut. */
  ghost predicate CutAt(w: World, env: Env, parse: Parser, first: seq<Item>, k: nat, accepted: bool, cut: World) {
    && k <= |first|
    && var (done, failed) := BatchTx(w, env, parse, first[..k]);
    && failed.None?
    && if accepted
       then k < |first| && AcceptItem(done, env, first[k]).Ok? && AcceptItem(done, env, first[k]).value.pending
            && cut == AcceptItem(done, env, first[k]).value.world
       else cut == done
  }

  ghost predicate SameInputs(first: seq<Item>, retry: seq<Item>) {
    |first| == |retry| && forall i :: 0 <= i < |first| ==> first[i].input == retry[i].input
  }

  /** Accepted as in the first attempt, processed as in the retry. */
  function Resumed(first: Item, retry: Item): Item {
    Item(first.input, retry.draw.(acceptedAt := first.draw.acceptedAt, newId := first.draw.newId))
  }

  /** The draws of the first attempt up to the cut, those of the retry from there. */
  function Spliced(first: seq<Item>, retry: seq<Item>, k: nat, accepted: bool): seq<Item>
    requires k <= |first| == |retry| && (accepted ==> k < |first|)
  {
    first[..k] + if accepted then [Resumed(first[k], retry[k])] + retry[k + 1..] else retry[k..]
  }

  lemma {:induction false} BatchLeavesDone(w: World, env: Env, parse: Parser, items: seq<Item>)
    requires RelayInv(w)
    ensures var (next, failed) := BatchTx(w, env, parse, items);
      && RelayInv(next)
      && (failed.None? && items != [] ==> Authorized(next, env.device, env.epoch))
      && (failed.None? ==>
            forall i :: 0 <= i < |items| ==>
              Decides(next, env.device, items[i].input.eventId) && SameStored(next, env, items[i]))
    decreases |items|
  {
    if items != [] {
      var front, item := items[..|items| - 1], items[|items| - 1];
      assert items == front + [item];
      BatchSplits(w, env, parse, front, [item]);
      BatchLeavesDone(w, env, parse, front);
      var (mid, failed) := BatchTx(w, env, parse, front);
      OneMore(mid, env, parse, item);
      IngestShape(mid, env, parse, item);
      var next := IngestTx(mid, env, parse, item).0;
      UniqueSources(next);
      hide RelayInv, SourcesUnique, IngestTx, BatchTx, SameAt;
      if failed.None? && IngestTx(mid, env, parse, item).1.None? {
        assert Decides(next, env.device, item.input.eventId) && SameStored(next, env, item);
        forall i | 0 <= i < |front|
          ensures Decides(next, env.device, front[i].input.eventId) && SameStored(next, env, front[i])
        {
          StoredStays(mid, next, env, front[i]);
        }
        hide Decides, SameStored;
        assert forall i :: 0 <= i < |items| ==> items[i] == if i < |front| then front[i] else item;
      }
    }
  }

  lemma StoredStays(w: World, next: World, env: Env, item: Item)
    requires SourcesUnique(next.events) && DecidedFrozen(w.events, next.events)
    requires Decides(w, env.device, item.input.eventId) && SameStored(w, env, item)
    ensures Decides(next, env.device, item.input.eventId) && SameStored(next, env, item)
  {
    hide SourcesUnique, SameAt;
    OnlyEventOf(next, env.device, item.input.eventId, EventOf(w, env.device, item.input.eventId));
  }

  lemma {:induction false} OneMore(w: World, env: Env, parse: Parser, item: Item)
    ensures BatchTx(w, env, parse, [item]) == IngestTx(w, env, parse, item)
  {
    hide IngestTx;
    assert [item][1..] == [];
    assert BatchTx(IngestTx(w, env, parse, item).0, env, parse, []) == (IngestTx(w, env, parse, item).0, None);
  }

  /** Cut between accepting and processing an item, the retry takes it up where it was left, if
      its data still agree. */
  lemma ResumeItem(done: World, env: Env, parse: Parser, first: Item, retry: Item, a: Accepted)
    requires RelayInv(done) && AcceptItem(done, env, first) == Ok(a) && a.pending && first.input == retry.input
    ensures SameStored(a.world, env, retry)
      ==> Alike(IngestTx(a.world, env, parse, retry), IngestTx(done, env, parse, Resumed(first, retry)), env.device)
    ensures !SameStored(a.world, env, retry) ==>
      IngestTx(a.world, env, parse, retry) == (a.world, Some(EventIdConflict))
  {
    AcceptShape(done, env, first, a);
    UniqueSources(a.world);
    hide RelayInv, SameEvent, SanitizePostedAt;
    OnlyEventOf(a.world, env.device, first.input.eventId, a.event);
    var resumed := Resumed(first, retry);
    assert AcceptItem(done, env, resumed) == Ok(a);
    TouchIsUnseen(a.world, env.device, retry.draw.acceptedAt);
    var touched := Touch(a.world, env.device, retry.draw.acceptedAt);
    ProcessIgnoresSeen(touched, a.world, a.event, env, parse, retry);
    assert ProcessPending(a.world, a.event, env, parse, retry)
        == ProcessPending(a.world, a.event, env, parse, resumed) by {
      hide ApplyTx, FinishTx, Reliable, Tolerable;
    }
    if SameStored(a.world, env, retry) {
      assert AcceptItem(a.world, env, retry) == Ok(Accepted(touched, a.event, true, true));
    }
    hide ProcessPending, Unseen, AcceptItem, Touch;
  }

  /** The retry of a batch cut at any transaction boundary, whatever it reads and draws, ends in the
      world of an uninterrupted run that drew the first attempt's readings, profiles and ids up to
      the cut and the retry's from there, with the same answer; only the record of when the device
      was last seen may differ. The one exception: an item stored before whose data no longer agree
      at the retry's reading stops it with a conflict, and nothing more happens. */
  lemma {:induction false} RetryContinues(w: World, env: Env, parse: Parser, first: seq<Item>, retry: seq<Item>, k: nat,
                                          accepted: bool, cut: World)
    requires RelayInv(w) && SameInputs(first, retry) && CutAt(w, env, parse, first, k, accepted, cut)
    ensures var m := if accepted then k + 1 else k;
      var uninterrupted := BatchTx(w, env, parse, Spliced(first, retry, k, accepted));
      Alike(BatchTx(cut, env, parse, retry),
            if StillSame(cut, env, retry, m) then uninterrupted else (cut, Some(EventIdConflict)),
            env.device)
  {
    var done := BatchTx(w, env, parse, first[..k]).0;
    BatchLeavesDone(w, env, parse, first[..k]);
    assert forall i :: 0 <= i < k ==> first[..k][i].input == retry[i].input;
    BatchSplits(w, env, parse, first[..k], Spliced(first, retry, k, accepted)[k..]);
    assert Spliced(first, retry, k, accepted) == first[..k] + Spliced(first, retry, k, accepted)[k..];
    if !accepted {
      hide RelayInv, BatchTx, Unseen, Decides, SameStored;
      assert Spliced(first, retry, k, accepted)[k..] == retry[k..];
      DoneItemsAreSkipped(cut, env, parse, retry, k);
    } else {
      hide RelayInv, BatchTx, Unseen, Decides, SameStored;
      RetryAfterAccept(done, env, parse, first, retry, k, cut);
      assert Spliced(first, retry, k, accepted)[k..] == [Resumed(first[k], retry[k])] + retry[k + 1..];
    }
  }

  lemma AcceptedKeepsDone(done: World, env: Env, first: Item, a: Accepted, source: string)
    requires RelayInv(done) && AcceptItem(done, env, first) == Ok(a) && Decides(done, env.device, source)
    ensures Decides(a.world, env.device, source)
  {
    AcceptShape(done, env, first, a);
    UniqueSources(a.world);
    hide RelayInv, AcceptItem, SameAt;
    OnlyEventOf(a.world, env.device, source, EventOf(done, env.device, source));
  }

  lemma CutDecides(done: World, env: Env, first: Item, retry: seq<Item>, k: nat, a: Accepted)
    requires RelayInv(done) && AcceptItem(done, env, first) == Ok(a) && k <= |retry|
    requires forall i :: 0 <= i < k ==> Decides(done, env.device, retry[i].input.eventId)
    ensures RelayInv(a.world) && Authorized(a.world, env.device, env.epoch)
    ensures forall i :: 0 <= i < k ==> Decides(a.world, env.device, retry[i].input.eventId)
  {
    AcceptShape(done, env, first, a);
    hide RelayInv, AcceptItem, Decides, SameAt;
    forall i | 0 <= i < k ensures Decides(a.world, env.device, retry[i].input.eventId) {
      AcceptedKeepsDone(done, env, first, a, retry[i].input.eventId);
    }
  }

  lemma {:induction false} RetryAfterAccept(done: World, env: Env, parse: Parser, first: seq<Item>, retry: seq<Item>,
                                            k: nat, cut: World)
    requires RelayInv(done) && SameInputs(first, retry) && k < |first|
    requires AcceptItem(done, env, first[k]).Ok? && AcceptItem(done, env, first[k]).value.pending
    requires cut == AcceptItem(done, env, first[k]).value.world
    requires forall i :: 0 <= i < k ==> Decides(done, env.device, retry[i].input.eventId)
    ensures Alike(BatchTx(cut, env, parse, retry),
                  if StillSame(cut, env, retry, k + 1)
                  then BatchTx(done, env, parse, [Resumed(first[k], retry[k])] + retry[k + 1..])
                  else (cut, Some(EventIdConflict)), env.device)
  {
    hide RelayInv, BatchTx, IngestTx, Unseen, SameStored, Decides, AcceptItem;
    var a := AcceptItem(done, env, first[k]).value;
    CutDecides(done, env, first[k], retry, k, a);
    DoneItemsAreSkipped(cut, env, parse, retry, k);
    assert StillSame(cut, env, retry, k + 1) <==> StillSame(cut, env, retry, k) && SameStored(cut, env, retry[k]);
    hide StillSame;
    if StillSame(cut, env, retry, k) {
      assert retry[k..] == [retry[k]] + retry[k + 1..];
      RetryFromCut(done, cut, env, parse, first[k], retry[k], retry[k + 1..], a);
    }
  }

  lemma {:induction false} RetryFromCut(done: World, cut: World, env: Env, parse: Parser, first: Item, retry: Item,
                                        rest: seq<Item>, a: Accepted)
    requires RelayInv(done) && RelayInv(cut) && first.input == retry.input && cut == a.world
    requires AcceptItem(done, env, first) == Ok(a) && a.pending
    ensures Alike(BatchTx(cut, env, parse, [retry] + rest),
                  if SameStored(cut, env, retry) then BatchTx(done, env, parse, [Resumed(first, retry)] + rest)
                  else (cut, Some(EventIdConflict)), env.device)
  {
    hide RelayInv, BatchTx, IngestTx, Unseen, SameStored, AcceptItem, Resumed;
    ResumeItem(done, env, parse, first, retry, a);
    if SameStored(cut, env, retry) {
      HeadDecides(cut, done, env, parse, retry, Resumed(first, retry), rest);
    } else {
      HeadFails(cut, env, parse, retry, rest);
    }
  }

  lemma {:induction false} HeadDecides(a: World, b: World, env: Env, parse: Parser, x: Item, y: Item, rest: seq<Item>)
    requires RelayInv(a) && RelayInv(b)
    ensures Alike(IngestTx(a, env, parse, x), IngestTx(b, env, parse, y), env.device)
      ==> Alike(BatchTx(a, env, parse, [x] + rest), BatchTx(b, env, parse, [y] + rest), env.device)
  {
    IngestShape(a, env, parse, x);
    IngestShape(b, env, parse, y);
    hide RelayInv, IngestTx, Unseen;
    assert ([x] + rest)[1..] == rest && ([y] + rest)[1..] == rest;
    if Alike(IngestTx(a, env, parse, x), IngestTx(b, env, parse, y), env.device) {
      BatchIgnoresSeen(IngestTx(a, env, parse, x).0, IngestTx(b, env, parse, y).0, env, parse, rest);
    }
  }

  lemma {:induction false} HeadFails(w: World, env: Env, parse: Parser, x: Item, rest: seq<Item>)
    requires IngestTx(w, env, parse, x).1.Some?
    ensures BatchTx(w, env, parse, [x] + rest) == IngestTx(w, env, parse, x)
  {
    hide IngestTx;
  }

  // ----- When the stored data still agree -----

  /** At the retry's reading the data agree with the stored event as they did at the first attempt's:
      the posting time is as reliable, or the event was stored from this very body. */
  ghost predicate JudgedAlike(w: World, env: Env, first: Item, retry: Item) {
    && first.input == retry.input
    && (Reliable(first.input, first.draw.acceptedAt) == Reliable(first.input, retry.draw.acceptedAt)
        || (Known(w, env.device, first.input.eventId)
            && w.events[EventOf(w, env.device, first.input.eventId)].hash == RawHash(first.input.raw)))
  }

  lemma DataStaySame(w: World, env: Env, first: Item, retry: Item)
    requires SameStored(w, env, first) && JudgedAlike(w, env, first, retry)
    ensures SameStored(w, env, retry)
  {
  }

  /** So the retry of a cut batch runs on when every item of before the cut is judged alike. */
  lemma RetryRunsOn(w: World, env: Env, parse: Parser, first: seq<Item>, retry: seq<Item>, k: nat, accepted: bool,
                    cut: World)
    requires RelayInv(w) && SameInputs(first, retry) && CutAt(w, env, parse, first, k, accepted, cut)
    requires forall i :: 0 <= i < (if accepted then k + 1 else k) ==> JudgedAlike(cut, env, first[i], retry[i])
    ensures RelayInv(cut) && StillSame(cut, env, retry, if accepted then k + 1 else k)
  {
    var done := BatchTx(w, env, parse, first[..k]).0;
    PrefixIsKept(w, env, parse, first, k);
    hide RelayInv, BatchTx, AcceptItem, AllKept, JudgedAlike, SameStored;
    if accepted {
      AcceptKeepsAll(done, env, first, k, AcceptItem(done, env, first[k]).value);
    } else {
      KeptIsSame(done, env, first, k);
    }
    forall i | 0 <= i < (if accepted then k + 1 else k) ensures SameStored(cut, env, retry[i]) {
      DataStaySame(cut, env, first[i], retry[i]);
    }
  }

  ghost predicate AllKept(w: World, env: Env, items: seq<Item>, m: nat)
    requires m <= |items|
  {
    forall i :: 0 <= i < m ==> Decides(w, env.device, items[i].input.eventId) && SameStored(w, env, items[i])
  }

  lemma {:induction false} PrefixIsKept(w: World, env: Env, parse: Parser, items: seq<Item>, k: nat)
    requires RelayInv(w) && k <= |items| && BatchTx(w, env, parse, items[..k]).1.None?
    ensures var done := BatchTx(w, env, parse, items[..k]).0; RelayInv(done) && AllKept(done, env, items, k)
  {
    hide RelayInv, BatchTx, Decides, SameStored;
    var front := items[..k];
    BatchLeavesDone(w, env, parse, front);
    var done := BatchTx(w, env, parse, front).0;
    forall i | 0 <= i < k ensures Decides(done, env.device, items[i].input.eventId) && SameStored(done, env, items[i]) {
      assert front[i] == items[i];
    }
  }

  lemma KeptIsSame(w: World, env: Env, items: seq<Item>, m: nat)
    requires m <= |items| && AllKept(w, env, items, m)
    ensures StillSame(w, env, items, m)
  {
    hide Decides, SameStored;
  }

  lemma AcceptKeepsAll(done: World, env: Env, items: seq<Item>, k: nat, a: Accepted)
    requires RelayInv(done) && k < |items| && AcceptItem(done, env, items[k]) == Ok(a) && AllKept(done, env, items, k)
    ensures RelayInv(a.world) && StillSame(a.world, env, items, k + 1)
  {
    AcceptedIsSame(done, env, items[k], a);
    hide RelayInv, Decides, SameStored, AcceptItem;
    forall i | 0 <= i < k ensures SameStored(a.world, env, items[i]) {
      AcceptKeepsSame(done, env, items[k], a, items[i]);
    }
  }

  lemma AcceptedIsSame(done: World, env: Env, item: Item, a: Accepted)
    requires RelayInv(done) && AcceptItem(done, env, item) == Ok(a)
    ensures RelayInv(a.world) && SameStored(a.world, env, item)
    ensures env.device in a.world.devices && a.world.devices[env.device].lastSeenAt == Some(item.draw.acceptedAt)
  {
    AcceptShape(done, env, item, a);
    UniqueSources(a.world);
    hide RelayInv, SourcesUnique, SameAt, AcceptItem;
    OnlyEventOf(a.world, env.device, item.input.eventId, a.event);
  }

  lemma AcceptKeepsSame(done: World, env: Env, item: Item, a: Accepted, earlier: Item)
    requires RelayInv(done) && AcceptItem(done, env, item) == Ok(a)
    requires Decides(done, env.device, earlier.input.eventId) && SameStored(done, env, earlier)
    ensures SameStored(a.world, env, earlier)
  {
    AcceptShape(done, env, item, a);
    UniqueSources(a.world);
    hide RelayInv, SourcesUnique, SameAt, AcceptItem;
    StoredStays(done, a.world, env, earlier);
  }

  // ----- The same readings again -----

  lemma {:induction false} BatchSees(w: World, env: Env, parse: Parser, items: seq<Item>, now: int)
    requires RelayInv(w) && forall i :: 0 <= i < |items| ==> items[i].draw.acceptedAt == now
    requires SeenAt(w, env.device, now)
    ensures SeenAt(BatchTx(w, env, parse, items).0, env.device, now)
    decreases |items|
  {
    if items != [] {
      IngestShape(w, env, parse, items[0]);
      hide RelayInv, IngestTx;
      if IngestTx(w, env, parse, items[0]).1.None? {
        BatchSees(IngestTx(w, env, parse, items[0]).0, env, parse, items[1..], now);
      }
    }
  }

  lemma AlikeAndSeen(a: (World, Option<Refusal>), b: (World, Option<Refusal>), device: Id)
    requires Alike(a, b, device) && device in a.0.devices && device in b.0.devices
    requires a.0.devices[device].lastSeenAt == b.0.devices[device].lastSeenAt
    ensures a == b
  {
    UnseenMeans(a.0, b.0, device);
    assert a.0.devices == b.0.devices;
  }

  lemma SplicedSelf(items: seq<Item>, k: nat, accepted: bool)
    requires k <= |items| && (accepted ==> k < |items|)
    ensures Spliced(items, items, k, accepted) == items
  {
    if accepted {
      assert Resumed(items[k], items[k]) == items[k];
      assert items[k..] == [items[k]] + items[k + 1..];
    }
  }

  ghost predicate SeenAt(w: World, device: Id, now: int) {
    device in w.devices && w.devices[device].lastSeenAt == Some(now)
  }

  lemma {:induction false} DoneSees(w: World, env: Env, parse: Parser, items: seq<Item>, now: int)
    requires RelayInv(w) && items != [] && BatchTx(w, env, parse, items).1.None?
    requires forall i :: 0 <= i < |items| ==> items[i].draw.acceptedAt == now
    ensures SeenAt(BatchTx(w, env, parse, items).0, env.device, now)
  {
    IngestShape(w, env, parse, items[0]);
    hide RelayInv, IngestTx, AcceptItem;
    BatchSees(IngestTx(w, env, parse, items[0]).0, env, parse, items[1..], now);
  }

  lemma {:induction false} CutSees(w: World, env: Env, parse: Parser, items: seq<Item>, k: nat, accepted: bool,
                                   cut: World, now: int)
    requires RelayInv(w) && CutAt(w, env, parse, items, k, accepted, cut) && (k > 0 || accepted)
    requires forall i :: 0 <= i < |items| ==> items[i].draw.acceptedAt == now
    ensures SeenAt(cut, env.device, now) && SeenAt(BatchTx(w, env, parse, items).0, env.device, now)
  {
    var done := BatchTx(w, env, parse, items[..k]).0;
    BatchLeavesDone(w, env, parse, items[..k]);
    hide RelayInv, AcceptItem, IngestTx, BatchTx;
    if accepted {
      AcceptedIsSame(done, env, items[k], AcceptItem(done, env, items[k]).value);
    }
    if k > 0 {
      DoneSees(w, env, parse, items[..k], now);
      assert items == items[..k] + items[k..];
      BatchSplits(w, env, parse, items[..k], items[k..]);
      BatchSees(done, env, parse, items[k..], now);
    } else {
      assert items[..0] == [];
      NothingIngested(w, env, parse);
      FirstSees(w, env, parse, items, now);
    }
  }

  lemma {:induction false} NothingIngested(w: World, env: Env, parse: Parser)
    ensures BatchTx(w, env, parse, []) == (w, None)
  {
  }

  lemma {:induction false} FirstSees(w: World, env: Env, parse: Parser, items: seq<Item>, now: int)
    requires RelayInv(w) && items != [] && AcceptItem(w, env, items[0]).Ok?
    requires forall i :: 0 <= i < |items| ==> items[i].draw.acceptedAt == now
    ensures SeenAt(BatchTx(w, env, parse, items).0, env.device, now)
  {
    IngestShape(w, env, parse, items[0]);
    hide RelayInv, IngestTx, AcceptItem;
    if IngestTx(w, env, parse, items[0]).1.None? {
      BatchSees(IngestTx(w, env, parse, items[0]).0, env, parse, items[1..], now);
    }
  }

  /** Batch retry converges: with the same readings and draws, re-sending the whole batch after a
      cut at any transaction boundary ends in the very world, with the same answer, as the batch
      sent once without a cut. */
  lemma {:induction false} BatchRetryConverges(w: World, env: Env, parse: Parser, items: seq<Item>, k: nat,
                                               accepted: bool, cut: World, now: int)
    requires RelayInv(w) && CutAt(w, env, parse, items, k, accepted, cut)
    requires forall i :: 0 <= i < |items| ==> items[i].draw.acceptedAt == now
    ensures BatchTx(cut, env, parse, items) == BatchTx(w, env, parse, items)
  {
    if k == 0 && !accepted {
      assert items[..0] == [];
    } else {
      SplicedSelf(items, k, accepted);
      RetryRunsOn(w, env, parse, items, items, k, accepted, cut);
      RetryContinues(w, env, parse, items, items, k, accepted, cut);
      CutSees(w, env, parse, items, k, accepted, cut, now);
      hide RelayInv, BatchTx, StillSame, CutAt, Unseen;
      BatchSees(cut, env, parse, items, now);
      AlikeAndSeen(BatchTx(cut, env, parse, items), BatchTx(w, env, parse, items), env.device);
    }
  }
}
