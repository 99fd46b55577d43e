/** Relay ingestion over every interleaving: an event is decided once, its evidence counts
    once, a re-paired device's old requests are dead, and redaction keeps the verdicts. */
module RelayTheorems {
  import opened Common
  import opened Domain
  import opened Ledger
  import opened LedgerInvariants
  import opened LedgerWindows
  import opened LedgerTheorems
  import opened Fingerprint
  import opened Relay

  // ----- Invariant -----

  /** Each observation belongs to an event whose stored status is its outcome. */
  ghost predicate ObservationsDecide(observations: seq<ObservationRow>, events: map<Id, RelayEvent>) {
    forall i :: 0 <= i < |observations| ==>
      observations[i].event in events && events[observations[i].event].status == StatusOf(observations[i].outcome)
  }

  ghost predicate OneObservationEach(observations: seq<ObservationRow>) {
    forall i, j :: 0 <= i < j < |observations| ==> observations[i].event != observations[j].event
  }

  /** matched and unmatched are only ever the word of an observation. */
  ghost predicate DecisionsHaveObservations(observations: seq<ObservationRow>, events: map<Id, RelayEvent>) {
    forall e :: e in events && events[e].status in {EventMatched, EventUnmatched} ==> Observed(observations, e)
  }

  /** UNIQUE(device_id, source_event_id) */
  ghost predicate SourcesUnique(events: map<Id, RelayEvent>) {
    forall d, e :: d in events && e in events && d != e
      ==> events[d].device != events[e].device || events[d].source != events[e].source
  }

  ghost predicate RelayInv(w: World) {
    match w
    case World(db, devices, sessions, events) =>
      && ObservationsDecide(db.observations, events)
      && OneObservationEach(db.observations)
      && DecisionsHaveObservations(db.observations, events)
      && SourcesUnique(events)
  }

  /** What may happen to the events in one step: they stay, keep their identity, and a decided
      status never changes. */
  ghost predicate EventsEvolve(before: map<Id, RelayEvent>, after: map<Id, RelayEvent>) {
    forall e :: e in before ==>
      && e in after
      && after[e].device == before[e].device && after[e].source == before[e].source
      && after[e].package == before[e].package && after[e].postedAt == before[e].postedAt
      && after[e].receivedAt == before[e].receivedAt && after[e].hint == before[e].hint
      && (before[e].status != Received ==> after[e].status == before[e].status)
      && (HasBody(after[e]) ==> after[e] == before[e].(status := after[e].status))
  }

  lemma EvolveIsTransitive(a: map<Id, RelayEvent>, b: map<Id, RelayEvent>, c: map<Id, RelayEvent>)
    requires EventsEvolve(a, b) && EventsEvolve(b, c)
    ensures EventsEvolve(a, c)
  {
    forall e | e in a
      ensures e in c && (HasBody(c[e]) ==> c[e] == a[e].(status := c[e].status))
    {
      assert e in b;
    }
  }

  lemma {:induction false} RedactEvolves(w: World, snapshots: seq<(Id, RelayEvent)>, before: int)
    requires RelayInv(w)
    ensures var next := RedactTx(w, snapshots, before);
      && EventsEvolve(w.events, next.events) && RelayInv(next)
      && next == w.(events := next.events) && next.events.Keys == w.events.Keys
    decreases |snapshots|
  {
    if snapshots != [] {
      var first := RedactOne(w, snapshots[0].0, snapshots[0].1, before);
      RedactOneEvolves(w, snapshots[0].0, snapshots[0].1, before);
      hide RelayInv;
      RedactEvolves(first, snapshots[1..], before);
      EvolveIsTransitive(w.events, first.events, RedactTx(first, snapshots[1..], before).events);
    }
  }

  lemma RedactOneEvolves(w: World, e: Id, snapshot: RelayEvent, before: int)
    requires RelayInv(w)
    ensures var next := RedactOne(w, e, snapshot, before);
      && EventsEvolve(w.events, next.events) && RelayInv(next)
      && next == w.(events := next.events) && next.events.Keys == w.events.Keys
  {
    if e in w.events && w.events[e].receivedAt < before && HasBody(w.events[e]) {
      StatusUpdateKeeps(w, e, Redacted(w.events[e], snapshot));
    }
  }

  /** Replacing an event by one of the same identity, whose status moved at most from
      "received" to "ignored" or "ambiguous". */
  lemma StatusUpdateKeeps(w: World, e: Id, next: RelayEvent)
    requires RelayInv(w) && e in w.events
    requires next.device == w.events[e].device && next.source == w.events[e].source
    requires next.package == w.events[e].package && next.postedAt == w.events[e].postedAt
    requires next.receivedAt == w.events[e].receivedAt && next.hint == w.events[e].hint
    requires HasBody(next) ==> next == w.events[e].(status := next.status)
    requires next.status == w.events[e].status
          || (w.events[e].status == Received && next.status in {EventIgnored, EventAmbiguous})
    ensures RelayInv(w.(events := w.events[e := next])) && EventsEvolve(w.events, w.events[e := next])
  {
    forall i | 0 <= i < |w.db.observations|
      ensures w.events[e := next][w.db.observations[i].event].status == StatusOf(w.db.observations[i].outcome)
    {
    }
  }

  lemma FinishEvolves(w: World, e: Id, status: EventStatus)
    requires RelayInv(w) && status in {EventIgnored, EventAmbiguous}
    ensures RelayInv(FinishTx(w, e, status)) && EventsEvolve(w.events, FinishTx(w, e, status).events)
  {
    if e in w.events && w.events[e].status == Received {
      StatusUpdateKeeps(w, e, w.events[e].(status := status));
    }
  }

  lemma AcceptEvolves(w: World, device: Id, epoch: int, input: EventInput, now: int, newId: Id, a: Accepted)
    requires RelayInv(w) && AcceptTx(w, device, epoch, input, now, newId) == Ok(a)
    ensures RelayInv(a.world) && EventsEvolve(w.events, a.world.events) && a.world.db == w.db
  {
    if !a.duplicate {
      var e := NewEvent(device, epoch, input, now);
      assert a.world.events == w.events[newId := e];
      assert e.status in {Received, EventIgnored};
      assert !Known(w, device, input.eventId);
      forall d | d in w.events ensures w.events[d].device != device || w.events[d].source != e.source {
        assert !IsEventOf(w, d, device, input.eventId);
      }
    }
  }

  /** Processing an open event appends its one observation and decides it, in one transaction
      that runs while the device is enabled under the epoch of the request. */
  ghost predicate Decided(w: World, event: Id, device: Id, epoch: int, next: World) {
    && event in w.events && w.events[event].status == Received && w.events[event].device == device
    && Authorized(w, device, epoch)
    && !Observed(w.db.observations, event)
    && |next.db.observations| == |w.db.observations| + 1
    && next.db.observations[..|w.db.observations|] == w.db.observations
    && var row := next.db.observations[|w.db.observations|];
    && row.event == event
    && next.events == w.events[event := w.events[event].(status := StatusOf(row.outcome))]
    && next.devices == w.devices && next.sessions == w.sessions
  }

  lemma {:induction false} ObservationOfFinds(observations: seq<ObservationRow>, event: Id)
    ensures ObservationOf(observations, event).Some? <==> Observed(observations, event)
    ensures ObservationOf(observations, event).Some? ==> ObservationOf(observations, event).value.event == event
  {
    if observations != [] {
      ObservationOfFinds(observations[1..], event);
      if Observed(observations[1..], event) {
        var i :| 0 <= i < |observations[1..]| && observations[1..][i].event == event;
        assert observations[i + 1].event == event;
      }
      if Observed(observations, event) && observations[0].event != event {
        var i :| 0 <= i < |observations| && observations[i].event == event;
        assert observations[1..][i - 1].event == event;
      }
    }
  }

  /** An open event has no observation. */
  lemma OpenMeansUnobserved(w: World, event: Id)
    requires RelayInv(w) && event in w.events && w.events[event].status == Received
    ensures !Observed(w.db.observations, event)
  {
    forall i | 0 <= i < |w.db.observations| ensures w.db.observations[i].event != event {
      assert w.events[w.db.observations[i].event].status == StatusOf(w.db.observations[i].outcome);
    }
  }

  lemma ProcessDecides(w: World, event: Id, device: Id, epoch: int, o: Observation, active: Option<string>,
                       receivedAt: int, now: int, ids: RowIds, a: Applied)
    requires RelayInv(w) && ApplyTx(w, event, device, epoch, o, active, receivedAt, now, ids) == Ok(a)
    ensures Decided(w, event, device, epoch, a.world)
    ensures SettleTx(w.db, event, o, active, receivedAt, now,
                     ids) == Ok(Settled(a.world.db, a.outcome, a.payment, a.transitioned))
    ensures a.world.db.observations[|w.db.observations|].outcome == a.outcome
  {
    OpenMeansUnobserved(w, event);
    ObservationOfFinds(w.db.observations, event);
    var s := SettleTx(w.db, event, o, active, receivedAt, now, ids).value;
    SettleShape(w.db, event, o, active, receivedAt, now, ids, s);
    hide RelayInv;
    SettleAppends(w.db, event, o, active, receivedAt, now, ids, s);
  }

  lemma SettleAppends(db: Tables, event: Id, o: Observation, active: Option<string>, receivedAt: int,
                      now: int, ids: RowIds, s: Settled)
    requires SettledAs(db, event, o, active, receivedAt, now, ids, s)
    ensures |s.db.observations| == |db.observations| + 1 && s.db.observations[..|db.observations|] == db.observations
    ensures s.db.observations[|db.observations|].event == event
    ensures s.db.observations[|db.observations|].outcome == s.outcome
  {
  }

  lemma DecisionKeepsInv(w: World, event: Id, device: Id, epoch: int, next: World)
    requires RelayInv(w) && Decided(w, event, device, epoch, next)
    ensures RelayInv(next) && EventsEvolve(w.events, next.events)
  {
    var n := |w.db.observations|;
    forall i | 0 <= i < n
      ensures next.db.observations[i] == w.db.observations[i] && next.db.observations[i].event != event
    {
      assert next.db.observations[..n][i] == next.db.observations[i];
    }
    forall e | e in next.events && next.events[e].status in {EventMatched, EventUnmatched}
      ensures Observed(next.db.observations, e)
    {
      if e == event {
        assert next.db.observations[n].event == e;
      } else {
        assert Observed(w.db.observations, e);
        var i :| 0 <= i < n && w.db.observations[i].event == e;
        assert next.db.observations[i].event == e;
      }
    }
  }

  /** Merchant-side steps write no observation. */
  lemma CreateKeepsObservations(db: Tables, key: Key, request: Request, windows: Windows, profile: Option<Profile>,
                                now: int, ids: CreateIds, pick: int, created: Created)
    requires CreateTx(db, key, request, windows, profile, now, ids, pick) == Ok(created)
    ensures created.db.observations == db.observations
  {
    if !created.replayed { CreateInserts(db, key, request, windows, profile, now, ids, pick, created); }
  }

  lemma MerchantKeepsObservations(db: Tables, step: Step)
    requires !step.Settle?
    ensures Apply(db, step).observations == db.observations
  {
    match step
    case Create(input, windows, profile, now, ids, pick) =>
      hide CreateTx;
      if NormalizeCreate(input).Ok? {
        var (key, request) := NormalizeCreate(input).value;
        var r := CreateTx(db, key, request, windows, profile, now, ids, pick);
        if r.Ok? { CreateKeepsObservations(db, key, request, windows, profile, now, ids, pick, r.value); }
      }
    case Cancel(payment, now, ids) =>
    case ExpireDue(limit, now, ids) =>
      var due := InDueOrder(db.payments, DueSet(db.payments, now), ClampLimit(limit));
      var r := ExpireAll(db, due, now, ids);
      hide ExpireAll;
      if r.Ok? { ExpireKeepsObservations(db, due, now, ids, r.value.0, r.value.1); }
    case Edit(payment, e, now, ids) =>
      hide EditTx;
      var r := EditTx(db, payment, e, now, ids);
      if r.Ok? { EditFrame(db, payment, e, now, ids, r.value); }
  }

  lemma {:induction false} ExpireKeepsObservations(db: Tables, due: seq<Id>, now: int, ids: seq<RowIds>, next: Tables,
                                                   count: nat)
    requires ExpireAll(db, due, now, ids) == Ok((next, count))
    ensures next.observations == db.observations
    decreases |due|
  {
    if due == [] {
    } else if !IsDue(db.payments, due[0], now) {
      ExpireKeepsObservations(db, due[1..], now, ids, next, count);
    } else {
      ExpireAllUnfold(db, due, now, ids, next, count);
      ExpireKeepsObservations(ExpireOne(db, due[0], now, ids[0]), due[1..], now, ids[1..], next, count - 1);
    }
  }

  lemma SameEventsKeepInv(w: World, next: World)
    requires RelayInv(w) && next.events == w.events && next.db.observations == w.db.observations
    ensures RelayInv(next) && EventsEvolve(w.events, next.events)
  {
  }

  /** Every step of every worker keeps the invariant; events only evolve. */
  lemma StepEvolves(w: World, step: RelayStep)
    requires RelayInv(w)
    ensures RelayInv(Next(w, step)) && EventsEvolve(w.events, Next(w, step).events)
  {
    SameEventsKeepInv(w, w);
    hide RelayInv, EventsEvolve;
    match step
    case Pair(device, token, now) => SameEventsKeepInv(w, Next(w, step));
    case CreatePairing(token, now, ttl) => SameEventsKeepInv(w, Next(w, step));
    case Revoke(device) => SameEventsKeepInv(w, Next(w, step));
    case Accept(device, epoch, input, now, newId) =>
      hide AcceptTx;
      var r := AcceptTx(w, device, epoch, input, now, newId);
      if r.Ok? { AcceptEvolves(w, device, epoch, input, now, newId, r.value); }
    case Process(event, device, epoch, o, active, receivedAt, now, ids) =>
      hide ApplyTx;
      var r := ApplyTx(w, event, device, epoch, o, active, receivedAt, now, ids);
      if r.Ok? {
        ProcessDecides(w, event, device, epoch, o, active, receivedAt, now, ids, r.value);
        DecisionKeepsInv(w, event, device, epoch, r.value.world);
      }
    case FinishIgnored(event) => FinishEvolves(w, event, EventIgnored);
    case FinishAmbiguous(event) => FinishEvolves(w, event, EventAmbiguous);
    case Redact(snapshots, before) => RedactEvolves(w, snapshots, before);
    case Merchant(s) =>
      hide Apply;
      if !s.Settle? { MerchantKeepsObservations(w.db, s); }
      SameEventsKeepInv(w, Next(w, step));
  }

  lemma EvolveIsReflexive(events: map<Id, RelayEvent>)
    ensures EventsEvolve(events, events)
  {
  }

  /** Over every run. */
  lemma {:induction false} RunEvolves(w: World, steps: seq<RelayStep>)
    requires RelayInv(w)
    ensures RelayInv(RunAll(w, steps)) && EventsEvolve(w.events, RunAll(w, steps).events)
    decreases |steps|
  {
    if steps == [] {
      EvolveIsReflexive(w.events);
    } else {
      hide RelayInv, EventsEvolve, Next;
      var next := Next(w, steps[0]);
      StepEvolves(w, steps[0]);
      RunEvolves(next, steps[1..]);
      EvolveIsTransitive(w.events, next.events, RunAll(next, steps[1..]).events);
    }
  }

  // ----- Exactly once -----

  /** From the first decision on, whatever any worker does, an event's stored status stays, and
      every further attempt to process it is refused: its money is counted once. */
  lemma {:induction false} DecidedEventIsFinal(w: World, steps: seq<RelayStep>, event: Id, device: Id, epoch: int,
                                               o: Observation, active: Option<string>, receivedAt: int, now: int,
                                               ids: RowIds)
    requires RelayInv(w) && event in w.events && w.events[event].status != Received
    ensures var later := RunAll(w, steps);
      && event in later.events && later.events[event].status == w.events[event].status
      && ApplyTx(later, event, device, epoch, o, active, receivedAt, now, ids).Err?
      && FinishTx(later, event, EventIgnored) == later && FinishTx(later, event, EventAmbiguous) == later
  {
    RunEvolves(w, steps);
    hide RelayInv;
    assert event in w.events;
  }

  /** On every run from a world that keeps the invariant an event has at most one observation; its
      status is that observation's outcome (corroborated is stored as matched), and "matched" or
      "unmatched" never stand without one. */
  lemma {:induction false} ExactlyOneVerdict(w: World, steps: seq<RelayStep>)
    requires RelayInv(w)
    ensures var later := RunAll(w, steps);
      && (forall i, j :: 0 <= i < j < |later.db.observations| ==>
            later.db.observations[i].event != later.db.observations[j].event)
      && (forall i :: 0 <= i < |later.db.observations| ==>
            && later.db.observations[i].event in later.events
            && later.events[later.db.observations[i].event].status == StatusOf(later.db.observations[i].outcome))
      && (forall e :: e in later.events && later.events[e].status in {EventMatched, EventUnmatched} ==>
            Observed(later.db.observations, e))
  {
    RunEvolves(w, steps);
  }

  /** A world without relay events and observations keeps it, whatever payments and devices it has;
      so do the blank one and one after a cutover. */
  lemma QuietWorldIsSound(db: Tables, devices: map<Id, Device>, sessions: map<string, Session>)
    requires db.observations == []
    ensures RelayInv(World(db, devices, sessions, map[]))
  {
  }

  /** Only processing adds an observation, and it commits while its device is enabled under the
      epoch the request was signed for, on an event of that device that is still open. */
  lemma ObservationsAreAuthorized(w: World, step: RelayStep)
    requires RelayInv(w) && Next(w, step).db.observations != w.db.observations
    ensures step.Process? && Decided(w, step.event, step.device, step.epoch, Next(w, step))
  {
    match step
    case Process(event, device, epoch, o, active, receivedAt, now, ids) =>
      hide ApplyTx;
      var r := ApplyTx(w, event, device, epoch, o, active, receivedAt, now, ids);
      ProcessDecides(w, event, device, epoch, o, active, receivedAt, now, ids, r.value);
    case Redact(snapshots, before) => RedactEvolves(w, snapshots, before); assert false;
    case Merchant(s) => if !s.Settle? { MerchantKeepsObservations(w.db, s); } assert false;
    case _ => assert false;
  }

  // ----- Enrollment epochs -----

  /** Epochs of known devices never go back, and each pairing moves strictly forward. */
  ghost predicate EpochsGrow(before: map<Id, Device>, after: map<Id, Device>) {
    forall d :: d in before ==> d in after && before[d].epoch <= after[d].epoch
  }

  lemma StepGrowsEpochs(w: World, step: RelayStep)
    ensures EpochsGrow(w.devices, Next(w, step).devices)
    ensures step.Pair? && step.device in w.devices && PairTx(w, step.device, step.token, step.now).Ok?
      ==> w.devices[step.device].epoch < Next(w, step).devices[step.device].epoch
  {
    match step
    case Redact(snapshots, before) => RedactKeepsDevices(w, snapshots, before);
    case Accept(device, epoch, input, now, newId) =>
    case Process(event, device, epoch, o, active, receivedAt, now, ids) =>
      hide SettleTx;
    case Merchant(s) =>
      hide Apply;
    case _ =>
  }

  lemma {:induction false} RedactKeepsDevices(w: World, snapshots: seq<(Id, RelayEvent)>, before: int)
    ensures RedactTx(w, snapshots, before).devices == w.devices
    decreases |snapshots|
  {
    if snapshots != [] {
      RedactKeepsDevices(RedactOne(w, snapshots[0].0, snapshots[0].1, before), snapshots[1..], before);
    }
  }

  lemma {:induction false} RunGrowsEpochs(w: World, steps: seq<RelayStep>)
    ensures EpochsGrow(w.devices, RunAll(w, steps).devices)
    decreases |steps|
  {
    if steps != [] {
      hide Next;
      StepGrowsEpochs(w, steps[0]);
      RunGrowsEpochs(Next(w, steps[0]), steps[1..]);
    }
  }

  /** Once a device is paired again, requests verified under its old epoch are dead for ever:
      whatever runs in between, they can neither store nor process an event. */
  lemma {:induction false} OldEpochIsDead(w: World, device: Id, token: string, pairedAt: int, paired: World,
                                          steps: seq<RelayStep>, input: EventInput, event: Id, o: Observation,
                                          active: Option<string>, receivedAt: int, now: int, newId: Id, ids: RowIds)
    requires device in w.devices && PairTx(w, device, token, pairedAt) == Ok(paired)
    ensures var later, oldEpoch := RunAll(paired, steps), w.devices[device].epoch;
      && device in later.devices && later.devices[device].epoch > oldEpoch
      && AcceptTx(later, device, oldEpoch, input, now, newId) == Err(UnknownDevice)
      && ApplyTx(later, event, device, oldEpoch, o, active, receivedAt, now, ids).Err?
  {
    RunGrowsEpochs(paired, steps);
  }

  /** A pairing token pairs at most once, ever. */
  lemma {:induction false} TokenWorksOnce(w: World, device: Id, token: string, now: int, paired: World,
                                          steps: seq<RelayStep>, other: Id, later: int)
    requires PairTx(w, device, token, now) == Ok(paired)
    ensures PairTx(RunAll(paired, steps), other, token, later) == Err(TokenUsed)
  {
    ConsumedStays(paired, steps, token);
  }

  lemma {:induction false} ConsumedStays(w: World, steps: seq<RelayStep>, token: string)
    requires token in w.sessions && w.sessions[token].consumedAt.Some?
    ensures token in RunAll(w, steps).sessions && RunAll(w, steps).sessions[token].consumedAt.Some?
    decreases |steps|
  {
    if steps != [] {
      SessionStays(w, steps[0], token);
      hide Next;
      ConsumedStays(Next(w, steps[0]), steps[1..], token);
    }
  }

  lemma SessionStays(w: World, step: RelayStep, token: string)
    requires token in w.sessions && w.sessions[token].consumedAt.Some?
    ensures token in Next(w, step).sessions && Next(w, step).sessions[token] == w.sessions[token]
  {
    match step
    case Redact(snapshots, before) => RedactKeepsSessions(w, snapshots, before);
    case Process(event, device, epoch, o, active, receivedAt, now, ids) =>
      hide SettleTx;
    case Merchant(s) =>
      hide Apply;
    case _ =>
  }

  lemma {:induction false} RedactKeepsSessions(w: World, snapshots: seq<(Id, RelayEvent)>, before: int)
    ensures RedactTx(w, snapshots, before).sessions == w.sessions
    decreases |snapshots|
  {
    if snapshots != [] {
      RedactKeepsSessions(RedactOne(w, snapshots[0].0, snapshots[0].1, before), snapshots[1..], before);
    }
  }

  // ----- Redaction and the duplicate verdict -----

  /** The field-by-field comparison is equality of the fingerprinted fields. */
  lemma FieldsEqualIsEquality(e: RelayEvent, input: EventInput, postedAt: int, reliable: bool)
    ensures FieldsEqual(e, input, postedAt, reliable)
       <==> StoredFields(e) == InputFields(input, if reliable then postedAt else e.postedAt)
  {
  }

  /** Redacting a row that had no hash changes no same/conflict verdict, for reliable and
      unreliable posting times alike. */
  lemma RedactionKeepsLegacyVerdict(e: RelayEvent, input: EventInput, postedAt: int, reliable: bool)
    requires e.hash == NoHash
    requires Storable(StoredFields(e)) && Storable(InputFields(input, if reliable then postedAt else e.postedAt))
    ensures SameEvent(Redacted(e, e), input, postedAt, reliable) <==> SameEvent(e, input, postedAt, reliable)
  {
    FieldsEqualIsEquality(e, input, postedAt, reliable);
    var wanted := InputFields(input, if reliable then postedAt else e.postedAt);
    if Encode(StoredFields(e)) == Encode(wanted) {
      EncodeIsInjective(StoredFields(e), wanted);
    }
  }

  /** Redaction changes the verdict on a re-sent event exactly when the row carried a hash of another
      raw body and either the fields agreed before, or the re-sent event has only blank text and
      otherwise agrees. So a row that had no hash, or a fingerprint, keeps every verdict. */
  lemma RedactionChangesVerdictIff(e: RelayEvent, input: EventInput, postedAt: int, reliable: bool)
    requires HasBody(e)
    requires e.hash == NoHash ==>
      Storable(StoredFields(e)) && Storable(InputFields(input, if reliable then postedAt else e.postedAt))
    ensures SameEvent(Redacted(e, e), input, postedAt, reliable) != SameEvent(e, input, postedAt, reliable)
       <==> && e.hash.RawHash? && e.hash.raw != input.raw
            && (FieldsEqual(e, input, postedAt, reliable)
                || FieldsEqual(e.(title := None, text := None, bigText := None), input, postedAt, reliable))
  {
    if e.hash == NoHash {
      RedactionKeepsLegacyVerdict(e, input, postedAt, reliable);
    }
    hide Encode, Storable;
  }

  /** For one: the text "hi" stored from body "a" and re-sent in body "b" is a duplicate before the
      redaction and a conflict after it. */
  lemma RedactionTurnsDuplicateIntoConflict(e: RelayEvent, input: EventInput)
    requires e == RelayEvent(1, "s", "p", 7, 7, None, None, Some("hi"), None, RawHash("a"), EventIgnored)
    requires input == EventInput("s", "p", 7, "", "hi", "", 0, "b")
    ensures SameEvent(e, input, 7, true) && !SameEvent(Redacted(e, e), input, 7, true)
  {
    TightIsTrimmed("hi");
    TrimOfSpace("");
    hide Trim;
  }

  /** The row a redaction read before its transaction may be stale, but whenever the guarded
      UPDATE still applies it is current, so the stale read has the effect of a fresh one. */
  lemma {:induction false} StaleSnapshotIsHarmless(w: World, steps: seq<RelayStep>, event: Id, before: int)
    requires RelayInv(w) && event in w.events
    ensures var later := RunAll(w, steps);
      && event in later.events
      && RedactOne(later, event, w.events[event], before) == RedactOne(later, event, later.events[event], before)
  {
    RunEvolves(w, steps);
    hide RelayInv;
  }

  // ----- The payment tables under the relay -----

  /** The payment-side steps one step of the relay world performs. */
  ghost function LedgerSteps(w: World, step: RelayStep): seq<Step> {
    match step
    case Process(event, device, epoch, o, active, receivedAt, now, ids) =>
      if ApplyTx(w, event, device, epoch, o, active, receivedAt, now, ids).Ok?
        && ObservationOf(w.db.observations, event).None?
      then [Settle(event, o, active, receivedAt, now, ids)] else []
    case Merchant(s) => if s.Settle? then [] else [s]
    case _ => []
  }

  ghost function Project(w: World, steps: seq<RelayStep>): seq<Step>
    decreases |steps|
  {
    if steps == [] then [] else LedgerSteps(w, steps[0]) + Project(Next(w, steps[0]), steps[1..])
  }

  lemma StepProjects(w: World, step: RelayStep)
    ensures Next(w, step).db == Run(w.db, LedgerSteps(w, step))
  {
    match step
    case Redact(snapshots, before) => RedactKeepsTables(w, snapshots, before);
    case Process(event, device, epoch, o, active, receivedAt, now, ids) =>
      hide SettleTx;
      var s := Settle(event, o, active, receivedAt, now, ids);
      assert Run(w.db, [s]) == Run(Apply(w.db, s), []);
    case Merchant(s) =>
      hide Apply;
      assert Run(w.db, [s]) == Run(Apply(w.db, s), []);
    case _ =>
  }

  lemma {:induction false} RedactKeepsTables(w: World, snapshots: seq<(Id, RelayEvent)>, before: int)
    ensures RedactTx(w, snapshots, before).db == w.db
    decreases |snapshots|
  {
    if snapshots != [] {
      RedactKeepsTables(RedactOne(w, snapshots[0].0, snapshots[0].1, before), snapshots[1..], before);
    }
  }

  lemma {:induction false} RunSplits(db: Tables, a: seq<Step>, b: seq<Step>)
    ensures Run(db, a + b) == Run(Run(db, a), b)
    decreases |a|
  {
    if a == [] {
      assert a + b == b;
    } else {
      assert (a + b)[0] == a[0] && (a + b)[1..] == a[1..] + b;
      RunSplits(Apply(db, a[0]), a[1..], b);
    }
  }

  /** Every relay run is, on the payment tables, a run of the payment service. */
  lemma {:induction false} RunProjects(w: World, steps: seq<RelayStep>)
    ensures RunAll(w, steps).db == Run(w.db, Project(w, steps))
    decreases |steps|
  {
    if steps != [] {
      StepProjects(w, steps[0]);
      RunSplits(w.db, LedgerSteps(w, steps[0]), Project(Next(w, steps[0]), steps[1..]));
      hide Next, LedgerSteps;
      RunProjects(Next(w, steps[0]), steps[1..]);
    }
  }

  /** So everything proved of payment tables that a run led to holds under any interleaving of relay
      workers whose creates do not run backwards in time, from any world. */
  lemma {:induction false} RelayWorldsAreReachable(w: World, steps: seq<RelayStep>, start: int)
    requires Startable(w.db, start) && ClockForward(start, Project(w, steps))
    ensures ReachableFrom(w.db, RunAll(w, steps).db, LastClock(start, Project(w, steps)))
  {
    hide Startable, ClockForward, LastClock, Project, Run;
    RunProjects(w, steps);
  }

  lemma {:induction false} BlankWorldsAreReachable(steps: seq<RelayStep>, start: int)
    requires ClockForward(start, Project(BLANK, steps))
    ensures Reachable(RunAll(BLANK, steps).db, LastClock(start, Project(BLANK, steps)))
  {
    RunProjects(BLANK, steps);
  }
}
