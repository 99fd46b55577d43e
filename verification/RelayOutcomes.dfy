/** What each relay transaction answers and leaves, in plain numbers and words: an account that shares with
    the transactions only the rows, the reading of texts and the matcher's own outcome. */
module RelayOutcomes {
  import opened Common
  import opened Domain
  import opened Ledger
  import opened PaymentOutcomes
  import opened Fingerprint
  import opened Relay
  import opened RelayBatch
  import opened RelayService
  import opened RelayTheorems

  // ----- Pairing -----

  /** A token of at least 22 bytes that is not in use makes a session of two minutes, unless another
      lifetime is given. */
  lemma PairingIsOffered(w: World, token: string, now: int, ttl: int)
    ensures var r := CreatePairingTx(w, token, now, ttl);
      && (r == Err(TokenTooShort) <==> |Utf8(Trim(token))| < 22)
      && (r.Ok? <==> |Utf8(Trim(token))| >= 22 && token !in w.sessions)
      && (r.Ok? ==>
            r.value == w.(sessions := w.sessions[token := Session(now, now + if ttl > 0 then ttl else 120000, None)]))
  {
    ByteLengthIsUtf8Length(Trim(token));
    hide Trim, ByteLength, Utf8;
  }

  /** A device is paired under a token that exists, was not used and has not expired, at a reading not before
      the session. It is enabled, keeps when it was last seen, and its epoch is the reading, or one more
      than the epoch it had when that is not behind the reading; the token is used up. */
  lemma PairingAnswers(w: World, device: Id, token: string, now: int)
    ensures var r := PairTx(w, device, token, now);
      && (r == Err(TokenInvalid) <==> token !in w.sessions)
      && (r == Err(TokenUsed) <==> token in w.sessions && w.sessions[token].consumedAt != None)
      && (r == Err(TokenExpired)
          <==> token in w.sessions && w.sessions[token].consumedAt == None && w.sessions[token].expiresAt <= now)
      && (r.Ok? <==>
            && token in w.sessions && w.sessions[token].consumedAt == None
            && w.sessions[token].createdAt <= now < w.sessions[token].expiresAt
            && !(device in w.devices && now <= w.devices[device].epoch == 9223372036854775807))
      && (r.Ok? ==>
            && r.value.db == w.db && r.value.events == w.events
            && r.value.sessions == w.sessions[token := w.sessions[token].(consumedAt := Some(now))]
            && device in r.value.devices && r.value.devices == w.devices[device := r.value.devices[device]]
            && var after := r.value.devices[device];
            && after.enabled && after.epochRequired
            && (device !in w.devices ==> after.epoch == now && after.lastSeenAt == None)
            && (device in w.devices ==>
                  && after.lastSeenAt == w.devices[device].lastSeenAt
                  && after.epoch == if w.devices[device].epoch < now then now else w.devices[device].epoch + 1))
  {
  }

  /** Revoking disables an enabled device, and is refused for any other. */
  lemma RevocationAnswers(w: World, device: Id)
    ensures RevokeTx(w, device)
         == if device in w.devices && w.devices[device].enabled
            then Ok(w.(devices := w.devices[device := w.devices[device].(enabled := false)])) else Err(InvalidDevice)
  {
  }

  // ----- What a request may carry -----

  predicate HexDigit(c: char) {
    '0' <= c <= '9' || 'a' <= c <= 'f'
  }

  /** One event is valid in schema 1 with a SHA-256 id in hex, an app of 1 to 255 bytes other than the two
      mail and message apps, 1 to 32768 bytes of text, and a hint that is 0 or a positive amount with
      paise; it is normalized to the lower-case id and the app without white space. */
  lemma EventIsValidIff(schemaVersion: int, input: EventInput)
    ensures var id, app := ToLower(Trim(input.eventId)), Trim(input.package);
      && (ValidateEvent(schemaVersion, input).Ok?
          <==> && schemaVersion == 1 && |id| == 64 && (forall i :: 0 <= i < 64 ==> HexDigit(id[i]))
               && 1 <= |Utf8(app)| <= 255
               && ToLower(app) != "com.google.android.apps.messaging" && ToLower(app) != "com.google.android.gm"
               && 1 <= |Utf8(input.title)| + |Utf8(input.text)| + |Utf8(input.bigText)| <= 32768
               && (input.hint == 0 || (input.hint > 0 && input.hint % 100 != 0)))
      && (ValidateEvent(schemaVersion, input).Ok? ==>
            ValidateEvent(schemaVersion, input).value == input.(eventId := id, package := app))
      && (ValidateEvent(schemaVersion, input).Err? ==> ValidateEvent(schemaVersion, input).error == InvalidEvent)
  {
    LowerCaseOf(Trim(input.eventId));
    ByteLengthIsUtf8Length(Trim(input.package));
    ByteLengthIsUtf8Length(input.title);
    ByteLengthIsUtf8Length(input.text);
    ByteLengthIsUtf8Length(input.bigText);
    TrimTwice(input.package);
    assert ByteLength(Trim(input.package)) == 0 <==> Trim(input.package) == "";
    hide Trim, ToLower, ByteLength, Utf8;
  }

  /** A batch is ingested when it has 1 to 50 events and all are valid. */
  lemma BatchIsValidIff(schemaVersion: int, submitted: seq<EventInput>)
    ensures ValidBatch(schemaVersion, submitted)
       <==> 1 <= |submitted| <= 50 && forall input :: input in submitted ==> ValidateEvent(schemaVersion, input).Ok?
  {
    hide ValidateEvent;
  }

  // ----- Accepting -----

  /** A posting time is believed from 2020 on and up to five minutes after the reading. */
  predicate Believed(ms: int, now: int) {
    1577836800000 <= ms <= now + 300000
  }

  /** Blank stands for nothing, and other text is kept without surrounding white space. */
  predicate Keeps(stored: Option<string>, submitted: string) {
    stored == TextOf(submitted)
  }

  function TextOf(s: string): Option<string> {
    if Trim(s) == "" then None else Some(Trim(s))
  }

  predicate KeepsAmount(stored: Option<int>, submitted: int) {
    stored == if submitted == 0 then None else Some(submitted)
  }

  /** The row has the data of the input: app, hint and texts, and the posting time if it is believed. */
  predicate HasDataOf(e: RelayEvent, input: EventInput, now: int) {
    && e.package == input.package && (Believed(input.postedAtMs, now) ==> e.postedAt == input.postedAtMs)
    && KeepsAmount(e.hint, input.hint) && Keeps(e.title, input.title) && Keeps(e.text, input.text)
    && Keeps(e.bigText, input.bigText)
  }

  /** The device is enabled, under this epoch. */
  predicate MaySend(w: World, device: Id, epoch: int) {
    device in w.devices && w.devices[device].enabled && w.devices[device].epoch == epoch
  }

  predicate IsFrom(w: World, id: Id, device: Id, source: string) {
    id in w.events && w.events[id].device == device && w.events[id].source == source
  }

  /** A sent-again event is one with data if its row was stored with the hash of the same body, or has its
      data; of a redacted row that had no hash, if its fingerprint is that of the data. */
  predicate SentAgain(e: RelayEvent, input: EventInput, now: int) {
    match e.hash
    case RawHash(raw) => raw == input.raw || HasDataOf(e, input, now)
    case NoHash => HasDataOf(e, input, now)
    case LegacyHash(digested) =>
      var postedAt := if Believed(input.postedAtMs, now) then input.postedAtMs else e.postedAt;
      digested == Encode(Fields(input.package, postedAt, if input.hint == 0 then None else Some(input.hint),
                                TextOf(input.title), TextOf(input.text), TextOf(input.bigText)))
  }

  lemma SameEventIff(e: RelayEvent, input: EventInput, now: int)
    ensures SameAt(e, input, now) <==> SentAgain(e, input, now)
  {
    hide Trim, Encode;
  }

  /** An event the device sent before is answered as a duplicate or as a conflict, and not stored again. */
  lemma KnownEventAnswers(w: World, device: Id, epoch: int, input: EventInput, now: int, newId: Id, id: Id)
    requires SourcesUnique(w.events) && IsFrom(w, id, device, input.eventId)
    ensures AcceptTx(w, device, epoch, input, now, newId)
         == if !MaySend(w, device, epoch) then Err(UnknownDevice)
            else if SentAgain(w.events[id], input, now)
            then Ok(Accepted(SeenAt(w, device, now), id, true, w.events[id].status == Received))
            else Err(EventIdConflict)
  {
    OnlyEventOf(w, device, input.eventId, id);
    SameEventIff(w.events[id], input, now);
    hide SameEvent, SentAgain, SourcesUnique;
  }

  ghost predicate IsNew(w: World, device: Id, source: string) {
    forall id :: !IsFrom(w, id, device, source)
  }

  /** A new one of a device that may send is stored, as received, or as ignored when it was posted before
      the enrollment. What is accepted says when the device was last seen. */
  lemma NewEventAnswers(w: World, device: Id, epoch: int, input: EventInput, now: int, newId: Id)
    requires IsNew(w, device, input.eventId)
    ensures var r := AcceptTx(w, device, epoch, input, now, newId);
      && (!MaySend(w, device, epoch) ==> r == Err(UnknownDevice))
      && (MaySend(w, device, epoch) && newId in w.events ==> r == Err(Storage))
      && (MaySend(w, device, epoch) && newId !in w.events ==>
            && r.Ok? && r.value.event == newId && !r.value.duplicate && newId in r.value.world.events
            && var e := r.value.world.events[newId];
            && r.value.world == SeenAt(w, device, now).(events := w.events[newId := e])
            && IsNewEvent(e, device, epoch, input, now) && (r.value.pending <==> e.status == Received))
  {
    hide Trim;
    forall id ensures !IsEventOf(w, id, device, input.eventId) {
      assert !IsFrom(w, id, device, input.eventId);
    }
    assert !Known(w, device, input.eventId);
    hide Known, IsNew;
  }

  function SeenAt(w: World, device: Id, now: int): World {
    if device in w.devices then w.(devices := w.devices[device := w.devices[device].(lastSeenAt := Some(now))]) else w
  }

  /** The row of a new event: an unbelieved posting time is replaced by the reading. */
  predicate IsNewEvent(e: RelayEvent, device: Id, epoch: int, input: EventInput, now: int) {
    && e.device == device && e.source == input.eventId && e.package == input.package && e.receivedAt == now
    && e.postedAt == (if Believed(input.postedAtMs, now) then input.postedAtMs else now)
    && KeepsAmount(e.hint, input.hint) && Keeps(e.title, input.title) && Keeps(e.text, input.text)
    && Keeps(e.bigText, input.bigText) && e.hash == RawHash(input.raw)
    && e.status == if Believed(input.postedAtMs, now) && input.postedAtMs < epoch then EventIgnored else Received
  }

  // ----- Processing -----

  /** The word stored for an outcome: corroborated evidence is stored as matched. */
  function StoredAs(outcome: MatchOutcome): EventStatus {
    if outcome == Unmatched then EventUnmatched else if outcome == Ambiguous then EventAmbiguous else EventMatched
  }

  /** An open event of a device that may send is settled by the matcher and decided in one transaction;
      Paytm evidence only from Paytm's business app. */
  lemma ProcessAnswers(w: World, event: Id, device: Id, epoch: int, o: Observation, active: Option<string>,
                       receivedAt: int, now: int, ids: RowIds)
    requires RelayInv(w) && ValidObservation(o)
    ensures var r := ApplyTx(w, event, device, epoch, o, active, receivedAt, now, ids);
      var open := event in w.events && w.events[event].status == Received && w.events[event].device == device
                  && MaySend(w, device, epoch);
      && (!open ==> r == Err(InPayments(RelayEventNotFound)))
      && (open && o.source == PaytmNotification && w.events[event].package != "com.paytm.business"
          ==> r == Err(InPayments(InvalidObservation)))
      && (open && (o.source == PaytmNotification ==> w.events[event].package == "com.paytm.business") ==>
            match SettleTx(w.db, event, o, active, receivedAt, now, ids)
            case Err(e) => r == Err(InPayments(e))
            case Ok(s) =>
              r == Ok(Applied(w.(db := s.db,
                                 events := w.events[event := w.events[event].(status := StoredAs(s.outcome))]),
                              s.outcome, s.payment, s.transitioned)))
  {
    if event in w.events && w.events[event].status == Received {
      OpenMeansUnobserved(w, event);
      ObservationOfFinds(w.db.observations, event);
    }
    hide SettleTx, RelayInv, ObservationOf, ValidObservation;
  }

  /** Processing unusable money is refused. */
  lemma UnusableIsRefused(w: World, event: Id, device: Id, epoch: int, o: Observation, active: Option<string>,
                          receivedAt: int, now: int, ids: RowIds)
    requires !ValidObservation(o)
    ensures ApplyTx(w, event, device, epoch, o, active, receivedAt, now, ids) == Err(InPayments(InvalidObservation))
  {
  }

  // ----- Ingesting a new event -----

  /** What the parser makes of a new event is used: it was posted at a believed time, not before the
      enrollment, and what it reports occurred not before that either, and at most two minutes ahead. */
  predicate Timely(input: EventInput, epoch: int, now: int, o: Observation) {
    Believed(input.postedAtMs, now) && epoch <= input.postedAtMs && epoch <= o.occurredAt <= now + 120000
  }

  /** A device that may send, an event of it that is not stored yet, and an id for it; one reading of the
      relay clock. */
  ghost predicate Arrives(w: World, env: Env, item: Item) {
    && RelayInv(w) && MaySend(w, env.device, env.epoch) && IsNew(w, env.device, item.input.eventId)
    && item.draw.newId !in w.events && item.draw.acceptedAt == item.draw.processedAt
  }

  /** The new event is stored with this status, and the payments are these. */
  ghost predicate EndsAs(w: World, env: Env, item: Item, next: World, status: EventStatus, db: Tables) {
    && item.draw.newId in next.events && next.events[item.draw.newId].status == status
    && next == SeenAt(w, env.device, item.draw.acceptedAt).(
                 db := db, events := w.events[item.draw.newId := next.events[item.draw.newId]])
  }

  /** Paytm evidence from another app than Paytm's business app. */
  predicate WrongApp(input: EventInput, o: Observation) {
    o.source == PaytmNotification && input.package != "com.paytm.business"
  }

  /** A new event that reports one payment ends in the matcher's own outcome when it is timely; what the
      matcher refuses, and Paytm evidence from a wrong app, leaves it open and is answered as an error.
      Every other one ends as ignored, without an observation. */
  lemma NewEventIsProcessedIff(w: World, env: Env, parse: Parser, item: Item, o: Observation)
    requires Arrives(w, env, item) && parse(item.input) == Parsed(o)
    ensures var (next, failed) := IngestTx(w, env, parse, item);
      var d := item.draw;
      if !Timely(item.input, env.epoch, d.acceptedAt, o)
      then failed == None && EndsAs(w, env, item, next, EventIgnored, w.db)
      else if WrongApp(item.input, o)
      then failed == Some(InPayments(InvalidObservation)) && EndsAs(w, env, item, next, Received, w.db)
      else
        match SettleTx(w.db, d.newId, o, d.active, d.acceptedAt, d.paymentNow, d.rowIds)
        case Ok(s) => failed == None && EndsAs(w, env, item, next, StoredAs(s.outcome), s.db)
        case Err(e) => failed == Some(InPayments(e)) && EndsAs(w, env, item, next, Received, w.db)
  {
    var d := item.draw;
    var a := NewEventIsAccepted(w, env, item);
    IngestIs(w, env, parse, item, a);
    AcceptedEndsAs(w, env, item, a, w.db);
    hide IngestTx, Arrives, IsNewEvent, AcceptItem, ProcessPending, RelayInv, SettleTx, WrongApp, Believed, MaySend;
    if a.pending {
      OpenEventIsProcessed(a.world, d.newId, env, parse, item, o);
      match SettleTx(w.db, d.newId, o, d.active, d.acceptedAt, d.paymentNow, d.rowIds)
      case Ok(s) => AcceptedEndsAs(w, env, item, a, s.db);
      case Err(_) =>
    }
    hide EndsAs, WithStatus, SeenAt;
  }

  lemma AcceptedEndsAs(w: World, env: Env, item: Item, a: Accepted, db: Tables)
    requires a.event == item.draw.newId && a.event in a.world.events
    requires a.world
          == SeenAt(w, env.device, item.draw.acceptedAt).(events := w.events[a.event := a.world.events[a.event]])
    ensures a.world.db == w.db && EndsAs(w, env, item, a.world, a.world.events[a.event].status, w.db)
    ensures forall status {:trigger WithStatus(a.world, a.event, status, db)} ::
              EndsAs(w, env, item, WithStatus(a.world, a.event, status, db), status, db)
  {
    forall status {:trigger WithStatus(a.world, a.event, status, db)}
      ensures EndsAs(w, env, item, WithStatus(a.world, a.event, status, db), status, db)
    {
      var next := WithStatus(a.world, a.event, status, db);
      assert next.events == w.events[a.event := next.events[a.event]];
    }
  }

  lemma NewEventIsAccepted(w: World, env: Env, item: Item) returns (a: Accepted)
    requires Arrives(w, env, item)
    ensures AcceptItem(w, env, item) == Ok(a) && a.event == item.draw.newId && a.event in a.world.events
    ensures RelayInv(a.world) && MaySend(a.world, env.device, env.epoch)
    ensures var e := a.world.events[a.event];
      && a.world == SeenAt(w, env.device, item.draw.acceptedAt).(events := w.events[a.event := e])
      && e.device == env.device && e.package == item.input.package
      && e.status == (if Believed(item.input.postedAtMs, item.draw.acceptedAt) && item.input.postedAtMs < env.epoch
                      then EventIgnored else Received)
      && (a.pending <==> e.status == Received)
  {
    NewEventAnswers(w, env.device, env.epoch, item.input, item.draw.acceptedAt, item.draw.newId);
    hide AcceptTx;
    a := AcceptItem(w, env, item).value;
    AcceptEvolves(w, env.device, env.epoch, item.input, item.draw.acceptedAt, item.draw.newId, a);
    hide RelayInv, Keeps, KeepsAmount;
  }

  lemma IngestIs(w: World, env: Env, parse: Parser, item: Item, a: Accepted)
    requires AcceptItem(w, env, item) == Ok(a)
    ensures IngestTx(w, env, parse, item)
         == if a.pending then ProcessPending(a.world, a.event, env, parse, item) else (a.world, None)
  {
    hide AcceptItem, ProcessPending;
  }

  function WithStatus(w: World, event: Id, status: EventStatus, db: Tables): World {
    if event in w.events then w.(db := db, events := w.events[event := w.events[event].(status := status)]) else w
  }

  lemma OpenEventIsProcessed(w: World, event: Id, env: Env, parse: Parser, item: Item, o: Observation)
    requires RelayInv(w) && event in w.events && w.events[event].status == Received
    requires w.events[event].device == env.device && w.events[event].package == item.input.package
    requires MaySend(w, env.device, env.epoch) && parse(item.input) == Parsed(o)
    ensures var d := item.draw;
      ProcessPending(w, event, env, parse, item)
      == if !(Believed(item.input.postedAtMs, d.processedAt) && env.epoch <= o.occurredAt <= d.processedAt + 120000)
         then (WithStatus(w, event, EventIgnored, w.db), None)
         else if WrongApp(item.input, o) then (w, Some(InPayments(InvalidObservation)))
         else
           match SettleTx(w.db, event, o, d.active, d.processedAt, d.paymentNow, d.rowIds)
           case Ok(s) => (WithStatus(w, event, StoredAs(s.outcome), s.db), None)
           case Err(e) => (w, Some(InPayments(e)))
  {
    var d := item.draw;
    SettleRefuses(w.db, event, o, d.active, d.processedAt, d.paymentNow, d.rowIds);
    if ValidObservation(o) {
      ProcessAnswers(w, event, env.device, env.epoch, o, d.active, d.processedAt, d.paymentNow, d.rowIds);
    } else {
      UnusableIsRefused(w, event, env.device, env.epoch, o, d.active, d.processedAt, d.paymentNow, d.rowIds);
      InvalidIsRefused(w.db, event, o, d.active, d.processedAt, d.paymentNow, d.rowIds);
    }
    hide ApplyTx, SettleTx, RelayInv, ValidObservation, Observed, Unusable;
  }

  lemma InvalidIsRefused(db: Tables, event: Id, o: Observation, active: Option<string>, receivedAt: int, now: int,
                         ids: RowIds)
    requires !ValidObservation(o)
    ensures SettleTx(db, event, o, active, receivedAt, now, ids) == Err(InvalidObservation)
  {
  }

  /** A new event that reports no payment ends as ignored, and one that reports several as ambiguous if it
      was posted at a believed time not before the enrollment. */
  lemma NewEventWithoutPayment(w: World, env: Env, parse: Parser, item: Item)
    requires Arrives(w, env, item) && !parse(item.input).Parsed?
    ensures var (next, failed) := IngestTx(w, env, parse, item);
      var several := parse(item.input) == MultipleAmounts;
      var taken := Believed(item.input.postedAtMs, item.draw.acceptedAt) && env.epoch <= item.input.postedAtMs;
      failed == None && EndsAs(w, env, item, next, if several && taken then EventAmbiguous else EventIgnored, w.db)
  {
    var a := NewEventIsAccepted(w, env, item);
    hide IngestTx, Arrives, IsNewEvent, AcceptItem, RelayInv, ApplyTx;
    IngestIs(w, env, parse, item, a);
  }

  /** An event that was already decided is only acknowledged when it is sent again, a conflict changes nothing,
      and neither does a request of a device that may not send. */
  lemma KnownEventIsIngested(w: World, env: Env, parse: Parser, item: Item, id: Id)
    requires SourcesUnique(w.events) && IsFrom(w, id, env.device, item.input.eventId)
    ensures IngestTx(w, env, parse, item)
         == if !MaySend(w, env.device, env.epoch) then (w, Some(UnknownDevice))
            else if !SentAgain(w.events[id], item.input, item.draw.acceptedAt) then (w, Some(EventIdConflict))
            else if w.events[id].status != Received then (SeenAt(w, env.device, item.draw.acceptedAt), None)
            else ProcessPending(SeenAt(w, env.device, item.draw.acceptedAt), id, env, parse, item)
  {
    KnownEventAnswers(w, env.device, env.epoch, item.input, item.draw.acceptedAt, item.draw.newId, id);
    hide AcceptTx, ProcessPending, SentAgain;
  }

  /** A new event whose device was revoked or paired again after it was accepted ends as ignored. */
  lemma RevokedMeanwhileIsIgnored(w: World, event: Id, env: Env, parse: Parser, item: Item, o: Observation)
    requires event in w.events && w.events[event].status == Received && !MaySend(w, env.device, env.epoch)
    requires parse(item.input) == Parsed(o) && ValidObservation(o)
    ensures ProcessPending(w, event, env, parse, item) == (WithStatus(w, event, EventIgnored, w.db), None)
  {
    hide SettleTx, ObservationOf, ValidObservation;
  }

  // ----- Redaction -----

  /** One redaction step: a row received before the limit that still has a text loses all its texts, keeps
      its hash or takes the fingerprint of the row as it was read, and is ignored if it was still open. */
  lemma RedactionLeaves(w: World, event: Id, snapshot: RelayEvent, before: int)
    ensures RedactOne(w, event, snapshot, before)
         == if event in w.events && w.events[event].receivedAt < before
              && (w.events[event].title != None || w.events[event].text != None || w.events[event].bigText != None)
            then
              var e := w.events[event];
              w.(events := w.events[event := RelayEvent(
                e.device, e.source, e.package, e.postedAt, e.receivedAt, e.hint, None, None, None,
                if snapshot.hash != NoHash then snapshot.hash
                else LegacyHash(Encode(Fields(snapshot.package, snapshot.postedAt, snapshot.hint, snapshot.title,
                                              snapshot.text, snapshot.bigText))),
                if e.status == Received then EventIgnored else e.status)])
            else w
  {
    hide Encode;
  }

  /** A redaction takes bodies received before the limit, the oldest first and by id on ties; what it leaves is
      no older than anything it takes. */
  lemma OldestGoFirst(events: map<Id, RelayEvent>, before: int, limit: nat, ids: seq<Id>)
    requires OldestBodies(events, before, limit, ids)
    ensures forall k :: 0 <= k < |ids| ==>
              && ids[k] in events && events[ids[k]].receivedAt < before
              && (events[ids[k]].title != None || events[ids[k]].text != None || events[ids[k]].bigText != None)
    ensures forall j, k :: 0 <= j < k < |ids| ==>
              var a, b := events[ids[j]].receivedAt, events[ids[k]].receivedAt;
              a < b || (a == b && ids[j] < ids[k])
    ensures forall e :: e in events && e !in ids && events[e].receivedAt < before
                        && (events[e].title != None || events[e].text != None || events[e].bigText != None) ==>
              |ids| == limit && forall k :: 0 <= k < |ids| ==> events[ids[k]].receivedAt <= events[e].receivedAt
  {
    forall e | e in events
      ensures ExpiredBody(events[e], before)
         <==> && events[e].receivedAt < before
              && (events[e].title != None || events[e].text != None || events[e].bigText != None)
    {
    }
    hide ExpiredBody;
  }

  /** Up to 500 bodies are redacted at once, unless another limit up to 5000 is given. */
  lemma RedactionLimitIs(limit: int)
    ensures RedactionLimit(limit) == if 0 < limit <= 5000 then limit else 500
  {
  }
}
