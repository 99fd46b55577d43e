/** Relay ingestion: devices, pairing sessions and relay events beside the payment tables, and
    every transaction of the ingestion protocol as a function on that world. A signature that
    verified is represented by the (device, epoch) pair it yields. */
module Relay {
  import opened Common
  import opened Domain
  import opened Ledger
  import opened Fingerprint

  datatype Device = Device(enabled: bool, epoch: int, epochRequired: bool, lastSeenAt: Option<int>)

  datatype Session = Session(createdAt: int, expiresAt: int, consumedAt: Option<int>)

  datatype EventStatus = Received | EventIgnored | EventMatched | EventUnmatched | EventAmbiguous

  /** relay_events.payload_hash; SHA-256 is a free constructor over what it digests. */
  datatype PayloadHash = NoHash | RawHash(raw: string) | LegacyHash(fields: Bytes)

  datatype RelayEvent = RelayEvent(
    device: Id, source: string, package: string, postedAt: int, receivedAt: int, hint: Option<int>,
    title: Option<string>, text: Option<string>, bigText: Option<string>, hash: PayloadHash, status: EventStatus)

  datatype World = World(
    db: Tables, devices: map<Id, Device>, sessions: map<string, Session>, events: map<Id, RelayEvent>)

  datatype EventInput = EventInput(
    eventId: string, package: string, postedAtMs: int, title: string, text: string, bigText: string, hint: int,
    raw: string)

  datatype Refusal =
    | UnknownDevice | EventIdConflict | TokenTooShort | TokenInvalid | TokenUsed | TokenExpired | EpochExhausted
    | InvalidDevice | InvalidEvent | Storage | InPayments(failure: Failure)

  // ----- Pairing -----

  /** PairDevice: a token works once and before it expires; the enrollment epoch is the clock,
      or one past the previous epoch when the clock has not moved beyond it. */
  function PairTx(w: World, device: Id, token: string, now: int): Result<World, Refusal> {
    if token !in w.sessions then Err(TokenInvalid)
    else if w.sessions[token].consumedAt.Some? then Err(TokenUsed)
    else if now >= w.sessions[token].expiresAt then Err(TokenExpired)
    else if device in w.devices && w.devices[device].epoch >= now && w.devices[device].epoch == MAX_INT64
    then Err(EpochExhausted)
    else if now < w.sessions[token].createdAt then Err(Storage)
    else
      var epoch := if device in w.devices && w.devices[device].epoch >= now then w.devices[device].epoch + 1 else now;
      var seen := if device in w.devices then w.devices[device].lastSeenAt else None;
      Ok(w.(devices := w.devices[device := Device(true, epoch, true, seen)],
            sessions := w.sessions[token := w.sessions[token].(consumedAt := Some(now))]))
  }

  const DEFAULT_PAIRING_TTL: int := 2 * 60 * 1000
  const MIN_TOKEN_BYTES: nat := 22

  function PairingTtl(ttl: int): int {
    if ttl <= 0 then DEFAULT_PAIRING_TTL else ttl
  }

  function CreatePairingTx(w: World, token: string, now: int, ttl: int): Result<World, Refusal> {
    if ByteLength(Trim(token)) < MIN_TOKEN_BYTES then Err(TokenTooShort)
    else if token in w.sessions then Err(Storage)
    else Ok(w.(sessions := w.sessions[token := Session(now, now + PairingTtl(ttl), None)]))
  }

  function RevokeTx(w: World, device: Id): Result<World, Refusal> {
    if device !in w.devices || !w.devices[device].enabled then Err(InvalidDevice)
    else Ok(w.(devices := w.devices[device := w.devices[device].(enabled := false)]))
  }

  /** The authorization both ingestion transactions repeat under the write lock. */
  predicate Authorized(w: World, device: Id, epoch: int) {
    device in w.devices && w.devices[device].enabled && w.devices[device].epoch == epoch
  }

  // ----- Accepting an event -----

  const YEAR_2020: int := 1577836800000
  const FUTURE_TOLERANCE: int := 5 * 60 * 1000

  /** sanitizePostedAt */
  function SanitizePostedAt(ms: int, now: int): (int, bool) {
    if ms <= 0 || ms < YEAR_2020 || ms > now + FUTURE_TOLERANCE then (now, false) else (ms, true)
  }

  function NullableText(s: string): Option<string> {
    if Trim(s) == "" then None else Some(Trim(s))
  }

  function NullableAmount(a: int): Option<int> {
    if a == 0 then None else Some(a)
  }

  /** nullableTextEqual and nullableAmountEqual, as written. */
  predicate NullableTextEqual(stored: Option<string>, wanted: string) {
    var trimmed := Trim(wanted);
    stored.Some? == (trimmed != "") && (stored.None? || stored.value == trimmed)
  }

  predicate NullableAmountEqual(stored: Option<int>, wanted: int) {
    stored.Some? == (wanted != 0) && (stored.None? || stored.value == wanted)
  }

  predicate FieldsEqual(e: RelayEvent, input: EventInput, postedAt: int, reliable: bool) {
    && e.package == input.package
    && (!reliable || e.postedAt == postedAt)
    && NullableAmountEqual(e.hint, input.hint)
    && NullableTextEqual(e.title, input.title)
    && NullableTextEqual(e.text, input.text)
    && NullableTextEqual(e.bigText, input.bigText)
  }

  function StoredFields(e: RelayEvent): Fields {
    Fields(e.package, e.postedAt, e.hint, e.title, e.text, e.bigText)
  }

  function InputFields(input: EventInput, postedAt: int): Fields {
    Fields(input.package, postedAt, NullableAmount(input.hint),
           NullableText(input.title), NullableText(input.text), NullableText(input.bigText))
  }

  /** The duplicate check: does a re-sent event carry the data of the stored one? */
  predicate SameEvent(e: RelayEvent, input: EventInput, postedAt: int, reliable: bool) {
    match e.hash
    case RawHash(raw) => raw == input.raw || FieldsEqual(e, input, postedAt, reliable)
    case LegacyHash(digested) => digested == Encode(InputFields(input, if reliable then postedAt else e.postedAt))
    case NoHash => FieldsEqual(e, input, postedAt, reliable)
  }

  predicate IsEventOf(w: World, id: Id, device: Id, source: string) {
    id in w.events && w.events[id].device == device && w.events[id].source == source
  }

  ghost predicate Known(w: World, device: Id, source: string) {
    exists id :: IsEventOf(w, id, device, source)
  }

  ghost function EventOf(w: World, device: Id, source: string): (id: Id)
    requires Known(w, device, source)
    ensures IsEventOf(w, id, device, source)
  {
    var id :| IsEventOf(w, id, device, source);
    id
  }

  /** What an accepted event leads to: its id, and whether it still has to be processed. */
  datatype Accepted = Accepted(world: World, event: Id, duplicate: bool, pending: bool)

  function Touch(w: World, device: Id, now: int): World
    requires device in w.devices
  {
    w.(devices := w.devices[device := w.devices[device].(lastSeenAt := Some(now))])
  }

  function NewEvent(device: Id, epoch: int, input: EventInput, now: int): RelayEvent {
    var (postedAt, reliable) := SanitizePostedAt(input.postedAtMs, now);
    RelayEvent(device, input.eventId, input.package, postedAt, now, NullableAmount(input.hint),
               NullableText(input.title), NullableText(input.text), NullableText(input.bigText), RawHash(input.raw),
               if reliable && postedAt < epoch then EventIgnored else Received)
  }

  ghost function AcceptTx(w: World, device: Id, epoch: int, input: EventInput, now: int, newId: Id)
    : Result<Accepted, Refusal>
  {
    if !Authorized(w, device, epoch) then Err(UnknownDevice)
    else
      var touched := Touch(w, device, now);
      if Known(w, device, input.eventId) then
        var id := EventOf(w, device, input.eventId);
        var (postedAt, reliable) := SanitizePostedAt(input.postedAtMs, now);
        if !SameEvent(w.events[id], input, postedAt, reliable) then Err(EventIdConflict)
        else Ok(Accepted(touched, id, true, w.events[id].status == Received))
      else if newId in w.events then Err(Storage)
      else
        var e := NewEvent(device, epoch, input, now);
        Ok(Accepted(touched.(events := touched.events[newId := e]), newId, false, e.status == Received))
  }

  // ----- Processing an event -----

  function StatusOf(outcome: MatchOutcome): EventStatus {
    match outcome
    case Matched => EventMatched
    case Corroborated => EventMatched
    case Unmatched => EventUnmatched
    case Ambiguous => EventAmbiguous
  }

  const PAYTM_PACKAGE: string := "com.paytm.business"

  datatype Applied = Applied(world: World, outcome: MatchOutcome, payment: Option<Id>, transitioned: bool)

  /** existingObservationResult: the observation an event already has. */
  function ObservationOf(observations: seq<ObservationRow>, event: Id): Option<ObservationRow> {
    if observations == [] then None
    else if observations[0].event == event then Some(observations[0])
    else ObservationOf(observations[1..], event)
  }

  /** ApplyObservationForRelay: the event must still be open, belong to the device, and the
      device be enabled under the epoch the request was verified with. */
  ghost function ApplyTx(w: World, event: Id, device: Id, epoch: int, o: Observation, active: Option<string>,
                         receivedAt: int, now: int, ids: RowIds): Result<Applied, Refusal>
  {
    if !ValidObservation(o) then Err(InPayments(InvalidObservation))
    else if event !in w.events || w.events[event].status != Received || w.events[event].device != device
      || !Authorized(w, device, epoch) then Err(InPayments(RelayEventNotFound))
    else if ObservationOf(w.db.observations, event).Some? then
      var row := ObservationOf(w.db.observations, event).value;
      Ok(Applied(w, row.outcome, row.payment, false))
    else if o.source == PaytmNotification && w.events[event].package != PAYTM_PACKAGE
    then Err(InPayments(InvalidObservation))
    else
      match SettleTx(w.db, event, o, active, receivedAt, now, ids)
      case Err(e) => Err(InPayments(e))
      case Ok(s) =>
        Ok(Applied(w.(db := s.db, events := w.events[event := w.events[event].(status := StatusOf(s.outcome))]),
                   s.outcome, s.payment, s.transitioned))
  }

  /** finishIgnored and finishAmbiguous: only an event still "received" moves. */
  function FinishTx(w: World, event: Id, status: EventStatus): World {
    if event in w.events && w.events[event].status == Received
    then w.(events := w.events[event := w.events[event].(status := status)])
    else w
  }

  // ----- Redaction -----

  predicate HasBody(e: RelayEvent) {
    e.title.Some? || e.text.Some? || e.bigText.Some?
  }

  function RedactedHash(snapshot: RelayEvent): PayloadHash {
    if snapshot.hash == NoHash then LegacyHash(Encode(StoredFields(snapshot))) else snapshot.hash
  }

  function Redacted(e: RelayEvent, snapshot: RelayEvent): RelayEvent {
    e.(title := None, text := None, bigText := None, hash := RedactedHash(snapshot),
       status := if e.status == Received then EventIgnored else e.status)
  }

  /** One guarded UPDATE of RedactRawEvents, from a row read before the transaction. */
  function RedactOne(w: World, event: Id, snapshot: RelayEvent, before: int): World {
    if event in w.events && w.events[event].receivedAt < before && HasBody(w.events[event])
    then w.(events := w.events[event := Redacted(w.events[event], snapshot)])
    else w
  }

  function RedactTx(w: World, snapshots: seq<(Id, RelayEvent)>, before: int): World
    decreases |snapshots|
  {
    if snapshots == [] then w
    else RedactTx(RedactOne(w, snapshots[0].0, snapshots[0].1, before), snapshots[1..], before)
  }

  // ----- Runs: any interleaving of any number of workers -----

  datatype RelayStep =
    | Pair(device: Id, token: string, now: int)
    | CreatePairing(token: string, now: int, ttl: int)
    | Revoke(device: Id)
    | Accept(device: Id, epoch: int, input: EventInput, now: int, newId: Id)
    | Process(event: Id, device: Id, epoch: int, observation: Observation, active: Option<string>, receivedAt: int,
              now: int, ids: RowIds)
    | FinishIgnored(event: Id)
    | FinishAmbiguous(event: Id)
    | Redact(snapshots: seq<(Id, RelayEvent)>, before: int)
    | Merchant(step: Step)  // Create, Cancel, ExpireDue and Edit

  ghost function Next(w: World, step: RelayStep): World {
    match step
    case Pair(device, token, now) =>
      var r := PairTx(w, device, token, now); if r.Ok? then r.value else w
    case CreatePairing(token, now, ttl) =>
      var r := CreatePairingTx(w, token, now, ttl); if r.Ok? then r.value else w
    case Revoke(device) =>
      var r := RevokeTx(w, device); if r.Ok? then r.value else w
    case Accept(device, epoch, input, now, newId) =>
      var r := AcceptTx(w, device, epoch, input, now, newId); if r.Ok? then r.value.world else w
    case Process(event, device, epoch, o, active, receivedAt, now, ids) =>
      var r := ApplyTx(w, event, device, epoch, o, active, receivedAt, now, ids); if r.Ok? then r.value.world else w
    case FinishIgnored(event) => FinishTx(w, event, EventIgnored)
    case FinishAmbiguous(event) => FinishTx(w, event, EventAmbiguous)
    case Redact(snapshots, before) => RedactTx(w, snapshots, before)
    case Merchant(s) => if s.Settle? then w else w.(db := Apply(w.db, s))
  }

  ghost function RunAll(w: World, steps: seq<RelayStep>): World
    decreases |steps|
  {
    if steps == [] then w else RunAll(Next(w, steps[0]), steps[1..])
  }

  const BLANK: World := World(EMPTY, map[], map[], map[])
}
