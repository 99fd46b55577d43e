/** The rows of PayGate's payment tables. Identifiers are natural numbers: the
    program draws them at random, so only equality and an arbitrary order matter.
    Instants are integer milliseconds, amounts integer paise. */
module Domain {
  import opened Common

  type Id = nat

  datatype Status = Pending | Paid | Expired | Cancelled

  /** Event names shared by payment_history.type and webhook_deliveries.event_type. */
  datatype EventKind = PaymentCreated | PaymentPaid | PaymentExpired | PaymentCancelled | PaymentUpdated

  datatype Actor = System | Admin

  /** The "status" member of changes_json, when the row has one. */
  datatype StatusChange = StatusChange(from: Status, to: Status)

  /** One payment_history row. onlyNote says that changes_json mentions nothing but internal_note. */
  datatype HistoryRow = HistoryRow(
    id: Id, payment: Id, kind: EventKind, actor: Actor, change: Option<StatusChange>, onlyNote: bool, at: int)

  /** One webhook_deliveries row as it is inserted; payload is the payment it describes. */
  datatype OutboxRow = OutboxRow(id: Id, kind: EventKind, payment: Id, payload: Payment, at: int)

  datatype Payment = Payment(
    name: string, externalId: string, metadata: string,
    requested: int, payable: int, adjustment: int,
    status: Status, profile: string, upiId: string, payee: string,
    createdAt: int, expiresAt: int, graceUntil: int, reuseAfter: int,
    paidAt: Option<int>, payerName: string, payerUpi: string, note: string)

  datatype Reservation = Reservation(
    profile: string, payable: int, reservedAt: int, reservedUntil: int,
    releasedAt: Option<int>, lastUsedAt: int)

  datatype Source = PaytmNotification | GenericNotification

  datatype MatchOutcome = Matched | Corroborated | Unmatched | Ambiguous

  datatype Observation = Observation(
    source: Source, profile: string, amount: int, payerName: string, payerUpi: string, occurredAt: int)

  /** One payment_observations row, identified by its unique relay event. */
  datatype ObservationRow = ObservationRow(
    event: Id, observation: Observation, receivedAt: int, payment: Option<Id>, outcome: MatchOutcome)

  /** Why a service call was refused; a refused call leaves every table as it was. */
  datatype Failure =
    | InvalidPaymentInput | NoActiveProfile | IdempotencyConflict | PaymentCapacity | BadRandomIndex
    | PaymentNotFound | PaymentTerminal | InvalidEdit | UnsafeReopen
    | InvalidObservation | RelayEventNotFound
    | StorageConstraint
}
