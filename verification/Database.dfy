/** Identifiers and idempotency keys, shared by the API and the provider. */
module Ids {
  type BookingId = nat
  type ChargeId = nat
  type RefundId = nat

  /** `charge:<booking id>` and `refund:<charge id>`: derived, never random. */
  datatype Key = ChargeKey(bookingId: BookingId) | RefundKey(chargeId: ChargeId)
}

/**
 * The rows the API stores. `Api` is a snapshot of every table; the class `Db`
 * is the database handle that services receive and mutate in place.
 * Rows are never deleted, so a booking's id is its position in the table.
 */
module Database {
  import opened Wrappers
  import opened RefundPolicy
  import opened Ids

  datatype BookingStatus =
    DRAFT | HELD | PENDING_PAYMENT | CONFIRMED | COMPLETED | EXPIRED | FAILED | CANCELLED | REFUNDED

  /** The tiers frozen onto a booking at the instant it confirms. */
  datatype Snapshot = Snapshot(tiers: seq<Tier>, policyId: nat, snapshotAt: int)

  datatype Booking = Booking(
    venueId: nat, roomId: nat, userId: nat, startsAt: int, endsAt: int,
    status: BookingStatus, expiresAt: Option<int>, rearmCount: nat,
    policySnapshot: Option<Snapshot>, totalMinor: nat, items: seq<LineItem>, createdAt: int, updatedAt: int)

  datatype Actor = System | Paygate | User(id: nat)

  datatype Reason =
    | HoldCreated | HoldRearmed
    | HoldExpiredInTransaction | HoldExpiredSweeper | HoldExpiredOnPay | HoldExpiredOnCheckout
    | PaymentInitiated | PaymentCaptured | PaymentArrivedLate | PaymentDeclined
    | RefundInitiatedUnconfirmable | RefundInitiatedCancellation | RefundSettled | RefundSettledTerminal
    | Requested(text: string)

  datatype AuditRow = AuditRow(
    bookingId: BookingId, actor: Actor, fromState: BookingStatus, toState: BookingStatus, reason: Reason)

  datatype PaymentStatus = PENDING | SUCCEEDED | FAILED | REFUNDED

  datatype FailureReason = ProviderDeclined | RefundRejected | UnknownToProvider

  datatype Payment = Payment(
    bookingId: BookingId, chargeId: Option<ChargeId>, amountMinor: nat, status: PaymentStatus,
    refundId: Option<RefundId>, refundKey: Option<Key>, refundedMinor: int,
    failureReason: Option<FailureReason>, createdAt: int, updatedAt: int)

  datatype EventKind = ChargeSucceeded | ChargeFailed | RefundSucceeded

  /** The UNIQUE (charge_id, event) pair that gates an event's effect. */
  datatype EventKey = EventKey(chargeId: ChargeId, event: EventKind)

  /** What a body's `event` field holds: absent, a name nobody handles, or one of the three. */
  datatype EventField = NoEvent | OtherEvent | Known(kind: EventKind)

  /** `reference` as a string: the uuid of some booking, or anything else. */
  datatype Reference = BookingRef(id: BookingId) | Opaque

  datatype Body =
    | Unparseable
    | Fields(chargeId: Option<ChargeId>, reference: Option<Reference>, event: EventField,
             amountMinor: Option<int>, refundId: Option<RefundId>)

  datatype DeliveryError = InvalidSignature | UnparseableBody | UnsupportedEvent | UnknownCharge | DuplicateEffect

  datatype Delivery = Delivery(
    deliveryId: nat, chargeId: Option<ChargeId>, reference: Option<Reference>, event: EventField,
    signatureValid: bool, body: Body, error: Option<DeliveryError>, processedAt: Option<int>, receivedAt: int)

  /** Policies are append-only; a later row supersedes an earlier one. */
  datatype Policy = Policy(venueId: Option<nat>, tiers: seq<Tier>)

  datatype Api = Api(
    bookings: seq<Booking>, audit: seq<AuditRow>, payments: map<Key, Payment>,
    events: map<EventKey, int>, deliveries: seq<Delivery>, policies: seq<Policy>)

  /** Why a request is refused; the transaction around a refusal rolls back. */
  datatype Refusal =
    | NotFound | Unprocessable | HoldExpired | SlotTaken | TooManyRearms | LifetimeSpent | NoPolicy
    | IllegalTransition(from: BookingStatus, to: BookingStatus)
    | UnexpectedState(current: BookingStatus)
    | UnknownEquipment(ids: set<nat>) | ForeignEquipment(ids: set<nat>)
    | Capacity(shortfalls: seq<Shortfall>)

  datatype Shortfall = Shortfall(equipmentTypeId: nat, requested: nat, peakInUse: int, ceiling: int, shortBy: int)

  function ErrorOf<T>(r: Result<T, Refusal>): Option<Refusal> {
    match r case Ok(_) => None case Err(e) => Some(e)
  }

  /** The state a transaction leaves: its result, or what was there before. */
  function Committed(s: Api, r: Result<Api, Refusal>): Api {
    match r case Ok(after) => after case Err(_) => s
  }

  class Db {
    var bookings: seq<Booking>
    var audit: seq<AuditRow>
    var payments: map<Key, Payment>
    var events: map<EventKey, int>
    var deliveries: seq<Delivery>
    var policies: seq<Policy>

    constructor ()
      ensures State() == Api([], [], map[], map[], [], [])
    {
      bookings, audit, payments, events, deliveries, policies := [], [], map[], map[], [], [];
    }

    function State(): Api
      reads this
    {
      Api(bookings, audit, payments, events, deliveries, policies)
    }

    /** ROLLBACK: put back what the transaction started from. */
    method Rollback(before: Api)
      modifies this
      ensures State() == before
    {
      bookings, audit, payments := before.bookings, before.audit, before.payments;
      events, deliveries, policies := before.events, before.deliveries, before.policies;
    }
  }
}
