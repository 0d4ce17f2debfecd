/**
 * Payment integrity. The payment row and its derived key are committed before
 * the provider is called; inbound events take effect behind an insert into
 * `payment_events`; a capture against a lapsed hold is never confirmed.
 */
module PaymentsService {
  import opened Wrappers
  import opened RefundPolicy
  import opened Ids
  import opened Database
  import opened BookingStateMachine

  /** What the transactional half of an event decided must be sent to the provider. */
  datatype Instruction = Instruction(
    paymentKey: Key, chargeId: ChargeId, bookingId: BookingId, amountMinor: int, key: Key)

  datatype Effect = Effect(after: Api, instruction: Option<Instruction>)

  function Outcome(s: Api, r: Result<Effect, Refusal>): Api {
    match r case Ok(e) => e.after case Err(_) => s
  }

  function InstructionOf(r: Result<Effect, Refusal>): Option<Instruction> {
    match r case Ok(e) => e.instruction case Err(_) => None
  }

  function WithPayment(s: Api, key: Key, p: Payment): Api { s.(payments := s.payments[key := p]) }

  // --- Policies --------------------------------------------------------------

  /** The newest row among the first `n` for one venue, or for the platform. */
  function Newest(policies: seq<Policy>, venueId: Option<nat>, n: nat): Option<nat>
    requires n <= |policies|
    ensures Newest(policies, venueId, n).Some? ==> Newest(policies, venueId, n).value < n
  {
    if n == 0 then None
    else if policies[n - 1].venueId == venueId then Some(n - 1)
    else Newest(policies, venueId, n - 1)
  }

  /** The venue's newest policy, else the platform's; a malformed ladder is a refusal, not a fallback. */
  function ResolveSnapshot(s: Api, now: int, venueId: nat): (r: Option<Snapshot>)
    ensures r.Some? ==> ValidTiers(r.value.tiers)
  {
    var own := Newest(s.policies, Some(venueId), |s.policies|);
    var row := if own.Some? then own else Newest(s.policies, None, |s.policies|);
    if row.Some? && ValidTiers(s.policies[row.value].tiers)
    then Some(Snapshot(s.policies[row.value].tiers, row.value, now))
    else None
  }

  /** The latest row an owner has written: a venue, or the platform when there is none. */
  ghost predicate LatestRowOf(policies: seq<Policy>, owner: Option<nat>, i: nat) {
    && i < |policies| && policies[i].venueId == owner
    && forall j :: i < j < |policies| ==> policies[j].venueId != owner
  }

  /** The row in force for a venue: its own latest if it ever wrote one, else the platform's latest. */
  ghost predicate Governs(policies: seq<Policy>, venueId: nat, i: nat) {
    if exists j :: 0 <= j < |policies| && policies[j].venueId == Some(venueId)
    then LatestRowOf(policies, Some(venueId), i)
    else LatestRowOf(policies, None, i)
  }

  /** A snapshot taken at `now` of the row in force for a venue. */
  ghost predicate FrozenFrom(policies: seq<Policy>, venueId: nat, now: int, snapshot: Snapshot) {
    && Governs(policies, venueId, snapshot.policyId) && snapshot.policyId < |policies|
    && snapshot.tiers == policies[snapshot.policyId].tiers && ValidTiers(snapshot.tiers) && snapshot.snapshotAt == now
  }

  lemma {:induction false} NewestIsLatest(policies: seq<Policy>, owner: Option<nat>, n: nat)
    requires n <= |policies|
    ensures match Newest(policies, owner, n)
            case Some(i) => i < n && policies[i].venueId == owner && forall j :: i < j < n ==> policies[j].venueId != owner
            case None => forall j :: 0 <= j < n ==> policies[j].venueId != owner
  {
    if n > 0 && policies[n - 1].venueId != owner { NewestIsLatest(policies, owner, n - 1); }
  }

  /**
   * What a venue's confirmations freeze: its own latest policy, else the
   * platform's; nothing exactly when no row is in force or its ladder is malformed.
   */
  lemma SnapshotIsTheRowInForce(s: Api, now: int, venueId: nat)
    ensures match ResolveSnapshot(s, now, venueId)
            case Some(snapshot) => FrozenFrom(s.policies, venueId, now, snapshot)
            case None => forall i: nat :: Governs(s.policies, venueId, i) ==> i < |s.policies| && !ValidTiers(s.policies[i].tiers)
  {
    hide ValidTiers;
    NewestIsLatest(s.policies, Some(venueId), |s.policies|);
    NewestIsLatest(s.policies, None, |s.policies|);
    forall i: nat, j: nat, owner | LatestRowOf(s.policies, owner, i) && LatestRowOf(s.policies, owner, j) ensures i == j {}
  }

  // --- POST /bookings/:id/pay --------------------------------------------------

  datatype Prepared = Prepared(after: Api, alreadySettled: bool)

  function NewPayment(b: Booking, id: BookingId, now: int): Payment {
    Payment(id, None, b.totalMinor, PENDING, None, None, 0, None, now, now)
  }

  /** The transaction before the provider call: the row first, always. */
  function PayPrepare(s: Api, now: int, id: BookingId, userId: nat): Result<Prepared, Refusal> {
    var key := ChargeKey(id);
    if id >= |s.bookings| then Err(NotFound)
    else
      var b := s.bookings[id];
      if key in s.payments && s.payments[key].status != PENDING then Ok(Prepared(s, true))
      else if b.status == HELD && b.expiresAt.Some? && b.expiresAt.value <= now then Err(HoldExpired)
      else if b.status != HELD && b.status != PENDING_PAYMENT then Err(UnexpectedState(b.status))
      else
        var recorded := if key in s.payments then s else WithPayment(s, key, NewPayment(b, id, now));
        if b.status != HELD then Ok(Prepared(recorded, false))
        else match Transition(recorded, now, Change(id, PENDING_PAYMENT, User(userId), PaymentInitiated, Some({HELD}), NoPatch))
             case Ok(after) => Ok(Prepared(after, false))
             case Err(e) => Err(e)
  }

  /** `charge_id IS NULL` guards the write, and the column is UNIQUE. */
  function RecordChargeId(s: Api, now: int, key: Key, chargeId: ChargeId): Api {
    if key in s.payments && s.payments[key].chargeId.None? && !ChargeIdInUse(s.payments, chargeId)
    then WithPayment(s, key, s.payments[key].(chargeId := Some(chargeId), updatedAt := now))
    else s
  }

  predicate HasCharge(s: Api, key: Key, chargeId: ChargeId) {
    key in s.payments && s.payments[key].chargeId == Some(chargeId)
  }

  predicate ChargeIdInUse(payments: map<Key, Payment>, chargeId: ChargeId) {
    exists k :: k in payments && payments[k].chargeId == Some(chargeId)
  }

  // --- Inbound deliveries --------------------------------------------------------

  datatype IngestReply = Unauthorized | Accepted(row: Option<nat>) | Duplicate

  predicate DeliveryIdSeen(deliveries: seq<Delivery>, deliveryId: nat) {
    exists i :: 0 <= i < |deliveries| && deliveries[i].deliveryId == deliveryId
  }

  /** The row recorded for a delivery; rows that will never be processed are closed at once. */
  function DeliveryRow(now: int, deliveryId: nat, signatureValid: bool, body: Body): Delivery {
    if !signatureValid then
      Delivery(deliveryId, None, None, NoEvent, false, body, Some(InvalidSignature), Some(now), now)
    else
      match body
      case Unparseable =>
        Delivery(deliveryId, None, None, NoEvent, true, body, Some(UnparseableBody), Some(now), now)
      case Fields(chargeId, reference, event, _, _) =>
        Delivery(deliveryId, chargeId, reference, event, true, body,
                 if event.OtherEvent? then Some(UnsupportedEvent) else None,
                 if event.OtherEvent? then Some(now) else None, now)
  }

  function Ingest(s: Api, now: int, deliveryId: nat, signatureValid: bool, body: Body): Api {
    if DeliveryIdSeen(s.deliveries, deliveryId) then s
    else s.(deliveries := s.deliveries + [DeliveryRow(now, deliveryId, signatureValid, body)])
  }

  function FinishDelivery(s: Api, now: int, row: nat, error: Option<DeliveryError>): Api
    requires row < |s.deliveries|
  {
    s.(deliveries := s.deliveries[row := s.deliveries[row].(processedAt := Some(now), error := error)])
  }

  ghost function FindByChargeId(payments: map<Key, Payment>, chargeId: ChargeId): (k: Option<Key>)
    ensures k.Some? ==> k.value in payments && payments[k.value].chargeId == Some(chargeId)
    ensures k.None? ==> !ChargeIdInUse(payments, chargeId)
  {
    if ChargeIdInUse(payments, chargeId) then
      var k :| k in payments && payments[k].chargeId == Some(chargeId);
      Some(k)
    else None
  }

  /** The race branch: claim this booking's payment by the reference the provider echoes. */
  function AdoptedByReference(s: Api, now: int, reference: Option<Reference>, chargeId: ChargeId): (r: (Api, Option<Key>))
    ensures r.1.Some? ==> r.1.value in r.0.payments && r.0.payments[r.1.value].chargeId == Some(chargeId)
    ensures r.0 == s.(payments := r.0.payments)
  {
    if reference.None? || reference.value.Opaque? || ChargeKey(reference.value.id) !in s.payments
       || s.payments[ChargeKey(reference.value.id)].bookingId != reference.value.id then (s, None)
    else
      var key := ChargeKey(reference.value.id);
      var p := s.payments[key];
      if p.chargeId.None? then (WithPayment(s, key, p.(chargeId := Some(chargeId), updatedAt := now)), Some(key))
      else (s, if p.chargeId == Some(chargeId) then Some(key) else None)
  }

  /** The payment an event belongs to: by charge id, else adopted by reference. */
  ghost function Locate(s: Api, now: int, reference: Option<Reference>, chargeId: ChargeId): (r: (Api, Option<Key>))
    ensures r.1.Some? ==> r.1.value in r.0.payments && r.0.payments[r.1.value].chargeId == Some(chargeId)
    ensures r.0 == s.(payments := r.0.payments)
  {
    var found := FindByChargeId(s.payments, chargeId);
    if found.Some? then (s, found) else AdoptedByReference(s, now, reference, chargeId)
  }

  function SideEffectRow(b: Booking, id: BookingId, actor: Actor, reason: Reason): AuditRow {
    AuditRow(id, actor, b.status, b.status, reason)
  }

  function WithRefundKey(p: Payment, now: int, key: Key): Payment {
    if p.refundKey.None? then p.(refundKey := Some(key), updatedAt := now) else p
  }

  predicate Lapsed(b: Booking, now: int) { b.expiresAt.Some? && b.expiresAt.value <= now }

  /**
   * A capture either confirms a live hold and freezes its policy, or is refunded.
   * The audit row carries the status read before the booking was expired.
   */
  function OnChargeSucceeded(s: Api, now: int, key: Key, chargeId: ChargeId): Result<Effect, Refusal>
    requires key in s.payments
  {
    var p := s.payments[key].(status := SUCCEEDED, chargeId := Some(chargeId), updatedAt := now);
    var captured := WithPayment(s, key, p);
    if p.bookingId >= |s.bookings| then Err(NotFound)
    else
      var b := s.bookings[p.bookingId];
      if b.status == PENDING_PAYMENT && !Lapsed(b, now) then
        match ResolveSnapshot(s, now, b.venueId)
        case None => Err(NoPolicy)
        case Some(snapshot) =>
          match Transition(captured, now,
            Change(p.bookingId, CONFIRMED, Paygate, PaymentCaptured, Some({PENDING_PAYMENT}), Confirm(snapshot)))
          case Ok(after) => Ok(Effect(after, None))
          case Err(e) => Err(e)
      else
        var expired := if b.status == PENDING_PAYMENT
          then Transition(captured, now,
            Change(p.bookingId, EXPIRED, System, PaymentArrivedLate, Some({PENDING_PAYMENT}), NoPatch))
          else Ok(captured);
        match expired
        case Err(e) => Err(e)
        case Ok(closed) =>
          var keyed := WithPayment(closed, key, WithRefundKey(p, now, RefundKey(chargeId)));
          Ok(Effect(
            keyed.(audit := keyed.audit + [SideEffectRow(b, p.bookingId, System, RefundInitiatedUnconfirmable)]),
            Some(Instruction(key, chargeId, p.bookingId, p.amountMinor, RefundKey(chargeId)))))
  }

  function OnChargeFailed(s: Api, now: int, key: Key): Result<Effect, Refusal>
    requires key in s.payments
  {
    var p := s.payments[key].(status := PaymentStatus.FAILED, failureReason := Some(ProviderDeclined), updatedAt := now);
    var declined := WithPayment(s, key, p);
    if p.bookingId < |s.bookings| && s.bookings[p.bookingId].status == PENDING_PAYMENT then
      match Transition(declined, now,
        Change(p.bookingId, BookingStatus.FAILED, Paygate, PaymentDeclined, Some({PENDING_PAYMENT}), NoPatch))
      case Ok(after) => Ok(Effect(after, None))
      case Err(e) => Err(e)
    else Ok(Effect(declined, None))
  }

  function OnRefundSucceeded(s: Api, now: int, key: Key, refundId: Option<RefundId>, amount: Option<int>)
    : Result<Effect, Refusal>
    requires key in s.payments
  {
    var old_ := s.payments[key];
    var p := old_.(status := PaymentStatus.REFUNDED,
                   refundId := if refundId.Some? then refundId else old_.refundId,
                   refundedMinor := if amount.Some? then amount.value else old_.amountMinor, updatedAt := now);
    var returned := WithPayment(s, key, p);
    if p.bookingId >= |s.bookings| then Ok(Effect(returned, None))
    else
      var b := s.bookings[p.bookingId];
      if b.status == CANCELLED then
        match Transition(returned, now,
          Change(p.bookingId, BookingStatus.REFUNDED, Paygate, RefundSettled, Some({CANCELLED}), NoPatch))
        case Ok(after) => Ok(Effect(after, None))
        case Err(e) => Err(e)
      else
        Ok(Effect(returned.(audit := returned.audit + [SideEffectRow(b, p.bookingId, Paygate, RefundSettledTerminal)]), None))
  }

  function Handle(s: Api, now: int, key: Key, chargeId: ChargeId, event: EventKind,
                  refundId: Option<RefundId>, amount: Option<int>): Result<Effect, Refusal>
    requires key in s.payments
  {
    match event
    case ChargeSucceeded => OnChargeSucceeded(s, now, key, chargeId)
    case ChargeFailed => OnChargeFailed(s, now, key)
    case RefundSucceeded => OnRefundSucceeded(s, now, key, refundId, amount)
  }

  /** The gate: the effect runs only if the (charge, event) insert wins. */
  function Gated(s: Api, now: int, key: Key, chargeId: ChargeId, event: EventKind,
                 refundId: Option<RefundId>, amount: Option<int>): Result<Effect, Refusal>
    requires key in s.payments
  {
    Handle(s.(events := s.events[EventKey(chargeId, event) := now]), now, key, chargeId, event, refundId, amount)
  }

  /** One recorded delivery, applied in one transaction. Safe to call twice, from any replica. */
  ghost function ApplyDelivery(s: Api, now: int, row: nat): Result<Effect, Refusal> {
    if row >= |s.deliveries| || s.deliveries[row].processedAt.Some? then Ok(Effect(s, None))
    else
      match s.deliveries[row].body
      case Unparseable => Err(Unprocessable)
      case Fields(chargeId, reference, event, amount, refundId) =>
        if chargeId.None? || !event.Known? then Ok(Effect(FinishDelivery(s, now, row, Some(UnsupportedEvent)), None))
        else
          var (located, key) := Locate(s, now, reference, chargeId.value);
          if key.None? then
            Ok(Effect(s.(deliveries := s.deliveries[row := s.deliveries[row].(
                 chargeId := chargeId, reference := reference, error := Some(UnknownCharge))]), None))
          else if EventKey(chargeId.value, event.kind) in s.events then
            Ok(Effect(FinishDelivery(located, now, row, Some(DuplicateEffect)), None))
          else
            match Gated(located, now, key.value, chargeId.value, event.kind, refundId, amount)
            case Err(e) => Err(e)
            case Ok(Effect(after, instruction)) =>
              if row < |after.deliveries| then Ok(Effect(FinishDelivery(after, now, row, None), instruction))
              else Err(NotFound)
  }

  // --- Refunds --------------------------------------------------------------------

  ghost predicate Captured(p: Payment, id: BookingId) { p.bookingId == id && p.status == SUCCEEDED }

  ghost function FindCaptured(payments: map<Key, Payment>, id: BookingId): (k: Option<Key>)
    ensures k.Some? ==> k.value in payments && Captured(payments[k.value], id)
    ensures k.None? ==> forall x :: x in payments ==> !Captured(payments[x], id)
  {
    if exists k :: k in payments && Captured(payments[k], id) then
      var k :| k in payments && Captured(payments[k], id);
      Some(k)
    else None
  }

  function CancellationRefund(b: Booking, now: int): Option<Breakdown> {
    if b.policySnapshot.None? || b.endsAt < b.startsAt || !ValidTiers(b.policySnapshot.value.tiers) then None
    else ComputeRefund(SplitTotals(b.totalMinor, HalfHours(b.startsAt, b.endsAt), b.items),
                       b.policySnapshot.value.tiers, b.startsAt, now)
  }

  /** The money half of a cancellation, priced from the frozen snapshot and never from the live policy. */
  ghost function SettleCancellation(s: Api, now: int, id: BookingId): Effect {
    if id >= |s.bookings| then Effect(s, None)
    else
      match FindCaptured(s.payments, id)
      case None => Effect(s, None)
      case Some(key) =>
        var p := s.payments[key];
        if p.chargeId.None? || p.refundKey.Some? then Effect(s, None)
        else
          match CancellationRefund(s.bookings[id], now)
          case None => Effect(s, None)
          case Some(breakdown) => InitiateRefund(s, now, id, key, breakdown)
  }

  function InitiateRefund(s: Api, now: int, id: BookingId, key: Key, breakdown: Breakdown): Effect
    requires id < |s.bookings| && key in s.payments && s.payments[key].chargeId.Some?
  {
    var chargeId := s.payments[key].chargeId.value;
    var keyed := WithPayment(s, key, WithRefundKey(s.payments[key], now, RefundKey(chargeId)));
    Effect(keyed.(audit := keyed.audit + [SideEffectRow(s.bookings[id], id, System, RefundInitiatedCancellation)]),
           Some(Instruction(key, chargeId, id, breakdown.totalRefundMinor, RefundKey(chargeId))))
  }

  /** The provider accepted the refund: remember its id if none is known yet. */
  function RecordRefundId(s: Api, now: int, key: Key, refundId: RefundId): Api {
    if key in s.payments && s.payments[key].refundId.None?
    then WithPayment(s, key, s.payments[key].(refundId := Some(refundId), updatedAt := now))
    else s
  }

  function RecordFailure(s: Api, now: int, key: Key, reason: FailureReason): Api {
    if key in s.payments then WithPayment(s, key, s.payments[key].(failureReason := Some(reason), updatedAt := now)) else s
  }

  // --- Polling the provider -----------------------------------------------------------

  datatype ChargeAnswer = Missing | StillProcessing | Decided(succeeded: bool)

  /** The charge-side poll: the answer goes through the same gate a delivery would. */
  function PollCharge(s: Api, now: int, key: Key, chargeId: ChargeId, answer: ChargeAnswer): Result<Effect, Refusal> {
    match answer
    case Missing => Ok(Effect(RecordFailure(s, now, key, UnknownToProvider), None))
    case StillProcessing => Ok(Effect(s, None))
    case Decided(succeeded) =>
      var event := if succeeded then ChargeSucceeded else ChargeFailed;
      if EventKey(chargeId, event) in s.events || key !in s.payments then Ok(Effect(s, None))
      else Gated(s, now, key, chargeId, event, None, None)
  }

  /**
   * The refund-side poll. The client reads the refund's `id` field, which the
   * provider's answer does not have, so the id it passes on is always absent.
   */
  function PollRefund(s: Api, now: int, key: Key, chargeId: ChargeId, settledAmount: Option<int>): Result<Effect, Refusal> {
    if settledAmount.None? || EventKey(chargeId, RefundSucceeded) in s.events || key !in s.payments then Ok(Effect(s, None))
    else Gated(s, now, key, chargeId, RefundSucceeded, None, settledAmount)
  }
}
