/**
 * What paying, a delivery and a first capture each come to, for any tables: when
 * they succeed, and every row they leave.
 */
module PaymentTerms {
  import opened Wrappers
  import opened RefundPolicy
  import opened Ids
  import opened Database
  import opened BookingStateMachine
  import opened PaymentsService

  /** There is still time: no deadline, or one that is ahead. */
  predicate InTime(b: Booking, now: int) { b.expiresAt.Some? ==> now < b.expiresAt.value }

  // --- Paying ------------------------------------------------------------------------------------

  predicate AlreadyDecided(s: Api, id: BookingId) {
    ChargeKey(id) in s.payments && s.payments[ChargeKey(id)].status in {SUCCEEDED, PaymentStatus.FAILED, PaymentStatus.REFUNDED}
  }

  /**
   * A payment is prepared exactly for a decided payment, which is left alone,
   * for a hold whose time has not run out, and again for a pending payment. The
   * booking is then pending, under one payment row for its own total.
   */
  lemma PayIs(s: Api, now: int, id: BookingId, userId: nat)
    ensures var r := PayPrepare(s, now, id, userId);
            && (r.Ok? <==> id < |s.bookings| && (AlreadyDecided(s, id) || s.bookings[id].status == PENDING_PAYMENT
                                                 || (s.bookings[id].status == HELD && InTime(s.bookings[id], now))))
            && (r.Ok? && AlreadyDecided(s, id) ==> r.value == Prepared(s, true))
            && (r.Ok? && !AlreadyDecided(s, id) ==> !r.value.alreadySettled && PaymentIsOpen(s, r.value.after, now, id, userId))
  {
  }

  predicate PaymentIsOpen(s: Api, after: Api, now: int, id: BookingId, userId: nat)
    requires id < |s.bookings|
  {
    && after == s.(bookings := after.bookings, audit := after.audit, payments := after.payments)
    && (if ChargeKey(id) in s.payments then after.payments == s.payments
        else after.payments == s.payments[ChargeKey(id) :=
               Payment(id, None, s.bookings[id].totalMinor, PENDING, None, None, 0, None, now, now)])
    && (if s.bookings[id].status == PENDING_PAYMENT then after.bookings == s.bookings && after.audit == s.audit
        else after.bookings == s.bookings[id := s.bookings[id].(status := PENDING_PAYMENT, updatedAt := now)]
             && after.audit == s.audit + [AuditRow(id, User(userId), HELD, PENDING_PAYMENT, PaymentInitiated)])
  }

  // --- A delivery arrives -----------------------------------------------------------------------------

  /** Signed, readable, and about something this API handles or does not name. */
  predicate WorthApplying(signatureValid: bool, body: Body) { signatureValid && body.Fields? && !body.event.OtherEvent? }

  /**
   * A delivery seen before adds nothing. Any other adds one row, stamped now,
   * that waits to be applied exactly when it is worth applying, and otherwise is
   * closed at once under the first reason that holds.
   */
  lemma IngestIs(s: Api, now: int, deliveryId: nat, signatureValid: bool, body: Body)
    ensures var after := Ingest(s, now, deliveryId, signatureValid, body);
            var seen := exists i :: 0 <= i < |s.deliveries| && s.deliveries[i].deliveryId == deliveryId;
            && after == s.(deliveries := after.deliveries)
            && (seen ==> after == s)
            && (!seen ==> |after.deliveries| == |s.deliveries| + 1 && after.deliveries[..|s.deliveries|] == s.deliveries
                          && RowSays(after.deliveries[|s.deliveries|], now, deliveryId, signatureValid, body))
  {
    if !DeliveryIdSeen(s.deliveries, deliveryId) {
      assert (s.deliveries + [DeliveryRow(now, deliveryId, signatureValid, body)])[..|s.deliveries|] == s.deliveries;
    }
  }

  predicate RowSays(row: Delivery, now: int, deliveryId: nat, signatureValid: bool, body: Body) {
    && row.deliveryId == deliveryId && row.signatureValid == signatureValid && row.body == body && row.receivedAt == now
    && (row.processedAt == if WorthApplying(signatureValid, body) then None else Some(now))
    && row.error == (if !signatureValid then Some(InvalidSignature) else if body.Unparseable? then Some(UnparseableBody)
                     else if body.event.OtherEvent? then Some(UnsupportedEvent) else None)
    && (signatureValid && body.Fields? ==> row.chargeId == body.chargeId && row.reference == body.reference && row.event == body.event)
    && (!signatureValid || body.Unparseable? ==> row.chargeId.None? && row.reference.None? && row.event.NoEvent?)
  }

  // --- A first capture -----------------------------------------------------------------------------------

  /** There is a policy to freeze for a venue exactly when the snapshot it would give exists. */
  lemma SnapshotExistsIff(s: Api, now: int, venueId: nat)
    ensures ResolveSnapshot(s, now, venueId).Some? <==> exists snapshot :: FrozenFrom(s.policies, venueId, now, snapshot)
    ensures ResolveSnapshot(s, now, venueId).Some?
            ==> FrozenFrom(s.policies, venueId, now, ResolveSnapshot(s, now, venueId).value)
  {
    hide ResolveSnapshot, ValidTiers;
    SnapshotIsTheRowInForce(s, now, venueId);
    if ResolveSnapshot(s, now, venueId).Some? {
      assert FrozenFrom(s.policies, venueId, now, ResolveSnapshot(s, now, venueId).value);
    }
  }

  /** Confirmed, under a policy frozen now, and nothing to send. */
  ghost predicate CaptureConfirms(s: Api, e: Effect, now: int, key: Key, c: ChargeId)
    requires key in s.payments && s.payments[key].bookingId < |s.bookings|
  {
    var p := s.payments[key];
    var b := s.bookings[p.bookingId];
    exists snapshot ::
      && FrozenFrom(s.policies, b.venueId, now, snapshot)
      && e == Effect(s.(
           bookings := s.bookings[p.bookingId := b.(
             status := CONFIRMED, expiresAt := None, policySnapshot := Some(snapshot), updatedAt := now)],
           payments := s.payments[key := p.(status := SUCCEEDED, chargeId := Some(c), updatedAt := now)],
           events := s.events[EventKey(c, ChargeSucceeded) := now],
           audit := s.audit + [AuditRow(p.bookingId, Paygate, PENDING_PAYMENT, CONFIRMED, PaymentCaptured)]), None)
  }

  /** Expired, the whole amount owed back, and the provider told to return it. */
  predicate CaptureIsLate(s: Api, e: Effect, now: int, key: Key, c: ChargeId)
    requires key in s.payments && s.payments[key].bookingId < |s.bookings|
  {
    var p := s.payments[key];
    var b := s.bookings[p.bookingId];
    e == Effect(s.(
           bookings := s.bookings[p.bookingId := b.(status := EXPIRED, updatedAt := now)],
           payments := s.payments[key := p.(
             status := SUCCEEDED, chargeId := Some(c), updatedAt := now,
             refundKey := if p.refundKey.Some? then p.refundKey else Some(RefundKey(c)))],
           events := s.events[EventKey(c, ChargeSucceeded) := now],
           audit := s.audit + [AuditRow(p.bookingId, System, PENDING_PAYMENT, EXPIRED, PaymentArrivedLate)]
                    + [AuditRow(p.bookingId, System, PENDING_PAYMENT, PENDING_PAYMENT, RefundInitiatedUnconfirmable)]),
         Some(Instruction(key, c, p.bookingId, p.amountMinor, RefundKey(c))))
  }

  /**
   * A capture for a pending booking confirms it exactly when there is still time
   * and a valid policy to freeze; with time but no policy it waits; with no time
   * it is owed back whole.
   */
  lemma CaptureIs(s: Api, now: int, key: Key, c: ChargeId, refundId: Option<RefundId>, amount: Option<int>)
    requires key in s.payments && s.payments[key].bookingId < |s.bookings|
    requires s.bookings[s.payments[key].bookingId].status == PENDING_PAYMENT
    ensures var r := Gated(s, now, key, c, ChargeSucceeded, refundId, amount);
            var b := s.bookings[s.payments[key].bookingId];
            if !InTime(b, now) then r.Ok? && CaptureIsLate(s, r.value, now, key, c)
            else if exists snapshot :: FrozenFrom(s.policies, b.venueId, now, snapshot)
            then r.Ok? && CaptureConfirms(s, r.value, now, key, c)
            else r == Err(NoPolicy)
  {
    var b := s.bookings[s.payments[key].bookingId];
    SnapshotExistsIff(s, now, b.venueId);
    SameSnapshot(s, s.(events := s.events[EventKey(c, ChargeSucceeded) := now]), now, b.venueId);
    hide ResolveSnapshot, FrozenFrom;
    var r := Gated(s, now, key, c, ChargeSucceeded, refundId, amount);
    if InTime(b, now) && r.Ok? {
      assert r.value.after.bookings[s.payments[key].bookingId].policySnapshot == ResolveSnapshot(s, now, b.venueId);
    }
  }

  lemma SameSnapshot(s: Api, s': Api, now: int, venueId: nat)
    requires s.policies == s'.policies
    ensures ResolveSnapshot(s, now, venueId) == ResolveSnapshot(s', now, venueId)
  {
    hide Newest;
  }

  // --- A decline and a settled refund ----------------------------------------------------------------------

  /** A decline for a pending booking fails the payment and the booking, and asks for nothing back. */
  lemma DeclineIs(s: Api, now: int, key: Key, c: ChargeId, refundId: Option<RefundId>, amount: Option<int>)
    requires key in s.payments && s.payments[key].bookingId < |s.bookings|
    requires s.bookings[s.payments[key].bookingId].status == PENDING_PAYMENT
    ensures var p := s.payments[key];
            var b := s.bookings[p.bookingId];
            Gated(s, now, key, c, ChargeFailed, refundId, amount) == Ok(Effect(s.(
              bookings := s.bookings[p.bookingId := b.(status := BookingStatus.FAILED, updatedAt := now)],
              payments := s.payments[key := p.(
                status := PaymentStatus.FAILED, failureReason := Some(ProviderDeclined), updatedAt := now)],
              events := s.events[EventKey(c, ChargeFailed) := now],
              audit := s.audit + [AuditRow(p.bookingId, Paygate, PENDING_PAYMENT, BookingStatus.FAILED, PaymentDeclined)]), None))
  {
  }

  /**
   * A settled refund marks the payment refunded with what came back, keeping the
   * refund id it has if it is told none; a cancelled booking becomes refunded,
   * and any other keeps its status, with a note on its trail.
   */
  lemma ReturnIs(s: Api, now: int, key: Key, c: ChargeId, refundId: Option<RefundId>, returned: int)
    requires key in s.payments && s.payments[key].bookingId < |s.bookings|
    ensures var p := s.payments[key];
            var b := s.bookings[p.bookingId];
            var to := if b.status == CANCELLED then BookingStatus.REFUNDED else b.status;
            Gated(s, now, key, c, RefundSucceeded, refundId, Some(returned)) == Ok(Effect(s.(
              bookings := if b.status == CANCELLED then s.bookings[p.bookingId := b.(status := to, updatedAt := now)] else s.bookings,
              payments := s.payments[key := p.(
                status := PaymentStatus.REFUNDED, refundedMinor := returned, updatedAt := now,
                refundId := if refundId.Some? then refundId else p.refundId)],
              events := s.events[EventKey(c, RefundSucceeded) := now],
              audit := s.audit + [AuditRow(p.bookingId, Paygate, b.status, to,
                                           if b.status == CANCELLED then RefundSettled else RefundSettledTerminal)]), None))
  {
  }

  // --- The provider's ids -----------------------------------------------------------------------------------

  /** The first id told for a payment stays, whoever tells another later: a retry or a late answer rewrites nothing. */
  lemma TheFirstIdStays(s: Api, now: int, later: int, key: Key, first: nat, second: nat)
    requires key in s.payments
    ensures var once := RecordChargeId(s, now, key, first);
            once.payments[key].chargeId.Some? ==> RecordChargeId(once, later, key, second) == once
    ensures var once := RecordRefundId(s, now, key, first);
            once.payments[key].refundId.Some? && RecordRefundId(once, later, key, second) == once
    ensures s.payments[key].chargeId.None? && (forall k :: k in s.payments ==> s.payments[k].chargeId != Some(first))
            ==> RecordChargeId(s, now, key, first).payments[key].chargeId == Some(first)
  {
  }
}
