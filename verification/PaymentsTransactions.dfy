/**
 * The payment service as it runs: statements against the database, in order,
 * each method tied to the specification of its transaction.
 */
module PaymentsTransactions {
  import opened Wrappers
  import opened RefundPolicy
  import opened Ids
  import opened Database
  import opened BookingStateMachine
  import opened PaymentsService

  predicate SameCharge(p: Payment, q: Payment) { p.chargeId.Some? && p.chargeId == q.chargeId }

  /** The UNIQUE constraint on `payments.charge_id`, and the one key a booking's payment can have. */
  ghost predicate Keyed(payments: map<Key, Payment>) {
    && (forall k :: k in payments ==> k == ChargeKey(payments[k].bookingId))
    && (forall j, k :: j in payments && k in payments && SameCharge(payments[j], payments[k]) ==> j == k)
  }

  method PreparePayment(db: Db, now: int, id: BookingId, userId: nat) returns (err: Option<Refusal>, alreadySettled: bool)
    modifies db
    ensures var r := PayPrepare(old(db.State()), now, id, userId);
            match r
            case Ok(p) => err == None && alreadySettled == p.alreadySettled && db.State() == p.after
            case Err(e) => err == Some(e) && db.State() == old(db.State())
  {
    var key := ChargeKey(id);
    alreadySettled := false;
    if id >= |db.bookings| { return Some(NotFound), false; }
    var before := db.State();
    var b := db.bookings[id];
    if key in db.payments && db.payments[key].status != PENDING { return None, true; }
    if b.status == HELD {
      if b.expiresAt.Some? && b.expiresAt.value <= now {
        // Expired properly, then refused: the throw takes the expiry back with it.
        var _ := TransitionBooking(db, now, Change(id, EXPIRED, System, HoldExpiredOnPay, Some({HELD}), NoPatch));
        db.Rollback(before);
        return Some(HoldExpired), false;
      }
    } else if b.status != PENDING_PAYMENT {
      return Some(UnexpectedState(b.status)), false;
    }
    if key !in db.payments {
      db.payments := db.payments[key := Payment(id, None, b.totalMinor, PENDING, None, None, 0, None, now, now)];
    }
    err := None;
    if b.status == HELD {
      err := TransitionBooking(db, now,
        Change(id, PENDING_PAYMENT, User(userId), PaymentInitiated, Some({HELD}), NoPatch));
    }
  }

  method StoreChargeId(db: Db, now: int, key: Key, chargeId: ChargeId) returns (updated: bool)
    modifies db
    ensures db.State() == RecordChargeId(old(db.State()), now, key, chargeId)
    ensures updated ==> key in db.payments && db.payments[key].chargeId == Some(chargeId)
  {
    if key !in db.payments || db.payments[key].chargeId.Some? { return false; }
    var taken := FindPayment(db, chargeId);
    if taken.Some? { return false; }
    db.payments := db.payments[key := db.payments[key].(chargeId := Some(chargeId), updatedAt := now)];
    return true;
  }

  /** SELECT by charge id: the column is unique, so any match is the match. */
  method FindPayment(db: Db, chargeId: ChargeId) returns (found: Option<Key>)
    ensures found.Some? ==> found.value in db.payments && db.payments[found.value].chargeId == Some(chargeId)
    ensures found.None? ==> !ChargeIdInUse(db.payments, chargeId)
    ensures Keyed(db.payments) ==> found == FindByChargeId(db.payments, chargeId)
  {
    var rest := db.payments.Keys;
    while rest != {}
      invariant rest <= db.payments.Keys
      invariant forall k :: k in db.payments && db.payments[k].chargeId == Some(chargeId) ==> k in rest
    {
      var k :| k in rest;
      if db.payments[k].chargeId == Some(chargeId) { return Some(k); }
      rest := rest - {k};
    }
    return None;
  }

  method FindCapturedPayment(db: Db, id: BookingId) returns (found: Option<Key>)
    requires Keyed(db.payments)
    ensures found == FindCaptured(db.payments, id)
  {
    var rest := db.payments.Keys;
    while rest != {}
      invariant rest <= db.payments.Keys
      invariant forall k :: k in db.payments && Captured(db.payments[k], id) ==> k in rest
    {
      var k :| k in rest;
      if db.payments[k].bookingId == id && db.payments[k].status == SUCCEEDED {
        assert Captured(db.payments[k], id);
        return Some(k);
      }
      rest := rest - {k};
    }
    return None;
  }

  /** Verify, record, answer; nothing heavy happens here. */
  method IngestDelivery(db: Db, now: int, deliveryId: nat, signatureValid: bool, body: Body) returns (reply: IngestReply)
    modifies db
    ensures db.State() == Ingest(old(db.State()), now, deliveryId, signatureValid, body)
    ensures reply.Unauthorized? <==> !signatureValid
    ensures reply.Duplicate? <==> signatureValid && body.Fields? && DeliveryIdSeen(old(db.deliveries), deliveryId)
    ensures reply.Accepted? && reply.row.Some? ==>
      reply.row.value == old(|db.deliveries|) && reply.row.value < |db.deliveries|
  {
    if !signatureValid {
      var _ := RecordDelivery(db,
        Delivery(deliveryId, None, None, NoEvent, false, body, Some(InvalidSignature), Some(now), now));
      return Unauthorized;
    }
    if body.Unparseable? {
      var _ := RecordDelivery(db,
        Delivery(deliveryId, None, None, NoEvent, true, body, Some(UnparseableBody), Some(now), now));
      return Accepted(None);
    }
    var unsupported := body.event.OtherEvent?;
    var row := RecordDelivery(db,
      Delivery(deliveryId, body.chargeId, body.reference, body.event, true, body,
               if unsupported then Some(UnsupportedEvent) else None, if unsupported then Some(now) else None, now));
    if row.None? { return Duplicate; }
    return Accepted(row);
  }

  /** INSERT ... ON CONFLICT (delivery_id) DO NOTHING. */
  method RecordDelivery(db: Db, d: Delivery) returns (row: Option<nat>)
    modifies db
    ensures if DeliveryIdSeen(old(db.deliveries), d.deliveryId) then row == None && db.State() == old(db.State())
            else row == Some(old(|db.deliveries|)) && db.State() == old(db.State()).(deliveries := old(db.deliveries) + [d])
  {
    for i := 0 to |db.deliveries|
      invariant forall k :: 0 <= k < i ==> db.deliveries[k].deliveryId != d.deliveryId
    {
      if db.deliveries[i].deliveryId == d.deliveryId { return None; }
    }
    row := Some(|db.deliveries|);
    db.deliveries := db.deliveries + [d];
  }

  method ChargeSucceededEffect(db: Db, now: int, key: Key, chargeId: ChargeId)
    returns (err: Option<Refusal>, instruction: Option<Instruction>)
    requires key in db.payments
    modifies db
    ensures var r := OnChargeSucceeded(old(db.State()), now, key, chargeId);
            err == ErrorOf(r) && (r.Ok? ==> db.State() == r.value.after && instruction == r.value.instruction)
  {
    instruction := None;
    db.payments := db.payments[key := db.payments[key].(status := SUCCEEDED, chargeId := Some(chargeId), updatedAt := now)];
    var p := db.payments[key];
    if p.bookingId >= |db.bookings| { return Some(NotFound), None; }
    var b := db.bookings[p.bookingId];
    var confirmable := b.status == PENDING_PAYMENT && !Lapsed(b, now);
    if confirmable {
      var snapshot := ResolveSnapshot(db.State(), now, b.venueId);
      if snapshot.None? { return Some(NoPolicy), None; }
      err := TransitionBooking(db, now, Change(p.bookingId, CONFIRMED, Paygate, PaymentCaptured,
                                               Some({PENDING_PAYMENT}), Confirm(snapshot.value)));
      return;
    }
    if b.status == PENDING_PAYMENT {
      err := TransitionBooking(db, now, Change(p.bookingId, EXPIRED, System, PaymentArrivedLate,
                                               Some({PENDING_PAYMENT}), NoPatch));
      if err.Some? { return; }
    }
    if p.refundKey.None? {
      db.payments := db.payments[key := p.(refundKey := Some(RefundKey(chargeId)), updatedAt := now)];
    }
    db.audit := db.audit + [AuditRow(p.bookingId, System, b.status, b.status, RefundInitiatedUnconfirmable)];
    return None, Some(Instruction(key, chargeId, p.bookingId, p.amountMinor, RefundKey(chargeId)));
  }

  method ChargeFailedEffect(db: Db, now: int, key: Key) returns (err: Option<Refusal>)
    requires key in db.payments
    modifies db
    ensures var r := OnChargeFailed(old(db.State()), now, key);
            err == ErrorOf(r) && (r.Ok? ==> db.State() == r.value.after && r.value.instruction.None?)
  {
    db.payments := db.payments[key := db.payments[key].(
      status := PaymentStatus.FAILED, failureReason := Some(ProviderDeclined), updatedAt := now)];
    var p := db.payments[key];
    err := None;
    if p.bookingId < |db.bookings| && db.bookings[p.bookingId].status == PENDING_PAYMENT {
      err := TransitionBooking(db, now, Change(p.bookingId, BookingStatus.FAILED, Paygate, PaymentDeclined,
                                               Some({PENDING_PAYMENT}), NoPatch));
    }
  }

  method RefundSucceededEffect(db: Db, now: int, key: Key, refundId: Option<RefundId>, amount: Option<int>)
    returns (err: Option<Refusal>)
    requires key in db.payments
    modifies db
    ensures var r := OnRefundSucceeded(old(db.State()), now, key, refundId, amount);
            err == ErrorOf(r) && (r.Ok? ==> db.State() == r.value.after && r.value.instruction.None?)
  {
    var p := db.payments[key];
    var returned := if amount.Some? then amount.value else p.amountMinor;
    p := p.(status := PaymentStatus.REFUNDED, refundId := if refundId.Some? then refundId else p.refundId,
            refundedMinor := returned, updatedAt := now);
    db.payments := db.payments[key := p];
    if p.bookingId >= |db.bookings| { return None; }
    var b := db.bookings[p.bookingId];
    if b.status == CANCELLED {
      err := TransitionBooking(db, now, Change(p.bookingId, BookingStatus.REFUNDED, Paygate, RefundSettled,
                                               Some({CANCELLED}), NoPatch));
      return;
    }
    db.audit := db.audit + [AuditRow(p.bookingId, Paygate, b.status, b.status, RefundSettledTerminal)];
    return None;
  }

  /** Insert the (charge, event) row; only the winner runs the handler. */
  method RunGated(db: Db, now: int, key: Key, chargeId: ChargeId, event: EventKind,
                  refundId: Option<RefundId>, amount: Option<int>)
    returns (claimed: bool, err: Option<Refusal>, instruction: Option<Instruction>)
    requires key in db.payments
    modifies db
    ensures claimed <==> EventKey(chargeId, event) !in old(db.events)
    ensures !claimed ==> db.State() == old(db.State()) && err == None && instruction == None
    ensures claimed ==>
      var r := Gated(old(db.State()), now, key, chargeId, event, refundId, amount);
      err == ErrorOf(r) && (r.Ok? ==> db.State() == r.value.after && instruction == r.value.instruction)
  {
    err, instruction := None, None;
    if EventKey(chargeId, event) in db.events { return false, None, None; }
    db.events := db.events[EventKey(chargeId, event) := now];
    claimed := true;
    match event
    case ChargeSucceeded => err, instruction := ChargeSucceededEffect(db, now, key, chargeId);
    case ChargeFailed => err := ChargeFailedEffect(db, now, key);
    case RefundSucceeded => err := RefundSucceededEffect(db, now, key, refundId, amount);
  }

  /** The race branch, as two statements: find the pending payment, then claim it. */
  method AdoptPayment(db: Db, now: int, reference: Option<Reference>, chargeId: ChargeId) returns (key: Option<Key>)
    modifies db
    ensures (db.State(), key) == AdoptedByReference(old(db.State()), now, reference, chargeId)
  {
    if reference.None? || reference.value.Opaque? { return None; }
    var k := ChargeKey(reference.value.id);
    if k !in db.payments || db.payments[k].bookingId != reference.value.id { return None; }
    var p := db.payments[k];
    if p.chargeId.None? {
      db.payments := db.payments[k := p.(chargeId := Some(chargeId), updatedAt := now)];
      return Some(k);
    }
    if p.chargeId == Some(chargeId) { return Some(k); }
    return None;
  }

  /** One recorded delivery in one transaction; a throw anywhere rolls all of it back. */
  method ApplyRecordedDelivery(db: Db, now: int, row: nat) returns (err: Option<Refusal>, instruction: Option<Instruction>)
    requires Keyed(db.payments)
    modifies db
    ensures err == ErrorOf(ApplyDelivery(old(db.State()), now, row))
    ensures db.State() == Outcome(old(db.State()), ApplyDelivery(old(db.State()), now, row))
    ensures instruction == InstructionOf(ApplyDelivery(old(db.State()), now, row))
  {
    hide Gated;
    err, instruction := None, None;
    if row >= |db.deliveries| || db.deliveries[row].processedAt.Some? { return; }
    var before := db.State();
    var delivery := db.deliveries[row];
    if delivery.body.Unparseable? { return Some(Unprocessable), None; }
    var body := delivery.body;
    if body.chargeId.None? || !body.event.Known? {
      Finish(db, now, row, Some(UnsupportedEvent));
      return;
    }
    var chargeId, event := body.chargeId.value, body.event.kind;
    var key := FindPayment(db, chargeId);
    if key.None? { key := AdoptPayment(db, now, body.reference, chargeId); }
    if key.None? {
      db.deliveries := db.deliveries[row := delivery.(
        chargeId := body.chargeId, reference := body.reference, error := Some(UnknownCharge))];
      return;
    }
    var claimed;
    claimed, err, instruction := RunGated(db, now, key.value, chargeId, event, body.refundId, body.amountMinor);
    if !claimed {
      Finish(db, now, row, Some(DuplicateEffect));
      return;
    }
    if err.Some? {
      db.Rollback(before);
      instruction := None;
      return;
    }
    if row >= |db.deliveries| {
      db.Rollback(before);
      return Some(NotFound), None;
    }
    Finish(db, now, row, None);
  }

  method Finish(db: Db, now: int, row: nat, error: Option<DeliveryError>)
    requires row < |db.deliveries|
    modifies db
    ensures db.State() == FinishDelivery(old(db.State()), now, row, error)
  {
    db.deliveries := db.deliveries[row := db.deliveries[row].(processedAt := Some(now), error := error)];
  }

  method SettleCancelledBooking(db: Db, now: int, id: BookingId) returns (instruction: Option<Instruction>)
    requires Keyed(db.payments)
    modifies db
    ensures Effect(db.State(), instruction) == SettleCancellation(old(db.State()), now, id)
  {
    if id >= |db.bookings| { return None; }
    var key := FindCapturedPayment(db, id);
    if key.None? { return None; }
    var p := db.payments[key.value];
    if p.chargeId.None? { return None; }
    if p.status == PaymentStatus.REFUNDED || p.refundKey.Some? { return None; }
    var breakdown := CancellationRefund(db.bookings[id], now);
    if breakdown.None? { return None; }
    var refundKey := RefundKey(p.chargeId.value);
    db.payments := db.payments[key.value := p.(refundKey := Some(refundKey), updatedAt := now)];
    db.audit := db.audit
      + [AuditRow(id, System, db.bookings[id].status, db.bookings[id].status, RefundInitiatedCancellation)];
    return Some(Instruction(key.value, p.chargeId.value, id, breakdown.value.totalRefundMinor, refundKey));
  }

  // --- The polling loops ---------------------------------------------------------------

  /** A payment read as stale before the loop, with the charge id it carried then. */
  datatype StaleCharge = StaleCharge(key: Key, chargeId: ChargeId, answer: ChargeAnswer)

  function PollAll(s: Api, now: int, stale: seq<StaleCharge>): Api {
    if stale == [] then s
    else
      var last := stale[|stale| - 1];
      var before := PollAll(s, now, stale[..|stale| - 1]);
      Outcome(before, PollCharge(before, now, last.key, last.chargeId, last.answer))
  }

  function InstructionsOf(s: Api, now: int, stale: seq<StaleCharge>): seq<Instruction> {
    if stale == [] then []
    else
      var last := stale[|stale| - 1];
      var before := PollAll(s, now, stale[..|stale| - 1]);
      var i := InstructionOf(PollCharge(before, now, last.key, last.chargeId, last.answer));
      InstructionsOf(s, now, stale[..|stale| - 1]) + if i.Some? then [i.value] else []
  }

  /** How many of the polls won their insert and committed. */
  function ChargesSettled(s: Api, now: int, stale: seq<StaleCharge>): nat {
    if stale == [] then 0
    else
      var last := stale[|stale| - 1];
      var before := PollAll(s, now, stale[..|stale| - 1]);
      ChargesSettled(s, now, stale[..|stale| - 1])
      + if last.answer.Decided? && EventKey(last.chargeId, OutcomeEvent(last.answer)) !in before.events
           && EventKey(last.chargeId, OutcomeEvent(last.answer))
              in Outcome(before, PollCharge(before, now, last.key, last.chargeId, last.answer)).events then 1 else 0
  }

  function OutcomeEvent(answer: ChargeAnswer): EventKind
    requires answer.Decided?
  {
    if answer.succeeded then ChargeSucceeded else ChargeFailed
  }

  /** Ask about each stale charge in turn; one that fails does not stop the rest. */
  method SettleAcceptedCharges(db: Db, now: int, stale: seq<StaleCharge>)
    returns (settled: nat, instructions: seq<Instruction>)
    modifies db
    ensures db.State() == PollAll(old(db.State()), now, stale)
    ensures instructions == InstructionsOf(old(db.State()), now, stale)
    ensures settled == ChargesSettled(old(db.State()), now, stale)
  {
    hide Gated;
    settled, instructions := 0, [];
    ghost var start := db.State();
    for i := 0 to |stale|
      invariant db.State() == PollAll(start, now, stale[..i])
      invariant instructions == InstructionsOf(start, now, stale[..i])
      invariant settled == ChargesSettled(start, now, stale[..i])
    {
      var payment := stale[i];
      var before := db.State();
      assert stale[..i + 1][..i] == stale[..i] && stale[..i + 1][i] == payment;
      match payment.answer
      case Missing =>
        if payment.key in db.payments {
          db.payments := db.payments[payment.key := db.payments[payment.key].(
            failureReason := Some(UnknownToProvider), updatedAt := now)];
        }
      case StillProcessing =>
      case Decided(succeeded) =>
        if payment.key in db.payments {
          var event := if succeeded then ChargeSucceeded else ChargeFailed;
          GateRecordsItsEvent(before, now, payment.key, payment.chargeId, event, None, None);
          var claimed, err, instruction := RunGated(db, now, payment.key, payment.chargeId, event, None, None);
          if err.Some? {
            db.Rollback(before);
          } else if claimed {
            settled := settled + 1;
            if instruction.Some? { instructions := instructions + [instruction.value]; }
          }
        }
    }
    assert stale[..|stale|] == stale;
  }

  /** A payment read as refunded but unsettled, and the amount the provider says it returned, if it has. */
  datatype StaleRefund = StaleRefund(key: Key, chargeId: ChargeId, settledAmount: Option<int>)

  function PollAllRefunds(s: Api, now: int, stale: seq<StaleRefund>): Api {
    if stale == [] then s
    else
      var last := stale[|stale| - 1];
      var before := PollAllRefunds(s, now, stale[..|stale| - 1]);
      Outcome(before, PollRefund(before, now, last.key, last.chargeId, last.settledAmount))
  }

  /** How many of the polls won their insert and committed. */
  function RefundsSettled(s: Api, now: int, stale: seq<StaleRefund>): nat {
    if stale == [] then 0
    else
      var last := stale[|stale| - 1];
      var before := PollAllRefunds(s, now, stale[..|stale| - 1]);
      RefundsSettled(s, now, stale[..|stale| - 1])
      + if EventKey(last.chargeId, RefundSucceeded) !in before.events
           && EventKey(last.chargeId, RefundSucceeded)
              in Outcome(before, PollRefund(before, now, last.key, last.chargeId, last.settledAmount)).events then 1 else 0
  }

  /** Ask about each unsettled refund in turn; only the replica that wins the insert counts it. */
  method SettleAcceptedRefunds(db: Db, now: int, stale: seq<StaleRefund>) returns (settled: nat)
    modifies db
    ensures db.State() == PollAllRefunds(old(db.State()), now, stale)
    ensures settled == RefundsSettled(old(db.State()), now, stale)
  {
    hide Gated;
    settled := 0;
    ghost var start := db.State();
    for i := 0 to |stale|
      invariant db.State() == PollAllRefunds(start, now, stale[..i])
      invariant settled == RefundsSettled(start, now, stale[..i])
    {
      var payment := stale[i];
      var before := db.State();
      assert stale[..i + 1][..i] == stale[..i] && stale[..i + 1][i] == payment;
      if payment.settledAmount.Some? && payment.key in db.payments {
        GateRecordsItsEvent(before, now, payment.key, payment.chargeId, RefundSucceeded, None, payment.settledAmount);
        var claimed, err, _ := RunGated(db, now, payment.key, payment.chargeId, RefundSucceeded, None, payment.settledAmount);
        if err.Some? {
          db.Rollback(before);
        } else if claimed {
          settled := settled + 1;
        }
      }
    }
    assert stale[..|stale|] == stale;
  }

  lemma GateRecordsItsEvent(
      s: Api, now: int, key: Key, chargeId: ChargeId, event: EventKind, refundId: Option<RefundId>, amount: Option<int>)
    requires key in s.payments
    ensures var r := Gated(s, now, key, chargeId, event, refundId, amount);
            r.Ok? ==> EventKey(chargeId, event) in r.value.after.events
  {
  }
}
