/**
 * The whole reconciliation report, in every reachable state: a line is in it
 * exactly when what it says happened, at the API and at the provider, and the
 * row it names is in the window and past its grace.
 */
module AtriumReport {
  import opened Wrappers
  import opened RefundPolicy
  import opened Ids
  import opened Database
  import opened PaymentsService
  import opened Accounts
  import opened AtriumSystem
  import opened AtriumMoney
  import opened Atrium
  import opened AtriumTheorems
  import opened AtriumRepayment
  import opened Reconciliation
  import L = Ledger
  import P = Paygate

  /** Created in the half-open window, and untouched for longer than the grace seconds, which are never negative. */
  predicate IsDue(w: Window, createdAt: int, updatedAt: int) {
    w.from <= createdAt < w.to && updatedAt + 1000 * (if w.graceSeconds > 0 then w.graceSeconds else 0) < w.now
  }

  lemma IsDueIff(w: Window, createdAt: int, updatedAt: int)
    ensures IsDue(w, createdAt, updatedAt) <==> InWindow(w, createdAt) && PastGrace(w, updatedAt)
  {
  }

  predicate Recorded(s: Api, c: ChargeId, event: EventKind) { EventKey(c, event) in s.events }

  /** The provider has the money, its return was never recorded, and the booking ended. */
  ghost predicate OwesBack(sys: System, k: Key)
    requires k in sys.api.payments
  {
    var p := sys.api.payments[k];
    && p.chargeId.Some? && p.bookingId < |sys.api.bookings|
    && CapturedAtProvider(sys.provider.ledger, p.chargeId.value)
    && Recorded(sys.api, p.chargeId.value, ChargeSucceeded) && !Recorded(sys.api, p.chargeId.value, RefundSucceeded)
    && sys.api.bookings[p.bookingId].status in {EXPIRED, CANCELLED}
  }

  ghost predicate SentFor(sys: System, k: Key) { exists i :: i in sys.sent && i.paymentKey == k }

  /** A refund was instructed; neither its id nor its outcome was ever recorded. */
  ghost predicate RefundUnheard(sys: System, k: Key)
    requires k in sys.api.payments
  {
    var p := sys.api.payments[k];
    SentFor(sys, k) && p.refundId.None? && p.chargeId.Some? && !Recorded(sys.api, p.chargeId.value, RefundSucceeded)
  }

  /** The provider accepted the instructed refund of this very charge, and its outcome was never recorded. */
  ghost predicate RefundPending(sys: System, k: Key)
    requires k in sys.api.payments
  {
    var p := sys.api.payments[k];
    && p.refundId.Some? && p.chargeId.Some? && RefundOf(sys.provider.ledger, p.refundId.value, p.chargeId.value)
    && (exists i :: i in sys.sent && i.paymentKey == k && i.chargeId == p.chargeId.value
                    && i.amountMinor == sys.provider.ledger.refunds[p.refundId.value].amountMinor)
    && !Recorded(sys.api, p.chargeId.value, RefundSucceeded)
  }

  /** The provider has the charge, and no outcome of it was ever recorded. */
  ghost predicate ChargePending(sys: System, k: Key)
    requires k in sys.api.payments
  {
    var p := sys.api.payments[k];
    && p.chargeId.Some? && p.chargeId.value in sys.provider.ledger.charges
    && !Recorded(sys.api, p.chargeId.value, ChargeSucceeded) && !Recorded(sys.api, p.chargeId.value, ChargeFailed)
  }

  ghost predicate Tells(sys: System, k: Key, kind: Kind)
    requires k in sys.api.payments
  {
    match kind
    case CaptureWithoutConfirmation => OwesBack(sys, k)
    case RefundInitiatedNotSettled => RefundUnheard(sys, k)
    case RefundAcceptedNotSettled => RefundPending(sys, k)
    case ChargeAcceptedNotSettled => ChargePending(sys, k)
    case _ => false
  }

  /** A line about a payment, with the payment's own booking, charge, amount and last change. */
  ghost predicate PaymentLine(sys: System, w: Window, k: Key, d: Discrepancy) {
    && k in sys.api.payments
    && var p := sys.api.payments[k];
       && d == Discrepancy(d.kind, PaymentRow(k), Some(p.bookingId), p.chargeId, Some(p.amountMinor), p.updatedAt)
       && IsDue(w, p.createdAt, p.updatedAt) && Tells(sys, k, d.kind)
  }

  /** A line about a delivery that was signed, received and never applied. */
  ghost predicate DeliveryLine(sys: System, w: Window, row: nat, d: Discrepancy) {
    && row < |sys.api.deliveries|
    && var r := sys.api.deliveries[row];
       && r.signatureValid && r.processedAt.None? && IsDue(w, r.receivedAt, r.receivedAt)
       && d == Discrepancy(UnmatchedDelivery, DeliveryRow(row), None, r.chargeId, None, r.receivedAt)
  }

  // --- What a payment's columns mean ---------------------------------------------------------------

  /** What the report's own query looks at. */
  predicate Columns(s: Api, k: Key, kind: Kind)
    requires k in s.payments && s.payments[k].bookingId < |s.bookings|
  {
    var p := s.payments[k];
    match kind
    case CaptureWithoutConfirmation => p.status == SUCCEEDED && s.bookings[p.bookingId].status !in {CONFIRMED, COMPLETED}
    case RefundInitiatedNotSettled => p.refundKey.Some? && p.refundId.None? && p.status != PaymentStatus.REFUNDED
    case RefundAcceptedNotSettled => p.refundId.Some? && p.status != PaymentStatus.REFUNDED
    case ChargeAcceptedNotSettled => p.status == PENDING && p.chargeId.Some?
    case _ => false
  }

  lemma ColumnsMean(w: World, sys: System, k: Key, kind: Kind)
    requires MoneyOk(w, sys) && k in sys.api.payments && Instructed(sys, k)
    ensures sys.api.payments[k].bookingId < |sys.api.bookings| && (Tells(sys, k, kind) <==> Columns(sys.api, k, kind))
  {
    hide MoneyOk, RefundUnheard, RefundPending, KeyedAccountOk, OwesBack, ChargePending, Instructed;
    MoneyHasTables(w, sys);
    AccountOfKey(sys.api, sys.provider.ledger, k);
    KeyedIsBooked(sys.api, sys.provider.ledger, k);
    ChargeColumnsMean(sys, k);
    KeyMeansSent(w, sys, k);
    RefundColumnsMean(w, sys, k);
  }

  lemma KeyedIsBooked(s: Api, l: L.State, k: Key)
    requires k in s.payments && KeyedAccountOk(s, l, k)
    ensures s.payments[k].bookingId < |s.bookings|
  {
  }

  lemma ChargeColumnsMean(sys: System, k: Key)
    requires k in sys.api.payments && KeyedAccountOk(sys.api, sys.provider.ledger, k)
    ensures var p := sys.api.payments[k];
            && (OwesBack(sys, k) <==> p.status == SUCCEEDED && sys.api.bookings[p.bookingId].status !in {CONFIRMED, COMPLETED})
            && (ChargePending(sys, k) <==> p.status == PENDING && p.chargeId.Some?)
  {
    hide RefundSide;
  }

  lemma KeyMeansSent(w: World, sys: System, k: Key)
    requires MoneyOk(w, sys) && k in sys.api.payments && Instructed(sys, k)
    ensures sys.api.payments[k].refundKey.Some? <==> SentFor(sys, k)
  {
    hide P.ProviderOk, RefundsOk, TablesOk, DeliveriesOk, CallsOk, ToldOk;
    forall i | i in sys.sent && i.paymentKey == k ensures sys.api.payments[k].refundKey.Some? { assert InstructionOk(sys.api, i); }
  }

  lemma RefundColumnsMean(w: World, sys: System, k: Key)
    requires MoneyOk(w, sys) && k in sys.api.payments && KeyedAccountOk(sys.api, sys.provider.ledger, k)
    requires sys.api.payments[k].refundKey.Some? <==> SentFor(sys, k)
    ensures var p := sys.api.payments[k];
            && (RefundUnheard(sys, k) <==> p.refundKey.Some? && p.refundId.None? && p.status != PaymentStatus.REFUNDED)
            && (RefundPending(sys, k) <==> p.refundId.Some? && p.status != PaymentStatus.REFUNDED)
  {
    hide MoneyOk, SentFor, Returned, ProviderAgrees, Joint;
    if sys.api.payments[k].refundId.Some? { RefundWasInstructed(w, sys, k); }
  }

  lemma RefundWasInstructed(w: World, sys: System, k: Key)
    requires MoneyOk(w, sys) && k in sys.api.payments && KeyedAccountOk(sys.api, sys.provider.ledger, k)
    requires sys.api.payments[k].refundId.Some? && sys.api.payments[k].chargeId.Some?
    ensures var p := sys.api.payments[k];
            && RefundOf(sys.provider.ledger, p.refundId.value, p.chargeId.value)
            && exists i :: i in sys.sent && i.paymentKey == k && i.chargeId == p.chargeId.value
                           && i.amountMinor == sys.provider.ledger.refunds[p.refundId.value].amountMinor
  {
    hide P.ProviderOk, DeliveriesOk, CallsOk, ToldOk, Returned, ProviderAgrees, Joint;
    var p := sys.api.payments[k];
    var refund := sys.provider.ledger.refunds[p.refundId.value];
    assert RefundBacked(sys.sent, refund);
    var i :| i in sys.sent && i.chargeId == refund.chargeId && i.amountMinor == refund.amountMinor;
    assert InstructionOk(sys.api, i);
    CarriersAgree(sys.api, sys.provider.ledger, k, i.paymentKey, refund.chargeId);
  }

  // --- The report --------------------------------------------------------------------------------------

  predicate ListedOnPayment(s: Api, w: Window, d: Discrepancy) {
    || d in CapturesWithoutConfirmation(s, w) || d in RefundsInitiatedNotSettled(s, w)
    || d in RefundsAcceptedNotSettled(s, w) || d in ChargesAcceptedNotSettled(s, w)
  }

  /** The lines the four checks that fire on payments can put in. */
  lemma PaymentLines(s: Api, w: Window, d: Discrepancy, k: Key)
    requires k in s.payments && s.payments[k].bookingId < |s.bookings|
    requires d == OnPayment(d.kind, k, s.payments[k], s.payments[k].amountMinor)
    ensures ListedOnPayment(s, w, d) <==> IsDue(w, s.payments[k].createdAt, s.payments[k].updatedAt) && Columns(s, k, d.kind)
  {
    IsDueIff(w, s.payments[k].createdAt, s.payments[k].updatedAt);
  }

  predicate OnItsPayment(s: Api, d: Discrepancy) {
    exists k :: k in s.payments && s.payments[k].bookingId < |s.bookings|
                && d == OnPayment(d.kind, k, s.payments[k], s.payments[k].amountMinor)
  }

  lemma LinesAreOnPayments(s: Api, w: Window, d: Discrepancy)
    ensures ListedOnPayment(s, w, d) ==> OnItsPayment(s, d)
  {
  }

  lemma DeliveryLines(sys: System, w: Window, d: Discrepancy)
    ensures d in UnmatchedDeliveries(sys.api, w) <==> exists row: nat :: DeliveryLine(sys, w, row, d)
  {
    forall row: nat | row < |sys.api.deliveries| {
      IsDueIff(w, sys.api.deliveries[row].receivedAt, sys.api.deliveries[row].receivedAt);
    }
    if d in UnmatchedDeliveries(sys.api, w) {
      var row: nat :| row < |sys.api.deliveries| && d == Discrepancy(UnmatchedDelivery, DeliveryRow(row), None,
        sys.api.deliveries[row].chargeId, None, sys.api.deliveries[row].receivedAt);
      assert DeliveryLine(sys, w, row, d);
    }
  }

  lemma PaymentLineIff(w: World, sys: System, window: Window, d: Discrepancy)
    requires MoneyOk(w, sys) && AllInstructed(sys)
    ensures ListedOnPayment(sys.api, window, d) <==> exists k :: PaymentLine(sys, window, k, d)
  {
    hide MoneyOk, AllInstructed, IsDue, Tells, Columns, Instructed, ListedOnPayment;
    LinesAreOnPayments(sys.api, window, d);
    forall k | k in sys.api.payments { InstructedOf(sys, k); }
    if ListedOnPayment(sys.api, window, d) {
      var k :| k in sys.api.payments && d == OnPayment(d.kind, k, sys.api.payments[k], sys.api.payments[k].amountMinor);
      ColumnsMean(w, sys, k, d.kind);
      PaymentLines(sys.api, window, d, k);
      assert PaymentLine(sys, window, k, d);
    }
    if k :| PaymentLine(sys, window, k, d) {
      ColumnsMean(w, sys, k, d.kind);
      PaymentLines(sys.api, window, d, k);
    }
  }

  /**
   * In every reachable state, over any window and with any grace, the report is
   * exactly the lines that are true: nothing it lists is mistaken, and nothing
   * that is owed, unheard of or unapplied is missing from it.
   */
  lemma TheReportIsTheTruth(w: World, sys: System, window: Window, d: Discrepancy)
    requires ValidWorld(w) && Reachable(w, sys)
    ensures d in Discrepancies(sys.api, window)
            <==> (exists k :: PaymentLine(sys, window, k, d)) || (exists row: nat :: DeliveryLine(sys, window, row, d))
  {
    hide Reachable, MoneyOk, AllInstructed, PaymentLine, DeliveryLine, DoubleCaptures, OverRefunds, RefundsWithoutCapture,
      ConfirmationsWithoutCapture, CapturesWithoutConfirmation, RefundsInitiatedNotSettled, RefundsAcceptedNotSettled,
      ChargesAcceptedNotSettled, UnmatchedDeliveries;
    ReachableMoney(w, sys);
    ReachableIsInstructed(w, sys);
    FourChecksNeverFire(w, sys, window);
    PaymentLineIff(w, sys, window, d);
    DeliveryLines(sys, window, d);
  }

  // --- The totals -----------------------------------------------------------------------------------------

  /** What the provider's ledger says this payment's charge came to: captured, and how much of it returned. */
  ghost predicate CapturedThere(sys: System, k: Key) {
    && k in sys.api.payments && sys.api.payments[k].chargeId.Some?
    && Recorded(sys.api, sys.api.payments[k].chargeId.value, ChargeSucceeded)
    && CapturedAtProvider(sys.provider.ledger, sys.api.payments[k].chargeId.value)
    && sys.provider.ledger.charges[sys.api.payments[k].chargeId.value].amountMinor == sys.api.payments[k].amountMinor
  }

  /**
   * The totals count the provider's own money: a payment adds its charge to what
   * was captured exactly when it was created in the window and its capture is
   * recorded, and adds to what was refunded all the provider has returned on
   * that charge, once the return is recorded, and nothing before.
   */
  lemma TotalsCountTheMoney(w: World, sys: System, window: Window, k: Key)
    requires ValidWorld(w) && Reachable(w, sys) && k in sys.api.payments
    ensures k in SettledIn(sys.api, window)
            <==> window.from <= sys.api.payments[k].createdAt < window.to && CapturedThere(sys, k)
    ensures k in CreatedIn(sys.api, window) <==> window.from <= sys.api.payments[k].createdAt < window.to
    ensures Amounts(sys.api.payments)[k] == sys.api.payments[k].amountMinor
    ensures var p := sys.api.payments[k];
            Refunds(sys.api.payments)[k]
            == if p.chargeId.Some? && p.chargeId.value in sys.provider.ledger.charges && Recorded(sys.api, p.chargeId.value, RefundSucceeded)
               then sys.provider.ledger.charges[p.chargeId.value].refundedMinor else 0
  {
    hide Reachable, MoneyOk, KeyedAccountOk, RefundedAsInstructed, ChargeHasPayment;
    ReachableMoney(w, sys);
    MoneyHasTables(w, sys);
    AccountOfKey(sys.api, sys.provider.ledger, k);
    SettledMeans(sys, k);
    if sys.api.payments[k].chargeId.Some? && sys.api.payments[k].chargeId.value in sys.provider.ledger.charges {
      MoneyIsConserved(w, sys, sys.api.payments[k].chargeId.value);
    }
  }

  lemma SettledMeans(sys: System, k: Key)
    requires TablesOk(sys.api, sys.provider.ledger) && k in sys.api.payments && KeyedAccountOk(sys.api, sys.provider.ledger, k)
    ensures HasCaptured(sys.api.payments[k]) <==> CapturedThere(sys, k)
    ensures var p := sys.api.payments[k];
            && (p.chargeId.Some? ==> p.chargeId.value in sys.provider.ledger.charges && sys.provider.ledger.charges[p.chargeId.value].key == k)
            && (p.status == PaymentStatus.REFUNDED <==> p.chargeId.Some? && Recorded(sys.api, p.chargeId.value, RefundSucceeded))
            && (p.status != PaymentStatus.REFUNDED ==> p.refundedMinor == 0)
  {
    hide Returned, AccountsOk, UnpaidOk, EventsOk;
    var p := sys.api.payments[k];
    assert p.chargeId.Some? ==> ChargeBacked(sys.api, sys.provider.ledger.charges[p.chargeId.value]);
  }

  /** Bookings are counted as confirmed by their own last change. */
  lemma ConfirmedAreCounted(s: Api, window: Window, id: BookingId)
    ensures id in ConfirmedIn(s, window)
            <==> id < |s.bookings| && s.bookings[id].status == CONFIRMED && window.from <= s.bookings[id].updatedAt < window.to
  {
  }
}
