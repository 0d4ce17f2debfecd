/** The system's promises, each proved of every state of every run. */
module AtriumTheorems {
  import opened Wrappers
  import opened RefundPolicy
  import opened Ids
  import opened Database
  import opened BookingStateMachine
  import opened BookingsService
  import opened BookingInvariants
  import opened PaymentsService
  import opened Accounts
  import opened AtriumSystem
  import opened AtriumBookings
  import opened AtriumPolicies
  import opened AtriumMoney
  import opened Atrium
  import opened Reconciliation
  import L = Ledger
  import P = Paygate

  ghost predicate Reachable(w: World, sys: System)
    requires ValidWorld(w)
  {
    exists states :: Run(w, states) && states[|states| - 1] == sys
  }

  lemma ReachableIsOk(w: World, sys: System)
    requires ValidWorld(w) && Reachable(w, sys)
    ensures SystemOk(w, sys)
  {
    hide SystemOk;
    var states :| Run(w, states) && states[|states| - 1] == sys;
    RunKeeps(w, states, |states| - 1);
  }

  lemma NowhereIsReachable(w: World, sys: System)
    requires ValidWorld(w) && Initial(sys)
    ensures Reachable(w, sys)
  {
    assert Run(w, [sys]);
  }

  lemma MovesStayReachable(w: World, sys: System, m: Move)
    requires ValidWorld(w) && Reachable(w, sys) && Possible(w, sys, m)
    ensures Reachable(w, Next(w, sys, m))
  {
    hide Next, Possible, ValidConfig;
    var states :| Run(w, states) && states[|states| - 1] == sys;
    var longer := states + [Next(w, sys, m)];
    forall i | 0 <= i < |longer| - 1 ensures Steps(w, longer[i], longer[i + 1]) {
      if i < |states| - 1 {
        assert longer[i] == states[i] && longer[i + 1] == states[i + 1];
      }
    }
    assert Run(w, longer) && longer[|longer| - 1] == Next(w, sys, m);
  }

  /** Make a move, and stay reachable. */
  lemma Advance(w: World, sys: System, m: Move) returns (sys': System)
    requires ValidWorld(w) && Reachable(w, sys) && Possible(w, sys, m)
    ensures sys' == Next(w, sys, m) && Reachable(w, sys')
  {
    hide Reachable, Possible, Next;
    MovesStayReachable(w, sys, m);
    sys' := Next(w, sys, m);
  }

  // --- INV-5: money is never silently lost ------------------------------------------------

  predicate CapturedAtProvider(l: L.State, c: ChargeId) {
    c in l.charges && l.charges[c].materialised && l.charges[c].status == L.Succeeded
  }

  /** A signed row about a charge. */
  predicate SignedFor(d: Delivery, c: ChargeId) {
    d.signatureValid && Actionable(d.body) && d.body.chargeId == Some(c)
  }

  predicate Reportable(w: Window, p: Payment) { InWindow(w, p.createdAt) && PastGrace(w, p.updatedAt) }

  ghost predicate ListedPayment(s: Api, w: Window, kind: Kind, k: Key)
    requires k in s.payments
  {
    Reportable(w, s.payments[k]) ==> OnPayment(kind, k, s.payments[k], s.payments[k].amountMinor) in Discrepancies(s, w)
  }

  predicate LineFor(d: Discrepancy, row: nat) { d.kind == UnmatchedDelivery && d.source == DeliveryRow(row) }

  ghost predicate ListedRow(s: Api, w: Window, row: nat)
    requires row < |s.deliveries|
  {
    InWindow(w, s.deliveries[row].receivedAt) && PastGrace(w, s.deliveries[row].receivedAt)
    ==> exists d :: d in Discrepancies(s, w) && LineFor(d, row)
  }

  /** No answer of the provider about this charge was recorded, and every signed delivery about it still waits. */
  ghost predicate Unheard(sys: System, w: Window, c: ChargeId) {
    && c !in sys.told
    && forall row :: 0 <= row < |sys.api.deliveries| && SignedFor(sys.api.deliveries[row], c)
         ==> sys.api.deliveries[row].processedAt.None? && ListedRow(sys.api, w, row)
  }

  /** Where a captured charge's money can be. */
  datatype Place = OnConfirmedBooking | GivenBack | OwedBack | AwaitingOutcome | NotHeardOf

  ghost predicate MoneyIs(sys: System, w: Window, c: ChargeId, place: Place)
    requires c in sys.provider.ledger.charges && sys.provider.ledger.charges[c].key in sys.api.payments
    requires sys.api.payments[sys.provider.ledger.charges[c].key].bookingId < |sys.api.bookings|
  {
    var k := sys.provider.ledger.charges[c].key;
    var p := sys.api.payments[k];
    var b := sys.api.bookings[p.bookingId];
    match place
    case OnConfirmedBooking => b.status == CONFIRMED && p.status == SUCCEEDED && p.chargeId == Some(c) && p.refundKey.None?
    case GivenBack => p.status == PaymentStatus.REFUNDED && p.chargeId == Some(c)
                      && Returned(sys.provider.ledger, c, p.refundedMinor)
    case OwedBack => p.status == SUCCEEDED && p.chargeId == Some(c) && b.status in {EXPIRED, CANCELLED}
                     && ListedPayment(sys.api, w, CaptureWithoutConfirmation, k)
    case AwaitingOutcome => p.status == PENDING && p.chargeId == Some(c) && b.status == PENDING_PAYMENT
                            && ListedPayment(sys.api, w, ChargeAcceptedNotSettled, k)
    case NotHeardOf => p.status == PENDING && p.chargeId.None? && b.status == PENDING_PAYMENT && Unheard(sys, w, c)
  }

  /** Every charge the provider opened has its one payment row, for the booking's total. */
  ghost predicate ChargeHasPayment(sys: System, c: ChargeId)
    requires c in sys.provider.ledger.charges
  {
    var ch := sys.provider.ledger.charges[c];
    && ch.key == ChargeKey(ch.reference) && ch.key in sys.api.payments
    && sys.api.payments[ch.key].bookingId == ch.reference < |sys.api.bookings|
    && sys.api.payments[ch.key].amountMinor == ch.amountMinor == sys.api.bookings[ch.reference].totalMinor
  }

  lemma EveryChargeHasItsPayment(w: World, sys: System, c: ChargeId)
    requires ValidWorld(w) && Reachable(w, sys) && c in sys.provider.ledger.charges
    ensures ChargeHasPayment(sys, c)
    ensures KeyedAccountOk(sys.api, sys.provider.ledger, sys.provider.ledger.charges[c].key)
  {
    ReachableIsOk(w, sys);
    hide BooksOk, CancelledOk, P.ProviderOk, NotesOk, RefundsOk, Reachable, UnpaidOk, EventsOk;
    assert ChargeBacked(sys.api, sys.provider.ledger.charges[c]);
    AccountOfKey(sys.api, sys.provider.ledger, sys.provider.ledger.charges[c].key);
  }

  /**
   * Every charge the provider captured is on a confirmed booking, or given
   * back, or owed back and listed once past grace, or awaiting its outcome and
   * listed once past grace, unless the provider's every word about it is still
   * unheard.
   */
  lemma CapturedMoneyIsAccountedFor(w: World, sys: System, c: ChargeId, window: Window)
    requires ValidWorld(w) && Reachable(w, sys) && CapturedAtProvider(sys.provider.ledger, c)
    ensures ChargeHasPayment(sys, c) && exists place :: MoneyIs(sys, window, c, place)
  {
    hide Reachable, SystemOk, MoneyOk, MoneyIs, ChargeHasPayment, KeyedAccountOk;
    EveryChargeHasItsPayment(w, sys, c);
    EveryChargeIsKeyed(sys, c);
    ReachableMoney(w, sys);
    AccountedPlace(w, sys, c, window);
  }

  lemma EveryChargeIsKeyed(sys: System, c: ChargeId)
    requires c in sys.provider.ledger.charges && ChargeHasPayment(sys, c)
    ensures sys.provider.ledger.charges[c].key in sys.api.payments
    ensures sys.api.payments[sys.provider.ledger.charges[c].key].bookingId < |sys.api.bookings|
  {
  }

  lemma ReachableMoney(w: World, sys: System)
    requires ValidWorld(w) && Reachable(w, sys)
    ensures MoneyOk(w, sys)
  {
    hide Reachable, MoneyOk, BooksOk, CancelledOk;
    ReachableIsOk(w, sys);
  }

  lemma AccountedPlace(w: World, sys: System, c: ChargeId, window: Window)
    requires MoneyOk(w, sys) && CapturedAtProvider(sys.provider.ledger, c) && KeyedAccountOkAt(sys, c)
    ensures exists place :: MoneyIs(sys, window, c, place)
  {
    hide MoneyOk, Unheard, ListedPayment;
    var p := sys.api.payments[sys.provider.ledger.charges[c].key];
    if p.chargeId.None? {
      UnheardWithoutId(w, sys, c, window);
      assert MoneyIs(sys, window, c, NotHeardOf);
    } else {
      PaymentsCharge(w, sys, c);
      CapturedPlaces(sys, window, c);
    }
  }

  lemma PaymentsCharge(w: World, sys: System, c: ChargeId)
    requires MoneyOk(w, sys) && KeyedAccountOkAt(sys, c)
    requires sys.api.payments[sys.provider.ledger.charges[c].key].chargeId.Some?
    ensures sys.api.payments[sys.provider.ledger.charges[c].key].chargeId == Some(c)
  {
    hide L.LedgerOk, NotesOk, RefundsOk, TablesOk, P.LogOk, P.AllTasksOk, P.AllAnswersOk, P.OutcomesOk;
    OneChargePerKey(sys.provider.ledger, c, sys.api.payments[sys.provider.ledger.charges[c].key].chargeId.value);
  }

  predicate KeyedAccountOkAt(sys: System, c: ChargeId) {
    && c in sys.provider.ledger.charges && sys.provider.ledger.charges[c].key in sys.api.payments
    && KeyedAccountOk(sys.api, sys.provider.ledger, sys.provider.ledger.charges[c].key)
  }

  lemma CapturedPlaces(sys: System, window: Window, c: ChargeId)
    requires CapturedAtProvider(sys.provider.ledger, c) && KeyedAccountOkAt(sys, c)
    requires sys.api.payments[sys.provider.ledger.charges[c].key].chargeId == Some(c)
    ensures exists place :: MoneyIs(sys, window, c, place)
  {
    var k := sys.provider.ledger.charges[c].key;
    var p := sys.api.payments[k];
    var b := sys.api.bookings[p.bookingId];
    SettledRowIsListed(sys.api, window, k);
    match p.status
    case PENDING => assert MoneyIs(sys, window, c, AwaitingOutcome);
    case REFUNDED => assert MoneyIs(sys, window, c, GivenBack);
    case SUCCEEDED =>
      if b.status == CONFIRMED { assert MoneyIs(sys, window, c, OnConfirmedBooking); }
      else { assert MoneyIs(sys, window, c, OwedBack); }
    case FAILED =>
  }

  /** The two checks that carry INV-5 list the rows they name. */
  lemma SettledRowIsListed(s: Api, w: Window, k: Key)
    requires k in s.payments && s.payments[k].bookingId < |s.bookings|
    ensures s.payments[k].status == SUCCEEDED && s.bookings[s.payments[k].bookingId].status !in {CONFIRMED, COMPLETED}
            ==> ListedPayment(s, w, CaptureWithoutConfirmation, k)
    ensures s.payments[k].status == PENDING && s.payments[k].chargeId.Some? ==> ListedPayment(s, w, ChargeAcceptedNotSettled, k)
  {
  }

  lemma UnheardWithoutId(w: World, sys: System, c: ChargeId, window: Window)
    requires MoneyOk(w, sys) && KeyedAccountOkAt(sys, c)
    requires sys.api.payments[sys.provider.ledger.charges[c].key].chargeId.None?
    ensures Unheard(sys, window, c)
  {
    hide MoneyOk, ListedRow, SignedFor;
    NotTold(w, sys, c);
    forall row | 0 <= row < |sys.api.deliveries| && SignedFor(sys.api.deliveries[row], c)
      ensures sys.api.deliveries[row].processedAt.None? && ListedRow(sys.api, window, row)
    {
      SignedRowWaits(w, sys, c, row);
      WaitingRowIsListed(sys.api, window, row);
    }
  }

  lemma NotTold(w: World, sys: System, c: ChargeId)
    requires MoneyOk(w, sys) && KeyedAccountOkAt(sys, c)
    requires sys.api.payments[sys.provider.ledger.charges[c].key].chargeId.None?
    ensures c !in sys.told
  {
    hide TablesOk, RefundsOk, SentOk, DeliveriesOk, CallsOk, P.ProviderOk, KeyedAccountOk;
  }

  lemma SignedRowWaits(w: World, sys: System, c: ChargeId, row: nat)
    requires MoneyOk(w, sys) && KeyedAccountOkAt(sys, c) && row < |sys.api.deliveries| && SignedFor(sys.api.deliveries[row], c)
    requires sys.api.payments[sys.provider.ledger.charges[c].key].chargeId.None?
    ensures sys.api.deliveries[row].signatureValid && sys.api.deliveries[row].processedAt.None?
  {
    hide AccountsOk, UnpaidOk, ChargesOk, RefundsOk, SentOk, CallsOk, ToldOk, P.ProviderOk, Announced, KeyedAccountOk;
    var d := sys.api.deliveries[row];
    assert RowTrue(sys.api.events, sys.provider.log, d);
    assert d.processedAt.Some? ==> EventBacked(sys.api, sys.provider.ledger, EventKey(c, d.body.event.kind));
  }

  lemma WaitingRowIsListed(s: Api, w: Window, row: nat)
    requires row < |s.deliveries| && s.deliveries[row].signatureValid && s.deliveries[row].processedAt.None?
    ensures ListedRow(s, w, row)
  {
    if InWindow(w, s.deliveries[row].receivedAt) && PastGrace(w, s.deliveries[row].receivedAt) {
      var d := Discrepancy(UnmatchedDelivery, DeliveryRow(row), None, s.deliveries[row].chargeId, None, s.deliveries[row].receivedAt);
      assert d in UnmatchedDeliveries(s, w);
      assert d in Discrepancies(s, w) && LineFor(d, row);
    }
  }

  // --- The checks that never fire --------------------------------------------------------------

  lemma ConfirmedIsPaid(s: Api, l: L.State, id: BookingId)
    requires AccountsOk(s, l) && UnpaidOk(s) && id < |s.bookings| && s.bookings[id].status in {CONFIRMED, COMPLETED}
    ensures PaidFor(s, id) && s.bookings[id].status == CONFIRMED
  {
    AccountOfKey(s, l, ChargeKey(id));
    assert s.payments[ChargeKey(id)].bookingId == id;
  }

  lemma OneCapturePerBooking(s: Api, l: L.State, w: Window, id: BookingId)
    requires AccountsOk(s, l)
    ensures |CapturedFor(s, w, id)| <= 1
  {
    hide AccountOk;
    var keys := CapturedFor(s, w, id);
    forall k | k in keys ensures k == ChargeKey(id) { AccountOfKey(s, l, k); }
    assert keys <= {ChargeKey(id)};
    SubsetSize(keys, ChargeKey(id));
  }

  lemma SubsetSize(keys: set<Key>, k: Key)
    requires keys <= {k}
    ensures |keys| <= 1
  {
    if keys != {} { assert keys == {k}; }
  }

  /** What came back is what was instructed, and never more than was paid. */
  lemma ReturnedWithinPaid(w: World, sys: System, k: Key)
    requires MoneyOk(w, sys) && k in sys.api.payments && sys.api.payments[k].status == PaymentStatus.REFUNDED
    ensures var p := sys.api.payments[k];
            p.chargeId.Some? && CaptureRecorded(sys.api, p) && 0 < p.refundedMinor <= p.amountMinor
            && exists i :: i in sys.sent && i.chargeId == p.chargeId.value && i.amountMinor == p.refundedMinor
  {
    hide P.ProviderOk, L.LedgerOk, DeliveriesOk, CallsOk, ToldOk;
    var s, l := sys.api, sys.provider.ledger;
    AccountOfKey(s, l, k);
    var p := s.payments[k];
    var c := p.chargeId.value;
    var r :| r in l.refunds && l.refunds[r].chargeId == c && l.refunds[r].materialised && l.refunds[r].amountMinor == p.refundedMinor;
    assert RefundBacked(sys.sent, l.refunds[r]);
    var i :| i in sys.sent && i.chargeId == c && i.amountMinor == p.refundedMinor;
    assert InstructionOk(s, i);
    AccountOfKey(s, l, i.paymentKey);
    CarriersAgree(s, l, k, i.paymentKey, c);
  }

  lemma UnreturnedIsZero(s: Api, l: L.State, k: Key)
    requires AccountsOk(s, l) && k in s.payments && s.payments[k].status != PaymentStatus.REFUNDED
    ensures s.payments[k].refundedMinor == 0
  {
    AccountOfKey(s, l, k);
  }

  /**
   * In no reachable state, over no window, with any grace, does the report show
   * a double capture, an over-refund, a refund without a capture or a
   * confirmation nobody paid for.
   */
  lemma FourChecksNeverFire(w: World, sys: System, window: Window)
    requires ValidWorld(w) && Reachable(w, sys)
    ensures DoubleCaptures(sys.api, window) == {} && OverRefunds(sys.api, window) == {}
    ensures RefundsWithoutCapture(sys.api, window) == {} && ConfirmationsWithoutCapture(sys.api, window) == {}
  {
    ReachableIsOk(w, sys);
    hide BooksOk, CancelledOk, Reachable, P.ProviderOk, NotesOk, RefundsOk, AccountsOk, EventsOk, ChargesOk, UnpaidOk,
      CapturedFor, SumOver, LatestUpdate, CaptureRecorded;
    var s, l := sys.api, sys.provider.ledger;
    forall id: nat | id < |s.bookings| ensures |CapturedFor(s, window, id)| <= 1 { OneCapturePerBooking(s, l, window, id); }
    forall id: nat | id < |s.bookings| && s.bookings[id].status in {CONFIRMED, COMPLETED} ensures PaidFor(s, id) {
      ConfirmedIsPaid(s, l, id);
    }
    forall k | k in s.payments
      ensures s.payments[k].refundedMinor <= s.payments[k].amountMinor
      ensures s.payments[k].status == PaymentStatus.REFUNDED || s.payments[k].refundedMinor > 0 ==> CaptureRecorded(s, s.payments[k])
    {
      if s.payments[k].status == PaymentStatus.REFUNDED { ReturnedWithinPaid(w, sys, k); } else { UnreturnedIsZero(s, l, k); }
    }
    assert DoubleCaptures(s, window) == {};
  }

  /** A line that says money was captured and is owed is never wrong: the provider has it, for a booking that ended. */
  lemma EveryCaptureLineIsReal(w: World, sys: System, window: Window, k: Key)
    requires ValidWorld(w) && Reachable(w, sys) && k in sys.api.payments
    requires OnPayment(CaptureWithoutConfirmation, k, sys.api.payments[k], sys.api.payments[k].amountMinor)
             in CapturesWithoutConfirmation(sys.api, window)
    ensures var p := sys.api.payments[k]; var l := sys.provider.ledger;
            p.bookingId < |sys.api.bookings| && p.chargeId.Some? && CapturedAtProvider(l, p.chargeId.value)
            && l.charges[p.chargeId.value].amountMinor == p.amountMinor
            && sys.api.bookings[p.bookingId].status in {EXPIRED, CANCELLED}
  {
    ReachableIsOk(w, sys);
    hide BooksOk, CancelledOk, Reachable, P.ProviderOk, NotesOk, RefundsOk;
    AccountOfKey(sys.api, sys.provider.ledger, k);
    assert ChargeBacked(sys.api, sys.provider.ledger.charges[sys.api.payments[k].chargeId.value]);
  }

  // --- A cancellation worth nothing ------------------------------------------------------------------

  /**
   * A refund of zero is never sent to the provider, so its payment stays
   * captured: from then on, in every later state, once past grace the report
   * lists it as a capture without confirmation and as a refund never settled.
   * It is one of the ways to be stuck; `AtriumRepayment` has them all.
   */
  lemma FreeCancellationIsListedForEver(w: World, states: seq<System>, i: nat, j: nat, sent: Instruction, window: Window)
    requires ValidWorld(w) && Run(w, states) && i <= j < |states|
    requires sent in states[i].sent && sent.amountMinor == 0
    ensures var s := states[j].api;
            && sent.paymentKey in s.payments && s.payments[sent.paymentKey].status == SUCCEEDED
            && ListedPayment(s, window, CaptureWithoutConfirmation, sent.paymentKey)
            && ListedPayment(s, window, RefundInitiatedNotSettled, sent.paymentKey)
  {
    RunAdvances(w, states, i, j);
    RunKeeps(w, states, j);
    ZeroInstructionStaysCaptured(w, states[j], sent, window);
  }

  lemma ZeroInstructionStaysCaptured(w: World, sys: System, sent: Instruction, window: Window)
    requires MoneyOk(w, sys) && sent in sys.sent && sent.amountMinor == 0
    ensures var s := sys.api;
            && sent.paymentKey in s.payments && s.payments[sent.paymentKey].status == SUCCEEDED
            && ListedPayment(s, window, CaptureWithoutConfirmation, sent.paymentKey)
            && ListedPayment(s, window, RefundInitiatedNotSettled, sent.paymentKey)
  {
    hide TablesOk, Discrepancies, P.ProviderOk, RefundsOk, DeliveriesOk, CallsOk, ToldOk, ListedPayment;
    var s, l, k := sys.api, sys.provider.ledger, sent.paymentKey;
    assert InstructionOk(s, sent);
    KeyedAccountIs(s, l, k);
    if s.payments[k].status == PaymentStatus.REFUNDED { ReturnedWithinPaid(w, sys, k); }
    ZeroHasNoRefundId(w, sys, sent);
    SettledRowIsListed(s, window, k);
    KeyedRowIsListed(s, window, k);
  }

  /** A payment with a refund key was captured, for a booking that ended, and any refund it names is its charge's. */
  lemma KeyedAccountIs(s: Api, l: L.State, k: Key)
    requires TablesOk(s, l) && k in s.payments && s.payments[k].refundKey.Some? && s.payments[k].chargeId.Some?
    ensures s.payments[k].bookingId < |s.bookings| && s.payments[k].status in {SUCCEEDED, PaymentStatus.REFUNDED}
    ensures s.payments[k].status == SUCCEEDED ==> s.bookings[s.payments[k].bookingId].status in {EXPIRED, CANCELLED}
    ensures s.payments[k].refundId.Some? ==> RefundOf(l, s.payments[k].refundId.value, s.payments[k].chargeId.value)
  {
    AccountOfKey(s, l, k);
  }

  lemma ZeroHasNoRefundId(w: World, sys: System, sent: Instruction)
    requires MoneyOk(w, sys) && sent in sys.sent && sent.amountMinor == 0 && sent.paymentKey in sys.api.payments
    ensures sys.api.payments[sent.paymentKey].refundId.None?
  {
    hide TablesOk, P.ProviderOk, DeliveriesOk, CallsOk, ToldOk;
    var s, l, k := sys.api, sys.provider.ledger, sent.paymentKey;
    assert InstructionOk(s, sent);
    KeyedAccountIs(s, l, k);
    assert s.payments[k].refundId.Some? ==> RefundBacked(sys.sent, l.refunds[s.payments[k].refundId.value]);
  }

  lemma KeyedRowIsListed(s: Api, w: Window, k: Key)
    requires k in s.payments && s.payments[k].bookingId < |s.bookings| && s.payments[k].status != PaymentStatus.REFUNDED
    requires s.payments[k].refundKey.Some? && s.payments[k].refundId.None?
    ensures ListedPayment(s, w, RefundInitiatedNotSettled, k)
  {
  }

  /**
   * A cancellation is worth nothing exactly when neither part, at the rung's
   * percentage, comes to one minor unit.
   */
  lemma WorthNothingIff(b: Booking, now: int)
    requires WellPriced(b) && Frozen(b)
    ensures var split := SplitTotals(b.totalMinor, HalfHours(b.startsAt, b.endsAt), b.items);
            var tier := SelectTier(b.policySnapshot.value.tiers, HoursBefore(b.startsAt, now));
            && CancellationRefund(b, now).Some? && tier.Some?
            && (CancellationRefund(b, now).value.totalRefundMinor == 0
                <==> split.roomMinor * tier.value.roomRefundPct < 100 && split.equipmentMinor * tier.value.equipmentRefundPct < 100)
  {
    RefundWithinTotal(b, now);
    var rate: nat :| PricedAt(b, rate);
    RefundIsBoundedAndExact(HalfHours(b.startsAt, b.endsAt), rate, b.items, b.policySnapshot.value.tiers, b.startsAt, now);
    var r := CancellationRefund(b, now).value;
    assert ValidTier(r.tier);
    var split := SplitTotals(b.totalMinor, HalfHours(b.startsAt, b.endsAt), b.items);
    PercentBounds(split.roomMinor, r.tier.roomRefundPct);
    PercentBounds(split.equipmentMinor, r.tier.equipmentRefundPct);
  }

  /**
   * Cancelling a confirmed booking and settling it instructs the provider to
   * return exactly what its frozen ladder says, once.
   */
  lemma CancellingInstructsTheFrozenRefund(w: World, sys: System, id: BookingId, userId: nat, text: string)
    requires ValidWorld(w) && Reachable(w, sys) && id < |sys.api.bookings| && sys.api.bookings[id].status == CONFIRMED
    ensures var cancelled := Next(w, sys, CancelRequest(id, userId, text));
            && id in cancelled.cancelled && id in cancelled.live.settlements
            && var settled := Next(w, cancelled, SettleCancelled(id));
               CancellationRefund(sys.api.bookings[id], sys.now).Some?
               && exists i :: i in settled.sent && i.bookingId == id && i.paymentKey == ChargeKey(id)
                              && i.amountMinor == CancellationRefund(sys.api.bookings[id], sys.now).value.totalRefundMinor
  {
    hide Reachable, ComputeRefund, CancellationRefund, SettleCancellation, ValidConfig, Announced;
    ConfirmedAccount(w, sys, id);
    NotYetCancelled(w, sys, id);
    var cancelled := Next(w, sys, CancelRequest(id, userId, text));
    SameRefund(sys.api.bookings[id], cancelled.api.bookings[id], sys.now);
    SettleInstructs(cancelled.api, sys.now, id, ChargeKey(id));
    var i := SettleCancellation(cancelled.api, sys.now, id).instruction.value;
    assert i in Next(w, cancelled, SettleCancelled(id)).sent;
  }

  lemma NotYetCancelled(w: World, sys: System, id: BookingId)
    requires ValidWorld(w) && Reachable(w, sys) && id < |sys.api.bookings| && sys.api.bookings[id].status == CONFIRMED
    ensures id !in sys.cancelled
  {
    hide Reachable, MoneyOk, BooksOk, LiveOk;
    ReachableIsOk(w, sys);
  }

  lemma SameRefund(b: Booking, b': Booking, now: int)
    requires b' == b.(status := b'.status, updatedAt := b'.updatedAt)
    ensures CancellationRefund(b', now) == CancellationRefund(b, now)
  {
    hide ComputeRefund, ValidTiers, SplitTotals;
  }

  lemma ConfirmedAccount(w: World, sys: System, id: BookingId)
    requires ValidWorld(w) && Reachable(w, sys) && id < |sys.api.bookings| && sys.api.bookings[id].status == CONFIRMED
    ensures ChargeKey(id) in sys.api.payments && Captured(sys.api.payments[ChargeKey(id)], id)
    ensures sys.api.payments[ChargeKey(id)].chargeId.Some? && sys.api.payments[ChargeKey(id)].refundKey.None?
    ensures CancellationRefund(sys.api.bookings[id], sys.now).Some?
    ensures forall k :: k in sys.api.payments && sys.api.payments[k].bookingId == id ==> k == ChargeKey(id)
  {
    ReachableIsOk(w, sys);
    EveryBookingIsInTheJointTable(w, sys, id);
    hide NotesOk, P.ProviderOk, RefundsOk, BookingsOk, TrailsEndAtStatus, WellPriced, CancellationRefund, ValidTiers, EventsOk, ChargesOk;
    AccountOfKey(sys.api, sys.provider.ledger, ChargeKey(id));
    RefundWithinTotal(sys.api.bookings[id], sys.now);
  }

  lemma SettleInstructs(s: Api, now: int, id: BookingId, key: Key)
    requires id < |s.bookings| && key in s.payments && Captured(s.payments[key], id)
    requires forall k :: k in s.payments && s.payments[k].bookingId == id ==> k == key
    requires s.payments[key].chargeId.Some? && s.payments[key].refundKey.None? && CancellationRefund(s.bookings[id], now).Some?
    ensures var r := SettleCancellation(s, now, id).instruction;
            r.Some? && r.value.bookingId == id && r.value.paymentKey == key
            && r.value.amountMinor == CancellationRefund(s.bookings[id], now).value.totalRefundMinor
  {
  }

  // --- Money is conserved from end to end --------------------------------------------------------------

  /** All that was ever returned on a charge is one instructed refund, within what was paid. */
  ghost predicate RefundedAsInstructed(sys: System, c: ChargeId)
    requires c in sys.provider.ledger.charges
  {
    var ch := sys.provider.ledger.charges[c];
    if ch.refundIds == [] then ch.refundedMinor == 0
    else
      && |ch.refundIds| == 1 && 0 < ch.refundedMinor <= ch.amountMinor
      && RefundOf(sys.provider.ledger, ch.refundIds[0], c)
      && sys.provider.ledger.refunds[ch.refundIds[0]].amountMinor == ch.refundedMinor
      && exists i :: i in sys.sent && i.chargeId == c && i.amountMinor == ch.refundedMinor
  }

  lemma OneRefundPerCharge(w: World, sys: System, r: RefundId, t: RefundId)
    requires MoneyOk(w, sys) && r in sys.provider.ledger.refunds && t in sys.provider.ledger.refunds
    requires sys.provider.ledger.refunds[r].chargeId == sys.provider.ledger.refunds[t].chargeId
    ensures r == t
  {
    hide TablesOk, NotesOk, L.LedgerOk, P.LogOk, P.AllTasksOk, P.AllAnswersOk, P.OutcomesOk;
    var l := sys.provider.ledger;
    assert RefundBacked(sys.sent, l.refunds[r]) && RefundBacked(sys.sent, l.refunds[t]);
    OneRefundPerKey(l, r, t);
  }

  lemma ChargeRefundsAreInstructed(w: World, sys: System, c: ChargeId)
    requires MoneyOk(w, sys) && c in sys.provider.ledger.charges
    ensures RefundedAsInstructed(sys, c)
  {
    hide TablesOk, NotesOk, P.LogOk, P.AllTasksOk, P.AllAnswersOk, P.OutcomesOk;
    var l := sys.provider.ledger;
    var ch := l.charges[c];
    assert L.Backed(l.refunds, c, ch) && L.Settled(ch);
    if ch.refundIds != [] {
      if |ch.refundIds| > 1 { OneRefundPerCharge(w, sys, ch.refundIds[0], ch.refundIds[1]); }
      OneTermSum(l.refunds, ch.refundIds);
      assert RefundBacked(sys.sent, l.refunds[ch.refundIds[0]]);
    }
  }

  lemma OneTermSum(refunds: map<RefundId, L.Refund>, ids: seq<RefundId>)
    requires |ids| == 1 && ids[0] in refunds
    ensures L.SumRefunds(refunds, ids) == refunds[ids[0]].amountMinor
  {
    assert ids[..0] == [];
  }

  /**
   * Booking total, payment and charge are the same amount; the one instruction
   * there may be asks for no more; what the provider returned is that one
   * instruction; and what the API recorded as returned is what the provider returned.
   */
  lemma MoneyIsConserved(w: World, sys: System, c: ChargeId)
    requires ValidWorld(w) && Reachable(w, sys) && c in sys.provider.ledger.charges
    ensures ChargeHasPayment(sys, c) && RefundedAsInstructed(sys, c)
    ensures forall i, j :: i in sys.sent && j in sys.sent && i.chargeId == c && j.chargeId == c ==> i == j
    ensures forall i :: i in sys.sent && i.chargeId == c ==> 0 <= i.amountMinor <= sys.provider.ledger.charges[c].amountMinor
    ensures sys.api.payments[sys.provider.ledger.charges[c].key].status == PaymentStatus.REFUNDED ==>
              sys.api.payments[sys.provider.ledger.charges[c].key].refundedMinor == sys.provider.ledger.charges[c].refundedMinor
  {
    EveryChargeHasItsPayment(w, sys, c);
    ReachableIsOk(w, sys);
    ChargeRefundsAreInstructed(w, sys, c);
    InstructionsWithinCharge(w, sys, c);
    var key := sys.provider.ledger.charges[c].key;
    if sys.api.payments[key].status == PaymentStatus.REFUNDED {
      PaymentsCharge(w, sys, c);
      ReturnedIsRefunded(w, sys, c);
    }
  }

  lemma InstructionsWithinCharge(w: World, sys: System, c: ChargeId)
    requires MoneyOk(w, sys) && c in sys.provider.ledger.charges
    ensures forall i :: i in sys.sent && i.chargeId == c ==>
              i.paymentKey == sys.provider.ledger.charges[c].key && 0 <= i.amountMinor <= sys.provider.ledger.charges[c].amountMinor
  {
    hide P.ProviderOk, DeliveriesOk, CallsOk, ToldOk, AccountOk, RefundsOk;
    forall i | i in sys.sent && i.chargeId == c
      ensures i.paymentKey == sys.provider.ledger.charges[c].key && 0 <= i.amountMinor <= sys.provider.ledger.charges[c].amountMinor
    {
      assert InstructionOk(sys.api, i) && ChargeBacked(sys.api, sys.provider.ledger.charges[c]);
      ChargeIdOfOnePayment(sys.api, sys.provider.ledger, c);
    }
  }

  lemma ReturnedIsRefunded(w: World, sys: System, c: ChargeId)
    requires MoneyOk(w, sys) && KeyedAccountOkAt(sys, c) && RefundedAsInstructed(sys, c)
    requires sys.api.payments[sys.provider.ledger.charges[c].key].status == PaymentStatus.REFUNDED
    requires sys.api.payments[sys.provider.ledger.charges[c].key].chargeId == Some(c)
    ensures sys.api.payments[sys.provider.ledger.charges[c].key].refundedMinor == sys.provider.ledger.charges[c].refundedMinor
  {
    hide TablesOk, NotesOk, P.LogOk, P.AllTasksOk, P.AllAnswersOk, P.OutcomesOk;
    var l := sys.provider.ledger;
    var p := sys.api.payments[l.charges[c].key];
    var r :| r in l.refunds && l.refunds[r].chargeId == c && l.refunds[r].materialised && l.refunds[r].amountMinor == p.refundedMinor;
    assert L.Listed(l.charges, r, l.refunds[r]);
  }

  /**
   * The provider never turns away a refund this API asks for: each request is
   * either the first for its charge and fits, or finds its own earlier claim.
   */
  lemma RefundsAreNeverRefused(w: World, sys: System, i: Instruction, newId: RefundId)
    requires ValidWorld(w) && Reachable(w, sys) && i in sys.sent && i.amountMinor > 0 && newId !in sys.provider.ledger.refunds
    ensures var r := L.OpenRefund(sys.provider.ledger, L.RefundRequest(i.key, i.chargeId, i.amountMinor, None), newId).1;
            r.Created? || r.Replayed?
  {
    ReachableIsOk(w, sys);
    RefundFits(w, sys, i, newId);
  }

  lemma RefundFits(w: World, sys: System, i: Instruction, newId: RefundId)
    requires MoneyOk(w, sys) && i in sys.sent && i.amountMinor > 0 && newId !in sys.provider.ledger.refunds
    ensures var r := L.OpenRefund(sys.provider.ledger, L.RefundRequest(i.key, i.chargeId, i.amountMinor, None), newId).1;
            r.Created? || r.Replayed?
  {
    hide MoneyOk, RefundedAsInstructed;
    var l := sys.provider.ledger;
    InstructedCharge(w, sys, i);
    ChargeRefundsAreInstructed(w, sys, i.chargeId);
    if L.RefundSlot(i.key) in l.idempotency {
      ClaimIsItsOwn(w, sys, i);
    } else {
      UnclaimedIsUnrefunded(w, sys, i.chargeId);
    }
  }

  /** An instructed charge succeeded, for at least the instructed amount. */
  lemma InstructedCharge(w: World, sys: System, i: Instruction)
    requires MoneyOk(w, sys) && i in sys.sent
    ensures CapturedAtProvider(sys.provider.ledger, i.chargeId) && i.key == RefundKey(i.chargeId)
    ensures 0 <= i.amountMinor <= sys.provider.ledger.charges[i.chargeId].amountMinor
  {
    hide P.ProviderOk, DeliveriesOk, CallsOk, ToldOk, RefundsOk, Frozen, Returned;
    assert InstructionOk(sys.api, i);
    AccountOfKey(sys.api, sys.provider.ledger, i.paymentKey);
    InstructionsWithinCharge(w, sys, i.chargeId);
  }

  /** The claim under an instruction's key was made by that very instruction. */
  lemma ClaimIsItsOwn(w: World, sys: System, i: Instruction)
    requires MoneyOk(w, sys) && i in sys.sent && i.key == RefundKey(i.chargeId)
    requires L.RefundSlot(i.key) in sys.provider.ledger.idempotency
    ensures var record := sys.provider.ledger.idempotency[L.RefundSlot(i.key)];
            record.resourceId in sys.provider.ledger.refunds && i.amountMinor >= 0
            && record.fingerprint == L.RefundBody(i.chargeId, i.amountMinor)
  {
    hide TablesOk, DeliveriesOk, CallsOk, ToldOk, P.LogOk, P.AllTasksOk, P.AllAnswersOk, P.OutcomesOk, L.AllBacked, L.AllListed;
    var l := sys.provider.ledger;
    var slot := L.RefundSlot(i.key);
    assert InstructionOk(sys.api, i);
    assert L.Resolves(l.charges, l.refunds, slot, l.idempotency[slot]);
    var rid := l.idempotency[slot].resourceId;
    assert RefundBacked(sys.sent, l.refunds[rid]) && L.RefundClaimed(l.idempotency, rid, l.refunds[rid]);
  }

  lemma UnclaimedIsUnrefunded(w: World, sys: System, c: ChargeId)
    requires MoneyOk(w, sys) && c in sys.provider.ledger.charges && RefundedAsInstructed(sys, c)
    requires L.RefundSlot(RefundKey(c)) !in sys.provider.ledger.idempotency
    ensures sys.provider.ledger.charges[c].refundedMinor == 0
  {
    hide MoneyOk;
    if sys.provider.ledger.charges[c].refundIds != [] { RefundsHoldTheirClaim(w, sys, c); }
  }

  lemma RefundsHoldTheirClaim(w: World, sys: System, c: ChargeId)
    requires MoneyOk(w, sys) && c in sys.provider.ledger.charges && RefundedAsInstructed(sys, c)
    requires sys.provider.ledger.charges[c].refundIds != []
    ensures L.RefundSlot(RefundKey(c)) in sys.provider.ledger.idempotency
  {
    hide TablesOk, NotesOk, P.LogOk, P.AllTasksOk, P.AllAnswersOk, P.OutcomesOk;
    var l := sys.provider.ledger;
    var r := l.charges[c].refundIds[0];
    assert RefundBacked(sys.sent, l.refunds[r]) && L.RefundClaimed(l.idempotency, r, l.refunds[r]);
  }

  // --- At most once -----------------------------------------------------------------------------------

  /** Applying a delivery whose event has already taken effect closes its row and does nothing else. */
  lemma RedeliveryHasNoEffect(w: World, sys: System, row: nat)
    requires ValidWorld(w) && Reachable(w, sys) && row < |sys.api.deliveries|
    requires sys.api.deliveries[row].processedAt.None? && Actionable(sys.api.deliveries[row].body)
    requires EffectTaken(sys.api.events, sys.api.deliveries[row].body)
    ensures ApplyDelivery(sys.api, sys.now, row)
            == Ok(Effect(FinishDelivery(sys.api, sys.now, row, Some(DuplicateEffect)), None))
  {
    ReachableIsOk(w, sys);
    hide BooksOk, CancelledOk, Reachable, AccountOk, ChargesOk, P.ProviderOk, NotesOk, RefundsOk, Gated;
    var body := sys.api.deliveries[row].body;
    assert EventBacked(sys.api, sys.provider.ledger, EventKey(body.chargeId.value, body.event.kind));
    ChargeIdOfOnePayment(sys.api, sys.provider.ledger, body.chargeId.value);
  }

  /** A first capture for a live hold with no valid policy to freeze: the one thing that makes a delivery wait. */
  predicate NoPolicyToFreeze(s: Api, now: int, l: L.State, c: ChargeId, event: EventKind) {
    && event.ChargeSucceeded? && EventKey(c, event) !in s.events
    && c in l.charges && l.charges[c].reference < |s.bookings|
    && !Lapsed(s.bookings[l.charges[c].reference], now)
    && ResolveSnapshot(s, now, s.bookings[l.charges[c].reference].venueId).None?
  }

  /**
   * Every signed delivery about a charge finds its payment: it is never an
   * unknown charge. It is closed with its effect in, unless it is a capture
   * for a live hold and there is no valid policy to freeze; then, and only
   * then, the transaction fails and the row waits.
   */
  lemma DeliveriesAlwaysFindTheirPayment(w: World, sys: System, row: nat)
    requires ValidWorld(w) && Reachable(w, sys) && row < |sys.api.deliveries|
    requires sys.api.deliveries[row].processedAt.None? && Actionable(sys.api.deliveries[row].body)
    ensures var body := sys.api.deliveries[row].body;
            var r := ApplyDelivery(sys.api, sys.now, row);
            && (r.Err? <==> NoPolicyToFreeze(sys.api, sys.now, sys.provider.ledger, body.chargeId.value, body.event.kind))
            && (r.Err? ==> r.error == NoPolicy)
            && (r.Ok? ==> EffectTaken(r.value.after.events, body) && row < |r.value.after.deliveries|
                          && r.value.after.deliveries[row].processedAt == Some(sys.now)
                          && r.value.after.deliveries[row].error != Some(UnknownCharge))
  {
    hide Reachable, MoneyOk, BooksOk, CancelledOk, NoPolicyToFreeze, ApplyDelivery;
    ReachableIsOk(w, sys);
    DeliveryFindsItsPayment(w, sys, row);
  }

  lemma DeliveryFindsItsPayment(w: World, sys: System, row: nat)
    requires MoneyOk(w, sys) && row < |sys.api.deliveries|
    requires sys.api.deliveries[row].processedAt.None? && Actionable(sys.api.deliveries[row].body)
    ensures var body := sys.api.deliveries[row].body;
            var r := ApplyDelivery(sys.api, sys.now, row);
            && (r.Err? <==> NoPolicyToFreeze(sys.api, sys.now, sys.provider.ledger, body.chargeId.value, body.event.kind))
            && (r.Err? ==> r.error == NoPolicy)
            && (r.Ok? ==> EffectTaken(r.value.after.events, body) && row < |r.value.after.deliveries|
                          && r.value.after.deliveries[row].processedAt == Some(sys.now)
                          && r.value.after.deliveries[row].error != Some(UnknownCharge))
  {
    hide MoneyOk, Gated, Announced, EventTrue, Locate, NoPolicyToFreeze;
    WaitingRow(w, sys, row);
    var body := sys.api.deliveries[row].body;
    var c, event := body.chargeId.value, body.event.kind;
    LocatedMoney(w, sys, body);
    AnnouncedIsTrue(w, sys, body);
    if EventKey(c, event) in sys.api.events {
      DoneNeedsNoPolicy(sys.api, sys.now, sys.provider.ledger, c, event);
    } else {
      GateFailsOnlyWithoutPolicy(w, sys, body);
      GatedMoney(w, sys.(api := Locate(sys.api, sys.now, body.reference, c).0), sys.provider.ledger.charges[c].key, c, event,
                 body.refundId, body.amountMinor);
    }
  }

  lemma DoneNeedsNoPolicy(s: Api, now: int, l: L.State, c: ChargeId, event: EventKind)
    requires EventKey(c, event) in s.events
    ensures !NoPolicyToFreeze(s, now, l, c, event)
  {
  }

  lemma CaptureFailsIff(s: Api, now: int, key: Key, c: ChargeId, refundId: Option<RefundId>, amount: Option<int>)
    requires key in s.payments && s.payments[key].bookingId < |s.bookings|
    requires s.bookings[s.payments[key].bookingId].status == PENDING_PAYMENT
    ensures var r := Gated(s, now, key, c, ChargeSucceeded, refundId, amount);
            var b := s.bookings[s.payments[key].bookingId];
            && (r.Err? <==> !Lapsed(b, now) && ResolveSnapshot(s, now, b.venueId).None?)
            && (r.Err? ==> r.error == NoPolicy)
  {
    hide Newest, ValidTiers;
    PoliciesOnly(s, s.(events := s.events[EventKey(c, ChargeSucceeded) := now]), now);
  }

  lemma PoliciesOnly(s: Api, s': Api, now: int)
    requires s.policies == s'.policies
    ensures forall v :: ResolveSnapshot(s, now, v) == ResolveSnapshot(s', now, v)
  {
    hide Newest;
  }

  lemma GateFailsOnlyWithoutPolicy(w: World, sys: System, body: Body)
    requires MoneyOk(w, sys) && Actionable(body) && Announced(sys.provider.log, body)
    requires EventKey(body.chargeId.value, body.event.kind) !in sys.api.events
    requires body.chargeId.value in sys.provider.ledger.charges
    requires var c := body.chargeId.value; var l := sys.provider.ledger;
             Locate(sys.api, sys.now, body.reference, c) == (RecordChargeId(sys.api, sys.now, l.charges[c].key, c), Some(l.charges[c].key))
    ensures var c := body.chargeId.value;
            var located := Locate(sys.api, sys.now, body.reference, c);
            var r := Gated(located.0, sys.now, located.1.value, c, body.event.kind, body.refundId, body.amountMinor);
            && (r.Err? <==> NoPolicyToFreeze(sys.api, sys.now, sys.provider.ledger, c, body.event.kind))
            && (r.Err? ==> r.error == NoPolicy)
  {
    hide MoneyOk, Gated, Announced, Locate, EventTrue, ResolveSnapshot;
    var c, event := body.chargeId.value, body.event.kind;
    var l, now := sys.provider.ledger, sys.now;
    var s, key := RecordChargeId(sys.api, now, l.charges[c].key, c), l.charges[c].key;
    LocatedMoney(w, sys, body);
    AnnouncedIsTrue(w, sys, body);
    var located := sys.(api := s);
    StaysPut(located);
    MoneyHasTables(w, located);
    DueFromTruth(w, located, s, key, c, event, body.refundId, body.amountMinor);
    DueAccount(s, l, key, c, event, body.refundId, body.amountMinor);
    assert ChargeBacked(s, l.charges[c]);
    PoliciesOnly(sys.api, s, now);
    match event
    case ChargeSucceeded => CaptureFailsIff(s, now, key, c, body.refundId, body.amountMinor);
    case ChargeFailed => DeclineShape(s, now, key, c, body.refundId, body.amountMinor);
    case RefundSucceeded => ReturnShape(s, now, key, c, body.refundId, body.amountMinor);
  }

  lemma MoneyHasTables(w: World, sys: System)
    requires MoneyOk(w, sys)
    ensures TablesOk(sys.api, sys.provider.ledger)
  {
  }

  /** A payment's outcome is decided once; a decided payment can only go on from captured to returned. */
  predicate SettlesOn(p: Payment, p': Payment) {
    && PaymentGrows(p, p')
    && match p.status
       case PENDING => true
       case SUCCEEDED => p'.status in {SUCCEEDED, PaymentStatus.REFUNDED}
       case FAILED => p'.status == PaymentStatus.FAILED
       case REFUNDED => p'.status == PaymentStatus.REFUNDED && p'.refundedMinor == p.refundedMinor
  }

  /**
   * Along any run a payment keeps its amount, its charge and its refund key,
   * and each event moves it at most once: no delivery, duplicate, poll or retry
   * ever undoes or repeats an outcome.
   */
  lemma PaymentsOnlySettle(w: World, states: seq<System>, i: nat, j: nat, k: Key)
    requires ValidWorld(w) && Run(w, states) && i <= j < |states| && k in states[i].api.payments
    ensures k in states[j].api.payments && SettlesOn(states[i].api.payments[k], states[j].api.payments[k])
    ensures forall e :: e in states[i].api.events ==> e in states[j].api.events
  {
    hide SystemOk, Run, KeyedAccountOk;
    RunAdvances(w, states, i, j);
    RunKeeps(w, states, i);
    RunKeeps(w, states, j);
    var p, p' := states[i].api.payments[k], states[j].api.payments[k];
    assert PaymentGrows(p, p');
    AccountInSystem(w, states[i], k);
    AccountInSystem(w, states[j], k);
    StatusFollowsEvents(states[i], states[j], k);
    if p.status == PaymentStatus.REFUNDED { RefundedAmountStays(w, states[i], states[j], k); }
  }

  lemma AccountInSystem(w: World, sys: System, k: Key)
    requires ValidWorld(w) && SystemOk(w, sys) && k in sys.api.payments
    ensures KeyedAccountOk(sys.api, sys.provider.ledger, k)
  {
  }

  /** A payment's status is what its charge's events say, and events only accumulate. */
  lemma StatusFollowsEvents(sys: System, sys': System, k: Key)
    requires k in sys.api.payments && k in sys'.api.payments && PaymentGrows(sys.api.payments[k], sys'.api.payments[k])
    requires KeyedAccountOk(sys.api, sys.provider.ledger, k) && KeyedAccountOk(sys'.api, sys'.provider.ledger, k)
    requires forall e :: e in sys.api.events ==> e in sys'.api.events
    ensures var p, p' := sys.api.payments[k], sys'.api.payments[k];
            match p.status
            case PENDING => true
            case SUCCEEDED => p'.status in {SUCCEEDED, PaymentStatus.REFUNDED}
            case FAILED => p'.status == PaymentStatus.FAILED
            case REFUNDED => p'.status == PaymentStatus.REFUNDED
  {
    hide RefundSide, ProviderAgrees, Joint;
  }

  lemma RefundedAmountStays(w: World, sys: System, sys': System, k: Key)
    requires ValidWorld(w) && SystemOk(w, sys) && SystemOk(w, sys') && Advances(sys, sys')
    requires k in sys.api.payments && k in sys'.api.payments && PaymentGrows(sys.api.payments[k], sys'.api.payments[k])
    requires sys.api.payments[k].status == PaymentStatus.REFUNDED && sys'.api.payments[k].status == PaymentStatus.REFUNDED
    ensures sys'.api.payments[k].refundedMinor == sys.api.payments[k].refundedMinor
  {
    ReturnedWithinPaid(w, sys, k);
    ReturnedWithinPaid(w, sys', k);
    hide TablesOk, RefundsOk, P.ProviderOk, BooksOk, CancelledOk, DeliveriesOk, CallsOk, ToldOk;
    var c := sys.api.payments[k].chargeId.value;
    var i :| i in sys.sent && i.chargeId == c && i.amountMinor == sys.api.payments[k].refundedMinor;
    var j :| j in sys'.sent && j.chargeId == c && j.amountMinor == sys'.api.payments[k].refundedMinor;
    assert i in sys'.sent;
  }

  // --- The joint table ------------------------------------------------------------------------------------

  /** Every booking's status, with its payment's status and refund key, is in the joint table. */
  ghost predicate InJointTable(s: Api, id: BookingId)
    requires id < |s.bookings|
  {
    if ChargeKey(id) in s.payments then Joint(s.bookings[id], s.payments[ChargeKey(id)]) else Unpaid(s.bookings[id])
  }

  lemma EveryBookingIsInTheJointTable(w: World, sys: System, id: BookingId)
    requires ValidWorld(w) && Reachable(w, sys) && id < |sys.api.bookings|
    ensures InJointTable(sys.api, id)
    ensures forall k :: k in sys.api.payments && sys.api.payments[k].bookingId == id ==> k == ChargeKey(id)
  {
    ReachableIsOk(w, sys);
    hide BooksOk, CancelledOk, Reachable, P.ProviderOk, NotesOk, RefundsOk;
    forall k | k in sys.api.payments && sys.api.payments[k].bookingId == id ensures k == ChargeKey(id) {
      AccountOfKey(sys.api, sys.provider.ledger, k);
    }
    if ChargeKey(id) in sys.api.payments { AccountOfKey(sys.api, sys.provider.ledger, ChargeKey(id)); }
  }

  // --- Bookings over whole runs --------------------------------------------------------------------------------

  /**
   * In every reachable state: rooms never double-book, no equipment type is
   * over its ceiling at any instant, re-arms stay within their maximum and, when
   * a hold's lifetime fits its re-arm and its cap, deadlines within that cap;
   * and every audit trail is one legal path ending at the booking's status.
   */
  lemma EveryReachableStateIsSafe(w: World, sys: System)
    requires ValidWorld(w) && Reachable(w, sys)
    ensures RoomsExclusive(sys.api.bookings) && NeverOversold(w.cfg, sys.api.bookings, sys.now)
    ensures DeadlinesBounded(w.cfg.env, sys.api.bookings, sys.now) && TrailsEndAtStatus(sys.api)
  {
    ReachableIsOk(w, sys);
  }

  /**
   * The step at which a booking confirmed: paid for, strictly before its
   * deadline, and freezing the policy in force just then for its own venue.
   */
  ghost predicate ConfirmedAt(states: seq<System>, m: nat, id: BookingId) {
    && m + 1 < |states| && id < |states[m].api.bookings| && id < |states[m + 1].api.bookings|
    && var b := states[m].api.bookings[id];
       var b' := states[m + 1].api.bookings[id];
       b.status == PENDING_PAYMENT && b.expiresAt.Some? && states[m].now < b.expiresAt.value
       && b'.status == CONFIRMED && Frozen(b') && b'.policySnapshot.value.snapshotAt == states[m].now
  }

  /**
   * Whatever carries a policy confirmed at some step strictly before its
   * deadline, and carries the very policy then in force for its venue: the
   * venue's own latest, or the platform's when the venue had none.
   */
  lemma {:induction false} PoliciesAreFrozenInTime(w: World, states: seq<System>, n: nat, id: BookingId)
    requires ValidWorld(w) && Run(w, states) && n < |states| && id < |states[n].api.bookings|
    requires states[n].api.bookings[id].policySnapshot.Some?
    ensures exists m :: 0 <= m < n && ConfirmedAt(states, m, id)
                        && states[m + 1].api.bookings[id].policySnapshot == states[n].api.bookings[id].policySnapshot
  {
    hide SystemOk, Run, RowsProceed, RowProceeds;
    RunKeeps(w, states, n);
    PolicyMeansConfirmed(w, states[n], id);
    if n > 0 {
      RunKeeps(w, states, n - 1);
      RunStep(w, states, n - 1);
      PolicyStep(w, states[n - 1], states[n], id);
      StepFreezes(w, states, n - 1);
      if id < |states[n - 1].api.bookings|
         && states[n - 1].api.bookings[id].policySnapshot == states[n].api.bookings[id].policySnapshot {
        PoliciesAreFrozenInTime(w, states, n - 1, id);
      } else {
        assert KeepsOrFreezes(states[n - 1].api.policies, states[n - 1].now, states[n - 1].api.bookings[id], states[n].api.bookings[id]);
        assert ConfirmedAt(states, n - 1, id);
      }
    } else {
      NothingBookedYet(w, states);
    }
  }

  lemma StepFreezes(w: World, states: seq<System>, n: nat)
    requires ValidWorld(w) && Run(w, states) && n + 1 < |states|
    ensures |states[n].api.bookings| <= |states[n + 1].api.bookings|
    ensures Freezes(states[n].api, states[n].now, states[n + 1].api.bookings[..|states[n].api.bookings|])
  {
    hide Next, Possible, Initial, Freezes;
    assert Steps(w, states[n], states[n + 1]);
    var m :| Possible(w, states[n], m) && states[n + 1] == Next(w, states[n], m);
    MoveFreezes(w, states[n], m);
  }

  lemma NothingBookedYet(w: World, states: seq<System>)
    requires ValidWorld(w) && Run(w, states)
    ensures states[0].api.bookings == []
  {
    hide Steps;
  }

  lemma PolicyMeansConfirmed(w: World, sys: System, id: BookingId)
    requires ValidWorld(w) && SystemOk(w, sys) && id < |sys.api.bookings| && sys.api.bookings[id].policySnapshot.Some?
    ensures sys.api.bookings[id].status != HELD
  {
    hide MoneyOk, BookingsOk, TrailsEndAtStatus;
    assert SnapshotOnlyOnceConfirmed(sys.api.bookings[id]);
  }

  /** A policy is either the one the row had, or the row confirms in time with it now. */
  lemma PolicyStep(w: World, sys: System, sys': System, id: BookingId)
    requires RowsProceed(w.cfg.env, sys.api.bookings, sys'.api.bookings, sys.now, sys'.now)
    requires id < |sys'.api.bookings| && sys'.api.bookings[id].policySnapshot.Some? && sys'.api.bookings[id].status != HELD
    ensures id < |sys.api.bookings|
    ensures var b, b' := sys.api.bookings[id], sys'.api.bookings[id];
            b'.policySnapshot == b.policySnapshot
            || (b.status == PENDING_PAYMENT && b.expiresAt.Some? && sys.now < b.expiresAt.value
                && b'.status == CONFIRMED && b'.venueId == b.venueId && Frozen(b'))
  {
    if id < |sys.api.bookings| {
      assert RowProceeds(w.cfg.env, sys.api.bookings[id], sys'.api.bookings[id], sys.now, sys'.now);
    }
  }

  /**
   * A booking that has released its room and equipment never holds them again:
   * a lapsed hold is never re-armed or paid, in any continuation of any run.
   */
  lemma {:induction false} OnceReleasedNeverLive(w: World, states: seq<System>, i: nat, j: nat, id: BookingId)
    requires ValidWorld(w) && Run(w, states) && i <= j < |states| && id < |states[i].api.bookings|
    requires !Live(states[i].api.bookings[id], states[i].now)
    ensures id < |states[j].api.bookings| && !Live(states[j].api.bookings[id], states[j].now)
    ensures states[j].api.bookings[id].status !in {PENDING_PAYMENT, CONFIRMED}
    decreases j
  {
    hide SystemOk, Run;
    if i < j {
      OnceReleasedNeverLive(w, states, i, j - 1, id);
      RunKeeps(w, states, j - 1);
      RunStep(w, states, j - 1);
      assert RowProceeds(w.cfg.env, states[j - 1].api.bookings[id], states[j].api.bookings[id], states[j - 1].now, states[j].now);
    }
  }

  /**
   * Re-arms are counted and bounded; when a hold's lifetime fits its re-arm and
   * its cap, they only ever move a deadline later, never past that cap.
   */
  lemma {:induction false} DeadlinesOnlyMoveLater(w: World, states: seq<System>, i: nat, j: nat, id: BookingId)
    requires ValidWorld(w) && Run(w, states) && i <= j < |states| && id < |states[i].api.bookings|
    ensures id < |states[j].api.bookings|
    ensures var b, b' := states[i].api.bookings[id], states[j].api.bookings[id];
            && b'.createdAt == b.createdAt && b.rearmCount <= b'.rearmCount <= w.cfg.env.maxRearms
            && (ValidEnv(w.cfg.env) && b'.expiresAt.Some? ==>
                  b.expiresAt.Some? && b.expiresAt.value <= b'.expiresAt.value <= b.createdAt + w.cfg.env.maxLifetime)
    decreases j
  {
    hide SystemOk, Run;
    if i < j {
      DeadlinesOnlyMoveLater(w, states, i, j - 1, id);
      RunKeeps(w, states, j - 1);
      RunStep(w, states, j - 1);
      assert RowProceeds(w.cfg.env, states[j - 1].api.bookings[id], states[j].api.bookings[id], states[j - 1].now, states[j].now);
      BoundedDeadline(w, states[j - 1], id);
    }
    RunKeeps(w, states, j);
    BoundedDeadline(w, states[j], id);
  }

  lemma BoundedDeadline(w: World, sys: System, id: BookingId)
    requires ValidWorld(w) && SystemOk(w, sys) && id < |sys.api.bookings|
    ensures DeadlineBounded(w.cfg.env, sys.api.bookings[id], sys.now)
  {
  }

  // --- How a pending payment ends -----------------------------------------------------------------------

  /** The outcome events of a charge. */
  predicate OutcomeRecorded(events: map<EventKey, int>, c: ChargeId) {
    EventKey(c, ChargeSucceeded) in events || EventKey(c, ChargeFailed) in events
  }

  /**
   * A pending payment leaves that state only through an event of its own charge:
   * whatever the move, the charge's outcome is recorded after it and was not before.
   */
  lemma PendingEndsByItsChargeEvent(w: World, sys: System, m: Move, id: BookingId)
    requires ValidWorld(w) && Reachable(w, sys) && Possible(w, sys, m)
    requires id < |sys.api.bookings| && sys.api.bookings[id].status == PENDING_PAYMENT
    ensures var next := Next(w, sys, m);
            id < |next.api.bookings|
            && (next.api.bookings[id].status != PENDING_PAYMENT ==>
                  ChargeKey(id) in next.api.payments && next.api.payments[ChargeKey(id)].chargeId.Some?
                  && var c := next.api.payments[ChargeKey(id)].chargeId.value;
                     OutcomeRecorded(next.api.events, c) && !OutcomeRecorded(sys.api.events, c))
  {
    hide Reachable, SystemOk, Next, Possible, RowsProceed, ValidConfig, TablesOk, OutcomeRecorded;
    ReachableIsOk(w, sys);
    MoveKeeps(w, sys, m);
    var next := Next(w, sys, m);
    SystemTables(w, sys);
    SystemTables(w, next);
    RowsNeverVanish(w, sys, next);
    PendingHasItsPayment(sys.api, sys.provider.ledger, id);
    if next.api.bookings[id].status != PENDING_PAYMENT {
      DecidedHasItsOutcome(next.api, next.provider.ledger, id);
      UndecidedHasNone(sys, next, id);
    }
  }

  lemma SystemTables(w: World, sys: System)
    requires ValidWorld(w) && SystemOk(w, sys)
    ensures TablesOk(sys.api, sys.provider.ledger)
  {
  }

  lemma RowsNeverVanish(w: World, sys: System, next: System)
    requires ValidWorld(w) && RowsProceed(w.cfg.env, sys.api.bookings, next.api.bookings, sys.now, next.now)
    ensures |sys.api.bookings| <= |next.api.bookings|
  {
  }

  lemma PendingHasItsPayment(s: Api, l: L.State, id: BookingId)
    requires TablesOk(s, l) && id < |s.bookings| && s.bookings[id].status == PENDING_PAYMENT
    ensures ChargeKey(id) in s.payments && s.payments[ChargeKey(id)].status == PENDING
  {
    if ChargeKey(id) in s.payments { AccountOfKey(s, l, ChargeKey(id)); }
  }

  lemma DecidedHasItsOutcome(s: Api, l: L.State, id: BookingId)
    requires TablesOk(s, l) && id < |s.bookings| && s.bookings[id].status != PENDING_PAYMENT && ChargeKey(id) in s.payments
    ensures s.payments[ChargeKey(id)].chargeId.Some? && OutcomeRecorded(s.events, s.payments[ChargeKey(id)].chargeId.value)
  {
    AccountOfKey(s, l, ChargeKey(id));
  }

  lemma UndecidedHasNone(sys: System, next: System, id: BookingId)
    requires TablesOk(sys.api, sys.provider.ledger) && TablesOk(next.api, next.provider.ledger) && TablesGrow(sys.api, next.api)
    requires ChargeKey(id) in sys.api.payments && sys.api.payments[ChargeKey(id)].status == PENDING
    requires ChargeKey(id) in next.api.payments && next.api.payments[ChargeKey(id)].chargeId.Some?
    ensures !OutcomeRecorded(sys.api.events, next.api.payments[ChargeKey(id)].chargeId.value)
  {
    hide TablesOk, TablesGrow;
    var k := ChargeKey(id);
    var c := next.api.payments[k].chargeId.value;
    forall event | EventKey(c, event) in sys.api.events ensures sys.api.payments[k].chargeId == Some(c) {
      RecordedIsCarried(sys, next, k, c, event);
    }
    if sys.api.payments[k].chargeId == Some(c) { PendingHasNoOutcome(sys.api, sys.provider.ledger, k, c); }
  }

  /** A charge with a recorded event was carried by the payment that carries it now. */
  lemma RecordedIsCarried(sys: System, next: System, k: Key, c: ChargeId, event: EventKind)
    requires TablesOk(sys.api, sys.provider.ledger) && TablesOk(next.api, next.provider.ledger) && TablesGrow(sys.api, next.api)
    requires HasCharge(next.api, k, c) && EventKey(c, event) in sys.api.events
    ensures HasCharge(sys.api, k, c)
  {
    hide AccountsOk, UnpaidOk, ChargesOk;
    assert EventBacked(sys.api, sys.provider.ledger, EventKey(c, event));
    var j := sys.provider.ledger.charges[c].key;
    assert PaymentGrows(sys.api.payments[j], next.api.payments[j]);
    CarriersAgree(next.api, next.provider.ledger, j, k, c);
  }

  lemma PendingHasNoOutcome(s: Api, l: L.State, k: Key, c: ChargeId)
    requires TablesOk(s, l) && k in s.payments && s.payments[k].status == PENDING && s.payments[k].chargeId == Some(c)
    ensures !OutcomeRecorded(s.events, c)
  {
    AccountOfKey(s, l, k);
  }
}
