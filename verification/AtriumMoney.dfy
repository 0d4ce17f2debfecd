/** What every move keeps about money: in the API's tables, at the provider and between the two. */
module AtriumMoney {
  import opened Wrappers
  import opened RefundPolicy
  import opened Ids
  import opened Database
  import opened BookingStateMachine
  import opened BookingsService
  import opened PaymentsService
  import opened Accounts
  import opened AtriumSystem
  import opened AtriumBookings
  import opened BookingInvariants
  import L = Ledger
  import P = Paygate

  /** Every instruction matches its payment, and no charge was ever given two. */
  ghost predicate SentOk(s: Api, sent: set<Instruction>) {
    && (forall i :: i in sent ==> InstructionOk(s, i))
    && (forall i, j :: i in sent && j in sent && i.chargeId == j.chargeId ==> i == j)
  }

  ghost predicate RefundBacked(sent: set<Instruction>, r: L.Refund) {
    && r.key == RefundKey(r.chargeId) && r.amountMinor > 0
    && exists i :: i in sent && i.chargeId == r.chargeId && i.amountMinor == r.amountMinor
  }

  /** Every refund at the provider was instructed, for that charge and that amount. */
  ghost predicate RefundsOk(l: L.State, sent: set<Instruction>) {
    forall r :: r in l.refunds ==> RefundBacked(sent, l.refunds[r])
  }

  predicate EffectTaken(events: map<EventKey, int>, body: Body)
    requires Actionable(body)
  {
    EventKey(body.chargeId.value, body.event.kind) in events
  }

  /** A signed row says what the provider announced; it is closed only once its effect is in. */
  ghost predicate RowTrue(events: map<EventKey, int>, log: seq<P.Dispatch>, d: Delivery) {
    && (!d.signatureValid || d.body.Unparseable? ==> d.processedAt.Some?)
    && (d.signatureValid && Actionable(d.body) ==>
          Announced(log, d.body) && (d.processedAt.Some? ==> EffectTaken(events, d.body)))
  }

  ghost predicate DeliveriesOk(s: Api, log: seq<P.Dispatch>) {
    forall i :: 0 <= i < |s.deliveries| ==> RowTrue(s.events, log, s.deliveries[i])
  }

  /** The row was committed before the call, for the amount the call carries. */
  ghost predicate CallsOk(s: Api, calls: set<Call>) {
    forall c :: c in calls ==> ChargeKey(c.bookingId) in s.payments && s.payments[ChargeKey(c.bookingId)].amountMinor == c.amountMinor
  }

  ghost predicate CancelledOk(s: Api, cancelled: set<BookingId>) {
    forall id :: id in cancelled ==> id < |s.bookings| && s.bookings[id].status in {CANCELLED, BookingStatus.REFUNDED}
  }

  ghost predicate ToldOk(s: Api, l: L.State, told: set<ChargeId>) {
    forall c :: c in told ==> c in l.charges && HasCharge(s, l.charges[c].key, c)
  }

  ghost predicate NotesOk(sys: System) {
    && SentOk(sys.api, sys.sent) && DeliveriesOk(sys.api, sys.provider.log) && CallsOk(sys.api, sys.calls)
    && ToldOk(sys.api, sys.provider.ledger, sys.told)
  }

  ghost predicate MoneyOk(w: World, sys: System) {
    && P.ProviderOk(sys.provider, w.declineAmount) && TablesOk(sys.api, sys.provider.ledger)
    && RefundsOk(sys.provider.ledger, sys.sent) && NotesOk(sys)
  }

  /** Payments, events, instructions, answers and charges only ever accumulate. */
  ghost predicate Advances(sys: System, sys': System) {
    && TablesGrow(sys.api, sys'.api)
    && sys.calls <= sys'.calls && sys.sent <= sys'.sent && sys.told <= sys'.told
    && (sys'.provider == sys.provider
        || (L.Grows(sys.provider.ledger, sys'.provider.ledger) && sys.provider.log <= sys'.provider.log))
  }

  ghost predicate MoneyMoves(w: World, sys: System, sys': System) { MoneyOk(w, sys') && Advances(sys, sys') }

  lemma TablesGrowTransitive(a: Api, b: Api, c: Api)
    requires TablesGrow(a, b) && TablesGrow(b, c)
    ensures TablesGrow(a, c)
  {
    forall k | k in a.payments ensures k in c.payments && PaymentGrows(a.payments[k], c.payments[k]) {
      assert PaymentGrows(a.payments[k], b.payments[k]) && PaymentGrows(b.payments[k], c.payments[k]);
    }
  }

  lemma AdvancesTransitive(a: System, b: System, c: System)
    requires Advances(a, b) && Advances(b, c)
    ensures Advances(a, c)
  {
    hide L.Grows, TablesGrow;
    TablesGrowTransitive(a.api, b.api, c.api);
    if a.provider != b.provider && b.provider != c.provider {
      L.GrowsTransitive(a.provider.ledger, b.provider.ledger, c.provider.ledger);
    }
  }

  lemma StaysPut(sys: System)
    ensures Advances(sys, sys)
  {
  }

  /** What is under way was sent, cancelled, started or logged; nothing of no amount is asked for. */
  ghost predicate LiveOk(sys: System) {
    && sys.live.refundCalls <= sys.sent && sys.live.awaited <= sys.sent && sys.live.settlements <= sys.cancelled
    && sys.live.tasks <= sys.provider.tasks
    && (forall i :: i in sys.live.dispatches ==> i < |sys.provider.log|)
    && (forall i :: i in sys.live.refundCalls || i in sys.live.awaited ==> i.amountMinor > 0)
  }

  // --- The API moves, the provider does not ------------------------------------------------

  /** Growing tables keep what was sent, called, told and delivered. */
  lemma NotesStay(sys: System, s': Api)
    requires NotesOk(sys) && TablesGrow(sys.api, s') && s'.deliveries == sys.api.deliveries
    ensures NotesOk(sys.(api := s'))
  {
    hide Announced;
    var s := sys.api;
    forall i | i in sys.sent ensures InstructionOk(s', i) {
      assert InstructionOk(s, i) && PaymentGrows(s.payments[i.paymentKey], s'.payments[i.paymentKey]);
    }
    forall i | 0 <= i < |s'.deliveries| ensures RowTrue(s'.events, sys.provider.log, s'.deliveries[i]) {
      assert RowTrue(s.events, sys.provider.log, s.deliveries[i]);
    }
    forall c | c in sys.calls
      ensures ChargeKey(c.bookingId) in s'.payments && s'.payments[ChargeKey(c.bookingId)].amountMinor == c.amountMinor
    {
      assert PaymentGrows(s.payments[ChargeKey(c.bookingId)], s'.payments[ChargeKey(c.bookingId)]);
    }
    forall c | c in sys.told ensures HasCharge(s', sys.provider.ledger.charges[c].key, c) {
      var k := sys.provider.ledger.charges[c].key;
      assert HasCharge(s, k, c) && PaymentGrows(s.payments[k], s'.payments[k]);
    }
  }

  lemma TablesMove(w: World, sys: System, s': Api)
    requires MoneyOk(w, sys) && TablesOk(s', sys.provider.ledger) && TablesGrow(sys.api, s')
    requires s'.deliveries == sys.api.deliveries
    ensures MoneyMoves(w, sys, sys.(api := s'))
  {
    hide TablesOk, TablesGrow, NotesOk, P.ProviderOk;
    NotesStay(sys, s');
  }

  /** One more instruction, for a payment that had no refund key before. */
  lemma InstructionAdds(sys: System, s': Api, i: Instruction)
    requires SentOk(sys.api, sys.sent) && SentOk(s', sys.sent) && InstructionOk(s', i)
    requires i.paymentKey in sys.api.payments && sys.api.payments[i.paymentKey].refundKey.None?
    requires forall k :: k in s'.payments && s'.payments[k].chargeId == Some(i.chargeId) ==> k == i.paymentKey
    ensures SentOk(s', sys.sent + {i})
  {
    forall j | j in sys.sent ensures j.chargeId != i.chargeId {
      assert InstructionOk(sys.api, j) && InstructionOk(s', j);
    }
  }

  lemma EffectMoves(w: World, sys: System, e: Effect)
    requires MoneyOk(w, sys) && TablesOk(e.after, sys.provider.ledger) && TablesGrow(sys.api, e.after)
    requires e.after.deliveries == sys.api.deliveries
    requires e.instruction.Some? ==>
      InstructionOk(e.after, e.instruction.value) && e.instruction.value.paymentKey in sys.api.payments
      && sys.api.payments[e.instruction.value.paymentKey].refundKey.None?
    ensures MoneyMoves(w, sys, Took(sys, Ok(e)))
  {
    hide TablesGrow, TablesOk, P.ProviderOk, DeliveriesOk, CallsOk, ToldOk, L.LedgerOk, RefundsOk, InstructionOk;
    var s' := e.after;
    NotesStay(sys, s');
    if e.instruction.Some? {
      var i := e.instruction.value;
      OneKeyPerCharge(s', sys.provider.ledger, i);
      InstructionAdds(sys, s', i);
      RefundsStayBacked(sys.provider.ledger, sys.sent, i);
    } else {
      assert Took(sys, Ok(e)).sent == sys.sent;
    }
  }

  lemma RefundsStayBacked(l: L.State, sent: set<Instruction>, i: Instruction)
    requires RefundsOk(l, sent)
    ensures RefundsOk(l, sent + {i})
  {
    forall r | r in l.refunds ensures RefundBacked(sent + {i}, l.refunds[r]) {
      assert RefundBacked(sent, l.refunds[r]);
      var j :| j in sent && j.chargeId == l.refunds[r].chargeId && j.amountMinor == l.refunds[r].amountMinor;
      assert j in sent + {i};
    }
  }

  lemma OneKeyPerCharge(s: Api, l: L.State, i: Instruction)
    requires TablesOk(s, l) && InstructionOk(s, i)
    ensures forall k :: k in s.payments && s.payments[k].chargeId == Some(i.chargeId) ==> k == i.paymentKey
  {
    hide AccountOk;
    ChargeIdOfOnePayment(s, l, i.chargeId);
  }

  // --- What a delivery or an answer says is true ---------------------------------------------

  /** A dispatch the provider logged is true of its ledger, and names the booking that paid. */
  lemma AnnouncedIsTrue(w: World, sys: System, body: Body)
    requires MoneyOk(w, sys) && Actionable(body) && Announced(sys.provider.log, body)
    ensures var l := sys.provider.ledger; var c := body.chargeId.value;
            && EventTrue(l, c, body.event.kind, body.refundId, body.amountMinor)
            && body.reference == Some(BookingRef(l.charges[c].reference))
  {
    hide TablesOk, NotesOk, RefundsOk, L.RecordsResolve, L.ChargesClaimed, L.RefundsClaimed, L.AllBacked, EventTrue, BodyOf,
      P.Truthful, P.AllTasksOk, P.AllAnswersOk, P.OutcomesOk;
    var p := sys.provider;
    var i :| 0 <= i < |p.log| && body == BodyOf(p.log[i]);
    assert P.Truthful(p.ledger, p.log[i]);
    DispatchIsTrue(p.ledger, p.log[i]);
  }

  lemma DispatchIsTrue(l: L.State, d: P.Dispatch)
    requires L.AllListed(l.charges, l.refunds) && P.Truthful(l, d)
    ensures var body := BodyOf(d); var c := body.chargeId.value;
            && EventTrue(l, c, body.event.kind, body.refundId, body.amountMinor)
            && body.reference == Some(BookingRef(l.charges[c].reference))
  {
    if d.RefundDone? { assert L.Listed(l.charges, d.refundId, l.refunds[d.refundId]); }
  }

  // --- Moves of the API that touch no payment ----------------------------------------------------

  lemma BookingsOnly(w: World, sys: System, s': Api)
    requires MoneyOk(w, sys) && s'.payments == sys.api.payments && s'.events == sys.api.events
    requires s'.deliveries == sys.api.deliveries && |sys.api.bookings| <= |s'.bookings|
    requires forall i :: 0 <= i < |sys.api.bookings| ==> MovesUnpaid(sys.api.bookings[i], s'.bookings[i])
    requires forall i :: |sys.api.bookings| <= i < |s'.bookings| ==> Unpaid(s'.bookings[i])
    ensures MoneyMoves(w, sys, sys.(api := s'))
  {
    hide NotesOk, RefundsOk, P.ProviderOk, TablesOk, TablesGrow;
    BookingsMoveKeeps(sys.api, s', sys.provider.ledger);
    TablesMove(w, sys, s');
  }

  lemma ExpiringMovesUnpaid(s: Api, now: int, ids: seq<BookingId>, reason: Reason)
    requires StaleBatch(s.bookings, now, ids)
    ensures var s' := ExpireRows(s, now, ids, reason);
            |s'.bookings| == |s.bookings|
            && forall i :: 0 <= i < |s.bookings| ==> MovesUnpaid(s.bookings[i], s'.bookings[i])
  {
    var s' := ExpireRows(s, now, ids, reason);
    forall i | 0 <= i < |s.bookings| ensures MovesUnpaid(s.bookings[i], s'.bookings[i]) {
      if i in ids { var k :| 0 <= k < |ids| && ids[k] == i; assert Stale(s.bookings[i], now); }
    }
  }

  lemma HoldMoney(w: World, sys: System, input: HoldInput, userId: nat)
    requires ValidConfig(w.cfg) && ValidHold(input) && MoneyOk(w, sys)
    ensures MoneyMoves(w, sys, sys.(api := Committed(sys.api, Hold(w.cfg, sys.api, sys.now, input, userId))))
  {
    hide MoneyOk, Bookable, AdmitEquipment, SlotFree, HoldOnce, NewHold, ExpireRows, StaleInRoom;
    var s, now := sys.api, sys.now;
    var r := Hold(w.cfg, s, now, input, userId);
    if r.Ok? {
      HoldShape(w.cfg, s, now, input, userId);
      var cleared := ExpireStaleHoldsForRoom(s, now, input.roomId);
      ClearingRoomEvolves(w.cfg.env, s, now, input.roomId);
      ExpiringMovesUnpaid(s, now, StaleInRoom(s.bookings, input.roomId, now, |s.bookings|), HoldExpiredInTransaction);
      NewHoldIsPriced(w.cfg, now, input, userId, r.value.bookings[|s.bookings|].items);
      BookingsOnly(w, sys, r.value);
    }
  }

  lemma CancelMoney(w: World, sys: System, id: BookingId, userId: nat, text: string)
    requires MoneyOk(w, sys)
    ensures MoneyMoves(w, sys, sys.(api := Committed(sys.api, Cancel(sys.api, sys.now, id, userId, text))))
  {
    hide MoneyOk, Frozen;
    var s' := Committed(sys.api, Cancel(sys.api, sys.now, id, userId, text));
    assert forall i :: 0 <= i < |sys.api.bookings| ==> Frozen(sys.api.bookings[i]) ==> Frozen(s'.bookings[i]) by {
      FrozenBySnapshot();
    }
    BookingsOnly(w, sys, s');
  }

  lemma FrozenBySnapshot()
    ensures forall b: Booking, b': Booking :: b.policySnapshot == b'.policySnapshot && Frozen(b) ==> Frozen(b')
  {
  }

  lemma RearmMoney(w: World, sys: System, id: BookingId, userId: nat)
    requires MoneyOk(w, sys)
    ensures MoneyMoves(w, sys, sys.(api := Committed(sys.api, Checkout(w.cfg, sys.api, sys.now, id, userId))))
  {
    hide MoneyOk, Frozen;
    FrozenBySnapshot();
    BookingsOnly(w, sys, Committed(sys.api, Checkout(w.cfg, sys.api, sys.now, id, userId)));
  }

  lemma SweepMoney(w: World, sys: System, ids: seq<BookingId>)
    requires MoneyOk(w, sys) && StaleBatch(sys.api.bookings, sys.now, ids)
    ensures MoneyMoves(w, sys, sys.(api := ExpireRows(sys.api, sys.now, ids, HoldExpiredSweeper)))
  {
    hide MoneyOk;
    ExpiringMovesUnpaid(sys.api, sys.now, ids, HoldExpiredSweeper);
    BookingsOnly(w, sys, ExpireRows(sys.api, sys.now, ids, HoldExpiredSweeper));
  }

  // --- Paying -------------------------------------------------------------------------------------

  lemma PayMoney(w: World, sys: System, id: BookingId, userId: nat)
    requires MoneyOk(w, sys)
    ensures MoneyMoves(w, sys, Paid(sys, id, PayPrepare(sys.api, sys.now, id, userId)))
  {
    hide TablesOk, TablesGrow, P.ProviderOk, SentOk, DeliveriesOk, ToldOk, RefundsOk, PayPrepare;
    StaysPut(sys);
    var r := PayPrepare(sys.api, sys.now, id, userId);
    if r.Ok? {
      var after := r.value.after;
      PayKeeps(sys.api, sys.provider.ledger, sys.now, id, userId);
      PayTouchesNoDelivery(sys.api, sys.now, id, userId);
      TablesMove(w, sys, after);
    }
  }

  lemma PayTouchesNoDelivery(s: Api, now: int, id: BookingId, userId: nat)
    requires PayPrepare(s, now, id, userId).Ok?
    ensures PayPrepare(s, now, id, userId).value.after.deliveries == s.deliveries
  {
  }

  // --- The provider moves ---------------------------------------------------------------------------

  lemma NewChargesAreBacked(w: World, sys: System, step: P.Step)
    requires MoneyOk(w, sys) && LiveOk(sys) && P.Enabled(sys.provider, step) && Asked(sys, step)
    ensures var l' := P.Next(sys.provider, step, w.declineAmount).ledger;
            forall c :: c in l'.charges && c !in sys.provider.ledger.charges ==> ChargeBacked(sys.api, l'.charges[c])
  {
    hide TablesOk, P.ProviderOk, RefundsOk, SentOk, DeliveriesOk, ToldOk;
    match step
    case PostCharge(r, newId) =>
      assert ChargeKey(r.reference) in sys.api.payments;
    case PostRefund(r, newId) =>
    case RunTask(task) =>
  }

  lemma RefundsOnlySettle(p: P.Provider, step: P.Step, declineAmount: int)
    requires P.Enabled(p, step)
    ensures var l' := P.Next(p, step, declineAmount).ledger;
            && (forall r :: r in p.ledger.refunds ==> r in l'.refunds && L.RefundGrows(p.ledger.refunds[r], l'.refunds[r]))
            && (forall r :: r in l'.refunds && r !in p.ledger.refunds ==>
                  step.PostRefund? && l'.refunds[r].key == step.refund.key && l'.refunds[r].chargeId == step.refund.chargeId
                  && l'.refunds[r].amountMinor == step.refund.amountMinor > 0)
  {
  }

  lemma NewRefundsAreBacked(w: World, sys: System, step: P.Step)
    requires MoneyOk(w, sys) && LiveOk(sys) && P.Enabled(sys.provider, step) && Asked(sys, step)
    ensures RefundsOk(P.Next(sys.provider, step, w.declineAmount).ledger, sys.sent)
  {
    hide TablesOk, P.ProviderOk, DeliveriesOk, ToldOk, CallsOk;
    var l := sys.provider.ledger;
    var l' := P.Next(sys.provider, step, w.declineAmount).ledger;
    RefundsOnlySettle(sys.provider, step, w.declineAmount);
    hide P.Next;
    forall r | r in l'.refunds ensures RefundBacked(sys.sent, l'.refunds[r]) {
      if r in l.refunds {
        assert RefundBacked(sys.sent, l.refunds[r]);
      } else {
        assert step.PostRefund?;
        var i :| i in sys.live.refundCalls && i.key == step.refund.key && i.chargeId == step.refund.chargeId
                 && i.amountMinor == step.refund.amountMinor;
        assert InstructionOk(sys.api, i);
      }
    }
  }

  lemma LongerLogKeepsRows(s: Api, log: seq<P.Dispatch>, log': seq<P.Dispatch>)
    requires DeliveriesOk(s, log) && log <= log'
    ensures DeliveriesOk(s, log')
  {
    forall i | 0 <= i < |s.deliveries| ensures RowTrue(s.events, log', s.deliveries[i]) {
      var d := s.deliveries[i];
      assert RowTrue(s.events, log, d);
      if d.signatureValid && Actionable(d.body) {
        var k :| 0 <= k < |log| && d.body == BodyOf(log[k]);
        assert d.body == BodyOf(log'[k]);
      }
    }
  }

  lemma ProviderMoney(w: World, sys: System, step: P.Step)
    requires MoneyOk(w, sys) && LiveOk(sys) && P.Enabled(sys.provider, step) && Asked(sys, step)
    ensures MoneyMoves(w, sys, sys.(provider := P.Next(sys.provider, step, w.declineAmount)))
  {
    ProviderKeepsMoney(w, sys, step);
    StaysPut(sys);
    hide MoneyOk, TablesGrow, L.Grows, P.Next;
  }

  lemma ProviderKeepsMoney(w: World, sys: System, step: P.Step)
    requires MoneyOk(w, sys) && LiveOk(sys) && P.Enabled(sys.provider, step) && Asked(sys, step)
    ensures var p' := P.Next(sys.provider, step, w.declineAmount);
            MoneyOk(w, sys.(provider := p')) && L.Grows(sys.provider.ledger, p'.ledger) && sys.provider.log <= p'.log
  {
    hide P.Next, TablesOk, RefundsOk, L.LedgerOk, P.Enabled, SentOk, CallsOk, P.LogOk, P.AllTasksOk, P.AllAnswersOk, P.OutcomesOk,
      Asked, DeliveriesOk, ChargeBacked;
    var p' := P.Next(sys.provider, step, w.declineAmount);
    NewRefundsAreBacked(w, sys, step);
    NewChargesAreBacked(w, sys, step);
    P.ProviderStepKeeps(sys.provider, step, w.declineAmount);
    LedgerGrowsKeeps(sys.api, sys.provider.ledger, p'.ledger);
    LongerLogKeepsRows(sys.api, sys.provider.log, p'.log);
    forall c | c in sys.told ensures c in p'.ledger.charges && HasCharge(sys.api, p'.ledger.charges[c].key, c) {
      assert L.ChargeGrows(sys.provider.ledger.charges[c], p'.ledger.charges[c]);
    }
  }

  // --- Answers ------------------------------------------------------------------------------------------

  lemma HearChargeMoney(w: World, sys: System, key: Key, c: ChargeId)
    requires MoneyOk(w, sys) && P.ChargeAnswer(key, c) in sys.provider.answers
    ensures MoneyMoves(w, sys, sys.(api := RecordChargeId(sys.api, sys.now, key, c), told := sys.told + {c}))
  {
    hide TablesOk, L.LedgerOk, P.LogOk, P.AllTasksOk, P.OutcomesOk, SentOk, DeliveriesOk, CallsOk, RefundsOk, TablesGrow;
    assert P.AnswerOk(sys.provider.ledger, P.ChargeAnswer(key, c));
    RecordChargeIdKeeps(sys.api, sys.provider.ledger, sys.now, key, c);
    TablesMove(w, sys, RecordChargeId(sys.api, sys.now, key, c));
  }

  lemma HearRefundMoney(w: World, sys: System, i: Instruction, refundId: RefundId)
    requires MoneyOk(w, sys) && i in sys.sent && P.RefundAnswer(i.key, refundId) in sys.provider.answers
    ensures MoneyMoves(w, sys, sys.(api := RecordRefundId(sys.api, sys.now, i.paymentKey, refundId)))
  {
    hide TablesOk, L.LedgerOk, P.LogOk, P.AllTasksOk, P.OutcomesOk, DeliveriesOk, CallsOk, TablesGrow, ToldOk;
    assert P.AnswerOk(sys.provider.ledger, P.RefundAnswer(i.key, refundId));
    assert RefundBacked(sys.sent, sys.provider.ledger.refunds[refundId]) && InstructionOk(sys.api, i);
    RecordRefundIdKeeps(sys.api, sys.provider.ledger, sys.now, i, refundId);
    TablesMove(w, sys, RecordRefundId(sys.api, sys.now, i.paymentKey, refundId));
  }

  lemma NoteMoney(w: World, sys: System, key: Key, reason: FailureReason)
    requires MoneyOk(w, sys)
    ensures MoneyMoves(w, sys, sys.(api := RecordFailure(sys.api, sys.now, key, reason)))
  {
    hide TablesOk, TablesGrow, NotesOk, RefundsOk, P.ProviderOk;
    RecordFailureKeeps(sys.api, sys.provider.ledger, sys.now, key, reason);
    TablesMove(w, sys, RecordFailure(sys.api, sys.now, key, reason));
  }

  // --- Deliveries -----------------------------------------------------------------------------------------

  lemma SameMoneyTables(s: Api, s': Api, l: L.State)
    requires TablesOk(s, l) && s'.bookings == s.bookings && s'.payments == s.payments && s'.events == s.events
    ensures TablesOk(s', l) && TablesGrow(s, s')
  {
    forall k | k in s'.payments ensures KeyedAccountOk(s', l, k) { assert KeyedAccountOk(s, l, k); }
    forall e | e in s'.events ensures EventBacked(s', l, e) { assert EventBacked(s, l, e); }
    forall c | c in l.charges ensures ChargeBacked(s', l.charges[c]) { assert ChargeBacked(s, l.charges[c]); }
  }

  lemma DeliveriesMove(w: World, sys: System, s': Api)
    requires MoneyOk(w, sys) && s' == sys.api.(deliveries := s'.deliveries) && DeliveriesOk(s', sys.provider.log)
    ensures MoneyMoves(w, sys, sys.(api := s'))
  {
    hide TablesOk, TablesGrow, RefundsOk, P.ProviderOk, DeliveriesOk;
    SameMoneyTables(sys.api, s', sys.provider.ledger);
    var before := sys.(api := sys.api);
    forall i | i in sys.sent ensures InstructionOk(s', i) { assert InstructionOk(sys.api, i); }
    forall c | c in sys.told ensures HasCharge(s', sys.provider.ledger.charges[c].key, c) {
      assert HasCharge(sys.api, sys.provider.ledger.charges[c].key, c);
    }
  }

  lemma DeliverableIsAnnounced(sys: System, body: Body)
    requires Deliverable(sys, body)
    ensures Announced(sys.provider.log, body)
  {
  }

  lemma ReceiveMoney(w: World, sys: System, id: nat, signatureValid: bool, body: Body)
    requires MoneyOk(w, sys) && (signatureValid && Actionable(body) ==> Deliverable(sys, body))
    ensures MoneyMoves(w, sys, sys.(api := Ingest(sys.api, sys.now, id, signatureValid, body)))
  {
    hide TablesOk, RefundsOk, P.ProviderOk, Announced, SentOk, CallsOk, ToldOk;
    if signatureValid && Actionable(body) { DeliverableIsAnnounced(sys, body); }
    DeliveriesMove(w, sys, Ingest(sys.api, sys.now, id, signatureValid, body));
  }

  /** A due event: what was announced, or answered to a poll, and has not taken effect. */
  lemma DueFromTruth(w: World, sys: System, s: Api, key: Key, c: ChargeId, event: EventKind,
                     refundId: Option<RefundId>, amount: Option<int>)
    requires MoneyOk(w, sys) && TablesGrow(sys.api, s)
    requires HasCharge(s, key, c) && EventTrue(sys.provider.ledger, c, event, refundId, amount)
    requires s.events == sys.api.events && EventKey(c, event) !in s.events
    requires TablesOk(s, sys.provider.ledger)
    ensures Due(s, sys.provider.ledger, key, c, event, refundId, amount)
  {
    hide TablesOk, P.ProviderOk, L.LedgerOk, DeliveriesOk, CallsOk, ToldOk;
    if event == RefundSucceeded {
      var l := sys.provider.ledger;
      var r :| r in l.refunds && l.refunds[r].chargeId == c && l.refunds[r].materialised && l.refunds[r].amountMinor == amount.value;
      assert RefundBacked(sys.sent, l.refunds[r]);
      var i :| i in sys.sent && i.chargeId == c;
      assert InstructionOk(sys.api, i);
      assert PaymentGrows(sys.api.payments[i.paymentKey], s.payments[i.paymentKey]);
      CarriersAgree(s, l, key, i.paymentKey, c);
    }
  }

  lemma CarriersAgree(s: Api, l: L.State, j: Key, k: Key, c: ChargeId)
    requires TablesOk(s, l) && HasCharge(s, j, c) && HasCharge(s, k, c)
    ensures j == k
  {
    hide AccountOk;
    ChargeIdOfOnePayment(s, l, c);
  }

  /** The gate on a state of the system: one true event, at most one instruction. */
  lemma GatedMoney(w: World, sys: System, key: Key, c: ChargeId, event: EventKind, refundId: Option<RefundId>, amount: Option<int>)
    requires MoneyOk(w, sys) && HasCharge(sys.api, key, c) && EventKey(c, event) !in sys.api.events
    requires EventTrue(sys.provider.ledger, c, event, refundId, amount)
    ensures var r := Gated(sys.api, sys.now, key, c, event, refundId, amount);
            && MoneyMoves(w, sys, Took(sys, r))
            && (r.Ok? ==> EventKey(c, event) in r.value.after.events && r.value.after.deliveries == sys.api.deliveries)
  {
    hide TablesOk, NotesOk, RefundsOk, P.ProviderOk, Gated, EventTrue, InstructionOk;
    var r := Gated(sys.api, sys.now, key, c, event, refundId, amount);
    if r.Ok? {
      assert TablesGrow(sys.api, sys.api);
      DueFromTruth(w, sys, sys.api, key, c, event, refundId, amount);
      GatedKeeps(sys.api, sys.provider.ledger, sys.now, key, c, event, refundId, amount);
      EffectMoves(w, sys, r.value);
    } else {
      assert Took(sys, r) == sys;
    }
  }

  /** Closing a row whose effect is in, or on which nothing acts, is safe. */
  lemma FinishMoney(w: World, sys: System, row: nat, error: Option<DeliveryError>)
    requires MoneyOk(w, sys) && row < |sys.api.deliveries|
    requires Actionable(sys.api.deliveries[row].body) ==> EffectTaken(sys.api.events, sys.api.deliveries[row].body)
    ensures MoneyMoves(w, sys, sys.(api := FinishDelivery(sys.api, sys.now, row, error)))
  {
    hide TablesOk, RefundsOk, P.ProviderOk, Announced, SentOk, CallsOk, ToldOk;
    var s' := FinishDelivery(sys.api, sys.now, row, error);
    forall i | 0 <= i < |s'.deliveries| ensures RowTrue(s'.events, sys.provider.log, s'.deliveries[i]) {
      assert RowTrue(sys.api.events, sys.provider.log, sys.api.deliveries[i]);
    }
    DeliveriesMove(w, sys, s');
  }

  /** A waiting row is signed, and if anything acts on it the provider announced it. */
  lemma WaitingRow(w: World, sys: System, row: nat)
    requires MoneyOk(w, sys) && row < |sys.api.deliveries| && sys.api.deliveries[row].processedAt.None?
    ensures var d := sys.api.deliveries[row];
            d.signatureValid && d.body.Fields? && (Actionable(d.body) ==> Announced(sys.provider.log, d.body))
  {
    hide TablesOk, RefundsOk, P.ProviderOk, Announced, SentOk, CallsOk, ToldOk;
    assert RowTrue(sys.api.events, sys.provider.log, sys.api.deliveries[row]);
  }

  /** The payment a true delivery is for is found, whether its 202 was recorded or not. */
  lemma LocatedMoney(w: World, sys: System, body: Body)
    requires MoneyOk(w, sys) && Actionable(body) && Announced(sys.provider.log, body)
    ensures var c := body.chargeId.value; var l := sys.provider.ledger;
            var r := Locate(sys.api, sys.now, body.reference, c);
            && c in l.charges && r.1 == Some(l.charges[c].key)
            && r.0 == RecordChargeId(sys.api, sys.now, l.charges[c].key, c)
            && MoneyMoves(w, sys, sys.(api := r.0)) && HasCharge(r.0, l.charges[c].key, c)
            && r.0.deliveries == sys.api.deliveries && r.0.events == sys.api.events
  {
    AnnouncedIsTrue(w, sys, body);
    hide TablesOk, TablesGrow, NotesOk, RefundsOk, L.LedgerOk, P.LogOk, P.OutcomesOk, P.AllTasksOk, P.AllAnswersOk;
    var c := body.chargeId.value;
    var l := sys.provider.ledger;
    AdoptionIsTheGuardedWrite(sys.api, l, sys.now, c);
    RecordChargeIdKeeps(sys.api, l, sys.now, l.charges[c].key, c);
    TablesMove(w, sys, RecordChargeId(sys.api, sys.now, l.charges[c].key, c));
  }

  lemma ApplyMoney(w: World, sys: System, row: nat)
    requires MoneyOk(w, sys)
    ensures MoneyMoves(w, sys, Took(sys, ApplyDelivery(sys.api, sys.now, row)))
  {
    hide MoneyOk, Gated, Announced;
    var s, now := sys.api, sys.now;
    if row < |s.deliveries| && s.deliveries[row].processedAt.None? {
      WaitingRow(w, sys, row);
      var body := s.deliveries[row].body;
      if !Actionable(body) {
        FinishMoney(w, sys, row, Some(UnsupportedEvent));
        assert Took(sys, ApplyDelivery(s, now, row)) == sys.(api := FinishDelivery(s, now, row, Some(UnsupportedEvent)));
      } else {
        LocatedMoney(w, sys, body);
        AnnouncedIsTrue(w, sys, body);
        var located := Locate(s, now, body.reference, body.chargeId.value).0;
        ApplyLocated(w, sys, row, located);
      }
    } else {
      assert Took(sys, ApplyDelivery(s, now, row)) == sys;
    }
  }

  lemma ApplyLocated(w: World, sys: System, row: nat, located: Api)
    requires row < |sys.api.deliveries| && sys.api.deliveries[row].processedAt.None?
    requires var body := sys.api.deliveries[row].body;
             && Actionable(body) && body.chargeId.value in sys.provider.ledger.charges
             && EventTrue(sys.provider.ledger, body.chargeId.value, body.event.kind, body.refundId, body.amountMinor)
             && Locate(sys.api, sys.now, body.reference, body.chargeId.value)
                == (located, Some(sys.provider.ledger.charges[body.chargeId.value].key))
             && HasCharge(located, sys.provider.ledger.charges[body.chargeId.value].key, body.chargeId.value)
    requires MoneyOk(w, sys) && MoneyMoves(w, sys, sys.(api := located))
    requires located.deliveries == sys.api.deliveries && located.events == sys.api.events
    ensures MoneyMoves(w, sys, Took(sys, ApplyDelivery(sys.api, sys.now, row)))
  {
    hide MoneyOk, Gated, EventTrue, Locate;
    var body := sys.api.deliveries[row].body;
    var c, event := body.chargeId.value, body.event.kind;
    var key := sys.provider.ledger.charges[c].key;
    var claim := sys.(api := located);
    var whole := Took(sys, ApplyDelivery(sys.api, sys.now, row));
    if EventKey(c, event) in located.events {
      FinishMoney(w, claim, row, Some(DuplicateEffect));
      assert whole == sys.(api := FinishDelivery(located, sys.now, row, Some(DuplicateEffect)));
    } else {
      GatedMoney(w, claim, key, c, event, body.refundId, body.amountMinor);
      var r := Gated(located, sys.now, key, c, event, body.refundId, body.amountMinor);
      if r.Err? {
        assert whole == sys;
      } else {
        var applied := Took(claim, r);
        FinishMoney(w, applied, row, None);
        assert whole == applied.(api := FinishDelivery(applied.api, sys.now, row, None));
      }
    }
  }

  // --- Polls and settlements --------------------------------------------------------------------------

  lemma AskChargeMoney(w: World, sys: System, key: Key, c: ChargeId, answer: ChargeAnswer)
    requires MoneyOk(w, sys) && HasCharge(sys.api, key, c) && ChargeAnswerTrue(sys.provider.ledger, c, answer)
    ensures MoneyMoves(w, sys, Took(sys, PollCharge(sys.api, sys.now, key, c, answer)))
  {
    hide MoneyOk, Gated;
    var whole := Took(sys, PollCharge(sys.api, sys.now, key, c, answer));
    match answer
    case Missing =>
      NoteMoney(w, sys, key, UnknownToProvider);
      assert whole == sys.(api := RecordFailure(sys.api, sys.now, key, UnknownToProvider));
    case StillProcessing => assert whole == sys;
    case Decided(succeeded) =>
      var event := if succeeded then ChargeSucceeded else ChargeFailed;
      DecidedIsTrue(w, sys, c, succeeded);
      if EventKey(c, event) in sys.api.events {
        assert whole == sys;
      } else {
        GatedMoney(w, sys, key, c, event, None, None);
      }
  }

  lemma DecidedIsTrue(w: World, sys: System, c: ChargeId, succeeded: bool)
    requires MoneyOk(w, sys) && ChargeAnswerTrue(sys.provider.ledger, c, Decided(succeeded))
    ensures EventTrue(sys.provider.ledger, c, if succeeded then ChargeSucceeded else ChargeFailed, None, None)
  {
    hide TablesOk, NotesOk, RefundsOk, P.LogOk, P.OutcomesOk, P.AllTasksOk, P.AllAnswersOk;
    assert L.Settled(sys.provider.ledger.charges[c]);
  }

  lemma AskRefundMoney(w: World, sys: System, key: Key, c: ChargeId, refundId: RefundId, settled: Option<int>)
    requires MoneyOk(w, sys) && HasCharge(sys.api, key, c) && sys.api.payments[key].refundId == Some(refundId)
    requires RefundAnswerTrue(sys.provider.ledger, refundId, settled)
    ensures MoneyMoves(w, sys, Took(sys, PollRefund(sys.api, sys.now, key, c, settled)))
  {
    hide MoneyOk, Gated, EventTrue;
    var whole := Took(sys, PollRefund(sys.api, sys.now, key, c, settled));
    if settled.None? || EventKey(c, RefundSucceeded) in sys.api.events {
      assert whole == sys;
    } else {
      SettledIsTrue(w, sys, key, c, refundId, settled);
      GatedMoney(w, sys, key, c, RefundSucceeded, None, settled);
    }
  }

  lemma SettledIsTrue(w: World, sys: System, key: Key, c: ChargeId, refundId: RefundId, settled: Option<int>)
    requires MoneyOk(w, sys) && HasCharge(sys.api, key, c) && sys.api.payments[key].refundId == Some(refundId)
    requires RefundAnswerTrue(sys.provider.ledger, refundId, settled) && settled.Some?
    ensures EventTrue(sys.provider.ledger, c, RefundSucceeded, None, settled)
  {
    hide NotesOk, RefundsOk, P.ProviderOk;
    AccountOfKey(sys.api, sys.provider.ledger, key);
  }

  lemma SettleMoney(w: World, sys: System, id: BookingId)
    requires MoneyOk(w, sys) && RowsOk(sys.api.bookings) && CancelledOk(sys.api, sys.cancelled) && id in sys.cancelled
    ensures MoneyMoves(w, sys, Took(sys, Ok(SettleCancellation(sys.api, sys.now, id))))
  {
    hide TablesOk, TablesGrow, NotesOk, RefundsOk, P.ProviderOk, InstructionOk, SettleCancellation, WellPriced;
    SettleKeeps(sys.api, sys.provider.ledger, sys.now, id);
    EffectMoves(w, sys, SettleCancellation(sys.api, sys.now, id));
  }

  /** What is under way says nothing about money. */
  lemma LiveIsNoMoney(w: World, sys: System, after: System, live: Underway)
    requires MoneyMoves(w, sys, after)
    ensures MoneyMoves(w, sys, after.(live := live))
  {
    hide P.ProviderOk, TablesOk, RefundsOk, SentOk, DeliveriesOk, CallsOk, ToldOk, TablesGrow, L.Grows;
  }
}
