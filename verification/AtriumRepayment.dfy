/**
 * Money captured for a booking that ended: exactly when it can still find its
 * way back, and what the report shows for ever when it cannot.
 */
module AtriumRepayment {
  import opened Wrappers
  import opened RefundPolicy
  import opened Ids
  import opened Database
  import opened BookingStateMachine
  import opened BookingsService
  import opened BookingInvariants
  import opened PaymentsService
  import opened Accounts
  import opened AtriumSystem
  import opened AtriumBookings
  import opened AtriumMoney
  import opened Atrium
  import opened AtriumTheorems
  import opened Reconciliation
  import L = Ledger
  import P = Paygate

  // --- What can still bring the money back ---------------------------------------------------

  /** Captured, and its booking expired or was cancelled. */
  predicate Owed(s: Api, k: Key) {
    && k in s.payments && s.payments[k].status == SUCCEEDED && s.payments[k].chargeId.Some?
    && s.payments[k].bookingId < |s.bookings| && s.bookings[s.payments[k].bookingId].status in {EXPIRED, CANCELLED}
  }

  function ChargeOf(s: Api, k: Key): ChargeId
    requires Owed(s, k)
  {
    s.payments[k].chargeId.value
  }

  predicate WorthSomething(b: Booking, at: int) {
    CancellationRefund(b, at).Some? && CancellationRefund(b, at).value.totalRefundMinor > 0
  }

  /** No refund was decided yet, its settlement is still to run, and at some time from now on it would come to something. */
  ghost predicate SettlementPays(sys: System, k: Key)
    requires Owed(sys.api, k)
  {
    var p := sys.api.payments[k];
    && p.refundKey.None? && p.bookingId in sys.live.settlements
    && exists at :: at >= sys.now && WorthSomething(sys.api.bookings[p.bookingId], at)
  }

  ghost predicate RefundExists(l: L.State, c: ChargeId) { exists r :: r in l.refunds && RefundOf(l, r, c) }

  /** The one call for this charge is still on its way, and the provider has not seen it. */
  ghost predicate CallPays(sys: System, c: ChargeId) {
    !RefundExists(sys.provider.ledger, c) && exists i :: i in sys.live.refundCalls && i.chargeId == c
  }

  /** The provider opened the refund and its handler is still running. */
  ghost predicate HandlerPays(sys: System, c: ChargeId) {
    exists r :: RefundOf(sys.provider.ledger, r, c) && !sys.provider.ledger.refunds[r].materialised
                && P.SettleRefund(r) in sys.live.tasks
  }

  ghost predicate SettledThere(l: L.State, c: ChargeId) { exists r :: RefundOf(l, r, c) && l.refunds[r].materialised }

  ghost predicate Listening(sys: System, c: ChargeId) { exists i :: i in sys.live.awaited && i.chargeId == c }

  predicate TellsOfRefund(body: Body, c: ChargeId) {
    Actionable(body) && body.chargeId == Some(c) && body.event == Known(RefundSucceeded)
  }

  ghost predicate DispatchLive(sys: System, c: ChargeId) {
    exists i :: i in sys.live.dispatches && i < |sys.provider.log| && TellsOfRefund(BodyOf(sys.provider.log[i]), c)
  }

  /** A recorded, signed delivery that is still to be applied. */
  predicate Waits(d: Delivery, c: ChargeId) { d.signatureValid && d.processedAt.None? && TellsOfRefund(d.body, c) }

  ghost predicate RowWaits(s: Api, c: ChargeId) { exists row :: 0 <= row < |s.deliveries| && Waits(s.deliveries[row], c) }

  /**
   * The provider has settled the refund, and the API can still learn of it: it
   * knows the refund's id and can ask, or listens for the answer that names it,
   * or a delivery is still to arrive, or one has arrived and waits.
   */
  ghost predicate NewsPays(sys: System, k: Key)
    requires Owed(sys.api, k)
  {
    var c := ChargeOf(sys.api, k);
    && SettledThere(sys.provider.ledger, c)
    && (sys.api.payments[k].refundId.Some? || Listening(sys, c) || DispatchLive(sys, c) || RowWaits(sys.api, c))
  }

  /** Owed, and nothing that is still under way can bring it back. */
  ghost predicate Stuck(sys: System, k: Key) {
    && Owed(sys.api, k) && !SettlementPays(sys, k)
    && !CallPays(sys, ChargeOf(sys.api, k)) && !HandlerPays(sys, ChargeOf(sys.api, k)) && !NewsPays(sys, k)
  }

  // --- A refund key is never without its instruction ----------------------------------------------

  /** Whoever minted a refund key put out an instruction; a late capture is owed back in full. */
  ghost predicate Instructed(sys: System, k: Key)
    requires k in sys.api.payments
  {
    var p := sys.api.payments[k];
    p.refundKey.Some? ==>
      exists i :: i in sys.sent && i.paymentKey == k
                  && (p.bookingId < |sys.api.bookings| && sys.api.bookings[p.bookingId].status == EXPIRED
                      ==> i.amountMinor == p.amountMinor)
  }

  ghost predicate AllInstructed(sys: System) { forall k :: k in sys.api.payments ==> Instructed(sys, k) }

  /** What running an event through the gate leaves, whatever the event. */
  ghost predicate GateLeft(s: Api, after: Api, now: int, key: Key, e: EventKey, instruction: Option<Instruction>)
    requires key in s.payments
  {
    && key in after.payments && after.payments == s.payments[key := after.payments[key]]
    && after.events == s.events[e := now] && after.deliveries == s.deliveries
    && (after.payments[key].refundKey != s.payments[key].refundKey ==>
          instruction.Some? && instruction.value.paymentKey == key && instruction.value.amountMinor == s.payments[key].amountMinor)
  }

  lemma GateLeaves(s: Api, now: int, key: Key, c: ChargeId, event: EventKind, refundId: Option<RefundId>, amount: Option<int>)
    requires key in s.payments && Gated(s, now, key, c, event, refundId, amount).Ok?
    ensures var r := Gated(s, now, key, c, event, refundId, amount).value;
            GateLeft(s, r.after, now, key, EventKey(c, event), r.instruction)
  {
    hide ResolveSnapshot;
  }

  /** Adopting a charge id touches no refund key and no other payment. */
  lemma LocateLeaves(s: Api, now: int, reference: Option<Reference>, c: ChargeId)
    ensures var (after, key) := Locate(s, now, reference, c);
            && after.events == s.events && after.deliveries == s.deliveries && after.bookings == s.bookings
            && after.payments.Keys == s.payments.Keys
            && (forall k :: k in s.payments ==>
                  after.payments[k] == s.payments[k].(chargeId := after.payments[k].chargeId, updatedAt := after.payments[k].updatedAt))
            && (forall k :: k in s.payments && key != Some(k) ==> after.payments[k] == s.payments[k])
  {
  }

  /** No payment is added, and a refund key appears on one only with an instruction for it. */
  ghost predicate MintsWith(s: Api, after: Api, instruction: Option<Instruction>, whole: bool) {
    after.payments.Keys == s.payments.Keys
    && forall k :: k in s.payments && s.payments[k].refundKey.None? && after.payments[k].refundKey.Some? ==>
      instruction.Some? && instruction.value.paymentKey == k && (whole ==> instruction.value.amountMinor == s.payments[k].amountMinor)
  }

  lemma ApplyMints(s: Api, now: int, row: nat)
    ensures var r := ApplyDelivery(s, now, row); MintsWith(s, Outcome(s, r), InstructionOf(r), true)
  {
    hide Gated, Locate;
    var r := ApplyDelivery(s, now, row);
    if r.Ok? && r.value.after.payments != s.payments {
      var body := s.deliveries[row].body;
      var (located, key) := Locate(s, now, body.reference, body.chargeId.value);
      LocateLeaves(s, now, body.reference, body.chargeId.value);
      if EventKey(body.chargeId.value, body.event.kind) !in s.events {
        GateLeaves(located, now, key.value, body.chargeId.value, body.event.kind, body.refundId, body.amountMinor);
      }
    }
  }

  lemma PollsMint(s: Api, now: int, key: Key, c: ChargeId, answer: ChargeAnswer, amount: Option<int>)
    ensures var r := PollCharge(s, now, key, c, answer); MintsWith(s, Outcome(s, r), InstructionOf(r), true)
    ensures var r := PollRefund(s, now, key, c, amount); MintsWith(s, Outcome(s, r), InstructionOf(r), true)
  {
    hide Gated;
    if answer.Decided? && key in s.payments {
      var event := if answer.succeeded then ChargeSucceeded else ChargeFailed;
      if Gated(s, now, key, c, event, None, None).Ok? { GateLeaves(s, now, key, c, event, None, None); }
    }
    if key in s.payments && Gated(s, now, key, c, RefundSucceeded, None, amount).Ok? {
      GateLeaves(s, now, key, c, RefundSucceeded, None, amount);
    }
  }

  lemma SettlementMints(s: Api, now: int, id: BookingId)
    ensures var e := SettleCancellation(s, now, id);
            && MintsWith(s, e.after, e.instruction, false)
            && (forall k :: k in s.payments && s.payments[k].bookingId != id ==> k in e.after.payments && e.after.payments[k] == s.payments[k])
            && (e.instruction.Some? ==>
                  id < |s.bookings| && e.instruction.value.bookingId == id
                  && CancellationRefund(s.bookings[id], now).Some?
                  && e.instruction.value.amountMinor == CancellationRefund(s.bookings[id], now).value.totalRefundMinor)
  {
    hide CancellationRefund;
  }

  /** One move: every newly minted key comes with an instruction, a whole one unless a cancellation decided it. */
  lemma MoveMints(w: World, sys: System, m: Move, k: Key)
    requires ValidWorld(w) && Possible(w, sys, m) && k in sys.api.payments && sys.api.payments[k].refundKey.None?
    requires k in Moved(w, sys, m).api.payments && Moved(w, sys, m).api.payments[k].refundKey.Some?
    ensures exists i :: i in Moved(w, sys, m).sent && i.paymentKey == k
                        && (i.amountMinor == sys.api.payments[k].amountMinor
                            || (m.SettleCancelled? && m.bookingId == sys.api.payments[k].bookingId))
  {
    var s, now := sys.api, sys.now;
    hide ApplyDelivery, PollCharge, PollRefund, SettleCancellation, P.Next, P.Enabled, ValidHold, StaleBatch, ValidConfig, Bookable,
      AdmitEquipment, HoldOnce, Announced;
    match m {
      case HoldRooms(input, userId) => HoldTouchesNoPayment(w.cfg, s, now, input, userId);
      case Apply(row) => ApplyMints(s, now, row);
      case AskCharge(key, c, answer) => PollsMint(s, now, key, c, answer, None);
      case AskRefund(key, c, _, amount) => PollsMint(s, now, key, c, Missing, amount);
      case SettleCancelled(id) => SettlementMints(s, now, id);
      case _ => OtherMovesMintNothing(w, sys, m);
    }
  }

  /** Any other move of a payment leaves refund keys alone, and a payment it adds has none. */
  lemma OtherMovesMintNothing(w: World, sys: System, m: Move)
    requires ValidWorld(w) && Possible(w, sys, m) && !m.HoldRooms? && !m.Apply? && !m.AskCharge? && !m.AskRefund? && !m.SettleCancelled?
    ensures forall k :: k in Moved(w, sys, m).api.payments ==>
      Moved(w, sys, m).api.payments[k].refundKey == if k in sys.api.payments then sys.api.payments[k].refundKey else None
    ensures Moved(w, sys, m).sent == sys.sent
  {
    hide P.Next, P.Enabled, StaleBatch, ValidConfig, Announced;
  }

  lemma HoldTouchesNoPayment(cfg: Config, s: Api, now: int, input: HoldInput, userId: nat)
    requires ValidConfig(cfg) && ValidHold(input)
    ensures Committed(s, Hold(cfg, s, now, input, userId)).payments == s.payments
    ensures Committed(s, Hold(cfg, s, now, input, userId)).deliveries == s.deliveries
  {
    hide HoldOnce;
    if Hold(cfg, s, now, input, userId).Ok? { HoldShape(cfg, s, now, input, userId); }
  }

  lemma NewPaymentsAreKeyless(w: World, sys: System, m: Move, k: Key)
    requires ValidWorld(w) && Possible(w, sys, m) && k !in sys.api.payments && k in Moved(w, sys, m).api.payments
    ensures Moved(w, sys, m).api.payments[k].refundKey.None?
  {
    var s, now := sys.api, sys.now;
    hide PollCharge, PollRefund, P.Next, P.Enabled, ValidHold, StaleBatch, ValidConfig, Bookable, AdmitEquipment, HoldOnce,
      Announced, ApplyDelivery, SettleCancellation;
    match m {
      case HoldRooms(input, userId) => HoldTouchesNoPayment(w.cfg, s, now, input, userId);
      case Apply(row) => ApplyMints(s, now, row);
      case AskCharge(key, c, answer) => PollsMint(s, now, key, c, answer, None);
      case AskRefund(key, c, _, amount) => PollsMint(s, now, key, c, Missing, amount);
      case SettleCancelled(id) => SettlementMints(s, now, id);
      case _ => OtherMovesMintNothing(w, sys, m);
    }
  }

  /** A booking that holds a refund key and is expired was expired before. */
  lemma KeyedExpiredStays(w: World, sys: System, sys': System, k: Key)
    requires ValidWorld(w) && MoneyOk(w, sys) && k in sys.api.payments && sys.api.payments[k].refundKey.Some?
    requires RowsProceed(w.cfg.env, sys.api.bookings, sys'.api.bookings, sys.now, sys'.now)
    ensures sys.api.payments[k].bookingId < |sys.api.bookings| && sys.api.payments[k].bookingId < |sys'.api.bookings|
    ensures sys'.api.bookings[sys.api.payments[k].bookingId].status == EXPIRED
            ==> sys.api.bookings[sys.api.payments[k].bookingId].status == EXPIRED
  {
    hide P.ProviderOk, NotesOk, RefundsOk, DeadlineBounded;
    AccountOfKey(sys.api, sys.provider.ledger, k);
    var id := sys.api.payments[k].bookingId;
    assert RowProceeds(w.cfg.env, sys.api.bookings[id], sys'.api.bookings[id], sys.now, sys'.now);
  }

  lemma MoveKeepsInstructed(w: World, sys: System, m: Move)
    requires ValidWorld(w) && Possible(w, sys, m) && SystemOk(w, sys) && AllInstructed(sys)
    ensures AllInstructed(Next(w, sys, m))
  {
    MoveKeeps(w, sys, m);
    var next := Next(w, sys, m);
    forall k | k in next.api.payments ensures Instructed(next, k) {
      if next.api.payments[k].refundKey.Some? { InstructedNow(w, sys, m, k); }
    }
  }

  lemma InstructedNow(w: World, sys: System, m: Move, k: Key)
    requires ValidWorld(w) && Possible(w, sys, m) && SystemOk(w, sys) && AllInstructed(sys)
    requires SystemOk(w, Next(w, sys, m)) && Advances(sys, Next(w, sys, m))
    requires RowsProceed(w.cfg.env, sys.api.bookings, Next(w, sys, m).api.bookings, sys.now, Next(w, sys, m).now)
    requires k in Next(w, sys, m).api.payments && Next(w, sys, m).api.payments[k].refundKey.Some?
    ensures Instructed(Next(w, sys, m), k)
  {
    hide MoneyOk, BooksOk, LiveOk, Moved, Possible, RowsProceed, LiveAfter, ValidConfig;
    var next := Next(w, sys, m);
    if k !in sys.api.payments {
      NewPaymentsAreKeyless(w, sys, m, k);
    } else {
      assert PaymentGrows(sys.api.payments[k], next.api.payments[k]);
      if sys.api.payments[k].refundKey.Some? {
        KeyedExpiredStays(w, sys, next, k);
        assert Instructed(sys, k);
        var i :| i in sys.sent && i.paymentKey == k
                 && (sys.api.bookings[sys.api.payments[k].bookingId].status == EXPIRED
                     ==> i.amountMinor == sys.api.payments[k].amountMinor);
        assert i in next.sent;
      } else {
        MoveMints(w, sys, m, k);
        var i :| i in next.sent && i.paymentKey == k
                 && (i.amountMinor == sys.api.payments[k].amountMinor
                     || (m.SettleCancelled? && m.bookingId == sys.api.payments[k].bookingId));
        if m.SettleCancelled? { SettledStaysCancelled(w, sys, m); }
      }
    }
  }

  lemma SettledStaysCancelled(w: World, sys: System, m: Move)
    requires ValidWorld(w) && Possible(w, sys, m) && m.SettleCancelled? && SystemOk(w, sys) && SystemOk(w, Next(w, sys, m))
    ensures var next := Next(w, sys, m);
            m.bookingId < |next.api.bookings| && next.api.bookings[m.bookingId].status in {CANCELLED, BookingStatus.REFUNDED}
  {
    hide MoneyOk, BooksOk, SettleCancellation, LiveAfter, ValidConfig;
    assert m.bookingId in Next(w, sys, m).cancelled;
  }

  lemma {:induction false} RunInstructs(w: World, states: seq<System>, n: nat)
    requires ValidWorld(w) && Run(w, states) && n < |states|
    ensures AllInstructed(states[n])
  {
    hide SystemOk, Next, Possible, AllInstructed;
    if n == 0 {
      NobodyInstructedYet(w, states);
    } else {
      RunInstructs(w, states, n - 1);
      RunKeeps(w, states, n - 1);
      assert Steps(w, states[n - 1], states[n - 1 + 1]);
      var m :| Possible(w, states[n - 1], m) && states[n] == Next(w, states[n - 1], m);
      MoveKeepsInstructed(w, states[n - 1], m);
    }
  }

  lemma NobodyInstructedYet(w: World, states: seq<System>)
    requires ValidWorld(w) && Run(w, states)
    ensures AllInstructed(states[0])
  {
    hide Steps;
  }

  /** INV-4: a capture that came too late is owed back whole, in every state from then on. */
  lemma LateCapturesAreOwedInFull(w: World, sys: System, id: BookingId)
    requires ValidWorld(w) && Reachable(w, sys) && id < |sys.api.bookings| && sys.api.bookings[id].status == EXPIRED
    ensures ChargeKey(id) in sys.api.payments ==>
              exists i :: i in sys.sent && i.paymentKey == ChargeKey(id) && i.amountMinor == sys.api.bookings[id].totalMinor
  {
    hide Reachable, AllInstructed, MoneyOk, SystemOk, Instructed;
    if ChargeKey(id) in sys.api.payments {
      ReachableIsInstructed(w, sys);
      ReachableMoney(w, sys);
      InstructedOf(sys, ChargeKey(id));
      LateIsInstructed(w, sys, id);
    }
  }

  lemma InstructedOf(sys: System, k: Key)
    requires AllInstructed(sys) && k in sys.api.payments
    ensures Instructed(sys, k)
  {
  }

  lemma LateIsInstructed(w: World, sys: System, id: BookingId)
    requires MoneyOk(w, sys) && id < |sys.api.bookings| && sys.api.bookings[id].status == EXPIRED
    requires ChargeKey(id) in sys.api.payments && Instructed(sys, ChargeKey(id))
    ensures exists i :: i in sys.sent && i.paymentKey == ChargeKey(id) && i.amountMinor == sys.api.bookings[id].totalMinor
  {
    hide P.ProviderOk, NotesOk, RefundsOk, Returned;
    AccountOfKey(sys.api, sys.provider.ledger, ChargeKey(id));
  }

  lemma ReachableIsInstructed(w: World, sys: System)
    requires ValidWorld(w) && Reachable(w, sys)
    ensures AllInstructed(sys)
  {
    hide AllInstructed;
    var states :| Run(w, states) && states[|states| - 1] == sys;
    RunInstructs(w, states, |states| - 1);
  }

  // --- What is stuck stays stuck ---------------------------------------------------------------------

  /** The account of an owed payment: captured at the provider, its capture recorded. */
  lemma OwedAccount(w: World, sys: System, k: Key)
    requires MoneyOk(w, sys) && Owed(sys.api, k)
    ensures var c := ChargeOf(sys.api, k);
            && CapturedAtProvider(sys.provider.ledger, c) && sys.provider.ledger.charges[c].key == k
            && EventsTell(sys.api.events, c, SUCCEEDED)
            && k == ChargeKey(sys.api.payments[k].bookingId)
            && (sys.api.payments[k].refundId.Some? ==> RefundOf(sys.provider.ledger, sys.api.payments[k].refundId.value, c))
            && (sys.api.payments[k].refundKey.Some? ==> sys.api.payments[k].refundKey.value == RefundKey(c))
    ensures sys.api.payments[k].refundKey.None? ==>
      sys.api.payments[k].refundId.None? && sys.api.bookings[sys.api.payments[k].bookingId].status == CANCELLED
      && Frozen(sys.api.bookings[sys.api.payments[k].bookingId])
  {
    hide P.ProviderOk, NotesOk, RefundsOk, Returned;
    AccountOfKey(sys.api, sys.provider.ledger, k);
  }

  lemma ApplyLeavesRow(w: World, sys: System, row: nat, k: Key)
    requires MoneyOk(w, sys) && Owed(sys.api, k) && !RowWaits(sys.api, ChargeOf(sys.api, k))
    ensures var s' := Outcome(sys.api, ApplyDelivery(sys.api, sys.now, row));
            k in s'.payments && s'.payments[k] == sys.api.payments[k]
  {
    hide MoneyOk, Gated, Locate, Announced, EventTrue, RowWaits;
    var s, now := sys.api, sys.now;
    var r := ApplyDelivery(s, now, row);
    if r.Ok? && r.value.after.payments != s.payments {
      WaitingRow(w, sys, row);
      var body := s.deliveries[row].body;
      var (located, key) := Locate(s, now, body.reference, body.chargeId.value);
      LocateLeaves(s, now, body.reference, body.chargeId.value);
      LocatedMoney(w, sys, body);
      if body.chargeId.value == ChargeOf(s, k) {
        OwnEventIsNoNews(w, sys, row, k);
      } else {
        assert key != Some(k);
        if EventKey(body.chargeId.value, body.event.kind) !in s.events {
          GateLeaves(located, now, key.value, body.chargeId.value, body.event.kind, body.refundId, body.amountMinor);
        }
      }
    }
  }

  /** With no refund to tell of, what still waits about an owed charge has already taken effect. */
  lemma OwnEventIsNoNews(w: World, sys: System, row: nat, k: Key)
    requires MoneyOk(w, sys) && Owed(sys.api, k) && !RowWaits(sys.api, ChargeOf(sys.api, k))
    requires row < |sys.api.deliveries| && sys.api.deliveries[row].processedAt.None?
    requires Actionable(sys.api.deliveries[row].body) && sys.api.deliveries[row].body.chargeId == Some(ChargeOf(sys.api, k))
    ensures Outcome(sys.api, ApplyDelivery(sys.api, sys.now, row)).payments == sys.api.payments
  {
    hide MoneyOk, Gated, Announced;
    var body := sys.api.deliveries[row].body;
    WaitingRow(w, sys, row);
    AnnouncedIsTrue(w, sys, body);
    OwedAccount(w, sys, k);
    assert Waits(sys.api.deliveries[row], ChargeOf(sys.api, k)) <==> body.event == Known(RefundSucceeded);
    assert body.event.kind == ChargeSucceeded;
    LocatedMoney(w, sys, body);
  }

  lemma AskChargeLeavesRow(w: World, sys: System, key: Key, c: ChargeId, answer: ChargeAnswer, k: Key)
    requires MoneyOk(w, sys) && Owed(sys.api, k)
    requires HasCharge(sys.api, key, c) && ChargeAnswerTrue(sys.provider.ledger, c, answer)
    ensures var s' := Outcome(sys.api, PollCharge(sys.api, sys.now, key, c, answer));
            k in s'.payments && s'.payments[k] == sys.api.payments[k]
  {
    hide MoneyOk, Gated;
    OwedAccount(w, sys, k);
    var s := sys.api;
    if answer.Decided? && key != k {
      var event := if answer.succeeded then ChargeSucceeded else ChargeFailed;
      if Gated(s, sys.now, key, c, event, None, None).Ok? { GateLeaves(s, sys.now, key, c, event, None, None); }
    }
  }

  lemma AnswerMeansSettled(l: L.State, refundId: RefundId, c: ChargeId, amount: Option<int>)
    requires RefundOf(l, refundId, c) && RefundAnswerTrue(l, refundId, amount) && amount.Some?
    ensures SettledThere(l, c)
  {
  }

  lemma AskRefundLeavesRow(w: World, sys: System, key: Key, c: ChargeId, refundId: RefundId, amount: Option<int>, k: Key)
    requires MoneyOk(w, sys) && Owed(sys.api, k)
    requires sys.api.payments[k].refundId.Some? ==> !SettledThere(sys.provider.ledger, ChargeOf(sys.api, k))
    requires HasCharge(sys.api, key, c) && sys.api.payments[key].refundId == Some(refundId)
    requires RefundAnswerTrue(sys.provider.ledger, refundId, amount)
    ensures var s' := Outcome(sys.api, PollRefund(sys.api, sys.now, key, c, amount));
            k in s'.payments && s'.payments[k] == sys.api.payments[k]
  {
    hide MoneyOk, Gated;
    OwedAccount(w, sys, k);
    var s := sys.api;
    if key == k && amount.Some? {
      AnswerMeansSettled(sys.provider.ledger, refundId, c, amount);
    } else if key != k && Gated(s, sys.now, key, c, RefundSucceeded, None, amount).Ok? {
      GateLeaves(s, sys.now, key, c, RefundSucceeded, None, amount);
    }
  }

  /** The moves that may still write to an owed payment whose repayment is not on its way. */
  predicate MayNote(sys: System, m: Move, k: Key)
    requires Owed(sys.api, k)
  {
    || (m.HearRefund? && m.instruction.paymentKey == k)
    || (m.RefundFails? && m.instruction.paymentKey == k)
    || (m.SettleCancelled? && m.bookingId == sys.api.payments[k].bookingId && sys.api.payments[k].refundKey.None?)
  }

  /** A delivery about a refund only ever follows its settlement. */
  lemma WaitingMeansSettled(w: World, sys: System, c: ChargeId)
    requires MoneyOk(w, sys)
    ensures RowWaits(sys.api, c) ==> SettledThere(sys.provider.ledger, c)
  {
    hide MoneyOk, Announced;
    if RowWaits(sys.api, c) {
      var row :| 0 <= row < |sys.api.deliveries| && Waits(sys.api.deliveries[row], c);
      WaitingRow(w, sys, row);
      AnnouncedIsTrue(w, sys, sys.api.deliveries[row].body);
    }
  }

  lemma RowUnmoved(w: World, sys: System, m: Move, k: Key)
    requires ValidWorld(w) && Possible(w, sys, m) && MoneyOk(w, sys) && Owed(sys.api, k) && !NewsPays(sys, k) && !MayNote(sys, m, k)
    ensures k in Moved(w, sys, m).api.payments && Moved(w, sys, m).api.payments[k] == sys.api.payments[k]
  {
    var s, now := sys.api, sys.now;
    hide MoneyOk, ApplyDelivery, PollCharge, PollRefund, P.Next, P.Enabled, ValidHold, StaleBatch, ValidConfig, Bookable,
      AdmitEquipment, HoldOnce, Announced, SettledThere, RowWaits, CancellationRefund, Listening, DispatchLive;
    WaitingMeansSettled(w, sys, ChargeOf(s, k));
    match m {
      case HoldRooms(input, userId) => HoldTouchesNoPayment(w.cfg, s, now, input, userId);
      case Apply(row) => ApplyLeavesRow(w, sys, row, k);
      case AskCharge(key, c, answer) => AskChargeLeavesRow(w, sys, key, c, answer, k);
      case AskRefund(key, c, refundId, amount) => AskRefundLeavesRow(w, sys, key, c, refundId, amount, k);
      case SettleCancelled(id) => SettlementLeavesRow(w, sys, id, k);
      case _ =>
    }
  }

  lemma SettlementLeavesRow(w: World, sys: System, id: BookingId, k: Key)
    requires MoneyOk(w, sys) && Owed(sys.api, k)
    requires id == sys.api.payments[k].bookingId ==> sys.api.payments[k].refundKey.Some?
    ensures var s' := SettleCancellation(sys.api, sys.now, id).after; k in s'.payments && s'.payments[k] == sys.api.payments[k]
  {
    hide CancellationRefund, P.ProviderOk, NotesOk, RefundsOk, AccountOk;
    var found := FindCaptured(sys.api.payments, id);
    AccountOfKey(sys.api, sys.provider.ledger, k);
    if found.Some? { AccountOfKey(sys.api, sys.provider.ledger, found.value); }
  }

  /** A step between two sound states, with what every step keeps. */
  ghost predicate SoundStep(w: World, sys: System, m: Move)
    requires ValidWorld(w)
  {
    && Possible(w, sys, m) && SystemOk(w, sys) && AllInstructed(sys) && SystemOk(w, Next(w, sys, m))
    && Advances(sys, Next(w, sys, m)) && sys.now <= Next(w, sys, m).now
    && RowsProceed(w.cfg.env, sys.api.bookings, Next(w, sys, m).api.bookings, sys.now, Next(w, sys, m).now)
  }

  lemma NotesKeepStatus(w: World, sys: System, m: Move, k: Key)
    requires ValidWorld(w) && Possible(w, sys, m) && Owed(sys.api, k) && MayNote(sys, m, k)
    ensures k in Moved(w, sys, m).api.payments && Moved(w, sys, m).api.payments[k].status == SUCCEEDED
    ensures !m.SettleCancelled? ==> Moved(w, sys, m).sent == sys.sent
    ensures m.SettleCancelled? ==> Moved(w, sys, m).api.payments[k].refundId == sys.api.payments[k].refundId
  {
    hide CancellationRefund, ValidConfig;
  }

  lemma OwedStays(w: World, sys: System, m: Move, k: Key)
    requires ValidWorld(w) && SoundStep(w, sys, m) && Owed(sys.api, k) && !NewsPays(sys, k)
    ensures Owed(Next(w, sys, m).api, k) && ChargeOf(Next(w, sys, m).api, k) == ChargeOf(sys.api, k)
  {
    hide BooksOk, LiveOk, Moved, LiveAfter, ValidConfig, NewsPays, CallPays, HandlerPays, SettlementPays, P.ProviderOk, NotesOk,
      RefundsOk, Possible, AllInstructed, Returned;
    var next := Next(w, sys, m);
    if MayNote(sys, m, k) { NotesKeepStatus(w, sys, m, k); } else { RowUnmoved(w, sys, m, k); }
    assert PaymentGrows(sys.api.payments[k], next.api.payments[k]);
    AccountOfKey(next.api, next.provider.ledger, k);
    var id := sys.api.payments[k].bookingId;
    assert RowProceeds(w.cfg.env, sys.api.bookings[id], next.api.bookings[id], sys.now, next.now);
  }

  /** An instruction for an owed charge is new only if its cancellation was just settled, for what that is worth now. */
  lemma NewInstructionIsASettlement(w: World, sys: System, m: Move, k: Key, i: Instruction)
    requires ValidWorld(w) && SoundStep(w, sys, m) && Owed(sys.api, k) && !NewsPays(sys, k)
    requires i in Next(w, sys, m).sent && i !in sys.sent && i.chargeId == ChargeOf(sys.api, k)
    ensures sys.api.payments[k].refundKey.None? && m == SettleCancelled(sys.api.payments[k].bookingId)
    ensures CancellationRefund(sys.api.bookings[sys.api.payments[k].bookingId], sys.now).Some?
    ensures i.amountMinor == CancellationRefund(sys.api.bookings[sys.api.payments[k].bookingId], sys.now).value.totalRefundMinor
  {
    hide BooksOk, LiveOk, Moved, LiveAfter, ValidConfig, NewsPays, CallPays, HandlerPays, SettlementPays, P.ProviderOk,
      RefundsOk, Possible, TablesOk, DeliveriesOk, CallsOk, ToldOk, CancellationRefund;
    var next := Next(w, sys, m);
    OwedStays(w, sys, m, k);
    assert InstructionOk(next.api, i);
    CarriersAgree(next.api, next.provider.ledger, i.paymentKey, k, i.chargeId);
    if sys.api.payments[k].refundKey.Some? {
      KeyAllowsNoOther(w, sys, next, k, i);
    } else if MayNote(sys, m, k) {
      NotesKeepStatus(w, sys, m, k);
      SettlementInstructs(w, sys, m, i);
    } else {
      RowUnmoved(w, sys, m, k);
    }
  }

  lemma KeyHasItsInstruction(w: World, sys: System, k: Key)
    requires MoneyOk(w, sys) && AllInstructed(sys) && Owed(sys.api, k) && sys.api.payments[k].refundKey.Some?
    ensures exists i :: i in sys.sent && i.chargeId == ChargeOf(sys.api, k)
  {
    hide P.ProviderOk, RefundsOk, TablesOk, DeliveriesOk, CallsOk, ToldOk;
    assert Instructed(sys, k);
    var i :| i in sys.sent && i.paymentKey == k;
    assert InstructionOk(sys.api, i);
  }

  lemma KeyAllowsNoOther(w: World, sys: System, next: System, k: Key, i: Instruction)
    requires MoneyOk(w, sys) && AllInstructed(sys) && Owed(sys.api, k) && sys.api.payments[k].refundKey.Some?
    requires SentOk(next.api, next.sent) && sys.sent <= next.sent && i in next.sent && i.chargeId == ChargeOf(sys.api, k)
    ensures i in sys.sent
  {
    hide MoneyOk, InstructionOk;
    KeyHasItsInstruction(w, sys, k);
    var j :| j in sys.sent && j.chargeId == i.chargeId;
    assert j in next.sent;
  }

  lemma SettlementInstructs(w: World, sys: System, m: Move, i: Instruction)
    requires ValidWorld(w) && Possible(w, sys, m) && m.SettleCancelled?
    requires i in Moved(w, sys, m).sent && i !in sys.sent
    ensures m.bookingId < |sys.api.bookings| && CancellationRefund(sys.api.bookings[m.bookingId], sys.now).Some?
    ensures i.amountMinor == CancellationRefund(sys.api.bookings[m.bookingId], sys.now).value.totalRefundMinor
  {
    hide SettleCancellation, CancellationRefund, ValidConfig;
    SettlementMints(sys.api, sys.now, m.bookingId);
  }

  lemma SettlementPaidBefore(w: World, sys: System, m: Move, k: Key)
    requires ValidWorld(w) && SoundStep(w, sys, m) && Owed(sys.api, k) && Owed(Next(w, sys, m).api, k)
    requires SettlementPays(Next(w, sys, m), k)
    ensures SettlementPays(sys, k)
  {
    hide MoneyOk, BooksOk, LiveOk, ValidConfig, P.Next, Possible, AllInstructed, CancellationRefund, Moved, LiveAfter;
    var next := Next(w, sys, m);
    assert PaymentGrows(sys.api.payments[k], next.api.payments[k]);
    var id := sys.api.payments[k].bookingId;
    var at :| at >= next.now && WorthSomething(next.api.bookings[id], at);
    SameWorth(w, sys, next, k, at);
    SettlementWasLive(w, sys, m, id);
    assert WorthSomething(sys.api.bookings[id], at);
  }

  /** The refund of an ended booking is frozen: no later step changes what it is worth at any time. */
  lemma SameWorth(w: World, sys: System, next: System, k: Key, at: int)
    requires MoneyOk(w, sys) && Owed(sys.api, k) && sys.api.payments[k].refundKey.None?
    requires RowsProceed(w.cfg.env, sys.api.bookings, next.api.bookings, sys.now, next.now)
    ensures var id := sys.api.payments[k].bookingId;
            id < |next.api.bookings| && CancellationRefund(next.api.bookings[id], at) == CancellationRefund(sys.api.bookings[id], at)
  {
    hide MoneyOk, DeadlineBounded, ComputeRefund, ValidTiers, SplitTotals;
    OwedAccount(w, sys, k);
    var id := sys.api.payments[k].bookingId;
    assert RowProceeds(w.cfg.env, sys.api.bookings[id], next.api.bookings[id], sys.now, next.now);
  }

  /** A settlement only ever starts with its cancellation, and an ended booking is not cancelled again. */
  lemma SettlementWasLive(w: World, sys: System, m: Move, id: BookingId)
    requires ValidWorld(w) && Possible(w, sys, m) && id < |sys.api.bookings| && sys.api.bookings[id].status in {EXPIRED, CANCELLED}
    requires id in Next(w, sys, m).live.settlements
    ensures id in sys.live.settlements
  {
    hide ApplyDelivery, PollCharge, PollRefund, PayPrepare, Hold, Checkout, ExpireRows, SettleCancellation, Announced, P.Next,
      P.Started, P.Enabled, ValidHold, StaleBatch, ValidConfig;
  }

  lemma CallWasLive(w: World, sys: System, m: Move, i: Instruction)
    requires ValidWorld(w) && Possible(w, sys, m)
    ensures i in Next(w, sys, m).live.refundCalls ==> i in sys.live.refundCalls || (i in Next(w, sys, m).sent && i !in sys.sent && i.amountMinor > 0)
    ensures i in Next(w, sys, m).live.awaited ==> i in sys.live.awaited || (i in Next(w, sys, m).sent && i !in sys.sent && i.amountMinor > 0)
  {
    hide Moved, P.Started, ValidConfig, Possible;
  }

  /** A refund that exists now and did not before was opened by a call for its charge. */
  lemma NewRefundWasCalled(w: World, sys: System, m: Move, r: RefundId)
    requires ValidWorld(w) && Possible(w, sys, m)
    requires r in Next(w, sys, m).provider.ledger.refunds && r !in sys.provider.ledger.refunds
    ensures var refund := Next(w, sys, m).provider.ledger.refunds[r];
            !refund.materialised && exists i :: i in sys.live.refundCalls && i.chargeId == refund.chargeId
  {
    hide ApplyDelivery, PollCharge, PollRefund, PayPrepare, Hold, Checkout, ExpireRows, SettleCancellation, Announced, P.Started,
      ValidHold, StaleBatch, ValidConfig, LiveAfter;
    assert m.ProviderMoves? && m.step.PostRefund?;
  }

  lemma CallPaidBefore(w: World, sys: System, m: Move, k: Key)
    requires ValidWorld(w) && SoundStep(w, sys, m) && Owed(sys.api, k) && !NewsPays(sys, k)
    requires CallPays(Next(w, sys, m), ChargeOf(sys.api, k))
    ensures CallPays(sys, ChargeOf(sys.api, k)) || SettlementPays(sys, k)
  {
    hide MoneyOk, BooksOk, LiveOk, ValidConfig, NewsPays, SettlementPays, Possible, AllInstructed, Moved, LiveAfter, RefundExists;
    var c := ChargeOf(sys.api, k);
    var i :| i in Next(w, sys, m).live.refundCalls && i.chargeId == c;
    RefundsStay(w, sys, m, c);
    CallWasLive(w, sys, m, i);
    if i !in sys.live.refundCalls { NewCallWasASettlement(w, sys, m, k, i); }
  }

  lemma NewCallWasASettlement(w: World, sys: System, m: Move, k: Key, i: Instruction)
    requires ValidWorld(w) && SoundStep(w, sys, m) && Owed(sys.api, k) && !NewsPays(sys, k)
    requires i in Next(w, sys, m).sent && i !in sys.sent && i.amountMinor > 0 && i.chargeId == ChargeOf(sys.api, k)
    ensures SettlementPays(sys, k)
  {
    hide MoneyOk, BooksOk, LiveOk, ValidConfig, NewsPays, AllInstructed, CancellationRefund, Moved, LiveAfter;
    NewInstructionIsASettlement(w, sys, m, k, i);
    assert WorthSomething(sys.api.bookings[sys.api.payments[k].bookingId], sys.now);
  }

  lemma RefundsStay(w: World, sys: System, m: Move, c: ChargeId)
    requires ValidWorld(w) && Possible(w, sys, m) && Advances(sys, Next(w, sys, m))
    ensures RefundExists(sys.provider.ledger, c) ==> RefundExists(Next(w, sys, m).provider.ledger, c)
  {
    hide Moved, LiveAfter, Possible, TablesGrow, ValidConfig;
    if RefundExists(sys.provider.ledger, c) {
      var r :| r in sys.provider.ledger.refunds && RefundOf(sys.provider.ledger, r, c);
      assert RefundOf(Next(w, sys, m).provider.ledger, r, c);
    }
  }

  lemma HandlerPaidBefore(w: World, sys: System, m: Move, k: Key)
    requires ValidWorld(w) && SoundStep(w, sys, m) && Owed(sys.api, k)
    requires HandlerPays(Next(w, sys, m), ChargeOf(sys.api, k))
    ensures HandlerPays(sys, ChargeOf(sys.api, k)) || CallPays(sys, ChargeOf(sys.api, k))
  {
    hide BooksOk, LiveOk, ValidConfig, Possible, AllInstructed, Moved, LiveAfter, TablesOk, NotesOk, P.LogOk, P.AllTasksOk,
      P.AllAnswersOk, P.OutcomesOk, P.AllAnnounced, L.LedgerOk, TablesGrow;
    var next := Next(w, sys, m);
    var c := ChargeOf(sys.api, k);
    var r :| RefundOf(next.provider.ledger, r, c) && !next.provider.ledger.refunds[r].materialised && P.SettleRefund(r) in next.live.tasks;
    if r in sys.provider.ledger.refunds {
      HandlerWasLive(w, sys, m, r);
      assert L.RefundGrows(sys.provider.ledger.refunds[r], next.provider.ledger.refunds[r]);
      assert RefundOf(sys.provider.ledger, r, c);
    } else {
      NewRefundWasCalled(w, sys, m, r);
      NoOtherRefund(w, sys, m, r, c);
    }
  }

  lemma HandlerWasLive(w: World, sys: System, m: Move, r: RefundId)
    requires ValidWorld(w) && Possible(w, sys, m) && r in sys.provider.ledger.refunds
    requires P.SettleRefund(r) in Next(w, sys, m).live.tasks
    ensures P.SettleRefund(r) in sys.live.tasks
  {
    hide Moved, ValidConfig, Announced, ValidHold, StaleBatch, P.Next;
  }

  /** A refund that was just opened is the first for its charge. */
  lemma NoOtherRefund(w: World, sys: System, m: Move, r: RefundId, c: ChargeId)
    requires ValidWorld(w) && SoundStep(w, sys, m)
    requires RefundOf(Next(w, sys, m).provider.ledger, r, c) && r !in sys.provider.ledger.refunds
    ensures !RefundExists(sys.provider.ledger, c)
  {
    hide MoneyOk, BooksOk, LiveOk, ValidConfig, Possible, AllInstructed, Moved, LiveAfter, TablesGrow;
    var next := Next(w, sys, m);
    if RefundExists(sys.provider.ledger, c) {
      var t :| t in sys.provider.ledger.refunds && RefundOf(sys.provider.ledger, t, c);
      assert RefundOf(next.provider.ledger, t, c);
      OneRefundPerCharge(w, next, r, t);
    }
  }

  // --- News of a settled refund comes from nowhere new ------------------------------------------------

  /** A refund is settled only by its running handler. */
  lemma SettledByItsHandler(w: World, sys: System, m: Move, c: ChargeId)
    requires ValidWorld(w) && SoundStep(w, sys, m) && SettledThere(Next(w, sys, m).provider.ledger, c)
    ensures SettledThere(sys.provider.ledger, c) || HandlerPays(sys, c)
  {
    hide MoneyOk, BooksOk, LiveOk, ValidConfig, AllInstructed, Moved, LiveAfter, TablesGrow;
    var next := Next(w, sys, m);
    var r :| RefundOf(next.provider.ledger, r, c) && next.provider.ledger.refunds[r].materialised;
    if r !in sys.provider.ledger.refunds { NewRefundWasCalled(w, sys, m, r); }
    assert L.RefundGrows(sys.provider.ledger.refunds[r], next.provider.ledger.refunds[r]);
    assert RefundOf(sys.provider.ledger, r, c);
    if !sys.provider.ledger.refunds[r].materialised { SettlingIsRunning(w, sys, m, r); }
  }

  lemma SettlingIsRunning(w: World, sys: System, m: Move, r: RefundId)
    requires ValidWorld(w) && Possible(w, sys, m)
    requires r in sys.provider.ledger.refunds && !sys.provider.ledger.refunds[r].materialised
    requires r in Next(w, sys, m).provider.ledger.refunds && Next(w, sys, m).provider.ledger.refunds[r].materialised
    ensures P.SettleRefund(r) in sys.live.tasks
  {
    hide ApplyDelivery, PollCharge, PollRefund, PayPrepare, Hold, Checkout, ExpireRows, SettleCancellation, Announced, P.Started,
      ValidHold, StaleBatch, ValidConfig, LiveAfter;
    assert m.ProviderMoves?;
  }

  lemma IdWasHeard(w: World, sys: System, m: Move, k: Key)
    requires ValidWorld(w) && SoundStep(w, sys, m) && Owed(sys.api, k) && !NewsPays(sys, k) && sys.api.payments[k].refundId.None?
    requires k in Next(w, sys, m).api.payments && Next(w, sys, m).api.payments[k].refundId.Some?
    ensures Listening(sys, ChargeOf(sys.api, k))
  {
    hide BooksOk, ValidConfig, NewsPays, AllInstructed, LiveAfter, P.ProviderOk, TablesOk, RefundsOk, DeliveriesOk, CallsOk, ToldOk,
      Possible, Moved;
    if MayNote(sys, m, k) {
      NotesKeepStatus(w, sys, m, k);
      HeardFromAwaited(w, sys, m, k);
      assert InstructionOk(sys.api, m.instruction);
    } else {
      RowUnmoved(w, sys, m, k);
    }
  }

  lemma HeardFromAwaited(w: World, sys: System, m: Move, k: Key)
    requires ValidWorld(w) && Possible(w, sys, m) && Owed(sys.api, k) && MayNote(sys, m, k) && !m.SettleCancelled?
    requires k in Moved(w, sys, m).api.payments && Moved(w, sys, m).api.payments[k].refundId != sys.api.payments[k].refundId
    ensures m.HearRefund? && m.instruction in sys.live.awaited && m.instruction.paymentKey == k
  {
    hide ValidConfig;
  }

  lemma WasListening(w: World, sys: System, m: Move, k: Key)
    requires ValidWorld(w) && SoundStep(w, sys, m) && Owed(sys.api, k) && RefundExists(sys.provider.ledger, ChargeOf(sys.api, k))
    requires Listening(Next(w, sys, m), ChargeOf(sys.api, k))
    ensures Listening(sys, ChargeOf(sys.api, k))
  {
    hide BooksOk, LiveOk, ValidConfig, AllInstructed, Moved, LiveAfter, P.ProviderOk, TablesOk, DeliveriesOk, CallsOk, ToldOk, Possible;
    var next := Next(w, sys, m);
    var c := ChargeOf(sys.api, k);
    var i :| i in next.live.awaited && i.chargeId == c;
    CallWasLive(w, sys, m, i);
    var r :| r in sys.provider.ledger.refunds && RefundOf(sys.provider.ledger, r, c);
    assert RefundBacked(sys.sent, sys.provider.ledger.refunds[r]);
    var j :| j in sys.sent && j.chargeId == c;
    assert i in next.sent ==> i == j;
  }

  lemma DispatchWasLive(w: World, sys: System, m: Move, c: ChargeId)
    requires ValidWorld(w) && SoundStep(w, sys, m) && SettledThere(sys.provider.ledger, c) && DispatchLive(Next(w, sys, m), c)
    ensures DispatchLive(sys, c)
  {
    hide BooksOk, ValidConfig, AllInstructed, TablesOk, NotesOk, RefundsOk, Possible, TablesGrow, Moved, L.Grows, L.LedgerOk,
      P.AllTasksOk, P.AllAnswersOk, P.OutcomesOk;
    var next := Next(w, sys, m);
    var i :| i in next.live.dispatches && i < |next.provider.log| && TellsOfRefund(BodyOf(next.provider.log[i]), c);
    DispatchesGrow(w, sys, m);
    LogsOnlyGrow(w, sys, m);
    AnnouncementIsOld(w, sys, next, c, i);
    assert BodyOf(sys.provider.log[i]) == BodyOf(next.provider.log[i]);
  }

  lemma LogsOnlyGrow(w: World, sys: System, m: Move)
    requires ValidWorld(w) && Possible(w, sys, m) && Advances(sys, Next(w, sys, m))
    ensures sys.provider.log <= Next(w, sys, m).provider.log
    ensures forall r :: r in sys.provider.ledger.refunds ==>
      r in Next(w, sys, m).provider.ledger.refunds
      && L.RefundGrows(sys.provider.ledger.refunds[r], Next(w, sys, m).provider.ledger.refunds[r])
  {
    hide Moved, Possible, LiveAfter, TablesGrow, ValidConfig;
  }

  lemma DispatchesGrow(w: World, sys: System, m: Move)
    requires ValidWorld(w) && Possible(w, sys, m)
    ensures forall i :: i in Next(w, sys, m).live.dispatches && i !in sys.live.dispatches ==> i >= |sys.provider.log|
  {
    hide Moved, Possible, P.Started, ValidConfig;
  }

  /** The one announcement of a refund that was settled before was made before. */
  lemma AnnouncementIsOld(w: World, sys: System, next: System, c: ChargeId, i: nat)
    requires MoneyOk(w, sys) && MoneyOk(w, next) && SettledThere(sys.provider.ledger, c)
    requires sys.provider.log <= next.provider.log
    requires forall r :: r in sys.provider.ledger.refunds ==>
      r in next.provider.ledger.refunds && L.RefundGrows(sys.provider.ledger.refunds[r], next.provider.ledger.refunds[r])
    requires i < |next.provider.log| && TellsOfRefund(BodyOf(next.provider.log[i]), c)
    ensures i < |sys.provider.log|
  {
    hide MoneyOk;
    var r :| RefundOf(sys.provider.ledger, r, c) && sys.provider.ledger.refunds[r].materialised;
    RefundWasAnnounced(w, sys, r);
    var j :| 0 <= j < |sys.provider.log| && P.AnnouncesRefund(sys.provider.log[j], r);
    assert RefundOf(next.provider.ledger, r, c);
    SameAnnouncement(w, next, c, i, j, r);
  }

  lemma RefundWasAnnounced(w: World, sys: System, r: RefundId)
    requires MoneyOk(w, sys) && r in sys.provider.ledger.refunds && sys.provider.ledger.refunds[r].materialised
    ensures P.RefundAnnounced(sys.provider, r) && P.RefundAnswer(sys.provider.ledger.refunds[r].key, r) in sys.provider.answers
  {
    hide TablesOk, NotesOk, RefundsOk, L.LedgerOk, P.LogOk, P.AllTasksOk, P.AllAnswersOk, P.OutcomesOk;
  }

  lemma SameAnnouncement(w: World, sys: System, c: ChargeId, i: nat, j: nat, r: RefundId)
    requires MoneyOk(w, sys) && i < |sys.provider.log| && j < |sys.provider.log| && RefundOf(sys.provider.ledger, r, c)
    requires TellsOfRefund(BodyOf(sys.provider.log[i]), c) && P.AnnouncesRefund(sys.provider.log[j], r)
    ensures i == j
  {
    hide TablesOk, NotesOk, RefundsOk, L.LedgerOk, P.AllTasksOk, P.AllAnswersOk, P.OutcomesOk, P.AllAnnounced;
    assert P.Truthful(sys.provider.ledger, sys.provider.log[i]);
    OneRefundPerCharge(w, sys, r, sys.provider.log[i].refundId);
    assert P.SameSubject(sys.provider.log[i], sys.provider.log[j]);
  }

  /** A waiting delivery waited before, or has just arrived from a dispatch that was under way. */
  lemma RowWasWaiting(w: World, sys: System, m: Move, c: ChargeId)
    requires ValidWorld(w) && Possible(w, sys, m) && RowWaits(Next(w, sys, m).api, c)
    ensures RowWaits(sys.api, c) || DispatchLive(sys, c)
  {
    hide ValidConfig, LiveAfter, Moved;
    var next := Next(w, sys, m).api;
    var row :| 0 <= row < |next.deliveries| && Waits(next.deliveries[row], c);
    DeliveriesOnlyClose(w, sys, m);
    if row < |sys.api.deliveries| {
      assert Waits(sys.api.deliveries[row], c);
    } else {
      assert Deliverable(sys, m.body);
    }
  }

  /** No move reopens, rewrites or drops a recorded delivery; only receiving one adds a row. */
  ghost predicate OnlyCloses(before: seq<Delivery>, after: seq<Delivery>) {
    && |before| <= |after|
    && forall i :: 0 <= i < |before| ==>
         after[i].body == before[i].body && after[i].signatureValid == before[i].signatureValid
         && (before[i].processedAt.Some? ==> after[i].processedAt.Some?)
  }

  lemma DeliveriesOnlyClose(w: World, sys: System, m: Move)
    requires ValidWorld(w) && Possible(w, sys, m)
    ensures OnlyCloses(sys.api.deliveries, Next(w, sys, m).api.deliveries)
    ensures forall i :: |sys.api.deliveries| <= i < |Next(w, sys, m).api.deliveries| ==>
      m.Receive? && Next(w, sys, m).api.deliveries[i] == PaymentsService.DeliveryRow(sys.now, m.deliveryId, m.signatureValid, m.body)
  {
    var s, now := sys.api, sys.now;
    hide ApplyDelivery, PollCharge, PollRefund, SettleCancellation, P.Next, P.Enabled, ValidHold, StaleBatch, ValidConfig, Bookable,
      AdmitEquipment, HoldOnce, Announced, LiveAfter, PayPrepare, Checkout, PaymentsService.DeliveryRow;
    match m {
      case HoldRooms(input, userId) => HoldTouchesNoPayment(w.cfg, s, now, input, userId);
      case Pay(id, userId) => if PayPrepare(s, now, id, userId).Ok? { PayTouchesNoDelivery(s, now, id, userId); }
      case Apply(row) => ApplyOnlyCloses(s, now, row);
      case AskCharge(key, c, answer) => PollsTouchNoDelivery(s, now, key, c, answer, None);
      case AskRefund(key, c, _, amount) => PollsTouchNoDelivery(s, now, key, c, Missing, amount);
      case SettleCancelled(id) => SettlementTouchesNoDelivery(s, now, id);
      case RearmHold(id, userId) => CheckoutTouchesNoDelivery(w.cfg, s, now, id, userId);
      case _ =>
    }
  }

  lemma ApplyOnlyCloses(s: Api, now: int, row: nat)
    ensures var after := Outcome(s, ApplyDelivery(s, now, row)).deliveries; OnlyCloses(s.deliveries, after) && |after| == |s.deliveries|
  {
    hide Gated, Locate;
    if row < |s.deliveries| && s.deliveries[row].body.Fields? && Actionable(s.deliveries[row].body) {
      var body := s.deliveries[row].body;
      var (located, key) := Locate(s, now, body.reference, body.chargeId.value);
      LocateLeaves(s, now, body.reference, body.chargeId.value);
      if key.Some? && Gated(located, now, key.value, body.chargeId.value, body.event.kind, body.refundId, body.amountMinor).Ok? {
        GateLeaves(located, now, key.value, body.chargeId.value, body.event.kind, body.refundId, body.amountMinor);
      }
    }
  }

  lemma PollsTouchNoDelivery(s: Api, now: int, key: Key, c: ChargeId, answer: ChargeAnswer, amount: Option<int>)
    ensures Outcome(s, PollCharge(s, now, key, c, answer)).deliveries == s.deliveries
    ensures Outcome(s, PollRefund(s, now, key, c, amount)).deliveries == s.deliveries
  {
    hide Gated;
    if answer.Decided? && key in s.payments {
      var event := if answer.succeeded then ChargeSucceeded else ChargeFailed;
      if Gated(s, now, key, c, event, None, None).Ok? { GateLeaves(s, now, key, c, event, None, None); }
    }
    if key in s.payments && Gated(s, now, key, c, RefundSucceeded, None, amount).Ok? {
      GateLeaves(s, now, key, c, RefundSucceeded, None, amount);
    }
  }

  lemma SettlementTouchesNoDelivery(s: Api, now: int, id: BookingId)
    ensures SettleCancellation(s, now, id).after.deliveries == s.deliveries
  {
    hide CancellationRefund;
  }

  lemma CheckoutTouchesNoDelivery(cfg: Config, s: Api, now: int, id: BookingId, userId: nat)
    ensures Committed(s, Checkout(cfg, s, now, id, userId)).deliveries == s.deliveries
  {
  }

  lemma NewsPaidBefore(w: World, sys: System, m: Move, k: Key)
    requires ValidWorld(w) && SoundStep(w, sys, m) && Owed(sys.api, k) && Owed(Next(w, sys, m).api, k)
    requires ChargeOf(Next(w, sys, m).api, k) == ChargeOf(sys.api, k) && NewsPays(Next(w, sys, m), k)
    ensures NewsPays(sys, k) || HandlerPays(sys, ChargeOf(sys.api, k))
  {
    hide SystemOk, AllInstructed, Moved, LiveAfter, Possible, Advances, RowsProceed, HandlerPays, Listening, DispatchLive, RowWaits,
      SettledThere, RefundExists, ValidConfig;
    var next := Next(w, sys, m);
    var c := ChargeOf(sys.api, k);
    SettledByItsHandler(w, sys, m, c);
    if SettledThere(sys.provider.ledger, c) && !NewsPays(sys, k) {
      SettledExists(sys.provider.ledger, c);
      if sys.api.payments[k].refundId.None? && next.api.payments[k].refundId.Some? { IdWasHeard(w, sys, m, k); }
      if Listening(next, c) { WasListening(w, sys, m, k); }
      if DispatchLive(next, c) { DispatchWasLive(w, sys, m, c); }
      if RowWaits(next.api, c) { RowWasWaiting(w, sys, m, c); }
    }
  }

  lemma SettledExists(l: L.State, c: ChargeId)
    requires SettledThere(l, c)
    ensures RefundExists(l, c)
  {
    var r :| RefundOf(l, r, c) && l.refunds[r].materialised;
  }

  lemma StuckStays(w: World, sys: System, m: Move, k: Key)
    requires ValidWorld(w) && SoundStep(w, sys, m) && Stuck(sys, k)
    ensures Stuck(Next(w, sys, m), k)
  {
    hide SystemOk, AllInstructed, Advances, RowsProceed, SettlementPays, CallPays, HandlerPays, NewsPays, Possible, Moved, LiveAfter,
      ValidConfig;
    OwedStays(w, sys, m, k);
    var next := Next(w, sys, m);
    var c := ChargeOf(sys.api, k);
    if SettlementPays(next, k) { SettlementPaidBefore(w, sys, m, k); }
    if CallPays(next, c) { CallPaidBefore(w, sys, m, k); }
    if HandlerPays(next, c) { HandlerPaidBefore(w, sys, m, k); }
    if NewsPays(next, k) { NewsPaidBefore(w, sys, m, k); }
  }

  // --- For ever ------------------------------------------------------------------------------------------

  /** Nobody is left who could still write a note on this payment. */
  ghost predicate Quiet(sys: System, k: Key)
    requires Owed(sys.api, k)
  {
    && (sys.api.payments[k].refundKey.Some? || sys.api.payments[k].bookingId !in sys.live.settlements)
    && forall i :: i in sys.live.awaited ==> i.paymentKey != k
  }

  lemma QuietStays(w: World, sys: System, m: Move, k: Key)
    requires ValidWorld(w) && SoundStep(w, sys, m) && Stuck(sys, k) && Quiet(sys, k)
    ensures Stuck(Next(w, sys, m), k) && Quiet(Next(w, sys, m), k)
    ensures Next(w, sys, m).api.payments[k] == sys.api.payments[k]
  {
    StuckStays(w, sys, m, k);
    QuietMovesNothing(w, sys, m, k);
    hide SystemOk, AllInstructed, Advances, RowsProceed, Stuck, Moved, LiveAfter, ValidConfig, Possible;
    SettlementWasLiveIf(w, sys, m, sys.api.payments[k].bookingId);
    forall i | i in Next(w, sys, m).live.awaited ensures i.paymentKey != k { AwaitedElsewhere(w, sys, m, k, i); }
  }

  lemma QuietMovesNothing(w: World, sys: System, m: Move, k: Key)
    requires ValidWorld(w) && Possible(w, sys, m) && MoneyOk(w, sys) && Owed(sys.api, k) && !NewsPays(sys, k) && Quiet(sys, k)
    ensures k in Next(w, sys, m).api.payments && Next(w, sys, m).api.payments[k] == sys.api.payments[k]
  {
    hide MoneyOk, Moved, LiveAfter, ValidConfig, NewsPays;
    RowUnmoved(w, sys, m, k);
  }

  lemma AwaitedElsewhere(w: World, sys: System, m: Move, k: Key, i: Instruction)
    requires ValidWorld(w) && SoundStep(w, sys, m) && Owed(sys.api, k) && !NewsPays(sys, k) && Quiet(sys, k)
    requires i in Next(w, sys, m).live.awaited
    ensures i.paymentKey != k
  {
    hide BooksOk, LiveOk, AllInstructed, RowsProceed, NewsPays, Moved, LiveAfter, ValidConfig, P.ProviderOk, RefundsOk, TablesOk,
      DeliveriesOk, CallsOk, ToldOk, CancellationRefund;
    CallWasLive(w, sys, m, i);
    if i !in sys.live.awaited && i.paymentKey == k {
      assert InstructionOk(Next(w, sys, m).api, i);
      assert PaymentGrows(sys.api.payments[k], Next(w, sys, m).api.payments[k]);
      NewInstructionIsASettlement(w, sys, m, k, i);
    }
  }

  lemma SettlementWasLiveIf(w: World, sys: System, m: Move, id: BookingId)
    requires ValidWorld(w) && Possible(w, sys, m) && id < |sys.api.bookings| && sys.api.bookings[id].status in {EXPIRED, CANCELLED}
    ensures id in Next(w, sys, m).live.settlements ==> id in sys.live.settlements
  {
    hide Moved, LiveAfter, Possible, ValidConfig;
    if id in Next(w, sys, m).live.settlements { SettlementWasLive(w, sys, m, id); }
  }

  /** Any moves, one after another, from wherever the first state is. */
  ghost predicate Path(w: World, states: seq<System>)
    requires ValidWorld(w)
  {
    |states| > 0 && forall i :: 0 <= i < |states| - 1 ==> Steps(w, states[i], states[i + 1])
  }

  lemma {:induction false} PathIsSound(w: World, states: seq<System>, n: nat)
    requires ValidWorld(w) && Path(w, states) && n < |states| && SystemOk(w, states[0]) && AllInstructed(states[0])
    ensures SystemOk(w, states[n]) && AllInstructed(states[n])
  {
    hide SystemOk, Next, Possible, AllInstructed, Advances, RowsProceed;
    if n > 0 {
      PathIsSound(w, states, n - 1);
      var m := PathStep(w, states, n - 1);
    }
  }

  lemma PathStep(w: World, states: seq<System>, n: nat) returns (m: Move)
    requires ValidWorld(w) && Path(w, states) && n + 1 < |states| && SystemOk(w, states[n]) && AllInstructed(states[n])
    ensures SoundStep(w, states[n], m) && states[n + 1] == Next(w, states[n], m) && AllInstructed(states[n + 1])
  {
    hide SystemOk, Next, Possible, AllInstructed, Advances, RowsProceed;
    assert Steps(w, states[n], states[n + 1]);
    m :| Possible(w, states[n], m) && states[n + 1] == Next(w, states[n], m);
    MoveKeeps(w, states[n], m);
    MoveKeepsInstructed(w, states[n], m);
  }

  lemma {:induction false} StuckAlong(w: World, states: seq<System>, k: Key, n: nat)
    requires ValidWorld(w) && Path(w, states) && n < |states| && SystemOk(w, states[0]) && AllInstructed(states[0])
    requires Stuck(states[0], k)
    ensures Stuck(states[n], k)
    ensures Quiet(states[0], k) ==> Quiet(states[n], k) && states[n].api.payments[k] == states[0].api.payments[k]
  {
    hide SystemOk, Next, Possible, AllInstructed, Advances, RowsProceed, SettlementPays, CallPays, HandlerPays, NewsPays, Quiet;
    if n > 0 {
      StuckAlong(w, states, k, n - 1);
      PathIsSound(w, states, n - 1);
      var m := PathStep(w, states, n - 1);
      StuckStays(w, states[n - 1], m, k);
      if Quiet(states[0], k) { QuietStays(w, states[n - 1], m, k); }
    }
  }

  /**
   * Money that is stuck stays stuck: in every continuation of the run its
   * payment is captured and, past grace, listed. Once nobody is left to write a
   * note on it, its row never changes again, so its grace runs out once and for all.
   */
  lemma StuckMoneyIsListedForEver(w: World, states: seq<System>, k: Key, n: nat, window: Window)
    requires ValidWorld(w) && Path(w, states) && n < |states| && Reachable(w, states[0]) && Stuck(states[0], k)
    ensures Stuck(states[n], k) && k in states[n].api.payments && states[n].api.payments[k].status == SUCCEEDED
    ensures ListedPayment(states[n].api, window, CaptureWithoutConfirmation, k)
    ensures Quiet(states[0], k) ==> states[n].api.payments[k] == states[0].api.payments[k]
  {
    hide SystemOk, AllInstructed, Reachable, Path, SettlementPays, CallPays, HandlerPays, NewsPays, Quiet, ListedPayment;
    ReachableIsOk(w, states[0]);
    ReachableIsInstructed(w, states[0]);
    StuckAlong(w, states, k, n);
    SettledRowIsListed(states[n].api, window, k);
  }

  // --- Otherwise it can come back ---------------------------------------------------------------------------

  predicate AboutPayment(d: Discrepancy, k: Key) { d.source == PaymentRow(k) }

  /** Returned, and no line of any report is about it. */
  ghost predicate Repaid(s: Api, k: Key) {
    && k in s.payments && s.payments[k].status == PaymentStatus.REFUNDED
    && forall window, d :: d in Discrepancies(s, window) ==> !AboutPayment(d, k)
  }

  ghost predicate Leads(w: World, sys: System, end: System)
    requires ValidWorld(w)
  {
    exists states :: Path(w, states) && states[0] == sys && states[|states| - 1] == end
  }

  /** Some continuation returns the money and clears the report of it. */
  ghost predicate CanBeRepaid(w: World, sys: System, k: Key)
    requires ValidWorld(w)
  {
    exists end :: Leads(w, sys, end) && Repaid(end.api, k)
  }

  lemma RepaidAtOnce(w: World, sys: System, k: Key)
    requires ValidWorld(w) && SystemOk(w, sys) && k in sys.api.payments && sys.api.payments[k].status == PaymentStatus.REFUNDED
    ensures CanBeRepaid(w, sys, k)
  {
    hide SystemOk, Discrepancies, Steps;
    RefundedHasNoLine(w, sys, k);
    assert Path(w, [sys]);
    assert Leads(w, sys, sys);
  }

  lemma RefundedHasNoLine(w: World, sys: System, k: Key)
    requires ValidWorld(w) && SystemOk(w, sys) && k in sys.api.payments && sys.api.payments[k].status == PaymentStatus.REFUNDED
    ensures forall window, d :: d in Discrepancies(sys.api, window) ==> !AboutPayment(d, k)
  {
    hide MoneyOk, BooksOk, LiveOk, CancelledOk, Discrepancies;
    ReturnedWithinPaid(w, sys, k);
    forall window, d | d in Discrepancies(sys.api, window) ensures !AboutPayment(d, k) { ReturnedIsUnlisted(sys.api, k, window, d); }
  }

  lemma ReturnedIsUnlisted(s: Api, k: Key, window: Window, d: Discrepancy)
    requires k in s.payments && s.payments[k].status == PaymentStatus.REFUNDED
    requires CaptureRecorded(s, s.payments[k]) && s.payments[k].refundedMinor <= s.payments[k].amountMinor
    requires d in Discrepancies(s, window)
    ensures !AboutPayment(d, k)
  {
    hide CapturesWithoutConfirmation, RefundsWithoutCapture, RefundsInitiatedNotSettled, RefundsAcceptedNotSettled,
      ChargesAcceptedNotSettled, OverRefunds, ConfirmationsWithoutCapture, DoubleCaptures, UnmatchedDeliveries, CaptureRecorded;
    if d in ConfirmationsWithoutCapture(s, window) + DoubleCaptures(s, window) + UnmatchedDeliveries(s, window) {
      OtherLines(s, window, d);
    } else if d in RefundsWithoutCapture(s, window) + OverRefunds(s, window) {
      RefundLines(s, k, window, d);
    } else {
      UnsettledLines(s, k, window, d);
    }
  }

  lemma OtherLines(s: Api, window: Window, d: Discrepancy)
    requires d in ConfirmationsWithoutCapture(s, window) + DoubleCaptures(s, window) + UnmatchedDeliveries(s, window)
    ensures !d.source.PaymentRow?
  {
    hide CapturedFor, SumOver, LatestUpdate, PaidFor, InWindow, PastGrace;
  }

  /** The checks on what has not settled skip what was returned. */
  lemma UnsettledLines(s: Api, k: Key, window: Window, d: Discrepancy)
    requires k in s.payments && s.payments[k].status == PaymentStatus.REFUNDED
    requires d in CapturesWithoutConfirmation(s, window) + RefundsInitiatedNotSettled(s, window)
                  + RefundsAcceptedNotSettled(s, window) + ChargesAcceptedNotSettled(s, window)
    ensures !AboutPayment(d, k)
  {
    hide Settled, PastGrace;
  }

  lemma RefundLines(s: Api, k: Key, window: Window, d: Discrepancy)
    requires k in s.payments && CaptureRecorded(s, s.payments[k]) && s.payments[k].refundedMinor <= s.payments[k].amountMinor
    requires d in RefundsWithoutCapture(s, window) + OverRefunds(s, window)
    ensures !AboutPayment(d, k)
  {
    hide Settled, CaptureRecorded;
  }

  lemma RepaidAfter(w: World, sys: System, m: Move, k: Key)
    requires ValidWorld(w) && Possible(w, sys, m) && CanBeRepaid(w, Next(w, sys, m), k)
    ensures CanBeRepaid(w, sys, k)
  {
    hide Next, Possible, Repaid, ValidConfig;
    var next := Next(w, sys, m);
    var end :| Leads(w, next, end) && Repaid(end.api, k);
    var states :| Path(w, states) && states[0] == next && states[|states| - 1] == end;
    var longer := [sys] + states;
    forall i | 0 <= i < |longer| - 1 ensures Steps(w, longer[i], longer[i + 1]) {
      if i > 0 { assert longer[i] == states[i - 1] && longer[i + 1] == states[i]; }
    }
    assert Path(w, longer) && longer[|longer| - 1] == end;
  }

  /** A waiting delivery is applied: nothing can make it fail. */
  lemma ByApplying(w: World, sys: System, k: Key, row: nat)
    requires ValidWorld(w) && SystemOk(w, sys) && Owed(sys.api, k)
    requires row < |sys.api.deliveries| && Waits(sys.api.deliveries[row], ChargeOf(sys.api, k))
    ensures CanBeRepaid(w, sys, k)
  {
    hide MoneyOk, BooksOk, LiveOk, ApplyDelivery, CanBeRepaid, LiveAfter, ValidConfig, CancelledOk;
    DeliveryFindsItsPayment(w, sys, row);
    MoveKeeps(w, sys, Apply(row));
    RecordedMeansReturned(w, sys, Next(w, sys, Apply(row)), k);
    RepaidAtOnce(w, Next(w, sys, Apply(row)), k);
    RepaidAfter(w, sys, Apply(row), k);
  }

  lemma RecordedMeansReturned(w: World, sys: System, next: System, k: Key)
    requires MoneyOk(w, next) && Owed(sys.api, k) && Advances(sys, next)
    requires EventKey(ChargeOf(sys.api, k), RefundSucceeded) in next.api.events
    ensures k in next.api.payments && next.api.payments[k].status == PaymentStatus.REFUNDED
  {
    hide P.ProviderOk, NotesOk, RefundsOk, Returned, Frozen;
    assert PaymentGrows(sys.api.payments[k], next.api.payments[k]);
    AccountOfKey(next.api, next.provider.ledger, k);
  }

  lemma FreshDelivery(deliveries: seq<Delivery>) returns (id: nat)
    ensures !DeliveryIdSeen(deliveries, id)
  {
    id := 0;
    for i := 0 to |deliveries|
      invariant forall j :: 0 <= j < i ==> deliveries[j].deliveryId < id
    {
      if deliveries[i].deliveryId >= id { id := deliveries[i].deliveryId + 1; }
    }
  }

  /** An attempt still to come arrives, under an id of its own. */
  lemma ByReceiving(w: World, sys: System, k: Key)
    requires ValidWorld(w) && SystemOk(w, sys) && Owed(sys.api, k) && DispatchLive(sys, ChargeOf(sys.api, k))
    ensures CanBeRepaid(w, sys, k)
  {
    hide SystemOk, CanBeRepaid, ValidConfig;
    var c := ChargeOf(sys.api, k);
    var i :| i in sys.live.dispatches && i < |sys.provider.log| && TellsOfRefund(BodyOf(sys.provider.log[i]), c);
    var body := BodyOf(sys.provider.log[i]);
    var id := FreshDelivery(sys.api.deliveries);
    var m := Receive(id, true, body);
    MoveKeeps(w, sys, m);
    var next := Next(w, sys, m);
    assert next.api == sys.api.(deliveries := sys.api.deliveries + [PaymentsService.DeliveryRow(sys.now, id, true, body)]);
    ByApplying(w, next, k, |sys.api.deliveries|);
    RepaidAfter(w, sys, m, k);
  }

  /** The API asks about the refund whose id it knows. */
  lemma ByAsking(w: World, sys: System, k: Key)
    requires ValidWorld(w) && SystemOk(w, sys) && Owed(sys.api, k) && sys.api.payments[k].refundId.Some?
    requires SettledThere(sys.provider.ledger, ChargeOf(sys.api, k))
    ensures CanBeRepaid(w, sys, k)
  {
    hide MoneyOk, BooksOk, LiveOk, CanBeRepaid, LiveAfter, ValidConfig, CancelledOk, Gated;
    var c := ChargeOf(sys.api, k);
    var rid := sys.api.payments[k].refundId.value;
    OwedAccount(w, sys, k);
    var r :| RefundOf(sys.provider.ledger, r, c) && sys.provider.ledger.refunds[r].materialised;
    OneRefundPerCharge(w, sys, r, rid);
    var amount := Some(sys.provider.ledger.refunds[rid].amountMinor as int);
    var m := AskRefund(k, c, rid, amount);
    ReturnShape(sys.api, sys.now, k, c, None, amount);
    MoveKeeps(w, sys, m);
    RecordedMeansReturned(w, sys, Next(w, sys, m), k);
    RepaidAtOnce(w, Next(w, sys, m), k);
    RepaidAfter(w, sys, m, k);
  }

  /** The caller that still listens hears which refund it was. */
  lemma ByHearing(w: World, sys: System, k: Key)
    requires ValidWorld(w) && SystemOk(w, sys) && Owed(sys.api, k) && sys.api.payments[k].refundId.None?
    requires SettledThere(sys.provider.ledger, ChargeOf(sys.api, k)) && Listening(sys, ChargeOf(sys.api, k))
    ensures CanBeRepaid(w, sys, k)
  {
    hide MoneyOk, BooksOk, CanBeRepaid, LiveAfter, ValidConfig, CancelledOk;
    var c := ChargeOf(sys.api, k);
    var i :| i in sys.live.awaited && i.chargeId == c;
    var r :| RefundOf(sys.provider.ledger, r, c) && sys.provider.ledger.refunds[r].materialised;
    AnswerIsOut(w, sys, k, i, r);
    var m := HearRefund(i, r);
    MoveKeeps(w, sys, m);
    ByAsking(w, Next(w, sys, m), k);
    RepaidAfter(w, sys, m, k);
  }

  lemma AnswerIsOut(w: World, sys: System, k: Key, i: Instruction, r: RefundId)
    requires MoneyOk(w, sys) && Owed(sys.api, k) && i in sys.sent && i.chargeId == ChargeOf(sys.api, k)
    requires RefundOf(sys.provider.ledger, r, i.chargeId) && sys.provider.ledger.refunds[r].materialised
    ensures P.RefundAnswer(i.key, r) in sys.provider.answers && i.paymentKey == k
  {
    hide TablesOk, DeliveriesOk, CallsOk, ToldOk, P.ProviderOk;
    RefundWasAnnounced(w, sys, r);
    assert InstructionOk(sys.api, i) && RefundBacked(sys.sent, sys.provider.ledger.refunds[r]);
    CarriersAgree(sys.api, sys.provider.ledger, i.paymentKey, k, i.chargeId);
  }

  /** The provider's running handler settles the refund and announces it. */
  lemma ByRunning(w: World, sys: System, k: Key)
    requires ValidWorld(w) && SystemOk(w, sys) && Owed(sys.api, k) && HandlerPays(sys, ChargeOf(sys.api, k))
    ensures CanBeRepaid(w, sys, k)
  {
    hide MoneyOk, BooksOk, CanBeRepaid, ValidConfig, CancelledOk;
    var c := ChargeOf(sys.api, k);
    var r :| RefundOf(sys.provider.ledger, r, c) && !sys.provider.ledger.refunds[r].materialised && P.SettleRefund(r) in sys.live.tasks;
    var m := ProviderMoves(P.RunTask(P.SettleRefund(r)));
    MoveKeeps(w, sys, m);
    var next := Next(w, sys, m);
    assert TellsOfRefund(BodyOf(next.provider.log[|sys.provider.log|]), c);
    ByReceiving(w, next, k);
    RepaidAfter(w, sys, m, k);
  }

  lemma FreshRefund(l: L.State) returns (id: RefundId)
    ensures id !in l.refunds
  {
    id := 0;
    var rest := l.refunds.Keys;
    while rest != {}
      invariant forall r :: r in l.refunds && r !in rest ==> r < id
    {
      var r :| r in rest;
      if r >= id { id := r + 1; }
      rest := rest - {r};
    }
  }

  /** The call arrives: the provider opens the refund, for it has none under that key. */
  lemma ByCalling(w: World, sys: System, k: Key)
    requires ValidWorld(w) && SystemOk(w, sys) && Owed(sys.api, k) && CallPays(sys, ChargeOf(sys.api, k))
    ensures CanBeRepaid(w, sys, k)
  {
    hide MoneyOk, BooksOk, CanBeRepaid, ValidConfig, CancelledOk, L.OpenRefund, HandlerPays;
    var c := ChargeOf(sys.api, k);
    var i :| i in sys.live.refundCalls && i.chargeId == c;
    var id := FreshRefund(sys.provider.ledger);
    var request := L.RefundRequest(i.key, i.chargeId, i.amountMinor, None);
    CallOpens(w, sys, i, id);
    var m := ProviderMoves(P.PostRefund(request, id));
    MoveKeeps(w, sys, m);
    OpenedIsRunning(w, sys, m, id, c);
    ByRunning(w, Next(w, sys, m), k);
    RepaidAfter(w, sys, m, k);
  }

  lemma OpenedIsRunning(w: World, sys: System, m: Move, id: RefundId, c: ChargeId)
    requires ValidWorld(w) && Possible(w, sys, m) && m.ProviderMoves? && m.step.PostRefund?
    requires m.step.newRefundId == id && m.step.refund.chargeId == c
    requires L.OpenRefund(sys.provider.ledger, m.step.refund, id).1 == L.Created(id)
    ensures HandlerPays(Next(w, sys, m), c) && Next(w, sys, m).api == sys.api
  {
    hide ValidConfig;
    assert RefundOf(Next(w, sys, m).provider.ledger, id, c);
  }

  lemma CallOpens(w: World, sys: System, i: Instruction, id: RefundId)
    requires MoneyOk(w, sys) && i in sys.sent && i.amountMinor > 0 && id !in sys.provider.ledger.refunds
    requires !RefundExists(sys.provider.ledger, i.chargeId)
    ensures L.OpenRefund(sys.provider.ledger, L.RefundRequest(i.key, i.chargeId, i.amountMinor, None), id).1 == L.Created(id)
  {
    hide MoneyOk;
    RefundFits(w, sys, i, id);
    InstructedCharge(w, sys, i);
    UnclaimedKey(w, sys, i);
  }

  lemma UnclaimedKey(w: World, sys: System, i: Instruction)
    requires MoneyOk(w, sys) && i in sys.sent && i.key == RefundKey(i.chargeId) && !RefundExists(sys.provider.ledger, i.chargeId)
    ensures L.RefundSlot(i.key) !in sys.provider.ledger.idempotency
  {
    hide MoneyOk, RefundExists;
    if L.RefundSlot(i.key) in sys.provider.ledger.idempotency { ClaimIsARefund(w, sys, i); }
  }

  lemma ClaimIsARefund(w: World, sys: System, i: Instruction)
    requires MoneyOk(w, sys) && i.key == RefundKey(i.chargeId) && L.RefundSlot(i.key) in sys.provider.ledger.idempotency
    ensures RefundExists(sys.provider.ledger, i.chargeId)
  {
    hide TablesOk, NotesOk, P.LogOk, P.AllTasksOk, P.AllAnswersOk, P.OutcomesOk, P.AllAnnounced, L.AllBacked, L.AllListed, L.ChargesClaimed;
    var l := sys.provider.ledger;
    var slot := L.RefundSlot(i.key);
    assert L.Resolves(l.charges, l.refunds, slot, l.idempotency[slot]);
    assert RefundBacked(sys.sent, l.refunds[l.idempotency[slot].resourceId]);
    assert RefundOf(l, l.idempotency[slot].resourceId, i.chargeId);
  }

  /** The settlement runs when it comes to something, and its call is on its way. */
  lemma BySettling(w: World, sys: System, k: Key)
    requires ValidWorld(w) && SystemOk(w, sys) && Owed(sys.api, k) && SettlementPays(sys, k)
    ensures CanBeRepaid(w, sys, k)
  {
    hide SystemOk, CanBeRepaid, ValidConfig, CancellationRefund;
    var at :| at >= sys.now && WorthSomething(sys.api.bookings[sys.api.payments[k].bookingId], at);
    var later := Next(w, sys, Tick(at));
    MoveKeeps(w, sys, Tick(at));
    assert later.api == sys.api && later.now == at && later.live.settlements == sys.live.settlements;
    BySettlingNow(w, later, k);
    RepaidAfter(w, sys, Tick(at), k);
  }

  lemma BySettlingNow(w: World, sys: System, k: Key)
    requires ValidWorld(w) && SystemOk(w, sys) && Owed(sys.api, k) && sys.api.payments[k].refundKey.None?
    requires sys.api.payments[k].bookingId in sys.live.settlements
    requires WorthSomething(sys.api.bookings[sys.api.payments[k].bookingId], sys.now)
    ensures CanBeRepaid(w, sys, k)
  {
    hide SystemOk, MoneyOk, CanBeRepaid, ValidConfig, SettleCancellation, WorthSomething, Moved, LiveAfter, RefundExists;
    var id := sys.api.payments[k].bookingId;
    var m := SettleCancelled(id);
    MoveKeeps(w, sys, m);
    SystemMoney(w, sys);
    OnlyPayment(w, sys, k);
    Unrefunded(w, sys, k);
    SettlementDecides(sys.api, sys.now, k);
    NewCallIsLive(w, sys, id, SettleCancellation(sys.api, sys.now, id).instruction.value);
    ByCalling(w, Next(w, sys, m), k);
    RepaidAfter(w, sys, m, k);
  }

  lemma SystemMoney(w: World, sys: System)
    requires ValidWorld(w) && SystemOk(w, sys)
    ensures MoneyOk(w, sys)
  {
  }

  lemma SettlementDecides(s: Api, now: int, k: Key)
    requires Owed(s, k) && s.payments[k].refundKey.None? && FindCaptured(s.payments, s.payments[k].bookingId) == Some(k)
    requires WorthSomething(s.bookings[s.payments[k].bookingId], now)
    ensures var e := SettleCancellation(s, now, s.payments[k].bookingId);
            && Owed(e.after, k) && ChargeOf(e.after, k) == ChargeOf(s, k)
            && e.instruction.Some? && e.instruction.value.chargeId == ChargeOf(s, k) && e.instruction.value.amountMinor > 0
  {
    hide CancellationRefund, Captured;
  }

  lemma NewCallIsLive(w: World, sys: System, id: BookingId, i: Instruction)
    requires ValidWorld(w) && id in sys.live.settlements && i !in sys.sent && i.amountMinor > 0
    requires SettleCancellation(sys.api, sys.now, id).instruction == Some(i)
    ensures var next := Next(w, sys, SettleCancelled(id));
            i in next.live.refundCalls && next.provider == sys.provider && next.api == SettleCancellation(sys.api, sys.now, id).after
  {
    hide ValidConfig, SettleCancellation;
  }

  lemma OnlyPayment(w: World, sys: System, k: Key)
    requires MoneyOk(w, sys) && Owed(sys.api, k)
    ensures FindCaptured(sys.api.payments, sys.api.payments[k].bookingId) == Some(k)
  {
    hide P.ProviderOk, NotesOk, RefundsOk, AccountOk;
    AccountOfKey(sys.api, sys.provider.ledger, k);
    var id := sys.api.payments[k].bookingId;
    assert Captured(sys.api.payments[k], id);
    AccountOfKey(sys.api, sys.provider.ledger, FindCaptured(sys.api.payments, id).value);
  }

  lemma Unrefunded(w: World, sys: System, k: Key)
    requires MoneyOk(w, sys) && Owed(sys.api, k) && sys.api.payments[k].refundKey.None?
    ensures !RefundExists(sys.provider.ledger, ChargeOf(sys.api, k))
    ensures forall i :: i in sys.sent ==> i.chargeId != ChargeOf(sys.api, k)
  {
    hide P.ProviderOk, TablesOk, DeliveriesOk, CallsOk, ToldOk;
    var c := ChargeOf(sys.api, k);
    forall i | i in sys.sent ensures i.chargeId != c {
      assert InstructionOk(sys.api, i);
      if i.chargeId == c { CarriersAgree(sys.api, sys.provider.ledger, i.paymentKey, k, c); }
    }
    if RefundExists(sys.provider.ledger, c) { RefundIsInstructed(sys, c); }
  }

  lemma RefundIsInstructed(sys: System, c: ChargeId)
    requires RefundsOk(sys.provider.ledger, sys.sent) && RefundExists(sys.provider.ledger, c)
    ensures exists i :: i in sys.sent && i.chargeId == c
  {
    var r :| r in sys.provider.ledger.refunds && RefundOf(sys.provider.ledger, r, c);
    assert RefundBacked(sys.sent, sys.provider.ledger.refunds[r]);
  }

  /**
   * Money owed on an ended booking can still come back, with no line of any
   * report left about it, exactly when it is not stuck: when a paying settlement,
   * the one call, the provider's handler or some news of the settled refund is
   * still under way.
   */
  lemma RepaidIff(w: World, sys: System, k: Key)
    requires ValidWorld(w) && Reachable(w, sys) && Owed(sys.api, k)
    ensures CanBeRepaid(w, sys, k) <==> !Stuck(sys, k)
  {
    ReachableIsOk(w, sys);
    ReachableIsInstructed(w, sys);
    hide Reachable, SystemOk, AllInstructed, Repaid, Path, SettlementPays, CallPays, HandlerPays, Listening, DispatchLive, SettledThere;
    if Stuck(sys, k) {
      if CanBeRepaid(w, sys, k) { StuckIsNotRepaid(w, sys, k); }
    } else if SettlementPays(sys, k) {
      BySettling(w, sys, k);
    } else if CallPays(sys, ChargeOf(sys.api, k)) {
      ByCalling(w, sys, k);
    } else if HandlerPays(sys, ChargeOf(sys.api, k)) {
      ByRunning(w, sys, k);
    } else if sys.api.payments[k].refundId.Some? {
      ByAsking(w, sys, k);
    } else if Listening(sys, ChargeOf(sys.api, k)) {
      ByHearing(w, sys, k);
    } else if DispatchLive(sys, ChargeOf(sys.api, k)) {
      ByReceiving(w, sys, k);
    } else {
      var row :| 0 <= row < |sys.api.deliveries| && Waits(sys.api.deliveries[row], ChargeOf(sys.api, k));
      ByApplying(w, sys, k, row);
    }
  }

  lemma StuckIsNotRepaid(w: World, sys: System, k: Key)
    requires ValidWorld(w) && SystemOk(w, sys) && AllInstructed(sys) && Stuck(sys, k)
    ensures !CanBeRepaid(w, sys, k)
  {
    hide SystemOk, AllInstructed, Steps, SettlementPays, CallPays, HandlerPays, NewsPays, Discrepancies, Quiet;
    forall states: seq<System> | Path(w, states) && states[0] == sys ensures !Repaid(states[|states| - 1].api, k) {
      StuckAlong(w, states, k, |states| - 1);
    }
  }

  // --- Two ways to be stuck, whatever the refund is worth ----------------------------------------------------

  /** Nothing is under way for this payment, and the provider has no refund for its charge. */
  lemma NothingUnderWayIsStuck(w: World, sys: System, k: Key)
    requires MoneyOk(w, sys) && LiveOk(sys) && Owed(sys.api, k) && !RefundExists(sys.provider.ledger, ChargeOf(sys.api, k))
    requires sys.api.payments[k].refundKey.Some? || sys.api.payments[k].bookingId !in sys.live.settlements
    requires forall i :: i in sys.live.refundCalls || i in sys.live.awaited ==> i.chargeId != ChargeOf(sys.api, k)
    ensures Stuck(sys, k) && Quiet(sys, k)
  {
    hide P.ProviderOk, TablesOk, RefundsOk, DeliveriesOk, CallsOk, ToldOk;
    var c := ChargeOf(sys.api, k);
    if SettledThere(sys.provider.ledger, c) { SettledExists(sys.provider.ledger, c); }
    if HandlerPays(sys, c) { RunningExists(sys, c); }
    forall i | i in sys.live.awaited ensures i.paymentKey != k { assert InstructionOk(sys.api, i); }
  }

  lemma RunningExists(sys: System, c: ChargeId)
    requires HandlerPays(sys, c)
    ensures RefundExists(sys.provider.ledger, c)
  {
    var r :| RefundOf(sys.provider.ledger, r, c) && !sys.provider.ledger.refunds[r].materialised && P.SettleRefund(r) in sys.live.tasks;
  }

  /** What cancelling a confirmed booking does, and nothing else. */
  lemma CancelMoves(w: World, sys: System, id: BookingId, userId: nat, text: string)
    requires ValidWorld(w) && id < |sys.api.bookings| && sys.api.bookings[id].status == CONFIRMED && id !in sys.cancelled
    ensures var m := CancelRequest(id, userId, text);
            && Possible(w, sys, m) && Next(w, sys, m).api.payments == sys.api.payments && id in Next(w, sys, m).live.settlements
            && Next(w, sys, m).now == sys.now
            && |Next(w, sys, m).api.bookings| == |sys.api.bookings|
            && Next(w, sys, m).api.bookings[id] == sys.api.bookings[id].(status := CANCELLED, updatedAt := sys.now)
  {
    hide ValidConfig;
  }

  /** A confirmed booking is cancelled: its money is owed, and its settlement is under way. */
  lemma CancellingOwes(w: World, sys: System, id: BookingId, userId: nat, text: string) returns (end: System)
    requires ValidWorld(w) && Reachable(w, sys) && id < |sys.api.bookings| && sys.api.bookings[id].status == CONFIRMED
    ensures Reachable(w, end) && Owed(end.api, ChargeKey(id)) && end.api.payments[ChargeKey(id)].refundKey.None?
    ensures end.api.payments[ChargeKey(id)].bookingId == id && id in end.live.settlements && end.now == sys.now
    ensures CancellationRefund(end.api.bookings[id], end.now) == CancellationRefund(sys.api.bookings[id], sys.now)
  {
    hide Reachable, Next, Possible, ValidConfig, CancellationRefund;
    ConfirmedAccount(w, sys, id);
    NotYetCancelled(w, sys, id);
    CancelMoves(w, sys, id, userId, text);
    end := Advance(w, sys, CancelRequest(id, userId, text));
    SameRefund(sys.api.bookings[id], end.api.bookings[id], sys.now);
  }

  /** Losing something changes only what is under way. */
  lemma LoseMoves(w: World, sys: System, item: InFlight)
    requires ValidWorld(w)
    ensures Possible(w, sys, Lose(item)) && Next(w, sys, Lose(item)) == sys.(live := Without(sys.live, item))
  {
    hide ValidConfig;
    assert sys.cancelled - sys.cancelled == {};
    assert NewCalls(sys, sys) == {};
  }

  /** The process stops between the cancellation and its settlement, and a second cancellation is refused. */
  lemma SettlementIsLost(w: World, sys: System, id: BookingId, userId: nat, text: string) returns (end: System)
    requires ValidWorld(w) && Reachable(w, sys) && id < |sys.api.bookings| && sys.api.bookings[id].status == CONFIRMED
    ensures Reachable(w, end) && Stuck(end, ChargeKey(id)) && Quiet(end, ChargeKey(id))
    ensures end.api.payments[ChargeKey(id)].refundKey.None?
  {
    hide Reachable, Next, Possible, ValidConfig, Stuck, Quiet, SystemOk, CancellationRefund;
    var cancelled := CancellingOwes(w, sys, id, userId, text);
    LoseMoves(w, cancelled, Settlement(id));
    end := Advance(w, cancelled, Lose(Settlement(id)));
    ReachableIsOk(w, end);
    UntoldIsStuck(w, end, ChargeKey(id));
  }

  lemma UntoldIsStuck(w: World, sys: System, k: Key)
    requires ValidWorld(w) && SystemOk(w, sys) && Owed(sys.api, k) && sys.api.payments[k].refundKey.None?
    requires sys.api.payments[k].bookingId !in sys.live.settlements
    ensures Stuck(sys, k) && Quiet(sys, k)
  {
    hide MoneyOk, BooksOk, CancelledOk, Stuck, Quiet, RefundExists, ValidConfig;
    Unrefunded(w, sys, k);
    NothingUnderWayIsStuck(w, sys, k);
  }

  /** The settlement commits, and its one call is lost together with its caller, whatever it was for. */
  lemma CallIsLost(w: World, sys: System, id: BookingId, userId: nat, text: string) returns (end: System, i: Instruction)
    requires ValidWorld(w) && Reachable(w, sys) && id < |sys.api.bookings| && sys.api.bookings[id].status == CONFIRMED
    ensures Reachable(w, end) && Stuck(end, ChargeKey(id)) && Quiet(end, ChargeKey(id))
    ensures i in end.sent && i.paymentKey == ChargeKey(id) && CancellationRefund(sys.api.bookings[id], sys.now).Some?
    ensures i.amountMinor == CancellationRefund(sys.api.bookings[id], sys.now).value.totalRefundMinor
  {
    hide Reachable, Next, Possible, ValidConfig, Stuck, Quiet, SystemOk, CancellationRefund, MoneyOk, RefundExists, SettleCancellation;
    var k := ChargeKey(id);
    var cancelled := CancellingOwes(w, sys, id, userId, text);
    ConfirmedAccount(w, sys, id);
    ReachableMoney(w, cancelled);
    Unrefunded(w, cancelled, k);
    OnlyPayment(w, cancelled, k);
    SettleInstructsOwed(cancelled.api, cancelled.now, k);
    i := SettleCancellation(cancelled.api, cancelled.now, id).instruction.value;
    SettledOwes(cancelled.api, cancelled.now, k);
    SettleMoves(w, cancelled, id);
    var settled := Advance(w, cancelled, SettleCancelled(id));
    LoseMoves(w, settled, RefundCall(i));
    var lost := Advance(w, settled, Lose(RefundCall(i)));
    LoseMoves(w, lost, AwaitedAnswer(i));
    end := Advance(w, lost, Lose(AwaitedAnswer(i)));
    ReachableIsOk(w, end);
    LastCallIsStuck(w, end, k, i);
  }

  lemma SettleMoves(w: World, sys: System, id: BookingId)
    requires ValidWorld(w) && id in sys.live.settlements
    ensures var m := SettleCancelled(id); var e := SettleCancellation(sys.api, sys.now, id);
            && Possible(w, sys, m) && Next(w, sys, m).api == e.after && Next(w, sys, m).provider == sys.provider
            && (e.instruction.Some? ==> e.instruction.value in Next(w, sys, m).sent)
  {
    hide ValidConfig, SettleCancellation;
  }

  lemma SettleInstructsOwed(s: Api, now: int, k: Key)
    requires Owed(s, k) && s.payments[k].refundKey.None? && FindCaptured(s.payments, s.payments[k].bookingId) == Some(k)
    requires CancellationRefund(s.bookings[s.payments[k].bookingId], now).Some?
    ensures var e := SettleCancellation(s, now, s.payments[k].bookingId);
            && e.instruction.Some? && e.instruction.value.paymentKey == k
            && e.instruction.value.amountMinor == CancellationRefund(s.bookings[s.payments[k].bookingId], now).value.totalRefundMinor
  {
    hide CancellationRefund, Captured;
  }

  lemma SettledOwes(s: Api, now: int, k: Key)
    requires Owed(s, k) && s.payments[k].refundKey.None? && FindCaptured(s.payments, s.payments[k].bookingId) == Some(k)
    requires SettleCancellation(s, now, s.payments[k].bookingId).instruction.Some?
    ensures var e := SettleCancellation(s, now, s.payments[k].bookingId);
            Owed(e.after, k) && ChargeOf(e.after, k) == ChargeOf(s, k) && e.after.payments[k].refundKey.Some?
            && e.instruction.value.chargeId == ChargeOf(s, k)
  {
    hide CancellationRefund, Captured;
  }

  lemma LastCallIsStuck(w: World, sys: System, k: Key, i: Instruction)
    requires ValidWorld(w) && SystemOk(w, sys) && Owed(sys.api, k) && sys.api.payments[k].refundKey.Some?
    requires i in sys.sent && i.chargeId == ChargeOf(sys.api, k) && i !in sys.live.refundCalls && i !in sys.live.awaited
    requires !RefundExists(sys.provider.ledger, ChargeOf(sys.api, k))
    ensures Stuck(sys, k) && Quiet(sys, k)
  {
    hide BooksOk, CancelledOk, Stuck, Quiet, RefundExists, ValidConfig, P.ProviderOk, TablesOk, RefundsOk, DeliveriesOk, CallsOk, ToldOk;
    NothingUnderWayIsStuck(w, sys, k);
  }

  /** And whatever is under way, an instruction of nothing is stuck: it is never sent. */
  lemma NothingToReturnIsStuck(w: World, sys: System, i: Instruction)
    requires ValidWorld(w) && Reachable(w, sys) && i in sys.sent && i.amountMinor == 0
    ensures Stuck(sys, i.paymentKey)
  {
    hide Reachable, SystemOk, MoneyOk, CallPays, HandlerPays, SettledThere, RefundExists;
    ReachableMoney(w, sys);
    ReachableIsOk(w, sys);
    ZeroInstructionOwes(w, sys, i);
    ZeroIsNeverRefunded(w, sys, i);
    ZeroIsNeverCalled(w, sys, i);
    var c := ChargeOf(sys.api, i.paymentKey);
    if SettledThere(sys.provider.ledger, c) { SettledExists(sys.provider.ledger, c); }
    if HandlerPays(sys, c) { RunningExists(sys, c); }
  }

  lemma ZeroIsNeverCalled(w: World, sys: System, i: Instruction)
    requires ValidWorld(w) && SystemOk(w, sys) && i in sys.sent && i.amountMinor == 0
    ensures !CallPays(sys, i.chargeId)
  {
    hide BooksOk, CancelledOk, P.ProviderOk, TablesOk, RefundsOk, DeliveriesOk, CallsOk, ToldOk, RefundExists, InstructionOk;
    forall j | j in sys.live.refundCalls ensures j.chargeId != i.chargeId { assert j in sys.sent; }
  }

  lemma ZeroInstructionOwes(w: World, sys: System, i: Instruction)
    requires MoneyOk(w, sys) && i in sys.sent && i.amountMinor == 0
    ensures Owed(sys.api, i.paymentKey) && ChargeOf(sys.api, i.paymentKey) == i.chargeId
    ensures sys.api.payments[i.paymentKey].refundKey.Some?
  {
    hide P.ProviderOk, RefundsOk, TablesOk, DeliveriesOk, CallsOk, ToldOk, ListedPayment;
    ZeroInstructionStaysCaptured(w, sys, i, Window(0, 0, 0, 0));
    assert InstructionOk(sys.api, i);
    KeyedAccountIs(sys.api, sys.provider.ledger, i.paymentKey);
  }

  lemma ZeroIsNeverRefunded(w: World, sys: System, i: Instruction)
    requires MoneyOk(w, sys) && i in sys.sent && i.amountMinor == 0
    ensures !RefundExists(sys.provider.ledger, i.chargeId)
  {
    hide P.ProviderOk, TablesOk, DeliveriesOk, CallsOk, ToldOk, InstructionOk;
    forall r | r in sys.provider.ledger.refunds ensures !RefundOf(sys.provider.ledger, r, i.chargeId) {
      assert RefundBacked(sys.sent, sys.provider.ledger.refunds[r]);
    }
  }
}
