/**
 * One booking, its one payment and its one charge move together: the joint
 * table of their states, and what each payment operation does to it.
 */
module Accounts {
  import opened Wrappers
  import opened RefundPolicy
  import opened Ids
  import opened Database
  import opened BookingStateMachine
  import opened BookingsService
  import opened PaymentsService
  import L = Ledger

  predicate Frozen(b: Booking) { b.policySnapshot.Some? && ValidTiers(b.policySnapshot.value.tiers) }

  /** The states a booking may have before anything was paid for it. */
  predicate Unpaid(b: Booking) { b.status in {HELD, EXPIRED, CANCELLED} }

  /** The states a booking and its payment may have together. */
  predicate Joint(b: Booking, p: Payment) {
    match b.status
    case PENDING_PAYMENT => p.status == PENDING
    case CONFIRMED => p.status == SUCCEEDED && p.refundKey.None? && Frozen(b)
    case FAILED => p.status == PaymentStatus.FAILED
    case EXPIRED => p.status in {SUCCEEDED, PaymentStatus.REFUNDED} && p.refundKey.Some?
    case CANCELLED => p.status == SUCCEEDED && Frozen(b)
    case REFUNDED => p.status == PaymentStatus.REFUNDED && Frozen(b)
    case _ => false
  }

  /** The events recorded for a charge say exactly what its payment's status says. */
  predicate EventsTell(events: map<EventKey, int>, c: ChargeId, status: PaymentStatus) {
    && (EventKey(c, ChargeSucceeded) in events <==> status in {SUCCEEDED, PaymentStatus.REFUNDED})
    && (EventKey(c, ChargeFailed) in events <==> status == PaymentStatus.FAILED)
    && (EventKey(c, RefundSucceeded) in events <==> status == PaymentStatus.REFUNDED)
  }

  predicate ProviderAgrees(l: L.State, c: ChargeId, status: PaymentStatus)
    requires c in l.charges
  {
    && (status in {SUCCEEDED, PaymentStatus.REFUNDED} ==> l.charges[c].materialised && l.charges[c].status == L.Succeeded)
    && (status == PaymentStatus.FAILED ==> l.charges[c].materialised && l.charges[c].status == L.Failed)
  }

  predicate RefundOf(l: L.State, r: RefundId, c: ChargeId) { r in l.refunds && l.refunds[r].chargeId == c }

  predicate Returned(l: L.State, c: ChargeId, amount: int) {
    exists r :: r in l.refunds && l.refunds[r].chargeId == c && l.refunds[r].materialised && l.refunds[r].amountMinor == amount
  }

  predicate RefundSide(l: L.State, c: ChargeId, p: Payment) {
    && (p.refundKey.Some? ==> p.refundKey.value == RefundKey(c) && p.status in {SUCCEEDED, PaymentStatus.REFUNDED})
    && (p.refundId.Some? ==> p.refundKey.Some? && RefundOf(l, p.refundId.value, c))
    && (p.status == PaymentStatus.REFUNDED ==> p.refundKey.Some? && Returned(l, c, p.refundedMinor))
    && (p.status != PaymentStatus.REFUNDED ==> p.refundedMinor == 0)
  }

  predicate AccountOk(events: map<EventKey, int>, l: L.State, b: Booking, k: Key, p: Payment) {
    && p.amountMinor == b.totalMinor && Joint(b, p)
    && match p.chargeId
       case None => p.status == PENDING && p.refundKey.None? && p.refundId.None? && p.refundedMinor == 0
       case Some(c) =>
         c in l.charges && l.charges[c].key == k && EventsTell(events, c, p.status) && ProviderAgrees(l, c, p.status)
         && RefundSide(l, c, p)
  }

  predicate KeyedAccountOk(s: Api, l: L.State, k: Key)
    requires k in s.payments
  {
    var p := s.payments[k];
    k == ChargeKey(p.bookingId) && p.bookingId < |s.bookings| && AccountOk(s.events, l, s.bookings[p.bookingId], k, p)
  }

  ghost predicate AccountsOk(s: Api, l: L.State) { forall k :: k in s.payments ==> KeyedAccountOk(s, l, k) }

  ghost predicate UnpaidOk(s: Api) {
    forall id: nat :: id < |s.bookings| && ChargeKey(id) !in s.payments ==> Unpaid(s.bookings[id])
  }

  /** An event is only ever recorded for a charge some payment carries. */
  predicate EventBacked(s: Api, l: L.State, e: EventKey) {
    e.chargeId in l.charges && l.charges[e.chargeId].key in s.payments
    && s.payments[l.charges[e.chargeId].key].chargeId == Some(e.chargeId)
  }

  ghost predicate EventsOk(s: Api, l: L.State) { forall e :: e in s.events ==> EventBacked(s, l, e) }

  /** A charge at the provider was paid for by the payment its reference names, for the same amount. */
  predicate ChargeBacked(s: Api, c: L.Charge) {
    c.key == ChargeKey(c.reference) && c.key in s.payments && s.payments[c.key].amountMinor == c.amountMinor
  }

  ghost predicate ChargesOk(s: Api, l: L.State) { forall c :: c in l.charges ==> ChargeBacked(s, l.charges[c]) }

  ghost predicate TablesOk(s: Api, l: L.State) {
    AccountsOk(s, l) && UnpaidOk(s) && EventsOk(s, l) && ChargesOk(s, l)
  }

  // --- What the payment tables keep for ever ------------------------------------

  predicate PaymentGrows(p: Payment, p': Payment) {
    && p'.bookingId == p.bookingId && p'.amountMinor == p.amountMinor && p'.createdAt == p.createdAt
    && (p.chargeId.Some? ==> p'.chargeId == p.chargeId)
    && (p.refundKey.Some? ==> p'.refundKey == p.refundKey)
  }

  ghost predicate TablesGrow(s: Api, s': Api) {
    && (forall k :: k in s.payments ==> k in s'.payments && PaymentGrows(s.payments[k], s'.payments[k]))
    && (forall e :: e in s.events ==> e in s'.events)
    && |s.bookings| <= |s'.bookings|
  }

  // --- One account moves, the rest stay --------------------------------------------

  /** Booking `id` and its payment become `b` and `p`; new events are all for `p`'s charge. */
  ghost predicate AccountMoves(s: Api, s': Api, id: BookingId, b: Booking, p: Payment) {
    && id < |s.bookings| && s'.bookings == s.bookings[id := b] && s'.payments == s.payments[ChargeKey(id) := p]
    && (forall e :: e in s.events ==> e in s'.events)
    && (forall e :: e in s'.events && e !in s.events ==> p.chargeId == Some(e.chargeId))
    && p.bookingId == id
    && (ChargeKey(id) in s.payments ==> PaymentGrows(s.payments[ChargeKey(id)], p))
  }

  lemma OtherAccountsStay(s: Api, s': Api, l: L.State, id: BookingId, b: Booking, p: Payment, k: Key)
    requires AccountsOk(s, l) && AccountMoves(s, s', id, b, p) && k in s.payments && k != ChargeKey(id)
    requires AccountOk(s'.events, l, b, ChargeKey(id), p)
    ensures KeyedAccountOk(s', l, k)
  {
    assert KeyedAccountOk(s, l, k);
    var q := s.payments[k];
    assert s'.bookings[q.bookingId] == s.bookings[q.bookingId];
    if q.chargeId.Some? {
      forall e | e in s'.events && e.chargeId == q.chargeId.value ensures e in s.events {}
    }
  }

  lemma AccountMovesKeeps(s: Api, s': Api, l: L.State, id: BookingId, b: Booking, p: Payment)
    requires TablesOk(s, l) && AccountMoves(s, s', id, b, p)
    requires AccountOk(s'.events, l, b, ChargeKey(id), p)
    ensures TablesOk(s', l) && TablesGrow(s, s')
  {
    hide AccountOk, AccountsOk, EventsOk, ChargesOk, UnpaidOk, AccountMoves, TablesGrow;
    OthersKept(s, s', l, id, b, p);
    EventsKept(s, s', l, id, b, p);
    ChargesKept(s, s', l, id, b, p);
  }

  lemma ChargesKept(s: Api, s': Api, l: L.State, id: BookingId, b: Booking, p: Payment)
    requires ChargesOk(s, l) && UnpaidOk(s) && AccountMoves(s, s', id, b, p)
    ensures ChargesOk(s', l) && UnpaidOk(s') && TablesGrow(s, s')
  {
    forall c | c in l.charges ensures ChargeBacked(s', l.charges[c]) { assert ChargeBacked(s, l.charges[c]); }
  }

  lemma OthersKept(s: Api, s': Api, l: L.State, id: BookingId, b: Booking, p: Payment)
    requires AccountsOk(s, l) && AccountMoves(s, s', id, b, p) && AccountOk(s'.events, l, b, ChargeKey(id), p)
    ensures AccountsOk(s', l)
  {
    hide AccountOk;
    forall k | k in s'.payments ensures KeyedAccountOk(s', l, k) {
      if k != ChargeKey(id) { OtherAccountsStay(s, s', l, id, b, p, k); }
    }
  }

  lemma EventsKept(s: Api, s': Api, l: L.State, id: BookingId, b: Booking, p: Payment)
    requires EventsOk(s, l) && AccountMoves(s, s', id, b, p) && AccountOk(s'.events, l, b, ChargeKey(id), p)
    ensures EventsOk(s', l)
  {
    hide AccountOk;
    forall e | e in s'.events ensures EventBacked(s', l, e) {
      if e in s.events { assert EventBacked(s, l, e); } else { CarriedCharge(s'.events, l, b, ChargeKey(id), p); }
    }
  }

  /** Bookings move without their payments: only unpaid ones change, or a confirmed one is cancelled. */
  predicate BookingMoves(b: Booking, b': Booking) {
    && b'.totalMinor == b.totalMinor && (Frozen(b) ==> Frozen(b'))
    && (b'.status == b.status || (Unpaid(b) && Unpaid(b')) || (b.status == CONFIRMED && b'.status == CANCELLED))
  }

  predicate MovesUnpaid(b: Booking, b': Booking) {
    BookingMoves(b, b') && (b.status in {HELD, CONFIRMED} || b'.status == b.status)
  }

  lemma BookingsMoveKeeps(s: Api, s': Api, l: L.State)
    requires TablesOk(s, l) && s'.payments == s.payments && s'.events == s.events && |s.bookings| <= |s'.bookings|
    requires forall i :: 0 <= i < |s.bookings| ==> MovesUnpaid(s.bookings[i], s'.bookings[i])
    requires forall i :: |s.bookings| <= i < |s'.bookings| ==> Unpaid(s'.bookings[i])
    ensures TablesOk(s', l) && TablesGrow(s, s')
  {
    hide AccountOk;
    forall k | k in s'.payments ensures KeyedAccountOk(s', l, k) {
      assert KeyedAccountOk(s, l, k);
      var id := s.payments[k].bookingId;
      assert MovesUnpaid(s.bookings[id], s'.bookings[id]);
      BookingMoveKeepsAccount(s.events, l, s.bookings[id], s'.bookings[id], k, s.payments[k]);
    }
    forall e | e in s'.events ensures EventBacked(s', l, e) { assert EventBacked(s, l, e); }
    forall id: nat | id < |s'.bookings| && ChargeKey(id) !in s'.payments ensures Unpaid(s'.bookings[id]) {
      if id < |s.bookings| { assert MovesUnpaid(s.bookings[id], s'.bookings[id]); }
    }
  }

  lemma BookingMoveKeepsAccount(events: map<EventKey, int>, l: L.State, b: Booking, b': Booking, k: Key, p: Payment)
    requires AccountOk(events, l, b, k, p) && MovesUnpaid(b, b')
    ensures AccountOk(events, l, b', k, p)
  {
    hide Frozen, EventsTell, RefundSide, ProviderAgrees;
  }

  /** The provider moves on: everything the API wrote down about it stays true. */
  lemma LedgerGrowsKeeps(s: Api, l: L.State, l': L.State)
    requires TablesOk(s, l) && L.Grows(l, l')
    requires forall c :: c in l'.charges && c !in l.charges ==> ChargeBacked(s, l'.charges[c])
    ensures TablesOk(s, l')
  {
    forall k | k in s.payments ensures KeyedAccountOk(s, l', k) {
      assert KeyedAccountOk(s, l, k);
      LedgerGrowsKeepsAccount(s.events, l, l', s.bookings[s.payments[k].bookingId], k, s.payments[k]);
    }
    forall e | e in s.events ensures EventBacked(s, l', e) {
      assert EventBacked(s, l, e) && L.ChargeGrows(l.charges[e.chargeId], l'.charges[e.chargeId]);
    }
    forall c | c in l'.charges ensures ChargeBacked(s, l'.charges[c]) {
      if c in l.charges { assert ChargeBacked(s, l.charges[c]) && L.ChargeGrows(l.charges[c], l'.charges[c]); }
    }
  }

  lemma LedgerGrowsKeepsAccount(events: map<EventKey, int>, l: L.State, l': L.State, b: Booking, k: Key, p: Payment)
    requires AccountOk(events, l, b, k, p) && L.Grows(l, l')
    ensures AccountOk(events, l', b, k, p)
  {
    if p.chargeId.Some? {
      var c := p.chargeId.value;
      assert L.ChargeGrows(l.charges[c], l'.charges[c]);
      if p.refundId.Some? { assert L.RefundGrows(l.refunds[p.refundId.value], l'.refunds[p.refundId.value]); }
      if p.status == PaymentStatus.REFUNDED {
        var r :| r in l.refunds && l.refunds[r].chargeId == c && l.refunds[r].materialised
                 && l.refunds[r].amountMinor == p.refundedMinor;
        assert L.RefundGrows(l.refunds[r], l'.refunds[r]);
        assert r in l'.refunds;
      }
    }
  }

  // --- The payment operations ---------------------------------------------------------

  lemma AccountOfKey(s: Api, l: L.State, k: Key)
    requires AccountsOk(s, l) && k in s.payments
    ensures KeyedAccountOk(s, l, k)
  {
  }

  /** Two charges never share a key, so a payment's charge is the one its key claimed. */
  lemma OneChargePerKey(l: L.State, c: ChargeId, d: ChargeId)
    requires L.LedgerOk(l) && c in l.charges && d in l.charges && l.charges[c].key == l.charges[d].key
    ensures c == d
  {
    assert L.Claimed(l.idempotency, c, l.charges[c]) && L.Claimed(l.idempotency, d, l.charges[d]);
  }

  lemma OneRefundPerKey(l: L.State, r: RefundId, t: RefundId)
    requires L.LedgerOk(l) && r in l.refunds && t in l.refunds && l.refunds[r].key == l.refunds[t].key
    ensures r == t
  {
    assert L.RefundClaimed(l.idempotency, r, l.refunds[r]) && L.RefundClaimed(l.idempotency, t, l.refunds[t]);
  }

  /** The row is committed before the call: an unpaid hold becomes a pending payment, or nothing changes. */
  lemma PayKeeps(s: Api, l: L.State, now: int, id: BookingId, userId: nat)
    requires TablesOk(s, l) && PayPrepare(s, now, id, userId).Ok?
    ensures var after := PayPrepare(s, now, id, userId).value.after;
            TablesOk(after, l) && TablesGrow(s, after) && ChargeKey(id) in after.payments
            && (PayPrepare(s, now, id, userId).value.alreadySettled ==> after == s)
  {
    hide AccountsOk, EventsOk, ChargesOk;
    var after := PayPrepare(s, now, id, userId).value.after;
    var key := ChargeKey(id);
    if key in s.payments {
      AccountOfKey(s, l, key);
      assert after == s;
    } else {
      var b' := s.bookings[id].(status := PENDING_PAYMENT, updatedAt := now);
      AccountMovesKeeps(s, after, l, id, b', NewPayment(s.bookings[id], id, now));
    }
  }

  /** The 202 says which charge the key opened; the guarded write and the reference agree on it. */
  lemma RecordChargeIdKeeps(s: Api, l: L.State, now: int, key: Key, c: ChargeId)
    requires TablesOk(s, l) && L.LedgerOk(l) && c in l.charges && l.charges[c].key == key
    ensures var s' := RecordChargeId(s, now, key, c);
            TablesOk(s', l) && TablesGrow(s, s') && HasCharge(s', key, c)
  {
    hide L.LedgerOk;
    var s' := RecordChargeId(s, now, key, c);
    assert ChargeBacked(s, l.charges[c]);
    AccountOfKey(s, l, key);
    var p := s.payments[key];
    ChargeIdOfOnePayment(s, l, c);
    if p.chargeId.None? {
      NoEventsYet(s, l, c);
      AdoptKeeps(s, l, now, key, c);
    } else {
      OneChargePerKey(l, c, p.chargeId.value);
    }
  }

  /** Whatever payment carries a charge id is the one the charge's key names. */
  lemma ChargeIdOfOnePayment(s: Api, l: L.State, c: ChargeId)
    requires AccountsOk(s, l)
    ensures forall k :: k in s.payments && s.payments[k].chargeId == Some(c) ==> c in l.charges && l.charges[c].key == k
  {
    forall k | k in s.payments && s.payments[k].chargeId == Some(c) ensures c in l.charges && l.charges[c].key == k {
      AccountOfKey(s, l, k);
    }
  }

  lemma NoEventsYet(s: Api, l: L.State, c: ChargeId)
    requires EventsOk(s, l) && c in l.charges
    requires l.charges[c].key in s.payments && s.payments[l.charges[c].key].chargeId.None?
    ensures forall e :: e in s.events ==> e.chargeId != c
  {
    forall e | e in s.events ensures e.chargeId != c { assert EventBacked(s, l, e); }
  }

  lemma AdoptKeeps(s: Api, l: L.State, now: int, key: Key, c: ChargeId)
    requires TablesOk(s, l) && c in l.charges && l.charges[c].key == key && key in s.payments
    requires s.payments[key].chargeId.None? && forall e :: e in s.events ==> e.chargeId != c
    ensures var s' := WithPayment(s, key, s.payments[key].(chargeId := Some(c), updatedAt := now));
            TablesOk(s', l) && TablesGrow(s, s')
  {
    hide AccountsOk, EventsOk, ChargesOk, UnpaidOk;
    AccountOfKey(s, l, key);
    var p := s.payments[key];
    var s' := WithPayment(s, key, p.(chargeId := Some(c), updatedAt := now));
    var id := p.bookingId;
    assert s'.bookings == s.bookings[id := s.bookings[id]];
    AccountMovesKeeps(s, s', l, id, s.bookings[id], s'.payments[key]);
  }

  // --- Events -------------------------------------------------------------------------

  /** What an event claims is what the provider's ledger says. */
  predicate EventTrue(l: L.State, c: ChargeId, event: EventKind, refundId: Option<RefundId>, amount: Option<int>) {
    && c in l.charges
    && match event
       case ChargeSucceeded => l.charges[c].materialised && l.charges[c].status == L.Succeeded
       case ChargeFailed => l.charges[c].materialised && l.charges[c].status == L.Failed
       case RefundSucceeded =>
         amount.Some? && Returned(l, c, amount.value) && (refundId.Some? ==> RefundOf(l, refundId.value, c))
  }

  /** An event that has not taken effect yet, for a payment that carries its charge. */
  predicate Due(s: Api, l: L.State, key: Key, c: ChargeId, event: EventKind, refundId: Option<RefundId>, amount: Option<int>) {
    && key in s.payments && s.payments[key].chargeId == Some(c)
    && EventKey(c, event) !in s.events && EventTrue(l, c, event, refundId, amount)
    && (event == RefundSucceeded ==> s.payments[key].refundKey.Some?)
  }

  /** A refund instruction matches the payment that minted its key, and never asks for more than was paid. */
  predicate InstructionOk(s: Api, i: Instruction) {
    && i.paymentKey in s.payments && i.key == RefundKey(i.chargeId)
    && var p := s.payments[i.paymentKey];
       p.chargeId == Some(i.chargeId) && p.refundKey == Some(i.key) && p.bookingId == i.bookingId
       && 0 <= i.amountMinor <= p.amountMinor
  }

  /** An event's whole effect on an account, and the instruction it may put out. */
  ghost predicate TakesEffect(s: Api, after: Api, l: L.State, key: Key, instruction: Option<Instruction>)
    requires key in s.payments
  {
    && TablesOk(after, l) && TablesGrow(s, after)
    && after.deliveries == s.deliveries && after.policies == s.policies
    && (instruction.Some? ==>
          InstructionOk(after, instruction.value) && instruction.value.paymentKey == key
          && s.payments[key].refundKey.None?)
  }

  lemma DueAccount(s: Api, l: L.State, key: Key, c: ChargeId, event: EventKind, refundId: Option<RefundId>, amount: Option<int>)
    requires TablesOk(s, l) && Due(s, l, key, c, event, refundId, amount)
    ensures KeyedAccountOk(s, l, key) && c in l.charges
    ensures event != RefundSucceeded ==>
      s.payments[key].status == PENDING && s.payments[key].refundKey.None?
      && s.bookings[s.payments[key].bookingId].status == PENDING_PAYMENT
    ensures event == RefundSucceeded ==> s.payments[key].status == SUCCEEDED
    ensures match event
            case ChargeSucceeded => l.charges[c].materialised && l.charges[c].status == L.Succeeded
            case ChargeFailed => l.charges[c].materialised && l.charges[c].status == L.Failed
            case RefundSucceeded => amount.Some? && Returned(l, c, amount.value) && (refundId.Some? ==> RefundOf(l, refundId.value, c))
  {
    hide Frozen, Returned;
    AccountOfKey(s, l, key);
  }

  /** The rows a gated event touches: one payment, its booking, and the event itself. */
  predicate TouchesOne(s: Api, after: Api, now: int, key: Key, e: EventKey)
    requires key in s.payments
  {
    var id := s.payments[key].bookingId;
    && key in after.payments && after.payments == s.payments[key := after.payments[key]]
    && id < |s.bookings| == |after.bookings| && after.bookings == s.bookings[id := after.bookings[id]]
    && after.events == s.events[e := now] && after.deliveries == s.deliveries && after.policies == s.policies
  }

  predicate CapturedBooking(b: Booking, b': Booking, now: int) {
    if Lapsed(b, now) then b' == b.(status := EXPIRED, updatedAt := now)
    else
      && b' == b.(status := CONFIRMED, expiresAt := None, policySnapshot := b'.policySnapshot, updatedAt := now)
      && Frozen(b') && b'.policySnapshot.value.snapshotAt == now
  }

  function CapturedPayment(p: Payment, now: int, c: ChargeId, late: bool): Payment {
    p.(status := SUCCEEDED, chargeId := Some(c), refundKey := if late then Some(RefundKey(c)) else None, updatedAt := now)
  }

  /** A capture on a pending payment: confirmed with a frozen policy in time, expired and owed back when late. */
  lemma CaptureShape(s: Api, now: int, key: Key, c: ChargeId, refundId: Option<RefundId>, amount: Option<int>)
    requires key in s.payments && s.payments[key].bookingId < |s.bookings|
    requires s.bookings[s.payments[key].bookingId].status == PENDING_PAYMENT && s.payments[key].refundKey.None?
    requires Gated(s, now, key, c, ChargeSucceeded, refundId, amount).Ok?
    ensures var r := Gated(s, now, key, c, ChargeSucceeded, refundId, amount).value;
            var p := s.payments[key]; var b := s.bookings[p.bookingId];
            && TouchesOne(s, r.after, now, key, EventKey(c, ChargeSucceeded))
            && CapturedBooking(b, r.after.bookings[p.bookingId], now)
            && r.after.payments[key] == CapturedPayment(p, now, c, Lapsed(b, now))
            && r.instruction == (if Lapsed(b, now) then Some(Instruction(key, c, p.bookingId, p.amountMinor, RefundKey(c))) else None)
  {
  }

  lemma CapturedAccount(
      events: map<EventKey, int>, events': map<EventKey, int>, l: L.State, b: Booking, b': Booking, k: Key, p: Payment,
      c: ChargeId, now: int)
    requires AccountOk(events, l, b, k, p) && p.status == PENDING && p.chargeId == Some(c)
    requires events' == events[EventKey(c, ChargeSucceeded) := now] && CapturedBooking(b, b', now)
    requires l.charges[c].materialised && l.charges[c].status == L.Succeeded
    ensures AccountOk(events', l, b', k, CapturedPayment(p, now, c, Lapsed(b, now)))
  {
    hide Frozen, Returned;
  }

  /** One payment and its booking move to a consistent pair; nothing else does. */
  lemma TouchedKeeps(s: Api, after: Api, l: L.State, now: int, key: Key, e: EventKey)
    requires TablesOk(s, l) && key in s.payments && KeyedAccountOk(s, l, key) && TouchesOne(s, after, now, key, e)
    requires s.payments[key].chargeId == Some(e.chargeId) && PaymentGrows(s.payments[key], after.payments[key])
    requires AccountOk(after.events, l, after.bookings[s.payments[key].bookingId], key, after.payments[key])
    ensures TablesOk(after, l) && TablesGrow(s, after)
  {
    hide TablesOk, AccountOk, TablesGrow;
    var id := s.payments[key].bookingId;
    AccountMovesKeeps(s, after, l, id, after.bookings[id], after.payments[key]);
  }

  lemma CaptureKeeps(s: Api, l: L.State, now: int, key: Key, c: ChargeId, refundId: Option<RefundId>, amount: Option<int>)
    requires TablesOk(s, l) && Due(s, l, key, c, ChargeSucceeded, refundId, amount)
    requires Gated(s, now, key, c, ChargeSucceeded, refundId, amount).Ok?
    ensures var r := Gated(s, now, key, c, ChargeSucceeded, refundId, amount).value;
            TakesEffect(s, r.after, l, key, r.instruction)
  {
    hide TablesOk, Gated, AccountOk, EventTrue, Frozen, Returned, TablesGrow;
    DueAccount(s, l, key, c, ChargeSucceeded, refundId, amount);
    CaptureShape(s, now, key, c, refundId, amount);
    var r := Gated(s, now, key, c, ChargeSucceeded, refundId, amount).value;
    var id := s.payments[key].bookingId;
    CapturedAccount(s.events, r.after.events, l, s.bookings[id], r.after.bookings[id], key, s.payments[key], c, now);
    TouchedKeeps(s, r.after, l, now, key, EventKey(c, ChargeSucceeded));
  }

  lemma DeclineShape(s: Api, now: int, key: Key, c: ChargeId, refundId: Option<RefundId>, amount: Option<int>)
    requires key in s.payments && s.payments[key].bookingId < |s.bookings|
    requires s.bookings[s.payments[key].bookingId].status == PENDING_PAYMENT
    ensures var r := Gated(s, now, key, c, ChargeFailed, refundId, amount);
            && r.Ok? && r.value.instruction.None? && TouchesOne(s, r.value.after, now, key, EventKey(c, ChargeFailed))
            && r.value.after.bookings[s.payments[key].bookingId]
               == s.bookings[s.payments[key].bookingId].(status := BookingStatus.FAILED, updatedAt := now)
            && r.value.after.payments[key] == s.payments[key].(
                 status := PaymentStatus.FAILED, failureReason := Some(ProviderDeclined), updatedAt := now)
  {
  }

  lemma DeclinedAccount(
      events: map<EventKey, int>, events': map<EventKey, int>, l: L.State, b: Booking, k: Key, p: Payment, c: ChargeId, now: int)
    requires AccountOk(events, l, b, k, p) && p.status == PENDING && p.chargeId == Some(c)
    requires events' == events[EventKey(c, ChargeFailed) := now]
    requires l.charges[c].materialised && l.charges[c].status == L.Failed
    ensures AccountOk(events', l, b.(status := BookingStatus.FAILED, updatedAt := now), k,
                      p.(status := PaymentStatus.FAILED, failureReason := Some(ProviderDeclined), updatedAt := now))
  {
    hide Frozen, Returned;
  }

  lemma DeclineKeeps(s: Api, l: L.State, now: int, key: Key, c: ChargeId, refundId: Option<RefundId>, amount: Option<int>)
    requires TablesOk(s, l) && Due(s, l, key, c, ChargeFailed, refundId, amount)
    ensures var r := Gated(s, now, key, c, ChargeFailed, refundId, amount);
            r.Ok? && TakesEffect(s, r.value.after, l, key, r.value.instruction)
  {
    hide TablesOk, Gated, AccountOk, EventTrue, Frozen, Returned, TablesGrow;
    DueAccount(s, l, key, c, ChargeFailed, refundId, amount);
    DeclineShape(s, now, key, c, refundId, amount);
    var r := Gated(s, now, key, c, ChargeFailed, refundId, amount).value;
    var id := s.payments[key].bookingId;
    DeclinedAccount(s.events, r.after.events, l, s.bookings[id], key, s.payments[key], c, now);
    TouchedKeeps(s, r.after, l, now, key, EventKey(c, ChargeFailed));
  }

  function AfterReturn(b: Booking, now: int): Booking {
    if b.status == CANCELLED then b.(status := BookingStatus.REFUNDED, updatedAt := now) else b
  }

  function Refunded(p: Payment, now: int, refundId: Option<RefundId>, amount: int): Payment {
    p.(status := PaymentStatus.REFUNDED, refundId := if refundId.Some? then refundId else p.refundId,
       refundedMinor := amount, updatedAt := now)
  }

  lemma ReturnShape(s: Api, now: int, key: Key, c: ChargeId, refundId: Option<RefundId>, amount: Option<int>)
    requires key in s.payments && s.payments[key].bookingId < |s.bookings| && amount.Some?
    ensures var r := Gated(s, now, key, c, RefundSucceeded, refundId, amount);
            && r.Ok? && r.value.instruction.None? && TouchesOne(s, r.value.after, now, key, EventKey(c, RefundSucceeded))
            && r.value.after.bookings[s.payments[key].bookingId] == AfterReturn(s.bookings[s.payments[key].bookingId], now)
            && r.value.after.payments[key] == Refunded(s.payments[key], now, refundId, amount.value)
  {
  }

  lemma ReturnedAccount(
      events: map<EventKey, int>, events': map<EventKey, int>, l: L.State, b: Booking, k: Key, p: Payment, c: ChargeId,
      now: int, refundId: Option<RefundId>, amount: int)
    requires AccountOk(events, l, b, k, p) && p.status == SUCCEEDED && p.chargeId == Some(c) && p.refundKey.Some?
    requires events' == events[EventKey(c, RefundSucceeded) := now]
    requires Returned(l, c, amount) && (refundId.Some? ==> RefundOf(l, refundId.value, c))
    ensures AccountOk(events', l, AfterReturn(b, now), k, Refunded(p, now, refundId, amount))
  {
    hide Returned;
  }

  lemma ReturnKeeps(s: Api, l: L.State, now: int, key: Key, c: ChargeId, refundId: Option<RefundId>, amount: Option<int>)
    requires TablesOk(s, l) && Due(s, l, key, c, RefundSucceeded, refundId, amount)
    ensures var r := Gated(s, now, key, c, RefundSucceeded, refundId, amount);
            r.Ok? && TakesEffect(s, r.value.after, l, key, r.value.instruction)
  {
    hide TablesOk, Gated, AccountOk, EventTrue, Frozen, Returned, TablesGrow;
    DueAccount(s, l, key, c, RefundSucceeded, refundId, amount);
    ReturnShape(s, now, key, c, refundId, amount);
    var r := Gated(s, now, key, c, RefundSucceeded, refundId, amount).value;
    var id := s.payments[key].bookingId;
    ReturnedAccount(s.events, r.after.events, l, s.bookings[id], key, s.payments[key], c, now, refundId, amount.value);
    TouchedKeeps(s, r.after, l, now, key, EventKey(c, RefundSucceeded));
  }

  /** Any true event, applied through the gate, moves one account legally and is then recorded. */
  lemma GatedKeeps(
      s: Api, l: L.State, now: int, key: Key, c: ChargeId, event: EventKind, refundId: Option<RefundId>, amount: Option<int>)
    requires TablesOk(s, l) && Due(s, l, key, c, event, refundId, amount)
    requires Gated(s, now, key, c, event, refundId, amount).Ok?
    ensures var r := Gated(s, now, key, c, event, refundId, amount).value;
            TakesEffect(s, r.after, l, key, r.instruction) && EventKey(c, event) in r.after.events
  {
    hide TakesEffect, TablesOk, EventTrue;
    match event
    case ChargeSucceeded => CaptureKeeps(s, l, now, key, c, refundId, amount);
    case ChargeFailed => DeclineKeeps(s, l, now, key, c, refundId, amount);
    case RefundSucceeded => ReturnKeeps(s, l, now, key, c, refundId, amount);
  }

  // --- The webhook that beats its own response ---------------------------------------

  /**
   * Whichever comes first, the delivery or the 202, the payment ends up the
   * same: finding it for an event is what recording the answer would have done,
   * and it is always found.
   */
  lemma AdoptionIsTheGuardedWrite(s: Api, l: L.State, now: int, c: ChargeId)
    requires TablesOk(s, l) && L.LedgerOk(l) && c in l.charges
    ensures Locate(s, now, Some(BookingRef(l.charges[c].reference)), c)
            == (RecordChargeId(s, now, l.charges[c].key, c), Some(l.charges[c].key))
  {
    hide L.LedgerOk, AccountOk;
    var key := l.charges[c].key;
    assert ChargeBacked(s, l.charges[c]);
    ChargeIdOfOnePayment(s, l, c);
    AccountOfKey(s, l, key);
    if s.payments[key].chargeId.Some? {
      CarriedCharge(s.events, l, s.bookings[s.payments[key].bookingId], key, s.payments[key]);
      OneChargePerKey(l, c, s.payments[key].chargeId.value);
    }
  }

  lemma CarriedCharge(events: map<EventKey, int>, l: L.State, b: Booking, k: Key, p: Payment)
    requires AccountOk(events, l, b, k, p) && p.chargeId.Some?
    ensures p.chargeId.value in l.charges && l.charges[p.chargeId.value].key == k
  {
  }

  // --- Refunds -------------------------------------------------------------------------

  predicate PricedAt(b: Booking, rate: nat) {
    b.startsAt <= b.endsAt && b.totalMinor == PriceOf(HalfHours(b.startsAt, b.endsAt), rate, b.items)
  }

  /** The total a booking carries is what its room and line items cost. */
  ghost predicate WellPriced(b: Booking) { exists rate :: PricedAt(b, rate) }

  lemma RefundWithinTotal(b: Booking, now: int)
    requires WellPriced(b) && Frozen(b)
    ensures var r := CancellationRefund(b, now);
            && r.Some? && 0 <= r.value.totalRefundMinor <= b.totalMinor
            && r.value.tier in b.policySnapshot.value.tiers
  {
    var rate: nat :| PricedAt(b, rate);
    RefundIsBoundedAndExact(HalfHours(b.startsAt, b.endsAt), rate, b.items, b.policySnapshot.value.tiers, b.startsAt, now);
  }

  lemma KeyedAccount(events: map<EventKey, int>, l: L.State, b: Booking, k: Key, p: Payment, now: int)
    requires AccountOk(events, l, b, k, p) && p.status == SUCCEEDED && p.refundKey.None? && b.status == CANCELLED
    ensures p.chargeId.Some?
    ensures AccountOk(events, l, b, k, WithRefundKey(p, now, RefundKey(p.chargeId.value)))
    ensures Frozen(b) && p.amountMinor == b.totalMinor
  {
  }

  /** A cancellation mints at most one refund key, for at most what was paid. */
  lemma SettleKeeps(s: Api, l: L.State, now: int, id: BookingId)
    requires TablesOk(s, l) && id < |s.bookings| && WellPriced(s.bookings[id])
    requires s.bookings[id].status in {CANCELLED, BookingStatus.REFUNDED}
    ensures var r := SettleCancellation(s, now, id);
            && TablesOk(r.after, l) && TablesGrow(s, r.after)
            && r.after.deliveries == s.deliveries && r.after.policies == s.policies && r.after.bookings == s.bookings
            && (r.instruction.Some? ==>
                  InstructionOk(r.after, r.instruction.value) && r.instruction.value.paymentKey == ChargeKey(id)
                  && ChargeKey(id) in s.payments && s.payments[ChargeKey(id)].refundKey.None?)
  {
    hide AccountOk, Frozen, ValidTiers, WellPriced, CancellationRefund;
    var r := SettleCancellation(s, now, id);
    var found := FindCaptured(s.payments, id);
    if found.Some? {
      var key := found.value;
      AccountOfKey(s, l, key);
      var p := s.payments[key];
      if r.instruction.Some? {
        CapturedMeansCancelled(s.events, l, s.bookings[id], key, p);
        KeyedAccount(s.events, l, s.bookings[id], key, p, now);
        RefundWithinTotal(s.bookings[id], now);
        assert s.bookings == s.bookings[id := s.bookings[id]];
        AccountMovesKeeps(s, r.after, l, id, s.bookings[id], r.after.payments[key]);
      } else {
        assert r.after == s;
      }
    }
  }

  lemma CapturedMeansCancelled(events: map<EventKey, int>, l: L.State, b: Booking, k: Key, p: Payment)
    requires AccountOk(events, l, b, k, p) && p.status == SUCCEEDED && b.status in {CANCELLED, BookingStatus.REFUNDED}
    ensures b.status == CANCELLED
  {
  }

  /** One payment changes in a way its account allows; its booking does not. */
  lemma PaymentNoteKeeps(s: Api, l: L.State, k: Key, p: Payment)
    requires TablesOk(s, l) && k in s.payments && PaymentGrows(s.payments[k], p)
    requires s.payments[k].bookingId < |s.bookings| ==> AccountOk(s.events, l, s.bookings[s.payments[k].bookingId], k, p)
    ensures TablesOk(WithPayment(s, k, p), l) && TablesGrow(s, WithPayment(s, k, p))
  {
    hide AccountOk;
    AccountOfKey(s, l, k);
    var id := s.payments[k].bookingId;
    assert s.bookings == s.bookings[id := s.bookings[id]];
    AccountMovesKeeps(s, WithPayment(s, k, p), l, id, s.bookings[id], p);
  }

  lemma RecordRefundIdKeeps(s: Api, l: L.State, now: int, i: Instruction, refundId: RefundId)
    requires TablesOk(s, l) && InstructionOk(s, i) && RefundOf(l, refundId, i.chargeId)
    ensures var s' := RecordRefundId(s, now, i.paymentKey, refundId); TablesOk(s', l) && TablesGrow(s, s')
  {
    AccountOfKey(s, l, i.paymentKey);
    hide TablesOk;
    if s.payments[i.paymentKey].refundId.None? {
      PaymentNoteKeeps(s, l, i.paymentKey, s.payments[i.paymentKey].(refundId := Some(refundId), updatedAt := now));
    }
  }

  lemma RecordFailureKeeps(s: Api, l: L.State, now: int, key: Key, reason: FailureReason)
    requires TablesOk(s, l)
    ensures var s' := RecordFailure(s, now, key, reason); TablesOk(s', l) && TablesGrow(s, s')
  {
    if key in s.payments {
      AccountOfKey(s, l, key);
      hide TablesOk;
      PaymentNoteKeeps(s, l, key, s.payments[key].(failureReason := Some(reason), updatedAt := now));
    }
  }
}
