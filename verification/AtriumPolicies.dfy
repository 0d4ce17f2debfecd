/** Which policy a booking carries: the one in force for its own venue when it confirmed. */
module AtriumPolicies {
  import opened Wrappers
  import opened RefundPolicy
  import opened Ids
  import opened Database
  import opened BookingStateMachine
  import opened BookingsService
  import opened BookingInvariants
  import opened PaymentsService
  import opened AtriumSystem
  import P = Paygate

  /** A row keeps the policy it has, or freezes the one in force for its venue now. */
  ghost predicate KeepsOrFreezes(policies: seq<Policy>, now: int, b: Booking, b': Booking) {
    || b'.policySnapshot == b.policySnapshot
    || (b'.policySnapshot.Some? && FrozenFrom(policies, b.venueId, now, b'.policySnapshot.value))
  }

  ghost predicate Freezes(s: Api, now: int, after: seq<Booking>) {
    && |after| == |s.bookings|
    && forall i :: 0 <= i < |s.bookings| ==> KeepsOrFreezes(s.policies, now, s.bookings[i], after[i])
  }

  lemma OneRowFreezes(s: Api, now: int, id: BookingId, b': Booking)
    requires id < |s.bookings| && KeepsOrFreezes(s.policies, now, s.bookings[id], b')
    ensures Freezes(s, now, s.bookings[id := b'])
  {
  }

  lemma TransitionFreezes(s: Api, now: int, c: Change)
    requires Transition(s, now, c).Ok?
    requires c.patch.Confirm? ==> FrozenFrom(s.policies, s.bookings[c.bookingId].venueId, now, c.patch.snapshot)
    ensures Freezes(s, now, Transition(s, now, c).value.bookings)
  {
    hide FrozenFrom;
    OneRowFreezes(s, now, c.bookingId, Transition(s, now, c).value.bookings[c.bookingId]);
  }

  lemma CaptureFreezes(s: Api, now: int, key: Key, c: ChargeId)
    requires key in s.payments && OnChargeSucceeded(s, now, key, c).Ok?
    ensures Freezes(s, now, OnChargeSucceeded(s, now, key, c).value.after.bookings)
  {
    hide ResolveSnapshot, FrozenFrom, LegalTransitions;
    var p := s.payments[key].(status := SUCCEEDED, chargeId := Some(c), updatedAt := now);
    var b := s.bookings[p.bookingId];
    SnapshotIsTheRowInForce(s, now, b.venueId);
    var b' := OnChargeSucceeded(s, now, key, c).value.after.bookings[p.bookingId];
    OneRowFreezes(s, now, p.bookingId, b');
    OneRowFreezes(s, now, p.bookingId, b);
  }

  lemma GatedFreezes(
      s: Api, now: int, key: Key, c: ChargeId, event: EventKind, refundId: Option<RefundId>, amount: Option<int>)
    requires key in s.payments && Gated(s, now, key, c, event, refundId, amount).Ok?
    ensures Freezes(s, now, Gated(s, now, key, c, event, refundId, amount).value.after.bookings)
  {
    hide OnChargeSucceeded, FrozenFrom, LegalTransitions;
    match event {
      case ChargeSucceeded => CaptureFreezes(s.(events := s.events[EventKey(c, event) := now]), now, key, c);
      case _ =>
    }
  }

  lemma DeliveryFreezes(s: Api, now: int, row: nat)
    ensures Freezes(s, now, Outcome(s, ApplyDelivery(s, now, row)).bookings)
  {
    hide Gated, FrozenFrom;
    if Outcome(s, ApplyDelivery(s, now, row)).bookings != s.bookings {
      var body := s.deliveries[row].body;
      var (located, key) := Locate(s, now, body.reference, body.chargeId.value);
      GatedFreezes(located, now, key.value, body.chargeId.value, body.event.kind, body.refundId, body.amountMinor);
    }
  }

  lemma PollsFreeze(s: Api, now: int, key: Key, c: ChargeId, answer: ChargeAnswer, amount: Option<int>)
    ensures Freezes(s, now, Outcome(s, PollCharge(s, now, key, c, answer)).bookings)
    ensures Freezes(s, now, Outcome(s, PollRefund(s, now, key, c, amount)).bookings)
  {
    hide Gated, FrozenFrom;
    if key in s.payments {
      forall e: EventKind, a: Option<int> | Gated(s, now, key, c, e, None, a).Ok?
        ensures Freezes(s, now, Gated(s, now, key, c, e, None, a).value.after.bookings)
      {
        GatedFreezes(s, now, key, c, e, None, a);
      }
    }
  }

  lemma HoldFreezes(cfg: Config, s: Api, now: int, input: HoldInput, userId: nat)
    requires ValidConfig(cfg) && ValidHold(input)
    ensures var after := Committed(s, Hold(cfg, s, now, input, userId)).bookings;
            |s.bookings| <= |after| && Freezes(s, now, after[..|s.bookings|])
  {
    hide Bookable, HoldOnce, AdmitEquipment, SlotFree, NewHold, FrozenFrom, StaleInRoom;
    if Hold(cfg, s, now, input, userId).Ok? { HoldShape(cfg, s, now, input, userId); }
  }

  lemma RowMovesFreeze(cfg: Config, s: Api, now: int, id: BookingId, userId: nat, text: string)
    ensures PayPrepare(s, now, id, userId).Ok? ==> Freezes(s, now, PayPrepare(s, now, id, userId).value.after.bookings)
    ensures Freezes(s, now, Committed(s, Checkout(cfg, s, now, id, userId)).bookings)
    ensures Freezes(s, now, Committed(s, Cancel(s, now, id, userId, text)).bookings)
    ensures Freezes(s, now, SettleCancellation(s, now, id).after.bookings)
  {
    hide FrozenFrom, LegalTransitions, CancellationRefund;
  }

  /**
   * Whatever anyone does, a booking keeps the policy it has or freezes the one
   * in force for its venue at that instant; and only a hold adds a booking.
   */
  lemma MoveFreezes(w: World, sys: System, m: Move)
    requires ValidConfig(w.cfg) && Possible(w, sys, m)
    ensures var after := Next(w, sys, m).api.bookings;
            |sys.api.bookings| <= |after| && Freezes(sys.api, sys.now, after[..|sys.api.bookings|])
    ensures |Next(w, sys, m).api.bookings| > |sys.api.bookings| ==> m.HoldRooms?
  {
    hide FrozenFrom, ApplyDelivery, PollCharge, PollRefund, SettleCancellation, PayPrepare, Hold, Checkout, Cancel,
      P.Next, P.Enabled, ValidHold, StaleBatch, ValidConfig, LiveAfter,
      Deliverable, Asked, Freezes;
    if m.HoldRooms? {
      HoldFreezes(w.cfg, sys.api, sys.now, m.input, m.userId);
    } else {
      OtherMoveFreezes(w, sys, m);
      AllOf(sys.api, sys.now, Next(w, sys, m).api.bookings);
    }
  }

  lemma AllOf(s: Api, now: int, after: seq<Booking>)
    requires Freezes(s, now, after)
    ensures |after| == |s.bookings| && after[..|s.bookings|] == after
  {
  }

  lemma OtherMoveFreezes(w: World, sys: System, m: Move)
    requires ValidConfig(w.cfg) && Possible(w, sys, m) && !m.HoldRooms?
    ensures Freezes(sys.api, sys.now, Next(w, sys, m).api.bookings)
  {
    hide FrozenFrom, ApplyDelivery, PollCharge, PollRefund, SettleCancellation, PayPrepare, Hold, Checkout, Cancel,
      P.Next, P.Enabled, ValidHold, StaleBatch, ValidConfig, LiveAfter, Deliverable, Asked, Freezes;
    StayingFreezes(sys.api, sys.now);
    match m {
      case Pay(id, userId) => RowMovesFreeze(w.cfg, sys.api, sys.now, id, userId, "");
      case Apply(row) => DeliveryFreezes(sys.api, sys.now, row);
      case AskCharge(key, chargeId, answer) => PollsFreeze(sys.api, sys.now, key, chargeId, answer, None);
      case AskRefund(key, chargeId, _, amount) => PollsFreeze(sys.api, sys.now, key, chargeId, Missing, amount);
      case RearmHold(id, userId) => RowMovesFreeze(w.cfg, sys.api, sys.now, id, userId, "");
      case CancelRequest(id, userId, text) => RowMovesFreeze(w.cfg, sys.api, sys.now, id, userId, text);
      case SettleCancelled(id) => RowMovesFreeze(w.cfg, sys.api, sys.now, id, 0, "");
      case Sweep(ids) => SweepFreezes(sys.api, sys.now, ids);
      case _ =>
    }
  }

  lemma StayingFreezes(s: Api, now: int)
    ensures Freezes(s, now, s.bookings)
  {
  }

  lemma SweepFreezes(s: Api, now: int, ids: seq<BookingId>)
    ensures Freezes(s, now, ExpireRows(s, now, ids, HoldExpiredSweeper).bookings)
  {
  }
}
