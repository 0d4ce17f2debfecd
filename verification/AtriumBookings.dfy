/** What every operation of the composed system does to the bookings table and its audit trail. */
module AtriumBookings {
  import opened Wrappers
  import opened RefundPolicy
  import opened Ids
  import opened Database
  import opened BookingStateMachine
  import opened BookingsService
  import opened BookingInvariants
  import opened PaymentsService
  import opened Accounts
  import L = Ledger

  /** A policy is on a booking from the instant it confirms, and not before. */
  predicate SnapshotOnlyOnceConfirmed(b: Booking) {
    b.policySnapshot.Some? ==> b.status in {CONFIRMED, COMPLETED, CANCELLED, BookingStatus.REFUNDED}
  }

  ghost predicate RowsOk(bookings: seq<Booking>) {
    forall i :: 0 <= i < |bookings| ==> WellPriced(bookings[i]) && SnapshotOnlyOnceConfirmed(bookings[i])
  }

  ghost predicate BooksOk(cfg: Config, s: Api, now: int)
    requires ValidConfig(cfg)
  {
    BookingsOk(cfg, s.bookings, now) && RowsOk(s.bookings) && TrailsEndAtStatus(s)
  }

  /** A row that confirms does so strictly before its deadline, under a valid ladder frozen at that instant. */
  predicate ConfirmsInTime(b: Booking, b': Booking, now: int) {
    && (b'.status == CONFIRMED && b.status != CONFIRMED ==>
          && b.status == PENDING_PAYMENT && b.expiresAt.Some? && now < b.expiresAt.value
          && Frozen(b') && b'.policySnapshot.value.snapshotAt == now)
    && (b'.policySnapshot != b.policySnapshot ==> b.status != CONFIRMED && b'.status == CONFIRMED)
  }

  predicate RowProceeds(env: Env, b: Booking, b': Booking, now: int, now': int) {
    RowEvolves(env, b, b', now, now') && ConfirmsInTime(b, b', now)
  }

  /** Existing rows proceed; a row that is added is a hold. */
  ghost predicate RowsProceed(env: Env, bookings: seq<Booking>, bookings': seq<Booking>, now: int, now': int) {
    && |bookings| <= |bookings'|
    && (forall i :: 0 <= i < |bookings| ==> RowProceeds(env, bookings[i], bookings'[i], now, now'))
    && (forall i :: |bookings| <= i < |bookings'| ==> bookings'[i].status == HELD)
  }

  lemma RowsStay(env: Env, bookings: seq<Booking>, now: int, now': int)
    requires now <= now'
    ensures RowsProceed(env, bookings, bookings, now, now')
  {
    forall i | 0 <= i < |bookings| { UnchangedRowEvolves(env, bookings[i], now, now'); }
  }

  /** With no row added, proceeding rows keep every property of the table. */
  lemma ProceedingKeepsRows(cfg: Config, bookings: seq<Booking>, bookings': seq<Booking>, now: int, now': int)
    requires ValidConfig(cfg) && BookingsOk(cfg, bookings, now) && RowsOk(bookings)
    requires RowsProceed(cfg.env, bookings, bookings', now, now') && |bookings| == |bookings'|
    ensures BookingsOk(cfg, bookings', now') && RowsOk(bookings')
  {
    assert RowsEvolve(cfg.env, bookings, bookings', now, now') by {
      forall i | 0 <= i < |bookings| ensures RowEvolves(cfg.env, bookings[i], bookings'[i], now, now') {
        assert RowProceeds(cfg.env, bookings[i], bookings'[i], now, now');
      }
    }
    EvolvingKeepsBookings(cfg, bookings, bookings', now, now');
    forall i | 0 <= i < |bookings'| ensures WellPriced(bookings'[i]) && SnapshotOnlyOnceConfirmed(bookings'[i]) {
      assert RowProceeds(cfg.env, bookings[i], bookings'[i], now, now');
      var rate: nat :| PricedAt(bookings[i], rate);
      assert PricedAt(bookings'[i], rate);
    }
  }

  lemma OneRowProceeds(env: Env, bookings: seq<Booking>, id: BookingId, b: Booking, now: int)
    requires id < |bookings| && RowProceeds(env, bookings[id], b, now, now)
    ensures RowsProceed(env, bookings, bookings[id := b], now, now)
  {
    RowsStay(env, bookings, now, now);
  }

  // --- Holding --------------------------------------------------------------------------

  lemma HoldProceeds(cfg: Config, s: Api, now: int, input: HoldInput, userId: nat)
    requires ValidConfig(cfg) && ValidHold(input) && BooksOk(cfg, s, now)
    ensures var s' := Committed(s, Hold(cfg, s, now, input, userId));
            BooksOk(cfg, s', now) && RowsProceed(cfg.env, s.bookings, s'.bookings, now, now)
  {
    HoldKeepsBookings(cfg, s, now, input, userId);
    if Hold(cfg, s, now, input, userId).Ok? {
      HoldProceedsRows(cfg, s, now, input, userId);
      HoldKeepsTrails(cfg, s, now, input, userId);
    } else {
      RowsStay(cfg.env, s.bookings, now, now);
    }
  }

  lemma HoldKeepsTrails(cfg: Config, s: Api, now: int, input: HoldInput, userId: nat)
    requires ValidConfig(cfg) && ValidHold(input) && TrailsEndAtStatus(s) && Hold(cfg, s, now, input, userId).Ok?
    ensures TrailsEndAtStatus(Hold(cfg, s, now, input, userId).value)
  {
    hide TrailsEndAtStatus, StaleBatch, Bookable, AdmitEquipment, SlotFree;
    var ids := StaleInRoom(s.bookings, input.roomId, now, |s.bookings|);
    ClearingRoomEvolves(cfg.env, s, now, input.roomId);
    ExpireRowsKeepsTrails(s, now, ids, HoldExpiredInTransaction);
    var cleared := ExpireStaleHoldsForRoom(s, now, input.roomId);
    var items := AdmitEquipment(cfg, cleared, now, input, cfg.rooms[input.roomId].venueId).value;
    var hold := NewHold(cfg, now, input, userId, items);
    CreateHeldKeepsTrails(cleared, hold, User(userId), HoldCreated);
    var created := CreateHeld(cleared, hold, User(userId), HoldCreated).value;
    SameStatusKeepsTrails(created, Hold(cfg, s, now, input, userId).value);
  }

  lemma SameStatusKeepsTrails(s: Api, s': Api)
    requires TrailsEndAtStatus(s) && s'.audit == s.audit && |s'.bookings| == |s.bookings|
    requires forall i :: 0 <= i < |s.bookings| ==> s'.bookings[i].status == s.bookings[i].status
    ensures TrailsEndAtStatus(s')
  {
  }

  lemma HoldProceedsRows(cfg: Config, s: Api, now: int, input: HoldInput, userId: nat)
    requires ValidConfig(cfg) && ValidHold(input) && RowsOk(s.bookings) && Hold(cfg, s, now, input, userId).Ok?
    ensures var s' := Hold(cfg, s, now, input, userId).value;
            && RowsOk(s'.bookings) && RowsProceed(cfg.env, s.bookings, s'.bookings, now, now)
            && |s'.bookings| == |s.bookings| + 1 && s'.bookings[|s.bookings|].status == HELD
            && s'.payments == s.payments && s'.events == s.events && s'.deliveries == s.deliveries
  {
    hide Bookable, AdmitEquipment, SlotFree, WellPriced, ExpireStaleHoldsForRoom, HoldOnce, NewHold, RowsOk, RowsProceed;
    HoldShape(cfg, s, now, input, userId);
    var cleared := ExpireStaleHoldsForRoom(s, now, input.roomId).bookings;
    ClearedProceeds(cfg.env, s, now, input.roomId);
    var s' := Hold(cfg, s, now, input, userId).value;
    var hold := s'.bookings[|cleared|];
    NewHoldIsPriced(cfg, now, input, userId, hold.items);
    AppendedRow(cfg.env, s.bookings, cleared, hold, now);
  }

  lemma AppendedRow(env: Env, bookings: seq<Booking>, cleared: seq<Booking>, hold: Booking, now: int)
    requires RowsOk(cleared) && RowsProceed(env, bookings, cleared, now, now)
    requires |cleared| == |bookings| && WellPriced(hold) && hold.policySnapshot.None? && hold.status == HELD
    ensures RowsOk(cleared + [hold]) && RowsProceed(env, bookings, cleared + [hold], now, now)
  {
  }

  lemma ClearedProceeds(env: Env, s: Api, now: int, roomId: nat)
    requires RowsOk(s.bookings)
    ensures var cleared := ExpireStaleHoldsForRoom(s, now, roomId).bookings;
            RowsOk(cleared) && RowsProceed(env, s.bookings, cleared, now, now) && |cleared| == |s.bookings|
  {
    var ids := StaleInRoom(s.bookings, roomId, now, |s.bookings|);
    ClearingRoomEvolves(env, s, now, roomId);
    ExpiringProceeds(env, s, now, ids, HoldExpiredInTransaction);
  }

  lemma ExpiringProceeds(env: Env, s: Api, now: int, ids: seq<BookingId>, reason: Reason)
    requires RowsOk(s.bookings) && StaleBatch(s.bookings, now, ids)
    ensures var after := ExpireRows(s, now, ids, reason).bookings;
            RowsOk(after) && RowsProceed(env, s.bookings, after, now, now) && |after| == |s.bookings|
  {
    var after := ExpireRows(s, now, ids, reason).bookings;
    ExpiringEvolves(env, s, now, ids, reason);
    forall i | 0 <= i < |after|
      ensures RowProceeds(env, s.bookings[i], after[i], now, now)
      ensures WellPriced(after[i]) && SnapshotOnlyOnceConfirmed(after[i])
    {
      assert RowEvolves(env, s.bookings[i], after[i], now, now);
      var rate: nat :| PricedAt(s.bookings[i], rate);
      assert PricedAt(after[i], rate);
      if i in ids { var k :| 0 <= k < |ids| && ids[k] == i; assert Stale(s.bookings[i], now); }
    }
  }

  lemma NewHoldIsPriced(cfg: Config, now: int, input: HoldInput, userId: nat, items: seq<LineItem>)
    requires ValidConfig(cfg) && input.roomId in cfg.rooms && ValidHold(input)
    ensures var b := NewHold(cfg, now, input, userId, items).(items := items);
            WellPriced(b) && b.policySnapshot.None? && b.status == HELD
  {
    assert PricedAt(NewHold(cfg, now, input, userId, items).(items := items), cfg.rooms[input.roomId].hourlyRateMinor);
  }

  // --- Moving one booking ------------------------------------------------------------------

  /** A legal change of status with nothing else but the columns of its patch. */
  lemma TransitionProceeds(env: Env, s: Api, now: int, c: Change)
    requires Transition(s, now, c).Ok? && c.patch.NoPatch? && c.to != CONFIRMED
    requires s.bookings[c.bookingId].status == HELD ==> !Lapsed(s.bookings[c.bookingId], now) || c.to !in ACTIVE
    requires s.bookings[c.bookingId].status != DRAFT
    requires DeadlineBounded(env, s.bookings[c.bookingId], now)
    ensures RowsProceed(env, s.bookings, Transition(s, now, c).value.bookings, now, now)
  {
    var b := s.bookings[c.bookingId];
    OneRowProceeds(env, s.bookings, c.bookingId, b.(status := c.to, updatedAt := now), now);
  }

  lemma PayProceeds(cfg: Config, s: Api, now: int, id: BookingId, userId: nat)
    requires ValidConfig(cfg) && BooksOk(cfg, s, now) && PayPrepare(s, now, id, userId).Ok?
    ensures var s' := PayPrepare(s, now, id, userId).value.after;
            BooksOk(cfg, s', now) && RowsProceed(cfg.env, s.bookings, s'.bookings, now, now)
  {
    hide NeverOversold, RoomsExclusive, WellPriced;
    var s' := PayPrepare(s, now, id, userId).value.after;
    RowsStay(cfg.env, s.bookings, now, now);
    if s'.bookings != s.bookings {
      var recorded := s.(payments := s'.payments);
      var c := Change(id, PENDING_PAYMENT, User(userId), PaymentInitiated, Some({HELD}), NoPatch);
      assert Transition(recorded, now, c) == Ok(s');
      assert DeadlineBounded(cfg.env, s.bookings[id], now);
      TransitionProceeds(cfg.env, recorded, now, c);
      TransitionKeepsTrails(recorded, now, c);
    }
    ProceedingKeepsRows(cfg, s.bookings, s'.bookings, now, now);
  }

  lemma CancelProceeds(cfg: Config, s: Api, now: int, id: BookingId, userId: nat, text: string)
    requires ValidConfig(cfg) && BooksOk(cfg, s, now)
    ensures var s' := Committed(s, Cancel(s, now, id, userId, text));
            BooksOk(cfg, s', now) && RowsProceed(cfg.env, s.bookings, s'.bookings, now, now)
  {
    hide NeverOversold, RoomsExclusive, WellPriced;
    var s' := Committed(s, Cancel(s, now, id, userId, text));
    RowsStay(cfg.env, s.bookings, now, now);
    var c := Change(id, CANCELLED, User(userId), Requested(text), None, NoPatch);
    TransitionKeepsTrails(s, now, c);
    if Transition(s, now, c).Ok? {
      assert DeadlineBounded(cfg.env, s.bookings[id], now);
      TransitionProceeds(cfg.env, s, now, c);
    }
    ProceedingKeepsRows(cfg, s.bookings, s'.bookings, now, now);
  }

  lemma CheckoutProceeds(cfg: Config, s: Api, now: int, id: BookingId, userId: nat)
    requires ValidConfig(cfg) && BooksOk(cfg, s, now)
    ensures var s' := Committed(s, Checkout(cfg, s, now, id, userId));
            BooksOk(cfg, s', now) && RowsProceed(cfg.env, s.bookings, s'.bookings, now, now)
  {
    hide NeverOversold, RoomsExclusive, WellPriced;
    var r := Checkout(cfg, s, now, id, userId);
    CheckoutEvolves(cfg, s, now, id, userId);
    RowsStay(cfg.env, s.bookings, now, now);
    if r.Ok? {
      OneRowProceeds(cfg.env, s.bookings, id, r.value.bookings[id], now);
      SideEffectRowKeepsTrails(s, r.value.audit[|s.audit|], r.value.bookings);
      ProceedingKeepsRows(cfg, s.bookings, r.value.bookings, now, now);
    }
  }

  lemma SweepProceeds(cfg: Config, s: Api, now: int, ids: seq<BookingId>)
    requires ValidConfig(cfg) && BooksOk(cfg, s, now) && StaleBatch(s.bookings, now, ids)
    ensures var s' := ExpireRows(s, now, ids, HoldExpiredSweeper);
            BooksOk(cfg, s', now) && RowsProceed(cfg.env, s.bookings, s'.bookings, now, now)
  {
    var s' := ExpireRows(s, now, ids, HoldExpiredSweeper);
    ExpiringProceeds(cfg.env, s, now, ids, HoldExpiredSweeper);
    ExpireRowsKeepsTrails(s, now, ids, HoldExpiredSweeper);
    ProceedingKeepsRows(cfg, s.bookings, s'.bookings, now, now);
  }

  lemma TickProceeds(cfg: Config, s: Api, now: int, now': int)
    requires ValidConfig(cfg) && BooksOk(cfg, s, now) && now <= now'
    ensures BooksOk(cfg, s, now') && RowsProceed(cfg.env, s.bookings, s.bookings, now, now')
  {
    RowsStay(cfg.env, s.bookings, now, now');
    ProceedingKeepsRows(cfg, s.bookings, s.bookings, now, now');
  }

  predicate AddsNote(audit: seq<AuditRow>, audit': seq<AuditRow>) {
    |audit'| == |audit| + 1 && audit <= audit' && audit'[|audit|].fromState == audit'[|audit|].toState
  }

  /** Bookings untouched, and at most a row of the trail that moves nothing. */
  lemma NotesProceed(cfg: Config, s: Api, s': Api, now: int)
    requires ValidConfig(cfg) && BooksOk(cfg, s, now) && s'.bookings == s.bookings
    requires s'.audit == s.audit || AddsNote(s.audit, s'.audit)
    ensures BooksOk(cfg, s', now) && RowsProceed(cfg.env, s.bookings, s'.bookings, now, now)
  {
    RowsStay(cfg.env, s.bookings, now, now);
    if s'.audit != s.audit {
      assert s'.audit == s.audit + [s'.audit[|s.audit|]];
      SideEffectRowKeepsTrails(s, s'.audit[|s.audit|], s.bookings);
      SameStatusKeepsTrails(s.(audit := s'.audit), s');
    } else {
      SameStatusKeepsTrails(s, s');
    }
  }

  // --- Events -------------------------------------------------------------------------------

  lemma ConfirmProceeds(cfg: Config, s: Api, now: int, id: BookingId, snapshot: Snapshot, s': Api)
    requires ValidConfig(cfg) && BooksOk(cfg, s, now) && id < |s.bookings|
    requires s.bookings[id].status == PENDING_PAYMENT && !Lapsed(s.bookings[id], now)
    requires ValidTiers(snapshot.tiers) && snapshot.snapshotAt == now
    requires Transition(s, now, Change(id, CONFIRMED, Paygate, PaymentCaptured, Some({PENDING_PAYMENT}), Confirm(snapshot))) == Ok(s')
    ensures BooksOk(cfg, s', now) && RowsProceed(cfg.env, s.bookings, s'.bookings, now, now)
  {
    hide NeverOversold, RoomsExclusive, WellPriced, ValidTiers;
    var c := Change(id, CONFIRMED, Paygate, PaymentCaptured, Some({PENDING_PAYMENT}), Confirm(snapshot));
    TransitionKeepsTrails(s, now, c);
    assert DeadlineBounded(cfg.env, s.bookings[id], now) && SnapshotOnlyOnceConfirmed(s.bookings[id]);
    OneRowProceeds(cfg.env, s.bookings, id, s'.bookings[id], now);
    ProceedingKeepsRows(cfg, s.bookings, s'.bookings, now, now);
  }

  lemma CloseProceeds(cfg: Config, s: Api, now: int, c: Change, s': Api)
    requires ValidConfig(cfg) && BooksOk(cfg, s, now) && Transition(s, now, c) == Ok(s')
    requires c.patch.NoPatch? && c.to !in ACTIVE && s.bookings[c.bookingId].status != DRAFT
    ensures BooksOk(cfg, s', now) && RowsProceed(cfg.env, s.bookings, s'.bookings, now, now)
  {
    hide NeverOversold, RoomsExclusive, WellPriced;
    TransitionKeepsTrails(s, now, c);
    assert DeadlineBounded(cfg.env, s.bookings[c.bookingId], now);
    TransitionProceeds(cfg.env, s, now, c);
    ProceedingKeepsRows(cfg, s.bookings, s'.bookings, now, now);
  }

  lemma MoneyOnly(cfg: Config, s: Api, s': Api, now: int)
    requires ValidConfig(cfg) && BooksOk(cfg, s, now) && s'.bookings == s.bookings && s'.audit == s.audit
    ensures BooksOk(cfg, s', now)
  {
    SameStatusKeepsTrails(s, s');
  }

  lemma CaptureProceeds(cfg: Config, s: Api, now: int, key: Key, c: ChargeId)
    requires ValidConfig(cfg) && BooksOk(cfg, s, now) && key in s.payments && OnChargeSucceeded(s, now, key, c).Ok?
    ensures var s' := OnChargeSucceeded(s, now, key, c).value.after;
            BooksOk(cfg, s', now) && RowsProceed(cfg.env, s.bookings, s'.bookings, now, now)
  {
    hide BooksOk, RowsProceed, ResolveSnapshot;
    var p := s.payments[key].(status := SUCCEEDED, chargeId := Some(c), updatedAt := now);
    var captured := WithPayment(s, key, p);
    var id := p.bookingId;
    var s' := OnChargeSucceeded(s, now, key, c).value.after;
    var b := s.bookings[id];
    MoneyOnly(cfg, s, captured, now);
    if b.status == PENDING_PAYMENT && !Lapsed(b, now) {
      SnapshotShape(s, now, b.venueId);
      ConfirmProceeds(cfg, captured, now, id, ResolveSnapshot(s, now, b.venueId).value, s');
    } else if b.status == PENDING_PAYMENT {
      var close := Change(id, EXPIRED, System, PaymentArrivedLate, Some({PENDING_PAYMENT}), NoPatch);
      var closed := Transition(captured, now, close).value;
      CloseProceeds(cfg, captured, now, close, closed);
      NotesProceed(cfg, closed, s', now);
    } else {
      NotesProceed(cfg, captured, s', now);
    }
  }

  lemma SnapshotShape(s: Api, now: int, venueId: nat)
    ensures var r := ResolveSnapshot(s, now, venueId);
            r.Some? ==> ValidTiers(r.value.tiers) && r.value.snapshotAt == now
  {
  }

  lemma DeclineProceeds(cfg: Config, s: Api, now: int, key: Key)
    requires ValidConfig(cfg) && BooksOk(cfg, s, now) && key in s.payments && OnChargeFailed(s, now, key).Ok?
    ensures var s' := OnChargeFailed(s, now, key).value.after;
            BooksOk(cfg, s', now) && RowsProceed(cfg.env, s.bookings, s'.bookings, now, now)
  {
    hide BooksOk, RowsProceed;
    var s' := OnChargeFailed(s, now, key).value.after;
    var declined := s.(payments := s'.payments);
    MoneyOnly(cfg, s, declined, now);
    if s'.audit == s.audit {
      NotesProceed(cfg, declined, s', now);
    } else {
      CloseProceeds(cfg, declined, now, Change(s.payments[key].bookingId, BookingStatus.FAILED, Paygate, PaymentDeclined,
                                               Some({PENDING_PAYMENT}), NoPatch), s');
    }
  }

  lemma ReturnProceeds(cfg: Config, s: Api, now: int, key: Key, refundId: Option<RefundId>, amount: Option<int>)
    requires ValidConfig(cfg) && BooksOk(cfg, s, now) && key in s.payments
    requires OnRefundSucceeded(s, now, key, refundId, amount).Ok?
    ensures var s' := OnRefundSucceeded(s, now, key, refundId, amount).value.after;
            BooksOk(cfg, s', now) && RowsProceed(cfg.env, s.bookings, s'.bookings, now, now)
  {
    hide BooksOk, RowsProceed;
    var s' := OnRefundSucceeded(s, now, key, refundId, amount).value.after;
    var returned := s.(payments := s'.payments);
    MoneyOnly(cfg, s, returned, now);
    var id := s.payments[key].bookingId;
    if id < |s.bookings| && s.bookings[id].status == CANCELLED {
      CloseProceeds(cfg, returned, now,
                    Change(id, BookingStatus.REFUNDED, Paygate, RefundSettled, Some({CANCELLED}), NoPatch), s');
    } else {
      NotesProceed(cfg, returned, s', now);
    }
  }

  lemma GatedProceeds(
      cfg: Config, s: Api, now: int, key: Key, c: ChargeId, event: EventKind, refundId: Option<RefundId>, amount: Option<int>)
    requires ValidConfig(cfg) && BooksOk(cfg, s, now) && key in s.payments
    requires Gated(s, now, key, c, event, refundId, amount).Ok?
    ensures var s' := Gated(s, now, key, c, event, refundId, amount).value.after;
            BooksOk(cfg, s', now) && RowsProceed(cfg.env, s.bookings, s'.bookings, now, now)
  {
    hide BooksOk, RowsProceed, OnChargeSucceeded, OnChargeFailed, OnRefundSucceeded;
    var claimed := s.(events := s.events[EventKey(c, event) := now]);
    MoneyOnly(cfg, s, claimed, now);
    match event
    case ChargeSucceeded => CaptureProceeds(cfg, claimed, now, key, c);
    case ChargeFailed => DeclineProceeds(cfg, claimed, now, key);
    case RefundSucceeded => ReturnProceeds(cfg, claimed, now, key, refundId, amount);
  }

  /** A recorded delivery, whatever it says, moves bookings only along legal paths. */
  lemma DeliveryProceeds(cfg: Config, s: Api, now: int, row: nat)
    requires ValidConfig(cfg) && BooksOk(cfg, s, now)
    ensures var s' := Outcome(s, ApplyDelivery(s, now, row));
            BooksOk(cfg, s', now) && RowsProceed(cfg.env, s.bookings, s'.bookings, now, now)
  {
    hide BooksOk, RowsProceed, Gated;
    var s' := Outcome(s, ApplyDelivery(s, now, row));
    if s'.bookings == s.bookings && s'.audit == s.audit {
      NotesProceed(cfg, s, s', now);
    } else {
      var body := s.deliveries[row].body;
      var (located, key) := Locate(s, now, body.reference, body.chargeId.value);
      MoneyOnly(cfg, s, located, now);
      GatedProceeds(cfg, located, now, key.value, body.chargeId.value, body.event.kind, body.refundId, body.amountMinor);
      var applied := Gated(located, now, key.value, body.chargeId.value, body.event.kind, body.refundId, body.amountMinor);
      MoneyOnly(cfg, applied.value.after, s', now);
    }
  }

  lemma PollsProceed(cfg: Config, s: Api, now: int, key: Key, c: ChargeId, answer: ChargeAnswer, amount: Option<int>)
    requires ValidConfig(cfg) && BooksOk(cfg, s, now)
    ensures var s' := Outcome(s, PollCharge(s, now, key, c, answer));
            BooksOk(cfg, s', now) && RowsProceed(cfg.env, s.bookings, s'.bookings, now, now)
    ensures var s' := Outcome(s, PollRefund(s, now, key, c, amount));
            BooksOk(cfg, s', now) && RowsProceed(cfg.env, s.bookings, s'.bookings, now, now)
  {
    hide BooksOk, RowsProceed, Gated;
    var charged := PollCharge(s, now, key, c, answer);
    if Outcome(s, charged).bookings == s.bookings && Outcome(s, charged).audit == s.audit {
      NotesProceed(cfg, s, Outcome(s, charged), now);
    } else {
      GatedProceeds(cfg, s, now, key, c, if answer.succeeded then ChargeSucceeded else ChargeFailed, None, None);
    }
    var refunded := PollRefund(s, now, key, c, amount);
    if Outcome(s, refunded).bookings == s.bookings && Outcome(s, refunded).audit == s.audit {
      NotesProceed(cfg, s, Outcome(s, refunded), now);
    } else {
      GatedProceeds(cfg, s, now, key, c, RefundSucceeded, None, amount);
    }
  }
}
