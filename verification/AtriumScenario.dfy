/**
 * Concrete runs from an empty system. Each confirms a booking on the way and
 * ends in a state the report lists for ever: a cancellation worth nothing, a
 * refund of everything whose one call is lost, a cancellation never settled.
 */
module AtriumScenario {
  import opened Wrappers
  import opened RefundPolicy
  import opened Ids
  import opened Database
  import opened BookingStateMachine
  import opened ZonedTime
  import opened OperatingHours
  import opened BookingsService
  import opened BookingInvariants
  import opened PaymentsService
  import opened Accounts
  import opened AtriumSystem
  import opened AtriumBookings
  import opened AtriumMoney
  import opened Atrium
  import opened AtriumTheorems
  import opened AtriumRepayment
  import opened Reconciliation
  import L = Ledger
  import P = Paygate

  const ALL_DAY: DayHours := DayHours("00:00", "24:00")

  /** Ladders of one rung: nothing back, or everything, whenever one cancels. */
  const NOTHING_BACK: Tier := Tier(0.0, 0, 0)

  const ALL_BACK: Tier := Tier(0.0, 100, 100)

  predicate OnlyRung(rung: Tier) { rung == NOTHING_BACK || rung == ALL_BACK }

  function Utc(): Zone { t => 0 }

  /** One room at 100 an hour, in a venue on UTC that never closes; no charge is ever declined. */
  ghost predicate OneRoom(w: World) {
    && w.cfg.rooms == map[0 := Room(0, 100, 60, 480)] && w.cfg.equipment == map[]
    && w.cfg.venues.Keys == {0} && w.cfg.venues[0].overbookingBufferPct == 0 && w.cfg.venues[0].zone == Utc()
    && w.cfg.venues[0].hours == Some(Hours(seq(7, _ => Some(ALL_DAY))))
    && w.cfg.env == Env(600_000, 600_000, 2, 1_800_000) && w.declineAmount == -1
  }

  const EMPTY_SYSTEM: System := System.System(Api([], [], map[], map[], [], []), 0, P.EMPTY, {}, {}, {}, {}, NOTHING_LIVE)

  /** From 02:00 to 03:00 on the first day. */
  const TWO_TO_THREE: HoldInput := HoldInput(0, 7_200_000, 10_800_000, [])

  lemma OneRoomExists() returns (w: World)
    ensures OneRoom(w)
  {
    var venue := Venue(Utc(), Some(Hours(seq(7, _ => Some(ALL_DAY)))), 0);
    w := World(Config(map[0 := Room(0, 100, 60, 480)], map[], map[0 := venue], Env(600_000, 600_000, 2, 1_800_000)), -1);
    assert w.cfg.venues[0].hours == Some(Hours(seq(7, _ => Some(ALL_DAY))));
  }

  lemma OneRoomIsValid(w: World)
    requires OneRoom(w)
    ensures ValidWorld(w)
  {
  }

  // --- The stages of the run --------------------------------------------------------------

  predicate NothingElse(sys: System, rung: Tier) {
    sys.now == 0 && sys.api.policies == [Policy(None, [rung])] && sys.api.events == map[]
  }

  predicate Published(sys: System, rung: Tier) {
    NothingElse(sys, rung) && sys.api.bookings == [] && sys.api.payments == map[] && sys.provider == P.EMPTY
  }

  /** The booking of the run, whatever its status. */
  predicate TheBooking(sys: System) {
    && |sys.api.bookings| == 1 && sys.api.bookings[0].venueId == 0 && sys.api.bookings[0].totalMinor == 100
    && sys.api.bookings[0].expiresAt == Some(600_000)
  }

  predicate Held(sys: System, rung: Tier) {
    NothingElse(sys, rung) && TheBooking(sys) && sys.api.bookings[0].status == HELD && sys.api.payments == map[] && sys.provider == P.EMPTY
  }

  predicate ThePayment(sys: System, chargeId: Option<ChargeId>) {
    && TheBooking(sys) && sys.api.bookings[0].status == PENDING_PAYMENT
    && sys.api.payments.Keys == {ChargeKey(0)} && sys.api.payments[ChargeKey(0)].bookingId == 0
    && sys.api.payments[ChargeKey(0)].status == PENDING && sys.api.payments[ChargeKey(0)].refundKey.None?
    && sys.api.payments[ChargeKey(0)].amountMinor == 100 && sys.api.payments[ChargeKey(0)].chargeId == chargeId
  }

  predicate Asking(sys: System, rung: Tier) { NothingElse(sys, rung) && ThePayment(sys, None) && Call(0, 100) in sys.calls && sys.provider == P.EMPTY }

  const REQUEST: L.ChargeRequest := L.ChargeRequest(ChargeKey(0), 0, 100, None, false)

  predicate Opened(sys: System, rung: Tier) {
    && NothingElse(sys, rung) && ThePayment(sys, None) && P.Materialise(1) in sys.provider.tasks && P.Materialise(1) in sys.live.tasks
    && 1 in sys.provider.ledger.charges && sys.provider.ledger.charges[1] == L.NewCharge(REQUEST)
  }

  predicate CapturedThere(sys: System) {
    && P.ChargeAnswer(ChargeKey(0), 1) in sys.provider.answers
    && 1 in sys.provider.ledger.charges && sys.provider.ledger.charges[1].status == L.Succeeded
  }

  predicate CapturedOnly(sys: System, rung: Tier) { NothingElse(sys, rung) && ThePayment(sys, None) && CapturedThere(sys) }

  predicate Told(sys: System, rung: Tier) { NothingElse(sys, rung) && ThePayment(sys, Some(1)) && CapturedThere(sys) }

  predicate Confirmed(sys: System, rung: Tier) {
    && |sys.api.bookings| == 1 && sys.api.bookings[0].status == CONFIRMED && sys.api.bookings[0].policySnapshot.Some?
    && sys.api.bookings[0].policySnapshot.value.tiers == [rung] && sys.api.bookings[0].totalMinor == 100
  }

  // --- The moves between them ------------------------------------------------------------------

  lemma Publishes(w: World, rung: Tier)
    requires OneRoom(w) && ValidWorld(w)
    ensures Possible(w, EMPTY_SYSTEM, Publish(Policy(None, [rung])))
    ensures Published(Next(w, EMPTY_SYSTEM, Publish(Policy(None, [rung]))), rung)
  {
  }

  lemma InTheOpen(w: World)
    requires OneRoom(w) && ValidWorld(w)
    ensures Bookable(w.cfg, 0, TWO_TO_THREE) && ValidHold(TWO_TO_THREE)
  {
    var venue := w.cfg.venues[0];
    assert ParseClock("00:00") == Some(0) && ParseClock("24:00") == Some(1440);
    assert FixedOffset(venue.zone, 0);
    FixedWindow(venue.zone, 0, 0, 0, 1440);
    TwoDaysSuffice(venue.hours.value, venue.zone, 0, TWO_TO_THREE.startsAt, TWO_TO_THREE.endsAt);
    assert Inside(WindowForLocalDate(venue.hours.value, venue.zone, 0), TWO_TO_THREE.startsAt, TWO_TO_THREE.endsAt);
  }

  lemma HoldSucceeds(w: World, s: Api)
    requires OneRoom(w) && ValidWorld(w) && s.bookings == []
    ensures Hold(w.cfg, s, 0, TWO_TO_THREE, 0).Ok? && HoldOnce(w.cfg, s, 0, TWO_TO_THREE, 0).Ok?
    ensures AdmitEquipment(w.cfg, ExpireStaleHoldsForRoom(s, 0, 0), 0, TWO_TO_THREE, 0) == Ok([])
  {
    InTheOpen(w);
    hide Bookable, ValidHold, ValidConfig, AdmitEquipment, HoldOnce, StandsInTheWay, ExpireStaleHoldsForRoom;
    RoomOnlyHoldSucceedsIff(w.cfg, s, 0, TWO_TO_THREE, 0);
    LocalAdmission(w.cfg, ExpireStaleHoldsForRoom(s, 0, 0), 0, TWO_TO_THREE, 0);
    assert SortedIds(TWO_TO_THREE.lineItems) == [];
  }

  lemma HoldCosts(w: World)
    requires OneRoom(w) && ValidWorld(w)
    ensures var b := NewHold(w.cfg, 0, TWO_TO_THREE, 0, []); b.totalMinor == 100 && b.expiresAt == Some(600_000) && b.venueId == 0
  {
    assert HalfHours(7_200_000, 10_800_000) == 2;
  }

  lemma Holds(w: World, sys: System, rung: Tier)
    requires OneRoom(w) && ValidWorld(w) && Published(sys, rung)
    ensures Possible(w, sys, HoldRooms(TWO_TO_THREE, 0)) && Held(Next(w, sys, HoldRooms(TWO_TO_THREE, 0)), rung)
  {
    InTheOpen(w);
    HoldSucceeds(w, sys.api);
    HoldCosts(w);
    hide Bookable, ValidConfig, AdmitEquipment, HoldOnce, NewHold, SlotFree, StaleInRoom;
    HoldShape(w.cfg, sys.api, 0, TWO_TO_THREE, 0);
  }

  lemma Pays(w: World, sys: System, rung: Tier)
    requires ValidWorld(w) && Held(sys, rung)
    ensures Possible(w, sys, Pay(0, 0)) && Asking(Next(w, sys, Pay(0, 0)), rung)
  {
    hide ValidConfig;
  }

  lemma Opens(w: World, sys: System, rung: Tier)
    requires ValidWorld(w) && Asking(sys, rung)
    ensures Possible(w, sys, ProviderMoves(P.PostCharge(REQUEST, 1))) && Opened(Next(w, sys, ProviderMoves(P.PostCharge(REQUEST, 1))), rung)
  {
    hide ValidConfig;
  }

  lemma Captures(w: World, sys: System, rung: Tier)
    requires OneRoom(w) && ValidWorld(w) && Opened(sys, rung)
    ensures Possible(w, sys, ProviderMoves(P.RunTask(P.Materialise(1))))
    ensures CapturedOnly(Next(w, sys, ProviderMoves(P.RunTask(P.Materialise(1)))), rung)
  {
    hide ValidConfig;
  }

  lemma Tells(w: World, sys: System, rung: Tier)
    requires ValidWorld(w) && CapturedOnly(sys, rung)
    ensures Possible(w, sys, HearCharge(ChargeKey(0), 1)) && Told(Next(w, sys, HearCharge(ChargeKey(0), 1)), rung)
  {
    hide ValidConfig;
  }

  lemma Confirms(w: World, sys: System, rung: Tier)
    requires ValidWorld(w) && Told(sys, rung) && OnlyRung(rung)
    ensures Possible(w, sys, AskCharge(ChargeKey(0), 1, Decided(true)))
    ensures Confirmed(Next(w, sys, AskCharge(ChargeKey(0), 1, Decided(true))), rung)
  {
    hide ValidConfig;
    assert ValidTiers([rung]);
    assert ResolveSnapshot(sys.api, 0, 0) == Some(Snapshot([rung], 0, 0));
  }

  // --- The runs -------------------------------------------------------------------------------------

  lemma ConfirmedIsReachable(w: World, rung: Tier) returns (sys: System)
    requires OneRoom(w) && OnlyRung(rung)
    ensures ValidWorld(w) && Reachable(w, sys) && Confirmed(sys, rung)
  {
    OneRoomIsValid(w);
    hide OneRoom, ValidWorld, Reachable, Possible, Next, Published, Held, Asking, Opened, CapturedOnly, Told, Confirmed, OnlyRung;
    NowhereIsReachable(w, EMPTY_SYSTEM);
    Publishes(w, rung);
    sys := Advance(w, EMPTY_SYSTEM, Publish(Policy(None, [rung])));
    Holds(w, sys, rung);
    sys := Advance(w, sys, HoldRooms(TWO_TO_THREE, 0));
    Pays(w, sys, rung);
    sys := Advance(w, sys, Pay(0, 0));
    Opens(w, sys, rung);
    sys := Advance(w, sys, ProviderMoves(P.PostCharge(REQUEST, 1)));
    Captures(w, sys, rung);
    sys := Advance(w, sys, ProviderMoves(P.RunTask(P.Materialise(1))));
    Tells(w, sys, rung);
    sys := Advance(w, sys, HearCharge(ChargeKey(0), 1));
    Confirms(w, sys, rung);
    sys := Advance(w, sys, AskCharge(ChargeKey(0), 1, Decided(true)));
  }

  lemma NothingBackIsNothing(b: Booking, now: int)
    requires CancellationRefund(b, now).Some? && b.policySnapshot.Some? && b.policySnapshot.value.tiers == [NOTHING_BACK]
    ensures CancellationRefund(b, now).value.totalRefundMinor == 0
  {
    hide SplitTotals;
  }

  lemma AllBackIsAll(b: Booking, now: int)
    requires WellPriced(b) && b.totalMinor > 0 && b.policySnapshot.Some? && b.policySnapshot.value.tiers == [ALL_BACK]
    ensures CancellationRefund(b, now).Some? && CancellationRefund(b, now).value.totalRefundMinor == b.totalMinor
  {
    assert ValidTiers([ALL_BACK]);
    RefundWithinTotal(b, now);
    var rate: nat :| PricedAt(b, rate);
    RefundIsBoundedAndExact(HalfHours(b.startsAt, b.endsAt), rate, b.items, [ALL_BACK], b.startsAt, now);
  }

  lemma ConfirmedIsPriced(w: World, sys: System)
    requires ValidWorld(w) && Reachable(w, sys) && |sys.api.bookings| == 1
    ensures WellPriced(sys.api.bookings[0])
  {
    hide Reachable, MoneyOk, BookingsOk, TrailsEndAtStatus, WellPriced;
    ReachableIsOk(w, sys);
  }

  /**
   * A reachable state in which the provider has captured money for a cancelled
   * booking, nothing will ever be returned, and the report says so: the
   * promise of a report that comes back to zero is false of this run.
   */
  lemma TheReportNeverClears(window: Window) returns (w: World, sys: System, key: Key)
    ensures ValidWorld(w) && Reachable(w, sys) && Stuck(sys, key) && Quiet(sys, key)
    ensures ListedPayment(sys.api, window, CaptureWithoutConfirmation, key)
    ensures exists i :: i in sys.sent && i.paymentKey == key && i.amountMinor == 0
  {
    w := OneRoomExists();
    var confirmed := ConfirmedIsReachable(w, NOTHING_BACK);
    hide OneRoom, Reachable, ListedPayment, CancellationRefund, Stuck, Quiet;
    var i;
    sys, i := CallIsLost(w, confirmed, 0, 0, "");
    NothingBackIsNothing(confirmed.api.bookings[0], confirmed.now);
    key := ChargeKey(0);
    ReachableMoney(w, sys);
    ZeroInstructionStaysCaptured(w, sys, i, window);
  }

  /** A refund of everything, lost on its way: as stuck as a refund of nothing. */
  lemma ALostRefundIsStuck(window: Window) returns (w: World, sys: System, key: Key)
    ensures ValidWorld(w) && Reachable(w, sys) && Stuck(sys, key) && Quiet(sys, key)
    ensures ListedPayment(sys.api, window, CaptureWithoutConfirmation, key)
    ensures exists i :: i in sys.sent && i.paymentKey == key && i.amountMinor == 100
  {
    w := OneRoomExists();
    var confirmed := ConfirmedIsReachable(w, ALL_BACK);
    hide OneRoom, Reachable, ListedPayment, CancellationRefund, Stuck, Quiet, WellPriced;
    ConfirmedIsPriced(w, confirmed);
    AllBackIsAll(confirmed.api.bookings[0], confirmed.now);
    var i;
    sys, i := CallIsLost(w, confirmed, 0, 0, "");
    key := ChargeKey(0);
    StuckIsListed(sys, key, window);
  }

  /** A cancellation whose settlement never runs: stuck with no refund key at all. */
  lemma AnUnsettledCancellationIsStuck(window: Window) returns (w: World, sys: System, key: Key)
    ensures ValidWorld(w) && Reachable(w, sys) && Stuck(sys, key) && Quiet(sys, key)
    ensures ListedPayment(sys.api, window, CaptureWithoutConfirmation, key)
    ensures sys.api.payments[key].refundKey.None?
  {
    w := OneRoomExists();
    var confirmed := ConfirmedIsReachable(w, ALL_BACK);
    hide OneRoom, Reachable, ListedPayment, Stuck, Quiet;
    sys := SettlementIsLost(w, confirmed, 0, 0, "");
    key := ChargeKey(0);
    StuckIsListed(sys, key, window);
  }

  lemma StuckIsListed(sys: System, k: Key, window: Window)
    requires Stuck(sys, k)
    ensures k in sys.api.payments && ListedPayment(sys.api, window, CaptureWithoutConfirmation, k)
  {
    hide ListedPayment;
    SettledRowIsListed(sys.api, window, k);
  }
}
