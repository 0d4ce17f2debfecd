/** What a customer can count on, in every reachable state, in milliseconds, units and minor units. */
module AtriumTerms {
  import opened Wrappers
  import opened RefundPolicy
  import opened Ids
  import opened Database
  import opened BookingStateMachine
  import opened BookingsService
  import opened BookingInvariants
  import opened HoldTerms
  import opened PaymentsService
  import opened PaymentTerms
  import opened Accounts
  import opened AtriumSystem
  import opened AtriumBookings
  import opened AtriumPolicies
  import opened AtriumMoney
  import opened Atrium
  import opened AtriumTheorems
  import L = Ledger

  // --- Rooms, equipment and prices --------------------------------------------------------------

  /** No room is taken twice within fifteen minutes and no more units are out than are owned and buffered for. */
  lemma RoomsAndUnitsAreNeverOverbooked(w: World, sys: System)
    requires ValidWorld(w) && Reachable(w, sys)
    ensures RoomsApart(sys.api.bookings) && NeverTooMany(w.cfg, sys.api.bookings, sys.now)
  {
    hide Reachable, RoomsApart, NeverTooMany, RoomsExclusive, NeverOversold, DeadlinesBounded, TrailsEndAtStatus, ValidConfig;
    EveryReachableStateIsSafe(w, sys);
    RoomsExclusiveInMinutes(sys.api.bookings);
    NeverOversoldInUnits(w.cfg, sys.api.bookings, sys.now);
  }

  ghost predicate HasTerms(cfg: Config, b: Booking) { exists n: nat :: OnItsTerms(cfg, b, n) }

  ghost predicate AllOnTheirTerms(cfg: Config, bookings: seq<Booking>) {
    forall id :: 0 <= id < |bookings| ==> HasTerms(cfg, bookings[id])
  }

  /** Every booking ever made is still the one asked for, at the configured rates. */
  lemma EveryBookingKeepsItsTerms(w: World, sys: System, id: BookingId)
    requires ValidWorld(w) && Reachable(w, sys) && id < |sys.api.bookings|
    ensures HasTerms(w.cfg, sys.api.bookings[id])
  {
    hide Next, Possible, HasTerms, AllOnTheirTerms, Initial;
    var states :| Run(w, states) && states[|states| - 1] == sys;
    RunKeepsTerms(w, states, |states| - 1);
    EachIsOnItsTerms(w.cfg, sys.api.bookings, id);
  }

  lemma EachIsOnItsTerms(cfg: Config, bookings: seq<Booking>, id: BookingId)
    requires AllOnTheirTerms(cfg, bookings) && id < |bookings|
    ensures HasTerms(cfg, bookings[id])
  {
  }

  lemma {:induction false} RunKeepsTerms(w: World, states: seq<System>, n: nat)
    requires ValidWorld(w) && Run(w, states) && n < |states|
    ensures AllOnTheirTerms(w.cfg, states[n].api.bookings)
  {
    hide SystemOk, Run, AllOnTheirTerms, RowsProceed;
    if n == 0 {
      NothingBookedYet(w, states);
      NoneIsOnItsTerms(w.cfg);
    } else {
      RunKeepsTerms(w, states, n - 1);
      RunKeeps(w, states, n - 1);
      RunStep(w, states, n - 1);
      StepKeepsTerms(w, states, n - 1);
    }
  }

  lemma NoneIsOnItsTerms(cfg: Config)
    ensures AllOnTheirTerms(cfg, [])
  {
  }

  lemma StepKeepsTerms(w: World, states: seq<System>, n: nat)
    requires ValidWorld(w) && Run(w, states) && n + 1 < |states| && AllOnTheirTerms(w.cfg, states[n].api.bookings)
    requires RowsProceed(w.cfg.env, states[n].api.bookings, states[n + 1].api.bookings, states[n].now, states[n + 1].now)
    ensures AllOnTheirTerms(w.cfg, states[n + 1].api.bookings)
  {
    hide Next, Possible, Initial, AllOnTheirTerms, RowsProceed, Freezes;
    assert Steps(w, states[n], states[n + 1]);
    var m :| Possible(w, states[n], m) && states[n + 1] == Next(w, states[n], m);
    MoveKeepsTerms(w, states[n], m);
  }

  lemma MoveKeepsTerms(w: World, sys: System, m: Move)
    requires ValidWorld(w) && Possible(w, sys, m) && AllOnTheirTerms(w.cfg, sys.api.bookings)
    requires RowsProceed(w.cfg.env, sys.api.bookings, Next(w, sys, m).api.bookings, sys.now, Next(w, sys, m).now)
    ensures AllOnTheirTerms(w.cfg, Next(w, sys, m).api.bookings)
  {
    hide Next, Possible, Freezes, RowsProceed, AllOnTheirTerms, ValidConfig;
    var next := Next(w, sys, m);
    MoveFreezes(w, sys, m);
    if |next.api.bookings| > |sys.api.bookings| { NewBookingIsOnItsTerms(w, sys, m); }
    RowsKeepTerms(w.cfg, sys.api.bookings, next.api.bookings, sys.now, next.now);
  }

  lemma NewBookingIsOnItsTerms(w: World, sys: System, m: Move)
    requires ValidWorld(w) && Possible(w, sys, m) && m.HoldRooms? && |Next(w, sys, m).api.bookings| > |sys.api.bookings|
    ensures |Next(w, sys, m).api.bookings| == |sys.api.bookings| + 1
    ensures HasTerms(w.cfg, Next(w, sys, m).api.bookings[|sys.api.bookings|])
  {
    hide Hold, OnItsTerms, LiveAfter, ValidConfig;
    if Hold(w.cfg, sys.api, sys.now, m.input, m.userId).Ok? {
      HoldsAreOnTheirTerms(w.cfg, sys.api, sys.now, m.input, m.userId);
    }
  }

  lemma RowsKeepTerms(cfg: Config, bookings: seq<Booking>, after: seq<Booking>, now: int, now': int)
    requires AllOnTheirTerms(cfg, bookings) && RowsProceed(cfg.env, bookings, after, now, now')
    requires |after| > |bookings| ==>
               |after| == |bookings| + 1 && HasTerms(cfg, after[|bookings|])
    ensures AllOnTheirTerms(cfg, after)
  {
    hide OnItsTerms, RowProceeds, RowsProceed;
    assert |bookings| <= |after| by { RowsNeverShrink(cfg.env, bookings, after, now, now'); }
    forall id | 0 <= id < |bookings| ensures HasTerms(cfg, after[id]) {
      var n :| OnItsTerms(cfg, bookings[id], n);
      RowKeepsTerms(cfg, bookings, after, now, now', id, n);
    }
  }

  lemma RowsNeverShrink(env: Env, bookings: seq<Booking>, after: seq<Booking>, now: int, now': int)
    requires RowsProceed(env, bookings, after, now, now')
    ensures |bookings| <= |after|
  {
  }

  lemma RowKeepsTerms(cfg: Config, bookings: seq<Booking>, after: seq<Booking>, now: int, now': int, id: BookingId, n: nat)
    requires RowsProceed(cfg.env, bookings, after, now, now') && id < |bookings| && OnItsTerms(cfg, bookings[id], n)
    ensures OnItsTerms(cfg, after[id], n)
  {
    hide ItemsCost, DeadlineBounded, Live;
    assert RowProceeds(cfg.env, bookings[id], after[id], now, now');
  }

  // --- What a first capture does --------------------------------------------------------------

  /** A signed, waiting row that tells of a capture not yet recorded. */
  predicate FirstCaptureWaits(s: Api, row: nat) {
    && row < |s.deliveries| && s.deliveries[row].processedAt.None?
    && var body := s.deliveries[row].body;
       body.Fields? && body.chargeId.Some? && body.event == Known(ChargeSucceeded)
       && EventKey(body.chargeId.value, ChargeSucceeded) !in s.events
  }

  /** Confirmed in time under the policy in force for its venue, and nothing to give back. */
  ghost predicate ConfirmsNow(s: Api, now: int, id: BookingId, e: Effect)
    requires id < |s.bookings|
  {
    && e.instruction.None? && id < |e.after.bookings| && ChargeKey(id) in e.after.payments
    && e.after.bookings[id].status == CONFIRMED && e.after.bookings[id].policySnapshot.Some?
    && FrozenFrom(s.policies, s.bookings[id].venueId, now, e.after.bookings[id].policySnapshot.value)
    && e.after.payments[ChargeKey(id)].status == SUCCEEDED && e.after.payments[ChargeKey(id)].refundKey.None?
  }

  /** Expired, and the whole total on its way back under the charge's own key. */
  predicate ReturnsNow(s: Api, id: BookingId, c: ChargeId, e: Effect)
    requires id < |s.bookings|
  {
    && id < |e.after.bookings| && e.after.bookings[id].status == EXPIRED && ChargeKey(id) in e.after.payments
    && e.instruction == Some(Instruction(ChargeKey(id), c, id, s.bookings[id].totalMinor, RefundKey(c)))
    && e.after.payments[ChargeKey(id)].status == SUCCEEDED && e.after.payments[ChargeKey(id)].refundKey == Some(RefundKey(c))
  }

  /**
   * In every reachable state the first capture of a charge finds its booking
   * pending. It confirms it exactly while `now` is before the deadline and some
   * valid policy is in force; from the deadline on it returns the whole total;
   * in time but with no valid policy it waits.
   */
  lemma AFirstCaptureDecides(w: World, sys: System, row: nat)
    requires ValidWorld(w) && Reachable(w, sys) && FirstCaptureWaits(sys.api, row)
    ensures var c := sys.api.deliveries[row].body.chargeId.value;
            c in sys.provider.ledger.charges
            && var id := sys.provider.ledger.charges[c].reference;
               var r := ApplyDelivery(sys.api, sys.now, row);
               && id < |sys.api.bookings| && sys.api.bookings[id].status == PENDING_PAYMENT
               && if !InTime(sys.api.bookings[id], sys.now) then r.Ok? && ReturnsNow(sys.api, id, c, r.value)
                  else if exists snapshot :: FrozenFrom(sys.api.policies, sys.api.bookings[id].venueId, sys.now, snapshot)
                  then r.Ok? && ConfirmsNow(sys.api, sys.now, id, r.value)
                  else r == Err(NoPolicy)
  {
    hide Reachable, MoneyOk, ApplyDelivery, FrozenFrom, InTime;
    ReachableMoney(w, sys);
    CaptureOfRow(w, sys, row);
  }

  lemma CaptureOfRow(w: World, sys: System, row: nat)
    requires MoneyOk(w, sys) && FirstCaptureWaits(sys.api, row)
    ensures var c := sys.api.deliveries[row].body.chargeId.value;
            c in sys.provider.ledger.charges
            && var id := sys.provider.ledger.charges[c].reference;
               var r := ApplyDelivery(sys.api, sys.now, row);
               && id < |sys.api.bookings| && sys.api.bookings[id].status == PENDING_PAYMENT
               && if !InTime(sys.api.bookings[id], sys.now) then r.Ok? && ReturnsNow(sys.api, id, c, r.value)
                  else if exists snapshot :: FrozenFrom(sys.api.policies, sys.api.bookings[id].venueId, sys.now, snapshot)
                  then r.Ok? && ConfirmsNow(sys.api, sys.now, id, r.value)
                  else r == Err(NoPolicy)
  {
    hide MoneyOk, Gated, Locate, Announced, EventTrue, FrozenFrom, InTime, TablesOk;
    WaitingRow(w, sys, row);
    var body := sys.api.deliveries[row].body;
    var c, l := body.chargeId.value, sys.provider.ledger;
    LocatedMoney(w, sys, body);
    var key := l.charges[c].key;
    var located := RecordChargeId(sys.api, sys.now, key, c);
    PendingAccount(w, sys.(api := located), body, key, c);
    CaptureIs(located, sys.now, key, c, body.refundId, body.amountMinor);
  }

  lemma PendingAccount(w: World, sys: System, body: Body, key: Key, c: ChargeId)
    requires MoneyOk(w, sys) && HasCharge(sys.api, key, c) && EventKey(c, ChargeSucceeded) !in sys.api.events
    requires Actionable(body) && Announced(sys.provider.log, body) && body.chargeId == Some(c) && body.event == Known(ChargeSucceeded)
    ensures c in sys.provider.ledger.charges && key == ChargeKey(sys.provider.ledger.charges[c].reference)
    ensures var id := sys.provider.ledger.charges[c].reference;
            && sys.api.payments[key].bookingId == id < |sys.api.bookings| && sys.api.bookings[id].status == PENDING_PAYMENT
            && sys.api.payments[key].refundKey.None? && sys.api.payments[key].amountMinor == sys.api.bookings[id].totalMinor
  {
    hide MoneyOk, Announced, TablesOk;
    AnnouncedIsTrue(w, sys, body);
    StaysPut(sys);
    MoneyHasTables(w, sys);
    DueFromTruth(w, sys, sys.api, key, c, ChargeSucceeded, body.refundId, body.amountMinor);
    DueAccount(sys.api, sys.provider.ledger, key, c, ChargeSucceeded, body.refundId, body.amountMinor);
    ChargeOfPending(sys.api, sys.provider.ledger, key, c);
  }

  lemma ChargeOfPending(s: Api, l: L.State, key: Key, c: ChargeId)
    requires TablesOk(s, l) && HasCharge(s, key, c) && KeyedAccountOk(s, l, key) && c in l.charges
    ensures key == ChargeKey(l.charges[c].reference) && s.payments[key].bookingId == l.charges[c].reference < |s.bookings|
    ensures s.payments[key].amountMinor == s.bookings[l.charges[c].reference].totalMinor
  {
    assert ChargeBacked(s, l.charges[c]);
  }

  // --- What a cancellation pays -------------------------------------------------------------------

  /** A lead time in milliseconds reaches a rung of a ladder. */
  predicate Reaches(leadMs: int, t: Tier) { t.minHoursBefore == 0.0 || leadMs as real >= t.minHoursBefore * 3_600_000.0 }

  /** The rung that answers: the first from the top that the lead time reaches. */
  ghost predicate Answers(tiers: seq<Tier>, leadMs: int, k: nat) {
    k < |tiers| && Reaches(leadMs, tiers[k]) && forall i :: 0 <= i < k ==> !Reaches(leadMs, tiers[i])
  }

  lemma ReachesIff(startsAt: int, at: int, t: Tier)
    requires ValidTier(t)
    ensures HoursBefore(startsAt, at) >= t.minHoursBefore <==> Reaches(startsAt - at, t)
  {
    if t.minHoursBefore > 0.0 { LeadClears(startsAt, at, t.minHoursBefore); }
  }

  /** The ladder is read in milliseconds. */
  lemma SelectedRungAnswers(tiers: seq<Tier>, startsAt: int, at: int) returns (k: nat)
    requires ValidTiers(tiers)
    ensures Answers(tiers, startsAt - at, k) && SelectTier(tiers, HoursBefore(startsAt, at)) == Some(tiers[k])
  {
    hide HoursBefore, Reaches;
    var h := HoursBefore(startsAt, at);
    forall i | 0 <= i < |tiers| ensures h >= tiers[i].minHoursBefore <==> Reaches(startsAt - at, tiers[i]) {
      ReachesIff(startsAt, at, tiers[i]);
    }
    SelectIsFirst(tiers, h);
    LeadClearsWholeHours(startsAt, at, 0);
    assert h >= tiers[|tiers| - 1].minHoursBefore;
    k :| 0 <= k < |tiers| && tiers[k] == SelectTier(tiers, h).value && h >= tiers[k].minHoursBefore
         && forall i :: 0 <= i < k ==> h < tiers[i].minHoursBefore;
  }

  lemma OneRungAnswers(tiers: seq<Tier>, leadMs: int, j: nat, k: nat)
    requires Answers(tiers, leadMs, j) && Answers(tiers, leadMs, k)
    ensures j == k
  {
  }

  /**
   * What a booking of `n` half hours pays back at a rung: the room's part and
   * the equipment's part of its total, each at its percentage, rounded down.
   */
  ghost function PaidBack(b: Booking, n: nat, t: Tier): int {
    (b.totalMinor - ItemsCost(b.items, n)) * t.roomRefundPct / 100 + ItemsCost(b.items, n) * t.equipmentRefundPct / 100
  }

  lemma RefundSpelledOut(cfg: Config, b: Booking, now: int, n: nat, k: nat)
    requires OnItsTerms(cfg, b, n) && Frozen(b) && Answers(b.policySnapshot.value.tiers, b.startsAt - now, k)
    ensures var r := CancellationRefund(b, now);
            r.Some? && r.value.tier == b.policySnapshot.value.tiers[k]
            && r.value.totalRefundMinor == PaidBack(b, n, b.policySnapshot.value.tiers[k])
  {
    hide ValidTiers, Answers, SelectTier, HoursBefore, ItemsCost, EquipmentTotal, HalfHours;
    var j := SelectedRungAnswers(b.policySnapshot.value.tiers, b.startsAt, now);
    OneRungAnswers(b.policySnapshot.value.tiers, b.startsAt - now, j, k);
    HalfHoursOnTheGrid(b.startsAt, b.endsAt, n);
    ItemsCostIs(b.items, n);
  }

  /** An instruction to pay back this much for this booking. */
  ghost predicate Instructs(sys: System, id: BookingId, amountMinor: int) {
    exists i :: i in sys.sent && i.bookingId == id && i.paymentKey == ChargeKey(id) && i.amountMinor == amountMinor
  }

  /** Cancel, and settle before the clock moves. */
  lemma CancelAndSettle(w: World, sys: System, id: BookingId, userId: nat, text: string) returns (settled: System)
    requires ValidWorld(w) && Reachable(w, sys) && id < |sys.api.bookings| && sys.api.bookings[id].status == CONFIRMED
    ensures Possible(w, Next(w, sys, CancelRequest(id, userId, text)), SettleCancelled(id))
    ensures settled == Next(w, Next(w, sys, CancelRequest(id, userId, text)), SettleCancelled(id))
    ensures Reachable(w, settled) && CancellationRefund(sys.api.bookings[id], sys.now).Some?
    ensures Instructs(settled, id, CancellationRefund(sys.api.bookings[id], sys.now).value.totalRefundMinor)
  {
    hide Reachable, Next, ValidConfig, CancellationRefund;
    CancellingInstructsTheFrozenRefund(w, sys, id, userId, text);
    var cancelled := Advance(w, sys, CancelRequest(id, userId, text));
    settled := Advance(w, cancelled, SettleCancelled(id));
  }

  /**
   * Cancelling a confirmed booking pays back, of the room's part and the
   * equipment's part of its total, the percentages of the first rung of its
   * frozen ladder that the milliseconds left reach.
   */
  lemma CancellingPaysTheRung(w: World, sys: System, id: BookingId, userId: nat, text: string)
    requires ValidWorld(w) && Reachable(w, sys) && id < |sys.api.bookings| && sys.api.bookings[id].status == CONFIRMED
    ensures Frozen(sys.api.bookings[id])
    ensures Possible(w, Next(w, sys, CancelRequest(id, userId, text)), SettleCancelled(id))
    ensures exists n: nat, k: nat ::
              var b := sys.api.bookings[id];
              OnItsTerms(w.cfg, b, n) && Answers(b.policySnapshot.value.tiers, b.startsAt - sys.now, k)
              && Instructs(Next(w, Next(w, sys, CancelRequest(id, userId, text)), SettleCancelled(id)), id,
                           PaidBack(b, n, b.policySnapshot.value.tiers[k]))
  {
    hide Reachable, Next, OnItsTerms, Answers, Instructs, PaidBack, CancellationRefund, ValidConfig, ValidTiers;
    var b := sys.api.bookings[id];
    ConfirmedIsFrozen(w, sys, id);
    EveryBookingKeepsItsTerms(w, sys, id);
    var n :| OnItsTerms(w.cfg, b, n);
    var k := SelectedRungAnswers(b.policySnapshot.value.tiers, b.startsAt, sys.now);
    RefundSpelledOut(w.cfg, b, sys.now, n, k);
    var settled := CancelAndSettle(w, sys, id, userId, text);
  }

  lemma ConfirmedIsFrozen(w: World, sys: System, id: BookingId)
    requires ValidWorld(w) && Reachable(w, sys) && id < |sys.api.bookings| && sys.api.bookings[id].status == CONFIRMED
    ensures Frozen(sys.api.bookings[id])
  {
    hide Reachable, ValidTiers, CancellationRefund, ValidConfig;
    ConfirmedAccount(w, sys, id);
    EveryBookingIsInTheJointTable(w, sys, id);
  }

  /** Everything back a day ahead, nothing after that. */
  const ONE_DAY: seq<Tier> := [Tier(24.0, 100, 100), Tier(0.0, 0, 0)]

  /** Under that ladder the whole total is instructed exactly while 86,400,000 milliseconds are left, and else nothing. */
  lemma OneDayLadder(w: World, sys: System, id: BookingId, userId: nat, text: string) returns (settled: System)
    requires ValidWorld(w) && Reachable(w, sys) && id < |sys.api.bookings| && sys.api.bookings[id].status == CONFIRMED
    requires sys.api.bookings[id].policySnapshot.Some? && sys.api.bookings[id].policySnapshot.value.tiers == ONE_DAY
    ensures Possible(w, Next(w, sys, CancelRequest(id, userId, text)), SettleCancelled(id))
    ensures settled == Next(w, Next(w, sys, CancelRequest(id, userId, text)), SettleCancelled(id))
    ensures Instructs(settled, id, if sys.api.bookings[id].startsAt - sys.now >= 86_400_000 then sys.api.bookings[id].totalMinor else 0)
  {
    hide Reachable, Next, OnItsTerms, Answers, Instructs, CancellationRefund, ValidConfig, ItemsCost;
    var b := sys.api.bookings[id];
    ConfirmedIsFrozen(w, sys, id);
    EveryBookingKeepsItsTerms(w, sys, id);
    var n :| OnItsTerms(w.cfg, b, n);
    var k := if b.startsAt - sys.now >= 86_400_000 then 0 else 1;
    OneDayAnswers(b.startsAt - sys.now, k);
    RefundSpelledOut(w.cfg, b, sys.now, n, k);
    settled := CancelAndSettle(w, sys, id, userId, text);
  }

  lemma OneDayAnswers(leadMs: int, k: nat)
    requires k == if leadMs >= 86_400_000 then 0 else 1
    ensures Answers(ONE_DAY, leadMs, k)
  {
  }
}
