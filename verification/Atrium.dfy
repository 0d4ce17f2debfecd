/** What holds in every reachable state of the composed system, and what no run ever does. */
module Atrium {
  import opened Wrappers
  import opened RefundPolicy
  import opened Ids
  import opened Database
  import opened BookingStateMachine
  import opened BookingsService
  import opened BookingInvariants
  import opened PaymentsService
  import opened Accounts
  import opened AtriumSystem
  import opened AtriumBookings
  import opened AtriumMoney
  import opened Reconciliation
  import L = Ledger
  import P = Paygate

  /** The parsed configuration is well formed; nothing is asked of the hold lifetimes. */
  predicate ValidWorld(w: World) { ValidConfig(w.cfg) }

  ghost predicate SystemOk(w: World, sys: System)
    requires ValidWorld(w)
  {
    && MoneyOk(w, sys) && BooksOk(w.cfg, sys.api, sys.now) && CancelledOk(sys.api, sys.cancelled) && LiveOk(sys)
  }

  lemma InitialOk(w: World, sys: System)
    requires ValidWorld(w) && Initial(sys)
    ensures SystemOk(w, sys)
  {
  }

  /** Money: every move of every participant. */
  lemma MoveKeepsMoney(w: World, sys: System, m: Move)
    requires ValidWorld(w) && Possible(w, sys, m)
    requires MoneyOk(w, sys) && RowsOk(sys.api.bookings) && CancelledOk(sys.api, sys.cancelled) && LiveOk(sys)
    ensures MoneyMoves(w, sys, Next(w, sys, m))
  {
    hide MoneyMoves, MoneyOk, RowsOk, CancelledOk, LiveOk, Possible, Moved, LiveAfter;
    MovedKeepsMoney(w, sys, m);
    LiveIsNoMoney(w, sys, Moved(w, sys, m), LiveAfter(sys, m, Moved(w, sys, m)));
  }

  lemma MovedKeepsMoney(w: World, sys: System, m: Move)
    requires ValidWorld(w) && Possible(w, sys, m)
    requires MoneyOk(w, sys) && RowsOk(sys.api.bookings) && CancelledOk(sys.api, sys.cancelled) && LiveOk(sys)
    ensures MoneyMoves(w, sys, Moved(w, sys, m))
  {
    hide MoneyOk, RowsOk, CancelledOk, Deliverable, Asked, ApplyDelivery, PollCharge, PollRefund, SettleCancellation, PayPrepare, Hold, Checkout,
      Ingest, RecordChargeId, RecordRefundId, RecordFailure, ExpireRows, Announced, P.Next, P.Enabled, ValidHold, StaleBatch;
    match m
    case HoldRooms(input, userId) => HoldMoney(w, sys, input, userId);
    case Pay(id, userId) => PayMoney(w, sys, id, userId);
    case ProviderMoves(step) => ProviderMoney(w, sys, step);
    case HearCharge(key, chargeId) => HearChargeMoney(w, sys, key, chargeId);
    case HearRefund(i, refundId) => HearRefundMoney(w, sys, i, refundId);
    case RefundFails(i) => NoteMoney(w, sys, i.paymentKey, RefundRejected);
    case Receive(id, signatureValid, body) => ReceiveMoney(w, sys, id, signatureValid, body);
    case Apply(row) => ApplyMoney(w, sys, row);
    case AskCharge(key, chargeId, answer) => AskChargeMoney(w, sys, key, chargeId, answer);
    case AskRefund(key, chargeId, refundId, amount) => AskRefundMoney(w, sys, key, chargeId, refundId, amount);
    case RearmHold(id, userId) => RearmMoney(w, sys, id, userId);
    case CancelRequest(id, userId, text) => CancelledMoney(w, sys, id, userId, text);
    case SettleCancelled(id) => SettleMoney(w, sys, id);
    case Sweep(ids) => SweepMoney(w, sys, ids);
    case Tick(to) => ClockMoney(w, sys, to);
    case Publish(policy) => PublishMoney(w, sys, policy);
    case Lose(_) => ClockMoney(w, sys, sys.now);
  }

  lemma CancelledMoney(w: World, sys: System, id: BookingId, userId: nat, text: string)
    requires MoneyOk(w, sys)
    ensures MoneyMoves(w, sys, Cancelled(sys, id, Cancel(sys.api, sys.now, id, userId, text)))
  {
    CancelMoney(w, sys, id, userId, text);
  }

  lemma ClockMoney(w: World, sys: System, to: int)
    requires MoneyOk(w, sys)
    ensures MoneyMoves(w, sys, sys.(now := to))
  {
  }

  lemma PublishMoney(w: World, sys: System, policy: Policy)
    requires MoneyOk(w, sys)
    ensures MoneyMoves(w, sys, sys.(api := sys.api.(policies := sys.api.policies + [policy])))
  {
    hide NotesOk, RefundsOk, P.ProviderOk, TablesOk, TablesGrow;
    var s' := sys.api.(policies := sys.api.policies + [policy]);
    SameMoneyTables(sys.api, s', sys.provider.ledger);
    TablesMove(w, sys, s');
  }

  /** Bookings: rooms, equipment, deadlines, prices and the audit trail, under every move. */
  lemma MoveKeepsBooks(w: World, sys: System, m: Move)
    requires ValidWorld(w) && Possible(w, sys, m) && BooksOk(w.cfg, sys.api, sys.now)
    ensures var sys' := Moved(w, sys, m);
            && BooksOk(w.cfg, sys'.api, sys'.now) && sys.now <= sys'.now
            && RowsProceed(w.cfg.env, sys.api.bookings, sys'.api.bookings, sys.now, sys'.now)
  {
    hide BooksOk, RowsProceed, ApplyDelivery, PollCharge, PollRefund, PayPrepare, Hold, Checkout, Cancel, ExpireRows,
      Announced, P.Next, P.Enabled, ValidHold, StaleBatch, ValidConfig;
    var s, now := sys.api, sys.now;
    match m
    case HoldRooms(input, userId) => HoldProceeds(w.cfg, s, now, input, userId);
    case Pay(id, userId) => PaidProceeds(w, sys, id, userId);
    case Apply(row) => DeliveryProceeds(w.cfg, s, now, row);
    case AskCharge(key, chargeId, answer) => PollsProceed(w.cfg, s, now, key, chargeId, answer, None);
    case AskRefund(key, chargeId, _, amount) => PollsProceed(w.cfg, s, now, key, chargeId, Missing, amount);
    case RearmHold(id, userId) => CheckoutProceeds(w.cfg, s, now, id, userId);
    case CancelRequest(id, userId, text) => CancelProceeds(w.cfg, s, now, id, userId, text);
    case Sweep(ids) => SweepProceeds(w.cfg, s, now, ids);
    case Tick(to) => TickProceeds(w.cfg, s, now, to);
    case SettleCancelled(id) => SettleProceeds(w, sys, id);
    case _ => NotesProceed(w.cfg, s, Moved(w, sys, m).api, now);
  }

  lemma PaidProceeds(w: World, sys: System, id: BookingId, userId: nat)
    requires ValidWorld(w) && BooksOk(w.cfg, sys.api, sys.now)
    ensures var sys' := Paid(sys, id, PayPrepare(sys.api, sys.now, id, userId));
            && BooksOk(w.cfg, sys'.api, sys'.now) && sys'.now == sys.now
            && RowsProceed(w.cfg.env, sys.api.bookings, sys'.api.bookings, sys.now, sys'.now)
  {
    hide BooksOk, RowsProceed, PayPrepare;
    var r := PayPrepare(sys.api, sys.now, id, userId);
    if r.Ok? { PayProceeds(w.cfg, sys.api, sys.now, id, userId); } else { NotesProceed(w.cfg, sys.api, sys.api, sys.now); }
  }

  lemma SettleProceeds(w: World, sys: System, id: BookingId)
    requires ValidWorld(w) && BooksOk(w.cfg, sys.api, sys.now)
    ensures var s' := SettleCancellation(sys.api, sys.now, id).after;
            BooksOk(w.cfg, s', sys.now) && RowsProceed(w.cfg.env, sys.api.bookings, s'.bookings, sys.now, sys.now)
  {
    hide BooksOk, RowsProceed, CancellationRefund;
    NotesProceed(w.cfg, sys.api, SettleCancellation(sys.api, sys.now, id).after, sys.now);
  }

  /** A cancelled booking stays cancelled or is refunded. */
  lemma CancelledStays(w: World, sys: System, m: Move)
    requires ValidWorld(w) && Possible(w, sys, m) && CancelledOk(sys.api, sys.cancelled)
    requires RowsProceed(w.cfg.env, sys.api.bookings, Next(w, sys, m).api.bookings, sys.now, Next(w, sys, m).now)
    ensures CancelledOk(Next(w, sys, m).api, Next(w, sys, m).cancelled)
  {
    hide LiveAfter, ApplyDelivery, PollCharge, PollRefund, PayPrepare, Hold, Checkout, ExpireRows, SettleCancellation,
      Announced, P.Next, P.Enabled, ValidHold, StaleBatch, ValidConfig, DeadlineBounded;
    var sys' := Next(w, sys, m);
    forall id | id in sys'.cancelled
      ensures id < |sys'.api.bookings| && sys'.api.bookings[id].status in {CANCELLED, BookingStatus.REFUNDED}
    {
      if id in sys.cancelled {
        assert RowProceeds(w.cfg.env, sys.api.bookings[id], sys'.api.bookings[id], sys.now, sys'.now);
      }
    }
  }

  /** Nothing is under way that was not sent, cancelled, started or logged. */
  lemma MoveKeepsLive(w: World, sys: System, m: Move)
    requires ValidWorld(w) && Possible(w, sys, m) && LiveOk(sys)
    requires sys.sent <= Moved(w, sys, m).sent && sys.cancelled <= Moved(w, sys, m).cancelled
    requires |sys.provider.log| <= |Moved(w, sys, m).provider.log|
    ensures LiveOk(Next(w, sys, m))
  {
    hide P.Next, P.Started, P.Enabled, ApplyDelivery, PollCharge, PollRefund, PayPrepare, Hold, Checkout, Cancel, ExpireRows,
      SettleCancellation, Announced, ValidHold, StaleBatch, ValidConfig;
    if m.ProviderMoves? { P.StepStarts(sys.provider, m.step, w.declineAmount); }
  }

  lemma NothingIsForgotten(w: World, sys: System, m: Move)
    requires ValidWorld(w) && Possible(w, sys, m) && Advances(sys, Next(w, sys, m))
    ensures sys.sent <= Moved(w, sys, m).sent && sys.cancelled <= Moved(w, sys, m).cancelled
    ensures |sys.provider.log| <= |Moved(w, sys, m).provider.log|
  {
    hide P.Next, P.Started, P.Enabled, ApplyDelivery, PollCharge, PollRefund, PayPrepare, Hold, Checkout, Cancel, ExpireRows,
      SettleCancellation, Announced, ValidHold, StaleBatch, ValidConfig, TablesGrow, L.Grows, LiveAfter;
  }

  /** One move of anyone keeps everything. */
  lemma MoveKeeps(w: World, sys: System, m: Move)
    requires ValidWorld(w) && Possible(w, sys, m) && SystemOk(w, sys)
    ensures SystemOk(w, Next(w, sys, m)) && Advances(sys, Next(w, sys, m)) && sys.now <= Next(w, sys, m).now
    ensures RowsProceed(w.cfg.env, sys.api.bookings, Next(w, sys, m).api.bookings, sys.now, Next(w, sys, m).now)
  {
    assert RowsOk(sys.api.bookings);
    hide MoneyOk, BooksOk, RowsProceed, CancelledOk, Moved, Possible, RowsOk, LiveOk, LiveAfter;
    MoveKeepsMoney(w, sys, m);
    MoveKeepsBooks(w, sys, m);
    CancelledStays(w, sys, m);
    NothingIsForgotten(w, sys, m);
    MoveKeepsLive(w, sys, m);
  }

  /** Every state of every run is sound: the joint invariant of API and provider. */
  lemma {:induction false} RunKeeps(w: World, states: seq<System>, n: nat)
    requires ValidWorld(w) && Run(w, states) && n < |states|
    ensures SystemOk(w, states[n])
  {
    hide SystemOk, Next, Possible, Initial, Advances, RowsProceed;
    if n == 0 {
      InitialOk(w, states[0]);
    } else {
      RunKeeps(w, states, n - 1);
      RunStep(w, states, n - 1);
    }
  }

  lemma RunStep(w: World, states: seq<System>, n: nat)
    requires ValidWorld(w) && Run(w, states) && n + 1 < |states| && SystemOk(w, states[n])
    ensures SystemOk(w, states[n + 1]) && Advances(states[n], states[n + 1]) && states[n].now <= states[n + 1].now
    ensures RowsProceed(w.cfg.env, states[n].api.bookings, states[n + 1].api.bookings, states[n].now, states[n + 1].now)
  {
    hide SystemOk, Next, Possible, Initial, Advances, RowsProceed;
    assert Steps(w, states[n], states[n + 1]);
    var m :| Possible(w, states[n], m) && states[n + 1] == Next(w, states[n], m);
    MoveKeeps(w, states[n], m);
  }

  /** Payments, events, instructions and charges only accumulate along a run. */
  lemma {:induction false} RunAdvances(w: World, states: seq<System>, i: nat, j: nat)
    requires ValidWorld(w) && Run(w, states) && i <= j < |states|
    ensures Advances(states[i], states[j])
    decreases j
  {
    hide SystemOk, Initial, Advances, RowsProceed, Steps;
    StaysPut(states[i]);
    if i < j {
      RunAdvances(w, states, i, j - 1);
      RunKeeps(w, states, j - 1);
      RunStep(w, states, j - 1);
      AdvancesTransitive(states[i], states[j - 1], states[j]);
    }
  }
}
