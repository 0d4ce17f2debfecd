/**
 * The API and the provider as one system. A move is one committed
 * transaction, one provider operation, one message arriving, one thing in
 * flight being lost, or time passing. What is in flight may arrive late, out of
 * order, corrupted, a delivery also twice, or never; any process may stop
 * between two moves. A charge may be asked for again at any time, as a customer
 * does; a refund is asked for once.
 */
module AtriumSystem {
  import opened Wrappers
  import opened RefundPolicy
  import opened Ids
  import opened Database
  import opened BookingStateMachine
  import opened BookingsService
  import opened PaymentsService
  import L = Ledger
  import P = Paygate

  datatype World = World(cfg: Config, declineAmount: int)

  /** A charge request a committed payment row allows, and may be retried for ever. */
  datatype Call = Call(bookingId: BookingId, amountMinor: nat)

  /**
   * What is still under way: settlements of cancellations just committed, refund
   * calls that have not reached the provider, refund calls whose caller still
   * listens for the answer, provider handlers still running, and logged
   * dispatches with a delivery attempt to come.
   */
  datatype Underway = Underway(
    settlements: set<BookingId>, refundCalls: set<Instruction>, awaited: set<Instruction>,
    tasks: set<P.Task>, dispatches: set<nat>)

  const NOTHING_LIVE: Underway := Underway({}, {}, {}, {}, {})

  /** Something under way that a crash or a dropped message can end. */
  datatype InFlight =
    | Settlement(bookingId: BookingId)
    | RefundCall(instruction: Instruction)
    | AwaitedAnswer(instruction: Instruction)
    | Handler(task: P.Task)
    | Attempts(index: nat)

  /** `sent`, `calls`, `cancelled` and `told` remember; `live` is what can still happen. */
  datatype System = System(
    api: Api, now: int, provider: P.Provider,
    calls: set<Call>, sent: set<Instruction>, cancelled: set<BookingId>, told: set<ChargeId>, live: Underway)

  datatype Move =
    | HoldRooms(input: HoldInput, userId: nat)
    | Pay(bookingId: BookingId, userId: nat)
    | ProviderMoves(step: P.Step)
    | HearCharge(key: Key, chargeId: ChargeId)
    | HearRefund(instruction: Instruction, refundId: RefundId)
    | RefundFails(instruction: Instruction)
    | Receive(deliveryId: nat, signatureValid: bool, body: Body)
    | Apply(row: nat)
    | AskCharge(key: Key, chargeId: ChargeId, answer: ChargeAnswer)
    | AskRefund(key: Key, chargeId: ChargeId, refundId: RefundId, settledAmount: Option<int>)
    | RearmHold(bookingId: BookingId, userId: nat)
    | CancelRequest(bookingId: BookingId, userId: nat, text: string)
    | SettleCancelled(bookingId: BookingId)
    | Sweep(ids: seq<BookingId>)
    | Tick(to: int)
    | Publish(policy: Policy)
    | Lose(item: InFlight)

  /** What a dispatch carries on the wire. */
  function BodyOf(d: P.Dispatch): Body {
    match d
    case ChargeOutcome(id, reference, succeeded, amount) =>
      Fields(Some(id), Some(BookingRef(reference)), Known(if succeeded then ChargeSucceeded else ChargeFailed), Some(amount), None)
    case RefundDone(id, chargeId, reference, amount) =>
      Fields(Some(chargeId), Some(BookingRef(reference)), Known(RefundSucceeded), Some(amount), Some(id))
  }

  predicate Actionable(body: Body) { body.Fields? && body.chargeId.Some? && body.event.Known? }

  ghost predicate Announced(log: seq<P.Dispatch>, body: Body) {
    exists i :: 0 <= i < |log| && body == BodyOf(log[i])
  }

  /** The provider only ever receives what the API asks it. */
  predicate Asked(sys: System, step: P.Step) {
    match step
    case PostCharge(r, _) => r.key == ChargeKey(r.reference) && Call(r.reference, r.amountMinor) in sys.calls
    case PostRefund(r, _) =>
      exists i :: i in sys.live.refundCalls && i.key == r.key && i.chargeId == r.chargeId && i.amountMinor == r.amountMinor
    case RunTask(task) => task in sys.live.tasks
  }

  /** A delivery of something the provider logged, with an attempt still to come. */
  ghost predicate Deliverable(sys: System, body: Body) {
    exists i :: i in sys.live.dispatches && i < |sys.provider.log| && body == BodyOf(sys.provider.log[i])
  }

  predicate ChargeAnswerTrue(ledger: L.State, chargeId: ChargeId, answer: ChargeAnswer) {
    match answer
    case Missing => chargeId !in ledger.charges
    case StillProcessing => true
    case Decided(succeeded) =>
      chargeId in ledger.charges && ledger.charges[chargeId].status == if succeeded then L.Succeeded else L.Failed
  }

  predicate RefundAnswerTrue(ledger: L.State, refundId: RefundId, settledAmount: Option<int>) {
    settledAmount.Some? ==>
      refundId in ledger.refunds && ledger.refunds[refundId].materialised
      && ledger.refunds[refundId].amountMinor == settledAmount.value
  }

  /**
   * A signature that verifies was made by the provider, so what it signed is
   * one of its own dispatches, or a body nothing acts on.
   */
  ghost predicate Possible(w: World, sys: System, m: Move) {
    match m
    case HoldRooms(input, _) => ValidHold(input)
    case ProviderMoves(step) => P.Enabled(sys.provider, step) && Asked(sys, step)
    case HearCharge(key, chargeId) => P.ChargeAnswer(key, chargeId) in sys.provider.answers
    case HearRefund(i, refundId) => i in sys.live.awaited && P.RefundAnswer(i.key, refundId) in sys.provider.answers
    case RefundFails(i) => i in sys.live.awaited
    case Receive(_, signatureValid, body) => signatureValid && Actionable(body) ==> Deliverable(sys, body)
    case AskCharge(key, chargeId, answer) =>
      HasCharge(sys.api, key, chargeId) && ChargeAnswerTrue(sys.provider.ledger, chargeId, answer)
    case AskRefund(key, chargeId, refundId, settledAmount) =>
      HasCharge(sys.api, key, chargeId) && sys.api.payments[key].refundId == Some(refundId)
      && RefundAnswerTrue(sys.provider.ledger, refundId, settledAmount)
    case SettleCancelled(id) => id in sys.live.settlements
    case Sweep(ids) => StaleBatch(sys.api.bookings, sys.now, ids)
    case Tick(to) => sys.now <= to
    case _ => true
  }

  /** A committed effect, and the instruction it puts on its way to the provider. */
  function Took(sys: System, r: Result<Effect, Refusal>): System {
    var i := InstructionOf(r);
    sys.(api := Outcome(sys.api, r), sent := sys.sent + if i.Some? then {i.value} else {})
  }

  /** What a move does to the tables, to the provider and to what was ever sent. */
  ghost function Moved(w: World, sys: System, m: Move): System
    requires ValidConfig(w.cfg) && Possible(w, sys, m)
  {
    var s, now := sys.api, sys.now;
    match m
    case HoldRooms(input, userId) => sys.(api := Committed(s, Hold(w.cfg, s, now, input, userId)))
    case Pay(id, userId) => Paid(sys, id, PayPrepare(s, now, id, userId))
    case ProviderMoves(step) => sys.(provider := P.Next(sys.provider, step, w.declineAmount))
    case HearCharge(key, chargeId) => sys.(api := RecordChargeId(s, now, key, chargeId), told := sys.told + {chargeId})
    case HearRefund(i, refundId) => sys.(api := RecordRefundId(s, now, i.paymentKey, refundId))
    case RefundFails(i) => sys.(api := RecordFailure(s, now, i.paymentKey, RefundRejected))
    case Receive(id, signatureValid, body) => sys.(api := Ingest(s, now, id, signatureValid, body))
    case Apply(row) => Took(sys, ApplyDelivery(s, now, row))
    case AskCharge(key, chargeId, answer) => Took(sys, PollCharge(s, now, key, chargeId, answer))
    case AskRefund(key, chargeId, _, amount) => Took(sys, PollRefund(s, now, key, chargeId, amount))
    case RearmHold(id, userId) => sys.(api := Committed(s, Checkout(w.cfg, s, now, id, userId)))
    case CancelRequest(id, userId, text) => Cancelled(sys, id, Cancel(s, now, id, userId, text))
    case SettleCancelled(id) => Took(sys, Ok(SettleCancellation(s, now, id)))
    case Sweep(ids) => sys.(api := ExpireRows(s, now, ids, HoldExpiredSweeper))
    case Tick(to) => sys.(now := to)
    case Publish(policy) => sys.(api := s.(policies := s.policies + [policy]))
    case Lose(_) => sys
  }

  /** Instructions a move put out; one of nothing is never sent. */
  function NewCalls(sys: System, after: System): set<Instruction> {
    set i | i in after.sent && i !in sys.sent && i.amountMinor > 0
  }

  function Without(live: Underway, item: InFlight): Underway {
    match item
    case Settlement(id) => live.(settlements := live.settlements - {id})
    case RefundCall(i) => live.(refundCalls := live.refundCalls - {i})
    case AwaitedAnswer(i) => live.(awaited := live.awaited - {i})
    case Handler(task) => live.(tasks := live.tasks - {task})
    case Attempts(index) => live.(dispatches := live.dispatches - {index})
  }

  /** What a move ends, before what it starts. */
  function Ended(sys: System, m: Move): Underway {
    match m
    case ProviderMoves(PostRefund(r, _)) =>
      sys.live.(refundCalls := set i | i in sys.live.refundCalls && i.key != r.key)
    case HearRefund(i, _) => Without(sys.live, AwaitedAnswer(i))
    case RefundFails(i) => Without(sys.live, AwaitedAnswer(i))
    case SettleCancelled(id) => Without(sys.live, Settlement(id))
    case Lose(item) => Without(sys.live, item)
    case _ => sys.live
  }

  /** What is under way after a move: what was, less what it ended, plus what it started; a step logs at most one dispatch. */
  function LiveAfter(sys: System, m: Move, after: System): Underway {
    var live := Ended(sys, m);
    Underway(
      live.settlements + (after.cancelled - sys.cancelled),
      live.refundCalls + NewCalls(sys, after),
      live.awaited + NewCalls(sys, after),
      live.tasks + (if m.ProviderMoves? then P.Started(sys.provider, m.step) else {}),
      live.dispatches + if |after.provider.log| > |sys.provider.log| then {|sys.provider.log|} else {})
  }

  ghost function Next(w: World, sys: System, m: Move): System
    requires ValidConfig(w.cfg) && Possible(w, sys, m)
  {
    var after := Moved(w, sys, m);
    after.(live := LiveAfter(sys, m, after))
  }

  function Paid(sys: System, id: BookingId, r: Result<Prepared, Refusal>): System {
    match r
    case Err(_) => sys
    case Ok(Prepared(after, alreadySettled)) =>
      if alreadySettled || ChargeKey(id) !in after.payments then sys.(api := after)
      else sys.(api := after, calls := sys.calls + {Call(id, after.payments[ChargeKey(id)].amountMinor)})
  }

  function Cancelled(sys: System, id: BookingId, r: Result<Api, Refusal>): System {
    match r
    case Err(_) => sys
    case Ok(after) => sys.(api := after, cancelled := sys.cancelled + {id})
  }

  predicate Initial(sys: System) {
    && sys.api.bookings == [] && sys.api.audit == [] && sys.api.payments == map[] && sys.api.events == map[]
    && sys.api.deliveries == [] && sys.provider == P.EMPTY
    && sys.calls == {} && sys.sent == {} && sys.cancelled == {} && sys.told == {} && sys.live == NOTHING_LIVE
  }

  ghost predicate Steps(w: World, sys: System, sys': System)
    requires ValidConfig(w.cfg)
  {
    exists m :: Possible(w, sys, m) && sys' == Next(w, sys, m)
  }

  /** Any number of moves, in any order, from an empty system. */
  ghost predicate Run(w: World, states: seq<System>)
    requires ValidConfig(w.cfg)
  {
    && |states| > 0 && Initial(states[0])
    && forall i :: 0 <= i < |states| - 1 ==> Steps(w, states[i], states[i + 1])
  }
}
