/**
 * The provider's request handlers over its ledger. A handler is several atomic
 * ledger operations; between any two of them other handlers may run or the
 * process may die. A task is what a handler still has to do. Tasks are never
 * removed, so every interleaving and repetition is covered, and a crash is a
 * task that is never run; the composed system also tracks which are still running.
 */
module Paygate {
  import opened Wrappers
  import opened Ids
  import L = Ledger
  import Memory = MemoryLedger

  /** One decision to send webhooks: it may become any number of deliveries. */
  datatype Dispatch =
    | ChargeOutcome(chargeId: ChargeId, reference: BookingId, succeeded: bool, amountMinor: nat)
    | RefundDone(refundId: RefundId, chargeId: ChargeId, reference: BookingId, amountMinor: nat)

  datatype Task =
    | Recover(chargeId: ChargeId, key: Key, correlationId: Option<nat>)
    | Materialise(chargeId: ChargeId)
    | SettleRefund(refundId: RefundId)

  /** A 202 on its way back, naming the resource. */
  datatype Answer = ChargeAnswer(key: Key, chargeId: ChargeId) | RefundAnswer(key: Key, refundId: RefundId)

  datatype Provider = Provider(ledger: L.State, tasks: set<Task>, log: seq<Dispatch>, answers: set<Answer>)

  const EMPTY: Provider := Provider(L.State(map[], map[], map[]), {}, [], {})

  datatype Step =
    | PostCharge(charge: L.ChargeRequest, newChargeId: ChargeId)
    | PostRefund(refund: L.RefundRequest, newRefundId: RefundId)
    | RunTask(task: Task)

  function OutcomeFor(amountMinor: nat, declineAmount: int): L.ChargeStatus {
    if amountMinor == declineAmount then L.Failed else L.Succeeded
  }

  function AfterPostCharge(p: Provider, r: L.ChargeRequest, newId: ChargeId): Provider {
    var (ledger, reply) := L.OpenCharge(p.ledger, r, newId);
    var p' := p.(ledger := ledger);
    match reply
    case Created(id) => if r.transientFailure then p' else p'.(tasks := p'.tasks + {Materialise(id)})
    case Replayed(id, record) =>
      if record.outcome == L.Failed500 then p'.(tasks := p'.tasks + {Recover(id, r.key, r.correlationId)})
      else p'.(answers := p'.answers + {ChargeAnswer(r.key, id)})
    case _ => p'
  }

  function AfterPostRefund(p: Provider, r: L.RefundRequest, newId: RefundId): Provider {
    var (ledger, reply) := L.OpenRefund(p.ledger, r, newId);
    var p' := p.(ledger := ledger);
    match reply
    case Created(id) => p'.(tasks := p'.tasks + {SettleRefund(id)})
    case Replayed(id, record) => p'.(answers := p'.answers + {RefundAnswer(r.key, id)})
    case _ => p'
  }

  /** Decide the outcome once; only the caller that decided it dispatches; everyone answers 202. */
  function AfterMaterialise(p: Provider, id: ChargeId, declineAmount: int): Provider
    requires id in p.ledger.charges
  {
    var c := p.ledger.charges[id];
    var (ledger, settled) := L.MaterialiseCharge(p.ledger, id, OutcomeFor(c.amountMinor, declineAmount));
    p.(ledger := ledger,
       log := if settled then p.log + [ChargeOutcome(id, c.reference, c.amountMinor != declineAmount, c.amountMinor)] else p.log,
       answers := p.answers + {ChargeAnswer(c.key, id)})
  }

  function AfterSettleRefund(p: Provider, id: RefundId): Provider
    requires id in p.ledger.refunds
  {
    var r := p.ledger.refunds[id];
    var (ledger, settled) := L.MaterialiseRefund(p.ledger, id);
    p.(ledger := ledger,
       log := if settled then p.log + [RefundDone(id, r.chargeId, r.reference, r.amountMinor)] else p.log,
       answers := p.answers + {RefundAnswer(r.key, id)})
  }

  predicate Enabled(p: Provider, step: Step) {
    match step
    case PostCharge(r, newId) => r.amountMinor > 0 && newId !in p.ledger.charges
    case PostRefund(r, newId) => r.amountMinor > 0 && newId !in p.ledger.refunds
    case RunTask(task) =>
      && task in p.tasks
      && (task.Materialise? ==> task.chargeId in p.ledger.charges)
      && (task.SettleRefund? ==> task.refundId in p.ledger.refunds)
  }

  /** The handlers a step leaves running: what they still have to do. */
  function Started(p: Provider, step: Step): set<Task> {
    match step
    case PostCharge(r, newId) =>
      (match L.OpenCharge(p.ledger, r, newId).1
       case Created(id) => if r.transientFailure then {} else {Materialise(id)}
       case Replayed(id, record) => if record.outcome == L.Failed500 then {Recover(id, r.key, r.correlationId)} else {}
       case _ => {})
    case PostRefund(r, newId) =>
      (match L.OpenRefund(p.ledger, r, newId).1
       case Created(id) => {SettleRefund(id)}
       case _ => {})
    case RunTask(Recover(id, _, _)) => {Materialise(id)}
    case RunTask(_) => {}
  }

  /** A step adds to the tasks ever started just the ones it starts. */
  lemma StepStarts(p: Provider, step: Step, declineAmount: int)
    requires Enabled(p, step)
    ensures Next(p, step, declineAmount).tasks == p.tasks + Started(p, step)
  {
  }

  function Next(p: Provider, step: Step, declineAmount: int): Provider
    requires Enabled(p, step)
  {
    match step
    case PostCharge(r, newId) => AfterPostCharge(p, r, newId)
    case PostRefund(r, newId) => AfterPostRefund(p, r, newId)
    case RunTask(Recover(id, key, correlationId)) =>
      p.(ledger := L.RecoverFromTransientFailure(p.ledger, id, key, correlationId), tasks := p.tasks + {Materialise(id)})
    case RunTask(Materialise(id)) => AfterMaterialise(p, id, declineAmount)
    case RunTask(SettleRefund(id)) => AfterSettleRefund(p, id)
  }

  // --- What every provider run keeps ----------------------------------------

  predicate TaskOk(ledger: L.State, t: Task) {
    match t
    case Recover(id, key, _) => id in ledger.charges && ledger.charges[id].key == key
    case Materialise(id) =>
      && id in ledger.charges && L.ChargeSlot(ledger.charges[id].key) in ledger.idempotency
      && ledger.idempotency[L.ChargeSlot(ledger.charges[id].key)].outcome == L.Accepted
    case SettleRefund(id) => id in ledger.refunds
  }

  predicate AnswerOk(ledger: L.State, a: Answer) {
    match a
    case ChargeAnswer(key, id) => id in ledger.charges && ledger.charges[id].key == key
    case RefundAnswer(key, id) => id in ledger.refunds && ledger.refunds[id].key == key
  }

  /** What a dispatch announces is what the ledger decided. */
  predicate Truthful(ledger: L.State, d: Dispatch) {
    match d
    case ChargeOutcome(id, reference, succeeded, amount) =>
      && id in ledger.charges && ledger.charges[id].reference == reference && ledger.charges[id].amountMinor == amount
      && ledger.charges[id].materialised && ledger.charges[id].status == (if succeeded then L.Succeeded else L.Failed)
    case RefundDone(id, chargeId, reference, amount) =>
      && id in ledger.refunds && ledger.refunds[id].materialised && ledger.refunds[id].chargeId == chargeId
      && ledger.refunds[id].reference == reference && ledger.refunds[id].amountMinor == amount
  }

  predicate SameSubject(a: Dispatch, b: Dispatch) {
    || (a.ChargeOutcome? && b.ChargeOutcome? && a.chargeId == b.chargeId)
    || (a.RefundDone? && b.RefundDone? && a.refundId == b.refundId)
  }

  ghost predicate AllTasksOk(p: Provider) { forall t :: t in p.tasks ==> TaskOk(p.ledger, t) }

  ghost predicate AllAnswersOk(p: Provider) { forall a :: a in p.answers ==> AnswerOk(p.ledger, a) }

  /** Dispatches tell the truth, and each charge and each refund is dispatched at most once. */
  ghost predicate LogOk(p: Provider) {
    && (forall i :: 0 <= i < |p.log| ==> Truthful(p.ledger, p.log[i]))
    && (forall i, j :: 0 <= i < j < |p.log| ==> !SameSubject(p.log[i], p.log[j]))
  }

  /** An unfinished charge or refund has not been announced; a finished one has its amount's outcome. */
  ghost predicate OutcomesOk(p: Provider, declineAmount: int) {
    forall id :: id in p.ledger.charges && p.ledger.charges[id].materialised ==>
      p.ledger.charges[id].status == OutcomeFor(p.ledger.charges[id].amountMinor, declineAmount)
      && p.ledger.charges[id].amountMinor >= 0
  }

  predicate AnnouncesCharge(d: Dispatch, id: ChargeId) { d.ChargeOutcome? && d.chargeId == id }

  predicate AnnouncesRefund(d: Dispatch, id: RefundId) { d.RefundDone? && d.refundId == id }

  ghost predicate ChargeAnnounced(p: Provider, id: ChargeId) {
    exists i :: 0 <= i < |p.log| && AnnouncesCharge(p.log[i], id)
  }

  ghost predicate RefundAnnounced(p: Provider, id: RefundId) {
    exists i :: 0 <= i < |p.log| && AnnouncesRefund(p.log[i], id)
  }

  /** Whatever was decided was announced; a settled refund was answered for as well. */
  ghost predicate AllAnnounced(p: Provider) {
    && (forall id :: id in p.ledger.charges && p.ledger.charges[id].materialised ==> ChargeAnnounced(p, id))
    && (forall id :: id in p.ledger.refunds && p.ledger.refunds[id].materialised ==>
          RefundAnnounced(p, id) && RefundAnswer(p.ledger.refunds[id].key, id) in p.answers)
  }

  ghost predicate ProviderSound(p: Provider, declineAmount: int) {
    L.LedgerOk(p.ledger) && AllTasksOk(p) && AllAnswersOk(p) && LogOk(p) && OutcomesOk(p, declineAmount)
  }

  ghost predicate ProviderOk(p: Provider, declineAmount: int) { ProviderSound(p, declineAmount) && AllAnnounced(p) }

  /** Exactly one announcement for a charge or refund that is decided, and none for one that is not. */
  ghost predicate AnnouncedExactlyOnce(p: Provider) {
    && (forall id :: id in p.ledger.charges ==> (p.ledger.charges[id].materialised <==> ChargeAnnounced(p, id)))
    && (forall id :: id in p.ledger.refunds ==> (p.ledger.refunds[id].materialised <==> RefundAnnounced(p, id)))
    && (forall i, j :: 0 <= i < j < |p.log| ==> !SameSubject(p.log[i], p.log[j]))
  }

  lemma ProviderAnnouncesExactlyOnce(p: Provider)
    requires LogOk(p) && AllAnnounced(p)
    ensures AnnouncedExactlyOnce(p)
  {
    forall id | id in p.ledger.charges && ChargeAnnounced(p, id) ensures p.ledger.charges[id].materialised {
      var i :| 0 <= i < |p.log| && AnnouncesCharge(p.log[i], id);
      assert Truthful(p.ledger, p.log[i]);
    }
    forall id | id in p.ledger.refunds && RefundAnnounced(p, id) ensures p.ledger.refunds[id].materialised {
      var i :| 0 <= i < |p.log| && AnnouncesRefund(p.log[i], id);
      assert Truthful(p.ledger, p.log[i]);
    }
  }

  /** Nothing is decided, and nothing already said is unsaid. */
  lemma UndecidedKeepsAnnounced(p: Provider, p': Provider)
    requires AllAnnounced(p) && p'.log == p.log && p.answers <= p'.answers
    requires forall id :: id in p'.ledger.charges && p'.ledger.charges[id].materialised ==>
      id in p.ledger.charges && p.ledger.charges[id].materialised
    requires forall id :: id in p'.ledger.refunds && p'.ledger.refunds[id].materialised ==>
      id in p.ledger.refunds && p.ledger.refunds[id].materialised && p.ledger.refunds[id].key == p'.ledger.refunds[id].key
    ensures AllAnnounced(p')
  {
    forall id | id in p'.ledger.charges && p'.ledger.charges[id].materialised ensures ChargeAnnounced(p', id) {
      assert ChargeAnnounced(p, id);
    }
    forall id | id in p'.ledger.refunds && p'.ledger.refunds[id].materialised ensures RefundAnnounced(p', id) {
      assert RefundAnnounced(p, id);
    }
  }

  /** Deciding is what announces: the entry is appended exactly when the outcome is. */
  lemma MaterialiseAnnounces(p: Provider, id: ChargeId, declineAmount: int)
    requires AllAnnounced(p) && id in p.ledger.charges
    ensures AllAnnounced(AfterMaterialise(p, id, declineAmount))
  {
    var p' := AfterMaterialise(p, id, declineAmount);
    forall c | c in p'.ledger.charges && p'.ledger.charges[c].materialised ensures ChargeAnnounced(p', c) {
      if c == id && !p.ledger.charges[id].materialised {
        assert AnnouncesCharge(p'.log[|p.log|], id);
      } else {
        var i :| 0 <= i < |p.log| && AnnouncesCharge(p.log[i], c);
        assert AnnouncesCharge(p'.log[i], c);
      }
    }
    forall r | r in p'.ledger.refunds && p'.ledger.refunds[r].materialised ensures RefundAnnounced(p', r) {
      var i :| 0 <= i < |p.log| && AnnouncesRefund(p.log[i], r);
      assert AnnouncesRefund(p'.log[i], r);
    }
  }

  lemma SettleAnnounces(p: Provider, id: RefundId)
    requires AllAnnounced(p) && id in p.ledger.refunds
    ensures AllAnnounced(AfterSettleRefund(p, id))
  {
    var p' := AfterSettleRefund(p, id);
    forall c | c in p'.ledger.charges && p'.ledger.charges[c].materialised ensures ChargeAnnounced(p', c) {
      var i :| 0 <= i < |p.log| && AnnouncesCharge(p.log[i], c);
      assert AnnouncesCharge(p'.log[i], c);
    }
    forall r | r in p'.ledger.refunds && p'.ledger.refunds[r].materialised ensures RefundAnnounced(p', r) {
      if r == id && !p.ledger.refunds[id].materialised {
        assert AnnouncesRefund(p'.log[|p.log|], id);
      } else {
        var i :| 0 <= i < |p.log| && AnnouncesRefund(p.log[i], r);
        assert AnnouncesRefund(p'.log[i], r);
      }
    }
  }

  lemma StepKeepsAnnounced(p: Provider, step: Step, declineAmount: int)
    requires AllAnnounced(p) && Enabled(p, step)
    ensures AllAnnounced(Next(p, step, declineAmount))
  {
    match step
    case RunTask(Materialise(id)) => MaterialiseAnnounces(p, id, declineAmount);
    case RunTask(SettleRefund(id)) => SettleAnnounces(p, id);
    case _ => OtherStepsKeepAnnounced(p, step, declineAmount);
  }

  lemma OtherStepsKeepAnnounced(p: Provider, step: Step, declineAmount: int)
    requires AllAnnounced(p) && Enabled(p, step)
    requires step.RunTask? ==> step.task.Recover?
    ensures AllAnnounced(Next(p, step, declineAmount))
  {
    hide AllAnnounced;
    UndecidedKeepsAnnounced(p, Next(p, step, declineAmount));
  }

  lemma GrowthKeepsPromises(p: Provider, ledger: L.State)
    requires AllTasksOk(p) && AllAnswersOk(p) && LogOk(p) && L.Grows(p.ledger, ledger)
    ensures var p' := p.(ledger := ledger); AllTasksOk(p') && AllAnswersOk(p') && LogOk(p')
  {
    var p' := p.(ledger := ledger);
    forall t | t in p.tasks ensures TaskOk(ledger, t) {
      assert TaskOk(p.ledger, t);
      if t.Materialise? {
        assert L.ChargeGrows(p.ledger.charges[t.chargeId], ledger.charges[t.chargeId]);
        var slot := L.ChargeSlot(p.ledger.charges[t.chargeId].key);
        assert L.RecordGrows(p.ledger.idempotency[slot], ledger.idempotency[slot]);
      }
    }
    forall a | a in p.answers ensures AnswerOk(ledger, a) { assert AnswerOk(p.ledger, a); }
    forall i | 0 <= i < |p.log| ensures Truthful(ledger, p.log[i]) { assert Truthful(p.ledger, p.log[i]); }
  }

  lemma PostChargeKeeps(p: Provider, r: L.ChargeRequest, newId: ChargeId, declineAmount: int)
    requires ProviderSound(p, declineAmount) && newId !in p.ledger.charges
    ensures ProviderSound(AfterPostCharge(p, r, newId), declineAmount)
    ensures L.Grows(p.ledger, AfterPostCharge(p, r, newId).ledger)
  {
    hide L.LedgerOk;
    L.OpenChargeKeeps(p.ledger, r, newId);
    L.OpenChargeAnswers(p.ledger, r, newId);
    GrowthKeepsPromises(p, L.OpenCharge(p.ledger, r, newId).0);
  }

  lemma PostRefundKeeps(p: Provider, r: L.RefundRequest, newId: RefundId, declineAmount: int)
    requires ProviderSound(p, declineAmount) && newId !in p.ledger.refunds
    ensures ProviderSound(AfterPostRefund(p, r, newId), declineAmount)
    ensures L.Grows(p.ledger, AfterPostRefund(p, r, newId).ledger)
  {
    hide L.LedgerOk;
    L.OpenRefundKeeps(p.ledger, r, newId);
    L.OpenRefundAnswers(p.ledger, r, newId);
    GrowthKeepsPromises(p, L.OpenRefund(p.ledger, r, newId).0);
    RefundsKeepOutcomes(p.ledger, r, newId);
  }

  lemma RefundsKeepOutcomes(ledger: L.State, r: L.RefundRequest, newId: RefundId)
    ensures var ledger' := L.OpenRefund(ledger, r, newId).0;
            && ledger'.charges.Keys == ledger.charges.Keys
            && forall id :: id in ledger.charges ==>
                 ledger'.charges[id].materialised == ledger.charges[id].materialised
                 && ledger'.charges[id].status == ledger.charges[id].status
                 && ledger'.charges[id].amountMinor == ledger.charges[id].amountMinor
  {
  }

  lemma RecoverKeeps(p: Provider, id: ChargeId, key: Key, correlationId: Option<nat>, declineAmount: int)
    requires ProviderSound(p, declineAmount) && Recover(id, key, correlationId) in p.tasks
    ensures var p' := Next(p, RunTask(Recover(id, key, correlationId)), declineAmount);
            ProviderSound(p', declineAmount) && L.Grows(p.ledger, p'.ledger)
  {
    hide L.LedgerOk, Truthful, AnswerOk, SameSubject;
    assert TaskOk(p.ledger, Recover(id, key, correlationId));
    L.RecoverKeeps(p.ledger, id, key, correlationId);
    GrowthKeepsPromises(p, L.RecoverFromTransientFailure(p.ledger, id, key, correlationId));
    ChargeHasItsRecord(p.ledger, id);
  }

  lemma ChargeHasItsRecord(ledger: L.State, id: ChargeId)
    requires L.LedgerOk(ledger) && id in ledger.charges
    ensures L.ChargeSlot(ledger.charges[id].key) in ledger.idempotency
  {
    assert L.Claimed(ledger.idempotency, id, ledger.charges[id]);
  }

  lemma MaterialiseKeeps(p: Provider, id: ChargeId, declineAmount: int)
    requires ProviderSound(p, declineAmount) && Materialise(id) in p.tasks
    ensures var p' := Next(p, RunTask(Materialise(id)), declineAmount);
            ProviderSound(p', declineAmount) && L.Grows(p.ledger, p'.ledger)
  {
    hide L.LedgerOk;
    assert TaskOk(p.ledger, Materialise(id));
    var status := OutcomeFor(p.ledger.charges[id].amountMinor, declineAmount);
    L.MaterialiseChargeKeeps(p.ledger, id, status);
    GrowthKeepsPromises(p, L.MaterialiseCharge(p.ledger, id, status).0);
    forall i | 0 <= i < |p.log| ensures Truthful(p.ledger, p.log[i]) {}
  }

  lemma SettleRefundKeeps(p: Provider, id: RefundId, declineAmount: int)
    requires ProviderSound(p, declineAmount) && SettleRefund(id) in p.tasks
    ensures var p' := Next(p, RunTask(SettleRefund(id)), declineAmount);
            ProviderSound(p', declineAmount) && L.Grows(p.ledger, p'.ledger)
  {
    hide L.LedgerOk;
    assert TaskOk(p.ledger, SettleRefund(id));
    L.MaterialiseRefundKeeps(p.ledger, id);
    GrowthKeepsPromises(p, L.MaterialiseRefund(p.ledger, id).0);
    forall i | 0 <= i < |p.log| ensures Truthful(p.ledger, p.log[i]) {}
  }

  /**
   * Every request, task, repetition and interleaving keeps the provider
   * consistent: records resolve, amounts never change, every decided charge and
   * refund is announced exactly once, and the refunded total is the sum of the refunds.
   */
  lemma ProviderStepKeeps(p: Provider, step: Step, declineAmount: int)
    requires ProviderOk(p, declineAmount) && Enabled(p, step)
    ensures ProviderOk(Next(p, step, declineAmount), declineAmount)
    ensures L.Grows(p.ledger, Next(p, step, declineAmount).ledger)
    ensures p.log <= Next(p, step, declineAmount).log && AnnouncedExactlyOnce(Next(p, step, declineAmount))
  {
    hide L.LedgerOk, LogOk, AllTasksOk, AllAnswersOk, AllAnnounced, AnnouncedExactlyOnce;
    StepKeepsAnnounced(p, step, declineAmount);
    match step {
      case PostCharge(r, newId) => PostChargeKeeps(p, r, newId, declineAmount);
      case PostRefund(r, newId) => PostRefundKeeps(p, r, newId, declineAmount);
      case RunTask(Recover(id, key, correlationId)) => RecoverKeeps(p, id, key, correlationId, declineAmount);
      case RunTask(Materialise(id)) => MaterialiseKeeps(p, id, declineAmount);
      case RunTask(SettleRefund(id)) => SettleRefundKeeps(p, id, declineAmount);
    }
    ProviderAnnouncesExactlyOnce(Next(p, step, declineAmount));
  }

  ghost predicate Run(states: seq<Provider>, steps: seq<Step>, declineAmount: int) {
    && |states| == |steps| + 1 && states[0] == EMPTY
    && forall i :: 0 <= i < |steps| ==>
         Enabled(states[i], steps[i]) && states[i + 1] == Next(states[i], steps[i], declineAmount)
  }

  lemma {:induction false} RunsKeep(states: seq<Provider>, steps: seq<Step>, declineAmount: int, n: nat)
    requires Run(states, steps, declineAmount) && n < |states|
    ensures ProviderOk(states[n], declineAmount)
  {
    hide ProviderOk, Enabled, Next;
    if n == 0 {
      EmptyIsOk(declineAmount);
    } else {
      RunsKeep(states, steps, declineAmount, n - 1);
      ProviderStepKeeps(states[n - 1], steps[n - 1], declineAmount);
    }
  }

  lemma EmptyIsOk(declineAmount: int)
    ensures ProviderOk(EMPTY, declineAmount)
  {
  }

  /**
   * Over any sequence of requests, retries and interleaved handlers: what a
   * resource is for and how much never changes, an outcome once decided stays,
   * and each decided charge and refund has been announced exactly once, for
   * ever, a charge that was first answered 500 included.
   */
  lemma {:induction false} RunsOnlyGrow(states: seq<Provider>, steps: seq<Step>, declineAmount: int, i: nat, j: nat)
    requires Run(states, steps, declineAmount) && i <= j < |states|
    ensures L.Grows(states[i].ledger, states[j].ledger) && states[i].log <= states[j].log
    ensures L.LedgerOk(states[j].ledger) && LogOk(states[j]) && AnnouncedExactlyOnce(states[j])
    decreases j
  {
    hide L.LedgerOk, L.Grows, Enabled, Next, LogOk, AllTasksOk, AllAnswersOk, OutcomesOk, AllAnnounced, AnnouncedExactlyOnce;
    RunsKeep(states, steps, declineAmount, j);
    ProviderAnnouncesExactlyOnce(states[j]);
    if i < j {
      RunsOnlyGrow(states, steps, declineAmount, i, j - 1);
      RunsKeep(states, steps, declineAmount, j - 1);
      ProviderStepKeeps(states[j - 1], steps[j - 1], declineAmount);
      L.GrowsTransitive(states[i].ledger, states[j - 1].ledger, states[j].ledger);
    } else {
      L.StandsStill(states[i].ledger);
    }
  }

  // --- One handler, run to its end ------------------------------------------

  /** The whole POST /charges handler with nothing interleaved: its answer and the state it leaves. */
  function ChargeHandled(p: Provider, r: L.ChargeRequest, newId: ChargeId, declineAmount: int): (nat, Provider) {
    var (ledger, reply) := L.OpenCharge(p.ledger, r, newId);
    var p' := AfterPostCharge(p, r, newId);
    match reply
    case Created(id) => if r.transientFailure then (500, p') else (202, AfterMaterialise(p', id, declineAmount))
    case Replayed(id, record) =>
      if record.outcome == L.Failed500 then
        var recovered := p'.(ledger := L.RecoverFromTransientFailure(p'.ledger, id, r.key, r.correlationId),
                             tasks := p'.tasks + {Materialise(id)});
        (202, if id in recovered.ledger.charges then AfterMaterialise(recovered, id, declineAmount) else recovered)
      else (202, p')
    case FingerprintMismatch => (409, p')
    case _ => (500, p')
  }

  /** The one line a charge of that amount gets in the log: declined exactly at the declining amount. */
  function TheOutcome(id: ChargeId, r: L.ChargeRequest, declineAmount: int): Dispatch {
    ChargeOutcome(id, r.reference, r.amountMinor != declineAmount, r.amountMinor)
  }

  predicate DecidedAs(ledger: L.State, id: ChargeId, r: L.ChargeRequest, declineAmount: int) {
    && id in ledger.charges && ledger.charges[id].materialised && ledger.charges[id].amountMinor == r.amountMinor
    && ledger.charges[id].status == (if r.amountMinor == declineAmount then L.Failed else L.Succeeded)
  }

  /** The same request, whatever its correlation id and its failure flag. */
  predicate SameRequest(r: L.ChargeRequest, again: L.ChargeRequest) {
    again.key == r.key && again.reference == r.reference && again.amountMinor == r.amountMinor
  }

  /**
   * A first request under a key opens its charge. Unless it asked to fail it is
   * decided and announced there and then; if it did, it is answered 500 and left
   * open.
   */
  lemma FirstRequest(p: Provider, r: L.ChargeRequest, newId: ChargeId, declineAmount: int)
    requires newId !in p.ledger.charges && L.ChargeSlot(r.key) !in p.ledger.idempotency
    ensures var (code, after) := ChargeHandled(p, r, newId, declineAmount);
            && after.ledger.charges.Keys == p.ledger.charges.Keys + {newId}
            && (if r.transientFailure then code == 500 && after.log == p.log && !after.ledger.charges[newId].materialised
                else code == 202 && after.log == p.log + [TheOutcome(newId, r, declineAmount)]
                     && DecidedAs(after.ledger, newId, r, declineAmount))
  {
  }

  /**
   * Whatever the first request under a key came to, a second one, asking for the
   * same or anything else, opens no second charge. The same request is answered
   * 202 with the charge decided and announced exactly once in all; a different
   * one is answered 409 and changes nothing.
   */
  lemma RetriedRequest(
      p: Provider, r: L.ChargeRequest, newId: ChargeId, again: L.ChargeRequest, otherId: ChargeId, declineAmount: int)
    requires newId !in p.ledger.charges && L.ChargeSlot(r.key) !in p.ledger.idempotency && again.key == r.key
    ensures var first := ChargeHandled(p, r, newId, declineAmount).1;
            var (code, after) := ChargeHandled(first, again, otherId, declineAmount);
            if SameRequest(r, again)
            then code == 202 && after.ledger.charges.Keys == p.ledger.charges.Keys + {newId}
                 && after.log == p.log + [TheOutcome(newId, r, declineAmount)] && DecidedAs(after.ledger, newId, r, declineAmount)
            else code == 409 && after == first
  {
    FirstRequest(p, r, newId, declineAmount);
  }

  class PaygateApp {
    const ledger: Memory.MemoryLedger
    const declineAmount: int
    var log: seq<Dispatch>
    ghost var tasks: set<Task>
    ghost var answers: set<Answer>

    constructor (declineAmount: int)
      ensures fresh(ledger) && State() == EMPTY && this.declineAmount == declineAmount
    {
      this.ledger := new Memory.MemoryLedger();
      this.declineAmount := declineAmount;
      log, tasks, answers := [], {}, {};
    }

    ghost function State(): Provider
      reads this, ledger
    {
      Provider(ledger.State(), tasks, log, answers)
    }

    /** The ledger's conditional update decides who dispatches. */
    method MaterialiseCharge(id: ChargeId)
      requires id in ledger.charges
      modifies this, ledger
      ensures State() == AfterMaterialise(old(State()), id, declineAmount)
    {
      var charge := ledger.charges[id];
      var status := if charge.amountMinor == declineAmount then L.Failed else L.Succeeded;
      var settled := ledger.MaterialiseCharge(id, status);
      answers := answers + {ChargeAnswer(charge.key, id)};
      if !settled { return; }
      log := log + [ChargeOutcome(id, charge.reference, status == L.Succeeded, charge.amountMinor)];
    }

    method PostCharges(r: L.ChargeRequest, newId: ChargeId) returns (code: nat)
      requires r.amountMinor > 0
      modifies this, ledger
      ensures (code, State()) == ChargeHandled(old(State()), r, newId, declineAmount)
    {
      code := 500;
      var reply := ledger.OpenCharge(r, newId);
      match reply
      case FingerprintMismatch => return 409;
      case Replayed(id, record) =>
        if record.outcome == L.Failed500 {
          tasks := tasks + {Recover(id, r.key, r.correlationId)} + {Materialise(id)};
          ledger.RecoverFromTransientFailure(id, r.key, r.correlationId);
          MaterialiseCharge(id);
        } else {
          answers := answers + {ChargeAnswer(r.key, id)};
        }
        return 202;
      case Created(id) =>
        if r.transientFailure { return 500; }
        tasks := tasks + {Materialise(id)};
        MaterialiseCharge(id);
        return 202;
      case _ =>
    }

    method PostRefunds(r: L.RefundRequest, newId: RefundId) returns (code: nat)
      requires r.amountMinor > 0
      modifies this, ledger
      ensures var (after, reply) := L.OpenRefund(old(ledger.State()), r, newId);
              match reply
              case Created(id) => code == 202 && State() == AfterSettleRefund(AfterPostRefund(old(State()), r, newId), id)
              case Replayed(_, _) => code == 202 && State() == AfterPostRefund(old(State()), r, newId)
              case UnknownCharge => code == 404 && State() == old(State())
              case FingerprintMismatch => code == 409 && State() == old(State())
              case NotRefundable(_) => code == 409 && State() == old(State())
              case ExceedsCharge(_, _) => code == 422 && State() == old(State())
              case Broken => code == 500
    {
      var reply := ledger.OpenRefund(r, newId);
      match reply
      case FingerprintMismatch => return 409;
      case UnknownCharge => return 404;
      case NotRefundable(_) => return 409;
      case ExceedsCharge(_, _) => return 422;
      case Replayed(id, _) =>
        answers := answers + {RefundAnswer(r.key, id)};
        return 202;
      case Created(id) =>
        tasks := tasks + {SettleRefund(id)};
        var refund := ledger.refunds[id];
        var settled := ledger.MaterialiseRefund(id);
        answers := answers + {RefundAnswer(refund.key, id)};
        if settled { log := log + [RefundDone(id, refund.chargeId, refund.reference, refund.amountMinor)]; }
        return 202;
      case Broken => return 500;
    }
  }
}
