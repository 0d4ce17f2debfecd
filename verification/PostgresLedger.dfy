/**
 * The ledger over Postgres, statement by statement. Each operation is a
 * transaction of several statements; any number of them interleave, take row
 * locks, wait, or vanish. Rows a transaction writes are its own until it
 * commits, and a committed row is never deleted.
 */
module PostgresLedger {
  import opened Wrappers
  import opened Ids
  import L = Ledger

  datatype Request =
    | OpenCharge(charge: L.ChargeRequest)
    | OpenRefund(refund: L.RefundRequest)
    | Recover(chargeId: ChargeId, key: Key, correlationId: Option<nat>)

  /** How far a transaction is, with the rows it has read or written so far. */
  datatype Phase =
    | Begun
    | Claimed
    | Lost
    | Selected(record: L.Record)
    | Mismatched
    | Bumped(record: L.Record)
    | Loaded(record: L.Record)
    | ChargeInserted
    | ChargeLocked(charge: L.Charge)
    | Refused(refusal: L.OpenResult)
    | RefundInserted(charge: L.Charge)
    | Reserved(charge: L.Charge)
    | OutcomeSet
    | CorrelationSet(charge: L.Charge)

  datatype Tx = Tx(request: Request, newId: nat, phase: Phase)

  datatype Postgres = Postgres(db: L.State, txs: map<nat, Tx>)

  datatype Step =
    | Begin(t: nat, request: Request, newId: nat)
    | Claim(t: nat)
    | SelectForUpdate(t: nat)
    | BumpReplays(t: nat)
    | LoadResource(t: nat)
    | InsertCharge(t: nat)
    | ReadCharge(t: nat)
    | InsertRefund(t: nat)
    | ReserveAmount(t: nat)
    | SetOutcome(t: nat)
    | SetCorrelation(t: nat)
    | Commit(t: nat)
    | Abort(t: nat)
    | MaterialiseCharge(chargeId: ChargeId, status: L.ChargeStatus)
    | MaterialiseRefund(refundId: RefundId)

  function SlotOf(q: Request): L.Slot {
    match q
    case OpenCharge(r) => L.ChargeSlot(r.key)
    case OpenRefund(r) => L.RefundSlot(r.key)
    case Recover(_, key, _) => L.ChargeSlot(key)
  }

  function RefundRecord(r: L.RefundRequest, id: RefundId): L.Record {
    L.Record(id, L.RefundBody(r.chargeId, r.amountMinor), L.Accepted, 0)
  }

  predicate SameBody(q: Request, fingerprint: L.Fingerprint) {
    match q
    case OpenCharge(r) => fingerprint == L.ChargeBody(r.reference, r.amountMinor)
    case OpenRefund(r) => fingerprint == L.RefundBody(r.chargeId, r.amountMinor)
    case Recover(_, _, _) => false
  }

  /** A row lock, or an index entry not yet committed: others wait for either. */
  predicate HoldsSlot(tx: Tx, slot: L.Slot) { !tx.phase.Begun? && !tx.phase.Lost? && SlotOf(tx.request) == slot }

  predicate HoldsCharge(tx: Tx, id: ChargeId) {
    match tx.phase
    case ChargeLocked(_) => tx.request.OpenRefund? && tx.request.refund.chargeId == id
    case RefundInserted(_) => tx.request.OpenRefund? && tx.request.refund.chargeId == id
    case Reserved(_) => tx.request.OpenRefund? && tx.request.refund.chargeId == id
    case CorrelationSet(_) => tx.request.Recover? && tx.request.chargeId == id
    case _ => false
  }

  predicate SlotUnlocked(pg: Postgres, t: nat, slot: L.Slot) {
    forall u :: u in pg.txs && u != t ==> !HoldsSlot(pg.txs[u], slot)
  }

  predicate ChargeUnlocked(pg: Postgres, t: nat, id: ChargeId) {
    forall u :: u in pg.txs && u != t ==> !HoldsCharge(pg.txs[u], id)
  }

  /** A fresh random id: in no committed row and in no other transaction. */
  predicate Unused(db: L.State, id: nat) {
    id !in db.charges && id !in db.refunds && forall slot :: slot in db.idempotency ==> db.idempotency[slot].resourceId != id
  }

  predicate Resolved(db: L.State, q: Request, id: nat) {
    match q case OpenCharge(_) => id in db.charges case OpenRefund(_) => id in db.refunds case Recover(_, _, _) => true
  }

  predicate Enabled(pg: Postgres, step: Step) {
    match step
    case Begin(t, q, newId) =>
      && t !in pg.txs && Unused(pg.db, newId) && (forall u :: u in pg.txs ==> pg.txs[u].newId != newId)
      && (q.Recover? ==> SlotOf(q) in pg.db.idempotency && q.chargeId in pg.db.charges)
    case Claim(t) =>
      && t in pg.txs && pg.txs[t].phase.Begun? && !pg.txs[t].request.Recover?
      && (SlotOf(pg.txs[t].request) in pg.db.idempotency || SlotUnlocked(pg, t, SlotOf(pg.txs[t].request)))
    case SelectForUpdate(t) =>
      && t in pg.txs && pg.txs[t].phase.Lost? && !pg.txs[t].request.Recover? && SlotOf(pg.txs[t].request) in pg.db.idempotency
      && SlotUnlocked(pg, t, SlotOf(pg.txs[t].request))
    case BumpReplays(t) => t in pg.txs && pg.txs[t].phase.Selected?
    case LoadResource(t) =>
      t in pg.txs && pg.txs[t].phase.Bumped? && Resolved(pg.db, pg.txs[t].request, pg.txs[t].phase.record.resourceId)
    case InsertCharge(t) => t in pg.txs && pg.txs[t].phase.Claimed? && pg.txs[t].request.OpenCharge?
    case ReadCharge(t) =>
      && t in pg.txs && pg.txs[t].phase.Claimed? && pg.txs[t].request.OpenRefund?
      && ChargeUnlocked(pg, t, pg.txs[t].request.refund.chargeId)
    case InsertRefund(t) => t in pg.txs && pg.txs[t].phase.ChargeLocked?
    case ReserveAmount(t) => t in pg.txs && pg.txs[t].phase.RefundInserted?
    case SetOutcome(t) =>
      t in pg.txs && pg.txs[t].phase.Begun? && pg.txs[t].request.Recover? && SlotUnlocked(pg, t, SlotOf(pg.txs[t].request))
    case SetCorrelation(t) =>
      && t in pg.txs && pg.txs[t].phase.OutcomeSet? && pg.txs[t].request.Recover?
      && pg.txs[t].request.chargeId in pg.db.charges && ChargeUnlocked(pg, t, pg.txs[t].request.chargeId)
    case Commit(t) => t in pg.txs && Done(pg.txs[t].phase)
    case Abort(t) => t in pg.txs
    case MaterialiseCharge(id, status) =>
      && (forall u :: u in pg.txs ==> !HoldsCharge(pg.txs[u], id)) && status != L.Processing
      && (id in pg.db.charges ==> Accepted(pg.db, L.ChargeSlot(pg.db.charges[id].key)))
    case MaterialiseRefund(_) => true
  }

  /** Handlers materialise a charge only once its record says accepted. */
  predicate Accepted(db: L.State, slot: L.Slot) {
    slot in db.idempotency && db.idempotency[slot].outcome == L.Accepted
  }

  predicate Done(p: Phase) {
    p.Mismatched? || p.Loaded? || p.ChargeInserted? || p.Refused? || p.Reserved? || p.CorrelationSet?
  }

  /** The rows a finished transaction makes visible. */
  function Written(db: L.State, tx: Tx): L.State {
    var slot := SlotOf(tx.request);
    match tx.request
    case OpenCharge(r) =>
      if tx.phase.ChargeInserted? then
        db.(charges := db.charges[tx.newId := L.NewCharge(r)], idempotency := db.idempotency[slot := L.NewRecord(r, tx.newId)])
      else if tx.phase.Loaded? then db.(idempotency := db.idempotency[slot := tx.phase.record])
      else db
    case OpenRefund(r) =>
      var claim := db.idempotency[slot := RefundRecord(r, tx.newId)];
      (match tx.phase
       case Loaded(record) => db.(idempotency := db.idempotency[slot := record])
       case Refused(_) => db.(idempotency := claim)
       case Reserved(charge) =>
         L.State(db.charges[r.chargeId := charge.(refundIds := charge.refundIds + [tx.newId],
                                                  refundedMinor := charge.refundedMinor + r.amountMinor)],
                 db.refunds[tx.newId := L.NewRefund(charge, r)], claim)
       case _ => db)
    case Recover(id, _, _) =>
      if tx.phase.CorrelationSet? then
        db.(charges := db.charges[id := tx.phase.charge],
            idempotency := if slot in db.idempotency
                           then db.idempotency[slot := db.idempotency[slot].(outcome := L.Accepted)] else db.idempotency)
      else db
  }

  function At(pg: Postgres, t: nat, phase: Phase): Postgres
    requires t in pg.txs
  {
    pg.(txs := pg.txs[t := pg.txs[t].(phase := phase)])
  }

  /** The charge row as the refund path reads it: locked and refundable, or the refusal it leads to. */
  function ReadForRefund(db: L.State, r: L.RefundRequest): Phase {
    match L.Refusal(db, r) case Some(refusal) => Refused(refusal) case None => ChargeLocked(db.charges[r.chargeId])
  }

  function Next(pg: Postgres, step: Step): Postgres
    requires Enabled(pg, step)
  {
    match step
    case Begin(t, q, newId) => pg.(txs := pg.txs[t := Tx(q, newId, Begun)])
    case Claim(t) => At(pg, t, if SlotOf(pg.txs[t].request) in pg.db.idempotency then Lost else Claimed)
    case SelectForUpdate(t) =>
      var record := pg.db.idempotency[SlotOf(pg.txs[t].request)];
      At(pg, t, if SameBody(pg.txs[t].request, record.fingerprint) then Selected(record) else Mismatched)
    case BumpReplays(t) =>
      At(pg, t, Bumped(pg.txs[t].phase.record.(replays := pg.txs[t].phase.record.replays + 1)))
    case LoadResource(t) => At(pg, t, Loaded(pg.txs[t].phase.record))
    case InsertCharge(t) => At(pg, t, ChargeInserted)
    case ReadCharge(t) => At(pg, t, ReadForRefund(pg.db, pg.txs[t].request.refund))
    case InsertRefund(t) => At(pg, t, RefundInserted(pg.txs[t].phase.charge))
    case ReserveAmount(t) => At(pg, t, Reserved(pg.txs[t].phase.charge))
    case SetOutcome(t) => At(pg, t, OutcomeSet)
    case SetCorrelation(t) =>
      var q := pg.txs[t].request;
      var c := pg.db.charges[q.chargeId];
      At(pg, t, CorrelationSet(Correlated(c, q.correlationId)))
    case Commit(t) => Postgres(Written(pg.db, pg.txs[t]), pg.txs - {t})
    case Abort(t) => pg.(txs := pg.txs - {t})
    case MaterialiseCharge(id, status) => pg.(db := L.MaterialiseCharge(pg.db, id, status).0)
    case MaterialiseRefund(id) => pg.(db := L.MaterialiseRefund(pg.db, id).0)
  }

  // --- The atomic ledger it stands for ------------------------------------------------

  /** A refund claim whose refund does not exist: what a refused refund leaves behind. */
  predicate Orphan(db: L.State, slot: L.Slot) {
    slot.RefundSlot? && slot in db.idempotency && db.idempotency[slot].resourceId !in db.refunds
  }

  function Abs(db: L.State): L.State {
    db.(idempotency := map slot | slot in db.idempotency && !Orphan(db, slot) :: db.idempotency[slot])
  }

  // --- What every interleaving keeps ----------------------------------------------------

  predicate PhaseFits(q: Request, p: Phase) {
    match q
    case OpenCharge(_) => p.Begun? || p.Claimed? || p.Lost? || p.Selected? || p.Mismatched? || p.Bumped? || p.Loaded? || p.ChargeInserted?
    case OpenRefund(_) => !p.ChargeInserted? && !p.OutcomeSet? && !p.CorrelationSet?
    case Recover(_, _, _) => p.Begun? || p.OutcomeSet? || p.CorrelationSet?
  }

  /** What a transaction has read is still so, and what it claimed is still free. */
  predicate ReadsHold(db: L.State, tx: Tx) {
    var slot := SlotOf(tx.request);
    match tx.phase
    case Begun => tx.request.Recover? ==> slot in db.idempotency && tx.request.chargeId in db.charges
    case Claimed => slot !in db.idempotency
    case Lost => slot in db.idempotency
    case Selected(record) => slot in db.idempotency && db.idempotency[slot] == record && SameBody(tx.request, record.fingerprint)
    case Mismatched => slot in db.idempotency && !SameBody(tx.request, db.idempotency[slot].fingerprint)
    case Bumped(record) => BumpHolds(db, tx.request, record)
    case Loaded(record) => BumpHolds(db, tx.request, record) && Resolved(db, tx.request, record.resourceId)
    case ChargeInserted => slot !in db.idempotency
    case ChargeLocked(charge) => ChargeHolds(db, tx, charge)
    case Refused(_) => slot !in db.idempotency
    case RefundInserted(charge) => ChargeHolds(db, tx, charge)
    case Reserved(charge) => ChargeHolds(db, tx, charge)
    case OutcomeSet => slot in db.idempotency && tx.request.Recover? && tx.request.chargeId in db.charges
    case CorrelationSet(charge) =>
      slot in db.idempotency && tx.request.Recover? && tx.request.chargeId in db.charges
      && charge == Correlated(db.charges[tx.request.chargeId], tx.request.correlationId)
  }

  predicate BumpHolds(db: L.State, q: Request, record: L.Record) {
    && SlotOf(q) in db.idempotency && SameBody(q, record.fingerprint)
    && record == db.idempotency[SlotOf(q)].(replays := db.idempotency[SlotOf(q)].replays + 1)
  }

  /** The locked charge row is the committed one, and there is room for the refund on it. */
  predicate ChargeHolds(db: L.State, tx: Tx, charge: L.Charge) {
    && SlotOf(tx.request) !in db.idempotency && tx.request.OpenRefund?
    && L.Refusal(db, tx.request.refund).None? && db.charges[tx.request.refund.chargeId] == charge
  }

  function Correlated(c: L.Charge, correlationId: Option<nat>): L.Charge {
    if c.correlationId.None? then c.(correlationId := correlationId) else c
  }

  predicate TxOk(db: L.State, tx: Tx) { PhaseFits(tx.request, tx.phase) && ReadsHold(db, tx) && Unused(db, tx.newId) }

  ghost predicate AllTxsOk(pg: Postgres) { forall t :: t in pg.txs ==> TxOk(pg.db, pg.txs[t]) }

  ghost predicate LocksExclusive(pg: Postgres) {
    && (forall t, u, slot :: t in pg.txs && u in pg.txs && t != u && HoldsSlot(pg.txs[t], slot) ==> !HoldsSlot(pg.txs[u], slot))
    && (forall t, u, id :: t in pg.txs && u in pg.txs && t != u && HoldsCharge(pg.txs[t], id) ==> !HoldsCharge(pg.txs[u], id))
    && (forall t, u :: t in pg.txs && u in pg.txs && t != u ==> pg.txs[t].newId != pg.txs[u].newId)
  }

  ghost predicate PostgresOk(pg: Postgres) { AllTxsOk(pg) && LocksExclusive(pg) && L.LedgerOk(Abs(pg.db)) }

  // --- One transaction commits, the others' reads still hold -----------------------------------

  ghost predicate Apart(tx: Tx, u: Tx) {
    && tx.newId != u.newId
    && (!u.phase.Begun? && !u.phase.Lost? && !tx.phase.Begun? && !tx.phase.Lost? ==> SlotOf(tx.request) != SlotOf(u.request))
    && (forall id :: HoldsCharge(tx, id) ==> !HoldsCharge(u, id))
  }

  lemma TxsApart(pg: Postgres, t: nat, u: nat)
    requires LocksExclusive(pg) && t in pg.txs && u in pg.txs && t != u
    ensures Apart(pg.txs[t], pg.txs[u])
  {
    if HoldsSlot(pg.txs[t], SlotOf(pg.txs[t].request)) { assert !HoldsSlot(pg.txs[u], SlotOf(pg.txs[t].request)); }
  }

  /** Records and resources are only added or moved on; a slot nobody else holds is not touched. */
  ghost predicate Undisturbed(db: L.State, db': L.State, u: Tx) {
    && (forall id :: id in db.charges ==> id in db'.charges)
    && (forall id :: id in db.refunds ==> id in db'.refunds)
    && (forall slot :: slot in db.idempotency ==> slot in db'.idempotency)
    && (!u.phase.Begun? && !u.phase.Lost? ==>
          (SlotOf(u.request) in db'.idempotency <==> SlotOf(u.request) in db.idempotency)
          && (SlotOf(u.request) in db.idempotency ==> db'.idempotency[SlotOf(u.request)] == db.idempotency[SlotOf(u.request)]))
    && (forall id :: HoldsCharge(u, id) && id in db.charges ==> db'.charges[id] == db.charges[id])
    && Unused(db', u.newId)
  }

  lemma UndisturbedKeepsTx(db: L.State, db': L.State, u: Tx)
    requires TxOk(db, u) && Undisturbed(db, db', u)
    ensures TxOk(db', u)
  {
    hide Unused;
    match u.phase
    case ChargeLocked(c) => assert HoldsCharge(u, u.request.refund.chargeId);
    case RefundInserted(c) => assert HoldsCharge(u, u.request.refund.chargeId);
    case Reserved(c) => assert HoldsCharge(u, u.request.refund.chargeId);
    case CorrelationSet(c) => assert HoldsCharge(u, u.request.chargeId);
    case _ =>
  }

  lemma CommitDisturbsNobody(db: L.State, tx: Tx, u: Tx)
    requires TxOk(db, tx) && Done(tx.phase) && Unused(db, u.newId) && Apart(tx, u)
    ensures Undisturbed(db, Written(db, tx), u)
  {
    var db' := Written(db, tx);
    match tx.phase
    case Reserved(c) => assert HoldsCharge(tx, tx.request.refund.chargeId);
    case CorrelationSet(c) => assert HoldsCharge(tx, tx.request.chargeId);
    case _ =>
  }

  // --- Commits are the atomic ledger's operations ------------------------------------------------

  function AnswerOf(tx: Tx): L.OpenResult {
    match tx.phase
    case Loaded(record) => L.Replayed(record.resourceId, record)
    case ChargeInserted => L.Created(tx.newId)
    case Reserved(_) => L.Created(tx.newId)
    case Refused(refusal) => refusal
    case _ => L.FingerprintMismatch
  }

  lemma AbsOfOther(db: L.State, db': L.State, slot: L.Slot)
    requires forall s :: s in db'.idempotency <==> s in db.idempotency || s == slot
    requires forall s :: s in db.idempotency && s != slot ==> db'.idempotency[s] == db.idempotency[s]
    requires forall s :: s in db.idempotency && s != slot ==> (Orphan(db', s) <==> Orphan(db, s))
    requires slot in db'.idempotency && !Orphan(db', slot)
    ensures Abs(db').idempotency == Abs(db).idempotency[slot := db'.idempotency[slot]]
  {
  }

  lemma ChargeCommitRefines(db: L.State, tx: Tx)
    requires TxOk(db, tx) && Done(tx.phase) && tx.request.OpenCharge? && L.LedgerOk(Abs(db))
    ensures (Abs(Written(db, tx)), AnswerOf(tx)) == L.OpenCharge(Abs(db), tx.request.charge, tx.newId)
  {
    hide L.LedgerOk;
    var db' := Written(db, tx);
    if !tx.phase.Mismatched? { AbsOfOther(db, db', SlotOf(tx.request)); }
  }

  lemma RefundCommitRefines(db: L.State, tx: Tx)
    requires TxOk(db, tx) && Done(tx.phase) && tx.request.OpenRefund? && L.LedgerOk(Abs(db))
    requires !tx.phase.Refused? && !Orphan(db, SlotOf(tx.request))
    ensures (Abs(Written(db, tx)), AnswerOf(tx)) == L.OpenRefund(Abs(db), tx.request.refund, tx.newId)
  {
    hide L.LedgerOk;
    var db' := Written(db, tx);
    if tx.phase.Reserved? { NewRefundAdoptsNoOrphan(db, tx); }
    if !tx.phase.Mismatched? { AbsOfOther(db, db', SlotOf(tx.request)); }
  }

  /** A new refund's id is fresh, so it never gives an orphaned claim its resource. */
  lemma NewRefundAdoptsNoOrphan(db: L.State, tx: Tx)
    requires TxOk(db, tx)
    ensures forall s :: s in db.idempotency && s != SlotOf(tx.request) ==> (Orphan(Written(db, tx), s) <==> Orphan(db, s))
  {
  }

  /** A refused refund commits its claim: a new orphan, and nothing the atomic ledger can see. */
  lemma RefusalCommitsOnlyItsClaim(db: L.State, tx: Tx)
    requires TxOk(db, tx) && tx.phase.Refused?
    ensures Abs(Written(db, tx)) == Abs(db) && Orphan(Written(db, tx), SlotOf(tx.request))
  {
  }

  /** Reading the charge row is where a refusal is decided: the atomic ledger refuses alike at that instant. */
  lemma RefusalIsDecidedAtTheRead(pg: Postgres, t: nat)
    requires PostgresOk(pg) && Enabled(pg, ReadCharge(t))
    ensures var r := pg.txs[t].request.refund;
            match Next(pg, ReadCharge(t)).txs[t].phase
            case Refused(refusal) => L.OpenRefund(Abs(pg.db), r, pg.txs[t].newId) == (Abs(pg.db), refusal)
            case ChargeLocked(_) => L.OpenRefund(Abs(pg.db), r, pg.txs[t].newId).1 == L.Created(pg.txs[t].newId)
            case _ => false
  {
    hide L.LedgerOk;
    assert TxOk(pg.db, pg.txs[t]);
    assert L.Refusal(Abs(pg.db), pg.txs[t].request.refund) == L.Refusal(pg.db, pg.txs[t].request.refund);
  }

  lemma RecoverCommitRefines(db: L.State, tx: Tx)
    requires TxOk(db, tx) && Done(tx.phase) && tx.request.Recover?
    ensures var q := tx.request;
            Abs(Written(db, tx)) == L.RecoverFromTransientFailure(Abs(db), q.chargeId, q.key, q.correlationId)
  {
    var db' := Written(db, tx);
    AbsOfOther(db, db', SlotOf(tx.request));
  }

  /**
   * A finished openRefund that is not a refusal answers and writes as the
   * atomic ledger would, exactly when no refused refund has used its key.
   */
  lemma RefundCommitRefinesIff(db: L.State, tx: Tx)
    requires TxOk(db, tx) && Done(tx.phase) && tx.request.OpenRefund? && L.LedgerOk(Abs(db)) && !tx.phase.Refused?
    ensures (Abs(Written(db, tx)), AnswerOf(tx)) == L.OpenRefund(Abs(db), tx.request.refund, tx.newId)
            <==> !Orphan(db, SlotOf(tx.request))
  {
    if !Orphan(db, SlotOf(tx.request)) { RefundCommitRefines(db, tx); }
  }

  /** A retry of a refused refund can never answer: its record names a refund that will not exist. */
  lemma OrphanedRetryNeverAnswers(pg: Postgres, t: nat)
    requires PostgresOk(pg) && t in pg.txs && Orphan(pg.db, SlotOf(pg.txs[t].request))
    requires SameBody(pg.txs[t].request, pg.db.idempotency[SlotOf(pg.txs[t].request)].fingerprint)
    ensures !Enabled(pg, LoadResource(t)) && !Enabled(pg, Commit(t))
  {
    assert TxOk(pg.db, pg.txs[t]);
  }

  // --- Every step of every run -----------------------------------------------------------------------

  lemma PhaseMoveKeeps(pg: Postgres, t: nat, phase: Phase)
    requires PostgresOk(pg) && t in pg.txs && TxOk(pg.db, pg.txs[t].(phase := phase))
    requires var slot := SlotOf(pg.txs[t].request);
             HoldsSlot(pg.txs[t].(phase := phase), slot) ==> HoldsSlot(pg.txs[t], slot) || SlotUnlocked(pg, t, slot)
    requires forall id :: HoldsCharge(pg.txs[t].(phase := phase), id) ==> HoldsCharge(pg.txs[t], id) || ChargeUnlocked(pg, t, id)
    ensures PostgresOk(At(pg, t, phase))
  {
    hide L.LedgerOk, TxOk;
  }

  lemma StatementKeeps(pg: Postgres, step: Step)
    requires PostgresOk(pg) && Enabled(pg, step)
    requires !step.Begin? && !step.Commit? && !step.Abort? && !step.MaterialiseCharge? && !step.MaterialiseRefund?
    ensures PostgresOk(Next(pg, step)) && Next(pg, step).db == pg.db
  {
    hide L.LedgerOk, AllTxsOk, LocksExclusive, Unused;
    var t := step.t;
    TxOfOk(pg, t);
    PhaseMoveKeeps(pg, t, Next(pg, step).txs[t].phase);
  }

  lemma TxOfOk(pg: Postgres, t: nat)
    requires AllTxsOk(pg) && t in pg.txs
    ensures TxOk(pg.db, pg.txs[t])
  {
  }

  lemma BeginKeeps(pg: Postgres, step: Step)
    requires PostgresOk(pg) && Enabled(pg, step) && (step.Begin? || step.Abort?)
    ensures PostgresOk(Next(pg, step)) && Next(pg, step).db == pg.db
  {
    hide L.LedgerOk;
    var pg' := Next(pg, step);
    forall t | t in pg'.txs ensures TxOk(pg'.db, pg'.txs[t]) {
      if t in pg.txs { TxOfOk(pg, t); }
    }
  }

  lemma CommitKeepsLedger(db: L.State, tx: Tx)
    requires TxOk(db, tx) && Done(tx.phase) && L.LedgerOk(Abs(db))
    ensures L.LedgerOk(Abs(Written(db, tx))) && L.Grows(Abs(db), Abs(Written(db, tx)))
  {
    hide L.LedgerOk, L.Grows;
    L.StandsStill(Abs(db));
    match tx.request
    case OpenCharge(r) =>
      ChargeCommitRefines(db, tx);
      L.OpenChargeKeeps(Abs(db), r, tx.newId);
    case OpenRefund(r) =>
      if tx.phase.Refused? { RefusalCommitsOnlyItsClaim(db, tx); }
      else if tx.phase.Mismatched? { assert Written(db, tx) == db; }
      else {
        RefundCommitRefines(db, tx);
        L.OpenRefundKeeps(Abs(db), r, tx.newId);
      }
    case Recover(id, key, correlationId) =>
      RecoverCommitRefines(db, tx);
      L.RecoverKeeps(Abs(db), id, key, correlationId);
  }

  lemma CommitKeeps(pg: Postgres, t: nat)
    requires PostgresOk(pg) && Enabled(pg, Commit(t))
    ensures PostgresOk(Next(pg, Commit(t))) && L.Grows(Abs(pg.db), Abs(Next(pg, Commit(t)).db))
  {
    hide L.LedgerOk, L.Grows, TxOk, Undisturbed, Apart;
    var pg' := Next(pg, Commit(t));
    var tx := pg.txs[t];
    TxOfOk(pg, t);
    forall u | u in pg'.txs ensures TxOk(pg'.db, pg'.txs[u]) {
      TxOfOk(pg, u);
      TxsApart(pg, t, u);
      UnusedOfTx(pg.db, pg.txs[u]);
      CommitDisturbsNobody(pg.db, tx, pg.txs[u]);
      UndisturbedKeepsTx(pg.db, pg'.db, pg.txs[u]);
    }
    CommitKeepsLedger(pg.db, tx);
  }

  lemma UnusedOfTx(db: L.State, tx: Tx)
    requires TxOk(db, tx)
    ensures Unused(db, tx.newId)
  {
  }

  lemma MaterialiseRefines(db: L.State, id: nat, status: L.ChargeStatus)
    ensures Abs(L.MaterialiseCharge(db, id, status).0) == L.MaterialiseCharge(Abs(db), id, status).0
    ensures L.MaterialiseCharge(db, id, status).1 == L.MaterialiseCharge(Abs(db), id, status).1
    ensures Abs(L.MaterialiseRefund(db, id).0) == L.MaterialiseRefund(Abs(db), id).0
    ensures L.MaterialiseRefund(db, id).1 == L.MaterialiseRefund(Abs(db), id).1
  {
  }

  lemma MaterialiseKeeps(pg: Postgres, step: Step)
    requires PostgresOk(pg) && Enabled(pg, step) && (step.MaterialiseCharge? || step.MaterialiseRefund?)
    ensures PostgresOk(Next(pg, step)) && L.Grows(Abs(pg.db), Abs(Next(pg, step).db))
  {
    hide L.LedgerOk, L.Grows, TxOk, Undisturbed;
    var pg' := Next(pg, step);
    forall u | u in pg'.txs ensures TxOk(pg'.db, pg'.txs[u]) {
      TxOfOk(pg, u);
      UnusedOfTx(pg.db, pg.txs[u]);
      MaterialiseDisturbsNobody(pg, step, u);
      UndisturbedKeepsTx(pg.db, pg'.db, pg.txs[u]);
    }
    match step
    case MaterialiseCharge(id, status) =>
      MaterialiseRefines(pg.db, id, status);
      L.MaterialiseChargeKeeps(Abs(pg.db), id, status);
    case MaterialiseRefund(id) =>
      MaterialiseRefines(pg.db, id, L.Failed);
      L.MaterialiseRefundKeeps(Abs(pg.db), id);
  }

  lemma MaterialiseDisturbsNobody(pg: Postgres, step: Step, u: nat)
    requires Enabled(pg, step) && (step.MaterialiseCharge? || step.MaterialiseRefund?)
    requires u in pg.txs && Unused(pg.db, pg.txs[u].newId)
    ensures Undisturbed(pg.db, Next(pg, step).db, pg.txs[u])
  {
  }

  /** Locks, reads and the ledger they protect survive every statement of every interleaving. */
  lemma StepKeeps(pg: Postgres, step: Step)
    requires PostgresOk(pg) && Enabled(pg, step)
    ensures PostgresOk(Next(pg, step)) && L.Grows(Abs(pg.db), Abs(Next(pg, step).db))
  {
    hide PostgresOk, L.Grows;
    match step
    case Begin(_, _, _) => BeginKeeps(pg, step); L.StandsStill(Abs(pg.db));
    case Abort(_) => BeginKeeps(pg, step); L.StandsStill(Abs(pg.db));
    case Commit(t) => CommitKeeps(pg, t);
    case MaterialiseCharge(_, _) => MaterialiseKeeps(pg, step);
    case MaterialiseRefund(_) => MaterialiseKeeps(pg, step);
    case _ => StatementKeeps(pg, step); L.StandsStill(Abs(pg.db));
  }

  // --- The simulation ------------------------------------------------------------------------------------

  /** What one step does to the atomic ledger: one of its operations, answered alike, or nothing. */
  predicate Simulates(pg: Postgres, step: Step)
    requires Enabled(pg, step)
  {
    var a, a' := Abs(pg.db), Abs(Next(pg, step).db);
    match step
    case Commit(t) =>
      var tx := pg.txs[t];
      (match tx.request
       case OpenCharge(r) => (a', AnswerOf(tx)) == L.OpenCharge(a, r, tx.newId)
       case OpenRefund(r) =>
         if tx.phase.Refused? || Orphan(pg.db, SlotOf(tx.request)) then a' == a
         else (a', AnswerOf(tx)) == L.OpenRefund(a, r, tx.newId)
       case Recover(id, key, correlationId) => a' == L.RecoverFromTransientFailure(a, id, key, correlationId))
    case MaterialiseCharge(id, status) => (a', L.MaterialiseCharge(pg.db, id, status).1) == L.MaterialiseCharge(a, id, status)
    case MaterialiseRefund(id) => (a', L.MaterialiseRefund(pg.db, id).1) == L.MaterialiseRefund(a, id)
    case _ => a' == a
  }

  lemma EveryStepSimulates(pg: Postgres, step: Step)
    requires PostgresOk(pg) && Enabled(pg, step)
    ensures Simulates(pg, step)
  {
    match step
    case Commit(t) =>
      TxOfOk(pg, t);
      hide L.LedgerOk, AllTxsOk, LocksExclusive, Unused;
      var tx := pg.txs[t];
      match tx.request {
       case OpenCharge(_) => ChargeCommitRefines(pg.db, tx);
       case OpenRefund(_) =>
         if tx.phase.Refused? { RefusalCommitsOnlyItsClaim(pg.db, tx); }
         else if !Orphan(pg.db, SlotOf(tx.request)) { RefundCommitRefines(pg.db, tx); }
       case Recover(_, _, _) => RecoverCommitRefines(pg.db, tx);
      }
    case MaterialiseCharge(id, status) => MaterialiseRefines(pg.db, id, status);
    case MaterialiseRefund(id) => MaterialiseRefines(pg.db, id, L.Failed);
    case Begin(_, _, _) => hide PostgresOk; BeginKeeps(pg, step);
    case Abort(_) => hide PostgresOk; BeginKeeps(pg, step);
    case _ => hide PostgresOk; StatementKeeps(pg, step);
  }

  ghost predicate Run(states: seq<Postgres>, steps: seq<Step>) {
    && |states| == |steps| + 1
    && states[0] == Postgres(L.State(map[], map[], map[]), map[])
    && forall i :: 0 <= i < |steps| ==> Enabled(states[i], steps[i]) && states[i + 1] == Next(states[i], steps[i])
  }

  /** Some transaction before step `n` committed a refusal. */
  predicate CommitsRefusal(pg: Postgres, step: Step) {
    step.Commit? && step.t in pg.txs && pg.txs[step.t].phase.Refused?
  }

  /**
   * Every interleaving of every run simulates the atomic ledger, and while no
   * refused refund has committed the tables are the atomic ledger, row for row.
   */
  lemma {:induction false} RunsSimulate(states: seq<Postgres>, steps: seq<Step>, n: nat)
    requires Run(states, steps) && n < |states|
    ensures PostgresOk(states[n]) && (n < |steps| ==> Simulates(states[n], steps[n]))
    ensures (forall i :: 0 <= i < n ==> !CommitsRefusal(states[i], steps[i])) ==> Abs(states[n].db) == states[n].db
  {
    hide PostgresOk, Simulates, Enabled, Next, CommitsRefusal, Abs;
    if n == 0 {
      EmptyIsOk(states[0]);
    } else {
      RunsSimulate(states, steps, n - 1);
      StepKeeps(states[n - 1], steps[n - 1]);
      if !CommitsRefusal(states[n - 1], steps[n - 1]) && Abs(states[n - 1].db) == states[n - 1].db {
        NoNewOrphan(states[n - 1], steps[n - 1]);
      }
    }
    if n < |steps| { EveryStepSimulates(states[n], steps[n]); }
  }

  lemma EmptyIsOk(pg: Postgres)
    requires pg == Postgres(L.State(map[], map[], map[]), map[])
    ensures PostgresOk(pg) && Abs(pg.db) == pg.db
  {
    assert Abs(pg.db).idempotency == map[];
  }

  lemma AbsIsAll(db: L.State)
    ensures Abs(db) == db <==> forall slot :: slot in db.idempotency ==> !Orphan(db, slot)
  {
    if Abs(db) == db {
      forall slot | slot in db.idempotency ensures !Orphan(db, slot) { assert slot in Abs(db).idempotency; }
    }
  }

  lemma NoNewOrphan(pg: Postgres, step: Step)
    requires PostgresOk(pg) && Enabled(pg, step) && !CommitsRefusal(pg, step) && Abs(pg.db) == pg.db
    ensures Abs(Next(pg, step).db) == Next(pg, step).db
  {
    AbsIsAll(pg.db);
    AbsIsAll(Next(pg, step).db);
    match step
    case Commit(t) =>
      TxOfOk(pg, t);
      hide L.LedgerOk, AllTxsOk, LocksExclusive;
      WritesNoOrphan(pg.db, pg.txs[t]);
    case MaterialiseCharge(id, status) =>
    case MaterialiseRefund(id) =>
    case Begin(_, _, _) =>
    case Abort(_) =>
    case _ => hide PostgresOk; StatementKeeps(pg, step);
  }

  lemma WritesNoOrphan(db: L.State, tx: Tx)
    requires TxOk(db, tx) && Done(tx.phase) && !tx.phase.Refused?
    requires forall slot :: slot in db.idempotency ==> !Orphan(db, slot)
    ensures forall slot :: slot in Written(db, tx).idempotency ==> !Orphan(Written(db, tx), slot)
  {
  }

  // --- A refused refund, retried ------------------------------------------------------------------------------

  const EMPTY_TABLES: L.State := L.State(map[], map[], map[])

  const CHARGE_REQUEST: L.ChargeRequest := L.ChargeRequest(ChargeKey(0), 0, 100, None, false)

  const CHARGE: L.Charge := L.Charge(0, 100, ChargeKey(0), None, L.Processing, false, 0, [], false)

  const CLAIMS: map<L.Slot, L.Record> := map[L.ChargeSlot(ChargeKey(0)) := L.Record(1, L.ChargeBody(0, 100), L.Accepted, 0)]

  const PENDING_CHARGE: L.State := L.State(map[1 := CHARGE], map[], CLAIMS)

  const EARLY_REFUND: L.RefundRequest := L.RefundRequest(RefundKey(1), 1, 100, None)

  const REFUSED: L.State := L.State(
    map[1 := CHARGE], map[], CLAIMS[L.RefundSlot(RefundKey(1)) := RefundRecord(EARLY_REFUND, 7)])

  const SETTLED: L.State := REFUSED.(charges := map[1 := CHARGE.(materialised := true, status := L.Succeeded)])

  const ORPHAN: L.Record := RefundRecord(EARLY_REFUND, 7)

  const CHARGING: Request := OpenCharge(CHARGE_REQUEST)

  const REFUNDING: Request := OpenRefund(EARLY_REFUND)

  predicate Goes(pg: Postgres, step: Step, pg': Postgres) { Enabled(pg, step) && Next(pg, step) == pg' }

  function Idle(db: L.State): Postgres { Postgres(db, map[]) }

  function Alone(db: L.State, t: nat, q: Request, newId: nat, phase: Phase): Postgres {
    Postgres(db, map[t := Tx(q, newId, phase)])
  }

  lemma AloneMoves(db: L.State, t: nat, q: Request, newId: nat, phase: Phase, phase': Phase)
    ensures At(Alone(db, t, q, newId, phase), t, phase') == Alone(db, t, q, newId, phase')
    ensures forall slot :: SlotUnlocked(Alone(db, t, q, newId, phase), t, slot)
    ensures forall id :: ChargeUnlocked(Alone(db, t, q, newId, phase), t, id)
  {
  }

  lemma Begins(db: L.State, t: nat, q: Request, newId: nat)
    requires Unused(db, newId) && !q.Recover?
    ensures Goes(Idle(db), Begin(t, q, newId), Alone(db, t, q, newId, Begun))
  {
  }

  lemma ChargeClaims()
    ensures Goes(Alone(EMPTY_TABLES, 0, CHARGING, 1, Begun), Claim(0), Alone(EMPTY_TABLES, 0, CHARGING, 1, Claimed))
  {
    AloneMoves(EMPTY_TABLES, 0, CHARGING, 1, Begun, Claimed);
  }

  lemma ChargeInserts()
    ensures Goes(Alone(EMPTY_TABLES, 0, CHARGING, 1, Claimed), InsertCharge(0), Alone(EMPTY_TABLES, 0, CHARGING, 1, ChargeInserted))
  {
    AloneMoves(EMPTY_TABLES, 0, CHARGING, 1, Claimed, ChargeInserted);
  }

  lemma ChargeCommits()
    ensures Goes(Alone(EMPTY_TABLES, 0, CHARGING, 1, ChargeInserted), Commit(0), Idle(PENDING_CHARGE))
  {
    assert Alone(EMPTY_TABLES, 0, CHARGING, 1, ChargeInserted).txs - {0} == map[];
  }

  lemma FirstClaims()
    ensures Goes(Alone(PENDING_CHARGE, 0, REFUNDING, 7, Begun), Claim(0), Alone(PENDING_CHARGE, 0, REFUNDING, 7, Claimed))
  {
    AloneMoves(PENDING_CHARGE, 0, REFUNDING, 7, Begun, Claimed);
  }

  lemma FirstReads()
    ensures Goes(Alone(PENDING_CHARGE, 0, REFUNDING, 7, Claimed), ReadCharge(0),
                 Alone(PENDING_CHARGE, 0, REFUNDING, 7, Refused(L.UnknownCharge)))
  {
    AloneMoves(PENDING_CHARGE, 0, REFUNDING, 7, Claimed, Refused(L.UnknownCharge));
    assert !CHARGE.materialised;
  }

  lemma FirstCommits()
    ensures Goes(Alone(PENDING_CHARGE, 0, REFUNDING, 7, Refused(L.UnknownCharge)), Commit(0), Idle(REFUSED))
  {
    assert Alone(PENDING_CHARGE, 0, REFUNDING, 7, Refused(L.UnknownCharge)).txs - {0} == map[];
  }

  lemma ChargeSettles()
    ensures Goes(Idle(REFUSED), MaterialiseCharge(1, L.Succeeded), Idle(SETTLED))
  {
  }

  lemma SecondLoses()
    ensures Goes(Alone(SETTLED, 1, REFUNDING, 8, Begun), Claim(1), Alone(SETTLED, 1, REFUNDING, 8, Lost))
  {
    AloneMoves(SETTLED, 1, REFUNDING, 8, Begun, Lost);
  }

  lemma SecondSelects()
    ensures Goes(Alone(SETTLED, 1, REFUNDING, 8, Lost), SelectForUpdate(1), Alone(SETTLED, 1, REFUNDING, 8, Selected(ORPHAN)))
  {
    AloneMoves(SETTLED, 1, REFUNDING, 8, Lost, Selected(ORPHAN));
  }

  lemma SecondBumps()
    ensures Goes(Alone(SETTLED, 1, REFUNDING, 8, Selected(ORPHAN)), BumpReplays(1),
                 Alone(SETTLED, 1, REFUNDING, 8, Bumped(ORPHAN.(replays := 1))))
  {
    AloneMoves(SETTLED, 1, REFUNDING, 8, Selected(ORPHAN), Bumped(ORPHAN.(replays := 1)));
  }

  lemma SecondIsStuck()
    ensures !Enabled(Alone(SETTLED, 1, REFUNDING, 8, Bumped(ORPHAN.(replays := 1))), LoadResource(1))
    ensures !Enabled(Alone(SETTLED, 1, REFUNDING, 8, Bumped(ORPHAN.(replays := 1))), Commit(1))
  {
  }

  lemma AtomicLedgerWouldOpen()
    ensures L.OpenRefund(Abs(SETTLED), EARLY_REFUND, 8).1 == L.Created(8)
  {
    var slot := L.RefundSlot(RefundKey(1));
    assert Orphan(SETTLED, slot);
    assert slot !in Abs(SETTLED).idempotency;
  }

  /** From empty tables, a run that ends here. */
  ghost predicate Reachable(pg: Postgres) {
    exists states, steps :: Run(states, steps) && states[|states| - 1] == pg
  }

  lemma EmptyIsReachable()
    ensures Reachable(Idle(EMPTY_TABLES))
  {
    var states, steps: seq<Step> := [Idle(EMPTY_TABLES)], [];
    assert Run(states, steps) && states[|states| - 1] == Idle(EMPTY_TABLES);
  }

  lemma StepsStayReachable(pg: Postgres, step: Step, pg': Postgres)
    requires Reachable(pg) && Goes(pg, step, pg')
    ensures Reachable(pg')
  {
    hide Enabled, Next;
    var states, steps :| Run(states, steps) && states[|states| - 1] == pg;
    var longer, further := states + [pg'], steps + [step];
    forall i | 0 <= i < |further| ensures Enabled(longer[i], further[i]) && longer[i + 1] == Next(longer[i], further[i]) {
      if i < |steps| { assert longer[i] == states[i] && longer[i + 1] == states[i + 1] && further[i] == steps[i]; }
    }
    assert Run(longer, further) && longer[|longer| - 1] == pg';
  }

  /** From empty tables: the charge is opened, a refund of it comes before it settled, is refused, and its claim commits. */
  lemma EarlyRefundIsRefused()
    ensures Goes(Alone(PENDING_CHARGE, 0, REFUNDING, 7, Claimed), ReadCharge(0),
                 Alone(PENDING_CHARGE, 0, REFUNDING, 7, Refused(L.UnknownCharge)))
    ensures Goes(Alone(PENDING_CHARGE, 0, REFUNDING, 7, Refused(L.UnknownCharge)), Commit(0), Idle(REFUSED))
    ensures Reachable(Idle(REFUSED)) && Orphan(REFUSED, SlotOf(REFUNDING))
  {
    hide Goes, Reachable;
    EmptyIsReachable();
    Begins(EMPTY_TABLES, 0, CHARGING, 1);
    StepsStayReachable(Idle(EMPTY_TABLES), Begin(0, CHARGING, 1), Alone(EMPTY_TABLES, 0, CHARGING, 1, Begun));
    ChargeClaims();
    StepsStayReachable(Alone(EMPTY_TABLES, 0, CHARGING, 1, Begun), Claim(0), Alone(EMPTY_TABLES, 0, CHARGING, 1, Claimed));
    ChargeInserts();
    StepsStayReachable(Alone(EMPTY_TABLES, 0, CHARGING, 1, Claimed), InsertCharge(0),
                       Alone(EMPTY_TABLES, 0, CHARGING, 1, ChargeInserted));
    ChargeCommits();
    StepsStayReachable(Alone(EMPTY_TABLES, 0, CHARGING, 1, ChargeInserted), Commit(0), Idle(PENDING_CHARGE));
    Begins(PENDING_CHARGE, 0, REFUNDING, 7);
    StepsStayReachable(Idle(PENDING_CHARGE), Begin(0, REFUNDING, 7), Alone(PENDING_CHARGE, 0, REFUNDING, 7, Begun));
    FirstClaims();
    StepsStayReachable(Alone(PENDING_CHARGE, 0, REFUNDING, 7, Begun), Claim(0), Alone(PENDING_CHARGE, 0, REFUNDING, 7, Claimed));
    FirstReads();
    StepsStayReachable(Alone(PENDING_CHARGE, 0, REFUNDING, 7, Claimed), ReadCharge(0),
                       Alone(PENDING_CHARGE, 0, REFUNDING, 7, Refused(L.UnknownCharge)));
    FirstCommits();
    StepsStayReachable(Alone(PENDING_CHARGE, 0, REFUNDING, 7, Refused(L.UnknownCharge)), Commit(0), Idle(REFUSED));
  }

  /**
   * The run continued: once the charge has succeeded the same request loses to
   * its own claim and can never answer, where the atomic ledger would now open it.
   */
  lemma RefusedRefundPoisonsItsKey()
    ensures var stuck := Alone(SETTLED, 1, REFUNDING, 8, Bumped(ORPHAN.(replays := 1)));
            && Reachable(stuck) && !Enabled(stuck, LoadResource(1)) && !Enabled(stuck, Commit(1))
            && L.OpenRefund(Abs(stuck.db), EARLY_REFUND, 8).1 == L.Created(8)
  {
    hide Goes, Reachable, Enabled, Abs, L.OpenRefund;
    EarlyRefundIsRefused();
    ChargeSettles();
    StepsStayReachable(Idle(REFUSED), MaterialiseCharge(1, L.Succeeded), Idle(SETTLED));
    assert Unused(SETTLED, 8);
    Begins(SETTLED, 1, REFUNDING, 8);
    StepsStayReachable(Idle(SETTLED), Begin(1, REFUNDING, 8), Alone(SETTLED, 1, REFUNDING, 8, Begun));
    SecondLoses();
    StepsStayReachable(Alone(SETTLED, 1, REFUNDING, 8, Begun), Claim(1), Alone(SETTLED, 1, REFUNDING, 8, Lost));
    SecondSelects();
    StepsStayReachable(Alone(SETTLED, 1, REFUNDING, 8, Lost), SelectForUpdate(1), Alone(SETTLED, 1, REFUNDING, 8, Selected(ORPHAN)));
    SecondBumps();
    StepsStayReachable(Alone(SETTLED, 1, REFUNDING, 8, Selected(ORPHAN)), BumpReplays(1),
                       Alone(SETTLED, 1, REFUNDING, 8, Bumped(ORPHAN.(replays := 1))));
    SecondIsStuck();
    AtomicLedgerWouldOpen();
  }
}
