/**
 * The provider's ledger: charges, refunds and the idempotency records that
 * decide which request owns which resource. Each operation is one atomic step.
 */
module Ledger {
  import opened Wrappers
  import opened Ids

  datatype ChargeStatus = Processing | Succeeded | Failed

  datatype Charge = Charge(
    reference: BookingId, amountMinor: nat, key: Key, correlationId: Option<nat>, status: ChargeStatus,
    materialised: bool, refundedMinor: nat, refundIds: seq<RefundId>, transientFailure: bool)

  datatype Refund = Refund(
    chargeId: ChargeId, reference: BookingId, amountMinor: nat, key: Key, correlationId: Option<nat>, materialised: bool)

  /** A fingerprint is a digest of the request body; here it is the body. */
  datatype Fingerprint = ChargeBody(reference: BookingId, amountMinor: nat) | RefundBody(chargeId: ChargeId, amount: nat)

  datatype Outcome = Accepted | Failed500

  datatype Record = Record(resourceId: nat, fingerprint: Fingerprint, outcome: Outcome, replays: nat)

  /** `charge:<key>` and `refund:<key>`: the scope is part of the slot. */
  datatype Slot = ChargeSlot(key: Key) | RefundSlot(key: Key)

  datatype State = State(charges: map<ChargeId, Charge>, refunds: map<RefundId, Refund>, idempotency: map<Slot, Record>)

  datatype ChargeRequest = ChargeRequest(
    key: Key, reference: BookingId, amountMinor: nat, correlationId: Option<nat>, transientFailure: bool)

  datatype RefundRequest = RefundRequest(key: Key, chargeId: ChargeId, amountMinor: nat, correlationId: Option<nat>)

  /** `Broken` is the source's throw: a record whose resource does not exist. */
  datatype OpenResult =
    | Created(id: nat)
    | Replayed(id: nat, record: Record)
    | FingerprintMismatch
    | UnknownCharge
    | NotRefundable(status: ChargeStatus)
    | ExceedsCharge(chargeAmountMinor: nat, refundedMinor: nat)
    | Broken

  function NewCharge(r: ChargeRequest): Charge {
    Charge(r.reference, r.amountMinor, r.key, r.correlationId, Processing, false, 0, [], r.transientFailure)
  }

  function NewRecord(r: ChargeRequest, id: ChargeId): Record {
    Record(id, ChargeBody(r.reference, r.amountMinor), if r.transientFailure then Failed500 else Accepted, 0)
  }

  /** A replay counts itself and changes nothing else. */
  function Bumped(s: State, slot: Slot): State
    requires slot in s.idempotency
  {
    s.(idempotency := s.idempotency[slot := s.idempotency[slot].(replays := s.idempotency[slot].replays + 1)])
  }

  function OpenCharge(s: State, r: ChargeRequest, newId: ChargeId): (State, OpenResult) {
    var slot := ChargeSlot(r.key);
    if slot in s.idempotency then
      var existing := s.idempotency[slot];
      if existing.fingerprint != ChargeBody(r.reference, r.amountMinor) then (s, FingerprintMismatch)
      else
        var s' := Bumped(s, slot);
        if existing.resourceId !in s.charges then (s', Broken) else (s', Replayed(existing.resourceId, s'.idempotency[slot]))
    else
      (s.(charges := s.charges[newId := NewCharge(r)], idempotency := s.idempotency[slot := NewRecord(r, newId)]),
       Created(newId))
  }

  /** Decides the outcome once; `false` tells a late caller that it was already decided. */
  function MaterialiseCharge(s: State, id: ChargeId, status: ChargeStatus): (State, bool) {
    if id !in s.charges || s.charges[id].materialised then (s, false)
    else (s.(charges := s.charges[id := s.charges[id].(materialised := true, status := status)]), true)
  }

  function RecoverFromTransientFailure(s: State, id: ChargeId, key: Key, correlationId: Option<nat>): State {
    var slot := ChargeSlot(key);
    var idempotency := if slot in s.idempotency then s.idempotency[slot := s.idempotency[slot].(outcome := Accepted)]
                       else s.idempotency;
    var charges := if id in s.charges && s.charges[id].correlationId.None?
                   then s.charges[id := s.charges[id].(correlationId := correlationId)] else s.charges;
    s.(charges := charges, idempotency := idempotency)
  }

  function NewRefund(charge: Charge, r: RefundRequest): Refund {
    Refund(r.chargeId, charge.reference, r.amountMinor, r.key,
           if r.correlationId.Some? then r.correlationId else charge.correlationId, false)
  }

  function OpenRefund(s: State, r: RefundRequest, newId: RefundId): (State, OpenResult) {
    var slot := RefundSlot(r.key);
    if slot in s.idempotency then
      var existing := s.idempotency[slot];
      if existing.fingerprint != RefundBody(r.chargeId, r.amountMinor) then (s, FingerprintMismatch)
      else
        var s' := Bumped(s, slot);
        if existing.resourceId !in s.refunds then (s', Broken) else (s', Replayed(existing.resourceId, s'.idempotency[slot]))
    else
      match Refusal(s, r)
      case Some(refusal) => (s, refusal)
      case None =>
        var charge := s.charges[r.chargeId];
        (State(s.charges[r.chargeId := charge.(refundIds := charge.refundIds + [newId],
                                               refundedMinor := charge.refundedMinor + r.amountMinor)],
               s.refunds[newId := NewRefund(charge, r)],
               s.idempotency[slot := Record(newId, RefundBody(r.chargeId, r.amountMinor), Accepted, 0)]),
         Created(newId))
  }

  /** Why a refund under an unseen key would be refused. */
  function Refusal(s: State, r: RefundRequest): (refusal: Option<OpenResult>)
    ensures refusal.None? ==> r.chargeId in s.charges
  {
    if r.chargeId !in s.charges || !s.charges[r.chargeId].materialised then Some(UnknownCharge)
    else
      var charge := s.charges[r.chargeId];
      if charge.status != Succeeded then Some(NotRefundable(charge.status))
      else if charge.refundedMinor + r.amountMinor > charge.amountMinor
      then Some(ExceedsCharge(charge.amountMinor, charge.refundedMinor))
      else None
  }

  function MaterialiseRefund(s: State, id: RefundId): (State, bool) {
    if id !in s.refunds || s.refunds[id].materialised then (s, false)
    else (s.(refunds := s.refunds[id := s.refunds[id].(materialised := true)]), true)
  }

  // --- What every operation keeps ------------------------------------------

  function SumRefunds(refunds: map<RefundId, Refund>, ids: seq<RefundId>): nat
    requires forall k :: 0 <= k < |ids| ==> ids[k] in refunds
  {
    if ids == [] then 0 else SumRefunds(refunds, ids[..|ids| - 1]) + refunds[ids[|ids| - 1]].amountMinor
  }

  /** A charge's key is claimed by that charge, for that body; an unpaid 500 is never materialised. */
  predicate Claimed(idempotency: map<Slot, Record>, id: ChargeId, c: Charge) {
    && ChargeSlot(c.key) in idempotency
    && idempotency[ChargeSlot(c.key)].resourceId == id
    && idempotency[ChargeSlot(c.key)].fingerprint == ChargeBody(c.reference, c.amountMinor)
    && (c.materialised ==> idempotency[ChargeSlot(c.key)].outcome == Accepted)
  }

  predicate RefundClaimed(idempotency: map<Slot, Record>, id: RefundId, r: Refund) {
    && RefundSlot(r.key) in idempotency
    && idempotency[RefundSlot(r.key)].resourceId == id
    && idempotency[RefundSlot(r.key)].fingerprint == RefundBody(r.chargeId, r.amountMinor)
  }

  predicate Settled(c: Charge) {
    && (c.materialised <==> c.status != Processing)
    && (c.refundIds != [] ==> c.status == Succeeded)
    && c.refundedMinor <= c.amountMinor
  }

  /** What a charge says was refunded is the sum of its own, distinct refunds. */
  ghost predicate Backed(refunds: map<RefundId, Refund>, id: ChargeId, c: Charge) {
    && (forall k :: 0 <= k < |c.refundIds| ==> c.refundIds[k] in refunds && refunds[c.refundIds[k]].chargeId == id)
    && (forall j, k :: 0 <= j < k < |c.refundIds| ==> c.refundIds[j] != c.refundIds[k])
    && c.refundedMinor == SumRefunds(refunds, c.refundIds)
  }

  predicate Resolves(charges: map<ChargeId, Charge>, refunds: map<RefundId, Refund>, slot: Slot, r: Record) {
    match slot
    case ChargeSlot(key) => r.resourceId in charges && charges[r.resourceId].key == key
    case RefundSlot(key) => r.resourceId in refunds && refunds[r.resourceId].key == key
  }

  /** Every record resolves to an existing resource that carries its key. */
  ghost predicate RecordsResolve(s: State) {
    forall slot :: slot in s.idempotency ==> Resolves(s.charges, s.refunds, slot, s.idempotency[slot])
  }

  ghost predicate ChargesClaimed(s: State) {
    forall id :: id in s.charges ==> Claimed(s.idempotency, id, s.charges[id]) && Settled(s.charges[id])
  }

  ghost predicate RefundsClaimed(s: State) {
    forall id :: id in s.refunds ==> RefundClaimed(s.idempotency, id, s.refunds[id])
  }

  ghost predicate AllBacked(charges: map<ChargeId, Charge>, refunds: map<RefundId, Refund>) {
    forall id :: id in charges ==> Backed(refunds, id, charges[id])
  }

  /** A refund is on its own charge's list and names the same booking. */
  predicate Listed(charges: map<ChargeId, Charge>, id: RefundId, r: Refund) {
    r.chargeId in charges && id in charges[r.chargeId].refundIds && charges[r.chargeId].reference == r.reference
  }

  ghost predicate AllListed(charges: map<ChargeId, Charge>, refunds: map<RefundId, Refund>) {
    forall id :: id in refunds ==> Listed(charges, id, refunds[id])
  }

  ghost predicate LedgerOk(s: State) {
    && RecordsResolve(s) && ChargesClaimed(s) && RefundsClaimed(s)
    && AllBacked(s.charges, s.refunds) && AllListed(s.charges, s.refunds)
  }

  predicate ChargeGrows(c: Charge, c': Charge) {
    && c'.reference == c.reference && c'.amountMinor == c.amountMinor && c'.key == c.key
    && (c.materialised ==> c'.materialised && c'.status == c.status)
    && c.refundIds <= c'.refundIds
  }

  predicate RefundGrows(r: Refund, r': Refund) { r' == r || r' == r.(materialised := true) }

  predicate RecordGrows(r: Record, r': Record) {
    r'.resourceId == r.resourceId && r'.fingerprint == r.fingerprint && (r.outcome == Accepted ==> r'.outcome == Accepted)
  }

  /** Resources only appear and settle; what they are for and how much never changes. */
  ghost predicate Grows(s: State, s': State) {
    && (forall id :: id in s.charges ==> id in s'.charges && ChargeGrows(s.charges[id], s'.charges[id]))
    && (forall id :: id in s.refunds ==> id in s'.refunds && RefundGrows(s.refunds[id], s'.refunds[id]))
    && (forall slot :: slot in s.idempotency ==> slot in s'.idempotency
                                                 && RecordGrows(s.idempotency[slot], s'.idempotency[slot]))
  }

  lemma GrowsTransitive(a: State, b: State, c: State)
    requires Grows(a, b) && Grows(b, c)
    ensures Grows(a, c)
  {
    forall id | id in a.charges ensures id in c.charges && ChargeGrows(a.charges[id], c.charges[id]) {
      assert ChargeGrows(a.charges[id], b.charges[id]) && ChargeGrows(b.charges[id], c.charges[id]);
      assert a.charges[id].refundIds <= b.charges[id].refundIds <= c.charges[id].refundIds;
    }
    forall id | id in a.refunds ensures id in c.refunds && RefundGrows(a.refunds[id], c.refunds[id]) {
      assert RefundGrows(a.refunds[id], b.refunds[id]) && RefundGrows(b.refunds[id], c.refunds[id]);
    }
  }

  lemma {:induction false} SumIgnoresOthers(refunds: map<RefundId, Refund>, refunds': map<RefundId, Refund>, ids: seq<RefundId>)
    requires forall k :: 0 <= k < |ids| ==> ids[k] in refunds
    requires forall id :: id in refunds ==> id in refunds' && refunds'[id].amountMinor == refunds[id].amountMinor
    ensures SumRefunds(refunds', ids) == SumRefunds(refunds, ids)
    decreases |ids|
  {
    if ids != [] { SumIgnoresOthers(refunds, refunds', ids[..|ids| - 1]); }
  }

  /** One charge moves on without touching its money or its key; records still answer for it. */
  predicate Progresses(idempotency: map<Slot, Record>, c: Charge, c': Charge) {
    && c' == c.(correlationId := c'.correlationId, materialised := c'.materialised, status := c'.status)
    && (c.materialised ==> c'.materialised && c'.status == c.status)
    && (c'.materialised <==> c'.status != Processing)
    && (c'.materialised ==> ChargeSlot(c.key) in idempotency && idempotency[ChargeSlot(c.key)].outcome == Accepted)
  }

  ghost predicate Progress(s: State, s': State) {
    && s'.refunds == s.refunds
    && (forall id :: id in s'.charges <==> id in s.charges)
    && (forall id :: id in s.charges ==> Progresses(s'.idempotency, s.charges[id], s'.charges[id]))
    && (forall slot :: slot in s'.idempotency <==> slot in s.idempotency)
    && (forall slot :: slot in s.idempotency ==> RecordGrows(s.idempotency[slot], s'.idempotency[slot]))
  }

  lemma ProgressKeepsRecords(s: State, s': State)
    requires Progress(s, s') && RecordsResolve(s)
    ensures RecordsResolve(s')
  {
    forall slot | slot in s'.idempotency ensures Resolves(s'.charges, s'.refunds, slot, s'.idempotency[slot]) {
      assert Resolves(s.charges, s.refunds, slot, s.idempotency[slot]);
      assert RecordGrows(s.idempotency[slot], s'.idempotency[slot]);
      var id := s.idempotency[slot].resourceId;
      if slot.ChargeSlot? { assert Progresses(s'.idempotency, s.charges[id], s'.charges[id]); }
    }
  }

  lemma ProgressKeepsClaims(s: State, s': State)
    requires Progress(s, s') && ChargesClaimed(s) && RefundsClaimed(s)
    ensures ChargesClaimed(s') && RefundsClaimed(s')
  {
    forall id | id in s'.charges ensures Claimed(s'.idempotency, id, s'.charges[id]) && Settled(s'.charges[id]) {
      assert Claimed(s.idempotency, id, s.charges[id]) && Settled(s.charges[id]);
      assert Progresses(s'.idempotency, s.charges[id], s'.charges[id]);
      var slot := ChargeSlot(s.charges[id].key);
      assert RecordGrows(s.idempotency[slot], s'.idempotency[slot]);
    }
    forall id | id in s'.refunds ensures RefundClaimed(s'.idempotency, id, s'.refunds[id]) {
      assert RefundClaimed(s.idempotency, id, s.refunds[id]);
      var slot := RefundSlot(s.refunds[id].key);
      assert RecordGrows(s.idempotency[slot], s'.idempotency[slot]);
    }
  }

  lemma ProgressKeepsMoney(s: State, s': State)
    requires Progress(s, s') && AllBacked(s.charges, s.refunds) && AllListed(s.charges, s.refunds)
    ensures AllBacked(s'.charges, s'.refunds) && AllListed(s'.charges, s'.refunds)
  {
    forall id | id in s'.charges ensures Backed(s'.refunds, id, s'.charges[id]) {
      assert Backed(s.refunds, id, s.charges[id]) && Progresses(s'.idempotency, s.charges[id], s'.charges[id]);
    }
    forall id | id in s'.refunds ensures Listed(s'.charges, id, s'.refunds[id]) {
      assert Listed(s.charges, id, s.refunds[id]);
      var c := s.refunds[id].chargeId;
      assert Progresses(s'.idempotency, s.charges[c], s'.charges[c]);
    }
  }

  lemma ProgressKeeps(s: State, s': State)
    requires LedgerOk(s) && Progress(s, s')
    ensures LedgerOk(s') && Grows(s, s')
  {
    ProgressKeepsRecords(s, s');
    ProgressKeepsClaims(s, s');
    ProgressKeepsMoney(s, s');
    forall id | id in s.charges ensures ChargeGrows(s.charges[id], s'.charges[id]) {
      assert Progresses(s'.idempotency, s.charges[id], s'.charges[id]);
    }
  }

  lemma ReplayProgresses(s: State, slot: Slot)
    requires ChargesClaimed(s) && slot in s.idempotency
    ensures Progress(s, Bumped(s, slot))
  {
    var s' := Bumped(s, slot);
    forall id | id in s.charges ensures Progresses(s'.idempotency, s.charges[id], s'.charges[id]) {
      assert Claimed(s.idempotency, id, s.charges[id]) && Settled(s.charges[id]);
    }
  }

  lemma ReplayKeeps(s: State, slot: Slot)
    requires LedgerOk(s) && slot in s.idempotency
    ensures LedgerOk(Bumped(s, slot)) && Grows(s, Bumped(s, slot))
  {
    ReplayProgresses(s, slot);
    ProgressKeeps(s, Bumped(s, slot));
  }

  lemma StandsStill(s: State)
    ensures Grows(s, s)
  {
  }

  lemma NewChargeKeepsClaims(s: State, r: ChargeRequest, newId: ChargeId)
    requires RecordsResolve(s) && ChargesClaimed(s) && RefundsClaimed(s)
    requires newId !in s.charges && ChargeSlot(r.key) !in s.idempotency
    ensures var s' := OpenCharge(s, r, newId).0; RecordsResolve(s') && ChargesClaimed(s') && RefundsClaimed(s')
  {
    var s' := OpenCharge(s, r, newId).0;
    forall slot | slot in s'.idempotency ensures Resolves(s'.charges, s'.refunds, slot, s'.idempotency[slot]) {
      if slot in s.idempotency { assert Resolves(s.charges, s.refunds, slot, s.idempotency[slot]); }
    }
    forall id | id in s'.charges ensures Claimed(s'.idempotency, id, s'.charges[id]) && Settled(s'.charges[id]) {
      if id in s.charges { assert Claimed(s.idempotency, id, s.charges[id]) && Settled(s.charges[id]); }
    }
    forall id | id in s'.refunds ensures RefundClaimed(s'.idempotency, id, s'.refunds[id]) {
      assert RefundClaimed(s.idempotency, id, s.refunds[id]);
    }
  }

  lemma NewChargeKeepsMoney(s: State, r: ChargeRequest, newId: ChargeId)
    requires AllBacked(s.charges, s.refunds) && AllListed(s.charges, s.refunds)
    requires newId !in s.charges && ChargeSlot(r.key) !in s.idempotency
    ensures var s' := OpenCharge(s, r, newId).0; AllBacked(s'.charges, s'.refunds) && AllListed(s'.charges, s'.refunds)
  {
    var s' := OpenCharge(s, r, newId).0;
    forall id | id in s'.charges ensures Backed(s'.refunds, id, s'.charges[id]) {
      if id in s.charges { assert Backed(s.refunds, id, s.charges[id]); }
    }
    forall id | id in s'.refunds ensures Listed(s'.charges, id, s'.refunds[id]) {
      assert Listed(s.charges, id, s.refunds[id]);
    }
  }

  lemma NewChargeKeeps(s: State, r: ChargeRequest, newId: ChargeId)
    requires LedgerOk(s) && newId !in s.charges && ChargeSlot(r.key) !in s.idempotency
    ensures LedgerOk(OpenCharge(s, r, newId).0) && Grows(s, OpenCharge(s, r, newId).0)
  {
    hide RecordsResolve, ChargesClaimed, RefundsClaimed, AllBacked, AllListed, OpenCharge, Grows;
    NewChargeKeepsClaims(s, r, newId);
    NewChargeKeepsMoney(s, r, newId);
    NewChargeGrows(s, r, newId);
  }

  lemma NewChargeGrows(s: State, r: ChargeRequest, newId: ChargeId)
    requires newId !in s.charges && ChargeSlot(r.key) !in s.idempotency
    ensures Grows(s, OpenCharge(s, r, newId).0)
  {
  }

  /** A claim, a replay or a mismatch: the ledger stays consistent and nothing already opened changes. */
  lemma OpenChargeKeeps(s: State, r: ChargeRequest, newId: ChargeId)
    requires LedgerOk(s) && newId !in s.charges
    ensures LedgerOk(OpenCharge(s, r, newId).0) && Grows(s, OpenCharge(s, r, newId).0)
  {
    hide LedgerOk, Grows;
    StandsStill(s);
    if ChargeSlot(r.key) in s.idempotency { ReplayKeeps(s, ChargeSlot(r.key)); } else { NewChargeKeeps(s, r, newId); }
  }

  /** What a request is answered with is the resource its own key and body claimed. */
  lemma OpenChargeAnswers(s: State, r: ChargeRequest, newId: ChargeId)
    requires LedgerOk(s) && newId !in s.charges
    ensures var (s', result) := OpenCharge(s, r, newId);
            match result
            case Created(id) =>
              && ChargeSlot(r.key) !in s.idempotency && id == newId && s'.charges == s.charges[id := NewCharge(r)]
              && s'.charges[id].reference == r.reference && s'.charges[id].amountMinor == r.amountMinor
              && s'.charges[id].key == r.key && s'.charges[id].status == Processing && s'.charges[id].refundedMinor == 0
            case Replayed(id, record) =>
              && id in s.charges && s'.charges == s.charges && record == s'.idempotency[ChargeSlot(r.key)]
              && s.charges[id].key == r.key && s.charges[id].reference == r.reference
              && s.charges[id].amountMinor == r.amountMinor
            case FingerprintMismatch =>
              s' == s && s.idempotency[ChargeSlot(r.key)].fingerprint != ChargeBody(r.reference, r.amountMinor)
            case _ => false
  {
    if ChargeSlot(r.key) in s.idempotency {
      var id := s.idempotency[ChargeSlot(r.key)].resourceId;
      assert id in s.charges && s.charges[id].key == r.key;
      assert Claimed(s.idempotency, id, s.charges[id]);
    }
  }

  lemma MaterialiseProgresses(s: State, id: ChargeId, status: ChargeStatus)
    requires ChargesClaimed(s) && status != Processing
    requires id in s.charges ==>
      ChargeSlot(s.charges[id].key) in s.idempotency && s.idempotency[ChargeSlot(s.charges[id].key)].outcome == Accepted
    ensures Progress(s, MaterialiseCharge(s, id, status).0)
  {
    var s' := MaterialiseCharge(s, id, status).0;
    forall c | c in s.charges ensures Progresses(s'.idempotency, s.charges[c], s'.charges[c]) {
      assert Claimed(s.idempotency, c, s.charges[c]) && Settled(s.charges[c]);
    }
  }

  lemma MaterialiseChargeKeeps(s: State, id: ChargeId, status: ChargeStatus)
    requires LedgerOk(s) && status != Processing
    requires id in s.charges ==>
      ChargeSlot(s.charges[id].key) in s.idempotency && s.idempotency[ChargeSlot(s.charges[id].key)].outcome == Accepted
    ensures LedgerOk(MaterialiseCharge(s, id, status).0) && Grows(s, MaterialiseCharge(s, id, status).0)
  {
    hide ChargesClaimed, RecordsResolve, RefundsClaimed, AllBacked, AllListed, Progress, Grows;
    MaterialiseProgresses(s, id, status);
    ProgressKeeps(s, MaterialiseCharge(s, id, status).0);
  }

  lemma RecoverProgresses(s: State, id: ChargeId, key: Key, correlationId: Option<nat>)
    requires ChargesClaimed(s)
    ensures Progress(s, RecoverFromTransientFailure(s, id, key, correlationId))
  {
    var s' := RecoverFromTransientFailure(s, id, key, correlationId);
    forall c | c in s.charges ensures Progresses(s'.idempotency, s.charges[c], s'.charges[c]) {
      assert Claimed(s.idempotency, c, s.charges[c]) && Settled(s.charges[c]);
    }
  }

  lemma RecoverKeeps(s: State, id: ChargeId, key: Key, correlationId: Option<nat>)
    requires LedgerOk(s)
    ensures var s' := RecoverFromTransientFailure(s, id, key, correlationId);
            && LedgerOk(s') && Grows(s, s')
            && (ChargeSlot(key) in s.idempotency ==> s'.idempotency[ChargeSlot(key)].outcome == Accepted)
            && s'.charges.Keys == s.charges.Keys
            && forall c :: c in s.charges ==>
                 s'.charges[c] == if c == id && s.charges[c].correlationId.None? then s.charges[c].(correlationId := correlationId)
                                  else s.charges[c]
  {
    RecoverProgresses(s, id, key, correlationId);
    RecoverLeaves(s, id, key, correlationId);
    hide RecoverFromTransientFailure, LedgerOk, Grows, Progress;
    ProgressKeeps(s, RecoverFromTransientFailure(s, id, key, correlationId));
  }

  lemma RecoverLeaves(s: State, id: ChargeId, key: Key, correlationId: Option<nat>)
    ensures var s' := RecoverFromTransientFailure(s, id, key, correlationId);
            && (ChargeSlot(key) in s.idempotency ==>
                  ChargeSlot(key) in s'.idempotency && s'.idempotency[ChargeSlot(key)].outcome == Accepted)
            && s'.charges.Keys == s.charges.Keys
            && forall c :: c in s.charges ==>
                 s'.charges[c] == if c == id && s.charges[c].correlationId.None? then s.charges[c].(correlationId := correlationId)
                                  else s.charges[c]
  {
  }

  lemma NewRefundKeepsMoney(s: State, r: RefundRequest, newId: RefundId)
    requires AllBacked(s.charges, s.refunds)
    requires newId !in s.refunds && RefundSlot(r.key) !in s.idempotency && Refusal(s, r).None?
    ensures var s' := OpenRefund(s, r, newId).0; AllBacked(s'.charges, s'.refunds)
  {
    var s' := OpenRefund(s, r, newId).0;
    forall id | id in s'.charges ensures Backed(s'.refunds, id, s'.charges[id]) {
      var c := s.charges[id];
      assert Backed(s.refunds, id, c);
      SumIgnoresOthers(s.refunds, s'.refunds, c.refundIds);
      if id == r.chargeId {
        var ids := c.refundIds + [newId];
        assert ids[..|ids| - 1] == c.refundIds;
        assert SumRefunds(s'.refunds, ids) == SumRefunds(s'.refunds, c.refundIds) + r.amountMinor;
      }
    }
  }

  lemma NewRefundIsListed(s: State, r: RefundRequest, newId: RefundId)
    requires AllListed(s.charges, s.refunds)
    requires newId !in s.refunds && RefundSlot(r.key) !in s.idempotency && Refusal(s, r).None?
    ensures var s' := OpenRefund(s, r, newId).0; AllListed(s'.charges, s'.refunds)
  {
    var s' := OpenRefund(s, r, newId).0;
    forall id | id in s'.refunds ensures Listed(s'.charges, id, s'.refunds[id]) {
      if id in s.refunds { assert Listed(s.charges, id, s.refunds[id]); }
    }
  }

  lemma NewRefundKeepsClaims(s: State, r: RefundRequest, newId: RefundId)
    requires RecordsResolve(s) && ChargesClaimed(s) && RefundsClaimed(s)
    requires newId !in s.refunds && RefundSlot(r.key) !in s.idempotency && Refusal(s, r).None?
    ensures var s' := OpenRefund(s, r, newId).0;
            RecordsResolve(s') && ChargesClaimed(s') && RefundsClaimed(s') && Grows(s, s')
  {
    hide RecordsResolve, Resolves;
    var s' := OpenRefund(s, r, newId).0;
    NewRefundResolves(s, r, newId);
    forall id | id in s'.charges
      ensures Claimed(s'.idempotency, id, s'.charges[id]) && Settled(s'.charges[id])
      ensures ChargeGrows(s.charges[id], s'.charges[id])
    {
      assert Claimed(s.idempotency, id, s.charges[id]) && Settled(s.charges[id]);
    }
    forall id | id in s'.refunds ensures RefundClaimed(s'.idempotency, id, s'.refunds[id]) {
      if id in s.refunds { assert RefundClaimed(s.idempotency, id, s.refunds[id]); }
    }
  }

  lemma NewRefundResolves(s: State, r: RefundRequest, newId: RefundId)
    requires RecordsResolve(s)
    requires newId !in s.refunds && RefundSlot(r.key) !in s.idempotency && Refusal(s, r).None?
    ensures RecordsResolve(OpenRefund(s, r, newId).0)
  {
    var s' := OpenRefund(s, r, newId).0;
    forall slot | slot in s'.idempotency ensures Resolves(s'.charges, s'.refunds, slot, s'.idempotency[slot]) {
      if slot in s.idempotency { assert Resolves(s.charges, s.refunds, slot, s.idempotency[slot]); }
    }
  }

  lemma OpenRefundKeeps(s: State, r: RefundRequest, newId: RefundId)
    requires LedgerOk(s) && newId !in s.refunds
    ensures LedgerOk(OpenRefund(s, r, newId).0) && Grows(s, OpenRefund(s, r, newId).0)
  {
    StandsStill(s);
    if RefundSlot(r.key) in s.idempotency {
      ReplayKeeps(s, RefundSlot(r.key));
    } else if Refusal(s, r).None? {
      NewRefundKeepsMoney(s, r, newId);
      NewRefundIsListed(s, r, newId);
      NewRefundKeepsClaims(s, r, newId);
    }
  }

  lemma OpenRefundAnswers(s: State, r: RefundRequest, newId: RefundId)
    requires LedgerOk(s) && newId !in s.refunds
    ensures var (s', result) := OpenRefund(s, r, newId);
            match result
            case Created(id) =>
              && RefundSlot(r.key) !in s.idempotency && id == newId && r.chargeId in s.charges
              && s'.refunds == s.refunds[id := Refund(
                   r.chargeId, s.charges[r.chargeId].reference, r.amountMinor, r.key,
                   if r.correlationId.None? then s.charges[r.chargeId].correlationId else r.correlationId, false)]
              && s'.charges.Keys == s.charges.Keys
              && s.charges[r.chargeId].materialised && s.charges[r.chargeId].status == Succeeded
              && s.charges[r.chargeId].refundedMinor + r.amountMinor <= s.charges[r.chargeId].amountMinor
            case Replayed(id, record) =>
              && id in s.refunds && s'.refunds == s.refunds && s'.charges == s.charges
              && s.refunds[id].key == r.key && s.refunds[id].chargeId == r.chargeId
              && s.refunds[id].amountMinor == r.amountMinor
            case UnknownCharge =>
              s' == s && (r.chargeId !in s.charges || !s.charges[r.chargeId].materialised)
            case NotRefundable(status) =>
              s' == s && r.chargeId in s.charges && status == s.charges[r.chargeId].status == Failed
            case ExceedsCharge(amount, refunded) =>
              && s' == s && r.chargeId in s.charges && amount == s.charges[r.chargeId].amountMinor
              && refunded == s.charges[r.chargeId].refundedMinor && r.amountMinor > amount - refunded
            case FingerprintMismatch =>
              && s' == s && RefundSlot(r.key) in s.idempotency
              && s.idempotency[RefundSlot(r.key)].fingerprint != RefundBody(r.chargeId, r.amountMinor)
            case Broken => false
  {
    hide AllBacked, AllListed, SumRefunds;
    assert r.chargeId in s.charges ==> Settled(s.charges[r.chargeId]);
    if RefundSlot(r.key) in s.idempotency {
      var id := s.idempotency[RefundSlot(r.key)].resourceId;
      assert id in s.refunds && s.refunds[id].key == r.key;
      assert RefundClaimed(s.idempotency, id, s.refunds[id]);
    }
  }

  lemma MaterialiseRefundKeepsMoney(s: State, id: RefundId)
    requires AllBacked(s.charges, s.refunds)
    ensures var s' := MaterialiseRefund(s, id).0; AllBacked(s'.charges, s'.refunds)
  {
    var s' := MaterialiseRefund(s, id).0;
    forall c | c in s'.charges ensures Backed(s'.refunds, c, s'.charges[c]) {
      assert Backed(s.refunds, c, s.charges[c]);
      SumIgnoresOthers(s.refunds, s'.refunds, s.charges[c].refundIds);
    }
  }

  lemma MaterialiseRefundKeepsClaims(s: State, id: RefundId)
    requires RecordsResolve(s) && RefundsClaimed(s) && AllListed(s.charges, s.refunds)
    ensures var s' := MaterialiseRefund(s, id).0;
            RecordsResolve(s') && RefundsClaimed(s') && AllListed(s'.charges, s'.refunds) && Grows(s, s')
  {
    hide RecordsResolve, Resolves;
    var s' := MaterialiseRefund(s, id).0;
    forall r | r in s'.refunds
      ensures RefundClaimed(s'.idempotency, r, s'.refunds[r]) && Listed(s'.charges, r, s'.refunds[r])
    {
      assert RefundClaimed(s.idempotency, r, s.refunds[r]) && Listed(s.charges, r, s.refunds[r]);
    }
    SettledRecordsResolve(s, id);
  }

  lemma SettledRecordsResolve(s: State, id: RefundId)
    requires RecordsResolve(s)
    ensures RecordsResolve(MaterialiseRefund(s, id).0)
  {
    var s' := MaterialiseRefund(s, id).0;
    forall slot | slot in s'.idempotency ensures Resolves(s'.charges, s'.refunds, slot, s'.idempotency[slot]) {
      assert Resolves(s.charges, s.refunds, slot, s.idempotency[slot]);
    }
  }

  lemma MaterialiseRefundKeeps(s: State, id: RefundId)
    requires LedgerOk(s)
    ensures LedgerOk(MaterialiseRefund(s, id).0) && Grows(s, MaterialiseRefund(s, id).0)
  {
    MaterialiseRefundKeepsMoney(s, id);
    MaterialiseRefundKeepsClaims(s, id);
  }
}

/** The in-memory ledger: three maps, each method atomic between awaits. */
module MemoryLedger {
  import opened Wrappers
  import opened Ids
  import Ledger

  class MemoryLedger {
    var charges: map<ChargeId, Ledger.Charge>
    var refunds: map<RefundId, Ledger.Refund>
    var idempotency: map<Ledger.Slot, Ledger.Record>

    constructor ()
      ensures State() == Ledger.State(map[], map[], map[])
    {
      charges, refunds, idempotency := map[], map[], map[];
    }

    function State(): Ledger.State
      reads this
    {
      Ledger.State(charges, refunds, idempotency)
    }

    method OpenCharge(input: Ledger.ChargeRequest, newId: ChargeId) returns (result: Ledger.OpenResult)
      modifies this
      ensures (State(), result) == Ledger.OpenCharge(old(State()), input, newId)
    {
      var slot := Ledger.ChargeSlot(input.key);
      if slot in idempotency {
        var existing := idempotency[slot];
        if existing.fingerprint != Ledger.ChargeBody(input.reference, input.amountMinor) {
          return Ledger.FingerprintMismatch;
        }
        existing := existing.(replays := existing.replays + 1);
        idempotency := idempotency[slot := existing];
        if existing.resourceId !in charges { return Ledger.Broken; }
        return Ledger.Replayed(existing.resourceId, existing);
      }
      charges := charges[newId := Ledger.Charge(input.reference, input.amountMinor, input.key, input.correlationId,
                                                Ledger.Processing, false, 0, [], input.transientFailure)];
      var outcome := if input.transientFailure then Ledger.Failed500 else Ledger.Accepted;
      idempotency := idempotency[slot :=
        Ledger.Record(newId, Ledger.ChargeBody(input.reference, input.amountMinor), outcome, 0)];
      return Ledger.Created(newId);
    }

    method MaterialiseCharge(id: ChargeId, status: Ledger.ChargeStatus) returns (settled: bool)
      modifies this
      ensures (State(), settled) == Ledger.MaterialiseCharge(old(State()), id, status)
    {
      if id !in charges { return false; }
      var charge := charges[id];
      if charge.materialised { return false; }
      charges := charges[id := charge.(materialised := true, status := status)];
      return true;
    }

    method RecoverFromTransientFailure(id: ChargeId, key: Key, correlationId: Option<nat>)
      modifies this
      ensures State() == Ledger.RecoverFromTransientFailure(old(State()), id, key, correlationId)
    {
      var slot := Ledger.ChargeSlot(key);
      if slot in idempotency { idempotency := idempotency[slot := idempotency[slot].(outcome := Ledger.Accepted)]; }
      if id in charges && charges[id].correlationId.None? {
        charges := charges[id := charges[id].(correlationId := correlationId)];
      }
    }

    method OpenRefund(input: Ledger.RefundRequest, newId: RefundId) returns (result: Ledger.OpenResult)
      modifies this
      ensures (State(), result) == Ledger.OpenRefund(old(State()), input, newId)
    {
      var slot := Ledger.RefundSlot(input.key);
      if slot in idempotency {
        var existing := idempotency[slot];
        if existing.fingerprint != Ledger.RefundBody(input.chargeId, input.amountMinor) {
          return Ledger.FingerprintMismatch;
        }
        existing := existing.(replays := existing.replays + 1);
        idempotency := idempotency[slot := existing];
        if existing.resourceId !in refunds { return Ledger.Broken; }
        return Ledger.Replayed(existing.resourceId, existing);
      }
      if input.chargeId !in charges { return Ledger.UnknownCharge; }
      var charge := charges[input.chargeId];
      if !charge.materialised { return Ledger.UnknownCharge; }
      if charge.status != Ledger.Succeeded { return Ledger.NotRefundable(charge.status); }
      if charge.refundedMinor + input.amountMinor > charge.amountMinor {
        return Ledger.ExceedsCharge(charge.amountMinor, charge.refundedMinor);
      }
      var correlationId := if input.correlationId.Some? then input.correlationId else charge.correlationId;
      refunds := refunds[newId :=
        Ledger.Refund(input.chargeId, charge.reference, input.amountMinor, input.key, correlationId, false)];
      charge := charge.(refundIds := charge.refundIds + [newId]);
      charge := charge.(refundedMinor := charge.refundedMinor + input.amountMinor);
      charges := charges[input.chargeId := charge];
      idempotency := idempotency[slot :=
        Ledger.Record(newId, Ledger.RefundBody(input.chargeId, input.amountMinor), Ledger.Accepted, 0)];
      return Ledger.Created(newId);
    }

    method MaterialiseRefund(id: RefundId) returns (settled: bool)
      modifies this
      ensures (State(), settled) == Ledger.MaterialiseRefund(old(State()), id)
    {
      if id !in refunds { return false; }
      var refund := refunds[id];
      if refund.materialised { return false; }
      refunds := refunds[id := refund.(materialised := true)];
      return true;
    }
  }
}
