/**
 * The reconciliation report: nine checks over the stored rows, each naming one
 * way money could have been lost and listing every row that shows it.
 */
module Reconciliation {
  import opened Wrappers
  import opened RefundPolicy
  import opened Ids
  import opened Database

  datatype Kind =
    | CaptureWithoutConfirmation | ConfirmationWithoutCapture | DoubleCapture | RefundWithoutCapture
    | RefundInitiatedNotSettled | RefundAcceptedNotSettled | ChargeAcceptedNotSettled | OverRefunded
    | UnmatchedDelivery

  /** The row a discrepancy was found in: it keeps UNION ALL from merging equal lines. */
  datatype Source = PaymentRow(key: Key) | BookingRow(id: BookingId) | DeliveryRow(row: nat)

  datatype Discrepancy = Discrepancy(
    kind: Kind, source: Source, bookingId: Option<BookingId>, chargeId: Option<ChargeId>,
    amountMinor: Option<int>, observedAt: int)

  /** The half-open reporting window, the clock, and how long a row may stay unsettled. */
  datatype Window = Window(from: int, to: int, now: int, graceSeconds: int)

  function Grace(w: Window): int { Max(0, w.graceSeconds) * 1000 }

  predicate InWindow(w: Window, at: int) { w.from <= at < w.to }

  predicate PastGrace(w: Window, at: int) { at < w.now - Grace(w) }

  /** Payments created in the window, joined with their bookings. */
  function Settled(s: Api, w: Window): set<Key> {
    set k | k in s.payments && s.payments[k].bookingId < |s.bookings| && InWindow(w, s.payments[k].createdAt)
  }

  predicate HasCaptured(p: Payment) { p.status in {SUCCEEDED, PaymentStatus.REFUNDED} }

  function OnPayment(kind: Kind, k: Key, p: Payment, amountMinor: int): Discrepancy {
    Discrepancy(kind, PaymentRow(k), Some(p.bookingId), p.chargeId, Some(amountMinor), p.updatedAt)
  }

  function CapturesWithoutConfirmation(s: Api, w: Window): set<Discrepancy> {
    set k | k in Settled(s, w) && s.payments[k].status == SUCCEEDED
            && s.bookings[s.payments[k].bookingId].status != CONFIRMED
            && s.bookings[s.payments[k].bookingId].status != COMPLETED && PastGrace(w, s.payments[k].updatedAt)
      :: OnPayment(CaptureWithoutConfirmation, k, s.payments[k], s.payments[k].amountMinor)
  }

  predicate PaidFor(s: Api, id: BookingId) {
    exists k :: k in s.payments && s.payments[k].bookingId == id && HasCaptured(s.payments[k])
  }

  function ConfirmationsWithoutCapture(s: Api, w: Window): set<Discrepancy> {
    set id: nat | id < |s.bookings| && s.bookings[id].status in {CONFIRMED, COMPLETED}
                  && InWindow(w, s.bookings[id].updatedAt) && PastGrace(w, s.bookings[id].updatedAt) && !PaidFor(s, id)
      :: Discrepancy(ConfirmationWithoutCapture, BookingRow(id), Some(id), None, Some(s.bookings[id].totalMinor),
                     s.bookings[id].updatedAt)
  }

  function CapturedFor(s: Api, w: Window, id: BookingId): set<Key> {
    set k | k in Settled(s, w) && s.payments[k].bookingId == id && HasCaptured(s.payments[k])
  }

  ghost function SumOver(amounts: map<Key, int>, keys: set<Key>): int
    requires keys <= amounts.Keys
  {
    if keys == {} then 0 else var k :| k in keys; amounts[k] + SumOver(amounts, keys - {k})
  }

  /** A sum over rows does not depend on the order they are taken in. */
  lemma {:induction false} SumTakesOut(amounts: map<Key, int>, keys: set<Key>, k: Key)
    requires keys <= amounts.Keys && k in keys
    ensures SumOver(amounts, keys) == amounts[k] + SumOver(amounts, keys - {k})
    decreases |keys|
  {
    var j :| j in keys && SumOver(amounts, keys) == amounts[j] + SumOver(amounts, keys - {j});
    if j != k {
      SumTakesOut(amounts, keys - {j}, k);
      SumTakesOut(amounts, keys - {k}, j);
      assert keys - {j} - {k} == keys - {k} - {j};
    }
  }

  function Amounts(payments: map<Key, Payment>): map<Key, int> { map k | k in payments :: payments[k].amountMinor }

  function Refunds(payments: map<Key, Payment>): map<Key, int> { map k | k in payments :: payments[k].refundedMinor }

  ghost function LatestUpdate(payments: map<Key, Payment>, keys: set<Key>): int
    requires keys <= payments.Keys && keys != {}
  {
    var k :| k in keys;
    if keys == {k} then payments[k].updatedAt
    else
      assert keys - {k} != {};
      Max(payments[k].updatedAt, LatestUpdate(payments, keys - {k}))
  }

  ghost function DoubleCaptures(s: Api, w: Window): set<Discrepancy> {
    set id: nat | id < |s.bookings| && |CapturedFor(s, w, id)| > 1
      :: Discrepancy(DoubleCapture, BookingRow(id), Some(id), None, Some(SumOver(Amounts(s.payments), CapturedFor(s, w, id))),
                     LatestUpdate(s.payments, CapturedFor(s, w, id)))
  }

  predicate CaptureRecorded(s: Api, p: Payment) {
    p.chargeId.Some? && EventKey(p.chargeId.value, ChargeSucceeded) in s.events
  }

  function RefundsWithoutCapture(s: Api, w: Window): set<Discrepancy> {
    set k | k in Settled(s, w) && (s.payments[k].status == PaymentStatus.REFUNDED || s.payments[k].refundedMinor > 0)
            && !CaptureRecorded(s, s.payments[k])
      :: OnPayment(RefundWithoutCapture, k, s.payments[k], s.payments[k].refundedMinor)
  }

  function RefundsInitiatedNotSettled(s: Api, w: Window): set<Discrepancy> {
    set k | k in Settled(s, w) && s.payments[k].refundKey.Some? && s.payments[k].refundId.None?
            && s.payments[k].status != PaymentStatus.REFUNDED && PastGrace(w, s.payments[k].updatedAt)
      :: OnPayment(RefundInitiatedNotSettled, k, s.payments[k], s.payments[k].amountMinor)
  }

  function RefundsAcceptedNotSettled(s: Api, w: Window): set<Discrepancy> {
    set k | k in Settled(s, w) && s.payments[k].refundId.Some?
            && s.payments[k].status != PaymentStatus.REFUNDED && PastGrace(w, s.payments[k].updatedAt)
      :: OnPayment(RefundAcceptedNotSettled, k, s.payments[k], s.payments[k].amountMinor)
  }

  function ChargesAcceptedNotSettled(s: Api, w: Window): set<Discrepancy> {
    set k | k in Settled(s, w) && s.payments[k].status == PENDING && s.payments[k].chargeId.Some?
            && PastGrace(w, s.payments[k].updatedAt)
      :: OnPayment(ChargeAcceptedNotSettled, k, s.payments[k], s.payments[k].amountMinor)
  }

  function OverRefunds(s: Api, w: Window): set<Discrepancy> {
    set k | k in Settled(s, w) && s.payments[k].refundedMinor > s.payments[k].amountMinor
      :: OnPayment(OverRefunded, k, s.payments[k], s.payments[k].refundedMinor)
  }

  function UnmatchedDeliveries(s: Api, w: Window): set<Discrepancy> {
    set row: nat | row < |s.deliveries| && s.deliveries[row].signatureValid && s.deliveries[row].processedAt.None?
                   && InWindow(w, s.deliveries[row].receivedAt) && PastGrace(w, s.deliveries[row].receivedAt)
      :: Discrepancy(UnmatchedDelivery, DeliveryRow(row), None, s.deliveries[row].chargeId, None, s.deliveries[row].receivedAt)
  }

  ghost function Discrepancies(s: Api, w: Window): set<Discrepancy> {
    CapturesWithoutConfirmation(s, w) + ConfirmationsWithoutCapture(s, w) + DoubleCaptures(s, w)
    + RefundsWithoutCapture(s, w) + RefundsInitiatedNotSettled(s, w) + RefundsAcceptedNotSettled(s, w)
    + ChargesAcceptedNotSettled(s, w) + OverRefunds(s, w) + UnmatchedDeliveries(s, w)
  }

  // --- When the checks that never fire in the composed system would -----------------------------

  /** Captured in the window, for this booking. */
  predicate CapturedIn(s: Api, w: Window, id: BookingId, k: Key) {
    && k in s.payments && s.payments[k].bookingId == id < |s.bookings|
    && w.from <= s.payments[k].createdAt < w.to && s.payments[k].status in {SUCCEEDED, PaymentStatus.REFUNDED}
  }

  /** A double capture is two payments of one booking, both captured in the window. */
  lemma DoubleCaptureIff(s: Api, w: Window, id: BookingId)
    ensures (exists d :: d in DoubleCaptures(s, w) && d.bookingId == Some(id))
            <==> exists j, k :: j != k && CapturedIn(s, w, id, j) && CapturedIn(s, w, id, k)
  {
    DoubleCaptureOf(s, w, id);
    CapturedForIs(s, w, id);
    hide DoubleCaptures, CapturedFor, CapturedIn;
    var keys := CapturedFor(s, w, id);
    if id < |s.bookings| && |keys| > 1 { TwoOfThem(keys); }
    if j, k :| j != k && CapturedIn(s, w, id, j) && CapturedIn(s, w, id, k) {
      TwoOrMore(keys, j, k);
      BookedIs(s, w, id, j);
    }
  }

  lemma CapturedForIs(s: Api, w: Window, id: BookingId)
    ensures forall k :: k in CapturedFor(s, w, id) <==> CapturedIn(s, w, id, k)
  {
  }

  lemma DoubleCaptureOf(s: Api, w: Window, id: BookingId)
    ensures (exists d :: d in DoubleCaptures(s, w) && d.bookingId == Some(id)) <==> id < |s.bookings| && |CapturedFor(s, w, id)| > 1
  {
    hide LatestUpdate, SumOver;
    if id < |s.bookings| && |CapturedFor(s, w, id)| > 1 {
      assert Discrepancy(DoubleCapture, BookingRow(id), Some(id), None, Some(SumOver(Amounts(s.payments), CapturedFor(s, w, id))),
                         LatestUpdate(s.payments, CapturedFor(s, w, id))) in DoubleCaptures(s, w);
    }
  }

  /** Of just two, its line shows their sum. */
  lemma DoubleCaptureShowsTheSum(s: Api, w: Window, d: Discrepancy, j: Key, k: Key)
    requires d in DoubleCaptures(s, w) && d.bookingId.Some? && j != k && j in s.payments && k in s.payments
    requires forall x :: CapturedIn(s, w, d.bookingId.value, x) <==> x == j || x == k
    ensures d.amountMinor == Some(s.payments[j].amountMinor + s.payments[k].amountMinor)
  {
    hide LatestUpdate, SumOver;
    CapturedForIs(s, w, d.bookingId.value);
    assert CapturedFor(s, w, d.bookingId.value) == {j, k};
    SumOfTwo(Amounts(s.payments), j, k);
  }

  lemma BookedIs(s: Api, w: Window, id: BookingId, k: Key)
    requires CapturedIn(s, w, id, k)
    ensures id < |s.bookings|
  {
  }

  lemma TwoOfThem(keys: set<Key>)
    requires |keys| > 1
    ensures exists j, k :: j in keys && k in keys && j != k
  {
    var j :| j in keys;
    assert |keys - {j}| == |keys| - 1;
    var k :| k in keys - {j};
  }

  lemma TwoOrMore(keys: set<Key>, j: Key, k: Key)
    requires j in keys && k in keys && j != k
    ensures |keys| > 1
  {
    assert |keys - {j}| == |keys| - 1 && k in keys - {j};
  }

  lemma SumOfTwo(amounts: map<Key, int>, j: Key, k: Key)
    requires j in amounts && k in amounts && j != k
    ensures SumOver(amounts, {j, k}) == amounts[j] + amounts[k]
  {
    SumTakesOut(amounts, {j, k}, j);
    assert {j, k} - {j} == {k};
    SumTakesOut(amounts, {k}, k);
    assert {k} - {k} == {};
  }

  /** Every payment of the booking is pending or failed, or there is none. */
  predicate NobodyPaid(s: Api, id: BookingId) {
    forall k :: k in s.payments && s.payments[k].bookingId == id ==> s.payments[k].status in {PENDING, PaymentStatus.FAILED}
  }

  /** Shown as paid for with no captured payment, its last change in the window and past its grace. */
  predicate PaidByNobody(s: Api, w: Window, id: BookingId) {
    && id < |s.bookings| && s.bookings[id].status in {CONFIRMED, COMPLETED} && NobodyPaid(s, id)
    && w.from <= s.bookings[id].updatedAt < w.to
    && s.bookings[id].updatedAt + 1000 * (if w.graceSeconds > 0 then w.graceSeconds else 0) < w.now
  }

  lemma UnpaidConfirmationIff(s: Api, w: Window, id: BookingId)
    ensures (exists d :: d in ConfirmationsWithoutCapture(s, w) && d.bookingId == Some(id)) <==> PaidByNobody(s, w, id)
  {
    assert PaidFor(s, id) <==> !NobodyPaid(s, id) by {
      forall k | k in s.payments && s.payments[k].bookingId == id
        ensures HasCaptured(s.payments[k]) <==> s.payments[k].status !in {PENDING, PaymentStatus.FAILED}
      {
        var status := s.payments[k].status;
        assert status.PENDING? || status.SUCCEEDED? || status.FAILED? || status.REFUNDED?;
      }
    }
    hide PaidFor, NobodyPaid;
    if PaidByNobody(s, w, id) {
      assert Discrepancy(ConfirmationWithoutCapture, BookingRow(id), Some(id), None, Some(s.bookings[id].totalMinor),
                         s.bookings[id].updatedAt) in ConfirmationsWithoutCapture(s, w);
    }
  }

  /** Money returned without its capture on record, or more of it than was paid. */
  lemma WrongRefundIff(s: Api, w: Window, k: Key)
    requires k in s.payments
    ensures var p := s.payments[k];
            var counted := p.bookingId < |s.bookings| && w.from <= p.createdAt < w.to;
            && ((exists d :: d in OverRefunds(s, w) && d.source == PaymentRow(k)) <==> counted && p.refundedMinor > p.amountMinor)
            && ((exists d :: d in RefundsWithoutCapture(s, w) && d.source == PaymentRow(k)) <==>
                  counted && (p.status == PaymentStatus.REFUNDED || p.refundedMinor > 0)
                  && (p.chargeId.None? || EventKey(p.chargeId.value, ChargeSucceeded) !in s.events))
  {
    var p := s.payments[k];
    if k in Settled(s, w) && p.refundedMinor > p.amountMinor {
      assert OnPayment(OverRefunded, k, p, p.refundedMinor) in OverRefunds(s, w);
    }
    if k in Settled(s, w) && (p.status == PaymentStatus.REFUNDED || p.refundedMinor > 0) && !CaptureRecorded(s, p) {
      assert OnPayment(RefundWithoutCapture, k, p, p.refundedMinor) in RefundsWithoutCapture(s, w);
    }
  }

  // --- The report ------------------------------------------------------------

  datatype Totals = Totals(capturedMinor: int, refundedMinor: int, confirmedBookings: nat, settledPayments: nat)

  datatype Report = Report(
    byKind: map<Kind, nat>, total: nat, returned: nat, truncated: bool, discrepancies: seq<Discrepancy>, totals: Totals)

  function OfKind(found: set<Discrepancy>, kind: Kind): set<Discrepancy> {
    set d | d in found && d.kind == kind
  }

  /** The payments a window's totals are taken over: by creation, joined with nothing. */
  function CreatedIn(s: Api, w: Window): set<Key> { set k | k in s.payments && InWindow(w, s.payments[k].createdAt) }

  function SettledIn(s: Api, w: Window): set<Key> { set k | k in CreatedIn(s, w) && HasCaptured(s.payments[k]) }

  /** Counted from bookings, not from payments. */
  function ConfirmedIn(s: Api, w: Window): set<BookingId> {
    set id: nat | id < |s.bookings| && s.bookings[id].status == CONFIRMED && InWindow(w, s.bookings[id].updatedAt)
  }

  ghost predicate TotalsOf(s: Api, w: Window, t: Totals) {
    && t.capturedMinor == SumOver(Amounts(s.payments), SettledIn(s, w))
    && t.refundedMinor == SumOver(Refunds(s.payments), CreatedIn(s, w))
    && t.confirmedBookings == |ConfirmedIn(s, w)| && t.settledPayments == |SettledIn(s, w)|
  }

  /** The newest of what was found, newest first, up to the limit. */
  ghost predicate NewestOf(found: set<Discrepancy>, limit: nat, rows: seq<Discrepancy>) {
    && |rows| == Min(limit, |found|)
    && (forall i :: 0 <= i < |rows| ==> rows[i] in found)
    && (forall i, j :: 0 <= i < j < |rows| ==> rows[i] != rows[j] && rows[i].observedAt >= rows[j].observedAt)
    && (forall d, i :: d in found && d !in rows && 0 <= i < |rows| ==> rows[i].observedAt >= d.observedAt)
  }

  /**
   * The query's lines are counted by kind in one pass, and at most `limit` of
   * them, the newest, are listed in a second; the totals are taken on their own.
   */
  method RunReport(db: Db, w: Window, found: set<Discrepancy>, limit: nat) returns (r: Report)
    requires found == Discrepancies(db.State(), w)
    ensures r.total == |Discrepancies(db.State(), w)|
    ensures forall kind :: kind in r.byKind <==> OfKind(Discrepancies(db.State(), w), kind) != {}
    ensures forall kind :: kind in r.byKind ==> r.byKind[kind] == |OfKind(Discrepancies(db.State(), w), kind)|
    ensures r.returned == Min(limit, r.total) && (r.truncated <==> limit < r.total)
    ensures NewestOf(Discrepancies(db.State(), w), limit, r.discrepancies) && TotalsOf(db.State(), w, r.totals)
  {
    hide Discrepancies;
    var byKind, total := CountByKind(found);
    var rows := ListNewest(found, limit);
    var totals := TakeTotals(db, w);
    return Report(byKind, total, |rows|, total > |rows|, rows, totals);
  }

  method CountByKind(found: set<Discrepancy>) returns (byKind: map<Kind, nat>, total: nat)
    ensures total == |found|
    ensures forall kind :: kind in byKind <==> OfKind(found, kind) != {}
    ensures forall kind :: kind in byKind ==> byKind[kind] == |OfKind(found, kind)|
  {
    byKind, total := map[], 0;
    var kinds := set d | d in found :: d.kind;
    var counted := {};
    forall kind | kind in kinds ensures OfKind(found, kind) != {} {
      var d :| d in found && d.kind == kind;
      assert d in OfKind(found, kind);
    }
    while kinds != {}
      invariant counted == set d | d in found && d.kind !in kinds
      invariant total == |counted|
      invariant forall kind :: kind in byKind <==> OfKind(found, kind) != {} && kind !in kinds
      invariant forall kind :: kind in byKind ==> byKind[kind] == |OfKind(found, kind)|
      invariant forall kind :: kind in kinds ==> OfKind(found, kind) != {}
    {
      var kind :| kind in kinds;
      var rows := OfKind(found, kind);
      byKind := byKind[kind := |rows|];
      total := total + |rows|;
      assert counted !! rows;
      counted := counted + rows;
      kinds := kinds - {kind};
    }
    assert counted == found;
  }

  /** ORDER BY observed_at DESC LIMIT: take the newest of what is left, while there is room. */
  method ListNewest(found: set<Discrepancy>, limit: nat) returns (rows: seq<Discrepancy>)
    ensures NewestOf(found, limit, rows)
  {
    rows := [];
    var rest := found;
    while rest != {} && |rows| < limit
      invariant rest <= found && |rows| + |rest| == |found| && |rows| <= limit
      invariant forall d :: d in found <==> d in rest || d in rows
      invariant forall d :: d in rest ==> d !in rows
      invariant forall i, j :: 0 <= i < j < |rows| ==> rows[i] != rows[j] && rows[i].observedAt >= rows[j].observedAt
      invariant forall d, i :: d in rest && 0 <= i < |rows| ==> rows[i].observedAt >= d.observedAt
    {
      var d := MostRecent(rest);
      rows := rows + [d];
      rest := rest - {d};
    }
    assert forall d :: d in found && d !in rows ==> d in rest;
  }

  method MostRecent(rows: set<Discrepancy>) returns (newest: Discrepancy)
    requires rows != {}
    ensures newest in rows && forall d :: d in rows ==> d.observedAt <= newest.observedAt
  {
    newest :| newest in rows;
    var rest := rows - {newest};
    while rest != {}
      invariant rest <= rows && newest in rows
      invariant forall d :: d in rows && d !in rest ==> d.observedAt <= newest.observedAt
    {
      var d :| d in rest;
      if d.observedAt > newest.observedAt { newest := d; }
      rest := rest - {d};
    }
  }

  method TakeTotals(db: Db, w: Window) returns (t: Totals)
    ensures TotalsOf(db.State(), w, t)
  {
    var captured := SumRows(Amounts(db.payments), SettledIn(db.State(), w));
    var refunded := SumRows(Refunds(db.payments), CreatedIn(db.State(), w));
    return Totals(captured, refunded, |ConfirmedIn(db.State(), w)|, |SettledIn(db.State(), w)|);
  }

  method SumRows(amounts: map<Key, int>, keys: set<Key>) returns (sum: int)
    requires keys <= amounts.Keys
    ensures sum == SumOver(amounts, keys)
  {
    sum := 0;
    var rest := keys;
    while rest != {}
      invariant rest <= keys && sum + SumOver(amounts, rest) == SumOver(amounts, keys)
    {
      var k :| k in rest;
      SumTakesOut(amounts, rest, k);
      sum := sum + amounts[k];
      rest := rest - {k};
    }
  }
}
