/**
 * What a cancellation is worth: the tier ladder, the split of a booking total
 * back into its room and equipment parts, and the refund computed from both.
 * `WebRefund` below is the console's second implementation of the same numbers.
 */
module RefundPolicy {
  import opened Wrappers

  const MS_PER_HOUR: int := 3_600_000

  datatype Tier = Tier(minHoursBefore: real, roomRefundPct: int, equipmentRefundPct: int)

  datatype LineItem = LineItem(equipmentTypeId: nat, quantity: nat, rateMinor: nat)

  datatype Split = Split(roomMinor: nat, equipmentMinor: nat)

  datatype Breakdown = Breakdown(
    hoursBefore: real, tier: Tier, roomRefundMinor: int, equipmentRefundMinor: int, totalRefundMinor: int)

  predicate ValidTier(t: Tier) {
    t.minHoursBefore >= 0.0 && 0 <= t.roomRefundPct <= 100 && 0 <= t.equipmentRefundPct <= 100
  }

  /** A ladder is total: strictly descending and bottoming out at zero hours. */
  predicate ValidTiers(tiers: seq<Tier>) {
    && |tiers| >= 1
    && (forall i :: 0 <= i < |tiers| ==> ValidTier(tiers[i]))
    && (forall i :: 1 <= i < |tiers| ==> tiers[i].minHoursBefore < tiers[i - 1].minHoursBefore)
    && tiers[|tiers| - 1].minHoursBefore == 0.0
  }

  /** The first tier whose threshold the lead time clears; `None` is the source's throw. */
  function SelectTier(tiers: seq<Tier>, hoursBefore: real): Option<Tier> {
    if tiers == [] then None
    else if hoursBefore >= tiers[0].minHoursBefore then Some(tiers[0])
    else SelectTier(tiers[1..], hoursBefore)
  }

  function HoursBefore(startsAt: int, at: int): (h: real)
    ensures h >= 0.0
  {
    var h := (startsAt - at) as real / MS_PER_HOUR as real;
    if h < 0.0 then 0.0 else h
  }

  /** `Math.round(hours * 2)`: half hours between two instants, rounded half up. */
  function HalfHours(startsAt: int, endsAt: int): nat
    requires startsAt <= endsAt
  {
    (2 * (endsAt - startsAt) + 1_800_000) / 3_600_000
  }

  function LineTotal(halfHours: nat, item: LineItem): nat {
    halfHours * item.rateMinor * item.quantity / 2
  }

  function EquipmentTotal(halfHours: nat, items: seq<LineItem>): nat {
    if items == [] then 0 else LineTotal(halfHours, items[0]) + EquipmentTotal(halfHours, items[1..])
  }

  /** The price the hold path charges: the room's half hours plus every line item. */
  function PriceOf(halfHours: nat, roomRateMinor: nat, items: seq<LineItem>): nat {
    roomRateMinor * halfHours / 2 + EquipmentTotal(halfHours, items)
  }

  function SplitTotals(totalMinor: nat, halfHours: nat, items: seq<LineItem>): Split {
    var equipment := EquipmentTotal(halfHours, items);
    Split(Max(0, totalMinor - equipment), equipment)
  }

  function Percent(amount: int, pct: int): int { amount * pct / 100 }

  function ComputeRefund(split: Split, tiers: seq<Tier>, startsAt: int, at: int): Option<Breakdown> {
    var h := HoursBefore(startsAt, at);
    match SelectTier(tiers, h)
    case None => None
    case Some(tier) =>
      var room := Percent(split.roomMinor, tier.roomRefundPct);
      var equipment := Percent(split.equipmentMinor, tier.equipmentRefundPct);
      Some(Breakdown(h, tier, room, equipment, room + equipment))
  }

  // --- What the ladder promises -------------------------------------------

  lemma {:induction false} LaddersDescend(tiers: seq<Tier>, i: nat, j: nat)
    requires ValidTiers(tiers) && i < j < |tiers|
    ensures tiers[j].minHoursBefore < tiers[i].minHoursBefore
    decreases j
  {
    if j - 1 > i { LaddersDescend(tiers, i, j - 1); }
  }

  /** What the platform takes for a ladder: percentages, thresholds of which each is below all before it, and a last one of zero. */
  lemma LaddersAre(tiers: seq<Tier>)
    ensures ValidTiers(tiers) <==>
              && |tiers| > 0 && tiers[|tiers| - 1].minHoursBefore == 0.0
              && (forall t :: t in tiers ==> 0 <= t.roomRefundPct <= 100 && 0 <= t.equipmentRefundPct <= 100)
              && (forall i, j :: 0 <= i < j < |tiers| ==> tiers[i].minHoursBefore > tiers[j].minHoursBefore)
  {
    if ValidTiers(tiers) {
      forall i, j | 0 <= i < j < |tiers| ensures tiers[i].minHoursBefore > tiers[j].minHoursBefore { LaddersDescend(tiers, i, j); }
    } else if |tiers| > 0 && tiers[|tiers| - 1].minHoursBefore == 0.0 {
      assert forall i :: 0 <= i < |tiers| ==> tiers[i] in tiers;
      assert ValidTier(tiers[|tiers| - 1]) || !(forall t :: t in tiers ==> 0 <= t.roomRefundPct <= 100 && 0 <= t.equipmentRefundPct <= 100);
    }
  }

  lemma {:induction false} SelectIsFirst(tiers: seq<Tier>, h: real)
    ensures match SelectTier(tiers, h)
            case None => forall i :: 0 <= i < |tiers| ==> h < tiers[i].minHoursBefore
            case Some(t) => exists k :: 0 <= k < |tiers| && tiers[k] == t && h >= t.minHoursBefore &&
                                        forall i :: 0 <= i < k ==> h < tiers[i].minHoursBefore
  {
    if tiers != [] && h < tiers[0].minHoursBefore {
      SelectIsFirst(tiers[1..], h);
      match SelectTier(tiers[1..], h)
      case None =>
        assert forall i :: 1 <= i < |tiers| ==> tiers[i] == tiers[1..][i - 1];
      case Some(t) =>
        var k :| 0 <= k < |tiers| - 1 && tiers[1..][k] == t &&
                 forall i :: 0 <= i < k ==> h < tiers[1..][i].minHoursBefore;
        assert tiers[k + 1] == t;
        assert forall i :: 1 <= i < k + 1 ==> tiers[i] == tiers[1..][i - 1];
    }
  }

  /**
   * A valid ladder answers every lead time, and the answer is the rung with the
   * highest threshold the lead time clears, whatever order one looks in.
   */
  lemma ValidLadderAnswersWithHighestClearedRung(tiers: seq<Tier>, h: real)
    requires ValidTiers(tiers) && h >= 0.0
    ensures SelectTier(tiers, h).Some?
    ensures var t := SelectTier(tiers, h).value;
            && t in tiers && t.minHoursBefore <= h
            && forall u :: u in tiers && u.minHoursBefore <= h ==> u.minHoursBefore <= t.minHoursBefore
  {
    SelectIsFirst(tiers, h);
    assert h >= tiers[|tiers| - 1].minHoursBefore;
    var t := SelectTier(tiers, h).value;
    var k :| 0 <= k < |tiers| && tiers[k] == t && forall i :: 0 <= i < k ==> h < tiers[i].minHoursBefore;
    forall u | u in tiers && u.minHoursBefore <= h ensures u.minHoursBefore <= t.minHoursBefore {
      var j :| 0 <= j < |tiers| && tiers[j] == u;
      if j > k { LaddersDescend(tiers, k, j); }
    }
  }

  // --- Hours, half hours and sums, in milliseconds and minor units -----------------

  /** A lead time clears a threshold exactly when that many hours of 3,600,000 milliseconds are left. */
  lemma LeadClears(startsAt: int, at: int, hours: real)
    requires hours > 0.0
    ensures HoursBefore(startsAt, at) >= hours <==> (startsAt - at) as real >= hours * 3_600_000.0
  {
    var lead := (startsAt - at) as real;
    assert lead / 3_600_000.0 * 3_600_000.0 == lead;
    if lead / 3_600_000.0 >= hours { assert lead / 3_600_000.0 * 3_600_000.0 >= hours * 3_600_000.0; }
  }

  lemma LeadClearsWholeHours(startsAt: int, at: int, n: nat)
    ensures n > 0 ==> (HoursBefore(startsAt, at) >= n as real <==> startsAt - at >= n * 3_600_000)
    ensures HoursBefore(startsAt, at) >= 0.0
  {
    if n > 0 { LeadClears(startsAt, at, n as real); }
  }

  /** On the half-hour grid, `n` half hours are counted as `n`. */
  lemma HalfHoursOnTheGrid(startsAt: int, endsAt: int, n: nat)
    requires endsAt - startsAt == n * 1_800_000
    ensures HalfHours(startsAt, endsAt) == n
  {
  }

  /** Equipment is charged item by item, each its own half hours, rate and quantity. */
  lemma {:induction false} EquipmentAdds(n: nat, a: seq<LineItem>, b: seq<LineItem>)
    ensures EquipmentTotal(n, []) == 0
    ensures forall x :: EquipmentTotal(n, [x]) == n * x.rateMinor * x.quantity / 2
    ensures EquipmentTotal(n, a + b) == EquipmentTotal(n, a) + EquipmentTotal(n, b)
  {
    if a == [] {
      assert a + b == b;
    } else {
      assert (a + b)[1..] == a[1..] + b;
      EquipmentAdds(n, a[1..], b);
    }
  }

  // --- Pricing, splitting and refunding together -------------------------

  lemma PercentBounds(amount: nat, pct: int)
    requires 0 <= pct <= 100
    ensures 0 <= Percent(amount, pct) <= amount
    ensures 100 * Percent(amount, pct) <= amount * pct < 100 * (Percent(amount, pct) + 1)
    ensures pct == 100 ==> Percent(amount, pct) == amount
  {
    assert 0 <= amount * pct <= amount * 100;
    assert amount * 100 / 100 == amount;
  }

  /**
   * For any priced booking and any valid ladder: splitting recovers exactly the
   * two parts that were priced, there is a refund, it lies between nothing and
   * the whole total, each component loses less than one minor unit to
   * truncation, and a 100/100 rung returns the whole total.
   */
  lemma RefundIsBoundedAndExact(
      halfHours: nat, roomRateMinor: nat, items: seq<LineItem>, tiers: seq<Tier>, startsAt: int, at: int)
    requires ValidTiers(tiers)
    ensures var total := PriceOf(halfHours, roomRateMinor, items);
            var split := SplitTotals(total, halfHours, items);
            var refund := ComputeRefund(split, tiers, startsAt, at);
            && split == Split(roomRateMinor * halfHours / 2, EquipmentTotal(halfHours, items))
            && refund.Some?
            && refund.value.tier in tiers
            && 0 <= refund.value.totalRefundMinor <= total
            && refund.value.totalRefundMinor == refund.value.roomRefundMinor + refund.value.equipmentRefundMinor
            && 0 <= split.roomMinor * refund.value.tier.roomRefundPct - 100 * refund.value.roomRefundMinor < 100
            && 0 <= split.equipmentMinor * refund.value.tier.equipmentRefundPct
                    - 100 * refund.value.equipmentRefundMinor < 100
            && (refund.value.tier.roomRefundPct == 100 && refund.value.tier.equipmentRefundPct == 100
                ==> refund.value.totalRefundMinor == total)
            && (refund.value.tier.roomRefundPct == 0 && refund.value.tier.equipmentRefundPct == 0
                ==> refund.value.totalRefundMinor == 0)
  {
    var h := HoursBefore(startsAt, at);
    ValidLadderAnswersWithHighestClearedRung(tiers, h);
    var tier := SelectTier(tiers, h).value;
    assert ValidTier(tier);
    var split := SplitTotals(PriceOf(halfHours, roomRateMinor, items), halfHours, items);
    PercentBounds(split.roomMinor, tier.roomRefundPct);
    PercentBounds(split.equipmentMinor, tier.equipmentRefundPct);
  }
}

/** The preview the console shows before a customer confirms a cancellation. */
module WebRefund {
  import opened Wrappers
  import opened RefundPolicy

  datatype Preview = Preview(
    hoursBefore: real, tier: Tier, roomMinor: int, equipmentMinor: int,
    roomRefundMinor: int, equipmentRefundMinor: int, totalRefundMinor: int, forfeitedMinor: int)

  /** The console's reduction over the line items, carrying the running sum. */
  function Reduce(halfHours: nat, items: seq<LineItem>, sum: nat): nat {
    if items == [] then sum
    else Reduce(halfHours, items[1..], sum + halfHours * items[0].rateMinor * items[0].quantity / 2)
  }

  /** The console searches by index and answers `null` where the API throws. */
  function TierFrom(tiers: seq<Tier>, i: nat, hoursBefore: real): Option<Tier>
    requires i <= |tiers|
    decreases |tiers| - i
  {
    if i == |tiers| then None
    else if hoursBefore >= tiers[i].minHoursBefore then Some(tiers[i])
    else TierFrom(tiers, i + 1, hoursBefore)
  }

  function PreviewRefund(
      snapshot: Option<seq<Tier>>, totalMinor: nat, startsAt: int, endsAt: int, items: seq<LineItem>, at: int)
    : Option<Preview>
    requires startsAt <= endsAt
  {
    if snapshot.None? || snapshot.value == [] then None
    else
      var lead := (startsAt - at) as real / MS_PER_HOUR as real;
      var hoursBefore := if lead > 0.0 then lead else 0.0;
      var tier := TierFrom(snapshot.value, 0, hoursBefore);
      if tier.None? then None
      else
        var equipmentMinor := Reduce(HalfHours(startsAt, endsAt), items, 0);
        var rest := totalMinor - equipmentMinor;
        var roomMinor := if rest < 0 then 0 else rest;
        var roomRefund := roomMinor * tier.value.roomRefundPct / 100;
        var equipmentRefund := equipmentMinor * tier.value.equipmentRefundPct / 100;
        var total := roomRefund + equipmentRefund;
        Some(Preview(hoursBefore, tier.value, roomMinor, equipmentMinor,
                     roomRefund, equipmentRefund, total, totalMinor - total))
  }

  lemma {:induction false} ReduceIsTotal(halfHours: nat, items: seq<LineItem>, sum: nat)
    ensures Reduce(halfHours, items, sum) == sum + EquipmentTotal(halfHours, items)
  {
    if items != [] { ReduceIsTotal(halfHours, items[1..], sum + LineTotal(halfHours, items[0])); }
  }

  lemma {:induction false} TierFromIsSelectTier(tiers: seq<Tier>, i: nat, h: real)
    requires i <= |tiers|
    ensures TierFrom(tiers, i, h) == SelectTier(tiers[i..], h)
    decreases |tiers| - i
  {
    if i < |tiers| {
      assert tiers[i..][1..] == tiers[i + 1..];
      TierFromIsSelectTier(tiers, i + 1, h);
    }
  }

  /**
   * The preview quotes exactly what the API's cancellation would return, for
   * any booking and any ladder at all, and what it calls forfeited is the rest.
   */
  lemma PreviewAgreesWithApi(
      tiers: seq<Tier>, totalMinor: nat, startsAt: int, endsAt: int, items: seq<LineItem>, at: int)
    requires startsAt <= endsAt
    ensures var web := PreviewRefund(Some(tiers), totalMinor, startsAt, endsAt, items, at);
            var split := SplitTotals(totalMinor, HalfHours(startsAt, endsAt), items);
            var api := ComputeRefund(split, tiers, startsAt, at);
            && (web.None? <==> api.None?)
            && (web.Some? ==>
                  && api.value == Breakdown(web.value.hoursBefore, web.value.tier, web.value.roomRefundMinor,
                                            web.value.equipmentRefundMinor, web.value.totalRefundMinor)
                  && split.roomMinor == web.value.roomMinor && split.equipmentMinor == web.value.equipmentMinor
                  && web.value.totalRefundMinor + web.value.forfeitedMinor == totalMinor)
  {
    TierFromIsSelectTier(tiers, 0, HoursBefore(startsAt, at));
    assert tiers[0..] == tiers;
    ReduceIsTotal(HalfHours(startsAt, endsAt), items, 0);
  }
}
