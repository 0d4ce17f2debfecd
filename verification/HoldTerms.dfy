/**
 * What a hold, a re-arm and a cancellation come to, in the words of the request
 * and the configuration: milliseconds, units owned and minor units.
 */
module HoldTerms {
  import opened Wrappers
  import opened RefundPolicy
  import opened Ids
  import opened Database
  import opened BookingStateMachine
  import opened ZonedTime
  import opened OperatingHours
  import opened BookingsService
  import opened BookingInvariants
  import opened Availability

  // --- The states a booking moves between -----------------------------------------------------

  /** Every legal move there is, written out. */
  const MOVES: set<(BookingStatus, BookingStatus)> := {
    (DRAFT, HELD), (HELD, PENDING_PAYMENT), (HELD, EXPIRED), (HELD, CANCELLED),
    (PENDING_PAYMENT, CONFIRMED), (PENDING_PAYMENT, BookingStatus.FAILED), (PENDING_PAYMENT, EXPIRED),
    (CONFIRMED, CANCELLED), (CONFIRMED, COMPLETED), (CANCELLED, BookingStatus.REFUNDED)}

  /** The row a transition leaves: its status, its clock, and the columns of its patch, no others. */
  function MovedRow(b: Booking, now: int, to: BookingStatus, patch: Patch): Booking {
    match patch
    case NoPatch => b.(status := to, updatedAt := now)
    case Confirm(snapshot) => b.(status := to, updatedAt := now, expiresAt := None, policySnapshot := Some(snapshot))
    case Rearm(deadline) => b.(status := to, updatedAt := now, expiresAt := Some(deadline), rearmCount := b.rearmCount + 1)
  }

  /**
   * A transition happens exactly along those moves, from the expected status
   * when one is expected; it writes one booking row and one audit row.
   */
  lemma TransitionsAreTheMoves(s: Api, now: int, c: Change)
    ensures Transition(s, now, c).Ok? <==>
              c.bookingId < |s.bookings| && (s.bookings[c.bookingId].status, c.to) in MOVES
              && (c.expectedFrom.Some? ==> s.bookings[c.bookingId].status in c.expectedFrom.value)
    ensures Transition(s, now, c).Ok? ==>
              var s' := Transition(s, now, c).value;
              && s' == s.(bookings := s'.bookings, audit := s'.audit)
              && s'.bookings == s.bookings[c.bookingId := MovedRow(s.bookings[c.bookingId], now, c.to, c.patch)]
              && s'.audit == s.audit + [AuditRow(c.bookingId, c.actor, s.bookings[c.bookingId].status, c.to, c.reason)]
  {
  }

  /** Only a held or a confirmed booking can be cancelled; nothing but its row and the trail changes. */
  lemma CancelSucceedsIff(s: Api, now: int, id: BookingId, userId: nat, text: string)
    ensures var r := Cancel(s, now, id, userId, text);
            && (r.Ok? <==> id < |s.bookings| && s.bookings[id].status in {HELD, CONFIRMED})
            && (r.Ok? ==> r.value.bookings == s.bookings[id := s.bookings[id].(status := CANCELLED, updatedAt := now)])
            && (r.Ok? ==> r.value == s.(bookings := r.value.bookings, audit := r.value.audit))
  {
  }

  // --- Equipment, counted in units owned --------------------------------------------------------

  /** The ceiling is the whole number of units, the buffer's fraction dropped. */
  lemma CeilingDropsTheFraction(unitsOwned: nat, bufferPct: nat)
    ensures var c := AdmissionCeiling(unitsOwned, bufferPct);
            100 * c <= unitsOwned * (100 + bufferPct) < 100 * (c + 1)
  {
  }

  /** `inUse` units of a type are more than are owned, the venue's buffer included. */
  predicate TooMany(cfg: Config, e: nat, inUse: int)
    requires ValidConfig(cfg) && e in cfg.equipment
  {
    var t := cfg.equipment[e];
    100 * inUse > t.unitsOwned * (100 + cfg.venues[t.venueId].overbookingBufferPct)
  }

  lemma OverCeilingIff(cfg: Config, e: nat, inUse: int)
    requires ValidConfig(cfg) && e in cfg.equipment
    ensures inUse > Ceiling(cfg, e) <==> TooMany(cfg, e, inUse)
  {
    CeilingDropsTheFraction(cfg.equipment[e].unitsOwned, cfg.venues[cfg.equipment[e].venueId].overbookingBufferPct);
    hide AdmissionCeiling;
  }

  /** Never oversold, in units: at no instant is more in use than the units owned and the buffer allow. */
  ghost predicate NeverTooMany(cfg: Config, bookings: seq<Booking>, now: int)
    requires ValidConfig(cfg)
  {
    forall e, t :: e in cfg.equipment ==> !TooMany(cfg, e, InUseAt(bookings, now, e, t))
  }

  lemma NeverOversoldInUnits(cfg: Config, bookings: seq<Booking>, now: int)
    requires ValidConfig(cfg)
    ensures NeverOversold(cfg, bookings, now) <==> NeverTooMany(cfg, bookings, now)
  {
    hide InUseAt, Ceiling, TooMany;
    if NeverOversold(cfg, bookings, now) {
      forall e, t | e in cfg.equipment ensures !TooMany(cfg, e, InUseAt(bookings, now, e, t)) {
        OverCeilingIff(cfg, e, InUseAt(bookings, now, e, t));
      }
    }
    if NeverTooMany(cfg, bookings, now) {
      forall e, t | e in cfg.equipment ensures InUseAt(bookings, now, e, t) <= Ceiling(cfg, e) {
        OverCeilingIff(cfg, e, InUseAt(bookings, now, e, t));
      }
    }
  }

  /** One more booking uses its quantity of a type exactly while it lasts, and only if it holds its room at all. */
  lemma OneMoreBookingUses(bookings: seq<Booking>, b: Booking, now: int, e: nat, t: int)
    ensures InUseAt([], now, e, t) == 0
    ensures InUseAt(bookings + [b], now, e, t) - InUseAt(bookings, now, e, t)
            == if b.startsAt <= t < b.endsAt
                  && (b.status == CONFIRMED || b.status == PENDING_PAYMENT
                      || (b.status == HELD && (b.expiresAt.Some? ==> now < b.expiresAt.value)))
               then QuantityOf(b.items, e) else 0
  {
    InUseOfAppended(bookings, b, now, e, t);
  }

  lemma {:induction false} QuantitiesAdd(a: seq<LineItem>, b: seq<LineItem>, e: nat)
    ensures QuantityOf([], e) == 0
    ensures forall x :: QuantityOf([x], e) == if x.equipmentTypeId == e then x.quantity else 0
    ensures QuantityOf(a + b, e) == QuantityOf(a, e) + QuantityOf(b, e)
  {
    if a == [] {
      assert a + b == b;
    } else {
      assert (a + b)[1..] == a[1..] + b;
      QuantitiesAdd(a[1..], b, e);
    }
  }

  /** At instant `t` of the request, item `i` of it would be too many. */
  ghost predicate TooManyAt(cfg: Config, bookings: seq<Booking>, now: int, input: HoldInput, i: nat, t: int)
    requires ValidConfig(cfg)
  {
    && i < |input.lineItems| && input.startsAt <= t < input.endsAt && input.lineItems[i].equipmentTypeId in cfg.equipment
    && TooMany(cfg, input.lineItems[i].equipmentTypeId,
               InUseAt(bookings, now, input.lineItems[i].equipmentTypeId, t) + input.lineItems[i].quantity)
  }

  /** With no type asked for twice, what is wanted of a type is the quantity on its own line. */
  lemma {:induction false} WantedIsItsLine(items: seq<ItemRequest>, i: nat)
    requires DistinctTypes(items) && i < |items|
    ensures Wanted(items, items[i].equipmentTypeId) == items[i].quantity
  {
    if i > 0 { WantedIsItsLine(items[1..], i - 1); }
  }

  lemma SomeTypeShortInUnits(cfg: Config, bookings: seq<Booking>, now: int, input: HoldInput)
    requires ValidConfig(cfg) && DistinctTypes(input.lineItems)
    ensures SomeTypeShort(cfg, bookings, now, input) <==> exists i, t :: TooManyAt(cfg, bookings, now, input, i, t)
  {
    hide InUseAt, Ceiling, TooMany, Wanted;
    if SomeTypeShort(cfg, bookings, now, input) {
      var e, t :| e in cfg.equipment && Names(input.lineItems, e) && WouldOversell(cfg, bookings, now, input, e, t);
      var i :| 0 <= i < |input.lineItems| && input.lineItems[i].equipmentTypeId == e;
      WantedIsItsLine(input.lineItems, i);
      OverCeilingIff(cfg, e, InUseAt(bookings, now, e, t) + input.lineItems[i].quantity);
      assert TooManyAt(cfg, bookings, now, input, i, t);
    }
    if i: nat, t :| TooManyAt(cfg, bookings, now, input, i, t) {
      var e := input.lineItems[i].equipmentTypeId;
      WantedIsItsLine(input.lineItems, i);
      OverCeilingIff(cfg, e, InUseAt(bookings, now, e, t) + input.lineItems[i].quantity);
      assert Names(input.lineItems, e) && WouldOversell(cfg, bookings, now, input, e, t);
    }
  }

  /** Every line names a type of the room's own venue. */
  predicate OwnEquipment(cfg: Config, input: HoldInput)
    requires ValidConfig(cfg) && input.roomId in cfg.rooms
  {
    forall i :: 0 <= i < |input.lineItems| ==>
      input.lineItems[i].equipmentTypeId in cfg.equipment
      && cfg.equipment[input.lineItems[i].equipmentTypeId].venueId == cfg.rooms[input.roomId].venueId
  }

  /**
   * A hold is refused on capacity exactly when it could be taken otherwise and
   * some line, at some instant, together with what is in use, is more than the
   * units owned and the buffer allow.
   */
  lemma RefusedOnCapacityIff(cfg: Config, s: Api, now: int, input: HoldInput, userId: nat)
    requires ValidConfig(cfg) && ValidHold(input) && IntervalsOrdered(s.bookings)
    ensures var r := Hold(cfg, s, now, input, userId);
            (r.Err? && r.error.Capacity?) <==>
              input.roomId in cfg.rooms && MayBook(cfg, now, input) && OwnEquipment(cfg, input)
              && exists i, t :: TooManyAt(cfg, s.bookings, now, input, i, t)
  {
    hide Hold, Bookable, TooManyAt, SomeTypeShort, MayBook;
    CapacityRefusalIff(cfg, s, now, input, userId);
    SomeTypeShortInUnits(cfg, s.bookings, now, input);
    if input.roomId in cfg.rooms { MayBookIff(cfg, now, input); }
  }

  // --- When a hold may be asked for -----------------------------------------------------------------

  /** An hour to ninety days ahead, for as long as the room allows, inside the venue's opening hours. */
  predicate MayBook(cfg: Config, now: int, input: HoldInput)
    requires ValidConfig(cfg) && input.roomId in cfg.rooms
  {
    var room := cfg.rooms[input.roomId];
    var venue := cfg.venues[room.venueId];
    && now + 3_600_000 <= input.startsAt <= now + 7_776_000_000
    && room.minDurationMinutes * 60_000 <= input.endsAt - input.startsAt <= room.maxDurationMinutes * 60_000
    && venue.hours.Some? && IsWithinOperatingHours(venue.hours.value, venue.zone, input.startsAt, input.endsAt)
  }

  lemma MayBookIff(cfg: Config, now: int, input: HoldInput)
    requires ValidConfig(cfg) && input.roomId in cfg.rooms
    ensures Bookable(cfg, now, input) <==> MayBook(cfg, now, input)
  {
    hide IsWithinOperatingHours;
  }

  predicate OrderOfHalfHours(input: HoldInput, n: nat) {
    2 <= n <= 16 && input.startsAt % 1_800_000 == 0 && input.endsAt - input.startsAt == n * 1_800_000
  }

  /** The schema admits two to sixteen half hours from a half hour of the clock, and up to fifty different types. */
  lemma WhatTheSchemaAdmits(input: HoldInput)
    ensures ValidHold(input) <==>
              && (exists n :: OrderOfHalfHours(input, n)) && |input.lineItems| <= 50 && DistinctTypes(input.lineItems)
              && forall i :: 0 <= i < |input.lineItems| ==> 1 <= input.lineItems[i].quantity <= 1000
  {
    if ValidHold(input) {
      var n := HalfHoursOf(input);
      assert OrderOfHalfHours(input, n);
    }
    if n: nat :| OrderOfHalfHours(input, n) { GridSum(input.startsAt, n); }
  }

  lemma GridSum(startsAt: int, n: nat)
    requires startsAt % 1_800_000 == 0
    ensures (startsAt + n * 1_800_000) % 1_800_000 == 0
  {
  }

  // --- What is offered ------------------------------------------------------------------------------

  /** A booking, held at this instant, that leaves less than fifteen minutes beside the slot. */
  predicate HoldsTheSlot(b: Booking, roomId: nat, now: int, slot: FreeSlot) {
    && b.roomId == roomId && TakesItsRoom(b) && (b.status == HELD && b.expiresAt.Some? ==> now < b.expiresAt.value)
    && slot.startsAt < b.endsAt + 900_000 && b.startsAt < slot.endsAt + 900_000
  }

  ghost predicate Free(bookings: seq<Booking>, roomId: nat, now: int, to: int, slot: FreeSlot) {
    forall i :: 0 <= i < |bookings| && bookings[i].startsAt < to ==> !HoldsTheSlot(bookings[i], roomId, now, slot)
  }

  /**
   * Over any range of at most 366 days the search offers exactly the slots of
   * that length on the half hour, in range, an hour or more ahead, within the
   * posted hours of one day, and held by no booking that starts in range.
   */
  lemma OfferedIff(
      hours: Hours, zone: Zone, offset: int, bookings: seq<Booking>, roomId: nat, now: int, from: int, to: int, length: int, slot: FreeSlot)
    requires OpensBeforeMidnight(hours) && FixedOffset(zone, offset) && from < to <= from + 31_622_400_000 && length > 0
    ensures slot in Enumerate(hours, zone, SearchFor(bookings, roomId, now, from, to, length)) <==>
              && slot.startsAt % 1_800_000 == 0 && slot.endsAt == slot.startsAt + length
              && from <= slot.startsAt && slot.endsAt <= to && now + 3_600_000 <= slot.startsAt
              && (exists day, open: nat, close: nat :: OpenOn(hours, offset, day, slot.startsAt, slot.endsAt, open, close))
              && Free(bookings, roomId, now, to, slot)
  {
    hide Enumerate, Clashes, BusyIntervals, OpenOn, InsideSomeWindow, IsWithinOperatingHours, OpensBeforeMidnight, Free;
    var q := SearchFor(bookings, roomId, now, from, to, length);
    EnumerateIsExact(hours, zone, offset, q, slot);
    if slot.endsAt == slot.startsAt + length {
      TwoDaysSuffice(hours, zone, offset, slot.startsAt, slot.endsAt);
      WithinHoursIff(hours, zone, offset, slot.startsAt, slot.endsAt);
      if from <= slot.startsAt && slot.endsAt <= to { FreeIff(bookings, roomId, now, from, to, slot); }
    }
  }

  lemma FreeIff(bookings: seq<Booking>, roomId: nat, now: int, from: int, to: int, slot: FreeSlot)
    requires from <= slot.startsAt < slot.endsAt <= to
    ensures Clashes(BusyIntervals(bookings, roomId, now, from, to), slot.startsAt, slot.endsAt + TURNAROUND)
            <==> !Free(bookings, roomId, now, to, slot)
  {
    hide Clashes, BusyIntervals;
    ClashIff(bookings, roomId, now, from, to, slot.startsAt, slot.endsAt);
    forall i | 0 <= i < |bookings|
      ensures MeetsNow(bookings[i], roomId, now, slot.startsAt, slot.endsAt) <==> HoldsTheSlot(bookings[i], roomId, now, slot)
    {
    }
  }

  // --- What a hold writes and costs ----------------------------------------------------------------------

  /** What the requested items cost over `n` half hours, line by line, at each type's own rate. */
  ghost function RequestedCost(cfg: Config, items: seq<ItemRequest>, n: nat): nat
    requires forall i :: 0 <= i < |items| ==> items[i].equipmentTypeId in cfg.equipment
  {
    if items == [] then 0
    else n * cfg.equipment[items[0].equipmentTypeId].hourlyRateMinor * items[0].quantity / 2 + RequestedCost(cfg, items[1..], n)
  }

  /** The cost of the types listed, each for what `all` wants of it. */
  ghost function CostOfIds(cfg: Config, all: seq<ItemRequest>, ids: seq<nat>, n: nat): nat
    requires forall k :: 0 <= k < |ids| ==> ids[k] in cfg.equipment
  {
    if ids == [] then 0
    else n * cfg.equipment[ids[0]].hourlyRateMinor * Wanted(all, ids[0]) / 2 + CostOfIds(cfg, all, ids[1..], n)
  }

  lemma {:induction false} PricedCosts(cfg: Config, input: HoldInput, ids: seq<nat>, n: nat)
    requires forall k :: 0 <= k < |ids| ==> ids[k] in cfg.equipment
    ensures EquipmentTotal(n, Priced(cfg, input, ids)) == CostOfIds(cfg, input.lineItems, ids, n)
  {
    if ids != [] {
      PricedCosts(cfg, input, ids[1..], n);
      assert Priced(cfg, input, ids)[1..] == Priced(cfg, input, ids[1..]);
    }
  }

  lemma {:induction false} InsertCosts(cfg: Config, all: seq<ItemRequest>, x: nat, ids: seq<nat>, n: nat)
    requires x in cfg.equipment && forall k :: 0 <= k < |ids| ==> ids[k] in cfg.equipment
    ensures forall k :: 0 <= k < |InsertId(x, ids)| ==> InsertId(x, ids)[k] in cfg.equipment
    ensures CostOfIds(cfg, all, InsertId(x, ids), n)
            == n * cfg.equipment[x].hourlyRateMinor * Wanted(all, x) / 2 + CostOfIds(cfg, all, ids, n)
  {
    if ids == [] || x <= ids[0] {
      assert ([x] + ids)[1..] == ids;
    } else {
      InsertCosts(cfg, all, x, ids[1..], n);
      assert ([ids[0]] + InsertId(x, ids[1..]))[1..] == InsertId(x, ids[1..]);
    }
  }

  /** Sorting the types for locking changes no one's bill. */
  lemma {:induction false} SortedCosts(cfg: Config, all: seq<ItemRequest>, items: seq<ItemRequest>, n: nat)
    requires forall i :: 0 <= i < |items| ==> items[i].equipmentTypeId in cfg.equipment
    requires forall i :: 0 <= i < |items| ==> Wanted(all, items[i].equipmentTypeId) == items[i].quantity
    ensures forall k :: 0 <= k < |SortedIds(items)| ==> SortedIds(items)[k] in cfg.equipment
    ensures CostOfIds(cfg, all, SortedIds(items), n) == RequestedCost(cfg, items, n)
  {
    if items != [] {
      SortedCosts(cfg, all, items[1..], n);
      InsertCosts(cfg, all, items[0].equipmentTypeId, SortedIds(items[1..]), n);
    }
  }

  lemma {:induction false} InsertLengthens(x: nat, ids: seq<nat>)
    ensures |InsertId(x, ids)| == |ids| + 1
  {
    if ids != [] && x > ids[0] { InsertLengthens(x, ids[1..]); }
  }

  lemma {:induction false} SortedKeepsLength(items: seq<ItemRequest>)
    ensures |SortedIds(items)| == |items|
  {
    if items != [] {
      SortedKeepsLength(items[1..]);
      InsertLengthens(items[0].equipmentTypeId, SortedIds(items[1..]));
    }
  }

  /** The line a booking carries for one requested item: its type's own rate, frozen. */
  function LineFor(cfg: Config, item: ItemRequest): LineItem
    requires item.equipmentTypeId in cfg.equipment
  {
    LineItem(item.equipmentTypeId, item.quantity, cfg.equipment[item.equipmentTypeId].hourlyRateMinor)
  }

  ghost predicate IsALineFor(cfg: Config, requested: seq<ItemRequest>, line: LineItem) {
    exists i :: 0 <= i < |requested| && requested[i].equipmentTypeId in cfg.equipment && line == LineFor(cfg, requested[i])
  }

  /** The booking's lines are those of the request, every one of them and no other. */
  ghost predicate CarriesLines(cfg: Config, requested: seq<ItemRequest>, items: seq<LineItem>) {
    && |items| == |requested|
    && (forall i :: 0 <= i < |requested| ==>
          requested[i].equipmentTypeId in cfg.equipment && LineFor(cfg, requested[i]) in items)
    && forall k :: 0 <= k < |items| ==> IsALineFor(cfg, requested, items[k])
  }

  /** What a booking's lines cost over `n` half hours, each at the rate frozen on it. */
  ghost function ItemsCost(items: seq<LineItem>, n: nat): nat {
    if items == [] then 0 else n * items[0].rateMinor * items[0].quantity / 2 + ItemsCost(items[1..], n)
  }

  lemma {:induction false} ItemsCostIs(items: seq<LineItem>, n: nat)
    ensures ItemsCost(items, n) == EquipmentTotal(n, items)
  {
    if items != [] { ItemsCostIs(items[1..], n); }
  }

  lemma AdmittedLines(cfg: Config, s: Api, now: int, input: HoldInput, venueId: nat)
    requires ValidConfig(cfg) && ValidHold(input) && AdmitEquipment(cfg, s, now, input, venueId).Ok?
    ensures var items := AdmitEquipment(cfg, s, now, input, venueId).value;
            && CarriesLines(cfg, input.lineItems, items) && AllKnownAndLocal(cfg, input, venueId)
            && forall n :: EquipmentTotal(n, items) == RequestedCost(cfg, input.lineItems, n)
  {
    if !AllKnownAndLocal(cfg, input, venueId) { ForeignAdmission(cfg, s, now, input, venueId); }
    LocalAdmission(cfg, s, now, input, venueId);
    hide AdmitEquipment, Shortfalls, EquipmentTotal;
    var ids := SortedIds(input.lineItems);
    SortedIdsExact(input.lineItems);
    SortedKeepsLength(input.lineItems);
    forall i | 0 <= i < |input.lineItems| ensures Wanted(input.lineItems, input.lineItems[i].equipmentTypeId) == input.lineItems[i].quantity {
      WantedIsItsLine(input.lineItems, i);
    }
    forall i | 0 <= i < |input.lineItems| ensures LineFor(cfg, input.lineItems[i]) in Priced(cfg, input, ids) {
      assert Names(input.lineItems, input.lineItems[i].equipmentTypeId);
      var k :| 0 <= k < |ids| && ids[k] == input.lineItems[i].equipmentTypeId;
      assert Priced(cfg, input, ids)[k] == LineFor(cfg, input.lineItems[i]);
    }
    forall k | 0 <= k < |ids| ensures IsALineFor(cfg, input.lineItems, Priced(cfg, input, ids)[k]) {
      assert ids[k] in ids && Names(input.lineItems, ids[k]);
      var i :| 0 <= i < |input.lineItems| && input.lineItems[i].equipmentTypeId == ids[k];
      assert Priced(cfg, input, ids)[k] == LineFor(cfg, input.lineItems[i]);
    }
    forall n ensures EquipmentTotal(n, Priced(cfg, input, ids)) == RequestedCost(cfg, input.lineItems, n) {
      PricedCosts(cfg, input, ids, n);
      SortedCosts(cfg, input.lineItems, input.lineItems, n);
    }
  }

  /** The row a hold writes, from the request, the configuration and the clock alone. */
  ghost predicate IsTheHold(cfg: Config, now: int, input: HoldInput, userId: nat, n: nat, b: Booking)
    requires input.roomId in cfg.rooms
    requires forall i :: 0 <= i < |input.lineItems| ==> input.lineItems[i].equipmentTypeId in cfg.equipment
  {
    var room := cfg.rooms[input.roomId];
    && b.venueId == room.venueId && b.roomId == input.roomId && b.userId == userId
    && b.startsAt == input.startsAt && b.endsAt == input.endsAt
    && b.status == HELD && b.expiresAt == Some(now + cfg.env.holdTtl) && b.rearmCount == 0 && b.policySnapshot.None?
    && b.createdAt == now && CarriesLines(cfg, input.lineItems, b.items)
    && b.totalMinor == room.hourlyRateMinor * n / 2 + RequestedCost(cfg, input.lineItems, n)
    && ItemsCost(b.items, n) == RequestedCost(cfg, input.lineItems, n)
  }

  /**
   * A successful hold of `n` half hours adds one row, and it is the request's
   * own: its room, its times, its lines at today's rates, and a price of the
   * room's half hours plus each line's.
   */
  lemma AHoldIsWhatWasAskedFor(cfg: Config, s: Api, now: int, input: HoldInput, userId: nat, n: nat)
    requires ValidConfig(cfg) && ValidHold(input) && Hold(cfg, s, now, input, userId).Ok?
    requires input.endsAt - input.startsAt == n * 1_800_000
    ensures input.roomId in cfg.rooms && OwnEquipment(cfg, input)
    ensures var s' := Hold(cfg, s, now, input, userId).value;
            && |s'.bookings| == |s.bookings| + 1 && IsTheHold(cfg, now, input, userId, n, s'.bookings[|s.bookings|])
            && s'.payments == s.payments && s'.events == s.events && s'.deliveries == s.deliveries && s'.policies == s.policies
  {
    hide Bookable, AdmitEquipment, SlotFree, HoldOnce, ExpireRows, StaleInRoom, RequestedCost, EquipmentTotal;
    HoldShape(cfg, s, now, input, userId);
    var cleared := ExpireStaleHoldsForRoom(s, now, input.roomId);
    ClearingRoomEvolves(cfg.env, s, now, input.roomId);
    AdmittedLines(cfg, cleared, now, input, cfg.rooms[input.roomId].venueId);
    ItemsCostIs(AdmitEquipment(cfg, cleared, now, input, cfg.rooms[input.roomId].venueId).value, n);
    HalfHoursOnTheGrid(input.startsAt, input.endsAt, n);
  }

  // --- What every booking keeps of the hold it began as --------------------------------------------------------

  /** A booking of `n` half hours at its room's rate, with its own venue's equipment at the types' rates. */
  ghost predicate OnItsTerms(cfg: Config, b: Booking, n: nat) {
    && 2 <= n <= 16 && b.startsAt % 1_800_000 == 0 && b.endsAt - b.startsAt == n * 1_800_000
    && b.roomId in cfg.rooms && b.venueId == cfg.rooms[b.roomId].venueId
    && (forall x :: x in b.items ==>
          x.equipmentTypeId in cfg.equipment && cfg.equipment[x.equipmentTypeId].venueId == b.venueId
          && x.rateMinor == cfg.equipment[x.equipmentTypeId].hourlyRateMinor && 1 <= x.quantity <= 1000)
    && b.totalMinor == cfg.rooms[b.roomId].hourlyRateMinor * n / 2 + ItemsCost(b.items, n)
  }

  /** The length of a request the schema admits: two to sixteen half hours. */
  lemma HalfHoursOf(input: HoldInput) returns (n: nat)
    requires ValidHold(input)
    ensures 2 <= n <= 16 && input.endsAt - input.startsAt == n * 1_800_000 && input.startsAt % 1_800_000 == 0
  {
    n := (input.endsAt - input.startsAt) / 1_800_000;
    var a, b := input.startsAt / 1_800_000, input.endsAt / 1_800_000;
    assert input.startsAt == a * 1_800_000 && input.endsAt == b * 1_800_000;
  }

  lemma HoldsAreOnTheirTerms(cfg: Config, s: Api, now: int, input: HoldInput, userId: nat)
    requires ValidConfig(cfg) && ValidHold(input) && Hold(cfg, s, now, input, userId).Ok?
    ensures var after := Hold(cfg, s, now, input, userId).value.bookings;
            |after| == |s.bookings| + 1 && exists n :: OnItsTerms(cfg, after[|s.bookings|], n)
  {
    hide Hold, RequestedCost, ItemsCost;
    var n := HalfHoursOf(input);
    AHoldIsWhatWasAskedFor(cfg, s, now, input, userId, n);
    var b := Hold(cfg, s, now, input, userId).value.bookings[|s.bookings|];
    assert OnItsTerms(cfg, b, n);
  }

  // --- Why equipment is refused ------------------------------------------------------------------------------

  function UnknownLines(cfg: Config, input: HoldInput): set<nat> {
    set i | 0 <= i < |input.lineItems| && input.lineItems[i].equipmentTypeId !in cfg.equipment
      :: input.lineItems[i].equipmentTypeId
  }

  function ForeignLines(cfg: Config, input: HoldInput, venueId: nat): set<nat> {
    set i | 0 <= i < |input.lineItems| && input.lineItems[i].equipmentTypeId in cfg.equipment
            && cfg.equipment[input.lineItems[i].equipmentTypeId].venueId != venueId :: input.lineItems[i].equipmentTypeId
  }

  /** Unknown types are named first, and all of them; then types of another venue; only then is anything counted. */
  lemma RefusalsNameTheTypes(cfg: Config, s: Api, now: int, input: HoldInput, venueId: nat)
    requires ValidConfig(cfg) && ValidHold(input)
    ensures var r := AdmitEquipment(cfg, s, now, input, venueId);
            if UnknownLines(cfg, input) != {} then r == Err(UnknownEquipment(UnknownLines(cfg, input)))
            else if ForeignLines(cfg, input, venueId) != {} then r == Err(ForeignEquipment(ForeignLines(cfg, input, venueId)))
            else r.Ok? || r.error.Capacity?
  {
    hide Shortfalls, Priced;
    var ids := SortedIds(input.lineItems);
    SortedIdsExact(input.lineItems);
    assert UnknownTypes(cfg, ids) == UnknownLines(cfg, input) by {
      forall e | e in UnknownTypes(cfg, ids) ensures e in UnknownLines(cfg, input) { assert Names(input.lineItems, e); }
      forall e | e in UnknownLines(cfg, input) ensures e in UnknownTypes(cfg, ids) { assert Names(input.lineItems, e); }
    }
    assert ForeignTypes(cfg, ids, venueId) == ForeignLines(cfg, input, venueId) by {
      forall e | e in ForeignTypes(cfg, ids, venueId) ensures e in ForeignLines(cfg, input, venueId) { assert Names(input.lineItems, e); }
      forall e | e in ForeignLines(cfg, input, venueId) ensures e in ForeignTypes(cfg, ids, venueId) { assert Names(input.lineItems, e); }
    }
  }

  /** What a refusal says of one short type: how much was asked, the most in use at once, and by how much it is short. */
  ghost predicate TellsTheShortage(cfg: Config, s: Api, now: int, input: HoldInput, short: Shortfall)
    requires ValidConfig(cfg)
  {
    var e := short.equipmentTypeId;
    && e in cfg.equipment && (exists i :: 0 <= i < |input.lineItems| && input.lineItems[i] == ItemRequest(e, short.requested))
    && (exists t :: input.startsAt <= t < input.endsAt && InUseAt(s.bookings, now, e, t) == short.peakInUse)
    && (forall t :: input.startsAt <= t < input.endsAt ==> InUseAt(s.bookings, now, e, t) <= short.peakInUse)
    && !TooMany(cfg, e, short.ceiling) && TooMany(cfg, e, short.ceiling + 1)
    && short.shortBy == short.peakInUse + short.requested - short.ceiling && short.shortBy > 0
  }

  lemma {:induction false} ShortfallsAreShort(cfg: Config, s: Api, now: int, input: HoldInput, ids: seq<nat>)
    requires ValidConfig(cfg) && forall k :: 0 <= k < |ids| ==> ids[k] in cfg.equipment
    ensures forall x :: x in Shortfalls(cfg, s, now, input, ids) ==>
              x.equipmentTypeId in ids && x.equipmentTypeId in cfg.equipment
              && ShortfallOf(cfg, s, now, input, x.equipmentTypeId) == Some(x)
    decreases |ids|
  {
    hide ShortfallOf;
    if ids != [] {
      ShortfallsAreShort(cfg, s, now, input, ids[..|ids| - 1]);
      ShortfallNamesItsType(cfg, s, now, input, ids[|ids| - 1]);
    }
  }

  lemma ShortfallNamesItsType(cfg: Config, s: Api, now: int, input: HoldInput, e: nat)
    requires ValidConfig(cfg) && e in cfg.equipment
    ensures ShortfallOf(cfg, s, now, input, e).Some? ==> ShortfallOf(cfg, s, now, input, e).value.equipmentTypeId == e
  {
  }

  /** A capacity refusal is true of every type it lists. */
  lemma ShortagesAreTold(cfg: Config, s: Api, now: int, input: HoldInput, venueId: nat)
    requires ValidConfig(cfg) && ValidHold(input) && IntervalsOrdered(s.bookings)
    ensures var r := AdmitEquipment(cfg, s, now, input, venueId);
            r.Err? && r.error.Capacity? ==>
              r.error.shortfalls != [] && forall x :: x in r.error.shortfalls ==> TellsTheShortage(cfg, s, now, input, x)
  {
    var r := AdmitEquipment(cfg, s, now, input, venueId);
    if r.Err? && r.error.Capacity? {
      if !AllKnownAndLocal(cfg, input, venueId) { ForeignAdmission(cfg, s, now, input, venueId); }
      LocalAdmission(cfg, s, now, input, venueId);
      hide AdmitEquipment, Priced;
      var ids := SortedIds(input.lineItems);
      SortedIdsExact(input.lineItems);
      ShortfallsAreShort(cfg, s, now, input, ids);
      forall x | x in r.error.shortfalls ensures TellsTheShortage(cfg, s, now, input, x) {
        ShortageIsTold(cfg, s, now, input, x);
      }
    }
  }

  lemma ShortageIsTold(cfg: Config, s: Api, now: int, input: HoldInput, x: Shortfall)
    requires ValidConfig(cfg) && ValidHold(input) && IntervalsOrdered(s.bookings)
    requires x.equipmentTypeId in cfg.equipment && Names(input.lineItems, x.equipmentTypeId)
    requires ShortfallOf(cfg, s, now, input, x.equipmentTypeId) == Some(x)
    ensures TellsTheShortage(cfg, s, now, input, x)
  {
    var e := x.equipmentTypeId;
    hide PeakUsage, Ceiling, TooMany, Wanted, InUseAt;
    PeakUsageIsMaximum(s.bookings, now, e, input.startsAt, input.endsAt);
    var i :| 0 <= i < |input.lineItems| && input.lineItems[i].equipmentTypeId == e;
    WantedIsItsLine(input.lineItems, i);
    OverCeilingIff(cfg, e, x.ceiling);
    OverCeilingIff(cfg, e, x.ceiling + 1);
    assert input.lineItems[i] == ItemRequest(e, x.requested);
  }

  // --- Re-arming ------------------------------------------------------------------------------------------------

  /**
   * Checkout succeeds exactly for a hold or pending payment whose deadline is
   * ahead, with a re-arm and some lifetime left; the new deadline is the earlier
   * of a full re-arm from now and the end of that lifetime.
   */
  lemma CheckoutSucceedsIff(cfg: Config, s: Api, now: int, id: BookingId, userId: nat)
    ensures var r := Checkout(cfg, s, now, id, userId);
            && (r.Ok? <==>
                  && id < |s.bookings| && s.bookings[id].status in {HELD, PENDING_PAYMENT}
                  && (s.bookings[id].expiresAt.Some? ==> now < s.bookings[id].expiresAt.value)
                  && s.bookings[id].rearmCount < cfg.env.maxRearms && now < s.bookings[id].createdAt + cfg.env.maxLifetime)
            && (r.Ok? ==> exists deadline ::
                  && EarlierOf(deadline, now + cfg.env.checkoutRearm, s.bookings[id].createdAt + cfg.env.maxLifetime)
                  && r.value.bookings == s.bookings[id := s.bookings[id].(
                       expiresAt := Some(deadline), rearmCount := s.bookings[id].rearmCount + 1, updatedAt := now)]
                  && r.value == s.(bookings := r.value.bookings, audit := r.value.audit))
  {
    if Checkout(cfg, s, now, id, userId).Ok? {
      var deadline := Checkout(cfg, s, now, id, userId).value.bookings[id].expiresAt.value;
      assert EarlierOf(deadline, now + cfg.env.checkoutRearm, s.bookings[id].createdAt + cfg.env.maxLifetime);
    }
  }

  predicate EarlierOf(x: int, a: int, b: int) { x <= a && x <= b && (x == a || x == b) }

  // --- Rooms, fifteen minutes apart ---------------------------------------------------------------------------------

  /** Held, being paid for or confirmed. */
  predicate TakesItsRoom(b: Booking) { b.status == HELD || b.status == PENDING_PAYMENT || b.status == CONFIRMED }

  /** One ends fifteen minutes before the other starts. */
  predicate FifteenMinutesApart(a: Booking, b: Booking) {
    a.endsAt + 900_000 <= b.startsAt || b.endsAt + 900_000 <= a.startsAt
  }

  /** Any two bookings that take one room are fifteen minutes apart. */
  ghost predicate RoomsApart(bookings: seq<Booking>) {
    forall i, j ::
      0 <= i < j < |bookings| && TakesItsRoom(bookings[i]) && TakesItsRoom(bookings[j]) && bookings[i].roomId == bookings[j].roomId
      ==> FifteenMinutesApart(bookings[i], bookings[j])
  }

  lemma RoomsExclusiveInMinutes(bookings: seq<Booking>)
    ensures RoomsExclusive(bookings) <==> RoomsApart(bookings)
  {
  }

  /** The room is taken within fifteen minutes of the request, and not by a hold whose time has run out. */
  predicate InItsWay(b: Booking, now: int, input: HoldInput) {
    && b.roomId == input.roomId && TakesItsRoom(b)
    && !(b.status == HELD && b.expiresAt.Some? && b.expiresAt.value < now)
    && input.startsAt < b.endsAt + 900_000 && b.startsAt < input.endsAt + 900_000
  }

  lemma InItsWayIff(b: Booking, now: int, input: HoldInput)
    ensures StandsInTheWay(b, now, input) <==> InItsWay(b, now, input)
  {
  }

  /** A room-only hold succeeds exactly when it may be asked for and no booking is in its way. */
  lemma RoomOnlyHoldInMinutes(cfg: Config, s: Api, now: int, input: HoldInput, userId: nat)
    requires ValidConfig(cfg) && input.roomId in cfg.rooms && ValidHold(input) && input.lineItems == []
    ensures Hold(cfg, s, now, input, userId).Ok?
            <==> MayBook(cfg, now, input) && forall i :: 0 <= i < |s.bookings| ==> !InItsWay(s.bookings[i], now, input)
  {
    MayBookIff(cfg, now, input);
    hide HoldOnce, Bookable, MayBook, StandsInTheWay, InItsWay, ValidHold;
    if Bookable(cfg, now, input) {
      RoomOnlyHoldSucceedsIff(cfg, s, now, input, userId);
      forall i | 0 <= i < |s.bookings| { InItsWayIff(s.bookings[i], now, input); }
    }
  }
}
