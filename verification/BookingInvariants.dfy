/**
 * What the bookings table keeps over every step: rooms never double-book,
 * equipment never oversells at any instant, hold deadlines stay bounded.
 */
module BookingInvariants {
  import opened Wrappers
  import opened RefundPolicy
  import opened Ids
  import opened Database
  import opened BookingStateMachine
  import opened BookingsService
  import opened ZonedTime
  import SweepLine

  /** No two active bookings of a room meet, each end extended by the turnaround. */
  ghost predicate RoomsExclusive(bookings: seq<Booking>) {
    forall i, j :: 0 <= i < j < |bookings| && bookings[i].status in ACTIVE && bookings[j].status in ACTIVE
                   && bookings[i].roomId == bookings[j].roomId
      ==> !SlotsMeet(bookings[i].startsAt, bookings[i].endsAt, bookings[j].startsAt, bookings[j].endsAt)
  }

  ghost predicate NeverOversold(cfg: Config, bookings: seq<Booking>, now: int)
    requires ValidConfig(cfg)
  {
    forall e, t :: e in cfg.equipment ==> InUseAt(bookings, now, e, t) <= Ceiling(cfg, e)
  }

  /** A new hold lives no longer than a re-arm gives and than its lifetime cap allows; nothing enforces it. */
  predicate ValidEnv(env: Env) {
    0 < env.holdTtl <= env.checkoutRearm && env.holdTtl <= env.maxLifetime
  }

  predicate DeadlineBounded(env: Env, b: Booking, now: int) {
    && b.createdAt <= now
    && b.rearmCount <= env.maxRearms
    && (b.status in {HELD, PENDING_PAYMENT} ==> b.expiresAt.Some?)
    && (ValidEnv(env) && b.expiresAt.Some? ==>
          && b.expiresAt.value <= b.createdAt + env.maxLifetime
          && b.expiresAt.value <= now + env.checkoutRearm)
  }

  ghost predicate DeadlinesBounded(env: Env, bookings: seq<Booking>, now: int) {
    forall i :: 0 <= i < |bookings| ==> DeadlineBounded(env, bookings[i], now)
  }

  ghost predicate BookingsOk(cfg: Config, bookings: seq<Booking>, now: int)
    requires ValidConfig(cfg)
  {
    && IntervalsOrdered(bookings)
    && RoomsExclusive(bookings)
    && NeverOversold(cfg, bookings, now)
    && DeadlinesBounded(cfg.env, bookings, now)
  }

  /** What any step other than a hold may do to one row between two clock readings. */
  predicate RowEvolves(env: Env, b: Booking, b': Booking, now: int, now': int) {
    && now <= now'
    && b'.venueId == b.venueId && b'.roomId == b.roomId && b'.startsAt == b.startsAt && b'.endsAt == b.endsAt
    && b'.items == b.items && b'.totalMinor == b.totalMinor && b'.createdAt == b.createdAt && b'.userId == b.userId
    && (b'.status == b.status || (b.status != DRAFT && b'.status in LegalTransitions(b.status)))
    && (Live(b', now') ==> Live(b, now))
    && (DeadlineBounded(env, b, now) ==> DeadlineBounded(env, b', now'))
    && (b.policySnapshot.Some? ==> b'.policySnapshot == b.policySnapshot)
    && b.rearmCount <= b'.rearmCount
    && (b'.expiresAt.Some? ==> b.expiresAt.Some?)
    && (ValidEnv(env) && DeadlineBounded(env, b, now) && b'.expiresAt.Some? ==> b.expiresAt.value <= b'.expiresAt.value)
  }

  ghost predicate RowsEvolve(env: Env, bookings: seq<Booking>, bookings': seq<Booking>, now: int, now': int) {
    && |bookings'| == |bookings|
    && forall i :: 0 <= i < |bookings| ==> RowEvolves(env, bookings[i], bookings'[i], now, now')
  }

  // --- Equipment -----------------------------------------------------------

  lemma {:induction false} UsageNeverGrows(
      env: Env, bookings: seq<Booking>, bookings': seq<Booking>, now: int, now': int, e: nat, t: int)
    requires RowsEvolve(env, bookings, bookings', now, now')
    ensures InUseAt(bookings', now', e, t) <= InUseAt(bookings, now, e, t)
    decreases |bookings|
  {
    if bookings != [] {
      var n := |bookings| - 1;
      UsageNeverGrows(env, bookings[..n], bookings'[..n], now, now', e, t);
      assert RowEvolves(env, bookings[n], bookings'[n], now, now');
    }
  }

  /** Every step that only evolves rows keeps all four properties; no legal move re-enters the active set. */
  lemma EvolvingKeepsBookings(cfg: Config, bookings: seq<Booking>, bookings': seq<Booking>, now: int, now': int)
    requires ValidConfig(cfg) && BookingsOk(cfg, bookings, now)
    requires RowsEvolve(cfg.env, bookings, bookings', now, now')
    ensures BookingsOk(cfg, bookings', now')
  {
    forall i | 0 <= i < |bookings|
      ensures bookings'[i].status in ACTIVE ==> bookings[i].status in ACTIVE
      ensures bookings'[i].startsAt < bookings'[i].endsAt
      ensures DeadlineBounded(cfg.env, bookings'[i], now')
    {
      assert RowEvolves(cfg.env, bookings[i], bookings'[i], now, now');
    }
    forall e, t | e in cfg.equipment ensures InUseAt(bookings', now', e, t) <= Ceiling(cfg, e) {
      UsageNeverGrows(cfg.env, bookings, bookings', now, now', e, t);
    }
    assert RoomsExclusive(bookings') by {
      assert forall i :: 0 <= i < |bookings| ==> RowEvolves(cfg.env, bookings[i], bookings'[i], now, now');
    }
  }

  lemma ExpiredRowEvolves(env: Env, b: Booking, now: int)
    requires Stale(b, now)
    ensures RowEvolves(env, b, b.(status := EXPIRED, updatedAt := now), now, now)
  {
  }

  lemma UnchangedRowEvolves(env: Env, b: Booking, now: int, now': int)
    requires now <= now'
    ensures RowEvolves(env, b, b, now, now')
  {
  }

  lemma ExpiringEvolves(env: Env, s: Api, now: int, ids: seq<BookingId>, reason: Reason)
    requires StaleBatch(s.bookings, now, ids)
    ensures RowsEvolve(env, s.bookings, ExpireRows(s, now, ids, reason).bookings, now, now)
  {
    var after := ExpireRows(s, now, ids, reason).bookings;
    forall i | 0 <= i < |after| ensures RowEvolves(env, s.bookings[i], after[i], now, now) {
      if i in ids {
        var k :| 0 <= k < |ids| && ids[k] == i;
        ExpiredRowEvolves(env, s.bookings[i], now);
      } else {
        UnchangedRowEvolves(env, s.bookings[i], now, now);
      }
    }
  }

  lemma ClearingRoomEvolves(env: Env, s: Api, now: int, roomId: nat)
    ensures StaleBatch(s.bookings, now, StaleInRoom(s.bookings, roomId, now, |s.bookings|))
    ensures RowsEvolve(env, s.bookings, ExpireStaleHoldsForRoom(s, now, roomId).bookings, now, now)
  {
    var ids := StaleInRoom(s.bookings, roomId, now, |s.bookings|);
    StaleInRoomExact(s.bookings, roomId, now, |s.bookings|);
    forall k | 0 <= k < |ids| ensures ids[k] < |s.bookings| && Stale(s.bookings[ids[k]], now) { assert ids[k] in ids; }
    ExpiringEvolves(env, s, now, ids, HoldExpiredInTransaction);
  }

  /** Stale rows hold nothing, so clearing a room changes no type's usage. */
  lemma {:induction false} ClearingKeepsUsage(bookings: seq<Booking>, bookings': seq<Booking>, now: int, e: nat, t: int)
    requires |bookings'| == |bookings|
    requires forall i :: 0 <= i < |bookings| ==>
      bookings'[i] == bookings[i] ||
      (Stale(bookings[i], now) && bookings'[i] == bookings[i].(status := EXPIRED, updatedAt := now))
    ensures InUseAt(bookings', now, e, t) == InUseAt(bookings, now, e, t)
    decreases |bookings|
  {
    if bookings != [] {
      var n := |bookings| - 1;
      ClearingKeepsUsage(bookings[..n], bookings'[..n], now, e, t);
    }
  }

  ghost predicate Ascending(ids: seq<nat>) { forall j, k :: 0 <= j < k < |ids| ==> ids[j] < ids[k] }

  ghost predicate Names(items: seq<ItemRequest>, e: nat) {
    exists i :: 0 <= i < |items| && items[i].equipmentTypeId == e
  }

  ghost predicate ListsTypes(ids: seq<nat>, items: seq<ItemRequest>) { forall e :: e in ids <==> Names(items, e) }

  ghost predicate DistinctTypes(items: seq<ItemRequest>) {
    forall i, j :: 0 <= i < j < |items| ==> items[i].equipmentTypeId != items[j].equipmentTypeId
  }

  lemma {:induction false} InsertIdKeeps(x: nat, ids: seq<nat>)
    requires Ascending(ids) && x !in ids
    ensures Ascending(InsertId(x, ids))
    ensures forall e :: e in InsertId(x, ids) <==> e == x || e in ids
  {
    if ids == [] || x <= ids[0] {
    } else {
      InsertIdKeeps(x, ids[1..]);
      assert forall e :: e in ids <==> e == ids[0] || e in ids[1..];
      var tail := InsertId(x, ids[1..]);
      forall j | 0 <= j < |tail| ensures ids[0] < tail[j] { assert tail[j] in tail; }
    }
  }

  lemma NamesFirstOrRest(items: seq<ItemRequest>, e: nat)
    requires items != []
    ensures Names(items, e) <==> items[0].equipmentTypeId == e || Names(items[1..], e)
  {
    if Names(items[1..], e) {
      var i :| 0 <= i < |items| - 1 && items[1..][i].equipmentTypeId == e;
      assert items[i + 1].equipmentTypeId == e;
    }
    if Names(items, e) {
      var i :| 0 <= i < |items| && items[i].equipmentTypeId == e;
      assert i > 0 ==> items[1..][i - 1].equipmentTypeId == e;
    }
  }

  lemma {:induction false} SortedIdsExact(items: seq<ItemRequest>)
    requires DistinctTypes(items)
    ensures Ascending(SortedIds(items)) && ListsTypes(SortedIds(items), items)
  {
    if items != [] {
      SortedIdsExact(items[1..]);
      var head := items[0].equipmentTypeId;
      forall i | 0 <= i < |items| - 1 ensures items[1..][i].equipmentTypeId != head {}
      InsertIdKeeps(head, SortedIds(items[1..]));
      forall e: nat { NamesFirstOrRest(items, e); }
    }
  }

  /** A booking's line items carry exactly the wanted quantity of each listed type. */
  lemma {:induction false} PricedQuantity(cfg: Config, input: HoldInput, ids: seq<nat>, e: nat)
    requires forall k :: 0 <= k < |ids| ==> ids[k] in cfg.equipment
    requires Ascending(ids)
    ensures QuantityOf(Priced(cfg, input, ids), e) == if e in ids then Wanted(input.lineItems, e) else 0
    decreases |ids|
  {
    if ids != [] {
      PricedQuantity(cfg, input, ids[1..], e);
      assert Priced(cfg, input, ids)[1..] == Priced(cfg, input, ids[1..]);
    }
  }

  lemma {:induction false} ShortfallsExact(cfg: Config, s: Api, now: int, input: HoldInput, ids: seq<nat>)
    requires ValidConfig(cfg) && forall k :: 0 <= k < |ids| ==> ids[k] in cfg.equipment
    ensures Shortfalls(cfg, s, now, input, ids) == []
            <==> forall e :: e in ids ==> ShortfallOf(cfg, s, now, input, e).None?
    decreases |ids|
  {
    if ids != [] {
      var n := |ids| - 1;
      ShortfallsExact(cfg, s, now, input, ids[..n]);
      assert ids == ids[..n] + [ids[n]];
      assert forall e :: e in ids <==> e in ids[..n] || e == ids[n];
    }
  }

  ghost predicate WouldOversell(cfg: Config, bookings: seq<Booking>, now: int, input: HoldInput, e: nat, t: int)
    requires ValidConfig(cfg) && e in cfg.equipment
  {
    input.startsAt <= t < input.endsAt
    && InUseAt(bookings, now, e, t) + Wanted(input.lineItems, e) > Ceiling(cfg, e)
  }

  lemma ShortfallIffSomeInstant(cfg: Config, s: Api, now: int, input: HoldInput, e: nat)
    requires ValidConfig(cfg) && e in cfg.equipment && IntervalsOrdered(s.bookings) && input.startsAt < input.endsAt
    ensures ShortfallOf(cfg, s, now, input, e).Some? <==> exists t :: WouldOversell(cfg, s.bookings, now, input, e, t)
  {
    PeakUsageIsMaximum(s.bookings, now, e, input.startsAt, input.endsAt);
    var x :| input.startsAt <= x < input.endsAt
             && InUseAt(s.bookings, now, e, x) == PeakUsage(s.bookings, now, e, input.startsAt, input.endsAt);
    if ShortfallOf(cfg, s, now, input, e).Some? { assert WouldOversell(cfg, s.bookings, now, input, e, x); }
  }

  predicate AllKnownAndLocal(cfg: Config, input: HoldInput, venueId: nat)
    requires ValidConfig(cfg)
  {
    forall i :: 0 <= i < |input.lineItems| ==>
      input.lineItems[i].equipmentTypeId in cfg.equipment
      && cfg.equipment[input.lineItems[i].equipmentTypeId].venueId == venueId
  }

  /** Is some requested type short at some instant of the request? */
  ghost predicate SomeTypeShort(cfg: Config, bookings: seq<Booking>, now: int, input: HoldInput)
    requires ValidConfig(cfg)
  {
    exists e, t :: e in cfg.equipment && Names(input.lineItems, e) && WouldOversell(cfg, bookings, now, input, e, t)
  }

  /** With every type known and local, what is left of admission is the shortfall list. */
  lemma LocalAdmission(cfg: Config, s: Api, now: int, input: HoldInput, venueId: nat)
    requires ValidConfig(cfg) && ValidHold(input) && AllKnownAndLocal(cfg, input, venueId)
    ensures var ids := SortedIds(input.lineItems);
            && (forall k :: 0 <= k < |ids| ==> ids[k] in cfg.equipment)
            && AdmitEquipment(cfg, s, now, input, venueId) ==
               if Shortfalls(cfg, s, now, input, ids) != [] then Err(Capacity(Shortfalls(cfg, s, now, input, ids)))
               else Ok(Priced(cfg, input, ids))
  {
    var ids := SortedIds(input.lineItems);
    SortedIdsExact(input.lineItems);
    forall k | 0 <= k < |ids| ensures ids[k] in cfg.equipment && cfg.equipment[ids[k]].venueId == venueId {
      assert ids[k] in ids && Names(input.lineItems, ids[k]);
    }
    assert UnknownTypes(cfg, ids) == {} && ForeignTypes(cfg, ids, venueId) == {};
  }

  lemma ForeignAdmission(cfg: Config, s: Api, now: int, input: HoldInput, venueId: nat)
    requires ValidConfig(cfg) && ValidHold(input) && !AllKnownAndLocal(cfg, input, venueId)
    ensures var r := AdmitEquipment(cfg, s, now, input, venueId); r.Err? && !r.error.Capacity?
  {
    var ids := SortedIds(input.lineItems);
    SortedIdsExact(input.lineItems);
    var i :| 0 <= i < |input.lineItems| &&
             !(input.lineItems[i].equipmentTypeId in cfg.equipment
               && cfg.equipment[input.lineItems[i].equipmentTypeId].venueId == venueId);
    var e := input.lineItems[i].equipmentTypeId;
    assert Names(input.lineItems, e);
    assert e in UnknownTypes(cfg, ids) || e in ForeignTypes(cfg, ids, venueId);
  }

  /**
   * Equipment is admitted exactly when every type is known, belongs to the
   * room's venue, and fits at every instant of the request; it is refused on
   * capacity exactly when some type would exceed its ceiling at some instant.
   */
  lemma AdmissionIsExact(cfg: Config, s: Api, now: int, input: HoldInput, venueId: nat)
    requires ValidConfig(cfg) && ValidHold(input) && IntervalsOrdered(s.bookings)
    ensures var r := AdmitEquipment(cfg, s, now, input, venueId);
            && (r.Ok? <==> AllKnownAndLocal(cfg, input, venueId) && !SomeTypeShort(cfg, s.bookings, now, input))
            && ((r.Err? && r.error.Capacity?)
                <==> AllKnownAndLocal(cfg, input, venueId) && SomeTypeShort(cfg, s.bookings, now, input))
  {
    if !AllKnownAndLocal(cfg, input, venueId) {
      ForeignAdmission(cfg, s, now, input, venueId);
    } else {
      LocalAdmission(cfg, s, now, input, venueId);
      var ids := SortedIds(input.lineItems);
      SortedIdsExact(input.lineItems);
      ShortfallsExact(cfg, s, now, input, ids);
      forall e | e in ids ensures ShortfallOf(cfg, s, now, input, e).Some?
                                  <==> exists t :: WouldOversell(cfg, s.bookings, now, input, e, t)
      {
        ShortfallIffSomeInstant(cfg, s, now, input, e);
      }
    }
  }

  // --- The hold path -------------------------------------------------------

  lemma InUseOfAppended(bookings: seq<Booking>, b: Booking, now: int, e: nat, t: int)
    ensures InUseAt(bookings + [b], now, e, t) ==
      InUseAt(bookings, now, e, t) + if Live(b, now) && b.startsAt <= t < b.endsAt then QuantityOf(b.items, e) else 0
  {
    assert (bookings + [b])[..|bookings|] == bookings;
  }

  lemma HoldShape(cfg: Config, s: Api, now: int, input: HoldInput, userId: nat)
    requires ValidConfig(cfg) && input.roomId in cfg.rooms && ValidHold(input)
    requires HoldOnce(cfg, s, now, input, userId).Ok?
    ensures var cleared := ExpireStaleHoldsForRoom(s, now, input.roomId);
            var admitted := AdmitEquipment(cfg, cleared, now, input, cfg.rooms[input.roomId].venueId);
            var after := HoldOnce(cfg, s, now, input, userId).value;
            && admitted.Ok?
            && SlotFree(cleared.bookings, input.roomId, input.startsAt, input.endsAt)
            && after.bookings == cleared.bookings
                                 + [NewHold(cfg, now, input, userId, admitted.value).(items := admitted.value)]
            && after.audit == cleared.audit + [AuditRow(|s.bookings|, User(userId), DRAFT, HELD, HoldCreated)]
            && after == s.(bookings := after.bookings, audit := after.audit)
  {
    hide AdmitEquipment, StaleInRoom, SlotFree, Flipped, ExpiredRows, PriceOf, Bookable;
  }

  /** The new row fits under every ceiling at every instant. */
  lemma AdmittedFits(cfg: Config, s: Api, now: int, input: HoldInput, items: seq<LineItem>, e: nat, t: int)
    requires ValidConfig(cfg) && input.roomId in cfg.rooms && ValidHold(input)
    requires IntervalsOrdered(s.bookings) && NeverOversold(cfg, s.bookings, now)
    requires AdmitEquipment(cfg, s, now, input, cfg.rooms[input.roomId].venueId) == Ok(items)
    requires e in cfg.equipment
    ensures InUseAt(s.bookings, now, e, t) + (if input.startsAt <= t < input.endsAt then QuantityOf(items, e) else 0)
            <= Ceiling(cfg, e)
  {
    var ids := SortedIds(input.lineItems);
    SortedIdsExact(input.lineItems);
    if !AllKnownAndLocal(cfg, input, cfg.rooms[input.roomId].venueId) {
      ForeignAdmission(cfg, s, now, input, cfg.rooms[input.roomId].venueId);
    }
    LocalAdmission(cfg, s, now, input, cfg.rooms[input.roomId].venueId);
    PricedQuantity(cfg, input, ids, e);
    if e in ids && input.startsAt <= t < input.endsAt {
      ShortfallsExact(cfg, s, now, input, ids);
      ShortfallIffSomeInstant(cfg, s, now, input, e);
      assert !WouldOversell(cfg, s.bookings, now, input, e, t);
    }
  }

  /** Inserting a row that fits and finds its slot free keeps everything. */
  lemma AppendKeepsBookings(cfg: Config, bookings: seq<Booking>, b: Booking, now: int)
    requires ValidConfig(cfg) && BookingsOk(cfg, bookings, now)
    requires b.startsAt < b.endsAt && DeadlineBounded(cfg.env, b, now)
    requires SlotFree(bookings, b.roomId, b.startsAt, b.endsAt)
    requires forall e, t :: e in cfg.equipment ==>
      InUseAt(bookings, now, e, t) + (if b.startsAt <= t < b.endsAt then QuantityOf(b.items, e) else 0) <= Ceiling(cfg, e)
    ensures BookingsOk(cfg, bookings + [b], now)
  {
    var after := bookings + [b];
    forall e, t | e in cfg.equipment ensures InUseAt(after, now, e, t) <= Ceiling(cfg, e) {
      InUseOfAppended(bookings, b, now, e, t);
    }
    assert RoomsExclusive(after) by {
      forall i | 0 <= i < |bookings| ensures !Blocks(bookings[i], b.roomId, b.startsAt, b.endsAt) {}
    }
  }

  /** A hold keeps rooms exclusive, equipment within its ceilings and deadlines bounded. */
  lemma HoldKeepsBookings(cfg: Config, s: Api, now: int, input: HoldInput, userId: nat)
    requires ValidConfig(cfg) && ValidHold(input) && BookingsOk(cfg, s.bookings, now)
    ensures BookingsOk(cfg, Committed(s, Hold(cfg, s, now, input, userId)).bookings, now)
  {
    if Hold(cfg, s, now, input, userId).Ok? {
      HoldShape(cfg, s, now, input, userId);
      var cleared := ExpireStaleHoldsForRoom(s, now, input.roomId);
      ClearingRoomEvolves(cfg.env, s, now, input.roomId);
      EvolvingKeepsBookings(cfg, s.bookings, cleared.bookings, now, now);
      var items := AdmitEquipment(cfg, cleared, now, input, cfg.rooms[input.roomId].venueId).value;
      var hold := NewHold(cfg, now, input, userId, items).(items := items);
      forall e, t | e in cfg.equipment
        ensures InUseAt(cleared.bookings, now, e, t)
                + (if hold.startsAt <= t < hold.endsAt then QuantityOf(hold.items, e) else 0) <= Ceiling(cfg, e)
      {
        AdmittedFits(cfg, cleared, now, input, items, e, t);
      }
      AppendKeepsBookings(cfg, cleared.bookings, hold, now);
    }
  }

  /** A row that stands in the way: active, in this room, meeting the slot, and not a hold past its deadline. */
  predicate StandsInTheWay(b: Booking, now: int, input: HoldInput) {
    Blocks(b, input.roomId, input.startsAt, input.endsAt) && !Stale(b, now)
  }

  /**
   * A room-only hold that passes validation succeeds exactly when no unexpired
   * hold, pending payment or confirmed booking of the room meets its slot.
   */
  lemma RoomOnlyHoldSucceedsIff(cfg: Config, s: Api, now: int, input: HoldInput, userId: nat)
    requires ValidConfig(cfg) && input.roomId in cfg.rooms && ValidHold(input)
    requires Bookable(cfg, now, input) && input.lineItems == []
    ensures Hold(cfg, s, now, input, userId).Ok?
            <==> forall i :: 0 <= i < |s.bookings| ==> !StandsInTheWay(s.bookings[i], now, input)
    ensures Hold(cfg, s, now, input, userId).Err? ==> Hold(cfg, s, now, input, userId).error == SlotTaken
  {
    var cleared := ExpireStaleHoldsForRoom(s, now, input.roomId);
    ClearedSlot(s, now, input);
    assert SortedIds(input.lineItems) == [];
    assert AllKnownAndLocal(cfg, input, cfg.rooms[input.roomId].venueId);
    LocalAdmission(cfg, cleared, now, input, cfg.rooms[input.roomId].venueId);
  }

  lemma ClearedSlot(s: Api, now: int, input: HoldInput)
    ensures SlotFree(ExpireStaleHoldsForRoom(s, now, input.roomId).bookings, input.roomId, input.startsAt, input.endsAt)
            <==> forall i :: 0 <= i < |s.bookings| ==> !StandsInTheWay(s.bookings[i], now, input)
  {
    forall i | 0 <= i < |s.bookings| { ClearedRow(s, now, input, i); }
    var cleared := ExpireStaleHoldsForRoom(s, now, input.roomId).bookings;
    if i :| 0 <= i < |s.bookings| && StandsInTheWay(s.bookings[i], now, input) {
      assert Blocks(cleared[i], input.roomId, input.startsAt, input.endsAt);
    }
  }

  lemma ClearedRow(s: Api, now: int, input: HoldInput, i: nat)
    requires i < |s.bookings|
    ensures Blocks(ExpireStaleHoldsForRoom(s, now, input.roomId).bookings[i], input.roomId, input.startsAt, input.endsAt)
            <==> StandsInTheWay(s.bookings[i], now, input)
  {
    ClearedRowIs(s, now, input.roomId, i);
    hide SlotsMeet, ExpireStaleHoldsForRoom;
  }

  lemma ClearedRowIs(s: Api, now: int, roomId: nat, i: nat)
    requires i < |s.bookings|
    ensures |ExpireStaleHoldsForRoom(s, now, roomId).bookings| == |s.bookings|
    ensures ExpireStaleHoldsForRoom(s, now, roomId).bookings[i]
            == if s.bookings[i].roomId == roomId && Stale(s.bookings[i], now)
               then s.bookings[i].(status := EXPIRED, updatedAt := now) else s.bookings[i]
  {
    hide StaleInRoom, ExpiredRows, Stale;
    StaleInRoomExact(s.bookings, roomId, now, |s.bookings|);
    assert i in StaleInRoom(s.bookings, roomId, now, |s.bookings|) <==> s.bookings[i].roomId == roomId && Stale(s.bookings[i], now);
  }

  /**
   * A hold is refused on capacity exactly when it is bookable, asks only for its
   * venue's own equipment, and some type would exceed its ceiling at some instant.
   */
  lemma CapacityRefusalIff(cfg: Config, s: Api, now: int, input: HoldInput, userId: nat)
    requires ValidConfig(cfg) && ValidHold(input) && IntervalsOrdered(s.bookings)
    ensures var r := Hold(cfg, s, now, input, userId);
            (r.Err? && r.error.Capacity?) <==>
              input.roomId in cfg.rooms && Bookable(cfg, now, input)
              && AllKnownAndLocal(cfg, input, cfg.rooms[input.roomId].venueId)
              && SomeTypeShort(cfg, s.bookings, now, input)
  {
    if input.roomId in cfg.rooms {
      var cleared := ExpireStaleHoldsForRoom(s, now, input.roomId);
      StaleInRoomExact(s.bookings, input.roomId, now, |s.bookings|);
      ClearingRoomEvolves(cfg.env, s, now, input.roomId);
      AdmissionIsExact(cfg, cleared, now, input, cfg.rooms[input.roomId].venueId);
      forall e, t | e in cfg.equipment
        ensures WouldOversell(cfg, cleared.bookings, now, input, e, t) <==> WouldOversell(cfg, s.bookings, now, input, e, t)
      {
        ClearingKeepsUsage(s.bookings, cleared.bookings, now, e, t);
      }
      assert SomeTypeShort(cfg, cleared.bookings, now, input) <==> SomeTypeShort(cfg, s.bookings, now, input);
    }
  }

  // --- Re-arming -----------------------------------------------------------

  /**
   * A re-arm never touches a lapsed hold, never moves the deadline earlier,
   * never past the lifetime cap, and counts against the maximum.
   */
  lemma CheckoutRearms(cfg: Config, s: Api, now: int, id: BookingId, userId: nat)
    requires ValidEnv(cfg.env) && DeadlinesBounded(cfg.env, s.bookings, now)
    ensures var r := Checkout(cfg, s, now, id, userId);
            r.Ok? ==>
              && id < |s.bookings|
              && var b := s.bookings[id]; var b' := r.value.bookings[id];
                 && b.expiresAt.Some? && now < b.expiresAt.value
                 && b'.expiresAt.Some? && b.expiresAt.value <= b'.expiresAt.value <= b.createdAt + cfg.env.maxLifetime
                 && b'.rearmCount == b.rearmCount + 1 <= cfg.env.maxRearms
                 && b'.status == b.status
  {
    if Checkout(cfg, s, now, id, userId).Ok? { assert DeadlineBounded(cfg.env, s.bookings[id], now); }
  }

  /** Whatever the configured lifetimes, a re-arm moves one live hold and no other row. */
  lemma CheckoutEvolves(cfg: Config, s: Api, now: int, id: BookingId, userId: nat)
    requires DeadlinesBounded(cfg.env, s.bookings, now)
    ensures var r := Checkout(cfg, s, now, id, userId);
            r.Ok? ==> id < |s.bookings| && r.value.bookings[id].status == s.bookings[id].status
                      && RowsEvolve(cfg.env, s.bookings, r.value.bookings, now, now)
  {
    var r := Checkout(cfg, s, now, id, userId);
    if r.Ok? {
      assert DeadlineBounded(cfg.env, s.bookings[id], now);
      forall i | 0 <= i < |s.bookings| ensures RowEvolves(cfg.env, s.bookings[i], r.value.bookings[i], now, now) {}
    }
  }

  /**
   * Availability drops a hold at the very instant its deadline falls; the hold
   * path clears only deadlines strictly in the past. At equality a slot shown
   * as free is refused.
   */
  lemma DeadlineInstantStillBlocks(b: Booking, now: int, input: HoldInput)
    requires b.status == HELD && Blocks(b, input.roomId, input.startsAt, input.endsAt)
    ensures !Live(b, now) && StandsInTheWay(b, now, input) <==> b.expiresAt == Some(now)
  {
  }
}
