/** Holding a room and its equipment, re-arming a hold at checkout, cancelling. */
module BookingsService {
  import opened Wrappers
  import opened RefundPolicy
  import opened Ids
  import opened Database
  import opened BookingStateMachine
  import opened ZonedTime
  import opened OperatingHours
  import SweepLine

  datatype Room = Room(venueId: nat, hourlyRateMinor: nat, minDurationMinutes: int, maxDurationMinutes: int)

  datatype EquipmentType = EquipmentType(venueId: nat, unitsOwned: nat, hourlyRateMinor: nat)

  datatype Venue = Venue(zone: Zone, hours: Option<Hours>, overbookingBufferPct: nat)

  /** Hold lifetimes in milliseconds. */
  datatype Env = Env(holdTtl: int, checkoutRearm: int, maxRearms: nat, maxLifetime: int)

  datatype Config = Config(
    rooms: map<nat, Room>, equipment: map<nat, EquipmentType>, venues: map<nat, Venue>, env: Env)

  /** Foreign keys, CHECK constraints and the parsed shape of operating hours. */
  predicate ValidConfig(cfg: Config) {
    && (forall r :: r in cfg.rooms ==> cfg.rooms[r].venueId in cfg.venues)
    && (forall e :: e in cfg.equipment ==> cfg.equipment[e].venueId in cfg.venues)
    && (forall v :: v in cfg.venues ==> cfg.venues[v].overbookingBufferPct <= 10)
    && (forall v :: v in cfg.venues && cfg.venues[v].hours.Some? ==> ValidHours(cfg.venues[v].hours.value))
  }

  datatype ItemRequest = ItemRequest(equipmentTypeId: nat, quantity: nat)

  datatype HoldInput = HoldInput(roomId: nat, startsAt: int, endsAt: int, lineItems: seq<ItemRequest>)

  const HALF_HOUR: int := 1_800_000

  /** What the wire schema admits: the half-hour grid, one to eight hours, no type named twice. */
  predicate ValidHold(input: HoldInput) {
    && input.startsAt % HALF_HOUR == 0 && input.endsAt % HALF_HOUR == 0
    && 60 * MINUTE <= input.endsAt - input.startsAt <= 480 * MINUTE
    && |input.lineItems| <= 50
    && (forall i :: 0 <= i < |input.lineItems| ==> 1 <= input.lineItems[i].quantity <= 1000)
    && (forall i, j :: 0 <= i < j < |input.lineItems| ==>
          input.lineItems[i].equipmentTypeId != input.lineItems[j].equipmentTypeId)
  }

  // --- Equipment in use ----------------------------------------------------

  /** An active row holds its units unless it is a hold whose time has run out. */
  predicate Live(b: Booking, now: int) {
    b.status in ACTIVE && !(b.status == HELD && b.expiresAt.Some? && b.expiresAt.value <= now)
  }

  function QuantityOf(items: seq<LineItem>, e: nat): nat {
    if items == [] then 0 else (if items[0].equipmentTypeId == e then items[0].quantity else 0) + QuantityOf(items[1..], e)
  }

  /** Units of type `e` out at instant `t`: the sum over live bookings covering it. */
  function InUseAt(bookings: seq<Booking>, now: int, e: nat, t: int): nat {
    if bookings == [] then 0
    else
      var b := bookings[|bookings| - 1];
      InUseAt(bookings[..|bookings| - 1], now, e, t)
      + if Live(b, now) && b.startsAt <= t < b.endsAt then QuantityOf(b.items, e) else 0
  }

  function ItemUses(b: Booking, items: seq<LineItem>, e: nat): seq<SweepLine.Use> {
    if items == [] then []
    else (if items[0].equipmentTypeId == e then [SweepLine.Use(b.startsAt, b.endsAt, items[0].quantity)] else [])
         + ItemUses(b, items[1..], e)
  }

  /** The join of line items with live bookings, one row per matching line item. */
  function UsesOf(bookings: seq<Booking>, now: int, e: nat): seq<SweepLine.Use> {
    if bookings == [] then []
    else
      var b := bookings[|bookings| - 1];
      UsesOf(bookings[..|bookings| - 1], now, e) + if Live(b, now) then ItemUses(b, b.items, e) else []
  }

  function PeakUsage(bookings: seq<Booking>, now: int, e: nat, s: int, t: int): int {
    SweepLine.Peak(UsesOf(bookings, now, e), s, t)
  }

  function AdmissionCeiling(unitsOwned: nat, bufferPct: nat): nat { unitsOwned * (100 + bufferPct) / 100 }

  function Ceiling(cfg: Config, e: nat): nat
    requires ValidConfig(cfg) && e in cfg.equipment
  {
    AdmissionCeiling(cfg.equipment[e].unitsOwned, cfg.venues[cfg.equipment[e].venueId].overbookingBufferPct)
  }

  predicate IntervalsOrdered(bookings: seq<Booking>) {
    forall i :: 0 <= i < |bookings| ==> bookings[i].startsAt < bookings[i].endsAt
  }

  lemma {:induction false} InUseAppend(a: seq<SweepLine.Use>, b: seq<SweepLine.Use>, t: int)
    ensures SweepLine.InUse(a + b, t) == SweepLine.InUse(a, t) + SweepLine.InUse(b, t)
  {
    if a == [] {
      assert a + b == b;
    } else {
      assert (a + b)[1..] == a[1..] + b;
      InUseAppend(a[1..], b, t);
    }
  }

  lemma {:induction false} ItemUsesSum(b: Booking, items: seq<LineItem>, e: nat, t: int)
    ensures SweepLine.InUse(ItemUses(b, items, e), t)
            == if b.startsAt <= t < b.endsAt then QuantityOf(items, e) else 0
    ensures forall u :: u in ItemUses(b, items, e) ==> u.from == b.startsAt && u.to == b.endsAt
  {
    if items != [] {
      ItemUsesSum(b, items[1..], e, t);
      if items[0].equipmentTypeId == e {
        InUseAppend([SweepLine.Use(b.startsAt, b.endsAt, items[0].quantity)], ItemUses(b, items[1..], e), t);
      } else {
        assert ItemUses(b, items, e) == ItemUses(b, items[1..], e);
      }
    }
  }

  lemma {:induction false} UsesSum(bookings: seq<Booking>, now: int, e: nat, t: int)
    requires IntervalsOrdered(bookings)
    ensures SweepLine.InUse(UsesOf(bookings, now, e), t) == InUseAt(bookings, now, e, t)
    ensures forall u :: u in UsesOf(bookings, now, e) ==> u.from < u.to
  {
    if bookings != [] {
      var b := bookings[|bookings| - 1];
      UsesSum(bookings[..|bookings| - 1], now, e, t);
      ItemUsesSum(b, b.items, e, t);
      InUseAppend(UsesOf(bookings[..|bookings| - 1], now, e), if Live(b, now) then ItemUses(b, b.items, e) else [], t);
    }
  }

  /** The sweep over the joined rows is the greatest usage at any instant of the request. */
  lemma PeakUsageIsMaximum(bookings: seq<Booking>, now: int, e: nat, s: int, t: int)
    requires IntervalsOrdered(bookings) && s < t
    ensures forall x :: s <= x < t ==> InUseAt(bookings, now, e, x) <= PeakUsage(bookings, now, e, s, t)
    ensures exists x :: s <= x < t && InUseAt(bookings, now, e, x) == PeakUsage(bookings, now, e, s, t)
  {
    forall x { UsesSum(bookings, now, e, x); }
    UsesSum(bookings, now, e, s);
    SweepLine.PeakIsExact(UsesOf(bookings, now, e), s, t);
    var x :| s <= x < t && SweepLine.InUse(UsesOf(bookings, now, e), x) == PeakUsage(bookings, now, e, s, t);
    assert InUseAt(bookings, now, e, x) == PeakUsage(bookings, now, e, s, t);
  }

  /** A type the query returns no row for has a peak of zero. */
  lemma NoRowsMeansZero(bookings: seq<Booking>, now: int, e: nat, s: int, t: int)
    ensures var events := SweepLine.SortEvents(SweepLine.Events(UsesOf(bookings, now, e), s, t));
            PeakUsage(bookings, now, e, s, t) == if |events| > 0 then SweepLine.MaxRunning(events, |events|) else 0
  {
  }

  /** A zero for every type asked about, then one row per type the query returned. */
  method PeakConcurrentUsage(db: Db, now: int, ids: seq<nat>, s: int, t: int) returns (peaks: map<nat, int>)
    ensures forall e :: e in peaks <==> e in ids
    ensures forall e :: e in ids ==> peaks[e] == PeakUsage(db.bookings, now, e, s, t)
  {
    hide PeakUsage, UsesOf, SweepLine.Events, SweepLine.SortEvents, SweepLine.MaxRunning;
    peaks := map[];
    for i := 0 to |ids|
      invariant forall e :: e in peaks <==> e in ids[..i]
      invariant forall e :: e in peaks ==> peaks[e] == 0
    {
      peaks := peaks[ids[i] := 0];
    }
    for i := 0 to |ids|
      invariant forall e :: e in peaks <==> e in ids
      invariant forall e :: e in ids ==>
        (e in ids[..i] ==> peaks[e] == PeakUsage(db.bookings, now, e, s, t)) && (e !in ids[..i] ==> peaks[e] == 0)
    {
      var uses := UsesOf(db.bookings, now, ids[i]);
      var events := SweepLine.SortEvents(SweepLine.Events(uses, s, t));
      NoRowsMeansZero(db.bookings, now, ids[i], s, t);
      if |events| > 0 {
        peaks := peaks[ids[i] := SweepLine.MaxRunning(events, |events|)];
      }
    }
  }

  // --- Admission -----------------------------------------------------------

  function Wanted(items: seq<ItemRequest>, e: nat): nat {
    if items == [] then 0 else if items[0].equipmentTypeId == e then items[0].quantity else Wanted(items[1..], e)
  }

  function InsertId(x: nat, ids: seq<nat>): seq<nat> {
    if ids == [] || x <= ids[0] then [x] + ids else [ids[0]] + InsertId(x, ids[1..])
  }

  /** The requested types in lock order. */
  function SortedIds(items: seq<ItemRequest>): seq<nat> {
    if items == [] then [] else InsertId(items[0].equipmentTypeId, SortedIds(items[1..]))
  }

  function ShortfallOf(cfg: Config, s: Api, now: int, input: HoldInput, e: nat): Option<Shortfall>
    requires ValidConfig(cfg) && e in cfg.equipment
  {
    var want := Wanted(input.lineItems, e);
    var peak := PeakUsage(s.bookings, now, e, input.startsAt, input.endsAt);
    if peak + want > Ceiling(cfg, e)
    then Some(Shortfall(e, want, peak, Ceiling(cfg, e), peak + want - Ceiling(cfg, e)))
    else None
  }

  function Shortfalls(cfg: Config, s: Api, now: int, input: HoldInput, ids: seq<nat>): seq<Shortfall>
    requires ValidConfig(cfg) && forall k :: 0 <= k < |ids| ==> ids[k] in cfg.equipment
  {
    if ids == [] then []
    else
      var last := ShortfallOf(cfg, s, now, input, ids[|ids| - 1]);
      Shortfalls(cfg, s, now, input, ids[..|ids| - 1]) + if last.Some? then [last.value] else []
  }

  function Priced(cfg: Config, input: HoldInput, ids: seq<nat>): seq<LineItem>
    requires forall k :: 0 <= k < |ids| ==> ids[k] in cfg.equipment
  {
    seq(|ids|, k requires 0 <= k < |ids| =>
      LineItem(ids[k], Wanted(input.lineItems, ids[k]), cfg.equipment[ids[k]].hourlyRateMinor))
  }

  function UnknownTypes(cfg: Config, ids: seq<nat>): set<nat> { set e | e in ids && e !in cfg.equipment }

  /** Equipment belongs to a venue and so does the room. */
  function ForeignTypes(cfg: Config, ids: seq<nat>, venueId: nat): set<nat> {
    set e | e in ids && e in cfg.equipment && cfg.equipment[e].venueId != venueId
  }

  function AdmitEquipment(cfg: Config, s: Api, now: int, input: HoldInput, venueId: nat): Result<seq<LineItem>, Refusal>
    requires ValidConfig(cfg)
  {
    var ids := SortedIds(input.lineItems);
    if UnknownTypes(cfg, ids) != {} then Err(UnknownEquipment(UnknownTypes(cfg, ids)))
    else if ForeignTypes(cfg, ids, venueId) != {} then Err(ForeignEquipment(ForeignTypes(cfg, ids, venueId)))
    else
      assert forall k :: 0 <= k < |ids| ==> ids[k] !in UnknownTypes(cfg, ids);
      var shortfalls := Shortfalls(cfg, s, now, input, ids);
      if shortfalls != [] then Err(Capacity(shortfalls)) else Ok(Priced(cfg, input, ids))
  }

  // --- The hold path -------------------------------------------------------

  predicate Bookable(cfg: Config, now: int, input: HoldInput)
    requires ValidConfig(cfg) && input.roomId in cfg.rooms
  {
    var room := cfg.rooms[input.roomId];
    var venue := cfg.venues[room.venueId];
    && input.startsAt - now >= 60 * MINUTE
    && input.startsAt - now <= 90 * DAY
    && room.minDurationMinutes * MINUTE <= input.endsAt - input.startsAt <= room.maxDurationMinutes * MINUTE
    && venue.hours.Some?
    && IsWithinOperatingHours(venue.hours.value, venue.zone, input.startsAt, input.endsAt)
  }

  function NewHold(cfg: Config, now: int, input: HoldInput, userId: nat, items: seq<LineItem>): Booking
    requires ValidConfig(cfg) && input.roomId in cfg.rooms && input.startsAt <= input.endsAt
  {
    var room := cfg.rooms[input.roomId];
    Booking(room.venueId, input.roomId, userId, input.startsAt, input.endsAt, HELD, Some(now + cfg.env.holdTtl), 0,
            None, PriceOf(HalfHours(input.startsAt, input.endsAt), room.hourlyRateMinor, items), [], now, now)
  }

  /** One transaction: clear this room's stale holds, admit the equipment, insert. */
  function HoldOnce(cfg: Config, s: Api, now: int, input: HoldInput, userId: nat): Result<Api, Refusal>
    requires ValidConfig(cfg) && input.roomId in cfg.rooms && ValidHold(input)
  {
    var cleared := ExpireStaleHoldsForRoom(s, now, input.roomId);
    match AdmitEquipment(cfg, cleared, now, input, cfg.rooms[input.roomId].venueId)
    case Err(e) => Err(e)
    case Ok(items) =>
      var hold := NewHold(cfg, now, input, userId, items);
      match CreateHeld(cleared, hold, User(userId), HoldCreated)
      case Err(e) => Err(e)
      case Ok(created) =>
        Ok(created.(bookings := created.bookings[|s.bookings| := hold.(items := items)]))
  }

  function Hold(cfg: Config, s: Api, now: int, input: HoldInput, userId: nat): Result<Api, Refusal>
    requires ValidConfig(cfg) && ValidHold(input)
  {
    if input.roomId !in cfg.rooms then Err(NotFound)
    else if !Bookable(cfg, now, input) then Err(Unprocessable)
    else HoldOnce(cfg, s, now, input, userId)
  }

  // --- Checkout and cancel -------------------------------------------------

  function Checkout(cfg: Config, s: Api, now: int, id: BookingId, userId: nat): Result<Api, Refusal> {
    if id >= |s.bookings| then Err(NotFound)
    else
      var b := s.bookings[id];
      if b.status !in ACTIVE || b.status == CONFIRMED then Err(UnexpectedState(b.status))
      else if b.expiresAt.Some? && b.expiresAt.value <= now then Err(HoldExpired)
      else if b.rearmCount >= cfg.env.maxRearms then Err(TooManyRearms)
      else
        var lifetimeCap := b.createdAt + cfg.env.maxLifetime;
        if lifetimeCap <= now then Err(LifetimeSpent)
        else RecordSideEffect(s, now, id, User(userId), HoldRearmed,
                              Rearm(Min(now + cfg.env.checkoutRearm, lifetimeCap)), {HELD, PENDING_PAYMENT})
  }

  function Cancel(s: Api, now: int, id: BookingId, userId: nat, text: string): Result<Api, Refusal> {
    Transition(s, now, Change(id, CANCELLED, User(userId), Requested(text), None, NoPatch))
  }

  // --- The service ---------------------------------------------------------

  method AdmitRequestedEquipment(cfg: Config, db: Db, now: int, input: HoldInput, venueId: nat)
    returns (r: Result<seq<LineItem>, Refusal>)
    requires ValidConfig(cfg)
    ensures r == AdmitEquipment(cfg, db.State(), now, input, venueId)
  {
    hide PeakUsage, Ceiling, Wanted;
    var ids := SortedIds(input.lineItems);
    if input.lineItems == [] {
      assert ids == [] && UnknownTypes(cfg, ids) == {} && ForeignTypes(cfg, ids, venueId) == {};
      assert Shortfalls(cfg, db.State(), now, input, ids) == [] && Priced(cfg, input, ids) == [];
      return Ok([]);
    }
    var unknown := UnknownTypes(cfg, ids);
    if unknown != {} { return Err(UnknownEquipment(unknown)); }
    forall k | 0 <= k < |ids| ensures ids[k] in cfg.equipment {
      assert ids[k] !in unknown;
    }
    var foreign := ForeignTypes(cfg, ids, venueId);
    if foreign != {} { return Err(ForeignEquipment(foreign)); }
    var peaks := PeakConcurrentUsage(db, now, ids, input.startsAt, input.endsAt);
    var shortfalls: seq<Shortfall> := [];
    for i := 0 to |ids|
      invariant shortfalls == Shortfalls(cfg, db.State(), now, input, ids[..i])
    {
      var e := ids[i];
      var want := Wanted(input.lineItems, e);
      var ceiling := Ceiling(cfg, e);
      assert ids[..i + 1][..i] == ids[..i] && ids[..i + 1][i] == e;
      if peaks[e] + want > ceiling {
        shortfalls := shortfalls + [Shortfall(e, want, peaks[e], ceiling, peaks[e] + want - ceiling)];
      }
    }
    assert ids[..|ids|] == ids;
    if shortfalls != [] { return Err(Capacity(shortfalls)); }
    return Ok(Priced(cfg, input, ids));
  }

  method HoldRoom(cfg: Config, db: Db, now: int, input: HoldInput, userId: nat) returns (err: Option<Refusal>)
    requires ValidConfig(cfg) && ValidHold(input)
    modifies db
    ensures err == ErrorOf(Hold(cfg, old(db.State()), now, input, userId))
    ensures db.State() == Committed(old(db.State()), Hold(cfg, old(db.State()), now, input, userId))
  {
    hide Bookable, AdmitEquipment, SlotFree, StaleInRoom;
    if input.roomId !in cfg.rooms { return Some(NotFound); }
    if !Bookable(cfg, now, input) { return Some(Unprocessable); }
    var before := db.State();
    var expired := ExpireRoom(db, now, input.roomId);
    var room := cfg.rooms[input.roomId];
    var admitted := AdmitRequestedEquipment(cfg, db, now, input, room.venueId);
    if admitted.Err? {
      db.Rollback(before);
      return Some(admitted.error);
    }
    var hold := NewHold(cfg, now, input, userId, admitted.value);
    var id;
    err, id := CreateHeldBooking(db, hold, User(userId), HoldCreated);
    if err.Some? {
      db.Rollback(before);
      return;
    }
    db.bookings := db.bookings[id := db.bookings[id].(items := admitted.value)];
  }

  /** A lapsed hold is expired and then refused; the refusal undoes the expiry with it. */
  method CheckoutBooking(cfg: Config, db: Db, now: int, id: BookingId, userId: nat) returns (err: Option<Refusal>)
    modifies db
    ensures err == ErrorOf(Checkout(cfg, old(db.State()), now, id, userId))
    ensures db.State() == Committed(old(db.State()), Checkout(cfg, old(db.State()), now, id, userId))
  {
    if id >= |db.bookings| { return Some(NotFound); }
    var before := db.State();
    var b := db.bookings[id];
    if b.status !in ACTIVE || b.status == CONFIRMED { return Some(UnexpectedState(b.status)); }
    if b.expiresAt.Some? && b.expiresAt.value <= now {
      var _ := TransitionBooking(db, now,
        Change(id, EXPIRED, System, HoldExpiredOnCheckout, Some({HELD, PENDING_PAYMENT}), NoPatch));
      db.Rollback(before);
      return Some(HoldExpired);
    }
    if b.rearmCount >= cfg.env.maxRearms { return Some(TooManyRearms); }
    var lifetimeCap := b.createdAt + cfg.env.maxLifetime;
    var requested := now + cfg.env.checkoutRearm;
    if lifetimeCap <= now { return Some(LifetimeSpent); }
    var expiresAt := if requested <= lifetimeCap then requested else lifetimeCap;
    err := RecordBookingSideEffect(db, now, id, User(userId), HoldRearmed, Rearm(expiresAt), {HELD, PENDING_PAYMENT});
  }

  method CancelBooking(db: Db, now: int, id: BookingId, userId: nat, text: string) returns (err: Option<Refusal>)
    modifies db
    ensures err == ErrorOf(Cancel(old(db.State()), now, id, userId, text))
    ensures db.State() == Committed(old(db.State()), Cancel(old(db.State()), now, id, userId, text))
  {
    err := TransitionBooking(db, now, Change(id, CANCELLED, User(userId), Requested(text), None, NoPatch));
  }
}
