/**
 * Which start times a room offers, and which rooms are free: advice that the
 * hold path does not consult, compared here with what the hold path accepts.
 */
module Availability {
  import opened Wrappers
  import opened Database
  import opened BookingStateMachine
  import opened ZonedTime
  import opened OperatingHours
  import opened BookingsService
  import opened BookingInvariants

  datatype BusyInterval = BusyInterval(from: int, to: int)

  datatype FreeSlot = FreeSlot(startsAt: int, endsAt: int)

  /** `slot && [from, to)`, where `slot` carries the turnaround, on the rows that hold their room now. */
  predicate Occupies(b: Booking, roomId: nat, now: int, from: int, to: int) {
    b.roomId == roomId && Live(b, now) && b.startsAt < to && from < b.endsAt + TURNAROUND
  }

  function BusyIntervals(bookings: seq<Booking>, roomId: nat, now: int, from: int, to: int): seq<BusyInterval> {
    if bookings == [] then []
    else
      var b := bookings[|bookings| - 1];
      BusyIntervals(bookings[..|bookings| - 1], roomId, now, from, to)
      + if Occupies(b, roomId, now, from, to) then [BusyInterval(b.startsAt, b.endsAt + TURNAROUND)] else []
  }

  function CeilToGrid(instant: int, step: int): int
    requires step > 0
  {
    (instant + step - 1) / step * step
  }

  predicate Clashes(busy: seq<BusyInterval>, startsAt: int, occupiedEnd: int) {
    exists k :: 0 <= k < |busy| && busy[k].from < occupiedEnd && busy[k].to > startsAt
  }

  datatype Search = Search(from: int, to: int, duration: int, busy: seq<BusyInterval>, earliest: int)

  predicate Offers(q: Search, cursor: int) {
    !Clashes(q.busy, cursor, cursor + q.duration + TURNAROUND) && cursor >= q.earliest
  }

  function OfferAt(q: Search, cursor: int): seq<FreeSlot> {
    if Offers(q, cursor) then [FreeSlot(cursor, cursor + q.duration)] else []
  }

  /** The slots one window offers from `cursor` on. */
  function SlotsFrom(q: Search, closesAt: int, cursor: int): seq<FreeSlot>
    decreases Max(0, closesAt - cursor)
  {
    var slotEnd := cursor + q.duration;
    if slotEnd > closesAt || slotEnd > q.to then []
    else
      OfferAt(q, cursor)
      + if cursor + HALF_HOUR >= closesAt then [] else SlotsFrom(q, closesAt, cursor + HALF_HOUR)
  }

  function WindowSlots(q: Search, w: OpenWindow): seq<FreeSlot> {
    SlotsFrom(q, w.closesAt, CeilToGrid(Max(w.opensAt, q.from), HALF_HOUR))
  }

  function SlotsOf(q: Search, windows: seq<OpenWindow>): seq<FreeSlot> {
    if windows == [] then [] else SlotsOf(q, windows[..|windows| - 1]) + WindowSlots(q, windows[|windows| - 1])
  }

  function Enumerate(hours: Hours, zone: Zone, q: Search): seq<FreeSlot>
    requires ValidHours(hours)
  {
    SlotsOf(q, OpenWindowsBetween(hours, zone, q.from, q.to))
  }

  // --- The service ---------------------------------------------------------------------

  method CollectBusyIntervals(db: Db, roomId: nat, now: int, from: int, to: int) returns (busy: seq<BusyInterval>)
    ensures busy == BusyIntervals(db.bookings, roomId, now, from, to)
  {
    busy := [];
    for i := 0 to |db.bookings|
      invariant busy == BusyIntervals(db.bookings[..i], roomId, now, from, to)
    {
      var b := db.bookings[i];
      assert db.bookings[..i + 1][..i] == db.bookings[..i];
      if Occupies(b, roomId, now, from, to) { busy := busy + [BusyInterval(b.startsAt, b.endsAt + TURNAROUND)]; }
    }
    assert db.bookings[..|db.bookings|] == db.bookings;
  }

  method EnumerateSlots(hours: Hours, zone: Zone, q: Search) returns (slots: seq<FreeSlot>)
    requires ValidHours(hours)
    ensures slots == Enumerate(hours, zone, q)
  {
    hide WindowSlots;
    slots := [];
    var windows := CollectOpenWindows(hours, zone, q.from, q.to);
    for i := 0 to |windows|
      invariant slots == SlotsOf(q, windows[..i])
    {
      assert windows[..i + 1][..i] == windows[..i];
      var found := EnumerateWindow(q, windows[i]);
      slots := slots + found;
    }
    assert windows[..|windows|] == windows;
  }

  /** Walk the grid inside one window; a slot that is taken or too soon is skipped, not the end of the walk. */
  method EnumerateWindow(q: Search, window: OpenWindow) returns (slots: seq<FreeSlot>)
    ensures slots == WindowSlots(q, window)
  {
    hide Clashes, CeilToGrid, SlotsFrom;
    slots := [];
    var windowStart := if window.opensAt > q.from then window.opensAt else q.from;
    var cursor := CeilToGrid(windowStart, HALF_HOUR);
    var done := false;
    ghost var all := WindowSlots(q, window);
    while !done
      invariant !done ==> slots + SlotsFrom(q, window.closesAt, cursor) == all
      invariant done ==> slots == all
      decreases !done, Max(0, window.closesAt - cursor)
    {
      SlotsFromStep(q, window.closesAt, cursor);
      ghost var before := slots;
      Associates(before, OfferAt(q, cursor), SlotsFrom(q, window.closesAt, cursor + HALF_HOUR));
      var slotEnd := cursor + q.duration;
      if slotEnd > window.closesAt || slotEnd > q.to {
        done := true;
        break;
      }
      var occupiedEnd := slotEnd + TURNAROUND;
      if !Clashes(q.busy, cursor, occupiedEnd) && cursor >= q.earliest {
        slots := slots + [FreeSlot(cursor, slotEnd)];
      }
      assert slots == before + OfferAt(q, cursor);
      cursor := cursor + HALF_HOUR;
      done := cursor >= window.closesAt;
    }
  }

  lemma Associates(a: seq<FreeSlot>, b: seq<FreeSlot>, c: seq<FreeSlot>)
    ensures a + (b + c) == (a + b) + c
    ensures a + (b + []) == a + b
  {
  }

  lemma SlotsFromStep(q: Search, closesAt: int, cursor: int)
    ensures SlotsFrom(q, closesAt, cursor) ==
      if cursor + q.duration > closesAt || cursor + q.duration > q.to then []
      else OfferAt(q, cursor)
           + if cursor + HALF_HOUR >= closesAt then [] else SlotsFrom(q, closesAt, cursor + HALF_HOUR)
  {
    hide Offers;
  }

  // --- Exactly which slots are listed ------------------------------------------------------

  predicate OnGrid(t: int) { t % HALF_HOUR == 0 }

  /** Fits the search, given where its window's walk starts and stops. */
  predicate Fits(q: Search, closesAt: int, start: int, slot: FreeSlot) {
    && OnGrid(slot.startsAt) && slot.endsAt == slot.startsAt + q.duration
    && start <= slot.startsAt && slot.endsAt <= closesAt && slot.endsAt <= q.to && Offers(q, slot.startsAt)
  }

  ghost predicate ListsFits(slots: seq<FreeSlot>, q: Search, closesAt: int, start: int) {
    forall slot :: slot in slots <==> Fits(q, closesAt, start, slot)
  }

  lemma {:induction false} SlotsFromIsExact(q: Search, closesAt: int, cursor: int)
    requires q.duration > 0 && OnGrid(cursor)
    ensures ListsFits(SlotsFrom(q, closesAt, cursor), q, closesAt, cursor)
    decreases Max(0, closesAt - cursor)
  {
    hide Clashes;
    if cursor + q.duration <= closesAt && cursor + q.duration <= q.to && cursor + HALF_HOUR < closesAt {
      SlotsFromIsExact(q, closesAt, cursor + HALF_HOUR);
    }
    forall slot ensures slot in SlotsFrom(q, closesAt, cursor) <==> Fits(q, closesAt, cursor, slot) {
      GridGap(cursor, slot.startsAt);
    }
  }

  /** Nothing on the grid lies strictly between a grid point and the next. */
  lemma GridGap(a: int, b: int)
    requires OnGrid(a)
    ensures OnGrid(b) && b > a ==> b >= a + HALF_HOUR
    ensures OnGrid(a + HALF_HOUR)
  {
  }

  lemma CeilIsNext(instant: int)
    ensures var c := CeilToGrid(instant, HALF_HOUR);
            OnGrid(c) && instant <= c && forall t :: OnGrid(t) && t >= instant ==> t >= c
  {
    var c := CeilToGrid(instant, HALF_HOUR);
    forall t | OnGrid(t) && t >= instant ensures t >= c { GridGap(t, c); }
  }

  lemma {:induction false} SlotsOfIsUnion(q: Search, windows: seq<OpenWindow>, slot: FreeSlot)
    ensures slot in SlotsOf(q, windows) <==> exists w :: w in windows && slot in WindowSlots(q, w)
    decreases |windows|
  {
    hide WindowSlots;
    if windows != [] {
      var n := |windows| - 1;
      SlotsOfIsUnion(q, windows[..n], slot);
      assert windows == windows[..n] + [windows[n]];
    }
  }

  /** What the search promises of a slot: on the grid, in range, late enough, clear, and inside one day's window. */
  ghost predicate Listable(hours: Hours, zone: Zone, q: Search, slot: FreeSlot)
    requires ValidHours(hours)
  {
    && OnGrid(slot.startsAt) && slot.endsAt == slot.startsAt + q.duration
    && q.from <= slot.startsAt && slot.endsAt <= q.to && Offers(q, slot.startsAt)
    && InsideSomeWindow(hours, zone, slot.startsAt, slot.endsAt)
  }

  /**
   * Over any range of at most 366 days the search lists exactly the grid starts
   * in range whose slot lies inside one open window, starts late enough and
   * clashes with nothing fetched as busy.
   */
  lemma EnumerateIsExact(hours: Hours, zone: Zone, offset: int, q: Search, slot: FreeSlot)
    requires OpensBeforeMidnight(hours) && FixedOffset(zone, offset)
    requires q.from < q.to <= q.from + 366 * DAY && q.duration > 0
    ensures slot in Enumerate(hours, zone, q) <==> Listable(hours, zone, q, slot)
  {
    var windows := OpenWindowsBetween(hours, zone, q.from, q.to);
    OpenWindowsAreExact(hours, zone, offset, q.from, q.to);
    SlotsOfIsUnion(q, windows, slot);
    hide OpenWindowsBetween, Clashes, SlotsOf, WindowForLocalDate;
    if slot in Enumerate(hours, zone, q) {
      var w :| w in windows && slot in WindowSlots(q, w);
      WindowSlotsAreExact(q, w, slot);
      var d :| WindowForLocalDate(hours, zone, d) == Some(w);
      assert Inside(WindowForLocalDate(hours, zone, d), slot.startsAt, slot.endsAt);
    }
    if Listable(hours, zone, q, slot) {
      var d :| Inside(WindowForLocalDate(hours, zone, d), slot.startsAt, slot.endsAt);
      var w := WindowForLocalDate(hours, zone, d).value;
      assert Meets(Some(w), q.from, q.to);
      WindowSlotsAreExact(q, w, slot);
    }
  }

  lemma WindowSlotsAreExact(q: Search, w: OpenWindow, slot: FreeSlot)
    requires q.duration > 0
    ensures slot in WindowSlots(q, w) <==> Fits(q, w.closesAt, Max(w.opensAt, q.from), slot)
  {
    CeilIsNext(Max(w.opensAt, q.from));
    SlotsFromIsExact(q, w.closesAt, CeilToGrid(Max(w.opensAt, q.from), HALF_HOUR));
  }

  // --- What is fetched as busy ---------------------------------------------------------------

  lemma {:induction false} BusyIsExact(bookings: seq<Booking>, roomId: nat, now: int, from: int, to: int, x: BusyInterval)
    ensures x in BusyIntervals(bookings, roomId, now, from, to) <==>
            exists i :: 0 <= i < |bookings| && Occupies(bookings[i], roomId, now, from, to)
                        && x == BusyInterval(bookings[i].startsAt, bookings[i].endsAt + TURNAROUND)
    decreases |bookings|
  {
    hide Occupies;
    if bookings != [] { BusyIsExact(bookings[..|bookings| - 1], roomId, now, from, to, x); }
  }

  /** A slot clashes exactly when a booking that holds the room now, and was fetched, meets it. */
  lemma ClashIff(bookings: seq<Booking>, roomId: nat, now: int, from: int, to: int, startsAt: int, endsAt: int)
    requires from <= startsAt < endsAt <= to
    ensures Clashes(BusyIntervals(bookings, roomId, now, from, to), startsAt, endsAt + TURNAROUND) <==>
            exists i :: 0 <= i < |bookings| && MeetsNow(bookings[i], roomId, now, startsAt, endsAt) && bookings[i].startsAt < to
  {
    var busy := BusyIntervals(bookings, roomId, now, from, to);
    if k :| 0 <= k < |busy| && busy[k].from < endsAt + TURNAROUND && busy[k].to > startsAt {
      assert busy[k] in busy;
      BusyIsExact(bookings, roomId, now, from, to, busy[k]);
    }
    if i :| 0 <= i < |bookings| && MeetsNow(bookings[i], roomId, now, startsAt, endsAt) && bookings[i].startsAt < to {
      var x := BusyInterval(bookings[i].startsAt, bookings[i].endsAt + TURNAROUND);
      assert Occupies(bookings[i], roomId, now, from, to);
      BusyIsExact(bookings, roomId, now, from, to, x);
      var k :| 0 <= k < |busy| && busy[k] == x;
    }
  }

  /** The exclusion predicate over the rows that hold the room now. */
  predicate MeetsNow(b: Booking, roomId: nat, now: int, startsAt: int, endsAt: int) {
    b.roomId == roomId && Live(b, now) && SlotsMeet(b.startsAt, b.endsAt, startsAt, endsAt)
  }

  // --- What the hold path makes of a listed slot -------------------------------------------------

  /** The search the service runs for a room: its own busy rows, its own clock. */
  function SearchFor(bookings: seq<Booking>, roomId: nat, now: int, from: int, to: int, duration: int): Search {
    Search(from, to, duration, BusyIntervals(bookings, roomId, now, from, to), AddMinutes(now, 60))
  }

  /** The two ways a listed slot can still be refused: past the range's edge, or at a deadline's very instant. */
  predicate UnseenByTheSearch(b: Booking, now: int, to: int) {
    b.startsAt >= to || (b.status == HELD && b.expiresAt == Some(now))
  }

  /**
   * A slot just listed is refused to a room-only hold exactly when a booking
   * that meets it starts at or after the end of the range searched, or is a
   * hold whose deadline is this very instant.
   */
  lemma ListedSlotIsRefusedIff(
      cfg: Config, s: Api, now: int, roomId: nat, userId: nat, offset: int, from: int, to: int, slot: FreeSlot)
    requires ValidConfig(cfg) && roomId in cfg.rooms
    requires var room := cfg.rooms[roomId]; var venue := cfg.venues[room.venueId];
             && venue.hours.Some? && OpensBeforeMidnight(venue.hours.value) && FixedOffset(venue.zone, offset)
             && room.minDurationMinutes * MINUTE <= slot.endsAt - slot.startsAt <= room.maxDurationMinutes * MINUTE
             && slot in Enumerate(venue.hours.value, venue.zone, SearchFor(s.bookings, roomId, now, from, to, slot.endsAt - slot.startsAt))
    requires from < to <= from + 366 * DAY && to <= now + 90 * DAY
    requires ValidHold(HoldInput(roomId, slot.startsAt, slot.endsAt, []))
    ensures var input := HoldInput(roomId, slot.startsAt, slot.endsAt, []);
            var r := Hold(cfg, s, now, input, userId);
            && (r.Err? <==> exists i :: 0 <= i < |s.bookings| && StandsInTheWay(s.bookings[i], now, input)
                                        && UnseenByTheSearch(s.bookings[i], now, to))
            && (r.Err? ==> r.error == SlotTaken)
  {
    hide Enumerate, Hold, Clashes, BusyIntervals, Bookable, OpensBeforeMidnight, StandsInTheWay;
    var input := HoldInput(roomId, slot.startsAt, slot.endsAt, []);
    ListedSlotIsBookable(cfg, s.bookings, now, roomId, offset, from, to, slot);
    RoomOnlyHoldSucceedsIff(cfg, s, now, input, userId);
    forall i | 0 <= i < |s.bookings| && StandsInTheWay(s.bookings[i], now, input)
      ensures UnseenByTheSearch(s.bookings[i], now, to)
    {
      BlockersAreUnseen(s.bookings, now, input, from, to, i);
    }
  }

  lemma ListedSlotIsBookable(
      cfg: Config, bookings: seq<Booking>, now: int, roomId: nat, offset: int, from: int, to: int, slot: FreeSlot)
    requires ValidConfig(cfg) && roomId in cfg.rooms
    requires var room := cfg.rooms[roomId]; var venue := cfg.venues[room.venueId];
             && venue.hours.Some? && OpensBeforeMidnight(venue.hours.value) && FixedOffset(venue.zone, offset)
             && room.minDurationMinutes * MINUTE <= slot.endsAt - slot.startsAt <= room.maxDurationMinutes * MINUTE
             && slot in Enumerate(venue.hours.value, venue.zone, SearchFor(bookings, roomId, now, from, to, slot.endsAt - slot.startsAt))
    requires from < to <= from + 366 * DAY && to <= now + 90 * DAY && slot.startsAt < slot.endsAt
    ensures Bookable(cfg, now, HoldInput(roomId, slot.startsAt, slot.endsAt, []))
    ensures from <= slot.startsAt && slot.endsAt <= to
    ensures !Clashes(BusyIntervals(bookings, roomId, now, from, to), slot.startsAt, slot.endsAt + TURNAROUND)
  {
    var venue := cfg.venues[cfg.rooms[roomId].venueId];
    var q := SearchFor(bookings, roomId, now, from, to, slot.endsAt - slot.startsAt);
    hide Enumerate, Clashes, BusyIntervals, IsWithinOperatingHours, InsideSomeWindow;
    EnumerateIsExact(venue.hours.value, venue.zone, offset, q, slot);
    TwoDaysSuffice(venue.hours.value, venue.zone, offset, slot.startsAt, slot.endsAt);
  }

  lemma BlockersAreUnseen(bookings: seq<Booking>, now: int, input: HoldInput, from: int, to: int, i: nat)
    requires i < |bookings| && StandsInTheWay(bookings[i], now, input)
    requires from <= input.startsAt < input.endsAt <= to
    requires !Clashes(BusyIntervals(bookings, input.roomId, now, from, to), input.startsAt, input.endsAt + TURNAROUND)
    ensures UnseenByTheSearch(bookings[i], now, to)
  {
    hide Clashes, BusyIntervals;
    ClashIff(bookings, input.roomId, now, from, to, input.startsAt, input.endsAt);
    assert !(MeetsNow(bookings[i], input.roomId, now, input.startsAt, input.endsAt) && bookings[i].startsAt < to);
  }

  /** A slot that ends a turnaround before the range does can only be refused at a deadline's very instant. */
  lemma ListedSlotWithRoomToSpare(cfg: Config, s: Api, now: int, input: HoldInput, to: int, i: nat)
    requires i < |s.bookings| && StandsInTheWay(s.bookings[i], now, input) && UnseenByTheSearch(s.bookings[i], now, to)
    requires input.endsAt + TURNAROUND <= to
    ensures s.bookings[i].status == HELD && s.bookings[i].expiresAt == Some(now)
  {
  }

  /** A confirmed booking that starts where the searched range ends is not fetched, yet it refuses the last slot. */
  lemma EdgeOfTheRange()
    ensures var b := Booking(0, 0, 0, 36_000_000, 39_600_000, CONFIRMED, None, 0, None, 0, [], 0, 0);
            var q := SearchFor([b], 0, 0, 0, 36_000_000, 3_600_000);
            && q.busy == [] && Offers(q, 32_400_000)
            && StandsInTheWay(b, 0, HoldInput(0, 32_400_000, 36_000_000, []))
  {
    var b := Booking(0, 0, 0, 36_000_000, 39_600_000, CONFIRMED, None, 0, None, 0, [], 0, 0);
    assert BusyIntervals([b][..0], 0, 0, 0, 36_000_000) == [];
    assert BusyIntervals([b], 0, 0, 0, 36_000_000) == [];
  }

  // --- Free rooms ------------------------------------------------------------------------------------

  /** Rooms with a row that holds them now and meets the window, the window's end extended by the turnaround. */
  function BusyRooms(bookings: seq<Booking>, roomIds: set<nat>, now: int, from: int, to: int): set<nat> {
    set i | 0 <= i < |bookings| && bookings[i].roomId in roomIds
            && Occupies(bookings[i], bookings[i].roomId, now, from, to + TURNAROUND) :: bookings[i].roomId
  }

  /** Keep the asked-for rooms that are not busy. */
  method FreeRoomIds(db: Db, roomIds: seq<nat>, now: int, from: int, to: int) returns (free: set<nat>)
    ensures forall id :: id in free <==> id in roomIds && RoomFree(db.bookings, id, now, from, to)
  {
    if |roomIds| == 0 { return {}; }
    var asked := set id | id in roomIds;
    var busy := BusyRooms(db.bookings, asked, now, from, to);
    free := {};
    for k := 0 to |roomIds|
      invariant forall id :: id in free <==> id in roomIds[..k] && id !in busy
    {
      if roomIds[k] !in busy { free := free + {roomIds[k]}; }
    }
    forall id | id in roomIds ensures id !in busy <==> RoomFree(db.bookings, id, now, from, to) {
      BusyRoomsIff(db.bookings, asked, now, from, to, id);
    }
  }

  predicate RoomFree(bookings: seq<Booking>, roomId: nat, now: int, from: int, to: int) {
    forall i :: 0 <= i < |bookings| ==> !MeetsNow(bookings[i], roomId, now, from, to)
  }

  lemma BusyRoomsIff(bookings: seq<Booking>, roomIds: set<nat>, now: int, from: int, to: int, id: nat)
    requires id in roomIds
    ensures id in BusyRooms(bookings, roomIds, now, from, to) <==> !RoomFree(bookings, id, now, from, to)
  {
    if id in BusyRooms(bookings, roomIds, now, from, to) {
      var i :| 0 <= i < |bookings| && bookings[i].roomId == id && Occupies(bookings[i], id, now, from, to + TURNAROUND);
      assert MeetsNow(bookings[i], id, now, from, to);
    }
    if !RoomFree(bookings, id, now, from, to) {
      var i :| 0 <= i < |bookings| && MeetsNow(bookings[i], id, now, from, to);
      assert Occupies(bookings[i], bookings[i].roomId, now, from, to + TURNAROUND);
    }
  }

  /** A room found free takes a bookable room-only hold, unless a hold's deadline is this very instant. */
  lemma FreeRoomTakesTheHold(cfg: Config, s: Api, now: int, input: HoldInput, userId: nat)
    requires ValidConfig(cfg) && input.roomId in cfg.rooms && ValidHold(input) && Bookable(cfg, now, input) && input.lineItems == []
    requires forall i :: 0 <= i < |s.bookings| && s.bookings[i].status == HELD ==> s.bookings[i].expiresAt != Some(now)
    ensures Hold(cfg, s, now, input, userId).Ok? <==> RoomFree(s.bookings, input.roomId, now, input.startsAt, input.endsAt)
  {
    hide Hold, Bookable;
    RoomOnlyHoldSucceedsIff(cfg, s, now, input, userId);
    forall i | 0 <= i < |s.bookings|
      ensures StandsInTheWay(s.bookings[i], now, input) <==> MeetsNow(s.bookings[i], input.roomId, now, input.startsAt, input.endsAt)
    {
    }
  }
}
