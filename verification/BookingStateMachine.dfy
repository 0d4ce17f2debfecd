/** The only place a booking's status is written, and the audit trail beside it. */
module BookingStateMachine {
  import opened Wrappers
  import opened RefundPolicy
  import opened Ids
  import opened Database

  const TURNAROUND: int := 900_000

  const ACTIVE: set<BookingStatus> := {HELD, PENDING_PAYMENT, CONFIRMED}

  function LegalTransitions(from: BookingStatus): set<BookingStatus> {
    match from
    case DRAFT => {HELD}
    case HELD => {PENDING_PAYMENT, EXPIRED, CANCELLED}
    case PENDING_PAYMENT => {CONFIRMED, BookingStatus.FAILED, EXPIRED}
    case CONFIRMED => {CANCELLED, COMPLETED}
    case CANCELLED => {BookingStatus.REFUNDED}
    case _ => {}
  }

  /** Additional columns written in the same UPDATE. Never `status`. */
  datatype Patch = NoPatch | Confirm(snapshot: Snapshot) | Rearm(expiresAt: int)

  function Patched(b: Booking, patch: Patch): Booking {
    match patch
    case NoPatch => b
    case Confirm(snapshot) => b.(expiresAt := None, policySnapshot := Some(snapshot))
    case Rearm(expiresAt) => b.(expiresAt := Some(expiresAt), rearmCount := b.rearmCount + 1)
  }

  datatype Change = Change(
    bookingId: BookingId, to: BookingStatus, actor: Actor, reason: Reason,
    expectedFrom: Option<set<BookingStatus>>, patch: Patch)

  // --- Specification -------------------------------------------------------

  function Transition(s: Api, now: int, c: Change): Result<Api, Refusal> {
    if c.bookingId >= |s.bookings| then Err(NotFound)
    else
      var b := s.bookings[c.bookingId];
      if c.expectedFrom.Some? && b.status !in c.expectedFrom.value then Err(UnexpectedState(b.status))
      else if c.to !in LegalTransitions(b.status) then Err(IllegalTransition(b.status, c.to))
      else Ok(s.(
        bookings := s.bookings[c.bookingId := Patched(b, c.patch).(status := c.to, updatedAt := now)],
        audit := s.audit + [AuditRow(c.bookingId, c.actor, b.status, c.to, c.reason)]))
  }

  function RecordSideEffect(
      s: Api, now: int, id: BookingId, actor: Actor, reason: Reason, patch: Patch, expectedFrom: set<BookingStatus>)
    : Result<Api, Refusal>
  {
    if id >= |s.bookings| then Err(NotFound)
    else
      var b := s.bookings[id];
      if b.status !in expectedFrom then Err(UnexpectedState(b.status))
      else Ok(s.(
        bookings := s.bookings[id := Patched(b, patch).(updatedAt := now)],
        audit := s.audit + [AuditRow(id, actor, b.status, b.status, reason)]))
  }

  /** The interval the exclusion constraint sees carries the turnaround. */
  predicate SlotsMeet(aFrom: int, aTo: int, bFrom: int, bTo: int) {
    aFrom < bTo + TURNAROUND && bFrom < aTo + TURNAROUND
  }

  predicate Blocks(b: Booking, roomId: nat, from: int, to: int) {
    b.status in ACTIVE && b.roomId == roomId && SlotsMeet(b.startsAt, b.endsAt, from, to)
  }

  /** `no_room_overlap`: an insert guard over the rows in an active status, whatever the time. */
  predicate SlotFree(bookings: seq<Booking>, roomId: nat, from: int, to: int) {
    forall i :: 0 <= i < |bookings| ==> !Blocks(bookings[i], roomId, from, to)
  }

  /** A creation is recorded as DRAFT -> HELD, so every trail begins at the same place. */
  function CreateHeld(s: Api, b: Booking, actor: Actor, reason: Reason): Result<Api, Refusal> {
    if b.endsAt <= b.startsAt then Err(Unprocessable)
    else if !SlotFree(s.bookings, b.roomId, b.startsAt, b.endsAt) then Err(SlotTaken)
    else Ok(s.(bookings := s.bookings + [b.(status := HELD)],
               audit := s.audit + [AuditRow(|s.bookings|, actor, DRAFT, HELD, reason)]))
  }

  predicate Stale(b: Booking, now: int) {
    b.status == HELD && b.expiresAt.Some? && b.expiresAt.value < now
  }

  function ExpiredRows(ids: seq<BookingId>, reason: Reason): seq<AuditRow> {
    seq(|ids|, k requires 0 <= k < |ids| => AuditRow(ids[k], System, HELD, EXPIRED, reason))
  }

  function Flipped(bookings: seq<Booking>, now: int, ids: seq<BookingId>): (r: seq<Booking>)
    ensures |r| == |bookings|
    ensures forall i :: 0 <= i < |r| ==>
      r[i] == if i in ids then bookings[i].(status := EXPIRED, updatedAt := now) else bookings[i]
  {
    seq(|bookings|, i requires 0 <= i < |bookings| =>
      if i in ids then bookings[i].(status := EXPIRED, updatedAt := now) else bookings[i])
  }

  /** One UPDATE flips the chosen rows; one audit row follows for each. */
  function ExpireRows(s: Api, now: int, ids: seq<BookingId>, reason: Reason): Api {
    s.(bookings := Flipped(s.bookings, now, ids), audit := s.audit + ExpiredRows(ids, reason))
  }

  /** The stale holds of one room among the first `n` rows. */
  function StaleInRoom(bookings: seq<Booking>, roomId: nat, now: int, n: nat): seq<BookingId>
    requires n <= |bookings|
  {
    if n == 0 then []
    else StaleInRoom(bookings, roomId, now, n - 1)
         + (if bookings[n - 1].roomId == roomId && Stale(bookings[n - 1], now) then [n - 1] else [])
  }

  function ExpireStaleHoldsForRoom(s: Api, now: int, roomId: nat): Api {
    ExpireRows(s, now, StaleInRoom(s.bookings, roomId, now, |s.bookings|), HoldExpiredInTransaction)
  }

  ghost predicate ListsStale(ids: seq<BookingId>, bookings: seq<Booking>, roomId: nat, now: int, n: nat)
    requires n <= |bookings|
  {
    && (forall i :: i in ids <==> 0 <= i < n && bookings[i].roomId == roomId && Stale(bookings[i], now))
    && (forall j, k :: 0 <= j < k < |ids| ==> ids[j] < ids[k])
  }

  lemma {:induction false} StaleInRoomExact(bookings: seq<Booking>, roomId: nat, now: int, n: nat)
    requires n <= |bookings|
    ensures ListsStale(StaleInRoom(bookings, roomId, now, n), bookings, roomId, now, n)
  {
    if n > 0 {
      StaleInRoomExact(bookings, roomId, now, n - 1);
      var before := StaleInRoom(bookings, roomId, now, n - 1);
      forall j | 0 <= j < |before| ensures before[j] < n - 1 { assert before[j] in before; }
    }
  }

  /** A legal batch for the sweeper: distinct rows, every one a stale hold. */
  ghost predicate StaleBatch(bookings: seq<Booking>, now: int, ids: seq<BookingId>) {
    && (forall k :: 0 <= k < |ids| ==> ids[k] < |bookings| && Stale(bookings[ids[k]], now))
    && (forall j, k :: 0 <= j < k < |ids| ==> ids[j] != ids[k])
  }

  // --- The service ---------------------------------------------------------

  method TransitionBooking(db: Db, now: int, c: Change) returns (err: Option<Refusal>)
    modifies db
    ensures err == ErrorOf(Transition(old(db.State()), now, c))
    ensures db.State() == Committed(old(db.State()), Transition(old(db.State()), now, c))
  {
    if c.bookingId >= |db.bookings| { return Some(NotFound); }
    var locked := db.bookings[c.bookingId];
    var from := locked.status;
    if c.expectedFrom.Some? && from !in c.expectedFrom.value { return Some(UnexpectedState(from)); }
    if c.to !in LegalTransitions(from) { return Some(IllegalTransition(from, c.to)); }
    db.bookings := db.bookings[c.bookingId := Patched(locked, c.patch).(status := c.to, updatedAt := now)];
    db.audit := db.audit + [AuditRow(c.bookingId, c.actor, from, c.to, c.reason)];
    return None;
  }

  method RecordBookingSideEffect(
      db: Db, now: int, id: BookingId, actor: Actor, reason: Reason, patch: Patch, expectedFrom: set<BookingStatus>)
    returns (err: Option<Refusal>)
    modifies db
    ensures err == ErrorOf(RecordSideEffect(old(db.State()), now, id, actor, reason, patch, expectedFrom))
    ensures db.State() == Committed(old(db.State()),
                                    RecordSideEffect(old(db.State()), now, id, actor, reason, patch, expectedFrom))
  {
    if id >= |db.bookings| { return Some(NotFound); }
    var locked := db.bookings[id];
    if locked.status !in expectedFrom { return Some(UnexpectedState(locked.status)); }
    db.bookings := db.bookings[id := Patched(locked, patch).(updatedAt := now)];
    db.audit := db.audit + [AuditRow(id, actor, locked.status, locked.status, reason)];
    return None;
  }

  method CreateHeldBooking(db: Db, b: Booking, actor: Actor, reason: Reason)
    returns (err: Option<Refusal>, id: BookingId)
    modifies db
    ensures err == ErrorOf(CreateHeld(old(db.State()), b, actor, reason))
    ensures db.State() == Committed(old(db.State()), CreateHeld(old(db.State()), b, actor, reason))
    ensures id == old(|db.bookings|)
  {
    id := |db.bookings|;
    if b.endsAt <= b.startsAt { return Some(Unprocessable), id; }
    if !SlotFree(db.bookings, b.roomId, b.startsAt, b.endsAt) { return Some(SlotTaken), id; }
    db.bookings := db.bookings + [b.(status := HELD)];
    db.audit := db.audit + [AuditRow(id, actor, DRAFT, HELD, reason)];
    return None, id;
  }

  /** One audit row per expired id, in the order the UPDATE returned them. */
  method AuditExpired(db: Db, ids: seq<BookingId>, reason: Reason)
    modifies db
    ensures db.State() == old(db.State()).(audit := old(db.audit) + ExpiredRows(ids, reason))
  {
    for k := 0 to |ids|
      invariant db.State() == old(db.State()).(audit := old(db.audit) + ExpiredRows(ids[..k], reason))
    {
      db.audit := db.audit + [AuditRow(ids[k], System, HELD, EXPIRED, reason)];
      assert ExpiredRows(ids[..k + 1], reason)
             == ExpiredRows(ids[..k], reason) + [AuditRow(ids[k], System, HELD, EXPIRED, reason)];
    }
    assert ids[..|ids|] == ids;
  }

  method ExpireRoom(db: Db, now: int, roomId: nat) returns (ids: seq<BookingId>)
    modifies db
    ensures ids == StaleInRoom(old(db.bookings), roomId, now, |old(db.bookings)|)
    ensures db.State() == ExpireStaleHoldsForRoom(old(db.State()), now, roomId)
  {
    ids := [];
    var rows := db.bookings;
    for i := 0 to |rows|
      invariant ids == StaleInRoom(rows, roomId, now, i)
    {
      if rows[i].roomId == roomId && Stale(rows[i], now) { ids := ids + [i]; }
    }
    db.bookings := Flipped(db.bookings, now, ids);
    AuditExpired(db, ids, HoldExpiredInTransaction);
  }

  /**
   * The sweeper's half: up to `limit` stale holds, oldest deadline first,
   * skipping the rows another transaction has locked.
   */
  method ExpireOldest(db: Db, now: int, limit: nat, locked: set<BookingId>) returns (ids: seq<BookingId>)
    modifies db
    ensures |ids| <= limit && StaleBatch(old(db.bookings), now, ids)
    ensures forall k :: 0 <= k < |ids| ==> ids[k] !in locked
    ensures forall i :: 0 <= i < |old(db.bookings)| && Stale(old(db.bookings)[i], now) && i !in locked && i !in ids ==>
              |ids| == limit &&
              forall k :: 0 <= k < |ids| ==> old(db.bookings)[ids[k]].expiresAt.value <= old(db.bookings)[i].expiresAt.value
    ensures db.State() == ExpireRows(old(db.State()), now, ids, HoldExpiredSweeper)
  {
    ids := [];
    var rows := db.bookings;
    var exhausted := false;
    while |ids| < limit && !exhausted
      invariant db.State() == old(db.State())
      invariant |ids| <= limit && StaleBatch(rows, now, ids)
      invariant forall k :: 0 <= k < |ids| ==> ids[k] !in locked
      invariant exhausted ==> forall i :: 0 <= i < |rows| && Stale(rows[i], now) && i !in locked ==> i in ids
      invariant forall i, k :: 0 <= k < |ids| && 0 <= i < |rows| && Stale(rows[i], now) && i !in locked && i !in ids
                  ==> rows[ids[k]].expiresAt.value <= rows[i].expiresAt.value
      decreases limit - |ids|, !exhausted
    {
      var best := OldestStale(rows, now, locked, ids);
      if best == |rows| { exhausted := true; } else { ids := ids + [best]; }
    }
    db.bookings := Flipped(db.bookings, now, ids);
    AuditExpired(db, ids, HoldExpiredSweeper);
  }

  /** The unlocked, untaken stale hold with the earliest deadline, or `|rows|` when there is none. */
  method OldestStale(rows: seq<Booking>, now: int, locked: set<BookingId>, taken: seq<BookingId>) returns (best: nat)
    ensures best <= |rows|
    ensures best == |rows| ==>
      forall i :: 0 <= i < |rows| && Stale(rows[i], now) && i !in locked ==> i in taken
    ensures best < |rows| ==> Stale(rows[best], now) && best !in locked && best !in taken
    ensures best < |rows| ==> forall i :: 0 <= i < |rows| && Stale(rows[i], now) && i !in locked && i !in taken
                                ==> rows[best].expiresAt.value <= rows[i].expiresAt.value
  {
    best := |rows|;
    for i := 0 to |rows|
      invariant best == |rows| || best < i
      invariant best == |rows| ==>
        forall k :: 0 <= k < i && Stale(rows[k], now) && k !in locked ==> k in taken
      invariant best < |rows| ==> Stale(rows[best], now) && best !in locked && best !in taken
      invariant best < |rows| ==> forall k :: 0 <= k < i && Stale(rows[k], now) && k !in locked && k !in taken
                                    ==> rows[best].expiresAt.value <= rows[k].expiresAt.value
    {
      if Stale(rows[i], now) && i !in locked && i !in taken {
        if best == |rows| || rows[i].expiresAt.value < rows[best].expiresAt.value { best := i; }
      }
    }
  }

  // --- The audit trail ------------------------------------------------------

  /**
   * Replay one booking's audit rows from DRAFT. Rows whose two states agree
   * record side effects and move nothing; a row that does not start where the
   * last one ended, or is not in the table of legal moves, breaks the path.
   */
  function Replay(audit: seq<AuditRow>, id: BookingId): Option<BookingStatus> {
    if audit == [] then Some(DRAFT)
    else
      var sofar := Replay(audit[..|audit| - 1], id);
      var row := audit[|audit| - 1];
      if row.bookingId != id || row.fromState == row.toState then sofar
      else if sofar == Some(row.fromState) && row.toState in LegalTransitions(row.fromState) then Some(row.toState)
      else None
  }

  /** Every booking's trail is one unbroken legal path from DRAFT to its current status. */
  ghost predicate TrailsEndAtStatus(s: Api) {
    && (forall id: nat :: id < |s.bookings| ==> Replay(s.audit, id) == Some(s.bookings[id].status))
    && (forall id: nat :: id >= |s.bookings| ==> Replay(s.audit, id) == Some(DRAFT))
  }

  lemma ReplayAppend(audit: seq<AuditRow>, row: AuditRow, id: BookingId)
    ensures Replay(audit + [row], id) ==
      if row.bookingId != id || row.fromState == row.toState then Replay(audit, id)
      else if Replay(audit, id) == Some(row.fromState) && row.toState in LegalTransitions(row.fromState)
      then Some(row.toState) else None
  {
    assert (audit + [row])[..|audit|] == audit;
  }

  lemma {:induction false} ReplayExpired(audit: seq<AuditRow>, ids: seq<BookingId>, reason: Reason, id: BookingId)
    requires forall j, k :: 0 <= j < k < |ids| ==> ids[j] != ids[k]
    requires id in ids ==> Replay(audit, id) == Some(HELD)
    ensures Replay(audit + ExpiredRows(ids, reason), id) == if id in ids then Some(EXPIRED) else Replay(audit, id)
    decreases |ids|
  {
    var rows := ExpiredRows(ids, reason);
    if ids == [] {
      assert audit + rows == audit;
    } else {
      var rest := ids[..|ids| - 1];
      var last := ids[|ids| - 1];
      assert ids == rest + [last];
      assert rows == ExpiredRows(rest, reason) + [rows[|ids| - 1]];
      assert audit + rows == (audit + ExpiredRows(rest, reason)) + [rows[|ids| - 1]];
      ReplayAppend(audit + ExpiredRows(rest, reason), rows[|ids| - 1], id);
      if id == last { assert id !in rest; }
      ReplayExpired(audit, rest, reason, id);
    }
  }

  lemma TransitionKeepsTrails(s: Api, now: int, c: Change)
    requires TrailsEndAtStatus(s)
    ensures TrailsEndAtStatus(Committed(s, Transition(s, now, c)))
  {
    if Transition(s, now, c).Ok? {
      var row := AuditRow(c.bookingId, c.actor, s.bookings[c.bookingId].status, c.to, c.reason);
      forall id: nat { ReplayAppend(s.audit, row, id); }
    }
  }

  lemma SideEffectRowKeepsTrails(s: Api, row: AuditRow, bookings: seq<Booking>)
    requires TrailsEndAtStatus(s) && row.fromState == row.toState
    requires |bookings| == |s.bookings| && forall i :: 0 <= i < |bookings| ==> bookings[i].status == s.bookings[i].status
    ensures TrailsEndAtStatus(s.(bookings := bookings, audit := s.audit + [row]))
  {
    forall id: nat { ReplayAppend(s.audit, row, id); }
  }

  lemma CreateHeldKeepsTrails(s: Api, b: Booking, actor: Actor, reason: Reason)
    requires TrailsEndAtStatus(s)
    ensures TrailsEndAtStatus(Committed(s, CreateHeld(s, b, actor, reason)))
  {
    if CreateHeld(s, b, actor, reason).Ok? {
      forall id: nat { ReplayAppend(s.audit, AuditRow(|s.bookings|, actor, DRAFT, HELD, reason), id); }
    }
  }

  lemma ExpireRowsKeepsTrails(s: Api, now: int, ids: seq<BookingId>, reason: Reason)
    requires TrailsEndAtStatus(s) && StaleBatch(s.bookings, now, ids)
    ensures TrailsEndAtStatus(ExpireRows(s, now, ids, reason))
  {
    forall id: nat { ReplayExpired(s.audit, ids, reason, id); }
  }
}
