/** A venue's opening hours, resolved on its own local calendar. */
module OperatingHours {
  import opened Wrappers
  import opened ZonedTime

  datatype DayHours = DayHours(open: string, close: string)

  /** One entry per weekday, Sunday first; `None` is a day the venue is closed. */
  datatype Hours = Hours(days: seq<Option<DayHours>>)

  datatype OpenWindow = OpenWindow(opensAt: int, closesAt: int)

  predicate ValidHours(hours: Hours) { |hours.days| == 7 }

  /** Step from local noon, so that no offset change can land on the wrong day. */
  function NextLocalDay(zone: Zone, day: int): int {
    LocalDay(zone, AddMinutes(LocalInstant(zone, day, 12, 0), 1440))
  }

  /** The window a day's clock minutes describe; a close at or before the open is overnight. */
  function WindowOf(zone: Zone, day: int, open: int, close: int): OpenWindow {
    var opensAt := LocalInstant(zone, day, open / 60, open % 60);
    var crossesMidnight := close <= open;
    var anchor := if crossesMidnight then NextLocalDay(zone, day) else day;
    var closesAt := LocalInstant(zone, anchor, close / 60 % 24, close % 60);
    if !crossesMidnight && closesAt <= opensAt
    then OpenWindow(opensAt, LocalInstant(zone, NextLocalDay(zone, day), 0, 0))
    else OpenWindow(opensAt, closesAt)
  }

  function WindowForLocalDate(hours: Hours, zone: Zone, day: int): Option<OpenWindow>
    requires ValidHours(hours)
  {
    match hours.days[Weekday(day)]
    case None => None
    case Some(spec) =>
      var open := ParseClock(spec.open);
      var close := ParseClock(spec.close);
      if open.None? || close.None? then None else Some(WindowOf(zone, day, open.value, close.value))
  }

  function WindowForLocalDay(hours: Hours, zone: Zone, instant: int): Option<OpenWindow>
    requires ValidHours(hours)
  {
    WindowForLocalDate(hours, zone, LocalDay(zone, instant))
  }

  predicate Inside(w: Option<OpenWindow>, startsAt: int, endsAt: int) {
    w.Some? && startsAt >= w.value.opensAt && endsAt <= w.value.closesAt
  }

  /** The window of the start's own local day, or the one opened the day before. */
  predicate IsWithinOperatingHours(hours: Hours, zone: Zone, startsAt: int, endsAt: int)
    requires ValidHours(hours)
  {
    || Inside(WindowForLocalDay(hours, zone, startsAt), startsAt, endsAt)
    || Inside(WindowForLocalDay(hours, zone, AddMinutes(startsAt, -1440)), startsAt, endsAt)
  }

  predicate Meets(w: Option<OpenWindow>, from: int, to: int) {
    w.Some? && w.value.closesAt > from && w.value.opensAt < to
  }

  /** The local day the walk's cursor shows after stepping on from `day`. */
  function StepDay(zone: Zone, day: int): int {
    LocalDay(zone, LocalInstant(zone, NextLocalDay(zone, day), 12, 0))
  }

  /** A calendar: which window each local day has, and which day comes next. */
  datatype Calendar = Calendar(window: int -> Option<OpenWindow>, next: int -> int)

  function CalendarOf(hours: Hours, zone: Zone): Calendar
    requires ValidHours(hours)
  {
    Calendar(day => WindowForLocalDate(hours, zone, day), day => StepDay(zone, day))
  }

  /** The windows met by a walk of at most `guard` local days from `day` to `stop`. */
  function Walk(calendar: Calendar, from: int, to: int, day: int, stop: int, guard: nat): seq<OpenWindow>
    decreases guard, day
  {
    if guard == 0 || day > stop then []
    else
      (if Meets(calendar.window(day), from, to) then [calendar.window(day).value] else [])
      + Walk(calendar, from, to, calendar.next(day), stop, guard - 1)
  }

  function InsertByOpening(w: OpenWindow, windows: seq<OpenWindow>): seq<OpenWindow> {
    if windows == [] || w.opensAt <= windows[0].opensAt then [w] + windows
    else [windows[0]] + InsertByOpening(w, windows[1..])
  }

  function SortByOpening(windows: seq<OpenWindow>): seq<OpenWindow> {
    if windows == [] then [] else InsertByOpening(windows[0], SortByOpening(windows[1..]))
  }

  const GUARD: nat := 800

  function OpenWindowsBetween(hours: Hours, zone: Zone, from: int, to: int): seq<OpenWindow>
    requires ValidHours(hours)
  {
    SortByOpening(Walk(CalendarOf(hours, zone), from, to, LocalDay(zone, AddMinutes(from, -1440)),
                       LocalDay(zone, AddMinutes(to, 1440)), GUARD))
  }

  /** The source's walk: push each met window, then step the local calendar. */
  method WalkDays(calendar: Calendar, from: int, to: int, day: int, stop: int, limit: nat)
    returns (windows: seq<OpenWindow>)
    ensures windows == Walk(calendar, from, to, day, stop, limit)
  {
    windows := [];
    var cursor := day;
    for guard := 0 to limit
      invariant windows + Walk(calendar, from, to, cursor, stop, limit - guard)
                == Walk(calendar, from, to, day, stop, limit)
    {
      if cursor > stop { break; }
      var w := calendar.window(cursor);
      if Meets(w, from, to) { windows := windows + [w.value]; }
      cursor := calendar.next(cursor);
    }
  }

  method CollectOpenWindows(hours: Hours, zone: Zone, from: int, to: int) returns (windows: seq<OpenWindow>)
    requires ValidHours(hours)
    ensures windows == OpenWindowsBetween(hours, zone, from, to)
  {
    windows := WalkDays(CalendarOf(hours, zone), from, to, LocalDay(zone, AddMinutes(from, -1440)),
                        LocalDay(zone, AddMinutes(to, 1440)), GUARD);
    windows := SortByOpening(windows);
  }

  // --- Fixed-offset zones --------------------------------------------------

  /** Every opening time is before 24:00; a close may be 24:00 or wrap past midnight. */
  predicate OpensBeforeMidnight(hours: Hours) {
    ValidHours(hours) &&
    forall k :: 0 <= k < 7 && hours.days[k].Some? ==>
      var open := ParseClock(hours.days[k].value.open);
      open.Some? && ParseClock(hours.days[k].value.close).Some? && open.value < 1440
  }

  lemma FixedInstant(zone: Zone, offset: int, day: int, hour: int, minute: int)
    requires FixedOffset(zone, offset)
    ensures LocalInstant(zone, day, hour, minute) == day * DAY + (hour * 60 + minute) * MINUTE - offset
  {
    FixedOffsetInverts(zone, offset, day * DAY + (hour * 60 + minute) * MINUTE);
  }

  lemma FixedDays(zone: Zone, offset: int, day: int)
    requires FixedOffset(zone, offset)
    ensures NextLocalDay(zone, day) == day + 1
    ensures StepDay(zone, day) == day + 1
  {
    FixedInstant(zone, offset, day, 12, 0);
    FixedInstant(zone, offset, day + 1, 12, 0);
  }

  lemma ClockFields(minutes: int)
    requires 0 <= minutes <= 1440
    ensures minutes / 60 % 24 * 60 + minutes % 60 == if minutes == 1440 then 0 else minutes
  {
    assert minutes < 1440 ==> minutes / 60 % 24 == minutes / 60;
  }

  lemma FixedWindow(zone: Zone, offset: int, day: int, open: int, close: int)
    requires FixedOffset(zone, offset) && 0 <= open < 1440 && 0 <= close <= 1440
    ensures WindowOf(zone, day, open, close) ==
            OpenWindow(day * DAY + open * MINUTE - offset,
                       day * DAY + (if close <= open then close + 1440 else close) * MINUTE - offset)
  {
    FixedDays(zone, offset, day);
    ClockFields(close);
    FixedInstant(zone, offset, day, open / 60, open % 60);
    FixedInstant(zone, offset, day + 1, 0, 0);
    FixedInstant(zone, offset, if close <= open then day + 1 else day, close / 60 % 24, close % 60);
  }

  /** A window opens on its own local day, is never empty and lasts at most a day. */
  lemma WindowShape(hours: Hours, zone: Zone, offset: int, day: int)
    requires OpensBeforeMidnight(hours) && FixedOffset(zone, offset)
    ensures var w := WindowForLocalDate(hours, zone, day);
            && (w.None? <==> hours.days[Weekday(day)].None?)
            && (w.Some? ==>
                  && day * DAY - offset <= w.value.opensAt < (day + 1) * DAY - offset
                  && w.value.opensAt < w.value.closesAt <= w.value.opensAt + DAY)
  {
    match hours.days[Weekday(day)]
    case None =>
    case Some(spec) =>
      FixedWindow(zone, offset, day, ParseClock(spec.open).value, ParseClock(spec.close).value);
  }

  lemma FixedLocalDay(zone: Zone, offset: int, instant: int)
    requires FixedOffset(zone, offset)
    ensures var d := LocalDay(zone, instant); d * DAY - offset <= instant < (d + 1) * DAY - offset
    ensures LocalDay(zone, AddMinutes(instant, -1440)) == LocalDay(zone, instant) - 1
    ensures LocalDay(zone, AddMinutes(instant, 1440)) == LocalDay(zone, instant) + 1
  {
  }

  ghost predicate InsideSomeWindow(hours: Hours, zone: Zone, startsAt: int, endsAt: int)
    requires ValidHours(hours)
  {
    exists day :: Inside(WindowForLocalDate(hours, zone, day), startsAt, endsAt)
  }

  /** Looking at two local days is as good as looking at all of them. */
  lemma TwoDaysSuffice(hours: Hours, zone: Zone, offset: int, startsAt: int, endsAt: int)
    requires OpensBeforeMidnight(hours) && FixedOffset(zone, offset) && startsAt < endsAt
    ensures IsWithinOperatingHours(hours, zone, startsAt, endsAt)
            <==> InsideSomeWindow(hours, zone, startsAt, endsAt)
  {
    FixedLocalDay(zone, offset, startsAt);
    var today := LocalDay(zone, startsAt);
    if day :| Inside(WindowForLocalDate(hours, zone, day), startsAt, endsAt) {
      WindowShape(hours, zone, offset, day);
      assert day == today || day == today - 1;
    }
  }

  /**
   * With clocks `offset` ahead of UTC, `from` to `to` lies in the hours of day
   * `day` of the epoch, its weekday counted from a Thursday; hours that close no
   * later than they open run into the next day.
   */
  predicate OpenOn(hours: Hours, offset: int, day: int, from: int, to: int, open: nat, close: nat)
    requires ValidHours(hours)
  {
    && open < 1440 && close <= 1440
    && hours.days[(day + 4) % 7] == Some(DayHours(ShowClock(open), ShowClock(close)))
    && day * 86_400_000 + open * 60_000 <= from + offset
    && to + offset <= day * 86_400_000 + (if close <= open then close + 1440 else close) * 60_000
  }

  lemma InsideIsOpenOn(hours: Hours, zone: Zone, offset: int, day: int, startsAt: int, endsAt: int)
    requires OpensBeforeMidnight(hours) && FixedOffset(zone, offset)
    ensures Inside(WindowForLocalDate(hours, zone, day), startsAt, endsAt)
            <==> exists open: nat, close: nat :: OpenOn(hours, offset, day, startsAt, endsAt, open, close)
  {
    hide ParseClock, ShowClock, WindowOf;
    match hours.days[Weekday(day)] {
      case None =>
      case Some(spec) =>
        var open, close := ParseClock(spec.open).value, ParseClock(spec.close).value;
        FixedWindow(zone, offset, day, open, close);
        ClocksReadBack(spec.open, open);
        ClocksReadBack(spec.close, close);
        if Inside(WindowForLocalDate(hours, zone, day), startsAt, endsAt) {
          assert OpenOn(hours, offset, day, startsAt, endsAt, open, close);
        }
        forall o: nat, c: nat | OpenOn(hours, offset, day, startsAt, endsAt, o, c) ensures o == open && c == close {
          ClocksReadBack(spec.open, o);
          ClocksReadBack(spec.close, c);
        }
    }
  }

  /** In a zone of one offset, a slot is within hours exactly when it lies in the posted hours of some local day. */
  lemma WithinHoursIff(hours: Hours, zone: Zone, offset: int, startsAt: int, endsAt: int)
    requires OpensBeforeMidnight(hours) && FixedOffset(zone, offset) && startsAt < endsAt
    ensures IsWithinOperatingHours(hours, zone, startsAt, endsAt)
            <==> exists day, open: nat, close: nat :: OpenOn(hours, offset, day, startsAt, endsAt, open, close)
  {
    hide OpenOn, IsWithinOperatingHours, FixedOffset, WindowForLocalDate, Inside;
    TwoDaysSuffice(hours, zone, offset, startsAt, endsAt);
    if IsWithinOperatingHours(hours, zone, startsAt, endsAt) {
      var day :| Inside(WindowForLocalDate(hours, zone, day), startsAt, endsAt);
      InsideIsOpenOn(hours, zone, offset, day, startsAt, endsAt);
      var open: nat, close: nat :| OpenOn(hours, offset, day, startsAt, endsAt, open, close);
    }
    if day, open: nat, close: nat :| OpenOn(hours, offset, day, startsAt, endsAt, open, close) {
      InsideIsOpenOn(hours, zone, offset, day, startsAt, endsAt);
    }
  }

  /** The same hours every day but Sunday. */
  function ClosedSundays(open: nat, close: nat): Hours
    requires open <= 1440 && close <= 1440
  {
    var day := Some(DayHours(ShowClock(open), ShowClock(close)));
    Hours([None, day, day, day, day, day, day])
  }

  /**
   * At a venue on UTC closed on Sundays, a slot from `from` to `to` within its
   * hours is refused on every Sunday there is, and admitted on every other day:
   * day 3 of the epoch, 4 January 1970, was a Sunday.
   */
  lemma ClosedOnSundays(zone: Zone, open: nat, close: nat, day: int, from: int, to: int)
    requires FixedOffset(zone, 0) && open < close <= 1440
    requires open * 60_000 <= from < to <= close * 60_000
    ensures IsWithinOperatingHours(ClosedSundays(open, close), zone, day * 86_400_000 + from, day * 86_400_000 + to)
            <==> day % 7 != 3
  {
    hide OpenOn, IsWithinOperatingHours, ShowClock;
    var hours := ClosedSundays(open, close);
    var startsAt, endsAt := day * 86_400_000 + from, day * 86_400_000 + to;
    PostedHoursAreRead(open, close);
    WithinHoursIff(hours, zone, 0, startsAt, endsAt);
    if day % 7 != 3 { OnlyOnItsDay(open, close, day, day, from, to, open, close); }
    if d, o: nat, c: nat :| OpenOn(hours, 0, d, startsAt, endsAt, o, c) {
      OnlyOnItsDay(open, close, day, d, from, to, o, c);
    }
  }

  lemma PostedHoursAreRead(open: nat, close: nat)
    requires open < close <= 1440
    ensures OpensBeforeMidnight(ClosedSundays(open, close))
  {
    hide ParseClock, ShowClock;
    ClocksReadBack(ShowClock(open), open);
    ClocksReadBack(ShowClock(close), close);
  }

  lemma OnlyOnItsDay(open: nat, close: nat, day: int, d: int, from: int, to: int, o: nat, c: nat)
    requires open < close <= 1440 && open * 60_000 <= from < to <= close * 60_000
    ensures OpenOn(ClosedSundays(open, close), 0, d, day * 86_400_000 + from, day * 86_400_000 + to, o, c)
            <==> d == day && day % 7 != 3 && o == open && c == close
  {
    hide ParseClock, ShowClock;
    ClocksReadBack(ShowClock(open), open);
    ClocksReadBack(ShowClock(close), close);
    SundayIsEmpty(open, close, d);
    if o <= 1440 && c <= 1440 {
      ClocksReadBack(ShowClock(open), o);
      ClocksReadBack(ShowClock(close), c);
    }
    hide ClosedSundays;
    WithinOneDay(day, d, from, to, open, close);
  }

  lemma SundayIsEmpty(open: nat, close: nat, d: int)
    requires open < close <= 1440
    ensures ClosedSundays(open, close).days[(d + 4) % 7]
            == if d % 7 == 3 then None else Some(DayHours(ShowClock(open), ShowClock(close)))
  {
    hide ShowClock;
  }

  lemma WithinOneDay(day: int, d: int, from: int, to: int, open: nat, close: nat)
    requires open < close <= 1440 && open * 60_000 <= from < to <= close * 60_000
    ensures d * 86_400_000 + open * 60_000 <= day * 86_400_000 + from && day * 86_400_000 + to <= d * 86_400_000 + close * 60_000
            <==> d == day
  {
  }

  /**
   * Stepping from local noon lands on the next local day, and on its noon's day,
   * whatever the offsets and whenever the clocks change, by less than six hours.
   */
  lemma NextDayAcrossATransition(zone: Zone, switch: int, before: int, after: int, day: int)
    requires OneTransition(zone, switch, before, after) && -21_600_000 < after - before < 21_600_000
    ensures NextLocalDay(zone, day) == day + 1 && StepDay(zone, day) == day + 1
  {
    hide FromLocal;
    ThreeCorrections(zone, switch, before, after, day * DAY + 720 * MINUTE);
    ThreeCorrections(zone, switch, before, after, (day + 1) * DAY + 720 * MINUTE);
  }

  /**
   * London, 30 March 2025: clocks go forward at 01:00 UTC. A door that opens at
   * 00:50 and closes at 01:10, a reading skipped that night, would close before
   * it opened; the code keeps it open to the next local midnight.
   */
  lemma SkippedClosingRunsToMidnight(zone: Zone)
    requires OneTransition(zone, 1_743_296_400_000, 0, 3_600_000)
    ensures FromLocal(zone, 20_177 * 86_400_000 + 70 * 60_000) < FromLocal(zone, 20_177 * 86_400_000 + 50 * 60_000)
    ensures WindowOf(zone, 20_177, 50, 70) == OpenWindow(1_743_295_800_000, 1_743_375_600_000)
  {
    hide FromLocal;
    var midnight := 20_177 * DAY;
    ThreeCorrections(zone, 1_743_296_400_000, 0, 3_600_000, midnight + 50 * MINUTE);
    ThreeCorrections(zone, 1_743_296_400_000, 0, 3_600_000, midnight + 70 * MINUTE);
    ThreeCorrections(zone, 1_743_296_400_000, 0, 3_600_000, midnight + 720 * MINUTE);
    ThreeCorrections(zone, 1_743_296_400_000, 0, 3_600_000, midnight + DAY);
  }

  /** Each day's window opens on that day, days counted from some local midnight. */
  ghost predicate Regular(calendar: Calendar, midnight: int) {
    forall d :: calendar.next(d) == d + 1 &&
      (calendar.window(d).Some? ==>
         && midnight + d * DAY <= calendar.window(d).value.opensAt < midnight + (d + 1) * DAY
         && calendar.window(d).value.closesAt <= calendar.window(d).value.opensAt + DAY)
  }

  ghost predicate Ascending(windows: seq<OpenWindow>) {
    forall i, j :: 0 <= i < j < |windows| ==> windows[i].opensAt < windows[j].opensAt
  }

  ghost predicate OnSomeDay(calendar: Calendar, w: OpenWindow, day: int, stop: int) {
    exists d :: day <= d <= stop && calendar.window(d) == Some(w)
  }

  lemma FirstDayOrLater(calendar: Calendar, w: OpenWindow, day: int, stop: int)
    requires day <= stop
    ensures OnSomeDay(calendar, w, day, stop) <==> calendar.window(day) == Some(w) || OnSomeDay(calendar, w, day + 1, stop)
  {
    if OnSomeDay(calendar, w, day, stop) && calendar.window(day) != Some(w) {
      var d :| day <= d <= stop && calendar.window(d) == Some(w);
      assert OnSomeDay(calendar, w, day + 1, stop);
    }
  }

  lemma LaterDaysOpenLater(calendar: Calendar, midnight: int, w: OpenWindow, day: int, stop: int)
    requires Regular(calendar, midnight) && OnSomeDay(calendar, w, day + 1, stop)
    ensures w.opensAt >= midnight + (day + 1) * DAY
    ensures calendar.window(day).Some? ==> calendar.window(day).value.opensAt < w.opensAt
  {
    var d :| day + 1 <= d <= stop && calendar.window(d) == Some(w);
    assert calendar.next(day) == day + 1 && calendar.next(d) == d + 1;
  }

  lemma PutFirst(w: OpenWindow, rest: seq<OpenWindow>)
    requires Ascending(rest) && forall x :: x in rest ==> w.opensAt < x.opensAt
    ensures Ascending([w] + rest)
  {
    var all := [w] + rest;
    forall i, j | 0 <= i < j < |all| ensures all[i].opensAt < all[j].opensAt { assert all[j] == rest[j - 1] && rest[j - 1] in rest; }
  }

  /** In order, and exactly the windows of local days `day..stop` that meet the range. */
  lemma {:induction false} WalkIsExact(
      calendar: Calendar, midnight: int, from: int, to: int, day: int, stop: int, guard: nat)
    requires Regular(calendar, midnight) && stop - day < guard
    ensures var r := Walk(calendar, from, to, day, stop, guard);
            && (forall w :: w in r <==> Meets(Some(w), from, to) && OnSomeDay(calendar, w, day, stop))
            && Ascending(r)
    decreases guard
  {
    if day <= stop {
      assert calendar.next(day) == day + 1;
      hide Regular, OnSomeDay, Meets, Ascending;
      WalkIsExact(calendar, midnight, from, to, day + 1, stop, guard - 1);
      var rest := Walk(calendar, from, to, day + 1, stop, guard - 1);
      var first := calendar.window(day);
      assert Walk(calendar, from, to, day, stop, guard) == (if Meets(first, from, to) then [first.value] else []) + rest;
      forall w ensures OnSomeDay(calendar, w, day, stop) <==> first == Some(w) || OnSomeDay(calendar, w, day + 1, stop) {
        FirstDayOrLater(calendar, w, day, stop);
      }
      if Meets(first, from, to) {
        assert first.Some? by { MetIsSome(first, from, to); }
        forall w | w in rest ensures first.value.opensAt < w.opensAt { LaterDaysOpenLater(calendar, midnight, w, day, stop); }
        PutFirst(first.value, rest);
      } else {
        assert [] + rest == rest;
      }
    } else {
      assert Walk(calendar, from, to, day, stop, guard) == [];
    }
  }

  lemma MetIsSome(w: Option<OpenWindow>, from: int, to: int)
    requires Meets(w, from, to)
    ensures w.Some?
  {
  }

  lemma {:induction false} SortingSortedIsIdentity(windows: seq<OpenWindow>)
    requires Ascending(windows)
    ensures SortByOpening(windows) == windows
  {
    if windows != [] {
      SortingSortedIsIdentity(windows[1..]);
      assert windows == [windows[0]] + windows[1..];
    }
  }

  lemma SortedWalk(calendar: Calendar, midnight: int, from: int, to: int, day: int, stop: int, guard: nat)
    requires Regular(calendar, midnight) && stop - day < guard
    ensures var r := SortByOpening(Walk(calendar, from, to, day, stop, guard));
            && (forall w :: w in r <==> Meets(Some(w), from, to) && OnSomeDay(calendar, w, day, stop))
            && Ascending(r)
  {
    WalkIsExact(calendar, midnight, from, to, day, stop, guard);
    SortingSortedIsIdentity(Walk(calendar, from, to, day, stop, guard));
  }

  /**
   * Over any range of at most 366 days: every window that meets the range, of
   * any local day whatever, is returned; nothing else is; and they come in
   * strictly ascending order. The guard of 800 steps never cuts the walk short.
   */
  lemma OpenWindowsAreExact(hours: Hours, zone: Zone, offset: int, from: int, to: int)
    requires OpensBeforeMidnight(hours) && FixedOffset(zone, offset)
    requires from < to <= from + 366 * DAY
    ensures var r := OpenWindowsBetween(hours, zone, from, to);
            && (forall w :: w in r <==> Meets(Some(w), from, to) && exists d :: WindowForLocalDate(hours, zone, d) == Some(w))
            && Ascending(r)
  {
    var calendar := CalendarOf(hours, zone);
    CalendarIsRegular(hours, zone, offset);
    var day := LocalDay(zone, AddMinutes(from, -1440));
    var stop := LocalDay(zone, AddMinutes(to, 1440));
    RangeOfDays(zone, offset, from, to);
    SortedWalk(calendar, -offset, from, to, day, stop, GUARD);
    AllDaysNearby(hours, zone, offset, from, to);
  }

  lemma AllDaysNearby(hours: Hours, zone: Zone, offset: int, from: int, to: int)
    requires OpensBeforeMidnight(hours) && FixedOffset(zone, offset) && from < to <= from + 366 * DAY
    ensures forall w :: Meets(Some(w), from, to) ==>
      (OnSomeDay(CalendarOf(hours, zone), w, LocalDay(zone, AddMinutes(from, -1440)), LocalDay(zone, AddMinutes(to, 1440)))
       <==> exists d :: WindowForLocalDate(hours, zone, d) == Some(w))
  {
    forall w | Meets(Some(w), from, to)
      ensures OnSomeDay(CalendarOf(hours, zone), w, LocalDay(zone, AddMinutes(from, -1440)), LocalDay(zone, AddMinutes(to, 1440)))
              <==> exists d :: WindowForLocalDate(hours, zone, d) == Some(w)
    {
      DaysNearby(hours, zone, offset, from, to, w);
    }
  }

  lemma RangeOfDays(zone: Zone, offset: int, from: int, to: int)
    requires FixedOffset(zone, offset) && from < to <= from + 366 * DAY
    ensures var day := LocalDay(zone, AddMinutes(from, -1440));
            var stop := LocalDay(zone, AddMinutes(to, 1440));
            stop - day < 800 && -offset + (day + 1) * DAY <= from && to < -offset + stop * DAY
  {
    FixedLocalDay(zone, offset, from);
    FixedLocalDay(zone, offset, to);
  }

  lemma DaysNearby(hours: Hours, zone: Zone, offset: int, from: int, to: int, w: OpenWindow)
    requires OpensBeforeMidnight(hours) && FixedOffset(zone, offset)
    requires from < to <= from + 366 * DAY && Meets(Some(w), from, to)
    ensures OnSomeDay(CalendarOf(hours, zone), w, LocalDay(zone, AddMinutes(from, -1440)), LocalDay(zone, AddMinutes(to, 1440)))
            <==> exists d :: WindowForLocalDate(hours, zone, d) == Some(w)
  {
    var calendar := CalendarOf(hours, zone);
    var day := LocalDay(zone, AddMinutes(from, -1440));
    var stop := LocalDay(zone, AddMinutes(to, 1440));
    RangeOfDays(zone, offset, from, to);
    if d :| WindowForLocalDate(hours, zone, d) == Some(w) {
      WindowShape(hours, zone, offset, d);
      MetWindowIsNearby(w.opensAt, w.closesAt, -offset, d, day, stop, from, to);
      assert calendar.window(d) == Some(w);
    }
    if OnSomeDay(calendar, w, day, stop) {
      var d :| day <= d <= stop && calendar.window(d) == Some(w);
      assert WindowForLocalDate(hours, zone, d) == Some(w);
    }
  }

  lemma CalendarIsRegular(hours: Hours, zone: Zone, offset: int)
    requires OpensBeforeMidnight(hours) && FixedOffset(zone, offset)
    ensures Regular(CalendarOf(hours, zone), -offset)
  {
    forall d ensures
      var c := CalendarOf(hours, zone);
      c.next(d) == d + 1 &&
      (c.window(d).Some? ==> -offset + d * DAY <= c.window(d).value.opensAt < -offset + (d + 1) * DAY
                             && c.window(d).value.closesAt <= c.window(d).value.opensAt + DAY)
    {
      FixedDays(zone, offset, d);
      WindowShape(hours, zone, offset, d);
    }
  }

  lemma MetWindowIsNearby(opensAt: int, closesAt: int, midnight: int, d: int, day: int, stop: int, from: int, to: int)
    requires midnight + d * DAY <= opensAt < midnight + (d + 1) * DAY && closesAt <= opensAt + DAY
    requires closesAt > from && opensAt < to
    requires midnight + (day + 1) * DAY <= from && to < midnight + stop * DAY
    ensures day <= d <= stop
  {
  }
}
