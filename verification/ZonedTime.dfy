/**
 * Local wall clocks. Instants are milliseconds since the epoch; a local reading
 * is the millisecond count `Date.UTC` gives for the wall clock's own fields, so
 * a local day is `reading / DAY`. A zone is an offset function of the instant.
 */
module ZonedTime {
  import opened Wrappers

  type Zone = int -> int

  const MINUTE: int := 60_000
  const DAY: int := 86_400_000

  function AddMinutes(instant: int, minutes: int): int { instant + minutes * MINUTE }

  /** What a clock in the zone shows at `instant`. */
  function Reading(zone: Zone, instant: int): int { instant + zone(instant) }

  function LocalDay(zone: Zone, instant: int): int { Reading(zone, instant) / DAY }

  /** Sunday is 0; day 0 of the epoch was a Thursday. */
  function Weekday(day: int): (w: nat)
    ensures w < 7
  {
    (day + 4) % 7
  }

  /**
   * The days of the week come round one by one, and so does every date from
   * two that are known: 1 January 1970 was a Thursday, 26 October 2025 a Sunday.
   */
  lemma WeekGoesRound(day: int)
    ensures Weekday(day + 1) == (Weekday(day) + 1) % 7
    ensures Weekday(0) == 4 && Weekday(20_387) == 0
  {
  }

  /** The formatted parts carry no milliseconds, so both sides are whole seconds. */
  function ZoneOffsetMs(zone: Zone, instant: int): int {
    Reading(zone, instant) / 1000 * 1000 - instant / 1000 * 1000
  }

  predicate WholeSeconds(zone: Zone, instant: int) { zone(instant) % 1000 == 0 }

  lemma OffsetOfWholeSecondZone(zone: Zone, instant: int)
    requires WholeSeconds(zone, instant)
    ensures ZoneOffsetMs(zone, instant) == zone(instant)
  {
    var q := zone(instant) / 1000;
    assert zone(instant) == q * 1000;
    assert (instant + q * 1000) / 1000 == instant / 1000 + q;
  }

  /** At most `rounds` corrections of the guess `utc` towards reading `target`. */
  function Correct(zone: Zone, target: int, utc: int, rounds: nat): int
    decreases rounds, utc
  {
    if rounds == 0 then utc
    else
      var next := target - ZoneOffsetMs(zone, utc);
      if next == utc then utc else Correct(zone, target, next, rounds - 1)
  }

  function FromLocal(zone: Zone, target: int): int { Correct(zone, target, target, 3) }

  function LocalInstant(zone: Zone, day: int, hour: int, minute: int): int {
    FromLocal(zone, day * DAY + (hour * 60 + minute) * MINUTE)
  }

  /** The source's loop: start from the reading itself and correct at most three times. */
  method FromLocalParts(zone: Zone, day: int, hour: int, minute: int) returns (utc: int)
    ensures utc == LocalInstant(zone, day, hour, minute)
  {
    var target := day * DAY + (hour * 60 + minute) * MINUTE;
    utc := target;
    for i := 0 to 3
      invariant Correct(zone, target, utc, 3 - i) == FromLocal(zone, target)
    {
      var offset := ZoneOffsetMs(zone, utc);
      var next := target - offset;
      if next == utc { break; }
      utc := next;
    }
  }

  // --- Inverting a zone with one transition -------------------------------

  /** Offset `before` up to `switch`, `after` from it on. */
  ghost predicate OneTransition(zone: Zone, switch: int, before: int, after: int) {
    && before % 1000 == 0 && after % 1000 == 0
    && forall t :: zone(t) == if t < switch then before else after
  }

  /** The instants at which the zone's clock shows `target`. */
  ghost predicate Shows(zone: Zone, target: int, instant: int) { Reading(zone, instant) == target }

  lemma ShowsExactly(zone: Zone, switch: int, before: int, after: int, target: int, t: int)
    requires OneTransition(zone, switch, before, after)
    ensures Shows(zone, target, t)
            <==> (t == target - before && t < switch) || (t == target - after && t >= switch)
  {
  }

  /** Three corrections, unrolled: what they compute depends only on which side each guess falls. */
  lemma ThreeCorrections(zone: Zone, switch: int, before: int, after: int, target: int)
    requires OneTransition(zone, switch, before, after)
    ensures var early := target - before; var late := target - after;
            FromLocal(zone, target) ==
              if early < switch && late < switch then early
              else if early >= switch && late >= switch then late
              else if target < switch then early else late
  {
    forall t ensures ZoneOffsetMs(zone, t) == zone(t) { OffsetOfWholeSecondZone(zone, t); }
    var u1 := target - zone(target);
    var u2 := target - zone(u1);
    var u3 := target - zone(u2);
    assert Correct(zone, target, u2, 1) == if u3 == u2 then u2 else u3;
    assert Correct(zone, target, u1, 2) == if u2 == u1 then u1 else Correct(zone, target, u2, 1);
  }

  /**
   * Whenever a wall-clock reading names exactly one instant, the iteration finds
   * it, and converting back gives the same reading.
   */
  lemma UniqueReadingsInvert(zone: Zone, switch: int, before: int, after: int, target: int, instant: int)
    requires OneTransition(zone, switch, before, after)
    requires Shows(zone, target, instant)
    requires forall t :: Shows(zone, target, t) ==> t == instant
    ensures FromLocal(zone, target) == instant
    ensures Reading(zone, FromLocal(zone, target)) == target
  {
    ThreeCorrections(zone, switch, before, after, target);
    ShowsExactly(zone, switch, before, after, target, instant);
    ShowsExactly(zone, switch, before, after, target, target - before);
    ShowsExactly(zone, switch, before, after, target, target - after);
  }

  /**
   * The comment promises the first occurrence of a repeated reading. The code
   * keeps that promise exactly when the reading, taken as UTC, is before the
   * switch; otherwise it returns the second.
   */
  lemma RepeatedReadingsTakeTheFirstIff(zone: Zone, switch: int, before: int, after: int, target: int)
    requires OneTransition(zone, switch, before, after)
    requires target - before < switch <= target - after
    ensures Shows(zone, target, target - before) && Shows(zone, target, target - after)
    ensures FromLocal(zone, target) == target - before <==> target < switch
    ensures FromLocal(zone, target) == target - after <==> target >= switch
  {
    ThreeCorrections(zone, switch, before, after, target);
  }

  /**
   * The comment promises that a skipped reading resolves forward past the gap.
   * It does exactly when the reading, taken as UTC, is before the switch;
   * otherwise the answer falls short of the gap and shows an earlier reading.
   */
  lemma SkippedReadingsGoForwardIff(zone: Zone, switch: int, before: int, after: int, target: int)
    requires OneTransition(zone, switch, before, after)
    requires target - after < switch <= target - before
    ensures forall t :: !Shows(zone, target, t)
    ensures FromLocal(zone, target) >= switch <==> target < switch
    ensures if target < switch then Reading(zone, FromLocal(zone, target)) == target + (after - before)
            else Reading(zone, FromLocal(zone, target)) == target - (after - before)
  {
    ThreeCorrections(zone, switch, before, after, target);
    forall t ensures !Shows(zone, target, t) { ShowsExactly(zone, switch, before, after, target, t); }
  }

  /** London, 26 October 2025: clocks go back at 01:00 UTC and 01:30 comes twice. */
  lemma LondonFallBackTakesTheSecond(zone: Zone)
    requires OneTransition(zone, 1_761_440_400_000, 3_600_000, 0)
    ensures var halfPastOne := 1_761_442_200_000;
            && Shows(zone, halfPastOne, halfPastOne - 3_600_000)
            && Shows(zone, halfPastOne, halfPastOne)
            && FromLocal(zone, halfPastOne) == halfPastOne
  {
    RepeatedReadingsTakeTheFirstIff(zone, 1_761_440_400_000, 3_600_000, 0, 1_761_442_200_000);
  }

  // --- Fixed-offset zones --------------------------------------------------

  ghost predicate FixedOffset(zone: Zone, offset: int) {
    offset % 1000 == 0 && forall t :: zone(t) == offset
  }

  lemma FixedOffsetInverts(zone: Zone, offset: int, target: int)
    requires FixedOffset(zone, offset)
    ensures FromLocal(zone, target) == target - offset
  {
    assert OneTransition(zone, 0, offset, offset);
    ThreeCorrections(zone, 0, offset, offset, target);
  }

  // --- Clock strings -------------------------------------------------------

  predicate Digit(c: char) { '0' <= c <= '9' }

  function DigitValue(c: char): int { c as int - '0' as int }

  /** `"09:30"` to minutes past local midnight; `"24:00"` is the end of the day. */
  function ParseClock(text: string): (m: Option<int>)
    ensures m.Some? ==> 0 <= m.value <= 1440
  {
    if |text| == 5 && Digit(text[0]) && Digit(text[1]) && text[2] == ':' && Digit(text[3]) && Digit(text[4]) then
      var hours := DigitValue(text[0]) * 10 + DigitValue(text[1]);
      var minutes := DigitValue(text[3]) * 10 + DigitValue(text[4]);
      if minutes > 59 || hours > 24 || (hours == 24 && minutes != 0) then None
      else Some(hours * 60 + minutes)
    else None
  }

  function TwoDigits(n: nat): string
    requires n < 100
  {
    ['0' + (n / 10) as char, '0' + (n % 10) as char]
  }

  /** Minutes past midnight as a clock shows them. */
  function ShowClock(minutes: nat): string
    requires minutes <= 1440
  {
    TwoDigits(minutes / 60) + ":" + TwoDigits(minutes % 60)
  }

  lemma DigitsRoundTrip(c: char, d: char)
    requires Digit(c) && Digit(d)
    ensures 0 <= DigitValue(c) * 10 + DigitValue(d) < 100
    ensures TwoDigits(DigitValue(c) * 10 + DigitValue(d)) == [c, d]
  {
  }

  /** A clock string is read exactly when it is the showing of some time from 00:00 to 24:00, and as that time. */
  lemma ClocksReadBack(text: string, minutes: nat)
    requires minutes <= 1440
    ensures ParseClock(text) == Some(minutes) <==> text == ShowClock(minutes)
  {
    hide ParseClock, ShowClock;
    if ParseClock(text) == Some(minutes) { ReadAsShown(text, minutes); }
    if text == ShowClock(minutes) { ShownIsRead(minutes); }
  }

  lemma ReadAsShown(text: string, minutes: nat)
    requires minutes <= 1440 && ParseClock(text) == Some(minutes)
    ensures text == ShowClock(minutes)
  {
    hide TwoDigits;
    DigitsRoundTrip(text[0], text[1]);
    DigitsRoundTrip(text[3], text[4]);
    assert text == [text[0], text[1]] + ":" + [text[3], text[4]];
  }

  lemma ShownIsRead(minutes: nat)
    requires minutes <= 1440
    ensures ParseClock(ShowClock(minutes)) == Some(minutes)
  {
    hide TwoDigits;
    TwoDigitsRead(minutes / 60);
    TwoDigitsRead(minutes % 60);
    var text := ShowClock(minutes);
    assert |text| == 5 && text[2] == ':';
  }

  lemma TwoDigitsRead(n: nat)
    requires n < 100
    ensures var t := TwoDigits(n);
            |t| == 2 && Digit(t[0]) && Digit(t[1]) && DigitValue(t[0]) * 10 + DigitValue(t[1]) == n
  {
  }
}
