/**
 * Peak concurrent usage. Quantities in use form a step function of time; the
 * sweep emits one event per clipped interval boundary, orders them by time with
 * releases before acquisitions, and takes the maximum running total.
 */
module SweepLine {
  import opened Wrappers

  /** `quantity` units out over the half-open interval `[from, to)`. */
  datatype Use = Use(from: int, to: int, quantity: nat)

  datatype Event = Event(at: int, delta: int, acquire: bool)

  function InUse(uses: seq<Use>, t: int): nat {
    if uses == [] then 0
    else (if uses[0].from <= t < uses[0].to then uses[0].quantity else 0) + InUse(uses[1..], t)
  }

  /** The tempting, wrong measure: everything that touches the window at all. */
  function OverlapSum(uses: seq<Use>, s: int, e: int): nat {
    if uses == [] then 0
    else (if uses[0].from < e && uses[0].to > s then uses[0].quantity else 0) + OverlapSum(uses[1..], s, e)
  }

  /** One acquire and one release per interval that meets `[s, e)`, clipped to it. */
  function Events(uses: seq<Use>, s: int, e: int): seq<Event> {
    if uses == [] then []
    else
      var u := uses[0];
      (if u.from < e && u.to > s
       then [Event(Max(u.from, s), u.quantity, true), Event(Min(u.to, e), 0 - u.quantity, false)]
       else [])
      + Events(uses[1..], s, e)
  }

  /** Time first; at one instant, releases come before acquisitions. */
  predicate Before(a: Event, b: Event) {
    a.at < b.at || (a.at == b.at && (b.acquire || !a.acquire))
  }

  predicate Sorted(events: seq<Event>) {
    forall i, j :: 0 <= i < j < |events| ==> Before(events[i], events[j])
  }

  function Insert(x: Event, sorted: seq<Event>): seq<Event> {
    if sorted == [] || Before(x, sorted[0]) then [x] + sorted else [sorted[0]] + Insert(x, sorted[1..])
  }

  function SortEvents(events: seq<Event>): seq<Event> {
    if events == [] then [] else Insert(events[0], SortEvents(events[1..]))
  }

  /** The running total after the first `k` events. */
  function RunningTotal(events: seq<Event>, k: nat): int
    requires k <= |events|
  {
    if k == 0 then 0 else RunningTotal(events, k - 1) + events[k - 1].delta
  }

  /** The largest running total over the first `k` rows; zero rows answer zero. */
  function MaxRunning(events: seq<Event>, k: nat): int
    requires k <= |events|
  {
    if k == 0 then 0
    else if k == 1 then RunningTotal(events, 1)
    else Max(MaxRunning(events, k - 1), RunningTotal(events, k))
  }

  function Peak(uses: seq<Use>, s: int, e: int): int {
    var events := SortEvents(Events(uses, s, e));
    MaxRunning(events, |events|)
  }

  // --- Any order that sorts the events ------------------------------------

  lemma {:induction false} InsertSorts(x: Event, sorted: seq<Event>)
    requires Sorted(sorted)
    ensures Sorted(Insert(x, sorted))
    ensures multiset(Insert(x, sorted)) == multiset(sorted) + multiset{x}
  {
    if sorted == [] || Before(x, sorted[0]) {
    } else {
      InsertSorts(x, sorted[1..]);
      assert sorted == [sorted[0]] + sorted[1..];
      forall y | y in Insert(x, sorted[1..]) ensures Before(sorted[0], y) {
        assert y in multiset(Insert(x, sorted[1..]));
        assert y == x || y in sorted[1..];
      }
    }
  }

  lemma {:induction false} SortSorts(events: seq<Event>)
    ensures Sorted(SortEvents(events))
    ensures multiset(SortEvents(events)) == multiset(events)
  {
    if events != [] {
      SortSorts(events[1..]);
      InsertSorts(events[0], SortEvents(events[1..]));
      assert events == [events[0]] + events[1..];
    }
  }

  /** What has happened by instant `t`, in whatever order the events are listed. */
  function Net(events: seq<Event>, t: int): int {
    if events == [] then 0 else (if events[0].at <= t then events[0].delta else 0) + Net(events[1..], t)
  }

  lemma {:induction false} NetAppend(a: seq<Event>, b: seq<Event>, t: int)
    ensures Net(a + b, t) == Net(a, t) + Net(b, t)
  {
    if a == [] {
      assert a + b == b;
    } else {
      assert (a + b)[1..] == a[1..] + b;
      NetAppend(a[1..], b, t);
    }
  }

  /** Taking one occurrence of `x` out of a list. */
  lemma TakeOut(b: seq<Event>, x: Event, t: int) returns (rest: seq<Event>)
    requires x in b
    ensures multiset(b) == multiset(rest) + multiset{x}
    ensures Net(b, t) == Net(rest, t) + Net([x], t)
  {
    var i :| 0 <= i < |b| && b[i] == x;
    rest := b[..i] + b[i + 1..];
    assert b == (b[..i] + [x]) + b[i + 1..];
    NetAppend(b[..i] + [x], b[i + 1..], t);
    NetAppend(b[..i], [x], t);
    NetAppend(b[..i], b[i + 1..], t);
  }

  lemma {:induction false} NetIgnoresOrder(a: seq<Event>, b: seq<Event>, t: int)
    requires multiset(a) == multiset(b)
    ensures Net(a, t) == Net(b, t)
    decreases |a|
  {
    if a == [] {
      assert |multiset(b)| == 0;
      assert b == [];
    } else {
      assert a[0] in multiset(b);
      var rest := TakeOut(b, a[0], t);
      assert a == [a[0]] + a[1..];
      assert multiset(a[1..]) == multiset(a) - multiset{a[0]};
      assert multiset(rest) == multiset(b) - multiset{a[0]};
      NetIgnoresOrder(a[1..], rest, t);
    }
  }

  /** Inside the window, what has happened so far is exactly what is in use. */
  lemma {:induction false} NetOfEventsIsInUse(uses: seq<Use>, s: int, e: int, t: int)
    requires forall u :: u in uses ==> u.from < u.to
    requires s <= t < e
    ensures Net(Events(uses, s, e), t) == InUse(uses, t)
  {
    if uses != [] {
      NetOfEventsIsInUse(uses[1..], s, e, t);
      var u := uses[0];
      if u.from < e && u.to > s {
        var head := [Event(Max(u.from, s), u.quantity, true), Event(Min(u.to, e), 0 - u.quantity, false)];
        NetAppend(head, Events(uses[1..], s, e), t);
        assert head[1..] == [head[1]];
        assert Net(head[1..], t) == if head[1].at <= t then head[1].delta else 0;
      } else {
        assert Events(uses, s, e) == Events(uses[1..], s, e);
      }
    }
  }

  lemma {:induction false} EventsAreClipped(uses: seq<Use>, s: int, e: int)
    requires s < e
    requires forall u :: u in uses ==> u.from < u.to
    ensures forall v :: v in Events(uses, s, e) ==>
      (if v.acquire then s <= v.at < e && v.delta >= 0 else s < v.at <= e && v.delta <= 0)
  {
    if uses != [] {
      EventsAreClipped(uses[1..], s, e);
    }
  }

  lemma {:induction false} RunningIsNet(events: seq<Event>, k: nat, t: int)
    requires k <= |events|
    requires forall i :: 0 <= i < k ==> events[i].at <= t
    ensures RunningTotal(events, k) == Net(events[..k], t)
  {
    if k == 0 {
      assert events[..0] == [];
    } else {
      RunningIsNet(events, k - 1, t);
      assert events[..k] == events[..k - 1] + [events[k - 1]];
      NetAppend(events[..k - 1], [events[k - 1]], t);
      assert Net([events[k - 1]], t) == events[k - 1].delta;
    }
  }

  lemma {:induction false} NetOfLateEvents(events: seq<Event>, t: int)
    requires forall i :: 0 <= i < |events| ==> events[i].at > t
    ensures Net(events, t) == 0
  {
    if events != [] { NetOfLateEvents(events[1..], t); }
  }

  /** How many of a sorted list's events have happened by `t`; they come first. */
  lemma {:induction false} SplitAt(events: seq<Event>, t: int) returns (k: nat)
    requires Sorted(events)
    ensures k <= |events|
    ensures forall i :: 0 <= i < k ==> events[i].at <= t
    ensures forall i :: k <= i < |events| ==> events[i].at > t
    ensures RunningTotal(events, k) == Net(events, t)
  {
    k := 0;
    while k < |events| && events[k].at <= t
      invariant k <= |events|
      invariant forall i :: 0 <= i < k ==> events[i].at <= t
    {
      k := k + 1;
    }
    forall i | k <= i < |events| ensures events[i].at > t {
      if i > k { assert Before(events[k], events[i]); }
    }
    RunningIsNet(events, k, t);
    NetOfLateEvents(events[k..], t);
    assert events == events[..k] + events[k..];
    NetAppend(events[..k], events[k..], t);
  }

  /** While only acquisitions are added, the running total does not fall, and dually. */
  lemma {:induction false} RunningMoves(events: seq<Event>, j: nat, k: nat)
    requires j <= k <= |events|
    ensures (forall i :: j <= i < k ==> events[i].delta >= 0) ==> RunningTotal(events, j) <= RunningTotal(events, k)
    ensures (forall i :: j <= i < k ==> events[i].delta <= 0) ==> RunningTotal(events, j) >= RunningTotal(events, k)
  {
    if j < k { RunningMoves(events, j, k - 1); }
  }

  /** Every running total is reached, or exceeded, by the true usage at some instant of the window. */
  lemma {:induction false} RunningTotalIsSomewhere(events: seq<Event>, s: int, e: int, k: nat) returns (t: int)
    requires Sorted(events) && s < e && 1 <= k <= |events|
    requires forall v :: v in events ==>
      (if v.acquire then s <= v.at < e && v.delta >= 0 else s < v.at <= e && v.delta <= 0)
    ensures s <= t < e && RunningTotal(events, k) <= Net(events, t)
  {
    var last := events[k - 1];
    assert last in events;
    t := if last.acquire then last.at else last.at - 1;
    var split := SplitAt(events, t);
    if last.acquire {
      assert k <= split;
      forall i | k <= i < split ensures events[i].delta >= 0 {
        assert Before(events[k - 1], events[i]);
        assert events[i] in events;
      }
      RunningMoves(events, k, split);
    } else {
      assert split <= k - 1;
      forall i | split <= i < k ensures events[i].delta <= 0 {
        assert i < k - 1 ==> Before(events[i], events[k - 1]);
        assert events[i] in events;
      }
      RunningMoves(events, split, k);
    }
  }

  lemma {:induction false} MaxRunningIsMax(events: seq<Event>, k: nat)
    requires 1 <= k <= |events|
    ensures forall j :: 1 <= j <= k ==> RunningTotal(events, j) <= MaxRunning(events, k)
    ensures exists j :: 1 <= j <= k && RunningTotal(events, j) == MaxRunning(events, k)
  {
    if k > 1 {
      MaxRunningIsMax(events, k - 1);
      var j :| 1 <= j <= k - 1 && RunningTotal(events, j) == MaxRunning(events, k - 1);
      var best := if MaxRunning(events, k - 1) >= RunningTotal(events, k) then j else k;
      assert RunningTotal(events, best) == MaxRunning(events, k);
    } else {
      assert RunningTotal(events, 1) == MaxRunning(events, 1);
    }
  }

  /**
   * The main result: for any list of the window's events that is sorted with
   * releases first, whatever the order among equal keys, the largest running
   * total is exactly the largest simultaneous usage over the window.
   */
  lemma SweepIsPointwiseMaximum(uses: seq<Use>, s: int, e: int, events: seq<Event>)
    requires s < e && forall u :: u in uses ==> u.from < u.to
    requires Sorted(events) && multiset(events) == multiset(Events(uses, s, e))
    ensures forall t :: s <= t < e ==> InUse(uses, t) <= MaxRunning(events, |events|)
    ensures exists t :: s <= t < e && InUse(uses, t) == MaxRunning(events, |events|)
  {
    EventsAreClipped(uses, s, e);
    forall v | v in events
      ensures if v.acquire then s <= v.at < e && v.delta >= 0 else s < v.at <= e && v.delta <= 0
    {
      assert v in multiset(Events(uses, s, e));
    }
    forall t | s <= t < e ensures InUse(uses, t) <= MaxRunning(events, |events|) {
      UsageIsARunningTotal(uses, s, e, events, t);
    }
    if events == [] {
      UsageIsARunningTotal(uses, s, e, events, s);
      assert InUse(uses, s) == 0;
    } else {
      MaxRunningIsMax(events, |events|);
      var j :| 1 <= j <= |events| && RunningTotal(events, j) == MaxRunning(events, |events|);
      var t := RunningTotalIsSomewhere(events, s, e, j);
      NetIgnoresOrder(events, Events(uses, s, e), t);
      NetOfEventsIsInUse(uses, s, e, t);
      assert InUse(uses, t) == MaxRunning(events, |events|);
    }
  }

  lemma UsageIsARunningTotal(uses: seq<Use>, s: int, e: int, events: seq<Event>, t: int)
    requires forall u :: u in uses ==> u.from < u.to
    requires s <= t < e
    requires Sorted(events) && multiset(events) == multiset(Events(uses, s, e))
    ensures InUse(uses, t) <= MaxRunning(events, |events|)
    ensures events == [] ==> InUse(uses, t) == 0
  {
    NetIgnoresOrder(events, Events(uses, s, e), t);
    NetOfEventsIsInUse(uses, s, e, t);
    var k := SplitAt(events, t);
    if events != [] {
      MaxRunningIsMax(events, |events|);
      if k == 0 {
        // Everything taken is given back, so the last running total is zero.
        EventsBalance(uses, s, e);
        TotalIgnoresOrder(events, Events(uses, s, e));
        assert RunningTotal(events, |events|) == 0;
      }
    }
  }

  function Total(events: seq<Event>): int {
    if events == [] then 0 else events[0].delta + Total(events[1..])
  }

  lemma {:induction false} TotalIsNet(events: seq<Event>, t: int)
    requires forall v :: v in events ==> v.at <= t
    ensures Net(events, t) == Total(events)
  {
    if events != [] { TotalIsNet(events[1..], t); }
  }

  function Latest(events: seq<Event>): (t: int)
    ensures forall v :: v in events ==> v.at <= t
  {
    if events == [] then 0 else Max(events[0].at, Latest(events[1..]))
  }

  lemma TotalIgnoresOrder(a: seq<Event>, b: seq<Event>)
    requires multiset(a) == multiset(b)
    ensures Total(a) == Total(b) == RunningTotal(a, |a|)
  {
    var t := Max(Latest(a), Latest(b));
    TotalIsNet(a, t);
    TotalIsNet(b, t);
    NetIgnoresOrder(a, b, t);
    RunningIsNet(a, |a|, t);
    assert a[..|a|] == a;
  }

  lemma {:induction false} EventsBalance(uses: seq<Use>, s: int, e: int)
    ensures Total(Events(uses, s, e)) == 0
  {
    if uses != [] {
      EventsBalance(uses[1..], s, e);
      var all := Events(uses, s, e);
      if uses[0].from < e && uses[0].to > s {
        assert all[1..][1..] == Events(uses[1..], s, e);
      } else {
        assert all == Events(uses[1..], s, e);
      }
    }
  }

  /** The peak never exceeds the naive sum of everything that touches the window. */
  lemma {:induction false} UsageWithinOverlapSum(uses: seq<Use>, s: int, e: int, t: int)
    requires s <= t < e
    ensures InUse(uses, t) <= OverlapSum(uses, s, e)
  {
    if uses != [] { UsageWithinOverlapSum(uses[1..], s, e, t); }
  }

  /** The computed peak: a maximum over the window, and never above the naive sum. */
  lemma PeakIsExact(uses: seq<Use>, s: int, e: int)
    requires s < e && forall u :: u in uses ==> u.from < u.to
    ensures forall t :: s <= t < e ==> InUse(uses, t) <= Peak(uses, s, e)
    ensures exists t :: s <= t < e && InUse(uses, t) == Peak(uses, s, e)
    ensures 0 <= Peak(uses, s, e) <= OverlapSum(uses, s, e)
  {
    SortSorts(Events(uses, s, e));
    SweepIsPointwiseMaximum(uses, s, e, SortEvents(Events(uses, s, e)));
    var t :| s <= t < e && InUse(uses, t) == Peak(uses, s, e);
    UsageWithinOverlapSum(uses, s, e, t);
  }
}
