/**
 * The seed generator: how many bookings each room gets, which candidate slots
 * it takes, and why what it writes never double-books a room or oversells a type.
 */
module Seed {
  import opened Wrappers
  import opened ZonedTime
  import opened OperatingHours

  function Sum(s: seq<nat>): nat { if s == [] then 0 else Sum(s[..|s| - 1]) + s[|s| - 1] }

  lemma {:induction false} SumUpdate(s: seq<nat>, i: nat, v: nat)
    requires i < |s|
    ensures Sum(s[i := v]) + s[i] == Sum(s) + v
    decreases |s|
  {
    var n := |s| - 1;
    if i < n {
      SumUpdate(s[..n], i, v);
      assert s[i := v][..n] == s[..n][i := v];
    } else {
      assert s[i := v][..n] == s[..n];
    }
  }

  lemma {:induction false} SumOfZeros(s: seq<nat>)
    requires forall i :: 0 <= i < |s| ==> s[i] == 0
    ensures Sum(s) == 0
    decreases |s|
  {
    if s != [] { SumOfZeros(s[..|s| - 1]); }
  }

  // --- Apportioning -----------------------------------------------------------------------

  predicate WithinCapacity(given: seq<nat>, capacities: seq<nat>) {
    |given| == |capacities| && forall i :: 0 <= i < |given| ==> given[i] <= capacities[i]
  }

  /** The rooms with headroom, in order. */
  function OpenRooms(given: seq<nat>, capacities: seq<nat>, n: nat): seq<nat>
    requires n <= |given| == |capacities|
  {
    if n == 0 then []
    else OpenRooms(given, capacities, n - 1) + if given[n - 1] < capacities[n - 1] then [n - 1] else []
  }

  ghost predicate ListsOpen(rooms: seq<nat>, given: seq<nat>, capacities: seq<nat>, n: nat)
    requires n <= |given| == |capacities|
  {
    && (forall i :: i in rooms <==> 0 <= i < n && given[i] < capacities[i])
    && (forall j, k :: 0 <= j < k < |rooms| ==> rooms[j] != rooms[k])
  }

  lemma {:induction false} OpenRoomsExact(given: seq<nat>, capacities: seq<nat>, n: nat)
    requires n <= |given| == |capacities|
    ensures ListsOpen(OpenRooms(given, capacities, n), given, capacities, n)
  {
    if n > 0 {
      OpenRoomsExact(given, capacities, n - 1);
      var before := OpenRooms(given, capacities, n - 1);
      forall j | 0 <= j < |before| ensures before[j] != n - 1 { assert before[j] in before; }
    }
  }

  function WeightSum(weights: seq<real>, rooms: seq<nat>): real
    requires forall k :: 0 <= k < |rooms| ==> rooms[k] < |weights|
  {
    if rooms == [] then 0.0 else WeightSum(weights, rooms[..|rooms| - 1]) + weights[rooms[|rooms| - 1]]
  }

  /** Everything given out so far, and what is left to give, make up the goal. */
  ghost predicate OnAccount(given: seq<nat>, capacities: seq<nat>, remaining: int, goal: nat) {
    remaining >= 0 && WithinCapacity(given, capacities) && Sum(given) + remaining == goal
  }

  method Give(given: array<nat>, capacities: seq<nat>, i: nat, want: int, remaining: int, ghost goal: nat) returns (left: int)
    requires i < given.Length && want >= 1 && remaining > 0 && OnAccount(given[..], capacities, remaining, goal)
    modifies given
    ensures OnAccount(given[..], capacities, left, goal) && left <= remaining
    ensures given[i] == Min(old(given[i]) + want, Min(capacities[i], old(given[i]) + remaining))
    ensures left == remaining - (given[i] - old(given[i]))
    ensures forall j :: 0 <= j < given.Length && j != i ==> given[j] == old(given[j])
  {
    var give := Min(want, Min(capacities[i] - given[i], remaining));
    ghost var before := given[..];
    given[i] := given[i] + give;
    SumUpdate(before, i, before[i] + give);
    assert given[..] == before[i := before[i] + give];
    left := remaining - give;
  }

  datatype Spare = Spare(room: nat, spare: int)

  function InsertSpare(x: Spare, rest: seq<Spare>): seq<Spare> {
    if rest == [] || x.spare > rest[0].spare then [x] + rest else [rest[0]] + InsertSpare(x, rest[1..])
  }

  /** The open rooms, the roomiest first; equals keep their order. */
  function BySpare(given: seq<nat>, capacities: seq<nat>, rooms: seq<nat>): seq<Spare>
    requires |given| == |capacities| && forall k :: 0 <= k < |rooms| ==> rooms[k] < |given| && given[rooms[k]] < capacities[rooms[k]]
  {
    if rooms == [] then []
    else
      var last := rooms[|rooms| - 1];
      InsertSpare(Spare(last, capacities[last] - given[last]), BySpare(given, capacities, rooms[..|rooms| - 1]))
  }

  ghost predicate Roomiest(spares: seq<Spare>) { forall j, k :: 0 <= j < k < |spares| ==> spares[j].spare >= spares[k].spare }

  ghost predicate Distinct(spares: seq<Spare>) { forall j, k :: 0 <= j < k < |spares| ==> spares[j].room != spares[k].room }

  lemma {:induction false} InsertSpareKeeps(x: Spare, rest: seq<Spare>)
    requires Roomiest(rest) && Distinct(rest) && forall k :: 0 <= k < |rest| ==> rest[k].room != x.room
    ensures Roomiest(InsertSpare(x, rest)) && Distinct(InsertSpare(x, rest))
    ensures forall y :: y in InsertSpare(x, rest) <==> y == x || y in rest
  {
    if rest == [] || x.spare > rest[0].spare {
    } else {
      InsertSpareKeeps(x, rest[1..]);
      var tail := InsertSpare(x, rest[1..]);
      assert forall y :: y in rest <==> y == rest[0] || y in rest[1..];
      forall k | 0 <= k < |tail| ensures tail[k].spare <= rest[0].spare && tail[k].room != rest[0].room { assert tail[k] in tail; }
    }
  }

  /** The rooms listed, each with the headroom it has. */
  ghost predicate Lists(spares: seq<Spare>, given: seq<nat>, capacities: seq<nat>, rooms: seq<nat>)
    requires |given| == |capacities| && forall k :: 0 <= k < |rooms| ==> rooms[k] < |given| && given[rooms[k]] < capacities[rooms[k]]
  {
    forall y :: y in spares <==> y.room in rooms && y.spare == capacities[y.room] - given[y.room]
  }

  lemma {:induction false} BySpareExact(given: seq<nat>, capacities: seq<nat>, rooms: seq<nat>)
    requires |given| == |capacities| && forall k :: 0 <= k < |rooms| ==> rooms[k] < |given| && given[rooms[k]] < capacities[rooms[k]]
    requires forall j, k :: 0 <= j < k < |rooms| ==> rooms[j] != rooms[k]
    ensures var r := BySpare(given, capacities, rooms); Roomiest(r) && Distinct(r) && Lists(r, given, capacities, rooms)
    decreases |rooms|
  {
    if rooms != [] {
      hide Roomiest, Distinct, InsertSpare, BySpare, Lists;
      var n := |rooms| - 1;
      var last := Spare(rooms[n], capacities[rooms[n]] - given[rooms[n]]);
      BySpareExact(given, capacities, rooms[..n]);
      var before := BySpare(given, capacities, rooms[..n]);
      OthersListed(before, given, capacities, rooms);
      InsertSpareKeeps(last, before);
      OneMoreListed(before, given, capacities, rooms);
      BySpareUnrolls(given, capacities, rooms);
    }
  }

  lemma BySpareUnrolls(given: seq<nat>, capacities: seq<nat>, rooms: seq<nat>)
    requires |given| == |capacities| && forall k :: 0 <= k < |rooms| ==> rooms[k] < |given| && given[rooms[k]] < capacities[rooms[k]]
    requires rooms != []
    ensures var n := |rooms| - 1;
            BySpare(given, capacities, rooms)
            == InsertSpare(Spare(rooms[n], capacities[rooms[n]] - given[rooms[n]]), BySpare(given, capacities, rooms[..n]))
  {
  }

  lemma OthersListed(before: seq<Spare>, given: seq<nat>, capacities: seq<nat>, rooms: seq<nat>)
    requires |given| == |capacities| && forall k :: 0 <= k < |rooms| ==> rooms[k] < |given| && given[rooms[k]] < capacities[rooms[k]]
    requires rooms != [] && forall j, k :: 0 <= j < k < |rooms| ==> rooms[j] != rooms[k]
    requires Lists(before, given, capacities, rooms[..|rooms| - 1])
    ensures forall k :: 0 <= k < |before| ==> before[k].room != rooms[|rooms| - 1]
  {
    forall k | 0 <= k < |before| ensures before[k].room != rooms[|rooms| - 1] { assert before[k] in before; }
  }

  lemma OneMoreListed(before: seq<Spare>, given: seq<nat>, capacities: seq<nat>, rooms: seq<nat>)
    requires |given| == |capacities| && forall k :: 0 <= k < |rooms| ==> rooms[k] < |given| && given[rooms[k]] < capacities[rooms[k]]
    requires rooms != [] && Lists(before, given, capacities, rooms[..|rooms| - 1])
    requires var n := |rooms| - 1; var last := Spare(rooms[n], capacities[rooms[n]] - given[rooms[n]]);
             forall y :: y in InsertSpare(last, before) <==> y == last || y in before
    ensures var n := |rooms| - 1;
            Lists(InsertSpare(Spare(rooms[n], capacities[rooms[n]] - given[rooms[n]]), before), given, capacities, rooms)
  {
    hide InsertSpare;
    assert forall i :: i in rooms <==> i in rooms[..|rooms| - 1] || i == rooms[|rooms| - 1];
  }

  /** The weight of all the rooms that can hold anything. */
  function TotalWeight(weights: seq<real>, capacities: seq<nat>, n: nat): real
    requires n <= |weights| == |capacities|
  {
    if n == 0 then 0.0 else TotalWeight(weights, capacities, n - 1) + if capacities[n - 1] > 0 then weights[n - 1] else 0.0
  }

  /** A room's share of the goal, by weight, is at least one booking. */
  predicate WorthOne(goal: int, weight: real, total: real) { goal as real * weight >= total > 0.0 }

  /** At least its share by weight, rounded down. */
  predicate PastShare(given: nat, goal: int, weight: real, total: real) { (given + 1) as real * total > goal as real * weight }

  /** Full, or given its share by weight rounded down. */
  predicate HasItsShare(given: nat, capacity: nat, goal: int, weight: real, total: real) {
    given == capacity || PastShare(given, goal, weight, total)
  }

  lemma {:induction false} OpenWeight(weights: seq<real>, given: seq<nat>, capacities: seq<nat>, n: nat)
    requires n <= |weights| == |given| == |capacities| && forall i :: 0 <= i < |given| ==> given[i] == 0
    ensures forall k :: 0 <= k < |OpenRooms(given, capacities, n)| ==> OpenRooms(given, capacities, n)[k] < n
    ensures WeightSum(weights, OpenRooms(given, capacities, n)) == TotalWeight(weights, capacities, n)
  {
    if n > 0 {
      OpenWeight(weights, given, capacities, n - 1);
      var before := OpenRooms(given, capacities, n - 1);
      assert (before + [n - 1])[..|before|] == before && before + [] == before;
    }
  }

  /** Weights that are not negative only ever add. */
  lemma {:induction false} WeightGrows(weights: seq<real>, rooms: seq<nat>, k: nat)
    requires forall j :: 0 <= j < |rooms| ==> rooms[j] < |weights| && weights[rooms[j]] >= 0.0
    requires k <= |rooms|
    ensures WeightSum(weights, rooms[..k]) <= WeightSum(weights, rooms)
    decreases |rooms|
  {
    if k < |rooms| {
      var n := |rooms| - 1;
      WeightGrows(weights, rooms[..n], k);
      assert rooms[..n][..k] == rooms[..k];
    } else {
      assert rooms[..k] == rooms;
    }
  }

  lemma Scales(a: real, b: real, c: real)
    requires c > 0.0
    ensures a <= b <==> a * c <= b * c
    ensures (b - a) * c == b * c - a * c
  {
  }

  lemma ShareRoundsDown(due: real, total: real, want: int)
    requires 0.0 < total <= due && want == (due / total).Floor
    ensures 1 <= want
    ensures want as real * total <= due < (want + 1) as real * total
  {
    assert due / total * total == due;
    FloorTimes(due, due / total, total, want);
    AtLeastOne(due / total, total);
  }

  lemma AtLeastOne(share: real, total: real)
    requires 0.0 < total <= share * total
    ensures share >= 1.0
  {
  }

  lemma FloorTimes(due: real, share: real, total: real, want: int)
    requires 0.0 < total && share * total == due && want == share.Floor
    ensures want as real * total <= due < (want + 1) as real * total
  {
    var low, high := want as real, (want + 1) as real;
    assert low <= share < high;
    Scales(low, share, total);
    StrictlyScales(share, high, total);
    assert due < high * total;
    assert high * total == (want + 1) as real * total;
  }

  lemma StrictlyScales(a: real, b: real, c: real)
    requires c > 0.0 && a < b
    ensures a * c < b * c
  {
  }

  /** What a room is due, as the round computes it. */
  function Due(goal: nat, weight: real, total: real): int
    requires total > 0.0
  {
    (goal as real * weight / total).Floor
  }

  /** What is left covers a room's share, and what is then left still covers the shares after it. */
  lemma ShareFits(goal: nat, left: int, weight: real, done: real, total: real, want: int, give: int)
    requires goal > 0 && WorthOne(goal, weight, total) && total > 0.0 && done + weight <= total
    requires left as real * total >= goal as real * (total - done)
    requires want == Due(goal, weight, total) && give <= want
    ensures 1 <= want <= left && (want + 1) as real * total > goal as real * weight
    ensures (left - give) as real * total >= goal as real * (total - (done + weight))
  {
    hide WorthOne, Due;
    ShareOf(goal, weight, total, want);
    var due, held := goal as real * weight, left as real * total;
    ShareIsCovered(goal as real, held, weight, total - done);
    Scales(want as real, left as real, total);
    Scales(give as real, want as real, total);
    Scales(give as real, left as real, total);
    assert goal as real * (total - done - weight) == goal as real * (total - (done + weight));
  }

  lemma ShareOf(goal: nat, weight: real, total: real, want: int)
    requires WorthOne(goal, weight, total) && total > 0.0 && want == Due(goal, weight, total)
    ensures 1 <= want
    ensures want as real * total <= goal as real * weight < (want + 1) as real * total
  {
    ShareRoundsDown(goal as real * weight, total, want);
  }

  lemma ShareIsCovered(goal: real, left: real, weight: real, rest: real)
    requires goal > 0.0 && weight <= rest && left >= goal * rest
    ensures left >= goal * weight && left - goal * weight >= goal * (rest - weight)
  {
    assert goal * (rest - weight) == goal * rest - goal * weight;
    assert goal * (rest - weight) >= 0.0;
  }

  /**
   * Exactly the smaller of the total and the platform's whole capacity is given
   * out, no room is given more than it can hold, and, when every room that can
   * hold anything is due at least one by its weight, each is full or has its
   * share by weight, rounded down.
   */
  method Apportion(total: nat, weights: seq<real>, capacities: seq<nat>) returns (given: array<nat>)
    requires |weights| == |capacities|
    ensures fresh(given) && WithinCapacity(given[..], capacities)
    ensures Sum(given[..]) == Min(total, Sum(capacities))
    ensures var goal := Min(total, Sum(capacities)); var all := TotalWeight(weights, capacities, |weights|);
            AllWorthOne(weights, capacities, goal, all) ==> Shared(given[..], capacities, goal, weights, all)
  {
    hide Sum, OpenRooms, WeightSum, TotalWeight, Shared, AllWorthOne, EachWorthOne, EachHasItsShare;
    given := new nat[|weights|](_ => 0);
    ghost var goal: nat := Min(total, Sum(capacities));
    ghost var all := TotalWeight(weights, capacities, |weights|);
    var remaining := Min(total, Sum(capacities));
    SumOfZeros(given[..]);
    var round := 0;
    ghost var shared := false;
    while round < 32 && remaining > 0
      invariant OnAccount(given[..], capacities, remaining, goal)
      invariant !shared ==> round == 0 && remaining == goal && forall i :: 0 <= i < given.Length ==> given[i] == 0
      invariant shared && AllWorthOne(weights, capacities, goal, all) ==> Shared(given[..], capacities, goal, weights, all)
    {
      var openRooms := OpenRooms(given[..], capacities, |weights|);
      OpenRoomsExact(given[..], capacities, |weights|);
      if |openRooms| == 0 { break; }
      assert forall k :: 0 <= k < |openRooms| ==> openRooms[k] in openRooms;
      var weightSum := WeightSum(weights, openRooms);
      if !shared { OpenWeight(weights, given[..], capacities, |weights|); }
      if weightSum <= 0.0 { break; }
      var before := remaining;
      ghost var held := given[..];
      remaining := GiveRound(given, weights, capacities, openRooms, weightSum, remaining, goal);
      if AllWorthOne(weights, capacities, goal, all) {
        if shared { SharedStays(held, given[..], capacities, goal, weights, all); }
        else { FirstRoundShares(held, given[..], capacities, goal, weights, openRooms, all); }
      }
      shared := true;
      if remaining == before { break; }
      round := round + 1;
    }
    ghost var held := given[..];
    if remaining > 0 { SweepSpare(given, capacities, remaining, goal); }
    if AllWorthOne(weights, capacities, goal, all) {
      if shared { SharedStays(held, given[..], capacities, goal, weights, all); }
      else { NothingToShare(held, given[..], capacities, goal, weights); }
    }
  }

  ghost predicate AllWorthOne(weights: seq<real>, capacities: seq<nat>, goal: int, all: real)
    requires |weights| == |capacities|
  {
    forall i :: 0 <= i < |weights| && capacities[i] > 0 ==> WorthOne(goal, weights[i], all)
  }

  ghost predicate Shared(given: seq<nat>, capacities: seq<nat>, goal: int, weights: seq<real>, all: real) {
    && |given| == |capacities| == |weights|
    && forall i :: 0 <= i < |given| ==> HasItsShare(given[i], capacities[i], goal, weights[i], all)
  }

  /** When every room that can hold anything is due one, a round that gives nothing had no such room. */
  lemma NothingToShare(zeros: seq<nat>, given: seq<nat>, capacities: seq<nat>, goal: int, weights: seq<real>)
    requires |zeros| == |given| == |capacities| == |weights| && WithinCapacity(given, capacities)
    requires forall i :: 0 <= i < |zeros| ==> zeros[i] == 0
    requires AllWorthOne(weights, capacities, goal, TotalWeight(weights, capacities, |weights|))
    requires goal == 0 || OpenRooms(zeros, capacities, |zeros|) == [] || TotalWeight(weights, capacities, |weights|) <= 0.0
    ensures Shared(given, capacities, goal, weights, TotalWeight(weights, capacities, |weights|))
  {
    hide OpenRooms, TotalWeight, HasItsShare;
    OpenRoomsExact(zeros, capacities, |zeros|);
    forall i | 0 <= i < |given|
      ensures HasItsShare(given[i], capacities[i], goal, weights[i], TotalWeight(weights, capacities, |weights|))
    {
      assert capacities[i] > 0 ==> WorthOne(goal, weights[i], TotalWeight(weights, capacities, |weights|));
      FullHasItsShare(goal, weights[i], TotalWeight(weights, capacities, |weights|));
    }
  }

  /** Giving a room more never takes its share away. */
  lemma SharedStays(given: seq<nat>, after: seq<nat>, capacities: seq<nat>, goal: int, weights: seq<real>, all: real)
    requires |weights| == |capacities| && AllWorthOne(weights, capacities, goal, all)
    requires Shared(given, capacities, goal, weights, all) && WithinCapacity(after, capacities)
    requires forall i :: 0 <= i < |given| ==> given[i] <= after[i]
    ensures Shared(after, capacities, goal, weights, all)
  {
    hide HasItsShare;
    forall i | 0 <= i < |after| ensures HasItsShare(after[i], capacities[i], goal, weights[i], all) {
      assert capacities[i] > 0 ==> WorthOne(goal, weights[i], all);
      ShareStays(given[i], after[i], capacities[i], goal, weights[i], all);
    }
  }

  lemma ShareStays(given: nat, after: nat, capacity: nat, goal: int, weight: real, all: real)
    requires HasItsShare(given, capacity, goal, weight, all) && given <= after <= capacity
    requires capacity > 0 ==> WorthOne(goal, weight, all)
    ensures HasItsShare(after, capacity, goal, weight, all)
  {
    if given < capacity { Scales((given + 1) as real, (after + 1) as real, all); }
  }

  /** The first round is over every room that can hold anything. */
  lemma FirstRoundShares(zeros: seq<nat>, given: seq<nat>, capacities: seq<nat>, goal: int, weights: seq<real>, rooms: seq<nat>, all: real)
    requires |zeros| == |given| == |capacities| == |weights| && WithinCapacity(given, capacities)
    requires forall i :: 0 <= i < |zeros| ==> zeros[i] == 0
    requires ListsOpen(rooms, zeros, capacities, |zeros|) && AllWorthOne(weights, capacities, goal, all)
    requires EachWorthOne(rooms, goal, weights, all) ==> EachHasItsShare(rooms, given, capacities, goal, weights, all)
    ensures Shared(given, capacities, goal, weights, all)
  {
    hide WorthOne, HasItsShare, EachHasItsShare;
    forall k | 0 <= k < |rooms| ensures rooms[k] < |weights| && capacities[rooms[k]] > 0 { assert rooms[k] in rooms; }
    assert EachWorthOne(rooms, goal, weights, all);
    forall i | 0 <= i < |given| ensures HasItsShare(given[i], capacities[i], goal, weights[i], all) {
      if capacities[i] > 0 {
        assert i in rooms;
        ShareOfListed(rooms, given, capacities, goal, weights, all, i);
      } else {
        FullHasItsShare(goal, weights[i], all);
      }
    }
  }

  lemma ShareOfListed(rooms: seq<nat>, given: seq<nat>, capacities: seq<nat>, goal: int, weights: seq<real>, all: real, i: nat)
    requires |given| == |capacities| == |weights| && i in rooms && i < |given|
    requires EachHasItsShare(rooms, given, capacities, goal, weights, all)
    ensures HasItsShare(given[i], capacities[i], goal, weights[i], all)
  {
    hide HasItsShare;
    var k :| 0 <= k < |rooms| && rooms[k] == i;
  }

  lemma FullHasItsShare(goal: int, weight: real, total: real)
    ensures forall c: nat :: HasItsShare(c, c, goal, weight, total)
  {
  }

  ghost predicate EachWorthOne(rooms: seq<nat>, goal: int, weights: seq<real>, total: real) {
    forall k :: 0 <= k < |rooms| ==> rooms[k] < |weights| && WorthOne(goal, weights[rooms[k]], total)
  }

  ghost predicate EachHasItsShare(rooms: seq<nat>, given: seq<nat>, capacities: seq<nat>, goal: int, weights: seq<real>, total: real)
    requires |given| == |capacities| == |weights|
  {
    forall k :: 0 <= k < |rooms| && rooms[k] < |given|
      ==> HasItsShare(given[rooms[k]], capacities[rooms[k]], goal, weights[rooms[k]], total)
  }

  /** What is left once the first `k` rooms had their turn still covers the shares of the rest. */
  ghost predicate StillCovers(rooms: seq<nat>, k: nat, left: int, goal: int, weights: seq<real>, total: real)
    requires k <= |rooms| && forall j :: 0 <= j < |rooms| ==> rooms[j] < |weights|
  {
    left as real * total >= goal as real * (total - WeightSum(weights, rooms[..k]))
  }

  /**
   * One round: each open room its share of what was left when the round began,
   * at least one. When every share is at least one, there is enough for them all.
   */
  method GiveRound(given: array<nat>, weights: seq<real>, capacities: seq<nat>, openRooms: seq<nat>, weightSum: real,
                   remaining: int, ghost goal: nat)
    returns (left: int)
    requires |weights| == |capacities| == given.Length && weightSum > 0.0 && OnAccount(given[..], capacities, remaining, goal)
    requires forall k :: 0 <= k < |openRooms| ==> openRooms[k] < given.Length
    requires forall j, k :: 0 <= j < k < |openRooms| ==> openRooms[j] != openRooms[k]
    requires weightSum == WeightSum(weights, openRooms) && remaining > 0
    modifies given
    ensures OnAccount(given[..], capacities, left, goal)
    ensures forall i :: 0 <= i < given.Length ==> old(given[i]) <= given[i]
    ensures EachWorthOne(openRooms, remaining, weights, weightSum)
            ==> EachHasItsShare(openRooms, given[..], capacities, remaining, weights, weightSum)
  {
    hide OnAccount, WeightSum, StillCovers, WorthOne, HasItsShare;
    left := remaining;
    ghost var fair := EachWorthOne(openRooms, remaining, weights, weightSum);
    ghost var start := given[..];
    NothingGivenYet(openRooms, remaining, weights, weightSum);
    for k := 0 to |openRooms|
      invariant OnAccount(given[..], capacities, left, goal)
      invariant forall i :: 0 <= i < given.Length ==> start[i] <= given[i]
      invariant fair ==> StillCovers(openRooms, k, left, remaining, weights, weightSum)
      invariant fair ==> EachHasItsShare(openRooms[..k], given[..], capacities, remaining, weights, weightSum)
    {
      if fair { EnoughIsLeft(openRooms, k, left, remaining, weights, weightSum, 0); }
      if left <= 0 { break; }
      var i := openRooms[k];
      var want := Max(1, Due(remaining, weights[i], weightSum));
      ghost var before, had := given[..], left;
      left := Give(given, capacities, i, want, left, goal);
      if fair {
        assert given[..] == before[i := before[i] + (had - left)];
        TurnTaken(openRooms, k, before, given[..], capacities, had, had - left, remaining, weights, weightSum);
      }
    }
    assert !fair || openRooms[..|openRooms|] == openRooms;
  }

  lemma NothingGivenYet(rooms: seq<nat>, goal: int, weights: seq<real>, total: real)
    requires forall j :: 0 <= j < |rooms| ==> rooms[j] < |weights|
    ensures StillCovers(rooms, 0, goal, goal, weights, total)
  {
  }

  /** The weight of the rooms so far and of the next is within the weight of all. */
  lemma NextWeight(rooms: seq<nat>, k: nat, goal: int, weights: seq<real>, total: real)
    requires EachWorthOne(rooms, goal, weights, total) && goal > 0 && k < |rooms| && total == WeightSum(weights, rooms)
    ensures WeightSum(weights, rooms[..k + 1]) == WeightSum(weights, rooms[..k]) + weights[rooms[k]] <= total
  {
    forall j | 0 <= j < |rooms| ensures weights[rooms[j]] >= 0.0 {
      assert WorthOne(goal, weights[rooms[j]], total);
    }
    WeightGrows(weights, rooms, k + 1);
    assert rooms[..k + 1][..k] == rooms[..k];
  }

  lemma EnoughIsLeft(rooms: seq<nat>, k: nat, had: int, goal: nat, weights: seq<real>, total: real, give: int)
    requires EachWorthOne(rooms, goal, weights, total) && goal > 0 && k < |rooms| && total == WeightSum(weights, rooms)
    requires StillCovers(rooms, k, had, goal, weights, total) && total > 0.0
    ensures 1 <= Due(goal, weights[rooms[k]], total) <= had
    ensures PastShare(Due(goal, weights[rooms[k]], total), goal, weights[rooms[k]], total)
    ensures give <= Due(goal, weights[rooms[k]], total) ==> StillCovers(rooms, k + 1, had - give, goal, weights, total)
  {
    hide WeightSum, WorthOne, Due;
    NextWeight(rooms, k, goal, weights, total);
    var weight, done := weights[rooms[k]], WeightSum(weights, rooms[..k]);
    assert WorthOne(goal, weight, total);
    var want := Due(goal, weight, total);
    ShareFits(goal, had, weight, done, total, want, if give <= want then give else want);
  }

  lemma TurnTaken(rooms: seq<nat>, k: nat, before: seq<nat>, given: seq<nat>, capacities: seq<nat>,
                  had: int, give: nat, goal: nat, weights: seq<real>, total: real)
    requires EachWorthOne(rooms, goal, weights, total) && goal > 0 && k < |rooms| && total == WeightSum(weights, rooms)
    requires StillCovers(rooms, k, had, goal, weights, total) && total > 0.0
    requires |before| == |capacities| == |weights| && rooms[k] < |before| && before[rooms[k]] <= capacities[rooms[k]]
    requires forall j :: 0 <= j < k ==> rooms[j] != rooms[k]
    requires give == Min(Max(1, Due(goal, weights[rooms[k]], total)), Min(capacities[rooms[k]] - before[rooms[k]], had))
    requires given == before[rooms[k] := before[rooms[k]] + give]
    requires EachHasItsShare(rooms[..k], before, capacities, goal, weights, total)
    ensures StillCovers(rooms, k + 1, had - give, goal, weights, total)
    ensures EachHasItsShare(rooms[..k + 1], given, capacities, goal, weights, total)
  {
    hide WeightSum, WorthOne, Due, StillCovers, HasItsShare, EachWorthOne, EachHasItsShare, PastShare;
    EnoughIsLeft(rooms, k, had, goal, weights, total, give);
    RoomHasItsShare(before[rooms[k]], capacities[rooms[k]], Due(goal, weights[rooms[k]], total), goal, weights[rooms[k]], total, give);
    OneMoreHasItsShare(rooms, k, before, given, capacities, goal, weights, total);
  }

  lemma OneMoreHasItsShare(rooms: seq<nat>, k: nat, before: seq<nat>, given: seq<nat>, capacities: seq<nat>,
                           goal: int, weights: seq<real>, total: real)
    requires k < |rooms| && |before| == |given| == |capacities| == |weights| && rooms[k] < |given|
    requires given == before[rooms[k] := given[rooms[k]]] && forall j :: 0 <= j < k ==> rooms[j] != rooms[k]
    requires EachHasItsShare(rooms[..k], before, capacities, goal, weights, total)
    requires HasItsShare(given[rooms[k]], capacities[rooms[k]], goal, weights[rooms[k]], total)
    ensures EachHasItsShare(rooms[..k + 1], given, capacities, goal, weights, total)
  {
    hide HasItsShare;
    forall j | 0 <= j < k && rooms[j] < |given|
      ensures HasItsShare(given[rooms[j]], capacities[rooms[j]], goal, weights[rooms[j]], total)
    {
      assert rooms[..k][j] == rooms[j];
    }
  }

  lemma RoomHasItsShare(had: nat, capacity: nat, want: nat, goal: int, weight: real, total: real, give: nat)
    requires total > 0.0 && PastShare(want, goal, weight, total)
    requires had <= capacity && give == Min(want, capacity - had)
    ensures HasItsShare(had + give, capacity, goal, weight, total)
  {
    MoreThanItsShare(had, want, goal as real * weight, total);
  }

  lemma MoreThanItsShare(had: nat, want: nat, due: real, total: real)
    requires total > 0.0 && (want + 1) as real * total > due
    ensures (had + want + 1) as real * total > due
  {
    Scales((want + 1) as real, (had + want + 1) as real, total);
  }

  /** Every open room once, with all the headroom it has, the roomiest first. */
  ghost predicate ListsSpare(spares: seq<Spare>, given: seq<nat>, capacities: seq<nat>)
    requires WithinCapacity(given, capacities)
  {
    && Roomiest(spares) && Distinct(spares)
    && (forall k :: 0 <= k < |spares| ==> spares[k].room < |given|
                                          && spares[k].spare == capacities[spares[k].room] - given[spares[k].room] > 0)
    && (forall i :: 0 <= i < |given| && given[i] < capacities[i] ==> exists k :: 0 <= k < |spares| && spares[k].room == i)
  }

  method ListSpare(given: seq<nat>, capacities: seq<nat>) returns (spares: seq<Spare>)
    requires WithinCapacity(given, capacities)
    ensures ListsSpare(spares, given, capacities)
  {
    hide OpenRooms, BySpare;
    var openRooms := OpenRooms(given, capacities, |given|);
    OpenRoomsExact(given, capacities, |given|);
    assert forall k :: 0 <= k < |openRooms| ==> openRooms[k] in openRooms;
    spares := BySpare(given, capacities, openRooms);
    BySpareExact(given, capacities, openRooms);
    assert forall k :: 0 <= k < |spares| ==> spares[k] in spares;
    forall i | 0 <= i < |given| && given[i] < capacities[i] ensures exists k :: 0 <= k < |spares| && spares[k].room == i {
      assert Spare(i, capacities[i] - given[i]) in spares;
    }
  }

  /** What rounding left over goes to the roomiest rooms: all of it, because it fits. */
  method SweepSpare(given: array<nat>, capacities: seq<nat>, remaining: int, ghost goal: nat)
    requires remaining > 0 && OnAccount(given[..], capacities, remaining, goal) && goal <= Sum(capacities)
    modifies given
    ensures WithinCapacity(given[..], capacities) && Sum(given[..]) == goal
    ensures forall i :: 0 <= i < given.Length ==> old(given[i]) <= given[i]
  {
    hide Sum, Roomiest;
    ghost var start := given[..];
    var spares := ListSpare(given[..], capacities);
    var left := remaining;
    for k := 0 to |spares|
      invariant OnAccount(given[..], capacities, left, goal)
      invariant forall i :: 0 <= i < given.Length ==> start[i] <= given[i]
      invariant forall j :: k <= j < |spares| ==> given[spares[j].room] == start[spares[j].room]
      invariant left > 0 ==> forall j :: 0 <= j < k ==> given[spares[j].room] == capacities[spares[j].room]
      invariant forall i :: 0 <= i < given.Length && start[i] == capacities[i] ==> given[i] == capacities[i]
    {
      if left <= 0 { break; }
      left := Give(given, capacities, spares[k].room, spares[k].spare, left, goal);
    }
    ghost var end := given[..];
    assert left > 0 ==> end == capacities;
  }

  // --- Striding --------------------------------------------------------------------------------

  /** Candidate `i` is taken when the running share reaches a new whole number. */
  predicate Take(i: nat, want: nat, capacity: nat)
    requires capacity > 0
  {
    (i + 1) * want / capacity > i * want / capacity
  }

  /** How many of the `n` candidates from `start` on are taken. */
  function Taken(start: nat, n: nat, want: nat, capacity: nat): nat
    requires capacity > 0
  {
    if n == 0 then 0 else Taken(start, n - 1, want, capacity) + if Take(start + n - 1, want, capacity) then 1 else 0
  }

  lemma DivStep(x: nat, want: nat, capacity: nat)
    requires want <= capacity && capacity > 0
    ensures x / capacity <= (x + want) / capacity <= x / capacity + 1
  {
    var q, r := x / capacity, x % capacity;
    assert x == q * capacity + r;
    DivOf(x + want, capacity, if r + want >= capacity then q + 1 else q, if r + want >= capacity then r + want - capacity else r + want);
  }

  lemma DivOf(x: nat, d: nat, q: nat, r: nat)
    requires d > 0 && r < d && x == q * d + r
    ensures x / d == q && x % d == r
  {
    FloorBounds(x, d);
    Distribute(q, x / d, d);
    if q > x / d { AtLeast(q - x / d, d); }
    if q < x / d {
      Distribute(x / d, q, d);
      AtLeast(x / d - q, d);
    }
  }

  lemma FloorBounds(x: nat, d: nat)
    requires d > 0
    ensures x / d * d <= x < x / d * d + d
    ensures x % d == x - x / d * d
  {
  }

  lemma Distribute(a: int, b: int, d: nat)
    ensures (a - b) * d == a * d - b * d
  {
  }

  lemma AtLeast(k: int, d: nat)
    requires k >= 1
    ensures k * d >= d
  {
  }

  /** Any run of candidates: what is taken is the difference of the two running shares. */
  lemma {:induction false} TakenTelescopes(start: nat, n: nat, want: nat, capacity: nat)
    requires want <= capacity && capacity > 0
    ensures Taken(start, n, want, capacity) == (start + n) * want / capacity - start * want / capacity
  {
    if n > 0 {
      TakenTelescopes(start, n - 1, want, capacity);
      var i := start + n - 1;
      assert (i + 1) * want == i * want + want;
      DivStep(i * want, want, capacity);
    }
  }

  /** Over the whole calendar the stride takes exactly the target. */
  lemma StrideIsExact(want: nat, capacity: nat)
    requires want <= capacity && capacity > 0
    ensures Taken(0, capacity, want, capacity) == want
  {
    TakenTelescopes(0, capacity, want, capacity);
    DivOf(capacity * want, capacity, want, 0);
    assert 0 * want / capacity == 0;
  }

  /** And evenly: any run of `n` candidates is within one booking of its fair share. */
  lemma StrideIsEven(start: nat, n: nat, want: nat, capacity: nat)
    requires want <= capacity && capacity > 0
    ensures n * want < Taken(start, n, want, capacity) * capacity + capacity
    ensures Taken(start, n, want, capacity) * capacity < n * want + capacity
  {
    hide Taken;
    TakenTelescopes(start, n, want, capacity);
    Spread(start, n, want);
    FairShare(Taken(start, n, want, capacity), start * want, (start + n) * want, n * want, capacity);
  }

  lemma Spread(a: nat, b: nat, d: nat)
    ensures (a + b) * d == a * d + b * d
  {
  }

  lemma FairShare(taken: nat, a: nat, b: nat, share: nat, d: nat)
    requires d > 0 && taken == b / d - a / d && b == a + share
    ensures share < taken * d + d && taken * d < share + d
  {
    FloorsApart(a, b, d);
  }

  /** Two floors differ by the difference of what was floored, to within one. */
  lemma FloorsApart(a: nat, b: nat, d: nat)
    requires d > 0
    ensures b - a - d < (b / d - a / d) * d < b - a + d
  {
    FloorBounds(a, d);
    FloorBounds(b, d);
    Distribute(b / d, a / d, d);
  }

  // --- Candidate slots -----------------------------------------------------------------------------

  datatype Slot = Slot(startsAt: int, endsAt: int)

  /** A draw of the geometry generator: one to four hours, in half hours. */
  type Draw = d: int | 2 <= d <= 8 witness 2

  const GAP: int := 900_000

  const GUARD_LIMIT: nat := 4_000_000

  datatype Opening = Opening(opensAt: int, closesAt: int)

  /** The seeded calendar keeps whole hours: the first two digits of a clock. */
  function HourOf(text: string): int {
    if |text| >= 2 && Digit(text[0]) && Digit(text[1]) then DigitValue(text[0]) * 10 + DigitValue(text[1]) else 0
  }

  function OpeningOf(hours: Hours, zone: Zone, day: int): Option<Opening>
    requires ValidHours(hours)
  {
    match hours.days[Weekday(day)]
    case None => None
    case Some(spec) => Some(Opening(LocalInstant(zone, day, HourOf(spec.open), 0), LocalInstant(zone, day, HourOf(spec.close) % 24, 0)))
  }

  function NextLocalMorning(zone: Zone, instant: int): int {
    LocalInstant(zone, LocalDay(zone, AddMinutes(instant, 720)) + 1, 0, 0)
  }

  datatype RoomCalendar = RoomCalendar(opening: int -> Option<Opening>, dayOf: int -> int, morning: int -> int)

  function CalendarFor(hours: Hours, zone: Zone): RoomCalendar
    requires ValidHours(hours)
  {
    RoomCalendar(day => OpeningOf(hours, zone, day), t => LocalDay(zone, t), t => NextLocalMorning(zone, t))
  }

  /** Where the cursor stands once it has cleared the day's opening. */
  function Entered(o: Opening, cursor: int): int { Max(cursor, o.opensAt) }

  function SlotAt(o: Opening, cursor: int, draw: Draw): Slot {
    Slot(Entered(o, cursor), Entered(o, cursor) + draw * 30 * MINUTE)
  }

  /** The candidates from `cursor` on, drawing from the generator at `k`. */
  function Candidates(c: RoomCalendar, cursor: int, rangeEnd: int, draws: nat -> Draw, k: nat, guard: nat): seq<Slot>
    decreases guard, k
  {
    if guard == 0 || cursor >= rangeEnd then []
    else
      match c.opening(c.dayOf(cursor))
      case None => Candidates(c, c.morning(cursor), rangeEnd, draws, k, guard - 1)
      case Some(o) =>
        if Entered(o, cursor) >= o.closesAt then Candidates(c, c.morning(Entered(o, cursor)), rangeEnd, draws, k, guard - 1)
        else
          var slot := SlotAt(o, cursor, draws(k));
          if slot.endsAt > o.closesAt then Candidates(c, c.morning(slot.startsAt), rangeEnd, draws, k + 1, guard - 1)
          else [slot] + Candidates(c, slot.endsAt + GAP, rangeEnd, draws, k + 1, guard - 1)
  }

  /** Where the generator is: its cursor, the next draw, and how many turns it has left. */
  datatype Position = Position(cursor: int, k: nat, turns: nat)

  function Rest(c: RoomCalendar, rangeEnd: int, draws: nat -> Draw, at: Position): seq<Slot> {
    Candidates(c, at.cursor, rangeEnd, draws, at.k, at.turns)
  }

  /** The generator's walk to its next slot: the cursor only moves forward, whether a slot is taken or not. */
  method NextSlot(c: RoomCalendar, rangeEnd: int, draws: nat -> Draw, at: Position) returns (slot: Option<Slot>, next: Position)
    ensures slot.None? ==> Rest(c, rangeEnd, draws, at) == []
    ensures slot.Some? ==> Rest(c, rangeEnd, draws, at) == [slot.value] + Rest(c, rangeEnd, draws, next) && next.turns < at.turns
  {
    var cursor, k, guard := at.cursor, at.k, at.turns;
    while cursor < rangeEnd && guard > 0
      invariant 0 <= guard <= at.turns && k >= 0
      invariant Rest(c, rangeEnd, draws, at) == Candidates(c, cursor, rangeEnd, draws, k, guard)
      decreases guard
    {
      guard := guard - 1;
      var opening := c.opening(c.dayOf(cursor));
      if opening.None? {
        cursor := c.morning(cursor);
        continue;
      }
      if cursor < opening.value.opensAt { cursor := opening.value.opensAt; }
      if cursor >= opening.value.closesAt {
        cursor := c.morning(cursor);
        continue;
      }
      var endsAt := cursor + draws(k) * 30 * MINUTE;
      k := k + 1;
      if endsAt > opening.value.closesAt {
        cursor := c.morning(cursor);
        continue;
      }
      return Some(Slot(cursor, endsAt)), Position(endsAt + GAP, k, guard);
    }
    return None, Position(cursor, k, guard);
  }

  /** Every slot the generator yields, in order. */
  method CandidateSlots(c: RoomCalendar, rangeStart: int, rangeEnd: int, draws: nat -> Draw, limit: nat) returns (slots: seq<Slot>)
    ensures slots == Candidates(c, rangeStart, rangeEnd, draws, 0, limit)
  {
    hide Candidates;
    slots := [];
    var at := Position(rangeStart, 0, limit);
    var more := true;
    while more
      invariant slots + (if more then Rest(c, rangeEnd, draws, at) else []) == Candidates(c, rangeStart, rangeEnd, draws, 0, limit)
      decreases more, at.turns
    {
      var slot;
      slot, at := NextSlot(c, rangeEnd, draws, at);
      if slot.Some? { slots := slots + [slot.value]; } else { more := false; }
    }
  }

  /** Draw every slot and keep only the count. */
  method CountRoomSlots(c: RoomCalendar, rangeStart: int, rangeEnd: int, draws: nat -> Draw) returns (count: nat)
    ensures count == |Candidates(c, rangeStart, rangeEnd, draws, 0, GUARD_LIMIT)|
  {
    hide Candidates;
    count := 0;
    var at := Position(rangeStart, 0, GUARD_LIMIT);
    var more := true;
    while more
      invariant count + (if more then |Rest(c, rangeEnd, draws, at)| else 0) == |Candidates(c, rangeStart, rangeEnd, draws, 0, GUARD_LIMIT)|
      decreases more, at.turns
    {
      var slot;
      slot, at := NextSlot(c, rangeEnd, draws, at);
      if slot.Some? { count := count + 1; } else { more := false; }
    }
  }

  /** Each slot starts at least the turnaround after every earlier one ends. */
  ghost predicate Spaced(slots: seq<Slot>) {
    && (forall i :: 0 <= i < |slots| ==> slots[i].startsAt < slots[i].endsAt)
    && (forall i, j :: 0 <= i < j < |slots| ==> slots[i].endsAt + GAP <= slots[j].startsAt)
  }

  ghost predicate MorningsAdvance(c: RoomCalendar) { forall t :: c.morning(t) >= t }

  ghost predicate NotBefore(slots: seq<Slot>, from: int) { forall i :: 0 <= i < |slots| ==> slots[i].startsAt >= from }

  /** Inside one day's opening. */
  ghost predicate InOpening(c: RoomCalendar, slot: Slot) {
    exists day :: InOpeningOf(c.opening(day), slot) && StartsOn(c, day, slot)
  }

  /** The slot starts on the day whose opening it is in, or at that very opening. */
  predicate StartsOn(c: RoomCalendar, day: int, slot: Slot) {
    c.dayOf(slot.startsAt) == day || (c.opening(day).Some? && slot.startsAt == c.opening(day).value.opensAt)
  }

  predicate InOpeningOf(o: Option<Opening>, slot: Slot) {
    o.Some? && o.value.opensAt <= slot.startsAt && slot.endsAt <= o.value.closesAt
  }

  ghost predicate AllInOpening(c: RoomCalendar, slots: seq<Slot>) { forall i :: 0 <= i < |slots| ==> InOpening(c, slots[i]) }

  ghost predicate ApartAndOpen(c: RoomCalendar, slots: seq<Slot>, from: int) {
    Spaced(slots) && NotBefore(slots, from) && AllInOpening(c, slots)
  }

  lemma PrependSlot(c: RoomCalendar, slot: Slot, rest: seq<Slot>, from: int)
    requires ApartAndOpen(c, rest, slot.endsAt + GAP) && from <= slot.startsAt < slot.endsAt && InOpening(c, slot)
    ensures ApartAndOpen(c, [slot] + rest, from)
  {
    hide InOpening;
  }

  lemma StartEarlier(c: RoomCalendar, slots: seq<Slot>, later: int, from: int)
    requires ApartAndOpen(c, slots, later) && from <= later
    ensures ApartAndOpen(c, slots, from)
  {
  }

  /**
   * Whatever is drawn: no two candidates of a room come closer than the
   * turnaround, none is before the walk's start, each is inside one day's opening.
   */
  lemma {:induction false} CandidatesAreApartAndOpen(c: RoomCalendar, cursor: int, rangeEnd: int, draws: nat -> Draw, k: nat, guard: nat)
    requires MorningsAdvance(c)
    ensures ApartAndOpen(c, Candidates(c, cursor, rangeEnd, draws, k, guard), cursor)
    decreases guard, 1
  {
    hide ApartAndOpen;
    if guard == 0 || cursor >= rangeEnd {
      NoSlots(c, cursor);
    } else if c.opening(c.dayOf(cursor)).None? {
      MorningKeeps(c, cursor, cursor, rangeEnd, draws, k, guard);
    } else {
      var o := c.opening(c.dayOf(cursor)).value;
      var slot := SlotAt(o, cursor, draws(k));
      if Entered(o, cursor) >= o.closesAt {
        MorningKeeps(c, cursor, Entered(o, cursor), rangeEnd, draws, k, guard);
      } else if slot.endsAt > o.closesAt {
        MorningKeeps(c, cursor, slot.startsAt, rangeEnd, draws, k + 1, guard);
      } else {
        CandidatesAreApartAndOpen(c, slot.endsAt + GAP, rangeEnd, draws, k + 1, guard - 1);
        OpenOn(c, c.dayOf(cursor), slot);
        PrependSlot(c, slot, Candidates(c, slot.endsAt + GAP, rangeEnd, draws, k + 1, guard - 1), cursor);
      }
    }
  }

  lemma OpenOn(c: RoomCalendar, day: int, slot: Slot)
    requires InOpeningOf(c.opening(day), slot) && StartsOn(c, day, slot)
    ensures InOpening(c, slot)
  {
  }

  lemma NoSlots(c: RoomCalendar, from: int)
    ensures ApartAndOpen(c, [], from)
  {
  }

  lemma MorningKeeps(c: RoomCalendar, cursor: int, at: int, rangeEnd: int, draws: nat -> Draw, k: nat, guard: nat)
    requires MorningsAdvance(c) && cursor <= at && guard > 0
    ensures ApartAndOpen(c, Candidates(c, c.morning(at), rangeEnd, draws, k, guard - 1), cursor)
    decreases guard, 0
  {
    hide ApartAndOpen;
    CandidatesAreApartAndOpen(c, c.morning(at), rangeEnd, draws, k, guard - 1);
    StartEarlier(c, Candidates(c, c.morning(at), rangeEnd, draws, k, guard - 1), c.morning(at), cursor);
  }

  // --- How the calendar is filled ----------------------------------------------------------------------

  /** At this instant, or at the opening of some day, or at some day's first instant. */
  ghost predicate StartsFrom(c: RoomCalendar, cursor: int, at: int) {
    || at == cursor
    || (exists day :: c.opening(day).Some? && at == c.opening(day).value.opensAt)
    || (exists t :: at == c.morning(t))
  }

  /** One to four hours, in half hours. */
  predicate IsASession(slot: Slot) {
    3_600_000 <= slot.endsAt - slot.startsAt <= 14_400_000 && (slot.endsAt - slot.startsAt) % 1_800_000 == 0
  }

  /** A session, and not before its turn: the first from `from` on, each other fifteen minutes after the last. */
  ghost predicate PackedAt(c: RoomCalendar, slots: seq<Slot>, from: int, i: nat)
    requires i < |slots|
  {
    IsASession(slots[i]) && StartsFrom(c, if i == 0 then from else slots[i - 1].endsAt + 900_000, slots[i].startsAt)
  }

  /** Each candidate follows the last by fifteen minutes to the millisecond, unless it begins a day. */
  ghost predicate Packed(c: RoomCalendar, slots: seq<Slot>, from: int) {
    forall i :: 0 <= i < |slots| ==> PackedAt(c, slots, from, i)
  }

  lemma FirstOfTheDay(c: RoomCalendar, t: int, slots: seq<Slot>, from: int)
    requires Packed(c, slots, c.morning(t))
    ensures Packed(c, slots, from)
  {
    forall i | 0 <= i < |slots| ensures PackedAt(c, slots, from, i) { assert PackedAt(c, slots, c.morning(t), i); }
  }

  lemma OneMorePacked(c: RoomCalendar, slot: Slot, rest: seq<Slot>, from: int)
    requires IsASession(slot) && StartsFrom(c, from, slot.startsAt) && Packed(c, rest, slot.endsAt + 900_000)
    ensures Packed(c, [slot] + rest, from)
  {
    hide StartsFrom, IsASession;
    var all := [slot] + rest;
    forall i | 0 <= i < |all| ensures PackedAt(c, all, from, i) {
      if i > 0 { assert PackedAt(c, rest, slot.endsAt + 900_000, i - 1); }
    }
  }

  lemma SessionsBegin(c: RoomCalendar, o: Opening, day: int, cursor: int, draw: Draw)
    requires c.opening(day) == Some(o)
    ensures IsASession(SlotAt(o, cursor, draw)) && StartsFrom(c, cursor, SlotAt(o, cursor, draw).startsAt)
  {
  }

  /** Whatever is drawn, on any calendar, the candidates leave nothing between two sessions of a day but the turnaround. */
  lemma {:induction false} CandidatesArePacked(c: RoomCalendar, cursor: int, rangeEnd: int, draws: nat -> Draw, k: nat, guard: nat)
    ensures Packed(c, Candidates(c, cursor, rangeEnd, draws, k, guard), cursor)
    decreases guard
  {
    hide Packed, SlotAt;
    NothingIsPacked(c, cursor);
    if guard > 0 && cursor < rangeEnd {
      match c.opening(c.dayOf(cursor)) {
        case None =>
          CandidatesArePacked(c, c.morning(cursor), rangeEnd, draws, k, guard - 1);
          FirstOfTheDay(c, cursor, Candidates(c, c.morning(cursor), rangeEnd, draws, k, guard - 1), cursor);
        case Some(o) =>
          var slot := SlotAt(o, cursor, draws(k));
          var entered := Entered(o, cursor);
          if entered >= o.closesAt {
            CandidatesArePacked(c, c.morning(entered), rangeEnd, draws, k, guard - 1);
            FirstOfTheDay(c, entered, Candidates(c, c.morning(entered), rangeEnd, draws, k, guard - 1), cursor);
          } else if slot.endsAt > o.closesAt {
            CandidatesArePacked(c, c.morning(slot.startsAt), rangeEnd, draws, k + 1, guard - 1);
            FirstOfTheDay(c, slot.startsAt, Candidates(c, c.morning(slot.startsAt), rangeEnd, draws, k + 1, guard - 1), cursor);
          } else {
            CandidatesArePacked(c, slot.endsAt + GAP, rangeEnd, draws, k + 1, guard - 1);
            SessionsBegin(c, o, c.dayOf(cursor), cursor, draws(k));
            OneMorePacked(c, slot, Candidates(c, slot.endsAt + GAP, rangeEnd, draws, k + 1, guard - 1), cursor);
          }
      }
    }
  }

  lemma NothingIsPacked(c: RoomCalendar, from: int)
    ensures Packed(c, [], from)
  {
  }

  // --- Opening hours ---------------------------------------------------------------------------------

  /** Doors open on the hour; the seed drops the minutes of both clocks. */
  predicate OpensOnTheHour(hours: Hours) {
    OpensBeforeMidnight(hours)
    && forall d :: 0 <= d < 7 && hours.days[d].Some? ==> ParseClock(hours.days[d].value.open).value % 60 == 0
  }

  lemma HourOfClock(text: string)
    requires ParseClock(text).Some?
    ensures HourOf(text) == ParseClock(text).value / 60 && 0 <= HourOf(text) <= 24
  {
  }

  /**
   * In a zone of one offset the seed opens a day at the hour of its posted
   * opening and closes it at the hour of its posted closing, minutes dropped,
   * midnight read as the day's own; a day with no hours is not opened.
   */
  lemma OpeningSpelledOut(hours: Hours, zone: Zone, offset: int, day: int, open: nat, close: nat)
    requires ValidHours(hours) && FixedOffset(zone, offset) && open <= 1440 && close <= 1440
    ensures hours.days[(day + 4) % 7].None? ==> OpeningOf(hours, zone, day).None?
    ensures hours.days[(day + 4) % 7] == Some(DayHours(ShowClock(open), ShowClock(close))) ==>
              OpeningOf(hours, zone, day) == Some(Opening(
                day * 86_400_000 + open / 60 * 3_600_000 - offset,
                day * 86_400_000 + (if close < 1440 then close / 60 else 0) * 3_600_000 - offset))
  {
    hide ParseClock, ShowClock, HourOf;
    ClocksReadBack(ShowClock(open), open);
    ClocksReadBack(ShowClock(close), close);
    HourOfClock(ShowClock(open));
    HourOfClock(ShowClock(close));
    FixedInstant(zone, offset, day, open / 60, 0);
    FixedInstant(zone, offset, day, if close < 1440 then close / 60 else 0, 0);
  }

  /** The seed's opening is never wider than the window the API will check. */
  lemma OpeningWithinWindow(hours: Hours, zone: Zone, offset: int, day: int, slot: Slot)
    requires OpensOnTheHour(hours) && FixedOffset(zone, offset) && slot.startsAt < slot.endsAt
    requires InOpeningOf(OpeningOf(hours, zone, day), slot)
    ensures Inside(WindowForLocalDate(hours, zone, day), slot.startsAt, slot.endsAt)
  {
    var spec := hours.days[Weekday(day)].value;
    var open, close := ParseClock(spec.open).value, ParseClock(spec.close).value;
    hide ParseClock, HourOf, WindowOf, LocalInstant, NextLocalDay;
    HourOfClock(spec.open);
    HourOfClock(spec.close);
    FixedInstant(zone, offset, day, HourOf(spec.open), 0);
    FixedInstant(zone, offset, day, HourOf(spec.close) % 24, 0);
    FixedWindow(zone, offset, day, open, close);
    assert OpeningOf(hours, zone, day) == Some(Opening(
      day * DAY + open / 60 * 60 * MINUTE - offset, day * DAY + close / 60 % 24 * 60 * MINUTE - offset));
    DroppedMinutes(open, close);
  }

  lemma DroppedMinutes(open: nat, close: nat)
    requires open % 60 == 0 && close <= 1440
    ensures open / 60 * 60 == open
    ensures close / 60 % 24 * 60 <= if close <= open then close + 1440 else close
  {
  }

  lemma FixedMorning(hours: Hours, zone: Zone, offset: int, instant: int)
    requires ValidHours(hours) && FixedOffset(zone, offset)
    ensures instant < NextLocalMorning(zone, instant) <= instant + 12 * 60 * MINUTE + DAY
  {
    FixedInstant(zone, offset, LocalDay(zone, AddMinutes(instant, 720)) + 1, 0, 0);
  }

  /**
   * It means to reach the next local day's midnight, and does so exactly in the
   * first half of the local day; after local noon it passes over a whole day.
   */
  lemma NextMorningSkipsADayAfterNoon(zone: Zone, offset: int, instant: int)
    requires FixedOffset(zone, offset)
    ensures NextLocalMorning(zone, instant) == LocalInstant(zone, LocalDay(zone, instant) + 1, 0, 0)
            <==> Reading(zone, instant) % DAY < 12 * 60 * MINUTE
    ensures Reading(zone, instant) % DAY >= 12 * 60 * MINUTE
            ==> NextLocalMorning(zone, instant) == LocalInstant(zone, LocalDay(zone, instant) + 2, 0, 0)
  {
    hide LocalInstant;
    FixedInstant(zone, offset, LocalDay(zone, AddMinutes(instant, 720)) + 1, 0, 0);
    FixedInstant(zone, offset, LocalDay(zone, instant) + 1, 0, 0);
    FixedInstant(zone, offset, LocalDay(zone, instant) + 2, 0, 0);
  }

  /** Every seeded slot of a fixed-offset venue is inside its opening hours, by the API's own test. */
  lemma SeededSlotsAreInHours(
      hours: Hours, zone: Zone, offset: int, rangeStart: int, rangeEnd: int, draws: nat -> Draw, guard: nat)
    requires OpensOnTheHour(hours) && FixedOffset(zone, offset)
    ensures var slots := Candidates(CalendarFor(hours, zone), rangeStart, rangeEnd, draws, 0, guard);
            && Spaced(slots)
            && forall i :: 0 <= i < |slots| ==> IsWithinOperatingHours(hours, zone, slots[i].startsAt, slots[i].endsAt)
  {
    hide IsWithinOperatingHours, ParseClock, Candidates;
    var c := CalendarFor(hours, zone);
    forall t ensures c.morning(t) >= t { FixedMorning(hours, zone, offset, t); }
    CandidatesAreApartAndOpen(c, rangeStart, rangeEnd, draws, 0, guard);
    var slots := Candidates(c, rangeStart, rangeEnd, draws, 0, guard);
    forall i | 0 <= i < |slots| ensures IsWithinOperatingHours(hours, zone, slots[i].startsAt, slots[i].endsAt) {
      assert InOpening(c, slots[i]);
      OpenSlotIsInHours(hours, zone, offset, slots[i]);
    }
  }

  lemma OpenSlotIsInHours(hours: Hours, zone: Zone, offset: int, slot: Slot)
    requires OpensOnTheHour(hours) && FixedOffset(zone, offset) && slot.startsAt < slot.endsAt
    requires InOpening(CalendarFor(hours, zone), slot)
    ensures IsWithinOperatingHours(hours, zone, slot.startsAt, slot.endsAt)
  {
    var c := CalendarFor(hours, zone);
    var day :| InOpeningOf(c.opening(day), slot) && StartsOn(c, day, slot);
    OpeningWithinWindow(hours, zone, offset, day, slot);
    TwoDaysSuffice(hours, zone, offset, slot.startsAt, slot.endsAt);
  }

  // --- Across a change of the clocks -----------------------------------------------------------------

  predicate ShiftWithin(before: int, after: int, bound: int) { -bound <= after - before <= bound }

  /** A venue's mornings advance whenever its clocks change by at most half a day, whatever its offsets. */
  lemma TransitionMorning(zone: Zone, switch: int, before: int, after: int, instant: int)
    requires OneTransition(zone, switch, before, after) && ShiftWithin(before, after, 720 * MINUTE)
    ensures NextLocalMorning(zone, instant) > instant
  {
    hide FromLocal;
    ThreeCorrections(zone, switch, before, after, (LocalDay(zone, AddMinutes(instant, 720)) + 1) * DAY);
  }

  lemma TransitionMorningsAdvance(hours: Hours, zone: Zone, switch: int, before: int, after: int)
    requires ValidHours(hours) && OneTransition(zone, switch, before, after) && ShiftWithin(before, after, 720 * MINUTE)
    ensures MorningsAdvance(CalendarFor(hours, zone))
  {
    hide NextLocalMorning;
    forall t ensures CalendarFor(hours, zone).morning(t) >= t { TransitionMorning(zone, switch, before, after, t); }
  }

  /** Both doors on the hour, closing later the same day, opening at least `shift` from either midnight. */
  predicate SeedHours(hours: Hours, shift: int) {
    ValidHours(hours)
    && forall d :: 0 <= d < 7 && hours.days[d].Some? ==> SeedDay(hours.days[d].value, shift)
  }

  predicate SeedDay(spec: DayHours, shift: int) {
    ParseClock(spec.open).Some? && ParseClock(spec.close).Some?
    && var open, close := ParseClock(spec.open).value, ParseClock(spec.close).value;
       open % 60 == 0 && close % 60 == 0 && open < close < 1440 && shift <= open * MINUTE && open * MINUTE + shift < DAY
  }

  /** In any zone at all: a slot inside the seed's opening is inside the window the API will check. */
  lemma OpeningIsTheWindow(hours: Hours, zone: Zone, shift: int, day: int, slot: Slot)
    requires SeedHours(hours, shift) && slot.startsAt < slot.endsAt && InOpeningOf(OpeningOf(hours, zone, day), slot)
    ensures Inside(WindowForLocalDate(hours, zone, day), slot.startsAt, slot.endsAt)
  {
    var spec := hours.days[Weekday(day)].value;
    assert SeedDay(spec, shift);
    HourOfClock(spec.open);
    HourOfClock(spec.close);
    hide LocalInstant, NextLocalDay, ParseClock, HourOf;
  }

  /** The opening itself falls on its own local day, even if the clocks change on it. */
  lemma OpensOnItsDay(hours: Hours, zone: Zone, switch: int, before: int, after: int, shift: int, day: int)
    requires SeedHours(hours, shift) && OneTransition(zone, switch, before, after) && ShiftWithin(before, after, shift)
    requires OpeningOf(hours, zone, day).Some?
    ensures LocalDay(zone, OpeningOf(hours, zone, day).value.opensAt) == day
  {
    var spec := hours.days[Weekday(day)].value;
    assert SeedDay(spec, shift);
    HourOfClock(spec.open);
    hide FromLocal, ParseClock, HourOf;
    ThreeCorrections(zone, switch, before, after, day * DAY + (HourOf(spec.open) * 60 + 0) * MINUTE);
  }

  lemma TransitionSlotIsInHours(hours: Hours, zone: Zone, switch: int, before: int, after: int, shift: int, slot: Slot)
    requires SeedHours(hours, shift) && OneTransition(zone, switch, before, after) && ShiftWithin(before, after, shift)
    requires slot.startsAt < slot.endsAt && InOpening(CalendarFor(hours, zone), slot)
    ensures IsWithinOperatingHours(hours, zone, slot.startsAt, slot.endsAt)
  {
    hide OpeningOf, WindowForLocalDate, SeedDay;
    var c := CalendarFor(hours, zone);
    var day :| InOpeningOf(c.opening(day), slot) && StartsOn(c, day, slot);
    OpensOnItsDay(hours, zone, switch, before, after, shift, day);
    OpeningIsTheWindow(hours, zone, shift, day, slot);
  }

  /**
   * A venue whose clocks change once: its seeded slots are apart and inside its
   * opening hours by the API's own test, those on the day of the change included.
   */
  lemma SeededSlotsAreInHoursAcrossATransition(
      hours: Hours, zone: Zone, switch: int, before: int, after: int, shift: int,
      rangeStart: int, rangeEnd: int, draws: nat -> Draw, guard: nat)
    requires SeedHours(hours, shift) && OneTransition(zone, switch, before, after)
    requires ShiftWithin(before, after, shift) && shift <= 720 * MINUTE
    ensures var slots := Candidates(CalendarFor(hours, zone), rangeStart, rangeEnd, draws, 0, guard);
            && Spaced(slots)
            && forall i :: 0 <= i < |slots| ==> IsWithinOperatingHours(hours, zone, slots[i].startsAt, slots[i].endsAt)
  {
    hide IsWithinOperatingHours, Candidates, SeedDay, OneTransition, MorningsAdvance;
    var c := CalendarFor(hours, zone);
    TransitionMorningsAdvance(hours, zone, switch, before, after);
    CandidatesAreApartAndOpen(c, rangeStart, rangeEnd, draws, 0, guard);
    var slots := Candidates(c, rangeStart, rangeEnd, draws, 0, guard);
    forall i | 0 <= i < |slots| ensures IsWithinOperatingHours(hours, zone, slots[i].startsAt, slots[i].endsAt) {
      assert InOpening(c, slots[i]);
      TransitionSlotIsInHours(hours, zone, switch, before, after, shift, slots[i]);
    }
  }

  // --- One room's bookings --------------------------------------------------------------------------------

  /** `equipment` is the index of the type attached, one unit of it. */
  datatype Draft = Draft(slot: Slot, equipment: Option<nat>)

  /** A room's one type, by its place in the venue. */
  function AssignedType(indexInVenue: nat, types: nat): Option<nat> {
    if types > 0 then Some(indexInVenue % types) else None
  }

  /** The drafts taken from the first `n` candidates; `attach` draws once for each one emitted. */
  function Emitted(slots: seq<Slot>, n: nat, want: nat, capacity: nat, ownType: Option<nat>, attach: nat -> bool): seq<Draft>
    requires capacity > 0 && n <= |slots|
  {
    if n == 0 then []
    else
      var before := Emitted(slots, n - 1, want, capacity, ownType, attach);
      if Take(n - 1, want, capacity)
      then before + [Draft(slots[n - 1], if ownType.Some? && attach(|before|) then ownType else None)]
      else before
  }

  lemma {:induction false} EmittedCount(slots: seq<Slot>, n: nat, want: nat, capacity: nat, ownType: Option<nat>, attach: nat -> bool)
    requires capacity > 0 && n <= |slots|
    ensures |Emitted(slots, n, want, capacity, ownType, attach)| == Taken(0, n, want, capacity)
  {
    if n > 0 { EmittedCount(slots, n - 1, want, capacity, ownType, attach); }
  }

  lemma {:induction false} TakenGrows(n: nat, m: nat, want: nat, capacity: nat)
    requires n <= m && capacity > 0
    ensures Taken(0, n, want, capacity) <= Taken(0, m, want, capacity)
  {
    if n < m { TakenGrows(n, m - 1, want, capacity); }
  }

  /** Stride over the candidates; with the counted capacity it emits exactly the target. */
  method WalkRoomCalendar(c: RoomCalendar, rangeStart: int, rangeEnd: int, target: int, capacity: nat, draws: nat -> Draw,
                          indexInVenue: nat, types: nat, attach: nat -> bool)
    returns (drafts: seq<Draft>)
    requires capacity == |Candidates(c, rangeStart, rangeEnd, draws, 0, GUARD_LIMIT)|
    ensures target <= 0 || capacity == 0 ==> drafts == []
    ensures target > 0 ==> |drafts| == Min(target, capacity)
    ensures target > 0 && capacity > 0 ==>
              drafts == Emitted(Candidates(c, rangeStart, rangeEnd, draws, 0, GUARD_LIMIT), capacity, Min(target, capacity), capacity,
                                AssignedType(indexInVenue, types), attach)
  {
    hide Candidates, Take;
    drafts := [];
    if target <= 0 || capacity == 0 { return; }
    var ownType := AssignedType(indexInVenue, types);
    var want: nat := Min(target, capacity);
    var slots := CandidateSlots(c, rangeStart, rangeEnd, draws, GUARD_LIMIT);
    StrideIsExact(want, capacity);
    for index := 0 to |slots|
      invariant drafts == Emitted(slots, index, want, capacity, ownType, attach)
    {
      EmittedCount(slots, index, want, capacity, ownType, attach);
      TakenGrows(index + 1, capacity, want, capacity);
      if Take(index, want, capacity) {
        if |drafts| >= want { break; }
        drafts := drafts + [Draft(slots[index], if ownType.Some? && attach(|drafts|) then ownType else None)];
      }
    }
    EmittedCount(slots, |slots|, want, capacity, ownType, attach);
  }

  // --- Equipment never oversells -------------------------------------------------------------------------------

  predicate Uses(d: Draft, e: nat, t: int) { d.equipment == Some(e) && d.slot.startsAt <= t < d.slot.endsAt }

  function UsageIn(drafts: seq<Draft>, e: nat, t: int): nat {
    if drafts == [] then 0 else UsageIn(drafts[..|drafts| - 1], e, t) + if Uses(drafts[|drafts| - 1], e, t) then 1 else 0
  }

  function VenueUsage(rooms: seq<seq<Draft>>, e: nat, t: int): nat {
    if rooms == [] then 0 else VenueUsage(rooms[..|rooms| - 1], e, t) + UsageIn(rooms[|rooms| - 1], e, t)
  }

  /** A room's drafts are apart, and carry its own type or none. */
  ghost predicate RoomDrafts(drafts: seq<Draft>, ownType: Option<nat>) {
    && (forall i :: 0 <= i < |drafts| ==> drafts[i].slot.startsAt < drafts[i].slot.endsAt && drafts[i].equipment in {None, ownType})
    && (forall i, j :: 0 <= i < j < |drafts| ==> drafts[i].slot.endsAt + GAP <= drafts[j].slot.startsAt)
  }

  /** What is emitted is some of the candidates, in their order. */
  lemma {:induction false} EmittedIsRoomDrafts(
      slots: seq<Slot>, n: nat, want: nat, capacity: nat, ownType: Option<nat>, attach: nat -> bool)
    requires capacity > 0 && n <= |slots| && Spaced(slots)
    ensures var r := Emitted(slots, n, want, capacity, ownType, attach);
            RoomDrafts(r, ownType) && forall i :: 0 <= i < |r| ==> exists k :: 0 <= k < n && r[i].slot == slots[k]
  {
    hide Take;
    if n > 0 { EmittedIsRoomDrafts(slots, n - 1, want, capacity, ownType, attach); }
  }

  /** At any instant a room uses at most one unit, and only of its own type. */
  lemma {:induction false} RoomUsesAtMostOne(drafts: seq<Draft>, ownType: Option<nat>, e: nat, t: int)
    requires RoomDrafts(drafts, ownType)
    ensures UsageIn(drafts, e, t) <= if ownType == Some(e) then 1 else 0
    ensures drafts != [] && t >= drafts[|drafts| - 1].slot.endsAt ==> UsageIn(drafts, e, t) == 0
    decreases |drafts|
  {
    if drafts != [] {
      var n := |drafts| - 1;
      RoomUsesAtMostOne(drafts[..n], ownType, e, t);
    }
  }

  /** How many of the first `n` rooms map to type `e`. */
  function RoomsOn(n: nat, types: nat, e: nat): nat
    requires types > 0
  {
    if n == 0 then 0 else RoomsOn(n - 1, types, e) + if (n - 1) % types == e then 1 else 0
  }

  lemma {:induction false} RoomsOnExact(n: nat, types: nat, e: nat)
    requires types > 0 && e < types
    ensures RoomsOn(n, types, e) == n / types + if n % types > e then 1 else 0
  {
    if n == 0 {
      DivOf(0, types, 0, 0);
    } else {
      RoomsOnExact(n - 1, types, e);
      var q, r := (n - 1) / types, (n - 1) % types;
      FloorBounds(n - 1, types);
      if r + 1 == types {
        Distribute(q + 1, 1, types);
        DivOf(n, types, q + 1, 0);
      } else {
        DivOf(n, types, q, r + 1);
      }
    }
  }

  /** One room's drafts after another, each room's type by its place in the venue. */
  ghost predicate VenueDrafts(rooms: seq<seq<Draft>>, types: nat) {
    forall r :: 0 <= r < |rooms| ==> RoomDrafts(rooms[r], AssignedType(r, types))
  }

  lemma {:induction false} VenueUsesItsRooms(rooms: seq<seq<Draft>>, types: nat, e: nat, t: int)
    requires types > 0 && VenueDrafts(rooms, types)
    ensures VenueUsage(rooms, e, t) <= RoomsOn(|rooms|, types, e)
    decreases |rooms|
  {
    if rooms != [] {
      var n := |rooms| - 1;
      VenueUsesItsRooms(rooms[..n], types, e, t);
      RoomUsesAtMostOne(rooms[n], AssignedType(n, types), e, t);
    }
  }

  /** At no instant does a venue use more of a type than its rooms shared out over its types, rounded up. */
  lemma SeedNeverOversells(rooms: seq<seq<Draft>>, types: nat, e: nat, t: int)
    requires types > 0 && e < types && VenueDrafts(rooms, types)
    ensures VenueUsage(rooms, e, t) <= (|rooms| + types - 1) / types
  {
    VenueUsesItsRooms(rooms, types, e, t);
    var n := |rooms|;
    RoomsOnExact(n, types, e);
    FloorBounds(n, types);
    if n % types == 0 {
      DivOf(n + types - 1, types, n / types, types - 1);
    } else {
      Distribute(n / types + 1, 1, types);
      DivOf(n + types - 1, types, n / types + 1, n % types - 1);
    }
  }

  /** What decides one room's bookings: its draws, its target and its equipment draws. */
  datatype Plan = Plan(draws: nat -> Draw, target: nat, attach: nat -> bool)

  /** What `WalkRoomCalendar` returns for the room at one index of its venue. */
  function DraftsOf(c: RoomCalendar, rangeStart: int, rangeEnd: int, plan: Plan, index: nat, types: nat): seq<Draft> {
    var slots := Candidates(c, rangeStart, rangeEnd, plan.draws, 0, GUARD_LIMIT);
    if slots == [] || plan.target == 0 then []
    else Emitted(slots, |slots|, Min(plan.target, |slots|), |slots|, AssignedType(index, types), plan.attach)
  }

  lemma {:induction false} EmittedAttach(slots: seq<Slot>, n: nat, want: nat, capacity: nat, ownType: Option<nat>, attach: nat -> bool, k: nat)
    requires capacity > 0 && n <= |slots| && k < |Emitted(slots, n, want, capacity, ownType, attach)|
    ensures Emitted(slots, n, want, capacity, ownType, attach)[k].equipment == if attach(k) then ownType else None
  {
    if k < |Emitted(slots, n - 1, want, capacity, ownType, attach)| { EmittedAttach(slots, n - 1, want, capacity, ownType, attach, k); }
  }

  /** The rooms of a venue take its types in turn, and a booking has its room's type exactly when its draw says so. */
  lemma TypesTakeTurns(c: RoomCalendar, rangeStart: int, rangeEnd: int, plan: Plan, index: nat, types: nat, k: nat)
    requires k < |DraftsOf(c, rangeStart, rangeEnd, plan, index, types)|
    ensures DraftsOf(c, rangeStart, rangeEnd, plan, index, types)[k].equipment
            == if types > 0 && plan.attach(k) then Some(index % types) else None
  {
    hide Candidates, Emitted;
    var slots := Candidates(c, rangeStart, rangeEnd, plan.draws, 0, GUARD_LIMIT);
    EmittedAttach(slots, |slots|, Min(plan.target, |slots|), |slots|, AssignedType(index, types), plan.attach, k);
  }

  lemma PlannedRoomIsApart(c: RoomCalendar, rangeStart: int, rangeEnd: int, plan: Plan, index: nat, types: nat)
    requires MorningsAdvance(c)
    ensures RoomDrafts(DraftsOf(c, rangeStart, rangeEnd, plan, index, types), AssignedType(index, types))
  {
    hide Candidates, Emitted;
    CandidatesAreApartAndOpen(c, rangeStart, rangeEnd, plan.draws, 0, GUARD_LIMIT);
    var slots := Candidates(c, rangeStart, rangeEnd, plan.draws, 0, GUARD_LIMIT);
    if slots != [] && plan.target > 0 {
      EmittedIsRoomDrafts(slots, |slots|, Min(plan.target, |slots|), |slots|, AssignedType(index, types), plan.attach);
    }
  }

  /**
   * Whatever was drawn, whatever the targets: a seeded venue's rooms never
   * double-book within the turnaround, and at no instant does the venue use
   * more of a type than its rooms shared over its types, rounded up.
   */
  lemma SeededVenueIsSafe(
      c: RoomCalendar, rangeStart: int, rangeEnd: int, plans: seq<Plan>, types: nat, rooms: seq<seq<Draft>>, e: nat, t: int)
    requires MorningsAdvance(c) && types > 0 && e < types && |rooms| == |plans|
    requires forall r :: 0 <= r < |plans| ==> rooms[r] == DraftsOf(c, rangeStart, rangeEnd, plans[r], r, types)
    ensures VenueDrafts(rooms, types)
    ensures VenueUsage(rooms, e, t) <= (|rooms| + types - 1) / types
  {
    hide DraftsOf;
    forall r | 0 <= r < |rooms| ensures RoomDrafts(rooms[r], AssignedType(r, types)) {
      PlannedRoomIsApart(c, rangeStart, rangeEnd, plans[r], r, types);
    }
    SeedNeverOversells(rooms, types, e, t);
  }
}
