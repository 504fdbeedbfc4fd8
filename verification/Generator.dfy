/** The ride-simulation loop of the initial-data generator: a chair walks to the pickup point
    and then to the destination while the ride's statuses are recorded minute by minute. */
module Generator {
  import opened Grid
  import opened RideStatus

  datatype Entry = Entry(status: Status, minute: nat)

  /** Moves to the pickup point; a chair that already stands there still makes one. */
  function ApproachMoves(start: Coord, pickup: Coord, speed: nat): nat
    requires speed > 0
  {
    Max(1, NeededTime(Dist(start, pickup), speed))
  }

  function RideMoves(start: Coord, pickup: Coord, dest: Coord, speed: nat): nat
    requires speed > 0
  {
    ApproachMoves(start, pickup, speed) + NeededTime(Dist(pickup, dest), speed)
  }

  /** After k moves the chair, still on its way to the pickup point, is on the destination. */
  ghost predicate EarlyAt(start: Coord, pickup: Coord, dest: Coord, speed: nat, draws: seq<nat>, k: nat)
    requires speed > 0 && DrawsIn(draws, speed)
  {
    1 <= k < ApproachMoves(start, pickup, speed) && k <= |draws| &&
    Walk(start, pickup, speed, draws[..k]) == dest
  }

  ghost predicate Early(start: Coord, pickup: Coord, dest: Coord, speed: nat, draws: seq<nat>)
    requires speed > 0 && DrawsIn(draws, speed)
  {
    exists k :: EarlyAt(start, pickup, dest, speed, draws, k)
  }

  /** Where the loop's move number k (counted from 1) ends when the walk is not cut short. */
  function PositionAfter(start: Coord, pickup: Coord, dest: Coord, speed: nat, draws: seq<nat>, k: nat): Coord
    requires speed > 0 && DrawsIn(draws, speed) && k <= |draws|
  {
    var n := ApproachMoves(start, pickup, speed);
    if k <= n then Walk(start, pickup, speed, draws[..k])
    else Walk(pickup, dest, speed, draws[n..k])
  }

  lemma WalkStep(c: Coord, target: Coord, step: nat, draws: seq<nat>, a: nat, k: nat)
    requires a <= k < |draws| && DrawsIn(draws, step)
    ensures Walk(c, target, step, draws[a..k + 1]) ==
            Advance(Walk(c, target, step, draws[a..k]), target, step, draws[k])
  {
    assert draws[a..k + 1] == draws[a..k] + [draws[k]];
    WalkConcat(c, target, step, draws[a..k], [draws[k]]);
    var p := Walk(c, target, step, draws[a..k]);
    assert [draws[k]][1..] == [];
    assert Walk(p, target, step, [draws[k]]) == Walk(Advance(p, target, step, draws[k]), target, step, []);
  }

  /** The chair is on the pickup point after `ApproachMoves` moves and, from one to that
      many, not before. */
  lemma ApproachEnds(start: Coord, pickup: Coord, speed: nat, draws: seq<nat>, k: nat)
    requires speed > 0 && DrawsIn(draws, speed) && 1 <= k <= |draws|
    ensures k < ApproachMoves(start, pickup, speed) ==> Walk(start, pickup, speed, draws[..k]) != pickup
    ensures k >= ApproachMoves(start, pickup, speed) ==> Walk(start, pickup, speed, draws[..k]) == pickup
  {
    WalkArrivesExactly(start, pickup, speed, draws[..k]);
  }

  ghost predicate FollowsWalk(start: Coord, pickup: Coord, dest: Coord, speed: nat, draws: seq<nat>,
                              locations: seq<Coord>)
    requires speed > 0 && DrawsIn(draws, speed) && |locations| <= |draws|
  {
    forall k | 1 <= k <= |locations| ::
      locations[k - 1] == PositionAfter(start, pickup, dest, speed, draws, k)
  }

  /** What has been recorded after k moves, none of which ended on the destination. */
  function Recorded(start: Coord, pickup: Coord, speed: nat, k: nat): seq<Entry>
    requires speed > 0
  {
    var n := ApproachMoves(start, pickup, speed);
    [Entry(Matching, 0), Entry(Enroute, 0)] +
    if k < n then [] else [Entry(Pickup, n), Entry(Carrying, n + 1)]
  }

  function TargetAfter(start: Coord, pickup: Coord, dest: Coord, speed: nat, k: nat): Coord
    requires speed > 0
  {
    if k < ApproachMoves(start, pickup, speed) then pickup else dest
  }

  function CurrentAfter(start: Coord, pickup: Coord, dest: Coord, speed: nat, draws: seq<nat>, k: nat): Coord
    requires speed > 0 && DrawsIn(draws, speed) && k <= |draws|
  {
    var n := ApproachMoves(start, pickup, speed);
    if k < n then Walk(start, pickup, speed, draws[..k]) else Walk(pickup, dest, speed, draws[n..k])
  }

  /** The loop ends for all draws within the stated number of moves, on the destination. If
      it is not cut short it visits the pickup point once, records the six statuses in
      order, and takes exactly `RideMoves` moves; if it is, the pickup point is never
      visited and PICKUP and CARRYING are missing. */
  method SimulateRide(start: Coord, pickup: Coord, dest: Coord, speed: nat, draws: seq<nat>)
    returns (locations: seq<Coord>, statuses: seq<Entry>, updatedAt: nat)
    requires speed > 0 && pickup != dest
    requires DrawsIn(draws, speed) && |draws| >= RideMoves(start, pickup, dest, speed)
    ensures 0 < |locations| <= RideMoves(start, pickup, dest, speed)
    ensures locations[|locations| - 1] == dest && dest !in locations[..|locations| - 1]
    ensures forall k | 1 <= k <= |locations| ::
              locations[k - 1] == PositionAfter(start, pickup, dest, speed, draws, k)
    ensures !Early(start, pickup, dest, speed, draws) ==>
              var n, m := ApproachMoves(start, pickup, speed), RideMoves(start, pickup, dest, speed);
              && |locations| == m
              && locations[n - 1] == pickup && pickup !in locations[..n - 1] + locations[n..]
              && statuses == [Entry(Matching, 0), Entry(Enroute, 0), Entry(Pickup, n),
                              Entry(Carrying, n + 1), Entry(Arrived, m + 1), Entry(Completed, m + 2)]
              && updatedAt == m + 2
    ensures Early(start, pickup, dest, speed, draws) ==>
              && |locations| < ApproachMoves(start, pickup, speed) && pickup !in locations
              && statuses == [Entry(Matching, 0), Entry(Enroute, 0),
                              Entry(Arrived, |locations|), Entry(Completed, |locations| + 1)]
              && updatedAt == |locations| + 1
  {
    hide Advance, Dist, NeededTime;
    var current, target, i := start, pickup, 1;
    locations := [];
    statuses := Recorded(start, pickup, speed, 0);
    LegTakesTime(pickup, dest, speed);
    while true
      invariant |locations| < RideMoves(start, pickup, dest, speed)
      invariant FollowsWalk(start, pickup, dest, speed, draws, locations)
      invariant forall j | 1 <= j <= |locations| :: !EarlyAt(start, pickup, dest, speed, draws, j)
      invariant statuses == Recorded(start, pickup, speed, |locations|)
      invariant target == TargetAfter(start, pickup, dest, speed, |locations|)
      invariant current == CurrentAfter(start, pickup, dest, speed, draws, |locations|)
      invariant i == |locations| + if |locations| < ApproachMoves(start, pickup, speed) then 1 else 2
      decreases RideMoves(start, pickup, dest, speed) - |locations|
    {
      var next := MoveToward(current, target, speed, draws[|locations|]);
      MoveFacts(start, pickup, dest, speed, draws, |locations|, next);
      PositionFacts(start, pickup, dest, speed, draws, |locations| + 1);
      locations := locations + [next];
      if next == pickup {
        target := dest;
        statuses := statuses + [Entry(Pickup, i)];
        i := i + 1;
        statuses := statuses + [Entry(Carrying, i)];
      } else if next == dest {
        statuses := statuses + [Entry(Arrived, i)];
        i := i + 1;
        statuses := statuses + [Entry(Completed, i)];
        break;
      }
      current := next;
      i := i + 1;
    }
    updatedAt := i;
    WalkVisits(start, pickup, dest, speed, draws, locations);
  }

  /** Which positions are the pickup point and which are the destination. */
  lemma PositionFacts(start: Coord, pickup: Coord, dest: Coord, speed: nat, draws: seq<nat>, j: nat)
    requires speed > 0 && pickup != dest && DrawsIn(draws, speed)
    requires 1 <= j <= RideMoves(start, pickup, dest, speed) <= |draws|
    ensures var n, m := ApproachMoves(start, pickup, speed), RideMoves(start, pickup, dest, speed);
            var p := PositionAfter(start, pickup, dest, speed, draws, j);
            && n < m
            && (p == pickup <==> j == n)
            && (p == dest <==> EarlyAt(start, pickup, dest, speed, draws, j) || j == m)
  {
    var n := ApproachMoves(start, pickup, speed);
    LegTakesTime(pickup, dest, speed);
    if j <= n {
      ApproachEnds(start, pickup, speed, draws, j);
    } else {
      var leg := draws[n..j];
      WalkArrivesExactly(pickup, dest, speed, leg);
      LeavesOrigin(pickup, dest, speed, leg);
    }
  }

  /** Move number k + 1 ends on position number k + 1. */
  lemma MoveFacts(start: Coord, pickup: Coord, dest: Coord, speed: nat, draws: seq<nat>, k: nat, next: Coord)
    requires speed > 0 && pickup != dest && DrawsIn(draws, speed)
    requires k < RideMoves(start, pickup, dest, speed) <= |draws|
    requires next == Advance(CurrentAfter(start, pickup, dest, speed, draws, k),
                             TargetAfter(start, pickup, dest, speed, k), speed, draws[k])
    ensures next == PositionAfter(start, pickup, dest, speed, draws, k + 1)
    ensures next == CurrentAfter(start, pickup, dest, speed, draws, k + 1)
  {
    var n := ApproachMoves(start, pickup, speed);
    if k < n {
      assert draws[..k] == draws[0..k] && draws[..k + 1] == draws[0..k + 1] && draws[n..n] == [];
      WalkStep(start, pickup, speed, draws, 0, k);
      ApproachEnds(start, pickup, speed, draws, k + 1);
    } else {
      WalkStep(pickup, dest, speed, draws, n, k);
    }
  }

  /** Which points a finished walk visits: the destination at the end and not before, the
      pickup point once, or never when the walk was cut short. */
  lemma WalkVisits(start: Coord, pickup: Coord, dest: Coord, speed: nat, draws: seq<nat>, locations: seq<Coord>)
    requires speed > 0 && pickup != dest && DrawsIn(draws, speed)
    requires 0 < |locations| <= RideMoves(start, pickup, dest, speed) <= |draws|
    requires FollowsWalk(start, pickup, dest, speed, draws, locations)
    requires forall j | 1 <= j < |locations| :: !EarlyAt(start, pickup, dest, speed, draws, j)
    requires EarlyAt(start, pickup, dest, speed, draws, |locations|) ||
             |locations| == RideMoves(start, pickup, dest, speed)
    ensures locations[|locations| - 1] == dest && dest !in locations[..|locations| - 1]
    ensures Early(start, pickup, dest, speed, draws) <==>
            EarlyAt(start, pickup, dest, speed, draws, |locations|)
    ensures Early(start, pickup, dest, speed, draws) ==> pickup !in locations
    ensures !Early(start, pickup, dest, speed, draws) ==>
              var n := ApproachMoves(start, pickup, speed);
              n <= |locations| && locations[n - 1] == pickup && pickup !in locations[..n - 1] + locations[n..]
  {
    var n, last := ApproachMoves(start, pickup, speed), |locations|;
    forall i | 0 <= i < last
      ensures locations[i] == pickup <==> i + 1 == n
      ensures locations[i] == dest <==> i + 1 == last
    {
      PositionFacts(start, pickup, dest, speed, draws, i + 1);
      assert locations[i] == PositionAfter(start, pickup, dest, speed, draws, i + 1);
    }
    if Early(start, pickup, dest, speed, draws) {
      var k: nat :| EarlyAt(start, pickup, dest, speed, draws, k);
      assert k < n;
      PositionFacts(start, pickup, dest, speed, draws, last);
      assert k >= last;
    }
  }

  lemma LegTakesTime(a: Coord, b: Coord, speed: nat)
    requires speed > 0 && a != b
    ensures NeededTime(Dist(a, b), speed) >= 1
  {
    NeededTimeIsLeast(Dist(a, b), speed, 0);
  }

  lemma LeavesOrigin(a: Coord, b: Coord, speed: nat, draws: seq<nat>)
    requires speed > 0 && a != b && DrawsIn(draws, speed) && |draws| >= 1
    ensures Walk(a, b, speed, draws) != a
  {
    WalkExact(a, b, speed, draws);
    MulAtLeast(|draws|, speed);
  }

  // ---- When the loop is cut short ----------------------------------------------------

  /** Some draws make the walk to the pickup point pass through q, if q is in the rectangle
      and a whole number of moves away. */
  lemma {:induction false} ThroughPoint(start: Coord, pickup: Coord, q: Coord, speed: nat, k: nat)
    returns (draws: seq<nat>)
    requires speed > 0 && InRect(q, start, pickup) && Dist(start, q) == k * speed
    ensures |draws| == k && DrawsIn(draws, speed)
    ensures Walk(start, pickup, speed, draws) == q
    decreases k
  {
    hide Dist, InRect, Advance, Abs;
    if k == 0 {
      SamePoint(start, q);
      draws := [];
    } else {
      MulAtLeast(k, speed);
      var draw := Min(speed, Abs(q.x - start.x));
      var next := Advance(start, pickup, speed, draw);
      MoveThrough(start, pickup, q, speed, draw);
      assert (k - 1) * speed == k * speed - speed;
      var rest := ThroughPoint(next, pickup, q, speed, k - 1);
      draws := [draw] + rest;
      assert draws[1..] == rest;
    }
  }

  lemma SamePoint(a: Coord, b: Coord)
    ensures Dist(a, b) == 0 <==> a == b
  {
  }

  lemma MoveThrough(start: Coord, pickup: Coord, q: Coord, speed: nat, draw: nat)
    requires InRect(q, start, pickup) && Dist(start, q) >= speed > 0
    requires draw == Min(speed, Abs(q.x - start.x))
    ensures var next := Advance(start, pickup, speed, draw);
            InRect(q, next, pickup) && Dist(next, q) == Dist(start, q) - speed
  {
    var a, b := Abs(q.x - start.x), Abs(q.y - start.y);
    BetweenIsNearer(start.x, q.x, pickup.x);
    BetweenIsNearer(start.y, q.y, pickup.y);
    SplitIsKept(a, Abs(start.x - pickup.x), b, Abs(start.y - pickup.y), speed, draw);
    TowardBetween(start.x, q.x, pickup.x, draw);
    TowardBetween(start.y, q.y, pickup.y, speed - draw);
  }

  lemma BetweenIsNearer(s: int, q: int, p: int)
    requires Between(s, q, p)
    ensures Abs(q - s) <= Abs(s - p)
  {
  }

  lemma SplitIsKept(a: nat, da: nat, b: nat, db: nat, speed: nat, draw: nat)
    requires a <= da && b <= db && a + b >= speed && draw == Min(speed, a)
    ensures Min(speed - Min(draw, da), db) == speed - draw
    ensures Min(draw, da) == draw
  {
  }

  lemma TowardBetween(s: int, q: int, p: int, n: nat)
    requires Between(s, q, p) && n <= Abs(q - s)
    ensures Between(Toward(s, p, n), q, p) && Abs(Toward(s, p, n) - q) == Abs(q - s) - n
  {
  }

  /** The recorded log is complete for every draw exactly when the destination is not on the
      way to the pickup point a whole number of moves from the start. */
  lemma CompleteForAllDraws(start: Coord, pickup: Coord, dest: Coord, speed: nat)
    requires speed > 0 && pickup != dest
    ensures (forall draws: seq<nat> | DrawsIn(draws, speed) :: !Early(start, pickup, dest, speed, draws)) <==>
            !(InRect(dest, start, pickup) && dest != start && Dist(start, dest) % speed == 0)
  {
    forall draws: seq<nat> | DrawsIn(draws, speed) && Early(start, pickup, dest, speed, draws)
      ensures InRect(dest, start, pickup) && dest != start && Dist(start, dest) % speed == 0
    {
      var k :| EarlyAt(start, pickup, dest, speed, draws, k);
      EarlyNeeds(start, pickup, dest, speed, draws, k);
    }
    if InRect(dest, start, pickup) && dest != start && Dist(start, dest) % speed == 0 {
      var k := Dist(start, dest) / speed;
      assert Dist(start, dest) == k * speed;
      var draws := ThroughPoint(start, pickup, dest, speed, k);
      RectSplit(dest, start, pickup);
      NeededTimeIsLeast(Dist(start, pickup), speed, k);
      assert draws[..k] == draws;
      assert EarlyAt(start, pickup, dest, speed, draws, k);
      assert Early(start, pickup, dest, speed, draws);
    }
  }

  lemma EarlyNeeds(start: Coord, pickup: Coord, dest: Coord, speed: nat, draws: seq<nat>, k: nat)
    requires speed > 0 && pickup != dest && DrawsIn(draws, speed)
    requires EarlyAt(start, pickup, dest, speed, draws, k)
    ensures InRect(dest, start, pickup) && dest != start && Dist(start, dest) % speed == 0
  {
    WalkExact(start, pickup, speed, draws[..k]);
    NeededTimeIsLeast(Dist(start, pickup), speed, k);
    MulAtLeast(k, speed);
    assert Dist(start, dest) == k * speed;
    MultipleHasNoRemainder(k, speed);
  }

  lemma MultipleHasNoRemainder(k: nat, s: nat)
    requires s > 0
    ensures (k * s) % s == 0
  {
    NeededTimeShift(0, s, k);
    NeededTimeIsLeast(k * s, s, k);
    var q, r := k * s / s, k * s % s;
    assert k * s == q * s + r;
    assert (k - q) * s == r;
    if k > q {
      MulAtLeast(k - q, s);
    }
  }
}
