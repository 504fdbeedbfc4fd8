/** One leg of a chair's trip: the straight walk to the pickup point or to the destination,
    or the walk by way of a detour point that ends with one step in the wrong direction. */
module Detour {
  import opened Grid
  import opened Wrappers

  // ---- Choosing the detour point -----------------------------------------------------

  /** Half of the whole ticks that the straight leg takes. */
  function HalfTicks(start: Coord, dest: Coord, speed: nat): nat
    requires speed > 0
  {
    Dist(start, dest) / speed / 2
  }

  predicate AxisAligned(start: Coord, dest: Coord) {
    start.x == dest.x || start.y == dest.y
  }

  /** The detour point: half the leg's ticks away, split between the axes by the draw. On
      an axis-aligned leg it is the starting point itself. */
  function DetourPoint(start: Coord, dest: Coord, speed: nat, draw: nat): Coord
    requires speed > 0 && draw <= HalfTicks(start, dest, speed) * speed
  {
    if AxisAligned(start, dest) then start
    else Coord(Toward(start.x, dest.x, draw),
               Toward(start.y, dest.y, HalfTicks(start, dest, speed) * speed - draw))
  }

  method CalculateRandomDetourPoint(start: Coord, dest: Coord, speed: nat, draw: nat) returns (p: Coord)
    requires speed > 0 && draw <= HalfTicks(start, dest, speed) * speed
    ensures p == DetourPoint(start, dest, speed, draw)
    ensures start.x == dest.x || start.y == dest.y ==> p == start
    ensures start.x != dest.x && start.y != dest.y ==>
              && p.x == (if start.x < dest.x then start.x + draw else start.x - draw)
              && Abs(p.y - start.y) == Dist(start, dest) / speed / 2 * speed - draw
              && (start.y < dest.y ==> p.y >= start.y) && (start.y > dest.y ==> p.y <= start.y)
  {
    var halfT := Dist(start, dest) / speed / 2;
    var move := halfT * speed;
    var moveX, moveY := draw, move - draw;
    if start.x == dest.x {
      moveX, moveY := move, 0;
    } else if start.y == dest.y {
      moveX, moveY := 0, move;
    }
    var x, y := start.x, start.y;
    if start.x < dest.x {
      x := x + moveX;
    } else if start.x > dest.x {
      x := x - moveX;
    }
    if start.y < dest.y {
      y := y + moveY;
    } else if start.y > dest.y {
      y := y - moveY;
    }
    p := Coord(x, y);
  }

  /** Ticks the chair walks before it stands on the detour point. */
  function DetourTicks(start: Coord, dest: Coord, speed: nat): nat
    requires speed > 0
  {
    if AxisAligned(start, dest) then 0 else HalfTicks(start, dest, speed)
  }

  /** How far p lies outside the rectangle spanned by the leg. */
  function Overshoot(p: Coord, start: Coord, dest: Coord): nat {
    OutOfRange(start.x, p.x, dest.x) + OutOfRange(start.y, p.y, dest.y)
  }

  function OutOfRange(a: int, n: int, b: int): nat {
    var lo, hi := Min(a, b), Max(a, b);
    if n < lo then lo - n else if n > hi then n - hi else 0
  }

  lemma HalfTicksBound(start: Coord, dest: Coord, speed: nat)
    requires speed > 0
    ensures 2 * (HalfTicks(start, dest, speed) * speed) <= Dist(start, dest)
  {
    hide Dist;
    var d := Dist(start, dest);
    var h := HalfTicks(start, dest, speed);
    QuotientFits(d, speed);
    TimesMonotone(2 * h, d / speed, speed);
    TwiceTimes(h, speed);
  }

  lemma QuotientFits(d: nat, s: nat)
    requires s > 0
    ensures d / s * s <= d
  {
    QuotientAndRest(d, s);
  }

  lemma TimesMonotone(a: int, b: int, c: nat)
    requires a <= b
    ensures a * c <= b * c
  {
  }

  lemma TwiceTimes(h: int, s: int)
    ensures (2 * h) * s == 2 * (h * s)
  {
  }

  /** The point lies a whole number of ticks from the start, strictly nearer to it than the
      destination is; what remains is the rest of the leg plus twice the overshoot. */
  lemma DetourPointDistances(start: Coord, dest: Coord, speed: nat, draw: nat)
    requires speed > 0 && draw <= HalfTicks(start, dest, speed) * speed
    ensures var p, h := DetourPoint(start, dest, speed, draw), DetourTicks(start, dest, speed);
            && Dist(start, p) == h * speed
            && 2 * (h * speed) <= Dist(start, dest)
            && Dist(p, dest) + h * speed == Dist(start, dest) + 2 * Overshoot(p, start, dest)
  {
    HalfTicksBound(start, dest, speed);
    if AxisAligned(start, dest) {
      assert 0 * speed == 0;
    } else {
      AxisSplit(start.x, dest.x, draw);
      AxisSplit(start.y, dest.y, HalfTicks(start, dest, speed) * speed - draw);
    }
  }

  lemma AxisSplit(a: int, b: int, n: nat)
    requires a != b
    ensures Abs(a - Toward(a, b, n)) == n
    ensures Abs(Toward(a, b, n) - b) + n == Abs(a - b) + 2 * OutOfRange(a, Toward(a, b, n), b)
  {
  }

  // ---- Stepping away -----------------------------------------------------------------

  /** `moveOppositeTo`: one full step away from the target, along an axis on which the two
      differ; the coin decides when both do. A chair standing on the target stays. */
  function Retreat(c: Coord, target: Coord, speed: nat, coin: bool): (to: Coord)
    ensures c != target ==> Dist(to, target) == Dist(c, target) + speed && Dist(c, to) == speed
    ensures c == target ==> to == c
  {
    if c.x != target.x && (c.y == target.y || coin) then
      Coord(if c.x < target.x then c.x - speed else c.x + speed, c.y)
    else if c.y != target.y then
      Coord(c.x, if c.y < target.y then c.y - speed else c.y + speed)
    else c
  }

  // ---- One tick of a leg -------------------------------------------------------------

  /** What stays fixed during a leg. The detour point is present when this is the leg on
      which the chair takes its detour. */
  datatype Route = Route(target: Coord, speed: nat, detour: Option<Coord>, coin: bool)

  datatype Leg = Leg(pos: Coord, detoured: bool)

  function LegStep(l: Leg, r: Route, draw: nat): Leg
    requires draw <= r.speed
  {
    if r.detour.Some? && !l.detoured then
      if l.pos == r.detour.value then Leg(Retreat(l.pos, r.target, r.speed, r.coin), true)
      else Leg(Advance(l.pos, r.detour.value, r.speed, draw), false)
    else Leg(Advance(l.pos, r.target, r.speed, draw), l.detoured)
  }

  datatype LegKind = ToPickup | ToDestination

  /** The fields of a chair that a leg reads and writes. */
  class Chair {
    const speed: nat
    var current: Coord
    var detour: bool
    var detoured: bool
    var detourPoint: Coord
    var detourIn: LegKind

    constructor (speed: nat, initial: Coord)
      ensures this.speed == speed && current == initial && !detour && !detoured
    {
      this.speed := speed;
      current, detourPoint := initial, initial;
      detour, detoured, detourIn := false, false, ToPickup;
    }

    ghost function RouteTo(target: Coord, kind: LegKind, coin: bool): Route
      reads this
    {
      Route(target, speed, if detour && detourIn == kind then Some(detourPoint) else None, coin)
    }

    ghost function State(): Leg
      reads this
    {
      Leg(current, detoured)
    }

    /** Taking on a ride: one draw decides whether and on which leg to take a detour. */
    method PlanDetour(pickup: Coord, dest: Coord, wanted: bool, kind: LegKind, draw: nat)
      requires speed > 0
      requires kind.ToPickup? ==> draw <= HalfTicks(current, pickup, speed) * speed
      requires kind.ToDestination? ==> draw <= HalfTicks(pickup, dest, speed) * speed
      modifies this
      ensures current == old(current) && detour == wanted && !detoured
      ensures wanted && kind.ToPickup? ==>
                detourIn == kind && detourPoint == DetourPoint(old(current), pickup, speed, draw)
      ensures wanted && kind.ToDestination? ==>
                detourIn == kind && detourPoint == DetourPoint(pickup, dest, speed, draw)
      ensures !wanted ==> detourIn == old(detourIn) && detourPoint == old(detourPoint)
    {
      detour, detoured := wanted, false;
      if detour {
        detourIn := kind;
        if kind.ToPickup? {
          detourPoint := CalculateRandomDetourPoint(current, pickup, speed, draw);
        } else {
          detourPoint := CalculateRandomDetourPoint(pickup, dest, speed, draw);
        }
      }
    }

    method MoveOppositeTo(target: Coord, coin: bool) returns (to: Coord)
      ensures to == Retreat(current, target, speed, coin)
      ensures to.x != current.x ==> current.x != target.x && (coin || current.y == target.y)
      ensures to.y != current.y ==> current.y != target.y && (!coin || current.x == target.x)
    {
      to := current;
      var moveX, moveY := 0, 0;
      if target.x == current.x {
        moveY := speed;
      } else if target.y == current.y {
        moveX := speed;
      } else if coin {
        moveX := speed;
      } else {
        moveY := speed;
      }
      if current.x < target.x {
        to := to.(x := to.x - moveX);
      } else if current.x > target.x {
        to := to.(x := to.x + moveX);
      }
      if current.y < target.y {
        to := to.(y := to.y - moveY);
      } else if current.y > target.y {
        to := to.(y := to.y + moveY);
      }
    }

    /** The dispatching and the carrying case of `Chair.Tick`: move, then see whether the
        chair has arrived. */
    method TickLeg(target: Coord, kind: LegKind, draw: nat, coin: bool) returns (arrived: bool)
      requires draw <= speed
      modifies this`current, this`detoured
      ensures State() == LegStep(old(State()), old(RouteTo(target, kind, coin)), draw)
      ensures arrived <==> current == target
      ensures var detours, was := detour && detourIn == kind && !old(detoured), old(current);
              && (detours && was != detourPoint ==> !detoured && current == Advance(was, detourPoint, speed, draw))
              && (detours && was == detourPoint ==> detoured && current == Retreat(was, target, speed, coin))
              && (!detours ==> detoured == old(detoured) && current == Advance(was, target, speed, draw))
    {
      if detour && detourIn == kind && !detoured {
        if current == detourPoint {
          current := MoveOppositeTo(target, coin);
          detoured := true;
        } else {
          current := MoveToward(current, detourPoint, speed, draw);
        }
      } else {
        current := MoveToward(current, target, speed, draw);
      }
      arrived := current == target;
    }
  }

  // ---- Whole legs --------------------------------------------------------------------

  /** The state after one tick per draw. */
  function Run(l: Leg, r: Route, draws: seq<nat>): Leg
    requires DrawsIn(draws, r.speed)
    decreases |draws|
  {
    if draws == [] then l else Run(LegStep(l, r, draws[0]), r, draws[1..])
  }

  /** Without a detour ahead, a run is a walk to the target. */
  lemma {:induction false} RunDirect(l: Leg, r: Route, draws: seq<nat>)
    requires DrawsIn(draws, r.speed) && (r.detour.None? || l.detoured)
    ensures Run(l, r, draws) == Leg(Walk(l.pos, r.target, r.speed, draws), l.detoured)
    decreases |draws|
  {
    if draws != [] {
      RunDirect(LegStep(l, r, draws[0]), r, draws[1..]);
    }
  }

  /** Until the detour point is reached, a run is a walk to that point. */
  lemma {:induction false} RunToDetour(c: Coord, r: Route, draws: seq<nat>)
    requires DrawsIn(draws, r.speed) && r.speed > 0
    requires r.detour.Some? && |draws| * r.speed <= Dist(c, r.detour.value)
    ensures Run(Leg(c, false), r, draws) == Leg(Walk(c, r.detour.value, r.speed, draws), false)
    decreases |draws|
  {
    if draws != [] {
      var n := |draws|;
      assert |draws[1..]| == n - 1;
      assert n * r.speed == r.speed + (n - 1) * r.speed && (n - 1) * r.speed >= 0;
      RunToDetour(Advance(c, r.detour.value, r.speed, draws[0]), r, draws[1..]);
    }
  }

  lemma {:induction false} RunConcat(l: Leg, r: Route, a: seq<nat>, b: seq<nat>)
    requires DrawsIn(a, r.speed) && DrawsIn(b, r.speed)
    ensures DrawsIn(a + b, r.speed)
    ensures Run(l, r, a + b) == Run(Run(l, r, a), r, b)
    decreases |a|
  {
    if a == [] {
      assert a + b == b;
    } else {
      assert (a + b)[0] == a[0] && (a + b)[1..] == a[1..] + b;
      RunConcat(LegStep(l, r, a[0]), r, a[1..], b);
    }
  }

  lemma SplitRun(l: Leg, r: Route, draws: seq<nat>, k: nat)
    requires DrawsIn(draws, r.speed) && k <= |draws|
    ensures DrawsIn(draws[..k], r.speed) && DrawsIn(draws[k..], r.speed)
    ensures Run(l, r, draws) == Run(Run(l, r, draws[..k]), r, draws[k..])
  {
    assert draws == draws[..k] + draws[k..];
    RunConcat(l, r, draws[..k], draws[k..]);
  }

  /** Ticks of a leg with a detour over p. */
  function DetourTotal(start: Coord, dest: Coord, speed: nat, p: Coord): nat
    requires speed > 0
  {
    DetourTicks(start, dest, speed) + 1 + NeededTime(Dist(p, dest) + speed, speed)
  }

  lemma FartherIsElsewhere(a: Coord, p: Coord, q: Coord)
    ensures Dist(a, p) != Dist(a, q) ==> p != q
    ensures a != q ==> Dist(a, q) > 0
    ensures Dist(p, q) == 0 ==> p == q
  {
  }

  /** On the way to the detour point the chair cannot be on the target: it is still nearer
      to where it started than the target is. */
  lemma ApproachMissesTarget(start: Coord, r: Route, draws: seq<nat>, h: nat)
    requires r.speed > 0 && start != r.target && DrawsIn(draws, r.speed)
    requires r.detour.Some? && Dist(start, r.detour.value) == h * r.speed
    requires 2 * (h * r.speed) <= Dist(start, r.target) && |draws| <= h
    ensures Run(Leg(start, false), r, draws).pos != r.target
  {
    var p := r.detour.value;
    assert |draws| * r.speed <= h * r.speed by { assert (h - |draws|) * r.speed >= 0; }
    RunToDetour(start, r, draws);
    assert Dist(start, Walk(start, p, r.speed, draws)) < Dist(start, r.target) by {
      WalkExact(start, p, r.speed, draws);
      FartherIsElsewhere(start, start, r.target);
    }
    FartherIsElsewhere(start, Walk(start, p, r.speed, draws), r.target);
  }

  /** After h ticks the chair stands on the detour point, and one tick later it is one full
      step farther from the target than that point is. */
  lemma TurnAtDetour(start: Coord, r: Route, draws: seq<nat>, h: nat)
    requires r.speed > 0 && DrawsIn(draws, r.speed)
    requires r.detour.Some? && Dist(start, r.detour.value) == h * r.speed
    requires r.detour.value != r.target && |draws| == h + 1
    ensures var l := Run(Leg(start, false), r, draws);
            l.detoured && Dist(l.pos, r.target) == Dist(r.detour.value, r.target) + r.speed
  {
    var p := r.detour.value;
    SplitRun(Leg(start, false), r, draws, h);
    RunToDetour(start, r, draws[..h]);
    assert Walk(start, p, r.speed, draws[..h]) == p by {
      WalkDistances(start, p, r.speed, draws[..h]);
      FartherIsElsewhere(start, Walk(start, p, r.speed, draws[..h]), p);
    }
    var last := draws[h..];
    assert last == [draws[h]] && last[1..] == [];
    assert Run(Leg(p, false), r, last) == Run(LegStep(Leg(p, false), r, draws[h]), r, []);
  }

  /** Past the detour point, the rest of the leg is a walk of the remaining distance and one
      step more. */
  lemma AfterTurn(start: Coord, r: Route, draws: seq<nat>, h: nat)
    requires r.speed > 0 && DrawsIn(draws, r.speed) && h < |draws|
    requires r.detour.Some? && Dist(start, r.detour.value) == h * r.speed && r.detour.value != r.target
    ensures Run(Leg(start, false), r, draws).pos == r.target <==>
            |draws| >= h + 1 + NeededTime(Dist(r.detour.value, r.target) + r.speed, r.speed)
  {
    hide Dist, NeededTime, Run, Walk;
    SplitRun(Leg(start, false), r, draws, h + 1);
    TurnAtDetour(start, r, draws[..h + 1], h);
    var l, rest := Run(Leg(start, false), r, draws[..h + 1]), draws[h + 1..];
    RunDirect(l, r, rest);
    WalkArrivesExactly(l.pos, r.target, r.speed, rest);
  }

  /** The exact cost of a detour: for every draw of the point, of the coin and of every
      move, the chair stands on its target after `DetourTotal` ticks and not before. */
  lemma DetourCost(start: Coord, r: Route, split: nat, draws: seq<nat>)
    requires r.speed > 0 && start != r.target && DrawsIn(draws, r.speed)
    requires split <= HalfTicks(start, r.target, r.speed) * r.speed
    requires r.detour == Some(DetourPoint(start, r.target, r.speed, split))
    requires |draws| <= DetourTotal(start, r.target, r.speed, r.detour.value)
    ensures Run(Leg(start, false), r, draws).pos == r.target <==>
            |draws| == DetourTotal(start, r.target, r.speed, r.detour.value)
  {
    hide Dist, NeededTime, Run, DetourPoint, DetourTicks, HalfTicks, DrawsIn;
    var p, h := r.detour.value, DetourTicks(start, r.target, r.speed);
    DetourPointDistances(start, r.target, r.speed, split);
    if |draws| <= h {
      ApproachMissesTarget(start, r, draws, h);
    } else {
      FartherIsElsewhere(start, p, r.target);
      FartherIsElsewhere(start, start, r.target);
      AfterTurn(start, r, draws, h);
    }
  }

  /** The same cost against the straight leg: two ticks more than a straight leg that is
      longer by twice the overshoot. A point inside the rectangle costs exactly two ticks. */
  lemma DetourCostAgainstStraight(start: Coord, dest: Coord, speed: nat, split: nat)
    requires speed > 0
    requires split <= HalfTicks(start, dest, speed) * speed
    ensures var p := DetourPoint(start, dest, speed, split);
            && DetourTotal(start, dest, speed, p)
                 == NeededTime(Dist(start, dest) + 2 * Overshoot(p, start, dest), speed) + 2
            && (InRect(p, start, dest) ==>
                  DetourTotal(start, dest, speed, p) == NeededTime(Dist(start, dest), speed) + 2)
  {
    hide Dist, NeededTime, DetourPoint, DetourTicks, HalfTicks;
    var p, h := DetourPoint(start, dest, speed, split), DetourTicks(start, dest, speed);
    DetourPointDistances(start, dest, speed, split);
    var far := Dist(p, dest);
    NeededTimeShift(far, speed, h);
    NeededTimeShift(far, speed, 1);
    assert 1 * speed == speed;
  }

  /** A detour never costs less than two ticks, and it costs exactly two if and only if the
      last tick of the straight leg has room for twice the overshoot. */
  lemma TwoTicksIff(start: Coord, dest: Coord, speed: nat, split: nat)
    requires speed > 0
    requires split <= HalfTicks(start, dest, speed) * speed
    ensures var p, d := DetourPoint(start, dest, speed, split), Dist(start, dest);
            var o := Overshoot(p, start, dest);
            && DetourTotal(start, dest, speed, p) >= NeededTime(d, speed) + 2
            && (DetourTotal(start, dest, speed, p) == NeededTime(d, speed) + 2 <==>
                  NeededTime(d + 2 * o, speed) == NeededTime(d, speed))
            && (NeededTime(d + 2 * o, speed) == NeededTime(d, speed) <==> d + 2 * o <= NeededTime(d, speed) * speed)
  {
    hide Dist, NeededTime, DetourPoint, DetourTicks, HalfTicks, Overshoot, DetourTotal;
    var p, d := DetourPoint(start, dest, speed, split), Dist(start, dest);
    var far := d + 2 * Overshoot(p, start, dest);
    DetourCostAgainstStraight(start, dest, speed, split);
    NeededTimeIsLeast(far, speed, NeededTime(d, speed));
    NeededTimeIsLeast(far, speed, NeededTime(far, speed));
    NeededTimeIsLeast(d, speed, NeededTime(far, speed));
  }

  /** A chair that starts on its target leaves the state in one tick, detour or not. */
  lemma EmptyLeg(start: Coord, r: Route, split: nat, draw: nat)
    requires r.speed > 0 && start == r.target && draw <= r.speed
    requires split <= HalfTicks(start, r.target, r.speed) * r.speed
    requires r.detour.Some? ==> r.detour.value == DetourPoint(start, r.target, r.speed, split)
    ensures LegStep(Leg(start, false), r, draw).pos == r.target
  {
  }

  /** The comment in the source calls a detour one unit of speed longer than the shortest
      way. Outside the rectangle it is not: this leg of distance 41 at speed 2 takes 21
      ticks straight and 42 ticks with the drawn detour. */
  lemma DetourCanCostMore()
    ensures var start, dest := Coord(0, 0), Coord(1, 40);
            var p := DetourPoint(start, dest, 2, 20);
            && HalfTicks(start, dest, 2) * 2 == 20 && p == Coord(20, 0)
            && NeededTime(Dist(start, dest), 2) == 21
            && DetourTotal(start, dest, 2, p) == 42
  {
  }
}
