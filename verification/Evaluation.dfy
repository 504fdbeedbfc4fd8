/** How a user rates a ride: one point, and one more for each of four criteria. */
module Evaluation {
  import opened Grid
  import opened Detour
  import opened Wrappers

  datatype Times = Times(requested: int, matched: int, dispatched: int, pickedUp: int, arrived: int)

  datatype Ratings = Ratings(matching: bool, dispatch: bool, pickup: bool, drive: bool)

  predicate Complete(t: Times) {
    t.matched > 0 && t.dispatched > 0 && t.pickedUp > 0 && t.arrived > 0
  }

  /** The four criteria. */
  function Rated(t: Times, start: Coord, pickup: Coord, dest: Coord, speed: nat): Ratings
    requires speed > 0
  {
    Ratings(t.matched - t.requested < 100,
            Dist(start, pickup) < 10 * speed,
            t.pickedUp - t.matched - NeededTime(Dist(start, pickup), speed) < 15,
            t.arrived - t.pickedUp - NeededTime(Dist(pickup, dest), speed) < 5)
  }

  /** `CalculateEvaluation`; it panics when a time is missing. */
  method CalculateEvaluation(t: Times, start: Coord, pickup: Coord, dest: Coord, speed: nat)
    returns (result: Ratings)
    requires Complete(t) && speed > 0
    ensures result == Rated(t, start, pickup, dest, speed)
    ensures result.matching <==> t.matched - t.requested < 100
    ensures result.dispatch <==> Dist(start, pickup) < 10 * speed
    ensures result.pickup <==> t.pickedUp < t.matched + NeededTime(Dist(start, pickup), speed) + 15
    ensures result.drive <==> t.arrived < t.pickedUp + NeededTime(Dist(pickup, dest), speed) + 5
  {
    result := Ratings(false, false, false, false);
    if t.matched - t.requested < 100 {
      result := result.(matching := true);
    }
    if Dist(start, pickup) < 10 * speed {
      result := result.(dispatch := true);
    }
    var idealTime := NeededTime(Dist(start, pickup), speed);
    var actualTime := t.pickedUp - t.matched;
    if actualTime - idealTime < 15 {
      result := result.(pickup := true);
    }
    idealTime := NeededTime(Dist(pickup, dest), speed);
    actualTime := t.arrived - t.pickedUp;
    if actualTime - idealTime < 5 {
      result := result.(drive := true);
    }
  }

  function Points(b: bool): nat {
    if b then 1 else 0
  }

  /** `Evaluation.Score`: always a score the server accepts. */
  method Score(e: Ratings) returns (result: nat)
    ensures result == 1 + Points(e.matching) + Points(e.dispatch) + Points(e.pickup) + Points(e.drive)
    ensures 1 <= result <= 5
    ensures result == 5 <==> e.matching && e.dispatch && e.pickup && e.drive
  {
    result := 1;
    if e.matching {
      result := result + 1;
    }
    if e.dispatch {
      result := result + 1;
    }
    if e.pickup {
      result := result + 1;
    }
    if e.drive {
      result := result + 1;
    }
  }

  // ---- What a detour does to the rating ----------------------------------------------

  /** The ticks after which the chair first stands on the target of its leg. */
  predicate FirstArrival(start: Coord, r: Route, draws: seq<nat>)
    requires DrawsIn(draws, r.speed)
  {
    && draws != [] && DrawsIn(draws[..|draws| - 1], r.speed)
    && Run(Leg(start, false), r, draws).pos == r.target
    && Run(Leg(start, false), r, draws[..|draws| - 1]).pos != r.target
  }

  lemma StraightArrival(start: Coord, r: Route, draws: seq<nat>)
    requires r.speed > 0 && r.detour.None? && DrawsIn(draws, r.speed) && FirstArrival(start, r, draws)
    ensures |draws| == NeededTime(Dist(start, r.target), r.speed)
  {
    var front := draws[..|draws| - 1];
    RunDirect(Leg(start, false), r, draws);
    RunDirect(Leg(start, false), r, front);
    WalkArrivesExactly(start, r.target, r.speed, draws);
    WalkArrivesExactly(start, r.target, r.speed, front);
  }

  lemma DetouredArrival(start: Coord, r: Route, split: nat, draws: seq<nat>)
    requires r.speed > 0 && start != r.target && DrawsIn(draws, r.speed) && FirstArrival(start, r, draws)
    requires split <= HalfTicks(start, r.target, r.speed) * r.speed
    requires r.detour == Some(DetourPoint(start, r.target, r.speed, split))
    ensures |draws| == DetourTotal(start, r.target, r.speed, r.detour.value)
  {
    var front, total := draws[..|draws| - 1], DetourTotal(start, r.target, r.speed, r.detour.value);
    if |draws| <= total {
      DetourCost(start, r, split, draws);
    } else {
      DetourPointDistances(start, r.target, r.speed, split);
      FartherIsElsewhere(start, r.detour.value, r.target);
      FartherIsElsewhere(start, start, r.target);
      AfterTurn(start, r, front, DetourTicks(start, r.target, r.speed));
    }
  }

  /** A chair that drives straight, ticked every tick from the tick after the departure on,
      gets the point for driving, whatever the draws are. */
  lemma StraightDriveIsRewarded(t: Times, start: Coord, pickup: Coord, r: Route, draws: seq<nat>)
    requires r.speed > 0 && r.detour.None? && DrawsIn(draws, r.speed) && FirstArrival(pickup, r, draws)
    requires t.arrived == t.pickedUp + |draws|
    ensures Rated(t, start, pickup, r.target, r.speed).drive
  {
    StraightArrival(pickup, r, draws);
  }

  /** A chair that makes a detour on the way to the destination gets the point for driving if
      and only if the overshoot costs less than three ticks, and always if the detour point
      is on the way. */
  lemma DetouredDrive(t: Times, start: Coord, pickup: Coord, r: Route, split: nat, draws: seq<nat>)
    requires r.speed > 0 && pickup != r.target && DrawsIn(draws, r.speed) && FirstArrival(pickup, r, draws)
    requires split <= HalfTicks(pickup, r.target, r.speed) * r.speed
    requires r.detour == Some(DetourPoint(pickup, r.target, r.speed, split))
    requires t.arrived == t.pickedUp + |draws|
    ensures var d, o := Dist(pickup, r.target), Overshoot(r.detour.value, pickup, r.target);
            && (Rated(t, start, pickup, r.target, r.speed).drive <==>
                  NeededTime(d + 2 * o, r.speed) < NeededTime(d, r.speed) + 3)
            && (InRect(r.detour.value, pickup, r.target) ==> Rated(t, start, pickup, r.target, r.speed).drive)
  {
    hide Dist, NeededTime, DetourPoint, HalfTicks, Overshoot, DetourTotal, FirstArrival, InRect;
    DetouredArrival(pickup, r, split, draws);
    DetourCostAgainstStraight(pickup, r.target, r.speed, split);
  }

  /** On the way to the passenger the same detour leaves room for the wait: the point for the
      pickup is given if and only if the wait and what the overshoot costs stay below thirteen
      ticks together. */
  lemma DetouredPickup(t: Times, start: Coord, dest: Coord, r: Route, split: nat, draws: seq<nat>, wait: nat)
    requires r.speed > 0 && start != r.target && DrawsIn(draws, r.speed) && FirstArrival(start, r, draws)
    requires split <= HalfTicks(start, r.target, r.speed) * r.speed
    requires r.detour == Some(DetourPoint(start, r.target, r.speed, split))
    requires t.dispatched == t.matched + |draws| && t.pickedUp == t.dispatched + wait
    ensures var d, o := Dist(start, r.target), Overshoot(r.detour.value, start, r.target);
            && (Rated(t, start, r.target, dest, r.speed).pickup <==>
                  wait + NeededTime(d + 2 * o, r.speed) - NeededTime(d, r.speed) < 13)
            && (InRect(r.detour.value, start, r.target) ==>
                  (Rated(t, start, r.target, dest, r.speed).pickup <==> wait < 13))
  {
    hide Dist, NeededTime, DetourPoint, HalfTicks, Overshoot, DetourTotal, FirstArrival, InRect;
    DetouredArrival(start, r, split, draws);
    DetourCostAgainstStraight(start, r.target, r.speed, split);
  }
}
