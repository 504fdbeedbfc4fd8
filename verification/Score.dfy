/** The score a ride earns while it is under way, and the benchmark's total over all rides. */
module Score {
  import opened Grid
  import opened Detour
  import opened Fares
  import opened RideStatus
  import opened Wrappers

  const FORWARDING_SCORE_DENOMINATOR: nat := 10

  /** The detour that a chair has decided on, if any: the leg and the draw for its point. */
  datatype Plan = Straight | Detoured(kind: LegKind, split: nat)

  /** `turned`: the detour has been made; `evaluated`: the evaluation has been marked;
      `booked`: its score is in the owner's `SubScore`. */
  datatype Job = Job(speed: nat, start: Coord, pickup: Coord, dest: Coord, pos: Coord, desired: Status,
                     plan: Plan, turned: bool, evaluated: bool, booked: bool)

  /** The score for getting to the passenger. */
  function Forwarding(d: nat): (score: nat)
    ensures score == 10 * d
  {
    d * FARE_PER_DISTANCE / FORWARDING_SCORE_DENOMINATOR
  }

  /** `Request.Score`. */
  function Full(j: Job): nat {
    Sales(j.pickup, j.dest) + Forwarding(Dist(j.start, j.pickup))
  }

  /** `Request.PartialScore`. */
  function Partial(j: Job): int {
    match j.desired
    case Matching => 0
    case Enroute => Forwarding(Dist(j.start, j.pos))
    case Pickup => Forwarding(Dist(j.start, j.pickup))
    case Carrying => Forwarding(Dist(j.start, j.pickup)) + Dist(j.pickup, j.pos) * FARE_PER_DISTANCE
    case Arrived => Full(j) - INITIAL_FARE
    case Completed => Full(j)
  }

  // ---- The steps of a ride -----------------------------------------------------------

  datatype Step = Accept(at: Coord, plan: Plan) | Go(draw: nat, coin: bool) | Depart | Evaluate | Mark | Book

  predicate UnderWay(j: Job) {
    j.desired in {Enroute, Carrying}
  }

  /** Where the current leg starts and where it ends. */
  function Origin(j: Job): Coord {
    if j.desired == Enroute then j.start else j.pickup
  }

  function Target(j: Job): Coord {
    if j.desired == Enroute then j.pickup else j.dest
  }

  predicate PlanFits(j: Job, at: Coord, plan: Plan) {
    plan.Detoured? ==>
      && j.speed > 0
      && plan.split <= (if plan.kind.ToPickup? then HalfTicks(at, j.pickup, j.speed)
                        else HalfTicks(j.pickup, j.dest, j.speed)) * j.speed
  }

  predicate Enabled(j: Job, step: Step) {
    match step
    case Accept(at, plan) => j.desired == Matching && PlanFits(j, at, plan)
    case Go(draw, _) => UnderWay(j) && draw <= j.speed && PlanFits(j, j.start, j.plan)
    case Depart => j.desired == Pickup
    case Evaluate => j.desired == Arrived
    case Mark => j.desired == Completed && !j.evaluated
    case Book => j.evaluated && !j.booked
  }

  /** The leg's route: the detour point is there on the leg on which the chair detours. */
  function RouteOf(j: Job, coin: bool): Route
    requires UnderWay(j) && PlanFits(j, j.start, j.plan)
  {
    Route(Target(j), j.speed,
          if j.plan.Detoured? && j.plan.kind.ToPickup? == (j.desired == Enroute)
          then Some(DetourPoint(Origin(j), Target(j), j.speed, j.plan.split)) else None, coin)
  }

  function Apply(j: Job, step: Step): Job
    requires Enabled(j, step)
  {
    match step
    case Accept(at, plan) => j.(start := at, pos := at, desired := Enroute, plan := plan, turned := false)
    case Go(draw, coin) =>
      var l := LegStep(Leg(j.pos, j.turned), RouteOf(j, coin), draw);
      j.(pos := l.pos, turned := l.detoured,
         desired := if l.pos != Target(j) then j.desired else if j.desired == Enroute then Pickup else Arrived)
    case Depart => j.(desired := Carrying)
    case Evaluate => j.(desired := Completed)
    case Mark => j.(evaluated := true)
    case Book => j.(booked := true)
  }

  // ---- Which ticks lower the partial score -------------------------------------------

  /** What one unit of distance from the leg's origin is worth. */
  function Rate(j: Job): nat {
    if j.desired == Enroute then 10 else FARE_PER_DISTANCE
  }

  /** Every tick of a leg, with or without detour, changes the partial score by the change of
      the distance from the leg's origin; so it lowers the score if and only if it brings the
      chair nearer to the origin. */
  lemma TickChangesBy(j: Job, draw: nat, coin: bool)
    requires Enabled(j, Go(draw, coin))
    ensures var j' := Apply(j, Go(draw, coin));
            && Partial(j') - Partial(j) == Rate(j) * (Dist(Origin(j), j'.pos) - Dist(Origin(j), j.pos))
            && (Partial(j') < Partial(j) <==> Dist(Origin(j), j'.pos) < Dist(Origin(j), j.pos))
  {
    hide Dist, LegStep, RouteOf;
  }

  /** A point's distances to both ends of a leg exceed the leg by twice the overshoot. */
  lemma DistancesWithOvershoot(p: Coord, a: Coord, b: Coord)
    ensures Dist(a, p) + Dist(p, b) == Dist(a, b) + 2 * Overshoot(p, a, b)
  {
    hide Abs, OutOfRange;
    AxisOvershoot(p.x, a.x, b.x);
    AxisOvershoot(p.y, a.y, b.y);
    SameDistance(p.x, a.x);
    SameDistance(p.y, a.y);
    SameDistance(p.x, b.x);
    SameDistance(p.y, b.y);
    SameDistance(a.x, b.x);
    SameDistance(a.y, b.y);
  }

  lemma SameDistance(n: int, m: int)
    ensures Abs(n - m) == Abs(m - n)
  {
  }

  lemma AxisOvershoot(p: int, a: int, b: int)
    ensures Abs(a - p) + Abs(p - b) == Abs(a - b) + 2 * OutOfRange(a, p, b)
  {
  }

  /** The tick that turns away from the target lowers the score if and only if the overshoot
      grows by less than half of the tick's way. */
  lemma TurnLowersIff(j: Job, draw: nat, coin: bool)
    requires Enabled(j, Go(draw, coin)) && !j.turned && RouteOf(j, coin).detour == Some(j.pos) && j.pos != Target(j)
    ensures var j', o, t := Apply(j, Go(draw, coin)), Origin(j), Target(j);
            && j'.turned
            && (Partial(j') < Partial(j) <==> 2 * (Overshoot(j'.pos, o, t) - Overshoot(j.pos, o, t)) < j.speed)
  {
    hide Dist, Overshoot, Partial;
    TickChangesBy(j, draw, coin);
    DistancesWithOvershoot(j.pos, Origin(j), Target(j));
    DistancesWithOvershoot(Apply(j, Go(draw, coin)).pos, Origin(j), Target(j));
  }

  /** From a point on the way, turning lowers the score if and only if the chair has come more
      than half a tick's way from the origin on the axis on which it turns back. */
  lemma TurnFromTheWay(from: Coord, p: Coord, target: Coord, speed: nat, coin: bool)
    requires InRect(p, from, target) && p != target
    ensures var to := Retreat(p, target, speed, coin);
            var along := if to.x != p.x then Abs(p.x - from.x) else Abs(p.y - from.y);
            && Overshoot(p, from, target) == 0
            && Overshoot(to, from, target) == Max(0, speed - along)
            && (2 * (Overshoot(to, from, target) - Overshoot(p, from, target)) < speed <==> speed > 0 && 2 * along > speed)
  {
  }

  /** A tick towards the target lowers the score if and only if more than half of it is spent
      on reducing the overshoot. */
  lemma ReturnLowersIff(j: Job, draw: nat, coin: bool)
    requires Enabled(j, Go(draw, coin)) && (j.turned || RouteOf(j, coin).detour.None?)
    ensures var j', o, t := Apply(j, Go(draw, coin)), Origin(j), Target(j);
            Partial(j') < Partial(j) <==>
            2 * (Overshoot(j.pos, o, t) - Overshoot(j'.pos, o, t)) > Min(j.speed, Dist(j.pos, t))
  {
    hide Dist, Overshoot, Partial;
    TickChangesBy(j, draw, coin);
    DistancesWithOvershoot(j.pos, Origin(j), Target(j));
    DistancesWithOvershoot(Apply(j, Go(draw, coin)).pos, Origin(j), Target(j));
  }

  /** Where the chair can be: before the turn on a shortest way to the detour point, without
      detour on a shortest way to the target. */
  ghost predicate OnTheWay(j: Job) {
    && (j.desired != Matching ==> PlanFits(j, j.start, j.plan))
    && (UnderWay(j) && RouteOf(j, true).detour.None? ==> InRect(j.pos, Origin(j), Target(j)))
    && (UnderWay(j) && RouteOf(j, true).detour.Some? && !j.turned ==>
          InRect(j.pos, Origin(j), RouteOf(j, true).detour.value))
    && (j.plan.Detoured? && j.plan.kind.ToDestination? && j.desired in {Enroute, Pickup} ==> !j.turned)
    && (j.desired == Pickup ==> j.pos == j.pickup)
    && (j.booked ==> j.evaluated) && (j.evaluated ==> j.desired == Completed)
  }

  lemma MoveOnTheWay(from: Coord, pos: Coord, target: Coord, speed: nat, draw: nat)
    requires InRect(pos, from, target) && draw <= speed
    ensures var to := Advance(pos, target, speed, draw);
            InRect(to, from, target) && Dist(from, to) == Dist(from, pos) + Min(speed, Dist(pos, target))
  {
    var to := Advance(pos, target, speed, draw);
    RectNested(to, pos, from, target);
    RectSplit(pos, from, target);
    RectSplit(to, from, target);
  }

  lemma OriginOnTheWay(a: Coord, b: Coord)
    ensures InRect(a, a, b)
  {
  }

  /** Ticks before the turn, and all ticks of a leg without detour, take the chair away from
      the origin. */
  lemma ApproachNeverLowers(j: Job, draw: nat, coin: bool)
    requires OnTheWay(j) && Enabled(j, Go(draw, coin))
    requires RouteOf(j, coin).detour.None? || (!j.turned && RouteOf(j, coin).detour != Some(j.pos))
    ensures Partial(Apply(j, Go(draw, coin))) >= Partial(j)
  {
    hide Dist, Partial, InRect, Advance;
    TickChangesBy(j, draw, coin);
    var r := RouteOf(j, coin);
    MoveOnTheWay(Origin(j), j.pos, if r.detour.None? then r.target else r.detour.value, j.speed, draw);
  }

  lemma GoStaysOnTheWay(j: Job, draw: nat, coin: bool)
    requires OnTheWay(j) && Enabled(j, Go(draw, coin))
    ensures OnTheWay(Apply(j, Go(draw, coin)))
  {
    hide Dist, InRect, Advance, DetourPoint, Retreat;
    var r := RouteOf(j, coin);
    if r.detour.None? {
      MoveOnTheWay(Origin(j), j.pos, r.target, j.speed, draw);
    } else if !j.turned {
      MoveOnTheWay(Origin(j), j.pos, r.detour.value, j.speed, draw);
    }
  }

  lemma StepStaysOnTheWay(j: Job, step: Step)
    requires OnTheWay(j) && Enabled(j, step)
    ensures OnTheWay(Apply(j, step))
  {
    hide Dist, InRect, Advance, DetourPoint, LegStep;
    match step
    case Go(draw, coin) => GoStaysOnTheWay(j, draw, coin);
    case Accept(at, plan) =>
      OriginOnTheWay(at, j.pickup);
      if RouteOf(Apply(j, step), true).detour.Some? {
        OriginOnTheWay(at, RouteOf(Apply(j, step), true).detour.value);
      }
    case Depart =>
      OriginOnTheWay(j.pickup, j.dest);
      if RouteOf(Apply(j, step), true).detour.Some? {
        OriginOnTheWay(j.pickup, RouteOf(Apply(j, step), true).detour.value);
      }
    case _ =>
  }

  /** No step of a ride without detour lowers its partial score, which ends at the full one. */
  lemma PartialNeverDrops(j: Job, step: Step)
    requires OnTheWay(j) && Enabled(j, step) && (j.desired != Matching ==> j.plan.Straight?)
    ensures OnTheWay(Apply(j, step)) && Partial(Apply(j, step)) >= Partial(j)
    ensures Apply(j, step).desired == Completed ==> Partial(Apply(j, step)) == Full(Apply(j, step))
    ensures step.Mark? || step.Book? ==> Partial(Apply(j, step)) == Partial(j)
  {
    StepStaysOnTheWay(j, step);
    if step.Go? {
      ApproachNeverLowers(j, step.draw, step.coin);
    }
  }

  // ---- All rides together ------------------------------------------------------------

  /** What `SubScore` has of a ride, and what a final reading adds for it. */
  function Reading(j: Job): int {
    (if j.booked then Full(j) else 0) + (if j.evaluated then 0 else Partial(j))
  }

  /** What is neither in `SubScore` yet nor counted as partial any more. */
  function Between(j: Job): int {
    if j.evaluated && !j.booked then Full(j) else 0
  }

  function Total(jobs: seq<Job>): int {
    if jobs == [] then 0 else Total(jobs[..|jobs| - 1]) + Reading(jobs[|jobs| - 1])
  }

  function TotalBetween(jobs: seq<Job>): int {
    if jobs == [] then 0 else TotalBetween(jobs[..|jobs| - 1]) + Between(jobs[|jobs| - 1])
  }

  datatype Move = New(job: Job) | Act(i: nat, step: Step)

  predicate CanMove(jobs: seq<Job>, m: Move) {
    match m
    case New(j) => j.desired == Matching && !j.evaluated && !j.booked && j.plan.Straight?
    case Act(i, step) => i < |jobs| && Enabled(jobs[i], step)
  }

  function Moved(jobs: seq<Job>, m: Move): seq<Job>
    requires CanMove(jobs, m)
  {
    match m
    case New(j) => jobs + [j]
    case Act(i, step) => jobs[i := Apply(jobs[i], step)]
  }

  ghost predicate IsRun(jobs: seq<Job>, ms: seq<Move>)
    decreases |ms|
  {
    ms == [] || (CanMove(jobs, ms[0]) && IsRun(Moved(jobs, ms[0]), ms[1..]))
  }

  ghost function After(jobs: seq<Job>, ms: seq<Move>): seq<Job>
    requires IsRun(jobs, ms)
    decreases |ms|
  {
    if ms == [] then jobs else After(Moved(jobs, ms[0]), ms[1..])
  }

  /** No chair decides on a detour. */
  ghost predicate Undetoured(ms: seq<Move>) {
    forall i | 0 <= i < |ms| :: Direct(ms[i])
  }

  predicate Direct(m: Move) {
    m.Act? && m.step.Accept? ==> m.step.plan.Straight?
  }

  ghost predicate AllOnTheWay(jobs: seq<Job>) {
    forall i | 0 <= i < |jobs| :: OnTheWay(jobs[i]) && jobs[i].plan.Straight?
  }

  lemma {:induction false} TotalUpdate(jobs: seq<Job>, i: nat, j: Job)
    requires i < |jobs|
    ensures Total(jobs[i := j]) == Total(jobs) - Reading(jobs[i]) + Reading(j)
    ensures TotalBetween(jobs[i := j]) == TotalBetween(jobs) - Between(jobs[i]) + Between(j)
    decreases |jobs|
  {
    var n := |jobs| - 1;
    if i == n {
      assert jobs[i := j][..n] == jobs[..n];
    } else {
      assert jobs[i := j][..n] == jobs[..n][i := j];
      TotalUpdate(jobs[..n], i, j);
    }
  }

  lemma MoveNeverDrops(jobs: seq<Job>, m: Move)
    requires AllOnTheWay(jobs) && CanMove(jobs, m) && Direct(m)
    ensures AllOnTheWay(Moved(jobs, m))
    ensures Total(Moved(jobs, m)) + TotalBetween(Moved(jobs, m)) >= Total(jobs) + TotalBetween(jobs)
  {
    match m
    case New(j) =>
      assert (jobs + [j])[..|jobs|] == jobs;
    case Act(i, step) =>
      PartialNeverDrops(jobs[i], step);
      TotalUpdate(jobs, i, Apply(jobs[i], step));
  }

  lemma {:induction false} RunNeverDrops(jobs: seq<Job>, ms: seq<Move>)
    requires AllOnTheWay(jobs) && IsRun(jobs, ms) && Undetoured(ms)
    ensures AllOnTheWay(After(jobs, ms))
    ensures Total(After(jobs, ms)) + TotalBetween(After(jobs, ms)) >= Total(jobs) + TotalBetween(jobs)
    decreases |ms|
  {
    if ms != [] {
      MoveNeverDrops(jobs, ms[0]);
      assert Undetoured(ms[1..]);
      RunNeverDrops(Moved(jobs, ms[0]), ms[1..]);
    }
  }

  lemma {:induction false} NothingBetween(jobs: seq<Job>)
    ensures TotalBetween(jobs) >= 0
    ensures TotalBetween(jobs) == 0 <==> forall i | 0 <= i < |jobs| :: jobs[i].evaluated ==> jobs[i].booked
    decreases |jobs|
  {
    if jobs != [] {
      NothingBetween(jobs[..|jobs| - 1]);
      assert forall i | 0 <= i < |jobs| - 1 :: jobs[..|jobs| - 1][i] == jobs[i];
    }
  }

  /** Over any run of rides without detours the total never falls below what it was at a moment
      when no evaluation was half booked, except by the scores of evaluations that are half
      booked at the moment of reading. */
  lemma TotalNeverDrops(before: seq<Move>, since: seq<Move>)
    requires IsRun([], before) && IsRun(After([], before), since) && Undetoured(before) && Undetoured(since)
    ensures var jobs := After([], before);
            var later := After(jobs, since);
            && Total(later) >= Total(jobs) - TotalBetween(later)
            && ((forall i | 0 <= i < |later| :: later[i].evaluated ==> later[i].booked) ==> Total(later) >= Total(jobs))
  {
    RunNeverDrops([], before);
    var jobs := After([], before);
    RunNeverDrops(jobs, since);
    NothingBetween(jobs);
    NothingBetween(After(jobs, since));
  }

  /** A ride on an axis, whose chair detours on the way to the pickup point: at once it turns
      away by two units. */
  lemma TurnedAway() returns (j0: Job, accept: Step, go: Step)
    ensures CanMove([], New(j0)) && Enabled(j0, accept) && Enabled(Apply(j0, accept), go)
    ensures var j := Apply(Apply(j0, accept), go); Enabled(j, go) && !j.evaluated && Reading(Apply(j, go)) < Reading(j)
  {
    j0 := Job(2, Coord(0, 0), Coord(10, 0), Coord(20, 0), Coord(0, 0), Matching, Straight, false, false, false);
    accept, go := Accept(Coord(0, 0), Detoured(ToPickup, 0)), Go(0, true);
    var j1 := Apply(j0, accept);
    var j2 := Apply(j1, go);
    assert j2 == j1.(pos := Coord(-2, 0), turned := true);
    assert Apply(j2, go) == j2.(pos := Coord(0, 0));
  }

  /** With a detour the total does drop in reachable states: a chair on an axis turns away from
      its start first and comes back. */
  lemma DetourDrops()
    ensures exists ms, m :: IsRun([], ms) && CanMove(After([], ms), m) &&
                            Total(Moved(After([], ms), m)) < Total(After([], ms))
  {
    hide Reading, Enabled;
    var j0, accept, go := TurnedAway();
    hide Apply;
    var j1 := Apply(j0, accept);
    var j2 := Apply(j1, go);
    RunOfThree([], New(j0), Act(0, accept), Act(0, go));
    var ms, m := [New(j0), Act(0, accept), Act(0, go)], Act(0, go);
    assert After([], ms) == [j2] && Moved([j2], m) == [Apply(j2, go)];
    assert [j2][..0] == [] && [Apply(j2, go)][..0] == [];
    assert Total(Moved(After([], ms), m)) < Total(After([], ms));
  }

  lemma RunOfThree(jobs: seq<Job>, a: Move, b: Move, c: Move)
    requires CanMove(jobs, a) && CanMove(Moved(jobs, a), b) && CanMove(Moved(Moved(jobs, a), b), c)
    ensures IsRun(jobs, [a, b, c]) && After(jobs, [a, b, c]) == Moved(Moved(Moved(jobs, a), b), c)
  {
    hide CanMove, Moved;
    var n := Moved(jobs, a);
    var last := Moved(Moved(n, b), c);
    assert [a, b, c][1..] == [b, c] && [b, c][1..] == [c] && [c][1..] == [];
    assert IsRun(last, []) && After(last, []) == last;
    assert IsRun(Moved(n, b), [c]) && After(Moved(n, b), [c]) == last;
    assert IsRun(n, [b, c]) && After(n, [b, c]) == last;
  }

  /** The marking of an evaluation lowers a reading by the ride's score, until it is booked. */
  lemma MarkDipsUntilBooked(jobs: seq<Job>, i: nat)
    requires AllOnTheWay(jobs) && i < |jobs| && Enabled(jobs[i], Mark)
    ensures var marked := Moved(jobs, Act(i, Mark));
            && Total(marked) == Total(jobs) - Full(jobs[i]) < Total(jobs)
            && CanMove(marked, Act(i, Book)) && Total(Moved(marked, Act(i, Book))) == Total(jobs)
  {
    var m := Apply(jobs[i], Mark);
    TotalUpdate(jobs, i, m);
    TotalUpdate(jobs[i := m], i, Apply(m, Book));
  }

  // ---- The reading -------------------------------------------------------------------

  function Booked(jobs: seq<Job>): nat {
    if jobs == [] then 0
    else Booked(jobs[..|jobs| - 1]) + if jobs[|jobs| - 1].booked then Full(jobs[|jobs| - 1]) else 0
  }

  function Unevaluated(jobs: seq<Job>): int {
    if jobs == [] then 0
    else Unevaluated(jobs[..|jobs| - 1]) + if jobs[|jobs| - 1].evaluated then 0 else Partial(jobs[|jobs| - 1])
  }

  lemma {:induction false} TotalIsBookedAndPartial(jobs: seq<Job>)
    ensures Total(jobs) == Booked(jobs) + Unevaluated(jobs) && Unevaluated(jobs) >= 0
    decreases |jobs|
  {
    if jobs != [] {
      TotalIsBookedAndPartial(jobs[..|jobs| - 1]);
    }
  }

  /** A reading is a hundredth of the total, rounded down part by part. */
  lemma RoundedReading(jobs: seq<Job>)
    ensures var final := Booked(jobs) / 100 + Unevaluated(jobs) / 100;
            Total(jobs) - 200 < 100 * final <= Total(jobs)
  {
    TotalIsBookedAndPartial(jobs);
  }

  class Scenario {
    var finalScore: Option<int>

    constructor ()
      ensures finalScore == None
    {
      finalScore := None;
    }

    /** `Score`: the first final reading is kept for good. */
    method Score(final: bool, jobs: seq<Job>) returns (score: int)
      modifies this
      ensures score == if old(finalScore).Some? then old(finalScore).value
                       else Booked(jobs) / 100 + if final then Unevaluated(jobs) / 100 else 0
      ensures finalScore == if old(finalScore).None? && final then Some(score) else old(finalScore)
    {
      if finalScore.Some? {
        return finalScore.value;
      }
      var subScore, partial := 0, 0;
      for i := 0 to |jobs|
        invariant subScore == Booked(jobs[..i]) && partial == Unevaluated(jobs[..i])
      {
        assert jobs[..i + 1][..i] == jobs[..i];
        if jobs[i].booked {
          subScore := subScore + Full(jobs[i]);
        }
        if !jobs[i].evaluated {
          partial := partial + Partial(jobs[i]);
        }
      }
      assert jobs[..|jobs|] == jobs;
      score := subScore / 100;
      if final {
        score := score + partial / 100;
        finalScore := Some(score);
      }
    }
  }
}
