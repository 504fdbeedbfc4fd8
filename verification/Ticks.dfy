/** The ticks of a chair and of a user as they run, when nothing happens between a client call
    and its answer; each is then a short run of the protocol. */
module Ticks {
  import opened Grid
  import opened Wrappers
  import opened RideStatus
  import opened Protocol
  import opened ProtocolFrames
  import ProtocolUsers
  import ProtocolChairs
  import A = Agents
  import W = WebApp

  datatype Outcome = Fine | FailedToAccept | FailedToDepart | FailedToEvaluate | SkippedPayment

  // ---- The objects -------------------------------------------------------------------

  class Request {
    const trip: A.Trip
    const requestedAt: int
    var st: A.Statuses
    var matchedAt: int
    var dispatchedAt: int
    var pickedUpAt: int
    var arrivedAt: int
    var evaluated: bool
    var paid: bool

    /** The request between two client calls. */
    function View(): Req
      reads this
    {
      Req(true, st, NoCall, false, requestedAt, matchedAt, dispatchedAt, pickedUpAt, arrivedAt, trip)
    }

    constructor (trip: A.Trip, now: int)
      ensures View() == NewReq(now, trip).(registered := true) && !evaluated && !paid
    {
      this.trip, requestedAt := trip, now;
      st := A.Statuses(Matching, Matching, Matching);
      matchedAt, dispatchedAt, pickedUpAt, arrivedAt := 0, 0, 0, 0;
      evaluated, paid := false, false;
    }
  }

  /** What a chair's tick makes of its request: `to` is where the chair would move, `answered`
      whether the server accepts its call. */
  function AfterChairTick(q: Req, now: int, to: Coord, answered: bool): Req {
    match q.st.chair
    case Matching =>
      if answered then q.(matchedAt := now, st := q.st.(desired := Enroute, chair := Enroute)) else q
    case Enroute =>
      if to == q.trip.pickup then q.(dispatchedAt := now, st := q.st.(desired := Pickup, chair := Pickup)) else q
    case Pickup =>
      if q.st.user == Pickup && answered then q.(pickedUpAt := now, st := q.st.(desired := Carrying, chair := Carrying))
      else q
    case Carrying =>
      if to == q.trip.dest then q.(arrivedAt := now, st := q.st.(desired := Arrived, chair := Arrived)) else q
    case _ => q
  }

  predicate Moves(q: Req) {
    q.st.chair in {Enroute, Carrying}
  }

  class Chair {
    var request: Request
    var history: seq<Request>
    var loc: Coord
    var dirty: bool

    constructor (request: Request, loc: Coord)
      ensures this.request == request && history == [] && this.loc == loc && !dirty
    {
      this.request, history, this.loc, dirty := request, [], loc, false;
    }

    /** `Chair.Tick` with a request in progress. */
    method Tick(now: int, to: Coord, answered: bool) returns (o: Outcome)
      requires !dirty
      modifies this, request
      ensures request == old(request) && !dirty
      ensures request.View() == AfterChairTick(old(request.View()), now, to, answered)
      ensures loc == if Moves(old(request.View())) then to else old(loc)
      ensures history ==
              if old(request.st.chair) == Matching && answered then old(history) + [request] else old(history)
      ensures o == if old(request.st.chair) == Matching && !answered then FailedToAccept
                   else if old(request.st.chair) == Pickup && old(request.st.user) == Pickup && !answered then FailedToDepart
                   else Fine
      ensures o != Fine ==> request.View() == old(request.View()) && loc == old(loc) && history == old(history)
    {
      o := Fine;
      match request.st.chair {
        case Matching =>
          if !answered {
            return FailedToAccept;
          }
          request.st := request.st.(desired := Enroute);
          request.st := request.st.(chair := Enroute);
          request.matchedAt := now;
          history := history + [request];
        case Enroute =>
          loc, dirty := to, true;
          if loc == request.trip.pickup {
            request.st := request.st.(desired := Pickup);
            request.st := request.st.(chair := Pickup);
            request.dispatchedAt := now;
          }
        case Pickup =>
          if request.st.user != Pickup {
            // the user does not get in before it knows of the arrival
          } else {
            if !answered {
              return FailedToDepart;
            }
            request.st := request.st.(desired := Carrying);
            request.st := request.st.(chair := Carrying);
            request.pickedUpAt := now;
          }
        case Carrying =>
          loc, dirty := to, true;
          if loc == request.trip.dest {
            request.st := request.st.(desired := Arrived);
            request.st := request.st.(chair := Arrived);
            request.arrivedAt := now;
          }
        case _ =>
      }
      if dirty {
        // posted until the server has recorded it
        dirty := false;
      }
    }
  }

  class User {
    var request: Request?

    constructor ()
      ensures request == null
    {
      request := null;
    }

    /** `User.Tick` with a request in progress: it evaluates the ride after the arrival and
        lets it go after the completion. A payment that was verified sets `paid`. */
    method Tick(answered: bool, charged: bool) returns (o: Outcome)
      requires request != null && (request.st.user == Arrived && !request.evaluated ==> Timed(request.View()))
      modifies this, request
      ensures var q := old(request.View());
              var evaluates := q.st.user == Arrived && !old(request.evaluated);
              && (request == null <==> q.st.user == Completed)
              && (request != null ==> request == old(request))
              && old(request).View() ==
                   (if evaluates && answered then q.(st := q.st.(desired := Completed)) else q)
              && old(request).evaluated == (old(request.evaluated) || (evaluates && answered))
              && o == (if evaluates && !answered then FailedToEvaluate
                       else if evaluates && !charged && !old(request.paid) then SkippedPayment
                       else Fine)
    {
      o := Fine;
      match request.st.user {
        case Arrived =>
          if !request.evaluated {
            if !answered {
              return FailedToEvaluate;
            }
            if charged {
              request.paid := true;
            }
            request.st := request.st.(desired := Completed);
            request.evaluated := true;
            if !request.paid {
              return SkippedPayment;
            }
          }
        case Completed =>
          request := null;
        case _ =>
      }
    }
  }

  // ---- A tick is a run ---------------------------------------------------------------

  /** The steps of a chair's tick when nothing comes between. */
  function ChairSteps(q: Req, c: ChairId, to: Coord): seq<Step> {
    match q.st.chair
    case Matching => [Accept(c), AcceptDone(c)]
    case Pickup => if q.st.user == Pickup then [Depart(c), DepartDone(c)] else []
    case Enroute => [Move(c, to), Post(c), PostDone(c)]
    case Carrying => [Move(c, to), Post(c), PostDone(c)]
    case _ => []
  }

  lemma TwoSteps(s: State, a: Step, b: Step)
    requires Possible(s, a) && Possible(Apply(s, a), b)
    ensures IsRun(s, [a, b]) && After(s, [a, b]) == Apply(Apply(s, a), b)
  {
    hide Enabled, Assumed, Apply;
    var n := Apply(s, a);
    assert [a, b][1..] == [b] && [b][1..] == [];
    assert IsRun(Apply(n, b), []);
    assert IsRun(n, [b]) && After(n, [b]) == Apply(n, b);
  }

  lemma ThreeSteps(s: State, a: Step, b: Step, d: Step)
    requires Possible(s, a) && Possible(Apply(s, a), b) && Possible(Apply(Apply(s, a), b), d)
    ensures IsRun(s, [a, b, d]) && After(s, [a, b, d]) == Apply(Apply(Apply(s, a), b), d)
  {
    hide Enabled, Assumed, Apply;
    assert [a, b, d][1..] == [b, d];
    TwoSteps(Apply(s, a), b, d);
  }

  ghost predicate ChairOnRide(s: State, c: ChairId, i: RideId) {
    ChairOn(s, c) && s.chairs[c].mind.request == Some(i) && !s.reqs[i].evaluating
  }

  lemma AcceptCall(s: State, c: ChairId, i: RideId)
    requires ChairOnRide(s, c, i) && s.reqs[i].st.chair == Matching && Rides(s)[i].chair == Some(c)
    ensures Enabled(s, Accept(c))
    ensures var s' := Apply(s, Accept(c));
            && s'.reqs == s.reqs[i := s.reqs[i].(call := Accepting)] && s'.chairs == s.chairs && s'.time == s.time
            && InCall(s', c, Accepting)
  {
    ServerEffect(s, W.PostStatus(i, c, W.PostEnroute), i);
  }

  lemma AcceptTick(s: State, c: ChairId, i: RideId)
    requires ChairOnRide(s, c, i) && s.reqs[i].st.chair == Matching && Rides(s)[i].chair == Some(c)
    ensures IsRun(s, [Accept(c), AcceptDone(c)])
    ensures var q, s' := s.reqs[i], After(s, [Accept(c), AcceptDone(c)]);
            |s'.reqs| == |s.reqs| &&
            s'.reqs[i] == q.(matchedAt := s.time, st := q.st.(desired := Enroute, chair := Enroute))
  {
    hide IsRun, After;
    AcceptCall(s, c, i);
    AnswerEffect(Apply(s, Accept(c)), c, i, AcceptDone(c));
    TwoSteps(s, Accept(c), AcceptDone(c));
  }

  lemma AnswerEffect(s: State, c: ChairId, i: RideId, step: Step)
    requires c < |s.chairs| && s.chairs[c].mind.request == Some(i)
    requires (step == AcceptDone(c) && InCall(s, c, Accepting)) || (step == DepartDone(c) && InCall(s, c, Departing))
    ensures Enabled(s, step)
    ensures var q := s.reqs[i];
            Apply(s, step).reqs == s.reqs[i :=
              if step.AcceptDone?
              then q.(call := NoCall, matchedAt := s.time, st := q.st.(desired := Enroute, chair := Enroute))
              else q.(call := NoCall, pickedUpAt := s.time, st := q.st.(desired := Carrying, chair := Carrying))]
  {
  }

  lemma DepartCall(s: State, c: ChairId, i: RideId)
    requires ChairOnRide(s, c, i) && s.reqs[i].st.chair == Pickup && s.reqs[i].st.user == Pickup
    requires Rides(s)[i].chair == Some(c) && W.Latest(Rides(s)[i].log) == Pickup
    ensures Enabled(s, Depart(c))
    ensures var s' := Apply(s, Depart(c));
            && s'.reqs == s.reqs[i := s.reqs[i].(call := Departing)] && s'.chairs == s.chairs && s'.time == s.time
            && InCall(s', c, Departing)
  {
    ServerEffect(s, W.PostStatus(i, c, W.PostCarrying), i);
  }

  lemma DepartTick(s: State, c: ChairId, i: RideId)
    requires ChairOnRide(s, c, i) && s.reqs[i].st.chair == Pickup && s.reqs[i].st.user == Pickup
    requires Rides(s)[i].chair == Some(c) && W.Latest(Rides(s)[i].log) == Pickup
    ensures IsRun(s, [Depart(c), DepartDone(c)])
    ensures var q, s' := s.reqs[i], After(s, [Depart(c), DepartDone(c)]);
            |s'.reqs| == |s.reqs| &&
            s'.reqs[i] == q.(pickedUpAt := s.time, st := q.st.(desired := Carrying, chair := Carrying))
  {
    hide IsRun, After;
    DepartCall(s, c, i);
    AnswerEffect(Apply(s, Depart(c)), c, i, DepartDone(c));
    TwoSteps(s, Depart(c), DepartDone(c));
  }

  predicate OwnTrip(r: W.Ride, q: Req) {
    q.trip == A.Trip(r.pickup, r.dest, q.trip.fare)
  }

  /** The request after the chair has moved, while its position is being posted. */
  function Posted(q: Req, now: int, to: Coord): Req {
    var next := AfterChairTick(q, now, to, true);
    if next.st == q.st then next else next.(call := Posting)
  }

  lemma MoveCall(s: State, c: ChairId, i: RideId, to: Coord)
    requires ChairOnRide(s, c, i) && Moves(s.reqs[i]) && OwnTrip(Rides(s)[i], s.reqs[i])
    ensures Enabled(s, Move(c, to))
    ensures var s' := Apply(s, Move(c, to));
            && s'.m == s.m && s'.reqs == s.reqs[i := Posted(s.reqs[i], s.time, to)]
            && s'.chairs == s.chairs[c := s.chairs[c].(loc := to, sync := Moved)]
  {
  }

  lemma PostCalls(s: State, c: ChairId, i: RideId)
    requires c < |s.chairs| && s.chairs[c].sync == Moved && s.chairs[c].mind.request == Some(i) && Known(s, i)
    ensures Enabled(s, Post(c)) && Enabled(Apply(s, Post(c)), PostDone(c))
    ensures var s' := Apply(Apply(s, Post(c)), PostDone(c));
            && s'.reqs == s.reqs[i := s.reqs[i].(call := NoCall)]
            && s'.chairs == s.chairs[c := s.chairs[c].(sync := Clean)]
  {
    hide W.CoordinatePosted, W.LatestOfChair;
    var q := W.PostCoordinate(c, s.chairs[c].loc);
    if W.Target(s.m.t, q).Some? {
      ServerEffect(s, q, W.Target(s.m.t, q).value);
    }
  }

  lemma MoveTick(s: State, c: ChairId, i: RideId, to: Coord)
    requires ChairOnRide(s, c, i) && Moves(s.reqs[i]) && OwnTrip(Rides(s)[i], s.reqs[i])
    ensures IsRun(s, [Move(c, to), Post(c), PostDone(c)])
    ensures var s' := After(s, [Move(c, to), Post(c), PostDone(c)]);
            && |s'.reqs| == |s.reqs| && s'.reqs[i] == AfterChairTick(s.reqs[i], s.time, to, true)
            && s'.chairs == s.chairs[c := s.chairs[c].(loc := to)]
  {
    hide Enabled, Apply, IsRun, After;
    MoveCall(s, c, i, to);
    PostCalls(Apply(s, Move(c, to)), c, i);
    ThreeSteps(s, Move(c, to), Post(c), PostDone(c));
    assert s.chairs[c].(loc := to) == s.chairs[c].(loc := to, sync := Moved).(sync := Clean);
  }

  /** An uninterrupted tick of a chair is a run of the protocol with the effect of the method,
      and the server accepts its calls. */
  lemma ChairTickIsRun(s: State, c: ChairId, i: RideId, to: Coord)
    requires Inv(s) && ChairOnRide(s, c, i)
    ensures var q, steps := s.reqs[i], ChairSteps(s.reqs[i], c, to);
            && IsRun(s, steps) && i < |After(s, steps).reqs|
            && After(s, steps).reqs[i] == AfterChairTick(q, s.time, to, true)
  {
    hide Inv, Apply, Enabled, RideFits, PositionFits, W.RideOk, W.Latest;
    ProtocolChairs.ChairCurrent(s, c, i);
    RideAt(s, i);
    ProtocolUsers.TripFits(Rides(s)[i], s.reqs[i], s.time);
    match s.reqs[i].st.chair
    case Matching => AcceptTick(s, c, i);
    case Pickup =>
      if s.reqs[i].st.user == Pickup {
        PickedUpRow(s, c, i);
        DepartTick(s, c, i);
      }
    case Enroute => MoveTick(s, c, i, to);
    case Carrying => MoveTick(s, c, i, to);
    case _ =>
  }

  lemma PickedUpRow(s: State, c: ChairId, i: RideId)
    requires Inv(s) && ChairOnRide(s, c, i) && s.reqs[i].st.chair == Pickup && s.reqs[i].st.user == Pickup
    ensures W.Latest(Rides(s)[i].log) == Pickup
  {
    hide Inv, W.RideOk;
    ProtocolChairs.ChairCurrent(s, c, i);
    RideAt(s, i);
    ProtocolChairs.DepartFits(Rides(s)[i], s.reqs[i], s.chairs[c], s.time);
  }

  /** An uninterrupted evaluation is a run of the protocol with the effect of the user's tick;
      the times it needs are there and the server accepts it. */
  lemma UserTickIsRun(s: State, u: UserId, i: RideId, score: int)
    requires Inv(s) && UserOn(s, u) && LockFree(s, u) && s.users[u].request == Some(i) && 1 <= score <= 5
    requires s.reqs[i].st.user == Arrived && s.reqs[i].st.desired != Completed
    ensures Timed(s.reqs[i])
    ensures var q, steps := s.reqs[i], [Evaluate(u, score), EvaluateDone(u)];
            && IsRun(s, steps) && i < |After(s, steps).reqs|
            && After(s, steps).reqs[i] == q.(st := q.st.(desired := Completed))
  {
    hide Inv, RideFits, W.RideOk, W.EvaluationAccepted, Timed;
    RideAt(s, i);
    ProtocolUsers.LogBounds(Rides(s)[i]);
    ProtocolUsers.EvaluatedRide(Rides(s)[i], s.reqs[i], s.time, score, 0);
    TwoSteps(s, Evaluate(u, score), EvaluateDone(u));
  }
}
