/** What holds in every run of the protocol, from an empty server with any number of users and
    chairs. */
module ProtocolRuns {
  import opened Grid
  import opened Wrappers
  import opened RideStatus
  import opened Protocol
  import opened ProtocolFrames
  import ProtocolUsers
  import ProtocolChairs
  import A = Agents
  import H = Handlers
  import M = Matching
  import W = WebApp

  lemma StartFits(users: nat, homes: seq<Coord>)
    ensures Sound(Start(users, homes))
  {
    hide M.FullInv;
    M.StartFits();
    var s := Start(users, homes);
    forall u | 0 <= u < |s.users|
      ensures UserFits(Rides(s), s.reqs, s.users[u], u)
    {
      assert s.users[u] == NewUser();
    }
    forall c | 0 <= c < |s.chairs|
      ensures ChairFits(Rides(s), s.reqs, s.chairs[c], M.Heard(s.m, c), c)
    {
      assert s.chairs[c] == NewChair(homes[c]);
    }
  }

  /** No request but the matcher's gives a ride a chair. */
  lemma ServerKeepsChairs(s: State, q: W.Request, i: RideId)
    requires !q.Assign? && i < |Rides(Server(s, q))|
    ensures Rides(Server(s, q))[i].chair.Some? ==>
              i < |Rides(s)| && Rides(s)[i].chair == Rides(Server(s, q))[i].chair
    ensures Server(s, q).m.matcher == s.m.matcher && |Rides(s)| <= |Rides(Server(s, q))|
  {
  }

  /** The server's part in an agent's step. */
  function CallOf(s: State, step: Step): Option<W.Request>
    requires Enabled(s, step)
  {
    match step
    case Create(u, trip) =>
      if W.NoContinuingRide(Rides(s), u) then Some(W.CreateRide(u, trip.pickup, trip.dest)) else None
    case UserPoll(u, _) => Some(W.AppPoll(u))
    case Evaluate(u, score) =>
      var i := s.users[u].request.value;
      if Timed(s.reqs[i]) && W.EvaluationAccepted(Rides(s)[i], score) then Some(W.Evaluate(i, score, true)) else None
    case ChairPoll(c) => Some(W.ChairPoll(c))
    case Accept(c) =>
      var i := s.chairs[c].mind.request.value;
      if Rides(s)[i].chair == Some(c) then Some(W.PostStatus(i, c, W.PostEnroute)) else None
    case Post(c) => Some(W.PostCoordinate(c, s.chairs[c].loc))
    case Depart(c) =>
      var i := s.chairs[c].mind.request.value;
      if Rides(s)[i].chair == Some(c) && W.Latest(Rides(s)[i].log) == Pickup
      then Some(W.PostStatus(i, c, W.PostCarrying)) else None
    case _ => None
  }

  lemma AgentsCall(s: State, step: Step)
    requires Enabled(s, step) && !step.Matcher?
    ensures CallOf(s, step).Some? ==> !CallOf(s, step).value.Assign?
    ensures Apply(s, step).m == (if CallOf(s, step).Some? then Server(s, CallOf(s, step).value).m else s.m)
    ensures |Apply(s, step).chairs| == |s.chairs| && |Apply(s, step).users| == |s.users|
  {
    hide W.NoContinuingRide, W.EvaluationAccepted, W.Latest, Timed, A.UserReact, A.ChairReact, A.UserValid, W.LatestOfUser,
         M.AfterHandle, NextStatus, NextEvent, A.MindAfter, A.SameData, A.ValidatedAfter;
  }

  lemma StepKeepsKnown(s: State, step: Step)
    requires ChairsKnown(s) && Enabled(s, step)
    ensures ChairsKnown(Apply(s, step))
  {
    hide Enabled, Apply, CallOf, M.AfterHandle;
    var s' := Apply(s, step);
    if step.Matcher? {
      MatcherKeepsKnown(s, step);
    } else {
      AgentsCall(s, step);
      var q := CallOf(s, step);
      if q.Some? {
        forall i | 0 <= i < |Rides(s')| && Rides(s')[i].chair.Some?
          ensures Rides(s')[i].chair.value < |s'.chairs|
        {
          ServerKeepsChairs(s, q.value, i);
        }
        MatcherIsAlone(s, q.value);
      } else {
        assert Rides(s') == Rides(s);
      }
    }
  }

  lemma MatcherIsAlone(s: State, q: W.Request)
    ensures Server(s, q).m.matcher == s.m.matcher
  {
  }

  lemma MatcherKeepsKnown(s: State, step: Step)
    requires ChairsKnown(s) && step.Matcher? && Enabled(s, step)
    ensures ChairsKnown(Apply(s, step))
  {
    hide M.ChairFree;
    var s' := Apply(s, step);
    if step.step.Update? {
      assert forall i | 0 <= i < |Rides(s')| ::
          Rides(s')[i].chair == Rides(s)[i].chair || Rides(s')[i].chair == Some(s.m.matcher.chair);
    } else {
      assert Rides(s') == Rides(s);
    }
  }

  ghost predicate Sound(s: State) {
    Inv(s) && ChairsKnown(s)
  }

  lemma StepKeepsInv(s: State, step: Step)
    requires Sound(s) && Possible(s, step)
    ensures Sound(Apply(s, step))
  {
    hide Inv, ChairsKnown;
    StepKeepsKnown(s, step);
    match step
    case Tick => ProtocolUsers.TickKeeps(s);
    case Matcher(m) => if m.Update? { ProtocolChairs.UpdateKeeps(s); } else { ProtocolChairs.MatcherOnlyKeeps(s, m); }
    case RegisterPayment(_) => ProtocolUsers.PlanKeeps(s, step);
    case Plan(_) => ProtocolUsers.PlanKeeps(s, step);
    case Drop(_) => ProtocolUsers.PlanKeeps(s, step);
    case Create(u, trip) => ProtocolUsers.CreateKeeps(s, u, trip);
    case Register(u) => ProtocolUsers.RegisterKeeps(s, u);
    case UserPoll(u, fare) => ProtocolUsers.UserPollKeeps(s, u, fare);
    case UserHandle(u) => ProtocolUsers.UserHandleKeeps(s, u);
    case Late(u, i) => ProtocolUsers.LateKeeps(s, u, i);
    case Evaluate(u, score) => ProtocolUsers.EvaluateKeeps(s, u, score);
    case EvaluateDone(u) => ProtocolUsers.EvaluateDoneKeeps(s, u);
    case Close(u) => ProtocolUsers.CloseKeeps(s, u);
    case ChairPoll(c) => ProtocolChairs.ChairPollKeeps(s, c);
    case ChairHandle(c) => ProtocolChairs.ChairHandleKeeps(s, c);
    case TakeUp(c) => ProtocolChairs.TakeUpKeeps(s, c);
    case Accept(c) => ProtocolChairs.AcceptKeeps(s, c);
    case AcceptDone(_) => ProtocolChairs.DoneKeeps(s, step);
    case Move(c, to) => ProtocolChairs.MoveKeeps(s, c, to);
    case Post(c) => ProtocolChairs.PostKeeps(s, c);
    case PostDone(c) => ProtocolChairs.PostDoneKeeps(s, c);
    case Depart(c) => ProtocolChairs.DepartKeeps(s, c);
    case DepartDone(_) => ProtocolChairs.DoneKeeps(s, step);
  }

  lemma {:induction false} RunKeepsInv(s: State, steps: seq<Step>)
    requires Sound(s) && IsRun(s, steps)
    ensures Sound(After(s, steps))
    decreases |steps|
  {
    hide Sound, Apply, Enabled;
    if steps != [] {
      StepKeepsInv(s, steps[0]);
      RunKeepsInv(Apply(s, steps[0]), steps[1..]);
    }
  }

  /** Some run leads from s to t. */
  ghost predicate Leads(s: State, t: State) {
    exists steps: seq<Step> :: IsRun(s, steps) && t == After(s, steps)
  }

  ghost predicate Reachable(s: State) {
    exists users: nat, homes: seq<Coord> :: Leads(Start(users, homes), s)
  }

  lemma LeadsKeepInv(s: State, t: State)
    requires Sound(s) && Leads(s, t)
    ensures Sound(t)
  {
    hide Sound, Apply, Possible;
    var steps :| IsRun(s, steps) && t == After(s, steps);
    RunKeepsInv(s, steps);
  }

  lemma ReachableFits(s: State)
    requires Reachable(s)
    ensures Sound(s)
  {
    hide Sound, Leads;
    var users: nat, homes: seq<Coord> :| Leads(Start(users, homes), s);
    StartFits(users, homes);
    LeadsKeepInv(Start(users, homes), s);
  }

  lemma {:induction false} RunConcat(s: State, a: seq<Step>, b: seq<Step>)
    requires IsRun(s, a) && IsRun(After(s, a), b)
    ensures IsRun(s, a + b) && After(s, a + b) == After(After(s, a), b)
    decreases |a|
  {
    hide Enabled, Assumed, Apply;
    if a == [] {
      assert [] + b == b;
    } else {
      assert (a + b)[1..] == a[1..] + b;
      RunConcat(Apply(s, a[0]), a[1..], b);
    }
  }

  lemma LeadsTo(s: State)
    ensures Leads(s, s)
  {
    assert IsRun(s, []) && After(s, []) == s;
  }

  lemma LeadsFurther(s: State, t: State, v: State)
    requires Leads(s, t) && Leads(t, v)
    ensures Leads(s, v)
  {
    hide IsRun, After;
    var a :| IsRun(s, a) && t == After(s, a);
    var b :| IsRun(t, b) && v == After(t, b);
    RunConcat(s, a, b);
  }

  lemma StepLeads(s: State, step: Step)
    requires Possible(s, step)
    ensures Leads(s, Apply(s, step))
  {
    hide Enabled, Assumed, Apply;
    assert [step][1..] == [];
    assert IsRun(Apply(s, step), []);
    assert IsRun(s, [step]) && After(s, [step]) == Apply(s, step);
  }

  lemma LeadsOn(s: State, t: State, step: Step)
    requires Leads(s, t) && Possible(t, step)
    ensures Leads(s, Apply(t, step))
  {
    hide Leads, Enabled, Assumed, Apply;
    StepLeads(t, step);
    LeadsFurther(s, t, Apply(t, step));
  }

  lemma ReachesFurther(s: State, t: State)
    requires Reachable(s) && Leads(s, t)
    ensures Reachable(t)
  {
    hide Leads;
    var users: nat, homes: seq<Coord> :| Leads(Start(users, homes), s);
    LeadsFurther(Start(users, homes), s, t);
  }

  /** In no run does an agent report an error, does the server refuse a call of an agent, or is
      an evaluation asked for without its times. */
  lemma NoFault(users: nat, homes: seq<Coord>, steps: seq<Step>)
    requires IsRun(Start(users, homes), steps)
    ensures !After(Start(users, homes), steps).fault
  {
    hide Apply, Possible;
    StartFits(users, homes);
    RunKeepsInv(Start(users, homes), steps);
  }

  /** The one moment a run must avoid: a COMPLETED of an earlier ride is dropped if and only if
      the current ride is not expected to be completed. Otherwise the user reports wrong data
      if and only if the trips differ, and equal trips complete the current ride. */
  lemma LateOutcomes(s: State, u: UserId, i: RideId)
    requires Reachable(s) && Enabled(s, Late(u, i))
    ensures var x := s.users[u];
            var expected := x.request.Some? && s.reqs[x.request.value].st.desired == Completed;
            && (LateOutcome(s, u, i) == A.Ignored <==> !expected)
            && (LateOutcome(s, u, i) == A.WrongData <==>
                  expected && s.reqs[i].trip != s.reqs[x.request.value].trip)
            && (LateOutcome(s, u, i) == A.Accepted <==>
                  expected && s.reqs[i].trip == s.reqs[x.request.value].trip)
            && (Apply(s, Late(u, i)).fault <==> LateOutcome(s, u, i) == A.WrongData)
  {
    hide Inv, ChairsKnown, LateOutcome;
    ReachableFits(s);
    UserOf(s, u);
    ProtocolUsers.LateOutcomeIff(s, u, i);
  }

  /** Every notification a user takes from its queue is a transition it accepts. */
  lemma EveryTransitionIsTolerated(s: State, u: UserId)
    requires Reachable(s) && Enabled(s, UserHandle(u))
    ensures A.Tolerated(s.reqs[s.users[u].request.value].st, NextStatus(s, u).value)
  {
    hide Inv, A.Tolerated, NextStatus;
    ReachableFits(s);
    ProtocolUsers.UserHears(s, u);
  }

  /** When the user has arrived, all four times are there and in order, so the evaluation can
      be calculated. */
  lemma ArrivedHasTimes(s: State, i: RideId)
    requires Reachable(s) && i < |s.reqs| && s.reqs[i].st.user == Arrived
    ensures var q := s.reqs[i];
            0 < q.requestedAt <= q.matchedAt <= q.dispatchedAt <= q.pickedUpAt <= q.arrivedAt <= s.time
  {
    hide Inv, W.RideOk, M.SixPrefix;
    ReachableFits(s);
    SameLength(s);
    RideAt(s, i);
    SeenInTime(Rides(s)[i], s.reqs[i], s.time);
  }

  lemma SameLength(s: State)
    requires Inv(s)
    ensures |s.reqs| == |Rides(s)|
  {
  }

  lemma SeenInTime(r: W.Ride, q: Req, time: int)
    requires RideFits(r, q, time) && q.st.user == Arrived
    ensures 0 < q.requestedAt <= q.matchedAt <= q.dispatchedAt <= q.pickedUpAt <= q.arrivedAt <= time
  {
  }

  /** Nobody is driven off unseen: a ride with a CARRYING row has a user who has handled
      PICKUP, and a completed one a user who has handled ARRIVED. */
  lemma UserIsNeverLeftBehind(s: State, i: RideId, row: nat)
    requires Reachable(s) && i < |Rides(s)| && row < |Rides(s)[i].log|
    ensures i < |s.reqs|
    ensures Rides(s)[i].log[row].status == Carrying ==> Rank(s.reqs[i].st.user) >= 2
    ensures Rides(s)[i].log[row].status == Completed ==> Rank(s.reqs[i].st.user) >= 4
  {
    hide Inv, W.RideOk, TimesFit, PhaseFits;
    ReachableFits(s);
    SameLength(s);
    RideAt(s, i);
  }

  /** The simulator's users never ask for a ride before the earlier one has been delivered to
      them: of every ride that is not a user's latest, all six rows have been sent. */
  lemma EarlierRidesAreDelivered(s: State, i: RideId, j: RideId)
    requires Reachable(s) && i < j < |Rides(s)| && Rides(s)[i].user == Rides(s)[j].user
    ensures |Rides(s)[i].log| == 6 && W.AllSent(Rides(s)[i].log, W.App)
  {
    hide Inv, UserFits, W.RideOk, M.SixPrefix, RideFits;
    ReachableFits(s);
    SameLength(s);
    var u := Rides(s)[i].user;
    UserExists(s, i);
    UserOf(s, u);
    OlderIsPast(Rides(s), s.reqs, s.users[u], u, i, j);
    RideAt(s, i);
    PastIsSent(Rides(s)[i], s.reqs[i], s.time);
  }

  lemma UserExists(s: State, i: RideId)
    requires Inv(s) && i < |Rides(s)|
    ensures Rides(s)[i].user < |s.users|
  {
    hide UserFits, M.FullInv, RidesFit, ChairsFit;
  }

  lemma OlderIsPast(rides: seq<W.Ride>, reqs: seq<Req>, x: UserRec, u: UserId, i: RideId, j: RideId)
    requires |reqs| == |rides| && UserFits(rides, reqs, x, u)
    requires i < j < |rides| && rides[i].user == u && rides[j].user == u
    ensures Past(reqs[i])
  {
  }

  lemma PastIsSent(r: W.Ride, q: Req, time: int)
    requires W.RideOk(r) && M.SixPrefix(r.log) && RideFits(r, q, time) && Past(q)
    ensures |r.log| == 6 && W.AllSent(r.log, W.App)
  {
    assert r.Seen(W.App) == r.appSeen;
  }

  /** While a chair is under way, server and simulator agree on its finished rides: every other
      ride of the chair is finished on both sides, this one on neither. */
  lemma StatisticsAgree(s: State, c: ChairId, i: RideId, j: RideId)
    requires Reachable(s) && c < |s.chairs| && i < |Rides(s)| && j < |Rides(s)|
    requires Rides(s)[i].chair == Some(c) && 2 <= |Rides(s)[i].log| <= 5
    requires Rides(s)[j].chair == Some(c)
    ensures j < |s.reqs| && i < |s.reqs|
    ensures j != i ==> W.Latest(Rides(s)[j].log) == Completed && s.reqs[j].st.desired == Completed
    ensures j == i ==> W.Latest(Rides(s)[j].log) != Completed && s.reqs[j].st.desired != Completed
  {
    hide Inv, ChairFits, RideFits, W.RideOk, M.SixPrefix;
    ReachableFits(s);
    SameLength(s);
    RideAt(s, i);
    RideAt(s, j);
    ProtocolChairs.LatestIsCurrent(s, c, i);
    UnderWayIsCurrent(s, c, i);
    if j != i {
      ProtocolChairs.LogAtMostSix(Rides(s)[j]);
      OtherIsClosed(s, c, i, j);
      FinishedElsewhere(s, c, i, j);
    } else {
      LengthToPhase(Rides(s)[i], s.reqs[i], s.time);
    }
  }

  lemma LengthToPhase(r: W.Ride, q: Req, time: int)
    requires RideFits(r, q, time) && |r.log| <= 5
    ensures q.st.desired != Completed
  {
  }

  lemma UnderWayIsCurrent(s: State, c: ChairId, i: RideId)
    requires Inv(s) && c < |s.chairs| && i < |Rides(s)| && Rides(s)[i].chair == Some(c)
    requires 2 <= |Rides(s)[i].log| <= 5
    ensures s.chairs[c].mind.request == Some(i)
  {
    if s.chairs[c].mind.request != Some(i) {
      ProtocolChairs.OtherRides(s, c, i);
    }
  }

  lemma OtherIsClosed(s: State, c: ChairId, i: RideId, j: RideId)
    requires Inv(s) && i < |Rides(s)| && j < |Rides(s)| && i != j && |Rides(s)[i].log| < 6
    requires Rides(s)[i].chair == Some(c) && Rides(s)[j].chair == Some(c)
    ensures |Rides(s)[j].log| == 6
  {
    hide RideFits, UsersFit, ChairsFit;
    if |Rides(s)[j].log| < 6 {
      ProtocolChairs.LatestIsCurrent(s, c, i);
      ProtocolChairs.LatestIsCurrent(s, c, j);
    } else {
      RideAt(s, j);
    }
  }

  lemma FinishedElsewhere(s: State, c: ChairId, i: RideId, j: RideId)
    requires Inv(s) && c < |s.chairs| && j < |Rides(s)| == |s.reqs| && s.chairs[c].mind.request == Some(i) && i != j
    requires Rides(s)[j].chair == Some(c) && |Rides(s)[j].log| == 6
    ensures s.reqs[j].st.desired == Completed
  {
    hide Inv, MindFits, PositionFits;
    ChairOf(s, c);
    assert TakenFits(Rides(s)[j], s.reqs[j], j, s.chairs[c], Handled(s.chairs[c], M.Heard(s.m, c)));
  }

  /** So the number of rides that the server's statistics have for a chair under way is the
      number of the chair's rides that the simulator has evaluated, all of which are in the
      chair's history. */
  lemma CountsAgree(s: State, c: ChairId, i: RideId)
    requires Reachable(s) && c < |s.chairs| && i < |Rides(s)| && Rides(s)[i].chair == Some(c)
    requires 2 <= |Rides(s)[i].log| <= 5
    ensures |s.reqs| == |Rides(s)|
    ensures var evaluated :=
              set j: RideId | 0 <= j < |Rides(s)| && Rides(s)[j].chair == Some(c) && s.reqs[j].st.desired == Completed;
            H.FinishedCount(Rides(s), c) == |evaluated| && forall j | j in evaluated :: j in s.chairs[c].history
  {
    hide Inv, Reachable, ChairFits, W.RideOk, M.SixPrefix, RideFits, H.Finished, H.FinishedCount;
    ReachableFits(s);
    SameLength(s);
    var evaluated :=
      set j: RideId | 0 <= j < |Rides(s)| && Rides(s)[j].chair == Some(c) && s.reqs[j].st.desired == Completed;
    forall j | 0 <= j < |Rides(s)| && Rides(s)[j].chair == Some(c)
      ensures H.Finished(Rides(s)[j].log) <==> s.reqs[j].st.desired == Completed
      ensures s.reqs[j].st.desired == Completed ==> j in s.chairs[c].history
    {
      StatisticsAgree(s, c, i, j);
      RideAt(s, j);
      FinishedIsLatest(Rides(s)[j]);
      if j != i {
        UnderWayIsCurrent(s, c, i);
        EvaluatedIsPast(s, c, i, j);
      }
    }
    H.FinishedCountIs(Rides(s), c);
    assert H.FinishedRides(Rides(s), c) == evaluated;
  }

  lemma FinishedIsLatest(r: W.Ride)
    requires M.SixPrefix(r.log)
    ensures H.Finished(r.log) <==> W.Latest(r.log) == Completed
  {
    if W.Latest(r.log) == Completed {
      assert r.log[|r.log| - 1].status == Completed;
    }
  }

  lemma EvaluatedIsPast(s: State, c: ChairId, i: RideId, j: RideId)
    requires Inv(s) && c < |s.chairs| && j < |Rides(s)| == |s.reqs| && s.chairs[c].mind.request == Some(i) && i != j
    requires Rides(s)[j].chair == Some(c) && s.reqs[j].st.desired == Completed
    ensures j in s.chairs[c].history
  {
    hide Inv, MindFits, PositionFits;
    ProtocolUsers.PastIsCompleted(s, j);
    ChairOf(s, c);
    assert TakenFits(Rides(s)[j], s.reqs[j], j, s.chairs[c], Handled(s.chairs[c], M.Heard(s.m, c)));
  }

  /** The chair's idea of its current ride never gets to COMPLETED while it is still current. */
  lemma NoCompletedRequest(s: State, c: ChairId)
    requires Reachable(s) && c < |s.chairs| && s.chairs[c].mind.request.Some?
    ensures s.chairs[c].mind.request.value < |s.reqs|
    ensures s.reqs[s.chairs[c].mind.request.value].st.chair != Completed
  {
    hide Inv;
    ReachableFits(s);
    ProtocolChairs.ChairCurrent(s, c, s.chairs[c].mind.request.value);
  }
}
