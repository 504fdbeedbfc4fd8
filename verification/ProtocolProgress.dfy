/** The protocol does not get stuck: as long as a ride with a chair is not over, some agent can
    do something for it. */
module ProtocolProgress {
  import opened Grid
  import opened Wrappers
  import opened RideStatus
  import opened Deliveries
  import opened Protocol
  import opened ProtocolFrames
  import ProtocolUsers
  import ProtocolChairs
  import ProtocolRuns
  import A = Agents
  import M = Matching
  import W = WebApp

  /** Ride i with its chair and its user. */
  ghost predicate Assigned(s: State, i: RideId, c: ChairId, u: UserId) {
    && i < |Rides(s)| == |s.reqs| && c < |s.chairs| && u < |s.users|
    && Rides(s)[i].chair == Some(c) && Rides(s)[i].user == u
  }

  function SyncWeight(sync: Sync): nat {
    match sync
    case Clean => 0
    case Moved => 2
    case Posted => 1
  }

  /** The user's notifications about ride i that it has not handled, and those not yet sent. */
  ghost function UserWork(r: W.Ride, x: UserRec, i: RideId): int {
    |r.appSeen| - (if x.request == Some(i) then x.handled else 0) + 2 * (6 - |Dedup(r.appSeen)|)
  }

  ghost function ChairWork(r: W.Ride, k: ChairRec, heard: seq<M.Event>): int {
    |heard| - k.handled + 2 * (6 - |Dedup(r.chairSeen)|)
  }

  /** The chair may have to finish with another ride first. */
  ghost function MindWork(reqs: seq<Req>, k: ChairRec, i: RideId): int {
    if k.mind.request == Some(i) then 0
    else if k.mind.request.Some? && k.mind.request.value < |reqs| && reqs[k.mind.request.value].evaluating then 6
    else 5
  }

  /** What is left to do for ride i. */
  ghost function Work(s: State, i: RideId, c: ChairId, u: UserId): int
    requires Assigned(s, i, c, u)
  {
    var r, q, k := Rides(s)[i], s.reqs[i], s.chairs[c];
    10 * (5 - Rank(q.st.desired)) + 10 * (6 - |r.log|) + SyncWeight(k.sync) + (if q.registered then 0 else 1)
    + UserWork(r, s.users[u], i) + ChairWork(r, k, M.Heard(s.m, c)) + MindWork(s.reqs, k, i)
  }

  lemma WorkIsLeft(s: State, i: RideId, c: ChairId, u: UserId)
    requires Inv(s) && Assigned(s, i, c, u)
    ensures Work(s, i, c, u) >= 0
  {
    hide Inv, M.SixPrefix, W.RideOk, UserFits, ChairFits;
    RideAt(s, i);
    UserOf(s, u);
    ChairOf(s, c);
    Bounds(Rides(s)[i]);
    QueueLengths(Rides(s), s.reqs, s.users[u], u, s.chairs[c], M.Heard(s.m, c), c, i);
  }

  lemma Bounds(r: W.Ride)
    requires W.RideOk(r) && M.SixPrefix(r.log)
    ensures |Dedup(r.appSeen)| <= |r.log| <= 6 && |Dedup(r.chairSeen)| <= |r.log|
  {
    assert r.Seen(W.App) == r.appSeen && r.Seen(W.Chair) == r.chairSeen;
  }

  lemma QueueLengths(rides: seq<W.Ride>, reqs: seq<Req>, x: UserRec, u: UserId, k: ChairRec, heard: seq<M.Event>,
                     c: ChairId, i: RideId)
    requires |reqs| == |rides| && i < |rides| && UserFits(rides, reqs, x, u) && ChairFits(rides, reqs, k, heard, c)
    ensures x.request == Some(i) ==> x.handled <= |rides[i].appSeen|
    ensures k.handled <= |heard|
  {
  }

  /** A step of an agent that has nothing to do with asking for a ride. */
  predicate Quiet(step: Step) {
    !step.Matcher? && !step.RegisterPayment? && !step.Plan? && !step.Drop? && !step.Create?
  }

  /** A step that is possible and leaves less to do for ride i. */
  ghost predicate Helps(s: State, step: Step, i: RideId, c: ChairId, u: UserId)
    requires Assigned(s, i, c, u)
  {
    && Possible(s, step) && Quiet(step) && Assigned(Apply(s, step), i, c, u)
    && Work(Apply(s, step), i, c, u) < Work(s, i, c, u)
  }

  // ---- Steps of the user -------------------------------------------------------------

  lemma RegisterHelps(s: State, i: RideId, c: ChairId, u: UserId)
    requires Assigned(s, i, c, u) && s.users[u].creating == Some(i) && s.users[u].request.None? && !s.reqs[i].registered
    requires Rides(s)[i].appSeen == []
    ensures Helps(s, Register(u), i, c, u)
  {
  }

  lemma EvaluateDoneHelps(s: State, i: RideId, c: ChairId, u: UserId)
    requires Assigned(s, i, c, u) && s.users[u].request == Some(i) && s.reqs[i].evaluating
    requires Rank(s.reqs[i].st.desired) == 4
    ensures Helps(s, EvaluateDone(u), i, c, u)
  {
  }

  /** Another ride's evaluation is finished for the chair's sake. */
  lemma OthersEvaluateDoneHelps(s: State, i: RideId, c: ChairId, u: UserId, j: RideId, v: UserId)
    requires Assigned(s, i, c, u) && s.chairs[c].mind.request == Some(j) && j != i && j < |s.reqs|
    requires v < |s.users| && s.users[v].request == Some(j) && s.reqs[j].evaluating
    ensures Helps(s, EvaluateDone(v), i, c, u)
  {
  }

  lemma UserHandleHelps(s: State, i: RideId, c: ChairId, u: UserId)
    requires Assigned(s, i, c, u) && s.users[u].request == Some(i) && s.users[u].creating.None?
    requires !s.reqs[i].evaluating && s.reqs[i].call != Accepting
    requires s.users[u].handled < |Rides(s)[i].appSeen| && Rides(s)[i].appSeen[s.users[u].handled] < |Rides(s)[i].log|
    requires s.users[u].handled < |s.users[u].news|
    ensures Helps(s, UserHandle(u), i, c, u)
  {
    hide A.UserReact, A.UserValid, A.ValidatedAfter, Dedup, W.LatestOfChair;
  }

  lemma UserPollHelps(s: State, i: RideId, c: ChairId, u: UserId)
    requires Inv(s) && Assigned(s, i, c, u) && s.users[u].request == Some(i)
    requires |Dedup(Rides(s)[i].appSeen)| < |Rides(s)[i].log|
    ensures Helps(s, UserPoll(u, s.reqs[i].trip.fare), i, c, u)
  {
    hide Inv, M.SixPrefix, W.RideOk, RideFits, W.LatestOfUser, W.Notified, Dedup, Apply;
    var step := UserPoll(u, s.reqs[i].trip.fare);
    ProtocolUsers.CurrentIsLatest(s, u);
    RideAt(s, i);
    ProtocolUsers.UserPollEffect(s, u, s.reqs[i].trip.fare, i);
    PollAdvances(Rides(s)[i], W.App);
    PollIsUnheard(s, u, c);
    assert Apply(s, step).reqs == s.reqs;
  }

  lemma PollIsUnheard(s: State, u: UserId, c: ChairId)
    ensures M.Heard(Server(s, W.AppPoll(u)).m, c) == M.Heard(s.m, c)
  {
  }

  lemma PollAdvances(r: W.Ride, who: W.Receiver)
    requires W.RideOk(r) && r.log != []
    ensures var r', k := W.Notified(r, who), |Dedup(r.Seen(who))|;
            && |r'.Seen(who)| == |r.Seen(who)| + 1 && (k < |r.log| ==> |Dedup(r'.Seen(who))| == k + 1)
            && |r'.log| == |r.log| && r'.chair == r.chair && r'.user == r.user
            && (who.App? ==> r'.chairSeen == r.chairSeen) && (who.Chair? ==> r'.appSeen == r.appSeen)
  {
    W.NotifiedInOrder(r, who);
  }

  lemma EvaluateHelps(s: State, i: RideId, c: ChairId, u: UserId)
    requires Assigned(s, i, c, u) && s.users[u].request == Some(i) && s.users[u].creating.None?
    requires !s.reqs[i].evaluating && s.reqs[i].call != Accepting && s.reqs[i].st.user == Arrived
    requires s.reqs[i].st.desired != Completed && Timed(s.reqs[i]) && W.EvaluationAccepted(Rides(s)[i], 5)
    ensures Helps(s, Evaluate(u, 5), i, c, u)
  {
    assert M.Heard(Apply(s, Evaluate(u, 5)).m, c) == M.Heard(s.m, c);
  }

  /** A user that does not know the latest status yet can get to know more. */
  lemma UserCatchesUp(s: State, i: RideId, c: ChairId, u: UserId) returns (step: Step)
    requires Inv(s) && Assigned(s, i, c, u) && s.users[u].request == Some(i)
    requires !s.reqs[i].evaluating && s.reqs[i].call != Accepting && Rank(s.reqs[i].st.user) < |Rides(s)[i].log| - 1
    ensures Helps(s, step, i, c, u)
  {
    hide Inv, M.SixPrefix, W.RideOk, RideFits, UserFits, Helps;
    UserOf(s, u);
    RideAt(s, i);
    UserQueue(Rides(s), s.reqs, s.users[u], u, i);
    if s.users[u].handled < |Rides(s)[i].appSeen| {
      SeenRows(Rides(s)[i], s.users[u].handled);
      step := UserHandle(u);
      UserHandleHelps(s, i, c, u);
    } else {
      step := UserPoll(u, s.reqs[i].trip.fare);
      UserPollHelps(s, i, c, u);
    }
  }

  lemma UserQueue(rides: seq<W.Ride>, reqs: seq<Req>, x: UserRec, u: UserId, i: RideId)
    requires |reqs| == |rides| && i < |rides| && UserFits(rides, reqs, x, u) && x.request == Some(i)
    ensures x.creating.None? && x.handled <= |rides[i].appSeen| == |x.news|
    ensures x.handled == |rides[i].appSeen| ==> |Dedup(rides[i].appSeen)| <= Rank(reqs[i].st.user) + 1
  {
    assert rides[i].appSeen[..|rides[i].appSeen|] == rides[i].appSeen;
  }

  lemma SeenRows(r: W.Ride, n: nat)
    requires W.RideOk(r) && n < |r.appSeen|
    ensures r.appSeen[n] < |r.log|
  {
    assert r.Seen(W.App) == r.appSeen;
    ProtocolChairs.SeenIsSent(r.appSeen, |Dedup(r.appSeen)|, n);
  }

  // ---- Steps of the chair ------------------------------------------------------------

  lemma PostHelps(s: State, i: RideId, c: ChairId, u: UserId)
    requires Assigned(s, i, c, u) && s.chairs[c].sync == Moved
    ensures Helps(s, Post(c), i, c, u)
  {
    hide W.CoordinatePosted, W.LatestOfChair, Dedup;
    var q := W.PostCoordinate(c, s.chairs[c].loc);
    if W.Target(s.m.t, q).Some? {
      ServerEffect(s, q, W.Target(s.m.t, q).value);
      PostGrows(Rides(s)[W.Target(s.m.t, q).value], s.chairs[c].loc);
    }
    assert M.Heard(Apply(s, Post(c)).m, c) == M.Heard(s.m, c);
  }

  lemma PostGrows(r: W.Ride, at: Coord)
    ensures var r' := W.CoordinatePosted(r, at);
            && r' == r.(log := r'.log) && |r'.log| >= |r.log|
  {
  }

  lemma PostDoneHelps(s: State, i: RideId, c: ChairId, u: UserId)
    requires Assigned(s, i, c, u) && s.chairs[c].sync == Posted
    requires s.chairs[c].mind.request.Some? ==> s.chairs[c].mind.request.value < |s.reqs|
    ensures Helps(s, PostDone(c), i, c, u)
  {
  }

  lemma CallDoneHelps(s: State, i: RideId, c: ChairId, u: UserId) returns (step: Step)
    requires Assigned(s, i, c, u) && s.chairs[c].mind.request == Some(i) && s.reqs[i].call in {Accepting, Departing}
    requires s.reqs[i].call == Accepting ==> Rank(s.reqs[i].st.desired) == 0
    requires s.reqs[i].call == Departing ==> Rank(s.reqs[i].st.desired) == 2
    ensures Helps(s, step, i, c, u)
  {
    step := if s.reqs[i].call == Accepting then AcceptDone(c) else DepartDone(c);
  }

  /** The chair is between calls and works on ride i. */
  ghost predicate Ready(s: State, i: RideId, c: ChairId, u: UserId) {
    && Assigned(s, i, c, u) && s.chairs[c].mind.request == Some(i) && s.chairs[c].sync == Clean
    && s.reqs[i].call == NoCall && !s.reqs[i].evaluating
  }

  lemma AcceptHelps(s: State, i: RideId, c: ChairId, u: UserId)
    requires Ready(s, i, c, u) && s.reqs[i].st.chair == Matching
    ensures Helps(s, Accept(c), i, c, u)
  {
    assert M.Heard(Apply(s, Accept(c)).m, c) == M.Heard(s.m, c);
  }

  lemma DepartHelps(s: State, i: RideId, c: ChairId, u: UserId)
    requires Ready(s, i, c, u) && s.reqs[i].st.chair == Pickup && s.reqs[i].st.user == Pickup
    requires W.Latest(Rides(s)[i].log) == Pickup
    ensures Helps(s, Depart(c), i, c, u)
  {
    assert M.Heard(Apply(s, Depart(c)).m, c) == M.Heard(s.m, c);
  }

  lemma MoveHelps(s: State, i: RideId, c: ChairId, u: UserId) returns (step: Step)
    requires Ready(s, i, c, u) && s.reqs[i].st.chair == s.reqs[i].st.desired && s.reqs[i].st.desired in {Enroute, Carrying}
    ensures Helps(s, step, i, c, u)
  {
    var r := Rides(s)[i];
    step := Move(c, if s.reqs[i].st.chair == Enroute then r.pickup else r.dest);
  }

  lemma ChairPollHelps(s: State, i: RideId, c: ChairId, u: UserId)
    requires Inv(s) && Assigned(s, i, c, u) && W.LatestOfChair(Rides(s), c) == Some(i)
    requires |Dedup(Rides(s)[i].chairSeen)| < |Rides(s)[i].log|
    ensures Helps(s, ChairPoll(c), i, c, u)
  {
    hide Inv, M.SixPrefix, W.RideOk, RideFits, W.LatestOfChair, Dedup;
    RideAt(s, i);
    ServerEffect(s, W.ChairPoll(c), i);
    PollAdvances(Rides(s)[i], W.Chair);
  }

  lemma TakeUpHelps(s: State, i: RideId, c: ChairId, u: UserId)
    requires Assigned(s, i, c, u) && s.chairs[c].sync == Clean && s.chairs[c].mind.request.None?
    requires s.chairs[c].mind.matching == Some(NoticeOf(Rides(s), i)) && s.reqs[i].registered
    ensures Helps(s, TakeUp(c), i, c, u)
  {
  }

  /** The head of the chair's queue can be handled. */
  lemma ChairHandleHelps(s: State, i: RideId, c: ChairId, u: UserId)
    requires Inv(s) && Assigned(s, i, c, u) && s.chairs[c].sync == Clean && s.chairs[c].mind.request != Some(i)
    requires s.chairs[c].handled < |M.Heard(s.m, c)|
    requires var j := s.chairs[c].mind.request;
             j.Some? ==> Known(s, j.value) && s.reqs[j.value].call == NoCall && !s.reqs[j.value].evaluating
    ensures Helps(s, ChairHandle(c), i, c, u)
  {
    hide Inv, ProtocolChairs.Heads, Dedup, ChairFits;
    ProtocolChairs.ChairHears(s, c);
    ChairOf(s, c);
    HandleEffect(s, i, c, u);
  }

  lemma HandleEffect(s: State, i: RideId, c: ChairId, u: UserId)
    requires Assigned(s, i, c, u) && Enabled(s, ChairHandle(c))
    requires s.chairs[c].mind.request != Some(i)
    requires var j := s.chairs[c].mind.request; j.Some? ==> j.value < |s.reqs| && !s.reqs[j.value].evaluating
    ensures Helps(s, ChairHandle(c), i, c, u)
  {
    hide A.ChairDataOk;
  }

  // ---- There is always a step --------------------------------------------------------

  /** The chair is on ride i and nothing is under way. */
  lemma CurrentHelps(s: State, i: RideId, c: ChairId, u: UserId) returns (step: Step)
    requires Inv(s) && Assigned(s, i, c, u) && s.users[u].request == Some(i) && s.chairs[c].mind.request == Some(i)
    requires s.chairs[c].sync == Clean && !s.reqs[i].evaluating && s.reqs[i].st.user != Completed
    ensures Helps(s, step, i, c, u)
  {
    hide Inv, M.SixPrefix, W.RideOk, Helps, W.Latest, W.EvaluationAccepted, Timed;
    var r, q := Rides(s)[i], s.reqs[i];
    RideAt(s, i);
    UserIsFree(s, u);
    ProtocolChairs.ChairCurrent(s, c, i);
    if q.call != NoCall {
      step := CallDoneHelps(s, i, c, u);
    } else if q.st.desired == Matching {
      step := Accept(c);
      AcceptHelps(s, i, c, u);
    } else if q.st.desired in {Enroute, Carrying} {
      step := MoveHelps(s, i, c, u);
    } else if Rank(q.st.user) < |r.log| - 1 {
      step := UserCatchesUp(s, i, c, u);
    } else {
      LogBoundsHere(s, i);
      if q.st.desired == Pickup {
        step := Depart(c);
        DepartHelps(s, i, c, u);
      } else {
        ProtocolUsers.EvaluatedRide(r, q, s.time, 5, 0);
        step := Evaluate(u, 5);
        EvaluateHelps(s, i, c, u);
      }
    }
  }

  lemma UserIsFree(s: State, u: UserId)
    requires Inv(s) && u < |s.users| && s.users[u].request.Some?
    ensures s.users[u].creating.None?
  {
    hide Inv;
    UserOf(s, u);
  }

  lemma LogBoundsHere(s: State, i: RideId)
    requires Inv(s) && i < |Rides(s)|
    ensures |Dedup(Rides(s)[i].appSeen)| <= |Rides(s)[i].log| <= 6
    ensures |Dedup(Rides(s)[i].chairSeen)| <= |Rides(s)[i].log|
  {
    hide Inv, W.RideOk, M.SixPrefix;
    RideAt(s, i);
    Bounds(Rides(s)[i]);
  }

  /** A chair that has handled everything it was told knows of its newest ride as much as has
      been sent of it. */
  lemma AllHandled(s: State, i: RideId, c: ChairId)
    requires Inv(s) && i < |Rides(s)| && c < |s.chairs| && Rides(s)[i].chair == Some(c) && |Rides(s)[i].log| == 1
    requires s.chairs[c].handled == |M.Heard(s.m, c)|
    ensures |Dedup(Rides(s)[i].chairSeen)| == 0 ==> s.chairs[c].mind == A.Mind(None, None)
    ensures |Dedup(Rides(s)[i].chairSeen)| > 0 ==>
              s.chairs[c].mind.matching == Some(NoticeOf(Rides(s), i)) && s.chairs[c].mind.request in {None, Some(i)}
  {
    hide Inv, Dedup, M.Full, M.First;
    var heard := M.Heard(s.m, c);
    ChairOf(s, c);
    LogBoundsHere(s, i);
    NewestHistory(s, i, c);
    assert heard[..s.chairs[c].handled] == heard;
  }

  /** The end of the history when only MATCHING of the newest ride can have been sent. */
  lemma NewestHistory(s: State, i: RideId, c: ChairId)
    requires Inv(s) && i < |Rides(s)| && Rides(s)[i].chair == Some(c) && |Rides(s)[i].log| == 1
    requires |Dedup(Rides(s)[i].chairSeen)| <= 1
    ensures var known := Dedup(M.Heard(s.m, c));
            && (|Dedup(Rides(s)[i].chairSeen)| == 0 ==> known == [] || known[|known| - 1].row == 5)
            && (|Dedup(Rides(s)[i].chairSeen)| == 1 ==> known != [] && known[|known| - 1] == M.Event(i, 0))
  {
    hide Inv, Dedup, M.ServedFit, W.LatestOfChair;
    var served := M.Served(s.m, c);
    ProtocolChairs.ServedOf(s, c);
    ProtocolChairs.LatestIsCurrent(s, c, i);
    M.LatestIsLast(Rides(s), served, c);
    HeardOf(s, c);
    M.FullEnds(served[..|served| - 1]);
    M.LastOfFirst(M.Full(served[..|served| - 1]), i, |Dedup(Rides(s)[i].chairSeen)|);
  }

  lemma HeardOf(s: State, c: ChairId)
    requires Inv(s)
    ensures forall k | 0 <= k < |M.Served(s.m, c)| :: M.Served(s.m, c)[k] < |Rides(s)|
    ensures M.HeardFit(Rides(s), M.Served(s.m, c), M.Heard(s.m, c))
  {
    hide M.HeardFit, M.LogsFit, M.MatcherFits, RidesFit, UsersFit, ChairsFit;
    assert M.ChairFits(Rides(s), M.Served(s.m, c), M.Heard(s.m, c), c);
  }

  /** The chair is not on ride i yet, or no more. */
  lemma ElsewhereHelps(s: State, i: RideId, c: ChairId, u: UserId) returns (step: Step)
    requires Inv(s) && Assigned(s, i, c, u) && s.users[u].request == Some(i) && s.chairs[c].mind.request != Some(i)
    requires s.chairs[c].sync == Clean && !s.reqs[i].evaluating && !Past(s.reqs[i]) && s.reqs[i].registered
    ensures Helps(s, step, i, c, u)
  {
    hide Inv, M.SixPrefix, W.RideOk, RideFits, ChairFits, Helps;
    RideAt(s, i);
    ChairOf(s, c);
    OverOrUntaken(s, i, c, u);
    if |Rides(s)[i].log| != 1 {
      step := UserCatchesUp(s, i, c, u);
    } else if s.chairs[c].mind.request.Some? {
      step := OtherRideHelps(s, i, c, u, s.chairs[c].mind.request.value);
    } else if s.chairs[c].handled < |M.Heard(s.m, c)| {
      step := ChairHandle(c);
      ChairHandleHelps(s, i, c, u);
    } else {
      HandledAtMost(s, c);
      AllHandled(s, i, c);
      if |Dedup(Rides(s)[i].chairSeen)| == 0 {
        step := ChairPoll(c);
        ProtocolChairs.LatestIsCurrent(s, c, i);
        ChairPollHelps(s, i, c, u);
      } else {
        step := TakeUp(c);
        TakeUpHelps(s, i, c, u);
      }
    }
  }

  lemma HandledAtMost(s: State, c: ChairId)
    requires Inv(s) && c < |s.chairs|
    ensures s.chairs[c].handled <= |M.Heard(s.m, c)|
  {
    hide Inv;
    ChairOf(s, c);
  }

  lemma OverOrUntaken(s: State, i: RideId, c: ChairId, u: UserId)
    requires Inv(s) && Assigned(s, i, c, u) && s.chairs[c].mind.request != Some(i)
    requires !Past(s.reqs[i]) && s.reqs[i].registered
    ensures |Rides(s)[i].log| == 1 ||
            (s.reqs[i].call != Accepting && Rank(s.reqs[i].st.user) < |Rides(s)[i].log| - 1)
  {
    hide Inv, MindFits, PositionFits;
    ChairOf(s, c);
    RideAt(s, i);
    assert TakenFits(Rides(s)[i], s.reqs[i], i, s.chairs[c], Handled(s.chairs[c], M.Heard(s.m, c)));
  }

  /** The chair still has to hear that its ride j is over. */
  lemma OtherRideHelps(s: State, i: RideId, c: ChairId, u: UserId, j: RideId) returns (step: Step)
    requires Inv(s) && Assigned(s, i, c, u) && s.chairs[c].mind.request == Some(j) && j != i
    requires s.chairs[c].sync == Clean && |Rides(s)[i].log| == 1
    ensures Helps(s, step, i, c, u)
  {
    hide Inv, M.SixPrefix, W.RideOk, RideFits, ChairFits, Helps;
    ProtocolChairs.ChairCurrent(s, c, j);
    ProtocolRuns.OtherIsClosed(s, c, i, j);
    RideAt(s, j);
    ClosedCalls(Rides(s)[j], s.reqs[j], s.chairs[c], s.time);
    if s.reqs[j].evaluating {
      var v := Rides(s)[j].user;
      EvaluatorIsOn(s, j);
      step := EvaluateDone(v);
      OthersEvaluateDoneHelps(s, i, c, u, j, v);
    } else {
      HandledAtMost(s, c);
      LogBoundsHere(s, i);
      if s.chairs[c].handled == |M.Heard(s.m, c)| {
        AllHandled(s, i, c);
        assert false;
      }
      step := ChairHandle(c);
      ChairHandleHelps(s, i, c, u);
    }
  }

  lemma ClosedCalls(r: W.Ride, q: Req, k: ChairRec, time: int)
    requires RideFits(r, q, time) && PositionFits(r, q, k) && |r.log| == 6 && k.sync == Clean
    ensures q.call == NoCall
  {
  }

  lemma EvaluatorIsOn(s: State, j: RideId)
    requires Inv(s) && j < |Rides(s)| == |s.reqs| && s.reqs[j].evaluating
    ensures Rides(s)[j].user < |s.users| && s.users[Rides(s)[j].user].request == Some(j)
  {
    hide Inv, W.RideOk, M.SixPrefix;
    ProtocolRuns.UserExists(s, j);
    UserOf(s, Rides(s)[j].user);
    RideAt(s, j);
  }

  /** Where the user of ride i is, if the ride is not over for it. */
  lemma UserOfRide(s: State, i: RideId, c: ChairId, u: UserId)
    requires Inv(s) && Assigned(s, i, c, u) && !Past(s.reqs[i])
    ensures s.reqs[i].registered ==> s.users[u].request == Some(i)
    ensures !s.reqs[i].registered ==>
              s.users[u].creating == Some(i) && s.users[u].request.None? && Rides(s)[i].appSeen == []
    ensures s.reqs[i].evaluating ==> Rank(s.reqs[i].st.desired) == 4
    ensures s.reqs[i].registered && s.reqs[i].st.user == Completed ==> s.reqs[i].evaluating
  {
    hide Inv, W.RideOk, M.SixPrefix;
    UserOf(s, u);
    RideAt(s, i);
    LogBoundsHere(s, i);
  }

  /** As long as a ride with a chair is not over for its user, some step is possible that
      leaves less to do for it. */
  lemma SomeStepHelps(s: State, i: RideId, c: ChairId, u: UserId) returns (step: Step)
    requires Inv(s) && Assigned(s, i, c, u) && !Past(s.reqs[i])
    ensures Helps(s, step, i, c, u)
  {
    hide Inv, Helps, Past;
    UserOfRide(s, i, c, u);
    var k := s.chairs[c];
    if !s.reqs[i].registered {
      step := Register(u);
      RegisterHelps(s, i, c, u);
    } else if s.reqs[i].evaluating {
      step := EvaluateDone(u);
      EvaluateDoneHelps(s, i, c, u);
    } else if k.sync == Moved {
      step := Post(c);
      PostHelps(s, i, c, u);
    } else if k.sync == Posted {
      step := PostDone(c);
      if k.mind.request.Some? {
        ProtocolChairs.ChairCurrent(s, c, k.mind.request.value);
      }
      PostDoneHelps(s, i, c, u);
    } else if k.mind.request == Some(i) {
      step := CurrentHelps(s, i, c, u);
    } else {
      step := ElsewhereHelps(s, i, c, u);
    }
  }
}
