/** The user's steps, and the passing of time, keep the protocol's invariant. */
module ProtocolUsers {
  import opened Wrappers
  import opened RideStatus
  import opened Deliveries
  import opened Protocol
  import opened ProtocolFrames
  import A = Agents
  import M = Matching
  import W = WebApp

  lemma TickKeeps(s: State)
    requires Inv(s)
    ensures Inv(s.(time := s.time + 1))
  {
    hide UserFits, ChairFits, M.FullInv, PhaseFits, UserKnows;
  }

  lemma PlanKeeps(s: State, step: Step)
    requires Inv(s) && Enabled(s, step) && (step.RegisterPayment? || step.Plan? || step.Drop?)
    ensures Inv(Apply(s, step))
  {
    var u := step.u;
    UserOf(s, u);
    var x' := Apply(s, step).users[u];
    assert UserFits(Rides(s), s.reqs, x', u) && TicksFit(x', s.time);
    UserOnly(s, u, x');
  }

  lemma PastIsCompleted(s: State, i: RideId)
    requires Inv(s) && i < |Rides(s)| && s.reqs[i].st.desired == Completed
    ensures |Rides(s)[i].log| == 6 && W.Latest(Rides(s)[i].log) == Completed
  {
    RideAt(s, i);
  }

  lemma NothingContinues(s: State, u: UserId)
    requires Inv(s) && u < |s.users| && s.users[u].request.None? && s.users[u].creating.None?
    ensures W.NoContinuingRide(Rides(s), u)
  {
    UserOf(s, u);
    forall i | 0 <= i < |Rides(s)| && Rides(s)[i].user == u
      ensures W.Latest(Rides(s)[i].log) == Completed
    {
      PastIsCompleted(s, i);
    }
  }

  lemma UserFrameNew(rides: seq<W.Ride>, reqs: seq<Req>, r: W.Ride, q: Req, x: UserRec, u: UserId)
    requires |reqs| == |rides| && UserFits(rides, reqs, x, u) && r.user != u
    ensures UserFits(rides + [r], reqs + [q], x, u)
  {
  }

  lemma UserCreates(rides: seq<W.Ride>, reqs: seq<Req>, r: W.Ride, q: Req, x: UserRec, u: UserId)
    requires |reqs| == |rides| && UserFits(rides, reqs, x, u) && x.request.None? && x.creating.None?
    requires r.user == u && !q.registered
    ensures UserFits(rides + [r], reqs + [q], x.(creating := Some(|rides|), planned := None), u)
  {
  }

  lemma ChairFrameNew(rides: seq<W.Ride>, reqs: seq<Req>, r: W.Ride, q: Req, k: ChairRec, heard: seq<M.Event>, c: ChairId)
    requires |reqs| == |rides| && ChairFits(rides, reqs, k, heard, c) && r.chair.None?
    ensures ChairFits(rides + [r], reqs + [q], k, heard, c)
  {
  }

  lemma UsersCreate(rides: seq<W.Ride>, reqs: seq<Req>, users: seq<UserRec>, time: nat, r: W.Ride, q: Req, u: UserId)
    requires |reqs| == |rides| && UsersFit(rides, reqs, users, time) && u < |users|
    requires users[u].request.None? && users[u].creating.None? && r.user == u && !q.registered
    ensures UsersFit(rides + [r], reqs + [q],
                     users[u := users[u].(creating := Some(|rides|), planned := None)], time)
  {
    var users' := users[u := users[u].(creating := Some(|rides|), planned := None)];
    forall v | 0 <= v < |users'|
      ensures UserFits(rides + [r], reqs + [q], users'[v], v)
    {
      if v == u {
        UserCreates(rides, reqs, r, q, users[u], u);
      } else {
        UserFrameNew(rides, reqs, r, q, users[v], v);
      }
    }
  }

  lemma CreateKeeps(s: State, u: UserId, trip: A.Trip)
    requires Inv(s) && Enabled(s, Create(u, trip))
    ensures Inv(Apply(s, Create(u, trip)))
  {
    UserOf(s, u);
    NothingContinues(s, u);
    var s', q := Apply(s, Create(u, trip)), NewReq(s.users[u].planned.value, trip);
    ServerKeepsFull(s, W.CreateRide(u, trip.pickup, trip.dest));
    CreateFits(s, s', u, W.NewRide(u, trip.pickup, trip.dest, s.m.t.clock + 1), q);
  }

  lemma CreateFits(s: State, s': State, u: UserId, r: W.Ride, q: Req)
    requires Inv(s) && u < |s.users| && s.users[u].request.None? && s.users[u].creating.None?
    requires M.FullInv(s'.m) && (forall c :: M.Heard(s'.m, c) == M.Heard(s.m, c))
    requires s' == s.(m := s'.m, reqs := s.reqs + [q],
                      users := s.users[u := s.users[u].(creating := Some(|Rides(s)|), planned := None)])
    requires Rides(s') == Rides(s) + [r] && r == W.NewRide(u, r.pickup, r.dest, r.updatedAt) && r.pickup != r.dest
    requires q == NewReq(q.requestedAt, q.trip) && q.trip.pickup == r.pickup && q.trip.dest == r.dest
    requires 0 < q.requestedAt <= s.time
    ensures Inv(s')
  {
    hide UserFits, ChairFits, M.FullInv;
    UsersCreate(Rides(s), s.reqs, s.users, s.time, r, q, u);
    forall c | 0 <= c < |s.chairs|
      ensures ChairFits(Rides(s'), s'.reqs, s.chairs[c], M.Heard(s'.m, c), c)
    {
      ChairFrameNew(Rides(s), s.reqs, r, q, s.chairs[c], M.Heard(s.m, c), c);
    }
  }

  lemma RegisterKeeps(s: State, u: UserId)
    requires Inv(s) && Enabled(s, Register(u))
    ensures Inv(Apply(s, Register(u)))
  {
    var i, x, s' := s.users[u].creating.value, s.users[u], Apply(s, Register(u));
    var q' := s.reqs[i].(registered := true);
    UserOf(s, u);
    assert RideFits(Rides(s)[i], s.reqs[i], s.time);
    assert Rides(s)[i := Rides(s)[i]] == Rides(s);
    RegisteredFits(Rides(s), s.reqs, x, u, i);
    UserSide(s, s', i, Rides(s)[i], q', u, s'.users[u]);
  }

  lemma RegisteredFits(rides: seq<W.Ride>, reqs: seq<Req>, x: UserRec, u: UserId, i: RideId)
    requires |reqs| == |rides| && i < |rides| && UserFits(rides, reqs, x, u) && x.creating == Some(i)
    requires rides[i].appSeen == [] && reqs[i].st.user == Matching
    ensures UserFits(rides, reqs[i := reqs[i].(registered := true)],
                     x.(creating := None, request := Some(i), history := x.history + [i], handled := 0, news := []), u)
  {
  }

  lemma PolledRide(r: W.Ride, q: Req, time: int)
    requires W.RideOk(r) && RideFits(r, q, time) && q.registered && r.log != []
    ensures var r' := W.Notified(r, W.App);
            RideFits(r', q, time) && SameForChair(r, q, r', q) && r'.user == r.user && r.appSeen <= r'.appSeen
            && |r'.appSeen| == |r.appSeen| + 1 && r'.chair == r.chair
  {
    var r' := W.Notified(r, W.App);
    assert r.Seen(W.App) == r.appSeen && r'.Seen(W.App) == r'.appSeen;
    W.NotifiedInOrder(r, W.App);
  }

  lemma CurrentIsLatest(s: State, u: UserId)
    requires Inv(s) && u < |s.users| && s.users[u].request.Some?
    ensures var i := s.users[u].request.value;
            && i < |Rides(s)| == |s.reqs| && W.LatestOfUser(Rides(s), u) == Some(i)
            && Rides(s)[i].user == u && s.reqs[i].registered
  {
    hide Inv, UserFits, TicksFit, W.LatestOfUser;
    UserOf(s, u);
    RequestIsLatest(Rides(s), s.reqs, s.users[u], u);
  }

  lemma RequestIsLatest(rides: seq<W.Ride>, reqs: seq<Req>, x: UserRec, u: UserId)
    requires |reqs| == |rides| && UserFits(rides, reqs, x, u) && x.request.Some?
    ensures var i := x.request.value;
            i < |rides| && W.LatestOfUser(rides, u) == Some(i) && rides[i].user == u && reqs[i].registered
  {
  }

  lemma UserPollEffect(s: State, u: UserId, fare: int, i: RideId)
    requires u < |s.users| && s.users[u].request == Some(i) && W.LatestOfUser(Rides(s), u) == Some(i)
    ensures Rides(Apply(s, UserPoll(u, fare))) == Rides(s)[i := W.Notified(Rides(s)[i], W.App)]
    ensures var s' := Apply(s, UserPoll(u, fare));
            s' == s.(m := Server(s, W.AppPoll(u)).m,
                     users := s.users[u := s.users[u].(news := s.users[u].news + [NewsOf(Rides(s)[i], fare)])])
  {
    hide W.LatestOfUser, W.Notified;
  }

  lemma UserPollKeeps(s: State, u: UserId, fare: int)
    requires Inv(s) && Possible(s, UserPoll(u, fare))
    ensures Inv(Apply(s, UserPoll(u, fare)))
  {
    hide Inv, RideFits, UserFits, TicksFit, W.RideOk, M.SixPrefix, M.FullInv, SameForChair, W.Notified, W.LatestOfUser,
         Apply;
    var i, x := s.users[u].request.value, s.users[u];
    CurrentIsLatest(s, u);
    UserOf(s, u);
    RideAt(s, i);
    ServerKeepsFull(s, W.AppPoll(u));
    var r, q, r' := Rides(s)[i], s.reqs[i], W.Notified(Rides(s)[i], W.App);
    PolledRide(r, q, s.time);
    TripFits(r, q, s.time);
    var x' := x.(news := x.news + [NewsOf(r, fare)]);
    PolledFits(Rides(s), s.reqs, x, u, i, r', x');
    PolledTicks(x, x', s.time);
    UserPollEffect(s, u, fare, i);
    assert s.reqs[i := q] == s.reqs;
    UserSide(s, Apply(s, UserPoll(u, fare)), i, r', q, u, x');
  }

  lemma PolledTicks(x: UserRec, x': UserRec, time: nat)
    requires TicksFit(x, time) && x' == x.(news := x'.news)
    ensures TicksFit(x', time)
  {
  }

  lemma TripFits(r: W.Ride, q: Req, time: int)
    requires RideFits(r, q, time)
    ensures q.trip == A.Trip(r.pickup, r.dest, q.trip.fare)
  {
  }

  lemma PolledFits(rides: seq<W.Ride>, reqs: seq<Req>, x: UserRec, u: UserId, i: RideId, r': W.Ride, x': UserRec)
    requires |reqs| == |rides| && i < |rides| && UserFits(rides, reqs, x, u) && x.request == Some(i)
    requires r'.user == rides[i].user && rides[i].appSeen <= r'.appSeen && |r'.appSeen| == |rides[i].appSeen| + 1
    requires r'.chair == rides[i].chair && x' == x.(news := x.news + [A.News(reqs[i].trip, rides[i].chair)])
    ensures UserFits(rides[i := r'], reqs, x', u)
  {
    assert r'.appSeen[..x.handled] == rides[i].appSeen[..x.handled];
    forall n | 0 <= n < |x'.news|
      ensures x'.news[n].trip == reqs[i].trip && (r'.appSeen[n] >= 1 ==> x'.news[n].chair == r'.chair)
    {
      if n < |x.news| {
        assert r'.appSeen[n] == rides[i].appSeen[n];
      }
    }
  }

  /** The next notification in the user's queue repeats the status it knows or carries the
      following one. */
  lemma NextIsNear(seen: seq<nat>, a: nat, handled: nat, user: Status)
    requires Dedup(seen) == UpTo(a) && handled < |seen| && QueueFits(seen, handled, user)
    ensures Rank(user) <= seen[handled] <= Rank(user) + 1 && seen[handled] < a
    ensures |Dedup(seen[..handled + 1])| - 1 == seen[handled]
  {
    DedupStep(seen, handled);
    DedupPrefix(seen, handled);
    assert seen[..handled] == [] ==> handled == 0;
  }

  /** Whatever the interleaving, the status a user is told next is tolerated. */
  lemma TransitionTolerated(n: nat, a: nat, q: Req, e: nat)
    requires PhaseFits(n, q) && UserKnows(n, a, q.st.user)
    requires q.call != Accepting && !q.evaluating
    requires e < a && Rank(q.st.user) <= e <= Rank(q.st.user) + 1 && n <= 6
    ensures A.Tolerated(q.st, SIX[e])
  {
  }

  /** Whatever the interleaving, the data a user is told next are found right. */
  lemma NewsIsValid(r: W.Ride, q: Req, x: UserRec, chairs: nat, e: nat)
    requires NewsFit(r, q, x) && x.handled < |r.appSeen| && r.appSeen[x.handled] == e
    requires e < 6 && Rank(q.st.user) <= e <= Rank(q.st.user) + 1
    requires e >= 1 ==> r.chair.Some? && r.chair.value < chairs
    ensures A.UserValid(SIX[e], x.news[x.handled], q.trip, chairs, x.validated)
    ensures e >= 1 ==> A.ValidatedAfter(SIX[e], x.news[x.handled], x.validated) == Some(A.News(q.trip, r.chair))
  {
    var n := x.news[x.handled];
    assert n.trip == q.trip && (e >= 1 ==> n.chair == r.chair);
  }

  lemma QueueOf(rides: seq<W.Ride>, reqs: seq<Req>, x: UserRec, u: UserId, i: RideId)
    requires |reqs| == |rides| && UserFits(rides, reqs, x, u) && x.request == Some(i)
    ensures i < |rides| && QueueFits(rides[i].appSeen, x.handled, reqs[i].st.user) && NewsFit(rides[i], reqs[i], x)
    ensures |x.news| == |rides[i].appSeen|
  {
  }

  lemma UserHears(s: State, u: UserId)
    requires Inv(s) && Enabled(s, UserHandle(u))
    ensures var i, x := s.users[u].request.value, s.users[u];
            && x.handled < |x.news| == |Rides(s)[i].appSeen| && NewsFit(Rides(s)[i], s.reqs[i], x)
            && var e := Rides(s)[i].appSeen[x.handled];
               && Rank(s.reqs[i].st.user) <= e < |Dedup(Rides(s)[i].appSeen)| <= 6
               && e <= Rank(s.reqs[i].st.user) + 1 && e < |Rides(s)[i].log|
               && |Dedup(Rides(s)[i].appSeen[..x.handled + 1])| - 1 == e
               && NextStatus(s, u) == Some(SIX[e]) && A.Tolerated(s.reqs[i].st, SIX[e])
  {
    hide Inv, A.Tolerated, UserFits, TicksFit, NewsFit, QueueFits, Dedup;
    var i, x := s.users[u].request.value, s.users[u];
    var r, q := Rides(s)[i], s.reqs[i];
    UserOf(s, u);
    RideAt(s, i);
    QueueOf(Rides(s), s.reqs, x, u, i);
    assert r.Seen(W.App) == r.appSeen;
    NextIsNear(r.appSeen, |Dedup(r.appSeen)|, x.handled, q.st.user);
    TransitionTolerated(|r.log|, |Dedup(r.appSeen)|, q, r.appSeen[x.handled]);
  }

  /** A ride that has been accepted has one of the simulator's chairs. */
  lemma AcceptedChair(s: State, i: RideId)
    requires Inv(s) && ChairsKnown(s) && i < |Rides(s)| && |Rides(s)[i].log| >= 2
    ensures Rides(s)[i].chair.Some? && Rides(s)[i].chair.value < |s.chairs|
  {
    hide Inv, M.SixPrefix, W.RideOk;
    RideAt(s, i);
  }

  lemma UserHandleEffect(s: State, u: UserId, i: RideId, e: nat)
    requires Enabled(s, UserHandle(u)) && s.users[u].request == Some(i) && e < 6
    requires NextStatus(s, u) == Some(SIX[e]) && A.Tolerated(s.reqs[i].st, SIX[e])
    requires A.UserValid(SIX[e], s.users[u].news[s.users[u].handled], s.reqs[i].trip, |s.chairs|, s.users[u].validated)
    ensures Apply(s, UserHandle(u)) ==
            s.(reqs := s.reqs[i := s.reqs[i].(st := s.reqs[i].st.(user := SIX[e]))],
               users := s.users[u := HandledBy(s.users[u], e)])
  {
    hide A.Tolerated, A.UserValid, A.ValidatedAfter;
  }

  /** A user that has accepted the next notification, which carries row e. */
  function HandledBy(x: UserRec, e: nat): UserRec
    requires e < 6 && x.handled < |x.news|
  {
    x.(handled := x.handled + 1, validated := A.ValidatedAfter(SIX[e], x.news[x.handled], x.validated))
  }

  lemma UserHandleKeeps(s: State, u: UserId)
    requires Inv(s) && ChairsKnown(s) && Enabled(s, UserHandle(u))
    ensures Inv(Apply(s, UserHandle(u)))
  {
    hide Inv, ChairsKnown, RideFits, UserFits, TicksFit, NewsFit, W.RideOk, M.SixPrefix, M.FullInv, SameForChair,
         NextStatus, A.Tolerated, Apply, HandledBy, A.UserValid, A.ValidatedAfter, Dedup, LockFree, A.NewsValid;
    var i, x := s.users[u].request.value, s.users[u];
    var r, q := Rides(s)[i], s.reqs[i];
    UserHears(s, u);
    var e := r.appSeen[x.handled];
    if e >= 1 {
      AcceptedChair(s, i);
    }
    NewsIsValid(r, q, x, |s.chairs|, e);
    UserHandleEffect(s, u, i, e);
    UserOf(s, u);
    CurrentIsLatest(s, u);
    RideAt(s, i);
    FullOf(s);
    HandledRide(r, q, s.time, e);
    HandledUser(Rides(s), s.reqs, x, u, i, e);
    HandledTicks(x, s.time, e);
    assert Rides(s)[i := r] == Rides(s);
    UserSide(s, Apply(s, UserHandle(u)), i, r, q.(st := q.st.(user := SIX[e])), u, HandledBy(x, e));
  }

  lemma HandledTicks(x: UserRec, time: nat, e: nat)
    requires TicksFit(x, time) && e < 6 && x.handled < |x.news|
    ensures TicksFit(HandledBy(x, e), time)
  {
  }

  lemma HandledRide(r: W.Ride, q: Req, time: int, e: nat)
    requires RideFits(r, q, time) && q.registered && Rank(q.st.user) <= e < |Dedup(r.appSeen)| <= 6
    ensures var q' := q.(st := q.st.(user := SIX[e])); RideFits(r, q', time) && SameForChair(r, q, r, q')
  {
  }

  lemma HandledUser(rides: seq<W.Ride>, reqs: seq<Req>, x: UserRec, u: UserId, i: RideId, e: nat)
    requires |reqs| == |rides| && UserFits(rides, reqs, x, u) && x.request == Some(i) && i < |rides| && e < 6
    requires x.handled < |x.news| && |Dedup(rides[i].appSeen[..x.handled + 1])| - 1 == e
    requires e >= 1 ==>
               A.ValidatedAfter(SIX[e], x.news[x.handled], x.validated) == Some(A.News(reqs[i].trip, rides[i].chair))
    ensures UserFits(rides, reqs[i := reqs[i].(st := reqs[i].st.(user := SIX[e]))], HandledBy(x, e), u)
  {
    hide A.ValidatedAfter;
  }

  // ---- A late COMPLETED --------------------------------------------------------------

  /** A ride of the history that is not the current one is over. */
  lemma HistoryIsPast(s: State, u: UserId, i: RideId)
    requires Inv(s) && u < |s.users| && s.users[u].creating.None? && i in s.users[u].history
    requires s.users[u].request != Some(i)
    ensures i < |s.reqs| == |Rides(s)| && Past(s.reqs[i]) && Rides(s)[i].user == u
  {
    hide Inv;
    UserOf(s, u);
  }

  /** What becomes of a COMPLETED of an earlier ride in every reachable state: it is dropped if
      and only if the current ride is not expected to be completed. Otherwise the user reports
      wrong data if and only if the trips differ; equal trips complete the current ride. */
  lemma LateOutcomeIff(s: State, u: UserId, i: RideId)
    requires Inv(s) && ChairsKnown(s) && Enabled(s, Late(u, i))
    ensures var x := s.users[u];
            var expected := x.request.Some? && s.reqs[x.request.value].st.desired == Completed;
            LateOutcome(s, u, i) == if !expected then A.Ignored
                                    else if s.reqs[i].trip == s.reqs[x.request.value].trip then A.Accepted
                                    else A.WrongData
  {
    hide Inv, ChairsKnown, RideFits, W.RideOk, M.SixPrefix;
    var x := s.users[u];
    HistoryIsPast(s, u, i);
    PastIsCompleted(s, i);
    AcceptedChair(s, i);
    RideAt(s, i);
    TripFits(Rides(s)[i], s.reqs[i], s.time);
    if x.request.Some? {
      RideAt(s, x.request.value);
      CompletedIsExpected(Rides(s)[x.request.value], s.reqs[x.request.value], s.time);
    }
  }

  /** Nobody knows that a ride is completed before it is expected to be. */
  lemma CompletedIsExpected(r: W.Ride, q: Req, time: int)
    requires RideFits(r, q, time) && !q.evaluating && W.RideOk(r) && M.SixPrefix(r.log)
    ensures q.st.user == Completed ==> q.st.desired == Completed
  {
  }

  lemma LateKeeps(s: State, u: UserId, i: RideId)
    requires Inv(s) && ChairsKnown(s) && Possible(s, Late(u, i))
    ensures Inv(Apply(s, Late(u, i)))
  {
    hide Inv, ChairsKnown, LateOutcome;
    HistoryIsPast(s, u, i);
    LateOutcomeIff(s, u, i);
    assert s.reqs[i].st.(user := Completed) == s.reqs[i].st;
    assert s.reqs[i].(st := s.reqs[i].st) == s.reqs[i];
    assert s.reqs[i := s.reqs[i]] == s.reqs;
    assert Apply(s, Late(u, i)) == s;
  }

  lemma EvaluatedRide(r: W.Ride, q: Req, time: int, score: int, now: nat)
    requires RideFits(r, q, time) && r.log != [] && |r.log| <= 6 && W.Latest(r.log) == SIX[|r.log| - 1]
    requires q.st.user == Arrived && q.st.desired != Completed && !q.evaluating && q.call != Accepting
    requires |Dedup(r.appSeen)| <= |r.log| && 1 <= score <= 5
    ensures Timed(q) && W.EvaluationAccepted(r, score)
    ensures var r', q' := W.Evaluated(r, score, true, now), q.(evaluating := true);
            RideFits(r', q', time) && SameForChair(r, q, r', q') && SameForUser(r, q, r', q')
  {
    assert |r.log| == 5;
  }

  lemma EvaluateKeeps(s: State, u: UserId, score: int)
    requires Inv(s) && Enabled(s, Evaluate(u, score))
    ensures Inv(Apply(s, Evaluate(u, score)))
  {
    hide Inv, RideFits, UserFits, TicksFit, W.RideOk, M.SixPrefix, M.FullInv, SameForChair, SameForUser,
         W.EvaluationAccepted, Timed, W.Evaluated;
    var i, x := s.users[u].request.value, s.users[u];
    UserOf(s, u);
    CurrentIsLatest(s, u);
    RideAt(s, i);
    LogBounds(Rides(s)[i]);
    EvaluatedRide(Rides(s)[i], s.reqs[i], s.time, score, s.m.t.clock + 1);
    ServerKeepsFull(s, W.Evaluate(i, score, true));
    ServerEffect(s, W.Evaluate(i, score, true), i);
    var r', q' := W.Evaluated(Rides(s)[i], score, true, s.m.t.clock + 1), s.reqs[i].(evaluating := true);
    UserFrame(Rides(s), s.reqs, i, r', q', x, u);
    assert s.users[u := x] == s.users;
    UserSide(s, Apply(s, Evaluate(u, score)), i, r', q', u, x);
  }

  lemma LogBounds(r: W.Ride)
    requires W.RideOk(r) && M.SixPrefix(r.log)
    ensures |Dedup(r.appSeen)| <= |r.log| <= 6
  {
    assert r.Seen(W.App) == r.appSeen;
  }

  lemma EvaluatedDoneRide(r: W.Ride, q: Req, time: int)
    requires RideFits(r, q, time) && q.evaluating
    ensures var q' := q.(evaluating := false, st := q.st.(desired := Completed));
            RideFits(r, q', time) && SameForChair(r, q, r, q')
  {
  }

  lemma EvaluateDoneKeeps(s: State, u: UserId)
    requires Inv(s) && Enabled(s, EvaluateDone(u))
    ensures Inv(Apply(s, EvaluateDone(u)))
  {
    hide Inv, RideFits, UserFits, TicksFit, W.RideOk, M.SixPrefix, M.FullInv, SameForChair;
    var i, x, s' := s.users[u].request.value, s.users[u], Apply(s, EvaluateDone(u));
    var r, q := Rides(s)[i], s.reqs[i];
    UserOf(s, u);
    CurrentIsLatest(s, u);
    RideAt(s, i);
    FullOf(s);
    EvaluatedDoneRide(r, q, s.time);
    var q' := q.(evaluating := false, st := q.st.(desired := Completed));
    OwnRequest(Rides(s), s.reqs, x, u, i, q');
    assert Rides(s)[i := r] == Rides(s) && s.users[u := x] == s.users;
    UserSide(s, s', i, r, q', u, x);
  }

  /** What a user requires of its current request is the user status and the trip. */
  lemma OwnRequest(rides: seq<W.Ride>, reqs: seq<Req>, x: UserRec, u: UserId, i: RideId, q': Req)
    requires |reqs| == |rides| && i < |rides| && UserFits(rides, reqs, x, u) && x.request == Some(i)
    requires q'.registered == reqs[i].registered && q'.st.user == reqs[i].st.user && q'.trip == reqs[i].trip
    ensures UserFits(rides, reqs[i := q'], x, u)
  {
  }

  lemma ClosedFits(rides: seq<W.Ride>, reqs: seq<Req>, x: UserRec, u: UserId, i: RideId)
    requires |reqs| == |rides| && UserFits(rides, reqs, x, u) && x.request == Some(i) && i < |reqs| && Past(reqs[i])
    ensures UserFits(rides, reqs, x.(request := None), u)
  {
  }

  lemma CloseKeeps(s: State, u: UserId)
    requires Inv(s) && Enabled(s, Close(u))
    ensures Inv(Apply(s, Close(u)))
  {
    hide Inv, UserFits, W.RideOk, M.SixPrefix;
    var i, x := s.users[u].request.value, s.users[u];
    UserOf(s, u);
    RideAt(s, i);
    CurrentIsLatest(s, u);
    ClosedFits(Rides(s), s.reqs, x, u, i);
    UserOnly(s, u, x.(request := None));
  }
}
