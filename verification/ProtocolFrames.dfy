/** What a step of the protocol leaves alone. */
module ProtocolFrames {
  import opened Wrappers
  import opened RideStatus
  import opened Protocol
  import M = Matching
  import W = WebApp

  ghost predicate SameForUser(r: W.Ride, q: Req, r': W.Ride, q': Req) {
    && r'.user == r.user && r'.appSeen == r.appSeen && q'.st.user == q.st.user
    && (q'.st.desired == Completed <==> q.st.desired == Completed) && q'.registered == q.registered
    && q'.trip == q.trip && (r'.chair == r.chair || NothingHeard(r, q))
  }

  /** The user has heard of the ride's creation at most. */
  ghost predicate NothingHeard(r: W.Ride, q: Req) {
    q.st.user == Matching && forall n | 0 <= n < |r.appSeen| :: r.appSeen[n] == 0
  }

  ghost predicate SameForChair(r: W.Ride, q: Req, r': W.Ride, q': Req) {
    && r'.chair == r.chair && r'.user == r.user && r'.pickup == r.pickup && r'.dest == r.dest
    && (|r'.log| == 1 <==> |r.log| == 1) && (|r.log| == 3 ==> |r'.log| == 3) && (|r.log| >= 5 ==> |r'.log| >= 5)
    && q'.st.chair == q.st.chair && q'.call == q.call && (q.registered ==> q'.registered)
    && (q'.st.desired == q.st.desired || (q.st.desired == Arrived && q'.st.desired == Completed))
  }

  lemma UserFrame(rides: seq<W.Ride>, reqs: seq<Req>, i: RideId, r': W.Ride, q': Req, x: UserRec, u: UserId)
    requires |reqs| == |rides| && i < |rides| && UserFits(rides, reqs, x, u)
    requires SameForUser(rides[i], reqs[i], r', q') || (rides[i].user != u && r'.user == rides[i].user)
    ensures UserFits(rides[i := r'], reqs[i := q'], x, u)
  {
  }

  lemma UsersSame(rides: seq<W.Ride>, reqs: seq<Req>, users: seq<UserRec>, time: nat, i: RideId, r': W.Ride, q': Req)
    requires |reqs| == |rides| && i < |rides| && UsersFit(rides, reqs, users, time)
    requires SameForUser(rides[i], reqs[i], r', q')
    ensures UsersFit(rides[i := r'], reqs[i := q'], users, time)
  {
    forall u | 0 <= u < |users|
      ensures UserFits(rides[i := r'], reqs[i := q'], users[u], u)
    {
      UserFrame(rides, reqs, i, r', q', users[u], u);
    }
  }

  lemma UsersAfter(rides: seq<W.Ride>, reqs: seq<Req>, users: seq<UserRec>, time: nat, i: RideId, r': W.Ride, q': Req,
                   u: UserId, x': UserRec)
    requires |reqs| == |rides| && i < |rides| && UsersFit(rides, reqs, users, time)
    requires r'.user == rides[i].user == u
    requires UserFits(rides[i := r'], reqs[i := q'], x', u) && TicksFit(x', time)
    ensures u < |users| && UsersFit(rides[i := r'], reqs[i := q'], users[u := x'], time)
  {
    var users' := users[u := x'];
    forall v | 0 <= v < |users'|
      ensures UserFits(rides[i := r'], reqs[i := q'], users'[v], v)
    {
      if v != u {
        UserFrame(rides, reqs, i, r', q', users[v], v);
      }
    }
  }

  lemma ChairFrame(rides: seq<W.Ride>, reqs: seq<Req>, i: RideId, r': W.Ride, q': Req, k: ChairRec,
                   heard: seq<M.Event>, c: ChairId)
    requires |reqs| == |rides| && i < |rides| && ChairFits(rides, reqs, k, heard, c)
    requires SameForChair(rides[i], reqs[i], r', q') || (rides[i].chair != Some(c) && r'.chair != Some(c))
    ensures ChairFits(rides[i := r'], reqs[i := q'], k, heard, c)
  {
  }

  lemma ChairsSame(rides: seq<W.Ride>, reqs: seq<Req>, chairs: seq<ChairRec>, m: M.State, m': M.State, i: RideId,
                   r': W.Ride, q': Req)
    requires |reqs| == |rides| && i < |rides| && ChairsFit(rides, reqs, chairs, m)
    requires forall c :: M.Heard(m', c) == M.Heard(m, c)
    requires SameForChair(rides[i], reqs[i], r', q')
    ensures ChairsFit(rides[i := r'], reqs[i := q'], chairs, m')
  {
    forall c | 0 <= c < |chairs|
      ensures ChairFits(rides[i := r'], reqs[i := q'], chairs[c], M.Heard(m', c), c)
    {
      ChairFrame(rides, reqs, i, r', q', chairs[c], M.Heard(m, c), c);
    }
  }

  lemma ChairsAfter(rides: seq<W.Ride>, reqs: seq<Req>, chairs: seq<ChairRec>, m: M.State, m': M.State, i: RideId,
                    r': W.Ride, q': Req, c: ChairId, k': ChairRec)
    requires |reqs| == |rides| && i < |rides| && c < |chairs| && ChairsFit(rides, reqs, chairs, m)
    requires forall d | d != c :: M.Heard(m', d) == M.Heard(m, d)
    requires SameForChair(rides[i], reqs[i], r', q') || (rides[i].chair in {None, Some(c)} && r'.chair in {None, Some(c)})
    requires ChairFits(rides[i := r'], reqs[i := q'], k', M.Heard(m', c), c)
    ensures ChairsFit(rides[i := r'], reqs[i := q'], chairs[c := k'], m')
  {
    var chairs' := chairs[c := k'];
    forall d | 0 <= d < |chairs'|
      ensures ChairFits(rides[i := r'], reqs[i := q'], chairs'[d], M.Heard(m', d), d)
    {
      if d != c {
        ChairFrame(rides, reqs, i, r', q', chairs[d], M.Heard(m, d), d);
      }
    }
  }

  lemma RidesAfter(rides: seq<W.Ride>, reqs: seq<Req>, time: int, i: RideId, r': W.Ride, q': Req)
    requires RidesFit(rides, reqs, time) && i < |rides| && RideFits(r', q', time)
    ensures RidesFit(rides[i := r'], reqs[i := q'], time)
  {
  }

  /** A step that only the user of ride i can see. */
  lemma UserSide(s: State, s': State, i: RideId, r': W.Ride, q': Req, u: UserId, x': UserRec)
    requires Inv(s) && i < |Rides(s)| && r'.user == Rides(s)[i].user == u
    requires M.FullInv(s'.m) && Rides(s') == Rides(s)[i := r'] && s'.reqs == s.reqs[i := q']
    requires u < |s.users| && s'.users == s.users[u := x'] && s'.chairs == s.chairs && s'.time == s.time && !s'.fault
    requires forall c :: M.Heard(s'.m, c) == M.Heard(s.m, c)
    requires RideFits(r', q', s.time) && SameForChair(Rides(s)[i], s.reqs[i], r', q')
    requires UserFits(Rides(s)[i := r'], s.reqs[i := q'], x', u) && TicksFit(x', s.time)
    ensures Inv(s')
  {
    hide RideFits, UserFits, TicksFit, ChairFits, M.FullInv, SameForChair;
    RidesAfter(Rides(s), s.reqs, s.time, i, r', q');
    UsersAfter(Rides(s), s.reqs, s.users, s.time, i, r', q', u, x');
    ChairsSame(Rides(s), s.reqs, s.chairs, s.m, s'.m, i, r', q');
  }

  /** A step that only the chair of ride i can see. */
  lemma ChairSide(s: State, s': State, i: RideId, r': W.Ride, q': Req, c: ChairId, k': ChairRec)
    requires Inv(s) && i < |Rides(s)| && c < |s.chairs| && Rides(s)[i].chair == Some(c) && r'.chair == Some(c)
    requires M.FullInv(s'.m) && Rides(s') == Rides(s)[i := r'] && s'.reqs == s.reqs[i := q']
    requires s'.users == s.users && s'.chairs == s.chairs[c := k'] && s'.time == s.time && !s'.fault
    requires forall d | d != c :: M.Heard(s'.m, d) == M.Heard(s.m, d)
    requires RideFits(r', q', s.time) && SameForUser(Rides(s)[i], s.reqs[i], r', q')
    requires ChairFits(Rides(s)[i := r'], s.reqs[i := q'], k', M.Heard(s'.m, c), c)
    ensures Inv(s')
  {
    hide RideFits, UserFits, TicksFit, ChairFits, M.FullInv, SameForUser;
    RidesAfter(Rides(s), s.reqs, s.time, i, r', q');
    UsersSame(Rides(s), s.reqs, s.users, s.time, i, r', q');
    ChairsAfter(Rides(s), s.reqs, s.chairs, s.m, s'.m, i, r', q', c, k');
  }

  /** A step that changes no ride and one user. */
  lemma UserOnly(s: State, u: UserId, x': UserRec)
    requires Inv(s) && u < |s.users|
    requires UserFits(Rides(s), s.reqs, x', u) && TicksFit(x', s.time)
    ensures Inv(SetUser(s, u, x'))
  {
    hide RideFits, UserFits, TicksFit, ChairFits, M.FullInv;
  }

  /** A step that changes no ride and one chair. */
  lemma ChairOnly(s: State, c: ChairId, k': ChairRec)
    requires Inv(s) && c < |s.chairs| && ChairFits(Rides(s), s.reqs, k', M.Heard(s.m, c), c)
    ensures Inv(SetChair(s, c, k'))
  {
    hide RideFits, UserFits, TicksFit, ChairFits, M.FullInv;
  }

  lemma ServerKeepsFull(s: State, q: W.Request)
    requires Inv(s) && M.Allowed(s.m.t, q)
    ensures M.FullInv(Server(s, q).m)
    ensures !q.ChairPoll? ==> forall c :: M.Heard(Server(s, q).m, c) == M.Heard(s.m, c)
    ensures q.ChairPoll? ==> forall c | c != q.chair :: M.Heard(Server(s, q).m, c) == M.Heard(s.m, c)
  {
    M.StepKeepsFull(s.m, M.Handle(q));
  }

  lemma ServerEffect(s: State, q: W.Request, i: RideId)
    requires W.Target(s.m.t, q) == Some(i) && !q.CreateRide?
    ensures i < |Rides(s)| && Rides(Server(s, q)) == Rides(s)[i := W.Changed(Rides(s)[i], q, s.m.t.clock + 1)]
  {
  }

  /** What the invariant says about one ride, one user, one chair. */
  lemma RideAt(s: State, i: RideId)
    requires Inv(s) && i < |Rides(s)|
    ensures |s.reqs| == |Rides(s)| && RideFits(Rides(s)[i], s.reqs[i], s.time)
    ensures W.RideOk(Rides(s)[i]) && M.SixPrefix(Rides(s)[i].log) && Rides(s)[i].log != []
    ensures W.Latest(Rides(s)[i].log) == SIX[|Rides(s)[i].log| - 1]
  {
  }

  lemma UserOf(s: State, u: UserId)
    requires Inv(s) && u < |s.users|
    ensures |s.reqs| == |Rides(s)| && UserFits(Rides(s), s.reqs, s.users[u], u) && TicksFit(s.users[u], s.time)
    ensures !s.fault
  {
  }

  lemma ChairOf(s: State, c: ChairId)
    requires Inv(s) && c < |s.chairs|
    ensures |s.reqs| == |Rides(s)| && ChairFits(Rides(s), s.reqs, s.chairs[c], M.Heard(s.m, c), c)
    ensures !s.fault
  {
  }

  lemma FullOf(s: State)
    requires Inv(s)
    ensures M.FullInv(s.m)
  {
  }
}
