/** The whole life of a ride as a distributed protocol: the server's tables, the matcher, and
    the simulator's users and chairs. Every transaction is one step. The agents' ticks are cut
    at each client call, so that anything may happen while a call is under way. Accepting and
    evaluating hold the status lock across the call; departing and posting a position do not. */
module Protocol {
  import opened Grid
  import opened Wrappers
  import opened RideStatus
  import opened Deliveries
  import A = Agents
  import M = Matching
  import W = WebApp

  type UserId = W.UserId
  type ChairId = W.ChairId
  type RideId = W.RideId

  /** The client call about this ride that its chair is in. */
  datatype Call = NoCall | Accepting | Posting | Departing

  /** The simulator's request. It is registered once the server's answer has arrived.
      `evaluating` is the user's call, which holds the lock. */
  datatype Req = Req(registered: bool, st: A.Statuses, call: Call, evaluating: bool, requestedAt: int,
                     matchedAt: int, dispatchedAt: int, pickedUpAt: int, arrivedAt: int, trip: A.Trip)

  /** A user. `ticks` counts its activations so far, of which there is at most one for every
      tick of the world; `planned` is the time read at the start of `CreateRequest`;
      `creating` is the ride the server has created before the answer has arrived; `handled`
      counts the current ride's notifications taken off the queue, out of the `news` received
      of it. */
  datatype UserRec = UserRec(ready: bool, ticks: nat, planned: Option<int>, creating: Option<RideId>,
                             request: Option<RideId>, history: seq<RideId>, handled: nat, news: seq<A.News>,
                             validated: Option<A.News>)

  /** Whether a chair's position has been posted. */
  datatype Sync = Clean | Moved | Posted

  /** A chair. `handled` counts the notifications taken off its queue. */
  datatype ChairRec = ChairRec(mind: A.Mind, history: seq<RideId>, handled: nat, loc: Coord, sync: Sync)

  /** `fault`: an agent has reported an error, or the server has refused a call, or an
      evaluation has been asked for without the times it needs. */
  datatype State = State(m: M.State, reqs: seq<Req>, users: seq<UserRec>, chairs: seq<ChairRec>, time: nat,
                         fault: bool)

  datatype Step =
    | Tick
    | Matcher(step: M.Step)
    // the user
    | RegisterPayment(u: UserId)
    | Plan(u: UserId)
    | Drop(u: UserId)
    | Create(u: UserId, trip: A.Trip)
    | Register(u: UserId)
    | UserPoll(u: UserId, fare: int)
    | UserHandle(u: UserId)
    | Late(u: UserId, ride: RideId)
    | Evaluate(u: UserId, score: int)
    | EvaluateDone(u: UserId)
    | Close(u: UserId)
    // the chair
    | ChairPoll(c: ChairId)
    | ChairHandle(c: ChairId)
    | TakeUp(c: ChairId)
    | Accept(c: ChairId)
    | AcceptDone(c: ChairId)
    | Move(c: ChairId, to: Coord)
    | Post(c: ChairId)
    | PostDone(c: ChairId)
    | Depart(c: ChairId)
    | DepartDone(c: ChairId)

  function NewReq(now: int, trip: A.Trip): Req {
    Req(false, A.Statuses(Matching, Matching, Matching), NoCall, false, now, 0, 0, 0, 0, trip)
  }

  function NewUser(): UserRec {
    UserRec(false, 0, None, None, None, [], 0, [], None)
  }

  function NewChair(home: Coord): ChairRec {
    ChairRec(A.Mind(None, None), [], 0, home, Clean)
  }

  function Start(users: nat, homes: seq<Coord>): State {
    State(M.Start(), [], seq(users, _ => NewUser()), seq(|homes|, i requires 0 <= i < |homes| => NewChair(homes[i])),
          0, false)
  }

  function Rides(s: State): seq<W.Ride> {
    s.m.t.rides
  }

  function NoticeOf(rides: seq<W.Ride>, i: RideId): A.Notice
    requires i < |rides|
  {
    A.Notice(i, rides[i].user, rides[i].pickup, rides[i].dest)
  }

  /** What a user is told of a ride, whose fare the server has worked out. */
  function NewsOf(r: W.Ride, fare: int): A.News {
    A.News(A.Trip(r.pickup, r.dest, fare), r.chair)
  }

  // ---- Who can do what ---------------------------------------------------------------

  predicate Known(s: State, i: RideId) {
    i < |s.reqs| && i < |Rides(s)|
  }

  /** The user is between client calls. */
  predicate UserAt(s: State, u: UserId) {
    && u < |s.users| && s.users[u].creating.None?
    && (s.users[u].request.Some? ==>
          Known(s, s.users[u].request.value) && !s.reqs[s.users[u].request.value].evaluating)
  }

  predicate UserOn(s: State, u: UserId) {
    UserAt(s, u) && s.users[u].request.Some?
  }

  /** Nobody else holds the current request's status lock. */
  predicate LockFree(s: State, u: UserId)
    requires UserAt(s, u)
  {
    s.users[u].request.Some? ==> s.reqs[s.users[u].request.value].call != Accepting
  }

  /** The chair is between client calls and its position is posted. */
  predicate ChairAt(s: State, c: ChairId) {
    && c < |s.chairs| && s.chairs[c].sync == Clean
    && (s.chairs[c].mind.request.Some? ==>
          Known(s, s.chairs[c].mind.request.value) && s.reqs[s.chairs[c].mind.request.value].call == NoCall)
  }

  predicate ChairOn(s: State, c: ChairId) {
    ChairAt(s, c) && s.chairs[c].mind.request.Some?
  }

  predicate InCall(s: State, c: ChairId, call: Call) {
    && c < |s.chairs| && s.chairs[c].mind.request.Some? && Known(s, s.chairs[c].mind.request.value)
    && s.reqs[s.chairs[c].mind.request.value].call == call
  }

  /** The notification a chair would handle next. */
  function NextEvent(s: State, c: ChairId): Option<M.Event>
    requires c < |s.chairs|
  {
    var heard := M.Heard(s.m, c);
    if s.chairs[c].handled >= |heard| then None
    else
      var e := heard[s.chairs[c].handled];
      if e.ride < |Rides(s)| && e.row < |Rides(s)[e.ride].log| then Some(e) else None
  }

  /** The status row the user would handle next. */
  function NextStatus(s: State, u: UserId): Option<Status>
    requires UserOn(s, u)
  {
    var r, n := Rides(s)[s.users[u].request.value], s.users[u].handled;
    if n < |r.appSeen| && r.appSeen[n] < |r.log| && n < |s.users[u].news| then Some(r.log[r.appSeen[n]].status) else None
  }

  predicate Enabled(s: State, step: Step) {
    match step
    case Tick => true
    case Matcher(m) =>
      M.Enabled(s.m, m) && !m.Handle? && (m.Draw? ==> m.chair < |s.chairs|)
    case RegisterPayment(u) => UserAt(s, u) && !s.users[u].ready && s.users[u].ticks <= s.time
    case Plan(u) =>
      && UserAt(s, u) && s.users[u].ready && s.users[u].request.None? && s.users[u].planned.None?
      && s.users[u].ticks <= s.time
    case Drop(u) => UserAt(s, u) && s.users[u].planned.Some?
    case Create(u, trip) => UserAt(s, u) && s.users[u].planned.Some? && trip.pickup != trip.dest
    case Register(u) => u < |s.users| && s.users[u].creating.Some? && Known(s, s.users[u].creating.value)
    case UserPoll(u, _) => u < |s.users| && s.users[u].request.Some?
    case UserHandle(u) => UserOn(s, u) && LockFree(s, u) && NextStatus(s, u).Some?
    case Late(u, i) =>
      && UserAt(s, u) && LockFree(s, u) && s.users[u].planned.None?
      && i in s.users[u].history && s.users[u].request != Some(i) && Known(s, i) && 5 in Rides(s)[i].appSeen
    case Evaluate(u, score) =>
      && UserOn(s, u) && LockFree(s, u) && 1 <= score <= 5
      && var st := s.reqs[s.users[u].request.value].st; st.user == Arrived && st.desired != Completed
    case EvaluateDone(u) =>
      && u < |s.users| && s.users[u].request.Some? && Known(s, s.users[u].request.value)
      && s.reqs[s.users[u].request.value].evaluating
    case Close(u) => UserOn(s, u) && s.reqs[s.users[u].request.value].st.user == Completed
    case ChairPoll(c) => c < |s.chairs|
    case ChairHandle(c) =>
      && ChairAt(s, c) && NextEvent(s, c).Some?
      && (s.chairs[c].mind.request.Some? && SIX[Min(5, NextEvent(s, c).value.row)] == Completed ==>
            !s.reqs[s.chairs[c].mind.request.value].evaluating)
    case TakeUp(c) =>
      && ChairAt(s, c) && s.chairs[c].mind.request.None? && s.chairs[c].mind.matching.Some?
      && Known(s, s.chairs[c].mind.matching.value.ride) && s.reqs[s.chairs[c].mind.matching.value.ride].registered
    case Accept(c) =>
      && ChairOn(s, c)
      && var q := s.reqs[s.chairs[c].mind.request.value]; q.st.chair == Matching && !q.evaluating
    case AcceptDone(c) => InCall(s, c, Accepting)
    case Move(c, _) =>
      && ChairAt(s, c)
      && (s.chairs[c].mind.request.Some? ==>
            s.reqs[s.chairs[c].mind.request.value].st.chair in {Enroute, Carrying})
    case Post(c) => c < |s.chairs| && s.chairs[c].sync != Clean
    case PostDone(c) =>
      && c < |s.chairs| && s.chairs[c].sync == Posted
      && (s.chairs[c].mind.request.Some? ==> Known(s, s.chairs[c].mind.request.value))
    case Depart(c) =>
      && ChairOn(s, c)
      && var st := s.reqs[s.chairs[c].mind.request.value].st; st.chair == Pickup && st.user == Pickup
    case DepartDone(c) => InCall(s, c, Departing)
  }

  /** What a run takes for granted: the server works out the fare that the user reckons with,
      and a COMPLETED of an earlier ride is not handled while the current one is expected to be
      completed. */
  predicate Assumed(s: State, step: Step) {
    match step
    case UserPoll(u, fare) =>
      u < |s.users| && s.users[u].request.Some? && s.users[u].request.value < |s.reqs| ==>
        fare == s.reqs[s.users[u].request.value].trip.fare
    case Late(u, _) =>
      u < |s.users| && s.users[u].request.Some? && s.users[u].request.value < |s.reqs| ==>
        s.reqs[s.users[u].request.value].st.desired != Completed
    case _ => true
  }

  predicate Possible(s: State, step: Step) {
    Enabled(s, step) && Assumed(s, step)
  }

  // ---- What a step does --------------------------------------------------------------

  function Server(s: State, q: W.Request): State {
    s.(m := M.AfterHandle(s.m, q))
  }

  function SetUser(s: State, u: UserId, x: UserRec): State
    requires u < |s.users|
  {
    s.(users := s.users[u := x])
  }

  function SetChair(s: State, c: ChairId, k: ChairRec): State
    requires c < |s.chairs|
  {
    s.(chairs := s.chairs[c := k])
  }

  function SetReq(s: State, i: RideId, q: Req): State
    requires i < |s.reqs|
  {
    s.(reqs := s.reqs[i := q])
  }

  function FaultIf(s: State, bad: bool): State {
    s.(fault := s.fault || bad)
  }

  function UserStep(s: State, step: Step): State
    requires Enabled(s, step)
  {
    match step
    case RegisterPayment(u) => SetUser(s, u, s.users[u].(ready := true, ticks := s.users[u].ticks + 1))
    case Plan(u) => SetUser(s, u, s.users[u].(planned := Some(s.time), ticks := s.users[u].ticks + 1))
    case Drop(u) => SetUser(s, u, s.users[u].(planned := None))
    case Create(u, trip) =>
      if !W.NoContinuingRide(Rides(s), u) then FaultIf(s, true)
      else
        SetUser(Server(s, W.CreateRide(u, trip.pickup, trip.dest))
                  .(reqs := s.reqs + [NewReq(s.users[u].planned.value, trip)]),
                u, s.users[u].(creating := Some(|Rides(s)|), planned := None))
    case Register(u) =>
      var i := s.users[u].creating.value;
      SetUser(SetReq(s, i, s.reqs[i].(registered := true)), u,
              s.users[u].(creating := None, request := Some(i), history := s.users[u].history + [i], handled := 0,
                           news := []))
    case UserPoll(u, fare) =>
      var i := W.LatestOfUser(Rides(s), u);
      var news := if i.None? then [] else [NewsOf(Rides(s)[i.value], fare)];
      SetUser(Server(s, W.AppPoll(u)), u, s.users[u].(news := s.users[u].news + news))
    case UserHandle(u) =>
      var i, status, x := s.users[u].request.value, NextStatus(s, u).value, s.users[u];
      var n := x.news[x.handled];
      var valid := A.UserValid(status, n, s.reqs[i].trip, |s.chairs|, x.validated);
      var o := A.UserReact(Some(s.reqs[i].st), status, KnownLate(s, u, i), valid);
      if A.Fine(o) then
        SetReq(SetUser(s, u, x.(handled := x.handled + 1, validated := A.ValidatedAfter(status, n, x.validated))),
               i, s.reqs[i].(st := s.reqs[i].st.(user := status)))
      else FaultIf(SetUser(s, u, x.(handled := x.handled + 1)), true)
    case Late(u, i) =>
      var x := s.users[u];
      var o := LateOutcome(s, u, i);
      if !A.Fine(o) then FaultIf(s, true)
      else
        var j := if o == A.Accepted && x.request.Some? then x.request.value else i;
        SetReq(s, j, s.reqs[j].(st := s.reqs[j].st.(user := Completed)))
    case Evaluate(u, score) =>
      var i := s.users[u].request.value;
      var q := s.reqs[i];
      if !Timed(q) || !W.EvaluationAccepted(Rides(s)[i], score) then FaultIf(s, true)
      else SetReq(Server(s, W.Evaluate(i, score, true)), i, q.(evaluating := true))
    case EvaluateDone(u) =>
      var i := s.users[u].request.value;
      SetReq(s, i, s.reqs[i].(evaluating := false, st := s.reqs[i].st.(desired := Completed)))
    case Close(u) => SetUser(s, u, s.users[u].(request := None))
    case _ => s
  }

  /** The guard of `CalculateEvaluation`. */
  predicate Timed(q: Req) {
    q.matchedAt > 0 && q.dispatchedAt > 0 && q.pickedUpAt > 0 && q.arrivedAt > 0
  }

  /** The history has a completed request with this id. */
  predicate KnownLate(s: State, u: UserId, i: RideId)
    requires u < |s.users| && i < |s.reqs|
  {
    i in s.users[u].history && s.reqs[i].st.desired == Completed
  }

  /** What the user makes of a COMPLETED of an earlier ride. */
  function LateOutcome(s: State, u: UserId, i: RideId): A.Outcome
    requires UserAt(s, u) && Known(s, i)
  {
    var x := s.users[u];
    if x.request.None? then A.UserReact(None, Completed, KnownLate(s, u, i), false)
    else
      var q, n := s.reqs[x.request.value], NewsOf(Rides(s)[i], s.reqs[i].trip.fare);
      A.UserReact(Some(q.st), Completed, KnownLate(s, u, i),
                  A.UserValid(Completed, n, q.trip, |s.chairs|, x.validated))
  }

  function ChairStep(s: State, step: Step): State
    requires Enabled(s, step)
  {
    match step
    case ChairPoll(c) => Server(s, W.ChairPoll(c))
    case ChairHandle(c) =>
      var k, e := s.chairs[c], NextEvent(s, c).value;
      var status, n := Rides(s)[e.ride].log[e.row].status, NoticeOf(Rides(s), e.ride);
      var known := e.ride in k.history && e.ride < |s.reqs| && s.reqs[e.ride].st.desired == Completed;
      var desired := if k.mind.request.None? then Matching else s.reqs[k.mind.request.value].st.desired;
      var o := A.ChairReact(k.mind, status, n, known, desired);
      var mind := if o == A.Accepted then A.MindAfter(k.mind, status, n) else k.mind;
      var done := if o == A.Accepted && status == Completed then k.mind.request
                  else if o == A.Ignored then Some(e.ride) else None;
      var s' := SetChair(FaultIf(s, !A.Fine(o)), c, k.(handled := k.handled + 1, mind := mind));
      if done.Some? && done.value < |s.reqs| then
        SetReq(s', done.value, s.reqs[done.value].(st := s.reqs[done.value].st.(chair := Completed)))
      else s'
    case TakeUp(c) =>
      var k := s.chairs[c];
      var n := k.mind.matching.value;
      if !A.SameData(n, NoticeOf(Rides(s), n.ride)) then FaultIf(s, true)
      else SetChair(s, c, k.(mind := k.mind.(request := Some(n.ride))))
    case Accept(c) =>
      var i := s.chairs[c].mind.request.value;
      if Rides(s)[i].chair != Some(c) then FaultIf(s, true)
      else SetReq(Server(s, W.PostStatus(i, c, W.PostEnroute)), i, s.reqs[i].(call := Accepting))
    case AcceptDone(c) =>
      var i := s.chairs[c].mind.request.value;
      var q := s.reqs[i];
      SetChair(SetReq(s, i, q.(call := NoCall, matchedAt := s.time,
                               st := q.st.(desired := Enroute, chair := Enroute))),
               c, s.chairs[c].(history := s.chairs[c].history + [i]))
    case Move(c, to) =>
      var s' := SetChair(s, c, s.chairs[c].(loc := to, sync := Moved));
      var request := s.chairs[c].mind.request;
      if request.None? then s'
      else
        var i, q := request.value, s.reqs[request.value];
        if q.st.chair == Enroute && to == Rides(s)[i].pickup then
          SetReq(s', i, q.(call := Posting, dispatchedAt := s.time, st := q.st.(desired := Pickup, chair := Pickup)))
        else if q.st.chair == Carrying && to == Rides(s)[i].dest then
          SetReq(s', i, q.(call := Posting, arrivedAt := s.time, st := q.st.(desired := Arrived, chair := Arrived)))
        else s'
    case Post(c) => SetChair(Server(s, W.PostCoordinate(c, s.chairs[c].loc)), c, s.chairs[c].(sync := Posted))
    case PostDone(c) =>
      var s' := SetChair(s, c, s.chairs[c].(sync := Clean));
      var request := s.chairs[c].mind.request;
      if request.None? then s' else SetReq(s', request.value, s.reqs[request.value].(call := NoCall))
    case Depart(c) =>
      var i := s.chairs[c].mind.request.value;
      if Rides(s)[i].chair != Some(c) || W.Latest(Rides(s)[i].log) != Pickup then FaultIf(s, true)
      else SetReq(Server(s, W.PostStatus(i, c, W.PostCarrying)), i, s.reqs[i].(call := Departing))
    case DepartDone(c) =>
      var i := s.chairs[c].mind.request.value;
      var q := s.reqs[i];
      SetReq(s, i, q.(call := NoCall, pickedUpAt := s.time, st := q.st.(desired := Carrying, chair := Carrying)))
    case _ => s
  }

  function Apply(s: State, step: Step): State
    requires Enabled(s, step)
  {
    if step.Tick? then s.(time := s.time + 1)
    else if step.Matcher? then s.(m := M.Apply(s.m, step.step))
    else if OfUser(step) then UserStep(s, step)
    else ChairStep(s, step)
  }

  predicate OfUser(step: Step) {
    step.RegisterPayment? || step.Plan? || step.Drop? || step.Create? || step.Register? || step.UserPoll? ||
    step.UserHandle? || step.Late? || step.Evaluate? || step.EvaluateDone? || step.Close?
  }

  ghost predicate IsRun(s: State, steps: seq<Step>)
    decreases |steps|
  {
    steps == [] || (Possible(s, steps[0]) && IsRun(Apply(s, steps[0]), steps[1..]))
  }

  ghost function After(s: State, steps: seq<Step>): State
    requires IsRun(s, steps)
    decreases |steps|
  {
    if steps == [] then s else After(Apply(s, steps[0]), steps[1..])
  }

  // ---- The invariant -----------------------------------------------------------------

  /** How far the server's log (n rows) is from what the simulator expects. */
  ghost predicate PhaseFits(n: nat, q: Req) {
    var d := Rank(q.st.desired);
    && (d == 0 ==> (n == 1 && q.call == NoCall) || (n == 2 && q.call == Accepting))
    && (d == 1 ==> n == 2 && q.call == NoCall)
    && (d == 2 ==> (n == 2 && q.call == Posting) || (n == 3 && q.call in {NoCall, Posting}) ||
                   (n == 4 && q.call == Departing))
    && (d == 3 ==> n == 4 && q.call == NoCall)
    && (d == 4 ==> (n == 4 && q.call == Posting) || (n in {5, 6} && q.call in {NoCall, Posting}))
    && (d == 5 ==> n == 6 && q.call in {NoCall, Posting})
    && (q.evaluating <==> d == 4 && n == 6)
    && (Rank(q.st.chair) == Min(d, 4) || (d == 5 && q.st.chair == Completed))
  }

  /** The user knows a status that has been sent (a rows), and enough of them for the ride to
      have got where it is. */
  ghost predicate UserKnows(n: nat, a: nat, user: Status) {
    && Rank(user) + 1 <= Max(a, 1) && a <= n
    && (n >= 4 ==> Rank(user) >= 2) && (n == 6 ==> Rank(user) >= 4)
  }

  ghost predicate TimesFit(q: Req, time: int) {
    var d := Rank(q.st.desired);
    && 0 < q.requestedAt <= time
    && (d >= 1 ==> q.requestedAt <= q.matchedAt <= time)
    && (d >= 2 ==> q.matchedAt <= q.dispatchedAt <= time)
    && (d >= 3 ==> q.dispatchedAt <= q.pickedUpAt <= time)
    && (d >= 4 ==> q.pickedUpAt <= q.arrivedAt <= time)
  }

  ghost predicate RideFits(r: W.Ride, q: Req, time: int) {
    && PhaseFits(|r.log|, q) && UserKnows(|r.log|, |Dedup(r.appSeen)|, q.st.user) && TimesFit(q, time)
    && r.pickup != r.dest && q.trip.pickup == r.pickup && q.trip.dest == r.dest
    && (|r.log| >= 2 ==> r.chair.Some?)
    && (|r.log| <= 5 ==> r.evaluation.None?)
    && (!q.registered ==> |r.log| == 1 && q.st.user == Matching && r.appSeen == [])
  }

  ghost predicate RidesFit(rides: seq<W.Ride>, reqs: seq<Req>, time: int) {
    |reqs| == |rides| && forall i | 0 <= i < |rides| :: RideFits(rides[i], reqs[i], time)
  }

  /** A ride that is over for its user. */
  ghost predicate Past(q: Req) {
    q.registered && q.st.desired == Completed && q.st.user == Completed
  }

  /** The user's status is the last notification it has handled. */
  ghost predicate QueueFits(appSeen: seq<nat>, handled: nat, user: Status) {
    && handled <= |appSeen|
    && Rank(user) == if handled == 0 then 0 else |Dedup(appSeen[..handled])| - 1
  }

  /** What the user has been told of its ride is right, and it has been told of the chair as
      soon as the ride was accepted. */
  ghost predicate NewsFit(r: W.Ride, q: Req, x: UserRec) {
    && |x.news| == |r.appSeen|
    && (forall n | 0 <= n < |x.news| ::
          x.news[n].trip == q.trip && (r.appSeen[n] >= 1 ==> x.news[n].chair == r.chair))
    && (Rank(q.st.user) >= 1 ==> x.validated == Some(A.News(q.trip, r.chair)))
  }

  ghost predicate UserFits(rides: seq<W.Ride>, reqs: seq<Req>, x: UserRec, u: UserId)
    requires |reqs| == |rides|
  {
    && (forall i | 0 <= i < |rides| && rides[i].user == u ::
          x.request == Some(i) || x.creating == Some(i) || (Past(reqs[i]) && i in x.history))
    && (forall i | i in x.history :: i < |rides| && rides[i].user == u && reqs[i].registered)
    && (x.creating.Some? ==>
          && x.request.None? && x.creating.value < |rides|
          && rides[x.creating.value].user == u && !reqs[x.creating.value].registered
          && (forall j | x.creating.value < j < |rides| :: rides[j].user != u))
    && (x.planned.Some? ==> x.request.None? && x.creating.None?)
    && (x.request.Some? ==>
          var i := x.request.value;
          && i in x.history && i < |rides| && QueueFits(rides[i].appSeen, x.handled, reqs[i].st.user)
          && NewsFit(rides[i], reqs[i], x)
          && (forall j | i < j < |rides| :: rides[j].user != u))
  }

  ghost predicate TicksFit(x: UserRec, time: nat) {
    && x.ticks <= time + 1 && (x.ready ==> x.ticks >= 1)
    && (x.planned.Some? ==> 0 < x.planned.value <= time)
  }

  ghost predicate UsersFit(rides: seq<W.Ride>, reqs: seq<Req>, users: seq<UserRec>, time: nat)
    requires |reqs| == |rides|
  {
    && (forall u | 0 <= u < |users| :: UserFits(rides, reqs, users[u], u) && TicksFit(users[u], time))
    && (forall i | 0 <= i < |rides| :: rides[i].user < |users|)
  }

  /** What a chair has handled, without repeats. */
  function Handled(k: ChairRec, heard: seq<M.Event>): seq<M.Event> {
    if k.handled <= |heard| then Dedup(heard[..k.handled]) else []
  }

  /** A chair's mind follows from the last notification it has handled. */
  ghost predicate MindFits(rides: seq<W.Ride>, known: seq<M.Event>, mind: A.Mind, c: ChairId) {
    if known == [] then mind == A.Mind(None, None)
    else
      var e := known[|known| - 1];
      if e.row == 5 then mind == A.Mind(None, None)
      else
        && e.ride < |rides| && rides[e.ride].chair == Some(c) && mind.matching == Some(NoticeOf(rides, e.ride))
        && (mind.request == Some(e.ride) || (mind.request.None? && |rides[e.ride].log| == 1 && e.row == 0))
  }

  /** A ride of the chair is its current one, or has not been taken up, or is over. */
  ghost predicate TakenFits(r: W.Ride, q: Req, i: RideId, k: ChairRec, known: seq<M.Event>) {
    || k.mind.request == Some(i)
    || |r.log| == 1
    || (q.st.desired == Completed && q.st.chair == Completed && q.call == NoCall && i in k.history &&
        M.Event(i, 0) in known)
  }

  /** Where the chair is, as far as the ride cares. */
  ghost predicate PositionFits(r: W.Ride, q: Req, k: ChairRec) {
    && (k.sync != Clean ==> q.call in {NoCall, Posting} && q.st.desired != Matching)
    && (k.sync != Clean && q.st.desired == Enroute ==> k.loc != r.pickup)
    && (k.sync != Clean && q.st.desired == Carrying ==> k.loc != r.dest)
    && (q.call == Posting ==> k.sync != Clean)
    && (q.call == Posting && q.st.desired == Pickup ==> k.loc == r.pickup)
    && (q.call == Posting && q.st.desired == Arrived ==> k.loc == r.dest)
    && (k.sync == Posted && q.st.desired == Pickup ==> |r.log| == 3)
    && (k.sync == Posted && q.st.desired == Arrived ==> |r.log| >= 5)
  }

  ghost predicate ChairFits(rides: seq<W.Ride>, reqs: seq<Req>, k: ChairRec, heard: seq<M.Event>, c: ChairId)
    requires |reqs| == |rides|
  {
    var known := Handled(k, heard);
    && k.handled <= |heard|
    && MindFits(rides, known, k.mind, c)
    && (forall i | 0 <= i < |rides| && rides[i].chair == Some(c) :: TakenFits(rides[i], reqs[i], i, k, known))
    && (k.mind.request.Some? ==>
          var i := k.mind.request.value;
          && i < |rides| && rides[i].chair == Some(c) && reqs[i].registered && reqs[i].st.chair != Completed
          && (reqs[i].st.desired != Matching ==> i in k.history) && M.Event(i, 0) in known
          && PositionFits(rides[i], reqs[i], k))
  }

  ghost predicate ChairsFit(rides: seq<W.Ride>, reqs: seq<Req>, chairs: seq<ChairRec>, m: M.State)
    requires |reqs| == |rides|
  {
    forall c | 0 <= c < |chairs| :: ChairFits(rides, reqs, chairs[c], M.Heard(m, c), c)
  }

  ghost predicate Inv(s: State) {
    && M.FullInv(s.m)
    && RidesFit(Rides(s), s.reqs, s.time)
    && UsersFit(Rides(s), s.reqs, s.users, s.time)
    && ChairsFit(Rides(s), s.reqs, s.chairs, s.m)
    && !s.fault
  }

  /** The server knows no chairs but those of the simulator. */
  ghost predicate ChairsKnown(s: State) {
    && (forall i | 0 <= i < |Rides(s)| && Rides(s)[i].chair.Some? :: Rides(s)[i].chair.value < |s.chairs|)
    && (s.m.matcher.Drawn? || s.m.matcher.Found? ==> s.m.matcher.chair < |s.chairs|)
  }
}
