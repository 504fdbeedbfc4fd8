/** What the steps of the parts look like to the rest of the system. */
module SystemParts {
  import opened Wrappers
  import opened RideStatus
  import opened System
  import K = CouponRuns
  import Y = Payments
  import B = Money
  import A = Agents
  import M = Matching
  import W = WebApp
  import P = Protocol
  import PR = ProtocolRuns
  import ProtocolFrames

  // ---- The protocol ------------------------------------------------------------------

  /** A step of the protocol. */
  ghost predicate Goes(p: P.State, step: P.Step, p': P.State) {
    P.Possible(p, step) && p' == P.Apply(p, step)
  }

  ghost predicate SameRide(r: W.Ride, r': W.Ride) {
    r'.user == r.user && r'.pickup == r.pickup && r'.dest == r.dest
  }

  ghost predicate SameReq(q: P.Req, q': P.Req) {
    && q'.trip == q.trip && q'.evaluating == q.evaluating
    && (q'.st.desired == Completed <==> q.st.desired == Completed)
  }

  ghost predicate SameUser(x: P.UserRec, x': P.UserRec) {
    x'.planned == x.planned && x'.creating == x.creating && x'.request == x.request && x'.ready == x.ready
  }

  /** Neither money nor coupons have to do with the step; v may have heard of a status. */
  ghost predicate Unseen(p: P.State, p': P.State, v: Option<UserId>) {
    && |P.Rides(p')| == |P.Rides(p)| && |p'.reqs| == |p.reqs| && |p'.users| == |p.users| && |p'.chairs| == |p.chairs|
    && (forall i | 0 <= i < |P.Rides(p)| :: SameRide(P.Rides(p)[i], P.Rides(p')[i]))
    && (forall i | 0 <= i < |p.reqs| :: SameReq(p.reqs[i], p'.reqs[i]))
    && (forall i | 0 <= i < |p.reqs| && i < |P.Rides(p)| && v != Some(P.Rides(p)[i].user) ::
          p'.reqs[i].st.user == p.reqs[i].st.user)
    && (forall u | 0 <= u < |p.users| :: SameUser(p.users[u], p'.users[u]))
  }

  lemma ServerKeepsRides(p: P.State, q: W.Request)
    requires !q.CreateRide?
    ensures var rides := P.Rides(P.Server(p, q));
            |rides| == |P.Rides(p)| && forall i | 0 <= i < |rides| :: SameRide(P.Rides(p)[i], rides[i])
  {
  }

  /** The steps that are internal to the protocol, and polls. */
  predicate Plain(step: P.Step) {
    IsInternal(step) || step.UserPoll?
  }

  lemma RidesUnseen(p: P.State, step: P.Step)
    requires Plain(step) && P.Enabled(p, step)
    ensures var rides := P.Rides(P.Apply(p, step));
            |rides| == |P.Rides(p)| && forall i | 0 <= i < |rides| :: SameRide(P.Rides(p)[i], rides[i])
  {
    hide P.Enabled, P.Apply, PR.CallOf, P.Server;
    if step.Matcher? {
      MatcherUnseen(p, step);
    } else {
      PR.AgentsCall(p, step);
      PlainCall(p, step);
      if PR.CallOf(p, step).Some? {
        ServerKeepsRides(p, PR.CallOf(p, step).value);
      } else {
        assert P.Rides(P.Apply(p, step)) == P.Rides(p);
      }
    }
  }

  lemma PlainCall(p: P.State, step: P.Step)
    requires Plain(step) && P.Enabled(p, step)
    ensures PR.CallOf(p, step).Some? ==> !PR.CallOf(p, step).value.CreateRide?
  {
    hide W.Latest;
  }

  lemma MatcherUnseen(p: P.State, step: P.Step)
    requires step.Matcher? && P.Enabled(p, step)
    ensures var rides := P.Rides(P.Apply(p, step));
            |rides| == |P.Rides(p)| && forall i | 0 <= i < |rides| :: SameRide(P.Rides(p)[i], rides[i])
  {
    hide M.ChairFree, M.FirstUnassigned;
  }

  ghost predicate ReqsUnseen(p: P.State, p': P.State, step: P.Step) {
    && |p'.reqs| == |p.reqs|
    && (forall i | 0 <= i < |p.reqs| :: SameReq(p.reqs[i], p'.reqs[i]))
    && (forall i | 0 <= i < |p.reqs| && p'.reqs[i].st.user != p.reqs[i].st.user ::
          (step.UserHandle? || step.Late?) && step.u < |p.users| &&
          (p.users[step.u].request == Some(i) || i in p.users[step.u].history))
  }

  ghost predicate UsersUnseen(p: P.State, p': P.State) {
    |p'.users| == |p.users| && forall u | 0 <= u < |p.users| :: SameUser(p.users[u], p'.users[u])
  }

  lemma HandlerReqs(p: P.State, step: P.Step)
    requires step.ChairHandle? && P.Enabled(p, step)
    ensures ReqsUnseen(p, P.ChairStep(p, step), step)
  {
    hide A.ChairReact, P.NextEvent, A.MindAfter, A.SameData;
  }

  lemma ChairReqs(p: P.State, step: P.Step)
    requires !P.OfUser(step) && !step.Tick? && !step.Matcher? && !step.ChairHandle? && P.Enabled(p, step) && Expectations(p)
    ensures ReqsUnseen(p, P.ChairStep(p, step), step)
  {
    hide W.Latest, M.AfterHandle, A.SameData;
  }

  lemma ChairUsers(p: P.State, step: P.Step)
    requires !P.OfUser(step) && !step.Tick? && !step.Matcher? && P.Enabled(p, step)
    ensures UsersUnseen(p, P.ChairStep(p, step))
  {
    hide W.Latest, A.ChairReact, M.AfterHandle, P.NextEvent, A.MindAfter, A.SameData;
  }

  /** A ride with a call or a leg under way is not expected to be completed yet. */
  ghost predicate Expectations(p: P.State) {
    forall i | 0 <= i < |p.reqs| :: Expecting(p.reqs[i])
  }

  ghost predicate Expecting(q: P.Req) {
    (q.call in {P.Accepting, P.Departing} || q.st.chair in {Enroute, Carrying}) ==> q.st.desired != Completed
  }

  lemma InvExpects(p: P.State)
    requires P.Inv(p)
    ensures Expectations(p)
  {
    hide P.Inv, W.RideOk, M.SixPrefix;
    PR.SameLength(p);
    forall i | 0 <= i < |p.reqs|
      ensures Expecting(p.reqs[i])
    {
      ProtocolFrames.RideAt(p, i);
    }
  }

  lemma UserReqs(p: P.State, step: P.Step)
    requires (step.UserHandle? || step.Late? || step.UserPoll?) && P.Enabled(p, step)
    ensures ReqsUnseen(p, P.UserStep(p, step), step)
  {
    hide A.UserReact, A.UserValid, W.LatestOfUser, M.AfterHandle, P.NextStatus, A.ValidatedAfter, P.LateOutcome;
  }

  lemma UserUsers(p: P.State, step: P.Step)
    requires (step.UserHandle? || step.Late? || step.UserPoll?) && P.Enabled(p, step)
    ensures UsersUnseen(p, P.UserStep(p, step))
  {
    hide A.UserReact, A.UserValid, W.LatestOfUser, M.AfterHandle, P.NextStatus, A.ValidatedAfter, P.LateOutcome;
  }

  lemma PlainReqs(p: P.State, step: P.Step)
    requires P.Inv(p) && Plain(step) && P.Enabled(p, step)
    ensures ReqsUnseen(p, P.Apply(p, step), step) && UsersUnseen(p, P.Apply(p, step))
  {
    hide P.Inv, P.Enabled, P.UserStep, P.ChairStep, ReqsUnseen, UsersUnseen, M.Apply;
    InvExpects(p);
    if step.Tick? || step.Matcher? {
      NoReqs(p, P.Apply(p, step), step);
    } else if P.OfUser(step) {
      UserReqs(p, step);
      UserUsers(p, step);
    } else {
      ChairUsers(p, step);
      if step.ChairHandle? {
        HandlerReqs(p, step);
      } else {
        ChairReqs(p, step);
      }
    }
  }

  lemma NoReqs(p: P.State, p': P.State, step: P.Step)
    requires p'.reqs == p.reqs && p'.users == p.users
    ensures ReqsUnseen(p, p', step) && UsersUnseen(p, p')
  {
  }

  lemma HistoryOwner(p: P.State, u: UserId, i: RideId)
    requires P.Inv(p) && u < |p.users| && (p.users[u].request == Some(i) || i in p.users[u].history)
    ensures i < |P.Rides(p)| && P.Rides(p)[i].user == u
  {
    hide P.Inv;
    ProtocolFrames.UserOf(p, u);
  }

  function Hearer(step: P.Step): Option<UserId> {
    if step.UserHandle? || step.Late? then Some(step.u) else None
  }

  lemma PlainIsUnseen(p: P.State, step: P.Step)
    requires P.Inv(p) && Plain(step) && P.Enabled(p, step)
    ensures Unseen(p, P.Apply(p, step), Hearer(step))
  {
    hide P.Inv, P.Enabled, P.Apply;
    var p' := P.Apply(p, step);
    RidesUnseen(p, step);
    PlainReqs(p, step);
    if !step.Matcher? {
      PR.AgentsCall(p, step);
    } else {
      MatcherChairs(p, step);
    }
    forall i | 0 <= i < |p.reqs| && i < |P.Rides(p)| && Hearer(step) != Some(P.Rides(p)[i].user)
      ensures p'.reqs[i].st.user == p.reqs[i].st.user
    {
      if p'.reqs[i].st.user != p.reqs[i].st.user {
        HistoryOwner(p, step.u, i);
      }
    }
  }

  lemma PlainGoes(p: P.State, step: P.Step, p': P.State)
    requires PR.Sound(p) && Goes(p, step, p') && Plain(step)
    ensures PR.Sound(p') && Unseen(p, p', Hearer(step))
  {
    hide P.Inv, P.Enabled, P.Assumed, P.Apply, Unseen, IsInternal;
    PR.StepKeepsInv(p, step);
    PlainIsUnseen(p, step);
  }

  lemma MatcherChairs(p: P.State, step: P.Step)
    requires step.Matcher? && P.Enabled(p, step)
    ensures |P.Apply(p, step).chairs| == |p.chairs|
  {
  }

  // ---- Counting rides ----------------------------------------------------------------

  lemma OpenRidesAppend(books: seq<B.Ride>, m: B.Ride, u: UserId)
    ensures OpenRides(books + [m], u) == OpenRides(books, u) + if m.user == u && m.progress == B.Open then 1 else 0
  {
    assert (books + [m])[..|books|] == books;
  }

  function IsOpen(m: B.Ride, u: UserId): nat {
    if m.user == u && m.progress == B.Open then 1 else 0
  }

  lemma {:induction false} OpenRidesUpdate(books: seq<B.Ride>, i: nat, m: B.Ride, u: UserId)
    requires i < |books|
    ensures OpenRides(books[i := m], u) == OpenRides(books, u) - IsOpen(books[i], u) + IsOpen(m, u)
    decreases |books|
  {
    var n := |books| - 1;
    if i == n {
      assert books[i := m][..n] == books[..n];
    } else {
      assert books[i := m][..n] == books[..n][i := m];
      OpenRidesUpdate(books[..n], i, m, u);
    }
  }

  /** A user with no open ride but i. */
  lemma {:induction false} OnlyOpenRide(books: seq<B.Ride>, u: UserId, i: nat)
    requires forall j | 0 <= j < |books| && j != i :: IsOpen(books[j], u) == 0
    ensures OpenRides(books, u) == if i < |books| then IsOpen(books[i], u) else 0
    decreases |books|
  {
    if books != [] {
      OnlyOpenRide(books[..|books| - 1], u, i);
    }
  }

  // ---- The coupons -------------------------------------------------------------------

  predicate Engaged(a: Option<K.Agent>) {
    a.Some? && (a.value.phase.Chosen? || a.value.phase.Estimated? || a.value.phase.Posted?)
  }

  /** Nobody's request has to do with it. */
  ghost predicate SameAgent(a: Option<K.Agent>, a': Option<K.Agent>) {
    && (a.Some? ==> a'.Some?) && (Engaged(a) || Engaged(a') ==> a.Some? && a'.Some? && a'.value.phase == a.value.phase)
  }

  lemma SignUpIsUnseen(k: K.State, step: K.Step)
    requires K.Enabled(k, step) && (step.Register? || step.Check? || step.Invite? || step.InviteDone?)
    ensures var k' := K.Apply(k, step);
            k'.t.rides == k.t.rides && k'.planned == k.planned && forall u :: SameAgent(AgentOf(k, u), AgentOf(k', u))
  {
  }

  // ---- The payment server ------------------------------------------------------------

  /** A user's POST for its bill is about its own token only. */
  lemma PostEffect(s: State, u: UserId, amount: nat, luck: Y.Luck)
    ensures var q, t := Posted(s, u, amount, luck), Y.TokenOf(s.pay, Token(u));
            && Y.TokenOf(Y.Post(s.pay, q).0, Token(u)) == Y.AfterPost(t, luck)
            && (Y.Post(s.pay, q).1 == Y.NoContent <==> Y.FateOf(t.retry, luck).ChargedAnswered? && u in s.k.agents)
            && (forall v: UserId | v != u :: Y.TokenOf(Y.Post(s.pay, q).0, Token(v)) == Y.TokenOf(s.pay, Token(v)))
  {
    hide Y.Post, Y.PaymentsOf;
    var q := Posted(s, u, amount, luck);
    Y.PostOnOwnToken(s.pay, q, Token(u));
    forall v: UserId | v != u
      ensures Y.TokenOf(Y.Post(s.pay, q).0, Token(v)) == Y.TokenOf(s.pay, Token(v))
    {
      Y.PostOnOtherToken(s.pay, q, Token(v));
    }
  }
}
