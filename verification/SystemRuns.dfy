/** What holds in every run of the whole system. */
module SystemRuns {
  import opened Grid
  import opened Wrappers
  import opened RideStatus
  import opened System
  import opened SystemParts
  import F = Fares
  import C = Coupons
  import K = CouponRuns
  import Y = Payments
  import PaymentClient
  import B = Money
  import A = Agents
  import M = Matching
  import W = WebApp
  import P = Protocol
  import PR = ProtocolRuns
  import ProtocolFrames
  import ProtocolUsers

  ghost predicate OwnersFit(books: seq<B.Ride>, owners: seq<nat>) {
    forall i | 0 <= i < |books| && books[i].progress == B.Settled :: books[i].owner in owners
  }

  /** The parts are in order. */
  ghost predicate PartsFit(s: State) {
    && PR.Sound(s.p) && K.Inv(s.k) && B.Inv(s.b) && !s.b.wrong && !s.failed
    && |s.desks| == |s.p.users| && |s.owners| == |s.p.chairs| && OwnersFit(s.b.rides, s.owners)
  }

  ghost predicate Inv(s: State) {
    PartsFit(s) && RidesFit(Rides(s), s.p.reqs, s.k, s.b.rides, s.desks) && AccountsFit(s)
  }

  lemma StartFits(users: nat, homes: seq<Coord>, owners: seq<nat>)
    requires |owners| == |homes|
    ensures Inv(Start(users, homes, owners))
  {
    hide PR.Sound;
    PR.StartFits(users, homes);
    var s := Start(users, homes, owners);
    forall u | 0 <= u < |s.p.users|
      ensures AccountFits(s, u)
    {
      assert s.p.users[u] == P.NewUser() && s.desks[u] == Closed;
    }
  }

  // ---- Frames ------------------------------------------------------------------------

  /** The bill of a user is for its own ride. */
  lemma BillUser(s: State, u: UserId)
    requires Inv(s) && u < |s.p.users| && !s.desks[u].Closed?
    ensures var i := s.desks[u].bill.ride; i < |Rides(s)| == |s.p.reqs| && Rides(s)[i].user == u
  {
    hide P.Inv, P.ChairsKnown, K.Inv, B.Inv;
    assert AccountFits(s, u);
    HistoryOwner(s.p, u, s.desks[u].bill.ride);
    PR.SameLength(s.p);
  }

  /** A step that is about user u only: everybody else's account stays as it is. */
  ghost predicate SameFor(s: State, s': State, v: UserId)
    requires v < |s.p.users| == |s.desks| == |s'.p.users| == |s'.desks|
  {
    && s'.p.users[v] == s.p.users[v] && AgentOf(s'.k, v) == AgentOf(s.k, v) && CurrentOf(s'.b, v) == CurrentOf(s.b, v)
    && s'.desks[v] == s.desks[v] && Y.TokenOf(s'.pay, Token(v)) == Y.TokenOf(s.pay, Token(v))
    && C.RideCount(s'.k.t.rides, v) == C.RideCount(s.k.t.rides, v)
    && OpenRides(s'.b.rides, v) == OpenRides(s.b.rides, v)
  }

  /** Rides of other users are not touched. */
  ghost predicate OthersRides(s: State, s': State, u: UserId)
    requires |s.b.rides| == |s.p.reqs| == |Rides(s)|
  {
    && |s.p.reqs| <= |s'.p.reqs| && |s.b.rides| <= |s'.b.rides|
    && (forall i | 0 <= i < |Rides(s)| && Rides(s)[i].user != u ::
          s'.p.reqs[i] == s.p.reqs[i] && s'.b.rides[i] == s.b.rides[i])
  }

  lemma DeskStays(d: Desk, x: P.UserRec, reqs: seq<P.Req>, reqs': seq<P.Req>, books: seq<B.Ride>, books': seq<B.Ride>,
                  retry: int)
    requires DeskFits(d, x, reqs, books, retry) && |reqs| <= |reqs'| && |books| <= |books'|
    requires !d.Closed? && d.bill.ride < |reqs| ==> reqs'[d.bill.ride] == reqs[d.bill.ride]
    requires !d.Closed? && d.bill.ride < |books| ==> books'[d.bill.ride] == books[d.bill.ride]
    ensures DeskFits(d, x, reqs', books', retry)
  {
  }

  lemma OtherAccount(s: State, s': State, u: UserId, v: UserId)
    requires Inv(s) && v < |s.p.users| == |s'.p.users| == |s'.desks| && v != u
    requires SameFor(s, s', v) && OthersRides(s, s', u)
    ensures AccountFits(s', v)
  {
    hide PartsFit, UserFits, PaymentsFit, RidesFit, DeskFits, Y.TokenOf, C.RideCount, OpenRides;
    DesksLong(s);
    if !s.desks[v].Closed? {
      BillUser(s, v);
    }
    assert AccountFits(s, v);
    DeskStays(s.desks[v], s.p.users[v], s.p.reqs, s'.p.reqs, s.b.rides, s'.b.rides, Y.TokenOf(s.pay, Token(v)).retry);
  }

  lemma DesksLong(s: State)
    requires Inv(s)
    ensures |s.desks| == |s.p.users| && |s.b.rides| == |s.p.reqs| == |Rides(s)| == |s.k.t.rides| && !s.failed
    ensures PR.Sound(s.p) && K.Inv(s.k) && B.Inv(s.b) && !s.b.wrong
  {
    hide PR.Sound, K.Inv, B.Inv, AccountsFit;
  }

  lemma OneAccount(s: State, s': State, u: UserId)
    requires Inv(s) && |s.p.users| == |s'.p.users| == |s'.desks| == |s.desks|
    requires |s.b.rides| == |s.p.reqs| == |Rides(s)| && OthersRides(s, s', u)
    requires forall v | 0 <= v < |s.p.users| && v != u :: SameFor(s, s', v)
    requires u < |s.p.users| ==> AccountFits(s', u)
    ensures AccountsFit(s')
  {
    hide Inv, SameFor, OthersRides, AccountFits;
    forall v | 0 <= v < |s'.p.users|
      ensures AccountFits(s', v)
    {
      if v != u {
        assert SameFor(s, s', v);
        OtherAccount(s, s', u, v);
      }
    }
  }

  /** All rides of a user but its current one are over. */
  lemma OthersAreOver(s: State, u: UserId, i: RideId, j: RideId)
    requires Inv(s) && u < |s.p.users| && s.p.users[u].request == Some(i) && j < |Rides(s)| && j != i && Rides(s)[j].user == u
    ensures j < |s.p.reqs| && s.p.reqs[j].st.desired == Completed
    ensures j < |s.b.rides| && s.b.rides[j].progress in {B.Marked, B.Settled}
  {
    hide P.Inv, P.ChairsKnown, K.Inv, B.Inv, AccountsFit;
    ProtocolFrames.UserOf(s.p, u);
    assert ProgressFits(j, s.b.rides[j].progress, s.p.reqs[j], DeskOf(s.desks, Rides(s)[j].user));
  }

  /** Ride i and its user's desk change. */
  lemma OneRide(s: State, s': State, u: UserId, i: RideId, q': P.Req, m': B.Ride, d': Desk)
    requires Inv(s) && u < |s.p.users| && s.p.users[u].request == Some(i) && i < |Rides(s)| && Rides(s)[i].user == u
    requires |s.p.reqs| == |s.b.rides| == |Rides(s)| == |s.k.t.rides| && |s.desks| == |s.p.users|
    requires |Rides(s')| == |Rides(s)| && (forall j | 0 <= j < |Rides(s)| :: SameRide(Rides(s)[j], Rides(s')[j]))
    requires s'.p.reqs == s.p.reqs[i := q'] && q'.trip == s.p.reqs[i].trip && s'.k.t == s.k.t && s'.k.planned == s.k.planned
    requires s'.b.rides == s.b.rides[i := m'] && m' == s.b.rides[i].(progress := m'.progress, owner := m'.owner)
    requires s'.desks == s.desks[u := d'] && ProgressFits(i, m'.progress, q', d')
    ensures RidesFit(Rides(s'), s'.p.reqs, s'.k, s'.b.rides, s'.desks)
  {
    hide PartsFit, AccountsFit;
    forall j | 0 <= j < |Rides(s')|
      ensures RideFits(j, Rides(s')[j], s'.p.reqs[j], s'.k.t.rides[j], s'.b.rides[j], s'.k.planned)
    {
      assert RideFits(j, Rides(s)[j], s.p.reqs[j], s.k.t.rides[j], s.b.rides[j], s.k.planned);
      assert SameRide(Rides(s)[j], Rides(s')[j]);
    }
    forall j | 0 <= j < |Rides(s')|
      ensures ProgressFits(j, s'.b.rides[j].progress, s'.p.reqs[j], DeskOf(s'.desks, Rides(s')[j].user))
    {
      assert SameRide(Rides(s)[j], Rides(s')[j]);
      if j != i {
        if Rides(s)[j].user == u {
          OthersAreOver(s, u, i, j);
        } else {
          assert ProgressFits(j, s.b.rides[j].progress, s.p.reqs[j], DeskOf(s.desks, Rides(s)[j].user));
        }
      }
    }
  }

  // ---- The protocol alone ------------------------------------------------------------

  lemma UnseenRides(s: State, p': P.State, v: Option<UserId>)
    requires Inv(s) && Unseen(s.p, p', v)
    ensures RidesFit(P.Rides(p'), p'.reqs, s.k, s.b.rides, s.desks)
  {
    hide PartsFit, AccountsFit;
    var rides := P.Rides(p');
    forall i | 0 <= i < |rides|
      ensures RideFits(i, rides[i], p'.reqs[i], s.k.t.rides[i], s.b.rides[i], s.k.planned)
      ensures ProgressFits(i, s.b.rides[i].progress, p'.reqs[i], DeskOf(s.desks, rides[i].user))
    {
      assert RideFits(i, Rides(s)[i], s.p.reqs[i], s.k.t.rides[i], s.b.rides[i], s.k.planned);
      assert ProgressFits(i, s.b.rides[i].progress, s.p.reqs[i], DeskOf(s.desks, Rides(s)[i].user));
      assert SameRide(Rides(s)[i], rides[i]) && SameReq(s.p.reqs[i], p'.reqs[i]);
    }
  }

  lemma UnseenAccount(s: State, s': State, v: Option<UserId>, u: UserId)
    requires Inv(s) && Unseen(s.p, s'.p, v) && s' == s.(p := s'.p) && u < |s.p.users| == |s.desks|
    requires v.Some? && v.value < |s.desks| ==> s.desks[v.value].Closed?
    ensures u < |s'.p.users| && AccountFits(s', u)
  {
    hide PartsFit, RidesFit, PaymentsFit;
    assert AccountFits(s, u);
    assert SameUser(s.p.users[u], s'.p.users[u]);
    if !s.desks[u].Closed? {
      BillUser(s, u);
      var i := s.desks[u].bill.ride;
      assert SameReq(s.p.reqs[i], s'.p.reqs[i]);
    }
  }

  lemma UnseenKeeps(s: State, s': State, v: Option<UserId>)
    requires Inv(s) && Unseen(s.p, s'.p, v) && s' == s.(p := s'.p) && PR.Sound(s'.p)
    requires v.Some? && v.value < |s.desks| ==> s.desks[v.value].Closed?
    ensures Inv(s')
  {
    hide PR.Sound, K.Inv, B.Inv, RidesFit, AccountFits;
    UnseenRides(s, s'.p, v);
    forall u | 0 <= u < |s'.p.users|
      ensures AccountFits(s', u)
    {
      UnseenAccount(s, s', v, u);
    }
  }

  lemma InternalKeeps(s: State, s': State, step: P.Step)
    requires Inv(s) && Next(s, Internal(step), s')
    ensures Inv(s')
  {
    hide Inv, PR.Sound, P.Apply, P.Enabled, Unseen, Next;
    DesksLong(s);
    InternalGoes(s, s', step);
    PlainGoes(s.p, step, s'.p);
    UnseenKeeps(s, s', Hearer(step));
  }

  lemma InternalGoes(s: State, s': State, step: P.Step)
    requires Next(s, Internal(step), s')
    ensures s' == s.(p := s'.p) && Goes(s.p, step, s'.p) && Plain(step)
    ensures Hearer(step).Some? ==> step.u < |s.desks| && s.desks[step.u].Closed?
  {
    hide P.Apply, P.Enabled;
  }

  lemma SoundIsInv(p: P.State)
    requires PR.Sound(p)
    ensures P.Inv(p)
  {
  }

  /** A poll tells the fare that the user reckons with. */
  lemma PollIsPossible(s: State, u: UserId)
    requires Inv(s) && Enabled(s, UserPoll(u))
    ensures P.Possible(s.p, P.UserPoll(u, FareNow(s, u)))
  {
    hide PR.Sound, P.Inv, K.Inv, B.Inv, AccountsFit, W.LatestOfUser, C.RideFare;
    DesksLong(s);
    SoundIsInv(s.p);
    ProtocolUsers.CurrentIsLatest(s.p, u);
    FareIsTrips(s, s.p.users[u].request.value);
  }

  lemma FareIsTrips(s: State, i: RideId)
    requires Inv(s) && i < |Rides(s)|
    ensures i < |s.k.t.rides| && i < |s.p.reqs| && i < |s.b.rides|
    ensures C.RideFare(s.k.t, s.k.t.rides[i]) == s.p.reqs[i].trip.fare == B.RideFare(s.b.rides[i])
  {
    hide PR.Sound, K.Inv, B.Inv, AccountsFit, C.RideFare;
    assert RideFits(i, Rides(s)[i], s.p.reqs[i], s.k.t.rides[i], s.b.rides[i], s.k.planned);
    K.OneFare(s.k, i);
  }

  lemma PollKeeps(s: State, s': State, u: UserId)
    requires Inv(s) && Next(s, UserPoll(u), s')
    ensures Inv(s')
  {
    hide Inv, PR.Sound, P.Apply, P.Enabled, Unseen, Next, FareNow, Goes;
    DesksLong(s);
    PollGoes(s, s', u);
    PlainGoes(s.p, P.UserPoll(u, FareNow(s, u)), s'.p);
    UnseenKeeps(s, s', None);
  }

  lemma PollGoes(s: State, s': State, u: UserId)
    requires Inv(s) && Next(s, UserPoll(u), s')
    ensures s' == s.(p := s'.p) && Goes(s.p, P.UserPoll(u, FareNow(s, u)), s'.p)
  {
    hide Inv, P.Apply, P.Enabled, FareNow;
    PollIsPossible(s, u);
  }

  // ---- Coupons and requests ----------------------------------------------------------

  lemma SignUpKeeps(s: State, s': State, step: K.Step)
    requires Inv(s) && Next(s, SignUp(step), s')
    ensures Inv(s')
  {
    hide PR.Sound, K.Inv, B.Inv, K.Apply, K.Enabled, Y.PaymentsOf, C.RideCount, OpenRides;
    K.StepKeepsInv(s.k, step);
    SignUpIsUnseen(s.k, step);
    forall u | 0 <= u < |s'.p.users|
      ensures AccountFits(s', u)
    {
      assert AccountFits(s, u);
      SignedUp(s.p.users[u], AgentOf(s.k, u), AgentOf(s'.k, u), CurrentOf(s.b, u));
    }
  }

  lemma SignedUp(x: P.UserRec, a: Option<K.Agent>, a': Option<K.Agent>, current: Option<nat>)
    requires UserFits(x, a, current) && SameAgent(a, a')
    ensures UserFits(x, a', current)
  {
  }

  /** A step of user u that no ride sees. */
  lemma UserKeeps(s: State, s': State, u: UserId, x: P.UserRec, a: K.Agent)
    requires Inv(s) && u < |s.p.users| && PR.Sound(s'.p) && K.Inv(s'.k)
    requires s' == s.(p := s.p.(users := s.p.users[u := x]), k := s.k.(agents := s.k.agents[u := a]))
    requires UserFits(x, Some(a), CurrentOf(s.b, u))
    requires x.request == s.p.users[u].request && x.creating == s.p.users[u].creating
    ensures Inv(s')
  {
    hide PR.Sound, K.Inv, B.Inv, Y.PaymentsOf, C.RideCount, OpenRides, UserFits;
    assert AccountFits(s, u);
    assert AccountFits(s', u);
    OneAccount(s, s', u);
  }

  lemma AgentIsThere(s: State, u: UserId)
    requires Inv(s) && u < |s.p.users|
    ensures |s.desks| == |s.p.users| && UserFits(s.p.users[u], AgentOf(s.k, u), CurrentOf(s.b, u))
  {
    hide PR.Sound, K.Inv, B.Inv, OwnersFit, RidesFit, DeskFits, PaymentsFit;
    assert AccountFits(s, u);
  }

  lemma RegisterPaymentKeeps(s: State, s': State, u: UserId)
    requires Inv(s) && Next(s, RegisterPayment(u), s')
    ensures Inv(s')
  {
    hide Inv, PR.Sound, K.Inv, B.Inv;
    DesksLong(s);
    AgentIsThere(s, u);
    PR.StepKeepsInv(s.p, P.RegisterPayment(u));
    assert s.k.agents[u := s.k.agents[u]] == s.k.agents;
    UserKeeps(s, s', u, s'.p.users[u], s.k.agents[u]);
  }

  lemma PlanKeeps(s: State, s': State, u: UserId, pickup: Coord, dest: Coord)
    requires Inv(s) && Next(s, Plan(u, pickup, dest), s')
    ensures Inv(s')
  {
    hide Inv, PR.Sound, K.Inv, B.Inv;
    DesksLong(s);
    AgentIsThere(s, u);
    PR.StepKeepsInv(s.p, P.Plan(u));
    K.StepKeepsInv(s.k, K.Choose(u, pickup, dest));
    UserKeeps(s, s', u, s'.p.users[u], s'.k.agents[u]);
  }

  lemma GiveUpKeeps(s: State, s': State, u: UserId)
    requires Inv(s) && Next(s, GiveUp(u), s')
    ensures Inv(s')
  {
    hide Inv, PR.Sound, K.Inv, B.Inv;
    DesksLong(s);
    AgentIsThere(s, u);
    PR.StepKeepsInv(s.p, P.Drop(u));
    K.StepKeepsInv(s.k, K.GiveUp(u));
    UserKeeps(s, s', u, s'.p.users[u], s'.k.agents[u]);
  }

  lemma EstimateKeeps(s: State, s': State, u: UserId)
    requires Inv(s) && Next(s, Estimate(u), s')
    ensures Inv(s')
  {
    hide Inv, PR.Sound, K.Inv, B.Inv, C.EstimatedFare, F.Fare, F.CalculateFare, F.ActualDiscount;
    DesksLong(s);
    AgentIsThere(s, u);
    K.EstimateExpected(s.k, u);
    K.StepKeepsInv(s.k, K.Estimate(u));
    assert s.p.users[u := s.p.users[u]] == s.p.users;
    UserKeeps(s, s', u, s.p.users[u], s'.k.agents[u]);
  }

  // ---- A ride is asked for -----------------------------------------------------------

  /** What asking for a ride does to the protocol. */
  lemma CreateEffect(p: P.State, u: UserId, trip: A.Trip)
    requires P.Inv(p) && P.Enabled(p, P.Create(u, trip))
    ensures var p', r := P.Apply(p, P.Create(u, trip)), W.NewRide(u, trip.pickup, trip.dest, p.m.t.clock + 1);
            && P.Rides(p') == P.Rides(p) + [r] && |p'.users| == |p.users| && |p'.chairs| == |p.chairs|
            && p'.users == p.users[u := p.users[u].(creating := Some(|P.Rides(p)|), planned := None)]
            && p'.reqs == p.reqs + [P.NewReq(p.users[u].planned.value, trip)]
  {
    hide P.Inv;
    ProtocolFrames.UserOf(p, u);
    ProtocolUsers.NothingContinues(p, u);
  }

  lemma CreateKeeps(s: State, s': State, u: UserId)
    requires Inv(s) && Next(s, Create(u), s')
    ensures Inv(s')
  {
    hide PR.Sound, P.Inv, K.Inv, B.Inv, P.Apply, P.Enabled, OwnersFit, RidesFit, AccountsFit, HasCreated, W.NewRide;
    var plan := s.k.agents[u].phase.plan;
    DesksLong(s);
    SoundIsInv(s.p);
    CreateEffect(s.p, u, TripOf(plan));
    PR.StepKeepsInv(s.p, P.Create(u, TripOf(plan)));
    K.StepKeepsInv(s.k, K.Post(u, |Rides(s)|));
    B.StepKeepsInv(s.b, B.Ask(u, plan.pickup, plan.dest, plan.discount));
    CreatesSo(s, s', u, plan);
    CreatedRides(s, s', u, plan);
    CreatedAccounts(s, s', u, plan);
    OwnersAfterAsk(s, s');
  }

  lemma CreatesSo(s: State, s': State, u: UserId, plan: K.Plan)
    requires Inv(s) && Enabled(s, Create(u)) && s' == Created(s, u)
    requires u in s.k.agents && s.k.agents[u].phase == K.Estimated(plan)
    ensures HasCreated(s, s', u, plan)
  {
    hide Inv, PR.Sound, P.Inv, K.Inv, B.Inv, P.Apply, P.Enabled, W.NewRide, C.Taken, C.MarkUsed;
    DesksLong(s);
    SoundIsInv(s.p);
    CreateEffect(s.p, u, TripOf(plan));
    PlannedUser(s.p, u, TripOf(plan));
  }

  lemma PlannedUser(p: P.State, u: UserId, trip: A.Trip)
    requires P.Enabled(p, P.Create(u, trip))
    ensures u < |p.users| && p.users[u].planned.Some?
  {
  }

  lemma OwnersAfterAsk(s: State, s': State)
    requires Inv(s) && |s'.b.rides| == |s.b.rides| + 1 && s'.b.rides[..|s.b.rides|] == s.b.rides && s'.owners == s.owners
    requires s'.b.rides[|s.b.rides|].progress == B.Open
    ensures OwnersFit(s'.b.rides, s'.owners) && |s.owners| == |s.p.chairs| && !s.failed
  {
    hide PR.Sound, K.Inv, B.Inv, RidesFit, AccountsFit;
    forall i | 0 <= i < |s'.b.rides| && s'.b.rides[i].progress == B.Settled
      ensures s'.b.rides[i].owner in s'.owners
    {
      assert i < |s.b.rides| ==> s'.b.rides[i] == s'.b.rides[..|s.b.rides|][i] == s.b.rides[i];
    }
  }

  /** The state after user u has asked for a ride with this plan. */
  ghost predicate HasCreated(s: State, s': State, u: UserId, plan: K.Plan) {
    && u < |s.p.users| && Rides(s') == Rides(s) + [W.NewRide(u, plan.pickup, plan.dest, s.p.m.t.clock + 1)]
    && s.p.users[u].planned.Some?
    && s'.p.users == s.p.users[u := s.p.users[u].(creating := Some(|Rides(s)|), planned := None)]
    && s'.p.reqs == s.p.reqs + [P.NewReq(s.p.users[u].planned.value, TripOf(plan))]
    && u in s.k.agents && s.k.agents[u].phase == K.Estimated(plan)
    && s'.k.t.rides == s.k.t.rides + [C.Ride(|Rides(s)|, u, plan.pickup, plan.dest)]
    && s'.k.planned == s.k.planned[|Rides(s)| := plan]
    && s'.k.agents == s.k.agents[u := s.k.agents[u].(phase := K.Posted(plan, |Rides(s)|))]
    && s'.b.rides == s.b.rides + [B.Ride(u, plan.pickup, plan.dest, plan.discount, 0, B.Open)]
    && s'.b.current == s.b.current && s'.desks == s.desks && s'.pay == s.pay
  }

  lemma CreatedRides(s: State, s': State, u: UserId, plan: K.Plan)
    requires Inv(s) && HasCreated(s, s', u, plan)
    ensures RidesFit(Rides(s'), s'.p.reqs, s'.k, s'.b.rides, s'.desks)
  {
    hide PartsFit, AccountsFit;
    forall i | 0 <= i < |Rides(s')|
      ensures RideFits(i, Rides(s')[i], s'.p.reqs[i], s'.k.t.rides[i], s'.b.rides[i], s'.k.planned)
      ensures ProgressFits(i, s'.b.rides[i].progress, s'.p.reqs[i], DeskOf(s'.desks, Rides(s')[i].user))
    {
      if i < |Rides(s)| {
        assert RideFits(i, Rides(s)[i], s.p.reqs[i], s.k.t.rides[i], s.b.rides[i], s.k.planned);
        assert ProgressFits(i, s.b.rides[i].progress, s.p.reqs[i], DeskOf(s.desks, Rides(s)[i].user));
      }
    }
  }

  lemma CountsAfterCreate(s: State, s': State, u: UserId, plan: K.Plan, v: UserId)
    requires HasCreated(s, s', u, plan)
    ensures C.RideCount(s'.k.t.rides, v) == C.RideCount(s.k.t.rides, v) + if v == u then 1 else 0
    ensures OpenRides(s'.b.rides, v) == OpenRides(s.b.rides, v) + if v == u then 1 else 0
  {
    hide C.RideCount, OpenRides;
    C.RideCountAppend(s.k.t.rides, C.Ride(|Rides(s)|, u, plan.pickup, plan.dest), v);
    OpenRidesAppend(s.b.rides, B.Ride(u, plan.pickup, plan.dest, plan.discount, 0, B.Open), v);
  }

  lemma OthersAfterCreate(s: State, s': State, u: UserId, plan: K.Plan, v: UserId)
    requires HasCreated(s, s', u, plan) && v < |s.p.users| == |s.desks| && v != u
    ensures |s'.p.users| == |s'.desks| == |s.desks| && SameFor(s, s', v)
  {
    hide C.RideCount, OpenRides, Y.TokenOf, W.NewRide;
    CountsAfterCreate(s, s', u, plan, v);
  }

  lemma CreatedAccounts(s: State, s': State, u: UserId, plan: K.Plan)
    requires Inv(s) && HasCreated(s, s', u, plan)
    ensures |s'.p.users| == |s'.desks| && AccountsFit(s')
  {
    hide Inv, Y.TokenOf, C.RideCount, OpenRides, AccountFits, AccountsFit, SameFor, W.NewRide;
    DesksLong(s);
    forall v | 0 <= v < |s.p.users| && v != u
      ensures SameFor(s, s', v)
    {
      OthersAfterCreate(s, s', u, plan, v);
    }
    CountsAfterCreate(s, s', u, plan, u);
    CreatorFits(s, s', u, plan);
    OneAccount(s, s', u);
  }

  lemma CreatorFits(s: State, s': State, u: UserId, plan: K.Plan)
    requires Inv(s) && HasCreated(s, s', u, plan) && |s.desks| == |s.p.users|
    requires C.RideCount(s'.k.t.rides, u) == C.RideCount(s.k.t.rides, u) + 1
    requires OpenRides(s'.b.rides, u) == OpenRides(s.b.rides, u) + 1
    ensures AccountFits(s', u)
  {
    hide PR.Sound, P.Inv, K.Inv, B.Inv, OwnersFit, RidesFit, Y.PaymentsOf, C.RideCount, OpenRides;
    assert AccountFits(s, u);
    SoundIsInv(s.p);
    ProtocolFrames.UserOf(s.p, u);
    assert s.p.users[u].request.None? && s.desks[u].Closed?;
  }

  // ---- The answer to the request -----------------------------------------------------

  /** What a step on the user's own ride i, its books and its desk leaves alone. */
  ghost predicate OwnStep(s: State, s': State, u: UserId, i: RideId, x: P.UserRec, q: P.Req, m: B.Ride, d: Desk) {
    && u < |s.p.users| == |s.desks| && i < |Rides(s)| == |s.p.reqs| == |s.b.rides| && Rides(s)[i].user == u
    && s'.p.users == s.p.users[u := x] && s'.p.reqs == s.p.reqs[i := q] && s'.b.rides == s.b.rides[i := m]
    && s'.desks == s.desks[u := d] && |s'.p.chairs| == |s.p.chairs| && s'.owners == s.owners
    && |Rides(s')| == |Rides(s)| && (forall j | 0 <= j < |Rides(s)| :: SameRide(Rides(s)[j], Rides(s')[j]))
    && q.trip == s.p.reqs[i].trip && m == s.b.rides[i].(progress := m.progress, owner := m.owner)
    && s'.k.t == s.k.t && s'.k.planned == s.k.planned
    && (forall v: UserId | v != u ::
          AgentOf(s'.k, v) == AgentOf(s.k, v) && CurrentOf(s'.b, v) == CurrentOf(s.b, v) &&
          Y.TokenOf(s'.pay, Token(v)) == Y.TokenOf(s.pay, Token(v)))
  }

  lemma OwnAccounts(s: State, s': State, u: UserId, i: RideId, x: P.UserRec, q: P.Req, m: B.Ride, d: Desk)
    requires Inv(s) && OwnStep(s, s', u, i, x, q, m, d) && AccountFits(s', u)
    ensures AccountsFit(s')
  {
    hide Inv, AccountFits, Y.TokenOf, C.RideCount, OpenRides;
    OwnersBook(s, i, u);
    forall v: UserId | v != u
      ensures OpenRides(s'.b.rides, v) == OpenRides(s.b.rides, v)
    {
      OpenRidesUpdate(s.b.rides, i, m, v);
    }
    OneAccount(s, s', u);
  }

  lemma OwnersBook(s: State, i: RideId, u: UserId)
    requires Inv(s) && i < |Rides(s)| && Rides(s)[i].user == u
    ensures i < |s.b.rides| && s.b.rides[i].user == u
  {
    hide PartsFit, AccountsFit;
    DesksLong(s);
    assert i < |s.p.reqs| && i < |s.k.t.rides| && i < |s.b.rides|;
    assert RideFits(i, Rides(s)[i], s.p.reqs[i], s.k.t.rides[i], s.b.rides[i], s.k.planned);
  }

  lemma OwnersAfter(s: State, s': State, i: RideId, m: B.Ride)
    requires Inv(s) && i < |s.b.rides| && s'.b.rides == s.b.rides[i := m] && s'.owners == s.owners
    requires m.progress == B.Settled ==> m.owner in s.owners
    ensures OwnersFit(s'.b.rides, s'.owners)
    ensures |s.desks| == |s.p.users| && |s.owners| == |s.p.chairs|
  {
    hide PR.Sound, K.Inv, B.Inv, RidesFit, AccountsFit;
  }

  lemma OwnKeeps(s: State, s': State, u: UserId, i: RideId, x: P.UserRec, q: P.Req, m: B.Ride, d: Desk)
    requires Inv(s) && OwnStep(s, s', u, i, x, q, m, d) && s.p.users[u].request == Some(i)
    requires PR.Sound(s'.p) && K.Inv(s'.k) && B.Inv(s'.b) && !s'.b.wrong && !s'.failed
    requires m.progress == B.Settled ==> m.owner in s.owners
    requires ProgressFits(i, m.progress, q, d) && AccountFits(s', u)
    ensures Inv(s')
  {
    hide PR.Sound, K.Inv, B.Inv, OwnersFit, RidesFit, AccountFits, AccountsFit, ProgressFits;
    DesksLong(s);
    OwnersAfter(s, s', i, m);
    OwnAccounts(s, s', u, i, x, q, m, d);
    OneRide(s, s', u, i, q, m, d);
  }

  lemma RegisterEffect(p: P.State, u: UserId)
    requires P.Inv(p) && P.Enabled(p, P.Register(u))
    ensures var i, p' := p.users[u].creating.value, P.Apply(p, P.Register(u));
            && i < |p.reqs| == |P.Rides(p)| && P.Rides(p)[i].user == u && p.users[u].request.None?
            && p' == p.(reqs := p.reqs[i := p.reqs[i].(registered := true)], users := p'.users)
            && p'.users == p.users[u := p.users[u].(creating := None, request := Some(i),
                                                    history := p.users[u].history + [i], handled := 0, news := [])]
  {
    hide P.Inv;
    ProtocolFrames.UserOf(p, u);
  }

  lemma RegisterKeeps(s: State, s': State, u: UserId)
    requires Inv(s) && Next(s, Register(u), s')
    ensures Inv(s')
  {
    hide PR.Sound, P.Inv, K.Inv, B.Inv, P.Apply, OwnersFit, RidesFit, AccountFits, AccountsFit, ProgressFits, Y.TokenOf,
         C.RideCount, OpenRides;
    var i := s.p.users[u].creating.value;
    DesksLong(s);
    SoundIsInv(s.p);
    RegisterEffect(s.p, u);
    PR.StepKeepsInv(s.p, P.Register(u));
    K.StepKeepsInv(s.k, K.Finish(u));
    B.StepKeepsInv(s.b, B.Take(u, i));
    assert s.b.rides[i := s.b.rides[i]] == s.b.rides && s.desks[u := s.desks[u]] == s.desks;
    assert OwnStep(s, s', u, i, s'.p.users[u], s'.p.reqs[i], s.b.rides[i], s.desks[u]);
    if s.b.rides[i].progress == B.Settled {
      SettledOwner(s, i);
    }
    OwnersAfter(s, s', i, s.b.rides[i]);
    RegistrarFits(s, s', u, i, s'.p.users[u], s'.k.agents[u]);
    OwnAccounts(s, s', u, i, s'.p.users[u], s'.p.reqs[i], s.b.rides[i], s.desks[u]);
    RegisteredRides(s, s', u, i);
  }

  lemma SettledOwner(s: State, i: RideId)
    requires Inv(s) && i < |s.b.rides| && s.b.rides[i].progress == B.Settled
    ensures s.b.rides[i].owner in s.owners
  {
    hide PR.Sound, K.Inv, B.Inv, RidesFit, AccountsFit;
  }

  lemma RegistrarFits(s: State, s': State, u: UserId, i: RideId, x: P.UserRec, a: K.Agent)
    requires Inv(s) && u < |s.p.users| == |s.desks| && s.p.users[u].request.None? && s.p.users[u].creating.Some?
    requires x == s.p.users[u].(creating := None, request := Some(i), history := x.history, handled := 0, news := [])
    requires s'.p.users == s.p.users[u := x] && s'.desks == s.desks && s'.pay == s.pay && s'.k.t == s.k.t
    requires s'.b.rides == s.b.rides && CurrentOf(s'.b, u) == Some(i)
    requires AgentOf(s'.k, u) == Some(a) && a.phase.Free?
    ensures AccountFits(s', u)
  {
    hide PartsFit, RidesFit, Y.TokenOf, C.RideCount, OpenRides;
    assert AccountFits(s, u);
    assert s.desks[u].Closed?;
  }

  lemma RegisteredRides(s: State, s': State, u: UserId, i: RideId)
    requires Inv(s) && i < |s.p.reqs| && s'.p.reqs == s.p.reqs[i := s.p.reqs[i].(registered := true)]
    requires Rides(s') == Rides(s) && s'.k.t == s.k.t && s'.k.planned == s.k.planned && s'.b.rides == s.b.rides
    requires s'.desks == s.desks
    ensures RidesFit(Rides(s'), s'.p.reqs, s'.k, s'.b.rides, s'.desks)
  {
    hide PartsFit, AccountsFit;
    forall j | 0 <= j < |Rides(s')|
      ensures RideFits(j, Rides(s')[j], s'.p.reqs[j], s'.k.t.rides[j], s'.b.rides[j], s'.k.planned)
      ensures ProgressFits(j, s'.b.rides[j].progress, s'.p.reqs[j], DeskOf(s'.desks, Rides(s')[j].user))
    {
      assert RideFits(j, Rides(s)[j], s.p.reqs[j], s.k.t.rides[j], s.b.rides[j], s.k.planned);
      assert ProgressFits(j, s.b.rides[j].progress, s.p.reqs[j], DeskOf(s.desks, Rides(s)[j].user));
    }
  }

  // ---- An evaluation -----------------------------------------------------------------

  /** A user's current ride in all records. */
  lemma CurrentRide(s: State, u: UserId)
    requires Inv(s) && u < |s.p.users| && s.p.users[u].request.Some?
    ensures var i := s.p.users[u].request.value;
            && i < |Rides(s)| == |s.p.reqs| == |s.b.rides| && Rides(s)[i].user == s.b.rides[i].user == u
            && CurrentOf(s.b, u) == Some(i) && B.On(s.b, u) && s.b.current[u] == i
            && u < |s.desks| == |s.p.users| && ProgressFits(i, s.b.rides[i].progress, s.p.reqs[i], s.desks[u])
            && s.p.users[u].ready && s.p.users[u].creating.None? && u in s.k.agents
  {
    hide PR.Sound, P.Inv, K.Inv, B.Inv, OwnersFit, DeskFits, PaymentsFit;
    var i := s.p.users[u].request.value;
    SoundIsInv(s.p);
    HistoryOwner(s.p, u, i);
    ProtocolFrames.UserOf(s.p, u);
    assert AccountFits(s, u);
    assert RideFits(i, Rides(s)[i], s.p.reqs[i], s.k.t.rides[i], s.b.rides[i], s.k.planned);
    assert ProgressFits(i, s.b.rides[i].progress, s.p.reqs[i], DeskOf(s.desks, Rides(s)[i].user));
  }

  /** A user's account after a step on its own ride. */
  lemma OwnAccount(s: State, s': State, u: UserId, i: RideId, x: P.UserRec, q: P.Req, m: B.Ride, d: Desk)
    requires Inv(s) && OwnStep(s, s', u, i, x, q, m, d) && s.b.rides[i].user == u
    requires UserFits(x, AgentOf(s'.k, u), CurrentOf(s'.b, u))
    requires DeskFits(d, x, s'.p.reqs, s'.b.rides, Y.TokenOf(s'.pay, Token(u)).retry)
    requires var t, t' := Y.TokenOf(s.pay, Token(u)), Y.TokenOf(s'.pay, Token(u));
             t'.retry >= -1 && t'.paid - t.paid == IsOpen(s.b.rides[i], u) - IsOpen(m, u)
    ensures AccountFits(s', u)
  {
    hide PartsFit, RidesFit, UserFits, DeskFits, Y.TokenOf, C.RideCount, OpenRides;
    assert AccountFits(s, u);
    OpenRidesUpdate(s.b.rides, i, m, u);
  }

  /** The server accepts the evaluation. */
  lemma EvaluationIsAccepted(p: P.State, u: UserId, score: int)
    requires P.Inv(p) && P.Enabled(p, P.Evaluate(u, score))
    ensures var i := p.users[u].request.value;
            && W.EvaluationAccepted(P.Rides(p)[i], score) && P.Timed(p.reqs[i])
            && Arriving(p.users[u], p.reqs, i) && 1 <= score <= 5
  {
    hide P.Inv, P.RideFits, W.RideOk, M.SixPrefix, W.EvaluationAccepted, P.Timed;
    var i := p.users[u].request.value;
    ProtocolFrames.RideAt(p, i);
    ProtocolUsers.LogBounds(P.Rides(p)[i]);
    ProtocolUsers.EvaluatedRide(P.Rides(p)[i], p.reqs[i], p.time, score, 0);
  }

  lemma EvaluateKeeps(s: State, s': State, u: UserId, score: int)
    requires Inv(s) && Next(s, Evaluate(u, score), s')
    ensures Inv(s')
  {
    hide Inv, PR.Sound, P.Inv, K.Inv, B.Inv, W.EvaluationAccepted, P.Timed, P.Enabled, C.RideFare, Y.TokenOf;
    var i := s.p.users[u].request.value;
    DesksLong(s);
    SoundIsInv(s.p);
    CurrentRide(s, u);
    EvaluationIsAccepted(s.p, u, score);
    FareIsTrips(s, i);
    AgentIsThere(s, u);
    RetryIsAtLeast(s, u);
    var d := Posting(Bill(i, score, C.RideFare(s.k.t, s.k.t.rides[i])), 0);
    assert s' == SetDesk(s, u, d);
    assert s.b.rides[i := s.b.rides[i]] == s.b.rides && s.p.reqs[i := s.p.reqs[i]] == s.p.reqs &&
           s.p.users[u := s.p.users[u]] == s.p.users;
    OwnersFrom(s, i);
    OwnAccount(s, s', u, i, s.p.users[u], s.p.reqs[i], s.b.rides[i], d);
    OwnKeeps(s, s', u, i, s.p.users[u], s.p.reqs[i], s.b.rides[i], d);
  }

  lemma OwnersFrom(s: State, i: RideId)
    requires Inv(s) && i < |s.b.rides|
    ensures s.b.rides[i].progress == B.Settled ==> s.b.rides[i].owner in s.owners
  {
    hide PR.Sound, K.Inv, B.Inv, RidesFit, AccountsFit;
  }

  lemma RetryIsAtLeast(s: State, u: UserId)
    requires Inv(s) && u < |s.p.users|
    ensures Y.TokenOf(s.pay, Token(u)).retry >= -1
    ensures |s.desks| == |s.p.users|
    ensures DeskFits(s.desks[u], s.p.users[u], s.p.reqs, s.b.rides, Y.TokenOf(s.pay, Token(u)).retry)
    ensures PaymentsFit(Y.TokenOf(s.pay, Token(u)), C.RideCount(s.k.t.rides, u), OpenRides(s.b.rides, u))
  {
    hide PR.Sound, K.Inv, B.Inv, OwnersFit, RidesFit, UserFits, DeskFits, Y.TokenOf, C.RideCount, OpenRides;
    assert AccountFits(s, u);
  }

  /** A payment that is processed is right: it is the fare, and the first one. */
  lemma ChargeIsRight(s: State, u: UserId, i: RideId, amount: nat)
    requires B.Inv(s.b) && !s.b.wrong && B.On(s.b, u) && s.b.current[u] == i
    requires s.b.rides[i].progress == B.Open && amount == B.RideFare(s.b.rides[i])
    ensures var b := B.Apply(s.b, B.Charge(u, amount));
            && B.Inv(b) && !b.wrong && b.current == s.b.current
            && b.rides == s.b.rides[i := s.b.rides[i].(progress := B.Paid)]
  {
    hide B.Inv, B.RideFare;
    B.StepKeepsInv(s.b, B.Charge(u, amount));
  }

  /** The desk and the books after a POST. */
  function DeskAfterPost(d: Desk, fate: Y.Fate, known: bool): Desk
    requires d.Posting?
  {
    if fate.ChargedAnswered? && known then Charged(d.bill) else Checking(d.bill, d.tries)
  }

  function BooksAfterPost(m: B.Ride, fate: Y.Fate): B.Ride {
    if fate.NotCharged? then m else m.(progress := B.Paid)
  }

  /** An attempt that is not charged uses up bad luck. */
  lemma PostMovesDesk(d: Desk, x: P.UserRec, reqs: seq<P.Req>, books: seq<B.Ride>, retry: int, luck: Y.Luck, known: bool)
    requires d.Posting? && DeskFits(d, x, reqs, books, retry)
    ensures var i, f := d.bill.ride, Y.FateOf(retry, luck);
            var m := BooksAfterPost(books[i], f);
            && DeskFits(DeskAfterPost(d, f, known), x, reqs, books[i := m], Y.AfterPost(Y.Token(retry, 0), luck).retry)
            && ProgressFits(i, m.progress, reqs[i], DeskAfterPost(d, f, known))
  {
  }

  lemma PostPaymentKeeps(s: State, s': State, u: UserId, luck: Y.Luck)
    requires Inv(s) && Next(s, PostPayment(u, luck), s')
    ensures Inv(s')
  {
    hide Inv, PR.Sound, P.Inv, K.Inv, B.Inv, Y.TokenOf, B.Apply, Y.Post, B.RideFare, ProgressFits, UserFits, P.Enabled;
    DesksLong(s);
    RetryIsAtLeast(s, u);
    CurrentRide(s, u);
    AgentIsThere(s, u);
    var d, t := s.desks[u], Y.TokenOf(s.pay, Token(u));
    var i, f := d.bill.ride, Y.FateOf(t.retry, luck);
    PostEffect(s, u, d.bill.amount, luck);
    TokenParts(s, u);
    ChargeIsRight(s, u, i, d.bill.amount);
    OwnersFrom(s, i);
    PostMovesDesk(d, s.p.users[u], s.p.reqs, s.b.rides, t.retry, luck, u in s.k.agents);
    var d', m := DeskAfterPost(d, f, true), BooksAfterPost(s.b.rides[i], f);
    PostResult(s, s', u, luck);
    AfterPostSplits(t, luck);
    assert s.p.reqs[i := s.p.reqs[i]] == s.p.reqs && s.p.users[u := s.p.users[u]] == s.p.users;
    OwnAccount(s, s', u, i, s.p.users[u], s.p.reqs[i], m, d');
    OwnKeeps(s, s', u, i, s.p.users[u], s.p.reqs[i], m, d');
  }

  lemma AfterPostSplits(t: Y.Token, luck: Y.Luck)
    ensures var t' := Y.AfterPost(t, luck);
            && t'.retry == Y.AfterPost(Y.Token(t.retry, 0), luck).retry
            && t'.paid == t.paid + (if Y.FateOf(t.retry, luck).NotCharged? then 0 else 1)
            && (t.retry >= -1 ==> t'.retry >= -1)
  {
  }

  lemma PostResult(s: State, s': State, u: UserId, luck: Y.Luck)
    requires Enabled(s, PostPayment(u, luck)) && s' == Paying(s, u, luck) && u in s.k.agents
    requires B.On(s.b, u) && s.b.rides[s.b.current[u]].progress == B.Open
    ensures var d, i, f := s.desks[u], s.b.current[u], Y.FateOf(Y.RetryCount(s.pay, Token(u)), luck);
            && s' == s.(pay := Y.Post(s.pay, Posted(s, u, d.bill.amount, luck)).0, b := s'.b,
                        desks := s.desks[u := DeskAfterPost(d, f, true)])
            && s'.b == (if f.NotCharged? then s.b else B.Apply(s.b, B.Charge(u, d.bill.amount)))
  {
    hide Y.Post, B.Apply;
    PostEffect(s, u, s.desks[u].bill.amount, luck);
    TokenParts(s, u);
  }

  lemma TokenParts(s: State, u: UserId)
    ensures Y.TokenOf(s.pay, Token(u)).retry == Y.RetryCount(s.pay, Token(u))
    ensures Y.TokenOf(s.pay, Token(u)).paid == |Y.PaymentsOf(s.pay.books.ledger, Token(u))|
  {
  }

  /** During an evaluation the rides are one more than the payments exactly until the charge. */
  lemma CountTells(s: State, u: UserId)
    requires Inv(s) && u < |s.p.users| && s.p.users[u].request.Some?
    ensures var i := s.p.users[u].request.value;
            && i < |s.b.rides|
            && C.RideCount(s.k.t.rides, u) == Y.TokenOf(s.pay, Token(u)).paid + IsOpen(s.b.rides[i], u)
  {
    hide Inv, Y.TokenOf, C.RideCount, OpenRides, B.Inv;
    var i := s.p.users[u].request.value;
    CurrentRide(s, u);
    RetryIsAtLeast(s, u);
    forall j | 0 <= j < |s.b.rides| && j != i
      ensures IsOpen(s.b.rides[j], u) == 0
    {
      if s.b.rides[j].user == u {
        BooksUser(s, j);
        OthersAreOver(s, u, i, j);
      }
    }
    OnlyOpenRide(s.b.rides, u, i);
  }

  lemma BooksUser(s: State, j: RideId)
    requires Inv(s) && j < |s.b.rides|
    ensures j < |Rides(s)| && Rides(s)[j].user == s.b.rides[j].user
  {
    hide PartsFit, AccountsFit;
    assert RideFits(j, Rides(s)[j], s.p.reqs[j], s.k.t.rides[j], s.b.rides[j], s.k.planned);
  }

  lemma GetPaymentsKeeps(s: State, s': State, u: UserId)
    requires Inv(s) && Next(s, GetPayments(u), s')
    ensures Inv(s')
  {
    hide Inv, PR.Sound, P.Inv, K.Inv, B.Inv, Y.TokenOf, C.RideCount, OpenRides, B.RideFare, UserFits, P.Apply, P.Enabled,
         B.Apply, K.Apply;
    DesksLong(s);
    RetryIsAtLeast(s, u);
    CurrentRide(s, u);
    AgentIsThere(s, u);
    CountTells(s, u);
    TokenParts(s, u);
    var i := s.desks[u].bill.ride;
    OwnersFrom(s, i);
    assert s.b.rides[i := s.b.rides[i]] == s.b.rides && s.p.reqs[i := s.p.reqs[i]] == s.p.reqs &&
           s.p.users[u := s.p.users[u]] == s.p.users;
    OwnAccount(s, s', u, i, s.p.users[u], s.p.reqs[i], s.b.rides[i], s'.desks[u]);
    OwnKeeps(s, s', u, i, s.p.users[u], s.p.reqs[i], s.b.rides[i], s'.desks[u]);
  }

  lemma CommitEffect(p: P.State, u: UserId, score: int)
    requires P.Inv(p) && P.Enabled(p, P.Evaluate(u, score))
    ensures var i, p' := p.users[u].request.value, P.Apply(p, P.Evaluate(u, score));
            && i < |p.reqs| && p'.reqs == p.reqs[i := p.reqs[i].(evaluating := true)]
            && p'.users == p.users && p'.chairs == p.chairs && |P.Rides(p')| == |P.Rides(p)|
            && (forall j | 0 <= j < |P.Rides(p)| :: SameRide(P.Rides(p)[j], P.Rides(p')[j]))
  {
    hide P.Inv, W.EvaluationAccepted, P.Timed;
    EvaluationIsAccepted(p, u, score);
    ServerKeepsRides(p, W.Evaluate(p.users[u].request.value, score, true));
  }

  lemma CommitKeeps(s: State, s': State, u: UserId)
    requires Inv(s) && Next(s, Commit(u), s')
    ensures Inv(s')
  {
    hide Inv, PR.Sound, P.Inv, K.Inv, B.Inv, Y.TokenOf, B.RideFare, P.Apply, P.Enabled, UserFits;
    DesksLong(s);
    SoundIsInv(s.p);
    RetryIsAtLeast(s, u);
    CurrentRide(s, u);
    AgentIsThere(s, u);
    var d := s.desks[u];
    var i, step := d.bill.ride, P.Evaluate(u, d.bill.score);
    CommitEffect(s.p, u, d.bill.score);
    assert P.Assumed(s.p, step);
    PR.StepKeepsInv(s.p, step);
    OwnersFrom(s, i);
    assert s.b.rides[i := s.b.rides[i]] == s.b.rides && s.p.users[u := s.p.users[u]] == s.p.users;
    OwnAccount(s, s', u, i, s.p.users[u], s'.p.reqs[i], s.b.rides[i], Closed);
    OwnKeeps(s, s', u, i, s.p.users[u], s'.p.reqs[i], s.b.rides[i], Closed);
  }

  lemma EvaluateDoneKeeps(s: State, s': State, u: UserId)
    requires Inv(s) && Next(s, EvaluateDone(u), s')
    ensures Inv(s')
  {
    hide Inv, PR.Sound, P.Inv, K.Inv, B.Inv, Y.TokenOf, B.RideFare, UserFits;
    DesksLong(s);
    RetryIsAtLeast(s, u);
    CurrentRide(s, u);
    AgentIsThere(s, u);
    var i := s.p.users[u].request.value;
    assert s.desks[u].Closed? && s.b.rides[i].progress == B.Paid;
    PR.StepKeepsInv(s.p, P.EvaluateDone(u));
    B.StepKeepsInv(s.b, B.Mark(u));
    var m := s.b.rides[i].(progress := B.Marked);
    assert s.desks[u := Closed] == s.desks && s.p.users[u := s.p.users[u]] == s.p.users;
    OwnAccount(s, s', u, i, s.p.users[u], s'.p.reqs[i], m, Closed);
    OwnKeeps(s, s', u, i, s.p.users[u], s'.p.reqs[i], m, Closed);
  }

  /** A completed ride has a chair, and so an owner. */
  lemma OwnerIsKnown(s: State, i: RideId)
    requires Inv(s) && i < |Rides(s)| && i < |s.p.reqs| && s.p.reqs[i].st.desired == Completed
    ensures OwnerOf(s, i) in s.owners
  {
    hide P.Inv, P.ChairsKnown, K.Inv, B.Inv, RidesFit, AccountsFit;
    ProtocolUsers.PastIsCompleted(s.p, i);
    ProtocolUsers.AcceptedChair(s.p, i);
  }

  lemma SettleKeeps(s: State, s': State, u: UserId)
    requires Inv(s) && Next(s, Settle(u), s')
    ensures Inv(s')
  {
    hide Inv, PR.Sound, P.Inv, K.Inv, B.Inv, Y.TokenOf, B.RideFare, UserFits, OwnerOf;
    DesksLong(s);
    RetryIsAtLeast(s, u);
    CurrentRide(s, u);
    AgentIsThere(s, u);
    var i := s.p.users[u].request.value;
    OwnerIsKnown(s, i);
    B.StepKeepsInv(s.b, B.Settle(u, OwnerOf(s, i)));
    var m := s.b.rides[i].(progress := B.Settled, owner := OwnerOf(s, i));
    assert s.desks[u := Closed] == s.desks && s.p.users[u := s.p.users[u]] == s.p.users &&
           s.p.reqs[i := s.p.reqs[i]] == s.p.reqs;
    OwnAccount(s, s', u, i, s.p.users[u], s.p.reqs[i], m, Closed);
    OwnKeeps(s, s', u, i, s.p.users[u], s.p.reqs[i], m, Closed);
  }

  /** Without a current ride. */
  lemma LeftFits(x: P.UserRec, a: Option<K.Agent>, current: Option<nat>)
    requires UserFits(x, a, current)
    ensures UserFits(x.(request := None), a, None)
  {
  }

  lemma CloseEffect(p: P.State, u: UserId)
    requires P.Enabled(p, P.Close(u))
    ensures u < |p.users| && p.users[u].request.Some?
    ensures P.Apply(p, P.Close(u)) == p.(users := p.users[u := p.users[u].(request := None)])
  {
  }

  lemma CloseKeeps(s: State, s': State, u: UserId)
    requires Inv(s) && Next(s, Close(u), s')
    ensures Inv(s')
  {
    hide Inv, PR.Sound, P.Inv, P.Apply, P.Enabled, K.Inv, B.Inv, Y.TokenOf, B.RideFare, UserFits, ProgressFits;
    DesksLong(s);
    CloseEffect(s.p, u);
    RetryIsAtLeast(s, u);
    CurrentRide(s, u);
    AgentIsThere(s, u);
    var i := s.p.users[u].request.value;
    PR.StepKeepsInv(s.p, P.Close(u));
    B.StepKeepsInv(s.b, B.Leave(u));
    OwnersFrom(s, i);
    var x := s.p.users[u].(request := None);
    LeftFits(s.p.users[u], AgentOf(s.k, u), CurrentOf(s.b, u));
    assert s.desks[u := Closed] == s.desks && s.b.rides[i := s.b.rides[i]] == s.b.rides &&
           s.p.reqs[i := s.p.reqs[i]] == s.p.reqs;
    OwnAccount(s, s', u, i, x, s.p.reqs[i], s.b.rides[i], Closed);
    OwnKeeps(s, s', u, i, x, s.p.reqs[i], s.b.rides[i], Closed);
  }

  // ---- Every run ---------------------------------------------------------------------

  lemma StepKeepsInv(s: State, step: Step)
    requires Inv(s) && Enabled(s, step)
    ensures Inv(Apply(s, step))
  {
    hide Inv, Enabled, Apply;
    match step
    case Internal(st) => InternalKeeps(s, Apply(s, step), st);
    case SignUp(st) => SignUpKeeps(s, Apply(s, step), st);
    case RegisterPayment(u) => RegisterPaymentKeeps(s, Apply(s, step), u);
    case Plan(u, pickup, dest) => PlanKeeps(s, Apply(s, step), u, pickup, dest);
    case GiveUp(u) => GiveUpKeeps(s, Apply(s, step), u);
    case Estimate(u) => EstimateKeeps(s, Apply(s, step), u);
    case Create(u) => CreateKeeps(s, Apply(s, step), u);
    case Register(u) => RegisterKeeps(s, Apply(s, step), u);
    case UserPoll(u) => PollKeeps(s, Apply(s, step), u);
    case Evaluate(u, score) => EvaluateKeeps(s, Apply(s, step), u, score);
    case PostPayment(u, luck) => PostPaymentKeeps(s, Apply(s, step), u, luck);
    case GetPayments(u) => GetPaymentsKeeps(s, Apply(s, step), u);
    case Commit(u) => CommitKeeps(s, Apply(s, step), u);
    case EvaluateDone(u) => EvaluateDoneKeeps(s, Apply(s, step), u);
    case Settle(u) => SettleKeeps(s, Apply(s, step), u);
    case Close(u) => CloseKeeps(s, Apply(s, step), u);
  }

  lemma {:induction false} RunKeepsInv(s: State, steps: seq<Step>)
    requires Inv(s) && IsRun(s, steps)
    ensures Inv(After(s, steps))
    decreases |steps|
  {
    hide Inv, Enabled, Apply;
    if steps != [] {
      StepKeepsInv(s, steps[0]);
      RunKeepsInv(Apply(s, steps[0]), steps[1..]);
    }
  }

  lemma SoundHasNoFault(p: P.State)
    requires PR.Sound(p)
    ensures !p.fault
  {
  }

  ghost predicate Reachable(s: State) {
    exists users: nat, homes: seq<Coord>, owners: seq<nat>, steps: seq<Step> ::
      |owners| == |homes| && IsRun(Start(users, homes, owners), steps) &&
      s == After(Start(users, homes, owners), steps)
  }

  lemma ReachableFits(s: State)
    requires Reachable(s)
    ensures Inv(s)
  {
    hide Inv, Enabled, Apply, IsRun, After;
    var users: nat, homes: seq<Coord>, owners: seq<nat>, steps :|
      |owners| == |homes| && IsRun(Start(users, homes, owners), steps) &&
      s == After(Start(users, homes, owners), steps);
    StartFits(users, homes, owners);
    RunKeepsInv(Start(users, homes, owners), steps);
  }

  /** The whole system in every run: no agent reports an error; every estimate is the expected
      one; six attempts are always enough; no verification finds a wrong payment; and the books
      of payments, sales and discounts differ at every moment by exactly what evaluations in
      flight have paid and not yet booked. */
  lemma NothingGoesWrong(s: State, owners: nat)
    requires Reachable(s) && (forall c | 0 <= c < |s.owners| :: s.owners[c] < owners)
    ensures !s.p.fault && !s.failed && !s.b.wrong && B.Balanced(s.b, owners)
  {
    hide Reachable, PR.Sound, K.Inv, RidesFit, AccountsFit, B.Inv;
    ReachableFits(s);
    SoundHasNoFault(s.p);
    B.BooksBalance(s.b, owners);
  }

  /** Whenever an evaluation can be sent, the user's rides are one more than its payments, the
      current ride is not paid, the server accepts the evaluation, and the fare in the coupon
      table is what the simulator will verify. */
  lemma RidesExceedPayments(s: State, t: State, u: UserId, score: int)
    requires Reachable(s) && Next(s, Evaluate(u, score), t)
    ensures u < |s.p.users| == |t.desks| && s.p.users[u].request.Some? && t.desks[u].Posting?
    ensures var i := s.p.users[u].request.value;
            && i < |s.b.rides| && s.b.rides[i].progress == B.Open
            && C.RideCount(s.k.t.rides, u) == |Y.PaymentsOf(s.pay.books.ledger, Token(u))| + 1
            && t.desks[u].bill == Bill(i, score, B.RideFare(s.b.rides[i]))
  {
    hide Inv, PR.Sound, P.Inv, K.Inv, B.Inv, W.EvaluationAccepted, P.Timed, P.Enabled, C.RideFare, C.RideCount,
         Y.PaymentsOf, Reachable;
    ReachableFits(s);
    DesksLong(s);
    SoundIsInv(s.p);
    CurrentRide(s, u);
    CountTells(s, u);
    TokenParts(s, u);
    EvaluationIsAccepted(s.p, u, score);
    FareIsTrips(s, s.p.users[u].request.value);
  }

  /** A POST (to n) with the comparison that may follow (to t) is one attempt of the payment
      client: it settles the evaluation in the same cases and leaves the same payments and the
      same counter. */
  lemma DeskMakesAttempts(s: State, n: State, t: State, u: UserId, luck: Y.Luck)
    requires Reachable(s) && Next(s, PostPayment(u, luck), n) && u < |n.desks|
    requires if n.desks[u].Checking? then Next(n, GetPayments(u), t) else t == n
    ensures u < |t.desks|
    ensures var r := PaymentClient.Attempts(Y.TokenOf(s.pay, Token(u)), C.RideCount(s.k.t.rides, u),
                                            [PaymentClient.Attempt(luck, Y.Success)]);
            (t.desks[u].Charged? <==> r.ok) && Y.TokenOf(t.pay, Token(u)) == r.token
  {
    hide Inv, PR.Sound, P.Inv, K.Inv, B.Inv, B.RideFare, Paying, Y.Post, Y.TokenOf, C.RideCount, B.Apply, P.Apply, Y.AfterPost,
         UserFits, ProgressFits, Reachable;
    ReachableFits(s);
    DesksLong(s);
    RetryIsAtLeast(s, u);
    CurrentRide(s, u);
    TokenParts(s, u);
    TokenParts(n, u);
    PostEffect(s, u, s.desks[u].bill.amount, luck);
    PostResult(s, n, u, luck);
  }
}
