/** The simulator's three coupon counters against the server's coupon table, over every
    interleaving of registrations, invitations and ride requests. A user's inviting lock is
    held from the start of a request or an invitation until the counters are updated. */
module CouponRuns {
  import opened Grid
  import opened Wrappers
  import opened Fares
  import opened Coupons

  /** What the holder of a user's inviting lock is doing. */
  datatype Phase =
    | Free
    | Inviting
    | Chosen(plan: Plan)
    | Estimated(plan: Plan)
    | Posted(plan: Plan, ride: RideId)

  datatype Plan = Plan(pickup: Coord, dest: Coord, discount: nat, useInvCoupon: bool)

  /** The simulator's user: was it invited, how often was its code used, how many invitations
      of it have been found permitted and wait for its lock, how many reward coupons does it
      think are unused, how many requests has it made. */
  datatype Agent = Agent(invited: bool, code: InvCode, invCodeUsed: nat, onTheWay: nat, unusedInvCoupons: int,
                         requests: nat, phase: Phase)

  /** `planned` keeps, for every ride, the plan it was created with. */
  datatype State = State(t: Tables, agents: map<UserId, Agent>, planned: map<RideId, Plan>)

  datatype Step =
    | Register(user: UserId, code: InvCode)
    | Check(inviter: UserId)
    | Invite(inviter: UserId, user: UserId, code: InvCode, stamp: nat)
    | InviteDone(inviter: UserId)
    | Choose(user: UserId, pickup: Coord, dest: Coord)
    | GiveUp(user: UserId)
    | Estimate(user: UserId)
    | Post(user: UserId, ride: RideId)
    | Finish(user: UserId)

  /** The simulator's choice of a discount. */
  function Predict(a: Agent, pickup: Coord, dest: Coord): Plan {
    if a.requests == 0 then Plan(pickup, dest, 3000, false)
    else if a.requests == 1 && a.invited then Plan(pickup, dest, 1500, false)
    else if a.unusedInvCoupons > 0 then Plan(pickup, dest, 1000, true)
    else Plan(pickup, dest, 0, false)
  }

  datatype Created = NoChairs | WrongEstimate | Made(fare: nat)

  /** The simulator's user, as far as coupons are concerned. */
  class Requester {
    const invited: bool
    var requestHistory: seq<RideId>
    var unusedInvCoupons: int

    /** The user as an agent between two requests. */
    ghost function View(code: InvCode, used: nat): Agent
      reads this
    {
      Agent(invited, code, used, 0, unusedInvCoupons, |requestHistory|, Free)
    }

    constructor (invited: bool)
      ensures this.invited == invited && requestHistory == [] && unusedInvCoupons == 0
    {
      this.invited := invited;
      requestHistory, unusedInvCoupons := [], 0;
    }

    /** `CreateRequest` from the choice of the discount on: the estimate is compared with the
        simulator's own fare before the ride is asked for. */
    method CreateRequest(db: CouponDb, id: UserId, ride: RideId, pickup: Coord, dest: Coord, nearbyChairs: bool)
      returns (o: Created)
      modifies this, db
      ensures var p, t := Predict(old(View(0, 0)), pickup, dest), old(db.View());
              var estimate := EstimatedFare(t, id, pickup, dest);
              && (o == NoChairs <==> !nearbyChairs)
              && (o == WrongEstimate <==>
                    nearbyChairs && (estimate != Fare(pickup, dest, p.discount) ||
                                     CalculateFare(pickup, dest) - estimate != ActualDiscount(pickup, dest, p.discount)))
              && (o.Made? ==>
                    && db.View() == WithRide(t, Ride(ride, id, pickup, dest))
                    && o.fare == RideFare(db.View(), Ride(ride, id, pickup, dest))
                    && requestHistory == old(requestHistory) + [ride]
                    && unusedInvCoupons == old(unusedInvCoupons) - if p.useInvCoupon then 1 else 0)
              && (!o.Made? ==>
                    db.View() == t && requestHistory == old(requestHistory) && unusedInvCoupons == old(unusedInvCoupons))
    {
      var discount, useInvCoupon := 0, false;
      if |requestHistory| == 0 {
        discount := 3000;
      } else if |requestHistory| == 1 && invited {
        discount := 1500;
      } else if unusedInvCoupons > 0 {
        discount := 1000;
        useInvCoupon := true;
      }
      if !nearbyChairs {
        return NoChairs;
      }
      var fare, estimated := db.PostRidesEstimatedFare(id, pickup, dest);
      if ActualDiscount(pickup, dest, discount) != estimated || Fare(pickup, dest, discount) != fare {
        return WrongEstimate;
      }
      fare := db.PostRides(Ride(ride, id, pickup, dest));
      requestHistory := requestHistory + [ride];
      if useInvCoupon {
        unusedInvCoupons := unusedInvCoupons - 1;
      }
      return Made(fare);
    }
  }

  predicate FreshUser(s: State, user: UserId, code: InvCode) {
    user !in s.agents && (forall u | u in s.agents :: s.agents[u].code != code)
  }

  predicate CodeFree(cs: seq<Coupon>, user: UserId, code: Code) {
    forall i | 0 <= i < |cs| :: cs[i].user != user || cs[i].code != code
  }

  predicate RideFree(rides: seq<Ride>, ride: RideId) {
    forall i | 0 <= i < |rides| :: rides[i].id != ride
  }

  predicate Enabled(s: State, step: Step) {
    match step
    case Register(user, code) => FreshUser(s, user, code)
    case Check(inviter) => inviter in s.agents && s.agents[inviter].invCodeUsed < INVITATION_LIMIT
    case Invite(inviter, user, code, stamp) =>
      inviter in s.agents && s.agents[inviter].phase.Free? && s.agents[inviter].onTheWay > 0 &&
      FreshUser(s, user, code) && CodeFree(s.t.coupons, inviter, Reward(s.agents[inviter].code, stamp))
    case InviteDone(inviter) => inviter in s.agents && s.agents[inviter].phase.Inviting?
    case Choose(user, _, _) => user in s.agents && s.agents[user].phase.Free?
    case GiveUp(user) => user in s.agents && s.agents[user].phase.Chosen?
    case Estimate(user) => user in s.agents && s.agents[user].phase.Chosen?
    case Post(user, ride) =>
      user in s.agents && s.agents[user].phase.Estimated? && RideFree(s.t.rides, ride) && ride !in s.planned
    case Finish(user) => user in s.agents && s.agents[user].phase.Posted?
  }

  function NewAgent(invited: bool, code: InvCode): Agent {
    Agent(invited, code, 0, 0, 0, 0, Free)
  }

  function SetAgent(s: State, user: UserId, a: Agent): State {
    s.(agents := s.agents[user := a])
  }

  function Apply(s: State, step: Step): State
    requires Enabled(s, step)
  {
    match step
    case Register(user, code) =>
      SetAgent(s.(t := Registered(s.t, user, code, None, 0).value), user, NewAgent(false, code))
    case Check(inviter) => SetAgent(s, inviter, s.agents[inviter].(onTheWay := s.agents[inviter].onTheWay + 1))
    case Invite(inviter, user, code, stamp) =>
      var a := s.agents[inviter].(onTheWay := s.agents[inviter].onTheWay - 1);
      var t := Registered(s.t, user, code, Some(a.code), stamp);
      if t.None? then SetAgent(s, inviter, a)
      else SetAgent(SetAgent(s.(t := t.value), inviter, a.(phase := Inviting)), user, NewAgent(true, code))
    case InviteDone(inviter) =>
      var a := s.agents[inviter];
      SetAgent(s, inviter, a.(invCodeUsed := a.invCodeUsed + 1, unusedInvCoupons := a.unusedInvCoupons + 1,
                              phase := Free))
    case Choose(user, pickup, dest) =>
      SetAgent(s, user, s.agents[user].(phase := Chosen(Predict(s.agents[user], pickup, dest))))
    case GiveUp(user) => SetAgent(s, user, s.agents[user].(phase := Free))
    case Estimate(user) => SetAgent(s, user, s.agents[user].(phase := Estimated(s.agents[user].phase.plan)))
    case Post(user, ride) =>
      var p := s.agents[user].phase.plan;
      SetAgent(s.(t := WithRide(s.t, Ride(ride, user, p.pickup, p.dest)), planned := s.planned[ride := p]),
               user, s.agents[user].(phase := Posted(p, ride)))
    case Finish(user) =>
      var a := s.agents[user];
      SetAgent(s, user, a.(requests := a.requests + 1,
                           unusedInvCoupons := a.unusedInvCoupons - (if a.phase.plan.useInvCoupon then 1 else 0),
                           phase := Free))
  }

  ghost predicate IsRun(s: State, steps: seq<Step>)
    decreases |steps|
  {
    steps == [] || (Enabled(s, steps[0]) && IsRun(Apply(s, steps[0]), steps[1..]))
  }

  ghost function After(s: State, steps: seq<Step>): State
    requires IsRun(s, steps)
    decreases |steps|
  {
    if steps == [] then s else After(Apply(s, steps[0]), steps[1..])
  }

  function Start(): State {
    State(Tables([], [], []), map[], map[])
  }

  // ---- One user's rows ---------------------------------------------------------------

  /** Rows that are there from registration on. */
  function Base(invited: bool): nat {
    if invited then 2 else 1
  }

  /** The first-ride coupon, the invitation coupon if there is one, then rewards. */
  ghost predicate Shape(r: seq<Coupon>, invited: bool) {
    && |r| >= Base(invited)
    && r[0].code == NewUser && r[0].discount == 3000
    && (invited ==> r[1].code.Invited? && r[1].discount == 1500)
    && (forall i | Base(invited) <= i < |r| :: r[i].code.Reward? && r[i].discount == 1000)
  }

  /** Exactly the k oldest rows are used. */
  ghost predicate UsedPrefix(r: seq<Coupon>, k: nat) {
    k <= |r| && forall i | 0 <= i < |r| :: r[i].usedBy.Some? <==> i < k
  }

  function UsedCount(r: seq<Coupon>): nat {
    if r == [] || r[0].usedBy.None? then 0 else 1 + UsedCount(r[1..])
  }

  lemma {:induction false} UsedCountIs(r: seq<Coupon>, k: nat)
    requires UsedPrefix(r, k)
    ensures UsedCount(r) == k
  {
    if k > 0 {
      assert r[0].usedBy.Some?;
      assert UsedPrefix(r[1..], k - 1);
      UsedCountIs(r[1..], k - 1);
    }
  }

  /** A user's rows, number of rides and counters fit together; k rows are used and the user
      has n rides. */
  ghost predicate RowsFit(r: seq<Coupon>, invited: bool, k: nat, n: nat) {
    && Shape(r, invited) && UsedPrefix(r, k)
    && k <= n && k >= Min(n, Base(invited))
  }

  /** Unused rewards. */
  function UnusedRewards(r: seq<Coupon>, invited: bool, k: nat): int {
    |r| - Max(k, Base(invited))
  }

  /** What the counters lag behind while the lock is held. */
  function PendingRequests(p: Phase): nat {
    if p.Posted? then 1 else 0
  }

  function PendingCoupons(p: Phase): int {
    if p.Inviting? then 1 else if p.Posted? && p.plan.useInvCoupon then -1 else 0
  }

  /** The counters of an agent against its rows and its number of rides. */
  ghost predicate Fits(a: Agent, r: seq<Coupon>, n: nat) {
    var k := UsedCount(r);
    && RowsFit(r, a.invited, k, n)
    && a.requests + PendingRequests(a.phase) == n
    && a.unusedInvCoupons + PendingCoupons(a.phase) == UnusedRewards(r, a.invited, k)
    && (a.phase.Chosen? || a.phase.Estimated? ==>
          a.phase.plan == Predict(a, a.phase.plan.pickup, a.phase.plan.dest))
  }

  /** The oldest unused row in the table is the user's row number k. */
  lemma OldestIsNext(cs: seq<Coupon>, user: UserId, k: nat)
    requires UsedPrefix(RowsOf(cs, user), k)
    ensures OldestUnused(cs, user).Some? <==> k < |RowsOf(cs, user)|
    ensures OldestUnused(cs, user).Some? ==>
              var i := OldestUnused(cs, user).value;
              cs[i] == RowsOf(cs, user)[k] && |RowsOf(cs[..i], user)| == k
  {
    var r, o := RowsOf(cs, user), OldestUnused(cs, user);
    if o.Some? {
      var i := o.value;
      RowsSplit(cs, i, user);
      RowsAreRows(cs[..i], user);
      var before := RowsOf(cs[..i], user);
      assert r[|before|] == cs[i];
      assert forall j | 0 <= j < |before| :: before[j] == r[j];
    } else {
      RowsAreRows(cs, user);
    }
  }

  /** An unused first-ride row is the user's oldest row, so both of the server's preference
      rules choose the same row. */
  lemma PreferredIsOldest(cs: seq<Coupon>, user: UserId, invited: bool, k: nat)
    requires Shape(RowsOf(cs, user), invited) && UsedPrefix(RowsOf(cs, user), k) && UniqueCodes(cs)
    ensures Preferred(cs, user) == OldestUnused(cs, user)
  {
    OldestIsNext(cs, user, k);
    var r := RowsOf(cs, user);
    var f := UnusedNewUser(cs, user);
    if f.Some? {
      RowsAreRows(cs, user);
      var j :| 0 <= j < |r| && r[j] == cs[f.value];
      assert j == 0 && k == 0;
      var i := OldestUnused(cs, user).value;
      assert cs[i].code == NewUser;
    }
  }

  /** The simulator's prediction is the discount of the row the server takes. */
  lemma PredictionIsNext(a: Agent, r: seq<Coupon>, k: nat, pickup: Coord, dest: Coord)
    requires RowsFit(r, a.invited, k, a.requests)
    requires a.unusedInvCoupons == UnusedRewards(r, a.invited, k)
    ensures var p := Predict(a, pickup, dest);
            && p.discount == (if k < |r| then r[k].discount else 0)
            && (p.useInvCoupon <==> k < |r| && r[k].code.Reward?)
            && (k < |r| ==> RowsFit(r, a.invited, k, a.requests))
  {
  }

  // ---- The invariant -----------------------------------------------------------------

  ghost predicate Inv(s: State) {
    && CountersFit(s.t, s.agents)
    && UniqueCodes(s.t.coupons) && UsedOnce(s.t.coupons)
    && RidesPlanned(s.t, s.planned)
    && CodesOwned(s.t.users, s.t.coupons, s.agents)
  }

  ghost predicate CountersFit(t: Tables, agents: map<UserId, Agent>) {
    && (forall u | u in agents :: AgentFitsTable(agents[u], t, u))
    && UsersKnown(t, agents)
  }

  ghost predicate AgentFitsTable(a: Agent, t: Tables, u: UserId) {
    Fits(a, RowsOf(t.coupons, u), RideCount(t.rides, u))
  }

  ghost predicate UsersKnown(t: Tables, agents: map<UserId, Agent>) {
    && (forall i | 0 <= i < |t.coupons| :: t.coupons[i].user in agents)
    && (forall i | 0 <= i < |t.rides| :: t.rides[i].user in agents)
  }

  /** Every ride in use is a planned one; every planned ride has the discount of its plan. */
  ghost predicate RidesPlanned(t: Tables, planned: map<RideId, Plan>) {
    && (forall i | 0 <= i < |t.coupons| && t.coupons[i].usedBy.Some? :: t.coupons[i].usedBy.value in planned)
    && (forall i | 0 <= i < |t.rides| ::
          t.rides[i].id in planned && t.rides[i].pickup == planned[t.rides[i].id].pickup &&
          t.rides[i].dest == planned[t.rides[i].id].dest)
    && (forall ride | ride in planned :: DiscountOf(t.coupons, ride) == planned[ride].discount)
  }

  /** Each agent's code finds the agent, has been used as often as it counts, and has earned
      as many rewards as invitations, at most three of each. */
  ghost predicate CodesOwned(users: seq<User>, cs: seq<Coupon>, agents: map<UserId, Agent>) {
    && (forall i | 0 <= i < |users| :: users[i].id in agents && agents[users[i].id].code == users[i].code)
    && (forall u | u in agents :: Owner(users, agents[u].code) == Some(u))
    && (forall i | 0 <= i < |cs| && !cs[i].code.NewUser? :: Owner(users, cs[i].code.code).Some?)
    && (forall u | u in agents :: CodeFits(agents[u], InvCount(cs, agents[u].code), RewardCount(cs, agents[u].code)))
  }

  predicate CodeFits(a: Agent, invitations: nat, rewards: nat) {
    invitations == rewards == a.invCodeUsed + (if a.phase.Inviting? then 1 else 0) <= INVITATION_LIMIT
  }

  // ---- Steps that only change an agent -----------------------------------------------

  lemma AgentStep(s: State, user: UserId, a: Agent)
    requires Inv(s) && user in s.agents && a.code == s.agents[user].code
    requires Fits(a, RowsOf(s.t.coupons, user), RideCount(s.t.rides, user))
    requires CodeFits(a, InvCount(s.t.coupons, a.code), RewardCount(s.t.coupons, a.code))
    ensures Inv(SetAgent(s, user, a))
  {
  }

  /** Taking and releasing the lock, with the counters updated, keeps an agent fitting. */
  lemma AgentFits(s: State, step: Step, user: UserId, r: seq<Coupon>, n: nat, c: nat)
    requires Enabled(s, step)
    requires step.Check? || step.InviteDone? || step.Choose? || step.GiveUp? || step.Estimate? || step.Finish?
    requires user == if step.Check? || step.InviteDone? then step.inviter else step.user
    requires Fits(s.agents[user], r, n) && CodeFits(s.agents[user], c, c)
    ensures Fits(Apply(s, step).agents[user], r, n) && CodeFits(Apply(s, step).agents[user], c, c)
  {
  }

  lemma ReleaseKeepsInv(s: State, step: Step)
    requires Inv(s) && Enabled(s, step)
    requires step.Check? || step.InviteDone? || step.Choose? || step.GiveUp? || step.Estimate? || step.Finish?
    ensures Inv(Apply(s, step))
  {
    var user := if step.Check? || step.InviteDone? then step.inviter else step.user;
    var a := s.agents[user];
    AgentFits(s, step, user, RowsOf(s.t.coupons, user), RideCount(s.t.rides, user), InvCount(s.t.coupons, a.code));
    AgentStep(s, user, Apply(s, step).agents[user]);
  }

  // ---- Registrations -----------------------------------------------------------------

  lemma {:induction false} NoRows(cs: seq<Coupon>, user: UserId)
    requires forall i | 0 <= i < |cs| :: cs[i].user != user
    ensures RowsOf(cs, user) == []
    decreases |cs|
  {
    if cs != [] {
      NoRows(cs[..|cs| - 1], user);
    }
  }

  lemma {:induction false} NoRides(rides: seq<Ride>, user: UserId)
    requires forall i | 0 <= i < |rides| :: rides[i].user != user
    ensures RideCount(rides, user) == 0
    decreases |rides|
  {
    if rides != [] {
      NoRides(rides[..|rides| - 1], user);
    }
  }

  lemma {:induction false} NoCodeRows(cs: seq<Coupon>, code: InvCode)
    requires forall i | 0 <= i < |cs| :: cs[i].code.NewUser? || cs[i].code.code != code
    ensures InvCount(cs, code) == 0 && RewardCount(cs, code) == 0
    decreases |cs|
  {
    if cs != [] {
      NoCodeRows(cs[..|cs| - 1], code);
    }
  }

  lemma {:induction false} OwnerAppend(users: seq<User>, u: User, code: InvCode)
    ensures Owner(users + [u], code) ==
            if Owner(users, code).Some? then Owner(users, code) else if u.code == code then Some(u.id) else None
    decreases |users|
  {
    if users == [] {
      assert [u][1..] == [];
    } else {
      assert (users + [u])[1..] == users[1..] + [u];
      OwnerAppend(users[1..], u, code);
    }
  }

  lemma {:induction false} OwnerIsUser(users: seq<User>, code: InvCode)
    ensures Owner(users, code).Some? ==> User(Owner(users, code).value, code) in users
    decreases |users|
  {
    if users != [] {
      OwnerIsUser(users[1..], code);
    }
  }

  /** A user whose rows and rides have not changed still fits. */
  lemma KeepsFitting(t: Tables, t': Tables, a: Agent, u: UserId)
    requires AgentFitsTable(a, t, u)
    requires RowsOf(t'.coupons, u) == RowsOf(t.coupons, u) && RideCount(t'.rides, u) == RideCount(t.rides, u)
    ensures AgentFitsTable(a, t', u)
  {
  }

  lemma KnownAppend(t: Tables, agents: map<UserId, Agent>, user: UserId, a: Agent, rows: seq<Coupon>)
    requires UsersKnown(t, agents)
    requires forall i | 0 <= i < |rows| :: rows[i].user == user
    ensures UsersKnown(t.(coupons := t.coupons + rows), agents[user := a])
  {
  }

  lemma NoRowsBefore(t: Tables, agents: map<UserId, Agent>, user: UserId)
    requires UsersKnown(t, agents) && user !in agents
    ensures RowsOf(t.coupons, user) == [] && RideCount(t.rides, user) == 0
  {
    NoRows(t.coupons, user);
    NoRides(t.rides, user);
  }

  /** A new user with its first rows. */
  lemma AddUser(t: Tables, agents: map<UserId, Agent>, user: UserId, a: Agent, rows: seq<Coupon>)
    requires CountersFit(t, agents) && user !in agents
    requires forall i | 0 <= i < |rows| :: rows[i].user == user
    requires RowsOf(rows, user) == rows && Fits(a, rows, 0)
    ensures CountersFit(t.(coupons := t.coupons + rows), agents[user := a])
  {
    NoRowsBefore(t, agents, user);
    KnownAppend(t, agents, user, a, rows);
    var t', agents' := t.(coupons := t.coupons + rows), agents[user := a];
    forall u | u in agents'
      ensures AgentFitsTable(agents'[u], t', u)
    {
      RowsConcat(t.coupons, rows, u);
      if u == user {
        assert RowsOf(t'.coupons, u) == rows;
      } else {
        NoRows(rows, u);
        KeepsFitting(t, t', agents[u], u);
      }
    }
  }

  /** A new user's code, which no row mentions yet. */
  lemma AddUserCode(users: seq<User>, cs: seq<Coupon>, agents: map<UserId, Agent>, user: UserId, a: Agent)
    requires CodesOwned(users, cs, agents) && user !in agents
    requires forall u | u in agents :: agents[u].code != a.code
    requires a.phase.Free? && a.invCodeUsed == 0
    ensures CodesOwned(users + [User(user, a.code)], cs, agents[user := a])
  {
    var users', agents' := users + [User(user, a.code)], agents[user := a];
    OwnerIsUser(users, a.code);
    NoCodeRows(cs, a.code);
    forall u | u in agents'
      ensures Owner(users', agents'[u].code) == Some(u)
    {
      OwnerAppend(users, User(user, a.code), agents'[u].code);
    }
    forall i | 0 <= i < |cs| && !cs[i].code.NewUser?
      ensures Owner(users', cs[i].code.code).Some?
    {
      OwnerAppend(users, User(user, a.code), cs[i].code.code);
    }
  }

  /** Appending an unused row with a new code leaves keys, uses and plans in order. */
  lemma AppendRow(t: Tables, planned: map<RideId, Plan>, c: Coupon)
    requires UniqueCodes(t.coupons) && UsedOnce(t.coupons) && RidesPlanned(t, planned)
    requires c.usedBy.None? && CodeFree(t.coupons, c.user, c.code)
    ensures var cs := t.coupons + [c];
            UniqueCodes(cs) && UsedOnce(cs) && RidesPlanned(t.(coupons := cs), planned)
  {
    var cs := t.coupons + [c];
    forall ride | ride in planned
      ensures DiscountOf(cs, ride) == planned[ride].discount
    {
      DiscountOfAppend(t.coupons, c, ride);
    }
  }

  lemma AppendCode(users: seq<User>, cs: seq<Coupon>, agents: map<UserId, Agent>, c: Coupon)
    requires CodesOwned(users, cs, agents) && c.code.NewUser?
    ensures CodesOwned(users, cs + [c], agents)
  {
    forall u | u in agents
      ensures CodeFits(agents[u], InvCount(cs + [c], agents[u].code), RewardCount(cs + [c], agents[u].code))
    {
      CountsAppend(cs, c, agents[u].code);
    }
  }

  lemma FirstRowsFit(user: UserId, code: InvCode, invitation: Option<InvCode>)
    ensures RowsOf(FirstRows(user, invitation), user) == FirstRows(user, invitation)
    ensures Fits(NewAgent(invitation.Some?, code), FirstRows(user, invitation), 0)
  {
    var c := Coupon(user, NewUser, 3000, None);
    RowsAppend([], c, user);
    assert [] + [c] == [c];
    if invitation.Some? {
      RowsAppend([c], Coupon(user, Invited(invitation.value), 1500, None), user);
    } else {
      assert FirstRows(user, invitation) == [c];
    }
    NewAgentFits(NewAgent(invitation.Some?, code), FirstRows(user, invitation));
  }

  lemma NewAgentFits(a: Agent, r: seq<Coupon>)
    requires a == NewAgent(a.invited, a.code)
    requires Shape(r, a.invited) && |r| == Base(a.invited) && UsedPrefix(r, 0)
    ensures Fits(a, r, 0)
  {
    UsedCountIs(r, 0);
  }

  function FirstRows(user: UserId, invitation: Option<InvCode>): seq<Coupon> {
    [Coupon(user, NewUser, 3000, None)] +
    if invitation.None? then [] else [Coupon(user, Invited(invitation.value), 1500, None)]
  }

  lemma RegisterKeepsInv(s: State, user: UserId, code: InvCode)
    requires Inv(s) && Enabled(s, Register(user, code))
    ensures Inv(Apply(s, Register(user, code)))
  {
    var c, a := Coupon(user, NewUser, 3000, None), NewAgent(false, code);
    var s' := Apply(s, Register(user, code));
    assert FirstRows(user, None) == [c];
    FirstRowsFit(user, code, None);
    AddUser(s.t, s.agents, user, a, [c]);
    AddUserCode(s.t.users, s.t.coupons, s.agents, user, a);
    AppendCode(s'.t.users, s.t.coupons, s'.agents, c);
    AppendRow(s.t, s.planned, c);
  }

  // ---- Invitations -------------------------------------------------------------------

  lemma RewardFits(a: Agent, r: seq<Coupon>, n: nat, c: Coupon)
    requires Fits(a, r, n) && a.phase.Free?
    requires c.code.Reward? && c.discount == 1000 && c.usedBy.None?
    ensures Fits(a.(phase := Inviting), r + [c], n)
  {
    var k := UsedCount(r);
    assert UsedPrefix(r + [c], k);
    UsedCountIs(r + [c], k);
  }

  lemma AddReward(t: Tables, agents: map<UserId, Agent>, inviter: UserId, c: Coupon)
    requires CountersFit(t, agents) && inviter in agents && agents[inviter].phase.Free?
    requires c.user == inviter && c.code.Reward? && c.discount == 1000 && c.usedBy.None?
    ensures CountersFit(t.(coupons := t.coupons + [c]), agents[inviter := agents[inviter].(phase := Inviting)])
  {
    var t', agents' := t.(coupons := t.coupons + [c]), agents[inviter := agents[inviter].(phase := Inviting)];
    forall u | u in agents'
      ensures AgentFitsTable(agents'[u], t', u)
    {
      RowsAppend(t.coupons, c, u);
      if u == inviter {
        RewardFits(agents[u], RowsOf(t.coupons, u), RideCount(t.rides, u), c);
      } else {
        KeepsFitting(t, t', agents[u], u);
      }
    }
  }

  /** One more invitation and one more reward for the inviter's code. */
  lemma AddInvitationCode(users: seq<User>, cs: seq<Coupon>, agents: map<UserId, Agent>, inviter: UserId,
                          i: Coupon, r: Coupon)
    requires CodesOwned(users, cs, agents) && inviter in agents && agents[inviter].phase.Free?
    requires InvCount(cs, agents[inviter].code) < INVITATION_LIMIT
    requires i.code == Invited(agents[inviter].code) && r.code.Reward? && r.code.code == agents[inviter].code
    ensures CodesOwned(users, cs + [i] + [r], agents[inviter := agents[inviter].(phase := Inviting)])
  {
    var agents' := agents[inviter := agents[inviter].(phase := Inviting)];
    var cs' := cs + [i] + [r];
    forall u | u in agents'
      ensures CodeFits(agents'[u], InvCount(cs', agents'[u].code), RewardCount(cs', agents'[u].code))
    {
      CountsAppend(cs, i, agents[u].code);
      CountsAppend(cs + [i], r, agents[u].code);
      assert CodeFits(agents[u], InvCount(cs, agents[u].code), RewardCount(cs, agents[u].code));
      if u != inviter {
        assert Owner(users, agents[u].code) == Some(u) && Owner(users, agents[inviter].code) == Some(inviter);
      }
    }
  }

  /** What an accepted invitation adds to the table. */
  lemma InvitationAccepted(t: Tables, inviter: UserId, inviterCode: InvCode, user: UserId, code: InvCode, stamp: nat)
    requires Owner(t.users, inviterCode) == Some(inviter)
    ensures var r := Registered(t, user, code, Some(inviterCode), stamp);
            && (r.Some? <==> InvCount(t.coupons, inviterCode) < INVITATION_LIMIT)
            && (r.Some? ==> r.value == WithInvitation(t, inviter, inviterCode, user, code, stamp))
  {
    var c, i, r := Coupon(user, NewUser, 3000, None), Coupon(user, Invited(inviterCode), 1500, None),
                   Coupon(inviter, Reward(inviterCode, stamp), 1000, None);
    CountsAppend(t.coupons, c, inviterCode);
    OwnerAppend(t.users, User(user, code), inviterCode);
    assert t.coupons + [c] + [i, r] == t.coupons + [c] + [i] + [r];
  }

  function InvitedRows(cs: seq<Coupon>, user: UserId, inviterCode: InvCode, r: Coupon): seq<Coupon> {
    cs + [Coupon(user, NewUser, 3000, None)] + [Coupon(user, Invited(inviterCode), 1500, None)] + [r]
  }

  lemma FirstTwoRows(cs: seq<Coupon>, user: UserId, code: InvCode)
    ensures cs + FirstRows(user, Some(code)) ==
            cs + [Coupon(user, NewUser, 3000, None)] + [Coupon(user, Invited(code), 1500, None)]
  {
  }

  function WithInvitation(t: Tables, inviter: UserId, inviterCode: InvCode, user: UserId, code: InvCode, stamp: nat)
    : Tables
  {
    t.(users := t.users + [User(user, code)],
       coupons := InvitedRows(t.coupons, user, inviterCode, Coupon(inviter, Reward(inviterCode, stamp), 1000, None)))
  }

  lemma InviteKeepsInv(s: State, inviter: UserId, user: UserId, code: InvCode, stamp: nat)
    requires Inv(s) && Enabled(s, Invite(inviter, user, code, stamp))
    ensures Inv(Apply(s, Invite(inviter, user, code, stamp)))
  {
    hide Inv, Registered, CodeFree;
    CodeHasOwner(s, inviter);
    InvitationAccepted(s.t, inviter, s.agents[inviter].code, user, code, stamp);
    var a := s.agents[inviter].(onTheWay := s.agents[inviter].onTheWay - 1);
    TakesOff(s, inviter, a);
    var s1 := SetAgent(s, inviter, a);
    if InvCount(s.t.coupons, a.code) < INVITATION_LIMIT {
      AcceptedKeepsInv(s1, inviter, user, code, stamp);
      assert s1.agents[inviter := a.(phase := Inviting)] == s.agents[inviter := a.(phase := Inviting)];
    }
  }

  lemma CodeHasOwner(s: State, u: UserId)
    requires Inv(s) && u in s.agents
    ensures Owner(s.t.users, s.agents[u].code) == Some(u)
  {
    hide CountersFit, RidesPlanned, UniqueCodes, UsedOnce;
  }

  lemma StrangerHasNoRows(s: State, user: UserId)
    requires Inv(s) && user !in s.agents
    ensures forall i | 0 <= i < |s.t.coupons| :: s.t.coupons[i].user != user
  {
    hide CodesOwned, RidesPlanned, UniqueCodes, UsedOnce, AgentFitsTable;
  }

  lemma TakesOff(s: State, inviter: UserId, a: Agent)
    requires Inv(s) && inviter in s.agents && a == s.agents[inviter].(onTheWay := a.onTheWay)
    ensures Inv(SetAgent(s, inviter, a))
  {
    hide Shape, UsedPrefix, RidesPlanned, UniqueCodes, UsedOnce;
    assert AgentFitsTable(s.agents[inviter], s.t, inviter);
    assert CodeFits(s.agents[inviter], InvCount(s.t.coupons, a.code), RewardCount(s.t.coupons, a.code));
    AgentStep(s, inviter, a);
  }

  lemma UsersDoNotMatter(t: Tables, t': Tables, agents: map<UserId, Agent>, planned: map<RideId, Plan>)
    requires t' == t.(users := t'.users)
    ensures CountersFit(t', agents) == CountersFit(t, agents) && RidesPlanned(t', planned) == RidesPlanned(t, planned)
  {
    hide Fits;
  }

  lemma AcceptedKeepsInv(s: State, inviter: UserId, user: UserId, code: InvCode, stamp: nat)
    requires Inv(s) && inviter in s.agents && s.agents[inviter].phase.Free? && FreshUser(s, user, code)
    requires CodeFree(s.t.coupons, inviter, Reward(s.agents[inviter].code, stamp))
    requires InvCount(s.t.coupons, s.agents[inviter].code) < INVITATION_LIMIT
    ensures var a := s.agents[inviter];
            Inv(State(WithInvitation(s.t, inviter, a.code, user, code, stamp),
                      s.agents[inviter := a.(phase := Inviting)][user := NewAgent(true, code)], s.planned))
  {
    hide CountersFit, CodesOwned, RidesPlanned, UniqueCodes, UsedOnce, CodeFree;
    var a := s.agents[inviter];
    StrangerHasNoRows(s, user);
    var t' := WithInvitation(s.t, inviter, a.code, user, code, stamp);
    var agents' := s.agents[inviter := a.(phase := Inviting)][user := NewAgent(true, code)];
    assert agents' == s.agents[user := NewAgent(true, code)][inviter := a.(phase := Inviting)];
    var r := Coupon(inviter, Reward(a.code, stamp), 1000, None);
    assert CountersFit(t', agents') by {
      InviteCounters(s.t, s.agents, inviter, user, code, r);
      UsersDoNotMatter(s.t.(coupons := t'.coupons), t', agents', s.planned);
    }
    assert CodesOwned(t'.users, t'.coupons, agents') by {
      InviteCodes(s.t.users, s.t.coupons, s.agents, inviter, user, code, r);
    }
    assert UniqueCodes(t'.coupons) && UsedOnce(t'.coupons) && RidesPlanned(t', s.planned) by {
      InviteRows(s.t, s.planned, user, a.code, r);
      UsersDoNotMatter(s.t.(coupons := t'.coupons), t', agents', s.planned);
    }
  }

  lemma InviteCounters(t: Tables, agents: map<UserId, Agent>, inviter: UserId, user: UserId, code: InvCode, r: Coupon)
    requires CountersFit(t, agents) && user !in agents && inviter in agents && agents[inviter].phase.Free?
    requires r.user == inviter && r.code.Reward? && r.discount == 1000 && r.usedBy.None?
    ensures var a := agents[inviter];
            CountersFit(t.(coupons := InvitedRows(t.coupons, user, a.code, r)),
                        agents[user := NewAgent(true, code)][inviter := a.(phase := Inviting)])
  {
    var a, b := agents[inviter], NewAgent(true, code);
    var rows := FirstRows(user, Some(a.code));
    FirstRowsFit(user, code, Some(a.code));
    FirstTwoRows(t.coupons, user, a.code);
    AddUser(t, agents, user, b, rows);
    AddReward(t.(coupons := t.coupons + rows), agents[user := b], inviter, r);
  }

  lemma InviteCodes(users: seq<User>, cs: seq<Coupon>, agents: map<UserId, Agent>, inviter: UserId,
                    user: UserId, code: InvCode, r: Coupon)
    requires CodesOwned(users, cs, agents) && user !in agents
    requires forall u | u in agents :: agents[u].code != code
    requires inviter in agents && agents[inviter].phase.Free?
    requires InvCount(cs, agents[inviter].code) < INVITATION_LIMIT
    requires r.code.Reward? && r.code.code == agents[inviter].code
    ensures CodesOwned(users + [User(user, code)], InvitedRows(cs, user, agents[inviter].code, r),
                       agents[user := NewAgent(true, code)][inviter := agents[inviter].(phase := Inviting)])
  {
    var c, i := Coupon(user, NewUser, 3000, None), Coupon(user, Invited(agents[inviter].code), 1500, None);
    AddUserCode(users, cs, agents, user, NewAgent(true, code));
    AppendCode(users + [User(user, code)], cs, agents[user := NewAgent(true, code)], c);
    CountsAppend(cs, c, agents[inviter].code);
    AddInvitationCode(users + [User(user, code)], cs + [c], agents[user := NewAgent(true, code)], inviter, i, r);
  }

  lemma InviteRows(t: Tables, planned: map<RideId, Plan>, user: UserId, code: InvCode, r: Coupon)
    requires UniqueCodes(t.coupons) && UsedOnce(t.coupons) && RidesPlanned(t, planned)
    requires forall i | 0 <= i < |t.coupons| :: t.coupons[i].user != user
    requires r.user != user && r.usedBy.None? && CodeFree(t.coupons, r.user, r.code)
    ensures var cs := InvitedRows(t.coupons, user, code, r);
            UniqueCodes(cs) && UsedOnce(cs) && RidesPlanned(t.(coupons := cs), planned)
  {
    var c, i := Coupon(user, NewUser, 3000, None), Coupon(user, Invited(code), 1500, None);
    AppendRow(t, planned, c);
    CodeFreeAppend(t.coupons, c, i);
    AppendRow(t.(coupons := t.coupons + [c]), planned, i);
    CodeFreeAppend(t.coupons, c, r);
    CodeFreeAppend(t.coupons + [c], i, r);
    AppendRow(t.(coupons := t.coupons + [c] + [i]), planned, r);
  }

  lemma CodeFreeAppend(cs: seq<Coupon>, c: Coupon, d: Coupon)
    requires CodeFree(cs, d.user, d.code) && (c.user != d.user || c.code != d.code)
    ensures CodeFree(cs + [c], d.user, d.code)
  {
  }

  // ---- Rides -------------------------------------------------------------------------

  /** A new ride of a user: what its own rows become. */
  lemma PostFits(a: Agent, r: seq<Coupon>, n: nat, ride: RideId)
    requires Fits(a, r, n) && a.phase.Estimated?
    ensures var k, p := UsedCount(r), a.phase.plan;
            && k <= |r|
            && p.discount == (if k < |r| then r[k].discount else 0)
            && Fits(a.(phase := Posted(p, ride)),
                    if k < |r| then r[k := r[k].(usedBy := Some(ride))] else r, n + 1)
  {
    var k, p := UsedCount(r), a.phase.plan;
    PredictionIsNext(a, r, k, p.pickup, p.dest);
    if k < |r| {
      var r' := r[k := r[k].(usedBy := Some(ride))];
      assert UsedPrefix(r', k + 1);
      UsedCountIs(r', k + 1);
    }
  }

  /** Using position i of the table is using row number k of its user. */
  lemma UpdateRows(cs: seq<Coupon>, i: nat, ride: RideId, u: UserId)
    requires i < |cs|
    ensures var cs', k := cs[i := cs[i].(usedBy := Some(ride))], |RowsOf(cs[..i], u)|;
            && (cs[i].user != u ==> RowsOf(cs', u) == RowsOf(cs, u))
            && (cs[i].user == u ==>
                  k < |RowsOf(cs, u)| && RowsOf(cs', u) == RowsOf(cs, u)[k := cs[i].(usedBy := Some(ride))])
  {
    var cs' := cs[i := cs[i].(usedBy := Some(ride))];
    RowsSplit(cs, i, u);
    RowsSplit(cs', i, u);
    assert cs'[..i] == cs[..i] && cs'[i + 1..] == cs[i + 1..];
  }

  /** What a new ride does to the table. */
  lemma TakenIsNext(t: Tables, agents: map<UserId, Agent>, user: UserId)
    requires CountersFit(t, agents) && UniqueCodes(t.coupons) && user in agents
    ensures Taken(t, user) == OldestUnused(t.coupons, user)
    ensures var r := RowsOf(t.coupons, user);
            var k := UsedCount(r);
            && (Taken(t, user).Some? <==> k < |r|)
            && (Taken(t, user).Some? ==>
                  t.coupons[Taken(t, user).value] == r[k] && |RowsOf(t.coupons[..Taken(t, user).value], user)| == k)
  {
    var r := RowsOf(t.coupons, user);
    assert Fits(agents[user], r, RideCount(t.rides, user));
    PreferredIsOldest(t.coupons, user, agents[user].invited, UsedCount(r));
    OldestIsNext(t.coupons, user, UsedCount(r));
  }

  /** The table after the row at `taken` is used. */
  function Using(cs: seq<Coupon>, taken: Option<nat>, ride: RideId): seq<Coupon>
    requires taken.Some? ==> taken.value < |cs|
  {
    if taken.None? then cs else cs[taken.value := cs[taken.value].(usedBy := Some(ride))]
  }

  lemma WithRideUses(t: Tables, ride: Ride)
    requires UniqueCodes(t.coupons)
    ensures WithRide(t, ride) ==
            t.(rides := t.rides + [ride], coupons := Using(t.coupons, Taken(t, ride.user), ride.id))
  {
    if Taken(t, ride.user).Some? {
      MarkOne(t.coupons, Taken(t, ride.user).value, ride.id);
    }
  }

  lemma PostCounters(t: Tables, agents: map<UserId, Agent>, ride: Ride)
    requires CountersFit(t, agents) && UniqueCodes(t.coupons)
    requires ride.user in agents && agents[ride.user].phase.Estimated?
    ensures var a := agents[ride.user];
            CountersFit(WithRide(t, ride), agents[ride.user := a.(phase := Posted(a.phase.plan, ride.id))])
  {
    var a := agents[ride.user];
    var t', agents' := WithRide(t, ride), agents[ride.user := a.(phase := Posted(a.phase.plan, ride.id))];
    WithRideUses(t, ride);
    KnownUsing(t, agents, ride, agents'[ride.user]);
    forall u | u in agents'
      ensures AgentFitsTable(agents'[u], t', u)
    {
      RideCountAppend(t.rides, ride, u);
      if u == ride.user {
        PosterFits(t, agents, ride);
      } else {
        OthersRows(t.coupons, Taken(t, ride.user), ride.id, u);
        KeepsFitting(t, t', agents[u], u);
      }
    }
  }

  lemma KnownUsing(t: Tables, agents: map<UserId, Agent>, ride: Ride, a: Agent)
    requires UsersKnown(t, agents) && ride.user in agents
    ensures UsersKnown(t.(rides := t.rides + [ride], coupons := Using(t.coupons, Taken(t, ride.user), ride.id)),
                       agents[ride.user := a])
  {
  }

  lemma OthersRows(cs: seq<Coupon>, taken: Option<nat>, ride: RideId, u: UserId)
    requires taken.Some? ==> taken.value < |cs| && cs[taken.value].user != u
    ensures RowsOf(Using(cs, taken, ride), u) == RowsOf(cs, u)
  {
    if taken.Some? {
      UpdateRows(cs, taken.value, ride, u);
    }
  }

  lemma PosterFits(t: Tables, agents: map<UserId, Agent>, ride: Ride)
    requires CountersFit(t, agents) && UniqueCodes(t.coupons)
    requires ride.user in agents && agents[ride.user].phase.Estimated?
    ensures var a := agents[ride.user];
            Fits(a.(phase := Posted(a.phase.plan, ride.id)),
                 RowsOf(Using(t.coupons, Taken(t, ride.user), ride.id), ride.user),
                 RideCount(t.rides, ride.user) + 1)
  {
    var u, taken := ride.user, Taken(t, ride.user);
    TakenIsNext(t, agents, u);
    if taken.Some? {
      UpdateRows(t.coupons, taken.value, ride.id, u);
    }
    PostFits(agents[u], RowsOf(t.coupons, u), RideCount(t.rides, u), ride.id);
  }

  /** The row taken has the discount that was planned. */
  lemma TakenIsPlanned(t: Tables, agents: map<UserId, Agent>, user: UserId)
    requires CountersFit(t, agents) && UniqueCodes(t.coupons)
    requires user in agents && agents[user].phase.Estimated?
    ensures var taken := Taken(t, user);
            agents[user].phase.plan.discount == if taken.None? then 0 else t.coupons[taken.value].discount
  {
    TakenIsNext(t, agents, user);
    PostFits(agents[user], RowsOf(t.coupons, user), RideCount(t.rides, user), 0);
  }

  lemma PostPlans(t: Tables, planned: map<RideId, Plan>, ride: Ride, plan: Plan)
    requires UniqueCodes(t.coupons) && UsedOnce(t.coupons) && RidesPlanned(t, planned)
    requires ride.id !in planned && ride.pickup == plan.pickup && ride.dest == plan.dest
    requires plan.discount == if Taken(t, ride.user).None? then 0 else t.coupons[Taken(t, ride.user).value].discount
    ensures var t' := WithRide(t, ride);
            UniqueCodes(t'.coupons) && UsedOnce(t'.coupons) && RidesPlanned(t', planned[ride.id := plan])
  {
    var taken := Taken(t, ride.user);
    WithRideUses(t, ride);
    if taken.Some? {
      UseRow(t, planned, taken.value, ride, plan);
    } else {
      DiscountOfNone(t.coupons, ride.id);
    }
  }

  lemma UseRow(t: Tables, planned: map<RideId, Plan>, i: nat, ride: Ride, plan: Plan)
    requires UniqueCodes(t.coupons) && UsedOnce(t.coupons) && RidesPlanned(t, planned)
    requires i < |t.coupons| && t.coupons[i].usedBy.None? && ride.id !in planned
    requires plan.discount == t.coupons[i].discount && ride.pickup == plan.pickup && ride.dest == plan.dest
    ensures var cs := t.coupons[i := t.coupons[i].(usedBy := Some(ride.id))];
            && UniqueCodes(cs) && UsedOnce(cs)
            && RidesPlanned(t.(coupons := cs, rides := t.rides + [ride]), planned[ride.id := plan])
  {
    var c := t.coupons[i].(usedBy := Some(ride.id));
    var cs := t.coupons[i := c];
    assert UsedOnce(cs);
    forall r | r in planned[ride.id := plan]
      ensures DiscountOf(cs, r) == planned[ride.id := plan][r].discount
    {
      if r == ride.id {
        DiscountOfRow(cs, i, r);
      } else {
        DiscountOfOther(t.coupons, i, c, r);
      }
    }
  }

  lemma PostCodes(users: seq<User>, cs: seq<Coupon>, agents: map<UserId, Agent>, user: UserId, taken: Option<nat>,
                  ride: RideId)
    requires CodesOwned(users, cs, agents) && user in agents && agents[user].phase.Estimated?
    requires taken.Some? ==> taken.value < |cs|
    ensures CodesOwned(users, Using(cs, taken, ride),
                       agents[user := agents[user].(phase := Posted(agents[user].phase.plan, ride))])
  {
    var cs' := Using(cs, taken, ride);
    var agents' := agents[user := agents[user].(phase := Posted(agents[user].phase.plan, ride))];
    forall u | u in agents'
      ensures CodeFits(agents'[u], InvCount(cs', agents'[u].code), RewardCount(cs', agents'[u].code))
    {
      assert CodeFits(agents[u], InvCount(cs, agents[u].code), RewardCount(cs, agents[u].code));
      if taken.Some? {
        CountsIgnoreUse(cs, taken.value, Some(ride), agents[u].code);
      }
    }
  }

  lemma PostKeepsInv(s: State, user: UserId, ride: RideId)
    requires Inv(s) && Enabled(s, Post(user, ride))
    ensures Inv(Apply(s, Post(user, ride)))
  {
    var p := s.agents[user].phase.plan;
    PlannedRideKeepsInv(s, Ride(ride, user, p.pickup, p.dest), p);
  }

  lemma PlannedRideKeepsInv(s: State, r: Ride, p: Plan)
    requires Inv(s) && r.user in s.agents && s.agents[r.user].phase == Estimated(p) && r.id !in s.planned
    requires r.pickup == p.pickup && r.dest == p.dest
    ensures Inv(State(WithRide(s.t, r), s.agents[r.user := s.agents[r.user].(phase := Posted(p, r.id))],
                      s.planned[r.id := p]))
  {
    var t', agents' := WithRide(s.t, r), s.agents[r.user := s.agents[r.user].(phase := Posted(p, r.id))];
    assert CountersFit(t', agents') by {
      PostCounters(s.t, s.agents, r);
    }
    assert CodesOwned(t'.users, t'.coupons, agents') by {
      WithRideUses(s.t, r);
      PostCodes(s.t.users, s.t.coupons, s.agents, r.user, Taken(s.t, r.user), r.id);
    }
    assert UniqueCodes(t'.coupons) && UsedOnce(t'.coupons) && RidesPlanned(t', s.planned[r.id := p]) by {
      TakenIsPlanned(s.t, s.agents, r.user);
      PostPlans(s.t, s.planned, r, p);
    }
  }

  // ---- Every run ---------------------------------------------------------------------

  lemma StepKeepsInv(s: State, step: Step)
    requires Inv(s) && Enabled(s, step)
    ensures Inv(Apply(s, step))
  {
    match step
    case Register(user, code) => RegisterKeepsInv(s, user, code);
    case Invite(inviter, user, code, stamp) => InviteKeepsInv(s, inviter, user, code, stamp);
    case Post(user, ride) => PostKeepsInv(s, user, ride);
    case _ => ReleaseKeepsInv(s, step);
  }

  lemma {:induction false} RunKeepsInv(s: State, steps: seq<Step>)
    requires Inv(s) && IsRun(s, steps)
    ensures Inv(After(s, steps))
    decreases |steps|
  {
    if steps != [] {
      StepKeepsInv(s, steps[0]);
      RunKeepsInv(Apply(s, steps[0]), steps[1..]);
    }
  }

  lemma EstimateExpected(s: State, user: UserId)
    requires Inv(s) && user in s.agents && s.agents[user].phase.Chosen?
    ensures var p := s.agents[user].phase.plan;
            var fare := EstimatedFare(s.t, user, p.pickup, p.dest);
            && fare == Fare(p.pickup, p.dest, p.discount)
            && CalculateFare(p.pickup, p.dest) - fare == ActualDiscount(p.pickup, p.dest, p.discount)
            && CalculateFare(p.pickup, p.dest) - fare == Min(Metered(p.pickup, p.dest), p.discount)
  {
    var a, r, n := s.agents[user], RowsOf(s.t.coupons, user), RideCount(s.t.rides, user);
    assert Fits(a, r, n);
    PredictionIsNext(a, r, UsedCount(r), a.phase.plan.pickup, a.phase.plan.dest);
    PreferredIsOldest(s.t.coupons, user, a.invited, UsedCount(r));
    OldestIsNext(s.t.coupons, user, UsedCount(r));
    DiscountIsCapped(a.phase.plan.pickup, a.phase.plan.dest, a.phase.plan.discount);
  }

  /** In every reachable state in which a user is about to ask for an estimate, the server's
      estimate is what the simulator expects: fare and discount agree. */
  lemma EstimateAlwaysExpected(steps: seq<Step>, user: UserId)
    requires IsRun(Start(), steps)
    requires user in After(Start(), steps).agents && After(Start(), steps).agents[user].phase.Chosen?
    ensures var s := After(Start(), steps);
            var p := s.agents[user].phase.plan;
            var fare := EstimatedFare(s.t, user, p.pickup, p.dest);
            && fare == Fare(p.pickup, p.dest, p.discount)
            && CalculateFare(p.pickup, p.dest) - fare == ActualDiscount(p.pickup, p.dest, p.discount)
            && CalculateFare(p.pickup, p.dest) - fare == Min(Metered(p.pickup, p.dest), p.discount)
  {
    hide Inv;
    RunKeepsInv(Start(), steps);
    EstimateExpected(After(Start(), steps), user);
  }

  lemma OneFare(s: State, i: nat)
    requires Inv(s) && i < |s.t.rides|
    ensures var ride := s.t.rides[i];
            && ride.id in s.planned
            && RideFare(s.t, ride) == Fare(ride.pickup, ride.dest, s.planned[ride.id].discount)
            && CalculateFare(ride.pickup, ride.dest) - RideFare(s.t, ride)
                 == Min(Metered(ride.pickup, ride.dest), s.planned[ride.id].discount)
  {
    DiscountIsCapped(s.t.rides[i].pickup, s.t.rides[i].dest, s.planned[s.t.rides[i].id].discount);
  }

  /** One fare everywhere: in every reachable state, the server's fare of every existing ride
      (at creation, notified, charged, listed) is the simulator's, whatever has happened
      since the ride was requested; the discount is the coupon capped by the metered fare. */
  lemma OneFareEverywhere(steps: seq<Step>, i: nat)
    requires IsRun(Start(), steps) && i < |After(Start(), steps).t.rides|
    ensures var s := After(Start(), steps);
            var ride := s.t.rides[i];
            && ride.id in s.planned
            && RideFare(s.t, ride) == Fare(ride.pickup, ride.dest, s.planned[ride.id].discount)
            && CalculateFare(ride.pickup, ride.dest) - RideFare(s.t, ride)
                 == Min(Metered(ride.pickup, ride.dest), s.planned[ride.id].discount)
  {
    hide Inv;
    RunKeepsInv(Start(), steps);
    OneFare(After(Start(), steps), i);
  }

  /** An invitation is refused exactly when the inviter's counter stands at three at the moment
      its lock has been taken. The simulator compares the counter before it takes the lock, so
      two invitations on their way may both have found it below three. */
  lemma InvitationRefusedIff(steps: seq<Step>, inviter: UserId, user: UserId, code: InvCode, stamp: nat)
    requires IsRun(Start(), steps) && Enabled(After(Start(), steps), Invite(inviter, user, code, stamp))
    ensures var s := After(Start(), steps);
            Registered(s.t, user, code, Some(s.agents[inviter].code), stamp).None? <==>
            s.agents[inviter].invCodeUsed == INVITATION_LIMIT
    ensures After(Start(), steps).agents[inviter].invCodeUsed <= INVITATION_LIMIT
  {
    hide IsRun, After, CountersFit, RidesPlanned;
    RunKeepsInv(Start(), steps);
    var s := After(Start(), steps);
    var a := s.agents[inviter];
    assert CodeFits(a, InvCount(s.t.coupons, a.code), RewardCount(s.t.coupons, a.code));
    InvitationAccepted(s.t, inviter, a.code, user, code, stamp);
  }

  // ---- A refused invitation ----------------------------------------------------------

  ghost predicate Reached(s: State) {
    exists steps: seq<Step> :: IsRun(Start(), steps) && s == After(Start(), steps)
  }

  lemma {:induction false} RunAppend(s: State, steps: seq<Step>, step: Step)
    requires IsRun(s, steps) && Enabled(After(s, steps), step)
    ensures IsRun(s, steps + [step]) && After(s, steps + [step]) == Apply(After(s, steps), step)
    decreases |steps|
  {
    hide Enabled, Apply;
    if steps == [] {
      assert [] + [step] == [step] && [step][1..] == [];
      assert IsRun(Apply(s, step), []);
    } else {
      assert (steps + [step])[1..] == steps[1..] + [step];
      RunAppend(Apply(s, steps[0]), steps[1..], step);
    }
  }

  lemma ReachedOn(s: State, step: Step)
    requires Reached(s) && Enabled(s, step)
    ensures Reached(Apply(s, step))
  {
    hide Enabled, Apply;
    var steps :| IsRun(Start(), steps) && s == After(Start(), steps);
    RunAppend(Start(), steps, step);
  }

  /** Users and codes are below k; the user 0 has an invitation on the way. */
  ghost predicate Inviter(s: State, k: nat, used: nat, onTheWay: nat) {
    && (forall u | u in s.agents :: u < k && s.agents[u].code < k)
    && 0 in s.agents && s.agents[0].phase.Free? && s.agents[0].invCodeUsed == used && s.agents[0].onTheWay == onTheWay
  }

  lemma {:induction false} FreshStamp(cs: seq<Coupon>) returns (stamp: nat)
    ensures forall i | 0 <= i < |cs| && cs[i].code.Reward? :: cs[i].code.stamp < stamp
  {
    stamp := 0;
    for i := 0 to |cs|
      invariant forall j | 0 <= j < i && cs[j].code.Reward? :: cs[j].code.stamp < stamp
    {
      if cs[i].code.Reward? && cs[i].code.stamp >= stamp {
        stamp := cs[i].code.stamp + 1;
      }
    }
  }

  lemma CheckedOnce(s: State, k: nat, onTheWay: nat) returns (t: State)
    requires Reached(s) && Inviter(s, k, 0, onTheWay)
    ensures Reached(t) && Inviter(t, k, 0, onTheWay + 1)
  {
    hide Reached;
    ReachedOn(s, Check(0));
    t := Apply(s, Check(0));
  }

  /** An invitation that is not refused leaves the next one on its way. */
  lemma InvitedOnce(s: State, k: nat, used: nat, onTheWay: nat) returns (t: State)
    requires Reached(s) && Inviter(s, k, used, onTheWay) && used < INVITATION_LIMIT && onTheWay > 0
    ensures Reached(t) && Inviter(t, k + 1, used + 1, onTheWay - 1)
  {
    hide Reached, IsRun, After, Registered;
    var stamp := FreshStamp(s.t.coupons);
    var invite := Invite(0, k, k, stamp);
    assert Enabled(s, invite);
    RefusedAtLimit(s, 0, k, k, stamp);
    ReachedOn(s, invite);
    var n := Apply(s, invite);
    ReachedOn(n, InviteDone(0));
    t := Apply(n, InviteDone(0));
  }

  lemma RefusedAtLimit(s: State, inviter: UserId, user: UserId, code: InvCode, stamp: nat)
    requires Reached(s) && Enabled(s, Invite(inviter, user, code, stamp))
    ensures Registered(s.t, user, code, Some(s.agents[inviter].code), stamp).None? <==>
            s.agents[inviter].invCodeUsed == INVITATION_LIMIT
    ensures s.agents[inviter].invCodeUsed <= INVITATION_LIMIT
  {
    hide IsRun, After, Registered;
    var steps :| IsRun(Start(), steps) && s == After(Start(), steps);
    InvitationRefusedIff(steps, inviter, user, code, stamp);
  }

  /** There is a run in which four invitations of a user are found permitted and the fourth
      one is refused. */
  lemma AnInvitationIsRefused()
    ensures exists s: State, user: UserId, code: InvCode, stamp: nat ::
              && Reached(s) && Enabled(s, Invite(0, user, code, stamp))
              && Registered(s.t, user, code, Some(s.agents[0].code), stamp).None?
  {
    hide IsRun, After, Registered;
    var s := AnInviter();
    for i := 0 to 4
      invariant Reached(s) && Inviter(s, 1, 0, i)
    {
      s := CheckedOnce(s, 1, i);
    }
    for i := 0 to INVITATION_LIMIT
      invariant Reached(s) && Inviter(s, 1 + i, i, 4 - i)
    {
      s := InvitedOnce(s, 1 + i, i, 4 - i);
    }
    var stamp := FreshStamp(s.t.coupons);
    assert Enabled(s, Invite(0, 4, 4, stamp));
    RefusedAtLimit(s, 0, 4, 4, stamp);
  }

  lemma AnInviter() returns (s: State)
    ensures Reached(s) && Inviter(s, 1, 0, 0)
  {
    assert IsRun(Start(), []) && After(Start(), []) == Start();
    ReachedOn(Start(), Register(0, 0));
    s := Apply(Start(), Register(0, 0));
  }

  /** A ride keeps the plan it was created with, and so its fare. */
  lemma {:induction false} PlanIsKept(s: State, steps: seq<Step>, ride: RideId)
    requires IsRun(s, steps) && ride in s.planned
    ensures ride in After(s, steps).planned && After(s, steps).planned[ride] == s.planned[ride]
    decreases |steps|
  {
    if steps != [] {
      PlanIsKept(Apply(s, steps[0]), steps[1..], ride);
    }
  }

  /** Whenever a user's lock is free, the counters are the table: the requests are the
      rides, `UnusedInvCoupons` is the number of unused reward rows; and a code has at most
      three invitation rows with as many reward rows. */
  lemma CountersRefineTable(steps: seq<Step>, user: UserId)
    requires IsRun(Start(), steps)
    requires user in After(Start(), steps).agents && After(Start(), steps).agents[user].phase.Free?
    ensures var s := After(Start(), steps);
            var a := s.agents[user];
            && a.requests == RideCount(s.t.rides, user)
            && a.unusedInvCoupons == UnusedRewardRows(RowsOf(s.t.coupons, user))
            && InvCount(s.t.coupons, a.code) == RewardCount(s.t.coupons, a.code) == a.invCodeUsed <= INVITATION_LIMIT
  {
    RunKeepsInv(Start(), steps);
    var s := After(Start(), steps);
    var a, r, n := s.agents[user], RowsOf(s.t.coupons, user), RideCount(s.t.rides, user);
    assert AgentFitsTable(a, s.t, user);
    assert CodeFits(a, InvCount(s.t.coupons, a.code), RewardCount(s.t.coupons, a.code));
    UnusedRewardsAreRows(r, a.invited, UsedCount(r), |r|);
    assert r[..|r|] == r;
  }

  function UnusedRewardRows(r: seq<Coupon>): nat {
    if r == [] then 0
    else
      var c := r[|r| - 1];
      UnusedRewardRows(r[..|r| - 1]) + if c.code.Reward? && c.usedBy.None? then 1 else 0
  }

  lemma {:induction false} UnusedRewardsAreRows(r: seq<Coupon>, invited: bool, k: nat, m: nat)
    requires Shape(r, invited) && UsedPrefix(r, k) && m <= |r|
    ensures UnusedRewardRows(r[..m]) == Max(0, m - Max(k, Base(invited)))
  {
    if m > 0 {
      assert r[..m][..m - 1] == r[..m - 1];
      UnusedRewardsAreRows(r, invited, k, m - 1);
    }
  }
}
