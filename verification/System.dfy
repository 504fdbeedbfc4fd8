/** The whole system: the protocol of rides, the coupon table with the simulator's counters, the
    payment server and the simulator's books of money, put together. Steps that concern several
    of them happen in all of them; an evaluation is a sequence of calls to the payment server,
    between which anything else may happen. */
module System {
  import opened Grid
  import opened Wrappers
  import opened RideStatus
  import F = Fares
  import C = Coupons
  import K = CouponRuns
  import Y = Payments
  import PaymentClient
  import B = Money
  import A = Agents
  import W = WebApp
  import P = Protocol

  type UserId = P.UserId
  type RideId = P.RideId

  /** What the evaluating transaction is about: the ride, its score, the fare it has read. */
  datatype Bill = Bill(ride: RideId, score: int, amount: nat)

  /** Where a user's evaluation is on the server: `tries` counts the retries. */
  datatype Desk =
    | Closed
    | Posting(bill: Bill, tries: nat)
    | Checking(bill: Bill, tries: nat)
    | Charged(bill: Bill)

  /** `owners` has the owner of every chair. `failed`: an estimate has differed from what the
      simulator expected, or an evaluation has been refused, or six attempts were not enough. */
  datatype State = State(p: P.State, k: K.State, pay: Y.State, b: B.State, desks: seq<Desk>, owners: seq<nat>,
                         failed: bool)

  datatype Step =
    | Internal(step: P.Step)  // time, the matcher, a chair, or a user that handles a notification
    | SignUp(call: K.Step)    // a registration or an invitation
    | RegisterPayment(u: UserId)
    | Plan(u: UserId, pickup: Coord, dest: Coord)
    | GiveUp(u: UserId)
    | Estimate(u: UserId)
    | Create(u: UserId)
    | Register(u: UserId)
    | UserPoll(u: UserId)
    | Evaluate(u: UserId, score: int)
    | PostPayment(u: UserId, luck: Y.Luck)
    | GetPayments(u: UserId)
    | Commit(u: UserId)
    | EvaluateDone(u: UserId)
    | Settle(u: UserId)
    | Close(u: UserId)

  /** A user's payment token. */
  function Token(u: UserId): Y.Text {
    u + 1
  }

  function Rides(s: State): seq<W.Ride> {
    P.Rides(s.p)
  }

  // ---- Who can do what ---------------------------------------------------------------

  predicate IsInternal(step: P.Step) {
    step.Tick? || step.Matcher? || step.UserHandle? || step.Late? || !P.OfUser(step)
  }

  /** The user's tick is not in the middle of an evaluation. */
  predicate Free(s: State, u: UserId) {
    && u < |s.desks| && s.desks[u].Closed?
    && (B.On(s.b, u) ==> s.b.rides[s.b.current[u]].progress != B.Marked)
  }

  function TripOf(plan: K.Plan): A.Trip {
    A.Trip(plan.pickup, plan.dest, F.Fare(plan.pickup, plan.dest, plan.discount))
  }

  predicate Current(s: State, u: UserId) {
    u < |s.p.users| && s.p.users[u].request.Some?
    && s.p.users[u].request.value < |Rides(s)| && s.p.users[u].request.value < |s.k.t.rides|
  }

  predicate Enabled(s: State, step: Step) {
    match step
    case Internal(st) =>
      IsInternal(st) && P.Enabled(s.p, st) && (st.Late? ==> P.Assumed(s.p, st)) &&
      (st.UserHandle? || st.Late? ==> Free(s, st.u))
    case SignUp(st) =>
      && (st.Register? || st.Check? || st.Invite? || st.InviteDone?) && K.Enabled(s.k, st)
      && (st.Register? || st.Invite? ==> st.user < |s.p.users|)
    case RegisterPayment(u) => P.Enabled(s.p, P.RegisterPayment(u)) && u in s.k.agents
    case Plan(u, pickup, dest) =>
      P.Enabled(s.p, P.Plan(u)) && K.Enabled(s.k, K.Choose(u, pickup, dest)) && pickup != dest
    case GiveUp(u) => P.Enabled(s.p, P.Drop(u)) && K.Enabled(s.k, K.GiveUp(u))
    case Estimate(u) => u < |s.p.users| && K.Enabled(s.k, K.Estimate(u))
    case Create(u) =>
      && K.Enabled(s.k, K.Post(u, |Rides(s)|))
      && P.Enabled(s.p, P.Create(u, TripOf(s.k.agents[u].phase.plan)))
    case Register(u) =>
      && P.Enabled(s.p, P.Register(u)) && K.Enabled(s.k, K.Finish(u))
      && B.Enabled(s.b, B.Take(u, s.p.users[u].creating.value))
    case UserPoll(u) =>
      && P.Enabled(s.p, P.UserPoll(u, 0))
      && W.LatestOfUser(Rides(s), u).Some? && W.LatestOfUser(Rides(s), u).value < |s.k.t.rides|
    case Evaluate(u, score) => Free(s, u) && Current(s, u) && P.Enabled(s.p, P.Evaluate(u, score))
    case PostPayment(u, _) => u < |s.desks| && s.desks[u].Posting?
    case GetPayments(u) => u < |s.desks| && s.desks[u].Checking?
    case Commit(u) =>
      u < |s.desks| && s.desks[u].Charged? && P.Enabled(s.p, P.Evaluate(u, s.desks[u].bill.score))
    case EvaluateDone(u) => P.Enabled(s.p, P.EvaluateDone(u)) && B.Enabled(s.b, B.Mark(u))
    case Settle(u) => Current(s, u) && B.Enabled(s.b, B.Settle(u, 0))
    case Close(u) => Free(s, u) && P.Enabled(s.p, P.Close(u))
  }

  // ---- What a step does --------------------------------------------------------------

  function SetDesk(s: State, u: UserId, d: Desk): State
    requires u < |s.desks|
  {
    s.(desks := s.desks[u := d])
  }

  /** The POST that pays a bill; the verification accepts every registered token. */
  function Posted(s: State, u: UserId, amount: nat, luck: Y.Luck): Y.Request {
    Y.Request(Y.EMPTY, Some(Token(u)), Some(amount), luck, if u in s.k.agents then Y.Success else Y.InvalidToken)
  }

  /** The owner that books the sale of a ride. */
  function OwnerOf(s: State, i: RideId): nat
    requires i < |Rides(s)|
  {
    var c := Rides(s)[i].chair;
    if c.Some? && c.value < |s.owners| then s.owners[c.value] else 0
  }

  /** The server's estimate is compared with the simulator's own fare. */
  function Estimated(s: State, u: UserId): State
    requires Enabled(s, Estimate(u))
  {
    var plan := s.k.agents[u].phase.plan;
    var fare := C.EstimatedFare(s.k.t, u, plan.pickup, plan.dest);
    var wrong := fare != F.Fare(plan.pickup, plan.dest, plan.discount) ||
                 F.CalculateFare(plan.pickup, plan.dest) - fare !=
                   F.ActualDiscount(plan.pickup, plan.dest, plan.discount);
    s.(k := K.Apply(s.k, K.Estimate(u)), failed := s.failed || wrong)
  }

  function Created(s: State, u: UserId): State
    requires Enabled(s, Create(u))
  {
    var plan := s.k.agents[u].phase.plan;
    s.(p := P.Apply(s.p, P.Create(u, TripOf(plan))), k := K.Apply(s.k, K.Post(u, |Rides(s)|)),
       b := B.Apply(s.b, B.Ask(u, plan.pickup, plan.dest, plan.discount)))
  }

  function Registered(s: State, u: UserId): State
    requires Enabled(s, Register(u))
  {
    s.(p := P.Apply(s.p, P.Register(u)), k := K.Apply(s.k, K.Finish(u)),
       b := B.Apply(s.b, B.Take(u, s.p.users[u].creating.value)))
  }

  /** The fare that the coupon table has for the user's latest ride. */
  function FareNow(s: State, u: UserId): nat {
    var i := W.LatestOfUser(Rides(s), u);
    if i.Some? && i.value < |s.k.t.rides| then C.RideFare(s.k.t, s.k.t.rides[i.value]) else 0
  }

  function Polled(s: State, u: UserId): State
    requires Enabled(s, UserPoll(u))
  {
    s.(p := P.Apply(s.p, P.UserPoll(u, FareNow(s, u))))
  }

  function RequestStep(s: State, step: Step): State
    requires Enabled(s, step)
  {
    match step
    case Plan(u, pickup, dest) => s.(p := P.Apply(s.p, P.Plan(u)), k := K.Apply(s.k, K.Choose(u, pickup, dest)))
    case GiveUp(u) => s.(p := P.Apply(s.p, P.Drop(u)), k := K.Apply(s.k, K.GiveUp(u)))
    case Estimate(u) => Estimated(s, u)
    case Create(u) => Created(s, u)
    case Register(u) => Registered(s, u)
    case UserPoll(u) => Polled(s, u)
    case _ => s
  }

  /** The transaction reads the fare of the ride from the coupon table. */
  function Billed(s: State, u: UserId, score: int): State
    requires Enabled(s, Evaluate(u, score))
  {
    var i := s.p.users[u].request.value;
    if !W.EvaluationAccepted(Rides(s)[i], score) || !P.Timed(s.p.reqs[i]) || !s.p.users[u].ready
    then s.(failed := true)
    else SetDesk(s, u, Posting(Bill(i, score, C.RideFare(s.k.t, s.k.t.rides[i])), 0))
  }

  /** Every POST that the payment server processes is verified, whether it is answered or not. */
  function Paying(s: State, u: UserId, luck: Y.Luck): State
    requires Enabled(s, PostPayment(u, luck))
  {
    var d, q := s.desks[u], Posted(s, u, s.desks[u].bill.amount, luck);
    var processed := !Y.FateOf(Y.RetryCount(s.pay, Token(u)), luck).NotCharged?;
    var (pay, response) := Y.Post(s.pay, q);
    var b := if processed && u in s.k.agents then B.Apply(s.b, B.Charge(u, d.bill.amount)) else s.b;
    SetDesk(s, u, if response == Y.NoContent then Charged(d.bill) else Checking(d.bill, d.tries)).(pay := pay, b := b)
  }

  /** After an error the number of payments is compared with the number of rides. */
  function Compared(s: State, u: UserId): State
    requires Enabled(s, GetPayments(u))
  {
    var d := s.desks[u];
    if C.RideCount(s.k.t.rides, u) == |Y.PaymentsOf(s.pay.books.ledger, Token(u))| then SetDesk(s, u, Charged(d.bill))
    else if d.tries < PaymentClient.MAX_RETRIES then SetDesk(s, u, Posting(d.bill, d.tries + 1))
    else SetDesk(s, u, Closed).(failed := true)
  }

  function Committed(s: State, u: UserId): State
    requires Enabled(s, Commit(u))
  {
    SetDesk(s, u, Closed).(p := P.Apply(s.p, P.Evaluate(u, s.desks[u].bill.score)))
  }

  function Marked(s: State, u: UserId): State
    requires Enabled(s, EvaluateDone(u))
  {
    s.(p := P.Apply(s.p, P.EvaluateDone(u)), b := B.Apply(s.b, B.Mark(u)))
  }

  function Booked(s: State, u: UserId): State
    requires Enabled(s, Settle(u))
  {
    s.(b := B.Apply(s.b, B.Settle(u, OwnerOf(s, s.p.users[u].request.value))))
  }

  function Left(s: State, u: UserId): State
    requires Enabled(s, Close(u))
  {
    s.(p := P.Apply(s.p, P.Close(u)), b := B.Apply(s.b, B.Leave(u)))
  }

  function EvaluationStep(s: State, step: Step): State
    requires Enabled(s, step)
  {
    match step
    case Evaluate(u, score) => Billed(s, u, score)
    case PostPayment(u, luck) => Paying(s, u, luck)
    case GetPayments(u) => Compared(s, u)
    case Commit(u) => Committed(s, u)
    case EvaluateDone(u) => Marked(s, u)
    case Settle(u) => Booked(s, u)
    case Close(u) => Left(s, u)
    case _ => s
  }

  function Apply(s: State, step: Step): State
    requires Enabled(s, step)
  {
    if step.Internal? then s.(p := P.Apply(s.p, step.step))
    else if step.SignUp? then s.(k := K.Apply(s.k, step.call))
    else if step.RegisterPayment? then s.(p := P.Apply(s.p, P.RegisterPayment(step.u)))
    else if OfRequest(step) then RequestStep(s, step)
    else EvaluationStep(s, step)
  }

  /** The step leads from s to t. */
  predicate Next(s: State, step: Step, t: State) {
    Enabled(s, step) && t == Apply(s, step)
  }

  predicate OfRequest(step: Step) {
    step.Plan? || step.GiveUp? || step.Estimate? || step.Create? || step.Register? || step.UserPoll?
  }

  ghost predicate IsRun(s: State, steps: seq<Step>)
    decreases |steps|
  {
    steps == [] || (Enabled(s, steps[0]) && IsRun(Apply(s, steps[0]), steps[1..]))
  }

  ghost function After(s: State, steps: seq<Step>): State
    requires IsRun(s, steps)
    decreases |steps|
  {
    if steps == [] then s else After(Apply(s, steps[0]), steps[1..])
  }

  /** One chair for every home, with its owner. */
  function Start(users: nat, homes: seq<Coord>, owners: seq<nat>): State {
    State(P.Start(users, homes), K.Start(), Y.State(Y.Books(map[], []), map[]), B.Start(), seq(users, _ => Closed), owners,
          false)
  }

  // ---- The invariant -----------------------------------------------------------------

  /** The five records of a ride agree. */
  ghost predicate RideFits(i: RideId, r: W.Ride, q: P.Req, c: C.Ride, m: B.Ride, planned: map<RideId, K.Plan>) {
    && c == C.Ride(i, r.user, r.pickup, r.dest)
    && m.user == r.user && m.pickup == r.pickup && m.dest == r.dest
    && i in planned && m.discount == planned[i].discount && q.trip.fare == B.RideFare(m)
  }

  /** A ride is paid when its evaluation is accepted, and no earlier than the payment server has
      been asked. */
  ghost predicate ProgressFits(i: RideId, g: B.Progress, q: P.Req, d: Desk) {
    if q.st.desired == Completed then g in {B.Marked, B.Settled}
    else if q.evaluating then g == B.Paid
    else g == B.Open || (g == B.Paid && (d.Checking? || d.Charged?) && d.bill.ride == i)
  }

  function DeskOf(desks: seq<Desk>, u: UserId): Desk {
    if u < |desks| then desks[u] else Closed
  }

  ghost predicate RidesFit(rides: seq<W.Ride>, reqs: seq<P.Req>, k: K.State, books: seq<B.Ride>, desks: seq<Desk>) {
    && |reqs| == |k.t.rides| == |books| == |rides|
    && (forall i | 0 <= i < |rides| :: RideFits(i, rides[i], reqs[i], k.t.rides[i], books[i], k.planned))
    && (forall i | 0 <= i < |rides| :: ProgressFits(i, books[i].progress, reqs[i], DeskOf(desks, rides[i].user)))
    && (forall i | i in k.planned :: i < |rides|)
  }

  function AgentOf(k: K.State, u: UserId): Option<K.Agent> {
    if u in k.agents then Some(k.agents[u]) else None
  }

  function CurrentOf(b: B.State, u: UserId): Option<nat> {
    if u in b.current then Some(b.current[u]) else None
  }

  /** The three records of a user agree. */
  ghost predicate UserFits(x: P.UserRec, a: Option<K.Agent>, current: Option<nat>) {
    && (x.planned.Some? <==> a.Some? && (a.value.phase.Chosen? || a.value.phase.Estimated?))
    && (x.planned.Some? ==> a.value.phase.plan.pickup != a.value.phase.plan.dest)
    && (a.Some? && a.value.phase.Posted? ==> x.creating == Some(a.value.phase.ride))
    && (x.creating.Some? ==> a.Some? && a.value.phase.Posted?)
    && current == x.request
    && (x.planned.Some? || x.creating.Some? || x.request.Some? ==> x.ready)
    && (x.ready ==> a.Some?)
  }

  /** The evaluation of ride i can be sent, and accepted. */
  predicate Arriving(x: P.UserRec, reqs: seq<P.Req>, i: RideId) {
    && x.request == Some(i) && x.creating.None? && i < |reqs| && !reqs[i].evaluating
    && reqs[i].st.user == Arrived && reqs[i].st.desired != Completed
  }

  /** Until the charge, the retry counter keeps up with the retries. */
  ghost predicate DeskFits(d: Desk, x: P.UserRec, reqs: seq<P.Req>, books: seq<B.Ride>, retry: int) {
    d.Closed? ||
    (var i := d.bill.ride;
     && Arriving(x, reqs, i) && 1 <= d.bill.score <= 5 && i < |books| && d.bill.amount == B.RideFare(books[i])
     && match d
        case Posting(_, tries) => books[i].progress == B.Open && tries <= 5 && retry >= tries - 1
        case Checking(_, tries) => books[i].progress == B.Open ==> tries <= 4 && retry >= tries
        case Charged(_) => books[i].progress == B.Paid)
  }

  /** How many rides of the user are not paid. */
  function OpenRides(books: seq<B.Ride>, u: UserId): nat {
    if books == [] then 0
    else
      var m := books[|books| - 1];
      OpenRides(books[..|books| - 1], u) + if m.user == u && m.progress == B.Open then 1 else 0
  }

  /** Every ride of the user is either open or has one payment. */
  ghost predicate PaymentsFit(t: Y.Token, rides: nat, open: nat) {
    rides == t.paid + open && t.retry >= -1
  }

  ghost predicate AccountFits(s: State, u: UserId)
    requires u < |s.p.users| == |s.desks|
  {
    var t := Y.TokenOf(s.pay, Token(u));
    && UserFits(s.p.users[u], AgentOf(s.k, u), CurrentOf(s.b, u))
    && DeskFits(s.desks[u], s.p.users[u], s.p.reqs, s.b.rides, t.retry)
    && PaymentsFit(t, C.RideCount(s.k.t.rides, u), OpenRides(s.b.rides, u))
  }

  ghost predicate AccountsFit(s: State)
    requires |s.p.users| == |s.desks|
  {
    forall u | 0 <= u < |s.p.users| :: AccountFits(s, u)
  }
}
