/** The whole system never gets stuck: from every reachable state, every ride can be completed,
    paid and booked. A run of the protocol is followed by the payment server and the books. */
module SystemCompletion {
  import opened Grid
  import opened Wrappers
  import opened RideStatus
  import opened System
  import opened SystemParts
  import opened SystemRuns
  import F = Fares
  import C = Coupons
  import K = CouponRuns
  import Y = Payments
  import B = Money
  import M = Matching
  import W = WebApp
  import P = Protocol
  import PR = ProtocolRuns
  import PC = ProtocolCompletion
  import ProtocolFrames
  import ProtocolUsers
  import SystemLedger

  const GOOD := Y.Luck(true, true)

  ghost predicate Leads(s: State, t: State) {
    exists steps: seq<Step> :: IsRun(s, steps) && t == After(s, steps)
  }

  lemma {:induction false} RunConcat(s: State, a: seq<Step>, b: seq<Step>)
    requires IsRun(s, a) && IsRun(After(s, a), b)
    ensures IsRun(s, a + b) && After(s, a + b) == After(After(s, a), b)
    decreases |a|
  {
    hide Enabled, Apply;
    if a == [] {
      assert [] + b == b;
    } else {
      assert (a + b)[1..] == a[1..] + b;
      RunConcat(Apply(s, a[0]), a[1..], b);
    }
  }

  lemma LeadsTo(s: State)
    ensures Leads(s, s)
  {
    hide Enabled, Apply;
    assert IsRun(s, []) && After(s, []) == s;
  }

  lemma LeadsFurther(s: State, t: State, v: State)
    requires Leads(s, t) && Leads(t, v)
    ensures Leads(s, v)
  {
    hide IsRun, After;
    var a :| IsRun(s, a) && t == After(s, a);
    var b :| IsRun(t, b) && v == After(t, b);
    RunConcat(s, a, b);
  }

  /** One step. */
  lemma Steps(s: State, step: Step) returns (t: State)
    requires Inv(s) && Enabled(s, step)
    ensures Next(s, step, t) && Leads(s, t) && Inv(t)
  {
    hide Inv, Enabled, Apply;
    StepKeepsInv(s, step);
    t := Apply(s, step);
    assert [step][1..] == [];
    assert IsRun(t, []) && After(t, []) == t;
    assert IsRun(s, [step]) && After(s, [step]) == t;
  }

  // ---- Putting the desks in order ----------------------------------------------------

  /** No evaluation is under way. */
  ghost predicate AtRest(s: State) {
    forall u | 0 <= u < |s.desks| :: Free(s, u)
  }

  /** Only user u's desk, its books and the protocol's statuses have changed. */
  ghost predicate SameDesks(s: State, t: State, u: UserId) {
    && |t.desks| == |s.desks| && (forall v | 0 <= v < |s.desks| && v != u && Free(s, v) :: Free(t, v))
    && |Rides(t)| == |Rides(s)| && |t.p.chairs| == |s.p.chairs|
  }

  /** A desk with a bill can be closed: the charge succeeds, and is committed. */
  lemma ClosesDesk(s: State, u: UserId) returns (t: State)
    requires Inv(s) && u < |s.desks|
    ensures Leads(s, t) && Inv(t) && u < |t.desks| && t.desks[u].Closed? && SameDesks(s, t, u)
    decreases match s.desks[u] case Closed => 0 case Charged(_) => 1 case Posting(_, _) => 2 case Checking(_, _) => 3
  {
    hide Inv, Leads, Enabled, Apply, SameDesks;
    if s.desks[u].Closed? {
      t := s;
      LeadsTo(s);
      SameItself(s, u);
    } else {
      var n;
      if s.desks[u].Charged? {
        n := CommitsDesk(s, u);
      } else if s.desks[u].Posting? {
        n := PostsDesk(s, u);
      } else {
        n := ChecksDesk(s, u);
      }
      t := ClosesDesk(n, u);
      LeadsFurther(s, n, t);
      SameOn(s, n, t, u);
    }
  }

  lemma SameItself(s: State, u: UserId)
    ensures SameDesks(s, s, u)
  {
  }

  lemma SameOn(s: State, n: State, t: State, u: UserId)
    requires SameDesks(s, n, u) && SameDesks(n, t, u)
    ensures SameDesks(s, t, u)
  {
    hide Free;
  }

  /** Nobody's ride gets marked, and nobody's current ride changes. */
  ghost predicate NoNewMarks(b: B.State, b': B.State) {
    && b'.current == b.current && |b'.rides| == |b.rides|
    && (forall j | 0 <= j < |b.rides| && b'.rides[j].progress == B.Marked :: b.rides[j].progress == B.Marked)
  }

  lemma OthersStayFree(s: State, t: State, u: UserId, d: Desk)
    requires u < |s.desks| && t.desks == s.desks[u := d] && NoNewMarks(s.b, t.b)
    requires |Rides(t)| == |Rides(s)| && |t.p.chairs| == |s.p.chairs|
    ensures SameDesks(s, t, u)
  {
    forall v | 0 <= v < |s.desks| && v != u && Free(s, v)
      ensures Free(t, v)
    {
    }
  }

  lemma CanEvaluate(p: P.State, u: UserId, i: RideId, score: int)
    requires u < |p.users| && Arriving(p.users[u], p.reqs, i) && i < |P.Rides(p)| && p.reqs[i].call != P.Accepting
    requires 1 <= score <= 5
    ensures P.Enabled(p, P.Evaluate(u, score))
  {
  }

  lemma ArrivedIsQuiet(p: P.State, i: RideId)
    requires PR.Sound(p) && i < |p.reqs| && p.reqs[i].st.user == Arrived
    ensures i < |P.Rides(p)| && p.reqs[i].call != P.Accepting
  {
    hide P.Inv, W.RideOk, M.SixPrefix;
    PR.SameLength(p);
    ProtocolFrames.RideAt(p, i);
  }

  /** The evaluation can still be committed once it has been charged. */
  lemma ChargedCanCommit(s: State, u: UserId)
    requires Inv(s) && u < |s.desks| && s.desks[u].Charged?
    ensures Enabled(s, Commit(u))
  {
    hide Inv, PR.Sound, P.Inv, P.Enabled, K.Inv, B.Inv, B.RideFare, Y.TokenOf, UserFits, ProgressFits, P.Apply;
    DesksLong(s);
    RetryIsAtLeast(s, u);
    var i := s.desks[u].bill.ride;
    ArrivedIsQuiet(s.p, i);
    CanEvaluate(s.p, u, i, s.desks[u].bill.score);
  }

  lemma CommitsDesk(s: State, u: UserId) returns (t: State)
    requires Inv(s) && u < |s.desks| && s.desks[u].Charged?
    ensures Next(s, Commit(u), t)
    ensures Leads(s, t) && Inv(t) && |t.desks| == |s.desks| && t.desks[u].Closed? && SameDesks(s, t, u)
  {
    hide Inv, Leads, PR.Sound, P.Inv, P.Apply, P.Enabled, SameDesks;
    ChargedCanCommit(s, u);
    t := Steps(s, Commit(u));
    DesksLong(s);
    SoundIsInv(s.p);
    CommitEffect(s.p, u, s.desks[u].bill.score);
    OthersStayFree(s, t, u, Closed);
  }

  lemma PostsDesk(s: State, u: UserId) returns (t: State)
    requires Inv(s) && u < |s.desks| && s.desks[u].Posting?
    ensures Leads(s, t) && Inv(t) && |t.desks| == |s.desks| && t.desks[u] == Charged(s.desks[u].bill)
    ensures SameDesks(s, t, u) && t.p == s.p
  {
    hide Inv, Leads, PR.Sound, P.Inv, K.Inv, B.Inv, Y.Post, Y.TokenOf, B.Apply, B.RideFare, SameDesks, ProgressFits;
    DesksLong(s);
    RetryIsAtLeast(s, u);
    SystemLedger.PostingIsOpen(s, u);
    CurrentRide(s, u);
    var d := s.desks[u];
    t := Steps(s, PostPayment(u, GOOD));
    PostResult(s, t, u, GOOD);
    ChargeIsRight(s, u, d.bill.ride, d.bill.amount);
    GoodLuck(Y.RetryCount(s.pay, Token(u)));
    OthersStayFree(s, t, u, Charged(d.bill));
  }

  lemma GoodLuck(retry: int)
    ensures Y.FateOf(retry, GOOD) == Y.ChargedAnswered
  {
  }

  lemma ChecksDesk(s: State, u: UserId) returns (t: State)
    requires Inv(s) && u < |s.desks| && s.desks[u].Checking?
    ensures Leads(s, t) && Inv(t) && |t.desks| == |s.desks| && !t.desks[u].Checking? && SameDesks(s, t, u)
  {
    hide Inv, Leads, P.Apply, Y.PaymentsOf, C.RideCount, SameDesks;
    t := Steps(s, GetPayments(u));
    OthersStayFree(s, t, u, t.desks[u]);
  }

  /** A marked ride can be booked. */
  lemma BooksRide(s: State, u: UserId) returns (t: State)
    requires Inv(s) && u < |s.desks| && s.desks[u].Closed?
    ensures Leads(s, t) && Inv(t) && t.p == s.p && SameDesks(s, t, u) && u < |t.desks| && Free(t, u)
  {
    hide Inv, Leads, SameDesks, PR.Sound, P.Inv, K.Inv, B.Inv, OwnerOf;
    if Free(s, u) {
      t := s;
      LeadsTo(s);
      SameItself(s, u);
    } else {
      DesksLong(s);
      CurrentOfUser(s, u);
      CurrentRide(s, u);
      t := Steps(s, Settle(u));
      assert s.desks[u := Closed] == s.desks;
      OthersStayFree(s, t, u, Closed);
    }
  }

  lemma CurrentOfUser(s: State, u: UserId)
    requires Inv(s) && u < |s.p.users| && B.On(s.b, u)
    ensures s.p.users[u].request == Some(s.b.current[u])
  {
    hide Inv;
    AgentIsThere(s, u);
  }

  /** All desks can be put in order. */
  lemma {:induction false} Rests(s: State, n: nat) returns (t: State)
    requires Inv(s) && n <= |s.desks| && forall u | 0 <= u < n :: Free(s, u)
    ensures Leads(s, t) && Inv(t) && AtRest(t) && |Rides(t)| == |Rides(s)| && |t.p.chairs| == |s.p.chairs|
    decreases |s.desks| - n
  {
    hide Inv, Leads, Free;
    if n == |s.desks| {
      t := s;
      LeadsTo(s);
    } else {
      var m := ClosesDesk(s, n);
      var k := BooksRide(m, n);
      LeadsFurther(s, m, k);
      t := Rests(k, n + 1);
      LeadsFurther(s, k, t);
    }
  }

  // ---- Marked rides ------------------------------------------------------------------

  /** A ride that is marked and not booked is its user's current one. */
  ghost predicate MarkedIsCurrent(b: B.State) {
    forall i | 0 <= i < |b.rides| && b.rides[i].progress == B.Marked :: CurrentOf(b, b.rides[i].user) == Some(i)
  }

  lemma NobodyIsLost(b: B.State, step: B.Step)
    requires MarkedIsCurrent(b) && B.Enabled(b, step)
    requires step.Take? || step.Leave? ==>
               !exists i | 0 <= i < |b.rides| && b.rides[i].user == step.user :: b.rides[i].progress == B.Marked
    requires step.Mark? ==> b.rides[b.current[step.user]].user == step.user
    ensures MarkedIsCurrent(B.Apply(b, step))
  {
  }

  /** A user that is between two rides, or whose current ride is not marked, has none marked. */
  lemma NoneMarked(s: State, u: UserId)
    requires MarkedIsCurrent(s.b) && (B.On(s.b, u) ==> s.b.rides[s.b.current[u]].progress != B.Marked)
    ensures !exists i | 0 <= i < |s.b.rides| && s.b.rides[i].user == u :: s.b.rides[i].progress == B.Marked
  {
  }

  lemma StepKeepsMarks(s: State, s': State, step: Step)
    requires Inv(s) && MarkedIsCurrent(s.b) && Next(s, step, s')
    ensures MarkedIsCurrent(s'.b)
  {
    hide Inv, PR.Sound, P.Inv, K.Inv, B.Inv, P.Apply, K.Apply, K.Enabled, Y.Post, B.Apply, MarkedIsCurrent, OwnerOf,
         C.RideFare, C.EstimatedFare, W.LatestOfUser;
    DesksLong(s);
    if step.Register? {
      RegistrarIsIdle(s, step.u);
      NoneMarked(s, step.u);
      NobodyIsLost(s.b, B.Take(step.u, s.p.users[step.u].creating.value));
    } else if step.Close? {
      NoneMarked(s, step.u);
      NobodyIsLost(s.b, B.Leave(step.u));
    } else if step.EvaluateDone? {
      CurrentRide(s, step.u);
      NobodyIsLost(s.b, B.Mark(step.u));
    } else if step.PostPayment? {
      NobodyIsLost(s.b, B.Charge(step.u, s.desks[step.u].bill.amount));
    } else if step.Settle? {
      NobodyIsLost(s.b, B.Settle(step.u, OwnerOf(s, s.p.users[step.u].request.value)));
    } else if step.Create? {
      AskingMarksNone(s, s', step.u);
    }
  }

  lemma AskingMarksNone(s: State, s': State, u: UserId)
    requires MarkedIsCurrent(s.b) && Next(s, Create(u), s')
    ensures MarkedIsCurrent(s'.b)
  {
    hide P.Apply, P.Enabled, K.Apply, MarkedIsCurrent;
    var plan := s.k.agents[u].phase.plan;
    NobodyIsLost(s.b, B.Ask(u, plan.pickup, plan.dest, plan.discount));
  }

  lemma RegistrarIsIdle(s: State, u: UserId)
    requires Inv(s) && P.Enabled(s.p, P.Register(u))
    ensures !B.On(s.b, u)
  {
    hide Inv, PR.Sound, P.Inv;
    DesksLong(s);
    SoundIsInv(s.p);
    RegisterEffect(s.p, u);
    AgentIsThere(s, u);
  }

  lemma {:induction false} RunKeepsMarks(s: State, steps: seq<Step>)
    requires Inv(s) && MarkedIsCurrent(s.b) && IsRun(s, steps)
    ensures MarkedIsCurrent(After(s, steps).b)
    decreases |steps|
  {
    hide Inv, MarkedIsCurrent, Enabled, Apply;
    if steps != [] {
      StepKeepsInv(s, steps[0]);
      StepKeepsMarks(s, Apply(s, steps[0]), steps[0]);
      RunKeepsMarks(Apply(s, steps[0]), steps[1..]);
    }
  }

  lemma LeadsKeepMarks(s: State, t: State)
    requires Inv(s) && MarkedIsCurrent(s.b) && Leads(s, t)
    ensures MarkedIsCurrent(t.b)
  {
    hide Inv, MarkedIsCurrent, IsRun, After;
    var steps :| IsRun(s, steps) && t == After(s, steps);
    RunKeepsMarks(s, steps);
  }

  // ---- Following the protocol --------------------------------------------------------

  /** The state has nothing under way but the protocol. */
  ghost predicate Ready(s: State) {
    Inv(s) && AtRest(s) && MarkedIsCurrent(s.b)
  }

  /** Whose step it is exists. */
  lemma StepUser(p: P.State, step: P.Step)
    requires P.Enabled(p, step) && P.OfUser(step)
    ensures step.u < |p.users|
  {
  }

  lemma SameRest(s: State, t: State)
    requires AtRest(s) && t.desks == s.desks && t.b == s.b
    ensures AtRest(t)
  {
    forall u | 0 <= u < |t.desks|
      ensures Free(t, u)
    {
      assert Free(s, u);
    }
  }

  lemma CanFollow(s: State, step: P.Step)
    requires Ready(s) && P.Possible(s.p, step) && IsInternal(step)
    ensures Enabled(s, Internal(step))
  {
    hide Inv, Free, P.Enabled, P.Assumed;
    DesksLong(s);
    if P.OfUser(step) {
      StepUser(s.p, step);
      assert Free(s, step.u);
    }
  }

  lemma FollowInternal(s: State, step: P.Step) returns (t: State)
    requires Ready(s) && P.Possible(s.p, step) && IsInternal(step)
    ensures Leads(s, t) && Ready(t) && Goes(s.p, step, t.p)
  {
    hide Inv, Leads, AtRest, MarkedIsCurrent, P.Apply, P.Possible, Enabled;
    CanFollow(s, step);
    t := Steps(s, Internal(step));
    SameRest(s, t);
  }

  lemma PollingUser(p: P.State, u: UserId, fare: int)
    requires P.Possible(p, P.UserPoll(u, fare))
    ensures u < |p.users| && p.users[u].request.Some? && P.Enabled(p, P.UserPoll(u, 0))
    ensures p.users[u].request.value < |p.reqs| ==> fare == p.reqs[p.users[u].request.value].trip.fare
  {
  }

  lemma CanPoll(s: State, u: UserId, fare: int)
    requires Inv(s) && P.Possible(s.p, P.UserPoll(u, fare))
    ensures Enabled(s, UserPoll(u))
    ensures fare == FareNow(s, u)
  {
    hide Inv, PR.Sound, P.Inv, P.Enabled, P.Assumed, P.Apply, K.Inv, B.Inv, B.RideFare, C.RideFare, W.LatestOfUser;
    DesksLong(s);
    SoundIsInv(s.p);
    PollingUser(s.p, u, fare);
    ProtocolUsers.CurrentIsLatest(s.p, u);
    FareIsTrips(s, s.p.users[u].request.value);
  }

  lemma FollowPoll(s: State, u: UserId, fare: int) returns (t: State)
    requires Ready(s) && P.Possible(s.p, P.UserPoll(u, fare))
    ensures Leads(s, t) && Ready(t) && Goes(s.p, P.UserPoll(u, fare), t.p)
  {
    hide Inv, Leads, AtRest, MarkedIsCurrent, P.Apply, P.Possible, Enabled;
    CanPoll(s, u, fare);
    t := Steps(s, UserPoll(u));
    SameRest(s, t);
  }

  lemma CanRegister(s: State, u: UserId)
    requires Inv(s) && P.Enabled(s.p, P.Register(u))
    ensures Enabled(s, Register(u)) && u < |s.p.users| && !B.On(s.b, u) && s.p.users[u].creating.Some?
    ensures var i := s.p.users[u].creating.value; i < |s.b.rides| && s.b.rides[i].user == u
  {
    hide Inv, PR.Sound, P.Inv, P.Apply, P.Enabled, B.Inv, K.Inv;
    DesksLong(s);
    SoundIsInv(s.p);
    StepUser(s.p, P.Register(u));
    RegisterEffect(s.p, u);
    AgentIsThere(s, u);
    CreatedBefore(s.p, u);
    OwnersBook(s, s.p.users[u].creating.value, u);
    RegistrarIsIdle(s, u);
    RegisterIsEnabled(s, u);
  }

  lemma CreatedBefore(p: P.State, u: UserId)
    requires P.Enabled(p, P.Register(u))
    ensures u < |p.users| && p.users[u].creating.Some?
  {
  }

  lemma RegisterIsEnabled(s: State, u: UserId)
    requires P.Enabled(s.p, P.Register(u)) && u < |s.p.users| && UserFits(s.p.users[u], AgentOf(s.k, u), CurrentOf(s.b, u))
    requires s.p.users[u].creating.Some?
    requires var i := s.p.users[u].creating.value; i < |s.b.rides| && s.b.rides[i].user == u
    ensures Enabled(s, Register(u))
  {
    hide P.Enabled;
  }

  lemma FollowRegister(s: State, u: UserId) returns (t: State)
    requires Ready(s) && P.Possible(s.p, P.Register(u))
    ensures Leads(s, t) && Ready(t) && Goes(s.p, P.Register(u), t.p)
  {
    hide Inv, Leads, MarkedIsCurrent, P.Apply, P.Enabled, P.Assumed, K.Apply, K.Enabled;
    CanRegister(s, u);
    NoneMarked(s, u);
    t := Steps(s, Register(u));
    StepKeepsMarks(s, t, Register(u));
    TakenIsFree(s, t, u, s.p.users[u].creating.value);
  }

  lemma TakenIsFree(s: State, t: State, u: UserId, i: RideId)
    requires AtRest(s) && t.desks == s.desks && i < |s.b.rides| && s.b.rides[i].progress != B.Marked
    requires t.b.rides == s.b.rides && t.b.current == s.b.current[u := i]
    ensures AtRest(t)
  {
    forall v | 0 <= v < |t.desks|
      ensures Free(t, v)
    {
      assert Free(s, v);
    }
  }

  lemma CanSend(s: State, u: UserId, score: int) returns (d: Desk)
    requires Ready(s) && P.Enabled(s.p, P.Evaluate(u, score))
    ensures u < |s.p.users| == |s.desks| && d.Posting? && d.bill.score == score
    ensures Next(s, Evaluate(u, score), SetDesk(s, u, d))
  {
    hide Inv, Leads, MarkedIsCurrent, PR.Sound, P.Inv, P.Enabled, C.RideFare, W.EvaluationAccepted, P.Timed, K.Inv, B.Inv;
    DesksLong(s);
    SoundIsInv(s.p);
    StepUser(s.p, P.Evaluate(u, score));
    EvaluationIsAccepted(s.p, u, score);
    CurrentRide(s, u);
    assert Free(s, u);
    var i := s.p.users[u].request.value;
    d := Posting(Bill(i, score, C.RideFare(s.k.t, s.k.t.rides[i])), 0);
  }

  lemma FollowEvaluate(s: State, u: UserId, score: int) returns (t: State)
    requires Ready(s) && P.Possible(s.p, P.Evaluate(u, score))
    ensures Leads(s, t) && Ready(t) && Goes(s.p, P.Evaluate(u, score), t.p)
  {
    hide Inv, Leads, MarkedIsCurrent, P.Apply, P.Enabled, P.Assumed, SameDesks, Free, AtRest, Enabled, K.Apply, B.Apply;
    var d := CanSend(s, u, score);
    var n := Steps(s, Evaluate(u, score));
    SameBooks(s, n, u, d);
    var m := PostsDesk(n, u);
    t := CommitsDesk(m, u);
    LeadsFurther(s, n, m);
    LeadsFurther(s, m, t);
    LeadsKeepMarks(s, t);
    SameOn(s, n, m, u);
    SameOn(s, m, t, u);
    SameLengths(s, t, u);
    CommittedIsFree(s, t, u, score);
    RestsAgain(s, t, u);
  }

  lemma SameBooks(s: State, n: State, u: UserId, d: Desk)
    requires u < |s.desks| && n == SetDesk(s, u, d)
    ensures SameDesks(s, n, u) && |n.desks| == |s.desks| && n.desks[u] == d
  {
    OthersStayFree(s, n, u, d);
  }

  lemma SameLengths(s: State, t: State, u: UserId)
    requires SameDesks(s, t, u)
    ensures |t.desks| == |s.desks|
  {
  }

  lemma RestsAgain(s: State, t: State, u: UserId)
    requires AtRest(s) && SameDesks(s, t, u) && Free(t, u)
    ensures AtRest(t)
  {
    hide Free;
    forall v | 0 <= v < |t.desks|
      ensures Free(t, v)
    {
      assert v != u ==> Free(s, v);
    }
  }

  lemma CommittedIsFree(s: State, t: State, u: UserId, score: int)
    requires Inv(s) && Inv(t) && Goes(s.p, P.Evaluate(u, score), t.p)
    requires u < |t.desks| && t.desks[u].Closed?
    ensures Free(t, u)
  {
    hide Inv, PR.Sound, P.Inv, P.Apply, P.Enabled;
    DesksLong(s);
    SoundIsInv(s.p);
    StepUser(s.p, P.Evaluate(u, score));
    EvaluationIsAccepted(s.p, u, score);
    CommitEffect(s.p, u, score);
    CurrentRide(t, u);
  }

  /** What the answer to the evaluation changes. */
  lemma DoneEffect(p: P.State, p': P.State, u: UserId)
    requires Goes(p, P.EvaluateDone(u), p')
    ensures u < |p.users| && P.Rides(p') == P.Rides(p) && p'.chairs == p.chairs
  {
  }

  lemma FollowDone(s: State, u: UserId) returns (t: State)
    requires Ready(s) && P.Possible(s.p, P.EvaluateDone(u))
    ensures Leads(s, t) && Ready(t) && Goes(s.p, P.EvaluateDone(u), t.p)
  {
    hide Inv, Leads, MarkedIsCurrent, PR.Sound, P.Inv, P.Apply, P.Enabled, P.Assumed, SameDesks, B.Inv, K.Inv;
    DesksLong(s);
    SystemLedger.EvaluatedIsPaid(s, u);
    var n := Steps(s, EvaluateDone(u));
    DoneEffect(s.p, n.p, u);
    CurrentOnBooks(s, u);
    OthersStayUnmarked(s, n, u);
    assert Free(s, u);
    t := BooksRide(n, u);
    LeadsFurther(s, n, t);
    LeadsKeepMarks(s, t);
    SameOn(s, n, t, u);
    RestsAgain(s, t, u);
  }

  lemma CurrentOnBooks(s: State, u: UserId)
    requires Inv(s) && u < |s.p.users| && B.On(s.b, u)
    ensures s.b.rides[s.b.current[u]].user == u
  {
    hide Inv;
    DesksLong(s);
    CurrentOfUser(s, u);
    CurrentRide(s, u);
  }

  lemma OthersStayUnmarked(s: State, t: State, u: UserId)
    requires Inv(s) && u < |s.desks| == |s.p.users| && B.On(s.b, u) && t.desks == s.desks
    requires t.b.current == s.b.current && s.b.rides[s.b.current[u]].user == u
    requires t.b.rides == s.b.rides[s.b.current[u] := s.b.rides[s.b.current[u]].(progress := B.Marked)]
    requires |Rides(t)| == |Rides(s)| && |t.p.chairs| == |s.p.chairs|
    ensures SameDesks(s, t, u)
  {
    hide Inv;
    forall v | 0 <= v < |s.desks| && v != u && Free(s, v)
      ensures Free(t, v)
    {
      if B.On(s.b, v) {
        CurrentOnBooks(s, v);
      }
    }
  }

  lemma FollowClose(s: State, u: UserId) returns (t: State)
    requires Ready(s) && P.Possible(s.p, P.Close(u))
    ensures Leads(s, t) && Ready(t) && Goes(s.p, P.Close(u), t.p)
  {
    hide Inv, Leads, MarkedIsCurrent, PR.Sound, P.Inv, P.Apply, P.Enabled, P.Assumed, K.Inv, B.Inv;
    DesksLong(s);
    StepUser(s.p, P.Close(u));
    assert Free(s, u);
    t := Steps(s, Close(u));
    StepKeepsMarks(s, t, Close(u));
    LeftIsFree(s, t, u);
  }

  lemma LeftIsFree(s: State, t: State, u: UserId)
    requires AtRest(s) && t.desks == s.desks && t.b == B.Apply(s.b, B.Leave(u))
    ensures AtRest(t)
  {
    forall v | 0 <= v < |t.desks|
      ensures Free(t, v)
    {
      assert Free(s, v);
    }
  }

  lemma Follow(s: State, step: P.Step) returns (t: State)
    requires Ready(s) && P.Possible(s.p, step) && PC.Serves(step)
    ensures Leads(s, t) && Ready(t) && Goes(s.p, step, t.p)
  {
    hide Ready, Leads, P.Possible, P.Apply;
    match step
    case UserPoll(u, fare) => t := FollowPoll(s, u, fare);
    case Register(u) => t := FollowRegister(s, u);
    case Evaluate(u, score) => t := FollowEvaluate(s, u, score);
    case EvaluateDone(u) => t := FollowDone(s, u);
    case Close(u) => t := FollowClose(s, u);
    case _ => t := FollowInternal(s, step);
  }

  lemma {:induction false} FollowRun(s: State, steps: seq<P.Step>) returns (t: State)
    requires Ready(s) && P.IsRun(s.p, steps) && (forall k | 0 <= k < |steps| :: PC.Serves(steps[k]))
    ensures Leads(s, t) && Ready(t) && t.p == P.After(s.p, steps)
    decreases |steps|
  {
    hide Ready, Leads, P.Enabled, P.Assumed, P.Apply, PC.Serves;
    if steps == [] {
      t := s;
      LeadsTo(s);
    } else {
      var n := Follow(s, steps[0]);
      t := FollowRun(n, steps[1..]);
      LeadsFurther(s, n, t);
    }
  }

  // ---- Every ride --------------------------------------------------------------------

  ghost predicate Paid(t: State, i: RideId) {
    && i < |t.p.reqs| && i < |t.b.rides|
    && t.p.reqs[i].st.desired == t.p.reqs[i].st.user == Completed && t.b.rides[i].progress == B.Settled
  }

  lemma EveryRideFrom(s: State, i: RideId) returns (t: State)
    requires Inv(s) && MarkedIsCurrent(s.b) && i < |Rides(s)| && |s.p.chairs| > 0
    ensures Leads(s, t) && Paid(t, i)
  {
    hide Inv, Leads, MarkedIsCurrent, AtRest, PR.Sound, P.Inv, P.IsRun, P.After, PC.Serves, PC.Onward;
    var n := Rests(s, 0);
    LeadsKeepMarks(s, n);
    DesksLong(n);
    var p := PC.EveryRideFrom(n.p, i);
    var steps :| P.IsRun(n.p, steps) && (forall k | 0 <= k < |steps| :: PC.Serves(steps[k])) && p == P.After(n.p, steps);
    t := FollowRun(n, steps);
    LeadsFurther(s, n, t);
    CompletedIsBooked(t, i);
  }

  lemma ReachableIsMarked(s: State)
    requires Reachable(s)
    ensures Inv(s) && MarkedIsCurrent(s.b)
  {
    hide Inv, Enabled, Apply, IsRun, After;
    ReachableFits(s);
    var users: nat, homes: seq<Coord>, owners: seq<nat>, steps :|
      |owners| == |homes| && IsRun(Start(users, homes, owners), steps) &&
      s == After(Start(users, homes, owners), steps);
    StartFits(users, homes, owners);
    RunKeepsMarks(Start(users, homes, owners), steps);
  }

  /** From every reachable state with a chair, every ride can be completed for its user, paid
      and booked. */
  lemma EveryRideCanBePaid(s: State, i: RideId)
    requires Reachable(s) && i < |Rides(s)| && |s.p.chairs| > 0
    ensures exists t: State :: Leads(s, t) && Paid(t, i)
  {
    hide Inv, Reachable, Leads, MarkedIsCurrent, Paid;
    ReachableIsMarked(s);
    var t := EveryRideFrom(s, i);
  }

  lemma CompletedIsBooked(s: State, i: RideId)
    requires Ready(s) && i < |s.p.reqs| && s.p.reqs[i].st.desired == Completed
    ensures i < |s.b.rides| && s.b.rides[i].progress == B.Settled
  {
    hide Inv, PR.Sound, P.Inv;
    DesksLong(s);
    ProgressOf(s, i);
    assert Free(s, s.b.rides[i].user);
  }

  lemma ProgressOf(s: State, i: RideId)
    requires Inv(s) && i < |s.p.reqs|
    ensures i < |s.b.rides| && i < |Rides(s)| && s.b.rides[i].user < |s.desks|
    ensures ProgressFits(i, s.b.rides[i].progress, s.p.reqs[i], DeskOf(s.desks, s.b.rides[i].user))
  {
    hide PR.Sound, P.Inv, K.Inv, B.Inv, AccountsFit;
    assert RideFits(i, Rides(s)[i], s.p.reqs[i], s.k.t.rides[i], s.b.rides[i], s.k.planned);
    assert ProgressFits(i, s.b.rides[i].progress, s.p.reqs[i], DeskOf(s.desks, Rides(s)[i].user));
    SoundIsInv(s.p);
    PR.UserExists(s.p, i);
  }

  // ---- Such rides exist --------------------------------------------------------------

  /** A user that has registered and planned a ride. */
  lemma APlan() returns (s0: State, s: State)
    ensures s0 == Start(1, [Coord(0, 0)], [0]) && Leads(s0, s) && Inv(s)
    ensures s.p.m == M.Start() && |s.p.users| == |s.p.chairs| == 1 && s.p.users[0].planned.Some?
    ensures s.p.users[0].creating.None? && s.p.users[0].request.None?
    ensures 0 in s.k.agents && s.k.agents[0].phase == K.Chosen(K.Plan(Coord(1, 0), Coord(2, 0), 3000, false))
    ensures s.k.t.rides == [] && s.k.planned == map[] && s.p.reqs == []
  {
    hide Inv, Leads;
    s0 := Start(1, [Coord(0, 0)], [0]);
    StartFits(1, [Coord(0, 0)], [0]);
    var s1 := Steps(s0, SignUp(K.Register(0, 0)));
    var s2 := Steps(s1, RegisterPayment(0));
    var s3 := Steps(s2, Internal(P.Tick));
    s := Steps(s3, Plan(0, Coord(1, 0), Coord(2, 0)));
    LeadsFurther(s0, s1, s2);
    LeadsFurther(s0, s2, s3);
    LeadsFurther(s0, s3, s);
  }

  /** It gets an estimate. */
  lemma AnEstimate() returns (s0: State, s: State)
    ensures s0 == Start(1, [Coord(0, 0)], [0]) && Leads(s0, s) && Inv(s)
    ensures s.p.m == M.Start() && |s.p.users| == |s.p.chairs| == 1 && s.p.users[0].planned.Some?
    ensures s.p.users[0].creating.None? && s.p.users[0].request.None?
    ensures 0 in s.k.agents && s.k.agents[0].phase == K.Estimated(K.Plan(Coord(1, 0), Coord(2, 0), 3000, false))
    ensures s.k.t.rides == [] && s.k.planned == map[]
  {
    hide Inv, Leads, P.Apply, C.EstimatedFare, F.Fare, F.CalculateFare, F.ActualDiscount;
    var s1;
    s0, s1 := APlan();
    s := Steps(s1, Estimate(0));
    LeadsFurther(s0, s1, s);
  }

  /** It asks for the ride. */
  lemma ARequest() returns (s0: State, s: State)
    ensures s0 == Start(1, [Coord(0, 0)], [0]) && Leads(s0, s) && |Rides(s)| == |s.p.chairs| == 1
  {
    hide Inv, Leads, K.Apply, B.Apply, Y.Post;
    var s1;
    s0, s1 := AnEstimate();
    s := Steps(s1, Create(0));
    LeadsFurther(s0, s1, s);
  }

  /** There is a run, from the empty system, in which a ride is asked for, driven, paid and
      booked. */
  lemma ARideIsPaid()
    ensures exists t: State :: Reachable(t) && Paid(t, 0)
  {
    hide Inv, Leads, Paid, IsRun, After, MarkedIsCurrent;
    var s0, s := ARequest();
    LeadsReach(s0, s);
    EveryRideCanBePaid(s, 0);
    var t: State :| Leads(s, t) && Paid(t, 0);
    LeadsFurther(s0, s, t);
    LeadsReach(s0, t);
  }

  lemma LeadsReach(s0: State, s: State)
    requires s0 == Start(1, [Coord(0, 0)], [0]) && Leads(s0, s)
    ensures Reachable(s)
  {
    hide IsRun, After;
    var steps :| IsRun(s0, steps) && s == After(s0, steps);
    assert |[0]| == |[Coord(0, 0)]|;
  }
}
