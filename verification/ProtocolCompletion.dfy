/** In every reachable state, every ride can still be completed, whether it has a chair or not;
    and one run in which a notification comes at the wrong moment. */
module ProtocolCompletion {
  import opened Grid
  import opened Wrappers
  import opened RideStatus
  import opened Deliveries
  import opened Protocol
  import opened ProtocolFrames
  import opened ProtocolRuns
  import opened ProtocolProgress
  import ProtocolUsers
  import ProtocolChairs
  import A = Agents
  import M = Matching
  import W = WebApp

  // ---- Serving rides -----------------------------------------------------------------

  /** A step that asks for no ride. */
  predicate Serves(step: Step) {
    Quiet(step) || step.Matcher?
  }

  /** A run in which no ride is asked for leads from s to t. */
  ghost predicate Serving(s: State, t: State) {
    exists steps: seq<Step> :: IsRun(s, steps) && (forall k | 0 <= k < |steps| :: Serves(steps[k])) && t == After(s, steps)
  }

  lemma ServingLeads(s: State, t: State)
    requires Serving(s, t)
    ensures Leads(s, t)
  {
  }

  lemma ServingTo(s: State)
    ensures Serving(s, s)
  {
    assert IsRun(s, []) && After(s, []) == s;
  }

  lemma StepServes(s: State, step: Step)
    requires Possible(s, step) && Serves(step)
    ensures Serving(s, Apply(s, step))
  {
    hide Enabled, Assumed, Apply;
    assert [step][1..] == [];
    assert IsRun(Apply(s, step), []);
    assert IsRun(s, [step]) && After(s, [step]) == Apply(s, step);
  }

  lemma ServingFurther(s: State, t: State, v: State)
    requires Serving(s, t) && Serving(t, v)
    ensures Serving(s, v)
  {
    hide IsRun, After, Serves;
    var a :| IsRun(s, a) && (forall k | 0 <= k < |a| :: Serves(a[k])) && t == After(s, a);
    var b :| IsRun(t, b) && (forall k | 0 <= k < |b| :: Serves(b[k])) && v == After(t, b);
    RunConcat(s, a, b);
    assert IsRun(s, a + b) && v == After(s, a + b);
  }

  // ---- What steps keep ---------------------------------------------------------------

  /** No ride is asked for, and no ride loses its chair. */
  ghost predicate Onward(s: State, t: State) {
    && |Rides(t)| == |Rides(s)| && |t.chairs| == |s.chairs| && |t.users| == |s.users|
    && (forall i | 0 <= i < |Rides(s)| && Rides(s)[i].chair.Some? :: Rides(t)[i].chair.Some?)
    && (forall u | 0 <= u < |s.users| && s.users[u].ready :: t.users[u].ready)
  }

  /** Nor does the matcher do anything. */
  ghost predicate Calm(s: State, t: State) {
    && Onward(s, t) && t.m.matcher == s.m.matcher && t.m.served == s.m.served
    && (forall i | 0 <= i < |Rides(s)| :: Rides(t)[i].chair == Rides(s)[i].chair)
  }

  lemma ServerIsCalm(s: State, q: W.Request)
    requires !q.Assign? && !q.CreateRide?
    ensures var t := Server(s, q);
            && |Rides(t)| == |Rides(s)| && t.m.matcher == s.m.matcher && t.m.served == s.m.served
            && (forall i | 0 <= i < |Rides(s)| :: Rides(t)[i].chair == Rides(s)[i].chair)
  {
  }

  lemma QuietCall(s: State, step: Step)
    requires Enabled(s, step) && Quiet(step)
    ensures CallOf(s, step).Some? ==> !CallOf(s, step).value.Assign? && !CallOf(s, step).value.CreateRide?
  {
    hide W.EvaluationAccepted, W.Latest, Timed;
  }

  lemma StaysReady(s: State, step: Step, u: UserId)
    requires Enabled(s, step) && u < |s.users| == |Apply(s, step).users| && s.users[u].ready
    ensures Apply(s, step).users[u].ready
  {
    hide W.NoContinuingRide, W.EvaluationAccepted, W.Latest, Timed, A.UserReact, A.ChairReact, A.UserValid, W.LatestOfUser,
         M.AfterHandle, NextStatus, NextEvent, A.MindAfter, A.SameData, A.ValidatedAfter, LateOutcome, M.Apply;
  }

  lemma QuietIsCalm(s: State, step: Step)
    requires Enabled(s, step) && Quiet(step)
    ensures Calm(s, Apply(s, step))
  {
    hide Enabled, Apply, CallOf, Server;
    var t := Apply(s, step);
    AgentsCall(s, step);
    QuietCall(s, step);
    if CallOf(s, step).Some? {
      ServerIsCalm(s, CallOf(s, step).value);
    } else {
      assert Rides(t) == Rides(s);
    }
    forall u | 0 <= u < |s.users| && s.users[u].ready
      ensures t.users[u].ready
    {
      StaysReady(s, step, u);
    }
  }

  // ---- A ride with a chair -----------------------------------------------------------

  lemma {:induction false} CompletionFrom(s: State, i: RideId, c: ChairId, u: UserId) returns (t: State)
    requires Sound(s) && Assigned(s, i, c, u)
    ensures Serving(s, t) && Calm(s, t) && Sound(t) && i < |t.reqs| && Past(t.reqs[i])
    decreases Work(s, i, c, u)
  {
    hide Inv, ChairsKnown, Past, Apply, Enabled, Assumed, Serving;
    if Past(s.reqs[i]) {
      t := s;
      ServingTo(s);
    } else {
      var step := SomeStepHelps(s, i, c, u);
      var n := Apply(s, step);
      StepKeepsInv(s, step);
      WorkIsLeft(s, i, c, u);
      WorkIsLeft(n, i, c, u);
      t := CompletionFrom(n, i, c, u);
      QuietIsCalm(s, step);
      StepServes(s, step);
      ServingFurther(s, n, t);
    }
  }

  // ---- Freeing a chair ---------------------------------------------------------------

  lemma {:induction false} SendsAll(s: State, i: RideId, c: ChairId) returns (t: State)
    requires Sound(s) && i < |Rides(s)| && c < |s.chairs| && W.LatestOfChair(Rides(s), c) == Some(i)
    requires |Rides(s)[i].log| == 6 && |Dedup(Rides(s)[i].chairSeen)| <= 6
    requires M.Served(s.m, c) != [] && M.Served(s.m, c)[|M.Served(s.m, c)| - 1] == i
    ensures Serving(s, t) && Calm(s, t) && Sound(t)
    ensures |Rides(t)[i].log| == 6 && |Dedup(Rides(t)[i].chairSeen)| == 6
    decreases 6 - |Dedup(Rides(s)[i].chairSeen)|
  {
    hide Inv, ChairsKnown, Apply, Serving, W.LatestOfChair, W.Notified, W.RideOk, M.SixPrefix, RideFits, Calm, Server;
    if |Dedup(Rides(s)[i].chairSeen)| == 6 {
      t := s;
      ServingTo(s);
      CalmItself(s);
    } else {
      var n := Apply(s, ChairPoll(c));
      PollEffect(s, c, i);
      RideAt(s, i);
      PollAdvances(Rides(s)[i], W.Chair);
      StepKeepsInv(s, ChairPoll(c));
      QuietIsCalm(s, ChairPoll(c));
      ServedStays(s, n, c);
      ServedIsLatest(n, c);
      CalmRides(s, n);
      t := SendsAll(n, i, c);
      StepServes(s, ChairPoll(c));
      ServingFurther(s, n, t);
      CalmOn(s, n, t);
    }
  }

  lemma PollEffect(s: State, c: ChairId, i: RideId)
    requires c < |s.chairs| && W.LatestOfChair(Rides(s), c) == Some(i)
    ensures Rides(Apply(s, ChairPoll(c))) == Rides(s)[i := W.Notified(Rides(s)[i], W.Chair)]
  {
    hide W.LatestOfChair, W.Notified;
    ServerEffect(s, W.ChairPoll(c), i);
  }

  lemma CalmItself(s: State)
    ensures Calm(s, s)
  {
  }

  lemma CalmOn(s: State, n: State, t: State)
    requires Calm(s, n) && Calm(n, t)
    ensures Calm(s, t)
  {
  }

  lemma OnwardOn(s: State, n: State, t: State)
    requires Onward(s, n) && Onward(n, t)
    ensures Onward(s, t)
  {
  }

  lemma ServedStays(s: State, t: State, c: ChairId)
    requires Calm(s, t)
    ensures M.Served(t.m, c) == M.Served(s.m, c)
  {
  }

  lemma ServedIsLatest(s: State, c: ChairId)
    requires Sound(s)
    ensures var served := M.Served(s.m, c);
            W.LatestOfChair(Rides(s), c) == if served == [] then None else Some(served[|served| - 1])
  {
    hide Inv, ChairsKnown, M.ServedFit;
    ProtocolChairs.ServedOf(s, c);
    M.LatestIsLast(Rides(s), M.Served(s.m, c), c);
  }

  /** A chair whose last ride has been sent completely is free. */
  lemma FreeIfLastSent(s: State, c: ChairId)
    requires Sound(s)
    requires var served := M.Served(s.m, c);
             served != [] ==>
               served[|served| - 1] < |Rides(s)| && |Rides(s)[served[|served| - 1]].log| == 6 &&
               |Dedup(Rides(s)[served[|served| - 1]].chairSeen)| == 6
    ensures M.ChairFree(Rides(s), c)
  {
    hide Inv, ChairsKnown, W.RideOk, M.SixPrefix, M.SentCount;
    var served := M.Served(s.m, c);
    ProtocolChairs.ServedOf(s, c);
    forall j | 0 <= j < |Rides(s)| && Rides(s)[j].chair == Some(c)
      ensures M.SentCount(Rides(s)[j].log) == 6
    {
      assert j in served;
      RideAt(s, j);
      if j == served[|served| - 1] {
        AllSentIsClosed(Rides(s)[j]);
      }
      M.CountMeansClosed(Rides(s)[j]);
    }
  }

  lemma AllSentIsClosed(r: W.Ride)
    requires W.RideOk(r) && |r.log| == 6 && |Dedup(r.chairSeen)| == 6
    ensures M.Closed(r.log)
  {
    assert r.Seen(W.Chair) == r.chairSeen;
  }

  /** Every chair can get free. */
  lemma FreesChair(s: State, c: ChairId) returns (t: State)
    requires Sound(s) && c < |s.chairs|
    ensures Serving(s, t) && Calm(s, t) && Sound(t) && M.ChairFree(Rides(t), c)
  {
    hide Inv, ChairsKnown, Serving, Calm, M.ChairFree, M.ServedFit, Past, W.LatestOfChair;
    var served := M.Served(s.m, c);
    if served == [] {
      t := s;
      ServingTo(s);
      CalmItself(s);
    } else {
      var i := served[|served| - 1];
      LastServed(s, c);
      var n := CompletionFrom(s, i, c, Rides(s)[i].user);
      SameLength(n);
      CalmRides(s, n);
      ServedStays(s, n, c);
      ServedIsLatest(n, c);
      CompletedLog(n, i);
      t := SendsAll(n, i, c);
      CalmRides(n, t);
      ServedStays(n, t, c);
      ServingFurther(s, n, t);
      CalmOn(s, n, t);
    }
    FreeIfLastSent(t, c);
  }

  lemma CalmRides(s: State, t: State)
    requires Calm(s, t)
    ensures |Rides(t)| == |Rides(s)| && |t.chairs| == |s.chairs|
  {
  }

  lemma LastServed(s: State, c: ChairId)
    requires Sound(s) && c < |s.chairs| && M.Served(s.m, c) != []
    ensures var i := M.Served(s.m, c)[|M.Served(s.m, c)| - 1];
            i < |Rides(s)| && Assigned(s, i, c, Rides(s)[i].user)
  {
    hide Inv, ChairsKnown;
    var served := M.Served(s.m, c);
    ProtocolChairs.ServedOf(s, c);
    assert served[|served| - 1] in served;
    SameLength(s);
    UserExists(s, served[|served| - 1]);
  }

  lemma CompletedLog(s: State, i: RideId)
    requires Sound(s) && i < |Rides(s)| == |s.reqs| && Past(s.reqs[i])
    ensures |Rides(s)[i].log| == 6 && |Dedup(Rides(s)[i].chairSeen)| <= 6
  {
    hide Inv, ChairsKnown;
    ProtocolUsers.PastIsCompleted(s, i);
    LogBoundsHere(s, i);
  }

  // ---- The matcher -------------------------------------------------------------------

  lemma MatcherStep(s: State, m: M.Step) returns (t: State)
    requires Sound(s) && M.Enabled(s.m, m) && !m.Handle? && (m.Draw? ==> m.chair < |s.chairs|)
    ensures t == s.(m := M.Apply(s.m, m)) && Serving(s, t) && Sound(t) && Onward(s, t)
  {
    hide Inv, ChairsKnown, Serving, M.ChairFree, M.FirstUnassigned;
    t := Apply(s, Matcher(m));
    StepKeepsInv(s, Matcher(m));
    StepServes(s, Matcher(m));
    if !m.Update? {
      assert Rides(t) == Rides(s);
    }
  }

  /** The matcher can always come back to its start. */
  lemma MatcherRests(s: State) returns (t: State)
    requires Sound(s)
    ensures Serving(s, t) && Sound(t) && Onward(s, t) && t.m.matcher.Idle?
    decreases match s.m.matcher case Idle => 0 case Trying(_, _) => 1 case Found(_, _) => 1 case Drawn(_, _, _) => 2
  {
    hide Inv, ChairsKnown, Serving, M.ChairFree, Onward;
    if s.m.matcher.Idle? {
      t := s;
      ServingTo(s);
      OnwardItself(s);
    } else {
      var n := MatcherStep(s, match s.m.matcher case Trying(_, _) => M.NoChair case Drawn(_, _, _) => M.Gate
                              case _ => M.Update);
      t := MatcherRests(n);
      ServingFurther(s, n, t);
      OnwardOn(s, n, t);
    }
  }

  lemma OnwardItself(s: State)
    ensures Onward(s, s)
  {
  }

  /** A free chair can be given to the oldest ride without one. */
  lemma Matches(s: State, j: RideId, c: ChairId) returns (t: State)
    requires Sound(s) && c < |s.chairs| && s.m.matcher.Idle? && M.ChairFree(Rides(s), c)
    requires M.FirstUnassigned(Rides(s)) == Some(j)
    ensures Serving(s, t) && Sound(t) && Onward(s, t) && j < |Rides(t)| && Rides(t)[j].chair.Some?
  {
    hide Inv, ChairsKnown, Serving, M.ChairFree, M.FirstUnassigned, Onward;
    var s1 := MatcherStep(s, M.Pick);
    var s2 := MatcherStep(s1, M.Draw(c));
    var s3 := MatcherStep(s2, M.Gate);
    t := MatcherStep(s3, M.Update);
    ServingFurther(s, s1, s2);
    ServingFurther(s, s2, s3);
    ServingFurther(s, s3, t);
    OnwardOn(s, s1, s2);
    OnwardOn(s, s2, s3);
    OnwardOn(s, s3, t);
    assert Rides(s3) == Rides(s);
  }

  // ---- Every ride --------------------------------------------------------------------

  /** How many of the first n rides wait for a chair. */
  ghost function Waiting(rides: seq<W.Ride>, n: nat): nat
    requires n <= |rides|
  {
    if n == 0 then 0 else Waiting(rides, n - 1) + if rides[n - 1].chair.None? then 1 else 0
  }

  lemma {:induction false} FewerWait(s: State, t: State, n: nat)
    requires Onward(s, t) && n <= |Rides(s)|
    ensures Waiting(Rides(t), n) <= Waiting(Rides(s), n)
    ensures (exists j | 0 <= j < n :: Rides(s)[j].chair.None? && Rides(t)[j].chair.Some?) ==>
              Waiting(Rides(t), n) < Waiting(Rides(s), n)
  {
    if n > 0 {
      FewerWait(s, t, n - 1);
    }
  }

  lemma {:induction false} EveryRideFrom(s: State, i: RideId) returns (t: State)
    requires Sound(s) && i < |Rides(s)| && |s.chairs| > 0
    ensures Serving(s, t) && Onward(s, t) && Sound(t) && i < |t.reqs| && Past(t.reqs[i])
    decreases Waiting(Rides(s), i + 1)
  {
    hide Inv, ChairsKnown, Serving, Onward, Calm, Past, M.ChairFree, M.FirstUnassigned;
    if Rides(s)[i].chair.Some? {
      AssignedHere(s, i);
      t := CompletionFrom(s, i, Rides(s)[i].chair.value, Rides(s)[i].user);
      CalmIsOnward(s, t);
    } else {
      var s1 := MatcherRests(s);
      OnwardRides(s, s1);
      var s2 := FreesChair(s1, 0);
      CalmIsOnward(s1, s2);
      OnwardOn(s, s1, s2);
      ServingFurther(s, s1, s2);
      var n := s2;
      OnwardRides(s, s2);
      if Rides(s2)[i].chair.None? {
        var j := OldestWaits(Rides(s2), i);
        n := Matches(s2, j, 0);
        OnwardWaits(s, s2, j);
        OnwardOn(s, s2, n);
        ServingFurther(s, s2, n);
        FewerWait(s, n, i + 1);
      } else {
        FewerWait(s, n, i + 1);
      }
      OnwardRides(s, n);
      t := EveryRideFrom(n, i);
      OnwardOn(s, n, t);
      ServingFurther(s, n, t);
    }
  }

  lemma AssignedHere(s: State, i: RideId)
    requires Sound(s) && i < |Rides(s)| && Rides(s)[i].chair.Some?
    ensures Assigned(s, i, Rides(s)[i].chair.value, Rides(s)[i].user)
  {
    hide Inv;
    SameLength(s);
    UserExists(s, i);
  }

  lemma CalmIsOnward(s: State, t: State)
    requires Calm(s, t)
    ensures Onward(s, t)
    ensures t.m.matcher == s.m.matcher
  {
  }

  lemma OnwardRides(s: State, t: State)
    requires Onward(s, t)
    ensures |Rides(t)| == |Rides(s)| && |t.chairs| == |s.chairs| && |t.users| == |s.users|
  {
  }

  lemma OnwardWaits(s: State, t: State, j: RideId)
    requires Onward(s, t) && j < |Rides(t)| && Rides(t)[j].chair.None?
    ensures Rides(s)[j].chair.None?
  {
  }

  lemma OldestWaits(rides: seq<W.Ride>, i: RideId) returns (j: RideId)
    requires i < |rides| && rides[i].chair.None?
    ensures j <= i && M.FirstUnassigned(rides) == Some(j) && rides[j].chair.None?
  {
    j := M.FirstUnassigned(rides).value;
  }

  /** The protocol never gets stuck: from every reachable state with a chair, every ride can be
      brought to its end, with the evaluation accepted and COMPLETED handled by the user. */
  lemma EveryRideCanBeCompleted(s: State, i: RideId)
    requires Reachable(s) && i < |Rides(s)| && |s.chairs| > 0
    ensures exists t: State ::
              && Leads(s, t) && i < |t.reqs|
              && t.reqs[i].st.desired == t.reqs[i].st.user == Completed
  {
    hide Sound, Serving, Leads, Reachable, Onward;
    ReachableFits(s);
    var t := EveryRideFrom(s, i);
    ServingLeads(s, t);
  }

  // ---- Such rides exist --------------------------------------------------------------

  /** One user that has planned a ride, one chair. */
  lemma APlan() returns (s: State)
    ensures Reachable(s) && |s.users| == |s.chairs| == 1 && s.users[0].ready
    ensures s.m == M.Start() && s.users[0].planned.Some? && s.users[0].creating.None? && s.users[0].request.None?
  {
    var s0 := Start(1, [Coord(0, 0)]);
    StepLeads(s0, RegisterPayment(0));
    var s1 := Apply(s0, RegisterPayment(0));
    LeadsOn(s0, s1, Tick);
    var s2 := Apply(s1, Tick);
    LeadsOn(s0, s2, Plan(0));
    s := Apply(s2, Plan(0));
  }

  /** It asks for the ride. */
  lemma ARequestedRide() returns (s: State)
    ensures Reachable(s) && |Rides(s)| == |s.chairs| == |s.users| == 1 && s.users[0].ready
  {
    hide Reachable, Leads;
    var s0 := APlan();
    var step := Create(0, A.Trip(Coord(1, 0), Coord(2, 0), 500));
    StepLeads(s0, step);
    s := Apply(s0, step);
    ReachesFurther(s0, s);
  }

  /** There is a run, from the empty server, in which a ride is asked for, matched, driven,
      paid and completed on both sides. */
  lemma ARideIsCompleted()
    ensures exists s: State :: Reachable(s) && |s.reqs| > 0 && s.reqs[0].st.desired == s.reqs[0].st.user == Completed
  {
    hide Inv, Reachable, Leads;
    var s := ARequestedRide();
    EveryRideCanBeCompleted(s, 0);
    var t: State :| Leads(s, t) && 0 < |t.reqs| && t.reqs[0].st.desired == t.reqs[0].st.user == Completed;
    ReachesFurther(s, t);
  }

  // ---- A COMPLETED at the wrong moment -----------------------------------------------

  /** What no step changes. */
  ghost predicate Kept(s: State, t: State) {
    && |Rides(s)| <= |Rides(t)| && |s.reqs| <= |t.reqs|
    && (forall i | 0 <= i < |Rides(s)| :: Rides(t)[i].user == Rides(s)[i].user)
    && (forall i | 0 <= i < |s.reqs| :: t.reqs[i].trip == s.reqs[i].trip)
  }

  lemma ServerKeepsUsers(s: State, q: W.Request)
    ensures var t := Server(s, q);
            |Rides(s)| <= |Rides(t)| && forall i | 0 <= i < |Rides(s)| :: Rides(t)[i].user == Rides(s)[i].user
  {
  }

  /** A step changes no trip, and only the answer to an evaluation makes a ride expected to be
      completed. */
  ghost predicate Requests(s: State, step: Step, t: State) {
    && |s.reqs| <= |t.reqs|
    && (forall i | 0 <= i < |s.reqs| :: t.reqs[i].trip == s.reqs[i].trip)
    && (forall i | 0 <= i < |s.reqs| && s.reqs[i].st.desired != Completed && t.reqs[i].st.desired == Completed ::
          step.EvaluateDone? && step.u < |s.users| && s.users[step.u].request == Some(i))
  }

  lemma UserOnRequests(s: State, step: Step)
    requires Enabled(s, step)
    ensures Requests(s, step, UserStep(s, step))
  {
    hide W.NoContinuingRide, W.EvaluationAccepted, Timed, A.UserReact, A.UserValid, W.LatestOfUser, M.AfterHandle,
         NextStatus, A.ValidatedAfter, LateOutcome;
  }

  lemma ChairOnRequests(s: State, step: Step)
    requires Enabled(s, step)
    ensures Requests(s, step, ChairStep(s, step))
  {
    hide W.Latest, A.ChairReact, M.AfterHandle, NextEvent, A.MindAfter, A.SameData;
  }

  lemma StepOnRequests(s: State, step: Step)
    requires Enabled(s, step)
    ensures Requests(s, step, Apply(s, step))
  {
    hide Enabled, UserStep, ChairStep, M.Apply;
    UserOnRequests(s, step);
    ChairOnRequests(s, step);
  }

  lemma StepKeeps(s: State, step: Step)
    requires Enabled(s, step)
    ensures Kept(s, Apply(s, step))
  {
    hide Enabled, Apply, CallOf, Server;
    StepOnRequests(s, step);
    if step.Matcher? {
      MatcherKeepsUsers(s, step);
    } else {
      AgentsCall(s, step);
      if CallOf(s, step).Some? {
        ServerKeepsUsers(s, CallOf(s, step).value);
      } else {
        assert Rides(Apply(s, step)) == Rides(s);
      }
    }
  }

  lemma MatcherKeepsUsers(s: State, step: Step)
    requires step.Matcher? && Enabled(s, step)
    ensures var t := Apply(s, step);
            |Rides(s)| <= |Rides(t)| && forall i | 0 <= i < |Rides(s)| :: Rides(t)[i].user == Rides(s)[i].user
  {
    hide M.ChairFree, M.FirstUnassigned;
  }

  lemma KeptOn(s: State, n: State, t: State)
    requires Kept(s, n) && Kept(n, t)
    ensures Kept(s, t)
  {
  }

  predicate Expected(s: State, i: RideId) {
    i < |s.reqs| && s.reqs[i].st.desired == Completed
  }

  /** On the way to a completed ride there is the answer to its evaluation. */
  lemma {:induction false} AnswerComes(s: State, steps: seq<Step>, i: RideId) returns (n: State, u: UserId)
    requires Sound(s) && IsRun(s, steps) && i < |s.reqs| && !Expected(s, i) && Expected(After(s, steps), i)
    ensures Leads(s, n) && Sound(n) && Kept(s, n) && Possible(n, EvaluateDone(u)) && n.users[u].request == Some(i)
    decreases |steps|
  {
    hide Inv, ChairsKnown, Enabled, Assumed, Apply, Leads, Kept;
    var t := Apply(s, steps[0]);
    StepKeepsInv(s, steps[0]);
    StepOnRequests(s, steps[0]);
    if Expected(t, i) {
      n, u := s, steps[0].u;
      LeadsTo(s);
      KeptItself(s);
    } else {
      n, u := AnswerComes(t, steps[1..], i);
      StepLeads(s, steps[0]);
      LeadsFurther(s, t, n);
      StepKeeps(s, steps[0]);
      KeptOn(s, t, n);
    }
  }

  lemma AnswerOnTheWay(s: State, t: State, i: RideId) returns (n: State, u: UserId)
    requires Sound(s) && Leads(s, t) && i < |s.reqs| && !Expected(s, i) && Expected(t, i)
    ensures Leads(s, n) && Sound(n) && Kept(s, n) && Possible(n, EvaluateDone(u)) && n.users[u].request == Some(i)
  {
    hide Inv, ChairsKnown, IsRun, After, Kept, Enabled, Assumed;
    var steps :| IsRun(s, steps) && t == After(s, steps);
    n, u := AnswerComes(s, steps, i);
  }

  lemma KeptItself(s: State)
    ensures Kept(s, s)
  {
  }

  /** The moment: the user's current ride j is expected to be completed and has an earlier one. */
  lemma LateIsPossible(s: State, u: UserId, i: RideId, j: RideId)
    requires Sound(s) && u < |s.users| && s.users[u].request == Some(j) && i < j < |Rides(s)| && Rides(s)[i].user == u
    requires Expected(s, j)
    ensures Enabled(s, Late(u, i))
  {
    hide Inv, ChairsKnown, W.RideOk, M.SixPrefix, RideFits;
    SameLength(s);
    UserOf(s, u);
    RideAt(s, i);
    RideAt(s, j);
    CompletedIsQuiet(Rides(s)[j], s.reqs[j], s.time);
    SixIsSeen(Rides(s)[i], s.reqs[i], s.time);
  }

  lemma CompletedIsQuiet(r: W.Ride, q: Req, time: int)
    requires RideFits(r, q, time) && q.st.desired == Completed
    ensures !q.evaluating && q.call != Accepting
  {
  }

  lemma SixIsSeen(r: W.Ride, q: Req, time: int)
    requires RideFits(r, q, time) && W.RideOk(r) && M.SixPrefix(r.log) && Past(q)
    ensures 5 in r.appSeen
  {
    assert r.Seen(W.App) == r.appSeen;
    assert UpTo(|Dedup(r.appSeen)|)[5] == 5;
    DedupIn(r.appSeen, 5);
  }

  /** A user whose ride i is over, and which is the only one, can ask for another one. */
  lemma AsksAgain(s: State, trip: A.Trip) returns (t: State)
    requires Sound(s) && |Rides(s)| == |s.users| == 1 && s.users[0].ready && Past(s.reqs[0]) && trip.pickup != trip.dest
    ensures Leads(s, t) && Sound(t) && |Rides(t)| == 2 && |t.chairs| == |s.chairs|
    ensures |t.reqs| == 2 && Rides(t)[0].user == Rides(t)[1].user
    ensures t.reqs[0].trip == s.reqs[0].trip && t.reqs[1].trip == trip && !Expected(t, 1)
  {
    hide Inv, ChairsKnown, Leads;
    var n := LetsGo(s);
    var m := PlansAgain(n);
    t := Apply(m, Create(0, trip));
    UserOf(m, 0);
    ProtocolUsers.NothingContinues(m, 0);
    UserExists(m, 0);
    SameLength(m);
    StepKeepsInv(m, Create(0, trip));
    LeadsFurther(s, n, m);
    LeadsOn(s, m, Create(0, trip));
  }

  lemma LetsGo(s: State) returns (t: State)
    requires Sound(s) && |Rides(s)| == |s.users| == 1 && s.users[0].ready && Past(s.reqs[0])
    ensures Leads(s, t) && Sound(t) && t == s.(users := t.users) && |t.users| == 1 && t.users[0].ready
    ensures t.users[0].request.None? && t.users[0].creating.None?
  {
    hide Inv, ChairsKnown, Leads, W.RideOk, M.SixPrefix, RideFits;
    SameLength(s);
    UserOf(s, 0);
    RideAt(s, 0);
    CompletedIsQuiet(Rides(s)[0], s.reqs[0], s.time);
    if s.users[0].request.None? {
      t := s;
      LeadsTo(s);
    } else {
      t := Apply(s, Close(0));
      StepKeepsInv(s, Close(0));
      StepLeads(s, Close(0));
    }
  }

  lemma PlansAgain(s: State) returns (t: State)
    requires Sound(s) && |s.users| == 1 && s.users[0].ready && s.users[0].request.None? && s.users[0].creating.None?
    ensures Leads(s, t) && Sound(t) && t == s.(users := t.users, time := t.time) && |t.users| == 1
    ensures t.users[0].request.None? && t.users[0].creating.None? && t.users[0].planned.Some?
  {
    hide Inv, ChairsKnown, Leads;
    UserOf(s, 0);
    if s.users[0].planned.Some? {
      t := s;
      LeadsTo(s);
    } else {
      var n := Apply(s, Tick);
      StepKeepsInv(s, Tick);
      StepLeads(s, Tick);
      t := Apply(n, Plan(0));
      StepKeepsInv(n, Plan(0));
      LeadsOn(s, n, Plan(0));
    }
  }

  /** There is a run, from the empty server, after which a user that handles a COMPLETED of its
      earlier ride reports wrong data. */
  lemma ALateCompletedFails()
    ensures exists s: State, u: UserId, i: RideId ::
              && Reachable(s) && Enabled(s, Late(u, i)) && !s.fault
              && LateOutcome(s, u, i) == A.WrongData && Apply(s, Late(u, i)).fault
  {
    hide Inv, ChairsKnown, Reachable, Leads, Serving, Kept, Onward, LateOutcome, Apply, Enabled, Assumed, IsRun, After;
    var s0 := ARequestedRide();
    ReachableFits(s0);
    var s1 := EveryRideFrom(s0, 0);
    ServingLeads(s0, s1);
    OnwardReady(s0, s1);
    ReachesFurther(s0, s1);
    var trip := A.Trip(Coord(1, 0), Coord(2, 0), s1.reqs[0].trip.fare + 1);
    var s2 := AsksAgain(s1, trip);
    ReachesFurther(s1, s2);
    var s3 := EveryRideFrom(s2, 1);
    ServingLeads(s2, s3);
    var n, u := AnswerOnTheWay(s2, s3, 1);
    ReachesFurther(s2, n);
    Answered(s2, n, u);
  }

  lemma OnwardReady(s: State, t: State)
    requires Onward(s, t)
    ensures |Rides(t)| == |Rides(s)| && |t.chairs| == |s.chairs| && |t.users| == |s.users|
    ensures |s.users| > 0 && s.users[0].ready ==> t.users[0].ready
  {
  }

  lemma Answered(s: State, n: State, u: UserId)
    requires Kept(s, n) && Reachable(n) && |Rides(s)| == |s.reqs| == 2 && Rides(s)[0].user == Rides(s)[1].user
    requires s.reqs[0].trip != s.reqs[1].trip && Possible(n, EvaluateDone(u)) && n.users[u].request == Some(1)
    ensures exists t: State, v: UserId, i: RideId ::
              && Reachable(t) && Enabled(t, Late(v, i)) && !t.fault
              && LateOutcome(t, v, i) == A.WrongData && Apply(t, Late(v, i)).fault
  {
    hide Inv, ChairsKnown, Reachable, Leads, LateOutcome;
    ReachableFits(n);
    UserOf(n, u);
    var t := Apply(n, EvaluateDone(u));
    StepLeads(n, EvaluateDone(u));
    ReachesFurther(n, t);
    ReachableFits(t);
    LateIsPossible(t, u, 0, 1);
    LateOutcomes(t, u, 0);
    UserOf(t, u);
  }
}
