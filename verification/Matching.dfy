/** The matcher, whose statements interleave with every other handler, and what its gate
    guarantees for the notifications of a chair. Chairs accept a ride once: they post ENROUTE
    only on a ride that is still MATCHING. */
module Matching {
  import opened Wrappers
  import opened RideStatus
  import opened Deliveries
  import opened WebApp

  /** Where the matcher is between its statements. */
  datatype Matcher =
    | Idle
    | Trying(ride: RideId, tries: nat)
    | Drawn(ride: RideId, chair: ChairId, tries: nat)
    | Found(ride: RideId, chair: ChairId)

  /** A notification for a chair. */
  datatype Event = Event(ride: RideId, row: nat)

  /** `served` and `heard` record a chair's assignments and notifications. */
  datatype State = State(t: Table, matcher: Matcher, served: map<ChairId, seq<RideId>>, heard: map<ChairId, seq<Event>>)

  datatype Step = Handle(q: Request) | Pick | NoChair | Draw(chair: ChairId) | Gate | Update

  const TRIES: nat := 10

  function Served(s: State, c: ChairId): seq<RideId> {
    if c in s.served then s.served[c] else []
  }

  function Heard(s: State, c: ChairId): seq<Event> {
    if c in s.heard then s.heard[c] else []
  }

  /** The oldest ride without a chair. */
  function FirstUnassigned(rides: seq<Ride>, from: nat := 0): (r: Option<RideId>)
    requires from <= |rides|
    ensures r.Some? ==> from <= r.value < |rides| && rides[r.value].chair.None?
    ensures r.Some? ==> forall i | from <= i < r.value :: rides[i].chair.Some?
    ensures r.None? ==> forall i | from <= i < |rides| :: rides[i].chair.Some?
    decreases |rides| - from
  {
    if from == |rides| then None
    else if rides[from].chair.None? then Some(from)
    else FirstUnassigned(rides, from + 1)
  }

  /** `COUNT(chair_sent_at)`. */
  function SentCount(log: seq<Row>): nat {
    if log == [] then 0
    else SentCount(log[..|log| - 1]) + if log[|log| - 1].chairSent then 1 else 0
  }

  /** The gate: no ride of the chair has a count other than six. */
  predicate ChairFree(rides: seq<Ride>, chair: ChairId) {
    forall i | 0 <= i < |rides| && rides[i].chair == Some(chair) :: SentCount(rides[i].log) == 6
  }

  predicate Allowed(t: Table, q: Request) {
    && !q.Assign?
    && (q.PostStatus? && q.posted.PostEnroute? && q.ride < |t.rides| && t.rides[q.ride].chair == Some(q.chair) ==>
          Latest(t.rides[q.ride].log) == Matching)
  }

  predicate Enabled(s: State, step: Step) {
    match step
    case Handle(q) => Allowed(s.t, q)
    case Pick => s.matcher.Idle?
    case NoChair => s.matcher.Trying?
    case Draw(_) => s.matcher.Trying?
    case Gate => s.matcher.Drawn?
    case Update => s.matcher.Found?
  }

  function AfterHandle(s: State, q: Request): State {
    var s' := s.(t := WebApp.Apply(s.t, q));
    if q.ChairPoll? && Target(s.t, q).Some? then
      var i := Target(s.t, q).value;
      s'.(heard := s.heard[q.chair := Heard(s, q.chair) + [Event(i, NextRowOf(s.t.rides[i]))]])
    else s'
  }

  function NextRowOf(r: Ride): nat {
    if r.log == [] then 0 else NextRow(r.log, Chair)
  }

  function Apply(s: State, step: Step): State
    requires Enabled(s, step)
  {
    match step
    case Handle(q) => AfterHandle(s, q)
    case Pick =>
      var r := FirstUnassigned(s.t.rides);
      s.(matcher := if r.None? then Idle else Trying(r.value, 0))
    case NoChair => s.(matcher := Idle)
    case Draw(chair) => s.(matcher := Drawn(s.matcher.ride, chair, s.matcher.tries))
    case Gate =>
      var m := s.matcher;
      if ChairFree(s.t.rides, m.chair) then s.(matcher := Found(m.ride, m.chair))
      else if m.tries + 1 < TRIES then s.(matcher := Trying(m.ride, m.tries + 1))
      else s.(matcher := Idle)
    case Update =>
      var m := s.matcher;
      State(WebApp.Apply(s.t, Assign(m.ride, m.chair)), Idle,
            s.served[m.chair := Served(s, m.chair) + [m.ride]], s.heard)
  }

  ghost predicate IsRun(s: State, steps: seq<Step>)
    decreases |steps|
  {
    steps == [] || (Enabled(s, steps[0]) && IsRun(Apply(s, steps[0]), steps[1..]))
  }

  ghost function After(s: State, steps: seq<Step>): State
    requires IsRun(s, steps)
    decreases |steps|
  {
    if steps == [] then s else After(Apply(s, steps[0]), steps[1..])
  }

  function Start(): State {
    State(Table([], 0), Idle, map[], map[])
  }

  // ---- The invariant -----------------------------------------------------------------

  /** A log is a prefix of the six statuses. */
  ghost predicate SixPrefix(log: seq<Row>) {
    |log| <= 6 && forall j | 0 <= j < |log| :: log[j].status == SIX[j]
  }

  /** All six statuses are there and have been sent to the chair. */
  ghost predicate Closed(log: seq<Row>) {
    |log| == 6 && SentPrefix(log, Chair, 6)
  }

  ghost predicate LogsFit(t: Table) {
    forall i | 0 <= i < |t.rides| ::
      && RideOk(t.rides[i]) && SixPrefix(t.rides[i].log)
      && t.rides[i].updatedAt <= t.clock
  }

  /** A chair's rides are the served ones; all but the last are closed and were updated before
      the last. */
  ghost predicate ServedFit(rides: seq<Ride>, served: seq<RideId>, c: ChairId) {
    && (forall i | 0 <= i < |rides| :: rides[i].chair == Some(c) <==> i in served)
    && (forall k | 0 <= k < |served| :: served[k] < |rides|)
    && (forall k, l | 0 <= k < l < |served| :: served[k] != served[l])
    && (forall k | 0 <= k < |served| - 1 ::
          && Closed(rides[served[k]].log)
          && rides[served[k]].updatedAt < rides[served[|served| - 1]].updatedAt)
  }

  /** The first n rows of a ride. */
  function First(ride: RideId, n: nat): seq<Event> {
    seq(n, (j: nat) => Event(ride, j))
  }

  /** The complete six rows of each ride. */
  function Full(rides: seq<RideId>): seq<Event> {
    if rides == [] then [] else Full(rides[..|rides| - 1]) + First(rides[|rides| - 1], 6)
  }

  /** What a chair has heard, without repeats: every earlier ride in full, then what was sent
      of the current one. */
  ghost predicate HeardFit(rides: seq<Ride>, served: seq<RideId>, heard: seq<Event>)
    requires forall k | 0 <= k < |served| :: served[k] < |rides|
  {
    if served == [] then heard == []
    else
      var m := |served| - 1;
      Dedup(heard) == Full(served[..m]) + First(served[m], |Dedup(rides[served[m]].chairSeen)|)
  }

  ghost predicate ChairFits(rides: seq<Ride>, served: seq<RideId>, heard: seq<Event>, c: ChairId) {
    ServedFit(rides, served, c) && HeardFit(rides, served, heard)
  }

  ghost predicate MatcherFits(rides: seq<Ride>, m: Matcher) {
    && (!m.Idle? ==> m.ride < |rides| && rides[m.ride].chair.None?)
    && (m.Found? ==> forall i | 0 <= i < |rides| && rides[i].chair == Some(m.chair) :: Closed(rides[i].log))
  }

  ghost predicate Inv(s: State) {
    && LogsFit(s.t) && MatcherFits(s.t.rides, s.matcher)
    && (forall c :: ChairFits(s.t.rides, Served(s, c), Heard(s, c), c))
  }

  // ---- One ride ----------------------------------------------------------------------

  lemma {:induction false} SentCountIs(log: seq<Row>, k: nat)
    requires SentPrefix(log, Chair, k)
    ensures SentCount(log) == k
    decreases |log|
  {
    if log != [] {
      var n := |log| - 1;
      assert log[n].Sent(Chair) <==> n < k;
      assert SentPrefix(log[..n], Chair, if k > n then n else k) by {
        assert forall i | 0 <= i < n :: log[..n][i].Sent(Chair) == log[i].Sent(Chair);
      }
      SentCountIs(log[..n], if k > n then n else k);
    }
  }

  /** The count is six exactly when the ride is closed. */
  lemma CountMeansClosed(r: Ride)
    requires RideOk(r) && SixPrefix(r.log)
    ensures SentCount(r.log) == 6 <==> Closed(r.log)
    ensures Closed(r.log) ==> |Dedup(r.chairSeen)| == 6
  {
    assert r.Seen(Chair) == r.chairSeen;
    var k := |Dedup(r.chairSeen)|;
    SentCountIs(r.log, k);
    if Closed(r.log) {
      SentCountIs(r.log, 6);
    }
  }

  /** A permitted request keeps a log a prefix of the six statuses. */
  lemma ChangedPrefix(t: Table, i: RideId, q: Request)
    requires i < |t.rides| && Allowed(t, q) && Target(t, q) == Some(i)
    requires t.rides[i].log != [] && SixPrefix(t.rides[i].log)
    ensures SixPrefix(Changed(t.rides[i], q, t.clock + 1).log)
  {
    var r := t.rides[i];
    assert r.log[|r.log| - 1].status == SIX[|r.log| - 1];
  }

  lemma NotifiedStaysClosed(r: Ride, who: Receiver)
    requires Closed(r.log)
    ensures Closed(Notified(r, who).log)
  {
    var row, n := NextRow(r.log, who), Notified(r, who);
    assert forall k | 0 <= k < |r.log| :: r.log[k].Sent(Chair);
    assert forall k | 0 <= k < |r.log| :: n.log[k].Sent(Chair);
  }

  /** A closed ride only changes its marks for the user. */
  lemma ChangedClosed(t: Table, i: RideId, q: Request)
    requires i < |t.rides| && Allowed(t, q) && Target(t, q) == Some(i)
    requires SixPrefix(t.rides[i].log) && Closed(t.rides[i].log)
    ensures var r, r' := t.rides[i], Changed(t.rides[i], q, t.clock + 1);
            Closed(r'.log) && r'.updatedAt == r.updatedAt
  {
    var r := t.rides[i];
    assert r.log[5].status == SIX[5];
    if q.AppPoll? {
      NotifiedStaysClosed(r, App);
    } else if q.ChairPoll? {
      NotifiedStaysClosed(r, Chair);
    }
  }

  lemma ChangedFits(t: Table, i: RideId, q: Request)
    requires i < |t.rides| && Allowed(t, q) && Target(t, q) == Some(i)
    requires RideOk(t.rides[i]) && SixPrefix(t.rides[i].log)
    ensures var r, r' := t.rides[i], Changed(t.rides[i], q, t.clock + 1);
            && RideOk(r') && SixPrefix(r'.log) && r'.chair == r.chair
            && (r'.updatedAt == r.updatedAt || r'.updatedAt == t.clock + 1)
            && (Closed(r.log) ==> Closed(r'.log) && r'.updatedAt == r.updatedAt)
            && (!q.ChairPoll? ==> r'.chairSeen == r.chairSeen)
  {
    ChangedIsOk(t.rides[i], q, t.clock + 1);
    ChangedPrefix(t, i, q);
    if Closed(t.rides[i].log) {
      ChangedClosed(t, i, q);
    }
  }

  // ---- One chair ---------------------------------------------------------------------

  /** The ride found by `updated_at` is the one assigned last. */
  lemma LatestIsLast(rides: seq<Ride>, served: seq<RideId>, c: ChairId)
    requires ServedFit(rides, served, c)
    ensures LatestOfChair(rides, c) == if served == [] then None else Some(served[|served| - 1])
  {
    var r := LatestOfChair(rides, c);
    assert served != [] ==> served[|served| - 1] in served;
    assert r.Some? ==> r.value in served;
  }

  /** A change of one ride of the table, as seen by a chair. */
  ghost predicate HarmlessChange(r: Ride, r': Ride) {
    && r'.chair == r.chair && r'.chairSeen == r.chairSeen && r'.updatedAt >= r.updatedAt
    && (Closed(r.log) ==> Closed(r'.log) && r'.updatedAt == r.updatedAt)
  }

  /** The change may be to the chair's last ride, or to a closed one, or to none of its rides. */
  lemma ServedUnderChange(rides: seq<Ride>, i: RideId, r': Ride, served: seq<RideId>, c: ChairId)
    requires ServedFit(rides, served, c) && i < |rides|
    requires r'.chair == rides[i].chair && r'.updatedAt >= rides[i].updatedAt
    requires Closed(rides[i].log) ==> Closed(r'.log) && r'.updatedAt == rides[i].updatedAt
    ensures ServedFit(rides[i := r'], served, c)
  {
  }

  lemma ChairUnderChange(rides: seq<Ride>, i: RideId, r': Ride, served: seq<RideId>, heard: seq<Event>, c: ChairId)
    requires ChairFits(rides, served, heard, c) && i < |rides| && HarmlessChange(rides[i], r')
    ensures ChairFits(rides[i := r'], served, heard, c)
  {
    ServedUnderChange(rides, i, r', served, c);
  }

  lemma ChairUnderNewRide(rides: seq<Ride>, r: Ride, served: seq<RideId>, heard: seq<Event>, c: ChairId)
    requires ChairFits(rides, served, heard, c) && r.chair.None?
    ensures ChairFits(rides + [r], served, heard, c)
  {
  }

  lemma FirstNext(ride: RideId, k: nat)
    ensures First(ride, k + 1) == First(ride, k) + [Event(ride, k)]
  {
  }

  lemma FullEnds(rides: seq<RideId>)
    ensures Full(rides) != [] ==> Full(rides)[|Full(rides)| - 1].row == 5
  {
  }

  /** What a poll adds to a chair's history. */
  lemma HeardNext(before: seq<Event>, ride: RideId, k: nat, heard: seq<Event>, row: nat)
    requires Dedup(heard) == before + First(ride, k) && row <= k <= row + 1
    requires before != [] ==> before[|before| - 1].row != 0
    ensures Dedup(heard + [Event(ride, row)]) == before + First(ride, row + 1)
  {
    hide First, Dedup;
    DedupAppend(heard, Event(ride, row));
    LastOfFirst(before, ride, k);
    if row == k {
      FirstNext(ride, k);
      assert before + First(ride, k) + [Event(ride, k)] == before + First(ride, k + 1);
    }
  }

  lemma LastOfFirst(before: seq<Event>, ride: RideId, k: nat)
    ensures var h := before + First(ride, k);
            if k == 0 then h == before else h != [] && h[|h| - 1] == Event(ride, k - 1)
  {
  }

  lemma PollerFits(rides: seq<Ride>, served: seq<RideId>, heard: seq<Event>, c: ChairId, i: RideId)
    requires ChairFits(rides, served, heard, c) && LatestOfChair(rides, c) == Some(i)
    requires RideOk(rides[i]) && SixPrefix(rides[i].log)
    requires Closed(rides[i].log) ==> Closed(Notified(rides[i], Chair).log)
    ensures ChairFits(rides[i := Notified(rides[i], Chair)], served, heard + [Event(i, NextRowOf(rides[i]))], c)
  {
    var r' := Notified(rides[i], Chair);
    LatestIsLast(rides, served, c);
    ServedUnderChange(rides, i, r', served, c);
    assert rides[i].Seen(Chair) == rides[i].chairSeen && r'.Seen(Chair) == r'.chairSeen;
    NotifiedInOrder(rides[i], Chair);
    FullEnds(served[..|served| - 1]);
    HeardNext(Full(served[..|served| - 1]), i, |Dedup(rides[i].chairSeen)|, heard, NextRowOf(rides[i]));
  }

  // ---- Requests ----------------------------------------------------------------------

  lemma CreateKeepsInv(s: State, q: Request)
    requires Inv(s) && q.CreateRide?
    ensures Inv(AfterHandle(s, q))
  {
    hide ChairFits, RideOk;
    var s' := AfterHandle(s, q);
    if NoContinuingRide(s.t.rides, q.user) {
      var r := NewRide(q.user, q.pickup, q.dest, s.t.clock + 1);
      NewRideIsOk(q.user, q.pickup, q.dest, s.t.clock + 1);
      forall c
        ensures ChairFits(s'.t.rides, Served(s', c), Heard(s', c), c)
      {
        assert ChairFits(s.t.rides, Served(s, c), Heard(s, c), c);
        ChairUnderNewRide(s.t.rides, r, Served(s, c), Heard(s, c), c);
      }
    }
  }

  lemma LogsUnderChange(t: Table, i: RideId, r': Ride)
    requires LogsFit(t) && i < |t.rides|
    requires RideOk(r') && SixPrefix(r'.log) && r'.updatedAt <= t.clock + 1
    ensures LogsFit(Table(t.rides[i := r'], t.clock + 1))
  {
  }

  lemma MatcherUnderChange(rides: seq<Ride>, i: RideId, r': Ride, m: Matcher)
    requires MatcherFits(rides, m) && i < |rides|
    requires r'.chair == rides[i].chair && (Closed(rides[i].log) ==> Closed(r'.log))
    ensures MatcherFits(rides[i := r'], m)
  {
  }

  lemma HandleKeepsChairs(s: State, q: Request, i: RideId, c: ChairId)
    requires Inv(s) && Allowed(s.t, q) && Target(s.t, q) == Some(i) && !q.CreateRide?
    ensures var s' := AfterHandle(s, q); ChairFits(s'.t.rides, Served(s', c), Heard(s', c), c)
  {
    hide ChairFits, RideOk, SixPrefix, Closed, Allowed;
    var r' := Changed(s.t.rides[i], q, s.t.clock + 1);
    assert ChairFits(s.t.rides, Served(s, c), Heard(s, c), c);
    ChangedFits(s.t, i, q);
    if q.ChairPoll? && q.chair == c {
      PollerFits(s.t.rides, Served(s, c), Heard(s, c), c, i);
    } else if q.ChairPoll? {
      assert s.t.rides[i].chair == Some(q.chair);
      OthersPoll(s.t.rides, i, r', Served(s, c), Heard(s, c), c);
    } else {
      ChairUnderChange(s.t.rides, i, r', Served(s, c), Heard(s, c), c);
    }
  }

  lemma OthersPoll(rides: seq<Ride>, i: RideId, r': Ride, served: seq<RideId>, heard: seq<Event>, c: ChairId)
    requires ChairFits(rides, served, heard, c) && i < |rides|
    requires rides[i].chair != Some(c) && r'.chair == rides[i].chair
    ensures ChairFits(rides[i := r'], served, heard, c)
  {
    assert i !in served;
  }

  lemma HandleKeepsInv(s: State, q: Request)
    requires Inv(s) && Allowed(s.t, q)
    ensures Inv(AfterHandle(s, q))
  {
    hide ChairFits, RideOk, SixPrefix, Closed, Allowed;
    if q.CreateRide? {
      CreateKeepsInv(s, q);
    } else if Target(s.t, q).Some? {
      var i := Target(s.t, q).value;
      ChangedFits(s.t, i, q);
      LogsUnderChange(s.t, i, Changed(s.t.rides[i], q, s.t.clock + 1));
      MatcherUnderChange(s.t.rides, i, Changed(s.t.rides[i], q, s.t.clock + 1), s.matcher);
      forall c
        ensures var s' := AfterHandle(s, q); ChairFits(s'.t.rides, Served(s', c), Heard(s', c), c)
      {
        HandleKeepsChairs(s, q, i, c);
      }
    }
  }

  // ---- The matcher -------------------------------------------------------------------

  lemma MatcherOnly(s: State, m: Matcher)
    requires Inv(s) && MatcherFits(s.t.rides, m)
    ensures Inv(s.(matcher := m))
  {
    hide ChairFits, LogsFit, MatcherFits;
    forall c
      ensures ChairFits(s.t.rides, Served(s.(matcher := m), c), Heard(s.(matcher := m), c), c)
    {
      assert ChairFits(s.t.rides, Served(s, c), Heard(s, c), c);
    }
  }

  lemma GateMeansClosed(t: Table, c: ChairId)
    requires LogsFit(t)
    ensures ChairFree(t.rides, c) <==> forall i | 0 <= i < |t.rides| && t.rides[i].chair == Some(c) :: Closed(t.rides[i].log)
  {
    forall i | 0 <= i < |t.rides|
      ensures SentCount(t.rides[i].log) == 6 <==> Closed(t.rides[i].log)
    {
      CountMeansClosed(t.rides[i]);
    }
  }

  lemma GateKeepsInv(s: State)
    requires Inv(s) && s.matcher.Drawn?
    ensures Inv(Apply(s, Gate))
  {
    GateMeansClosed(s.t, s.matcher.chair);
    MatcherOnly(s, Apply(s, Gate).matcher);
  }

  /** The chair that gets the ride: all its earlier rides are closed. */
  lemma AssigneeServed(t: Table, served: seq<RideId>, c: ChairId, i: RideId)
    requires LogsFit(t) && ServedFit(t.rides, served, c)
    requires i < |t.rides| && t.rides[i].chair.None?
    requires forall j | 0 <= j < |t.rides| && t.rides[j].chair == Some(c) :: Closed(t.rides[j].log)
    ensures ServedFit(t.rides[i := t.rides[i].(chair := Some(c), updatedAt := t.clock + 1)], served + [i], c)
  {
    hide RideOk, SixPrefix, Closed;
    var rides := t.rides[i := t.rides[i].(chair := Some(c), updatedAt := t.clock + 1)];
    assert i !in served;
    forall k | 0 <= k < |served|
      ensures Closed(rides[served[k]].log) && rides[served[k]].updatedAt < rides[i].updatedAt
    {
      assert served[k] in served;
      assert rides[served[k]] == t.rides[served[k]];
    }
    AppendIn(rides, served, i, c, t.rides);
  }

  lemma AssigneeHeard(rides: seq<Ride>, served: seq<RideId>, heard: seq<Event>, i: RideId, r': Ride)
    requires forall k | 0 <= k < |served| :: served[k] < |rides|
    requires i < |rides| && r'.chairSeen == [] && HeardFit(rides, served, heard)
    requires served != [] ==> |Dedup(rides[served[|served| - 1]].chairSeen)| == 6
    ensures HeardFit(rides[i := r'], served + [i], heard)
  {
    if served != [] {
      var m := |served| - 1;
      assert Dedup(heard) == Full(served);
    }
    assert (served + [i])[..|served|] == served;
    assert First(i, 0) == [];
    assert Dedup(heard) == Full(served) + First(i, 0);
  }

  lemma AssigneeFits(t: Table, served: seq<RideId>, heard: seq<Event>, c: ChairId, i: RideId)
    requires LogsFit(t) && ChairFits(t.rides, served, heard, c)
    requires i < |t.rides| && t.rides[i].chair.None? && t.rides[i].chairSeen == []
    requires forall j | 0 <= j < |t.rides| && t.rides[j].chair == Some(c) :: Closed(t.rides[j].log)
    ensures ChairFits(t.rides[i := t.rides[i].(chair := Some(c), updatedAt := t.clock + 1)], served + [i], heard, c)
  {
    AssigneeServed(t, served, c, i);
    if served != [] {
      var last := served[|served| - 1];
      assert last in served;
      CountMeansClosed(t.rides[last]);
    }
    AssigneeHeard(t.rides, served, heard, i, t.rides[i].(chair := Some(c), updatedAt := t.clock + 1));
  }

  lemma AppendIn(rides: seq<Ride>, served: seq<RideId>, i: RideId, c: ChairId, was: seq<Ride>)
    requires |was| == |rides| && i < |rides| && rides == was[i := rides[i]] && rides[i].chair == Some(c)
    requires forall j | 0 <= j < |was| :: was[j].chair == Some(c) <==> j in served
    ensures forall j | 0 <= j < |rides| :: rides[j].chair == Some(c) <==> j in served + [i]
  {
  }

  lemma AssignKeepsChair(t: Table, m: Matcher, served: seq<RideId>, heard: seq<Event>, d: ChairId)
    requires LogsFit(t) && MatcherFits(t.rides, m) && m.Found? && UnassignedUnheard(t.rides)
    requires ChairFits(t.rides, served, heard, d)
    ensures ChairFits(t.rides[m.ride := t.rides[m.ride].(chair := Some(m.chair), updatedAt := t.clock + 1)],
                      if d == m.chair then served + [m.ride] else served, heard, d)
  {
    if d == m.chair {
      AssigneeFits(t, served, heard, d, m.ride);
    } else {
      NotMine(t.rides, m.ride, t.rides[m.ride].(chair := Some(m.chair), updatedAt := t.clock + 1), served, heard, d);
    }
  }

  lemma UpdateKeepsInv(s: State)
    requires Inv(s) && s.matcher.Found? && UnassignedUnheard(s.t.rides)
    ensures Inv(Apply(s, Update))
  {
    hide ChairFits, RideOk, SixPrefix, Closed;
    var i, c, s' := s.matcher.ride, s.matcher.chair, Apply(s, Update);
    ChangedIsOk(s.t.rides[i], Assign(i, c), s.t.clock + 1);
    LogsUnderChange(s.t, i, s.t.rides[i].(chair := Some(c), updatedAt := s.t.clock + 1));
    forall d
      ensures ChairFits(s'.t.rides, Served(s', d), Heard(s', d), d)
    {
      assert ChairFits(s.t.rides, Served(s, d), Heard(s, d), d);
      AssignKeepsChair(s.t, s.matcher, Served(s, d), Heard(s, d), d);
    }
  }

  /** Rides without a chair have not been notified to one. */
  ghost predicate UnassignedUnheard(rides: seq<Ride>) {
    forall i | 0 <= i < |rides| && rides[i].chair.None? :: rides[i].chairSeen == []
  }

  lemma NotMine(rides: seq<Ride>, i: RideId, r': Ride, served: seq<RideId>, heard: seq<Event>, d: ChairId)
    requires ChairFits(rides, served, heard, d) && i < |rides|
    requires rides[i].chair != Some(d) && r'.chair != Some(d)
    ensures ChairFits(rides[i := r'], served, heard, d)
  {
    assert i !in served;
  }

  // ---- Every run ---------------------------------------------------------------------

  ghost predicate FullInv(s: State) {
    Inv(s) && UnassignedUnheard(s.t.rides) && UnassignedNew(s.t.rides)
  }

  /** Only an assigned chair adds to a log. */
  ghost predicate UnassignedNew(rides: seq<Ride>) {
    forall i | 0 <= i < |rides| && rides[i].chair.None? :: |rides[i].log| == 1
  }

  lemma UnassignedIsNew(s: State, i: RideId)
    requires FullInv(s) && i < |s.t.rides| && s.t.rides[i].chair.None?
    ensures |s.t.rides[i].log| == 1
  {
  }

  lemma StepKeepsInv(s: State, step: Step)
    requires Inv(s) && UnassignedUnheard(s.t.rides) && Enabled(s, step)
    ensures Inv(Apply(s, step))
  {
    match step
    case Handle(q) => HandleKeepsInv(s, q);
    case Gate => GateKeepsInv(s);
    case Update => UpdateKeepsInv(s);
    case _ => MatcherOnly(s, Apply(s, step).matcher);
  }

  lemma StepKeepsUnheard(s: State, step: Step)
    requires UnassignedUnheard(s.t.rides) && Enabled(s, step)
    ensures UnassignedUnheard(Apply(s, step).t.rides)
  {
  }

  lemma ChangedKeepsNew(t: Table, i: RideId, q: Request)
    requires i < |t.rides| && Target(t, q) == Some(i) && !q.Assign?
    requires SixPrefix(t.rides[i].log) && |t.rides[i].log| == 1 && t.rides[i].chair.None?
    ensures |Changed(t.rides[i], q, t.clock + 1).log| == 1
  {
    assert t.rides[i].log[0].status == SIX[0];
  }

  lemma StepKeepsNew(s: State, step: Step)
    requires LogsFit(s.t) && UnassignedNew(s.t.rides) && Enabled(s, step)
    ensures UnassignedNew(Apply(s, step).t.rides)
  {
    hide RideOk, SixPrefix, Changed;
    if step.Handle? && !step.q.CreateRide? && Target(s.t, step.q).Some? {
      var i := Target(s.t, step.q).value;
      ChangedKeepsChair(s.t, i, step.q);
      if s.t.rides[i].chair.None? {
        ChangedKeepsNew(s.t, i, step.q);
      }
    } else if step.Update? {
      UpdateAssigns(s);
    }
  }

  lemma ChangedKeepsChair(t: Table, i: RideId, q: Request)
    requires i < |t.rides| && !q.Assign?
    ensures Changed(t.rides[i], q, t.clock + 1).chair == t.rides[i].chair
  {
  }

  lemma UpdateAssigns(s: State)
    requires s.matcher.Found? && UnassignedNew(s.t.rides)
    ensures UnassignedNew(Apply(s, Update).t.rides)
  {
  }

  lemma StepKeepsFull(s: State, step: Step)
    requires FullInv(s) && Enabled(s, step)
    ensures FullInv(Apply(s, step))
  {
    hide ChairFits, MatcherFits, LogsFit, UnassignedUnheard, UnassignedNew, Apply, Enabled;
    StepKeepsInv(s, step);
    StepKeepsUnheard(s, step);
    StepKeepsNew(s, step);
  }

  lemma {:induction false} RunKeepsInv(s: State, steps: seq<Step>)
    requires FullInv(s) && IsRun(s, steps)
    ensures FullInv(After(s, steps))
    decreases |steps|
  {
    hide FullInv, Apply, Enabled;
    if steps != [] {
      StepKeepsFull(s, steps[0]);
      RunKeepsInv(Apply(s, steps[0]), steps[1..]);
    }
  }

  lemma StartFits()
    ensures FullInv(Start())
  {
    forall c
      ensures ChairFits(Start().t.rides, Served(Start(), c), Heard(Start(), c), c)
    {
    }
  }

  lemma Reached(steps: seq<Step>)
    requires IsRun(Start(), steps)
    ensures FullInv(After(Start(), steps))
  {
    StartFits();
    RunKeepsInv(Start(), steps);
  }

  /** A ride's chair is never overwritten. */
  lemma {:induction false} ChairIsKept(s: State, steps: seq<Step>, i: RideId)
    requires FullInv(s) && IsRun(s, steps) && i < |s.t.rides| && s.t.rides[i].chair.Some?
    ensures i < |After(s, steps).t.rides| && After(s, steps).t.rides[i].chair == s.t.rides[i].chair
    decreases |steps|
  {
    hide FullInv, Apply, Enabled, MatcherFits;
    if steps != [] {
      var s' := Apply(s, steps[0]);
      StepKeepsFull(s, steps[0]);
      MatcherOf(s);
      ChairStep(s, steps[0], i);
      ChairIsKept(s', steps[1..], i);
    }
  }

  lemma MatcherOf(s: State)
    requires FullInv(s)
    ensures MatcherFits(s.t.rides, s.matcher)
  {
  }

  lemma ChairStep(s: State, step: Step, i: RideId)
    requires MatcherFits(s.t.rides, s.matcher) && Enabled(s, step) && i < |s.t.rides| && s.t.rides[i].chair.Some?
    ensures i < |Apply(s, step).t.rides| && Apply(s, step).t.rides[i].chair == s.t.rides[i].chair
  {
  }

  /** A chair has at most one ride whose six statuses have not all been sent to it. */
  lemma OneOpenRide(steps: seq<Step>, i: RideId, j: RideId)
    requires IsRun(Start(), steps)
    requires var rides := After(Start(), steps).t.rides;
             i < |rides| && j < |rides| && i != j && rides[i].chair.Some? && rides[i].chair == rides[j].chair
    ensures var rides := After(Start(), steps).t.rides;
            SentCount(rides[i].log) == 6 || SentCount(rides[j].log) == 6
  {
    Reached(steps);
    var s := After(Start(), steps);
    var c := s.t.rides[i].chair.value;
    var served := Served(s, c);
    assert ChairFits(s.t.rides, served, Heard(s, c), c);
    assert i in served && j in served;
    CountMeansClosed(s.t.rides[i]);
    CountMeansClosed(s.t.rides[j]);
  }

  /** What the matcher has read stays true until it writes, whatever runs in between: its ride
      has no chair, and a chair that passed the gate would pass it again. */
  lemma MatcherFactsAreStable(steps: seq<Step>)
    requires IsRun(Start(), steps)
    ensures var s := After(Start(), steps);
            && (!s.matcher.Idle? ==> s.matcher.ride < |s.t.rides| && s.t.rides[s.matcher.ride].chair.None?)
            && (s.matcher.Found? ==> ChairFree(s.t.rides, s.matcher.chair))
  {
    Reached(steps);
    var s := After(Start(), steps);
    if s.matcher.Found? {
      GateMeansClosed(s.t, s.matcher.chair);
    }
  }

  /** Every log is a prefix of the six statuses. */
  lemma LogsArePrefixes(steps: seq<Step>, i: RideId)
    requires IsRun(Start(), steps) && i < |After(Start(), steps).t.rides|
    ensures SixPrefix(After(Start(), steps).t.rides[i].log)
  {
    Reached(steps);
  }

  /** Everything a chair has been told, without repeats, is the complete logs of its earlier
      rides one after the other and a prefix of its current ride's log. */
  lemma ChairHistory(steps: seq<Step>, c: ChairId)
    requires IsRun(Start(), steps)
    ensures var s := After(Start(), steps);
            var served := Served(s, c);
            if served == [] then Heard(s, c) == []
            else
              var m := |served| - 1;
              && served[m] < |s.t.rides|
              && (exists n: nat :: n <= |s.t.rides[served[m]].log| &&
                    Dedup(Heard(s, c)) == Full(served[..m]) + First(served[m], n))
  {
    Reached(steps);
    var s := After(Start(), steps);
    var served := Served(s, c);
    assert ChairFits(s.t.rides, served, Heard(s, c), c);
    if served != [] {
      var r := s.t.rides[served[|served| - 1]];
      assert RideOk(r) && r.Seen(Chair) == r.chairSeen;
    }
  }
}
