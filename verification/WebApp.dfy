/** The server's ride and ride-status tables and the handlers that read and write them. A
    ride's id is its position in the table, so the order of creation is the order of ids. */
module WebApp {
  import opened Grid
  import opened Wrappers
  import opened RideStatus
  import opened Deliveries

  type UserId = nat
  type ChairId = nat
  type RideId = nat

  datatype Receiver = App | Chair

  /** A row of `ride_statuses` with its two sent marks. */
  datatype Row = Row(status: Status, appSent: bool, chairSent: bool) {
    predicate Sent(who: Receiver) {
      if who.App? then appSent else chairSent
    }

    function Mark(who: Receiver): Row {
      if who.App? then this.(appSent := true) else this.(chairSent := true)
    }
  }

  /** A row of `rides` with its status rows in order of creation. `appSeen` and `chairSeen`
      are not stored by the server: they record which row each notification has carried. */
  datatype Ride = Ride(user: UserId, pickup: Coord, dest: Coord, chair: Option<ChairId>, evaluation: Option<int>,
                       log: seq<Row>, updatedAt: nat, appSeen: seq<nat>, chairSeen: seq<nat>)
  {
    function Seen(who: Receiver): seq<nat> {
      if who.App? then appSeen else chairSeen
    }

    function See(who: Receiver, row: nat): Ride {
      if who.App? then this.(appSeen := appSeen + [row]) else this.(chairSeen := chairSeen + [row])
    }
  }

  /** `clock` is a time that no `updated_at` is after; it goes on with every request that finds
      its ride. */
  datatype Table = Table(rides: seq<Ride>, clock: nat)

  datatype Posted = PostEnroute | PostCarrying | PostOther

  datatype Reply = Done | BadRequest | NotFound | Conflict | PaymentFailed

  datatype Request =
    | CreateRide(user: UserId, pickup: Coord, dest: Coord)
    | PostStatus(ride: RideId, chair: ChairId, posted: Posted)
    | PostCoordinate(chair: ChairId, at: Coord)
    | Evaluate(ride: RideId, evaluation: int, charged: bool)
    | AppPoll(user: UserId)
    | ChairPoll(chair: ChairId)
    | Assign(ride: RideId, chair: ChairId)

  // ---- One ride ----------------------------------------------------------------------

  /** `getLatestRideStatus`; every ride is created with its first row. */
  function Latest(log: seq<Row>): Status {
    if log == [] then Matching else log[|log| - 1].status
  }

  function Logged(r: Ride, status: Status): Ride {
    r.(log := r.log + [Row(status, false, false)])
  }

  /** `chairPostRideStatus`. ENROUTE is not checked against the log. */
  function StatusPosted(r: Ride, chair: ChairId, posted: Posted): Ride {
    if r.chair != Some(chair) then r
    else
      match posted
      case PostEnroute => Logged(r, Enroute)
      case PostCarrying => if Latest(r.log) == Pickup then Logged(r, Carrying) else r
      case PostOther => r
  }

  /** `chairPostCoordinate`, for the ride it finds. Both conditions look at the status from
      before the first insertion. */
  function CoordinatePosted(r: Ride, at: Coord): Ride {
    var status := Latest(r.log);
    if status == Completed then r
    else
      var p := if at == r.pickup && status == Enroute then Logged(r, Pickup) else r;
      if at == r.dest && status == Carrying then Logged(p, Arrived) else p
  }

  /** Storing the evaluation that is already there affects no row, which is refused. */
  predicate EvaluationAccepted(r: Ride, evaluation: int) {
    1 <= evaluation <= 5 && Latest(r.log) == Arrived && r.evaluation != Some(evaluation)
  }

  /** `appPostRideEvaluatation`; a failed charge rolls everything back. */
  function Evaluated(r: Ride, evaluation: int, charged: bool, now: nat): Ride {
    if EvaluationAccepted(r, evaluation) && charged
    then Logged(r.(evaluation := Some(evaluation), updatedAt := now), Completed)
    else r
  }

  /** The oldest row not yet sent to a receiver. */
  function FirstUnsent(log: seq<Row>, who: Receiver, from: nat := 0): (r: Option<nat>)
    requires from <= |log|
    ensures r.Some? ==> from <= r.value < |log| && !log[r.value].Sent(who)
    ensures r.Some? ==> forall i | from <= i < r.value :: log[i].Sent(who)
    ensures r.None? ==> forall i | from <= i < |log| :: log[i].Sent(who)
    decreases |log| - from
  {
    if from == |log| then None
    else if !log[from].Sent(who) then Some(from)
    else FirstUnsent(log, who, from + 1)
  }

  /** The row a notification carries: the oldest unsent one, else the latest. */
  function NextRow(log: seq<Row>, who: Receiver): (row: nat)
    requires log != []
    ensures row < |log|
  {
    var u := FirstUnsent(log, who);
    if u.Some? then u.value else |log| - 1
  }

  function Notified(r: Ride, who: Receiver): Ride {
    if r.log == [] then r
    else
      var row := NextRow(r.log, who);
      r.(log := r.log[row := r.log[row].Mark(who)]).See(who, row)
  }

  // ---- The table ---------------------------------------------------------------------

  /** `ORDER BY created_at DESC LIMIT 1` among a user's rides. */
  function LatestOfUser(rides: seq<Ride>, user: UserId): (r: Option<RideId>)
    ensures r.Some? ==> r.value < |rides| && rides[r.value].user == user
    ensures r.Some? ==> forall i | r.value < i < |rides| :: rides[i].user != user
    ensures r.None? ==> forall i | 0 <= i < |rides| :: rides[i].user != user
    decreases |rides|
  {
    if rides == [] then None
    else if rides[|rides| - 1].user == user then Some(|rides| - 1)
    else LatestOfUser(rides[..|rides| - 1], user)
  }

  /** `ORDER BY updated_at DESC LIMIT 1` among a chair's rides. */
  function LatestOfChair(rides: seq<Ride>, chair: ChairId): (r: Option<RideId>)
    ensures r.Some? ==> r.value < |rides| && rides[r.value].chair == Some(chair)
    ensures r.Some? ==> forall i | 0 <= i < |rides| && rides[i].chair == Some(chair) ::
                          rides[i].updatedAt <= rides[r.value].updatedAt
    ensures r.None? ==> forall i | 0 <= i < |rides| :: rides[i].chair != Some(chair)
    decreases |rides|
  {
    if rides == [] then None
    else
      var n := |rides| - 1;
      var rest := LatestOfChair(rides[..n], chair);
      if rides[n].chair == Some(chair) && (rest.None? || rides[rest.value].updatedAt <= rides[n].updatedAt)
      then Some(n) else rest
  }

  predicate NoContinuingRide(rides: seq<Ride>, user: UserId) {
    forall i | 0 <= i < |rides| && rides[i].user == user :: Latest(rides[i].log) == Completed
  }

  function NewRide(user: UserId, pickup: Coord, dest: Coord, now: nat): Ride {
    Ride(user, pickup, dest, None, None, [Row(Matching, false, false)], now, [], [])
  }

  /** Which ride a request may change. */
  function Target(t: Table, q: Request): Option<RideId> {
    match q
    case CreateRide(_, _, _) => None
    case PostStatus(ride, _, _) => if ride < |t.rides| then Some(ride) else None
    case PostCoordinate(chair, _) => LatestOfChair(t.rides, chair)
    case Evaluate(ride, _, _) => if ride < |t.rides| then Some(ride) else None
    case AppPoll(user) => LatestOfUser(t.rides, user)
    case ChairPoll(chair) => LatestOfChair(t.rides, chair)
    case Assign(ride, _) => if ride < |t.rides| then Some(ride) else None
  }

  /** What it makes of that ride. */
  function Changed(r: Ride, q: Request, now: nat): Ride {
    match q
    case CreateRide(_, _, _) => r
    case PostStatus(_, chair, posted) => StatusPosted(r, chair, posted)
    case PostCoordinate(_, at) => CoordinatePosted(r, at)
    case Evaluate(_, evaluation, charged) => Evaluated(r, evaluation, charged, now)
    case AppPoll(_) => Notified(r, App)
    case ChairPoll(_) => Notified(r, Chair)
    case Assign(_, chair) => r.(chair := Some(chair), updatedAt := now)
  }

  function Apply(t: Table, q: Request): Table {
    if q.CreateRide? then
      if NoContinuingRide(t.rides, q.user)
      then Table(t.rides + [NewRide(q.user, q.pickup, q.dest, t.clock + 1)], t.clock + 1)
      else t
    else
      var i := Target(t, q);
      if i.None? then t
      else Table(t.rides[i.value := Changed(t.rides[i.value], q, t.clock + 1)], t.clock + 1)
  }

  ghost function Run(t: Table, qs: seq<Request>): Table
    decreases |qs|
  {
    if qs == [] then t else Run(Apply(t, qs[0]), qs[1..])
  }

  // ---- What arbitrary requests keep --------------------------------------------------

  /** A row directly after another one: ENROUTE may come at any time, every other status only
      straight after its predecessor. */
  predicate Follows(a: Status, b: Status) {
    b == Enroute || (Rank(b) >= 2 && Rank(b) == Rank(a) + 1)
  }

  ghost predicate LogOk(log: seq<Row>) {
    && log != [] && log[0].status == Matching
    && (forall i | 0 < i < |log| :: Follows(log[i - 1].status, log[i].status))
  }

  /** Exactly the first k rows are marked as sent. */
  ghost predicate SentPrefix(log: seq<Row>, who: Receiver, k: nat) {
    k <= |log| && forall i | 0 <= i < |log| :: log[i].Sent(who) <==> i < k
  }

  /** The marks are a prefix, and the rows carried, without repeats, are that prefix. */
  ghost predicate SentInOrder(r: Ride, who: Receiver) {
    var k := |Dedup(r.Seen(who))|;
    SentPrefix(r.log, who, k) && Dedup(r.Seen(who)) == UpTo(k)
  }

  ghost predicate RideOk(r: Ride) {
    && LogOk(r.log)
    && SentInOrder(r, App) && SentInOrder(r, Chair)
    && (r.evaluation.Some? <==> exists i | 0 <= i < |r.log| :: r.log[i].status == Completed)
  }

  ghost predicate AllOk(t: Table) {
    forall i | 0 <= i < |t.rides| :: RideOk(t.rides[i])
  }

  lemma LoggedIsOk(r: Ride, status: Status)
    requires RideOk(r) && Follows(Latest(r.log), status)
    ensures status != Completed ==> RideOk(Logged(r, status))
    ensures status == Completed ==>
              forall e, now :: RideOk(Logged(r.(evaluation := Some(e), updatedAt := now), status))
  {
    var l := Logged(r, status);
    assert forall i | 0 <= i < |r.log| :: l.log[i] == r.log[i];
    assert l.log[|r.log|].status == status;
    assert l.Seen(App) == r.Seen(App) && l.Seen(Chair) == r.Seen(Chair);
  }

  /** Marking the next row makes the marked prefix longer, unless it was everything. */
  lemma MarkedPrefix(log: seq<Row>, who: Receiver, k: nat)
    requires log != [] && SentPrefix(log, who, k)
    ensures NextRow(log, who) == if k < |log| then k else k - 1
    ensures var row := NextRow(log, who);
            SentPrefix(log[row := log[row].Mark(who)], who, if k < |log| then k + 1 else k)
  {
    var u := FirstUnsent(log, who);
    assert u.Some? ==> !log[u.value].Sent(who);
    assert k < |log| ==> !log[k].Sent(who);
  }

  lemma SeenNext(seen: seq<nat>, k: nat, row: nat)
    requires Dedup(seen) == UpTo(k) && row <= k <= row + 1
    ensures Dedup(seen + [row]) == UpTo(row + 1)
  {
    DedupAppend(seen, row);
    if row == k {
      assert UpTo(k + 1) == UpTo(k) + [k];
    }
  }

  /** A notification carries the row after the last one carried, or repeats the last one. */
  lemma NotifiedInOrder(r: Ride, who: Receiver)
    requires r.log != [] && SentInOrder(r, who)
    ensures SentInOrder(Notified(r, who), who)
    ensures var k := |Dedup(r.Seen(who))|;
            && NextRow(r.log, who) == (if k < |r.log| then k else k - 1)
            && |Dedup(Notified(r, who).Seen(who))| == (if k < |r.log| then k + 1 else k)
  {
    var k, row, n := |Dedup(r.Seen(who))|, NextRow(r.log, who), Notified(r, who);
    assert n.Seen(who) == r.Seen(who) + [row];
    MarkedPrefix(r.log, who, k);
    SeenNext(r.Seen(who), k, row);
  }

  lemma NotifiedIsOk(r: Ride, who: Receiver)
    requires RideOk(r)
    ensures RideOk(Notified(r, who))
  {
    var n, row := Notified(r, who), NextRow(r.log, who);
    NotifiedInOrder(r, who);
    assert forall i | 0 <= i < |r.log| :: n.log[i].status == r.log[i].status;
    var other := if who.App? then Chair else App;
    assert forall i | 0 <= i < |r.log| :: n.log[i].Sent(other) == r.log[i].Sent(other);
    assert n.Seen(other) == r.Seen(other);
  }

  lemma ChangedIsOk(r: Ride, q: Request, now: nat)
    requires RideOk(r)
    ensures RideOk(Changed(r, q, now))
  {
    match q
    case PostStatus(_, chair, posted) =>
      if StatusPosted(r, chair, posted) != r {
        LoggedIsOk(r, if posted.PostEnroute? then Enroute else Carrying);
      }
    case PostCoordinate(_, at) =>
      if CoordinatePosted(r, at) != r {
        LoggedIsOk(r, if Latest(r.log) == Enroute then Pickup else Arrived);
      }
    case Evaluate(_, e, charged) =>
      if Evaluated(r, e, charged, now) != r {
        LoggedIsOk(r, Completed);
      }
    case AppPoll(_) => NotifiedIsOk(r, App);
    case ChairPoll(_) => NotifiedIsOk(r, Chair);
    case Assign(_, c) =>
      var a := r.(chair := Some(c), updatedAt := now);
      assert a.Seen(App) == r.Seen(App) && a.Seen(Chair) == r.Seen(Chair);
    case CreateRide(_, _, _) =>
  }

  lemma NewRideIsOk(user: UserId, pickup: Coord, dest: Coord, now: nat)
    ensures RideOk(NewRide(user, pickup, dest, now))
  {
    var r := NewRide(user, pickup, dest, now);
    assert Dedup(r.Seen(App)) == UpTo(0) && Dedup(r.Seen(Chair)) == UpTo(0);
  }

  lemma ApplyKeepsOk(t: Table, q: Request)
    requires AllOk(t)
    ensures AllOk(Apply(t, q))
  {
    hide RideOk, Changed;
    if q.CreateRide? {
      NewRideIsOk(q.user, q.pickup, q.dest, t.clock + 1);
    } else if Target(t, q).Some? {
      ChangedIsOk(t.rides[Target(t, q).value], q, t.clock + 1);
    }
  }

  /** Whatever requests arrive, in whatever order, and whichever assignments are made: every
      ride's marks are a prefix of its log for both receivers, and what was delivered,
      without repeats, is that prefix. */
  lemma {:induction false} RunKeepsOk(t: Table, qs: seq<Request>)
    requires AllOk(t)
    ensures AllOk(Run(t, qs))
    decreases |qs|
  {
    if qs != [] {
      ApplyKeepsOk(t, qs[0]);
      RunKeepsOk(Apply(t, qs[0]), qs[1..]);
    }
  }

  /** Every COMPLETED row comes directly after ENROUTE, PICKUP, CARRYING and ARRIVED. */
  lemma CompletedIsPreceded(log: seq<Row>, k: nat)
    requires LogOk(log) && k < |log| && log[k].status == Completed
    ensures k >= 5
    ensures forall j | 1 <= j <= 5 :: log[k - 5 + j].status == SIX[j]
  {
    assert Follows(log[k - 1].status, log[k].status);
    assert Follows(log[k - 2].status, log[k - 1].status);
    assert Follows(log[k - 3].status, log[k - 2].status);
    assert Follows(log[k - 4].status, log[k - 3].status);
  }

  lemma EveryCompletedIsPreceded(qs: seq<Request>, i: RideId, k: nat)
    requires var t := Run(Table([], 0), qs); i < |t.rides| && k < |t.rides[i].log| && t.rides[i].log[k].status == Completed
    ensures k >= 5
    ensures var log := Run(Table([], 0), qs).rides[i].log; forall j | 1 <= j <= 5 :: log[k - 5 + j].status == SIX[j]
  {
    RunKeepsOk(Table([], 0), qs);
    CompletedIsPreceded(Run(Table([], 0), qs).rides[i].log, k);
  }

  /** Repeating a coordinate adds nothing. */
  lemma CoordinateTwice(r: Ride, at: Coord)
    ensures CoordinatePosted(CoordinatePosted(r, at), at) == CoordinatePosted(r, at)
  {
  }

  // ---- Rides that are not a user's latest --------------------------------------------

  predicate Overtaken(rides: seq<Ride>, i: RideId) {
    i < |rides| && exists j | i < j < |rides| :: rides[j].user == rides[i].user
  }

  predicate AllSent(log: seq<Row>, who: Receiver) {
    forall i | 0 <= i < |log| :: log[i].Sent(who)
  }

  lemma ApplyKeepsUsers(t: Table, q: Request, i: RideId)
    requires i < |t.rides|
    ensures |t.rides| <= |Apply(t, q).rides| && Apply(t, q).rides[i].user == t.rides[i].user
  {
  }

  /** Once its user has a newer ride, a ride's rows are no longer sent to the user. */
  lemma OvertakenStep(t: Table, q: Request, i: RideId)
    requires Overtaken(t.rides, i)
    ensures Overtaken(Apply(t, q).rides, i)
    ensures var log, log' := t.rides[i].log, Apply(t, q).rides[i].log;
            |log| <= |log'| && forall k | 0 <= k < |log'| :: log'[k].appSent <==> k < |log| && log[k].appSent
    ensures Apply(t, q).rides[i].appSeen == t.rides[i].appSeen
  {
    var j :| i < j < |t.rides| && t.rides[j].user == t.rides[i].user;
    ApplyKeepsUsers(t, q, i);
    ApplyKeepsUsers(t, q, j);
    assert q.AppPoll? ==> LatestOfUser(t.rides, q.user) != Some(i);
  }

  lemma {:induction false} OvertakenRun(t: Table, qs: seq<Request>, i: RideId)
    requires Overtaken(t.rides, i)
    ensures i < |Run(t, qs).rides|
    ensures var log, log' := t.rides[i].log, Run(t, qs).rides[i].log;
            |log| <= |log'| && forall k | 0 <= k < |log'| :: log'[k].appSent <==> k < |log| && log[k].appSent
    ensures Run(t, qs).rides[i].appSeen == t.rides[i].appSeen
    decreases |qs|
  {
    if qs != [] {
      OvertakenStep(t, qs[0], i);
      OvertakenRun(Apply(t, qs[0]), qs[1..], i);
    }
  }

  lemma {:induction false} NothingUnsent(log: seq<Row>, log': seq<Row>)
    requires |log| <= |log'|
    requires forall k | 0 <= k < |log'| :: log'[k].appSent <==> k < |log| && log[k].appSent
    ensures AllSent(log', App) <==> |log'| == |log| && AllSent(log, App)
  {
    if |log'| > |log| {
      assert !log'[|log|].Sent(App);
    } else {
      forall k | 0 <= k < |log|
        ensures log[k].Sent(App) == log'[k].Sent(App)
      {
      }
    }
  }

  /** The documentation promises that a user still gets the rest of ride A's statuses after
      asking for ride B. That holds exactly when nothing of A was left to send: whatever
      happens after B was created, all of A's rows get sent if and only if they already were
      sent (and A gets no further rows). */
  lemma RestOfEarlierRide(t: Table, user: UserId, pickup: Coord, dest: Coord, i: RideId, qs: seq<Request>)
    requires i < |t.rides| && t.rides[i].user == user && NoContinuingRide(t.rides, user)
    ensures var t' := Run(Apply(t, CreateRide(user, pickup, dest)), qs);
            && i < |t'.rides|
            && (AllSent(t'.rides[i].log, App) <==>
                  |t'.rides[i].log| == |t.rides[i].log| && AllSent(t.rides[i].log, App))
  {
    var b := Apply(t, CreateRide(user, pickup, dest));
    assert b.rides[|t.rides|].user == b.rides[i].user;
    OvertakenRun(b, qs, i);
    NothingUnsent(b.rides[i].log, Run(b, qs).rides[i].log);
  }

  ghost predicate Reachable(t: Table) {
    exists qs :: t == Run(Table([], 0), qs)
  }

  lemma {:induction false} RunAppend(t: Table, qs: seq<Request>, q: Request)
    ensures Run(t, qs + [q]) == Apply(Run(t, qs), q)
    decreases |qs|
  {
    if qs == [] {
      assert [q][1..] == [];
    } else {
      assert (qs + [q])[1..] == qs[1..] + [q];
      RunAppend(Apply(t, qs[0]), qs[1..], q);
    }
  }

  lemma ApplyReaches(t: Table, q: Request)
    requires Reachable(t)
    ensures Reachable(Apply(t, q))
  {
    var qs :| t == Run(Table([], 0), qs);
    RunAppend(Table([], 0), qs, q);
  }

  const LIFE: seq<Request> := [
    CreateRide(0, Coord(0, 0), Coord(0, 1)), Assign(0, 0), PostStatus(0, 0, PostEnroute),
    PostCoordinate(0, Coord(0, 0)), PostStatus(0, 0, PostCarrying), PostCoordinate(0, Coord(0, 1)),
    Evaluate(0, 5, true)]

  /** After the first i requests of `LIFE`. */
  ghost predicate Stage(t: Table, i: nat)
    requires i <= 7
  {
    if i == 0 then t == Table([], 0)
    else
      && |t.rides| == 1 && t.rides[0].user == 0 && (i > 1 ==> t.rides[0].chair == Some(0))
      && t.rides[0].pickup == Coord(0, 0) && t.rides[0].dest == Coord(0, 1)
      && |t.rides[0].log| == Max(1, i - 1) && Latest(t.rides[0].log) == SIX[Max(0, i - 2)]
      && !t.rides[0].log[0].appSent && (i < 7 ==> t.rides[0].evaluation.None?)
  }

  lemma StageStep(t: Table, i: nat)
    requires i < 7 && Stage(t, i)
    ensures Stage(Apply(t, LIFE[i]), i + 1)
  {
    if i > 0 {
      assert LatestOfChair(t.rides, 0).Some? ==> LatestOfChair(t.rides, 0) == Some(0);
    }
  }

  /** A finished ride of which nothing was sent can be reached. */
  lemma UnsentRide() returns (t: Table)
    ensures Reachable(t) && Stage(t, 7)
  {
    t := Table([], 0);
    assert t == Run(t, []);
    var i := 0;
    while i < 7
      invariant i <= 7 && Reachable(t) && Stage(t, i)
    {
      ApplyReaches(t, LIFE[i]);
      StageStep(t, i);
      t := Apply(t, LIFE[i]);
      i := i + 1;
    }
  }

  /** And a user can ask for ride B while rows of A are unsent. */
  lemma RestCanBeLost() returns (t: Table, b: Request)
    ensures Reachable(t) && b.CreateRide? && |Apply(t, b).rides| == |t.rides| + 1 == 2
    ensures forall qs :: |Run(Apply(t, b), qs).rides| >= 1 && !AllSent(Run(Apply(t, b), qs).rides[0].log, App)
  {
    t := UnsentRide();
    b := CreateRide(0, Coord(0, 0), Coord(0, 1));
    assert !t.rides[0].log[0].Sent(App);
    forall qs: seq<Request>
      ensures |Run(Apply(t, b), qs).rides| >= 1 && !AllSent(Run(Apply(t, b), qs).rides[0].log, App)
    {
      RestOfEarlierRide(t, 0, Coord(0, 0), Coord(0, 1), 0, qs);
    }
  }
}
