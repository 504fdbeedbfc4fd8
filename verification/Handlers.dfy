/** The ride handlers as they run: each one works on the tables step by step, in one
    transaction. */
module Handlers {
  import opened Grid
  import opened Wrappers
  import opened RideStatus
  import opened WebApp

  predicate Finished(log: seq<Row>) {
    exists i | 0 <= i < |log| :: log[i].status == Completed
  }

  /** A chair's rides with a COMPLETED row. */
  function FinishedCount(rides: seq<Ride>, chair: ChairId): nat {
    if rides == [] then 0
    else
      var r := rides[|rides| - 1];
      FinishedCount(rides[..|rides| - 1], chair) + if r.chair == Some(chair) && Finished(r.log) then 1 else 0
  }

  function EvaluationSum(rides: seq<Ride>, chair: ChairId): int {
    if rides == [] then 0
    else
      var r := rides[|rides| - 1];
      EvaluationSum(rides[..|rides| - 1], chair) +
      if r.chair == Some(chair) && Finished(r.log) && r.evaluation.Some? then r.evaluation.value else 0
  }

  /** The finished rides of a chair. */
  ghost function FinishedRides(rides: seq<Ride>, chair: ChairId): set<RideId> {
    set i: RideId | 0 <= i < |rides| && rides[i].chair == Some(chair) && Finished(rides[i].log)
  }

  /** The count is the number of the chair's finished rides. */
  lemma {:induction false} FinishedCountIs(rides: seq<Ride>, chair: ChairId)
    ensures FinishedCount(rides, chair) == |FinishedRides(rides, chair)|
    decreases |rides|
  {
    hide Finished;
    if rides != [] {
      var n := |rides| - 1;
      FinishedCountIs(rides[..n], chair);
      var before, after := FinishedRides(rides[..n], chair), FinishedRides(rides, chair);
      if rides[n].chair == Some(chair) && Finished(rides[n].log) {
        assert after == before + {n};
      } else {
        assert after == before;
      }
    }
  }

  /** What ride r adds to the sum of chair c. */
  function Adds(r: Ride, c: ChairId): int {
    if r.chair == Some(c) && Finished(r.log) && r.evaluation.Some? then r.evaluation.value else 0
  }

  function Counts(r: Ride, c: ChairId): int {
    if r.chair == Some(c) && Finished(r.log) then 1 else 0
  }

  lemma {:induction false} StatsUpdate(rides: seq<Ride>, i: RideId, r: Ride, c: ChairId)
    requires i < |rides|
    ensures FinishedCount(rides[i := r], c) == FinishedCount(rides, c) - Counts(rides[i], c) + Counts(r, c)
    ensures EvaluationSum(rides[i := r], c) == EvaluationSum(rides, c) - Adds(rides[i], c) + Adds(r, c)
    decreases |rides|
  {
    hide Finished;
    var n := |rides| - 1;
    if i == n {
      assert rides[i := r][..n] == rides[..n];
    } else {
      assert rides[i := r][..n] == rides[..n][i := r];
      StatsUpdate(rides[..n], i, r, c);
    }
  }

  /** A new ride has no chair and counts for none. */
  lemma StatsCreate(t: Table, user: UserId, pickup: Coord, dest: Coord, c: ChairId)
    ensures var rides := Apply(t, CreateRide(user, pickup, dest)).rides;
            FinishedCount(rides, c) == FinishedCount(t.rides, c) && EvaluationSum(rides, c) == EvaluationSum(t.rides, c)
  {
    hide Finished;
    var rides := Apply(t, CreateRide(user, pickup, dest)).rides;
    assert |rides| > |t.rides| ==> rides[..|t.rides|] == t.rides;
  }

  lemma EvaluatedFinishes(r: Ride, evaluation: int, now: nat)
    requires RideOk(r) && EvaluationAccepted(r, evaluation)
    ensures var r' := Evaluated(r, evaluation, true, now);
            r'.chair == r.chair && r'.evaluation == Some(evaluation) && Finished(r'.log)
    ensures Finished(r.log) <==> r.evaluation.Some?
  {
    hide LogOk, SentInOrder;
    var r' := Evaluated(r, evaluation, true, now);
    assert r'.log[|r.log|].status == Completed;
  }

  /** An accepted evaluation of a ride of chair c raises c's count by one, if it is the ride's
      first, and c's sum by the evaluation, in place of an earlier one; no other chair's figures
      change. */
  lemma EvaluationRaisesStats(t: Table, i: RideId, evaluation: int, c: ChairId, d: ChairId)
    requires AllOk(t) && i < |t.rides| && t.rides[i].chair == Some(c) && EvaluationAccepted(t.rides[i], evaluation)
    ensures var rides, before := Apply(t, Evaluate(i, evaluation, true)).rides, t.rides[i].evaluation;
            && FinishedCount(rides, d) == FinishedCount(t.rides, d) + (if d == c && before.None? then 1 else 0)
            && EvaluationSum(rides, d) == EvaluationSum(t.rides, d) +
                 (if d != c then 0 else evaluation - (if before.Some? then before.value else 0))
  {
    hide RideOk, EvaluationAccepted, Evaluated, Finished;
    EvaluatedFinishes(t.rides[i], evaluation, t.clock + 1);
    StatsUpdate(t.rides, i, Evaluated(t.rides[i], evaluation, true, t.clock + 1), d);
  }

  /** No other request changes any figure, but for the assignment of a ride that is finished. */
  lemma OtherRequestsKeepStats(t: Table, q: Request, c: ChairId)
    requires !q.Evaluate?
    requires q.Assign? && q.ride < |t.rides| ==> !Finished(t.rides[q.ride].log)
    ensures var rides := Apply(t, q).rides;
            FinishedCount(rides, c) == FinishedCount(t.rides, c) && EvaluationSum(rides, c) == EvaluationSum(t.rides, c)
  {
    var i := Target(t, q);
    if q.CreateRide? {
      StatsCreate(t, q.user, q.pickup, q.dest, c);
    } else if i.Some? {
      var r, r' := t.rides[i.value], Changed(t.rides[i.value], q, t.clock + 1);
      ChangedFinishes(r, q, t.clock + 1);
      StatsUpdate(t.rides, i.value, r', c);
    }
  }

  lemma ChangedFinishes(r: Ride, q: Request, now: nat)
    requires !q.Evaluate? && !q.CreateRide?
    ensures var r' := Changed(r, q, now);
            (Finished(r'.log) <==> Finished(r.log)) && r'.evaluation == r.evaluation && (!q.Assign? ==> r'.chair == r.chair)
  {
    var r' := Changed(r, q, now);
    forall i | 0 <= i < |r'.log|
      ensures i < |r.log| ==> r'.log[i].status == r.log[i].status
      ensures i >= |r.log| ==> r'.log[i].status != Completed
    {
    }
    if i :| 0 <= i < |r.log| && r.log[i].status == Completed {
      assert r'.log[i].status == Completed;
    }
  }

  class Server {
    var rides: seq<Ride>
    var clock: nat

    ghost function View(): Table
      reads this
    {
      Table(rides, clock)
    }

    constructor ()
      ensures View() == Table([], 0)
    {
      rides, clock := [], 0;
    }

    method InsertStatus(ride: RideId, status: Status)
      requires ride < |rides|
      modifies this
      ensures rides == old(rides)[ride := Logged(old(rides)[ride], status)] && clock == old(clock)
    {
      var r := rides[ride];
      rides := rides[ride := r.(log := r.log + [Row(status, false, false)])];
    }

    /** `appPostRides`, without the coupon. */
    method PostRides(user: UserId, pickup: Coord, dest: Coord) returns (reply: Reply)
      modifies this
      ensures View() == Apply(old(View()), CreateRide(user, pickup, dest))
      ensures reply == Done <==>
              forall i | 0 <= i < |old(rides)| && old(rides)[i].user == user :: Latest(old(rides)[i].log) == Completed
      ensures reply != Done ==> reply == Conflict && View() == old(View())
      ensures reply == Done ==>
                && rides == old(rides) + [Ride(user, pickup, dest, None, None, [Row(Matching, false, false)], clock, [], [])]
                && LatestOfUser(rides, user) == Some(|old(rides)|)
    {
      var continuingRideCount, i := 0, 0;
      while i < |rides|
        invariant i <= |rides| && rides == old(rides) && clock == old(clock)
        invariant continuingRideCount >= 0
        invariant continuingRideCount == 0 <==> NoContinuingRide(rides[..i], user)
      {
        if rides[i].user == user && Latest(rides[i].log) != Completed {
          continuingRideCount := continuingRideCount + 1;
        }
        assert rides[..i + 1] == rides[..i] + [rides[i]];
        i := i + 1;
      }
      assert rides[..i] == rides;
      if continuingRideCount > 0 {
        return Conflict;
      }
      clock := clock + 1;
      rides := rides + [Ride(user, pickup, dest, None, None, [], clock, [], [])];
      InsertStatus(|rides| - 1, Matching);
      assert rides[|rides| - 1].log == [Row(Matching, false, false)];
      return Done;
    }

    /** `chairPostRideStatus`. An unknown status is answered with an error, but nothing is
        rolled back; nothing has been written either. */
    method PostRideStatus(ride: RideId, chair: ChairId, posted: Posted) returns (reply: Reply)
      modifies this
      ensures View() == Apply(old(View()), PostStatus(ride, chair, posted))
      ensures reply == Done <==>
              ride < |old(rides)| && old(rides)[ride].chair == Some(chair) &&
              (posted.PostEnroute? || (posted.PostCarrying? && Latest(old(rides)[ride].log) == Pickup))
      ensures reply == NotFound <==> ride >= |old(rides)|
      ensures reply != Done ==> rides == old(rides)
      ensures reply == Done ==>
                rides == old(rides)[ride := old(rides)[ride].(log := old(rides)[ride].log +
                  [Row(if posted.PostEnroute? then Enroute else Carrying, false, false)])]
    {
      if ride >= |rides| {
        return NotFound;
      }
      clock := clock + 1;
      if rides[ride].chair != Some(chair) {
        assert rides == rides[ride := rides[ride]];
        return BadRequest;
      }
      ghost var before := rides[ride].log;
      match posted {
        case PostEnroute =>
          InsertStatus(ride, Enroute);
        case PostCarrying =>
          var status := Latest(rides[ride].log);
          if status != Pickup {
            assert rides == rides[ride := rides[ride]];
            return BadRequest;
          }
          InsertStatus(ride, Carrying);
        case PostOther =>
          assert rides == rides[ride := rides[ride]];
          return BadRequest;
      }
      assert |rides[ride].log| == |before| + 1;
      return Done;
    }

    /** The status part of `chairPostCoordinate`. */
    method PostCoordinate(chair: ChairId, at: Coord)
      modifies this
      ensures View() == Apply(old(View()), WebApp.PostCoordinate(chair, at))
      ensures LatestOfChair(old(rides), chair).None? ==> rides == old(rides)
      ensures LatestOfChair(old(rides), chair).Some? ==>
                var i := LatestOfChair(old(rides), chair).value;
                var r := old(rides)[i];
                rides == if Latest(r.log) == Enroute && at == r.pickup
                         then old(rides)[i := r.(log := r.log + [Row(Pickup, false, false)])]
                         else if Latest(r.log) == Carrying && at == r.dest
                         then old(rides)[i := r.(log := r.log + [Row(Arrived, false, false)])]
                         else old(rides)
    {
      var found := LatestOfChair(rides, chair);
      if found.Some? {
        clock := clock + 1;
        var ride := found.value;
        var status := Latest(rides[ride].log);
        if status != Completed {
          if at == rides[ride].pickup && status == Enroute {
            InsertStatus(ride, Pickup);
          }
          if at == rides[ride].dest && status == Carrying {
            InsertStatus(ride, Arrived);
          }
        }
        assert rides == old(rides)[ride := rides[ride]];
      }
    }

    /** `appPostRideEvaluatation`; `charged` is the payment gateway's answer. */
    method PostEvaluation(ride: RideId, evaluation: int, charged: bool) returns (reply: Reply)
      modifies this
      ensures View() == Apply(old(View()), Evaluate(ride, evaluation, charged))
      ensures reply == Done <==>
              && 1 <= evaluation <= 5 && ride < |old(rides)| && Latest(old(rides)[ride].log) == Arrived
              && old(rides)[ride].evaluation != Some(evaluation) && charged
      ensures reply == BadRequest <==>
              evaluation < 1 || evaluation > 5 || (ride < |old(rides)| && Latest(old(rides)[ride].log) != Arrived)
      ensures reply == NotFound <==>
              1 <= evaluation <= 5 && (ride >= |old(rides)| ||
              (Latest(old(rides)[ride].log) == Arrived && old(rides)[ride].evaluation == Some(evaluation)))
      ensures reply != Done ==> rides == old(rides)
      ensures reply == Done ==>
                rides == old(rides)[ride :=
                  old(rides)[ride].(evaluation := Some(evaluation), updatedAt := clock,
                                    log := old(rides)[ride].log + [Row(Completed, false, false)])]
    {
      var before := rides;
      if ride < |rides| {
        clock := clock + 1;
      }
      if evaluation < 1 || evaluation > 5 {
        assert ride < |rides| ==> rides == rides[ride := rides[ride]];
        return BadRequest;
      }
      if ride >= |rides| {
        return NotFound;
      }
      assert rides == rides[ride := rides[ride]];
      if Latest(rides[ride].log) != Arrived {
        return BadRequest;
      }
      var count := if rides[ride].evaluation == Some(evaluation) then 0 else 1;
      rides := rides[ride := rides[ride].(evaluation := Some(evaluation), updatedAt := clock)];
      if count == 0 {
        rides := before;
        return NotFound;
      }
      InsertStatus(ride, Completed);
      if !charged {
        rides := before;
        return PaymentFailed;
      }
      return Done;
    }

    /** `appGetNotification`: the status it returns, and the mark it leaves. */
    method AppNotification(user: UserId) returns (data: Option<(RideId, Status)>)
      requires forall i | 0 <= i < |rides| :: rides[i].log != []
      modifies this
      ensures View() == Apply(old(View()), AppPoll(user))
      ensures data.None? <==> LatestOfUser(old(rides), user).None?
      ensures data.Some? ==>
                var i := LatestOfUser(old(rides), user).value;
                data.value == (i, old(rides)[i].log[NextRow(old(rides)[i].log, App)].status)
    {
      var found := LatestOfUser(rides, user);
      if found.None? {
        return None;
      }
      data := Carry(found.value, App);
    }

    /** `chairGetNotification`. */
    method ChairNotification(chair: ChairId) returns (data: Option<(RideId, Status)>)
      requires forall i | 0 <= i < |rides| :: rides[i].log != []
      modifies this
      ensures View() == Apply(old(View()), ChairPoll(chair))
      ensures data.None? <==> LatestOfChair(old(rides), chair).None?
      ensures data.Some? ==>
                var i := LatestOfChair(old(rides), chair).value;
                data.value == (i, old(rides)[i].log[NextRow(old(rides)[i].log, Chair)].status)
    {
      var found := LatestOfChair(rides, chair);
      if found.None? {
        return None;
      }
      data := Carry(found.value, Chair);
    }

    /** The part both notifications share: pick a row, answer with its status, mark it if it
        was unsent. */
    method Carry(ride: RideId, who: Receiver) returns (data: Option<(RideId, Status)>)
      requires ride < |rides| && rides[ride].log != []
      modifies this
      ensures rides == old(rides)[ride := Notified(old(rides)[ride], who)] && clock == old(clock) + 1
      ensures data == Some((ride, old(rides)[ride].log[NextRow(old(rides)[ride].log, who)].status))
    {
      clock := clock + 1;
      var log := rides[ride].log;
      var yetSent := FirstUnsent(log, who);
      var row := |log| - 1;
      var status := Latest(log);
      if yetSent.Some? {
        row := yetSent.value;
        status := log[row].status;
      }
      if yetSent.Some? {
        rides := rides[ride := rides[ride].(log := log[row := log[row].Mark(who)])];
      }
      rides := rides[ride := rides[ride].See(who, row)];
      assert yetSent.None? ==> log[row].Sent(who) && log == log[row := log[row].Mark(who)];
      return Some((ride, status));
    }

    /** `getChairStats`: in every reachable state it counts exactly the finished rides, and
        every evaluation it reads is there. */
    method GetChairStats(chair: ChairId) returns (totalRideCount: nat, totalEvaluation: int)
      requires AllOk(View())
      ensures totalRideCount == FinishedCount(rides, chair) == |FinishedRides(rides, chair)|
      ensures totalEvaluation == EvaluationSum(rides, chair)
    {
      totalRideCount, totalEvaluation := 0, 0;
      var i := 0;
      while i < |rides|
        invariant i <= |rides|
        invariant totalRideCount == FinishedCount(rides[..i], chair)
        invariant totalEvaluation == EvaluationSum(rides[..i], chair)
      {
        assert rides[..i + 1][..i] == rides[..i];
        if rides[i].chair == Some(chair) {
          assert RideOk(rides[i]);
          var finished := ReadLog(rides[i].log);
          if finished {
            totalRideCount := totalRideCount + 1;
            totalEvaluation := totalEvaluation + rides[i].evaluation.value;
          }
        }
        i := i + 1;
      }
      assert rides[..i] == rides;
      FinishedCountIs(rides, chair);
    }
  }

  /** The loop over one ride's status rows. That all three statuses were seen is the same as
      that COMPLETED was. */
  method ReadLog(log: seq<Row>) returns (counted: bool)
    requires LogOk(log)
    ensures counted <==> Finished(log)
  {
    var arrived, pickedUp, isCompleted := false, false, false;
    var i := 0;
    while i < |log|
      invariant i <= |log|
      invariant arrived <==> exists j | 0 <= j < i :: log[j].status == Arrived
      invariant pickedUp <==> exists j | 0 <= j < i :: log[j].status == Carrying
      invariant isCompleted <==> exists j | 0 <= j < i :: log[j].status == Completed
    {
      var status := log[i].status;
      if status == Arrived {
        arrived := true;
      } else if status == Carrying {
        pickedUp := true;
      }
      if status == Completed {
        isCompleted := true;
      }
      i := i + 1;
    }
    if isCompleted {
      var k :| 0 <= k < |log| && log[k].status == Completed;
      CompletedIsPreceded(log, k);
      assert log[k - 1].status == SIX[4] && log[k - 2].status == SIX[3];
    }
    return arrived && pickedUp && isCompleted;
  }
}
