/** How the simulator's two agents react to a notification. */
module Agents {
  import opened Grid
  import opened Wrappers
  import opened RideStatus

  type RideId = nat
  type UserId = nat

  /** `RequestStatuses`: the expected status and what chair and user know of it. */
  datatype Statuses = Statuses(desired: Status, chair: Status, user: Status)

  /** What a user knows of its own ride from the start. */
  datatype Trip = Trip(pickup: Coord, dest: Coord, fare: int)

  /** A user's notification, but for its status, its ride's id and the chair's statistics. */
  datatype News = News(trip: Trip, chair: Option<nat>)

  /** The part of a chair's notification that is compared with what is known. */
  datatype Notice = Notice(ride: RideId, user: UserId, pickup: Coord, dest: Coord)

  datatype Outcome =
    | Accepted           // taken as the new state of the current ride
    | Ignored            // a late COMPLETED of an earlier ride
    | NotRequesting      // USER_NOT_REQUESTING_BUT_STATUS_CHANGED
    | NotAssigned        // CHAIR_NOT_ASSIGNED_BUT_STATUS_CHANGED
    | AlreadyHasRequest  // CHAIR_ALREADY_HAS_REQUEST
    | Unexpected         // UNEXPECTED_..._REQUEST_STATUS_TRANSITION_OCCURRED
    | WrongData          // ..._RECEIVED_DATA_IS_WRONG

  predicate Fine(o: Outcome) {
    o.Accepted? || o.Ignored?
  }

  // ---- The user ----------------------------------------------------------------------

  /** The transitions a user accepts: none at all, the expected one, and three that are late
      or early because notifications and client calls overtake each other. */
  predicate Tolerated(s: Statuses, status: Status) {
    || s.user == status || s.desired == status
    || (s.user == Matching && s.desired == Pickup && status == Enroute)
    || (s.user == Pickup && s.desired == Arrived && status == Carrying)
    || (s.user == Pickup && s.desired == Pickup && status == Carrying)
  }

  /** `known`: an earlier ride of the history that the notification may be for; `valid`: the
      validator's answer. */
  function UserReact(current: Option<Statuses>, status: Status, known: bool, valid: bool): Outcome {
    if current.None? then
      if status == Completed && known then Ignored else NotRequesting
    else if Tolerated(current.value, status) then
      if valid then Accepted else WrongData
    else if status == Completed && known then Ignored
    else Unexpected
  }

  /** `ValidateNotificationEvent`: the chair must be one of the simulator's. */
  predicate NewsValid(n: News, own: Trip, chairs: nat, ignoreChair: bool) {
    n.trip == own && (ignoreChair || (n.chair.Some? && n.chair.value < chairs))
  }

  /** `compareUserNotificationEvent`. */
  predicate SameNews(known: News, n: News) {
    n.trip == known.trip && n.chair.Some? && n.chair == known.chair
  }

  /** The validators of `HandleNotification`. `validated` is what was last found right; it
      outlives the ride it was about. */
  predicate UserValid(status: Status, n: News, own: Trip, chairs: nat, validated: Option<News>) {
    match status
    case Matching => NewsValid(n, own, chairs, true)
    case Enroute => NewsValid(n, own, chairs, false)
    case Completed => NewsValid(n, own, chairs, false)
    case _ => if validated.Some? then SameNews(validated.value, n) else NewsValid(n, own, chairs, false)
  }

  /** `validated` after an accepted notification. */
  function ValidatedAfter(status: Status, n: News, validated: Option<News>): Option<News> {
    match status
    case Matching => validated
    case Enroute => Some(n)
    case Completed => validated
    case _ => if validated.Some? then validated else Some(n)
  }

  /** What a user rejects. A tolerated notification is accepted or reported as wrong, and with
      nothing validated before it is accepted if and only if pickup, destination and fare are
      the user's own and, but for MATCHING, the chair is one of the simulator's. */
  lemma FirstNewsAcceptedIff(st: Statuses, status: Status, known: bool, n: News, own: Trip, chairs: nat)
    requires Tolerated(st, status)
    ensures var o := UserReact(Some(st), status, known, UserValid(status, n, own, chairs, None));
            && (o == Accepted <==>
                  n.trip.pickup == own.pickup && n.trip.dest == own.dest && n.trip.fare == own.fare &&
                  (status != Matching ==> n.chair.Some? && n.chair.value < chairs))
            && (o != Accepted <==> o == WrongData)
  {
  }

  /** After a validation, PICKUP, CARRYING and ARRIVED are compared with what was validated and
      not with the user's own trip; the other statuses are not compared with it. */
  lemma LaterNewsAcceptedIff(st: Statuses, status: Status, known: bool, n: News, own: Trip, chairs: nat, before: News)
    requires Tolerated(st, status)
    ensures var o := UserReact(Some(st), status, known, UserValid(status, n, own, chairs, Some(before)));
            && (status in {Pickup, Carrying, Arrived} ==>
                  (o == Accepted <==>
                     n.trip.pickup == before.trip.pickup && n.trip.dest == before.trip.dest &&
                     n.trip.fare == before.trip.fare && n.chair.Some? && n.chair == before.chair))
            && (status !in {Pickup, Carrying, Arrived} ==>
                  o == UserReact(Some(st), status, known, UserValid(status, n, own, chairs, None)))
            && (o != Accepted <==> o == WrongData)
  {
  }

  /** What is left validated: the last ENROUTE, or the first later status without one. */
  lemma ValidatedIs(status: Status, n: News, before: Option<News>)
    ensures status == Enroute ==> ValidatedAfter(status, n, before) == Some(n)
    ensures status in {Pickup, Carrying, Arrived} ==>
              ValidatedAfter(status, n, before).Some? && (before.Some? ==> ValidatedAfter(status, n, before) == before) &&
              (before.None? ==> ValidatedAfter(status, n, before) == Some(n))
    ensures status in {Matching, Completed} ==> ValidatedAfter(status, n, before) == before
  {
  }

  /** The transitions that are refused: an accepted status is the known or the expected one, or
      follows the known one directly; and then it is at most one ahead of the expected one,
      which is CARRYING overtaking the answer to the chair's departure. */
  lemma ToleratedOnly(s: Statuses, status: Status)
    ensures Tolerated(s, status) ==>
              status in {s.user, s.desired} ||
              (Rank(status) == Rank(s.user) + 1 && Rank(status) <= Rank(s.desired) + 1 && status in {Enroute, Carrying})
    ensures Tolerated(s, status) && Rank(status) > Rank(s.desired) && status != s.user ==>
              status == Carrying && s.desired == s.user == Pickup
    ensures Tolerated(s, Enroute) <==> Enroute in {s.user, s.desired} || (s.user == Matching && s.desired == Pickup)
    ensures Tolerated(s, Carrying) <==>
              Carrying in {s.user, s.desired} || (s.user == Pickup && s.desired in {Pickup, Arrived})
    ensures status in {Matching, Pickup, Arrived, Completed} ==> (Tolerated(s, status) <==> status in {s.user, s.desired})
  {
  }

  /** A user without a ride accepts nothing, and drops COMPLETED of an earlier ride only; what is
      not tolerated is dropped or reported, by the same rule. */
  lemma RefusedIff(current: Option<Statuses>, status: Status, known: bool, valid: bool)
    requires current.None? || !Tolerated(current.value, status)
    ensures var o := UserReact(current, status, known, valid);
            && (o == Ignored <==> status == Completed && known)
            && (o == NotRequesting <==> current.None? && o != Ignored)
            && (o == Unexpected <==> current.Some? && o != Ignored)
  {
  }

  /** A late COMPLETED of an earlier ride is dropped exactly when the current ride is neither
      expected to be completed nor already completed. */
  lemma LateIsIgnored(current: Option<Statuses>, valid: bool)
    ensures UserReact(current, Completed, true, valid) == Ignored <==>
            current.None? || (current.value.desired != Completed && current.value.user != Completed)
  {
  }

  /** Otherwise it is taken for the current ride: different data are reported as wrong, and
      equal data complete the current ride early, after which every notification of its own
      but COMPLETED is an unexpected transition. */
  lemma LateTakenForCurrent(s: Statuses, valid: bool)
    requires s.desired == Completed || s.user == Completed
    ensures UserReact(Some(s), Completed, true, valid) == if valid then Accepted else WrongData
    ensures forall own: Status, known: bool | own != Completed && own != s.desired ::
              UserReact(Some(s.(user := Completed)), own, known, valid) == Unexpected
  {
  }

  class Request {
    const serverId: RideId
    const trip: Trip
    var desired: Status
    var chairStatus: Status
    var userStatus: Status

    function View(): Statuses
      reads this
    {
      Statuses(desired, chairStatus, userStatus)
    }

    constructor (serverId: RideId, trip: Trip)
      ensures this.serverId == serverId && this.trip == trip && View() == Statuses(Matching, Matching, Matching)
    {
      this.serverId, this.trip := serverId, trip;
      desired, chairStatus, userStatus := Matching, Matching, Matching;
    }
  }

  /** The newest completed request of the history with this id. */
  function NewestCompleted(history: seq<Request>, id: RideId): (r: Option<nat>)
    reads history
    ensures r.Some? ==> r.value < |history| && history[r.value].serverId == id && history[r.value].desired == Completed
    ensures r.Some? ==> forall i | r.value < i < |history| :: history[i].serverId != id || history[i].desired != Completed
    ensures r.None? ==> forall i | 0 <= i < |history| :: history[i].serverId != id || history[i].desired != Completed
  {
    if history == [] then None
    else
      var k := |history| - 1;
      if history[k].serverId == id && history[k].desired == Completed then Some(k)
      else NewestCompleted(history[..k], id)
  }

  class User {
    var request: Request?
    var history: seq<Request>
    var validated: Option<News>

    function Current(): Option<Statuses>
      reads this, request
    {
      if request == null then None else Some(request.View())
    }

    constructor ()
      ensures request == null && history == [] && validated.None?
    {
      request, history, validated := null, [], None;
    }

    /** What the validator of a status would answer, and what it would leave validated. */
    method Validate(status: Status, n: News, chairs: nat) returns (ok: bool, next: Option<News>)
      requires request != null
      ensures ok == UserValid(status, n, request.trip, chairs, validated)
      ensures ok ==> next == ValidatedAfter(status, n, validated)
    {
      next := validated;
      match status {
        case Matching =>
          ok := NewsValid(n, request.trip, chairs, true);
        case Completed =>
          ok := NewsValid(n, request.trip, chairs, false);
        case Enroute =>
          ok := NewsValid(n, request.trip, chairs, false);
          next := Some(n);
        case _ =>
          if validated.Some? {
            ok := SameNews(validated.value, n);
          } else {
            ok := NewsValid(n, request.trip, chairs, false);
            next := Some(n);
          }
      }
    }

    /** `HandleNotification`: the validator is asked only if the transition is tolerated. */
    method HandleNotification(status: Status, serverRequestId: RideId, n: News, chairs: nat) returns (o: Outcome)
      modifies this, request, history
      ensures request == old(request) && history == old(history)
      ensures var valid := request != null && UserValid(status, n, request.trip, chairs, old(validated));
              o == UserReact(old(Current()), status, old(NewestCompleted(history, serverRequestId)).Some?, valid)
      ensures validated == if o == Accepted then ValidatedAfter(status, n, old(validated)) else old(validated)
      ensures o == Accepted ==>
                request != null && request.View() == old(request.View()).(user := status)
      ensures o == Ignored ==>
                var k := old(NewestCompleted(history, serverRequestId)).value;
                history[k].View() == old(history[k].View()).(user := Completed)
    {
      var valid, next := false, validated;
      if request != null {
        valid, next := Validate(status, n, chairs);
      }
      o := ChangeRequestStatus(status, serverRequestId, valid);
      if o == Accepted {
        validated := next;
      }
    }

    /** `ChangeRequestStatus`; `valid` is what the validator would answer. */
    method ChangeRequestStatus(status: Status, serverRequestId: RideId, valid: bool) returns (o: Outcome)
      modifies request, history
      ensures o == UserReact(old(Current()), status, old(NewestCompleted(history, serverRequestId)).Some?, valid)
      ensures o == Accepted ==>
                request != null && request.View() == old(request.View()).(user := status)
      ensures o == Ignored ==>
                var k := old(NewestCompleted(history, serverRequestId)).value;
                history[k].View() == old(history[k].View()).(user := Completed)
      ensures forall r | r in history && !(o == Accepted && r == request) &&
                         !(o == Ignored && r == history[old(NewestCompleted(history, serverRequestId)).value]) ::
                r.View() == old(r.View())
      ensures o != Accepted && request != null && request !in history ==> request.View() == old(request.View())
    {
      if request == null {
        if status == Completed {
          var found := IgnoreLate(serverRequestId);
          if found {
            return Ignored;
          }
        }
        return NotRequesting;
      }
      if request.userStatus != status && request.desired != status {
        if request.userStatus == Matching && request.desired == Pickup && status == Enroute {
          // the chair arrived before the user was told that it had set off
        } else if request.userStatus == Pickup && request.desired == Arrived && status == Carrying {
          // arrived already, the notifications are late
        } else if request.desired == Pickup && request.userStatus == Pickup && status == Carrying {
          // the notification overtook the answer to the chair's departure
        } else if status == Completed {
          var found := IgnoreLate(serverRequestId);
          return if found then Ignored else Unexpected;
        } else {
          return Unexpected;
        }
      }
      if !valid {
        return WrongData;
      }
      request.userStatus := status;
      return Accepted;
    }

    /** The backward loop over the history. */
    method IgnoreLate(serverRequestId: RideId) returns (found: bool)
      modifies history
      ensures found == old(NewestCompleted(history, serverRequestId)).Some?
      ensures found ==>
                var k := old(NewestCompleted(history, serverRequestId)).value;
                && history[k].View() == old(history[k].View()).(user := Completed)
                && forall r | r in history && r != history[k] :: r.View() == old(r.View())
      ensures !found ==> forall r | r in history :: r.View() == old(r.View())
    {
      var i := |history|;
      while i > 0
        invariant 0 <= i <= |history|
        invariant forall j | i <= j < |history| ::
                    history[j].serverId != serverRequestId || history[j].desired != Completed
        invariant forall r | r in history :: r.View() == old(r.View())
      {
        i := i - 1;
        if history[i].serverId == serverRequestId && history[i].desired == Completed {
          history[i].userStatus := Completed;
          return true;
        }
      }
      return false;
    }
  }

  // ---- The chair ---------------------------------------------------------------------

  /** The ride a chair is working on and the assignment it has been told of. */
  datatype Mind = Mind(request: Option<RideId>, matching: Option<Notice>)

  predicate SameData(a: Notice, b: Notice) {
    a.user == b.user && a.pickup == b.pickup && a.dest == b.dest
  }

  /** `ValidateChairNotificationEvent`: the ride's id is not compared. */
  predicate ChairDataOk(m: Mind, n: Notice) {
    m.matching.Some? && SameData(n, m.matching.value)
  }

  /** `known`: a completed ride of the history has the notification's id; `desired`: what the
      current ride is expected to be. */
  function ChairReact(m: Mind, status: Status, n: Notice, known: bool, desired: Status): Outcome {
    match status
    case Matching =>
      if m.matching.Some? && m.matching.value.ride != n.ride then AlreadyHasRequest else Accepted
    case Completed =>
      if m.request.None? then
        if known then Ignored else NotAssigned
      else if desired != Completed then Unexpected
      else if !ChairDataOk(m, n) then WrongData
      else Accepted
    case _ => if ChairDataOk(m, n) then Accepted else WrongData
  }

  /** What an accepted notification leaves in the chair's mind. */
  function MindAfter(m: Mind, status: Status, n: Notice): Mind {
    if status == Matching then m.(matching := Some(n))
    else if status == Completed then Mind(None, None)
    else m
  }

  /** What a chair accepts, notification by notification: an assignment unless it has another
      one; the progress of a ride whose user, pickup and destination are those of its
      assignment, whatever the ride's id; COMPLETED of the current ride when it is expected. */
  lemma ChairAcceptedIff(m: Mind, status: Status, n: Notice, known: bool, desired: Status)
    ensures var o, a := ChairReact(m, status, n, known, desired), m.matching;
            var same := a.Some? && n.user == a.value.user && n.pickup == a.value.pickup && n.dest == a.value.dest;
            && (o == Accepted <==>
                  match status
                  case Matching => a.None? || a.value.ride == n.ride
                  case Completed => m.request.Some? && desired == Completed && same
                  case _ => same)
            && (o == AlreadyHasRequest <==> status == Matching && a.Some? && a.value.ride != n.ride)
            && (o == Ignored <==> status == Completed && m.request.None? && known)
            && (o == NotAssigned <==> status == Completed && m.request.None? && !known)
            && (o == Unexpected <==> status == Completed && m.request.Some? && desired != Completed)
  {
  }

  /** What an accepted notification leaves: MATCHING the assignment, COMPLETED nothing, the
      progress of a ride everything. */
  lemma MindIs(m: Mind, status: Status, n: Notice)
    ensures var a := MindAfter(m, status, n);
            && (status == Matching ==> a.matching == Some(n) && a.request == m.request)
            && (status == Completed ==> a.matching.None? && a.request.None?)
            && (status !in {Matching, Completed} ==> a == m)
  {
  }

  class ChairAgent {
    var request: Request?
    var matchingData: Option<Notice>
    var history: seq<Request>

    function View(): Mind
      reads this
    {
      Mind(if request == null then None else Some(request.serverId), matchingData)
    }

    function Desired(): Status
      reads this, request
    {
      if request == null then Matching else request.desired
    }

    constructor ()
      ensures View() == Mind(None, None) && history == []
    {
      request, matchingData, history := null, None, [];
    }

    method Validate(n: Notice) returns (ok: bool)
      ensures ok == ChairDataOk(View(), n)
    {
      if matchingData.None? {
        return false;
      }
      if n.user != matchingData.value.user {
        return false;
      }
      if n.pickup != matchingData.value.pickup {
        return false;
      }
      return n.dest == matchingData.value.dest;
    }

    /** `HandleNotification`. */
    method HandleNotification(status: Status, n: Notice) returns (o: Outcome)
      modifies this, request, history
      ensures o == ChairReact(old(View()), status, n, old(NewestCompleted(history, n.ride)).Some?, old(Desired()))
      ensures View() == if o == Accepted then MindAfter(old(View()), status, n) else old(View())
      ensures history == old(history)
      ensures o == Accepted && status == Completed ==>
                old(request) != null && old(request).View() == old(request.View()).(chair := Completed)
      ensures o == Ignored ==>
                var k := old(NewestCompleted(history, n.ride)).value;
                history[k].View() == old(history[k].View()).(chair := Completed)
      ensures o != Ignored && !(o == Accepted && status == Completed) ==>
                request == old(request) && forall r | r in history || r == request :: r.View() == old(r.View())
    {
      match status {
        case Matching =>
          if matchingData.Some? && matchingData.value.ride != n.ride {
            return AlreadyHasRequest;
          }
          matchingData := Some(n);
          return Accepted;
        case Completed =>
          if request == null {
            var i := |history|;
            while i > 0
              invariant 0 <= i <= |history| && history == old(history) && View() == old(View())
              invariant forall j | i <= j < |history| ::
                          history[j].serverId != n.ride || history[j].desired != Completed
              invariant forall r | r in history :: r.View() == old(r.View())
            {
              i := i - 1;
              if history[i].serverId == n.ride && history[i].desired == Completed {
                history[i].chairStatus := Completed;
                return Ignored;
              }
            }
            return NotAssigned;
          }
          if request.desired != Completed {
            return Unexpected;
          }
          var ok := Validate(n);
          if !ok {
            return WrongData;
          }
          request.chairStatus := Completed;
          request := null;
          matchingData := None;
          return Accepted;
        case _ =>
          var ok := Validate(n);
          return if ok then Accepted else WrongData;
      }
    }
  }
}
