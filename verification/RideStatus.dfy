/** The six statuses of a ride, in the order in which a ride passes through them. */
module RideStatus {
  datatype Status = Matching | Enroute | Pickup | Carrying | Arrived | Completed

  const SIX: seq<Status> := [Matching, Enroute, Pickup, Carrying, Arrived, Completed]

  function Rank(s: Status): nat {
    match s
    case Matching => 0
    case Enroute => 1
    case Pickup => 2
    case Carrying => 3
    case Arrived => 4
    case Completed => 5
  }
}
