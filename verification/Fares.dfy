/** The fare arithmetic. Server and simulator each have their own copy of it. */
module Fares {
  import opened Grid

  const INITIAL_FARE: nat := 500
  const FARE_PER_DISTANCE: nat := 100

  function Metered(pickup: Coord, dest: Coord): nat {
    FARE_PER_DISTANCE * Dist(pickup, dest)
  }

  /** Server: the undiscounted fare, also the sale. */
  function CalculateFare(pickup: Coord, dest: Coord): nat {
    INITIAL_FARE + Metered(pickup, dest)
  }

  /** Server: the coupon comes off the metered part only and never below zero. */
  function DiscountedFare(pickup: Coord, dest: Coord, discount: nat): nat {
    INITIAL_FARE + Max(Metered(pickup, dest) - discount, 0)
  }

  /** Simulator: `Request.Sales`, `Request.Fare` and `Request.ActualDiscount`. */
  function Sales(pickup: Coord, dest: Coord): nat {
    INITIAL_FARE + Dist(pickup, dest) * FARE_PER_DISTANCE
  }

  function Fare(pickup: Coord, dest: Coord, discount: nat): nat {
    INITIAL_FARE + Max(Dist(pickup, dest) * FARE_PER_DISTANCE - discount, 0)
  }

  function ActualDiscount(pickup: Coord, dest: Coord, discount: nat): int {
    Sales(pickup, dest) - Fare(pickup, dest, discount)
  }

  /** What is taken off is the coupon, but at most the metered fare; the two sides agree. */
  lemma DiscountIsCapped(pickup: Coord, dest: Coord, discount: nat)
    ensures ActualDiscount(pickup, dest, discount) == Min(Metered(pickup, dest), discount)
    ensures Sales(pickup, dest) == 500 + 100 * Dist(pickup, dest)
    ensures Fare(pickup, dest, discount) == Max(500, 500 + 100 * Dist(pickup, dest) - discount)
    ensures Fare(pickup, dest, discount) == DiscountedFare(pickup, dest, discount)
    ensures Sales(pickup, dest) == CalculateFare(pickup, dest)
    ensures INITIAL_FARE <= Fare(pickup, dest, discount) <= Sales(pickup, dest)
  {
  }
}
