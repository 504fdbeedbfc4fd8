/** Where the money of a ride is counted: when the payment is verified, when the evaluation is
    marked, and when the sale is booked for the owner. */
module Money {
  import opened Grid
  import opened Wrappers
  import opened Fares

  type Token = nat
  type UserId = nat

  datatype Err = NoError | NoRequest | AlreadyPaid | WrongAmount

  datatype StatusType = Success | InvalidToken | InvalidAmount

  // ---- PaymentDB.Verify --------------------------------------------------------------

  class Request {
    const pickup: Coord
    const dest: Coord
    const discount: nat
    var paid: bool

    constructor (pickup: Coord, dest: Coord, discount: nat)
      ensures this.pickup == pickup && this.dest == dest && this.discount == discount && !paid
    {
      this.pickup, this.dest, this.discount := pickup, dest, discount;
      paid := false;
    }

    method CompareAndSwapPaid() returns (swapped: bool)
      modifies this
      ensures paid && swapped == !old(paid)
    {
      swapped := !paid;
      paid := true;
    }
  }

  class User {
    var request: Request?

    constructor ()
      ensures request == null
    {
      request := null;
    }
  }

  /** What a verification finds out about a payment for a request with this fare. */
  function Verdict(request: Option<(nat, bool)>, amount: int): Err {
    if request.None? then NoRequest
    else if amount != request.value.0 then WrongAmount
    else if request.value.1 then AlreadyPaid
    else NoError
  }

  class PaymentDB {
    var paymentTokens: map<Token, User>
    var committedPayments: seq<int>

    constructor ()
      ensures paymentTokens == map[] && committedPayments == []
    {
      paymentTokens, committedPayments := map[], [];
    }

    /** `Verify`. The guard on the amount can never hold, so no amount is invalid; a payment
        that is found to be wrong is committed all the same. */
    method Verify(token: Token, amount: int) returns (status: StatusType, err: Err)
      modifies this`committedPayments, (if token in paymentTokens then {paymentTokens[token].request} else {})
      ensures status == if token in paymentTokens then Success else InvalidToken
      ensures committedPayments ==
              if token in paymentTokens then old(committedPayments) + [amount] else old(committedPayments)
      ensures token !in paymentTokens ==> err == NoError
      ensures token in paymentTokens ==>
                var r := paymentTokens[token].request;
                && (err == NoRequest <==> r == null)
                && (err == WrongAmount <==> r != null && amount != Fare(r.pickup, r.dest, r.discount))
                && (err == AlreadyPaid <==> r != null && amount == Fare(r.pickup, r.dest, r.discount) && old(r.paid))
                && (r != null ==> r.paid)
      ensures token in paymentTokens ==>
                var r := paymentTokens[token].request;
                err == Verdict(if r == null then None else Some((Fare(r.pickup, r.dest, r.discount), old(r.paid))), amount)
    {
      if token !in paymentTokens {
        return InvalidToken, NoError;
      }
      if amount <= 0 && amount > 1_000_000 {
        return InvalidAmount, NoError;
      }
      var req := paymentTokens[token].request;
      status, err := Success, NoError;
      if req == null {
        err := NoRequest;
      } else {
        var swapped := req.CompareAndSwapPaid();
        if !swapped {
          err := AlreadyPaid;
        }
        if amount != Fare(req.pickup, req.dest, req.discount) {
          err := WrongAmount;
        }
      }
      committedPayments := committedPayments + [amount];
    }

    /** `TotalPayment`. */
    method TotalPayment() returns (total: int)
      ensures total == Sum(committedPayments)
    {
      total := 0;
      for i := 0 to |committedPayments|
        invariant total == Sum(committedPayments[..i])
      {
        assert committedPayments[..i + 1][..i] == committedPayments[..i];
        total := total + committedPayments[i];
      }
      assert committedPayments[..|committedPayments|] == committedPayments;
    }
  }

  function Sum(xs: seq<int>): int {
    if xs == [] then 0 else Sum(xs[..|xs| - 1]) + xs[|xs| - 1]
  }

  lemma SumAppend(xs: seq<int>, x: int)
    ensures Sum(xs + [x]) == Sum(xs) + x
  {
    assert (xs + [x])[..|xs|] == xs;
  }

  // ---- Every run ---------------------------------------------------------------------

  /** The evaluation of a ride: a payment is verified, then the simulator marks the ride as
      evaluated, then it books the sale. */
  datatype Progress = Open | Paid | Marked | Settled

  /** `owner` is filled in when the sale is booked. */
  datatype Ride = Ride(user: UserId, pickup: Coord, dest: Coord, discount: nat, owner: nat, progress: Progress)

  /** `current` is each user's request; `sales` the owners' totals; `wrong`: a verification has
      found a wrong payment, or a ride was marked without one. */
  datatype State = State(rides: seq<Ride>, current: map<UserId, nat>, payments: seq<int>, sales: map<nat, int>,
                         wrong: bool)

  /** `Charge`: the payment server has processed a payment with the user's token, of whatever
      amount and at whatever moment. */
  datatype Step =
    | Ask(user: UserId, pickup: Coord, dest: Coord, discount: nat)
    | Take(user: UserId, ride: nat)
    | Charge(user: UserId, amount: int)
    | Mark(user: UserId)
    | Settle(user: UserId, owner: nat)
    | Leave(user: UserId)

  predicate On(s: State, user: UserId) {
    user in s.current && s.current[user] < |s.rides|
  }

  predicate Enabled(s: State, step: Step) {
    match step
    case Ask(_, _, _, _) => true
    case Take(user, ride) => ride < |s.rides| && s.rides[ride].user == user
    case Charge(_, _) => true
    case Mark(user) => On(s, user) && s.rides[s.current[user]].progress in {Open, Paid}
    case Settle(user, _) => On(s, user) && s.rides[s.current[user]].progress == Marked
    case Leave(_) => true
  }

  function RideFare(r: Ride): nat {
    Fare(r.pickup, r.dest, r.discount)
  }

  function RideSales(r: Ride): nat {
    Sales(r.pickup, r.dest)
  }

  /** What the simulator finds out about a payment. */
  function Verified(s: State, user: UserId, amount: int): Err {
    if !On(s, user) then Verdict(None, amount)
    else
      var r := s.rides[s.current[user]];
      Verdict(Some((RideFare(r), r.progress != Open)), amount)
  }

  function SetRide(s: State, user: UserId, r: Ride): State
    requires On(s, user)
  {
    s.(rides := s.rides[s.current[user] := r])
  }

  function Apply(s: State, step: Step): State
    requires Enabled(s, step)
  {
    match step
    case Ask(user, pickup, dest, discount) => s.(rides := s.rides + [Ride(user, pickup, dest, discount, 0, Open)])
    case Take(user, ride) => s.(current := s.current[user := ride])
    case Charge(user, amount) =>
      var c := s.(payments := s.payments + [amount], wrong := s.wrong || Verified(s, user, amount) != NoError);
      if On(s, user) && s.rides[s.current[user]].progress == Open
      then SetRide(c, user, s.rides[s.current[user]].(progress := Paid)) else c
    case Mark(user) =>
      var r := s.rides[s.current[user]];
      SetRide(s, user, r.(progress := Marked)).(wrong := s.wrong || r.progress != Paid)
    case Settle(user, owner) =>
      var r := s.rides[s.current[user]].(progress := Settled, owner := owner);
      SetRide(s, user, r).(sales := s.sales[owner := OwnerSales(s, owner) + RideSales(r)])
    case Leave(user) => s.(current := s.current - {user})
  }

  function OwnerSales(s: State, owner: nat): int {
    if owner in s.sales then s.sales[owner] else 0
  }

  ghost predicate IsRun(s: State, steps: seq<Step>)
    decreases |steps|
  {
    steps == [] || (Enabled(s, steps[0]) && IsRun(Apply(s, steps[0]), steps[1..]))
  }

  ghost function After(s: State, steps: seq<Step>): State
    requires IsRun(s, steps)
    decreases |steps|
  {
    if steps == [] then s else After(Apply(s, steps[0]), steps[1..])
  }

  function Start(): State {
    State([], map[], [], map[], false)
  }

  /** `TotalDiscount`: over the rides that are marked as evaluated. */
  function TotalDiscount(rides: seq<Ride>): int {
    if rides == [] then 0
    else
      var r := rides[|rides| - 1];
      TotalDiscount(rides[..|rides| - 1]) +
      if r.progress in {Marked, Settled} then ActualDiscount(r.pickup, r.dest, r.discount) else 0
  }

  /** The settled sales of one owner. */
  function SalesOf(rides: seq<Ride>, owner: nat): int {
    if rides == [] then 0
    else
      var r := rides[|rides| - 1];
      SalesOf(rides[..|rides| - 1], owner) + if r.owner == owner && r.progress == Settled then RideSales(r) else 0
  }

  /** `TotalSales`: over all owners. */
  function TotalSales(rides: seq<Ride>): int {
    if rides == [] then 0
    else
      var r := rides[|rides| - 1];
      TotalSales(rides[..|rides| - 1]) + if r.progress == Settled then RideSales(r) else 0
  }

  /** What evaluations in flight have paid but not yet booked. */
  function InFlight(rides: seq<Ride>): int {
    if rides == [] then 0
    else InFlight(rides[..|rides| - 1]) + Gap(rides[|rides| - 1])
  }

  function Gap(r: Ride): nat {
    match r.progress
    case Paid => RideFare(r)
    case Marked => RideSales(r)
    case _ => 0
  }

  function Payments(rides: seq<Ride>): int {
    if rides == [] then 0
    else Payments(rides[..|rides| - 1]) + if rides[|rides| - 1].progress == Open then 0 else RideFare(rides[|rides| - 1])
  }

  ghost predicate Inv(s: State) {
    && (!s.wrong ==> Sum(s.payments) == Payments(s.rides))
    && (forall o :: OwnerSales(s, o) == SalesOf(s.rides, o))
  }

  /** Moving one ride on changes each total by that ride's share. */
  lemma {:induction false} ProgressTotals(rides: seq<Ride>, i: nat, r': Ride, o: nat)
    requires i < |rides| && r' == rides[i].(progress := r'.progress, owner := r'.owner)
    ensures var r := rides[i];
            && Payments(rides[i := r']) ==
                 Payments(rides) - (if r.progress == Open then 0 else RideFare(r))
                   + (if r'.progress == Open then 0 else RideFare(r))
            && SalesOf(rides[i := r'], o) ==
                 SalesOf(rides, o) - (if r.owner == o && r.progress == Settled then RideSales(r) else 0)
                   + (if r'.owner == o && r'.progress == Settled then RideSales(r) else 0)
    decreases |rides|
  {
    var n := |rides| - 1;
    if i == n {
      assert rides[i := r'][..n] == rides[..n];
    } else {
      assert rides[i := r'][..n] == rides[..n][i := r'];
      ProgressTotals(rides[..n], i, r', o);
    }
  }

  lemma AskKeepsInv(s: State, step: Step)
    requires Inv(s) && Enabled(s, step) && step.Ask?
    ensures Inv(Apply(s, step))
  {
    assert Apply(s, step).rides[..|s.rides|] == s.rides;
  }

  lemma ChargeKeepsInv(s: State, user: UserId, amount: int)
    requires Inv(s)
    ensures Inv(Apply(s, Charge(user, amount)))
  {
    var s' := Apply(s, Charge(user, amount));
    SumAppend(s.payments, amount);
    if On(s, user) && s.rides[s.current[user]].progress == Open {
      var i := s.current[user];
      ProgressTotals(s.rides, i, s'.rides[i], 0);
      forall o
        ensures OwnerSales(s', o) == SalesOf(s'.rides, o)
      {
        ProgressTotals(s.rides, i, s'.rides[i], o);
      }
    }
  }

  lemma BookKeepsInv(s: State, step: Step)
    requires Inv(s) && Enabled(s, step) && (step.Mark? || step.Settle?)
    ensures Inv(Apply(s, step))
  {
    var s', i := Apply(s, step), s.current[step.user];
    ProgressTotals(s.rides, i, s'.rides[i], 0);
    forall o
      ensures OwnerSales(s', o) == SalesOf(s'.rides, o)
    {
      ProgressTotals(s.rides, i, s'.rides[i], o);
    }
  }

  lemma StepKeepsInv(s: State, step: Step)
    requires Inv(s) && Enabled(s, step)
    ensures Inv(Apply(s, step))
  {
    hide Apply, Sum, Payments, SalesOf;
    match step
    case Ask(_, _, _, _) => AskKeepsInv(s, step);
    case Charge(user, amount) => ChargeKeepsInv(s, user, amount);
    case Mark(_) => BookKeepsInv(s, step);
    case Settle(_, _) => BookKeepsInv(s, step);
    case _ => NoneMoves(s, step);
  }

  lemma NoneMoves(s: State, step: Step)
    requires Inv(s) && Enabled(s, step) && (step.Take? || step.Leave?)
    ensures Inv(Apply(s, step))
  {
  }

  lemma {:induction false} RunKeepsInv(s: State, steps: seq<Step>)
    requires Inv(s) && IsRun(s, steps)
    ensures Inv(After(s, steps))
    decreases |steps|
  {
    if steps != [] {
      StepKeepsInv(s, steps[0]);
      RunKeepsInv(Apply(s, steps[0]), steps[1..]);
    }
  }

  lemma {:induction false} GapIsTheDifference(rides: seq<Ride>)
    ensures Payments(rides) - (TotalSales(rides) - TotalDiscount(rides)) == InFlight(rides)
    ensures InFlight(rides) >= 0
    ensures InFlight(rides) == 0 <==> forall i | 0 <= i < |rides| :: rides[i].progress in {Open, Settled}
    decreases |rides|
  {
    if rides != [] {
      GapIsTheDifference(rides[..|rides| - 1]);
      var r := rides[|rides| - 1];
      DiscountIsCapped(r.pickup, r.dest, r.discount);
      assert forall i | 0 <= i < |rides| - 1 :: rides[..|rides| - 1][i] == rides[i];
    }
  }

  /** Owners' totals add up to the total over the rides. */
  lemma {:induction false} SalesByOwner(rides: seq<Ride>, owners: nat)
    requires forall i | 0 <= i < |rides| && rides[i].progress == Settled :: rides[i].owner < owners
    ensures TotalSales(rides) == SumOwners(rides, owners)
    decreases |rides|
  {
    if rides == [] {
      NoOwnerSales(owners);
    } else {
      SalesByOwner(rides[..|rides| - 1], owners);
      OneMoreSale(rides, owners);
    }
  }

  function SumOwners(rides: seq<Ride>, owners: nat): int {
    if owners == 0 then 0 else SumOwners(rides, owners - 1) + SalesOf(rides, owners - 1)
  }

  lemma {:induction false} NoOwnerSales(owners: nat)
    ensures SumOwners([], owners) == 0
  {
    if owners > 0 {
      NoOwnerSales(owners - 1);
    }
  }

  lemma {:induction false} OneMoreSale(rides: seq<Ride>, owners: nat)
    requires rides != []
    ensures var r := rides[|rides| - 1];
            SumOwners(rides, owners) ==
            SumOwners(rides[..|rides| - 1], owners) + if r.owner < owners && r.progress == Settled then RideSales(r) else 0
  {
    if owners > 0 {
      OneMoreSale(rides, owners - 1);
    }
  }

  /** The books of payments, sales and discounts, owner by owner, differ by exactly what
      evaluations in flight have paid and not yet booked. */
  ghost predicate Balanced(s: State, owners: nat) {
    && Sum(s.payments) == SumOwners(s.rides, owners) - TotalDiscount(s.rides) + InFlight(s.rides)
    && (Sum(s.payments) == SumOwners(s.rides, owners) - TotalDiscount(s.rides) <==>
          forall i | 0 <= i < |s.rides| :: s.rides[i].progress in {Open, Settled})
    && (forall o | 0 <= o < owners :: OwnerSales(s, o) == SalesOf(s.rides, o))
  }

  lemma BooksBalance(s: State, owners: nat)
    requires Inv(s) && !s.wrong
    requires forall i | 0 <= i < |s.rides| && s.rides[i].progress == Settled :: s.rides[i].owner < owners
    ensures Balanced(s, owners)
  {
    GapIsTheDifference(s.rides);
    SalesByOwner(s.rides, owners);
  }

  /** As long as no verification has found a wrong payment, the verified payments exceed the
      owners' sales minus the discounts at every moment by exactly what evaluations in flight
      have paid and not yet booked; so the books balance if and only if none is in flight. */
  lemma MoneyIsConserved(steps: seq<Step>, owners: nat)
    requires IsRun(Start(), steps) && !After(Start(), steps).wrong
    requires forall i | 0 <= i < |After(Start(), steps).rides| && After(Start(), steps).rides[i].progress == Settled ::
               After(Start(), steps).rides[i].owner < owners
    ensures Balanced(After(Start(), steps), owners)
  {
    RunKeepsInv(Start(), steps);
    BooksBalance(After(Start(), steps), owners);
  }
}
