/** The payment server's ledger in every run of the whole system: for every user it lists the
    fares of the user's paid rides, in their order, each of them once. */
module SystemLedger {
  import opened Grid
  import opened Wrappers
  import opened RideStatus
  import opened System
  import opened SystemRuns
  import C = Coupons
  import K = CouponRuns
  import Y = Payments
  import B = Money
  import M = Matching
  import W = WebApp
  import P = Protocol
  import PR = ProtocolRuns
  import ProtocolFrames

  function Amounts(cs: seq<Y.Charge>): seq<int> {
    seq(|cs|, i requires 0 <= i < |cs| => cs[i].amount)
  }

  /** The fares of a user's paid rides, in the order of the rides. */
  function PaidFares(books: seq<B.Ride>, u: UserId): seq<int> {
    if books == [] then []
    else
      var m := books[|books| - 1];
      PaidFares(books[..|books| - 1], u) + if m.user == u && m.progress != B.Open then [B.RideFare(m)] else []
  }

  ghost predicate LedgerFits(s: State) {
    forall u: UserId :: Amounts(Y.PaymentsOf(s.pay.books.ledger, Token(u))) == PaidFares(s.b.rides, u)
  }

  /** No ride gets paid. */
  ghost predicate SamePaid(books: seq<B.Ride>, books': seq<B.Ride>) {
    && |books| <= |books'|
    && (forall i | 0 <= i < |books| ::
          && books'[i] == books[i].(progress := books'[i].progress, owner := books'[i].owner)
          && (books'[i].progress == B.Open <==> books[i].progress == B.Open))
    && (forall i | |books| <= i < |books'| :: books'[i].progress == B.Open)
  }

  lemma {:induction false} SameFares(books: seq<B.Ride>, books': seq<B.Ride>, u: UserId)
    requires SamePaid(books, books')
    ensures PaidFares(books', u) == PaidFares(books, u)
    decreases |books'|
  {
    if |books'| > |books| {
      SameFares(books, books'[..|books'| - 1], u);
    } else if books != [] {
      SameFares(books[..|books| - 1], books'[..|books'| - 1], u);
    }
  }

  /** The user's last ride gets paid. */
  lemma {:induction false} OneMoreFare(books: seq<B.Ride>, i: nat, u: UserId)
    requires i < |books| && books[i].user == u && books[i].progress == B.Open
    requires forall j | i < j < |books| :: books[j].user != u
    ensures PaidFares(books[i := books[i].(progress := B.Paid)], u) == PaidFares(books, u) + [B.RideFare(books[i])]
    decreases |books|
  {
    var n, books' := |books| - 1, books[i := books[i].(progress := B.Paid)];
    if i == n {
      assert books'[..n] == books[..n];
    } else {
      assert books'[..n] == books[..n][i := books[i].(progress := B.Paid)];
      OneMoreFare(books[..n], i, u);
    }
  }

  lemma {:induction false} OthersFares(books: seq<B.Ride>, i: nat, u: UserId)
    requires i < |books| && books[i].user != u
    ensures PaidFares(books[i := books[i].(progress := B.Paid)], u) == PaidFares(books, u)
    decreases |books|
  {
    var n, books' := |books| - 1, books[i := books[i].(progress := B.Paid)];
    if i == n {
      assert books'[..n] == books[..n];
    } else {
      assert books'[..n] == books[..n][i := books[i].(progress := B.Paid)];
      OthersFares(books[..n], i, u);
    }
  }

  /** Nothing but a POST reaches the payment server, and nothing else pays a ride. */
  lemma OnlyPostsPay(s: State, s': State, step: Step)
    requires Inv(s) && Next(s, step, s') && !step.PostPayment?
    ensures s'.pay == s.pay && SamePaid(s.b.rides, s'.b.rides)
  {
    hide Inv, P.Apply, P.Enabled, K.Apply, K.Enabled, Y.Post, W.LatestOfUser, C.RideFare, C.EstimatedFare, OwnerOf;
    if step.EvaluateDone? {
      EvaluatedIsPaid(s, step.u);
    }
  }

  lemma EvaluatedIsPaid(s: State, u: UserId)
    requires Inv(s) && P.Enabled(s.p, P.EvaluateDone(u))
    ensures B.On(s.b, u) && s.b.rides[s.b.current[u]].progress == B.Paid
  {
    hide Inv, PR.Sound, K.Inv, B.Inv;
    DesksLong(s);
    CurrentRide(s, u);
    EvaluatingIsUnexpected(s, s.p.users[u].request.value);
  }

  lemma EvaluatingIsUnexpected(s: State, i: RideId)
    requires Inv(s) && i < |s.p.reqs| && s.p.reqs[i].evaluating
    ensures s.p.reqs[i].st.desired != Completed
  {
    hide P.Inv, P.ChairsKnown, K.Inv, B.Inv, RidesFit, AccountsFit, W.RideOk, M.SixPrefix;
    PR.SameLength(s.p);
    ProtocolFrames.RideAt(s.p, i);
  }

  lemma PostPaysOne(s: State, s': State, u: UserId, luck: Y.Luck)
    requires Inv(s) && Next(s, PostPayment(u, luck), s') && LedgerFits(s)
    ensures LedgerFits(s')
  {
    hide Inv, PR.Sound, K.Inv, B.Inv, B.RideFare, Y.Post, Y.PaymentsOf, Y.TokenOf, B.Apply, DeskFits, ProgressFits;
    DesksLong(s);
    RetryIsAtLeast(s, u);
    PostingIsOpen(s, u);
    CurrentRide(s, u);
    var d := s.desks[u];
    var i, q, f := d.bill.ride, Posted(s, u, d.bill.amount, luck), Y.FateOf(Y.RetryCount(s.pay, Token(u)), luck);
    ChargeIsRight(s, u, i, d.bill.amount);
    PostResult(s, s', u, luck);
    Y.PostOnOwnToken(s.pay, q, Token(u));
    LaterRides(s, u, i);
    forall v: UserId
      ensures Amounts(Y.PaymentsOf(s'.pay.books.ledger, Token(v))) == PaidFares(s'.b.rides, v)
    {
      assert Amounts(Y.PaymentsOf(s.pay.books.ledger, Token(v))) == PaidFares(s.b.rides, v);
      if v != u {
        Y.PostOnOtherToken(s.pay, q, Token(v));
        OthersFares(s.b.rides, i, v);
      } else if !f.NotCharged? {
        OneMoreFare(s.b.rides, i, u);
        AmountsAppend(Y.PaymentsOf(s.pay.books.ledger, Token(u)), Y.Charge(Y.EMPTY, Token(u), d.bill.amount, q.verdict));
      }
    }
  }

  lemma AmountsAppend(cs: seq<Y.Charge>, c: Y.Charge)
    ensures Amounts(cs + [c]) == Amounts(cs) + [c.amount]
  {
  }

  lemma PostingIsOpen(s: State, u: UserId)
    requires u < |s.desks| && s.desks[u].Posting? && u < |s.p.users|
    requires DeskFits(s.desks[u], s.p.users[u], s.p.reqs, s.b.rides, Y.TokenOf(s.pay, Token(u)).retry)
    ensures var i := s.desks[u].bill.ride;
            && s.p.users[u].request == Some(i) && i < |s.b.rides| && s.b.rides[i].progress == B.Open
            && s.desks[u].bill.amount == B.RideFare(s.b.rides[i])
  {
  }

  lemma LaterRides(s: State, u: UserId, i: RideId)
    requires Inv(s) && u < |s.p.users| && s.p.users[u].request == Some(i)
    ensures i < |s.b.rides| && forall j | i < j < |s.b.rides| :: s.b.rides[j].user != u
  {
    hide Inv, P.Inv;
    DesksLong(s);
    SoundIsInv(s.p);
    CurrentRide(s, u);
    ProtocolFrames.UserOf(s.p, u);
    forall j | i < j < |s.b.rides|
      ensures s.b.rides[j].user != u
    {
      BooksUser(s, j);
    }
  }

  lemma StepKeepsLedger(s: State, s': State, step: Step)
    requires Inv(s) && LedgerFits(s) && Next(s, step, s')
    ensures LedgerFits(s')
  {
    hide Inv, Next, Amounts, Y.PaymentsOf;
    if step.PostPayment? {
      PostPaysOne(s, s', step.u, step.luck);
    } else {
      OnlyPostsPay(s, s', step);
      forall u: UserId
        ensures PaidFares(s'.b.rides, u) == PaidFares(s.b.rides, u)
      {
        SameFares(s.b.rides, s'.b.rides, u);
      }
    }
  }

  /** At every moment of every run the payments of a user are the fares of its paid rides. */
  lemma {:induction false} LedgerListsFares(users: nat, homes: seq<Coord>, owners: seq<nat>, steps: seq<Step>, u: UserId)
    requires |owners| == |homes| && IsRun(Start(users, homes, owners), steps)
    ensures var s := After(Start(users, homes, owners), steps);
            Amounts(Y.PaymentsOf(s.pay.books.ledger, Token(u))) == PaidFares(s.b.rides, u)
  {
    hide Inv, Enabled, Apply, IsRun, After;
    StartFits(users, homes, owners);
    var s := Start(users, homes, owners);
    assert LedgerFits(s);
    RunKeepsLedger(s, steps);
  }

  lemma {:induction false} RunKeepsLedger(s: State, steps: seq<Step>)
    requires Inv(s) && LedgerFits(s) && IsRun(s, steps)
    ensures LedgerFits(After(s, steps))
    decreases |steps|
  {
    hide Inv, LedgerFits, Enabled, Apply;
    if steps != [] {
      StepKeepsInv(s, steps[0]);
      StepKeepsLedger(s, Apply(s, steps[0]), steps[0]);
      RunKeepsLedger(Apply(s, steps[0]), steps[1..]);
    }
  }
}
