/** The web application's side of a payment: at most six attempts, each reconciled with the
    server by comparing the number of rides with the number of payments. */
module PaymentClient {
  import opened Wrappers
  import opened Payments

  const MAX_RETRIES: nat := 5

  /** What is random about one attempt. */
  datatype Attempt = Attempt(luck: Luck, verdict: StatusType)

  datatype Run = Run(ok: bool, token: Token)

  /** One payment as its own token sees it: ends as soon as an attempt is answered with
      success or the server shows as many payments as there are rides. */
  function Attempts(t: Token, rides: nat, attempts: seq<Attempt>): Run
    requires |attempts| > 0
    decreases |attempts|
  {
    var a := attempts[0];
    var next := AfterPost(t, a.luck);
    if (FateOf(t.retry, a.luck).ChargedAnswered? && Reply(a.verdict) == NoContent) || rides == next.paid then
      Run(true, next)
    else if |attempts| == 1 then Run(false, next)
    else Attempts(next, rides, attempts[1..])
  }

  /** The token after some attempts that are not reconciled. */
  function TokenAfter(t: Token, attempts: seq<Attempt>): Token
    decreases |attempts|
  {
    if attempts == [] then t else TokenAfter(AfterPost(t, attempts[0].luck), attempts[1..])
  }

  /** Attempt k is answered with success, or leaves exactly as many payments as rides. */
  predicate Settles(t: Token, rides: nat, attempts: seq<Attempt>, k: nat)
    requires k < |attempts|
  {
    var a, before := attempts[k], TokenAfter(t, attempts[..k]);
    || (((a.luck.passes && a.luck.replies) || before.retry >= 4) && a.verdict in {Initial, Success})
    || rides == TokenAfter(t, attempts[..k + 1]).paid
  }

  lemma TokenAfterStep(t: Token, attempts: seq<Attempt>, k: nat)
    requires 0 < k <= |attempts|
    ensures TokenAfter(t, attempts[..k]) == TokenAfter(AfterPost(t, attempts[0].luck), attempts[1..][..k - 1])
  {
    assert attempts[..k][1..] == attempts[1..][..k - 1];
  }

  lemma SettlesStep(t: Token, rides: nat, attempts: seq<Attempt>, k: nat)
    requires 0 < k < |attempts|
    ensures Settles(t, rides, attempts, k) == Settles(AfterPost(t, attempts[0].luck), rides, attempts[1..], k - 1)
  {
    TokenAfterStep(t, attempts, k);
    TokenAfterStep(t, attempts, k + 1);
  }

  /** A payment ends with the first attempt that settles it, and fails if and only if none does;
      in particular more payments than rides do not end it. */
  lemma {:induction false} EndsWithTheFirst(t: Token, rides: nat, attempts: seq<Attempt>, k: nat)
    requires 0 < |attempts| && k <= |attempts| && forall j: nat | j < k :: !Settles(t, rides, attempts, j)
    requires k < |attempts| ==> Settles(t, rides, attempts, k)
    ensures Attempts(t, rides, attempts) ==
            if k == |attempts| then Run(false, TokenAfter(t, attempts)) else Run(true, TokenAfter(t, attempts[..k + 1]))
    decreases |attempts|
  {
    hide Settles;
    var next := AfterPost(t, attempts[0].luck);
    FirstSettles(t, rides, attempts);
    if k == 0 {
      TokenAfterStep(t, attempts, 1);
    } else {
      assert !Settles(t, rides, attempts, 0);
      assert attempts == attempts[..|attempts|] && attempts[1..][..|attempts| - 1] == attempts[1..];
      TokenAfterStep(t, attempts, |attempts|);
      if |attempts| > 1 {
        forall j: nat | j < k - 1
          ensures !Settles(next, rides, attempts[1..], j)
        {
          SettlesStep(t, rides, attempts, j + 1);
        }
        if k < |attempts| {
          SettlesStep(t, rides, attempts, k);
          TokenAfterStep(t, attempts, k + 1);
        }
        EndsWithTheFirst(next, rides, attempts[1..], k - 1);
      }
    }
  }

  lemma FirstSettles(t: Token, rides: nat, attempts: seq<Attempt>)
    requires attempts != []
    ensures var a, next := attempts[0], AfterPost(t, attempts[0].luck);
            Settles(t, rides, attempts, 0) <==>
            (FateOf(t.retry, a.luck).ChargedAnswered? && Reply(a.verdict) == NoContent) || rides == next.paid
  {
    TokenAfterStep(t, attempts, 1);
  }

  // ---- Exactly once ------------------------------------------------------------------

  lemma {:induction false} ChargedWithinTheAttempts(t: Token, rides: nat, attempts: seq<Attempt>)
    requires t.retry >= -1 && rides == t.paid + 1
    requires |attempts| > 0 && |attempts| + t.retry >= 5
    ensures var r := Attempts(t, rides, attempts);
            r.ok && r.token.paid == rides && 0 <= r.token.retry <= 4
    decreases |attempts|
  {
    var a := attempts[0];
    if FateOf(t.retry, a.luck).NotCharged? {
      ChargedWithinTheAttempts(AfterPost(t, a.luck), rides, attempts[1..]);
    }
  }

  /** If all earlier rides are paid, then for every sequence of random failures and verdicts
      six attempts end without an error and with exactly one more payment; the retry counter
      is left where the next payment again needs at most six attempts. */
  lemma ExactlyOnce(t: Token, rides: nat, attempts: seq<Attempt>)
    requires t.retry >= -1 && rides == t.paid + 1 && |attempts| == MAX_RETRIES + 1
    ensures Attempts(t, rides, attempts).ok && Attempts(t, rides, attempts).token.paid == t.paid + 1
    ensures 0 <= Attempts(t, rides, attempts).token.retry <= 4
  {
    ChargedWithinTheAttempts(t, rides, attempts);
  }

  /** The server accepts the payment's token and amount. */
  predicate Accepted(attempts: seq<Attempt>) {
    |attempts| == MAX_RETRIES + 1 && forall i | 0 <= i < |attempts| :: attempts[i].verdict == Success
  }

  ghost predicate OnceForAllDraws(t: Token, rides: nat) {
    forall attempts: seq<Attempt> | Accepted(attempts) ::
      Attempts(t, rides, attempts).ok && Attempts(t, rides, attempts).token.paid == t.paid + 1
  }

  /** The reconciliation is safe exactly when all earlier rides are paid (or the server is in
      its no-failure state): with as many payments as rides a lost charge is taken for a
      success, with any other number an unanswered charge is repeated. */
  lemma ExactlyOnceIff(t: Token, rides: nat)
    requires t.retry >= -1
    ensures OnceForAllDraws(t, rides) <==> rides == t.paid + 1 || t.retry >= 4
  {
    if rides == t.paid + 1 {
      forall attempts: seq<Attempt> | Accepted(attempts)
        ensures Attempts(t, rides, attempts).ok && Attempts(t, rides, attempts).token.paid == t.paid + 1
      {
        ExactlyOnce(t, rides, attempts);
      }
    } else if t.retry < 4 {
      var lost, unanswered, good := Attempt(Luck(false, false), Success), Attempt(Luck(true, false), Success),
                                    Attempt(Luck(true, true), Success);
      if rides == t.paid {
        var attempts := [lost, good, good, good, good, good];
        assert Accepted(attempts) && Attempts(t, rides, attempts) == Run(true, AfterPost(t, lost.luck));
      } else {
        var attempts := [unanswered, good, good, good, good, good];
        var once := AfterPost(t, unanswered.luck);
        assert attempts[1..] == [good, good, good, good, good];
        assert Attempts(once, rides, attempts[1..]) == Run(true, AfterPost(once, good.luck));
        assert Accepted(attempts) && Attempts(t, rides, attempts) == Attempts(once, rides, attempts[1..]);
      }
    }
  }

  /** The payments of a user who pays one ride after the other, with all their failures. */
  function PayRides(t: Token, paidRides: nat, rides: seq<seq<Attempt>>): Run
    requires forall i | 0 <= i < |rides| :: |rides[i]| == MAX_RETRIES + 1
    decreases |rides|
  {
    if rides == [] then Run(true, t)
    else
      var r := Attempts(t, paidRides + 1, rides[0]);
      if !r.ok then r else PayRides(r.token, paidRides + 1, rides[1..])
  }

  /** A user who starts with no rides and no payments pays every ride exactly once. */
  lemma {:induction false} EveryRidePaidOnce(t: Token, paidRides: nat, rides: seq<seq<Attempt>>)
    requires forall i | 0 <= i < |rides| :: |rides[i]| == MAX_RETRIES + 1
    requires -1 <= t.retry <= 4 && t.paid == paidRides
    ensures PayRides(t, paidRides, rides).ok
    ensures PayRides(t, paidRides, rides).token.paid == paidRides + |rides|
    ensures -1 <= PayRides(t, paidRides, rides).token.retry <= 4
    decreases |rides|
  {
    if rides != [] {
      ExactlyOnce(t, paidRides + 1, rides[0]);
      EveryRidePaidOnce(Attempts(t, paidRides + 1, rides[0]).token, paidRides + 1, rides[1..]);
    }
  }

  // ---- The loop ----------------------------------------------------------------------

  /** Requests with other tokens that other handlers send in the meantime. */
  method OthersPost(server: Server, token: Text)
    requires server.Valid()
    modifies server, server.Repr
    ensures server.Valid() && fresh(server.Repr - old(server.Repr))
    ensures TokenOf(server.View(), token) == old(TokenOf(server.View(), token))
    ensures PaymentsOf(server.ledger, token) == old(PaymentsOf(server.ledger, token))
  {
    var n: nat := *;
    while n > 0
      invariant server.Valid() && fresh(server.Repr - old(server.Repr))
      invariant TokenOf(server.View(), token) == old(TokenOf(server.View(), token))
      invariant PaymentsOf(server.ledger, token) == old(PaymentsOf(server.ledger, token))
    {
      var q: Request := *;
      var now: int := *;
      if q.auth != Some(token) {
        PostOnOtherToken(server.View(), q, token);
        var _ := server.PostPayments(q, now);
      }
      n := n - 1;
    }
  }

  /** All payments of `after` beyond those of `before` are of this amount. */
  ghost predicate OnlyAdds(before: seq<Charge>, after: seq<Charge>, amount: int) {
    before <= after && forall i | |before| <= i < |after| :: after[i].amount == amount
  }

  /** There is one payment more, of this amount. */
  ghost predicate AddsOne(before: seq<Charge>, after: seq<Charge>, amount: int) {
    |after| == |before| + 1 && before <= after && after[|before|].amount == amount
  }

  /** `requestPaymentGatewayPostPayment`. Between any two calls to the server, other tokens'
      requests may be processed. */
  method RequestPayment(server: Server, token: Text, amount: int, rides: nat, attempts: seq<Attempt>)
    returns (ok: bool)
    requires server.Valid() && |attempts| == MAX_RETRIES + 1
    modifies server, server.Repr
    ensures server.Valid() && fresh(server.Repr - old(server.Repr))
    ensures Run(ok, TokenOf(server.View(), token)) == Attempts(old(TokenOf(server.View(), token)), rides, attempts)
    ensures OnlyAdds(old(PaymentsOf(server.ledger, token)), PaymentsOf(server.ledger, token), amount)
    ensures old(TokenOf(server.View(), token).retry >= -1 && rides == TokenOf(server.View(), token).paid + 1) ==>
              ok && AddsOne(old(PaymentsOf(server.ledger, token)), PaymentsOf(server.ledger, token), amount)
  {
    hide Post, PaymentsOf, Server.RegisteredAs, Server.RecordedAs;
    ghost var before := TokenOf(server.View(), token);
    if before.retry >= -1 && rides == before.paid + 1 {
      ExactlyOnce(before, rides, attempts);
    }
    var retry := 0;
    while true
      invariant 0 <= retry <= MAX_RETRIES
      invariant server.Valid() && fresh(server.Repr - old(server.Repr))
      invariant Attempts(TokenOf(server.View(), token), rides, attempts[retry..]) ==
                Attempts(old(TokenOf(server.View(), token)), rides, attempts)
      invariant OnlyAdds(old(PaymentsOf(server.ledger, token)), PaymentsOf(server.ledger, token), amount)
      decreases MAX_RETRIES - retry
    {
      var settled := TryOnce(server, token, amount, rides, attempts[retry]);
      assert attempts[retry..][1..] == attempts[retry + 1..];
      if settled {
        return true;
      }
      if retry < MAX_RETRIES {
        retry := retry + 1;
      } else {
        return false;
      }
    }
  }

  /** The body of the loop: one POST and, unless it is answered with success, one GET. */
  method TryOnce(server: Server, token: Text, amount: int, rides: nat, a: Attempt) returns (settled: bool)
    requires server.Valid()
    modifies server, server.Repr
    ensures server.Valid() && fresh(server.Repr - old(server.Repr))
    ensures TokenOf(server.View(), token) == AfterPost(old(TokenOf(server.View(), token)), a.luck)
    ensures OnlyAdds(old(PaymentsOf(server.ledger, token)), PaymentsOf(server.ledger, token), amount)
    ensures settled <==>
            (FateOf(old(RetryCount(server.View(), token)), a.luck).ChargedAnswered? &&
             Reply(a.verdict) == NoContent) || rides == TokenOf(server.View(), token).paid
  {
    hide Post, Attempts, PaymentsOf, Server.RegisteredAs, Server.RecordedAs;
    OthersPost(server, token);
    var q := Request(EMPTY, Some(token), Some(amount), a.luck, a.verdict);
    PostOnOwnToken(server.View(), q, token);
    var now: int := *;
    var response := server.PostPayments(q, now);
    if response != NoContent {
      OthersPost(server, token);
      var payments := server.GetPayments(token);
      return rides == |payments|;
    }
    return true;
  }
}
