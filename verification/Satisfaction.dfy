/** A region's satisfaction counter. Every evaluation adds the change of its user's average,
    computed with integer division twice; the sum must nevertheless stay the sum of the
    averages. */
module Satisfaction {

  const MIN_ACTIVE_USERS: int := 10

  /** int32 arithmetic. */
  function Wrap32(x: int): int {
    (x + 0x8000_0000) % 0x1_0000_0000 - 0x8000_0000
  }

  /** A user's requests so far, how many of them are evaluated, and the sum of the scores. */
  datatype Account = Account(requests: nat, evaluated: nat, total: nat)

  function Average(a: Account): nat {
    if a.evaluated == 0 then 0 else a.total / a.evaluated
  }

  function SumOfAverages(accounts: seq<Account>): nat {
    if accounts == [] then 0 else SumOfAverages(accounts[..|accounts| - 1]) + Average(accounts[|accounts| - 1])
  }

  // ---- The objects -------------------------------------------------------------------

  class Region {
    var totalEvaluation: int
    var activeUserNum: int

    constructor ()
      ensures totalEvaluation == 0 && activeUserNum == 0
    {
      totalEvaluation, activeUserNum := 0, 0;
    }

    /** A region that has ten active users keeps ten. */
    method UserLeave() returns (left: bool)
      modifies this`activeUserNum
      ensures left <==> old(activeUserNum) > 10
      ensures activeUserNum == old(activeUserNum) - if left then 1 else 0
      ensures old(activeUserNum) >= 10 ==> activeUserNum >= 10
    {
      if activeUserNum - 1 < MIN_ACTIVE_USERS {
        return false;
      }
      activeUserNum := activeUserNum - 1;
      return true;
    }
  }

  class User {
    const region: Region
    var requestHistory: nat
    var totalEvaluation: nat

    constructor (region: Region)
      ensures this.region == region && requestHistory == 0 && totalEvaluation == 0
    {
      this.region := region;
      requestHistory, totalEvaluation := 0, 0;
    }

    /** The bookkeeping after an accepted evaluation. The user's requests but the current one
        have been evaluated before. */
    method BookEvaluation(score: nat)
      requires requestHistory > 0 && (requestHistory == 1 ==> totalEvaluation == 0)
      modifies this`totalEvaluation, region`totalEvaluation
      ensures totalEvaluation == old(totalEvaluation) + score
      ensures var before := Account(requestHistory, requestHistory - 1, old(totalEvaluation));
              region.totalEvaluation ==
              Wrap32(old(region.totalEvaluation) + Average(Booked(before, score)) - Average(before))
    {
      var requests := requestHistory;
      if requests == 1 {
        region.totalEvaluation := Wrap32(region.totalEvaluation + score);
      } else {
        region.totalEvaluation := Wrap32(region.totalEvaluation +
          ((totalEvaluation + score) / requests - totalEvaluation / (requests - 1)));
      }
      totalEvaluation := totalEvaluation + score;
    }
  }

  function Booked(a: Account, score: nat): Account {
    a.(evaluated := a.evaluated + 1, total := a.total + score)
  }

  // ---- Every run ---------------------------------------------------------------------

  datatype State = State(accounts: seq<Account>, total: int)

  datatype Step = Join | Ask(user: nat) | Evaluate(user: nat, score: nat)

  predicate Enabled(s: State, step: Step) {
    match step
    case Join => true
    case Ask(u) => u < |s.accounts| && s.accounts[u].evaluated == s.accounts[u].requests
    case Evaluate(u, score) =>
      u < |s.accounts| && s.accounts[u].evaluated + 1 == s.accounts[u].requests && 1 <= score <= 5
  }

  /** What the code adds to the counter. */
  function Delta(a: Account, score: nat): int
    requires a.requests > 0
  {
    if a.requests == 1 then score
    else (a.total + score) / a.requests - a.total / (a.requests - 1)
  }

  function Apply(s: State, step: Step): State
    requires Enabled(s, step)
  {
    match step
    case Join => s.(accounts := s.accounts + [Account(0, 0, 0)])
    case Ask(u) => s.(accounts := s.accounts[u := s.accounts[u].(requests := s.accounts[u].requests + 1)])
    case Evaluate(u, score) =>
      State(s.accounts[u := Booked(s.accounts[u], score)], Wrap32(s.total + Delta(s.accounts[u], score)))
  }

  ghost predicate IsRun(s: State, steps: seq<Step>)
    decreases |steps|
  {
    steps == [] || (Enabled(s, steps[0]) && IsRun(Apply(s, steps[0]), steps[1..]))
  }

  ghost function After(s: State, steps: seq<Step>): State
    requires IsRun(s, steps)
    decreases |steps|
  {
    if steps == [] then s else After(Apply(s, steps[0]), steps[1..])
  }

  function Start(): State {
    State([], 0)
  }

  /** Scores are between one and five, so averages are, too. */
  ghost predicate AccountFits(a: Account) {
    a.evaluated <= a.requests <= a.evaluated + 1 && a.evaluated <= a.total <= 5 * a.evaluated
  }

  ghost predicate Inv(s: State) {
    (forall u | 0 <= u < |s.accounts| :: AccountFits(s.accounts[u])) && s.total == SumOfAverages(s.accounts)
  }

  lemma QuotientBounds(total: nat, n: nat)
    requires n > 0 && total <= 5 * n
    ensures total / n <= 5
  {
  }

  lemma {:induction false} SumBounds(accounts: seq<Account>)
    requires forall u | 0 <= u < |accounts| :: AccountFits(accounts[u])
    ensures SumOfAverages(accounts) <= 5 * |accounts|
    decreases |accounts|
  {
    if accounts != [] {
      SumBounds(accounts[..|accounts| - 1]);
      var a := accounts[|accounts| - 1];
      if a.evaluated > 0 {
        QuotientBounds(a.total, a.evaluated);
      }
    }
  }

  lemma {:induction false} SumUpdate(accounts: seq<Account>, u: nat, a: Account)
    requires u < |accounts|
    ensures SumOfAverages(accounts[u := a]) == SumOfAverages(accounts) - Average(accounts[u]) + Average(a)
    decreases |accounts|
  {
    var n := |accounts| - 1;
    if u == n {
      assert accounts[u := a][..n] == accounts[..n];
    } else {
      assert accounts[u := a][..n] == accounts[..n][u := a];
      SumUpdate(accounts[..n], u, a);
    }
  }

  lemma SumAppend(accounts: seq<Account>, a: Account)
    ensures SumOfAverages(accounts + [a]) == SumOfAverages(accounts) + Average(a)
  {
    assert (accounts + [a])[..|accounts|] == accounts;
  }

  /** The code's difference of quotients is the change of the user's average. */
  lemma DeltaIsChange(a: Account, score: nat)
    requires AccountFits(a) && a.evaluated + 1 == a.requests
    ensures Delta(a, score) == Average(Booked(a, score)) - Average(a)
  {
    if a.requests == 1 {
      assert a.total == 0 && Average(Booked(a, score)) == score / 1;
    }
  }

  lemma NoWrap(x: int)
    requires -0x8000_0000 <= x < 0x8000_0000
    ensures Wrap32(x) == x
  {
  }

  lemma StepKeepsInv(s: State, step: Step)
    requires Inv(s) && Enabled(s, step) && 5 * |Apply(s, step).accounts| < 0x8000_0000
    ensures Inv(Apply(s, step))
  {
    var s' := Apply(s, step);
    match step
    case Join => SumAppend(s.accounts, Account(0, 0, 0));
    case Ask(u) => SumUpdate(s.accounts, u, s'.accounts[u]);
    case Evaluate(u, score) =>
      DeltaIsChange(s.accounts[u], score);
      SumUpdate(s.accounts, u, s'.accounts[u]);
      SumBounds(s'.accounts);
      NoWrap(SumOfAverages(s'.accounts));
  }

  lemma {:induction false} RunGrows(s: State, steps: seq<Step>)
    requires IsRun(s, steps)
    ensures |After(s, steps).accounts| >= |s.accounts|
    decreases |steps|
  {
    if steps != [] {
      RunGrows(Apply(s, steps[0]), steps[1..]);
    }
  }

  lemma {:induction false} RunKeepsInv(s: State, steps: seq<Step>)
    requires Inv(s) && IsRun(s, steps) && 5 * |After(s, steps).accounts| < 0x8000_0000
    ensures Inv(After(s, steps))
    decreases |steps|
  {
    if steps != [] {
      RunGrows(Apply(s, steps[0]), steps[1..]);
      StepKeepsInv(s, steps[0]);
      RunKeepsInv(Apply(s, steps[0]), steps[1..]);
    }
  }

  /** In whatever order users are evaluated, the counter is the sum of their averages, rounded
      down one by one, and lies between zero and five times the number of users, as long as
      that bound fits into an int32. */
  lemma CounterTelescopes(steps: seq<Step>)
    requires IsRun(Start(), steps) && 5 * |After(Start(), steps).accounts| < 0x8000_0000
    ensures var s := After(Start(), steps);
            s.total == SumOfAverages(s.accounts) && 0 <= s.total <= 5 * |s.accounts|
  {
    RunKeepsInv(Start(), steps);
    SumBounds(After(Start(), steps).accounts);
  }
}
