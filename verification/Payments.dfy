/** The unreliable payment server: idempotency keys, the per-token retry counter that bounds
    its bad luck, and the ledger of processed payments. */
module Payments {
  import opened Wrappers

  /** Idempotency keys and payment tokens are only ever compared; zero stands for the empty
      string. */
  type Text = nat

  const EMPTY: Text := 0

  datatype StatusType = Initial | Success | InvalidAmount | InvalidToken

  datatype Response = NoContent | Rejected(status: StatusType) | BadRequest | Conflict | Unprocessable | ServerError

  /** The two random draws of a POST: whether the request passes before charging, and
      whether a processed request is answered truthfully. */
  datatype Luck = Luck(passes: bool, replies: bool)

  datatype Fate = NotCharged | ChargedUnanswered | ChargedAnswered

  /** From the fourth failure in a row on, the counter overrules the draws. */
  function FateOf(retryCount: int, luck: Luck): Fate {
    if !(luck.passes || retryCount >= 4) then NotCharged
    else if luck.replies || retryCount >= 4 then ChargedAnswered
    else ChargedUnanswered
  }

  // ---- The server as a value ---------------------------------------------------------

  datatype Registered = Registered(token: Text, amount: int, status: StatusType, locked: bool)

  datatype Charge = Charge(key: Text, token: Text, amount: int, status: StatusType)

  /** Which keys are known, and what has been charged, oldest first. */
  datatype Books = Books(registry: map<Text, Registered>, ledger: seq<Charge>)

  datatype State = State(books: Books, retryCounts: map<Text, int>)

  datatype Request = Request(key: Text, auth: Option<Text>, body: Option<int>, luck: Luck, verdict: StatusType)

  function RetryCount(s: State, token: Text): int {
    if token in s.retryCounts then s.retryCounts[token] else -1
  }

  predicate HasKey(ledger: seq<Charge>, key: Text) {
    exists i | 0 <= i < |ledger| :: ledger[i].key == key
  }

  function Reply(status: StatusType): Response {
    match status
    case Initial => NoContent
    case Success => NoContent
    case InvalidAmount => Rejected(InvalidAmount)
    case InvalidToken => Rejected(InvalidToken)
  }

  /** A key is registered by the first request that carries it. */
  function Register(b: Books, key: Text, r: Registered): Books {
    if key == EMPTY || key in b.registry then b else b.(registry := b.registry[key := r])
  }

  /** Records a charge, unless the key has been charged before. */
  function Charged(b: Books, key: Text, token: Text, amount: int, verdict: StatusType): Books
    requires key != EMPTY ==> key in b.registry
  {
    if key == EMPTY then b.(ledger := b.ledger + [Charge(EMPTY, token, amount, verdict)])
    else if HasKey(b.ledger, key) then b
    else Books(b.registry[key := b.registry[key].(status := verdict)],
               b.ledger + [Charge(key, token, amount, verdict)])
  }

  /** What one POST does to the server and what it answers. */
  function Post(s: State, q: Request): (State, Response) {
    var b := s.books;
    var isNew := q.key == EMPTY || q.key !in b.registry;
    if !isNew && b.registry[q.key].locked then (s, Conflict)
    else if q.auth.None? || q.body.None? then
      (s.(books := Register(b, q.key, Registered(EMPTY, 0, Initial, false))), BadRequest)
    else
      var token, amount := q.auth.value, q.body.value;
      if !isNew && (b.registry[q.key].token != token || b.registry[q.key].amount != amount) then
        (s, Unprocessable)
      else
        Process(s.(books := Register(b, q.key, Registered(token, amount, Initial, false))),
                q.key, token, amount, q.luck, q.verdict)
  }

  function Process(s: State, key: Text, token: Text, amount: int, luck: Luck, verdict: StatusType)
    : (State, Response)
    requires key != EMPTY ==> key in s.books.registry
  {
    var retry := RetryCount(s, token);
    var b := Charged(s.books, key, token, amount, verdict);
    match FateOf(retry, luck)
    case NotCharged => (State(s.books, s.retryCounts[token := retry + 1]), ServerError)
    case ChargedUnanswered => (State(b, s.retryCounts[token := retry + 1]), ServerError)
    case ChargedAnswered =>
      (State(b, s.retryCounts[token := 0]), Reply(if key == EMPTY then verdict else b.registry[key].status))
  }

  /** The payments recorded for a token, oldest first: the answer of GET. */
  function PaymentsOf(ledger: seq<Charge>, token: Text): seq<Charge> {
    if ledger == [] then []
    else
      var last := ledger[|ledger| - 1];
      PaymentsOf(ledger[..|ledger| - 1], token) + if last.token == token then [last] else []
  }

  // ---- Idempotency keys --------------------------------------------------------------

  /** Every keyed charge agrees with its key's registration, and no key is charged twice. */
  ghost predicate Consistent(b: Books) {
    && EMPTY !in b.registry
    && (forall i | 0 <= i < |b.ledger| && b.ledger[i].key != EMPTY ::
          var c := b.ledger[i];
          c.key in b.registry && b.registry[c.key].token == c.token &&
          b.registry[c.key].amount == c.amount && b.registry[c.key].status == c.status)
    && (forall i, j | 0 <= i < j < |b.ledger| :: b.ledger[i].key != EMPTY ==> b.ledger[i].key != b.ledger[j].key)
  }

  function PostAll(s: State, qs: seq<Request>): State
    decreases |qs|
  {
    if qs == [] then s else PostAll(Post(s, qs[0]).0, qs[1..])
  }

  lemma ChargedKeepsConsistent(b: Books, key: Text, token: Text, amount: int, verdict: StatusType)
    requires Consistent(b)
    requires key != EMPTY ==>
               key in b.registry && b.registry[key].token == token && b.registry[key].amount == amount
    ensures Consistent(Charged(b, key, token, amount, verdict))
    ensures b.ledger <= Charged(b, key, token, amount, verdict).ledger
  {
  }

  lemma RegisterKeepsConsistent(b: Books, key: Text, r: Registered)
    requires Consistent(b)
    ensures Consistent(Register(b, key, r))
  {
  }

  lemma PostKeepsConsistent(s: State, q: Request)
    requires Consistent(s.books)
    ensures Consistent(Post(s, q).0.books)
    ensures s.books.ledger <= Post(s, q).0.books.ledger
  {
    RegisterKeepsConsistent(s.books, q.key, Registered(EMPTY, 0, Initial, false));
    if q.auth.Some? && q.body.Some? {
      var token, amount := q.auth.value, q.body.value;
      var r := Registered(token, amount, Initial, false);
      RegisterKeepsConsistent(s.books, q.key, r);
      var b := Register(s.books, q.key, r);
      if q.key == EMPTY || (b.registry[q.key].token == token && b.registry[q.key].amount == amount) {
        ChargedKeepsConsistent(b, q.key, token, amount, q.verdict);
      }
    }
  }

  /** Over every sequence of requests, whatever the draws, the ledger only grows and each
      idempotency key is charged at most once. */
  lemma {:induction false} KeyedAtMostOnce(s: State, qs: seq<Request>)
    requires Consistent(s.books)
    ensures Consistent(PostAll(s, qs).books)
    ensures s.books.ledger <= PostAll(s, qs).books.ledger
    decreases |qs|
  {
    if qs != [] {
      PostKeepsConsistent(s, qs[0]);
      KeyedAtMostOnce(Post(s, qs[0]).0, qs[1..]);
    }
  }

  /** A request that repeats the key of a recorded charge is never charged again: with
      another payload it is refused, with the same one it is answered with the recorded
      status or with a random error (compare section 2.7 of
      draft-ietf-httpapi-idempotency-key-header). */
  lemma RepeatIsReplayed(s: State, q: Request, i: nat)
    requires Consistent(s.books) && i < |s.books.ledger| && s.books.ledger[i].key == q.key != EMPTY
    requires !s.books.registry[q.key].locked && q.auth.Some? && q.body.Some?
    ensures Post(s, q).0.books == s.books
    ensures (q.auth.value, q.body.value) != (s.books.ledger[i].token, s.books.ledger[i].amount) ==>
              Post(s, q) == (s, Unprocessable)
    ensures (q.auth.value, q.body.value) == (s.books.ledger[i].token, s.books.ledger[i].amount) ==>
              Post(s, q).1 == if FateOf(RetryCount(s, q.auth.value), q.luck).ChargedAnswered?
                              then Reply(s.books.ledger[i].status) else ServerError
  {
    assert HasKey(s.books.ledger, q.key);
  }

  // ---- What a POST is answered, and when it charges ----------------------------------

  /** The key is new, or registered for this payload. */
  predicate KeyIsFor(b: Books, key: Text, token: Text, amount: int) {
    key !in b.registry ||
    (!b.registry[key].locked && b.registry[key].token == token && b.registry[key].amount == amount)
  }

  /** A POST with a key that has not been charged is charged as soon as its luck, or four failures
      of its token in a row, let it pass: there is one more charge, with its key, token, amount
      and verdict, and the answer, if it gets one, is that of the verdict. If it does not pass,
      nothing is charged. */
  lemma FirstPassCharges(s: State, q: Request)
    requires q.key != EMPTY && q.auth.Some? && q.body.Some? && KeyIsFor(s.books, q.key, q.auth.value, q.body.value)
    requires forall i | 0 <= i < |s.books.ledger| :: s.books.ledger[i].key != q.key
    ensures var retry, (s', response) := RetryCount(s, q.auth.value), Post(s, q);
            var passes := q.luck.passes || retry >= 4;
            var answered := (q.luck.passes && q.luck.replies) || retry >= 4;
            && s'.books.ledger == s.books.ledger +
                 (if passes then [Charge(q.key, q.auth.value, q.body.value, q.verdict)] else [])
            && (!answered ==> response == ServerError)
            && (answered ==>
                  (response == NoContent <==> q.verdict in {Initial, Success}) &&
                  (response == Rejected(q.verdict) <==> q.verdict in {InvalidAmount, InvalidToken}))
            && RetryCount(s', q.auth.value) == (if answered then 0 else retry + 1)
            && KeyIsFor(s'.books, q.key, q.auth.value, q.body.value)
  {
  }

  /** The first of the POSTs that gets past the failures. */
  function FirstPass(s: State, qs: seq<Request>): (r: Option<nat>)
    requires forall j | 0 <= j < |qs| :: qs[j].auth.Some?
    ensures r.Some? ==> r.value < |qs|
    decreases |qs|
  {
    if qs == [] then None
    else if FateOf(RetryCount(s, qs[0].auth.value), qs[0].luck) != NotCharged then Some(0)
    else
      var rest := FirstPass(Post(s, qs[0]).0, qs[1..]);
      if rest.None? then None else Some(rest.value + 1)
  }

  ghost predicate SamePayload(qs: seq<Request>, key: Text, token: Text, amount: int) {
    forall j | 0 <= j < |qs| :: qs[j].key == key && qs[j].auth == Some(token) && qs[j].body == Some(amount)
  }

  lemma {:induction false} ChargedKeyStays(s: State, qs: seq<Request>, key: Text, token: Text, amount: int)
    requires SamePayload(qs, key, token, amount) && key != EMPTY && key in s.books.registry
    requires KeyIsFor(s.books, key, token, amount) && HasKey(s.books.ledger, key)
    ensures PostAll(s, qs).books.ledger == s.books.ledger
    decreases |qs|
  {
    if qs != [] {
      ChargedKeyStays(Post(s, qs[0]).0, qs[1..], key, token, amount);
    }
  }

  /** Over any sequence of POSTs of one key with one payload, the first one that passes is
      charged, and no other: the key is charged exactly once if any passes, and else never. */
  lemma {:induction false} KeyedExactlyOnce(s: State, qs: seq<Request>, key: Text, token: Text, amount: int)
    requires key != EMPTY && SamePayload(qs, key, token, amount) && KeyIsFor(s.books, key, token, amount)
    requires forall i | 0 <= i < |s.books.ledger| :: s.books.ledger[i].key != key
    ensures var first := FirstPass(s, qs);
            PostAll(s, qs).books.ledger == s.books.ledger +
              if first.None? then [] else [Charge(key, token, amount, qs[first.value].verdict)]
    decreases |qs|
  {
    hide Post, KeyIsFor, HasKey;
    if qs != [] {
      FirstPassCharges(s, qs[0]);
      if FateOf(RetryCount(s, token), qs[0].luck) != NotCharged {
        ChargedHasKey(s, qs[0]);
        ChargedKeyStays(Post(s, qs[0]).0, qs[1..], key, token, amount);
      } else {
        KeyedExactlyOnce(Post(s, qs[0]).0, qs[1..], key, token, amount);
      }
    }
  }

  lemma ChargedHasKey(s: State, q: Request)
    requires q.key != EMPTY && q.auth.Some? && q.body.Some? && KeyIsFor(s.books, q.key, q.auth.value, q.body.value)
    requires FateOf(RetryCount(s, q.auth.value), q.luck) != NotCharged
    requires forall i | 0 <= i < |s.books.ledger| :: s.books.ledger[i].key != q.key
    ensures HasKey(Post(s, q).0.books.ledger, q.key) && q.key in Post(s, q).0.books.registry
  {
    FirstPassCharges(s, q);
    assert Post(s, q).0.books.ledger[|s.books.ledger|].key == q.key;
  }

  /** The three refusals, which change neither the ledger nor a counter: a key in use, a request
      without token or amount, and a key registered for another payload. */
  lemma RefusedIff(s: State, q: Request)
    requires EMPTY !in s.books.registry
    ensures var known, (s', response) := q.key in s.books.registry, Post(s, q);
            && (response == Conflict <==> known && s.books.registry[q.key].locked)
            && (response == BadRequest <==> response != Conflict && (q.auth.None? || q.body.None?))
            && (response == Unprocessable <==>
                  known && response != Conflict && response != BadRequest &&
                  (s.books.registry[q.key].token, s.books.registry[q.key].amount) != (q.auth.value, q.body.value))
            && (response in {Conflict, BadRequest, Unprocessable} ==>
                  s'.books.ledger == s.books.ledger && s'.retryCounts == s.retryCounts)
  {
  }

  /** A key whose first request was malformed is spoilt: every payload but the empty one is
      rejected from then on. */
  lemma MalformedSpoilsKey(s: State, q: Request, later: Request)
    requires EMPTY !in s.books.registry && q.key != EMPTY && q.key !in s.books.registry
    requires q.auth.None? || q.body.None?
    requires later.key == q.key && later.auth.Some? && later.body.Some?
    ensures Post(s, q).1 == BadRequest
    ensures (later.auth.value, later.body.value) != (EMPTY, 0) ==>
              Post(Post(s, q).0, later) == (Post(s, q).0, Unprocessable)
  {
  }

  // ---- One token at a time -----------------------------------------------------------

  /** What the server knows about one token. */
  datatype Token = Token(retry: int, paid: nat)

  function TokenOf(s: State, token: Text): Token {
    Token(RetryCount(s, token), |PaymentsOf(s.books.ledger, token)|)
  }

  function AfterPost(t: Token, luck: Luck): Token {
    match FateOf(t.retry, luck)
    case NotCharged => Token(t.retry + 1, t.paid)
    case ChargedUnanswered => Token(t.retry + 1, t.paid + 1)
    case ChargedAnswered => Token(0, t.paid + 1)
  }

  lemma PaymentsOfAppend(ledger: seq<Charge>, c: Charge, token: Text)
    ensures PaymentsOf(ledger + [c], token) ==
            PaymentsOf(ledger, token) + if c.token == token then [c] else []
  {
    assert (ledger + [c])[..|ledger|] == ledger;
  }

  /** A request without a key moves its own token as `AfterPost` says, records exactly its
      amount, and is answered with success only if it was charged. */
  lemma PostOnOwnToken(s: State, q: Request, token: Text)
    requires q.key == EMPTY && q.auth == Some(token) && q.body.Some?
    ensures TokenOf(Post(s, q).0, token) == AfterPost(TokenOf(s, token), q.luck)
    ensures PaymentsOf(Post(s, q).0.books.ledger, token) == PaymentsOf(s.books.ledger, token) +
              if FateOf(RetryCount(s, token), q.luck).NotCharged? then []
              else [Charge(EMPTY, token, q.body.value, q.verdict)]
    ensures Post(s, q).1 == NoContent <==>
            FateOf(RetryCount(s, token), q.luck).ChargedAnswered? && Reply(q.verdict) == NoContent
  {
    PaymentsOfAppend(s.books.ledger, Charge(EMPTY, token, q.body.value, q.verdict), token);
  }

  /** No request, keyed or not, touches another token. */
  lemma PostOnOtherToken(s: State, q: Request, token: Text)
    requires q.auth != Some(token)
    ensures RetryCount(Post(s, q).0, token) == RetryCount(s, token)
    ensures PaymentsOf(Post(s, q).0.books.ledger, token) == PaymentsOf(s.books.ledger, token)
  {
    hide PaymentsOf, HasKey;
    if q.auth.Some? && q.body.Some? {
      PaymentsOfAppend(s.books.ledger, Charge(q.key, q.auth.value, q.body.value, q.verdict), token);
    }
  }

  // ---- The server as objects ---------------------------------------------------------

  class Payment {
    const key: Text
    var token: Text
    var amount: int
    var status: StatusType
    var locked: bool

    constructor (key: Text)
      ensures this.key == key && token == EMPTY && amount == 0 && status == Initial && !locked
    {
      this.key := key;
      token, amount, status, locked := EMPTY, 0, Initial, false;
    }
  }

  datatype Processed = Processed(payment: Payment, at: int)

  class Server {
    var knownKeys: map<Text, Payment>
    var retryCounts: map<Text, int>
    var processed: seq<Processed>
    ghost var registry: map<Text, Registered>
    ghost var ledger: seq<Charge>
    ghost var Repr: set<Payment>

    ghost predicate Valid()
      reads this`knownKeys, this`processed, this`registry, this`ledger, this`Repr, Repr
    {
      && registry.Keys == knownKeys.Keys && EMPTY !in knownKeys
      && (forall k | k in knownKeys :: knownKeys[k] in Repr && RegisteredAs(knownKeys[k], k, registry[k]))
      && |ledger| == |processed|
      && (forall i | 0 <= i < |processed| ::
            processed[i].payment in Repr && RecordedAs(processed[i].payment, ledger[i]))
    }

    ghost predicate RegisteredAs(p: Payment, key: Text, r: Registered)
      reads p
    {
      p.key == key && r == Registered(p.token, p.amount, p.status, p.locked)
    }

    ghost predicate RecordedAs(p: Payment, c: Charge)
      reads this`knownKeys, p
    {
      && c == Charge(p.key, p.token, p.amount, p.status)
      && (p.key != EMPTY ==> p.key in knownKeys && knownKeys[p.key] == p)
    }

    ghost function Accounts(): Books
      reads this`registry, this`ledger
    {
      Books(registry, ledger)
    }

    ghost function View(): State
      reads this`registry, this`ledger, this`retryCounts
    {
      State(Accounts(), retryCounts)
    }

    constructor ()
      ensures Valid() && fresh(Repr) && View() == State(Books(map[], []), map[])
    {
      knownKeys, retryCounts, processed := map[], map[], [];
      registry, ledger := map[], [];
      Repr := {};
    }

    /** How many percent of the requests are made to fail: one per payment of the last
        three seconds, at most fifty. */
    method FailurePercentage(now: int) returns (percentage: nat)
      ensures percentage <= 50
      ensures forall i | |processed| - percentage <= i < |processed| :: 0 <= i && now - processed[i].at <= 3000
      ensures percentage < 50 && percentage < |processed| ==>
                now - processed[|processed| - percentage - 1].at > 3000
    {
      var recent := 0;
      while recent < |processed| && now - processed[|processed| - recent - 1].at <= 3000
        invariant 0 <= recent <= |processed|
        invariant forall i | |processed| - recent <= i < |processed| :: now - processed[i].at <= 3000
      {
        recent := recent + 1;
      }
      percentage := if recent < 50 then recent else 50;
    }

    ghost predicate LedgerMatches()
      reads this
    {
      |ledger| == |processed| &&
      forall i | 0 <= i < |processed| :: processed[i].payment.key == ledger[i].key
    }

    /** Whether a payment with this key has been processed. */
    method AlreadyProcessed(key: Text) returns (found: bool)
      requires LedgerMatches()
      ensures found == HasKey(ledger, key)
    {
      for i := 0 to |processed|
        invariant forall j | 0 <= j < i :: ledger[j].key != key
      {
        if processed[i].payment.key == key {
          assert ledger[i].key == key;
          return true;
        }
      }
      return false;
    }

    method PostPayments(q: Request, now: int) returns (response: Response)
      requires Valid()
      modifies this, Repr
      ensures Valid() && fresh(Repr - old(Repr))
      ensures (View(), response) == Post(old(View()), q)
    {
      var p, newPayment := Lookup(q.key);
      if !newPayment && p.locked {
        return Conflict;
      }
      if q.auth.None? || q.body.None? {
        return BadRequest;
      }
      var token, amount := q.auth.value, q.body.value;
      if !newPayment {
        if token != p.token || amount != p.amount {
          return Unprocessable;
        }
      } else {
        Fill(p, token, amount);
        assert q.key != EMPTY ==> registry == old(registry)[q.key := Registered(token, amount, Initial, false)];
      }
      response := ProcessPayment(p, newPayment, q.luck, q.verdict, now);
    }

    /** Sets the token and the amount of a new payment. */
    method Fill(p: Payment, token: Text, amount: int)
      requires Valid() && p in Repr && Registers(p, true)
      requires p.key != EMPTY ==> registry[p.key] == Registered(EMPTY, 0, Initial, false)
      modifies this`registry, p`token, p`amount
      ensures Valid() && p.token == token && p.amount == amount
      ensures registry == if p.key == EMPTY then old(registry)
                          else old(registry)[p.key := Registered(token, amount, Initial, false)]
    {
      assert p.key != EMPTY ==> RegisteredAs(p, p.key, registry[p.key]);
      p.token, p.amount := token, amount;
      if p.key != EMPTY {
        registry := registry[p.key := Registered(token, amount, Initial, false)];
      }
    }

    /** The payment registered under the key, or a new one. */
    method Lookup(key: Text) returns (p: Payment, newPayment: bool)
      requires Valid()
      modifies this
      ensures Valid() && fresh(Repr - old(Repr)) && p in Repr && retryCounts == old(retryCounts)
      ensures p.key == key && (key != EMPTY ==> key in knownKeys && knownKeys[key] == p)
      ensures newPayment <==> key == EMPTY || key !in old(registry)
      ensures newPayment ==> fresh(p) && !p.locked
      ensures Accounts() == Register(old(Accounts()), key, Registered(EMPTY, 0, Initial, false))
      ensures Registers(p, newPayment)
    {
      if key != EMPTY && key in knownKeys {
        return knownKeys[key], false;
      }
      p := new Payment(key);
      newPayment := true;
      if key != EMPTY {
        knownKeys := knownKeys[key := p];
        registry := registry[key := Registered(EMPTY, 0, Initial, false)];
      }
      Repr := Repr + {p};
    }

    /** The second half of the handler, from the retry counter on. */
    method ProcessPayment(p: Payment, newPayment: bool, luck: Luck, verdict: StatusType, now: int)
      returns (response: Response)
      requires Valid() && p in Repr && !p.locked && Registers(p, newPayment)
      modifies this, p
      ensures Valid() && Repr == old(Repr)
      ensures
        var token, books := old(p.token), Charged(old(Accounts()), p.key, old(p.token), old(p.amount), verdict);
        var retry := RetryCount(old(View()), token);
        match FateOf(retry, luck)
        case NotCharged =>
          Accounts() == old(Accounts()) && retryCounts == old(retryCounts)[token := retry + 1] &&
          response == ServerError
        case ChargedUnanswered =>
          Accounts() == books && retryCounts == old(retryCounts)[token := retry + 1] &&
          response == ServerError
        case ChargedAnswered =>
          Accounts() == books && retryCounts == old(retryCounts)[token := 0] &&
          response == Reply(if p.key == EMPTY then verdict else books.registry[p.key].status)
    {
      hide RegisteredAs, RecordedAs, Charged;
      var token := p.token;
      var retryCount := if token in retryCounts then retryCounts[token] else -1;
      retryCounts := retryCounts[token := retryCount + 1];
      if luck.passes || retryCount >= 4 {
        Commit(p, newPayment, verdict, now);
        if luck.replies || retryCount >= 4 {
          retryCounts := retryCounts[token := 0];
          assert retryCounts == old(retryCounts)[token := 0];
          return Reply(p.status);
        }
      }
      return ServerError;
    }

    /** p is the payment of its key; a new one has not been processed. */
    ghost predicate Registers(p: Payment, newPayment: bool)
      reads this`knownKeys, this`processed
    {
      && (p.key != EMPTY ==> p.key in knownKeys && knownKeys[p.key] == p)
      && (p.key == EMPTY ==> newPayment)
      && (newPayment ==> forall i | 0 <= i < |processed| :: processed[i].payment != p)
    }

    lemma NewIsUncharged(p: Payment)
      requires Valid() && Registers(p, true) && p.key != EMPTY
      ensures !HasKey(ledger, p.key)
    {
      forall i | 0 <= i < |ledger|
        ensures ledger[i].key != p.key
      {
        assert RecordedAs(processed[i].payment, ledger[i]);
      }
    }

    lemma KeysMatch()
      requires Valid()
      ensures LedgerMatches()
    {
      forall i | 0 <= i < |processed|
        ensures processed[i].payment.key == ledger[i].key
      {
        assert RecordedAs(processed[i].payment, ledger[i]);
      }
    }

    /** What happens while the payment is locked. */
    method Commit(p: Payment, newPayment: bool, verdict: StatusType, now: int)
      requires Valid() && p in Repr && !p.locked && Registers(p, newPayment)
      modifies this`processed, this`ledger, this`registry, p
      ensures Valid()
      ensures Accounts() == Charged(old(Accounts()), p.key, old(p.token), old(p.amount), verdict)
      ensures p.token == old(p.token) && p.amount == old(p.amount) && p.locked == old(p.locked)
      ensures p.status == if p.key == EMPTY then verdict else registry[p.key].status
    {
      KeysMatch();
      assert p.key != EMPTY ==> RegisteredAs(p, p.key, registry[p.key]);
      var alreadyProcessed := false;
      if !newPayment {
        alreadyProcessed := AlreadyProcessed(p.key);
      } else if p.key != EMPTY {
        NewIsUncharged(p);
      }
      if !alreadyProcessed {
        Append(p, verdict, now);
      }
    }

    method Append(p: Payment, verdict: StatusType, now: int)
      requires Valid() && p in Repr && !p.locked && Registers(p, true)
      modifies this`processed, this`ledger, this`registry, p
      ensures Valid()
      ensures ledger == old(ledger) + [Charge(p.key, old(p.token), old(p.amount), verdict)]
      ensures p.key == EMPTY ==> registry == old(registry)
      ensures p.key != EMPTY ==> p.key in old(registry)
      ensures p.key != EMPTY ==> registry == old(registry)[p.key := old(registry)[p.key].(status := verdict)]
      ensures p.token == old(p.token) && p.amount == old(p.amount) && p.locked == old(p.locked)
      ensures p.status == verdict
    {
      p.locked := true;
      processed := processed + [Processed(p, now)];
      p.status := verdict;
      ledger := ledger + [Charge(p.key, p.token, p.amount, verdict)];
      if p.key != EMPTY {
        registry := registry[p.key := registry[p.key].(status := verdict)];
      }
      p.locked := false;
    }

    method GetPayments(token: Text) returns (payments: seq<Charge>)
      requires Valid()
      ensures payments == PaymentsOf(ledger, token)
    {
      payments := [];
      for i := 0 to |processed|
        invariant payments == PaymentsOf(ledger[..i], token)
      {
        PaymentsOfAppend(ledger[..i], ledger[i], token);
        assert ledger[..i + 1] == ledger[..i] + [ledger[i]];
        var p := processed[i].payment;
        if p.token == token {
          payments := payments + [Charge(p.key, p.token, p.amount, p.status)];
        }
      }
      assert ledger[..|processed|] == ledger;
    }
  }
}
