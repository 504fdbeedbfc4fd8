# ISURIDE: a verified model

ISURIDE is a ride-hailing web application (`webapp/go`) together with the simulator and the unreliable payment
server that judge it (`bench`). Server and simulator each keep their own copy of the same facts: the status of
a ride, the coupons of a user, the distance a chair has travelled, the money that has been paid. This project
models the logic on both sides in Dafny and proves that the copies agree over every run.

## What is modelled

| module | what it is about |
|---|---|
| `Grid`, `Detour`, `Evaluation` | motion on the grid for arbitrary random draws, the exact price of a detour in ticks, and what it does to a user's rating |
| `Generator` | the loop that invents rides for the initial data |
| `Location`, `TravelLog` | a chair's partly acknowledged position history, the three ways of reading it, and the window-function sum over the server's copy of it |
| `Payments`, `PaymentClient` | the payment server with idempotency keys and injected failures, and the client that retries and reconciles |
| `Fares`, `Coupons`, `CouponRuns`, `Money` | fares, the coupon table and its selection rules, the simulator's three counters, and the books of payments, sales and discounts |
| `WebApp`, `Handlers`, `Deliveries` | the ride tables with their status logs and sent marks, and the handlers: as functions, and as the methods that compute them step by step |
| `Matching`, `MatcherLoop` | the matcher, whose statements interleave with all other handlers, and its gate |
| `Agents` | how the simulator's users and chairs react to one notification |
| `Protocol`, `ProtocolFrames`, `ProtocolUsers`, `ProtocolChairs`, `ProtocolRuns`, `ProtocolProgress`, `ProtocolCompletion` | the life of a ride as a distributed protocol: server, matcher, any number of users and chairs; its invariant, what follows for every run, and that it never gets stuck |
| `System`, `SystemParts`, `SystemRuns`, `SystemLedger`, `SystemCompletion` | the whole system: the protocol, the coupon table with the simulator's counters, the payment server and the books together, with every call of an evaluation to the payment server as a step of its own |
| `Ticks` | the ticks of a chair and of a user with a ride in progress as methods; uninterrupted, each is a short run of the protocol |
| `Score`, `Satisfaction` | the benchmark's score while rides are under way, and a region's satisfaction counter |

Random draws, failures of the payment server, times and the order of steps are inputs: every theorem holds for
all of them. A transaction is one step. In `Protocol` the ticks of the agents are cut at each client call;
accepting a ride and evaluating it hold the status lock across the call, departing and posting a position do
not. A user's late COMPLETED notifications of earlier rides may come at any time and any number of times.

## Assumptions

- Rows that are ordered by `created_at` have distinct, increasing times, so a table is a sequence in the order of insertion.
- `updated_at` of a ride changes with every UPDATE of its row (as in the schema, `webapp/sql/1-schema.sql:92`).
- No user has two coupons with the same code, which is the table's primary key.
- There is one matcher, and no two POSTs with the same idempotency key overlap. Users have different payment tokens.
- Every HTTP exchange returns its response. The poll that is under way when a user closes its notification
  stream is answered by the server before the user's next ride is created.
- No COMPLETED of an earlier ride is handled while the current ride is expected to be completed. The claims are
  false without it: `ProtocolRuns.LateOutcomes` says exactly what happens then, `ProtocolCompletion.ALateCompletedFails`
  shows a run that gets there.
- Users start without rides and payments. Users and chairs of the initial data are not part of the model.
- The pickup and the destination of a ride differ; the simulator draws them at least five apart.

## What the proofs found

- `chair.go:259` says that a detour is one unit of speed longer than the shortest way. It is never that: a detour
  costs at least two ticks (the retreat and the way back) and exactly two if and only if the last tick of the straight
  leg has room for twice the overshoot `o` of the detour point outside the rectangle between start and destination,
  that is `d + 2 * o <= NeededTime(d) * speed` (`Detour.TwoTicksIff`). In the rectangle that always holds; outside it
  the detour can cost much more (`Detour.DetourCanCostMore` has 42 ticks instead of 21).
- The documentation (`docs/ISURIDE.md:167`) promises a user the rest of ride A's statuses after ride B has been
  created. The server only ever looks at the latest ride, so the promise is kept exactly when nothing was left to
  send (`WebApp.RestOfEarlierRide`, `WebApp.RestCanBeLost`). The simulator's own users never get into that
  situation (`ProtocolRuns.EarlierRidesAreDelivered`).
- `PaymentDB.Verify` guards the amount with a condition that no amount satisfies, so no amount is ever invalid
  (`Money.PaymentDB.Verify`).
- A payment request without token or amount uses its idempotency key up: every later request with the key is refused,
  unless its payload is empty, too (`Payments.MalformedSpoilsKey`).
- The reconciliation by counting succeeds for every sequence of failures exactly when the user's rides are one more
  than its recorded payments, or the retry counter has already used up its bad luck (`PaymentClient.ExactlyOnceIff`).
- A late COMPLETED of an earlier ride is dropped exactly when the current ride is not expected to be completed. At
  that moment it is taken for the current ride: the user reports wrong data if and only if pickup, destination or fare
  differ, and otherwise completes the ride early (`ProtocolRuns.LateOutcomes`). The moment is reachable
  (`ProtocolCompletion.ALateCompletedFails`).
- A chair's reported distance passes the simulator's comparison at a later moment if and only if the row it ends with
  was not posted again after the report, or that row ended a leg of length zero, or the chair has not travelled on
  (`TravelLog.ReportAcceptedIff`). Lost answers before the report, or of later rows, harm nothing; once the last row
  has been posted again, a rejection lies ahead if and only if its leg is longer than zero
  (`TravelLog.RepostedReportRejectedIff`).
- With acknowledgements that arrive out of order, a coordinate held is still never flagged as stale
  (`Location.HeldIsNeverFlagged`), but a coordinate may be reported that was not held: never so if and only if no two
  acknowledged positions at different coordinates have overlapping periods (`Location.CoveredMeansHeldIff`).
- A tick of a detour can lower the score: exactly when it brings the chair nearer to the origin of its leg, which for
  the retreat means that the overshoot grows by less than half of the tick's way (`Score.TurnLowersIff`), so from a
  point on the way that the chair has come more than half a tick's way on the axis on which it turns
  (`Score.TurnFromTheWay`).
- The data generator leaves out PICKUP and CARRYING when a draw leads the chair over the destination first; it never
  does so unless the destination lies in the rectangle between start and pickup, at a multiple of the speed from the
  start (`Generator.CompleteForAllDraws`).
- A final reading of the score taken between the marking of an evaluation and its booking misses the ride's whole
  score (`Score.MarkDipsUntilBooked`).
- The simulator compares the inviter's counter with three before it takes the inviting lock, so one of four
  invitations on their way is refused (`CouponRuns.InvitationRefusedIff`, `CouponRuns.AnInvitationIsRefused`).

## Model

| member | source | states |
|---|---|---|
| `Grid.Advance` | home/isucon/bench/benchmarker/world/coordinate.go:36-110 | for every draw the move ends `min(step, d)` from the start, `d - min(step, d)` from the target, inside their rectangle |
| `Grid.MoveToward` | home/isucon/bench/benchmarker/world/coordinate.go:36-110 | the branching code computes that move, and each axis gets at least the share of the draw, as far as it needs it |
| `Grid.NeededTimeIsLeast` | home/isucon/bench/benchmarker/world/utils.go:41-47 | k steps of length s cover d if and only if k is at least the needed time |
| `Grid.WalkExact` | home/isucon/bench/benchmarker/world/coordinate.go:36-110 | after any number of moves with any draws the distances to start and target and the length of the path are exact |
| `Grid.WalkArrivesExactly` | home/isucon/bench/benchmarker/world/utils.go:41-47 | iterated moves are at the target if and only if there are at least as many as the needed time |
| `Detour.CalculateRandomDetourPoint` | home/isucon/bench/benchmarker/world/coordinate.go:169-200 | where the detour point is for a draw: the draw along x, the rest of half the leg's ticks along y, and on a leg along an axis the start itself |
| `Detour.DetourPointDistances` | home/isucon/bench/benchmarker/world/coordinate.go:169-200 | how far the detour point is from start and destination, and what it overshoots |
| `Detour.Chair.PlanDetour` | home/isucon/bench/benchmarker/world/chair.go:257-270 | on which leg the chair makes its detour, and over which point |
| `Detour.Chair.MoveOppositeTo` | home/isucon/bench/benchmarker/world/chair.go:331-365 | the retreat: one axis, one unit of speed, away from the target; the coin decides where both axes differ |
| `Detour.Chair.TickLeg` | home/isucon/bench/benchmarker/world/chair.go:142-174 | which way the chair moves and when it retreats: towards the detour point only on the leg of the detour and until it has retreated; arrival is being at the target |
| `Detour.DetourCost` | home/isucon/bench/benchmarker/world/chair.go:195-228 | for all draws a detoured chair is at its target at the detour's total and never before |
| `Detour.DetourCostAgainstStraight` | home/isucon/bench/benchmarker/world/chair.go:259-270 | the total is the time needed for the distance plus twice the overshoot, plus 2; in the rectangle exactly two ticks more than straight |
| `Detour.TwoTicksIff` | home/isucon/bench/benchmarker/world/chair.go:259-270 | a detour never costs less than two ticks, and exactly two if and only if twice the overshoot fits into the last tick of the straight leg |
| `Detour.DetourCanCostMore` | home/isucon/bench/benchmarker/world/chair.go:259-260 | outside the rectangle it can cost much more than the comment says |
| `Detour.EmptyLeg` | home/isucon/bench/benchmarker/world/chair.go:142-174 | a leg of length zero ends with its first tick, with or without a planned detour |
| `Evaluation.CalculateEvaluation` | home/isucon/bench/benchmarker/world/request.go:130-170 | which of the four criteria a ride meets |
| `Evaluation.Score` | home/isucon/bench/benchmarker/world/request.go:230-245 | one point plus the criteria met, always a score the server accepts |
| `Evaluation.StraightDriveIsRewarded` | home/isucon/bench/benchmarker/world/request.go:159-167 | for every sequence of draws after which a straight chair first stands on the destination, the calculated evaluation has the point for driving |
| `Evaluation.DetouredDrive` | home/isucon/bench/benchmarker/world/request.go:159-167 | after a detour the calculated evaluation has it if and only if the overshoot costs less than three ticks |
| `Evaluation.DetouredPickup` | home/isucon/bench/benchmarker/world/request.go:150-158 | after a detour on the way to the passenger, over whatever point, the point for the pickup is given if and only if the wait and what the overshoot costs stay below thirteen ticks together |
| `Generator.SimulateRide` | home/isucon/bench/cmd/generate_init_data.go:265-341 | the loop ends within the bound for all draws; its positions, its status entries and its end time are stated exactly |
| `Generator.CompleteForAllDraws` | home/isucon/bench/cmd/generate_init_data.go:265-341 | the log has all six statuses for all draws if and only if the destination cannot be met on the way to the pickup |
| `Location.ChairLocation.PlaceTo` | home/isucon/bench/benchmarker/world/chair_routes.go:90-97 | the first position starts the history |
| `Location.ChairLocation.MoveTo` | home/isucon/bench/benchmarker/world/chair_routes.go:99-106 | a move appends an unacknowledged position and adds its distance to the total |
| `Location.ChairLocation.SetServerTime` | home/isucon/bench/benchmarker/world/chair_routes.go:108-112 | the last position gets its server time |
| `Location.ChairLocation.TotalTravelDistanceUntil` | home/isucon/bench/benchmarker/world/chair_routes.go:58-75 | the loop sums the acknowledged positions up to the first one acknowledged too late |
| `Location.DistanceUntilIs` | home/isucon/bench/benchmarker/world/chair_routes.go:58-75 | the distance until t is the length of the path over the acknowledged positions before the first one acknowledged after t; positions without acknowledgement are left out |
| `Location.ChairLocation.GetPeriodsByCoord` | home/isucon/bench/benchmarker/world/chair_routes.go:119-142 | the loop collects the half-open periods at a coordinate |
| `Location.ChairLocation.GetCoordByTime` | home/isucon/bench/benchmarker/world/chair_routes.go:144-154 | the loop finds the last position acknowledged by then |
| `Location.PeriodsMatchCoord` | home/isucon/bench/benchmarker/world/chair_routes.go:119-154 | with ordered server times the chair is at c at time t if and only if t lies in one of c's periods |
| `Location.HeldIsCovered` | home/isucon/bench/benchmarker/world/chair_routes.go:119-154 | for arbitrary server times, the coordinate at which the chair is at t is reported for t |
| `Location.CoveredMeansHeldIff` | home/isucon/bench/benchmarker/world/chair_routes.go:119-154 | for arbitrary server times, everything reported for a moment was held at it if and only if no acknowledged positions at different coordinates have overlapping periods |
| `Location.UnorderedTimesDisagree` | home/isucon/bench/benchmarker/world/chair_routes.go:119-154 | a history with unordered times for which the queries disagree |
| `Location.CheckCoordinate` | home/isucon/bench/benchmarker/world/world.go:356-374 | the loop over the periods finds what `VerdictIff` characterises |
| `Location.VerdictIff` | home/isucon/bench/benchmarker/world/world.go:356-374 | for arbitrary server times: a coordinate that is not the current one is "never there" if and only if no acknowledged position is at it, and too old if and only if there are such positions and each was followed by one acknowledged more than 3000 ms before |
| `Location.HeldIsNeverFlagged` | home/isucon/bench/benchmarker/world/world.go:356-374 | a coordinate held at any time within the last three seconds is never flagged, whatever the order of the server times |
| `Location.DistanceUntilAgainstTotal` | home/isucon/bench/benchmarker/world/chair_routes.go:58-75 | the distance until t grows with t, is at most the total, and equals it once everything is acknowledged |
| `TravelLog.SumsAgreeWhenSettled` | home/isucon/webapp/go/owner_handlers.go:207-218 | when the last answer has arrived, the window-function sum over the posted rows, repeated ones included, is the chair's own distance |
| `TravelLog.ReportAcceptedIff` | home/isucon/bench/benchmarker/world/owner.go:247-257 | for every run with any lost answers, exactly when a report is accepted at a later moment |
| `TravelLog.RepostedReportRejectedIff` | home/isucon/bench/benchmarker/world/owner.go:247-257 | once the report's last row has been posted again, some later moment rejects it if and only if the leg of that row is longer than zero |
| `TravelLog.LostAnswerIsRejected` | home/isucon/bench/benchmarker/world/owner.go:247-257 | a run from the start that gets there with one lost answer |
| `Payments.Server.FailurePercentage` | home/isucon/bench/payment/handler.go:70-81 | one per cent for each payment of the last three seconds, at most fifty |
| `Payments.Server.PostPayments` | home/isucon/bench/payment/handler.go:30-116 | the handler over shared payment objects has exactly the effect and the answer of one POST on the server's books |
| `Payments.FirstPassCharges` | home/isucon/bench/payment/handler.go:80-115 | a POST whose key has not been charged is charged, with its payload and verdict, if and only if its draw or four failures in a row let it pass; its answer and the retry counter |
| `Payments.KeyedExactlyOnce` | home/isucon/bench/payment/handler.go:30-116 | over any sequence of POSTs of one key and payload the first that passes is charged and no other: exactly once if one passes, else never |
| `Payments.RefusedIff` | home/isucon/bench/payment/handler.go:36-67 | when a POST is answered with a conflict, a bad request or an unprocessable payload, and that nothing is charged then |
| `Payments.MalformedSpoilsKey` | home/isucon/bench/payment/handler.go:38-67 | after a first request without token or amount, a key is refused with every payload but the empty one |
| `Payments.Server.GetPayments` | home/isucon/bench/payment/handler.go:141-159 | the payments of the token, oldest first |
| `Payments.PostKeepsConsistent` | home/isucon/bench/payment/handler.go:84-110 | every POST keeps charges and registrations in agreement and only ever adds charges |
| `Payments.KeyedAtMostOnce` | home/isucon/bench/payment/handler.go:84-103 | over any sequence of POSTs a key is charged at most once |
| `Payments.RepeatIsReplayed` | home/isucon/bench/payment/handler.go:59-106 | a repeat of a charged key changes no books: with the same payload it is answered with the recorded status or an injected error, with another payload it is rejected |
| `Payments.PostOnOwnToken` | home/isucon/bench/payment/handler.go:82-115 | what one POST does to the token's number of payments and retry counter |
| `Payments.PostOnOtherToken` | home/isucon/bench/payment/handler.go:82-115 | other tokens' requests change neither |
| `PaymentClient.RequestPayment` | home/isucon/webapp/go/payment_gateway.go:32-94 | the retry loop, with other handlers' requests between any two calls, does what the abstract attempts do and adds only payments of the fare; with one ride more than payments on entry it succeeds and adds exactly one |
| `PaymentClient.EndsWithTheFirst` | home/isucon/webapp/go/payment_gateway.go:32-94 | a payment ends with the first attempt that is answered with success or leaves exactly as many payments as rides, and fails if and only if there is none |
| `PaymentClient.ExactlyOnce` | home/isucon/webapp/go/payment_gateway.go:32-94 | if payments equal earlier rides, then for every sequence of failures the loop succeeds within its six attempts with exactly one new payment, and the counter stays in its range |
| `PaymentClient.ExactlyOnceIff` | home/isucon/webapp/go/payment_gateway.go:71-80 | when the reconciliation by counting works, and when it does not |
| `PaymentClient.EveryRidePaidOnce` | home/isucon/webapp/go/payment_gateway.go:32-94 | so over a user's whole life every ride is paid exactly once |
| `Fares.DiscountIsCapped` | home/isucon/bench/benchmarker/world/request.go:115-127 | sale and fare in figures; the discount is the coupon capped by the metered fare; both sides' fares and sales are equal |
| `Coupons.CouponDb.PostUsers` | home/isucon/webapp/go/app_handlers.go:61-118 | registration inserts the coupons of its invitation, or is rolled back |
| `Coupons.RegistrationRefusedIff` | home/isucon/webapp/go/app_handlers.go:72-96 | a registration is refused if and only if it has an invitation and three rows stand for it already or nobody owns the code |
| `Coupons.RegistrationGrants` | home/isucon/webapp/go/app_handlers.go:54-118 | otherwise 3000 for the first ride and, with an invitation, 1500 for the new user and 1000 for the code's owner are inserted, and nothing else changes |
| `Coupons.CouponDb.PostRides` | home/isucon/webapp/go/app_handlers.go:358-428 | a new ride uses one row by the preference rules and is answered with its fare |
| `Coupons.TakenIs` | home/isucon/webapp/go/app_handlers.go:364-415 | for arbitrary tables: a first ride takes the unused first-ride row if there is one, every other ride the oldest unused row, and none if and only if none is unused |
| `Coupons.CouponDb.CalculateDiscountedFare` | home/isucon/webapp/go/app_handlers.go:965-1006 | the fare of an existing ride is the one its coupon gives; of a new one, the one its next coupon would give |
| `Coupons.PreferredIs` | home/isucon/webapp/go/app_handlers.go:983-999 | the row an estimate reckons with: the unused first-ride row if there is one, else the oldest unused row |
| `Coupons.CouponDb.PostRidesEstimatedFare` | home/isucon/webapp/go/app_handlers.go:472-485 | estimate and discount add up to the undiscounted fare |
| `CouponRuns.Requester.CreateRequest` | home/isucon/bench/benchmarker/world/user.go:323-373 | the choice of the discount, the comparison of the estimate, and the update of the counters |
| `CouponRuns.PreferredIsOldest` | home/isucon/webapp/go/app_handlers.go:364-392 | an unused first-ride coupon is always the oldest row, so both preference rules choose the same |
| `CouponRuns.RunKeepsInv` | home/isucon/bench/benchmarker/world/world.go:189-213 | the refinement of the table by the counters survives every interleaving |
| `CouponRuns.EstimateAlwaysExpected` | home/isucon/bench/benchmarker/world/user.go:354-361 | in every reachable state the server's estimate is what the simulator expects |
| `CouponRuns.OneFareEverywhere` | home/isucon/webapp/go/app_handlers.go:965-1006 | in every reachable state every ride's fare is the planned one, and its discount is the coupon capped by the metered fare |
| `CouponRuns.PlanIsKept` | home/isucon/webapp/go/app_handlers.go:364-424 | a ride keeps its plan, hence its fare, for ever |
| `CouponRuns.CountersRefineTable` | home/isucon/bench/benchmarker/world/user.go:323-337 | whenever the lock is free the three counters are the table: rides, unused rewards, and at most three invitations per code with as many rewards |
| `CouponRuns.InvitationRefusedIff` | home/isucon/webapp/go/app_handlers.go:78-104 | an invitation is refused if and only if the inviter's counter stands at three |
| `CouponRuns.AnInvitationIsRefused` | home/isucon/bench/benchmarker/world/world.go:182-213 | a run in which four invitations are found permitted and the fourth is refused |
| `Money.PaymentDB.Verify` | home/isucon/bench/benchmarker/world/payment.go:23-50 | what is committed; exactly when no request, a wrong amount or a second payment is found; and that no amount is ever invalid |
| `Money.PaymentDB.TotalPayment` | home/isucon/bench/benchmarker/world/payment.go:52-54 | the sum of the committed payments |
| `Money.GapIsTheDifference` | home/isucon/bench/benchmarker/scenario/scenario.go:362-370 | payments exceed sales minus discounts by what evaluations in flight have not booked, and by nothing if and only if there are none |
| `Money.MoneyIsConserved` | home/isucon/bench/benchmarker/scenario/scenario.go:341-370 | over every run with payments of any amount at any moment: as long as no verification has found a wrong one, the books balance if and only if no evaluation is in flight; `SystemRuns.NothingGoesWrong` shows that none ever does |
| `WebApp.RunKeepsOk` | home/isucon/webapp/go/app_handlers.go:684-753 | for arbitrary requests the sent marks of a ride are a prefix of its log for both receivers, and what was delivered, without repeats, is that prefix |
| `WebApp.NotifiedInOrder` | home/isucon/webapp/go/chair_handlers.go:201-240 | a notification carries the row after the last one carried, or repeats the last one |
| `WebApp.EveryCompletedIsPreceded` | home/isucon/webapp/go/app_handlers.go:544-568 | for arbitrary requests COMPLETED comes directly after ENROUTE, PICKUP, CARRYING and ARRIVED |
| `WebApp.CoordinateTwice` | home/isucon/webapp/go/chair_handlers.go:137-156 | repeating a coordinate adds nothing |
| `WebApp.OvertakenRun` | home/isucon/webapp/go/app_handlers.go:672-700 | a ride that is not its user's latest is never again notified to the user |
| `WebApp.RestOfEarlierRide` | home/isucon/docs/ISURIDE.md:167-175 | all rows of an earlier ride get sent after a new one was created if and only if they had been sent before |
| `WebApp.RestCanBeLost` | home/isucon/docs/ISURIDE.md:167-175 | a reachable state in which they had not |
| `Handlers.Server.PostRides` | home/isucon/webapp/go/app_handlers.go:316-356 | the loop over the user's rides: a ride is inserted if and only if all of them end with COMPLETED, and refused otherwise |
| `Handlers.Server.PostRideStatus` | home/isucon/webapp/go/chair_handlers.go:272-339 | ENROUTE unchecked, CARRYING only after PICKUP, everything else and other chairs refused without a change |
| `Handlers.Server.PostCoordinate` | home/isucon/webapp/go/chair_handlers.go:128-160 | PICKUP and ARRIVED are logged by the status from before |
| `Handlers.Server.PostEvaluation` | home/isucon/webapp/go/app_handlers.go:508-640 | accepted if and only if the ride has arrived, the score is from 1 to 5 and not yet the ride's, and the charge succeeds; which refusal is answered; a refusal changes nothing |
| `Handlers.Server.AppNotification` | home/isucon/webapp/go/app_handlers.go:661-761 | which ride and which status is answered, the oldest unsent row of the user's latest ride, and that the row is marked |
| `Handlers.Server.ChairNotification` | home/isucon/webapp/go/chair_handlers.go:187-266 | the same for the chair's latest updated ride |
| `Handlers.Server.GetChairStats` | home/isucon/webapp/go/app_handlers.go:763-826 | in every reachable state it counts exactly the chair's own finished rides and never meets a missing evaluation |
| `Handlers.FinishedCountIs` | home/isucon/webapp/go/app_handlers.go:767-812 | the count is the number of rides of this chair with a COMPLETED row |
| `Handlers.EvaluationRaisesStats` | home/isucon/webapp/go/app_handlers.go:763-826 | an accepted evaluation raises the count of the ride's chair by one and its sum by the evaluation, and no other chair's figures |
| `Handlers.OtherRequestsKeepStats` | home/isucon/webapp/go/app_handlers.go:763-826 | no other request changes any chair's figures, except for the assignment of a ride that is finished, which the matcher never makes |
| `Handlers.ReadLog` | home/isucon/webapp/go/app_handlers.go:790-811 | that all three statuses were seen is the same as that COMPLETED was |
| `Matching.LogsArePrefixes` | home/isucon/webapp/go/chair_handlers.go:306-330 | if ENROUTE is posted once per ride, every log is a prefix of the six statuses |
| `Matching.LatestIsLast` | home/isucon/webapp/go/chair_handlers.go:201-209 | the ride found by `updated_at` is the one assigned last |
| `Matching.ChairIsKept` | home/isucon/webapp/go/internal_handlers.go:47-50 | a ride's chair is never overwritten |
| `Matching.OneOpenRide` | home/isucon/webapp/go/internal_handlers.go:36-45 | a chair has at most one ride whose six statuses have not all been sent to it |
| `Matching.MatcherFactsAreStable` | home/isucon/webapp/go/internal_handlers.go:14-47 | what the matcher has read stays true until it writes, whatever runs in between |
| `Matching.ChairHistory` | home/isucon/webapp/go/chair_handlers.go:201-240 | all a chair has been told, without repeats, is the complete logs of its earlier rides followed by a prefix of the current one |
| `MatcherLoop.Database.InternalGetMatching` | home/isucon/webapp/go/internal_handlers.go:11-53 | the outcome of a round with other handlers between its statements: none if and only if no ride waited, no chair could be drawn before a free one, or ten were busy; else the oldest waiting ride and the first drawn chair found free. Only a ride without chair is assigned, to a chair that has heard everything |
| `MatcherLoop.QuietOutcome` | home/isucon/webapp/go/internal_handlers.go:14-53 | without interference a ride is matched if and only if one waits and a free chair is among the draws; it is the oldest ride and the first free chair |
| `Agents.User.ChangeRequestStatus` | home/isucon/bench/benchmarker/world/user.go:376-422 | outcome and effect of one notification on the request and the history |
| `Agents.ToleratedOnly` | home/isucon/bench/benchmarker/world/user.go:388-411 | what is refused: an accepted status is the known or the expected one, or ENROUTE or CARRYING directly after the known one; only CARRYING may be ahead of what is expected, and by one |
| `Agents.RefusedIff` | home/isucon/bench/benchmarker/world/user.go:378-417 | without a ride, or with a status that is not tolerated, only a COMPLETED of an earlier ride is dropped; which error it is otherwise |
| `Agents.User.HandleNotification` | home/isucon/bench/benchmarker/world/user.go:424-601 | the validators of the six notifications decide what is accepted, as characterised by the next three members |
| `Agents.FirstNewsAcceptedIff` | home/isucon/bench/benchmarker/world/user.go:424-601 | with nothing validated before: accepted if and only if pickup, destination and fare are the user's own and, but for MATCHING, the chair is one of the simulator's; else reported as wrong |
| `Agents.LaterNewsAcceptedIff` | home/isucon/bench/benchmarker/world/user.go:424-601 | after a validation: PICKUP, CARRYING and ARRIVED are accepted if and only if pickup, destination, fare and chair all equal the validated ones |
| `Agents.ValidatedIs` | home/isucon/bench/benchmarker/world/user.go:440-495 | which event the later ones are compared with: the last ENROUTE, or without one the first later event |
| `Agents.ChairAgent.HandleNotification` | home/isucon/bench/benchmarker/world/chair.go:417-477 | the same for a chair |
| `Agents.ChairAcceptedIff` | home/isucon/bench/benchmarker/world/chair.go:417-477 | notification by notification, when a chair accepts it and which error it reports otherwise; a ride's progress is compared with the assignment but for the ride's id |
| `Agents.MindIs` | home/isucon/bench/benchmarker/world/chair.go:417-477 | what an accepted notification leaves of assignment and ride |
| `Agents.LateIsIgnored` | home/isucon/bench/benchmarker/world/user.go:399-407 | whatever the statuses, a late COMPLETED is dropped if and only if the current ride is neither expected to be completed nor completed |
| `Agents.LateTakenForCurrent` | home/isucon/bench/benchmarker/world/user.go:376-422 | otherwise it is an error or taken for the current ride, after which the current ride's own notifications are unexpected |
| `ProtocolUsers.TransitionTolerated` | home/isucon/bench/benchmarker/world/user.go:389-411 | the whitelist covers every transition that can come up |
| `ProtocolUsers.NewsIsValid` | home/isucon/bench/benchmarker/world/user.go:497-601 | whatever the interleaving, the pickup, the destination, the fare and the chair a user is told next pass the validator of the status, also against an event validated before |
| `ProtocolUsers.NextIsNear` | home/isucon/bench/benchmarker/world/user.go:102-108 | the head of a user's queue repeats what it knows or is the next status |
| `ProtocolChairs.HeadOfQueue` | home/isucon/bench/benchmarker/world/chair.go:103-109 | the head of a chair's queue repeats the last notification, or is the next one and new |
| `ProtocolChairs.ChairHandleKeeps` | home/isucon/bench/benchmarker/world/chair.go:417-477 | handling any notification keeps the whole protocol's invariant: no assignment while one is held, no COMPLETED without a ride |
| `ProtocolChairs.PostKeeps` | home/isucon/bench/benchmarker/world/chair.go:307-323 | so does posting a position, also when the server already finds the next ride |
| `ProtocolRuns.RunKeepsInv` | home/isucon/bench/benchmarker/world/user.go:95-246 | and so does every run of server, matcher, users and chairs |
| `ProtocolRuns.NoFault` | home/isucon/bench/benchmarker/world/chair.go:111-233 | in no run does an agent report an error (wrong data, unexpected transition, no request), does the server refuse a call, or are an evaluation's times missing |
| `ProtocolRuns.LateOutcomes` | home/isucon/bench/benchmarker/world/user.go:376-422 | in every reachable state: a COMPLETED of an earlier ride is dropped if and only if the current ride is not expected to be completed, and reported as wrong if and only if it is and the trips differ |
| `ProtocolRuns.EveryTransitionIsTolerated` | home/isucon/bench/benchmarker/world/user.go:389-411 | every notification a user takes from its queue is accepted |
| `ProtocolRuns.ArrivedHasTimes` | home/isucon/bench/benchmarker/world/request.go:130-133 | when the user has arrived all times are positive and in order |
| `ProtocolRuns.UserIsNeverLeftBehind` | home/isucon/bench/benchmarker/world/chair.go:176-193 | no ride is CARRYING before its user has handled PICKUP, none COMPLETED before ARRIVED |
| `ProtocolRuns.EarlierRidesAreDelivered` | home/isucon/docs/ISURIDE.md:158-175 | the simulator's users have been sent all six statuses of every ride but their latest |
| `ProtocolRuns.StatisticsAgree` | home/isucon/bench/benchmarker/world/user.go:529-541 | while a chair is under way both sides agree on which of its rides are finished |
| `ProtocolRuns.CountsAgree` | home/isucon/bench/benchmarker/world/user.go:529-541 | so the server's count for a chair that is under way is the number of rides the simulator has finished with it |
| `ProtocolRuns.NoCompletedRequest` | home/isucon/bench/benchmarker/world/chair.go:235-238 | the chair's unexpected state is unreachable |
| `ProtocolProgress.SomeStepHelps` | home/isucon/bench/benchmarker/world/chair.go:111-233 | as long as a ride with a chair is not over, some step is possible that leaves less to do for it |
| `ProtocolCompletion.EveryRideCanBeCompleted` | home/isucon/bench/benchmarker/world/user.go:140-216 | from every reachable state with a chair every ride, matched or not, can be brought to its end: no lock, wait, queue or matcher gets stuck |
| `ProtocolCompletion.ARideIsCompleted` | home/isucon/bench/benchmarker/world/user.go:140-216 | a run from the empty server in which a ride is completed on both sides exists |
| `ProtocolCompletion.ALateCompletedFails` | home/isucon/bench/benchmarker/world/user.go:399-417 | a reachable state in which a user that handles a COMPLETED of its earlier ride reports wrong data |
| `SystemRuns.ReachableFits` | home/isucon/webapp/go/app_handlers.go:508-631 | in every reachable state of the whole system the records that server, simulator and payment server have of each ride and each user agree |
| `SystemRuns.NothingGoesWrong` | home/isucon/bench/benchmarker/world/payment.go:23-50 | in every run of the whole system: no agent reports an error, every estimate is the expected one, six attempts always suffice, no verification finds a wrong payment, and the books differ by exactly what evaluations in flight have paid and not booked |
| `SystemRuns.RidesExceedPayments` | home/isucon/webapp/go/payment_gateway.go:71-80 | at every moment at which an evaluation can start, the user's rides are one more than its payments, the server accepts the evaluation, and the table's fare is the one that will be verified |
| `SystemRuns.DeskMakesAttempts` | home/isucon/webapp/go/payment_gateway.go:32-94 | a POST of the system with the comparison that may follow is one attempt of the payment client |
| `SystemLedger.LedgerListsFares` | home/isucon/bench/payment/handler.go:84-115 | at every moment of every run the payments of a user are the fares of its paid rides, each once, in their order |
| `SystemCompletion.EveryRideCanBePaid` | home/isucon/bench/benchmarker/world/user.go:165-204 | from every reachable state of the whole system with a chair, every ride can be completed, paid and booked |
| `SystemCompletion.ARideIsPaid` | home/isucon/bench/benchmarker/world/user.go:165-204 | a run from the empty system in which that happens exists |
| `Ticks.Chair.Tick` | home/isucon/bench/benchmarker/world/chair.go:111-233 | outcome of a tick with a ride in progress: statuses, times, position and history |
| `Ticks.User.Tick` | home/isucon/bench/benchmarker/world/user.go:140-216 | the evaluation after the arrival, the release after the completion, and which error is reported |
| `Ticks.ChairTickIsRun` | home/isucon/bench/benchmarker/world/chair.go:111-233 | in every state that fits, an uninterrupted tick of a chair is a run of the protocol with the method's effect |
| `Ticks.UserTickIsRun` | home/isucon/bench/benchmarker/world/user.go:165-204 | the same for a user's evaluation, whose times are there and which the server accepts |
| `Satisfaction.Region.UserLeave` | home/isucon/bench/benchmarker/world/region.go:84-93 | a region with ten active users keeps ten |
| `Satisfaction.User.BookEvaluation` | home/isucon/bench/benchmarker/world/user.go:193-198 | the code adds the change of the user's average to the region's int32 counter |
| `Satisfaction.CounterTelescopes` | home/isucon/bench/benchmarker/world/user.go:193-198 | in any order of evaluations the counter is the sum of the users' rounded averages, between 0 and 5 per user |
| `Score.TickChangesBy` | home/isucon/bench/benchmarker/world/request.go:192-213 | a tick of any leg, detoured or not, lowers the partial score if and only if it brings the chair nearer to the leg's origin |
| `Score.TurnLowersIff` | home/isucon/bench/benchmarker/world/chair.go:195-228 | the retreat does so if and only if the overshoot grows by less than half of the tick's way |
| `Score.TurnFromTheWay` | home/isucon/bench/benchmarker/world/chair.go:331-365 | from a point on the way: if and only if the chair has come more than half a tick's way on the axis on which it turns |
| `Score.ReturnLowersIff` | home/isucon/bench/benchmarker/world/chair.go:195-228 | a tick towards the target does so if and only if more than half of it reduces the overshoot |
| `Score.PartialNeverDrops` | home/isucon/bench/benchmarker/world/request.go:192-213 | no step of a ride without detour lowers its partial score, which ends at the full one |
| `Score.DetourDrops` | home/isucon/bench/benchmarker/world/request.go:196-213 | a run of a ride with a detour in which the total drops on the way back from the retreat |
| `Score.TotalNeverDrops` | home/isucon/bench/benchmarker/scenario/scenario.go:345-360 | over all rides without detours the total never falls, but for evaluations that are half booked |
| `Score.MarkDipsUntilBooked` | home/isucon/bench/benchmarker/world/user.go:189-201 | marking an evaluation lowers a reading by the ride's score until it is booked |
| `Score.Scenario.Score` | home/isucon/bench/benchmarker/scenario/scenario.go:345-360 | the loops of a reading; the first final one is kept for good |
| `Score.RoundedReading` | home/isucon/bench/benchmarker/scenario/scenario.go:349-358 | a reading is a hundredth of the total, less than two points below |

## Left out

- HTTP, JSON, cookies, authentication and the generated clients: calls are direct and always answered.
- MySQL's locking and isolation: a transaction is one atomic step; the matcher, which has none, is one step per statement.
- Lost responses and transport errors, except for lost answers to posted positions in `TravelLog`.
- Interrupted ticks as heap methods: in `Protocol` they are cut at their client calls into steps on values, because everything else may happen in between; `Ticks`, `Detour`, `Agents`, `CouponRuns` and `Satisfaction` have them, or their parts, as methods on objects.
- ProtocolRuns.NoFault: excludes a late COMPLETED at the moment when the current ride is expected to be completed, because the claim is false there (`ProtocolRuns.LateOutcomes`); takes the charge of an evaluation and the fares of notifications as right, which `SystemRuns` proves of the whole system; a chair's statistics in notifications are not compared (see the next line).
- ProtocolRuns.StatisticsAgree: says which rides are finished on both sides while the chair is under way; the averages, which are floating point, and notifications that are handled only after the chair's next ride has ended are not covered.
- Handlers.Server.AppNotification: answers the ride and its status; the data beside them are `Protocol.NewsOf` with the fare of `Coupons.RideFare`, and `Handlers.Server.GetChairStats`.
- Handlers.Server.ChairNotification: answers the ride and its status; the data beside them are `Protocol.NoticeOf`.
- Ticks.Chair.Tick: takes where the chair moves and what the server answers as parameters; the moves are those of `Detour`, repeated posts of a position those of `TravelLog`, and an inactive chair does nothing.
- Ticks.User.Tick: leaves out the timeout of the matching, the region's counter (`Satisfaction`) and the owner's sales (`Money`), and takes the score from `Evaluation`.
- Score.TotalNeverDrops: leaves out detours, with which it is false; `Score.TickChangesBy` says which ticks lower the score.
- Evaluation.CalculateEvaluation: takes the presence of the four times as a precondition, because the source panics without them; `ProtocolRuns.ArrivedHasTimes` shows that it always holds.
- The chair's name, model and owner in notifications, and the user's name: only ride, user, pickup and destination are compared.
- Nearby-chair queries except for the staleness of a reported coordinate, chair activation, the set of empty chairs, owners' sales lists.
- Random names and tokens, `RandomTwoCoordinateWithRand` and `moveRandom`: pickup and destination are inputs.
- Tickers, timeouts, goroutine scheduling inside one tick, metrics, logging and the checks of the front end.
- The rounding of averages and of `UserSatisfactionScore`: floating point.
