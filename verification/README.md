# QuickBite order service: a verified model

One region of the QuickBite order service runs on one Postgres shard and Redis. This project models
what that shard does with orders, payments, restaurant balances, deliveries, agent earnings and the
outbox, and the protocols around it, and proves what holds over every run.

| file | models |
|---|---|
| `Domain.dfy` | rows, statuses, errors and the tables of the shard |
| `Finance.dfy` | the four balance statements with their CHECKs and the INT range |
| `Requests.dfy` | every request as a function of the tables: branches, replies, rollback |
| `Shard.dfy` | the same requests as a class that updates its tables statement by statement, each method proved to end where `Requests` says |
| `Sums.dfy`, `Tally.dfy` | sums over tables: charges, refunds, payouts, deliveries, announcements |
| `Ledger.dfy`, `Backing.dfy`, `Fulfilment.dfy`, `PaidFirst.dfy`, `Announcements.dfy`, `Earnings.dfy`, `Presence.dfy` | one invariant each, with one lemma per request |
| `ShardRuns.dfy` | the class serving any run |
| `Runs.dfy` | any sequence of requests, jobs and expiries; the invariants hold after every one |
| `OrderRules.dfy`, `PaymentRules.dfy`, `DeliveryRules.dfy` | what each request answers and writes, told from the tables alone with the literal edges, bounds and refusals |
| `TransactionLife.dfy`, `CashCollections.dfy`, `AcceptedFirst.dfy` | laws over every run: the life of a transaction and its refund, the cash of an order, acceptance before preparation |
| `Transitions.dfy` | what each request may do to an order's status and charges |
| `Guarantees.dfy` | what follows for every reachable state |
| `Sweeps.dfy`, `StrandedOrders.dfy` | when the sweep hits a paid order; orders that are assigned and that nobody carries |
| `Pitfalls.dfy` | what does not hold: runs that show it, and the exact condition |
| `Lifecycle.dfy` | the life of a delivery row |
| `Webhooks.dfy` | repeated and retried payment webhooks |
| `Assignment.dfy`, `Broadcasts.dfy`, `AssignmentService.dfy` | the offer/claim protocol cut at every await; how often it tries; and the undisturbed service |
| `Oldest.dfy` | `ORDER BY created_at LIMIT n` with ties |
| `OutboxDrain.dfy` | the drain job |
| `Pagination.dfy`, `QueryString.dfy`, `BalanceWalk.dfy` | the exclusive cursor pager, behind a query string; the inclusive one |
| `Idempotency.dfy`, `Codec.dfy` | replay of stored responses; order references and candidate lists |

How the model is set up:

- A row's id is its position in its table, and the public id of an order is its id. Row ids and amounts
  are unbounded integers; values written to `restaurant_balances`, `orders` and `transactions` are
  checked against the INT range.
- One database transaction is one atomic step. A transaction that raises leaves the tables as they
  were. `Webhook.faulty` is a database failure before the commit.
- A read with `.first()` and no ORDER BY may return any matching row: `hint` is that choice.
- `placeOrder` charges no fees today (`NO_FEES`). `fees` is a parameter, so that the theorems also
  cover the day when it does. Commission is zero, as in the code.
- The geo search is an arbitrary list of agents. Provider, core service and broker answers are
  parameters. In the shard and the assignment model, Redis answers; keys may expire at any time.

Where the code and its documentation disagree, the model follows the code:

- Documentation says that a delivered cash order credits the restaurant (docs/business-logic/restaurant-finance.md:30).
  Settlement only moves pending to available, and nothing ever credits for cash: `Guarantees.CashIsNeverCredited`.
  Worse, a delivered cash order takes the pending money of a card order: `Pitfalls.CashStopsCardHandover`.
- `total_earned` is documented as never decremented (src/database/migrations/20260501000008_create_restaurant_balances.ts:8).
  A refund decrements it.
- Documentation says that a cancellation refunds or voids the payment (docs/business-logic/orders.md:192-195).
  The status service moves no money: `Pitfalls.MoneyStays`, `Pitfalls.CancelledOrderKeepsItsCharge`.
- The comment on `reject` says it trims the candidate list (src/app/assignment/service/assignment.service.ts:209).
  It writes the trimmed list only where no offer exists: `AssignmentService.RejectTrimsExactly`.
- The comment on the attempts counter says that it resets once the order is assigned
  (src/app/assignment/service/assignment.service.ts:27). Nothing resets it but its expiry.
- A reassignment commits its first half and then usually fails: `Pitfalls.ReassignKeepsCarrierOnlyIfReady`.
  The one triggered by a rejection finds nothing unless somebody has assigned the order in between:
  `Pitfalls.RejectionIsNotReassigned`.

## Model

| member | source | states |
|---|---|---|
| Guarantees.LedgerReplay | src/app/finance/repository/finance.repo.ts:27-105 | in every reachable state and for every (restaurant, currency), total_earned is the subtotals of succeeded charges minus refunds, pending + available is that minus payouts, all three are non-negative, and a row exists exactly when something was charged |
| Guarantees.Solvency | src/app/finance/repository/finance.repo.ts:50-105 | payouts plus refunds never exceed the subtotals of succeeded charges |
| Guarantees.RefundExactly | src/app/payment/service/payment.service.ts:364-428 | a refund of a captured charge always finds its balance row, and goes through exactly when pending + available covers it; the total_earned CHECK never decides |
| Guarantees.PayoutExactly | src/app/finance/service/finance.service.ts:120-167 | a payout succeeds exactly when its amount is positive and available covers it: behind the guard no CHECK can fail |
| Guarantees.HandoverExactly | src/app/delivery/service/settlement.service.ts:36-84 | for any picked-up delivery, the handover succeeds if and only if an online order has a succeeded charge and an existing balance row has the subtotal pending |
| Guarantees.SettlementsAreBacked | src/app/payment/service/payment.service.ts:463-493 | whatever admins do, an online order never has more delivered deliveries than succeeded charges; without refunds and delivered cash orders, pending is charged minus settled subtotals |
| Guarantees.CardHandoverNeverFails | src/app/payment/service/payment.service.ts:472-489 | on such an account the handover of a picked-up online order fails only for want of a charge, never on the CHECK |
| Guarantees.CashIsNeverCredited | src/app/payment/service/payment.service.ts:463-493 | an account whose orders are all paid in cash never has a balance row |
| Guarantees.NothingMovesUnpaid | src/app/order/service/order-status.service.ts:61-85 | without admin overrides, an online order beyond pending_payment that is not cancelled has a succeeded charge |
| Guarantees.DeliveredMeansPaid | src/app/delivery/service/settlement.service.ts:45-57 | even with overrides, a delivered order has a delivered delivery, and a succeeded charge if it is online |
| Guarantees.OneActiveDelivery | src/app/delivery/service/delivery.service.ts:59-102 | two active deliveries of one order are the same delivery |
| Guarantees.ReassignmentsAreCounted | src/app/order/repository/order.repo.ts:273-283 | an order's reassigned deliveries are as many as its reassignment_count, which never exceeds the maximum |
| Guarantees.CarryingMeansBusy | src/app/delivery-agent/service/agent.service.ts:43-50 | in every run, claims included, an agent with an active delivery is busy, has no other active delivery, and is refused when it goes offline |
| Guarantees.BusyMeansCarryingExactly | src/app/assignment/service/assignment.service.ts:174-252 | in every run an agent is busy without an active delivery if and only if it once claimed (or was force-assigned) an order while it was not busy |
| Guarantees.StrandedForGood | src/app/delivery/service/delivery.service.ts:260-285 | such an agent stays busy in every later run, is given no delivery, cannot be chosen for one and cannot go offline |
| Guarantees.OutboxAgrees | src/lib/outbox/writer.ts:4-19 | every order has one order.placed row, one payment.completed row per succeeded charge (and per transaction), one order.delivered row per delivered delivery |
| Guarantees.EarningsAreExact | src/app/delivery/repository/agent-earnings.repo.ts:6-28 | a delivery has an earnings row, and then exactly one, if and only if it is delivered and the floored share of its fee is positive; the row has that amount and that agent |
| Guarantees.EarningsWithinShare | src/app/delivery/service/settlement.service.ts:43-68 | an agent's earnings are at most the share of the fees, less than one minor unit short per delivery, and never more than the fees |
| OrderRules.PlacedExactly | src/app/order/service/order.service.ts:143-282 | which refusal an order request gets, in which order, and that it is placed exactly for a non-empty cart of one restaurant, in stock, to an address of the customer, with amounts that fit |
| OrderRules.OrderIsPriced | src/app/order/service/order.service.ts:199-208 | a placed order's subtotal is the sum of price times quantity over its lines, its total that plus the fees; customer, restaurant, currency, payment method and initial status are those of the cart |
| OrderRules.OrderIsRecorded | src/app/order/service/order.service.ts:211-282 | a placed order writes itself, one announcement and, for cash, one pending collection over the total; nothing else |
| OrderRules.TodayTotalsAreSubtotals | src/app/order/service/order.service.ts:199-208 | without fees, as today, an order costs its lines |
| OrderRules.UpdatedExactly | src/app/order/service/order-status.service.ts:48-90 | a status update's answer for every role, status, target, owner, acceptance and reason, from the literal tables of edges |
| OrderRules.UpdateIsRecorded | src/app/order/service/order-status.service.ts:87-126 | a successful update writes that order's status, the stamp of an acceptance, the status announcement and, for a cancellation, its own; nothing else |
| OrderRules.VoidedExactly | src/app/order/service/order.service.ts:284-297 | the late cancellation writes cancelled whatever the status, and nothing else |
| OrderRules.SweptExactly | src/app/payment/jobs.ts:7-25 | the sweep cancels exactly the orders in pending_payment created before the cutoff |
| OrderRules.ClaimedExactly | src/app/order/repository/order.repo.ts:253-271 | a claim goes through exactly for a ready order without an agent, and writes status, agent and busy set only |
| AcceptedFirst.NothingMovesUnaccepted | src/app/order/service/order-status.service.ts:74-82 | in every run without admin overrides, an order that is preparing, ready, assigned, picked or delivered, or has a delivery, was accepted by its restaurant |
| PaymentRules.InitiatedExactly | src/app/payment/service/payment.service.ts:92-167 | who gets a charge for which order, with which refusals, and the row it adds |
| PaymentRules.WebhookIgnoredExactly | src/app/payment/service/payment.service.ts:191-222 | interim statuses, broken connections and known events change nothing |
| PaymentRules.WebhookWithoutCharge | src/app/payment/service/payment.service.ts:224-235 | a new event that finds no waiting charge or no order is recorded as unprocessed, and nothing else |
| PaymentRules.FailureExactly | src/app/payment/service/payment.service.ts:260-270 | a failed payment makes exactly one waiting charge of its order failed and touches no order, balance or announcement |
| PaymentRules.SuccessExactly | src/app/payment/service/payment.service.ts:237-262 | a successful payment captures exactly one waiting charge, places its order, credits the subtotal as pending and announces the total, or changes nothing if the balance does not fit |
| PaymentRules.RefundRefusedExactly | src/app/payment/service/payment.service.ts:369-373 | a refund is refused as already completed exactly for rows that are no captured, unrefunded charge; a refused refund changes nothing |
| PaymentRules.RefundIsRecorded | src/app/payment/service/payment.service.ts:380-411 | a successful refund appends its row over the amount, marks the charge with it and debits pending first; no other row changes |
| PaymentRules.PayoutIsRecorded | src/app/finance/service/finance.service.ts:120-167 | a payout takes its amount from available only and appends its pending row, or changes nothing |
| TransactionLife.StepTxs | src/app/payment/repository/transaction.repo.ts:154-180 | any request moves transaction rows along three literal edges or marks a captured charge as refunded, and adds at most one, pending, row |
| TransactionLife.RowsSettleDown | src/app/payment/service/payment.service.ts:237-270 | over any run a charge leaves pending at most once, for succeeded or failed, and never moves again; it is marked as refunded at most once and for good; payouts and refunds never change |
| TransactionLife.RefundsAreLinked | src/app/payment/service/payment.service.ts:383-403 | in every run each refund row is named by exactly one charge, a captured one of its order and currency, and a charge names at most one |
| TransactionLife.SecondRefundRefused | src/app/payment/service/payment.service.ts:370-372 | after a refund of a charge, whatever steps follow, another one is refused and changes nothing |
| CashCollections.CashIsCollectedExactly | src/app/payment/service/payment.service.ts:463-471 | in every run a cash order has exactly one collection row, over its total, succeeded if the order was handed over and pending otherwise; an online order has none |
| DeliveryRules.AssignedExactly | src/app/delivery/service/delivery.service.ts:54-120 | which order goes to which agent, the named or the nearest available one, with which refusals, and everything that is written |
| DeliveryRules.ReassignRefusedExactly | src/app/delivery/service/delivery.service.ts:122-140 | a reassignment without order, attempts or delivery under way is refused and changes nothing |
| DeliveryRules.ReassignReleases | src/app/delivery/service/delivery.service.ts:141-163 | any other closes the delivery under way, counts it and frees its agent, and then assigns as usual |
| DeliveryRules.MoveRefusedExactly | src/app/delivery/service/delivery.service.ts:171-192 | which refusal an agent's move gets, from the literal table of edges |
| DeliveryRules.MovedExactly | src/app/delivery/service/delivery.service.ts:198-220 | accepting, rejecting and picking up work for every admissible move, and what they write |
| DeliveryRules.HandoverIsRecorded | src/app/delivery/service/settlement.service.ts:36-84 | what a successful handover writes: order, delivery, balance, floored share, announcement and busy set |
| DeliveryRules.HandoverRefused | src/app/delivery/service/settlement.service.ts:45-84 | a failed handover changes nothing, and fails as unsettled exactly for an online order without a captured charge |
| DeliveryRules.PresenceExactly | src/app/delivery-agent/service/agent.service.ts:34-50 | going online, offline and expiring, and that only a busy agent is refused |
| Transitions.StatusMovesExactly | src/app/order/repository/order.repo.ts:193-230 | the status of any order after any request: which requests write it, under which conditions, and what; nothing else changes it |
| Transitions.StepCharges | src/app/payment/service/payment.service.ts:237-245 | a capturing webhook adds one succeeded charge to its order; no other request adds or removes one |
| Pitfalls.TerminalStaysExactly | src/app/payment/service/payment.service.ts:245 | a terminal order is revived exactly by a webhook that captures a pending charge of it or the pickup of its accepted delivery; its status changes exactly by those, by a successful handover of one of its deliveries unless it is delivered, and by the late cancellation unless it is cancelled |
| Pitfalls.CancelledOrderIsPlaced | src/app/payment/service/payment.service.ts:205-262 | a run in which a cancelled order is paid and becomes placed |
| Pitfalls.CancelledOrderIsPicked | src/app/delivery/service/delivery.service.ts:203-214 | a run in which an order cancelled on its way is picked up and becomes picked |
| Pitfalls.ClaimStrandsAgent | src/app/assignment/service/assignment.service.ts:144-174 | a run in which a claim leaves its agent busy and its order assigned without any delivery; the conditions are in Guarantees.BusyMeansCarryingExactly and StrandedOrders |
| StrandedOrders.ClaimStrandsOrder | src/app/order/repository/order.repo.ts:253-271 | in every reachable state, every claim that goes through leaves its order assigned to the agent and without any delivery row at all |
| StrandedOrders.RescuedExactly | src/app/order/service/order-status.service.ts:61-85 | an assigned order that nobody carries is so after a request if and only if that is none of: the late cancellation, a status update that succeeds (then an admin's), a webhook that captures a charge of it |
| StrandedOrders.StrandedUntilRescued | src/app/delivery/service/delivery.service.ts:54-163 | over any run it stays so all along exactly as long as no step is one of those three; no assignment or reassignment helps |
| StrandedOrders.CarrierComesByAssignment | src/app/delivery/service/delivery.service.ts:54-120 | an order that nobody carries gets a carrier by a successful ordinary assignment and by no other request |
| Pitfalls.MoneyStays | src/app/order/service/order-status.service.ts:48-126 | no request but captures, refunds, payouts and handovers changes a balance, and no cancellation changes a transaction |
| Pitfalls.CancelledOrderKeepsItsCharge | src/app/order/service/order-status.service.ts:87-126 | a run in which a paid order is cancelled and its charge stays captured and unrefunded |
| Pitfalls.SweepCancelsPaidOrder | src/app/payment/jobs.ts:10-23 | a run in which an order is paid between the sweep's read and its write, and is cancelled |
| Sweeps.SweepHitsPaidExactly | src/app/payment/jobs.ts:10-23 | for any run, read point and order stale at it: the write at the end cancels the order, and it then has a captured charge if and only if some step since the read was a webhook that captured one |
| Sweeps.WaitingMeansUnpaid | src/app/payment/service/payment.service.ts:237-245 | in every run, overrides included, an order in pending_payment has no succeeded charge |
| Sweeps.ChargesSince | src/app/payment/service/payment.service.ts:237-245 | over any part of a run, an order gains exactly one succeeded charge per capturing webhook |
| Sweeps.UndisturbedSweepIsSafe | src/app/payment/jobs.ts:7-25 | a sweep with nothing between its read and its writes never cancels a paid order |
| Pitfalls.ReassignKeepsCarrierOnlyIfReady | src/app/delivery/service/delivery.service.ts:122-163 | a reassignment always releases the active delivery, and the order has one afterwards if and only if it was ready and an agent could be selected |
| Pitfalls.ReassignmentStrands | src/app/delivery/service/delivery.service.ts:141-162 | a run in which an assigned order loses its delivery to a reassignment although an agent is free |
| Pitfalls.RejectionIsNotReassigned | src/app/delivery/service/delivery.service.ts:220-236 | after any successful rejection and any further steps of which none assigns the order, the reassignment it triggers changes nothing and fails, with the maximum reached or no active delivery |
| Pitfalls.CashStopsCardHandover | src/app/payment/service/payment.service.ts:484-489 | a run in which a paid, picked-up card order cannot be handed over because a cash order took its pending money |
| Lifecycle.StepRows | src/app/delivery/service/delivery.service.ts:175-214 | any request moves any delivery row along at most one edge of the status graph, keeps its order and agent, and adds at most one, newly assigned, row |
| Lifecycle.RowsSettleDown | src/app/delivery/service/delivery.service.ts:122-256 | over any run a delivery row changes at most as often as its rank drops, three times at most, and a finished row never again |
| Runs.RunKeepsInvariant | src/database/migrations/20260501000008_create_restaurant_balances.ts:11-23 | every run from the empty shard keeps the ledger, fulfilment, outbox, earnings and backing invariants, the CHECKs of the balances among them |
| Runs.StepLedger | src/app/finance/repository/finance.repo.ts:27-105 | every request keeps every account equal to the replay of its transactions |
| Runs.StepFulfilment | src/app/delivery/service/delivery.service.ts:54-256 | every request keeps, for every order, at most one active delivery, the reassignment count, and handovers within charges |
| Runs.StepOutbox | src/lib/outbox/writer.ts:4-19 | every request keeps one announcement per order, captured charge and handover |
| Runs.StepEarnings | src/app/delivery/repository/agent-earnings.repo.ts:6-28 | every request keeps one earnings row per delivery that earns, with its amount and agent |
| Runs.StepBacked | src/app/payment/service/payment.service.ts:463-493 | every request keeps pending equal to charged minus settled on accounts without refunds and delivered cash orders |
| Runs.RunKeepsBusy | src/app/delivery/service/delivery.service.ts:104-155 | in every run the busy set is the carrying agents, each with one delivery, and those stranded by a claim |
| Runs.StrandedExactly | src/app/assignment/service/assignment.service.ts:144-174 | the stranded agents are exactly those of whom some claim of the run went through while they were not busy |
| Runs.SweepIsVoids | src/app/payment/jobs.ts:7-25 | the sweep's row-by-row writes, undisturbed, add up to cancelling exactly the stale orders; each is an unconditional cancellation that runs contain anywhere |
| Runs.RunKeepsPaid | src/app/order/service/order-status.service.ts:61-85 | every run without admin overrides keeps unpaid online orders where they are |
| Finance.DebitDrainsPendingFirst | src/app/finance/repository/finance.repo.ts:50-66 | a debit takes the amount out of the holdings, pending first, touches no other account, and fails exactly when holdings or earnings do not cover it |
| Ledger.CaptureCredits | src/app/payment/service/payment.service.ts:237-252 | a captured charge and the credit together keep every account in balance |
| Ledger.RefundDebits | src/app/payment/service/payment.service.ts:380-411 | a refund row and the debit together keep every account in balance |
| Ledger.PayoutDeducts | src/app/finance/service/finance.service.ts:125-153 | a payout row and the deduction together keep every account in balance |
| Ledger.RefundDecidedByHoldings | src/app/finance/repository/finance.repo.ts:50-66 | in any balanced state the holdings alone decide a refund |
| Fulfilment.HandOver | src/app/delivery/service/settlement.service.ts:45-57 | handing over an active delivery of a paid order keeps delivered deliveries within charges for every order |
| Fulfilment.NewDelivery | src/app/delivery/service/delivery.service.ts:76-102 | a new delivery of a ready order without an active one keeps the invariant of every order |
| Backing.SettlementNeverTrips | src/app/finance/repository/finance.repo.ts:69-85 | on a card-only account settlement succeeds exactly when the order has a succeeded charge |
| Earnings.ShareRounds | src/app/delivery/service/settlement.service.ts:43 | one floored share is less than one minor unit below the exact one and at most the fee |
| Earnings.EarnedWithinShare | src/app/delivery/service/settlement.service.ts:43-68 | the same for any agent's total |
| Presence.OfflineExactly | src/app/delivery-agent/service/agent.service.ts:43-50 | going offline works exactly for agents that neither carry a delivery nor are stranded, and changes nothing otherwise |
| Requests.PickPendingCharge | src/app/payment/repository/transaction.repo.ts:87-98 | the pending charge found is some pending charge of the order, any of them, and none only if there is none |
| Requests.FirstActive | src/app/delivery/repository/delivery.repo.ts:56-68 | the delivery found is an active one of the order, and none only if there is none |
| Requests.FirstFree | src/app/delivery/service/delivery.service.ts:269-285 | the agent selected is the first online agent that is not busy, and none only if there is none |
| Webhooks.WebhooksCollapse | src/app/payment/service/payment.service.ts:210-276 | any deliveries, with duplicates and rolled-back failures, leave the shard as the first surviving final delivery of each new event does |
| Webhooks.CommittedAreFirst | src/app/payment/repository/webhook-event.repo.ts:9-31 | the deliveries that commit anything are exactly those first survivors, in order |
| Webhooks.EventsAreCommitted | src/app/payment/repository/webhook-event.repo.ts:9-31 | the known events are those known before plus those committed, which are new |
| Webhooks.FirstOfIsDistinct | src/app/payment/repository/webhook-event.repo.ts:9-31 | no event is applied twice, and every new final event is applied once |
| Webhooks.RedeliveryIsHarmless | src/app/payment/service/payment.service.ts:210-222 | delivering known events again changes nothing |
| Assignment.OneWinner | src/app/assignment/service/assignment.service.ts:144-255 | of any number of interleaved claims and admin assignments of an order at most one ever commits, whatever keys expire and even if the order is made ready again |
| Assignment.OffersAreProven | src/app/assignment/service/assignment.service.ts:95-227 | every offer text ever stored, restored ones included, lists candidates of one broadcast, and every winner of a claim is one of them |
| Assignment.CandidateExactly | src/app/assignment/service/assignment.service.ts:284-302 | an agent of a geo result is a candidate exactly when it is online and not busy and fewer than k such agents precede it |
| Broadcasts.BroadcastsAreBounded | src/app/assignment/service/assignment.service.ts:76-111 | in every run with at most W ticks of an order in flight, offers plus vain searches never exceed the maximum plus W − 1, plus the tries wiped from the counter |
| Broadcasts.ForgottenIsBounded | src/app/assignment/service/assignment.service.ts:97-107 | the tries wiped from the counter are at most one per call that died and that bound per expiry of the counter; none without either |
| Broadcasts.BoundIsReached | src/app/assignment/service/assignment.service.ts:81-111 | for every maximum and every W some run that wipes nothing makes exactly the maximum plus W − 1 tries |
| Broadcasts.MaximumKeptExactly | src/app/assignment/service/assignment.service.ts:83-90 | the maximum itself is kept by all runs that wipe nothing if and only if no two ticks are ever in flight |
| Broadcasts.ExpiryLiftsTheBound | src/app/assignment/service/assignment.service.ts:95-107 | with an expiring counter even one tick at a time makes any number of tries |
| AssignmentService.TickAddsUp | src/app/assignment/service/assignment.service.ts:76-138 | the awaits of an undisturbed tick add up to TryAssignAlone |
| AssignmentService.ClaimAddsUp | src/app/assignment/service/assignment.service.ts:144-207 | the awaits of an undisturbed claim add up to ClaimAlone, and it wins exactly when that says done |
| AssignmentService.AdminAssignAddsUp | src/app/assignment/service/assignment.service.ts:234-280 | the same for an admin assignment |
| AssignmentService.RejectAddsUp | src/app/assignment/service/assignment.service.ts:210-228 | the awaits of an undisturbed rejection add up to RejectAlone |
| AssignmentService.RejectTrimsExactly | src/app/assignment/service/assignment.service.ts:209-228 | an undisturbed rejection takes the agent off the offer if and only if nobody else is on it |
| AssignmentService.TriedExactly | src/app/assignment/service/assignment.service.ts:76-138 | the result of a try, that its offer reads back as exactly the candidates, and that it counts exactly offers and vain searches |
| AssignmentService.ThrownExactly | src/app/assignment/service/assignment.service.ts:76-111 | a try that throws has written nothing, the offer without the count, or both |
| AssignmentService.AdminAssignedExactly | src/app/assignment/service/assignment.service.ts:234-280 | the answer of an admin assignment and what it leaves in row, claim, offer and counter |
| AssignmentService.ClaimedExactly | src/app/assignment/service/assignment.service.ts:144-207 | a claim by an agent on the live offer is an admin assignment; other agents are refused |
| AssignmentService.RejectedExactly | src/app/assignment/service/assignment.service.ts:210-228 | the answer of a rejection, and that it drops the offer only for the last agent on it |
| AssignmentService.TakenIsTaken | src/app/assignment/service/assignment.service.ts:144-255 | once taken, an order is refused to everybody, with the lock and without it |
| AssignmentService.TickedExactly | src/app/assignment/service/assignment.service.ts:54-70 | a tick over the region tries each order of its batch from its own keys, touches no other, and counts as offered exactly those without an offer, below the maximum, with a candidate and without an exception |
| AssignmentService.AssignmentService.FindReadyUnassigned | src/app/order/repository/order.repo.ts:237-245 | the batch is ready, unassigned orders in the order of their stamps, ties in any order, as many as fit, none younger than one left out |
| AssignmentService.AssignmentService.FindCandidates | src/app/assignment/service/assignment.service.ts:284-302 | the scan returns the first eligible agents, at most as many as configured |
| AssignmentService.AssignmentService.TryAssign | src/app/assignment/service/assignment.service.ts:76-138 | one tick of an order, on its own keys only, with the four results and the exception before, between or after its writes |
| AssignmentService.AssignmentService.TickRegion | src/app/assignment/service/assignment.service.ts:54-70 | the loop leaves the keys and the counts that TickedExactly is about, for a batch the query may return; a try that throws counts as skipped, wherever it throws |
| AssignmentService.AssignmentService.AdminAssign | src/app/assignment/service/assignment.service.ts:234-280 | assigns a ready, unassigned, unlocked order, drops its offer and marks the agent busy; otherwise leaves every key as it was |
| AssignmentService.AssignmentService.Claim | src/app/assignment/service/assignment.service.ts:144-207 | the same for an agent on the live offer only |
| AssignmentService.AssignmentService.Reject | src/app/assignment/service/assignment.service.ts:210-228 | drops the offer if the agent was alone on it and leaves it untouched otherwise |
| OutboxDrain.Outbox.Tick | src/lib/outbox/jobs.ts:19-33 | a tick attempts a batch the query may return, in its order, dispatches those that went through, counts a failure for the others, and publishes in that order |
| OutboxDrain.Outbox.MarkDispatched | src/lib/outbox/outbox.repo.ts:28-30 | sets dispatched on that row only |
| OutboxDrain.Outbox.MarkFailed | src/lib/outbox/outbox.repo.ts:32-39 | adds one attempt to that row only |
| OutboxDrain.Outbox.ClaimPendingBatch | src/lib/outbox/outbox.repo.ts:12-26 | the batch is pending rows in the order of their stamps, ties in any order, as many as fit, none younger than one left out |
| OutboxDrain.BatchValid | src/lib/outbox/outbox.repo.ts:12-26 | such a batch names each row once and is empty only if nothing is pending |
| OutboxDrain.AttemptedExactly | src/lib/outbox/outbox.repo.ts:28-39 | an attempt dispatches the row exactly if publishing and marking went through, and counts against it exactly otherwise |
| OutboxDrain.TickProgress | src/lib/outbox/dispatcher.ts:15-30 | as long as a row stamped up to t is pending, a tick strictly lowers the attempts left for such rows, whatever fails and whatever is written with later stamps; it loses no row and dispatches none unpublished |
| OutboxDrain.IdleTick | src/lib/outbox/dispatcher.ts:15-30 | a tick with nothing pending and nothing written changes nothing |
| OutboxDrain.EveryRowEnds | src/app/admin/service/admin.service.ts:189-224 | after as many ticks as there are attempts left for the rows stamped up to t, each of them is published and dispatched or a dead letter with five failures, for any pattern of failures and while rows with later stamps are written |
| OutboxDrain.FairDaysAreFifo | src/lib/outbox/outbox.repo.ts:12-26 | without failures and new rows any number of ticks together publish what one query with the limits added up may return: stamps never decrease, and no published row is younger than a pending one |
| OutboxDrain.FifoWhileWriting | src/lib/outbox/outbox.repo.ts:12-26 | without failures, while rows are written in the order of their stamps, publishing follows the stamps, no published row is younger than a pending one, and every row is published or still pending |
| OutboxDrain.Outbox.Write | src/lib/outbox/writer.ts:4-19 | appends one unsent row with its stamp |
| Oldest.AnswersInTurn | src/lib/outbox/outbox.repo.ts:12-26 | two such queries in a row, the second on what the first left, answer one query with both limits |
| Pagination.WalkSeesEveryRowOnce | src/lib/http/pagination/cursor-pagination.ts:21-66 | following the cursors ends exactly after ⌈n/limit⌉ pages (one if empty), whose rows are the initial table once and in order, while rows are added in front |
| Pagination.NewerIdsDoNotDisturb | src/lib/http/pagination/cursor-pagination.ts:21-33 | in descending id order a complete walk shows exactly the initial rows while larger ids are inserted between pages |
| Pagination.PageIsSlice | src/lib/http/pagination/cursor-pagination.ts:56-66 | the k-th page is the k-th slice of the initial rows, and there is none after the last |
| Pagination.BeyondRow | src/lib/http/pagination/cursor-pagination.ts:27-30 | the rows beyond a row's key are the rows after it |
| QueryString.ParseLimit | src/lib/http/pagination/parse-query.ts:8-9 | a positive limit up to 100 is taken as it is, whole or not, a larger one as 100, anything else as 20 |
| QueryString.ParseOrder | src/lib/http/pagination/parse-query.ts:11 | ascending exactly on request |
| QueryString.ServeExactly | src/lib/http/pagination/cursor-pagination.ts:56-66 | a fractional limit serves the pages of its whole part; a limit below one throws exactly when there is a row to list |
| QueryString.AnyQueryWalks | src/lib/http/pagination/parse-query.ts:3-15 | whatever the query string, a complete walk has ⌈n/whole part⌉ pages and shows the initial rows once, or the limit is below one and only an empty table is ever listed |
| BalanceWalk.WalkEndsExactly | src/app/finance/repository/finance.repo.ts:118-138 | following the inclusive cursor ends if and only if no restaurant's rows fill a page with more rows to come |
| BalanceWalk.StuckExactly | src/app/finance/repository/finance.repo.ts:126-137 | a cursor leads back to itself exactly when that restaurant's rows fill the page and are not the last |
| BalanceWalk.NextStart | src/app/finance/repository/finance.repo.ts:126-137 | only rows of the boundary restaurant are repeated on the next page |
| BalanceWalk.ShowsEveryone | src/app/finance/repository/finance.repo.ts:118-138 | a walk that ends has shown each restaurant's rows together on one page |
| BalanceWalk.WalkCoversEveryone | src/app/finance/repository/finance.repo.ts:118-138 | if the limit exceeds every restaurant's row count, the walk does end, within one page more than there are rows, and shows everyone |
| Idempotency.ReplayIsDropping | src/lib/http/idempotency.ts:16-43 | any request sequence leaves the service as the one without the requests whose key already got a 2xx, and the store holds exactly the 2xx answers |
| Idempotency.KeptExactly | src/lib/http/idempotency.ts:33-40 | an answer is kept exactly for an unknown key and a status from 200 to 299 |
| Idempotency.RetryGetsStoredAnswer | src/lib/http/idempotency.ts:24-30 | such a request gets the stored answer and changes nothing |
| Idempotency.Middleware.Serve | src/lib/http/idempotency.ts:16-43 | one request through the middleware: replayed, or handled and kept if it is a 2xx |
| Codec.ReferenceRoundTrip | src/pkg/payment/kashier/kashier.client.ts:27 | decoding an encoded order reference returns region and id if and only if the region is non-empty and free of dashes and the id is positive |
| Codec.ReferencesAreInjective | src/app/payment/service/payment.service.ts:178-189 | two such references are equal only if region and id are |
| Codec.IdsRoundTrip | src/app/assignment/service/assignment.service.ts:97-149 | a joined candidate list splits into the same list, and is empty only for none |
| Codec.DecimalRoundTrip | src/app/assignment/service/assignment.service.ts:148 | a number written in decimal reads back |
| Shard.Shard.PlaceOrder | src/app/order/service/order.service.ts:143-282 | the request ends in the state and reply of Requests.PlaceOrder: refusals, initial status by payment method, cash record, announcement, rollback |
| Shard.Shard.VoidOrder | src/app/order/service/order.service.ts:284-297 | the late cancellation is unconditional |
| Shard.Shard.SweepExpired | src/app/payment/jobs.ts:7-25 | exactly the stale pending_payment orders are cancelled |
| Shard.Shard.UpdateStatus | src/app/order/service/order-status.service.ts:48-126 | refusals by status, role, ownership and reason, then status, stamp and announcements as in Requests.UpdateStatus |
| Shard.Shard.ClaimReadyOrder | src/app/order/repository/order.repo.ts:253-271 | only a ready order without an agent is claimed |
| Shard.Shard.InitPayment | src/app/payment/service/payment.service.ts:92-167 | one pending charge per cache miss, nothing otherwise |
| Shard.Shard.HandleWebhook | src/app/payment/service/payment.service.ts:191-276 | dedup, capture, credit, placement and announcement, or nothing at all if any of it raises |
| Shard.Shard.CaptureCharge | src/app/payment/service/payment.service.ts:237-259 | the statements of a successful payment change that charge, that order, its payee's balance and the outbox, and stop when the credit raises |
| Shard.Shard.RefundPayment | src/app/payment/service/payment.service.ts:364-428 | refund row, mark on the charge and debit, or nothing |
| Shard.Shard.CreatePayout | src/app/finance/service/finance.service.ts:120-167 | guarded deduction and payout row, or nothing |
| Shard.Shard.AutoSelectAgent | src/app/delivery/service/delivery.service.ts:269-285 | the scan returns the first free agent |
| Shard.Shard.AssignDelivery | src/app/delivery/service/delivery.service.ts:54-120 | guards, selection, then delivery row, order row and busy set as in Requests.AssignDelivery |
| Shard.Shard.ReassignDelivery | src/app/delivery/service/delivery.service.ts:122-163 | release committed first, then an ordinary assignment that may fail |
| Shard.Shard.SettleDelivery | src/app/payment/service/payment.service.ts:463-493 | cash collection or charge check, then pending to available, or the error that rolls back |
| Shard.Shard.SettleAndDeliver | src/app/delivery/service/settlement.service.ts:36-84 | settlement, delivery, order, earnings and announcement all or nothing |
| Shard.Shard.UpdateDeliveryStatus | src/app/delivery/service/delivery.service.ts:165-256 | ownership, transition and reason guards, then the move as in Requests.UpdateDeliveryStatus |
| Shard.Shard.GoOffline | src/app/delivery-agent/service/agent.service.ts:43-50 | refused for a busy agent |
| Shard.Shard.GoOnline | src/app/delivery-agent/service/agent.service.ts:34-41 | the agent is online and nothing else changes |
| ShardRuns.ServeAll | src/app/payment/service/payment.service.ts:92-493 | a shard object that has served any requests from the start is in the state the run reaches, so all results about runs are about the class |
| Shard.Shard.CreditBalance | src/app/finance/repository/finance.repo.ts:27-45 | inserts or adds to pending and total_earned, or raises and changes nothing |
| Shard.Shard.DebitBalance | src/app/finance/repository/finance.repo.ts:50-66 | drains pending, then available, or raises; no row, no change |
| Shard.Shard.SettleBalance | src/app/finance/repository/finance.repo.ts:69-85 | moves pending to available, or raises; no row, no change |
| Shard.Shard.PayoutFromAvailable | src/app/finance/repository/finance.repo.ts:89-105 | deducts behind the guard and says whether a row matched |
| Shard.Shard.CreateTransaction | src/app/payment/repository/transaction.repo.ts:100-127 | appends the row unless a CHECK raises |
| Shard.Shard.UpdateTransaction | src/app/payment/repository/transaction.repo.ts:154-180 | changes status and refund mark of that row only |
| Shard.Shard.InsertWebhookEvent | src/app/payment/repository/webhook-event.repo.ts:9-31 | true exactly for an unseen event, which it records |
| Shard.Shard.MarkWebhookProcessed | src/app/payment/repository/webhook-event.repo.ts:33-42 | stamps that event only |
| Shard.Shard.UpdateOrderStatus | src/app/order/repository/order.repo.ts:193-230 | writes the status of that order without looking at the old one, with the acceptance stamp and the agent if given |
| Shard.Shard.CreateAgentEarnings | src/app/delivery/repository/agent-earnings.repo.ts:6-28 | appends the row unless the delivery has one |
| Shard.Shard.WriteOutboxEvent | src/lib/outbox/writer.ts:4-19 | appends one row |

## Left out

- HTTP routes, DTO validation, tokens, roles middleware and webhook signatures: a webhook is taken as verified, and the DTO's `cash` value of src/app/order/dto/place-order.dto.ts:39 never reaches the services.
- Payment provider and session rows, provider calls and session caches: `cached` and `providerUp` say what `initPayment` found.
- Interleaving of the shard's requests inside one another: each is one atomic step. Two concurrent assignments can both pass the check of src/app/delivery/service/delivery.service.ts:64, so the invariants about deliveries hold at this granularity only. The late stock cancellation is a step of its own and may come at any time.
- Redis that refuses to answer: the fallbacks behind `.catch` in presence and idempotency, and the 24-hour expiry of stored responses. A tick whose Redis call throws is modelled.
- Response caches of orders, lists and balances: they are not invalidated on every write.
- Socket messages, logs and the payload of outbox rows beyond what they announce.
- Ping and the extension of presence keys: expiry is a step that may happen at any time.
- Stamps of orders other than the creation and the acceptance: nothing reads them.
- Transactions of the kinds commission and adjustment, and the status reversed: no code writes them.
- Geo distances: the search result is any list.
- OutboxDrain.Outbox.Tick: one drainer at a time and marks that are stored; the row locks of src/lib/outbox/outbox.repo.ts:23 end with their own statement, so two drainers may both publish a row, and a failing `markFailed` ends the tick early.
- OutboxDrain.EveryRowEnds: rows that appear with a stamp up to t after the first tick, as a transaction that commits late may leave them; they only add their own attempts to the work.
- Idempotency.ReplayIsDropping: requests come one after the other. Two in flight with the same key both miss the store and both run (src/lib/http/idempotency.ts:23-42).
- Shard.Shard.WriteOutboxEvent: the insert succeeds. It names a column `event_id` (src/lib/outbox/writer.ts:13) that the migration of the table does not create (src/database/migrations/20260501000013_create_outbox.ts:5-17).
- BalanceWalk.ShowsEveryone: coverage is stated for a restaurant's rows as a block, because the query leaves the order of its currency rows open.
- QueryString.ServeExactly: the query builder is taken to truncate a fractional row limit, as `slice` does. The limit of the balance list is taken to be whole and positive.
- Pagination.WalkSeesEveryRowOnce: keys are distinct; rows that tie on the sort column can be skipped by the exclusive cursor.
- The in-memory agent list with its presence filters and sorts (src/app/admin/service/admin.service.ts:122-187): the same exclusive cursor over one sorted list.
- The page of the dead-letter list: which rows it lists is in `OutboxDrain.EveryRowEnds`, its paging is the exclusive pager.
- Codec.DecimalRoundTrip: ids are exact integers written in plain digits; JavaScript's other number spellings and its 53-bit precision are not modelled.
- Shard.Shard.SweepExpired: the sweep as one step. Its writes are separate in the code; `Runs.SweepIsVoids` relates the two, and runs contain the separate writes (`Void`) anywhere.
