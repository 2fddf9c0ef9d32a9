# Bayram credits, payments and campaigns: a verified model

Bayram sells songs through a Telegram bot. This project models the parts of it where money or
messages could be lost or doubled, and proves what those parts keep over every run:

* **the credit meter**: accounts, the append-only ledger, plans and receipts, the render gate,
  refunds, the stale-debit sweep and `/forget` (`Ledger`, `LedgerHistory`, `LedgerInvariant`,
  `MeterCharge`, `MeterCap`, `MeterWrites`, `MeterOrders`, `MeterSupply`, `MeterErasure`, `MeterSweep`,
  `PaymentGate`, render jobs running beside all of it in `MeterJobs`, and `CreditStore`, the same transactions carried out in place);
* **the redirect payment rail**: intents and the rail's own transactions under create, perform,
  cancel, operator settlement, expiry, resume claims and retention (`Rail`, `RailInvariant`,
  `RailTheorems`, call by call in `RailCalls`, and `RailStore` in place);
* **their composition**: a settlement writes receipt and grant in the rail's own commit
  (`Settlement`), and what the settlement counters may be trusted to say (`Reconciliation`,
  `SettlementRuns`);
* **the inbound throttle** (`Throttle`, `ThrottleStore`), **the broadcast send ledger and audience
  expansion** (`Broadcast`, `BroadcastAccounts`, `BroadcastStore`, `Expansion`, `ExpansionStore`, and the
  two together in `CampaignRuns`), **ranged reads of a
  stored object** (`ByteRange`, section 14.1.2 of RFC 9110), **clock arithmetic** (`Periods`) and
  **the key strings under every unique index** (`Keys`).

`dafny verify dfyconfig.toml` checks everything.

## How the model is set up

* One method of a store is one database transaction and one atomic step; runs interleave steps
  freely. A refusal rolls the whole step back. The meter's clock never runs backwards; the rail's
  and the send ledger's theorems hold under any clock.
* The plan-song mint is the exception to atomicity: a charge acts on a plan row it *read* (a
  `PlanSight`), which other charges may have overtaken before its conditional update. `Charge` is
  the charge nothing overtook, `ChargeTx` the charge with any lawful stale read.
* Grants carry no order id, so they never disturb an order's net position; a shortfall grant is no
  exception.
* "Allowance due" asks the surviving idempotency key and not only the account's period index,
  because `/forget` deletes the account row and keeps the key. Erased rows keep amount, order and
  key and lose the owner.
* An order whose owner is forgotten mid-render: a failure gives nothing back, a delivery is still
  recorded once under the erased id with delta 0, and no account is re-opened
  (`MeterOrders.ForgottenMidRender`).
* Random identifiers are modelled by freshness: a payment reference is never drawn twice
  (`Rows.minted`). Rows that the schema identifies by a random primary key are identified here by
  a unique column or by their position.
* Instants are microseconds since 1970 (meter, rail) or real seconds (throttle).
* `Broadcast.Can` states the discipline a worker keeps (send once per claim, hand back only what it
  never sent). `BroadcastStore.SendLedger` keeps the trace of every step taken on it; `RunChunk`, the
  worker's own loop, is proved to take only such steps, with others' steps, lost writes and
  cancellations at every point, and the theorems about runs hold of what the trace reaches.
* A render job (`MeterJobs`) begins an attempt, passes the gate, stamps its order row (a stamp that is
  lost is a stamp not taken), is parked and resumed, delivers, fails or dies. Its order row may not be
  there yet when it begins. While the job lives nobody cancels the order and only the job writes its
  row, charges it or settles it, sweeps excepted. Sweeps run on a
  grace of their own. How long a parked attempt waits matters only to `LadderKeepsJobsSafe`, which
  takes it to be the deferral and no longer.
* A message goes to the account its row was written for, even if the row was blanked after the claim:
  the worker holds the account it read. A row blanked before the claim is closed without a send in the
  code; the model lets it be sent as well, so its bounds on messages hold with room.
* Accounts of an audience are named by their place in the walk, which their creation fixes. What the
  segment selects may change from page to page; each page carries the answer its query gave.
* The classes update their fields as the SQL updates rows, and each public method is proved equal
  to the function the theorems are about.

## Where the code and its own words differ

The model follows the code.

1. *"False ... redelivered job already settled it"* (`src/bayram/entitlements.py:459-468`). A consumed
   order still has a negative net position, so a later FAILED settlement of the same generation
   writes a refund as well: the song is delivered and the credit comes back. Each generation is
   settled at most once exactly when no failure is reported after a consumption while the account
   exists (`MeterOrders.SettledTwiceExactlyWhen`, `MeterOrders.FreeSongExists`).
2. *`performed == receipts` "always"* (`src/bayram/payme/ports.py:170-206`) and
   *`performed + operator == receipts`* (`migrations/versions/20260910_1000_0025_index_settlement_clocks.py:15-19`).
   Both lack two terms: late performs of intents an operator settled, and settlements without a
   receipt. The panel's notes (`src/bayram/db/admin/payment_intents.py:378-396`) name the late perform
   and the erased buyer; there is a third cause they do not name, a second plan settled while the
   first still runs, for which the money is taken and nothing is written
   (`Reconciliation.SettlementIdentity`). When the equality holds is decided by the calls alone
   (`SettlementRuns.CountersAgreeIff`, `SettlementRuns.WholeRunAgreesIff`), and each cause has a run
   from the empty system (`SettlementRuns.LatePerformHappens`, `SettlementRuns.ForgottenBuyerHappens`,
   `SettlementRuns.SecondPlanHappens`).
3. *RECEIPTS_OVER is a window-edge effect* (`src/bayram/admin/schemas/billing.py:385-425`). It cannot
   occur in any window of any reachable state (`Reconciliation.OnlyShortOrBalanced`).
4. *`active_transaction_id` is NULL in every state except awaiting*
   (`migrations/versions/20260909_0900_0023_add_payme_rail_tables.py:72-73`). A paid intent keeps its
   holder, and an operator may pay an awaiting intent, so "awaiting" and "has an open transaction"
   differ by exactly that case (`RailTheorems.AwaitingIffCarried`, `RailTheorems.OperatorPaysUnderAHold`;
   reached in `SettlementRuns.LatePerformHappens`).
5. *No purged intent has a transaction pointing at it* (`src/bayram/db/purge.py:1132-1163`,
   `src/bayram/db/payme_sql.py:199-204`). An expired intent whose card was declined once has a cancelled
   one; after the purge a replayed cancel or status check is answered with a fault
   (`RailTheorems.PurgeOrphansOnlyCancelled`, `RailTheorems.CancelReplays`; reached in
   `RailTheorems.OrphanHappens`).
6. Intent state `cancelled` has no writer (`RailTheorems.IntentsAreNeverCancelled`).
7. *The lease must exceed the chunk timeout* (`src/bayram/config.py:803-845`). Equality already
   suffices, and anything shorter does not (`Broadcast.LiveRowsAreNotAged`,
   `Broadcast.ShortLeaseWritesOffLiveRows`).
8. *A short grace can "never take a credit back from a job that is about to deliver"*
   (`src/bayram/db/purge.py:437-445`, `src/bayram/db/credit_sql.py:567-580`). It can. The cron passes only
   `policy=` (`src/bayram/runtime/retention_job.py:241-246`), so the sweep runs on 4550 seconds whatever
   `queue_job_timeout_s`, which has no upper bound (`src/bayram/config.py:756`); a stage silent for longer
   inside one attempt is refunded, and the delivery that follows settles nothing
   (`MeterJobs.SilenceLosesTheCredit`), which `src/bayram/runtime/jobs.py:346-356` can only log. Exactly when it cannot: `MeterJobs.JobsAreSafeIff`; on a grace
   that covers the ladder, never: `MeterJobs.LadderKeepsJobsSafe`.
9. *"The audience is frozen at creation"* (`src/bayram/db/broadcasts.py:41-52`), *a refused page's rows
   are "harmless"* (`src/bayram/db/broadcasts.py:262-276`). The segment's clock is frozen; the accounts it
   is read against are not, so an account that comes to match before its page is scanned is messaged. A
   page that outran the last one adds rows that will be sent to, and the stored count is short of them
   until a send chunk rolls it up (`Expansion.ReadyMeansComplete`, `Expansion.CountIsExactIff`,
   `Expansion.LatePageIsUncounted`).
10. *The unique key makes "a second row for the same account in the same campaign impossible"*
   (`migrations/versions/20260909_1000_0024_add_broadcast_tables.py:64-74`,
   `src/bayram/db/models/broadcast_recipient.py:16-28`). Only while the row names the account. Erasure
   blanks the row and the account itself survives (`src/bayram/db/models/user.py:33-36`), so a page that
   scans it afterwards writes it a second row, which can be sent to as well
   (`CampaignRuns.SecondRowIff`, `CampaignRuns.MessagesOverACampaign`,
   `CampaignRuns.ForgottenIsMessagedTwice`).

## Model

| member | source | states |
|---|---|---|
| Keys.KeyTextInjective | src/bayram/db/credits.py:145-153 | the text in the unique column names one ledger or sale key: families never collide and neither do members of one |
| Keys.JoinInjective | src/bayram/db/credit_sql.py:199-209 | "left:right" splits one way when the right field has no colon, whatever the left one holds |
| Keys.IntTextInjective | src/bayram/db/credit_sql.py:199-209 | two integers print alike only if equal, signs included |
| Keys.DecimalInjective | src/bayram/db/credit_sql.py:199-209 | decimal rendering loses nothing |
| Keys.CounterTextInjective | src/bayram/ratelimit.py:284-359 | update, erasure and notice counters never share a key, for every purpose string |
| Periods.WindowIsUnique | src/bayram/entitlements.py:402-430 | every instant lies in exactly one allowance window, `periodDays` days of 86 400 s counted from the epoch, and the index function finds that one |
| Periods.StartRoundTrips | src/bayram/entitlements.py:402-430 | the index of a window's own start is that window |
| Periods.IndexIsMonotone | src/bayram/entitlements.py:402-430 | a later instant is never in an earlier window |
| Periods.LadderClosedForm | src/bayram/entitlements.py:92-113 | the attempt-by-attempt ladder never outruns the closed form and meets it when every timeout is burnt |
| Periods.LadderFitsTheGrace | src/bayram/entitlements.py:92-128 | any legal sequence of attempts ends within the grace, and no grace a second shorter would do |
| Ledger.PickPlan | src/bayram/db/plan_sql.py:58-108 | the plan chosen matches and no matching plan ends later; none is chosen only if none matches |
| LedgerHistory.ReplayTells | src/bayram/db/credit_sql.py:235-265 | net position, generation and which debit, refund and consume keys exist are all read off the order's state machine |
| LedgerHistory.OrderStands | src/bayram/db/credit_sql.py:235-265 | what the program reads before a charge or settlement tells exactly where the order stands |
| LedgerHistory.SettledByKey | src/bayram/db/credit_sql.py:268-307 | the correlated EXISTS over (order, generation) and the settling keys agree |
| LedgerHistory.OpenDebitIsCurrent | src/bayram/db/credit_sql.py:268-307 | a debit counts as unsettled exactly when it is its order's current attempt, held and unconsumed |
| LedgerHistory.FlightAfterRow | src/bayram/db/credit_sql.py:268-307 | a new row adds at most itself to anyone's in-flight debits, and only a debit does |
| LedgerHistory.FlightWithoutIdleOrder | src/bayram/db/credit_sql.py:268-307 | leaving out an order that holds nothing changes no in-flight count |
| LedgerHistory.FlightIsRendering | src/bayram/db/credit_sql.py:268-307 | the in-flight count is the number of DEBIT rows of this person with no REFUND or CONSUME of their order and attempt that are at most the grace, in seconds, old |
| LedgerHistory.ErasureKeepsReads | src/bayram/db/credit_erasure.py:118-130 | erasure changes no order's net position, generation or standing |
| LedgerHistory.ErasureMovesSums | src/bayram/db/credit_erasure.py:227-300 | an erased owner's sum moves to the ownerless rows; nobody else's changes |
| MeterErasure.ErasureIsExact | src/bayram/db/credit_erasure.py:227-300 | after an erasure no ledger row, plan, receipt or account names the person, who is on no plan at any instant; every other field of every row stands, and everybody else's rows and accounts |
| MeterErasure.OthersSeeNothing | src/bayram/db/credit_erasure.py:227-300 | what the meter shows of anybody else is what it showed before |
| MeterErasure.ComingBackGainsNothing | src/bayram/db/credit_erasure.py:118-130 | the erased person comes back to an allowance this window has not given yet, to no plan song, and to the same block |
| LedgerInvariant.SongTakenKeeps | src/bayram/db/credits.py:216-267 | taking a song with a stale plan read keeps every invariant, whether it wins or loses |
| LedgerInvariant.ChargeKeeps | src/bayram/db/credits.py:270-357 | a charge, raced or not, enforced or dark, keeps books, histories, plans, receipts and cap |
| LedgerInvariant.PaidInTheDarkKeeps | src/bayram/db/credits.py:425-485 | a covered render keeps balance equal to ledger, and the cover row is always new |
| LedgerInvariant.RefundKeeps | src/bayram/db/credit_settlement.py:71-128 | a refund keeps every invariant, for a re-opened account too |
| LedgerInvariant.ConsumeKeeps | src/bayram/db/credit_settlement.py:131-165 | a consumption keeps every invariant, for an erased owner too |
| LedgerInvariant.CloseAllKeeps | src/bayram/db/credit_settlement.py:203-247 | so does a whole sweep |
| LedgerInvariant.SingleSaleKeeps | src/bayram/db/fulfilment.py:97-165 | a single sale keeps receipts and grants matched key by key |
| LedgerInvariant.PlanSaleKeeps | src/bayram/db/fulfilment.py:168-243 | a plan sale keeps one running plan per owner |
| LedgerInvariant.ForgetKeeps | src/bayram/db/credit_erasure.py:227-319 | erasure keeps every invariant, the cap and the plan counters included |
| LedgerInvariant.StepKeeps | src/bayram/entitlements.py:434-534 | every operation of the meter keeps the invariant |
| LedgerInvariant.RunKeeps | src/bayram/entitlements.py:209-221 | it holds in every state of every run |
| LedgerInvariant.CapAndBooksHoldThroughout | src/bayram/entitlements.py:192-250 | at every instant of every run the debits nothing has settled, no more than the grace old, stay within the cap, and stored balance and lifetime total equal the rows |
| MeterCharge.ArrivalIsInvisible | src/bayram/db/credits.py:168-213 | opening the account and minting the allowance changes nothing the read-only projection shows |
| MeterCharge.ChargeDecision | src/bayram/db/credits.py:270-357 | each answer of a charge, in order of precedence, from the state before it and the plan row it read, however stale; the storage fault and the lost debit never happen |
| MeterCharge.LosersFallThrough | src/bayram/db/credits.py:216-267 | a charge that lost the race for its plan song is refused where an unraced one would be served exactly when the balance is the one credit short |
| MeterCharge.RefusalRollsBack | src/bayram/db/credits.py:283-287 | a refused charge leaves the database as it was |
| MeterCharge.GateAgreesWithWriter | src/bayram/entitlements.py:166-190 | the gate shows a credit exactly when an enforced charge at that instant would not be refused for lack of one |
| MeterCharge.GateOverstatesExactlyWhen | src/bayram/db/credit_sql.py:310-393 | at a dearer price the gate overstates exactly when the excess is plan songs one charge cannot reach |
| MeterCharge.GateCanOverstate | src/bayram/db/credit_sql.py:310-393 | a reachable account where it does |
| MeterCharge.PlanShownIsTheOneRunning | src/bayram/db/credit_sql.py:366-393 | an end date is shown exactly when a plan of this person runs, and is that plan's, spent or not; songs are shown out of that plan only |
| MeterCharge.ChargeMovesProjection | src/bayram/db/credits.py:355-372 | a charge on any plan read lowers the shown credits by its cost, or by nothing when it was covered or already paid, and adds one in-flight render; a song won from a plan whose owner was erased meanwhile shows as one gained |
| MeterCharge.CoverMeasuresRefusals | src/bayram/db/credits.py:425-485 | with enforcement off a shortfall grant is written on exactly the charges the enforced policy would refuse for credit |
| MeterCap.CapHoldsThroughout | src/bayram/entitlements.py:192-250 | over every run no choice of one person's unsettled debits, each at most `grace` seconds old, has more members than the cap |
| MeterCap.ChargeIsCappedIff | src/bayram/db/credit_sql.py:366-393 | a charge for an order that holds nothing is refused for the cap exactly when that many such debits of other orders stand; it names their number, and the shown count is that of all orders |
| MeterCap.ShippedGraceIsTheLadder | src/bayram/entitlements.py:85-128 | the shipped 4550 s are five timeouts of 900 s and the four deferrals between them, to the second |
| MeterCap.SecondOrderWaits | src/bayram/db/credits.py:270-357 | on the shipped policy a second order beside a first charged at 0 is refused up to 4550 s, that instant included, and served from the next microsecond on |
| MeterCap.SecondOrderRun | src/bayram/entitlements.py:223-250 | and so in a run from nothing: charged, refused a second later and at 4550 s with nothing written, served after |
| MeterWrites.RowsDecideTheAllowance | src/bayram/db/credits.py:168-213 | an allowance is due if and only if no row of this window's allowance exists for this person; the stamp on the account never decides otherwise |
| MeterWrites.ChargeIsExact | src/bayram/db/credits.py:270-372 | every row a charge writes, and nothing besides: allowance, song, debit and cover in that order, the caller's account by their sum, one song on the plan it won from; a paid order takes the allowance alone and a refusal nothing |
| MeterWrites.SettlementIsExact | src/bayram/db/credit_settlement.py:71-200 | which row each outcome writes and when: a failure gives back exactly what is held to a surviving account, a kit delivered or not is marked spent once an attempt |
| MeterWrites.GrantIsExact | src/bayram/db/credits.py:488-550 | a grant of at least one credit is one row and that many credits under a new key, and no more than an open account under a used one |
| MeterWrites.UnpaidSellsNothing | src/bayram/db/fulfilment.py:97-243 | an unpaid purchase, or one of the other product, is refused by either sale and writes nothing |
| MeterWrites.BlockIsExact | src/bayram/db/credits.py:553-586 | a block is this person's alone, and a charge is answered with it, before anything else, exactly while it stands |
| MeterWrites.ShownIsExact | src/bayram/db/credit_sql.py:310-393 | the projection field by field: balance, an allowance never given in this window, songs and end of the plan that runs, unsettled debits within the grace, the block |
| MeterOrders.NetIsNothingOrOneRender | src/bayram/entitlements.py:131-143 | at one price every order's debits less refunds are nothing or one render |
| MeterOrders.GenerationsAlternate | src/bayram/db/credit_sql.py:250-265 | attempt n+1 is debited only after attempt n was debited and then refunded |
| MeterOrders.ConsumedBeforeRefunded | src/bayram/db/credit_settlement.py:71-165 | an attempt settled twice was consumed first and refunded after, never the reverse |
| MeterOrders.ChargeIsIdempotent | src/bayram/entitlements.py:446-457 | charging a charged order again, at any later instant and on any plan read, is answered "already paid", past the cap, and moves no credit |
| MeterOrders.SettleWritesIff | src/bayram/db/credit_settlement.py:71-200 | a settlement writes exactly when the order holds credit and has not been closed that way, and otherwise changes nothing |
| MeterOrders.SettleIsIdempotent | src/bayram/entitlements.py:459-468 | a redelivered settlement is a no-op, except a failure after a consumption |
| MeterOrders.SettledTwiceExactlyWhen | src/bayram/db/credit_settlement.py:71-165 | a closed attempt is closed again exactly by a failure report after a consumption while the account exists |
| MeterOrders.DeliveredThenFailedIsRefunded | src/bayram/db/credit_settlement.py:168-200 | that path gives every charge, raced or not, its whole cost back |
| MeterOrders.FreeSongExists | src/bayram/db/credit_settlement.py:168-200 | and a first render on an empty database takes it |
| MeterOrders.ForgottenMidRender | src/bayram/db/credit_settlement.py:85-115 | what settling does after the owner was erased: no refund, one ownerless-to-owned record of delivery, no account |
| MeterSupply.AllowanceBound | src/bayram/entitlements.py:19-25 | a stretch touching k windows mints at most k allowances to one person, across any number of erasures |
| MeterSupply.PlanSupply | migrations/versions/20260906_1200_0015_add_plan_purchases.py:10-21 | a plan supplied exactly the credits its counter says, at most what it includes, none at or after its end |
| MeterSupply.SpendingWithinGrants | migrations/versions/20260830_0900_0006_add_credit_accounts_and_ledger.py:20-25 | balance is grants less net spending, and never negative |
| MeterSupply.RunExtends | migrations/versions/20260830_0900_0006_add_credit_accounts_and_ledger.py:20-31 | over every run ledger rows, plans and receipts are permanent, owners and song counters aside |
| MeterSupply.SightOutlivesOthers | src/bayram/db/plan_sql.py:129-159 | a plan read stays lawful whatever other transactions commit before its claim |
| MeterSupply.SongIsClaimedOnce | src/bayram/db/plan_sql.py:129-159 | of all charges that saw one counter value at most one ever gets the song |
| MeterSupply.SingleSaleOnce | src/bayram/db/fulfilment.py:97-165 | a replayed sale adds no receipt, row or credit, whoever replays it; after an erasure it re-opens an empty account and nothing else |
| MeterSupply.FirstSaleAddsOneOfEach | src/bayram/db/fulfilment.py:143-165 | a first one adds one receipt, one row, one credit and no more |
| MeterSupply.PlanSaleWritesIff | src/bayram/db/fulfilment.py:168-243 | a paid plan sale opens a plan exactly when none runs, the key is new and there are songs to sell, and it is then the plan in force, ending `days` days later; while one runs it is accepted and writes nothing |
| MeterSupply.PlanRunsItsLength | src/bayram/db/fulfilment.py:214-227 | the plan a sale opens is one row more, whole, at the purchase's price; it is its buyer's plan at every instant until `days` days after the sale, and nobody's from then on |
| MeterSupply.PlanSaleOnce | src/bayram/db/fulfilment.py:168-243 | a replay opens nothing, before or after the first plan's end |
| MeterSweep.SweepClosesItsSelection | src/bayram/db/credit_settlement.py:203-277 | every selected debit is closed once, delivered ones consumed and others refunded, no other is touched, and an uncut sweep leaves nothing stale |
| MeterSweep.SweepIsExact | src/bayram/db/credit_sql.py:560-631 | which debits are due, column by column, and that an uncut sweep closes each of them as its order row says, a cancelled order's at any age; no sweep touches any other |
| MeterSweep.SweepRobsIff | src/bayram/db/credit_sql.py:560-631 | which orders lose their credit to a sweep, both ways, read off the order row and the latest debit before it |
| MeterJobs.RunKeepsWorld | src/bayram/runtime/jobs.py:280-395 | attempts, deferrals, stamps, deliveries, crashes and sweeps on any grace keep the meter's invariant over every run |
| MeterJobs.JobsAreSafeIff | src/bayram/db/purge.py:425-450 | over every run no job that passed the gate loses its credit to a sweep, if and only if no sweep finds one whose latest debit and latest stamp are both as old as the sweep's own grace |
| MeterJobs.LadderKeepsJobsSafe | src/bayram/entitlements.py:92-128 | on a grace that covers the queue's own ladder no such job ever does, even if it never stamps its order |
| MeterJobs.DeliveriesArePaidFor | src/bayram/runtime/jobs.py:346-356 | over every run, as long as every sweep heard its jobs, each delivery leaves its order paid for and that attempt closed |
| MeterJobs.SilenceLosesTheCredit | src/bayram/runtime/retention_job.py:241-246 | a run in which the shipped grace robs a job inside its own timeout, which then delivers for nothing |
| PaymentGate.CreditGate.Authorize | src/bayram/payments.py:170-235 | inner provider first, then one credit, as one transaction |
| PaymentGate.GatePassesIff | src/bayram/payments.py:170-235 | the gate passes exactly when the provider authorised, the account is not blocked and the order is paid or there is room under the cap and, if enforced, a credit in reach; a first pass costs one |
| PaymentGate.RefusalCostsNothing | src/bayram/payments.py:92-104 | unless the gate passes nothing at all is written |
| PaymentGate.PassedOrderHoldsCredit | src/bayram/payments.py:189-235 | no render without a debit behind it, whatever plan read the charge acted on |
| PaymentGate.RetriesAreFree | src/bayram/payments.py:219-233 | later attempts at a paid order pass again and take nothing |
| CreditStore.Store.WriteEntry | src/bayram/db/credit_sql.py:146-160 | insert-or-ignore: appended exactly when the key is new, and the caller is told |
| CreditStore.Store.DebitBalance | src/bayram/db/credit_sql.py:439-458 | the conditional debit takes the cost exactly when it is there |
| CreditStore.Store.AddCredits | src/bayram/db/credit_sql.py:461-496 | credits, lifetime and window stamp move together or, without a row, not at all |
| CreditStore.Store.MintDueAllowance | src/bayram/db/credits.py:168-213 | mints exactly when due, and leaves the arrived state |
| CreditStore.Store.MintPlanSong | src/bayram/db/credits.py:216-267 | claim, row and credit in place are the song taken |
| CreditStore.Store.Charge | src/bayram/db/credits.py:270-357 | the statement-by-statement charge with rollback is the charge transaction |
| CreditStore.Store.CoverTheShortfall | src/bayram/db/credits.py:425-485 | grant then debit leaves the balance as it was and succeeds whenever that is not negative |
| CreditStore.Store.GiveBack | src/bayram/db/credit_settlement.py:71-128 | in-place refund |
| CreditStore.Store.MarkSpent | src/bayram/db/credit_settlement.py:131-165 | in-place consumption |
| CreditStore.Store.Settle | src/bayram/db/credit_settlement.py:168-200 | in-place settlement |
| CreditStore.Store.StaleRows | src/bayram/db/credit_sql.py:560-631 | the scan returns the oldest stale debits, at most the limit, missing none it has room for |
| CreditStore.Store.SettleStaleDebits | src/bayram/db/credit_settlement.py:203-277 | scan and loop together are the sweep transaction |
| CreditStore.Store.Grant | src/bayram/db/credits.py:513-550 | in-place grant |
| CreditStore.Store.FulfilSingle | src/bayram/db/purchases.py:148-182 | in-place single sale |
| CreditStore.Store.StartPlan | src/bayram/db/purchases.py:184-211 | in-place plan sale |
| CreditStore.Store.Forget | src/bayram/db/credit_erasure.py:227-319 | row-by-row erasure is the erasure transaction |
| CreditStore.Store.VerifyBalances | src/bayram/db/credit_sql.py:637-691 | lists exactly the people whose balance and rows disagree; empty exactly when the books balance |
| RailInvariant.MoveKeeps | migrations/versions/20260909_0900_0023_add_payme_rail_tables.py:256-300 | every call, sweep, stamp, erasure and purge keeps the rail's invariant |
| RailInvariant.StrangersCannotRelease | src/bayram/db/payme_sql.py:558-586 | a stale cancel or timeout changes nothing, least of all a newer hold |
| RailTheorems.OneChargePerIntent | src/bayram/db/payme_sql.py:528-555 | an intent never has two transactions open or performed |
| RailTheorems.AwaitingIffCarried | src/bayram/checkout.py:468-501 | awaiting exactly when an open transaction carries the intent and it is not paid; its active id names that transaction |
| RailTheorems.OperatorPaysUnderAHold | src/bayram/db/payme_sql.py:627-662 | the exception: paying an awaiting intent by hand leaves the open transaction in place |
| RailTheorems.HoldShutsOthersOut | src/bayram/db/payme.py:515-583 | from an answered create on, over every continuation, while that transaction is open or performed a create or quote under another id is refused and writes nothing |
| RailTheorems.QuoteForetellsCreate | src/bayram/db/payme.py:493-513 | a quote is answered exactly when a create would be, the conditions written out, and that create holds the intent |
| RailTheorems.MoveGrows | src/bayram/db/payme_sql.py:589-744 | no step takes back a terminal state, a stored instant, a receipt link or a latch |
| RailTheorems.PerformReplays | migrations/versions/20260909_0900_0023_add_payme_rail_tables.py:295-299 | over every continuation a repeated perform returns the first record and writes nothing; a cancel is refused |
| RailTheorems.CancelReplays | src/bayram/db/payme.py:650-705 | a repeated cancel returns the first record while its intent is kept, and can only fault after |
| RailTheorems.CreateReplays | src/bayram/db/payme.py:515-583 | a repeated create returns the first record while open and in its window, and is a state refusal after |
| RailTheorems.OpenReplays | src/bayram/checkout.py:638-662 | a used key returns the first press's reference, price and resume marker |
| RailTheorems.ExpiryIsExact | src/bayram/db/payme_sql.py:665-683 | the sweep expires exactly the pending intents it read whose own window has closed |
| RailTheorems.HeldIsNeverExpired | src/bayram/db/payme.py:749-767 | an intent under an open or performed transaction is untouched by any expiry sweep |
| RailTheorems.ReleasedCanBeHeldAgain | src/bayram/db/payme_sql.py:558-586 | after a cancel, inside its window, the intent can be held by a new transaction |
| RailTheorems.StaleReadMissesNothing | src/bayram/db/payme.py:769-793 | the coarse SQL cutoff covers every transaction the exact predicate calls expired |
| RailTheorems.PaidIsAbsorbing | src/bayram/checkout.py:468-501 | over every run a paid intent stays, with its instant and its note |
| RailTheorems.ResumeAtMostOnce | src/bayram/db/payme_sql.py:763-797 | over every run a paid intent hands out one resume claim at most, and none before it is paid |
| RailTheorems.IntentsAreNeverCancelled | src/bayram/checkout.py:494-501 | no run reaches the cancelled intent state |
| RailTheorems.PurgeOrphansOnlyCancelled | src/bayram/db/purge.py:1132-1163 | which transactions a purge orphans: exactly those of the abandoned intents it deletes, all cancelled |
| RailTheorems.OrphanHappens | src/bayram/db/purge.py:1132-1163 | a run from empty tables that ends with such a transaction and a status read that faults |
| RailCalls.MillisecondsTruncate | src/bayram/payme/protocol.py:250-267 | milliseconds drop the rest of a microsecond count, toward zero |
| RailCalls.OpenIsAnsweredIff | src/bayram/db/payme.py:414-486 | a press opens a pending intent of its own price, product and length under an unused key, or is told the first press's reference; a price below nothing and a plan without its length are refused |
| RailCalls.CreateIsAnsweredIff | src/bayram/db/payme.py:1178-1268 | a new transaction is taken up exactly when its payment exists, is ours and pending, its buyer known, its window open and its amount this one; which refusal each failing term gives |
| RailCalls.QuoteIsAnsweredIff | src/bayram/db/payme.py:493-513 | the quote is answered in exactly those cases and refused for the same reasons |
| RailCalls.CreateTakesTheHold | src/bayram/db/payme.py:1091-1151 | what taking a payment up writes: one open transaction, created now, and the hold |
| RailCalls.PerformIsExact | src/bayram/db/payme.py:585-648 | a perform in its window, state by state: which refusal, or the performed transaction, the paid intent and what is sold |
| RailCalls.HandIsExact | src/bayram/db/payme.py:816-874 | an operator's settlement, state by state, likewise |
| RailCalls.CancelIsExact | src/bayram/db/payme.py:650-705 | a cancel ends exactly an open transaction, with the rail's reason and this instant, and frees exactly the intent it held unpaid |
| RailCalls.LateCallsTimeOut | src/bayram/db/payme.py:636-648 | a perform, or a repeated create, past the window ends the transaction with reason 4 first and is refused second |
| RailCalls.TimelyCallsDoNot | src/bayram/payme/rules.py:95-114 | up to the last millisecond of the window neither does |
| RailCalls.TimeOutIsExact | src/bayram/db/payme.py:769-793 | the stale sweep ends exactly the open transactions it read that are past their window, with reason 4 and its own instant, frees exactly the intents they held unpaid, and leaves all else equal |
| RailCalls.ExpiryCountIsExact | src/bayram/db/payme.py:749-767 | the number an expiry sweep reports is that of the intents it expired |
| RailCalls.ErasureIsComplete | src/bayram/db/credit_erasure.py:248-267 | no intent names an erased buyer or their draft; nothing else on the rail changes |
| RailCalls.PurgeIsExact | src/bayram/db/purge.py:1132-1163 | retention deletes exactly the expired intents it read that are old enough, with their keys |
| RailCalls.ResumeIsClaimedIff | src/bayram/db/payme_sql.py:763-797 | a resume is handed out exactly for a paid intent that has handed out none, and stamped |
| RailCalls.NoticeIsStampedIff | src/bayram/db/payme_sql.py:747-760 | a settlement is stamped as announced exactly once |
| RailStore.Store.OpenIntent | src/bayram/db/payme.py:414-486 | in-place open is the open transaction |
| RailStore.Store.CreateTransaction | src/bayram/db/payme.py:515-583 | insert, hold, roll back or time out first and refuse second, as one transaction |
| RailStore.Store.PerformTransaction | src/bayram/db/payme.py:585-648 | flip, check, claim and sale in two stores, all or nothing |
| RailStore.Store.CancelTransaction | src/bayram/db/payme.py:650-705 | in-place cancel and release |
| RailStore.Store.SettleForOperator | src/bayram/db/payme.py:816-874 | in-place operator settlement |
| RailStore.Store.ExpireLapsed | src/bayram/db/payme.py:749-767 | the loop of conditional updates is the expiry sweep, count included |
| RailStore.Store.ExpireStaleTransactions | src/bayram/db/payme.py:769-793 | likewise for stale transactions; the number reported is that of the rows read that are past their window |
| RailStore.Store.ClaimRender | src/bayram/db/payme_sql.py:763-797 | the resume latch in place |
| Settlement.NextKeeps | src/bayram/checkout.py:384-391 | every step of meter and rail together keeps both invariants and the link between receipts and paid intents |
| Settlement.SystemRunKeeps | src/bayram/checkout.py:384-391 | over every mixed run every receipt belongs to a paid intent at its opening price |
| Reconciliation.PerformWritesReceiptIff | src/bayram/db/payme.py:886-969 | when a settling perform leaves a receipt behind, in both directions |
| Reconciliation.OnlySettlementsWriteReceipts | src/bayram/checkout.py:525-531 | no other step adds a receipt or removes one |
| Reconciliation.ReceiptIffGrant | migrations/versions/20260908_1100_0020_add_topup_purchases.py:1-40 | a single song's receipt exists exactly when its grant does, and there is one of each |
| Reconciliation.SettlementIdentity | src/bayram/db/payme_sql.py:336-399 | performed plus operator settlements equal receipts plus settlements without one plus late performs, over any window |
| Reconciliation.GrantsAreSingleReceipts | src/bayram/payme/ports.py:186-206 | grants are the single-song receipts of the window, one for one |
| Reconciliation.OnlyShortOrBalanced | src/bayram/admin/schemas/billing.py:391-425 | of the panel's verdicts on a settled window only two are possible, and when each is given |
| SettlementRuns.SaleIsExact | src/bayram/db/payme.py:1025-1089 | what a settlement sells, row by row: a song's receipt, grant and credit once per key, or a plan of the songs, days and price its intent was opened for |
| SettlementRuns.PerformIsAnsweredIff | src/bayram/db/payme.py:585-648 | from the state before it, when a perform of an open transaction is answered, and what it then moves |
| SettlementRuns.HandPaysIff | src/bayram/db/payme.py:816-874 | likewise when an operator's settlement is answered and newly pays |
| SettlementRuns.OperatorWritesReceiptIff | src/bayram/db/fulfilment.py:201-213 | an operator's settlement leaves a receipt exactly for a single song or a buyer no plan covers at that instant |
| SettlementRuns.PerformIsLateIff | src/bayram/db/payme.py:971-1023 | an answered perform is counted late exactly when its intent was paid before the call; it then moves no intent |
| SettlementRuns.StepFulfils | src/bayram/db/payme.py:886-1023 | over every step an intent gains its receipt exactly by a call that pays it, or comes late to it, for a buyer it can still be written for |
| SettlementRuns.PaidByOneCall | src/bayram/db/payme_sql.py:589-662 | over every run an intent is paid by one call at most, the rail's or an operator's |
| SettlementRuns.SongIsFulfilledIff | src/bayram/checkout.py:525-531 | over every run a single song has its receipt if and only if the call that paid for it still knew the buyer; then at its price, and nothing later writes it or takes it away |
| SettlementRuns.CountersAgreeIff | src/bayram/payme/cli.py:753-805 | after any run from the empty system the asserted equality holds over a window if and only if each call that paid in it could leave its receipt and no perform in it came late |
| SettlementRuns.WholeRunAgreesIff | migrations/versions/20260910_1000_0025_index_settlement_clocks.py:15-19 | over a whole run: if and only if every paying call knew its buyer, who bought a single song or had no plan running, and no perform found its intent paid |
| SettlementRuns.LatePerformHappens | src/bayram/db/payme.py:971-1023 | a run from the empty system in which an operator pays under a hold and the perform arrives after all: the counters disagree |
| SettlementRuns.ForgottenBuyerHappens | src/bayram/db/payme.py:886-969 | one in which the buyer is erased between hold and perform |
| SettlementRuns.SecondPlanHappens | src/bayram/db/fulfilment.py:201-213 | one in which an operator is paid for two plans and writes one |
| Throttle.SizeIsBounded | src/bayram/ratelimit.py:217-260 | after any call the map holds at most one key more than its cap |
| Throttle.DropsAllExactlyWhen | src/bayram/ratelimit.py:242-260 | a call drops everything exactly when more counters than the cap are still running; otherwise all of those stand, and its own counts one more or starts at one |
| Throttle.PruningIsUnobservable | src/bayram/ratelimit.py:242-260 | without a full drop every call is answered as by a store that never forgets |
| Throttle.RetryAfterIsExact | src/bayram/ratelimit.py:263-268 | waiting the advised seconds reaches the next window and one second less does not |
| Throttle.CeilingIsExact | src/bayram/ratelimit.py:271-301 | the n-th check of a window is answered n, refused ones included, so exactly the first `limit` pass |
| Throttle.BurstBound | src/bayram/ratelimit.py:25-28 | no span of one window length lets more than twice a budget's ceiling through, for updates, erasure requests and each purpose's notices |
| Throttle.NoticeIsSaidOnce | src/bayram/ratelimit.py:338-368 | over a run, of all claims of one purpose, account and window the first speaks and no other |
| Throttle.EachDropAddsOneAllowance | src/bayram/ratelimit.py:217-225 | in every run d full drops give any one counter at most d further allowances in its window |
| ThrottleStore.InMemoryStore.Bump | src/bayram/ratelimit.py:242-249 | prune and increment in place are the store's transition |
| ThrottleStore.VerdictIsExact | src/bayram/ratelimit.py:271-301 | over every run short of a full drop a check is let through if and only if it and those before it in its window are no more than the ceiling, and the wait it names ends exactly at the next window |
| ThrottleStore.CheckUpdateRate | src/bayram/ratelimit.py:271-301 | charges its own key, judges against the ceiling, fails open without counting |
| ThrottleStore.CheckErasureRate | src/bayram/ratelimit.py:304-335 | the same on a budget of its own |
| ThrottleStore.ClaimNotice | src/bayram/ratelimit.py:338-368 | one notice per purpose and window; fails towards speaking |
| Broadcast.StepKeeps | migrations/versions/20260909_1000_0024_add_broadcast_tables.py:64-74 | claim, send, settle, hand-back, crash, sweep and erasure keep the send ledger's invariant |
| Broadcast.StepsAreExact | src/bayram/db/broadcasts.py:936-1091 | what claim, close, hand-back, lease sweep and erasure write to a row in each state, and that nothing else does |
| Broadcast.LateRowIsExact | src/bayram/db/broadcasts.py:821-930 | a page writes one row for an account no row names, pending or skipped at once if it blocked the bot, and none for any other |
| Broadcast.OthersLeaveSending | src/bayram/db/broadcasts.py:1001-1031 | nobody but a lease sweep takes a claimed row from the job that claimed it |
| Broadcast.NoDoubleSend | src/bayram/contracts.py:482-509 | under any schedule a row leads to at most one message, a pending one to none, a sent one to exactly one |
| Broadcast.FreshCampaignIsSafe | src/bayram/contracts.py:482-509 | the same of whatever a lawful trace from a fresh campaign reaches |
| Broadcast.AbandonedBecomesUnknown | src/bayram/contracts.py:490-498 | a row whose job died while sending stays or becomes unknown, and nothing more is sent for it |
| Broadcast.KillOrphans | src/bayram/runtime/broadcast_job.py:746-767 | a crash abandons the rows its chunk still owned |
| Broadcast.LiveRowsAreNotAged | src/bayram/config.py:803-845 | with a lease no shorter than the chunk timeout no live chunk's row is ever written off |
| Broadcast.ShortLeaseWritesOffLiveRows | src/bayram/config.py:803-845 | on any shorter one a four-step run of a fresh campaign writes one off, and its message leaves after that |
| Broadcast.TallyPartitions | src/bayram/db/broadcasts.py:302-323 | the seven counts partition the rows; nothing outstanding means every row settled |
| Broadcast.SentIsHonest | src/bayram/db/broadcasts.py:1094-1142 | the sent count never exceeds the messages that left, nor those the rows ever claimed |
| BroadcastAccounts.OneMessagePerAccount | migrations/versions/20260909_1000_0024_add_broadcast_tables.py:64-74 | over every trace of a fresh campaign an account gets one message at most for the row it began with, and one more at most each time a blanked row let it in again, which takes an erasure each; it has a second row if and only if that happened |
| BroadcastAccounts.UnforgottenGetOne | src/bayram/db/broadcasts.py:1-26 | an account that never asked to be forgotten gets one message at most |
| BroadcastStore.SendLedger.ClaimChunk | src/bayram/db/broadcasts.py:936-998 | each claim is a lawful step among others' steps; claims are distinct candidates, and left alone exactly those still pending |
| BroadcastStore.SendLedger.Settle | src/bayram/db/broadcasts.py:1001-1031 | the conditional close, or a lost write, is the send ledger's step |
| BroadcastStore.SendLedger.Release | src/bayram/db/broadcasts.py:1034-1055 | likewise the hand-back, only of a row that was not sent |
| BroadcastStore.SendLedger.Deliver | src/bayram/runtime/broadcast_job.py:812-852 | one customer, with cancellation before or after the call, others meanwhile and the write lost or not: what is left of the row; exactly the reply's own state, unless the write was lost or a lease sweep came first |
| BroadcastStore.SendLedger.RunChunk | src/bayram/runtime/broadcast_job.py:746-810 | the worker's loop takes only steps it may, whatever others do in between; each row it dealt with ends as its reply says, or unknown only if a lease sweep ran or the write was lost, the rest are handed back, and it ends owning nothing |
| BroadcastStore.SendLedger.SendChunk | src/bayram/runtime/broadcast_job.py:652-735 | a whole job, start to end or cancellation, keeps the trace lawful |
| BroadcastStore.SendLedger.NobodyTwice | src/bayram/db/broadcasts.py:1-33 | so after any such jobs: one message at most to each account for its own row, and in all if it was not forgotten; every row marked sent was sent once |
| BroadcastStore.SendLedger.AgeStale | src/bayram/db/broadcasts.py:1058-1091 | exactly the rows past the lease are written off, and counted |
| BroadcastStore.SendLedger.RollUp | src/bayram/db/broadcasts.py:1094-1142 | the campaign's counters are the rows, recounted |
| Expansion.InsertedAddsThePage | src/bayram/db/broadcasts.py:821-930 | a page adds rows for its accounts that have none and touches no other |
| Expansion.PageIsExact | src/bayram/db/broadcasts.py:821-930 | a page of `limit` accounts writes their rows in any state, moves the count by the new ones only while expanding, and ends the expansion exactly when there was no account more to see |
| Expansion.ReplayedPageWritesNothing | src/bayram/db/broadcasts.py:821-930 | re-running a page writes nothing |
| Expansion.RunKeeps | migrations/versions/20260909_1000_0024_add_broadcast_tables.py:16-40 | stale cursors, replays and side-by-side jobs never pass over an account the segment kept selecting, however the selection moves |
| Expansion.ReadyMeansComplete | src/bayram/contracts.py:457-464 | READY means a row for every account selected throughout, unless erased since, and none never selected; exactly the audience, and a count that says so, when the selection held still and nobody was erased |
| Expansion.CountIsExactIff | src/bayram/db/broadcasts.py:1094-1133 | the stored count is the number of rows if and only if no page that outran the end of the expansion found an account without one since the last roll-up |
| Expansion.LatePageIsUncounted | src/bayram/db/broadcasts.py:262-276 | a run in which one does, and the roll-up that mends the count |
| CampaignRuns.RunKeepsLink | src/bayram/db/credit_erasure.py:71-84 | over every run of pages, chunks, roll-ups and erasures the plan and the send ledger agree on who has a row and on how many there are |
| CampaignRuns.RollUpCountsTheLedger | src/bayram/db/broadcasts.py:1094-1133 | what a roll-up stores is the ledger's own recount |
| CampaignRuns.SecondRowIff | migrations/versions/20260909_1000_0024_add_broadcast_tables.py:64-74 | over every run an account has a second row if and only if a page scanned it after it was erased |
| CampaignRuns.MessagesOverACampaign | src/bayram/db/models/broadcast_recipient.py:16-28 | over every run an account gets one message at most, unless such a page let it in again |
| CampaignRuns.ForgottenIsMessagedTwice | src/bayram/db/credit_erasure.py:78-82 | a run from an empty campaign in which a customer is messaged, erased, let in by a late page and messaged again |
| Expansion.RowsAreWrittenOnce | src/bayram/db/broadcasts.py:836-847 | no later page rewrites a row |
| ExpansionStore.CampaignRow.ExpandChunk | src/bayram/db/broadcasts.py:821-930 | per-account inserts and the conditional progress update are one page step |
| ByteRange.OpenRange | src/bayram/storage.py:233-272 | served exactly when the range is shaped right and starts inside the object; which byte is last; which fault is reported first |
| ByteRange.Stream | src/bayram/storage.py:299-325 | for any short reads the chunks are non-empty, bounded and together exactly the bytes asked for that exist; the handle ends closed |
| ByteRange.Serve | src/bayram/storage.py:233-325 | a range of a stable object is delivered whole |
| ByteRange.TilingReassembles | src/bayram/storage.py:233-325 | any tiling of ranges is served and reassembles the object |

## Left out

- SQL text, dialects, indexes as such, migrations' upgrade and downgrade: only the constraints they put on rows are kept.
- Interleaving inside one transaction, other than the plan read: two charges of one account racing past the in-flight count under READ COMMITTED are not modelled.
- Telegram, ARQ, Redis, HTTP, vendors and ffmpeg: they appear only as nondeterministic steps (send, refuse, crash, replay).
- A flood reply is taken at its word that the message never left; `HandBack` covers it.
- The payment rail's wire format, authentication, statement listing and numeric codes: refusals are named, not numbered.
- The rail's rows identify a transaction by the rail's own id and an intent by its public reference; the second copy of each identity, a random primary key, is not kept.
- Currency, provider name, language, sandbox flag and title columns: carried through unchanged by the code and without effect on any decision.
- Throttle checks take wall clocks after 1970 and two clocks that advance together; a wall clock stepped by hand mid-window is not covered by the burst bound.
- Scheduling of sends, editing of drafts, the campaign's media cache and the outcome audit row.
- The segment language: what a segment selects at each page is any set of accounts.
- Retention of recipient rows long after a campaign: its rows are only ever blanked here.
- A page of the expansion is one step: its query and its inserts see the same accounts.
- Storage paths, symbolic links, fsync and read errors in mid-stream.
- Settings parsing, logging, error classes, phone normalisation, the support board, lyric budget, bot-chat directory and the whole admin dashboard: easy rules beside these.
- Retention clocks other than the purge of abandoned payment intents; the purge of expired order drafts appears only as order rows that are absent.
