# Verified model of the VPN platform's money, subscription and session machinery

The platform sells VPN subscriptions for rubles (through the Platega gateway) and for
YAD, an internal currency earned by referrals, promo codes and bonuses. This project
models the code that moves money and time, and proves what it promises for every run.

**The money machine.** `Tables` holds the PostgreSQL tables and their constraints,
`Transactions` what each committed transaction amounts to, `System` a state machine
whose steps are committed transactions and single Redis operations. Any steps may run
between two steps of one handler, between two attempts of a retry loop, and between a
handler's read and its transaction; an aborted transaction is no step. `Ledger`, `Jobs`,
`Lifetime`, `Rewards`, `Promos`, `History`, `Deeds` and `Slots` each prove one law step by
step; `Runs` states the laws of every reachable state, `Promises` says column by column what the
main operations do in every run, `Limits` shows that confirmations do go through, and `Witnesses` and `TwoRows` build runs, from the empty system, that reach the
cases the laws exclude.

**The code.** `Database` is the repository class, one method per SQL statement, each
leaving every constraint in force, account merge included (`Merge` is its net effect).
`Worker`, `Purchases`, `Service` and `Gateway` are the handlers, proved against
`Transactions` on whatever database the other transactions have left between their reads
and their own transaction; `Refinement` ties them to the steps of the machine.

**Around it.** `Expiry` is the algebra of relative expiry updates of one row, `Latest` that
of all rows of a user under operations that pick the latest one, `Expansions` that of the
device-slot upserts, `Domain` the prices, `Tokens` and `Sessions` the refresh-token
and password-version protocol over expiring keys, `RateLimit` the fixed-window limiter,
`Locks` the token-guarded lock, `RetryQueue` the retry policy, `Warnings` the expiry
warnings, `TwoFactor` the challenge value, `LikePattern` the search escaping,
`Migrations` the migration runner. `Sums` and `Prelude` are shared vocabulary.

Times are integers in milliseconds; UUIDs are natural numbers, and a new one is one that
nothing refers to yet. Gateway and VPN-panel answers, row ids and serialization failures
are parameters, so every statement holds for all of them.

What is false of the code is stated as it is, with an input and a condition:

- LTV = sum of the CONFIRMED payments is not kept by every step. Of a direct status write
  and of a settlement, `Runs.StepKeepsTheEqualityIff` says exactly which keep it;
  `Runs.SkewsHaveACause` names the only three ways to break it, and `Witnesses` has a run
  for each. Three paths write statuses outside the queue: the user's status check, the
  admin's, and syncStalePayments in the worker itself.
- A once-key lives 48 hours. A job of the same event that is still queued by then is handled
  again, and a payment confirmed twice counts, activates and earns twice
  (`Witnesses.LateJobsConfirmTwice`); without that, once (`Runs.AtMostOneConfirmation`).
- total_reward = sum of the rewards of a referral is not kept either: the same run leaves the
  total at twice the one reward. A reward keeps it if and only if its payment has no reward
  yet (`Runs.RewardStepKeepsTheTotalIff`), and in every state the total exceeds the sum by
  exactly what was added for payments that had theirs (`Runs.ReferralTotalsAreRewardSums`).
- A revocation of all sessions reads the family and deletes it in two commands, so a token
  issued in between survives it (`Tokens.RevocationIsCompleteIff`, `Tokens.ATokenSlipsIn`).
- A password change that reads the clock first and writes last lowers the stamp and readmits
  tokens (`Tokens.AStampGoesBack`), and nothing else does
  (`Tokens.ChangedPasswordsStayChangedIff`).
- A charged-back purchase never pays on the row it hit (`Runs.ChargebacksNeverPay`), nor on
  the latest expiry of the user with that row alone rewritten
  (`Runs.ChargebacksNeverPayInPlace`). With two rows it also changes which rows later
  operations hit, and then it can pay: `TwoRows.TwoRowsCanPay` does it with two other
  charge-backs, `TwoRows.DaysCanPay` with days that an admin adds. Without either, it never
  does, however many rows there are (`Runs.ChargebacksNeverPayTheUser`).
- JSON `null` in a queue ends the worker process when its handler fails, and takes every
  job along that was backing off (`RetryQueue.ANullTakesOthersAlong`);
  `RetryQueue.AJobIsLostIff` lists all the ways to lose a job.
- A merge of two accounts that both have a device expansion, or a PENDING payment for one plan,
  aborts (`Database.Repo.MergeUsers`).
- A discount code is used up by its transaction; storing the discount comes after the commit
  and can fail on its own (`Service.UsePromoCode`).
- The comment on RevertReferralReward says that pending rewards are left alone; the statement
  reverts them too, and the model follows the statement. The comment on the reward handler speaks
  of a delay; rewards are credited at once.
- The comment on processRevertedPayment speaks of WebhookReceivedAt; the code looks at the status.

## Model

| member | source | states |
|---|---|---|
| `Runs.EveryStateIsSafe` | internal/worker/worker.go:299-441 | Every state of every run of the money machine satisfies all the laws below and every table constraint, whatever steps interleave. |
| `Runs.BalanceIsTheLedgerSum` | internal/repository/postgres/user_repo.go:152-210 | In every run, every balance is non-negative and is the sum of the ledger rows of that user, through credits, purchases, promos, adjustments, clamped clawbacks and merges. |
| `Runs.RowsStoreTheRunningBalance` | internal/repository/postgres/user_repo.go:152-171 | Until the first merge of a run, the balance stored in each ledger row is the running sum of its user up to that row. |
| `Runs.MergesConserveMoney` | internal/repository/postgres/user_repo.go:1990-2011 | In every run every merge that commits, whether its destination exists or not, conserves the total balance and the total LTV over all users. |
| `Runs.AtMostOneConfirmation` | internal/worker/worker.go:314-436 | With webhook, user check, admin check and stale sync all feeding the queue, a payment has at most one committed confirmation, at most one activation or expansion job ever enqueued, and at most one reward job, unless its confirmation was handled again after the 48 hours of its once-key. |
| `Runs.LtvNeverExceedsTheCharges` | internal/worker/worker.go:374-436 | With all four sources, LTV is at most the sum of the amounts of the payments the user owns, as long as none of their confirmations was handled again after 48 hours. |
| `Runs.LtvIsTheConfirmedTotal` | internal/worker/worker.go:299-534 | LTV equals the sum over the CONFIRMED payments of every user none of whose payments a step has skewed: events in any order, duplicated, failed, across merges, and harmless status writes included. |
| `Runs.SkewsHaveACause` | internal/worker/worker.go:299-534 | In every run a payment is skewed only by a status write outside the queue that flips CONFIRMED, by two of its jobs in flight at once, or by a confirmation handled again after 48 hours. |
| `Runs.LtvOnTheQueuePath` | internal/worker/worker.go:299-534 | LTV equals the confirmed total of every user none of whose payments had a flipping status write outside the queue, two jobs in flight at once, or a confirmation handled again after 48 hours. |
| `Runs.LtvIsOffByTheLeads` | internal/repository/postgres/user_repo.go:225-228 | In every reachable state the LTV is off from the confirmed total by exactly amount times (confirmations - reversals - status) over the payments of the user. |
| `Runs.GapMovesExactly` | internal/worker/worker.go:374-505 | By how much a direct status write or a settlement moves the gap between LTV and confirmed total of the owner, in every run. |
| `Runs.StepKeepsTheEqualityIff` | internal/service/service.go:640-676 | Where the equality of the owner holds, a direct write keeps it if and only if the payment is free or stays on the same side of CONFIRMED; a confirmation if and only if it is free or not CONFIRMED yet; a reversal if and only if it is free or the status read is still right. |
| `Runs.ConfirmationClosesTheGap` | internal/worker/worker.go:374-392 | A confirmation that finds its payment CONFIRMED already restores the equality of the owner exactly when the gap was minus the amount, which is what a status check that wrote CONFIRMED first leaves. |
| `Runs.NothingIsEverPaidOut` | internal/worker/worker.go:1222-1265 | From an empty database no committed reward is ever pending, so no payout transaction is ever enabled. |
| `Runs.RewardsAreCreditedOnce` | internal/worker/worker.go:855-883 | Every existing reward has exactly one credit row, equal to its immediate amount, and at most one clawback row, only once it is reverted and never larger than the credit. |
| `Runs.ReferralTotalsAreRewardSums` | internal/repository/postgres/user_repo.go:657-685 | In every run and across merges, total_reward of a referral is the sum of amount_yad over its rewards plus what was added again for payments that had their reward already; so it equals the sum if and only if nothing was added again, exceeds it if and only if something was, and each payment for which something was is one whose confirmation was handled again after 48 hours. |
| `Runs.RewardStepKeepsTheTotalIff` | internal/repository/postgres/user_repo.go:657-685 | In every reachable state, a reward transaction keeps an equal total equal if and only if its payment has no reward yet, which is when the ON CONFLICT insert goes through. |
| `Runs.PromosStayCapped` | internal/repository/postgres/user_repo.go:1348-1366 | In every run the rows of promocode_uses for a code number at most its counter, no two of them are of one user, the counter is at most the cap, and the YAD minted is at most cap times amount. |
| `Runs.NoActivationIsLost` | internal/worker/worker.go:715-761 | A subscription row that was only ever extended, by payments, YAD, trials or admins in any commit order, expires exactly at the latest reach of its activations. |
| `Runs.ChargebacksNeverPay` | internal/repository/postgres/user_repo.go:940-979 | Wherever a purchase and its reversal occur in the history of a row, the row is now no better off than without the two, and at most the purchased days worse. |
| `Runs.OneRowPerUser` | internal/service/service.go:1317-1369 | In every run an existing user has at most one subscription row if and only if the user started no trial next to a row and was not merged from accounts that made two. |
| `Runs.ChargebacksNeverPayInPlace` | internal/repository/postgres/user_repo.go:940-979 | For a user with any number of rows and whatever operations hit them, the latest expiry is no better now, and at most the purchased days worse, than with the purchase and its reversal taken out of the row they hit. |
| `Runs.ChargebacksNeverPayTheUser` | internal/worker/worker.go:489-503 | Whichever rows of a user the operations pick, a purchase that is charged back later leaves the latest expiry no better now, and at most the purchased days worse, than any outcome of the same other operations without the two, as long as those after the purchase are purchases, activations, trials and merges. |
| `Runs.SlotRowsAreMaxima` | internal/repository/postgres/user_repo.go:1218-1228 | In every run a device-expansion row holds exactly the largest count and the latest expiry over every purchase and paid job since the row was created, across merges and clean-ups. |
| `Runs.SlotRowsIgnoreOrder` | internal/repository/postgres/user_repo.go:1218-1228 | Rows granted the same set of slots, in any order and any number of times, in one run or two, hold the same count and expiry. |
| `Runs.MergedAccountsStayGone` | internal/repository/postgres/user_repo.go:1973-2111 | An account merged away is in no table, in any column, for the rest of the run. |
| `Runs.DeviceLimitIsFourToSix` | internal/repository/postgres/user_repo.go:1258-1267 | The effective device limit is between four and six in every run, and above four exactly while the user has an unexpired expansion row. |
| `Promises.PaymentsNeverChange` | internal/repository/postgres/user_repo.go:1298-1306 | In every run amount, plan and quantity of a payment stay what they were when it was stored, and no payment is deleted. |
| `Promises.JobsCarryTheOrder` | internal/worker/worker.go:394-436 | In every run an activation job carries the plan of its payment and the quantity paid for, two under the two-slot plan and one otherwise; a reward job carries the amount of its payment, which is positive. |
| `Promises.ConfirmationPaysTheOwner` | internal/worker/worker.go:374-441 | In every run a committed confirmation sets the status, adds the stored amount to the LTV of the owner, changes nothing else in the tables, and sends exactly the job for what was paid for and, for money, the reward job. |
| `Promises.ActivationGivesTheTerm` | internal/worker/worker.go:584-761 | In every run an activation job makes the row of its user that ends last longer by exactly 7, 30 or 90 days, whichever the payment paid for, counted from now if it had ended, or begins the first row; nothing else changes. |
| `Promises.SlotsPaidForAreGranted` | internal/worker/worker.go:1037-1110 | In every run a paid expansion job leaves the user with at least the slots the payment paid for, until at least the end of the subscription it found. |
| `Promises.ReversalTakesTheGrantBack` | internal/worker/worker.go:463-511 | In every run a committed reversal of a payment that was read CONFIRMED sets its status, takes its amount from the LTV of the owner, and takes every slot of the owner or exactly the days of the plan from a row of the owner that ends last, reverted exactly when that leaves it in the past. |
| `Promises.ReversalTakesTheRewardBack` | internal/worker/worker.go:513-533 | In every run such a reversal leaves the reward it found reverted; if it was immediate its referrer loses exactly the smaller of balance and credit, no other balance moves, and none at all for a reward reverted before. |
| `Promises.SlotsCostTheListPrice` | internal/service/service.go:1231-1291 | In every run a committed slot purchase costs the list price less the list price of what an unexpired row of the buyer holds; an expired or missing row takes nothing off. |
| `Promises.RewardsAreTheShare` | internal/worker/worker.go:817-883 | In every run a reward below the risk cut raises the balance of the referrer and the totals by the largest whole number of YAD within fifteen per cent of what the payment cost, or by one. |
| `Promises.CodesAreUsedIff` | internal/repository/postgres/user_repo.go:1348-1366 | In every run the transaction of a code commits if and only if its counter is under the cap and the user is there and has not used it; it counts one, adds the use, and credits the amount of a YAD code. |
| `Promises.WebhooksAdmitTheAmount` | internal/handler/webhook/platega.go:101-183 | In any state a webhook is looked at once, and leads to exactly one job, for the stored owner, if and only if its payment is known, its status is one of the three and its amount is within a kopeck either way. |
| `Promises.DuplicatesDoNothingForTwoDays` | internal/worker/worker.go:314-326 | In every run, once a handler has taken a job, any other job of the same event taken within 48 hours is used up and does nothing else. |
| `Limits.ConfirmationGoesThrough` | internal/worker/worker.go:314-441 | From any reachable state a queued confirmation of an existing user whose once-key is free can be taken, read and committed; the payment is then CONFIRMED, the LTV up by its amount, its activation job out. |
| `Limits.TrialsAddARow` | internal/service/service.go:1312-1369 | A trial gives a user who already has a subscription a second row, at most once per account. |
| `Witnesses.StaleExpiryStrandsTheLtv` | internal/service/service.go:645-673 | A run in which a status check that read PENDING writes EXPIRED over CONFIRMED: the LTV stays a payment too high, and the charge-back that follows takes nothing back. |
| `Witnesses.EarlyConfirmationRunsAhead` | internal/service/service.go:672-688 | A run in which a status check writes CONFIRMED before the worker has run: the LTV is a payment too low. |
| `Witnesses.TwoConsumersSubtractTwice` | internal/worker/worker.go:463-487 | A run in which a cancellation and a charge-back are read side by side: both find CONFIRMED and both subtract. |
| `Witnesses.LateJobsConfirmTwice` | internal/worker/worker.go:314-326 | A run in which a second job of one confirmation is handled after 48 hours: two confirmations, two activation jobs, an LTV of twice what was charged, the referrer credited twice, and a total_reward of twice the sum of the rewards. |
| `TwoRows.TwoRowsCanPay` | internal/worker/worker.go:489-511 | Two runs from the empty system that differ in one purchase and its charge-back, with two other charge-backs between: the user who paid and was charged back ends at 36 days, the one who never paid at 30. |
| `TwoRows.DaysCanPay` | internal/repository/postgres/admin_repo.go:178-196 | Two runs that differ in one purchase and its charge-back, with days added by an admin before and after it and no other charge-back: 220 days against 203. |
| `Ledger.TransactionsBookOneRow` | internal/repository/postgres/user_repo.go:152-210 | Apart from registrations and merges, every transaction leaves balances and ledger alone or appends one row that moves one balance by its delta, under the one reason of its kind. |
| `Ledger.MoveLedgerMovesDeltas` | internal/repository/postgres/user_repo.go:2001-2002 | Re-addressing ledger rows in a merge adds the sums of the source to the destination and keeps every sum by reason. |
| `Ledger.StepKeepsBooks` | internal/repository/postgres/user_repo.go:152-210 | Every step of the machine keeps balances equal to ledger sums, and every step but a merge keeps the stored running balances. |
| `Jobs.StepKeepsJobs` | internal/worker/worker.go:299-436 | Every step keeps the queue invariant: jobs name the owner or a merged account, a once-key covers one handler and one commit until it is set again after 48 hours, jobs are enqueued once per payment. |
| `Lifetime.OneEventCounts` | internal/repository/postgres/user_repo.go:225-228 | One settled event moves the LTV of the owner and the signed count of its payment together. |
| `Lifetime.LeadMoves` | internal/worker/worker.go:374-487 | Of all transactions only status writes outside the queue and settlements move the lead of a payment, exactly by the difference between its status and what the writer believed. |
| `Lifetime.MergeKeepsLtv` | internal/repository/postgres/user_repo.go:1990-2005 | A merge adds the LTV of the source to the destination exactly as its payments change hands. |
| `Rewards.ReversedRewardIsAccounted` | internal/worker/worker.go:515-533 | A reversal turns a reward over once and books at most the amount credited. |
| `Rewards.NewRewardIsAccounted` | internal/worker/worker.go:855-883 | The reward transaction of a payment without a reward creates one row, already immediate, with one matching credit. |
| `Rewards.RepaymentKeepsAccounts` | internal/worker/worker.go:850-883 | A second reward job for a payment that has its reward changes no reward row, and books a credit that belongs to none of them. |
| `Rewards.MergeKeepsTotals` | internal/repository/postgres/user_repo.go:2033-2071 | A merge drops a reward only together with its referral, so the totals that remain still add up. |
| `Promos.ApplicationKeepsLaw` | internal/repository/postgres/user_repo.go:1348-1366 | A use keeps rows, counter, cap and minted YAD of every code in line. |
| `Promos.MergeKeepsRowCount` | internal/repository/postgres/user_repo.go:2073-2085 | A merge re-addresses or deletes rows of promocode_uses and never adds one. |
| `History.PerformedIsExplained` | internal/repository/postgres/user_repo.go:940-979 | Each transaction that moves an expiry is one operation of the recorded history, whose fold is the stored expiry. |
| `History.CommitKeepsRows` | internal/worker/worker.go:715-761 | Every transaction keeps one row per user outside those a trial or a merge doubles. |
| `History.CommitKeepsDoubles` | internal/repository/postgres/user_repo.go:1973-2111 | Every transaction leaves those users with two rows for good: rows are never deleted, and a merge moves them whole. |
| `Deeds.CommitEnacts` | internal/worker/worker.go:489-511 | Every transaction changes the rows of at most one user by one act: an extension or contraction of a row that ends last, days on a given row, or new rows; everybody else keeps theirs, but for an account merged away. |
| `Deeds.StepKeepsDeeds` | internal/repository/postgres/user_repo.go:934-1016 | In every run the rows of a user are what the recorded acts lead to from none, in the order of the clock. |
| `Slots.CommitKeepsSlots` | internal/repository/postgres/user_repo.go:1218-1228 | Every transaction leaves each expansion row the join of what was granted to it: upserts add one grant, charge-backs, expiry and merges drop or re-address whole rows. |
| `Expiry.FoldMonotoneNonExpansive` | internal/repository/postgres/user_repo.go:940-979 | Any later sequence of extensions and contractions is monotone and never moves two expiries further apart. |
| `Expiry.ChargebackNeverBeatsNotBuying` | internal/worker/worker.go:496-511 | Buying d days at t1 and reverting them at t2 leaves max(expiry, T) no later than without the purchase at every later T, and the expiry at most d days below it. |
| `Expiry.ChargebackIsExactIff` | internal/worker/worker.go:496-511 | When the reversal restores the history without the purchase exactly: the row was live and never lapsed, or was stale and a later extension pinned both to the same point. |
| `Latest.ChargebackNeverPays` | internal/repository/postgres/user_repo.go:940-1016 | Over any set of rows and with ties broken either way, a purchase reversed later never beats the same purchases and new rows without it, and costs at most its days. |
| `Expiry.FoldIsMaxPlus` | internal/repository/postgres/user_repo.go:940-979 | Every history is one map x -> max(x + net days, floor). |
| `Expiry.NoExtensionLost` | internal/repository/postgres/user_repo.go:940-953 | After n activations in commit order the expiry is exactly max(e + all days, max over i of t_i plus the days from i on). |
| `Expiry.LatestReachIsMaximum` | internal/repository/postgres/user_repo.go:940-953 | LatestReach is the maximum over all activations of stamp plus days from there on, and is attained. |
| `Expiry.LiveRowIgnoresOrder` | internal/repository/postgres/user_repo.go:940-953 | For a row that ends after all stamps the order of the activations is irrelevant. |
| `Transactions.PurchaseDebitsAndExtends` | internal/service/service.go:1092-1158 | A committed purchase debits exactly the price, posts exactly one row, moves exactly one subscription row by exactly the days of the plan, and touches nothing else. |
| `Transactions.PurchaseCommitsIff` | internal/service/service.go:1002-1158 | A purchase transaction commits if and only if the plan is sold for YAD, the user is there and has the price. |
| `Transactions.GrantIsExact` | internal/worker/worker.go:715-761 | An activation commits exactly for a plan with days and a user who is there, extends the latest row or begins the first one by the days of the plan, and changes nothing else. |
| `Transactions.TrialIsExact` | internal/service/service.go:1312-1369 | A trial commits exactly once per user who is there: 72 hours in a row of its own and the mark. |
| `Transactions.PromoUseIsExact` | internal/repository/postgres/user_repo.go:1348-1366 | When the transaction of a code commits, and all it changes: counter, use row, and for a YAD code one balance and one ledger row. |
| `Transactions.RewardIsTakenBack` | internal/repository/postgres/user_repo.go:751-761 | A reward that is immediate, paid or pending becomes reverted and its referrer loses exactly the smaller of the balance and the credit, booked once unless it is zero; any other is left alone. |
| `Transactions.ReversalTakesAtMostTheCredit` | internal/repository/postgres/user_repo.go:178-210 | A reversal lowers only the balance of the referrer, by at most the credited amount, never below zero, and reversing again changes nothing. |
| `Transactions.ReversalIsExact` | internal/worker/worker.go:468-511 | A reversal of a confirmed payment sets its status, takes its amount from the LTV, and either removes every slot of the user or takes exactly the days of the plan from the latest row, reverted exactly when that is past. |
| `Transactions.SlotPurchaseIsExact` | internal/service/service.go:1231-1291 | A committed slot purchase debits the list price, less that of what an unexpired row holds, books it once and leaves the larger of the old and the new count and the later of the two ends. |
| `Transactions.SlotPurchaseIsPriced` | internal/service/service.go:1240-1256 | An expired or missing row never refuses a slot purchase; an unexpired one refuses exactly the quantities it covers; else only a missing user or too little money refuses. |
| `Transactions.PurchaseSetsTheQuantityIff` | internal/service/service.go:1259-1283 | After an accepted purchase the stored count is the quantity bought if and only if there was no row, or it was unexpired, or its count was no larger. |
| `Transactions.RewardAddsUp` | internal/worker/worker.go:855-883 | A reward credits the referrer once, adds payment and reward to the totals of one referral, adds one immediate row unless the payment has one, and changes nothing else. |
| `Transactions.RewardCommitsIff` | internal/worker/worker.go:850-883 | A reward transaction commits if and only if the referrer is there and the payment has a reward already or the row can be inserted. |
| `Purchases.BuySubscriptionWithYAD` | internal/service/service.go:1002-1045 | With other transactions between the attempts, success is exactly one committed purchase on the database of the last attempt, and any error leaves the database as the others made it; no attempt is made exactly if the plan is not sold, the user is missing or the balance too low. |
| `Purchases.TryBuyWithYAD` | internal/service/service.go:1092-1158 | One attempt is the whole purchase or nothing. |
| `Purchases.ActivateSubscription` | internal/handler/admin/admin_extended.go:253-295 | The activation loop of an admin: exactly one committed grant on success, none on an error. |
| `Purchases.ExtendOrCreate` | internal/worker/worker.go:715-761 | One activation attempt extends the latest row or creates the first one, or leaves nothing. |
| `Purchases.HandleSubscriptionActivate` | internal/worker/worker.go:584-709 | The activation job: which errors come after the commit (the panel could not be updated) and which before, and when the bonus is credited. |
| `Purchases.SuccessIsOnePurchase` | internal/service/service.go:1002-1158 | A successful purchase changes no other balance, payment, reward or expansion. |
| `Refinement.PurchaseIsOneStepOrNone` | internal/service/service.go:1031-1045 | A purchase attempt is one BuyPlan step of the machine, or none. |
| `Refinement.ActivationIsOneStepOrNone` | internal/handler/admin/admin_extended.go:277-398 | An activation attempt is one Assign step of the machine, or none. |
| `Refinement.DeliveryIsItsSteps` | internal/worker/worker.go:299-370 | From the contracts of EnsureOnce and HandlePaymentProcess: a delivery whose key is held is one Take that uses up the job; an unknown payment is Take and GiveUp; otherwise it is Take and Load, and, from any state the others reach by then, one Commit(SettleEvent) with exactly the jobs it sends, or GiveUp. |
| `Refinement.SettlementIsOneStepOrNone` | internal/worker/worker.go:340-370 | What the payment handler commits, on whatever database the others left after its read, is one Commit(SettleEvent) step with the jobs it sends, or nothing. |
| `Refinement.CheckIsOneStep` | internal/service/service.go:645-688 | What a status check does is one MarkStatus step with its job; if the write fails, the step that enqueues the job alone, or nothing. |
| `Refinement.RewardIsOneStepOrNone` | internal/worker/worker.go:845-883 | A reward transaction with the referrer as it was read before is one RewardReferral step, or nothing. |
| `Worker.Consumer.HandlePaymentProcess` | internal/worker/worker.go:299-370 | The queue handler against Settle: a key held for less than 48 hours does nothing, an unknown payment is an error; otherwise, with any transactions between the read and its own, one transaction commits whole or not at all, and jobs go out only after a committed confirmation. |
| `Worker.Consumer.Dispatch` | internal/worker/worker.go:340-370 | The switch over the event, an unknown status included, amounts to Settle with the row as it was read. |
| `Worker.Consumer.ProcessConfirmed` | internal/worker/worker.go:374-441 | Status and LTV in one transaction from the stored amount, then the activation job with the stored quantity and, for money, the reward job. |
| `Worker.Consumer.ProcessReverted` | internal/worker/worker.go:463-537 | The reversal: status always; LTV, grant and reward only for a payment read as CONFIRMED; the reward of the payment is found whenever there is one and the lookup works, and skipped otherwise. |
| `Worker.Consumer.UndoReward` | internal/worker/worker.go:513-533 | The clawback happens only if the reward was found and the conditional transition to reverted changed it. |
| `Service.UsePromoCode` | internal/service/service.go:862-941 | An unknown, expired or used-up code, one the user has used, and a second discount are refused with the database unchanged; in every other case the transaction is attempted on the database it meets, whole or not at all; and one error comes after the commit, a discount that could not be stored although the code is used up. |
| `Service.UseInTransaction` | internal/service/service.go:893-930 | Counter, use row and credit commit together or roll back together. |
| `Service.ActivateTrial` | internal/service/service.go:1312-1369 | The trial row and the mark that forbids a second one commit together or not at all, on whatever database the transaction meets after the first check. |
| `Service.SlotCharge` | internal/service/service.go:1249-1256 | The charge for slots is the exact price difference, positive, and equal to the quote; the clamp at zero never fires. |
| `Service.DeviceExpansionQuote` | internal/handler/http/handlers.go:1498-1549 | The quote shows for each quantity the list price if the user has no unexpired expansion row, and otherwise what is left of it after the list price of what that row holds. |
| `Service.TryBuyDeviceExpansion` | internal/service/service.go:1231-1291 | Under the user lock the purchase re-reads the row, is refused exactly by an unexpired one that covers the quantity, charges the list price less what such a row holds, and upserts, all or nothing. |
| `Service.HandleReferralReward` | internal/worker/worker.go:768-890 | Which jobs earn nothing (no referrer, no money, too much risk), and otherwise one reward transaction with the integer amount, on whatever database the others left after the referral was read. |
| `Service.CreditReward` | internal/worker/worker.go:850-883 | Insert, totals, credit and status commit together; a conflicting insert does not stop the totals and the credit. |
| `Service.HandleReferralPayout` | internal/worker/worker.go:894-947 | The payout handler pays only a reward that is still pending. |
| `Gateway.Entry.Handle` | internal/handler/webhook/platega.go:53-183 | A webhook delivery is looked at once; exactly one job leaves if and only if the payment is known, the status is one of the three and the amount is at most one kopeck above or below the stored one, and it names the stored owner. |
| `Gateway.Entry.CheckPaymentStatus` | internal/service/service.go:632-692 | What a status check writes and enqueues: stale rows expire, an unchanged answer writes nothing, a confirmation is enqueued with the stored owner even if the write failed, and the write goes through whatever has become of the row since it was read as PENDING. |
| `Gateway.ToWrite` | internal/service/service.go:640-676 | A check writes exactly for a row read as PENDING that is past its deadline, then EXPIRED, or whose known answer is another status, then that. |
| `Gateway.AbsDelta` | internal/handler/webhook/platega.go:188-193 | Tolerance of one kopeck either way. |
| `Database.Repo.AdjustYADBalance` | internal/repository/postgres/user_repo.go:152-171 | The balance moves by delta with one ledger row, exactly when the user exists and the result is non-negative. |
| `Database.Repo.ClawbackYAD` | internal/repository/postgres/user_repo.go:178-210 | The take is clamped at the balance; a zero take books nothing; a missing user is an error unless nothing was to be taken. |
| `Database.Repo.UpdateLTV` | internal/repository/postgres/user_repo.go:225-228 | LTV is additive and a missing user is a no-op. |
| `Database.Repo.UpdatePaymentStatus` | internal/repository/postgres/user_repo.go:1298-1306 | The status is set unless it is PENDING and would meet the partial unique index. |
| `Database.Repo.LockLatestSubscription` | internal/repository/postgres/user_repo.go:1001-1016 | Finds the row of the user that ends last, or none exactly when there is none. |
| `Database.Repo.ExtendSubscriptionByDuration` | internal/repository/postgres/user_repo.go:940-953 | GREATEST(expires_at, NOW()) + days, with plan and status. |
| `Database.Repo.ContractSubscriptionByDuration` | internal/repository/postgres/user_repo.go:960-979 | expires_at - days, reverted exactly when that is not after NOW(). |
| `Database.Repo.MarkExpiredPayments` | internal/repository/postgres/user_repo.go:1155-1163 | Row by row: a payment changes if and only if it was PENDING with a deadline not after now, and then only to EXPIRED; the count is the number of rows changed. |
| `Database.Repo.CreateDeviceExpansion` | internal/repository/postgres/user_repo.go:1218-1228 | The upsert keeps one row per user, with the higher count and the later expiry. |
| `Database.Repo.UsePromoCode` | internal/repository/postgres/user_repo.go:1348-1366 | Counter and use row move together, exactly under the cap and once per user. |
| `Database.Repo.CreateReferralReward` | internal/repository/postgres/user_repo.go:672-685 | A conflict on the payment inserts nothing and is no error; a broken reference is one. |
| `Database.Repo.RevertReferralReward` | internal/repository/postgres/user_repo.go:751-761 | A row changes if and only if its status is immediate, paid or pending, and then only to reverted. |
| `Database.Repo.SetTrialUsed` | internal/repository/postgres/user_repo.go:237-248 | The mark is set exactly once. |
| `Database.Repo.MergeUsers` | internal/repository/postgres/user_repo.go:1973-2111 | Statement by statement under all constraints the merge commits exactly when no unique index is met and nothing moves to a missing account, and then amounts to Merged; otherwise nothing changes. |
| `Database.Repo.ReassignAll` | internal/repository/postgres/user_repo.go:2000-2018 | The reassignment loop keeps every constraint after each statement and stops exactly at the two unique indexes. |
| `Database.Repo.MergeReferrals` | internal/repository/postgres/user_repo.go:2021-2071 | The referral statements in order keep foreign keys, uniqueness and no self-referral after each, and compose to one net effect. |
| `Database.Repo.TransferPromoUses` | internal/repository/postgres/user_repo.go:2073-2085 | Promo uses move unless the destination has used the code, the rest are deleted, and the unique index holds after each statement. |
| `Database.Repo.MovePromoUses` | internal/repository/postgres/user_repo.go:2073-2080 | Re-addressing the uses the destination does not have keeps UNIQUE (promo_code_id, user_id); without the NOT IN guard it would not. |
| `Database.Repo.DeleteUser` | internal/repository/postgres/user_repo.go:2106-2109 | The source row can be deleted because nothing refers to it any more. |
| `Database.Repo.MergeIntoMissing` | internal/repository/postgres/user_repo.go:1973-2111 | Statement by statement, merging into an account that no longer exists commits exactly when no statement has a row to move, for the first that has breaks a foreign key; it then deletes the source and the referral it was referred by, and otherwise changes nothing. |
| `Merge.MergeLeavesNoMention` | internal/repository/postgres/user_repo.go:1973-2111 | After the merge no row of any table mentions the source. |
| `Merge.MergeConservesTotals` | internal/repository/postgres/user_repo.go:1976-1996 | The total balance and the total LTV over all users are unchanged. |
| `Merge.RemovalConservesTotals` | internal/repository/postgres/user_repo.go:1990-2011 | Removing an account without money into a missing destination leaves both totals alone. |
| `Merge.MergeUnitesPromoUses` | internal/repository/postgres/user_repo.go:2073-2085 | The destination ends with exactly the codes either account had used, in one row each. |
| `Merge.MovedUsesStayUnique` | internal/repository/postgres/user_repo.go:2073-2080 | The guard on the moved promo uses is what keeps the unique index. |
| `Merge.MergeEnrichesOnlyTheDestination` | internal/repository/postgres/user_repo.go:1990-2101 | The destination collects balance, LTV and trial mark; other accounts are only re-pointed; the destination never refers to itself. |
| `Merge.MergeReaddressesEveryRow` | internal/repository/postgres/user_repo.go:1998-2018 | Row by row through subscriptions, payments, expansions, ledger, promo creators and child tables: what was the source's is the destination's, no row comes or goes, no other column changes. |
| `Merge.MergeKeepsEveryRowBut` | internal/repository/postgres/user_repo.go:2020-2085 | Exactly which referrals, rewards and promo uses a merge deletes; all others are re-addressed and otherwise unchanged. |
| `Merge.MergeIsRefusedIff` | internal/repository/postgres/user_repo.go:2000-2018 | Between existing accounts a merge is refused if and only if re-addressing the payments or the expansion rows would break their unique index. |
| `Merge.ReferralStages` | internal/repository/postgres/user_repo.go:2021-2071 | Steps four to eight compose; the clean-up of self-referrals finds nothing. |
| `Domain.ExpansionChargeIsFair` | internal/domain/domain.go:384-425 | Every accepted charge is positive, is the price difference, equals the quote, and two single upgrades cost one double. |
| `Domain.ExpansionPriceFallsWithTime` | internal/domain/domain.go:384-425 | A shorter remainder never costs more. |
| `Domain.ExpansionPricesAreListed` | internal/domain/domain.go:384-425 | The price list by quantity and days left, in YAD and kopecks. |
| `Domain.RewardWithinShareIff` | internal/worker/worker.go:817-827 | For every risk score, a reward is within fifteen per cent of the payment exactly above 1666 kopecks, where the one-YAD floor stops, or when the risk cut applies. |
| `Domain.RewardIsTheLargest` | internal/worker/worker.go:795-843 | Below the risk cut a reward is the largest whole number of YAD within fifteen per cent of the payment, or one; from the cut on half of that, rounded down; nothing without money or when blocked. |
| `Domain.RewardMonotone` | internal/anticheat/engine.go:147-155 | A larger payment or a lower risk never earns less. |
| `Domain.CheckoutKopecks` | internal/service/service.go:424-474 | The stored amount is zero for a free activation, else at least one ruble, and never above the list price. |
| `Domain.CheckoutTakesThePercent` | internal/service/service.go:424-474 | A discount takes exactly its percent of the price, rounded down to a kopeck, with the one-ruble floor, and a full one leaves nothing to pay. |
| `Domain.ClampDiscountPercent` | internal/service/service.go:34-42 | The discount is within 0 and 100 and a sane one is kept. |
| `Expansions.JoinIsTheMaximum` | internal/repository/postgres/user_repo.go:1218-1228 | The join of grants is their maximum column by column: an upper bound that one of them attains. |
| `Expansions.JoinIgnoresOrder` | internal/repository/postgres/user_repo.go:1218-1228 | The join depends on which grants there were, not on their order or multiplicity. |
| `Expansions.UpsertJoins` | internal/repository/postgres/user_repo.go:1218-1228 | One upsert is one more grant joined to the row of the user, or the first of a new row, and moves no other row. |
| `LikePattern.SearchIsLiteralSubstring` | internal/repository/postgres/user_repo.go:326-339 | The search pattern matches a text exactly when the query occurs in it literally. |
| `LikePattern.EscapeLike` | internal/repository/postgres/user_repo.go:1833-1848 | The byte loop produces the recursive escaping. |
| `LikePattern.UnescapeUndoesEscape` | internal/repository/postgres/user_repo.go:1833-1848 | Unescaping undoes escaping. |
| `LikePattern.EscapeIsInjective` | internal/repository/postgres/user_repo.go:1833-1848 | Different queries have different patterns. |
| `RateLimit.FewerThanTwiceTheLimit` | internal/repository/redis/redis.go:26-40 | For every run of non-decreasing times, any half-open interval of one window length admits fewer than twice the limit. |
| `RateLimit.WithinWindow` | internal/repository/redis/redis.go:26-40 | Inside one window at most what is left of the limit is admitted. |
| `RateLimit.TheBoundIsMet` | internal/repository/redis/redis.go:26-40 | The bound is attained. |
| `RateLimit.Limiter.Serve` | internal/anticheat/engine.go:78-88 | The decisions of the limiter over a run realise the counting specification. |
| `Tokens.EachTokenIsAcceptedOnce` | internal/repository/redis/redis.go:197-211 | In every run each token id is accepted at most once. |
| `Tokens.FamiliesListLiveTokens` | internal/repository/redis/redis.go:178-186 | Every live token that no revocation missed is in its family set, which expires no earlier. |
| `Tokens.RevocationLeavesWhatSlippedIn` | internal/repository/redis/redis.go:228-241 | Between reading the family and deleting it, exactly the tokens issued in between survive, and otherwise only earlier misses. |
| `Tokens.RevocationIsCompleteIff` | internal/repository/redis/redis.go:228-241 | A revocation ends every session of its user if and only if no live token was issued while it ran. |
| `Tokens.ATokenSlipsIn` | internal/repository/redis/redis.go:228-241 | A run of four commands in which a token issued between the two of a revocation is live after it. |
| `Tokens.RotationKeepsSessions` | internal/handler/http/handlers.go:245-302 | A refresh, as two steps of a run with anything in between, takes one live token from its user for good and adds one, and touches nobody else. |
| `Tokens.OnlyTheLastStampMatters` | internal/repository/redis/redis.go:254-275 | For every run and every token of at most thirty days, the gate decides as if the stamp never expired: by the last stamp written. |
| `Tokens.ChangedPasswordsStayChangedIff` | internal/repository/redis/redis.go:254-275 | In every run a token of an earlier second than a stored password change is admitted again, at any later time, if and only if a later change stores a clock reading no later than the token while that has not expired. |
| `Tokens.AStampGoesBack` | internal/repository/redis/redis.go:254-257 | A run in which two stamps arrive out of order and a token shut out by the one is admitted after the other. |
| `Sessions.Redis.Refresh` | internal/handler/http/handlers.go:223-306 | When a refresh is renewed, refused, forbidden or treated as a replay, and which sessions of every user are live afterwards: renewal trades the one token for one of thirty days, a replay or a foreign token ends the listed sessions of the user, and a replay opens the gate only to tokens from this second on. |
| `Sessions.Redis.RevokeAllUserRefreshTokens` | internal/repository/redis/redis.go:228-241 | Run without interference it deletes exactly the members of the family and the set. |
| `Sessions.Redis.Logout` | internal/handler/http/handlers.go:309-319 | One session ends and the others stay. |
| `Sessions.Redis.EndSessions` | internal/handler/http/handlers.go:532-541 | A password change ends exactly the listed sessions and leaves the gate open to exactly the unexpired tokens of this second on, and for other users as it was. |
| `Locks.AtMostOneOwner` | internal/repository/redis/redis.go:51-77 | In every run at most one unexpired owner holds a lock, and no other token can release it. |
| `Locks.FreeLocksAreTaken` | internal/repository/redis/redis.go:51-77 | A fresh token gets the lock exactly when the key is gone or past its deadline. |
| `TwoFactor.SplitTFAValue` | internal/repository/redis/redis.go:328-335 | The backward loop recovers user and status from a stored challenge, colons in the user included. |
| `TwoFactor.ResolvingKeepsTheUser` | internal/repository/redis/redis.go:307-326 | A decision replaces the status and keeps the user. |
| `RetryQueue.NoJobIsDoubledOrOverrun` | internal/worker/worker.go:198-282 | In every run, shutdowns, panics and failed pushes included, each job is in exactly one of queued, running, backing off, dead, done or lost, unchanged but for its counter, and has run at most as often as the counter allows. |
| `RetryQueue.AJobIsLostIff` | internal/worker/worker.go:198-282 | In every run a job is lost if and only if the process ended (by itself or by a failing null) while the job was running or backing off, or Redis did not take it when it was given up or came back. |
| `RetryQueue.ANullTakesOthersAlong` | internal/worker/worker.go:238-262 | A run in which a null payload fails beside any job that backs off: both are lost, without a shutdown. |
| `RetryQueue.NobodyOvertakes` | internal/worker/worker.go:198-228 | In every run a job that came to the queue after another stays behind it for as long as the other waits: first come, first served. |
| `RetryQueue.SixRunsAtMost` | internal/worker/worker.go:237-282 | A job without an initial counter runs at most six times, anything but a JSON object once. |
| `RetryQueue.DeadJobsRanTheirCourse` | internal/worker/worker.go:237-282 | In every run a job in the dead-letter list has run exactly as often as its counter allowed, six times without one; and a job with runs left that has not succeeded and was not lost is waiting or running. |
| `RetryQueue.FailingSpendsTheMeasure` | internal/worker/worker.go:237-282 | Every failure that requeues lowers the measure by one; the last one goes to the dead-letter list unchanged, or is lost if Redis does not take it or the payload is null. |
| `RetryQueue.Consumer.RequeueOrDead` | internal/worker/worker.go:237-282 | The rewritten payload differs from the original in the counter alone; null ends the process and the jobs that back off in it. |
| `Warnings.EachWarningIsSentOnce` | internal/worker/worker.go:1338-1386 | For a fixed expiry and any ticks each dedup key sends at most once. |
| `Warnings.ThreeWarningsInTheLastDay` | internal/worker/worker.go:1347-1368 | At most three warnings fall into the last twenty-four hours. |
| `Warnings.EveryStretchIsWarnedOf` | internal/worker/worker.go:1338-1386 | Whichever tick falls into the last three days, the warning of its day or eight-hour slot has been sent by then, unless its key was held from before. |
| `Warnings.Notifier.Run` | internal/worker/worker.go:1338-1386 | The notifier over a run of ticks realises the specification. |
| `Migrations.Schema.RunMigrations` | internal/repository/postgres/migrate.go:606-633 | However instances of the runner interleave, each version takes effect at most once; success means all are applied; a rerun changes nothing. |

## Left out

- Runs.LtvIsTheConfirmedTotal: is about users whose payments no step has skewed; `Runs.StepKeepsTheEqualityIff` and `Runs.SkewsHaveACause` say which steps do and when.
- Runs.AtMostOneConfirmation: not for a confirmation handled again after the 48 hours of its once-key, for which it is false (`Witnesses.LateJobsConfirmTwice`); a handler is taken to end within the 48 hours, so its key is not taken again while it runs.
- Runs.ChargebacksNeverPayTheUser: not with other charge-backs or days from an admin after the purchase, for which it is false for users with several rows (`TwoRows.TwoRowsCanPay`, `TwoRows.DaysCanPay`); with those `Runs.ChargebacksNeverPayInPlace` is the bound, which for one row is the whole statement.
- Service.UsePromoCode: takes the type and the amount of a code to be what they were when it was read, as no statement rewrites them.
- Warnings.EachWarningIsSentOnce: one subscription at a time, with an expiry that stays put; a renewal starts a new set of warnings.
- The branch of the payment handler for refused plans is unreachable under the plan CHECK on payments, so `Worker` does not have it.
- PostgreSQL isolation and locking: a serializable transaction is one atomic step that commits or aborts, and a read inside it sees the state it commits on.
- Redis eviction, failover and fail-open paths: a command either happens or is not part of the run; Redis and PostgreSQL read one clock.
- Liveness: a job can be lost with its process (`RetryQueue.AJobIsLostIff`), and nothing beyond `Limits.ConfirmationGoesThrough` is claimed of those that are not.
- Exactly-once activation: a job whose panel update fails after the commit extends again; `Purchases.HandleSubscriptionActivate` states which errors come after the commit.
- The retry loop of BuyDeviceExpansion and of the paid expansion job: same shape as the purchase loop; their transactions are modelled.
- Integer widths: amounts and balances are unbounded integers; the source's BIGINT columns are far from their limits.
- Daily YAD cap, daily referral cap, brute-force counters: further uses of the same counter script.
- Shop stock, tickets, suggestions, notifications, analytics, listings and pagination, device blocking by age: plain queries and updates.
- MergeAccounts (an older merge) is not called by the code.
- Telegram texts, HTTP routing, the React front end, bcrypt, JWT signing, the Platega and Remnawave clients: I/O or opaque libraries.
- Search folds case in the database; the matcher of `LikePattern` compares characters exactly.
