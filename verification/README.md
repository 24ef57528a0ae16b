# Verification of the subscription vault

A Dafny model of the `subscription_vault` contract, a prepaid billing ledger, and proofs about it.
The state is the contract's: subscriptions with their statements, period snapshots, idempotency
keys and usage meters; merchant and treasury balances; dispute and cancellation escrows; coupons;
and the tokens held. Every entrypoint is a function from state to state (module `Vault`), and the
charge engine, batches, disputes, coupons, splits, payouts and rotation are also given as methods of
a class that change its fields step by step (module `VaultContract`) and are proved to do exactly
what those functions say. The theorems are about every run of calls, in any order and with any
arguments, from any state that satisfies the invariant; a new contract satisfies it.

Check everything with `dafny verify dfyconfig.toml`.

## Modules

| file | what it holds |
|---|---|
| Base, Sums, Sorting | integer widths, results, sums over maps, sorted rearrangements |
| StateMachine, ChargeMath | status transitions; proration, discount, fee and split arithmetic |
| StatementLog, IdemRing, Snapshots, UsageMeter | the indexed stores of one subscription, each with its history, its runs and the object that updates it in place |
| Accounts, AccountLaws | one subscription with its stores; the gates of a charge and what is recorded; the account invariant |
| Ledger | balances, earnings and lists of credits |
| Vault | the whole state, every call, runs |
| VaultTotals, VaultInvariant, VaultFrames | what is owed, the invariant and its preservation, what each call leaves alone |
| VaultConservation, VaultRuns, VaultSolvency | conservation call by call, whole runs, payouts that cannot fail |
| VaultBatches, LeakExample | which batches conserve; conservation and solvency of runs with batches; a batch that leaks |
| ChargeEffects, ChargeSuccess | who gets what from a charge, when a charge is settled, what it leaves behind; when a due payment succeeds; the items of a batch |
| MerchantEffects, CallEffects, GovernanceEffects | when every other call goes through and exactly what it changes; who is paid after a rotation; settings over runs of governance |
| VaultTraces, VaultUsage, VaultDisputes, VaultGrace | spacing of charges, replay protection and the end of billing; usage limits; dispute lifecycle; grace and automatic pause |
| BatchCache, Redemptions | the cached batch agrees with the plain loop; attempts on a coupon's counter |
| VaultContract | the contract as an object |
| Governance, Quorum, Rotation | proposals and votes, what a tally can say, direct rotation of the administrator |
| Metadata, Oracle, Twap, Pages | the signed message, the price ring and breaker, the median, paginated views |

## What turned out not to hold as documented

* A batch item that fails is not rolled back. A credit raises the balance before its accrual is
  checked, so an item refused there (or for its lifetime total) leaves a liability that nothing
  covers. A batch conserves exactly when, before the call, every accrual has room for what the batch
  would credit and every lifetime total for what it would charge (`VaultBatches.BatchLeakIff`,
  `VaultBatches.RunConservesIff`); `LeakExample` is a run of a new contract that ends in one that
  does not.
* With a positive grace period automatic pause never happens, and a subscription whose grace has run
  out cannot fall again: underfunded charges of it are refused or skipped and change nothing
  (`VaultGrace`).
* A retry with a live idempotency key can still carry out a scheduled cancellation, which comes
  before the key is looked at (`VaultTraces.LiveKeyChargesNothing`).
* `do_rotate_merchant_address` documents a `SelfRotation` error but does not raise it; rotating an
  address onto itself deletes its listed balances, lists and settings
  (`VaultConservation.RotateSurplus`, `MerchantEffects.SelfRotationErases`). Rotation also
  replaces, rather than merges, the new address's earnings records.
* A charge of zero, which a full discount produces, never succeeds unless its period already has an
  open snapshot and no fee is due (`AccountLaws.ZeroChargeRefusal`, `AccountLaws.ZeroChargeWithFee`).
* First-period proration never changes a settled charge, since the interval gate comes after it
  (`AccountLaws.ProrationNeverBites`).
* A usage charge after the interval charge of the same period is always refused
  (`AccountLaws.UsageAfterIntervalIsRefused`).
* Lengthening the lifetime of idempotency keys forgets keys already pruned
  (`IdemRing.KeptIff`, `IdemRing.LongerTtlForgets`). The documentation of `idempotency.rs` lists
  `deposit_funds` among the entrypoints that use such keys; the code gives deposits a nonce instead.
* The rate limit on usage gives way at the largest clock value and nowhere else
  (`UsageMeter.RateEnforcedIff`).
* Only the stored administrator can vote, so execution rests on that one vote
  (`Governance.ExecutionRestsOnAdmin`), and the tally's behaviour for several voters, which `Quorum`
  also describes, never arises (`Quorum.RunOneVoter`).
* A direct rotation under guardians works only with proposal 0, does not look at the cutoff and does
  not use the proposal up: it can be repeated, and a vote of an earlier administrator can decide it
  (`Rotation`).
* Nothing in the modelled code opens a cancellation escrow: cancelling refunds at once. The theorems
  start from any state satisfying the invariant, so states with such escrows are covered.

## Model

| member | source | states |
|---|---|---|
| VaultRuns.RunSurplus | contracts/subscription_vault/src/charge_core.rs:581-723 | Over every run and in every token, tokens held minus everything owed (prepaid, merchant and treasury balances, dispute and cancellation escrows) moves by exactly the sum of the calls' gains |
| VaultBatches.RunConserves | contracts/subscription_vault/src/charge_core.rs:391-431 | Any mix of calls without self-rotation keeps that difference exactly in every token: without batches from every state, with batches from a solvent state if each batch fits the state it is called in |
| VaultBatches.RunConservesIff | contracts/subscription_vault/src/admin.rs:595-628 | From a solvent state a run without self-rotation conserves every token if and only if every batch of it that the entrypoint takes up fits the state it is called in |
| VaultConservation.StepSurplus | contracts/subscription_vault/src/merchant.rs:956-1012 | Every single call moves the difference by its gain: zero for all calls but a batch and a rotation onto the same address |
| VaultConservation.SettleIntervalSurplus | contracts/subscription_vault/src/charge_core.rs:581-723 | A settlement that is not rolled back lowers the difference by exactly what was credited without a matching debit |
| VaultConservation.LeakIff | contracts/subscription_vault/src/merchant.rs:956-1000 | For one settlement that amount is zero if and only if nothing was charged or every accrual it touches and the lifetime total stay in i128; otherwise it is positive |
| VaultBatches.ItemLeakIff | contracts/subscription_vault/src/admin.rs:595-628 | A batch item leaves nothing behind in a token if and only if it settles no positive charge in it or every accrual it touches and the lifetime total have room |
| VaultBatches.BatchLeakIff | contracts/subscription_vault/src/admin.rs:570-632 | A batch leaves nothing behind if and only if, before the call, every party's accrual has room for all the batch would credit it and every lifetime total for what it would charge |
| VaultBatches.BatchNeverAborts | contracts/subscription_vault/src/admin.rs:570-632 | From a solvent state every batch the entrypoint takes up goes through, even if its items leave something behind: prepaid balances stay covered throughout |
| ChargeSuccess.BatchTakenUpIff | contracts/subscription_vault/src/admin.rs:654-714 | A batch is taken up if and only if the contract is not stopped, it has at most 100 ids, none twice, and as many keys as ids if it has keys |
| ChargeSuccess.BatchTakes | contracts/subscription_vault/src/admin.rs:586-632 | An accepted batch reports the outcome of every item in order, and an item whose payment was due before the call and that succeeds leaves its subscription paid at that price |
| VaultBatches.BatchConservesIff | contracts/subscription_vault/src/admin.rs:570-632 | From a solvent state a batch conserves every token if and only if it fits in that sense |
| VaultConservation.BatchRunSurplus | contracts/subscription_vault/src/admin.rs:595-628 | A batch lowers the difference by the sum of what its refused items left behind |
| VaultConservation.SuccessDoesNotLeak | contracts/subscription_vault/src/charge_core.rs:391-431 | A charge that reports success leaves nothing behind, so a single charge, which is rolled back on error, always conserves |
| LeakExample.BatchCanLeak | contracts/subscription_vault/src/admin.rs:595-628 | A run of a new contract, from registering a merchant to a batch of one, after which it owes ten units more than it holds |
| VaultConservation.MeteredChargeSurplus | contracts/subscription_vault/src/charge_core.rs:956-1570 | Usage charges conserve, including replays and charges refused by a limit |
| ChargeEffects.UsageSettlesIff | contracts/subscription_vault/src/charge_core.rs:1040-1330 | Usage goes to settlement if and only if it is due: active, enabled, renewing or within its interval, positive, within balance, amount limit and cap, a new reference, and let through by the meter |
| ChargeEffects.UsageTaken | contracts/subscription_vault/src/charge_core.rs:956-1570 | A usage charge that succeeds was either due, and then distributed at the merchant's own rate or the contract's where it has none, leaving an emptied balance as a lack of funds; or it moved no money for the reason it reports |
| ChargeEffects.UsageGates | contracts/subscription_vault/src/charge_core.rs:956-1188 | A refused usage charge was stopped, unknown, between parties not ready, refused for a reason that holds, or could not be recorded |
| ChargeSuccess.UsageSucceedsIff | contracts/subscription_vault/src/charge_core.rs:1330-1570 | Usage that is due between ready parties is paid if and only if products, accruals and records have room and the period is not closed |
| VaultConservation.DisburseSurplus | contracts/subscription_vault/src/dispute.rs:230-303 | Resolving a dispute conserves, to either party |
| VaultConservation.LodgeSurplus | contracts/subscription_vault/src/dispute.rs:484-518 | Turning a cancellation escrow into a dispute conserves |
| VaultConservation.FlushPaysListed | contracts/subscription_vault/src/merchant.rs:1307-1415 | A flush pays each listed balance that reaches the minimum in full, once, and leaves every other balance and token alone |
| MerchantEffects.FlushPaysDue | contracts/subscription_vault/src/merchant.rs:1307-1423 | A flush without a schedule does nothing, is refused before the cadence is over, and otherwise goes through if and only if every due balance can be paid; it pays these in full and once, reports their number and sets the clock |
| MerchantEffects.WithdrawalTakes | contracts/subscription_vault/src/merchant.rs:1056-1174 | When a withdrawal goes through, and that exactly its amount leaves balance and contract, booked as refund and withdrawal |
| MerchantEffects.RefundTakes | contracts/subscription_vault/src/merchant.rs:1176-1236 | The same for a refund, booked as a refund only and possible on a stopped contract |
| MerchantEffects.ScheduleStored | contracts/subscription_vault/src/merchant.rs:1250-1300 | A schedule keeps the time of the last payout |
| MerchantEffects.RegistrationIff | contracts/subscription_vault/src/merchant.rs:652-745 | Registration and settings are accepted for a fee of at most 10000 and operations that include charging; registering needs approval and lifts a pause |
| VaultConservation.MoveTokensTotal | contracts/subscription_vault/src/merchant.rs:1570-1589 | Rotation keeps each token's total if the addresses differ and deletes the listed balances if they are the same |
| VaultConservation.MoveTokensEffect | contracts/subscription_vault/src/merchant.rs:1570-1589 | Who owns what after a rotation: listed balances are added to the new address's, earnings records replace the new address's own, nobody else is affected |
| VaultConservation.RotateSurplus | contracts/subscription_vault/src/merchant.rs:1550-1680 | Rotation conserves when old and new differ; the documented SelfRotation error is not raised, and a self-rotation wipes the listed balances |
| MerchantEffects.RotationMovesAll | contracts/subscription_vault/src/merchant.rs:1550-1680 | After a rotation every listed subscription of the old address names the new one; balances, earnings, pause flag, vacation, registration and both lists, joined without duplicates, have gone over; nothing else of any account or of the contract has changed |
| MerchantEffects.SelfRotationErases | contracts/subscription_vault/src/merchant.rs:1550-1680 | Onto the same address it erases lists, pause flag, vacation and registration |
| MerchantEffects.OnlyRotationChangesMerchant | contracts/subscription_vault/src/merchant.rs:1637-1652 | Over every run without a rotation each subscription keeps its merchant |
| MerchantEffects.RotatedIsPaid | contracts/subscription_vault/src/merchant.rs:1637-1652 | After a rotation and any run without another, a payment of a moved subscription raises the new address's balance by price less fee and leaves the old one's alone |
| Ledger.CreditAllTotal | contracts/subscription_vault/src/merchant.rs:956-1000 | Crediting a list raises the total of its token by exactly what was posted and no other total |
| Ledger.CompleteIffAccrualsFit | contracts/subscription_vault/src/merchant.rs:956-1000 | Where balances have room, a list of non-negative credits goes through if and only if every accrual it touches stays in i128 |
| VaultBatches.RunSolvent | contracts/subscription_vault/src/charge_core.rs:391-431 | A solvent contract stays solvent through every run whose batches fit, so at every point of it no payout can fail |
| VaultSolvency.ChargeNeverTraps | contracts/subscription_vault/src/charge_core.rs:391-431 | While the prepaid balances are covered no charge can fail in the token contract, not even a scheduled cancellation's refund, and every charge keeps them covered |
| VaultSolvency.ResolveNeverTraps | contracts/subscription_vault/src/dispute.rs:230-303 | The payout of a resolved dispute is always covered |
| VaultSolvency.SubscriberPayoutsNeverTrap | contracts/subscription_vault/src/subscription.rs:2649-2773 | Claims, subscriber withdrawals and cancellation refunds are always covered |
| VaultSolvency.MerchantPayoutsNeverTrap | contracts/subscription_vault/src/merchant.rs:1111-1167 | Merchant withdrawals and refunds are always covered |
| VaultSolvency.FlushNeverTraps | contracts/subscription_vault/src/merchant.rs:1368-1415 | Every transfer of a flush is covered, including the later ones of the loop |
| VaultSolvency.RotationNeverTraps | contracts/subscription_vault/src/merchant.rs:1575-1580 | The unchecked addition of a rotation cannot overflow when the addresses differ |
| VaultBatches.BatchSolvent | contracts/subscription_vault/src/admin.rs:570-632 | A batch that fits never aborts and keeps the contract solvent |
| VaultInvariant.StepInv | contracts/subscription_vault/src/charge_core.rs:195-953 | Every call, successful or not, keeps the invariant of accounts, ledger, disputes, escrows and coupons |
| VaultRuns.RunInv | contracts/subscription_vault/src/charge_core.rs:195-953 | So every state reached by any run satisfies it while dispute ids last |
| VaultRuns.InitialInv | contracts/subscription_vault/src/lib.rs:1763-1836 | A new contract satisfies the invariant and owes and holds nothing |
| VaultRuns.RunBilling | contracts/subscription_vault/src/charge_core.rs:549-577 | In every reachable state the retained statements plus the compacted total are the lifetime total (while statement numbers remain), the cap is never exceeded, and a cap that is reached means Cancelled or Archived |
| VaultInvariant.ApplyCouponInv | contracts/subscription_vault/src/coupon.rs:201-274 | The redemption counter always equals the number of subscriptions bound to the coupon and stays within its limit |
| CallEffects.CouponBound | contracts/subscription_vault/src/coupon.rs:201-274 | When a coupon is bound, and that its counter rises by one and nothing else changes |
| CallEffects.CouponsMade | contracts/subscription_vault/src/coupon.rs:105-199 | Which coupons can be created, and that revoking sets the flag and nothing else |
| VaultInvariant.SplitAcceptedIff | contracts/subscription_vault/src/lib.rs:1777-1793 | A split is accepted if and only if it is not empty, its weights are positive and sum to 10000, and no payee is blocklisted |
| CallEffects.CreationStoresTerms | contracts/subscription_vault/src/subscription.rs:547-760 | A subscription is created exactly on the stated terms and stores them, cap and expiry included, active, empty, its clock starting now, on its merchant's list |
| CallEffects.SplitReplaced | contracts/subscription_vault/src/lib.rs:1838-1900 | Exactly the subscriber of a subscription neither cancelled nor expired replaces its split, and nothing else changes |
| CallEffects.DepositAcceptedIff | contracts/subscription_vault/src/subscription.rs:777-905 | When a deposit is accepted: minimum, ready parties, status, expiry and room under the cap |
| CallEffects.DepositAdds | contracts/subscription_vault/src/subscription.rs:777-905 | It raises balance and holdings by the amount and clears the count of failures |
| CallEffects.CancelRefunds | contracts/subscription_vault/src/subscription.rs:1067-1255 | When cancelling goes through, and that the whole balance leaves the contract and the id its merchant's list |
| CallEffects.SubscriberTakesBack | contracts/subscription_vault/src/subscription.rs:2649-2773 | When the subscriber of an ended subscription may withdraw, and that it gets the balance or, after it, a released and undisputed escrow |
| CallEffects.TermsChanged | contracts/subscription_vault/src/subscription.rs:1256-1510 | Scheduling and unscheduling a cancellation and switching renewal: who, when, and the one term that changes; renewal returns only within an interval of its end |
| CallEffects.CompactionStored | contracts/subscription_vault/src/lib.rs:216-336 | Compacting a subscription stores the log whose history is the same and whose aggregate covers all but the statements to keep, and reports exactly what was folded; no other part of the contract changes |
| CallEffects.StatusChanged | contracts/subscription_vault/src/state_machine.rs:18-60 | Pausing, resuming, expiring and archiving follow the table of transitions from the status every reader sees |
| AccountLaws.SettleGuards | contracts/subscription_vault/src/charge_core.rs:391-577 | A charge is settled only while renewal is on, for an unpaid period, a full interval after the last payment, within balance and remaining cap, and not with a live key; it takes exactly the price less what a good coupon takes off |
| AccountLaws.PayableIsDiscounted | contracts/subscription_vault/src/coupon.rs:336-429 | The gates of a charge work with the price less what a good coupon (known, not revoked, before its expiry, for this token) takes off, percentage first and never below zero, and with the full price otherwise |
| ChargeEffects.SettlesIff | contracts/subscription_vault/src/charge_core.rs:289-577 | A charge goes to settlement if and only if payment is due: neither expired nor due for cancellation, alive, renewing, under its cap, key fresh, period unpaid, interval over and price covered |
| ChargeEffects.UnpaidIsExplained | contracts/subscription_vault/src/charge_core.rs:289-581 | Every other outcome has the reason it reports and exactly the effect that goes with it: expiry, refunded cancellation, cancellation at the cap, an underfunded charge, or nothing |
| ChargeEffects.PartiesReadyIff | contracts/subscription_vault/src/charge_core.rs:218-286 | The gate of the parties lets through exactly those charges whose subscriber is not blocklisted and whose merchant and split payees are neither blocklisted, paused nor on vacation, and refuses others for a reason that holds of one of them |
| ChargeEffects.ChargeGates | contracts/subscription_vault/src/charge_core.rs:195-288 | The single charge gate by gate: stopped, unknown, parties, then payment due or an explained outcome that credits nobody and moves no tokens but the refund of a scheduled cancellation |
| ChargeEffects.TreasuryGetsFee | contracts/subscription_vault/src/charge_core.rs:600-690 | The treasury is credited last with max(amount * rate / 10000, 1), the payees share exactly the rest, and without a rate or treasury they share everything |
| ChargeEffects.CreditsDistribute | contracts/subscription_vault/src/charge_core.rs:581-690 | A charge whose credits go through has raised, for every address and token, balance and earnings of the right kind by exactly what the address gets: floor shares for later payees, the rest for the first or the merchant, the fee for the treasury |
| ChargeEffects.RecordPays | contracts/subscription_vault/src/charge_core.rs:697-795 | The account after a recorded payment, field by field: debit, clock, recovery from grace, cancellation at the cap, statement, closed snapshot, keys, charged period |
| ChargeEffects.ChargedIsTaken | contracts/subscription_vault/src/charge_core.rs:195-953 | A single charge or batch item that succeeds with a fresh key has taken a payment that was due, distributed its price and left the account paid; one that was due can only succeed that way |
| ChargeSuccess.PaymentSucceedsIff | contracts/subscription_vault/src/charge_core.rs:581-795 | A due payment between ready parties succeeds if and only if every accrual, the lifetime total, the statement numbers, the period totals and the keys have room, and a price of zero has an open snapshot and no fee |
| AccountLaws.ProrationNeverBites | contracts/subscription_vault/src/charge_core.rs:375-386 | The interval gate means that proration never reduces a charge that is settled: it takes the whole discounted price |
| AccountLaws.FinishIsHarmless | contracts/subscription_vault/src/charge_core.rs:289-467 | A charge that ends without settling touches only status and clocks; a scheduled cancellation pays out the whole balance |
| VaultGrace.GraceOverNeedsFunds | contracts/subscription_vault/src/state_machine.rs:18-38 | Once grace has run out, an underfunded charge that does not end the subscription leaves the whole contract exactly as it was, so only a balance that covers the charge gets it going again |
| AccountLaws.GraceRunsOnce | contracts/subscription_vault/src/charge_core.rs:840-875 | The grace clock starts at the first underfunded charge, is not restarted by later ones, and ends for every reader at the same instant |
| VaultGrace.RunPausesAtThreshold | contracts/subscription_vault/src/charge_core.rs:908-948 | Without a grace period, over any run of n consecutive underfunded charges, single or in batches, with time and charges of others in between: each failure is counted, the one that reaches the threshold pauses and resets the count, and there is none after it |
| VaultGrace.RunNeverPauses | contracts/subscription_vault/src/charge_core.rs:839-950 | With a positive grace period automatic pause never happens: no mix of interval, batch and usage charges at any times pauses a subscription or raises its count of failures |
| AccountLaws.RecordIntervalKeepsInv | contracts/subscription_vault/src/charge_core.rs:697-795 | Whatever a settlement writes, complete or cut short by an error, keeps the account's invariant |
| AccountLaws.RecordIntervalSuccess | contracts/subscription_vault/src/charge_core.rs:697-795 | Success means debit, statement, closed snapshot, charged period and key are all recorded |
| AccountLaws.NoClosedSnapshotRefusal | contracts/subscription_vault/src/period_snapshots.rs:27-60 | No settled interval charge is ever refused by a closed snapshot |
| AccountLaws.ZeroChargeRefusal | contracts/subscription_vault/src/period_snapshots.rs:27-60 | A settled charge of zero is refused by the snapshot store if and only if its period has no open snapshot |
| AccountLaws.ZeroChargeWithFee | contracts/subscription_vault/src/charge_core.rs:607-617 | A zero charge on which a fee is due is always refused and posts nothing |
| AccountLaws.UsageAfterIntervalIsRefused | contracts/subscription_vault/src/charge_core.rs:1380-1445 | Usage in a period whose interval charge is recorded is always refused |
| AccountLaws.ExhaustedLogFallsBehind | contracts/subscription_vault/src/lib.rs:127-175 | When statement numbers are exhausted a settled charge is debited but not listed, and the listed sum falls behind by exactly its amount |
| AccountLaws.CreditsSum | contracts/subscription_vault/src/charge_core.rs:1580-1617 | The credits of a charge add up to exactly what is debited, for every split and fee, and a positive charge debits nobody |
| AccountLaws.LaterCreditsAreShares | contracts/subscription_vault/src/charge_core.rs:1594-1606 | The payees after the first get their floor shares in order |
| VaultTraces.StepAccount | contracts/subscription_vault/src/charge_core.rs:195-953 | Every call charges a subscription nothing, settles one interval charge, or settles one usage charge |
| VaultTraces.RunSpacing | contracts/subscription_vault/src/charge_core.rs:542-546 | Settled interval charges of a subscription are at least one interval apart through any run, batches included |
| VaultTraces.RunPeriods | contracts/subscription_vault/src/charge_core.rs:520-540 | The billing periods they close strictly increase |
| VaultTraces.ChargeCount | contracts/subscription_vault/src/charge_core.rs:469-476 | By time t at most (t - start) / interval interval charges have been settled |
| VaultTraces.KeySurvives | contracts/subscription_vault/src/idempotency.rs:160-190 | With a fixed time to live, a recorded key stays recorded through any run while it is live |
| VaultTraces.LiveKeyChargesNothing | contracts/subscription_vault/src/charge_core.rs:507-518 | A charge presented with a live key credits nobody, appends no statement and raises no total; the only tokens it can move are the refund of a scheduled cancellation that has come due, which is the whole prepaid balance |
| VaultTraces.SettledChargeRecordsKey | contracts/subscription_vault/src/charge_core.rs:788-799 | A charge that succeeds with a fresh key has recorded it and appended one statement |
| VaultTraces.ChargeThenRetry | contracts/subscription_vault/src/charge_core.rs:507-518 | At most once: after a settled charge with a key, any later attempt with the same live key credits nobody, bills nothing and takes nothing from the balance but a due cancellation's refund, whatever ran in between |
| VaultTraces.BatchThenRetry | contracts/subscription_vault/src/admin.rs:585-594 | The same when the first charge was an item of a batch |
| VaultUsage.MeterRefines | contracts/subscription_vault/src/charge_core.rs:1189-1314 | The stored meter after any run is the meter of the ordered sequence of the subscription's usage calls |
| VaultUsage.AcceptedIsMetered | contracts/subscription_vault/src/charge_core.rs:1189-1314 | Every accepted usage charge is the next accepted call of that meter, with its time and amount |
| VaultUsage.UsageBounds | contracts/subscription_vault/src/charge_core.rs:1189-1314 | Over any run: units per billing period within the cap, consecutive accepted calls a burst interval apart, and, before the clock reaches its largest value, at most twice the allowed calls in any span of the rate window |
| UsageMeter.SpanHoldsTwiceMax | contracts/subscription_vault/src/charge_core.rs:1215-1250 | Any span of the window holds at most twice the allowed accepted calls |
| UsageMeter.TumblingWindow | contracts/subscription_vault/src/charge_core.rs:1215-1250 | A tumbling window holds at most the allowed accepted calls |
| UsageMeter.BurstSpacing | contracts/subscription_vault/src/charge_core.rs:1189-1214 | Consecutive accepted calls are at least the burst interval apart |
| UsageMeter.NextAcceptedIff | contracts/subscription_vault/src/charge_core.rs:1189-1314 | After every run the next call is accepted if and only if the burst interval has passed since the last accepted one, the window has calls left or is over, and the units accepted in the period leave room; otherwise the first of these that fails is reported |
| VaultUsage.UnitsWithinLifetime | contracts/subscription_vault/src/charge_core.rs:1316-1320 | Over any run the units accepted of a subscription, in all periods together, fit beside its lifetime total in i128, and are part of that total while it lives |
| VaultUsage.CapHolds | contracts/subscription_vault/src/charge_core.rs:1251-1300 | So over any run units accepted in a billing period never exceed the cap, for every cap up to the largest i128 |
| UsageMeter.RateEnforcedIff | contracts/subscription_vault/src/charge_core.rs:1215-1250 | For every limit and window: at most twice the allowed calls are accepted in any span of the window, over all runs whose clock stays within a bound, if and only if the bound is below the largest clock value |
| UsageMeter.CapEnforcedIff | contracts/subscription_vault/src/charge_core.rs:1251-1300 | The meter taken alone enforces a cap over every run if and only if it is below the largest i128; the contract's lifetime total rules the exception out |
| UsageMeter.MeterStore.Try | contracts/subscription_vault/src/charge_core.rs:1189-1314 | The stored meter is updated in place as the specification says |
| VaultTotals.ReusedIdForgetsEscrow | contracts/subscription_vault/src/dispute.rs:574-580 | Why runs are bounded by the dispute ids left: a reused id of an unresolved dispute overwrites it, and what is owed for it is forgotten |
| VaultDisputes.DisputeHistory | contracts/subscription_vault/src/dispute.rs:193-335 | Over any run: terms never change, a resolution is final, the whole amount leaves the escrow exactly once if the run resolves the dispute and nothing does otherwise, and an unanswered dispute never goes to the merchant |
| VaultDisputes.ResolvePaysOneParty | contracts/subscription_vault/src/dispute.rs:202-314 | A resolution closes the record for the merchant if and only if it was answered and the ruling is for the merchant, hands the whole amount to that one party, measured in balances and tokens, and changes nothing else |
| VaultDisputes.RulingDecides | contracts/subscription_vault/src/dispute.rs:193-335 | A dispute that any run resolves was resolved by one call of it: the ruling of that call and the answer before it decide the winner, who is paid in that call, and the outcome stays |
| CallEffects.DisputeOpened | contracts/subscription_vault/src/dispute.rs:39-133 | Opening goes through exactly for the subscriber, an amount the merchant's balance covers and no open dispute; the amount moves from that balance into escrow |
| CallEffects.DisputeAnswered | contracts/subscription_vault/src/dispute.rs:140-180 | Exactly an open dispute of a known subscription is answered, which stores the time and nothing else |
| CallEffects.EscrowDisputed | contracts/subscription_vault/src/dispute.rs:453-552 | Exactly the merchant of an escrow not yet released, without an open dispute, turns it into one of the same amount and parties |
| CallEffects.EscrowClaimed | contracts/subscription_vault/src/dispute.rs:368-431 | Exactly the subscriber of a released, undisputed escrow gets it, once |
| VaultDisputes.ResolvableIff | contracts/subscription_vault/src/dispute.rs:202-229 | With room and cover, a dispute can be resolved if and only if it was answered or its window has passed |
| VaultDisputes.EscrowIffUnresolved | contracts/subscription_vault/src/dispute.rs:58-113 | In every reachable state a dispute has an escrow of exactly its positive amount iff it is unresolved, iff the subscription's index names it |
| VaultDisputes.StepDispute | contracts/subscription_vault/src/dispute.rs:193-335 | One call: a resolved dispute never changes; a dispute's escrow falls only in the call that resolves it, by the whole amount, and exactly that amount reaches the merchant's balance or leaves the contract |
| BatchCache.CachedBatchAgrees | contracts/subscription_vault/src/admin.rs:570-632 | For every state, list of ids and list of keys, the batch with its merchant cache and pre-read settings ends in the same state with the same results as the uncached loop |
| BatchCache.ChargeAgrees | contracts/subscription_vault/src/charge_core.rs:220-239 | One item: the cached status and settings give the same state and result, and the cache stays right |
| BatchCache.SingletonBatch | contracts/subscription_vault/src/admin.rs:570-632 | A batch of one has the effect of a single charge, except that a refusal is reported rather than rolled back; while the contract is stopped both are refused |
| VaultContract.Contract.CreditMerchant | contracts/subscription_vault/src/merchant.rs:956-1000 | Balance, then accrual, then token list, exactly as specified, including what an accrual overflow leaves behind |
| VaultContract.Contract.CreditLaterPayees | contracts/subscription_vault/src/charge_core.rs:1594-1606 | The loop over the later payees posts their shares in order and stops at the first refusal |
| VaultContract.Contract.CreditChargePayees | contracts/subscription_vault/src/charge_core.rs:1580-1617 | The first payee gets what the others leave |
| VaultContract.Contract.CreditCharge | contracts/subscription_vault/src/charge_core.rs:600-690 | Payees first, then the treasury's fee |
| VaultContract.Contract.ChargeOne | contracts/subscription_vault/src/charge_core.rs:195-953 | The step-by-step charge with its optional cache does to the state exactly what the specification says, on every path |
| VaultContract.Contract.ChargeReachable | contracts/subscription_vault/src/charge_core.rs:289-386 | Expiry and amount gates |
| VaultContract.Contract.ChargeLive | contracts/subscription_vault/src/charge_core.rs:388-467 | Cap, scheduled cancellation, status and renewal gates |
| VaultContract.Contract.ChargeDue | contracts/subscription_vault/src/charge_core.rs:469-581 | Key, period, interval, remaining cap and balance gates, in this order |
| VaultContract.Contract.Record | contracts/subscription_vault/src/charge_core.rs:697-795 | Subscription, statement, snapshot, charged period and key are written in order and kept on an error |
| VaultContract.Contract.Fall | contracts/subscription_vault/src/charge_core.rs:839-950 | The underfunded path: grace, failure counter and automatic pause |
| VaultContract.Contract.ChargeSubscription | contracts/subscription_vault/src/admin.rs:735-744 | The single-charge entrypoint rolls an error back |
| VaultContract.Contract.BatchCharge | contracts/subscription_vault/src/admin.rs:570-732 | The batch loop refines the specification, item by item, through its cache |
| VaultContract.Contract.ChargeUsage | contracts/subscription_vault/src/charge_core.rs:956-1570 | The usage entrypoint, rolled back on error |
| VaultContract.Contract.UsageMetered | contracts/subscription_vault/src/charge_core.rs:1189-1437 | Limits, cap check and settlement of a usage charge |
| VaultContract.Contract.OpenDispute | contracts/subscription_vault/src/dispute.rs:39-133 | The amount moves from the merchant's balance into an escrow of a new dispute |
| VaultContract.Contract.RespondDispute | contracts/subscription_vault/src/dispute.rs:140-180 | An open dispute becomes answered, once |
| VaultContract.Contract.ResolveDispute | contracts/subscription_vault/src/dispute.rs:193-335 | The outcome and payout of a resolution on every path |
| VaultContract.Contract.ClaimEscrow | contracts/subscription_vault/src/dispute.rs:368-431 | A released cancellation escrow is paid to the subscriber |
| VaultContract.Contract.LodgeEscrowDispute | contracts/subscription_vault/src/dispute.rs:453-552 | A cancellation escrow becomes a dispute before its release |
| Redemptions.WinnersAreConsecutive | contracts/subscription_vault/src/coupon.rs:368-383 | Over any attempts on the counter with whatever expected values, those that go through expect consecutive values from the starting count on, the counter ends at start plus their number and is never taken beyond the limit |
| Redemptions.SameExpectationIff | contracts/subscription_vault/src/coupon.rs:368-383 | For the counter alone, two attempts that go through expected the same value if and only if it is unlimited and already at the largest u32 |
| Redemptions.BindingNeverSaturates | contracts/subscription_vault/src/coupon.rs:201-274 | In the contract that never happens: the counter stays below the number of subscriptions, and every binding raises it by exactly one |
| VaultContract.Contract.ApplyCoupon | contracts/subscription_vault/src/coupon.rs:201-274 | Binding a coupon, on every path |
| VaultContract.Contract.ValidateSplit | contracts/subscription_vault/src/lib.rs:1857-1873 | The validation loop with its u32 running total |
| VaultContract.Contract.UpdateSplit | contracts/subscription_vault/src/lib.rs:1838-1900 | Replacing a split, on every path |
| VaultContract.Contract.SetAutoRenew | contracts/subscription_vault/src/subscription.rs:1449-1510 | Switching renewal off and, within one interval, on again |
| VaultContract.Contract.InitializeMerchant | contracts/subscription_vault/src/merchant.rs:670-711 | A merchant's first configuration, with approval and validation |
| VaultContract.Contract.SetMerchantConfig | contracts/subscription_vault/src/merchant.rs:713-745 | Replacing a configuration, pause flag included |
| VaultContract.Contract.WithdrawMerchant | contracts/subscription_vault/src/merchant.rs:1056-1174 | A withdrawal, booked both as a refund and as a withdrawal as the code has it |
| VaultContract.Contract.MerchantRefund | contracts/subscription_vault/src/merchant.rs:1176-1236 | A merchant's refund |
| VaultContract.Contract.FlushToken | contracts/subscription_vault/src/merchant.rs:1307-1355 | One token of a flush |
| VaultContract.Contract.FlushPayouts | contracts/subscription_vault/src/merchant.rs:1368-1423 | The flush loop with its cadence gate, rolled back on error |
| VaultContract.Contract.RotateMerchant | contracts/subscription_vault/src/merchant.rs:1550-1680 | Books, lists, configuration and subscriptions move to the new address |
| VaultContract.Contract.MoveOneToken | contracts/subscription_vault/src/merchant.rs:1570-1589 | Balance and earnings of one token move |
| VaultContract.Contract.MergeList | contracts/subscription_vault/src/merchant.rs:1591-1604 | The new address's list is extended by what it lacks |
| VaultContract.Contract.ReaddressAll | contracts/subscription_vault/src/merchant.rs:1637-1652 | Listed subscriptions of the old address get the new one |
| StateMachine.GuardMatchesTable | contracts/subscription_vault/src/state_machine.rs:13-85 | The transition guard and the list of allowed transitions describe the same relation |
| StateMachine.TerminalIsFinal | contracts/subscription_vault/src/state_machine.rs:13-39 | No path of permitted transitions leads out of the terminal states, nor from cancelled to anything but archived |
| VaultTraces.BillingNeverRestarts | contracts/subscription_vault/src/charge_core.rs:388-467 | Over every run a cancelled, expired or archived subscription stays so and is never charged again: lifetime total, payment clock, periods, statement numbering and every stored history stay |
| ChargeMath.ProrationIsExactFloor | contracts/subscription_vault/src/charge_core.rs:1678-1724 | Proration is exactly floor(amount * remaining / interval) for every non-negative i128 amount, without overflow |
| ChargeMath.ProrationIsMonotone | contracts/subscription_vault/src/charge_core.rs:1678-1724 | And monotone in the remaining time |
| ChargeMath.DiscountBounds | contracts/subscription_vault/src/coupon.rs:336-351 | The discount lies between zero and the gross amount, and its product does not overflow |
| ChargeMath.DiscountIsMonotone | contracts/subscription_vault/src/coupon.rs:336-351 | A larger percentage or fixed part never gives a smaller discount |
| ChargeMath.GrossIsDiscountPlusNetPlusFee | contracts/subscription_vault/src/charge_core.rs:607-617 | Gross is discount plus merchant net plus fee; the fee is max(payable * rate / 10000, 1) with a rate and a treasury and nothing otherwise, and lies within a payable amount of at least one unit |
| ChargeMath.SharesSumToNet | contracts/subscription_vault/src/charge_core.rs:1580-1617 | The shares of any split sum to the net amount exactly |
| ChargeMath.SharesAreFair | contracts/subscription_vault/src/charge_core.rs:1580-1617 | No share is negative, later shares are floors, and the first exceeds its own floor by at most one unit per other payee |
| StatementLog.RunRefines | contracts/subscription_vault/src/lib.rs:127-336 | After any appends and compactions the index is exactly the consecutive numbers above the pruned count, and matches the stored records and the full history |
| StatementLog.AppendRefines | contracts/subscription_vault/src/lib.rs:127-175 | Appending extends the history by one statement or fails exactly when numbers run out |
| StatementLog.CompactRefines | contracts/subscription_vault/src/lib.rs:216-336 | Compaction moves the oldest statements into the aggregate and loses nothing |
| StatementLog.CompactTwice | contracts/subscription_vault/src/lib.rs:216-336 | Compacting to k1 and then to k2 equals compacting once to the smaller |
| StatementLog.KindsSumToAmount | contracts/subscription_vault/src/lib.rs:216-336 | The per-kind totals add up to the aggregate total |
| StatementLog.TotalsByKind | contracts/subscription_vault/src/lib.rs:216-336 | Each total of the aggregate is the sum of the pruned statements of its kind |
| StatementLog.BoundsCover | contracts/subscription_vault/src/lib.rs:216-336 | The oldest and newest bounds cover every pruned period |
| StatementLog.BilledIsHistorySum | contracts/subscription_vault/src/lib.rs:194-336 | Retained plus compacted amounts are the sum of the full history |
| StatementLog.CursorsEnumerate | contracts/subscription_vault/src/lib.rs:342-408 | Following the cursors gives the retained list, or its reverse, for every page size |
| StatementLog.StatementStore.AppendStatement | contracts/subscription_vault/src/lib.rs:127-175 | The stored log is extended in place as specified |
| StatementLog.StatementStore.CompactStatements | contracts/subscription_vault/src/lib.rs:216-336 | The compaction loop refines the specification and restores the records on overflow |
| StatementLog.StatementStore.PageByOffset | contracts/subscription_vault/src/lib.rs:342-389 | The paging loop reads exactly the requested slice |
| IdemRing.CheckIsTimedMembership | contracts/subscription_vault/src/idempotency.rs:126-145 | A key is reported if and only if it was accepted less than the time to live ago |
| IdemRing.PushRefines | contracts/subscription_vault/src/idempotency.rs:160-190 | Pushing fails if and only if 64 accepted keys are live, and otherwise drops no live key |
| IdemRing.RunRefines | contracts/subscription_vault/src/idempotency.rs:121-190 | After any run in which time never goes back and the time to live never grows, the buffer is the timed set of accepted keys |
| IdemRing.KeptIff | contracts/subscription_vault/src/idempotency.rs:160-190 | Over every run, whatever the time to live does, an entry is stored if and only if an accepted call put it there and it was live at every accepted call since |
| IdemRing.LongerTtlForgets | contracts/subscription_vault/src/idempotency.rs:55-65 | So lengthening the time to live forgets: a pruned key is within the new limit and not reported |
| IdemRing.IdemStore.Check | contracts/subscription_vault/src/idempotency.rs:126-145 | The scan finds a live key iff there is one |
| IdemRing.IdemStore.Push | contracts/subscription_vault/src/idempotency.rs:160-190 | The rebuilding loop keeps exactly the live entries and adds the new one |
| Snapshots.RunValid | contracts/subscription_vault/src/period_snapshots.rs:27-104 | The index stays free of duplicates, increasing, bounded and equal to the stored snapshots |
| Snapshots.WriteKeeps | contracts/subscription_vault/src/period_snapshots.rs:27-104 | What one write does: merge, close, insert, evict |
| Snapshots.StoredIsSummary | contracts/subscription_vault/src/period_snapshots.rs:27-104 | After any run in period order a stored snapshot summarises the writes of its period that were taken: first start, latest end, summed amounts and units, joined flags |
| Snapshots.KeepsLatest | contracts/subscription_vault/src/period_snapshots.rs:80-104 | The store keeps exactly the 365 latest periods written |
| Snapshots.ClosedForGood | contracts/subscription_vault/src/period_snapshots.rs:40-60 | A closed snapshot never changes until it is evicted |
| Snapshots.SnapshotStore.WriteSnapshot | contracts/subscription_vault/src/period_snapshots.rs:27-104 | The stored index and snapshots are updated in place as specified |
| Snapshots.SnapshotStore.List | contracts/subscription_vault/src/period_snapshots.rs:117-146 | The listing returns the newest snapshots in order |
| Governance.OnlyCurrentAdminCounts | contracts/subscription_vault/src/governance.rs:270-312 | In every reachable state a proposal that can still be voted on or executed carries no vote but the current administrator's |
| Governance.NewAdminStartsAfresh | contracts/subscription_vault/src/admin.rs:1164-1165 | Whatever changes the administrator closes every existing proposal to voting and execution |
| Governance.VotesFrozen | contracts/subscription_vault/src/governance.rs:287-306 | From its eta on, the votes of a proposal never change, whatever is called |
| Governance.EffectAtMostOnce | contracts/subscription_vault/src/governance.rs:342-362 | Counting executions and direct rotations alike, a proposal other than 0 takes effect at most once over any run and not before two days after its submission; proposal 0 does so where no direct rotation is made under guardians (the other direct operations approved in the same way are not modelled) |
| GovernanceEffects.ExecutionDoes | contracts/subscription_vault/src/governance.rs:342-479 | Execution goes through exactly for an approved proposal past its eta (no upgrade, no window out of range) and does what its kind says: the target becomes administrator and earlier proposals are invalid, or the named setting gets the proposal's value; all else stays |
| GovernanceEffects.SettingsFollowExecutions | contracts/subscription_vault/src/governance.rs:416-470 | After any run the settings are those of its executed proposals applied in order to the initial ones |
| GovernanceEffects.SubmissionStores | contracts/subscription_vault/src/governance.rs:190-248 | Which proposals are taken, and how they are stored |
| GovernanceEffects.VoteCounts | contracts/subscription_vault/src/governance.rs:270-328 | When a vote is taken, and that it replaces the administrator's earlier one |
| GovernanceEffects.CancellationMarks | contracts/subscription_vault/src/governance.rs:489-516 | Cancelling closes a proposal to voting and execution without any other effect |
| GovernanceEffects.GuardiansChange | contracts/subscription_vault/src/governance.rs:68-90 | Guardians come with a positive weight and go without touching others |
| GovernanceEffects.OfferAndClaim | contracts/subscription_vault/src/admin.rs:1088-1200 | When the administrator role can be offered, withdrawn and claimed, and what claiming changes |
| Governance.RotationUsesZero | contracts/subscription_vault/src/admin.rs:316-325 | A direct rotation under guardians never acts on any proposal but 0, since it has invalidated any other by the time it consumes it |
| Governance.ExecutionRestsOnAdmin | contracts/subscription_vault/src/governance.rs:366-379 | Execution goes through only if the threshold is zero or the administrator's own yes vote carries it |
| Quorum.RunTally | contracts/subscription_vault/src/governance.rs:366-379 | Over every run and for all weights, cut-off totals included: votes for and against a proposal stay within the total weight, and both sides reach the threshold if and only if the total is zero, or one under an incomplete quorum |
| Quorum.RunOneVoter | contracts/subscription_vault/src/governance.rs:270-312 | No run ever gives a proposal a second voter |
| Quorum.TallyWithinTotalIff | contracts/subscription_vault/src/governance.rs:518-535 | The tally of arbitrary vote maps stays within the total weight if and only if the guardians' weights add up within u32 |
| Quorum.CutOffLetsBothThrough | contracts/subscription_vault/src/governance.rs:97-104 | Tally of arbitrary vote maps: with two guardians of the largest weight, whose sum is cut off, both sides can reach the threshold at every quorum |
| Governance.ThresholdFits | contracts/subscription_vault/src/governance.rs:370-377 | The cast of the threshold to u32 loses nothing |
| Quorum.BothSidesReachIff | contracts/subscription_vault/src/governance.rs:366-379 | Tally of arbitrary vote maps, total not cut off: some let both sides reach the threshold if and only if it is zero, or at most half the total with no guardian outweighing the rest of it |
| Quorum.NeverBothFromFive | contracts/subscription_vault/src/governance.rs:366-379 | From a total weight of five on, and unless it is cut off, no votes on any proposal let both sides reach the threshold |
| Quorum.BothSidesSplitIff | contracts/subscription_vault/src/governance.rs:366-379 | Tally of arbitrary vote maps, cut-off totals included: both sides can reach the threshold if and only if the guardians can be divided into two groups that each have the weight needed |
| Rotation.DirectRotationIff | contracts/subscription_vault/src/admin.rs:762-820 | A direct rotation goes through if and only if the address is new and not the contract's, the cooldown is over, and there are no guardians or at most nine proposals were made, proposal 0 is for this rotation with its eta passed and its yes votes at least the quorum's share of its no votes, and no later one is for it |
| Rotation.CutoffIsNotConsulted | contracts/subscription_vault/src/admin.rs:261-314 | Its outcome is the same whatever the cutoff |
| Rotation.EarlierVoteDecides | contracts/subscription_vault/src/admin.rs:261-314 | So the vote of an earlier administrator on a closed proposal 0 decides it: yes lets it through, no refuses it |
| Rotation.ZeroTakesEffectTwice | contracts/subscription_vault/src/admin.rs:316-325 | Wherever it goes through under guardians it can be repeated after the role was handed back: proposal 0 is not used up |
| Rotation.ReachedExample | contracts/subscription_vault/src/admin.rs:762-820 | A run of a new contract in which both happen |
| Governance.ClaimWindow | contracts/subscription_vault/src/admin.rs:1139-1176 | An administrator role can be claimed exactly from a day to a week after it was offered, by the person named |
| Governance.Council.CalculateTotalWeight | contracts/subscription_vault/src/governance.rs:97-104 | The saturating sum is the same for every order of the guardians |
| Governance.Council.CalculateQuorum | contracts/subscription_vault/src/governance.rs:518-535 | The tally counts current guardians only and does not depend on the order of the votes |
| Governance.Council.SubmitProposal | contracts/subscription_vault/src/governance.rs:190-248 | Submission, on every path |
| Governance.Council.VoteProposal | contracts/subscription_vault/src/governance.rs:270-328 | Voting, on every path |
| Governance.Council.ExecuteProposal | contracts/subscription_vault/src/governance.rs:342-479 | Execution and its effect for every kind of proposal |
| Governance.Council.RequireApproval | contracts/subscription_vault/src/admin.rs:261-314 | The scan over the ten ids from the next one down |
| Governance.Council.RotateAdmin | contracts/subscription_vault/src/admin.rs:762-820 | Direct rotation, on every path, rolled back when the proposal cannot be consumed |
| Governance.Council.ClaimAdminRole | contracts/subscription_vault/src/admin.rs:1139-1176 | Claiming the administrator role |
| Metadata.RoundTrip | contracts/subscription_vault/src/metadata.rs:182-247 | A reader recovers every payload and network id from the signed bytes |
| Metadata.Injective | contracts/subscription_vault/src/metadata.rs:196-201 | Different payloads or networks never encode alike |
| Metadata.OnlyMessagesParse | contracts/subscription_vault/src/metadata.rs:182-247 | The reader accepts nothing but encoded messages |
| Metadata.BuildMessage | contracts/subscription_vault/src/metadata.rs:205-247 | Appending field by field builds that message |
| Oracle.RunKeepsLastTen | contracts/subscription_vault/src/oracle.rs:147-184 | After every run the ring holds the last ten accepted prices in order |
| Oracle.LoadIsLast | contracts/subscription_vault/src/oracle.rs:147-171 | Loading the ring gives the last ten prices of any history it holds |
| Oracle.MedianIsMiddle | contracts/subscription_vault/src/oracle.rs:186-214 | The median is the upper middle of the prices in order |
| Oracle.AcceptedIff | contracts/subscription_vault/src/oracle.rs:221-269 | A price is accepted if and only if the distance to the median times 10000 fits and is below (threshold + 1) * median, and equals the median in strict mode |
| Oracle.StrictModeFreezesPrice | contracts/subscription_vault/src/oracle.rs:221-269 | With threshold 0 every price ever recorded equals the first |
| Oracle.PriceHistory.RecordPrice | contracts/subscription_vault/src/oracle.rs:174-184 | The head moves around the ring |
| Oracle.PriceHistory.LoadPrices | contracts/subscription_vault/src/oracle.rs:148-171 | The loading loop reads oldest to newest |
| Oracle.PriceHistory.CheckDeviationAndRecord | contracts/subscription_vault/src/oracle.rs:221-269 | The breaker records an accepted price and leaves everything else alone |
| Sorting.SelectionSort | contracts/subscription_vault/src/oracle.rs:194-214 | The in-place selection sort produces the sorted rearrangement |
| Sorting.SortedIsUnique | contracts/subscription_vault/src/oracle.rs:194-214 | There is only one sorted rearrangement |
| Twap.MedianIsRobust | contracts/subscription_vault/src/oracle_adapter.rs:159-170 | If more than half of the usable prices lie in a range, so does the median |
| Twap.MedianIsMiddle | contracts/subscription_vault/src/oracle_adapter.rs:159-170 | The median is the middle of the prices in order, or the floor of the average of the two in the middle |
| Twap.QuoteFollowsMajority | contracts/subscription_vault/src/oracle_adapter.rs:108-170 | In terms of the observations: when a quote exists, and that a majority of the fresh positive ones in a range holds it there |
| Twap.QuoteIsRobust | contracts/subscription_vault/src/oracle_adapter.rs:127-170 | And then the quote exists and lies in the range |
| Twap.AverageIsFloor | contracts/subscription_vault/src/oracle_adapter.rs:159-170 | The average of two middle values is exactly floor((lo + hi) / 2), and nothing leaves u128 |
| Twap.MajorityIff | contracts/subscription_vault/src/oracle_adapter.rs:159-170 | For lists of any length with any number of prices in a range, the median is certain to lie in the range if and only if they are more than half |
| Twap.ComputeQuote | contracts/subscription_vault/src/oracle_adapter.rs:108-149 | Filtering and taking the median, on every path |
| Pages.FollowListsAll | contracts/subscription_vault/src/queries.rs:694-757 | Following the cursors lists every recoverable subscription once, despite page size and scan budget |
| Pages.RecoverableInIs | contracts/subscription_vault/src/queries.rs:694-757 | And the list is ascending and holds exactly the cancelled subscriptions with a balance |
| Pages.PageIsFull | contracts/subscription_vault/src/queries.rs:694-757 | A page of recoverable subscriptions that is not the last is as long as asked for, or a thousand ids were looked at |
| Pages.MerchantPageIsFull | contracts/subscription_vault/src/queries.rs:321-362 | A merchant page is as long as asked for while entries are left |
| Pages.MerchantPagesListPrefix | contracts/subscription_vault/src/queries.rs:321-362 | Merchant pages give the first min(total, 1000) entries in the chosen order |
| Pages.PrepaidPagesSum | contracts/subscription_vault/src/queries.rs:970-1026 | Prepaid pages add up to the full scan exactly when the last page ends within u32, and the walk traps otherwise |
| Pages.PagesSumToLiability | contracts/subscription_vault/src/queries.rs:970-1026 | And to the prepaid part of what the contract owes, in every state satisfying the invariant, under the same condition |
| Pages.WalkEndsIff | contracts/subscription_vault/src/queries.rs:970-1010 | Following the cursors of prepaid queries comes to an end if and only if the scan limit is positive and the last page ends within u32, and then after at most one query per id |
| Pages.RecoverablePage | contracts/subscription_vault/src/queries.rs:694-757 | The scan loop returns the specified page |
| Pages.ReadMerchantPage | contracts/subscription_vault/src/queries.rs:224-249 | The page loop reads the index in either direction |
| Pages.QueryPrepaid | contracts/subscription_vault/src/queries.rs:970-1010 | The partial total of a page |
| Pages.ComputeTotalPrepaid | contracts/subscription_vault/src/queries.rs:1014-1026 | The full scan |

## Left out

- The anti-frontrunning salt of `charge_one`: it copies a four-byte ledger sequence into an eight-byte slice; interval and period guards carry the property it is meant for.
- Sub-account labels and fee-token conversion: the first is not keyed by token and the second crosses tokens, so neither is conserved per token.
- `do_grace_buyout`: it writes the prepaid balance and a merchant credit without a token transfer, so conservation does not extend to it.
- `TotalAccounted` and `recover_stranded_funds`: the compiled accounting module is a stub.
- Authentication, events, storage lifetimes, nonces, hashing and signatures: host matters. A hash stands for an injective function, the caller of a call is a parameter, and a failed entrypoint restores the state.
- Oracle pricing inside a charge: the charge amount is the subscription's amount; the oracle is modelled as a component of its own. Storage of its configuration is not modelled.
- Credit limits, creation rate limits, plan templates, merchant subscription limits, blocklist and tag administration, snapshot restore, schema migration, transfers, one-off charges, delegated payers, partial refunds and emergency withdrawals: wide plumbing or easy members.
- `configure_usage_limits`, `update_subscription_cap` with the cap defaults, `set_subscription_expiry_ledger`, `update_merchant_config` and the queued treasury change: terms are those set at creation, a merchant's settings those of the two modelled calls, and the treasury part of the configuration step.
- Direct operations other than the rotation that ask for the approval of a proposal (adding and removing accepted tokens, protocol fee, emergency stop and its release, recovery of stranded funds): they find and fail to use up proposal 0 in the same way and are not counted in Governance.
- Configuration setters: represented by one step that may set any configuration with admissible fee rates and leaves coupons alone, which is more than the setters can do.
- Pausing, resuming, expiring and archiving: represented by one step that makes any permitted status change without money.
- Evidence hashes of disputes and the reason text of a cancelled proposal: carried along and never read.
- The library sort of the median adapter: replaced by the selection sort; both yield the one sorted rearrangement.
- Deposit, creation, scheduled and immediate cancellation and subscriber withdrawal: modelled on values only, without the step-by-step object, since they are not part of the charge engine.
- Removal of a cancelled id from the token and subscriber indices: only the merchant's list is kept.
- Metadata key lists and their limits: only the signed message is modelled.
- VaultRuns.RunInv: assumes the run opens no more disputes than there are ids left, because the counter wraps around to 0 and then reuses ids (`VaultTotals.ReusedIdForgetsEscrow`).
- StatementLog.RunRefines: assumes non-negative amounts and a history that fits u32 numbers and an i128 sum; past the last number appending fails, and `AccountLaws.ExhaustedLogFallsBehind` says what a charge then does.
- IdemRing.RunRefines: assumes the time to live never grows; `IdemRing.LongerTtlForgets` shows why.
- UsageMeter.SpanHoldsTwiceMax: assumes the clock is below its largest value; `UsageMeter.RateEnforcedIff` shows that this is exact.
- VaultBatches.RunSolvent: fitting batches are enough but not necessary, since a contract that holds more than it owes can absorb what a batch leaves behind; the exact condition is stated for conservation.
- ChargeSuccess.PaymentSucceedsIff: assumes that what is owed fits in i128, as it does wherever the tokens held cover it.
- ChargeSuccess.UsageSucceedsIff: assumes the same.
- CallEffects.CreationStoresTerms: the limits listed above (credit, creation rate, merchant and subscriber counts, default caps) are not among its terms.
- UsageMeter.NextAcceptedIff: for caps below the largest i128; `UsageMeter.CapEnforcedIff` says what happens there.
- Snapshots.StoredIsSummary: for writes in period order, which is the order a clock that never goes back gives.
- VaultGrace.RunNeverPauses: covers charges and the passing of time; pausing by hand is another call.
- UsageMeter.CapEnforcedIff: for a cap without rate or burst limits, which may stop the calls that would exceed it; `UsageMeter.RateEnforcedIff` likewise for a rate limit alone.
- Governance.EffectAtMostOnce: counts executions and direct rotations only, not the other direct operations approved on proposal 0.
- VaultUsage.UsageBounds: the limits are those set at creation; reconfiguring them during a run is not modelled.
- VaultTraces.KeySurvives: assumes the configured time to live is not changed during the run; a longer one forgets keys, a shorter one ends the protection early.
