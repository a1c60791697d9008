# Satoshi Note: a verified model of the ledger, the refund worker, the payment semaphore and LNURL encoding

Satoshi Note keeps voucher balances in a database in front of one Lightning wallet. Vouchers are
funded by invoices, move value to each other by transfers, are redeemed over LNURL-withdraw, and
fall back to refund codes on expiry or on a schedule. The code promises one identity: the wallet
covers the books, that is, voucher balances, unpaid refunds, pending redeems and what is left of
the operator's income.

## How the model is built

- `Schema`, `Ledger`: the rows, and every database transaction as a function from tables to tables
  (`None` is a rollback). `Database` is the same code in its own form: a class with one field per
  table, statements that change rows, loops over rows and over the split map in any order,
  transactions that restore a snapshot. Each method is proved to have exactly the effect of its
  `Ledger` function. `Startup` is the pass over pending redeems.
- `Fees`, `Split`, `GoInt`: the fee and split arithmetic with Go's division, which truncates toward zero.
- `Service`: everything at once as a state machine. A step is one transaction or one SDK call; requests
  in progress, the refund worker and the wallet are part of the state; a crash may fall between any two steps.
  `LedgerEffects` and `ServiceSteps` give the exact effect of each transaction and each step, `Frames` what each
  kind of step leaves alone.
- `Solvency`, `OnceOnly`, `SingleUseVouchers`, `RegularRuns`: theorems over whole runs of that machine.
  `ScheduleChange` and `Mishaps` are concrete runs that go wrong, `Crediting` says when an invoice is credited,
  `Uncredited` when it never will be.
- `Movements`: what each transaction does to every single voucher and row: who pays, who receives, what is charged,
  when a voucher lapses.
- `Statement`, `Operator`: the aggregation with `finalize`, and the operator's withdraw.
- `RefundClock`: due queries, schedule anchor, the worker's alarm.
- `PaymentSemaphore`: the semaphore as atomic actions of any number of threads.
- `BitGroups`, `Bech32`, `Lnurl`: bit regrouping, the checksum of BIP-173 (section "Bech32",
  subsection "Checksum"), the LNURL text of LUD-01. `Generator` ties the register to polynomials over GF(32),
  `Published` to a published word.

The main quantity is `Balance` = wallet + sent but not booked + lost - received but not booked - `Explained`, where
`Explained` gives every row one value. A payment counts as sent but not booked only under a row that can still be
booked: an unpaid refund, a redeem or withdraw with a request in progress or a stored payment id
(`Solvency.RedeemCanBeBooked`, `Solvency.WithdrawCanBeBooked`). Under a row nobody will come back to it is lost and has
a term of its own (`Solvency.LostExactly`). Under a failed redeem there is none (`Solvency.FailedNeverPaid`).

`Solvency.RunExact` says that over any run, with any mix of fee schedules and crashes anywhere, `Balance` moves by
exactly the sum of the steps' stated rises. `Solvency.MixedSolvent` says that it never falls if abandoned refunds are
repriced fairly and every booking covers its fee; `Solvency.Solvent` gives the exact surpluses under one schedule.
`Solvency.QuietBooksCovered` drops the corrections: with nothing under way, and no crash between a send and storing
its payment id, the wallet covers the books outright.

## What was found

- A fee schedule changed between a refund payment and its booking makes the books exceed the wallet, in two ways:
  the row is repriced below what left (`ScheduleChange.ScheduleChangeLosesMoney`), or it is not payable any more and is
  retained as dust (`ScheduleChange.RetainedAfterPayment`). Exactly when: `Solvency.RepriceExactly`. A guard the
  worker could check before repricing: `Solvency.CheckableFair`.
- A crash between a send and storing its payment id loses the money for the books (exactly when:
  `Solvency.LostExactly`). Startup marks such a withdraw failed although its payment left (`Mishaps.WithdrawLost`). It
  leaves such a redeem pending with a log line, and no later step confirms it or gives its balance back; the same
  happens to an unpaid one that dies before its payment (exactly when: `Solvency.StrandedExactly`; for good:
  `Solvency.StrandedForever`; a run: `Mishaps.RedeemStranded`).
- Startup recovery books fee 0 for a payment that went over Spark, so the fee is lost on the books, for redeems and
  for withdraws (exactly how much: `Solvency.RecoveryGap`, `Solvency.WithdrawRecoveryGap`; runs:
  `Mishaps.RedeemFeeLost`, `Mishaps.WithdrawFeeLost`). The code comments call it best effort.
- A refund answered with its earlier Spark payment is booked at the fee quoted now (exactly when it loses, under any
  schedules: `Solvency.RefundAnswerGap`, under one: `Solvency.RefundAnswerSteady`; a run: `Mishaps.RefundFeeLost`).
- A paid invoice whose voucher is no longer live, or that credits an immediate voucher without refund codes, stays
  uncredited (exactly when: `Crediting.CreditedExactly`). The catch-up at startup returns that as an error, on which the
  process exits (`main.go:50-54`), and it does so at every restart (`Uncredited.StuckAtStartup`). Past an absolute
  expiry nothing but an edit can help (`Uncredited.NeverCredited`); under a relative one a restored redeem can revive
  the voucher.
- A pass over the regular refunds reads its clock before the due query reads another. A voucher that falls due in
  between is refunded with a mark that does not advance: the old one, or one interval before the first time. It stays
  due and adds nothing to the alarm (exactly when: `RefundClock.AnchorAdvances`; what the mark is:
  `RefundClock.EarlyMark`; a run: `Mishaps.MarkedEarly`). The next pass that finds it due on its own clock puts it
  back (`RefundClock.WalkAdvances`).
- An operator withdraw to a bolt11 invoice may exceed the withdrawable equity by less than one sat, because
  the amount is checked rounded and sent unrounded (`Operator.Bolt11Overshoot`; what it costs and exactly when:
  `Operator.Bolt11WithdrawSafe`).
- The alarm of the refund worker reads the clock after the pass it follows. A voucher that falls due in between adds
  nothing to the alarm, so that only some other voucher or the hourly wake-up brings the worker back
  (exactly when: `RefundClock.DueBetweenScanAndAlarm`; a voucher slept past: `RefundClock.SleptPast`).
- A refund can park in the semaphore on a channel nobody will close (`PaymentSemaphore.LostWakeup`; exactly
  when: `PaymentSemaphore.ParkFate`; all stuck states: `PaymentSemaphore.StuckExactly`).
- A withdraw that ignores its acquire timeout pays beside the slot's holder
  (`PaymentSemaphore.TimeoutBreaksExclusion`; exactly when: `PaymentSemaphore.ExclusionExactly`), and the books of the
  semaphore never recover (`PaymentSemaphore.IntrudersStay`).

## Assumptions

- The SDK is honest: it pays the amount asked for, reports a Lightning fee exactly, a Spark transfer costs its
  quote, an error means nothing left the wallet, and a key seen before returns the original payment.
- A received payment has an amount; fee estimates and quotes are not negative; invoices to redeem have a positive amount.
- Basis points and minimum fees are not negative (the configuration does not check this).
- One fund row per invoice. Amounts and times fit 64 bits. Time has a resolution of one second.
- UUIDs made from different names are different; the names are proved different (`KeyNames.KeyNamesDistinct`).
- Taking the low bits of a large accumulator (`big.Int.Int64` on a value that does not fit) gives its low word.
- "Mark the redeem failed" and "restore the balance" are one step.
- Between reading a due voucher and marking it, nobody edits its schedule; its balance and activity may change. The
  clock of the due query is not behind the one the pass read before it (`RegularRuns.MarkOf`).

## Model

| member | source | states |
|---|---|---|
| Solvency.RunExact | db.go:1397-1432 | over any run, any mix of fee schedules and crashes anywhere, wallet minus books corrected for what is in transit under rows that can still be booked and for what is lost moves by exactly the sum of the rises of its steps, and the invariant (no negative balance, one payment per key, no money gone under a failed redeem, ...) holds at the end |
| ServiceSteps.StepExact | handlers.go:798-922 | each of the 37 steps (fund, transfer, redeem, refund, withdraw, startup, crash, SDK) keeps the invariant and changes the corrected balance by exactly its stated rise |
| Solvency.StepSurplus | handlers.go:1013-1044 | under one fee schedule a step loses money if and only if its booking does not cover the fee that was paid; otherwise its rise is exactly one of: foreign money received, skipped sub-minimum splits, overpaid invoices, payments returned after booking, a refund fee booked above the one paid |
| Solvency.StepSound | refund.go:478-497 | under any schedule a step that prices fairly and covers its fee does not lower the corrected balance, and keeps every unpaid row whose payment left worth at least what left |
| Solvency.Solvent | db.go:1423-1432 | whole-run solvency under one schedule: the corrected balance at the end is the one at the start plus the surpluses, so never less |
| Solvency.MixedSolvent | db.go:1423-1432 | over runs with any mix of schedules, fair repricing and covered fees keep the corrected balance from falling |
| Solvency.BooksStayCovered | db.go:1397-1432 | if the corrected balance is not negative at the start, then at every point of such a run the wallet covers the books and the receipts to come up to payments in transit under rows that can still be booked and money lost in a crash |
| Solvency.QuietBooksCovered | db.go:1397-1432 | when nothing is under way and no crash fell between a send and storing its payment id, the wallet covers the books and the receipts to come with no correction at all |
| Solvency.LostExactly | start-up.go:40-48 | for every step and every redeem or withdraw: money is lost under it afterwards if and only if it was and did not come back in this step, or the step is a crash between its send and storing its payment id; so nothing ever books it |
| Solvency.NothingLost | start-up.go:204-208 | a run without such a crash loses nothing |
| Solvency.StrandedExactly | start-up.go:40-48 | a redeem, paid or not, is pending without a stored id and without a request after a step if and only if it was before, and then its row is untouched, or the step is a crash while its request had stored no id |
| Solvency.StrandedForever | start-up.go:40-48 | over any run such a redeem stays as it is: never confirmed, never given back |
| Solvency.RedeemCanBeBooked | start-up.go:50-67 | any other pending redeem that was paid is confirmed at the end of some run |
| Solvency.WithdrawCanBeBooked | start-up.go:210-227 | the same for a pending withdraw with a request or a stored id |
| Solvency.FailedNeverPaid | handlers.go:889-897 | in every reachable state nothing is gone from the wallet under a redeem that failed and whose balance was restored |
| Solvency.FreshStart | db.go:214-349 | an empty database with any wallet is a state all these theorems apply to |
| Solvency.StepSteady | refund.go:478-497 | under one schedule every step keeps unpaid refund rows priced by it, and a row whose payment left still holds the amount that left |
| Service.FeeIsTrue | breez.go:104-124 | for a payment just made the fee booked is the fee paid: the quote over Spark, what was reported over Lightning |
| Solvency.RecoveryGap | start-up.go:57-67 | in any state, under any schedules, resolving a completed redeem at startup loses exactly the true fee of a payment over Spark, and nothing over Lightning |
| Solvency.WithdrawRecoveryGap | start-up.go:219-227 | the same for an operator withdraw |
| Solvency.RefundAnswerGap | refund.go:574-603 | under any schedules a refund send followed by its booking loses money if and only if the payment that answers it did not come back and cost more, amount and fee, than the row holds now plus the fee booked |
| Solvency.RefundAnswerSteady | refund.go:574-603 | under one schedule that is so if and only if the answer is a Spark payment, not returned, whose fee is above the one quoted now |
| Solvency.RefundBookingGap | refund.go:601-603 | booking a refund at the fee that was paid loses money if and only if its row was repriced below what left under its key |
| Solvency.RepriceExactly | refund.go:478-497 | repricing an abandoned row keeps the balance now if and only if the row is still payable or nothing left under its key; it keeps the balance and the booking to come safe if and only if nothing left or the row is payable with at least the amount that left |
| Solvency.CheckableFair | refund.go:478-497 | repricing is safe if the row stores no key or its amount does not shrink |
| ScheduleChange.ScheduleChangeLosesMoney | refund.go:478-497 | a concrete run across a schedule change that starts balanced and ends 1000 msat short |
| ScheduleChange.RetainedAfterPayment | refund.go:482-485 | a concrete run that starts balanced and ends 5000 msat short: the paid row is retained as dust under a higher minimum fee |
| Mishaps.WithdrawLost | start-up.go:204-208 | from an empty database: a withdraw leaves, the process dies, startup marks it failed; of 10000 in the wallet 6000 are lost |
| Mishaps.WithdrawFeeLost | start-up.go:219-227 | from an empty database: a withdraw over Spark confirmed at startup leaves the balance 1000 lower |
| Mishaps.RedeemStranded | start-up.go:40-48 | from an empty database: a funded voucher is redeemed, the process dies after the send, 6000 are lost |
| Mishaps.RedeemFeeLost | start-up.go:57-67 | from an empty database: a redeem over Spark confirmed at startup takes the balance from 0 to -1000 |
| Mishaps.RefundFeeLost | refund.go:574-603 | from a balanced start: a refund paid over Spark, forgotten in a crash and answered again takes the balance from 0 to -1000 |
| Mishaps.MarkedEarly | refund.go:283-309 | from an empty database: a pass with clock 1000 and query clock 1001 marks a voucher first due at 1001 with 901; it is off the lattice, still due, and the worker sleeps an hour |
| LedgerEffects.FanOutConserves | refund.go:229-271 | for any balance, codes and map order: inserted rows plus skipped splits are the balance, there are rows if and only if some split is above the minimum, and each row pays one split as a whole-sat amount of at least 1000 plus fee plus dust below 1000 |
| LedgerEffects.FanOutExact | refund.go:342-357 | the value of the rows plus the skipped splits is the sum of the splits walked |
| LedgerEffects.ExpireEffect | refund.go:205-275 | expiry of one voucher lowers the books by exactly the skipped splits and appends only fresh, correctly priced rows |
| Movements.ExpireExactly | refund.go:205-275 | expiry leaves its voucher empty and inactive and touches no other; the balance becomes one row for each payable split, paying it, or one row of retained dust when there is none |
| LedgerEffects.RegularEffect | refund.go:301-388 | the same for a regular refund; below the minimum only the schedule moves |
| Movements.RegularExactly | refund.go:301-388 | a regular refund keeps its voucher active, moves its schedule in any case, and empties it exactly when some split is payable, into one row for each of these; no other voucher is touched |
| Movements.RowCharged | refund.go:229-242 | the reserved fee of a refund row, fresh or repriced, is the redeem fee of its gross |
| LedgerEffects.ImmediateAllEffect | refund.go:86-165 | the same for all credited vouchers that refund at once |
| LedgerEffects.ConfirmFundEffect | handlers.go:962-1007 | a confirmation raises the books by what it books minus skipped splits, or changes nothing |
| Movements.FundPays | handlers.go:1013-1044 | a confirmed invoice credits exactly the live vouchers it is for, each its part, from which an immediate one is refunded at once over its own codes; no other row is touched and every new refund row pays a split of such a voucher |
| Movements.FundRow | handlers.go:962-1007 | the confirmed row records as fee what the invoice was short of, or keeps the estimate when more arrived; parts and dust add up to what is credited, batch parts are whole sats |
| Crediting.CreditedExactly | handlers.go:962-1007 | a pending paid invoice is confirmed if and only if its voucher is live (some voucher of its batch is), no balance would go negative, and every immediate voucher it credits has refund codes; otherwise nothing changes |
| Movements.CreditedUntilDue | db.go:617-632 | a single invoice is credited if and only if its voucher is active, was not due for expiry a second ago, and can take the money |
| Movements.UsableUntilDue | db.go:593-602 | for either expiry rule the lookups refuse a voucher exactly when it is inactive or the expiry query had it due a second ago |
| Movements.LiveUntilDue | db.go:705-754 | the batch lookup finds exactly the active vouchers of the batch that were not due for expiry a second ago |
| Movements.FundRenews | db.go:499-524 | a credited invoice renews its vouchers: one with relative expiry lapses exactly after its refund time from then on, one with absolute expiry when it would have anyway |
| Movements.RegularUntilExpiry | db.go:834-860 | a regular refund is due from its scheduled time on, exactly as long as the voucher is active and not due for expiry; a voucher due is one the lookups find |
| Crediting.NotOverpaid | handlers.go:1013-1044 | on non-negative balances an invoice that was not overpaid fails only for want of a live voucher or of refund codes |
| Uncredited.StuckAtStartup | main.go:50-54 | over any number of restarts a paid pending invoice with no usable voucher stays pending, and its confirmation fails at every later time |
| Uncredited.NeverCredited | handlers.go:1013-1044 | over any run that does not edit its vouchers, a paid pending invoice whose vouchers are past an absolute expiry is never credited |
| LedgerEffects.BookedBounds | breez.go:63-78 | what is booked never exceeds what arrived and equals it unless the invoice was overpaid |
| LedgerEffects.ShareExact | handlers.go:1030-1033 | every voucher of a batch gets the same whole-sat share, shares plus dust are the total, dust is below one sat per voucher (with the mirrored bounds for a negative net) |
| LedgerEffects.TransferEffect | handlers.go:583-649 | a committed transfer leaves balances plus fees plus dust unchanged, even when the fee exceeds the amount, and records a fingerprint only if it was new |
| Movements.TransferPays | handlers.go:583-625 | the source of a committed transfer pays the amount, every voucher the destination names (single or distinct batch) gets the net or the same whole-sat share, no other row is touched; the recorded fee is the internal rate's or the internal minimum, and net is the rest |
| Movements.TransferExactly | handlers.go:491-608 | which transfers commit: exactly those from 1000 msat to the funding limit per voucher, within the balance and limit read and the balance found, from no single-use voucher and not to itself, with a new fingerprint if asked for, when every voucher named exists and does not go negative |
| LedgerEffects.BeginRedeemEffect | handlers.go:929-960 | a redeem moves amount and fee from the balance to a pending row and leaves the books unchanged and no balance negative |
| Movements.RedeemTakes | handlers.go:929-960 | a redeem takes amount and fee from its own voucher only and appends one pending row; the fee is the redeem rate's on the balance found or the redeem minimum; single use deactivates |
| LedgerEffects.RedeemAccepted | handlers.go:929-960 | on an active voucher the redeem transaction commits exactly the amounts up to the offer without a per-redeem limit; the callback's test is that and the limit |
| LedgerEffects.FailRedeemEffect | handlers.go:889-897 | failing a pending redeem leaves the books unchanged and no balance negative |
| LedgerEffects.RedeemUndone | handlers.go:889-897 | a redeem that begins and then fails leaves every voucher as it was, active and with its old balance, except for the change time of its own |
| LedgerEffects.RepriceEffect | refund.go:478-497 | repricing conserves amount plus fee plus dust in both branches; under an unchanged schedule it changes nothing but the retry count, if and only if the row was priced by that schedule |
| Split.SplitBalance | refund.go:64-82 | the loop returns the split in which a code listed twice collects both parts |
| Split.SplitExact | refund.go:64-82 | splits of a non-negative balance are non-negative and add up to it |
| Split.LastEntry | refund.go:73-77 | the last entry gets its proportional floor plus less than one msat per code |
| Split.SplitFair | refund.go:64-82 | every code collects its weight's proportion of the balance up to rounding bounded by the number of codes |
| Split.SplitFloor | refund.go:73-79 | a code listed once, and not last, gets exactly its proportion rounded down |
| Fees.FeeBounds | helpers.go:46-68 | the fee covers its basis points on the net, is at least the whole-sat minimum, and overshoots the ideal fee by less than a sat unless the minimum applies |
| Fees.RedeemCharge | helpers.go:46-54 | redeems, offers and refunds are charged the smallest fee that leaves whole sats and covers the redeem rate, or the redeem minimum in whole sats if that is more |
| Fees.InternalCharge | helpers.go:60-68 | transfers are charged the same way at the internal rate and minimum |
| Fees.ChargedOnce | helpers.go:46-54 | a rate, a minimum and an amount leave no choice of the fee |
| Fees.PayoutMonotone | helpers.go:46-54 | a bigger balance never pays out less |
| Fees.PriceConserves | refund.go:229-242 | a priced row is whole sats of at least 1000 with dust below 1000, keeps its gross, and prices to itself again |
| Fees.PriceExactly | refund.go:229-242 | a split is dropped exactly when less than 1000 msat are left after the redeem fee |
| Fees.OfferAgreement | handlers.go:729-744 | the status never shows more than the offer, and the callback accepts exactly the amounts up to the advertised maximum |
| Fees.OfferExactly | handlers.go:729-735 | the offer is the balance less the redeem fee, capped by the limit, and is made exactly when one sat could be redeemed; the status shows the offer of a voucher holding no more than the limit, if positive |
| OnceOnly.EveryRowPaidAtMostOnce | refund.go:554-603 | with crashes, requeueing, failures, abandonment, repricing and schedule changes, no refund, redeem or withdraw row causes two outflows |
| OnceOnly.RefundKeyStoredFirst | refund.go:554-572 | when a refund payment leaves, its row is unpaid, in flight, and already stores the key used |
| OnceOnly.FrozenStep | db.go:971-976 | no step touches or pays for a paid row or a keyless in-flight row |
| OnceOnly.FrozenForever | db.go:1042-1063 | such a row is the same at the end of any run |
| OnceOnly.CreditedOnce | handlers.go:969-981 | a confirmed fund row stays confirmed, seeing its payment again changes nothing, and only its own fund step confirms a row, which was pending |
| OnceOnly.CreditedAtMostOnce | handlers.go:969-981 | no two steps of a run both confirm the same fund row |
| OnceOnly.CreditedWhatArrived | breez.go:63-83 | the one confirmation raises the books by at most what arrived, exactly that unless overpaid, less only skipped splits |
| OnceOnly.ClaimedAtMostOnce | handlers.go:586-647 | in any run at most one committed transfer per voucher and fingerprint, and at most one redeem per k1 |
| OnceOnly.SessionAdmits | db.go:376-449 | a k1 admits one redeem, of the voucher it was opened for, within 1800 seconds |
| SingleUseVouchers.SingleUseStep | db.go:499-534 | for a single-use voucher nobody edits, pending or confirmed redeems plus one if active stay at most one under every step |
| SingleUseVouchers.CreatedUse | db.go:499-534 | a new voucher starts with no redeem of its own, so creation establishes it |
| SingleUseVouchers.SingleUse | handlers.go:937-959 | the same over whole runs for vouchers there at the start or created during the run, across failures, restores and startup recovery |
| KeyNames.KeyNamesDistinct | refund.go:562-565 | names fed to the UUID differ for different rows and kinds |
| RegularRuns.RegularStep | refund.go:283-309 | a regular pass that read one clock and queried on a later one moves its voucher strictly forward on its lattice if and only if the voucher was due already on the first, and then it is not due before one interval passed, even if it was redeemed or drained since it was read |
| RegularRuns.RunOnLattice | db.go:834-895 | over runs in which every pass found its voucher due on its first clock too, the last regular refund of every voucher is unset or first + k * interval with k >= 0 |
| RegularRuns.RunOnGrid | db.go:834-895 | over all runs, whatever falls between the two clocks, it is unset or a whole number of intervals away from the first time |
| RefundClock.NextRegularRefundAnchor | refund.go:171-180 | the loop ends for any positive interval: at the last scheduled time not after now, or one interval before the start if the start is after now |
| RefundClock.AnchorAdvances | refund.go:283-309 | for a voucher the query found due, the mark is later than the last one and on the lattice if and only if the voucher was due on the pass's own clock, and then it is not due before one interval passed |
| RefundClock.WalkAdvances | refund.go:171-180 | the mark of a voucher due on the clock it is computed from is a scheduled time, also after an early mark had set it one interval before the first |
| RefundClock.EarlyMark | refund.go:283-309 | if it was not due yet on the pass's clock, the mark is the old one, or one interval before the first time; the voucher stays due (with a negative mark it is never due again) and adds no scheduled refund to the alarm |
| RefundClock.NeverOversleeps | db.go:897-931 | a voucher not due now that becomes due at t has the alarm set no later than t |
| RefundClock.AlarmIsTight | db.go:897-931 | the alarm is the moment some voucher with a balance expires, or the next scheduled refund of some voucher, which is then due for the first time unless it expired |
| RefundClock.AlarmContribution | db.go:897-931 | for any table, what one voucher adds to the alarm is its expiry and its next scheduled refund if these are after the clock the alarm reads, and otherwise nothing |
| RefundClock.DueBetweenScanAndAlarm | refund.go:34-59 | in any table a voucher first due at d, by expiry or schedule, is waited for if and only if d is still ahead when the alarm is read; else that reason adds nothing, and without a second reason ahead the alarm is that of the table without the voucher |
| RefundClock.SleptPast | refund.go:34-59 | a voucher that expires at the moment the alarm is read is slept past for an hour in which it is due |
| Statement.LedgerStatement.Finalize | db.go:1397-1432 | the derived fields equal the row-by-row books, and balanced says exactly that the wallet covers them |
| Statement.BucketsMakeBooks | db.go:1397-1432 | all buckets together are one value per row over all tables |
| Statement.OneBucket | db.go:1486-1504 | every refund row is in exactly one of pending, in flight, abandoned, paid |
| Statement.RefundMoves | db.go:1042-1083 | the bucket each update of an unpaid refund row moves it to; marking and failing leave the books alone, paying takes off the amount and the actual fee |
| Statement.AttemptMoves | db.go:1486-1504 | an attempt moves amount and reserved fee of its row, each for itself, from the pending to the in-flight bucket, a payment to the paid one |
| Statement.RedeemMoves | db.go:413-419 | confirming a redeem takes amount and actual fee off the books, and net and actual fee make the reserved one |
| Statement.WithdrawMoves | admin.go:518-539 | giving up a withdraw leaves the books alone, confirming one takes amount and fee out of equity and nothing from customers |
| Statement.DepositMoves | admin.go:518-531 | a deposit that arrives counts as deposit with what arrived, and is no part of the books |
| Statement.VoucherBuckets | db.go:1465-1483 | active and inactive balances are the sum of all balances except overdrawn ones |
| Statement.BucketMoves | db.go:1465-1489 | deactivating a voucher moves just its balance from the active to the inactive bucket, a change of an active balance shows in the active one alone |
| Operator.ReadCap | admin.go:221-236 | the budget is never negative, and an amount fits it if and only if taking it out leaves the equity non-negative and the customers covered |
| Operator.ResolveExact | admin.go:284-297 | for any request, also a negative one, an accepted amount is whole sats and fits the cap with its fee, a blank request leaves less than a sat, and acceptance is characterized exactly |
| Operator.BlankWithdrawTakesAll | admin.go:280-297 | a blank request takes out what one sat more would not be affordable beyond, and is refused only when not even one sat is |
| Operator.WithdrawSafe | admin.go:366-423 | after a withdraw within the cap customers stay covered and equity stays non-negative |
| Operator.LnurlWithdrawSafe | admin.go:366-423 | the same from request to booking on the LNURL path when the fee is at most the final quote |
| Operator.LnurlWithdrawComplete | admin.go:344-390 | a whole-sat request goes through if and only if it is affordable with the estimate and with the final quote; nothing that fits is refused |
| Operator.Bolt11WithdrawComplete | admin.go:299-329 | the same for an invoice of whole sats, when the amount asked for is blank or the invoice's |
| Operator.Bolt11Overshoot | admin.go:319-329 | an accepted bolt11 amount exceeds the cap with its fee by less than a sat, and not at all when the invoice is whole sats |
| Operator.Bolt11OvershootHappens | admin.go:319-329 | an accepted invoice of 1999 msat against a cap of 1000 |
| Operator.Bolt11WithdrawSafe | admin.go:319-329 | after it equity is above minus one sat and customers miss less than a sat; nothing is missing if and only if what was sent and paid fits the cap |
| Database.Db.UpdateVoucherBalance | db.go:499-524 | guarded change of one balance; taking from a single-use voucher deactivates it; refused without effect |
| Database.Db.VouchersByBatch | db.go:705-754 | the loop returns exactly the active, unexpired vouchers of the batch in order |
| Database.Db.CreditEach | handlers.go:1035-1041 | credits every listed voucher or reports failure |
| Database.Db.UpdateFundBalance | handlers.go:1013-1044 | single or batch credit with share, dust and credited ids |
| Database.Db.InsertRefunds | refund.go:229-246 | the loop over the split map, in any order, appends the rows of that order |
| Database.Db.ProcessExpired | refund.go:205-275 | the expiry transaction is `Ledger.ExpireVoucher` for the order in which the map was walked |
| Database.Db.ProcessRegular | refund.go:301-388 | the regular pass over one voucher is `Ledger.RegularVoucher` for that order; only the schedule moves when a balance of zero had been read |
| Database.Db.ImmediateOne | refund.go:125-163 | one voucher of the immediate refunds |
| Database.Db.InsertImmediateRefunds | refund.go:86-165 | deduplication, selection and refunding in three loops equal one walk over the distinct ids; a missing voucher or code fails the whole |
| Database.Db.ConfirmFund | handlers.go:962-1007 | the fund transaction with its rollbacks is `Ledger.ConfirmFund` |
| Database.Db.HandleTransfer | handlers.go:491-654 | the transfer handler commits `Ledger.Transfer` or leaves all tables unchanged |
| Database.Db.InsertRedeemAndBalance | handlers.go:929-960 | the redeem transaction commits `Ledger.BeginRedeem` or leaves all tables unchanged |
| Database.Db.UpdateRedeemTx | db.go:413-419 | changes the status and fees of one row only |
| Database.Db.PaymentFailed | handlers.go:889-897 | the row fails and the voucher gets the deduction back |
| Database.Db.MarkRedeemSessionUsed | db.go:431-449 | succeeds only for an unused, unexpired session of this voucher |
| Database.Db.ResetKeyedInFlightRefunds | db.go:1054-1063 | exactly the unpaid in-flight rows with a key go back to pending |
| Database.Db.RepriceAbandonedRefund | refund.go:478-497 | reprices or retains one abandoned row, any other row is left alone |
| Database.Db.RequeueAbandonedRefunds | refund.go:464-476 | the loop reprices exactly the abandoned rows |
| Database.Db.MarkOperatorTxConfirmed | admin.go:518-531 | confirms only a pending row |
| Startup.ResolvePendingRedeems | start-up.go:23-85 | the loop at startup has the effect of resolving the rows one by one |
| Startup.RowsLeft | start-up.go:40-83 | it ends exactly the pending rows with a stored id whose payment has ended, the same way the payment did |
| Startup.WithdrawLeft | start-up.go:196-240 | a pending withdraw without a stored id fails, one whose payment ended ends the same way, any other is left alone, and nothing else changes |
| Startup.PassIsRun | start-up.go:23-85 | the pass is a run of single-row steps of the service, so the run theorems apply to it |
| PaymentSemaphore.StepKeeps | payment_mutex.go:31-88 | every atomic action keeps: holders = slot + intruders, counter = waiting withdrawals, closings + owners of a channel = 1 if it was replaced else 0 |
| PaymentSemaphore.RunKeeps | payment_mutex.go:31-88 | in every state of every run of any number of threads |
| PaymentSemaphore.Exclusion | payment_mutex.go:48-88 | without intruders the slot is full exactly when some client holds it (cooldown included), no two do, and a drain never blocks |
| PaymentSemaphore.ExclusionExactly | payment_mutex.go:48-88 | in any state of any run no two clients hold the slot if and only if slot and intruders together are at most one |
| PaymentSemaphore.Broadcasts | payment_mutex.go:31-39 | no channel is closed twice, and a replaced channel is closed or owned by exactly one release in progress |
| PaymentSemaphore.RefundYields | payment_mutex.go:77-83 | a refund gets through its second look if and only if no withdrawal is waiting at that moment, and it holds the slot then |
| PaymentSemaphore.RefundHoldsBack | payment_mutex.go:72-75 | a refund goes on to the slot at its first look if and only if no withdrawal is waiting at that moment |
| PaymentSemaphore.Persists | payment_mutex.go:48-88 | every atomic action leaves every client on its way: a refund keeps trying until it pays, a withdrawal asks until it has the slot or its timeout ends, who paid gives back |
| PaymentSemaphore.RefundsPay | payment_mutex.go:70-88 | over any run a refund that is through has paid |
| PaymentSemaphore.ListensForRelease | payment_mutex.go:58-76 | who starts to listen is woken by no release before the next one |
| PaymentSemaphore.SwapIsNotMissed | payment_mutex.go:76-86 | a refund that finds the slot full after a release swapped its channel away has the promise of being woken |
| PaymentSemaphore.PromiseKept | payment_mutex.go:31-39 | once someone is bound to close a channel, someone stays bound until it is closed |
| PaymentSemaphore.ParkFate | payment_mutex.go:72-85 | a parked refund has that promise if and only if its channel was replaced or a client that has not begun to release holds the slot |
| PaymentSemaphore.LostWakeup | payment_mutex.go:76-85 | a concrete run after which a refund is parked, the slot is free and nothing can happen but a new client |
| PaymentSemaphore.StuckExactly | payment_mutex.go:31-88 | without intruders nothing but a new client can move if and only if the slot is free and every client is finished or parked on the current channel |
| PaymentSemaphore.TimeoutBreaksExclusion | admin.go:251-252 | a withdraw that goes on after its timeout pays together with the holder |
| PaymentSemaphore.IntrudersStay | admin.go:251-252 | clients past their acquire and before their drain are the intruders so far, or one more, forever |
| BitGroups.ConvertBits | lnurl.go:80-107 | with padding never fails and writes the same number in ceil(n * from / to) groups in range; without padding fails exactly when a whole digit or a set bit is left over |
| BitGroups.RoundTrip | lnurl.go:80-107 | bytes to 5-bit groups and back is never refused and gives the bytes; ceil(8n/5) groups below 32 |
| BitGroups.GroupsInjective | lnurl.go:80-107 | different bytes never share their groups |
| Bech32.Bech32HrpExpand | lnurl.go:37-46 | high bits, zero, low bits |
| Bech32.FeedValues | lnurl.go:50-53 | the loop is the recursive register function |
| Bech32.Bech32Checksum | lnurl.go:48-63 | the two loops compute the six digits of the register after six empty steps, last bit flipped |
| Bech32.StepLinear | lnurl.go:27-35 | the step is linear over XOR |
| Bech32.StepKernel | lnurl.go:27-35 | only the zero register steps to zero |
| Generator.StepIsTimesX | lnurl.go:27-35 | for every register the step is multiplication by x over GF(32), defined from x^5 + x^3 + 1, modulo x^6 + 29x^5 + 22x^4 + 20x^3 + 21x^2 + 29x + 18 |
| Generator.MulNonZero | lnurl.go:27-35 | the field has no zero divisors |
| Generator.FeedIsRemainder | lnurl.go:50-53 | the register holds the remainder modulo that generator of the polynomial it was fed |
| Generator.ValidExactly | lnurl.go:48-63 | a word is valid if and only if one, expanded prefix and word leave the remainder one |
| Bech32.FeedIsXor | lnurl.go:51-53 | up to six symbols are XORed unchanged onto as many empty steps |
| Bech32.ChecksumExact | lnurl.go:48-63 | for every prefix and data, six symbols make the word valid if and only if they are the computed checksum |
| Bech32.ChecksumValid | lnurl.go:48-63 | the computed checksum is six symbols and the register ends at 1 |
| Published.ChecksumPublished | lnurl.go:48-63 | the checksum of the thirty-two symbols in order under the prefix abcdef is the published one |
| Published.TextPublished | lnurl.go:25-77 | and its text is the published word, which lists the whole charset |
| Bech32.BurstDetected | lnurl.go:48-63 | damage within six neighbouring symbols never turns one valid word into another |
| Lnurl.Bech32Encode | lnurl.go:65-77 | refused exactly when a data byte is no symbol, else prefix, separator and letters of data and checksum |
| Lnurl.LnurlEncode | lnurl.go:10-21 | never fails and gives the LNURL of the URL |
| Lnurl.LnurlInjective | lnurl.go:10-21 | different URLs have different LNURLs |
| Lnurl.LnurlUnique | lnurl.go:10-21 | a URL has one LNURL |
| Lnurl.LnurlShape | lnurl.go:10-21 | an LNURL is upper case throughout and starts with LNURL1 |

## Left out

- HTTP routing, JSON, rate limiting, configuration parsing, the admin page, logging: no property of the books.
- Breez SDK internals, SQL engine, migrations, SHA-1, SHA-256 and random numbers: oracles, tables and names stand for them.
- A crash between "mark failed" and "restore balance" of a redeem: the code does not keep the identity there.
- That a refund whose payment left can still be booked: repricing may retain it, which `Solvency.RepriceExactly` covers.
- Liveness of the semaphore: that a refund always wakes is false, and fairness among withdrawals is up to the Go runtime.
- The five seconds of the withdrawal timeout and the length of the cooldown: they may end at any step.
- Voucher lookup by key: a voucher is its row number; a destination of a transfer is given as the rows it resolved to.
- `payoutsPaused` as a gate: payouts may happen at any time in the model, which only adds runs.
- Checks on rows read before a transaction (transfers only, per-redeem limit, withdraw cap, maximum balance) are not guards of the machine's steps, which only adds runs; the offer and the cap have theorems of their own.
- Paging of payment lists, the lookback cursor at startup and the map from invoices to rows: a received payment comes with its fund row.
- Startup resolution of operator withdraws and catch-up of deposits are steps of the service, not loops.
- Maximum balance, token balances, unclaimed deposits, average time to expiry, counts: reporting or not an invariant.
- BitGroups.ConvertBits: digits outside their width are not covered, since bytes never are.
- Bech32.BurstDetected: detection of up to four errors anywhere within ninety symbols is a property of the code's constants over a bounded length and is not proved.
- RegularRuns.RunOnLattice: an edit of the schedule between reading a due voucher and marking it is not covered, since the code then writes an anchor of the old schedule.
