# Asoju: verified model of the case, money and billing services

This project models the parts of the Asoju backend that keep state and money, and proves what every run of
them keeps true. `dafny verify dfyconfig.toml` checks all of it.

How the modules are laid out:

| files | what they model |
|---|---|
| `CaseStateMachine`, `CaseRecord`, `CaseService`, `CaseRuns` | the case lifecycle: the transition map, the calls that bypass it (hold, resume, dispute), the checklist and the QC outcomes |
| `Ledger`, `AgentWallet` | the double-entry ledger and the agent wallet cached above it |
| `Rounding`, `ScLedger`, `Membership` | the service-credit (SC) ledger and the preview-then-commit membership benefit |
| `Payments`, `PaymentRuns` | one payment: webhooks, refunds with maker and checker, reconciliation, polling and expiry |
| `PaymentDesk`, `CommerceService`, `DeskRuns` | many payments on the invoices of many cases, the payment status each case row shares among them, and the two payment sweeps |
| `Quotes`, `QuoteRuns` | issuing and accepting quotes over many cases and subscriptions, with the credit acceptance spends, and the quote-expiry sweep |
| `SubscriptionBilling` | sign-up, activation, renewal, lapse and the monthly allowance |
| `Recurring` | recurring schedules with pause and resume |
| `Base32`, `Paye` | the TOTP secret codec and the PAYE estimator |

Each stateful service appears twice: as a class whose methods make the service's writes one after another, and
as pure step functions. Every method is proved to compute exactly its step, failures included, and the
guarantees are theorems about arbitrary runs of steps. One service call is one step; a `$transaction` is
all-or-nothing; the clock never runs backwards; the payment provider is an oracle that may refuse. Payment and
wallet amounts are whole kobo; quote, service-credit and benefit arithmetic uses exact rationals; PAYE uses
whole naira and exact hundredths.

## What was found

These promises do not hold as documented. For each, the model gives a concrete run and the exact condition.

- A success webhook replayed after a refund marks the payment PAID again, and a failed one marks it FAILED
  (`PaymentRuns.LateWebhookUnsettles`). Over every run, refunds, amount and status agree if and only if no webhook
  meets a payment whose refunding has begun (`PaymentRuns.RefundConservation`).
- A reconciliation can lower a payment's amount below what has been refunded (`PaymentRuns.ReconciliationUncovers`).
  Over every run, refunds stay within the amount if and only if none does (`PaymentRuns.RefundsStayCovered`).
- A case can hide a paid payment: another checkout of the same case fails its amount check
  (`DeskRuns.SiblingHidesPayment`). Cases show what their payments hold if and only if no call writes one payment's
  status over a different one held by another (`DeskRuns.CasesShowTheirPayments`).
- A checkout is refused only while a payment of the invoice reads PAID, so an invoice can be charged twice: by two
  checkouts opened before either was paid (`DeskRuns.InvoicePaidTwice`), or by one opened after a partial refund, or
  after a late failure webhook on top of it (`DeskRuns.RefundReopensCheckout`). Over every run no two payments hold
  money for one invoice if and only if none is charged while another one holds money for it
  (`DeskRuns.InvoicesChargedOnce`).
- `commerce.service.ts:855-857` says a charge accepted by Finance is like a verified webhook. It does not schedule
  the case, and a webhook that follows is ignored as a duplicate (`DeskRuns.FinanceStrandsCase`). The case still
  awaits payment after its payment became PAID exactly when Finance accepted it, until a refund is recorded; a success
  webhook after that does schedule it (`FinanceLeavesCaseWaiting`, `LateWebhookSchedules`).
- The SC balance can go negative. It does so exactly by an adjustment larger than the balance it meets
  (`ScLedger.NonNegativeRuns`, `AdjustmentCanOverdraw`).
- Accepting a quote debits the credit and raises the invoice before the case transition is checked. The case moves
  exactly when it is QUOTED; a held case is left with a stranded invoice and spent credit
  (`QuoteRuns.AcceptanceMovesCase`, `HeldCaseStrandsInvoice`, a run from the empty book).
- `membership.service.ts:116-119` says the adjusted flag tells whether the charge differs from the quoted amount. It tells
  the truth exactly when the other lines are a whole number of naira or the quote no longer stands for the
  subscription and balance of now; with a fraction in the other lines it is always up (`Membership.FlagIsTrue`,
  `FlaggedWithoutAdjustment`).
- A subscription whose current period is paid can still lapse at renewal. It does exactly when its newest invoice
  is an unpaid sign-up attempt (`SubscriptionBilling.LapseDespitePayment`, `RetriedSignUpLapses`).

Where comments and code disagree, the model follows the code:

- `case-state-machine.ts:21-22` says any pre-execution state can be cancelled to Closed; ASSIGNED cannot
  (`CaseStateMachine.WhoCanClose`).
- `cases.service.ts:737` calls the transition method the only path by which a status changes; holds and disputes
  bypass it. `cases.service.ts:1055-1056` says only completing a checklist item changes its completion; a dispute
  reopens items.
- `evidence.service.ts:223-247` moves the case into quality control and logs the review before it checks the
  required fields. A refused QC call has written both, so a refused approval still counts as a pass towards the
  agents' tiers (`CaseRuns.FailedCallsWriteNothing`, `ReviewLogged`, `RefusedApprovalIsLogged`).
- `commerce.service.ts:539-541` names the webhook handler as the only place that sets the verification timestamp;
  reconciliation sets it too (`PaymentRuns.BecomesPaid`).
- `subscription-billing.service.ts:265` tells the customer a failed renewal is retried; the next sweep lapses it.

## Model

| member | source | states |
|---|---|---|
| CaseStateMachine.EdgeClimbsOneStage | backend/src/cases/case-state-machine.ts:36-54 | one move climbs the golden path by at most one stage |
| CaseStateMachine.EdgeStaysInExecution | backend/src/cases/case-state-machine.ts:36-54 | started work is never un-started, and then only COMPLETED closes |
| CaseStateMachine.WhoCanClose | backend/src/cases/case-state-machine.ts:37-52 | exactly which statuses can be closed; ASSIGNED is not one of them |
| CaseStateMachine.MapExactly | backend/src/cases/case-state-machine.ts:11-22 | the whole map: one stage on along the golden path, the five documented ways back, and closing |
| CaseService.ServiceCase.constructor | backend/src/cases/cases.service.ts:310-352 | every creation path yields a DRAFT case with one history row |
| CaseService.ServiceCase.TransitionCase | backend/src/cases/cases.service.ts:762-798 | status and history after a checked transition, or the error with nothing written |
| CaseService.ServiceCase.Approve | backend/src/cases/cases.service.ts:801-832 | customer approval completes the case in two rows; extra work sends it back |
| CaseService.ServiceCase.HoldCase | backend/src/cases/cases.service.ts:954-982 | hold remembers where the case stood, and is refused when done or already held |
| CaseService.ServiceCase.ResumeCase | backend/src/cases/cases.service.ts:987-1013 | resume returns to the remembered status and clears it |
| CaseService.ServiceCase.AddChecklistTask | backend/src/cases/cases.service.ts:1024-1050 | items are added until the case is completed or closed, required by default |
| CaseService.ServiceCase.UpdateChecklistTask | backend/src/cases/cases.service.ts:1057-1079 | only an incomplete item can be edited, and only with something to change |
| CaseService.ServiceCase.RemoveChecklistTask | backend/src/cases/cases.service.ts:1084-1100 | only an incomplete item can be removed |
| CaseService.ServiceCase.CompleteChecklistTask | backend/src/evidence/evidence.service.ts:134-153 | completion is stamped once; a replay changes nothing |
| CaseService.ServiceCase.DisputeReport | backend/src/cases/cases.service.ts:1109-1186 | a dispute opens a record, reopens the listed items and moves the case to DISPUTED |
| CaseService.ServiceCase.AcceptDispute | backend/src/cases/cases.service.ts:1193-1238 | the oldest open dispute is resolved and the case goes to ADDITIONAL_WORK |
| CaseService.ServiceCase.CloseOldestDispute | backend/src/cases/cases.service.ts:1203-1212 | exactly the first open dispute is marked resolved |
| CaseService.ServiceCase.AddEvidence | backend/src/evidence/evidence.service.ts:57-106 | a replayed request adds nothing; otherwise evidence is taken only in progress, on an issued and uploaded key |
| CaseService.ServiceCase.FinishFieldwork | backend/src/evidence/evidence.service.ts:184-206 | fieldwork needs evidence before the transition is tried |
| CaseService.ServiceCase.ReviewEvidence | backend/src/evidence/evidence.service.ts:212-336 | the effect of every QC outcome, including what a refused call has already written |
| CaseService.ServiceCase.BeginReview | backend/src/evidence/evidence.service.ts:223-242 | the case is in quality control and the review logged before its outcome is looked at |
| CaseRuns.StepKeepsInvariant | backend/src/cases/cases.service.ts:762-1238 | every call keeps history, held-from status, open disputes and stamps in agreement |
| CaseRuns.ReachableCase | backend/src/cases/cases.service.ts:762-1238 | on every run: legal history ending at the status, heldFrom set exactly on hold, one open dispute exactly when disputed (or held from it) |
| CaseRuns.HistoryIsAppendOnly | backend/src/cases/cases.service.ts:779-787 | history rows are only ever added |
| CaseRuns.ReachableHistories | backend/src/cases/case-state-machine.ts:24-34 | a history can arise if and only if each row legally follows the one before |
| CaseRuns.HoldsErase | backend/src/cases/cases.service.ts:954-1013 | striking out hold/resume rows leaves a walk of the map plus the dispute detour, ending at the effective status |
| CaseRuns.NoStageSkipped | backend/src/cases/case-state-machine.ts:11-16 | before any visit to a golden-path stage every earlier stage was visited |
| CaseRuns.NoReturnFromExecution | backend/src/cases/case-state-machine.ts:36-54 | after IN_PROGRESS no pre-execution status recurs and CLOSED follows only COMPLETED |
| CaseRuns.StatusReached | backend/src/cases/cases.service.ts:762-1238 | exactly which call brings a case to which status, for every status and call |
| CaseRuns.CustomerDecides | backend/src/cases/cases.service.ts:818-829 | approval in review completes the case in two recorded moves, a request for more work sends it back in one, anything else does nothing |
| CaseRuns.RefusedExactly | backend/src/cases/cases.service.ts:954-1238 | why every call is refused, in the order its guards are met |
| CaseRuns.DisputeAcceptance | backend/src/cases/cases.service.ts:1112-1127 | a dispute is accepted exactly in review, with a profile, on a duplicate-free list of this case's items |
| CaseRuns.CompletedTaskStep | backend/src/cases/cases.service.ts:1057-1145 | a completed item changes exactly when an accepted dispute names it, and then only its completion |
| CaseRuns.CompletedTaskKept | backend/src/cases/cases.service.ts:1138-1145 | over any run a completed item keeps title, required flag and stamp until an accepted dispute names it |
| CaseRuns.ItemAppears | backend/src/cases/cases.service.ts:1024-1050 | exactly when a checklist item appears, and as what |
| CaseRuns.ItemVanishes | backend/src/cases/cases.service.ts:1084-1100 | exactly when an item is deleted |
| CaseRuns.ItemChanges | backend/src/cases/cases.service.ts:1057-1079 | what happens to an incomplete item: edited in the fields given, or completed and stamped |
| CaseRuns.DisputeRecorded | backend/src/cases/cases.service.ts:1109-1238 | an accepted dispute is recorded with its items; resolving closes it and changes nothing else |
| CaseRuns.SeededChecklist | backend/src/cases/cases.service.ts:310-352 | over any run an item of the created checklist that no call names is still as created |
| CaseRuns.UnnamedItemsUntouched | backend/src/cases/cases.service.ts:1024-1145 | a call leaves every item it does not name as it was |
| CaseRuns.StatusStaysPut | backend/src/cases/cases.service.ts:954-1013 | a held case moves only by resuming to where it stood, a completed one only by closing, a closed one never |
| CaseRuns.FailedCallsWriteNothing | backend/src/evidence/evidence.service.ts:212-247 | a refused call has written nothing if and only if it is not a QC call past the status guard; that one has opened and logged its review |
| CaseRuns.ReviewLogged | backend/src/evidence/evidence.service.ts:235-299 | exactly the QC calls past the guard log a review; a logged pass reaches customer review if and only if it was accepted |
| CaseRuns.RefusedApprovalIsLogged | backend/src/evidence/evidence.service.ts:239-245 | a refused approval leaves a passing review on a case still in quality control |
| CaseRuns.EvidenceRecordedOnce | backend/src/evidence/evidence.service.ts:57-63 | evidence rows are only added, and no client request is recorded twice |
| Ledger.LedgerService.EnsureChartOfAccounts | backend/src/agent-wallet/ledger.service.ts:50-54 | all three accounts exist afterwards and none is lost |
| Ledger.LedgerService.PostJournalEntry | backend/src/agent-wallet/ledger.service.ts:70-131 | the entry posted, the original returned on replay, or the refusal with nothing written |
| Ledger.LedgerService.PostEarning | backend/src/agent-wallet/ledger.service.ts:137-152 | an earning debits expense and credits the payable |
| Ledger.LedgerService.PostPayout | backend/src/agent-wallet/ledger.service.ts:158-170 | a payout debits the payable and credits cash |
| Ledger.AcceptedExactly | backend/src/agent-wallet/ledger.service.ts:83-102 | accepted if and only if two or more lines, all positive, with equal sides |
| Ledger.RefusedExactly | backend/src/agent-wallet/ledger.service.ts:83-102 | why a posting is refused, in order, and that it then writes nothing |
| Ledger.PostAllKeepsBalance | backend/src/agent-wallet/ledger.service.ts:70-131 | any calls keep every entry balanced and every key unique |
| Ledger.KeysOfAcceptedCalls | backend/src/agent-wallet/ledger.service.ts:104-105 | exactly the keys of accepted calls have an entry |
| Ledger.ReplayReturnsOriginal | backend/src/agent-wallet/ledger.service.ts:104-105 | replaying a key after any other calls returns the first entry and posts nothing |
| Ledger.JournalIsAppendOnly | backend/src/agent-wallet/ledger.service.ts:113-130 | posted entries are never rewritten |
| Ledger.JournalByAccount | backend/src/agent-wallet/ledger.service.ts:176-188 | regrouping lines from entries to accounts loses nothing |
| Ledger.TrialBalanceBalances | backend/src/agent-wallet/ledger.service.ts:176-201 | for any calls: total debits equal total credits, and assets plus expenses equal liabilities |
| AgentWallet.AgentWalletService.Earn | backend/src/agent-wallet/agent-wallet.service.ts:43-99 | an earning on a QC-passed case, with rollback when the posting is rejected |
| AgentWallet.AgentWalletService.PayOut | backend/src/agent-wallet/agent-wallet.service.ts:106-158 | a payout within the available balance, with rollback when the posting is rejected |
| AgentWallet.WalletRefinesLedger | backend/src/agent-wallet/agent-wallet.service.ts:43-158 | on every run each wallet equals earned less paid, its entries, and the agent's share of the ledger, and is never negative |
| AgentWallet.FailedCallsChangeNothing | backend/src/agent-wallet/agent-wallet.service.ts:62-88 | a failed call leaves balances, entries, payouts and postings as they were |
| AgentWallet.PayoutAccepted | backend/src/agent-wallet/agent-wallet.service.ts:110-116 | a payout succeeds if and only if it is positive and covered |
| AgentWallet.EarningAccepted | backend/src/agent-wallet/agent-wallet.service.ts:47-75 | an earning succeeds if and only if it is positive, on an approved, completed or closed case, for its field agent |
| AgentWallet.RefusedExactly | backend/src/agent-wallet/agent-wallet.service.ts:43-158 | why an earning or a payout is refused, in order |
| AgentWallet.PayoutsMatchEntries | backend/src/agent-wallet/agent-wallet.service.ts:118-147 | over every run the payout rows are exactly the payouts entered in the wallets |
| AgentWallet.WalletsFollowCalls | backend/src/agent-wallet/agent-wallet.service.ts:43-158 | over every run each wallet is what the calls alone give that agent |
| AgentWallet.TrialBalanceReconciles | backend/src/agent-wallet/ledger.service.ts:137-201 | over every run each figure of each trial balance row equals what all wallets earned, were paid, or can still draw |
| AgentWallet.ControlAccountReconciles | backend/src/agent-wallet/ledger.service.ts:176-201 | the payable balance is the sum of all agents' wallets |
| ScLedger.ScLedgerService.GetBalanceUsd | backend/src/concierge/sc-ledger.service.ts:35-41 | the balance is the signed fold over all rows |
| ScLedger.ScLedgerService.GrantUsd | backend/src/concierge/sc-ledger.service.ts:52-62 | a grant appends one positive row |
| ScLedger.ScLedgerService.DebitUsd | backend/src/concierge/sc-ledger.service.ts:72-101 | a debit capped at the balance, with its naira amount, or no row at all |
| ScLedger.ScLedgerService.ReverseUsd | backend/src/concierge/sc-ledger.service.ts:105-117 | a reversal needs a reason and appends one positive row |
| ScLedger.ScLedgerService.AdjustUsd | backend/src/concierge/sc-ledger.service.ts:123-136 | an adjustment needs a reason and a non-zero amount |
| ScLedger.LedgerNeverOverspent | backend/src/concierge/sc-ledger.service.ts:64-101 | over any interleaving, debits never exceed grants, reversals and positive adjustments |
| ScLedger.DebitIsCapped | backend/src/concierge/sc-ledger.service.ts:77-80 | exactly the smaller of request and balance is applied, and no debit takes the balance below zero |
| ScLedger.BalanceAfter | backend/src/concierge/sc-ledger.service.ts:21-136 | what each call does to the balance, in dollars |
| ScLedger.RowWorth | backend/src/concierge/sc-ledger.service.ts:21-33 | the sign each kind of row carries in the balance |
| ScLedger.CorrectionRefused | backend/src/concierge/sc-ledger.service.ts:105-136 | exactly when a reversal or adjustment is refused and writes nothing |
| ScLedger.RowsAreAppendOnly | backend/src/concierge/sc-ledger.service.ts:6-13 | ledger rows are never edited |
| ScLedger.NonNegativeRuns | backend/src/concierge/sc-ledger.service.ts:119-136 | the balance stays non-negative throughout a run if and only if no adjustment overdraws it |
| ScLedger.AdjustmentCanOverdraw | backend/src/concierge/sc-ledger.service.ts:123-136 | a concrete run ending below zero |
| Membership.PreviewBalances | backend/src/concierge/membership.service.ts:74-107 | final + discount + rounded SC exceeds a whole fee by 0, or by 1 exactly when the SC lies on a half naira |
| Membership.PreviewGiven | backend/src/concierge/membership.service.ts:80-87 | exactly when a benefit is previewed |
| Membership.PreviewExactly | backend/src/concierge/membership.service.ts:88-106 | discount, credit and payable to within half a naira of their exact values, from fee, percentage, balance, rate and zone |
| Membership.PricedZonesAlike | backend/src/concierge/membership.service.ts:91-97 | two priced zones give the same preview |
| Membership.LineAdded | backend/src/commerce/commerce.service.ts:179-198 | a line outside the service fee is added on top and touches nothing else |
| Membership.CreatedQuoteIsBenefited | backend/src/commerce/commerce.service.ts:179-221 | exactly when a quote carries a benefit, and that it touches only the service fee |
| Membership.MembershipService.Commit | backend/src/concierge/membership.service.ts:120-161 | the charge, the ledger debit and the adjusted flag on acceptance |
| Membership.DebitWithinPreview | backend/src/concierge/membership.service.ts:150-156 | the naira debited never exceeds the preview and equals it when the balance covers it |
| Membership.CommitConserves | backend/src/concierge/membership.service.ts:150-160 | charge + discount + SC debited = rounded fee + other lines, and the zero floor never clips |
| Membership.LapsedPaysInFull | backend/src/concierge/membership.service.ts:141-148 | a lapsed membership debits nothing and pays the full fee |
| Membership.CommitWithinQuote | backend/src/concierge/membership.service.ts:120-161 | whatever the balance did, at most one naira below the quote and never above the full fee |
| Membership.UnchangedBalanceChargesQuote | backend/src/concierge/membership.service.ts:111-119 | while the balance covers the preview the quote is charged, less one naira exactly on a half |
| Membership.AppliedIsTaken | backend/src/concierge/sc-ledger.service.ts:77-82 | the naira a preview takes from any balance: the smaller of the two, rounded, or nothing |
| Membership.ChargeEqualsQuote | backend/src/concierge/membership.service.ts:120-161 | the quoted amount is charged if and only if the quote still stands for the status and balance met |
| Membership.AdjustedExactly | backend/src/concierge/membership.service.ts:111-161 | the flag is raised if and only if the quote no longer stands or the other lines are not whole naira |
| Membership.FlagIsTrue | backend/src/concierge/membership.service.ts:116-119 | with whole other lines the flag is exact; otherwise always up, and wrong exactly when the quote stands |
| Membership.StoredAmountIsCharged | backend/src/commerce/commerce.service.ts:419-427 | an amount rewritten only when the flag is up is still the amount charged |
| Membership.FlaggedWithoutAdjustment | backend/src/concierge/membership.service.ts:158-160 | a concrete quote charged as shown, yet flagged |
| Recurring.RecurringService.SetUpSchedule | backend/src/recurring/recurring.service.ts:27-69 | one schedule per completed case, first due one cadence later |
| Recurring.RecurringService.SetScheduleActive | backend/src/recurring/recurring.service.ts:71-112 | pausing stamps the time, resuming restores what remained |
| Recurring.RecurringService.DueRows | backend/src/recurring/recurring.service.ts:116-119 | exactly the due schedules, each once |
| Recurring.RecurringService.ProcessDueSchedules | backend/src/recurring/recurring.service.ts:115-136 | the due schedules spawn and move on by a cadence, up to the first spawn that fails; the count is returned when none does |
| Recurring.SetupAccepted | backend/src/recurring/recurring.service.ts:27-58 | exactly when a schedule is set up, why not otherwise, and from when it is due |
| Recurring.SetActiveExactly | backend/src/recurring/recurring.service.ts:71-112 | exactly when a schedule is paused or resumed, with its row, log and error, and no other row |
| Recurring.SweepSpawns | backend/src/recurring/recurring.service.ts:115-136 | exactly which schedules a sweep spawns, and that each is due again only a cadence later |
| Recurring.CountDueIsCount | backend/src/recurring/recurring.service.ts:116-135 | the reported count is the number of due schedules |
| Recurring.DueExactly | backend/src/recurring/recurring.service.ts:82-92 | due if and only if running with un-paused time since set-up or last spawn of at least the cadence |
| Recurring.PausingKeepsTime | backend/src/recurring/recurring.service.ts:71-136 | on every run: that equivalence, and every spawn is a full cadence of active time after the last and never while paused |
| Recurring.PauseThenResume | backend/src/recurring/recurring.service.ts:82-92 | the remaining time survives a pause exactly; an overdue schedule is due at once |
| Base32.Base32Encode | backend/src/auth/totp.ts:13-27 | the accumulator loop regroups the bit string into five-bit letters |
| Base32.Base32Decode | backend/src/auth/totp.ts:29-45 | the accumulator loop regroups letters into bytes, dropping the remainder |
| Base32.ShlBits | backend/src/auth/totp.ts:18-25 | a wrapping 32-bit shift keeps every pending bit that still fits |
| Base32.ShiftIn | backend/src/auth/totp.ts:18-37 | shift-and-or appends the new digit to the pending bits |
| Base32.ShiftOut | backend/src/auth/totp.ts:21-41 | shift-and-mask reads the top pending bits and leaves the rest |
| Base32.AlphabetLetter | backend/src/auth/totp.ts:9 | a letter's position is found exactly where it stands in the alphabet |
| Base32.EncodedShape | backend/src/auth/totp.ts:13-27 | n bytes give ceil(8n/5) letters, all of the alphabet |
| Base32.RoundTrip | backend/src/auth/totp.ts:13-45 | decoding the code, or any text that cleans to it, returns exactly the bytes |
| Base32.TypedRoundTrip | backend/src/auth/totp.ts:29-45 | the code typed in either case, with other characters anywhere between, decodes to exactly the bytes |
| Base32.EncodeIsInjective | backend/src/auth/totp.ts:60-63 | different secrets have different codes |
| Paye.EstimateAnnualTax | backend/src/agent-financial-planning/agent-financial-planning.service.ts:151-184 | bands in order, filled, each taxed to within half a naira and summing to taxable income; the total is the exact marginal tax rounded once |
| Paye.WithinBand | backend/src/agent-financial-planning/agent-financial-planning.service.ts:132-139 | the band table agrees with the marginal rates |
| Paye.RoundedWithinHalf | backend/src/agent-financial-planning/agent-financial-planning.service.ts:160-172 | within half a naira of the exact tax |
| Paye.TaxableClimbs | backend/src/agent-financial-planning/agent-financial-planning.service.ts:143-154 | taxable income rises with gross, never faster |
| Paye.GrossNearest | backend/src/agent-financial-planning/agent-financial-planning.service.ts:152 | income is rounded to the nearest naira and a loss counts as nothing |
| Paye.ReliefExactly | backend/src/agent-financial-planning/agent-financial-planning.service.ts:143-146 | the relief is a fifth of gross plus the larger of 200,000 and a hundredth of it, to within half a naira |
| Paye.TaxableSlope | backend/src/agent-financial-planning/agent-financial-planning.service.ts:143-154 | taxable income climbs 80 kobo a naira between 250,000 and 20,000,000, and 79 above |
| Paye.TaxAtBandEnds | backend/src/agent-financial-planning/agent-financial-planning.service.ts:132-139 | the tax accumulated at the end of each band, and the top rate beyond |
| Paye.TaxMonotone | backend/src/agent-financial-planning/agent-financial-planning.service.ts:151-184 | a higher income never pays less |
| Paye.TakeHomeMonotone | backend/src/agent-financial-planning/agent-financial-planning.service.ts:151-184 | a higher income never takes home less |
| Paye.TaxThreshold | backend/src/agent-financial-planning/agent-financial-planning.service.ts:143-154 | nothing is taxable exactly up to 250,000 naira |
| CommerceService.PaymentTable.InitiatePayment | backend/src/commerce/commerce.service.ts:488-525 | the refusals in order, or a pending payment of the invoice's amount |
| CommerceService.PaymentTable.HandleVerified | backend/src/commerce/commerce.service.ts:544-612 | paid on a matching amount, flagged on a mismatch, unchanged on a duplicate; the case shows it, and is scheduled if it awaits payment |
| CommerceService.PaymentTable.HandleFailed | backend/src/commerce/commerce.service.ts:622-656 | a failure never downgrades a paid payment and never writes the case |
| CommerceService.PaymentTable.Execute | backend/src/commerce/commerce.service.ts:682-713 | a refund row and the new status on payment and case, or nothing when the provider refuses |
| CommerceService.PaymentTable.RequestRefund | backend/src/commerce/commerce.service.ts:724-756 | refunded at once up to the threshold, a pending request above it |
| CommerceService.PaymentTable.Approve | backend/src/commerce/commerce.service.ts:761-801 | a second person executes a pending request that still fits |
| CommerceService.PaymentTable.Reject | backend/src/commerce/commerce.service.ts:805-831 | a second person rejects a pending request; no money moves |
| CommerceService.PaymentTable.Resolve | backend/src/commerce/commerce.service.ts:865-909 | Finance confirms or rejects a flagged payment, and the case shows it without being scheduled |
| CommerceService.PaymentTable.RunExpirySweep | backend/src/commerce/commerce.service.ts:924-952 | the sweep is the run of its turns: exactly the stale unresolved payments expire, no case is written, and the count is right |
| CommerceService.PaymentTable.RunVerificationSweep | backend/src/commerce/commerce.service.ts:972-1020 | the sweep is the run of its turns: each candidate follows the provider's answer, and all four counters are exact |
| CommerceService.MovedIsCount | backend/src/commerce/commerce.service.ts:951-1019 | each counter is the number of payments moved into that status |
| CommerceService.CandidatesIsCount | backend/src/commerce/commerce.service.ts:976-981 | the checked counter is the number of unresolved payments inside the two windows |
| PaymentRuns.CoverageStep | backend/src/commerce/commerce.service.ts:865-883 | refunds stay within the amount except exactly when a reconciliation lowers it below them |
| PaymentRuns.RefundsStayCovered | backend/src/commerce/commerce.service.ts:671-909 | over every run from the checkout on, refunds stay positive and within the amount if and only if no such reconciliation occurs |
| PaymentRuns.ReconciliationUncovers | backend/src/commerce/commerce.service.ts:865-883 | a concrete run from the checkout ending PAID at 300 with 400 refunded |
| PaymentRuns.SettledStep | backend/src/commerce/commerce.service.ts:682-713 | the status says what is refunded, except exactly after a webhook on a refunding payment |
| PaymentRuns.RefundConservation | backend/src/commerce/commerce.service.ts:671-831 | over every run from the checkout on: refunds positive and within the amount, status PARTIALLY_REFUNDED / REFUNDED exactly as some / all is back and otherwise nothing, if and only if no such webhook occurs |
| PaymentRuns.LateWebhookUnsettles | backend/src/commerce/commerce.service.ts:576-583 | concrete runs from the checkout ending PAID, or FAILED, with everything refunded |
| PaymentRuns.RefusedCalls | backend/src/commerce/commerce.service.ts:551-574 | a refused call writes nothing but the mismatch flag; only Finance changes an amount |
| PaymentRuns.PaidStep | backend/src/commerce/commerce.service.ts:544-656 | a PAID payment leaves PAID exactly by a refund |
| PaymentRuns.PaidIsStable | backend/src/commerce/commerce.service.ts:544-1020 | over any run recording no refund a PAID payment stays PAID at the same amount and timestamp |
| PaymentRuns.BecomesPaid | backend/src/commerce/commerce.service.ts:538-583 | PAID is reached exactly by a verified matching charge or by Finance, and is stamped |
| PaymentRuns.OtherStatuses | backend/src/commerce/commerce.service.ts:622-1020 | exactly when a payment fails, expires, is seen in flight or is flagged for Finance |
| PaymentRuns.WindowsPartition | backend/src/commerce/commerce.service.ts:924-981 | an unresolved payment is too young, worth asking about, or stale, by its age alone |
| PaymentRuns.RefundRecorded | backend/src/commerce/commerce.service.ts:682-713 | exactly which refund a call pays out, to whom it is charged, and the status that follows |
| PaymentRuns.RequestRecorded | backend/src/commerce/commerce.service.ts:738-831 | exactly when a refund request is opened and decided, and by whom |
| PaymentRuns.AmountAccepted | backend/src/commerce/commerce.service.ts:875-884 | the amount changes exactly to what Finance accepts |
| PaymentRuns.RefusedExactly | backend/src/commerce/commerce.service.ts:544-909 | why every call is refused, in order |
| PaymentRuns.EveryPaidPaymentIsVerified | backend/src/commerce/commerce.service.ts:580-589 | every paid or refunded payment has a verification timestamp |
| PaymentRuns.MakerCheckerAlways | backend/src/commerce/commerce.service.ts:724-831 | large refunds and approved requests correspond one to one, amount and approver, each decided by a second person |
| PaymentRuns.DecidedOnce | backend/src/commerce/commerce.service.ts:767-831 | a request keeps its amount and maker, and a decision is final |
| DeskRuns.DeskProjects | backend/src/commerce/commerce.service.ts:544-1020 | among many payments each one lives exactly the run of the events that reach it |
| DeskRuns.EveryPayment | backend/src/commerce/commerce.service.ts:488-525 | every payment was opened for its invoice's amount; it is verified if it holds money and its large refunds were decided by two people |
| DeskRuns.WrittenExactly | backend/src/commerce/commerce.service.ts:551-886 | what a call writes on its case, read off the payment and the call beforehand |
| DeskRuns.StepShown | backend/src/commerce/commerce.service.ts:557-589 | the case shows every payment that holds money, except exactly when a call is about to write over a sibling's different status |
| DeskRuns.CasesShowTheirPayments | backend/src/commerce/commerce.service.ts:557-886 | the same over every run, if and only if no call overwrites |
| DeskRuns.SiblingHidesPayment | backend/src/commerce/commerce.service.ts:557-565 | a concrete run: one payment PAID, its case at RECONCILIATION_REQUIRED |
| DeskRuns.CheckoutGuard | backend/src/commerce/commerce.service.ts:488-503 | exactly when a checkout is opened, why not otherwise, and the payment it leaves; on held money only past a payment that does not read PAID |
| DeskRuns.PaymentCallRefused | backend/src/commerce/commerce.service.ts:544-909 | a call on a payment is refused for the payment's own reasons or because there is none |
| DeskRuns.StepHeldOnce | backend/src/commerce/commerce.service.ts:502-583 | no two payments hold money for one invoice, except exactly when one is charged or accepted while another holds some, whatever their statuses |
| DeskRuns.InvoicesChargedOnce | backend/src/commerce/commerce.service.ts:502-583 | the same over every run |
| DeskRuns.HeldByStatus | backend/src/commerce/commerce.service.ts:544-713 | until a late webhook a payment holds money exactly while it reads PAID or PARTIALLY_REFUNDED |
| DeskRuns.InvoicePaidTwice | backend/src/commerce/commerce.service.ts:502-583 | a concrete run: two checkouts opened together, both charged |
| DeskRuns.RefundReopensCheckout | backend/src/commerce/commerce.service.ts:502-503 | concrete runs: a checkout opened and charged after a partial refund, with or without a late failure webhook |
| DeskRuns.WhoSchedules | backend/src/commerce/commerce.service.ts:601-609 | a call moves its case exactly when it is a charge paying a case that awaits payment, and lawfully; no other case is touched |
| DeskRuns.FinanceLeavesCaseWaiting | backend/src/commerce/commerce.service.ts:844-886 | the case still awaits payment after its payment became PAID if and only if Finance accepted it, over any later events of it that record no refund |
| DeskRuns.LateWebhookSchedules | backend/src/commerce/commerce.service.ts:576-609 | once refunding has begun a success webhook schedules the case after all |
| DeskRuns.FinanceStrandsCase | backend/src/commerce/commerce.service.ts:865-886 | a concrete run ending with payment and case PAID and the case at AWAITING_PAYMENT |
| Quotes.QuoteDesk.Issue | backend/src/commerce/commerce.service.ts:148-235 | the refusals in order, or a quote at the previewed amount, the allowance counted from the quotes, and the case moved to QUOTED |
| Quotes.QuoteDesk.Commit | backend/src/commerce/commerce.service.ts:414-417 | the benefit committed against the subscription of now, its debit written to that ledger alone |
| Quotes.QuoteDesk.Accept | backend/src/commerce/commerce.service.ts:395-429 | acceptance by the owner, once, in time: credit debited, quote marked, invoice raised, then the transition checked |
| Quotes.QuoteDesk.SelectLapsed | backend/src/commerce/commerce.service.ts:1034-1041 | exactly the lapsed, unaccepted quotes of quoted cases |
| Quotes.QuoteDesk.RunExpirySweep | backend/src/commerce/commerce.service.ts:1032-1066 | the sweep never meets an illegal transition and leaves exactly the swept book |
| QuoteRuns.SweepReopensOnce | backend/src/commerce/commerce.service.ts:1043-1063 | no quoted case keeps a lapsed quote; a reopened case gains one row; all else is unchanged |
| QuoteRuns.SweepExactly | backend/src/commerce/commerce.service.ts:1034-1049 | the sweep reopens exactly the quoted cases with an unaccepted quote past its expiry |
| QuoteRuns.CountSelectedIsCount | backend/src/commerce/commerce.service.ts:1034-1065 | the reported count is the number of such quotes |
| QuoteRuns.SweepIsIdempotent | backend/src/commerce/commerce.service.ts:1043-1049 | a second sweep at the same time does nothing |
| QuoteRuns.CommitRows | backend/src/concierge/membership.service.ts:150-156 | a commit adds at most one debit, for its own quote, and never overspends |
| QuoteRuns.InvoicedAtStoredAmount | backend/src/commerce/commerce.service.ts:419-427 | the amount left on an accepted quote is the amount invoiced |
| QuoteRuns.BookAlwaysSound | backend/src/commerce/commerce.service.ts:395-429 | over any run on many cases and subscriptions: no expired quote is accepted; accepted quotes and invoices correspond one to one at one amount; each debit is one accepted quote's; no ledger is overspent |
| QuoteRuns.IssuedExactly | backend/src/commerce/commerce.service.ts:148-221 | exactly when a quote is issued, why not otherwise, and until when it can be accepted |
| QuoteRuns.BenefitExactly | backend/src/concierge/membership.service.ts:74-87 | exactly when a new quote carries a benefit, from lines, tier, standing and allowance used |
| QuoteRuns.AcceptedExactly | backend/src/commerce/commerce.service.ts:395-413 | exactly when an acceptance commits, and why it fails |
| QuoteRuns.AcceptanceTouchesOne | backend/src/commerce/commerce.service.ts:417-429 | no other quote, case or subscription is touched |
| QuoteRuns.CountUsedIsCount | backend/src/concierge/membership.service.ts:51-59 | the allowance used is the number of the subscription's discounted quotes since its period began |
| QuoteRuns.AllowanceAlwaysKept | backend/src/concierge/membership.service.ts:41-59 | over any run no subscription has more discounted quotes in its current period than its plan allows |
| QuoteRuns.EveryBook | backend/src/commerce/commerce.service.ts:148-429 | all of that from the empty book |
| QuoteRuns.AcceptanceMovesCase | backend/src/commerce/commerce.service.ts:417-429 | an in-time acceptance moves the case if and only if it is QUOTED; credit, quote and invoice are written either way |
| QuoteRuns.HeldCaseStrandsInvoice | backend/src/commerce/commerce.service.ts:417-429 | a concrete acceptance that leaves an invoice on a held case and its credit spent |
| SubscriptionBilling.BillingDesk.Subscribe | backend/src/concierge/concierge.service.ts:50-107 | a pending row is resumed or a new one opened, and a checkout raised on it unless the provider refuses |
| SubscriptionBilling.BillingDesk.HandleVerified | backend/src/concierge/subscription-billing.service.ts:159-220 | paid once, activating a pending row and granting credit |
| SubscriptionBilling.BillingDesk.HandleFailed | backend/src/concierge/subscription-billing.service.ts:225-262 | failed once, cancelling a pending row; never downgrades a paid invoice |
| SubscriptionBilling.BillingDesk.CancelRow | backend/src/concierge/concierge.service.ts:145-163 | an active or pending row is cancelled |
| SubscriptionBilling.BillingDesk.RunBillingSweep | backend/src/concierge/subscription-billing.service.ts:48-87 | each due row is lapsed or billed, a provider failure stops the loop, and the counters are exact |
| SubscriptionBilling.VerifiedSound | backend/src/concierge/subscription-billing.service.ts:159-220 | a first verification grants the plan's dollars once and activates a pending row for the period paid; a replay or mismatch changes nothing |
| SubscriptionBilling.SignUpSound | backend/src/concierge/subscription-billing.service.ts:95-122 | a sign-up raises one unpaid invoice at the subscription's price, or changes nothing |
| SubscriptionBilling.FailedSound | backend/src/concierge/subscription-billing.service.ts:225-251 | a failed payment marks its invoice and cancels only a pending subscription |
| SubscriptionBilling.CancelExactly | backend/src/concierge/concierge.service.ts:145-163 | exactly which subscriptions can be cancelled, and that nothing else changes |
| SubscriptionBilling.RefusedExactly | backend/src/concierge/subscription-billing.service.ts:48-233 | why each call is refused, and exactly when a renewal is due |
| SubscriptionBilling.CreditMatchesPayments | backend/src/concierge/subscription-billing.service.ts:195-204 | over every run the credit granted is the sum earned by first-time verified payments |
| SubscriptionBilling.PeriodIsInvoiced | backend/src/concierge/membership.service.ts:41-44 | the allowance period of an active subscription is the thirty days its current invoice bills |
| SubscriptionBilling.CountSinceIsCount | backend/src/concierge/membership.service.ts:51-59 | the usage is the number of discounted quotes since the period began |
| SubscriptionBilling.LapsedIsCount | backend/src/concierge/subscription-billing.service.ts:60-84 | the lapsed counter is the number of rows lapsed |
| SubscriptionBilling.BilledIsCount | backend/src/concierge/subscription-billing.service.ts:60-84 | the billed counter is the number of rows given an invoice |
| SubscriptionBilling.SweepSound | backend/src/concierge/subscription-billing.service.ts:60-127 | a due row lapses exactly when its newest invoice is unpaid; otherwise it is billed on a paid one and its renewal date moves forward |
| SubscriptionBilling.QuoteSound | backend/src/concierge/membership.service.ts:41-59 | a quote is discounted exactly while allowance is left, which keeps it within the period's limit |
| SubscriptionBilling.BillingGuarantees | backend/src/concierge/subscription-billing.service.ts:48-269 | on every run: grants equal paid invoices, active or expired only after a payment, all renewals but the newest paid, allowance kept |
| SubscriptionBilling.LapseDespitePayment | backend/src/concierge/subscription-billing.service.ts:60-80 | a paid period lapses if and only if the newest invoice is an unpaid sign-up attempt |
| SubscriptionBilling.RetriedSignUpLapses | backend/src/concierge/concierge.service.ts:62-101 | a concrete run in which a paid subscription lapses |

## Left out

- Database plumbing, controllers, guards and field validation: rows are held in maps and sequences, and what validation enforces appears as a guard, a type or an explicit assumption (percent in 0..100, exchange rate above 0).
- Notifications, the audit log, change authors and free-text reasons: nothing proved here depends on them, except that a schedule's audit events are kept as its log.
- Foreign services (Paystack, messaging, storage, transcription, exchange-rate feed): each is an oracle that may fail where it gates a write, and is absent elsewhere.
- Rounding of decimal columns and of binary floating point: amounts are exact here, so a result that only a float or a two-decimal column would produce is not captured.
- Checklist sort order, milestone groups and the evidence files themselves: of an evidence row only the client's request id is kept.
- Assignment, scope and pricing services: they drive the case only through the checked transition, which every run may call at any time.
- Idempotency keys of checkouts and service requests: a replay is answered before the modelled calls run.
- Reports, risk flags, incidents and agent tiers written by QC: only the review log, which the tiers count, is kept.
- CaseService.ServiceCase.DisputeReport: the free-text reasons and notes of a dispute are not kept.
- Quotes.QuoteDesk.Issue: which subscription the customer's active one is comes as a parameter; a plan and its limit are fixed for the run.
- CommerceService.PaymentTable.RunVerificationSweep: rows are taken in table order, as are those of the other sweeps; the queries promise no order.
- Base32: words are unsigned 32-bit patterns.
- Paye.EstimateAnnualTax: the effective rate and the disclaimer text, one division and a constant.
- SubscriptionBilling.BillingGuarantees: the monthly limit is fixed for the run; each subscription row is followed on its own, and how many rows one customer holds is not modelled.
- HMAC code generation, earnings projection, savings plan, trust and tier scores, regional tables, SOS and chat: opaque cryptography or single formulas.
