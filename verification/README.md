# A verified model of the conference platform's hard core

The platform sells conference registrations, invites reviewers, lets bots act for organisers, and reports revenue.
This project models the parts of it whose correctness depends on order, repetition and concurrency, and proves what
they promise for every input, every run and every interleaving.

Each database transaction is one atomic step. Where what happens between two transactions matters, the read and the
write are separate steps: the quote read before a checkout is reserved, the sweep's read before its write, the lock,
insert and commit of a change-feed writer, a scan job's read of the latest round before its insert, and the three
scripts of one limited request. The code that changes things step by step is written as classes and loops, each proved
to do what a specification function says; the theorems are about those functions. What each of them answers, in terms of
the fields before and after, is stated on its own, for the billing transactions in `Answers`.

- **Registration payments** (`Billing` ... `WitnessRuns`). One registration owns payment and refund rows. Steps: open
  and reopen, choose details, read a quote, reserve a checkout, save or fail an order, capture, request a refund, refund
  news, check, submit and review a student document, decisions and withdrawals, deadline extension, both discard sweeps.
  The payment provider is an environment: it takes payments, makes refunds and reports both in any order and number.
- **Invitations** (`Invitations`, `InvitationBatch`, `InvitationDesk`, `InvitationRuns`) and their **change feed**
  (`ChangeFeed`).
- **Bots**: request limits (`Limiter`), keys and scopes (`KeyLifecycle`), request identity (`CanonicalJson`).
- **Revenue report** (`Revenue`), **revision cycles** (`RevisionCycles`), **virus-scan framing** (`ScanFraming`).

Nine properties one might expect are false of the code. Each has a run that shows it and the exact condition under
which it holds:

- A discard sweep can discard a paid registration. The API sweep's decision and its write are separate: the write hits a
  paid registration exactly when, in between, a capture brought the money up to the amount due or the rejection of a
  document brought the amount due down to the money, and the registration stayed covered since
  (`LateSweeps.LateSweepHitsExactly`, `WitnessRuns.LateSweepDiscardsPaid`). The worker's sweep also subtracts refunds that
  were never processed (`LedgerRuns.WorkerSweepExact`, `WitnessRuns.WorkerDiscardsPaidStudent`), so its write also hits
  registrations that were paid all along (`LateSweeps.WorkerWriteHitsExactly`).
- The grace period of an additional payment can be cut short: the worker's sweep discards an owing registration, and the
  API sweep does not, exactly while its deadline has passed and its grace period has not (`Answers.GraceIsCutExactly`,
  `WitnessRuns.WorkerCutsGrace`).
- Reserved refunds can exceed a capture, when the provider also refunds on its own: a run stays within the captures
  exactly when all its refund news find room (`Reservations.RunStaysWithinExactly`,
  `WitnessRuns.DashboardRefundOverReserves`).
- The order of two refunds can show in the status: exactly when together they return all the money of an open
  registration and exactly one of them is at least the amount due (`RefundRuns.OrderShowsInRuns`,
  `WitnessRuns.OrderOfRefundsShows`).
- The order of the news about one refund can show, when some name the intent and some do not, as the provider's answer
  and its webhook: no order matters exactly when all news that can take effect take the same row and no news that may be
  passed over report anything higher (`RefundConvergence.EveryOrderAgreesExactly`,
  `WitnessRuns.WebhookBeforeAnswer`).
- Opening a checkout can mark a refund request as failed: exactly when the request is the newest row still CREATED and
  at least a minute old, and nothing stands against the checkout (`Reservations.RefundFailsExactly`,
  `WitnessRuns.CheckoutFailsRefund`).
- Two live invitations can exist for one address: a run never has two exactly when nobody resends or reissues an
  invitation, with new time, while another is live for its address (`InvitationRuns.OneLiveExactly`,
  `InvitationRuns.ResendMakesTwoLive`, `Invitations.ReissueMakesTwoLive`).
- Equal requests can have different canonical texts: canonical text decides meaning exactly when the comparison of names
  ties no two different ones (`CanonicalJson.CanonicalDecidesExactly`, `CanonicalJson.TiesKeepInsertionOrder`).
- A current revision can be replaced without a newer one: it stays current exactly until a version of another kind, or
  the newest and newer revision, is scanned clean (`RevisionCycles.CurrentRevisionStaysExactly`,
  `RevisionCycles.LateSubmissionScanReplacesRevision`).

Where the code's comments and its behaviour differ, the model follows the code. The comment at
packages/db/src/scan.ts:21 says that the first clean revision opens the next cycle; a repeated job of the same revision
opens another one after the next revision decision (`RevisionCycles.RepeatedScanOpensNextCycle`).

Every induction is written out: lemmas whose parameters Dafny would otherwise induct on by itself say
`{:induction false}`. Check everything with `dafny verify dfyconfig.toml`.

## Model

| member | source | states |
|---|---|---|
| `FeeResolver.QuoteRegistration` | apps/api/src/billing/fee-resolver.ts:73-111 | every quote, in either currency and for base or additional papers, asks for 100 up to the largest 32-bit amount, and so does its regular price |
| `FeeResolver.RegularPriceIsRegularQuote` | apps/api/src/billing/fee-resolver.ts:73-111 | the regular price kept with a quote is what a regular author would be quoted at that moment, in the same currency |
| `FeeResolver.QuoteIsTheScheduledFee` | apps/api/src/billing/fee-resolver.ts:73-111 | a quote is the scheduled fee for its timing at the charge rate, within half a minor unit, and exact without conversion |
| `FeeResolver.QuoteAnswers` | apps/api/src/billing/fee-resolver.ts:73-111 | the early fee is quoted exactly before the early-bird end, rupees exactly for Indian payers of a dollar schedule; a quote exists exactly if fees, country and rate are there as needed and the charges are in range |
| `PaidState.ComputePaidState` | apps/api/src/billing/paid-state.ts:10-38 | the loop returns the sums of the captured checkouts and of the settled refunds, and nothing else |
| `RefundAllocation.ReservedAgainst` | apps/api/src/billing/payments.service.ts:599-603 | the inner fold is the total reserved against one capture |
| `RefundAllocation.ReservedUnlinked` | apps/api/src/billing/payments.service.ts:590-593 | the total of reserved refunds linked to no capture |
| `RefundAllocation.AllocateRefund` | apps/api/src/billing/payments.service.ts:589-614 | the greedy loop computes the allocation, or refuses |
| `RefundAllocation.GreedyPlacesAllItCan` | apps/api/src/billing/payments.service.ts:596-612 | the greedy pass places exactly the smaller of the request and the free money, from any point of the list |
| `RefundAllocation.AllocationComplete` | apps/api/src/billing/payments.service.ts:613-614 | a request is accepted if and only if it is positive and at most the positive remainders of the captures less the unlinked refunds |
| `RefundAllocation.AllocationSound` | apps/api/src/billing/payments.service.ts:595-614 | accepted parts are positive, go to distinct captures, sum to the request, and with what is already linked stay within each capture |
| `RefundAllocation.OldestIsDrawnFirst` | apps/api/src/billing/payments.service.ts:595-612 | an accepted request draws from the captures before any position all they hold beyond the unlinked refunds until it is placed; a later capture is drawn only when these are used up |
| `RegistrationStore.RegistrationRows.Open` | apps/api/src/billing/registrations.service.ts:126-141 | a newly opened registration has no price and no rows |
| `RegistrationStore.RegistrationRows.ReserveCheckout` | apps/api/src/billing/payments.service.ts:87-193 | the reservation transaction: every refusal in its order, the reuse or failing of an open checkout, and the whole new state |
| `LedgerSteps.ReservesExactly` | apps/api/src/billing/payments.service.ts:87-193 | a new checkout is reserved if and only if nothing refuses it, no open row has an order or is younger than a minute, the key is new, the version is as read and at least 100 is to be paid |
| `RegistrationStore.RegistrationRows.SaveOrder` | apps/api/src/billing/payments.service.ts:214-222 | the order id is saved on the reserved row, and only there |
| `RegistrationStore.RegistrationRows.SaveOrderFailure` | apps/api/src/billing/payments.service.ts:223-228 | a failed order marks its row |
| `RegistrationStore.RegistrationRows.ProcessCapture` | apps/api/src/billing/payments.service.ts:353-477 | the capture transaction: unknown, foreign, repeated and mismatched events, pricing, and the whole new state |
| `RegistrationStore.RegistrationRows.DeriveStatus` | apps/api/src/billing/payments.service.ts:456-470 | the status after a capture: cancelled when the paper is not eligible, else derived from net paid money and the latest document |
| `RegistrationStore.RegistrationRows.RequestRefund` | apps/api/src/billing/payments.service.ts:562-640 | the refund request transaction: retry check, version check, allocation, one row for each part |
| `RegistrationStore.RegistrationRows.IsMatchingRetry` | apps/api/src/billing/payments.service.ts:572-582 | a retry matches when the recorded intents sum to the amount and all carry the reason |
| `RegistrationStore.RegistrationRows.ProcessRefund` | apps/api/src/billing/payments.service.ts:712-809 | the refund event transaction: validation, finding the row, terminal statuses, update or insert, registration status |
| `LedgerSteps.NewsTakenExactly` | apps/api/src/billing/payments.service.ts:724-769 | refund news are applied if and only if they are valid for a capture, fit the row they come to, and that row is not refunded, nor failed while the news are pending |
| `RegistrationStore.RegistrationRows.ReviewDocument` | apps/api/src/billing/student-verification.service.ts:270-414 | the three review decisions with every refusal in its order |
| `RegistrationStore.RegistrationRows.CheckUpload` | apps/api/src/billing/student-verification.service.ts:97-109 | what is read before the upload is stored: the payer, the category and the status |
| `RegistrationStore.RegistrationRows.SubmitDocument` | apps/api/src/billing/student-verification.service.ts:120-151 | under the lock category and status are read again, the payer is not; a new document replaces the open ones and a repeated upload adds nothing |
| `RegistrationStore.RegistrationRows.ChooseDetails` | apps/api/src/billing/registrations.service.ts:274-340 | audience and country change only before checkout; later only missing invoice details are accepted |
| `RegistrationStore.RegistrationRows.ExtendDeadline` | apps/api/src/billing/registrations.service.ts:504-528 | a new deadline clears the grace period, under a version check |
| `RegistrationStore.RegistrationRows.Reopen` | apps/api/src/billing/registrations.service.ts:94-124 | only an unpaid, unpriced cancellation is reopened, and only if it has not changed since it was read |
| `RegistrationStore.RegistrationRows.ApiSweepDecision` | apps/api/src/billing/discard-sweep.service.ts:59-91 | the branches of the API sweep decide what the specification says |
| `RegistrationStore.RegistrationRows.WorkerSweepDecision` | apps/worker/src/discard-sweep.ts:20-50 | the worker sweep with its own loop over the rows decides what the specification says |
| `RegistrationStore.RegistrationRows.WriteStatus` | apps/api/src/billing/discard-sweep.service.ts:93-97 | closing writes the status and moves the version |
| `Answers.QuoteReadAnswers` | apps/api/src/billing/payments.service.ts:63-83 | the read before a checkout keeps the registration as it is, with the charge for the scheduled fee of its audience, country and moment exactly if it is pending and unpriced |
| `Answers.CheckoutExactly` | apps/api/src/billing/payments.service.ts:91-160 | a checkout is reserved if and only if status, billing data, window, payer and student document allow it, the newest open row has no order and is a minute old, the key is new, the version is as read and at least 100 is to be paid |
| `Answers.CheckoutRefusals` | apps/api/src/billing/payments.service.ts:91-160 | every refusal of a checkout and its reason, in order, and when an open checkout is handed back |
| `Answers.CheckoutAnswers` | apps/api/src/billing/payments.service.ts:130-193 | in reachable states the newest open row fails and one row is added that asks for the amount due less the net, all of it while pending, with its kind, currency, key and time; the net is unchanged |
| `Answers.OrderAnswers` | apps/api/src/billing/payments.service.ts:214-228 | a fresh order is saved on the reserved row alone, and a failure marks it alone |
| `Answers.AdditionalCheckoutSettles` | apps/api/src/billing/payments.service.ts:152-156 | capturing an additional checkout, with no money or price moved since and an eligible paper, leaves exactly the amount due and the registration PAID |
| `Answers.UnknownOrder` | apps/api/src/billing/payments.service.ts:354-367 | an event for an unknown order changes nothing |
| `Answers.CaptureAnswers` | apps/api/src/billing/payments.service.ts:353-477 | in reachable states a foreign or repeated event changes nothing and a mismatch is refused; otherwise the money is booked and the status is CANCELLED for an ineligible paper, kept if closed or short, AWAITING_VERIFICATION for a student's first payment without an approved document, else PAID |
| `Answers.NewsAnswers` | apps/api/src/billing/payments.service.ts:712-809 | which row refund news come to, when they are refused or pass, the row they leave; a covered registration keeps PAID or AWAITING_VERIFICATION, else owes if it did or money is left, else is REFUNDED |
| `Answers.RequestAnswers` | apps/api/src/billing/payments.service.ts:562-640 | when a repeat passes or is refused, when a new request is accepted, and its rows |
| `Answers.ReviewAnswers` | apps/api/src/billing/student-verification.service.ts:270-414 | when a review is accepted; an approval pays exactly a registration whose net covers a positive amount due, a clarification leaves it, a rejection makes it regular or asks for the regular price until the end of the grace period |
| `Answers.ReviewRefusals` | apps/api/src/billing/student-verification.service.ts:270-372 | every refusal of a review and its reason, in order |
| `Answers.UploadAnswers` | apps/api/src/billing/student-verification.service.ts:97-151 | when an upload is taken; the new document is the latest and every other in review is rejected |
| `Answers.ScanAnswers` | packages/db/src/scan.ts:41-44 | a scan result reaches exactly the documents with that file |
| `Answers.DetailsAnswers` | apps/api/src/billing/registrations.service.ts:274-340 | when details are accepted, and what of audience and country changes |
| `Answers.ExtensionAnswers` | apps/api/src/billing/registrations.service.ts:504-528 | an extension for the current version gives exactly the time up to the new deadline, also in the grace period |
| `Answers.ReopenAnswers` | apps/api/src/billing/registrations.service.ts:94-124 | a cancellation is reopened exactly if it was read unpriced and unsettled and has not changed; it has no rows |
| `Answers.ClosingAnswers` | apps/api/src/submission/papers.service.ts:461-474 | a decision against the paper cancels every open registration, a withdrawal spares the paid ones |
| `Answers.ApiSweepAnswers` | apps/api/src/billing/discard-sweep.service.ts:22-91 | in reachable states the API sweep discards exactly pending registrations past their deadline and owing ones past their grace period |
| `Answers.WorkerSweepAnswers` | apps/worker/src/discard-sweep.ts:9-49 | the worker sweep discards exactly pending ones past their deadline, owing ones past deadline or grace period, and waiting ones past their deadline that unmade refunds would leave short |
| `Answers.GraceIsCutExactly` | apps/worker/src/discard-sweep.ts:39-49 | for an owing registration the two sweeps differ exactly between its deadline and the end of its grace period |
| `LedgerRuns.StepKeeps` | apps/api/src/billing/payments.service.ts:387-477 | every step of the whole machine keeps the ledger invariant and the validity of everything read earlier, and only advances rows, price, payer and version |
| `LedgerRuns.RunKeeps` | apps/api/src/billing/payments.service.ts:387-477 | the same over every run |
| `LedgerRuns.PaidIsCovered` | apps/api/src/billing/paid-state.ts:47-92 | in every reachable state PAID or AWAITING_VERIFICATION means net captured money of at least the amount due, which is at least 100 |
| `LedgerRuns.PendingIsUnpaid` | apps/api/src/billing/payments.service.ts:151-190 | while PENDING nothing is captured and every row is an initial checkout for exactly the amount due |
| `LedgerRuns.RowsShareCurrency` | apps/api/src/billing/payments.service.ts:157-190 | all payment and refund rows have the registration's currency; an unpriced registration has none |
| `LedgerRuns.PriceStaysLocked` | apps/api/src/billing/student-verification.service.ts:375-402 | once timing is locked, timing, currency and regular price never change, and the amount due is the locked amount or the locked regular amount |
| `LedgerRuns.DetailsFreeze` | apps/api/src/billing/registrations.service.ts:286-323 | once timing is locked, audience and country never change in any run |
| `LedgerRuns.StudentIsCheckedBeforePaid` | apps/api/src/billing/payments.service.ts:461-470 | the step that makes a student's registration PAID finds an approved document, an outstanding additional payment, or the regular price as amount due |
| `LedgerRuns.LockComesFromQuote` | apps/api/src/billing/payments.service.ts:161-177 | the step that locks a price is a checkout, and takes it from a valid quote of the registration as it still is |
| `LedgerRuns.CaptureNeverReprices` | apps/api/src/billing/payments.service.ts:412-446 | in reachable states the repricing branch of a capture is never taken: the day's fee schedule has no influence |
| `LedgerRuns.RejectionUsesSnapshot` | apps/api/src/billing/student-verification.service.ts:375-377 | rejecting a document of a priced registration always uses the stored regular price |
| `LedgerRuns.ClosedForever` | apps/api/src/billing/paid-state.ts:47-92 | a priced registration that was cancelled, discarded or refunded never leaves those statuses |
| `LedgerRuns.PayerIsWriteOnce` | apps/api/src/billing/payments.service.ts:104-108 | whoever starts the checkout stays the payer in every run |
| `LedgerRuns.RowsOnlyClimb` | apps/api/src/billing/payments.service.ts:763-780 | in every run a row's money and identity are final, its provider id is write-once, and its status only climbs, with captured and refunded final |
| `LedgerRuns.ProviderIdsAreUnique` | apps/api/src/billing/payments.service.ts:369-380 | no two rows ever carry the same provider id |
| `LedgerRuns.SameVersionSameRegistration` | apps/api/src/billing/payments.service.ts:146-150 | a registration whose version has not moved has not changed: the optimistic checks are enough |
| `LedgerRuns.ApiSweepSparesPaid` | apps/api/src/billing/discard-sweep.service.ts:64-91 | read and written in one go, the API sweep never discards a paid registration |
| `LedgerRuns.LateSweepIsStale` | apps/api/src/billing/discard-sweep.service.ts:59-103 | if its separate write hits a paid registration, the version has moved since the read |
| `LateSweeps.PaidExactlyWhenCovered` | apps/api/src/billing/paid-state.ts:47-92 | a reachable registration is PAID or AWAITING_VERIFICATION if and only if it is open, priced and holds at least the amount due |
| `LateSweeps.OnlyThesePay` | apps/api/src/billing/payments.service.ts:448-470 | only a capture that brings the net up to the amount due, or a rejection that brings the amount due down to the net, makes a registration paid |
| `LateSweeps.PaidAtEndExactly` | apps/api/src/billing/paid-state.ts:47-92 | a run ends paid if and only if the registration was covered throughout, or some step paid it and it stayed covered |
| `LateSweeps.PaidFromSomeStep` | apps/api/src/billing/paid-state.ts:47-92 | a run from an unpaid registration ends paid if and only if one of its steps is such and the registration stayed covered after it |
| `LateSweeps.LateSweepHitsExactly` | apps/api/src/billing/discard-sweep.service.ts:59-103 | the API sweep's late write hits a paid registration if and only if between its read and its write such a step occurred and the registration stayed covered |
| `LateSweeps.WorkerWriteHitsExactly` | apps/worker/src/discard-sweep.ts:25-60 | the worker sweep's late write hits a paid registration if and only if it was paid from the read on, or a step paid it in between and it stayed covered |
| `LedgerRuns.ApiSweepExact` | apps/api/src/billing/discard-sweep.service.ts:22-91 | among its candidates the API sweep discards exactly those with less than the amount due, or without a price |
| `LedgerRuns.WorkerSweepExact` | apps/worker/src/discard-sweep.ts:25-50 | the worker sweep discards a paid registration exactly when it awaits verification past its deadline and unprocessed or failed refunds would leave too little |
| `WitnessRuns.LateSweepDiscardsPaid` | apps/api/src/billing/discard-sweep.service.ts:59-103 | a run in which the API sweep's late write discards a paid registration |
| `WitnessRuns.WorkerDiscardsPaidStudent` | apps/worker/src/discard-sweep.ts:25-50 | a run in which the worker sweep would discard a paid student and the API sweep would not |
| `WitnessRuns.WorkerCutsGrace` | apps/worker/src/discard-sweep.ts:39-49 | a run in which the worker sweep discards a rejected student within the grace period |
| `WitnessRuns.DashboardRefundOverReserves` | apps/api/src/billing/payments.service.ts:781-796 | a run in which a requested and a dashboard refund together reserve twice the capture |
| `WitnessRuns.WebhookBeforeAnswer` | apps/api/src/billing/payments.service.ts:744-752 | a reachable registration for which a pending webhook and the pending answer to our own request leave three rows or two by their order |
| `WitnessRuns.CheckoutFailsRefund` | apps/api/src/billing/payments.service.ts:130-144 | a run in which opening a checkout marks an open refund request FAILED |
| `WitnessRuns.OrderOfRefundsShows` | apps/api/src/billing/paid-state.ts:70-92 | a run to a PAID registration with 15000 left of a price of 10000, for which refunds of 5000 and 10000 end REFUNDED or ADDITIONAL_PAYMENT_REQUIRED by their order |
| `Captures.ReplayChangesNothing` | apps/api/src/billing/payments.service.ts:395-402 | any event for a captured order leaves ledger and registration unchanged |
| `Captures.ReconciliationIsIdempotent` | apps/api/src/billing/payments.service.ts:856-887 | the event reconciliation rebuilds from a captured row changes nothing |
| `Captures.DeliveredAreCaptured` | apps/api/src/billing/payments.service.ts:353-477 | after any deliveries a checkout is captured exactly if it was, or some delivery pays its order in full; other rows are untouched |
| `Captures.TotalsAreOrderFree` | apps/api/src/billing/payments.service.ts:353-477 | two deliveries of the same events, in any order and number, give the same captured and refunded totals |
| `RefundConvergence.DeliverIsFinal` | apps/api/src/billing/payments.service.ts:744-807 | any news about one refund, each with its own status, intent and time, end in the state computed from the row the first effective one takes and the highest status from then on |
| `RefundConvergence.RefundSettlesOnce` | apps/api/src/billing/payments.service.ts:744-806 | with any intents one row carries the refund id, its status is the highest of CREATED < FAILED < REFUNDED, every other row is untouched, and the registration moves once, when the refund is first processed |
| `RefundConvergence.AllNewsCount` | apps/api/src/billing/payments.service.ts:757-780 | if the refund fits every intent the news name, no status but a pending one is ever passed over |
| `RefundConvergence.DeliveriesAgreeExactly` | apps/api/src/billing/payments.service.ts:744-806 | any two histories that take effect leave the same ledger if and only if the same row carries the refund and reaches the same status |
| `RefundConvergence.NewsConvergeExactly` | apps/api/src/billing/payments.service.ts:744-806 | the same news in two orders, with any duplicates, leave the same ledger if and only if their first effective deliveries take the same row and it ends equally high |
| `RefundConvergence.FittingNewsConvergeExactly` | apps/api/src/billing/payments.service.ts:744-780 | if the refund fits every intent the news name, only the row taken first matters |
| `RefundConvergence.EveryOrderAgreesExactly` | apps/api/src/billing/payments.service.ts:744-752 | order and duplication of any news never matter if and only if all of them that can take effect take one row, and those that may be passed over report nothing higher |
| `RefundRuns.NewsUpdateOnlyToSettle` | apps/api/src/billing/payments.service.ts:798-806 | refund news change the registration exactly when they newly settle their refund, and then move its version by one |
| `RefundRuns.SettledOnceInEveryRun` | apps/api/src/billing/payments.service.ts:769-806 | in every run, whatever happens between the deliveries, the registration is updated for one provider refund at most once: exactly when the run makes the refund done |
| `RefundRuns.OrderMattersExactly` | apps/api/src/billing/paid-state.ts:70-92 | two processed refunds applied to a ledger in either order take the same money, and give the same status if and only if it is closed, money is left, or both first refunds alone lead to the same place |
| `RefundRuns.OrderShowsInRuns` | apps/api/src/billing/paid-state.ts:70-92 | in runs two refunds the provider made end in different statuses by their order if and only if the registration is open, they return all the money and exactly one is at least the amount due |
| `RefundRequests.AcceptedRequest` | apps/api/src/billing/payments.service.ts:583-640 | an accepted request records rows under its version that sum to its amount, and disturbs no other version's intents |
| `RefundRequests.ReservedExactlyOnce` | apps/api/src/billing/payments.service.ts:562-640 | in every run the intents under a version are none, or sum to the single request accepted under it |
| `RefundRequests.RetryIsRecognised` | apps/api/src/billing/payments.service.ts:569-582 | after an accepted request, any later repeat adds nothing if amount and reason match and is refused otherwise |
| `RefundBound.RefundsWithinCapture` | apps/api/src/billing/payments.service.ts:724-796 | each refunded row of a capture has its own entry in the provider's books, so they sum to at most the capture |
| `RefundBound.NetIsNeverNegative` | apps/api/src/billing/paid-state.ts:21-37 | then the net of the registration is not negative |
| `RefundBound.RunsNeverOverRefund` | apps/api/src/billing/payments.service.ts:724-796 | both hold in every run in which the provider refunds no payment beyond its amount and takes no negative payments |
| `Reservations.OnlyNewsCanOverReserve` | apps/api/src/billing/payments.service.ts:585-614 | every step except refund news keeps the reserved refunds of each capture within it |
| `Reservations.NewsOverReserveExactly` | apps/api/src/billing/payments.service.ts:744-796 | refund news that are taken keep that bound if and only if the capture has room for what they add; news about an open request of ours always do |
| `Reservations.RunStaysWithinExactly` | apps/api/src/billing/payments.service.ts:585-796 | a run keeps the reserved refunds of every capture within it after every step if and only if all its refund news find room |
| `Reservations.RefundFailsExactly` | apps/api/src/billing/payments.service.ts:130-144 | a step marks an open refund row FAILED if and only if it is fitting news that it failed, or a checkout against which nothing stands and for which it is the newest row still CREATED |
| `Reservations.RefundEndsHighest` | apps/api/src/billing/payments.service.ts:763-780 | in every run, whatever else happens in between, a refund row ends at the highest of its status at the start, the fitting news that came to it, and FAILED if a checkout failed it |
| `ChangeFeed.ChangeLog.RecordInvitationChange` | packages/db/src/reviewer-invitations.ts:73-90 | takes the conference lock or waits, then appends one row under the next sequence number |
| `ChangeFeed.ChangeLog.CommitTransaction` | packages/db/src/reviewer-invitations.ts:79-90 | a commit shows all rows of a transaction and only then frees its locks |
| `ChangeFeed.ChangeLog.RollBackTransaction` | packages/db/src/reviewer-invitations.ts:79-90 | a rollback drops rows and locks and leaves a gap in the numbers |
| `ChangeFeed.ChangeLog.Changes` | apps/api/src/integrations/invitation-operations.service.ts:147-168 | the page of rows behind the cursor, the next cursor and whether more follow |
| `ChangeFeed.NeverSkipsOrRepeats` | packages/db/src/reviewer-invitations.ts:79-90 | over every interleaving of writers and the poller, the delivered rows are ascending and exactly the conference's committed rows up to the cursor |
| `ChangeFeed.CommitsLandBehindTheCursor` | packages/db/src/reviewer-invitations.ts:79-90 | rows that commit later are numbered past every cursor handed out before, and what was delivered is never amended |
| `ChangeFeed.PollCatchesUpOrMoves` | apps/api/src/integrations/invitation-operations.service.ts:152-167 | a page without more has delivered everything committed; a page with more moves the cursor by a full page |
| `ChangeFeed.WithoutTheLockARowIsSkipped` | packages/db/src/reviewer-invitations.ts:79-81 | without the lock a run skips a committed row for good |
| `Invitations.CountsCoverEveryInvitation` | apps/api/src/integrations/invitation-operations.service.ts:35-53 | the six database filters split the ledger and agree with the lifecycle computed for each row |
| `Invitations.NormaliseIsASet` | apps/api/src/integrations/bot-invitations.service.ts:117 | a request's addresses are folded and each kept once |
| `Invitations.GenerateKeeps` | apps/api/src/integrations/bot-invitations.service.ts:139-197 | every requested address ends with a live, sent invitation whose id is handed back; the request keeps the change log complete, closed invitations as they are, and one live invitation per address if there was one |
| `Invitations.GenerateAgain` | apps/api/src/integrations/bot-invitations.service.ts:142-177 | asking again at the same moment writes nothing and hands back the same ids, whatever invitations there are |
| `Invitations.LinkRemoveAnswerKeep` | apps/api/src/integrations/bot-invitations.service.ts:84-106 | sharing a link, removing, accepting and declining keep the change log complete, closed invitations as they are, and one live invitation per address if there was one |
| `Invitations.IssueKeeps` | apps/api/src/review/invitations.service.ts:186-217 | an organiser's invitation keeps the same |
| `Invitations.ExpireAllKeeps` | apps/worker/src/invitation-batches.ts:27-39 | the expiry sweep keeps the same, on any stale list of candidates |
| `Invitations.SweepIsInvisible` | apps/worker/src/invitation-batches.ts:27-39 | the sweep changes no lifecycle that any later reader computes |
| `Invitations.ResendKeepsOneLiveExactly` | apps/api/src/review/invitations.service.ts:282-300 | resending keeps the log and closed invitations, and one live invitation per address if and only if, when the row is not closed, no other is live for it or it gets no time |
| `Invitations.ActKeeps` | apps/api/src/review/invitation-lifecycle.ts:12-116 | every organiser's action keeps the log and closed invitations; extend, revoke and reinvite keep one live invitation per address, reissue does under the same condition as resending |
| `Invitations.ReissueMakesTwoLive` | apps/api/src/review/invitation-lifecycle.ts:88-112 | reissuing an expired invitation beside a newer one leaves two live |
| `Invitations.AnswerAnswers` | apps/api/src/review/invitations.service.ts:340-375 | accepting, declining, removing and sharing: when they act and the lifecycle each leaves |
| `Invitations.ResendAnswers` | apps/api/src/review/invitations.service.ts:275-304 | any invitation not answered or revoked gets its time anew |
| `Invitations.IssueAnswers` | apps/api/src/review/invitations.service.ts:186-217 | an address is invited exactly if no invitation is live for it |
| `Invitations.ActAnswers` | apps/api/src/review/invitation-lifecycle.ts:12-116 | for each command the lifecycles in which it acts and the one it leaves |
| `Invitations.GenerateAnswers` | apps/api/src/integrations/bot-invitations.service.ts:142-177 | a requested address keeps its newest live invitation, or gets one for seven days |
| `Invitations.SweepAnswers` | apps/worker/src/invitation-batches.ts:27-39 | the sweep marks exactly the candidates that have run out unanswered |
| `InvitationDesk.Desk.ShareLink` | apps/api/src/integrations/bot-invitations.service.ts:84-106 | marks a live unsent invitation sent, or refuses |
| `InvitationDesk.Desk.RemoveInvitation` | apps/api/src/integrations/bot-invitations.service.ts:261-279 | revokes a pending invitation, or refuses |
| `InvitationDesk.Desk.CurrentLive` | apps/api/src/integrations/bot-invitations.service.ts:142-155 | one scan finds the newest live invitation of every requested address |
| `InvitationDesk.Desk.Serve` | apps/api/src/integrations/bot-invitations.service.ts:163-196 | one address: hand back its live invitation or create one |
| `InvitationDesk.Desk.GenerateLinks` | apps/api/src/integrations/bot-invitations.service.ts:139-197 | looking all addresses up before writing gives the same as serving them one by one |
| `InvitationDesk.Desk.GenerateRequested` | apps/api/src/integrations/bot-invitations.service.ts:117-197 | the whole request from the addresses as typed |
| `InvitationDesk.Desk.SweepExpired` | apps/worker/src/invitation-batches.ts:27-39 | the sweep loop checks each candidate again |
| `InvitationDesk.BatchJob.FirstRows` | packages/db/src/reviewer-invitation-batches.ts:101-108 | the map from each address to its first valid row |
| `InvitationDesk.BatchJob.WorkRow` | packages/db/src/reviewer-invitation-batches.ts:110-246 | the outcomes of one row, in the order they are tried |
| `InvitationDesk.BatchJob.ProcessChunk` | packages/db/src/reviewer-invitation-batches.ts:19-257 | one chunk from the stored resume point: the cancelled and finished cases, 25 rows at most, the new status |
| `InvitationDesk.BatchJob.Work` | apps/worker/src/invitation-batches.ts:7-16 | the driver loop ends, and leaves the results and invitations of one pass over the remaining rows |
| `InvitationBatch.ChunkingIsInvisible` | packages/db/src/reviewer-invitation-batches.ts:101-256 | after any crashes and retries the stored state is that of one pass over the rows processed so far |
| `InvitationBatch.FinishedBatchIsOnePass` | packages/db/src/reviewer-invitation-batches.ts:248-256 | enough commits complete the batch with the results and invitations of one pass |
| `InvitationBatch.PassResults` | packages/db/src/reviewer-invitation-batches.ts:110-136 | one result for each row, in order, invalid and duplicate exactly where the input is |
| `InvitationBatch.VerdictAnswers` | packages/db/src/reviewer-invitation-batches.ts:138-238 | who is skipped, kept, left alone or invited, by reviewers, authors and the address's invitations |
| `InvitationBatch.CreatedRunsForDays` | packages/db/src/reviewer-invitation-batches.ts:219-238 | an invitation the batch creates runs for its days |
| `InvitationBatch.StoppedChunk` | packages/db/src/reviewer-invitation-batches.ts:24-94 | a batch that is over stays; one without a grant or past its time is cancelled and its upload erased; neither touches an invitation |
| `InvitationBatch.EachAddressDecidedOnce` | packages/db/src/reviewer-invitation-batches.ts:128-136 | each valid address has exactly one outcome that is neither, at its first valid row |
| `InvitationBatch.VerdictsComeFromTheStart` | packages/db/src/reviewer-invitation-batches.ts:138-246 | what a row comes to depends only on its address's history before the batch |
| `InvitationBatch.PassAddsSoundly` | packages/db/src/reviewer-invitation-batches.ts:179-238 | a pass adds at most one invitation for an address, and none where there was a live or closed one, a reviewer or an author |
| `InvitationBatch.BatchNeverRecreates` | packages/db/src/reviewer-invitation-batches.ts:207-219 | an address with a declined, accepted or revoked invitation gets no new one |
| `InvitationBatch.ChunkKeeps` | packages/db/src/reviewer-invitation-batches.ts:24-94 | in any environment a chunk keeps the change log complete, closed invitations as they are, and one live invitation per address if there was one; it never opens an erased upload, and ends the batch or gets 25 rows further |
| `InvitationRuns.OneLiveExactly` | apps/api/src/review/invitations.service.ts:275-304 | over every run of all writers, a batch and the clock, no two live invitations ever share an address if and only if nobody resends or reissues an invitation, with new time, while another is live for its address |
| `InvitationRuns.AtMostOneLiveInvitation` | apps/api/src/integrations/bot-invitations.service.ts:139-197 | after a run in which every resend and reissue is of that kind, no two live invitations share an address |
| `InvitationRuns.ResendMakesTwoLive` | apps/api/src/review/invitations.service.ts:275-304 | a run after which resending an expired invitation makes two live for one address |
| `InvitationRuns.EveryVersionIsRecorded` | packages/db/src/reviewer-invitations.ts:73-90 | the change log holds each invitation's versions 0, 1, 2, ... up to its current one, each once |
| `InvitationRuns.ClosedInvitationsAreFinal` | apps/api/src/review/invitations.service.ts:340-375 | accepted, declined and revoked invitations never change again, and the log only grows |
| `InvitationRuns.BatchResultsInEveryRun` | packages/db/src/reviewer-invitation-batches.ts:101-256 | whatever runs between its chunks, a batch has one fitting result for each row worked off, and a finished one decides each address once |
| `Limiter.Store.CountForKey` | apps/api/src/integrations/integration.limiter.ts:6 | the counter script on a key's window |
| `Limiter.Store.CountForConference` | apps/api/src/integrations/integration.limiter.ts:6 | the counter script on the conference's window |
| `Limiter.Store.LeaseScript` | apps/api/src/integrations/integration.limiter.ts:7 | purge both sets, refuse at either limit, else add to both and renew both |
| `Limiter.Store.ReleaseScript` | apps/api/src/integrations/integration.limiter.ts:49-62 | a release takes the token out of both sets |
| `Limiter.Store.AcquireFor` | apps/api/src/integrations/integration.limiter.ts:40-48 | counting for the key, counting for the conference, then the limits and the lease |
| `Limiter.ConcurrencyIsBounded` | apps/api/src/integrations/integration.limiter.ts:7 | in every run at most 2 requests of a key and 10 of the conference hold a live lease |
| `Limiter.LiveLeasesAreNeverDropped` | apps/api/src/integrations/integration.limiter.ts:7 | a live lease is in its key's set and the conference's, and both sets outlive it by at least a second |
| `Limiter.AnyMinuteIsBounded` | apps/api/src/integrations/integration.limiter.ts:6 | any 60 seconds admit at most 119 requests of a key and 599 of the conference |
| `Limiter.LeaseIsGivenExactly` | apps/api/src/integrations/integration.limiter.ts:7 | in every run a counted request gets its lease, on a current clock, if and only if it is within both limits and fewer than 2 requests of its key and 10 of the conference run on a lease |
| `Limiter.ReleaseFrees` | apps/api/src/integrations/integration.limiter.ts:49-62 | in every run a release ends exactly its own lease |
| `Limiter.BoundIsReached` | apps/api/src/integrations/integration.limiter.ts:6 | for every limit, calls of one counter reach one less than twice the limit within 60 seconds |
| `Limiter.MinuteBoundsAreReached` | apps/api/src/integrations/integration.limiter.ts:40-62 | one run of 600 requests, each counted twice, leased and released, is admitted 119 times for a key and 599 times for the conference within 60 seconds |
| `KeyLifecycle.FilterScopes` | apps/api/src/integrations/integration.store.ts:496-498 | the filter loop is the intersection |
| `KeyLifecycle.RecheckFailsOnlyWhenEmpty` | packages/schemas/src/integrations.ts:17-41 | the intersection of two valid scope lists is closed, and valid if and only if it is not empty |
| `KeyLifecycle.Store.ChangeIntegration` | apps/api/src/integrations/integration.store.ts:245-283 | change, revoke and reauthorise: refusals, version, and the revoking of every key |
| `KeyLifecycle.Store.RevokeEveryKey` | apps/api/src/integrations/integration.store.ts:275-279 | every key is revoked and nothing else changes |
| `KeyLifecycle.Store.IssueKey` | apps/api/src/integrations/integration.store.ts:290-335 | the refusals in order, and one new key |
| `KeyLifecycle.Store.RevokeOneKey` | apps/api/src/integrations/integration.store.ts:337-358 | one key is revoked, again or for the first time |
| `KeyLifecycle.AtMostTwoLiveKeys` | apps/api/src/integrations/integration.store.ts:310-316 | in every run an integration has at most two live keys, so showing two shows all |
| `KeyLifecycle.RevokedIsFinal` | apps/api/src/integrations/integration.store.ts:248-279 | a revoked integration stays so, has no key that is not revoked, and lets nobody in |
| `KeyLifecycle.KeyGetsInExactly` | apps/api/src/integrations/integration.store.ts:445-499 | in every run a live key of an active grant gets in exactly when it shares a scope with the grant, with the scopes in both |
| `KeyLifecycle.ChangeAnswers` | apps/api/src/integrations/integration.store.ts:245-283 | when a change is accepted, and what it does to status, scopes, authorizer, version and each key |
| `KeyLifecycle.IssueAnswers` | apps/api/src/integrations/integration.store.ts:290-335 | a key is issued exactly for an active grant, with permission, within its scopes, under a new request and beside at most one live key |
| `KeyLifecycle.OldKeysStayOut` | apps/api/src/integrations/integration.store.ts:275-279 | in every run no key issued before a reauthorisation ever gets in again |
| `CanonicalJson.RoundTrip` | apps/api/src/integrations/integration.security.ts:49-61 | parsing written text gives back the value, at any depth, and stops where it ended |
| `CanonicalJson.CanonicalIsNorm` | apps/api/src/integrations/integration.security.ts:49-61 | the canonical text exists exactly for values without undefined array elements, and is the text of the normal form |
| `CanonicalJson.CanonicalDecidesMeaning` | apps/api/src/integrations/integration.security.ts:49-61 | for any consistent comparison, two values without tied names in one object have the same canonical text if and only if they are equal up to key order and undefined fields |
| `CanonicalJson.CanonicalDecidesExactly` | apps/api/src/integrations/integration.security.ts:49-61 | canonical text decides meaning for all values if and only if the comparison ties no two different names |
| `CanonicalJson.CanonicalIsIdempotent` | apps/api/src/integrations/integration.security.ts:49-61 | canonicalising the reparsed text of a value without tied names gives the same text |
| `CanonicalJson.TiesKeepInsertionOrder` | apps/api/src/integrations/integration.security.ts:56 | if the comparison ties two names, equal values get different texts |
| `Revenue.AggregateRevenue` | apps/api/src/analytics/analytics.service.ts:244-330 | the loop over payments with its running totals and maps is the payment-by-payment report |
| `Revenue.AggregateRevenueReports` | apps/api/src/analytics/analytics.service.ts:332-347 | the second report is in the other currency of the pair, and exists only with a usable rate |
| `Revenue.RevenueIsConserved` | apps/api/src/analytics/analytics.service.ts:268-329 | revenue is captured less refunded and the sum by timing, by audience and of the converted sources; excluded payments are those of unconverted sources |
| `Revenue.RoundingIsBounded` | apps/api/src/analytics/analytics.service.ts:279-284 | n converted payments are within n half minor units of exact conversion |
| `Revenue.RevenueAnswers` | apps/api/src/analytics/analytics.service.ts:244-330 | the revenue is the total in the report's currency plus the other of the pair at the schedule's own rate, divided by it in dollars and times it in rupees, within half a minor unit for each converted payment; exactly the other currencies are left out |
| `Revenue.OnePaymentRoundsHalfUp` | apps/api/src/analytics/analytics.service.ts:279-284 | the magnitude is rounded half up and the sign kept |
| `Revenue.RowsAreReports` | apps/api/src/analytics/analytics.service.ts:302-311 | each row by timing, audience and currency, and the captured and refunded totals, are the revenue of exactly their payments |
| `Revenue.SourcesAnswer` | apps/api/src/analytics/analytics.service.ts:285-300 | each source currency has its own totals in, out and net, and its number of payments |
| `Revenue.SameCurrencyIsExact` | apps/api/src/analytics/analytics.service.ts:271-284 | amounts in the report's currency are not rounded |
| `Revenue.RefundReversesReceipt` | apps/api/src/analytics/analytics.service.ts:241-243 | a refund takes out of the total and of every row exactly what an equal receipt put in |
| `Revenue.BothReportsExcludeTheSame` | apps/api/src/analytics/analytics.service.ts:332-347 | both currency reports leave out the same payments |
| `Revenue.ReportIsOrderFree` | apps/api/src/analytics/analytics.service.ts:268-312 | the report does not depend on the order of the payments |
| `RevisionCycles.PaperRecord.ApplyScanResult` | packages/db/src/scan.ts:30-84 | the scan transaction: ignored, thrown and activating cases, and the cycle it opens |
| `RevisionCycles.PaperRecord.OpenRevisionCycle` | packages/db/src/scan.ts:86-123 | the next round after a revision decision, unless it exists |
| `RevisionCycles.RoundsFollowDecisions` | packages/db/src/scan.ts:86-123 | in every run round numbers are 1, 2, 3, ... and each later round follows one minor or major revision decision |
| `RevisionCycles.OneCycleForEachDecision` | packages/db/src/scan.ts:102-120 | however jobs interleave, each decision opens at most one cycle |
| `RevisionCycles.SupersededNeverBecomesCurrent` | packages/db/src/scan.ts:58-68 | a superseded revision that is not current never becomes so |
| `RevisionCycles.CleanRevisionOpensNextRound` | packages/db/src/scan.ts:80-95 | an undisturbed job opens the next round exactly if it is the clean scan of the newest revision after a revision decision |
| `RevisionCycles.RepeatedJob` | packages/db/src/scan.ts:70-84 | repeating a job changes nothing, except that a camera-ready paper's version moves again |
| `RevisionCycles.JobAnswers` | packages/db/src/scan.ts:41-78 | what a job does to the scan result, the camera-ready state and the paper's version |
| `RevisionCycles.UploadAnswers` | packages/db/src/scan.ts:58-64 | in every run a new version has the next number of its kind, which is what the newest revision is found by |
| `RevisionCycles.JobSetsCurrentExactly` | packages/db/src/scan.ts:58-78 | a job changes the current version if and only if its scan is clean, the version exists and is not current, and it is the newest revision or no revision; then it becomes current |
| `RevisionCycles.CurrentRevisionStaysExactly` | packages/db/src/scan.ts:58-78 | in every run a current revision stays current throughout if and only if no version of another kind and no newer newest revision is scanned clean |
| `RevisionCycles.LateSubmissionScanReplacesRevision` | packages/db/src/scan.ts:58-78 | a late scan of the submission makes it current again |
| `RevisionCycles.RepeatedScanOpensNextCycle` | packages/db/src/scan.ts:86-115 | after the next revision decision an old revision's repeated job opens a cycle |
| `ScanFraming.SendBuffer` | apps/worker/src/clamav.ts:41-53 | the writing loop sends the command, the frames and the terminator, and decoding them gives the buffer |
| `ScanFraming.BigEndianRoundTrip` | apps/worker/src/clamav.ts:45-46 | the four length bytes read back as the length |
| `ScanFraming.FramesCoverBuffer` | apps/worker/src/clamav.ts:43-44 | every frame has 1 to 65536 bytes, only the last is short, and together they are the buffer |
| `ScanFraming.InstreamRoundTrip` | apps/worker/src/clamav.ts:43-53 | decoding stops exactly at the terminator with exactly the buffer, whatever follows |
| `ScanFraming.FramingIsInjective` | apps/worker/src/clamav.ts:43-53 | different buffers are framed differently |

## Left out

Assumptions of the model:

- Payment provider: order ids are fresh, capture events and processed refunds report what the provider really took or
  refunded, a payment id belongs to one order, and refunds of a payment never exceed it. Pending and failed news are not
  constrained.
- One payment provider for each deployment, so comparisons of provider names and the mock provider have no counterpart.
- Rows are never deleted, so an id is a position; creation order is id order.
- One registration at a time: rows of other registrations enter as flags (a key, payment or refund known elsewhere, a
  paid base paper).
- Invoice details are two flags, present and filling gaps only; roles, membership and row-level security are one flag.
- A capture's lookups before the row lock, and the two reads of a deadline extension, are part of their transaction.
- The candidates and the sum of a sweep are read together; its write is separate.
- Runs start from newly opened registrations, without rows from older versions of the system.
- The clock does not go back, and a time read before a script is not ahead of the clock it runs under. All rows of one
  invitation transaction see the same time.
- The comparison of keys in canonical text is any consistent one, ties included; how strings and numbers are spelled in
  characters is not modelled, nor are values with their own conversion to JSON.
- `FeeResolver.QuoteRegistration`: exchange rates are exact reals, so binary floating-point rounding is not modelled.
- `Revenue.RoundingIsBounded`: division by the exchange rate is exact, so the 20 digits of the decimal library are not
  modelled. The rows of the report are maps; their order by name is not modelled.
- `RefundBound.RunsNeverOverRefund`: rests on the provider's books; without that assumption a FAILED refund may still be
  reported as processed later, beyond the capture.
- `RevisionCycles.OneCycleForEachDecision`: interleaves scan jobs more freely than the row lock on the paper allows.
- `RevisionCycles.PaperRecord.OpenRevisionCycle`: a job that finds the next round already inserted keeps its activation
  of the version; in one PostgreSQL transaction the failed insert would abort the whole job.
- Case folding covers the ASCII letters, for the database comparison as for the program's; addresses arrive trimmed.

Not modelled:

- The replay of bot requests by request id, except for refund requests; audit rows, notifications, e-mail, invoices.
- Hashing, encryption, signatures and tokens; a batch's upload is either readable or erased.
- HTTP controllers, query validation, dashboards, raw reporting queries and the web client.
- The limits of single reviewer operations and of authentication attempts, which use the same counter script.
- Decisions, rounds and withdrawals beyond the steps they cause here; several papers or integrations at a time.
- The daemon's answer to a scan, timeouts and the socket itself.
- Deadline helpers, outreach counts, workload counts and release scripts.
