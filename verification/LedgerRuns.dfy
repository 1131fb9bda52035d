/** Safety of the billing machine over whole runs. */
module LedgerRuns {
  import opened Common
  import opened Billing
  import opened FeeResolver
  import opened PaidState
  import opened RefundAllocation
  import opened LedgerSteps
  import opened LedgerWorld
  import opened LedgerInvariant

  /** A decision of the API sweep that is still up to date never concerns a paid registration. */
  predicate DoomOk(reg: Registration, d: Doom) {
    d.version <= reg.version && (d.version == reg.version && !d.byWorker ==> !IsPaidStatus(reg.status))
  }

  predicate WorldOk(w: World) {
    && LedgerOk(w.ledger)
    && (forall attempt :: attempt in w.attempts ==> AttemptOk(w.ledger.reg, attempt))
    && (forall read :: read in w.opens ==> OpenReadOk(w.ledger, read))
    && (forall d :: d in w.doomed ==> DoomOk(w.ledger.reg, d))
  }

  /** Reads stay valid because every change of the registration moves its version. */
  lemma ReadsStayOk(w: World, m: Ledger)
    requires WorldOk(w) && LedgerOk(m) && Advances(w.ledger, m)
    ensures WorldOk(w.(ledger := m))
  {
  }

  lemma SweepKeepsPaid(l: Ledger, now: int, graceMs: int)
    requires LedgerOk(l) && ApiSweepDiscards(l, now, graceMs)
    ensures !IsPaidStatus(l.reg.status)
  {
    hide RowsOk, UniqueIds, PendingOk, IntentsOk, OneCurrency, PaidTotals;
  }

  lemma SameRowsKeep(l: Ledger, m: Ledger)
    requires LedgerOk(l) && m.reg == l.reg && m.payments == l.payments
    ensures LedgerOk(m) && Advances(l, m)
  {
    RowsReflexive(l.payments);
  }

  lemma StepAdvances(w: World, a: Action)
    requires WorldOk(w)
    ensures LedgerOk(Apply(w, a).ledger) && Advances(w.ledger, Apply(w, a).ledger)
  {
    hide LedgerOk, Advances, ReserveCheckout, ProcessCapture, RequestRefund, ProcessRefund, ReviewDocument;
    hide ChooseDetails, ExtendDeadline, Reopen, AttemptOk, OpenReadOk, DoomOk;
    var l := w.ledger;
    SameRowsKeep(l, l);
    match a
    case Reserve(user, key, elsewhere, ready, attempt, now) =>
      if attempt in w.attempts {
        ReserveKeeps(l, user, key, elsewhere, ready, attempt, now);
      }
    case SaveOrder(row, orderId) =>
      if AwaitsOrder(l.payments, row) && FreshOrder(l.payments, orderId) {
        SaveOrderKeeps(l, row, orderId);
      }
    case OrderFails(row) =>
      if AwaitsOrder(l.payments, row) {
        OrderFailsKeeps(l, row);
      }
    case Capture(ev, current, eligible, elsewhere) => CaptureKeeps(l, ev, current, eligible, elsewhere);
    case Request(amount, reason, version, now) => RequestKeeps(l, amount, reason, version, now);
    case RefundNews(news, elsewhere, now) => RefundKeeps(l, news, elsewhere, now);
    case Review(id, reviewer, decision, hasNote, current, graceMs) =>
      ReviewKeeps(l, id, reviewer, decision, hasNote, current, graceMs);
    case Submit(user, asset, scan) => SameRowsKeep(l, SubmitDocument(l, user, asset, scan).0);
    case ScanResult(asset, scan) => SameRowsKeep(l, l.(verifications := Scanned(l.verifications, asset, scan)));
    case Choose(user, audience, country, billingOnly) => DetailsKeep(l, user, audience, country, billingOnly);
    case Extend(deadline, version) => ExtendKeeps(l, deadline, version);
    case ReopenNow(read, now, deadline) =>
      if read in w.opens {
        ReopenKeeps(l, read, now, deadline);
      }
    case Decide => CloseKeeps(l, Cancelled);
    case Withdraw => CloseKeeps(l, Cancelled);
    case SweepWrite(seen) => CloseKeeps(l, DiscardedNonpayment);
    case _ =>
  }

  lemma StepEvolves(w: World, a: Action)
    requires WorldOk(w)
    ensures RowsEvolve(w.ledger.payments, Apply(w, a).ledger.payments)
  {
    hide Apply, LedgerOk, RowsEvolve;
    StepAdvances(w, a);
  }

  lemma ReviewKeepsRows(l: Ledger, a: Action)
    requires a.Review?
    ensures ReviewDocument(l, a.id, a.reviewer, a.decision, a.hasNote, a.current, a.graceMs).0.payments == l.payments
  {
    hide PaidTotals;
  }

  predicate OnlyReads(a: Action) {
    a.ReadQuote? || a.ReadOpen? || a.ReadUpload? || a.ApiScan? || a.WorkerScan? || a.ProviderPays? || a.ProviderRefunds?
  }

  lemma OthersOnlyWrite(w: World, a: Action)
    requires !OnlyReads(a)
    ensures Apply(w, a) == w.(ledger := Apply(w, a).ledger)
  {
  }

  lemma ReadsKeep(w: World, a: Action)
    requires WorldOk(w) && OnlyReads(a)
    ensures WorldOk(Apply(w, a))
  {
    hide LedgerOk, ApiSweepDiscards, WorkerSweepDiscards, OpenReadOk, ReadForOpen;
    NewReadOk(w.ledger);
    if a.ApiScan? && ApiSweepDiscards(w.ledger, a.now, a.graceMs) {
      SweepKeepsPaid(w.ledger, a.now, a.graceMs);
    }
  }

  lemma StepKeeps(w: World, a: Action)
    requires WorldOk(w)
    ensures WorldOk(Apply(w, a)) && Advances(w.ledger, Apply(w, a).ledger)
  {
    hide LedgerOk, Advances, Apply, WorldOk;
    StepAdvances(w, a);
    if OnlyReads(a) {
      ReadsKeep(w, a);
    } else {
      OthersOnlyWrite(w, a);
      ReadsStayOk(w, Apply(w, a).ledger);
    }
  }

  lemma NewReadOk(l: Ledger)
    ensures OpenReadOk(l, ReadForOpen(l))
  {
  }

  lemma {:induction false} RunKeeps(w: World, actions: seq<Action>)
    requires WorldOk(w)
    ensures WorldOk(Run(w, actions)) && Advances(w.ledger, Run(w, actions).ledger)
  {
    if actions == [] {
      SameRowsKeep(w.ledger, w.ledger);
    } else {
      var before := actions[..|actions| - 1];
      RunKeeps(w, before);
      StepKeeps(Run(w, before), actions[|actions| - 1]);
      AdvancesTransitive(w.ledger, Run(w, before).ledger, Run(w, actions).ledger);
    }
  }

  /** A world some run from a newly opened registration ends in. */
  ghost predicate Reachable(w: World) {
    exists currency, now, deadline, actions :: w == Run(Start(currency, now, deadline), actions)
  }

  lemma ReachableOk(w: World)
    requires Reachable(w)
    ensures WorldOk(w)
  {
    var currency, now, deadline, actions :| w == Run(Start(currency, now, deadline), actions);
    RunKeeps(Start(currency, now, deadline), actions);
  }

  lemma ReachableLedgerOk(w: World)
    requires Reachable(w)
    ensures LedgerOk(w.ledger)
  {
    hide Reachable, LedgerOk;
    ReachableOk(w);
  }

  // ---- Money and status --------------------------------------------------------------------

  /** A registration that counts as paid holds at least the amount due, which is a real price. */
  lemma PaidIsCovered(w: World)
    requires Reachable(w) && IsPaidStatus(w.ledger.reg.status)
    ensures Net(w.ledger.payments) >= w.ledger.reg.amountDue >= MIN_PAYABLE
  {
    hide Reachable, Run, Apply, PaidTotals;
    ReachableLedgerOk(w);
  }

  /** Before it is paid, a priced registration has only checkouts for exactly the amount due. */
  lemma PendingIsUnpaid(w: World)
    requires Reachable(w) && w.ledger.reg.status == Pending
    ensures Net(w.ledger.payments) == 0
    ensures forall i :: 0 <= i < |w.ledger.payments| ==>
              w.ledger.payments[i].kind == Initial && w.ledger.payments[i].amount == w.ledger.reg.amountDue
  {
    hide Reachable, Run, Apply, PaidTotals;
    ReachableLedgerOk(w);
    NothingCaptured(w.ledger.payments);
  }

  /** All rows are in the registration's currency, and an unpriced registration has none. */
  lemma RowsShareCurrency(w: World)
    requires Reachable(w)
    ensures OneCurrency(w.ledger.reg, w.ledger.payments)
    ensures w.ledger.reg.lockedTiming.None? ==> w.ledger.payments == []
  {
    hide Reachable, Run, Apply, PaidTotals;
    ReachableLedgerOk(w);
  }

  /** From the moment the price is locked, a run can only switch the amount due to the locked regular amount. */
  lemma {:induction false} PriceStaysLocked(w: World, actions: seq<Action>)
    requires Reachable(w) && w.ledger.reg.lockedTiming.Some?
    ensures var r, s := w.ledger.reg, Run(w, actions).ledger.reg;
            && s.lockedTiming == r.lockedTiming
            && s.currency == r.currency
            && s.regularAmountDue == r.regularAmountDue
            && (s.amountDue == r.amountDue || Some(s.amountDue) == r.regularAmountDue)
  {
    hide Reachable, Run, Apply, PaidTotals;
    ReachableOk(w);
    RunKeeps(w, actions);
  }

  lemma StepFreezesDetails(w: World, a: Action)
    requires w.ledger.reg.lockedTiming.Some?
    ensures Apply(w, a).ledger.reg.audience == w.ledger.reg.audience
    ensures Apply(w, a).ledger.reg.country == w.ledger.reg.country
  {
    hide PaidTotals, RowWhere, NewestCreated, FirstRefusal, Allocate, IntentRows, QuoteRegistration, StatusOnCapture;
    hide ApiSweepDiscards, WorkerSweepDiscards, RefundRow, SameRefund, StatusAfterRefund;
  }

  /** What decided the price is final with it: category and country never change once timing is locked. */
  lemma {:induction false} DetailsFreeze(w: World, actions: seq<Action>)
    requires Reachable(w) && w.ledger.reg.lockedTiming.Some?
    ensures var r, s := w.ledger.reg, Run(w, actions).ledger.reg;
            s.audience == r.audience && s.country == r.country
  {
    hide Reachable, Apply;
    if actions != [] {
      var before := actions[..|actions| - 1];
      DetailsFreeze(w, before);
      PriceStaysLocked(w, before);
      StepFreezesDetails(Run(w, before), actions[|actions| - 1]);
    }
  }

  /** The step that locks the price takes it from a quote that was still current. */
  lemma LockComesFromQuote(w: World, a: Action)
    requires Reachable(w) && w.ledger.reg.lockedTiming.None? && Apply(w, a).ledger.reg.lockedTiming.Some?
    ensures a.Reserve? && a.attempt.snapshot == w.ledger.reg && a.attempt.quote.Some?
    ensures var r, q := Apply(w, a).ledger.reg, a.attempt.quote.value;
            && ValidQuote(q)
            && r.lockedTiming == Some(q.timing) && r.currency == q.currency
            && r.amountDue == q.amount && r.regularAmountDue == Some(q.regularAmount)
            && r.isAdditionalPaper == q.isAdditionalPaper
  {
    hide Reachable, Run, PaidTotals, LedgerOk;
    UnpricedIsEmpty(w, a);
    if !a.Reserve? {
      OnlyCheckoutLocks(w, a);
    }
  }

  lemma UnpricedIsEmpty(w: World, a: Action)
    requires Reachable(w) && w.ledger.reg.lockedTiming.None?
    ensures w.ledger.payments == []
    ensures a.Reserve? && a.attempt in w.attempts ==> AttemptOk(w.ledger.reg, a.attempt)
  {
    hide Reachable, Run, PaidTotals;
    ReachableOk(w);
  }

  lemma OnlyCheckoutLocks(w: World, a: Action)
    requires w.ledger.reg.lockedTiming.None? && w.ledger.payments == [] && !a.Reserve?
    ensures Apply(w, a).ledger.reg.lockedTiming.None?
  {
    hide PaidTotals;
  }

  /** Capture never prices a registration: the fee schedule of the day has no influence on it. */
  lemma CaptureNeverReprices(w: World, ev: CaptureEvent, today: Option<Schedule>, other: Option<Schedule>,
                             eligible: bool, elsewhere: bool)
    requires Reachable(w)
    ensures ProcessCapture(w.ledger, ev, today, eligible, elsewhere) == ProcessCapture(w.ledger, ev, other, eligible, elsewhere)
    ensures ProcessCapture(w.ledger, ev, today, eligible, elsewhere).0.reg.amountDue == w.ledger.reg.amountDue
    ensures ProcessCapture(w.ledger, ev, today, eligible, elsewhere).1 != Refused(PricingUnavailable)
  {
    hide Reachable, Run, Apply, PaidTotals;
    ReachableLedgerOk(w);
  }

  /** Reviewing a priced document never needs the schedule's regular fee: the snapshot is there. */
  lemma RejectionUsesSnapshot(w: World, schedule: Option<Schedule>)
    requires Reachable(w) && w.ledger.reg.lockedTiming.Some?
    ensures RegularDue(w.ledger.reg, schedule) == w.ledger.reg.regularAmountDue
    ensures RegularDue(w.ledger.reg, schedule).Some?
  {
    hide Reachable, Run, Apply, PaidTotals;
    ReachableLedgerOk(w);
  }

  /** Whether a student's registration may count as paid: checked, topped up, or covering the regular price. */
  predicate StudentMayBePaid(before: Registration, m: Ledger) {
    || (m.verifications != [] && m.verifications[|m.verifications| - 1].status == Approved)
    || before.status == AdditionalPaymentRequired
    || Some(m.reg.amountDue) == m.reg.regularAmountDue
  }

  /**
  The step that makes a student's registration PAID finds an approved document, or an additional payment was
  outstanding, or the amount due is the regular price.
  */
  lemma StudentIsCheckedBeforePaid(w: World, a: Action)
    requires Reachable(w) && w.ledger.reg.status != Paid
    ensures var m := Apply(w, a).ledger;
            m.reg.status == Paid && m.reg.audience == StudentAudience ==> StudentMayBePaid(w.ledger.reg, m)
  {
    hide Reachable, Run, StudentMayBePaid, LedgerOk, ProcessCapture, ProcessRefund, ReviewDocument;
    ReachableLedgerOk(w);
    var l := w.ledger;
    match a
    case Capture(ev, current, eligible, elsewhere) => CaptureChecksStudent(l, ev, current, eligible, elsewhere);
    case RefundNews(news, elsewhere, now) => RefundChecksStudent(l, news, elsewhere, now);
    case Review(id, reviewer, decision, hasNote, current, graceMs) =>
      ReviewChecksStudent(l, id, reviewer, decision, hasNote, current, graceMs);
    case _ => OthersPayNothing(w, a);
  }

  lemma CaptureChecksStudent(l: Ledger, ev: CaptureEvent, schedule: Option<Schedule>, eligible: bool, elsewhere: bool)
    requires l.reg.status != Paid
    ensures var m := ProcessCapture(l, ev, schedule, eligible, elsewhere).0;
            m.reg.status == Paid && m.reg.audience == StudentAudience ==> StudentMayBePaid(l.reg, m)
  {
    hide RowWhere, PaidTotals, Reprice;
  }

  /** A pending registration has no capture to refund, and one awaiting verification goes on waiting. */
  lemma RefundChecksStudent(l: Ledger, news: RefundEvent, elsewhere: bool, now: int)
    requires LedgerOk(l) && l.reg.status != Paid
    ensures var m := ProcessRefund(l, news, elsewhere, now).0;
            m.reg.status == Paid && m.reg.audience == StudentAudience ==> StudentMayBePaid(l.reg, m)
  {
    hide PaidTotals, RefundRow, RowsOk, UniqueIds, PriceOk, CoveredOk, IntentsOk;
    var capture := RowWhere(l.payments, IsCaptureOf(news.paymentId));
    if capture.Some? {
      assert l.payments[capture.value].status == Captured;
    }
  }

  lemma ReviewChecksStudent(l: Ledger, id: nat, reviewer: nat, decision: ReviewAction, hasNote: bool,
                            current: Option<Schedule>, graceMs: int)
    requires LedgerOk(l) && l.reg.status != Paid
    ensures var m := ReviewDocument(l, id, reviewer, decision, hasNote, current, graceMs).0;
            m.reg.status == Paid && m.reg.audience == StudentAudience ==> StudentMayBePaid(l.reg, m)
  {
    hide PaidTotals, RowsOk, UniqueIds, PendingOk, CoveredOk, IntentsOk, OneCurrency;
  }

  lemma OthersPayNothing(w: World, a: Action)
    requires w.ledger.reg.status != Paid && !a.Capture? && !a.RefundNews? && !a.Review?
    ensures Apply(w, a).ledger.reg.status != Paid
  {
    hide PaidTotals, RowWhere, NewestCreated, FirstRefusal, Allocate, IntentRows, QuoteRegistration;
  }

  /** A priced registration that was cancelled, discarded or refunded never takes money or counts as paid again. */
  lemma {:induction false} ClosedForever(w: World, actions: seq<Action>)
    requires Reachable(w) && w.ledger.reg.lockedTiming.Some? && IsClosed(w.ledger.reg.status)
    ensures IsClosed(Run(w, actions).ledger.reg.status)
  {
    hide Reachable, Run, Apply, PaidTotals;
    ReachableOk(w);
    RunKeeps(w, actions);
  }

  /** Whoever starts the checkout stays the payer. */
  lemma {:induction false} PayerIsWriteOnce(w: World, actions: seq<Action>)
    requires Reachable(w) && w.ledger.reg.payer.Some?
    ensures Run(w, actions).ledger.reg.payer == w.ledger.reg.payer
  {
    hide Reachable, Run, Apply, PaidTotals;
    ReachableOk(w);
    RunKeeps(w, actions);
  }

  /** Row identity, amounts and provider ids are final; statuses only climb; captured and refunded rows stay so. */
  lemma {:induction false} RowsOnlyClimb(w: World, actions: seq<Action>, i: nat)
    requires Reachable(w) && i < |w.ledger.payments|
    ensures i < |Run(w, actions).ledger.payments|
    ensures RowEvolves(w.ledger.payments[i], Run(w, actions).ledger.payments[i])
  {
    hide Reachable, Run, Apply, PaidTotals;
    ReachableOk(w);
    RunKeeps(w, actions);
  }

  /** No two rows ever share a provider id, so a payment or refund is booked at most once. */
  lemma ProviderIdsAreUnique(w: World, i: nat, j: nat)
    requires Reachable(w) && i < |w.ledger.payments| && j < |w.ledger.payments|
    requires w.ledger.payments[i].providerId.Some? && w.ledger.payments[i].providerId == w.ledger.payments[j].providerId
    ensures i == j
  {
    hide Reachable, Run, Apply, PaidTotals;
    ReachableLedgerOk(w);
  }

  /** What was read under a version is still true when the version is: the optimistic check is enough. */
  lemma {:induction false} SameVersionSameRegistration(w: World, actions: seq<Action>)
    requires Reachable(w) && Run(w, actions).ledger.reg.version == w.ledger.reg.version
    ensures Run(w, actions).ledger.reg == w.ledger.reg
    ensures HasSettled(Run(w, actions).ledger.payments) == HasSettled(w.ledger.payments)
  {
    hide Reachable, Run, Apply, PaidTotals;
    ReachableOk(w);
    RunKeeps(w, actions);
  }

  // ---- Sweeps ------------------------------------------------------------------------------

  /** The API sweep, read and written in one go, never discards a paid registration. */
  lemma ApiSweepSparesPaid(w: World, now: int, graceMs: int)
    requires Reachable(w) && IsPaidStatus(w.ledger.reg.status)
    ensures !ApiSweepDiscards(w.ledger, now, graceMs)
    ensures Apply(w, ApiScan(now, graceMs)) == w
  {
    hide Reachable, Run, LedgerOk, ApiSweepDiscards;
    ReachableLedgerOk(w);
    if ApiSweepDiscards(w.ledger, now, graceMs) {
      SweepKeepsPaid(w.ledger, now, graceMs);
    }
  }

  /** When its delayed write does hit a paid registration, the registration changed after it was read. */
  lemma LateSweepIsStale(w: World, d: Doom)
    requires Reachable(w) && d in w.doomed && !d.byWorker && IsPaidStatus(w.ledger.reg.status)
    ensures d.version < w.ledger.reg.version
  {
    hide Reachable, Run, Apply, PaidTotals;
    ReachableOk(w);
  }

  /** For an owing registration the two waiting periods agree: past its own, the sweep discards exactly the unpaid. */
  lemma ApiSweepExact(w: World, now: int, graceMs: int)
    requires Reachable(w)
    ensures ApiSweepDiscards(w.ledger, now, graceMs) <==>
              SweepCandidate(w.ledger.reg, now, graceMs)
              && (Net(w.ledger.payments) < w.ledger.reg.amountDue || w.ledger.reg.lockedTiming.None?)
  {
    hide Reachable, Run, Apply, PaidTotals;
    ReachableLedgerOk(w);
  }

  function UnsettledRefund(p: Payment): int {
    if p.kind == Refund && p.status != RefundDone && p.status != RefundPartial then p.amount else 0
  }

  lemma {:induction false} WorkerNetIsLower(ps: seq<Payment>)
    ensures WorkerNet(ps) == Net(ps) - Sum(UnsettledRefund, ps)
  {
    if ps != [] {
      WorkerNetIsLower(ps[..|ps| - 1]);
    }
  }

  /**
  The worker's sweep does discard a paid registration exactly when it awaits verification past the
  deadline and refunds that were requested or have failed would leave less than the amount due.
  */
  lemma WorkerSweepExact(w: World, now: int)
    requires Reachable(w) && IsPaidStatus(w.ledger.reg.status)
    ensures WorkerSweepDiscards(w.ledger, now) <==>
              && w.ledger.reg.status == AwaitingVerification
              && w.ledger.reg.deadlineAt < now
              && Net(w.ledger.payments) - Sum(UnsettledRefund, w.ledger.payments) < w.ledger.reg.amountDue
  {
    hide Reachable, Run, Apply, RowsOk, UniqueIds, PendingOk, IntentsOk, OneCurrency;
    ReachableLedgerOk(w);
    WorkerNetIsLower(w.ledger.payments);
  }
}
