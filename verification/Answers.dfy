/**
What each billing transaction answers, in terms of the fields before and after it: the conditions under which it acts,
the rows it leaves, and the status the registration ends in.
*/
module Answers {
  import opened Common
  import opened Billing
  import opened FeeResolver
  import opened PaidState
  import opened RefundAllocation
  import opened LedgerSteps
  import opened LedgerWorld
  import opened LedgerInvariant
  import opened LedgerRuns
  import opened RefundRuns
  import opened LateSweeps

  // ---- Only students wait ----------------------------------------------------------------------

  predicate WaitsOk(l: Ledger) {
    l.reg.status == AwaitingVerification ==> l.reg.audience == StudentAudience
  }

  lemma StepKeepsWaits(w: World, a: Action)
    requires WorldOk(w) && WaitsOk(w.ledger)
    ensures WaitsOk(Apply(w, a).ledger)
  {
    if MovesMoneyOrPrice(a) {
      MoneyKeepsWaits(w, a);
    } else if Apply(w, a).ledger.reg.status == AwaitingVerification {
      OthersKeepStatus(w, a);
      WaitingIsPriced(w.ledger);
      StepFreezesDetails(w, a);
    }
  }

  lemma WaitingIsPriced(l: Ledger)
    requires LedgerOk(l) && l.reg.status == AwaitingVerification
    ensures l.reg.lockedTiming.Some?
  {
    hide RowsOk, UniqueIds, PendingOk, CoveredOk, IntentsOk;
  }

  lemma MoneyKeepsWaits(w: World, a: Action)
    requires LedgerOk(w.ledger) && WaitsOk(w.ledger) && MovesMoneyOrPrice(a)
    ensures WaitsOk(Apply(w, a).ledger)
  {
    hide PaidTotals, RowWhere, RefundRow, SameRefund, RowsOk, UniqueIds, PendingOk, CoveredOk, IntentsOk, Reprice;
  }

  lemma {:induction false} RunKeepsWaits(w: World, actions: seq<Action>)
    requires WorldOk(w) && WaitsOk(w.ledger)
    ensures WorldOk(Run(w, actions)) && WaitsOk(Run(w, actions).ledger)
  {
    hide WorldOk, WaitsOk, Apply;
    if actions != [] {
      var before := actions[..|actions| - 1];
      RunKeepsWaits(w, before);
      StepKeeps(Run(w, before), actions[|actions| - 1]);
      StepKeepsWaits(Run(w, before), actions[|actions| - 1]);
    }
  }

  /** Everything the answers rest on. */
  lemma Reached(w: World)
    requires Reachable(w)
    ensures LedgerOk(w.ledger) && OwingOk(w.ledger) && WaitsOk(w.ledger)
  {
    hide LedgerOk, OwingOk, WaitsOk, Run;
    ReachableOwing(w);
    ReachableLedgerOk(w);
    var currency, now, deadline, actions :| w == Run(Start(currency, now, deadline), actions);
    StartWaits(currency, now, deadline);
    RunKeepsWaits(Start(currency, now, deadline), actions);
  }

  lemma StartWaits(currency: string, now: int, deadline: int)
    ensures WorldOk(Start(currency, now, deadline)) && WaitsOk(Start(currency, now, deadline).ledger)
  {
  }

  // ---- Checkout --------------------------------------------------------------------------------

  /** The registration can be paid by this user now. */
  predicate Payable(l: Ledger, user: nat, billingReady: bool, now: int) {
    var reg, n := l.reg, |l.verifications|;
    && (reg.status == Pending || reg.status == AdditionalPaymentRequired)
    && billingReady
    && reg.windowOpensAt <= now
    && (if reg.graceUntil.Some? then now <= reg.graceUntil.value else now <= reg.deadlineAt)
    && (reg.payer.None? || reg.payer == Some(user))
    && (reg.audience == StudentAudience && reg.status == Pending ==>
          && n > 0 && l.verifications[n - 1].uploader == user && l.verifications[n - 1].scan == Clean
          && (l.verifications[n - 1].status == Submitted || l.verifications[n - 1].status == Approved))
  }

  /** Row i is the newest that is still CREATED. */
  predicate IsNewestOpen(ps: seq<Payment>, i: nat) {
    i < |ps| && ps[i].status == Created && forall j :: i < j < |ps| ==> ps[j].status != Created
  }

  /** The newest open row, if any, has no order and was reserved at least a minute ago. */
  predicate Unprepared(ps: seq<Payment>, now: int) {
    forall i :: 0 <= i < |ps| && IsNewestOpen(ps, i) ==> ps[i].orderId.None? && ps[i].createdAt <= now - 60_000
  }

  /** What there is to pay: the rest of the amount due, or the price, quoted or locked earlier. */
  function ToPay(l: Ledger, attempt: Attempt): int {
    if l.reg.status == AdditionalPaymentRequired then l.reg.amountDue - Net(l.payments)
    else if attempt.quote.Some? then attempt.quote.value.amount
    else l.reg.amountDue
  }

  lemma {:induction false} NewestIsOpen(ps: seq<Payment>)
    ensures NewestCreated(ps).Some? ==> IsNewestOpen(ps, NewestCreated(ps).value)
    ensures forall i: nat :: IsNewestOpen(ps, i) ==> NewestCreated(ps) == Some(i)
  {
  }

  /** A new checkout is reserved if and only if it is payable, unprepared, asked for with a new key, and worth it. */
  lemma CheckoutExactly(l: Ledger, user: nat, key: Key, elsewhere: bool, ready: bool, attempt: Attempt, now: int)
    ensures ReserveCheckout(l, user, key, elsewhere, ready, attempt, now).1 == Applied <==>
              && Payable(l, user, ready, now) && !elsewhere && Unprepared(l.payments, now)
              && (forall i :: 0 <= i < |l.payments| ==> l.payments[i].key != Some(key))
              && l.reg.version == attempt.snapshot.version && ToPay(l, attempt) >= 100
    ensures ReserveCheckout(l, user, key, elsewhere, ready, attempt, now).1 != Applied ==>
              ReserveCheckout(l, user, key, elsewhere, ready, attempt, now).0 == l
  {
    ReservesExactly(l, user, key, elsewhere, ready, attempt, now);
    NewestIsOpen(l.payments);
    hide PaidTotals, NewestCreated, RowWhere;
  }

  /** Why a checkout is refused, by the first of these that stands against it; one with an order is handed back as it is. */
  lemma CheckoutRefusals(l: Ledger, user: nat, key: Key, elsewhere: bool, ready: bool, attempt: Attempt, now: int)
    ensures var reg, outcome := l.reg, ReserveCheckout(l, user, key, elsewhere, ready, attempt, now).1;
            var ends := if reg.graceUntil.Some? then reg.graceUntil.value else reg.deadlineAt;
            if reg.status != Pending && reg.status != AdditionalPaymentRequired then outcome == Refused(NotPayable)
            else if !ready then outcome == Refused(BillingDetailsMissing)
            else if now > ends || now < reg.windowOpensAt then outcome == Refused(WindowClosed)
            else if reg.payer.Some? && reg.payer != Some(user) then outcome == Refused(OtherPayer)
            else if !Payable(l, user, ready, now) then outcome == Refused(StudentDocumentMissing)
            else if elsewhere then outcome == Refused(KeyOfAnotherRegistration)
            else if exists i: nat :: IsNewestOpen(l.payments, i) && l.payments[i].orderId.Some? then outcome == Unchanged
            else if !Unprepared(l.payments, now) then outcome == Refused(CheckoutInPreparation)
            else if exists i :: 0 <= i < |l.payments| && l.payments[i].key == Some(key) then outcome == Refused(KeyAlreadyUsed)
            else if reg.version != attempt.snapshot.version then outcome == Refused(DetailsChanged)
            else ToPay(l, attempt) < 100 ==> outcome == Refused(NothingDue)
  {
    hide PaidTotals, NewestCreated, RowWhere, IsNewestOpen, FirstRefusal, Payable;
    RefusalReason(l, user, elsewhere, ready, now, key);
    NewestIsOpen(l.payments);
    var ps, pending := l.payments, NewestCreated(l.payments);
    if pending.Some? {
      NetUpdate(ps, pending.value, ps[pending.value].(status := Failed));
    }
    KeyIsNew(ps, key);
  }

  lemma {:induction false} KeyIsNew(ps: seq<Payment>, key: Key)
    ensures RowWhere(ps, HasKey(key)).Some? <==> exists i :: 0 <= i < |ps| && ps[i].key == Some(key)
  {
    assert RowWhere(ps, HasKey(key)).None? <==> forall i :: 0 <= i < |ps| ==> !HasKey(key)(ps[i]);
    hide RowWhere;
  }

  /** What stands against a checkout before any row is looked at. */
  lemma RefusalReason(l: Ledger, user: nat, elsewhere: bool, ready: bool, now: int, key: Key)
    ensures var reg := l.reg;
            var ends := if reg.graceUntil.Some? then reg.graceUntil.value else reg.deadlineAt;
            FirstRefusal(l, user, key, elsewhere, ready, now)
              == if reg.status != Pending && reg.status != AdditionalPaymentRequired then Some(NotPayable)
                 else if !ready then Some(BillingDetailsMissing)
                 else if now > ends || now < reg.windowOpensAt then Some(WindowClosed)
                 else if reg.payer.Some? && reg.payer != Some(user) then Some(OtherPayer)
                 else if !Payable(l, user, ready, now) then Some(StudentDocumentMissing)
                 else if elsewhere then Some(KeyOfAnotherRegistration)
                 else None
  {
  }

  /**
  Reading a quote keeps the registration as it is now, with a quote exactly if it is pending and unpriced: the charge for
  the scheduled fee of its audience, country and moment. Without a quote where one is needed nothing is kept.
  */
  lemma QuoteReadAnswers(w: World, schedule: Schedule, base: bool, now: int)
    ensures var reg, v := w.ledger.reg, Apply(w, ReadQuote(schedule, base, now));
            var needed := reg.status == Pending && reg.lockedTiming.None?;
            && v == w.(attempts := v.attempts)
            && (!needed ==> v.attempts == w.attempts + {Attempt(reg, None)})
            && (needed && v != w ==>
                  exists q ::
                    && v.attempts == w.attempts + {Attempt(reg, Some(q))} && ValidQuote(q)
                    && ScheduledFee(schedule, reg.audience, base, now).Some?
                    && IsCharge(q.amount, ScheduledFee(schedule, reg.audience, base, now).value, schedule, reg.country)
                    && ScheduledFee(schedule, RegularAudience, base, now).Some?
                    && IsCharge(q.regularAmount, ScheduledFee(schedule, RegularAudience, base, now).value, schedule, reg.country))
  {
    hide QuoteRegistration, IsCharge, ScheduledFee;
    var reg := w.ledger.reg;
    var q := QuoteRegistration(schedule, reg.audience, reg.country, base, now);
    QuoteAnswers(schedule, reg.audience, reg.country, base, now);
    if NeedsQuote(reg) && q.Some? {
      assert Apply(w, ReadQuote(schedule, base, now)).attempts == w.attempts + {Attempt(reg, Some(q.value))};
    }
  }

  /**
  What a reserved checkout leaves: the newest open row failed, and one new row that asks for exactly what is missing of
  the amount due, or of the new amount due of a registration that was pending.
  */
  lemma CheckoutAnswers(w: World, user: nat, key: Key, elsewhere: bool, ready: bool, attempt: Attempt, now: int)
    requires Reachable(w) && attempt in w.attempts
    requires ReserveCheckout(w.ledger, user, key, elsewhere, ready, attempt, now).1 == Applied
    ensures var l, m := w.ledger, ReserveCheckout(w.ledger, user, key, elsewhere, ready, attempt, now).0;
            var n := |l.payments|;
            && |m.payments| == n + 1 && m.verifications == l.verifications
            && (forall i :: 0 <= i < n ==>
                  m.payments[i] == if IsNewestOpen(l.payments, i) then l.payments[i].(status := Failed) else l.payments[i])
            && m.payments[n].amount + Net(l.payments) == m.reg.amountDue && Net(m.payments) == Net(l.payments)
            && m.payments[n] == Payment(Created, if l.reg.status == Pending then Initial else Additional,
                                        m.payments[n].amount, m.reg.currency, None, None, Some(key), None, "", now)
            && m.reg.status == l.reg.status && m.reg.payer == Some(user) && m.reg.version == l.reg.version + 1
            && (l.reg.status == AdditionalPaymentRequired ==> m.reg.amountDue == l.reg.amountDue)
  {
    hide Reachable, ReserveCheckout, LedgerOk, OwingOk, WaitsOk, WorldOk, PaidTotals, IsNewestOpen, Unprepared;
    Reached(w);
    ReachableOk(w);
    PricedAttempt(w, attempt);
    CheckoutExactly(w.ledger, user, key, elsewhere, ready, attempt, now);
    if w.ledger.reg.status == Pending {
      PendingNetIsZero(w.ledger);
    }
    CheckoutRows(w.ledger, user, key, elsewhere, ready, attempt, now);
  }

  lemma PricedAttempt(w: World, attempt: Attempt)
    requires WorldOk(w) && attempt in w.attempts
    ensures attempt.snapshot.version == w.ledger.reg.version ==>
              && (attempt.quote.Some? <==> w.ledger.reg.lockedTiming.None? && w.ledger.reg.status == Pending)
              && (w.ledger.reg.lockedTiming.None? ==> w.ledger.payments == [])
  {
    hide RowsOk, UniqueIds, PendingOk, CoveredOk, IntentsOk, OpenReadOk, DoomOk;
    assert AttemptOk(w.ledger.reg, attempt);
  }

  lemma CheckoutRows(l: Ledger, user: nat, key: Key, elsewhere: bool, ready: bool, attempt: Attempt, now: int)
    requires ReserveCheckout(l, user, key, elsewhere, ready, attempt, now).1 == Applied
    requires l.reg.status == Pending || l.reg.status == AdditionalPaymentRequired
    requires attempt.quote.Some? ==> l.reg.status == Pending
    ensures var m, n := ReserveCheckout(l, user, key, elsewhere, ready, attempt, now).0, |l.payments|;
            && |m.payments| == n + 1 && m.verifications == l.verifications
            && (forall i :: 0 <= i < n ==>
                  m.payments[i] == if IsNewestOpen(l.payments, i) then l.payments[i].(status := Failed) else l.payments[i])
            && m.payments[n] == Payment(Created, if l.reg.status == Pending then Initial else Additional,
                                        ToPay(l, attempt), m.reg.currency, None, None, Some(key), None, "", now)
            && Net(m.payments) == Net(l.payments)
            && m.reg.status == l.reg.status && m.reg.payer == Some(user) && m.reg.version == l.reg.version + 1
            && m.reg.amountDue == (if attempt.quote.Some? then attempt.quote.value.amount else l.reg.amountDue)
  {
    NewestIsOpen(l.payments);
    hide PaidTotals, NewestCreated, RowWhere, FirstRefusal;
    var ps, pending := l.payments, NewestCreated(l.payments);
    var qs := if pending.Some? then ps[pending.value := ps[pending.value].(status := Failed)] else ps;
    if pending.Some? {
      NetUpdate(ps, pending.value, qs[pending.value]);
    }
    NetAppend(qs, CheckoutRow(l.reg, attempt, Net(qs), key, now));
  }

  /** The provider's answer to a reserved checkout reaches its row alone: a fresh order is saved, a failure marks it. */
  lemma OrderAnswers(w: World, row: nat, orderId: string)
    ensures var ps, v := w.ledger.payments, Apply(w, SaveOrder(row, orderId));
            if && row < |ps| && ps[row].kind != Refund && ps[row].orderId.None?
               && (forall i :: 0 <= i < |ps| ==> ps[i].orderId != Some(orderId))
            then v == w.(ledger := w.ledger.(payments := ps[row := ps[row].(orderId := Some(orderId))]))
            else v == w
    ensures var ps, v := w.ledger.payments, Apply(w, OrderFails(row));
            if row < |ps| && ps[row].kind != Refund && ps[row].orderId.None?
            then v == w.(ledger := w.ledger.(payments := ps[row := ps[row].(status := Failed)]))
            else v == w
  {
  }

  /**
  An additional checkout, captured while the registration still owes and its paper is still eligible, leaves exactly the
  amount due and the registration PAID, whatever other steps that move no money and no price came in between.
  */
  lemma {:induction false} AdditionalCheckoutSettles(
    w: World, reserve: Action, between: seq<Action>, ev: CaptureEvent, schedule: Option<Schedule>)
    requires Reachable(w) && w.ledger.reg.status == AdditionalPaymentRequired
    requires reserve.Reserve? && reserve.attempt in w.attempts
    requires ReserveCheckout(w.ledger, reserve.user, reserve.key, reserve.keyElsewhere, reserve.billingReady,
                             reserve.attempt, reserve.now).1 == Applied
    requires forall a :: a in between ==> !MovesMoneyOrPrice(a)
    requires var v := Run(Apply(w, reserve), between).ledger;
             && v.reg.status == AdditionalPaymentRequired && |w.ledger.payments| < |v.payments|
             && v.payments[|w.ledger.payments|].orderId == Some(ev.orderId)
             && ProcessCapture(v, ev, schedule, true, false).1 == Applied
    ensures var v := Run(Apply(w, reserve), between).ledger;
            var m := ProcessCapture(v, ev, schedule, true, false).0;
            && Net(m.payments) == m.reg.amountDue == w.ledger.reg.amountDue && m.reg.status == Paid
  {
    hide Reachable, Run, ReserveCheckout, ProcessCapture, PaidTotals, RowEvolves;
    var start, n := Apply(w, reserve), |w.ledger.payments|;
    CheckoutAnswers(w, reserve.user, reserve.key, reserve.keyElsewhere, reserve.billingReady, reserve.attempt, reserve.now);
    ReachStep(w, reserve);
    OtherStepsKeepOwing(start, between);
    ReachOn(start, between);
    RowsOnlyClimb(start, between, n);
    var v := Run(start, between);
    AmountStays(start.ledger.payments[n], v.ledger.payments[n]);
    CaptureAnswers(v, n, ev, schedule, true, false);
  }

  lemma AmountStays(p: Payment, q: Payment)
    requires RowEvolves(p, q)
    ensures q.amount == p.amount
  {
  }

  lemma {:induction false} OtherStepsKeepOwing(w: World, actions: seq<Action>)
    requires Reachable(w) && forall a :: a in actions ==> !MovesMoneyOrPrice(a)
    ensures Net(Run(w, actions).ledger.payments) == Net(w.ledger.payments)
    ensures Run(w, actions).ledger.reg.status == AdditionalPaymentRequired ==>
              Run(w, actions).ledger.reg.amountDue == w.ledger.reg.amountDue
              && w.ledger.reg.status == AdditionalPaymentRequired
  {
    hide Reachable, Apply, PaidTotals;
    if actions != [] {
      var before := actions[..|actions| - 1];
      OtherStepsKeepOwing(w, before);
      ReachOn(w, before);
      ReachableOk(Run(w, before));
      hide WorldOk;
      OthersKeepCover(Run(w, before), actions[|actions| - 1]);
    }
  }

  // ---- Capture ---------------------------------------------------------------------------------

  /** Another row already carries the payment's id. */
  predicate BookedElsewhere(ps: seq<Payment>, i: nat, paymentId: string) {
    exists j :: 0 <= j < |ps| && j != i && ps[j].providerId == Some(paymentId)
  }

  lemma UnknownOrder(l: Ledger, ev: CaptureEvent, schedule: Option<Schedule>, eligible: bool, elsewhere: bool)
    requires forall i :: 0 <= i < |l.payments| ==> l.payments[i].orderId != Some(ev.orderId)
    ensures ProcessCapture(l, ev, schedule, eligible, elsewhere) == (l, Unchanged)
  {
    assert forall i :: 0 <= i < |l.payments| ==> !HasOrder(ev.orderId)(l.payments[i]);
  }

  predicate Closed(status: RegistrationStatus) {
    status == Cancelled || status == Refunded || status == DiscardedNonpayment
  }

  predicate LatestApproved(l: Ledger) {
    |l.verifications| > 0 && l.verifications[|l.verifications| - 1].status == Approved
  }

  /**
  The money of row i is booked. The registration is cancelled if its paper is no longer eligible; a closed or short one
  keeps its status; a covered one waits if it is a student's first payment without an approved document, else is PAID.
  */
  predicate Booked(l: Ledger, m: Ledger, i: nat, paymentId: string, eligible: bool)
    requires i < |l.payments|
  {
    var reg, net := l.reg, Net(l.payments) + l.payments[i].amount;
    && m.payments == l.payments[i := l.payments[i].(status := Captured, providerId := Some(paymentId))]
    && Net(m.payments) == net && m.verifications == l.verifications
    && m.reg == reg.(version := reg.version + 1, status :=
         if !eligible then Cancelled
         else if Closed(reg.status) || net < reg.amountDue then reg.status
         else if reg.audience == StudentAudience && reg.status != AdditionalPaymentRequired && !LatestApproved(l)
              then AwaitingVerification
         else Paid)
  }

  /** A capture event for row i: a foreign or repeated one changes nothing, a mismatch is refused, others are booked. */
  lemma CaptureAnswers(w: World, i: nat, ev: CaptureEvent, schedule: Option<Schedule>, eligible: bool, elsewhere: bool)
    requires Reachable(w) && i < |w.ledger.payments| && w.ledger.payments[i].orderId == Some(ev.orderId)
    ensures var l, r := w.ledger, ProcessCapture(w.ledger, ev, schedule, eligible, elsewhere);
            var row := l.payments[i];
            if elsewhere || BookedElsewhere(l.payments, i, ev.paymentId) || row.status == Captured then r == (l, Unchanged)
            else if ev.amount != row.amount || ev.currency != row.currency then r == (l, Refused(AmountMismatch))
            else r.1 == Applied && Booked(l, r.0, i, ev.paymentId, eligible)
  {
    hide Reachable, LedgerOk;
    ReachableLedgerOk(w);
    CaptureRows(w.ledger, i, ev, schedule, eligible, elsewhere);
  }

  lemma CaptureRows(l: Ledger, i: nat, ev: CaptureEvent, schedule: Option<Schedule>, eligible: bool, elsewhere: bool)
    requires LedgerOk(l) && i < |l.payments| && l.payments[i].orderId == Some(ev.orderId)
    ensures var r := ProcessCapture(l, ev, schedule, eligible, elsewhere);
            var row := l.payments[i];
            if elsewhere || BookedElsewhere(l.payments, i, ev.paymentId) || row.status == Captured then r == (l, Unchanged)
            else if ev.amount != row.amount || ev.currency != row.currency then r == (l, Refused(AmountMismatch))
            else r.1 == Applied && Booked(l, r.0, i, ev.paymentId, eligible)
  {
    hide RowWhere, PaidTotals, RowsOk, UniqueIds, PendingOk, IntentsOk, Reprice, BookedElsewhere, OneCurrency;
    FoundByOrder(l.payments, i, ev.orderId);
    FoundElsewhere(l.payments, i, ev.paymentId);
    RowAt(l.payments, i);
    NetUpdate(l.payments, i, l.payments[i].(status := Captured, providerId := Some(ev.paymentId)));
  }

  lemma {:induction false} FoundByOrder(ps: seq<Payment>, i: nat, orderId: string)
    requires UniqueIds(ps) && i < |ps| && ps[i].orderId == Some(orderId)
    ensures RowWhere(ps, HasOrder(orderId)) == Some(i)
  {
    assert HasOrder(orderId)(ps[i]);
  }

  lemma {:induction false} FoundElsewhere(ps: seq<Payment>, i: nat, paymentId: string)
    requires UniqueIds(ps) && i < |ps|
    ensures var owner := RowWhere(ps, HasProviderId(paymentId));
            owner.Some? && owner != Some(i) <==> BookedElsewhere(ps, i, paymentId)
  {
    var owner := RowWhere(ps, HasProviderId(paymentId));
    if owner.None? {
      assert forall j :: 0 <= j < |ps| ==> !HasProviderId(paymentId)(ps[j]);
    }
    hide RowWhere;
  }

  // ---- Refund news -----------------------------------------------------------------------------

  /** The row the news are about: the one with the refund's id, or, if none has it, the intent they name. */
  predicate ComesTo(ps: seq<Payment>, ev: RefundEvent, i: nat) {
    && i < |ps|
    && (ps[i].providerId == Some(ev.refundId)
        || (ev.intent == Some(i) && forall j :: 0 <= j < |ps| ==> ps[j].providerId != Some(ev.refundId)))
  }

  /** The refund of capture c that the row was requested or recorded for. */
  predicate IsForRefund(row: Payment, ev: RefundEvent, c: nat) {
    && row.kind == Refund && row.refundOf == Some(c) && row.amount == ev.amount
    && (row.providerId.None? || row.providerId == Some(ev.refundId))
  }

  function NewsStatus(ev: RefundEvent): PaymentStatus {
    if ev.status == RefundPending then Created else if ev.status == RefundProcessed then RefundDone else Failed
  }

  /**
  Booking the rows qs. News that the refund was made move the registration: a closed one keeps its status; while the net
  still covers the amount due PAID stays PAID and AWAITING_VERIFICATION stays that, for either audience; otherwise an
  additional payment is due if one was due before or money is left, and the registration is REFUNDED if none is.
  */
  predicate Settled(l: Ledger, m: Ledger, qs: seq<Payment>, ev: RefundEvent) {
    var reg, net := l.reg, Net(l.payments) - ev.amount;
    && m.payments == qs && m.verifications == l.verifications
    && (if ev.status != RefundProcessed then m.reg == reg && Net(qs) == Net(l.payments)
        else
          && Net(qs) == net
          && m.reg == reg.(version := reg.version + 1, status :=
               if Closed(reg.status) || net >= reg.amountDue then reg.status
               else if reg.status == AdditionalPaymentRequired || net > 0 then AdditionalPaymentRequired
               else Refunded))
  }

  predicate ValidFor(capture: Payment, ev: RefundEvent) {
    ev.refundId != "" && 0 < ev.amount <= capture.amount && ev.currency == capture.currency
  }

  /** News about a refund of capture c, and the row they come to, if there is one. */
  lemma NewsAnswers(w: World, c: nat, ev: RefundEvent, elsewhere: bool, now: int)
    requires Reachable(w) && c < |w.ledger.payments| && w.ledger.payments[c].kind != Refund
    requires w.ledger.payments[c].status == Captured && w.ledger.payments[c].providerId == Some(ev.paymentId)
    ensures var l, ps, r := w.ledger, w.ledger.payments, ProcessRefund(w.ledger, ev, elsewhere, now);
            if !ValidFor(ps[c], ev) then r == (l, Refused(InvalidRefund))
            else if elsewhere then r == (l, Refused(IdentityMismatch))
            else
              && (forall i: nat :: ComesTo(ps, ev, i) ==>
                    if !IsForRefund(ps[i], ev, c) then r == (l, Refused(IdentityMismatch))
                    else if ps[i].status == RefundDone || (ps[i].status == Failed && ev.status == RefundPending)
                         then r == (l, Unchanged)
                    else
                      r.1 == Applied
                      && Settled(l, r.0, ps[i := ps[i].(providerId := Some(ev.refundId), status := NewsStatus(ev))], ev))
              && ((forall i: nat :: !ComesTo(ps, ev, i)) ==>
                    && r.1 == Applied
                    && Settled(l, r.0, ps + [Payment(NewsStatus(ev), Refund, ev.amount, ev.currency, None,
                                                     Some(ev.refundId), None, Some(c), "", now)], ev))
  {
    hide Reachable, LedgerOk, OwingOk, WaitsOk, ProcessRefund, Settled, ComesTo, IsForRefund;
    Reached(w);
    var ps, i := w.ledger.payments, RefundRow(w.ledger.payments, ev);
    NewsRow(w.ledger, c, ev);
    if ValidFor(ps[c], ev) && !elsewhere {
      NewsRows(w.ledger, c, ev, now);
    } else {
      InvalidNews(w.ledger, c, ev, elsewhere, now);
    }
  }

  /** The capture and the row are those the source looks up. */
  lemma NewsRow(l: Ledger, c: nat, ev: RefundEvent)
    requires LedgerOk(l) && c < |l.payments| && l.payments[c].kind != Refund
    requires l.payments[c].status == Captured && l.payments[c].providerId == Some(ev.paymentId)
    ensures RowWhere(l.payments, IsCaptureOf(ev.paymentId)) == Some(c)
    ensures forall i: nat :: ComesTo(l.payments, ev, i) <==> RefundRow(l.payments, ev) == Some(i)
  {
    var ps := l.payments;
    assert IsCaptureOf(ev.paymentId)(ps[c]);
    var known := RowWhere(ps, HasProviderId(ev.refundId));
    if known.None? {
      assert forall j :: 0 <= j < |ps| ==> !HasProviderId(ev.refundId)(ps[j]);
    } else {
      assert ps[known.value].providerId == Some(ev.refundId);
    }
    hide RowWhere, RowsOk, PriceOk, PendingOk, CoveredOk, IntentsOk;
  }

  lemma InvalidNews(l: Ledger, c: nat, ev: RefundEvent, elsewhere: bool, now: int)
    requires c < |l.payments| && RowWhere(l.payments, IsCaptureOf(ev.paymentId)) == Some(c)
    requires !ValidFor(l.payments[c], ev) || elsewhere
    ensures ProcessRefund(l, ev, elsewhere, now)
         == (l, Refused(if ValidFor(l.payments[c], ev) then IdentityMismatch else InvalidRefund))
  {
    hide RowWhere, PaidTotals;
  }

  lemma NewsRows(l: Ledger, c: nat, ev: RefundEvent, now: int)
    requires LedgerOk(l) && OwingOk(l) && WaitsOk(l) && c < |l.payments| && ValidFor(l.payments[c], ev)
    requires RowWhere(l.payments, IsCaptureOf(ev.paymentId)) == Some(c) && l.payments[c].status == Captured
    ensures var ps, r, i := l.payments, ProcessRefund(l, ev, false, now), RefundRow(l.payments, ev);
            if i.None? then
              && r.1 == Applied
              && Settled(l, r.0, ps + [Payment(NewsStatus(ev), Refund, ev.amount, ev.currency, None, Some(ev.refundId),
                                               None, Some(c), "", now)], ev)
            else if !IsForRefund(ps[i.value], ev, c) then r == (l, Refused(IdentityMismatch))
            else if ps[i.value].status == RefundDone || (ps[i.value].status == Failed && ev.status == RefundPending)
                 then r == (l, Unchanged)
            else
              r.1 == Applied
              && Settled(l, r.0, ps[i.value := ps[i.value].(providerId := Some(ev.refundId), status := NewsStatus(ev))], ev)
  {
    hide RowWhere, PaidTotals, RefundRow, RowsOk, UniqueIds, CoveredOk, PendingOk, IntentsOk, OneCurrency, Settled;
    hide StatusAfterRefund;
    var ps, i := l.payments, RefundRow(l.payments, ev);
    if i.Some? {
      RowAt(ps, i.value);
      var row := ps[i.value].(providerId := Some(ev.refundId), status := NewsStatus(ev));
      if IsForRefund(ps[i.value], ev, c) && ps[i.value].status != RefundDone {
        NetUpdate(ps, i.value, row);
        assert RefundUpdate(ps[i.value], ev, c) == row;
        SettledBy(l, ps[i.value := row], ev);
      }
    } else {
      var row := ExternalRefund(ev, c, now);
      NetAppend(ps, row);
      SettledBy(l, ps + [row], ev);
    }
  }

  lemma SettledBy(l: Ledger, qs: seq<Payment>, ev: RefundEvent)
    requires LedgerOk(l) && OwingOk(l) && WaitsOk(l) && ev.amount > 0
    requires Net(qs) == Net(l.payments) - (if ev.status == RefundProcessed then ev.amount else 0)
    requires exists c :: 0 <= c < |l.payments| && l.payments[c].status == Captured
    ensures Settled(l, SettleRefund(l, qs, NewsStatus(ev)), qs, ev)
  {
    hide PaidTotals, RowsOk, UniqueIds, IntentsOk, OneCurrency;
  }

  // ---- Refund requests -------------------------------------------------------------------------

  predicate IsIntentOf(p: Payment, version: int) {
    p.kind == Refund && p.key == Some(RefundKey(version))
  }

  /** The new rows are intents of the request, each for part of one capture. */
  predicate Requested(ps: seq<Payment>, qs: seq<Payment>, reason: string, version: int, now: int) {
    && |ps| < |qs| && qs[..|ps|] == ps
    && forall k :: |ps| <= k < |qs| ==>
         && qs[k].refundOf.Some? && qs[k].refundOf.value < |ps|
         && qs[k] == Payment(Created, Refund, qs[k].amount, ps[qs[k].refundOf.value].currency, None, None,
                             Some(RefundKey(version)), qs[k].refundOf, reason, now)
  }

  /**
  A repeated request is accepted without a change exactly if its intents sum to the amount and all have the reason; a
  new one is accepted exactly for the current version and at most the free remainders of the captures.
  */
  lemma RequestAnswers(w: World, amount: int, reason: string, version: int, now: int)
    requires Reachable(w)
    ensures var l, ps, r := w.ledger, w.ledger.payments, RequestRefund(w.ledger, amount, reason, version, now);
            && (r.1 == Unchanged <==>
                  && (exists i :: 0 <= i < |ps| && IsIntentOf(ps[i], version))
                  && IntentTotal(ps, version) == amount
                  && forall i :: 0 <= i < |ps| && IsIntentOf(ps[i], version) ==> ps[i].reason == reason)
            && (r.1 == Applied <==>
                  && (forall i :: 0 <= i < |ps| ==> !IsIntentOf(ps[i], version))
                  && l.reg.version == version && 0 < amount <= RoomFrom(ps, 0))
            && (r.1 != Applied ==> r.0 == l)
            && (r.1 == Applied ==>
                  && Requested(ps, r.0.payments, reason, version, now)
                  && r.0 == l.(reg := l.reg.(version := version + 1), payments := r.0.payments))
  {
    hide Reachable, LedgerOk;
    ReachableLedgerOk(w);
    RequestRows(w.ledger, amount, reason, version, now);
  }

  lemma NothingUnlinked(l: Ledger)
    requires LedgerOk(l)
    ensures Unlinked(l.payments) == 0
  {
    forall i | 0 <= i < |l.payments|
      ensures UnlinkedAmount(l.payments[i]) == 0
    {
      RowAt(l.payments, i);
    }
    SumZero(UnlinkedAmount, l.payments);
  }

  lemma RequestRows(l: Ledger, amount: int, reason: string, version: int, now: int)
    requires LedgerOk(l)
    ensures var ps, r := l.payments, RequestRefund(l, amount, reason, version, now);
            && (r.1 == Unchanged <==>
                  && (exists i :: 0 <= i < |ps| && IsIntentOf(ps[i], version))
                  && IntentTotal(ps, version) == amount
                  && forall i :: 0 <= i < |ps| && IsIntentOf(ps[i], version) ==> ps[i].reason == reason)
            && (r.1 == Applied <==>
                  && (forall i :: 0 <= i < |ps| ==> !IsIntentOf(ps[i], version))
                  && l.reg.version == version && 0 < amount <= RoomFrom(ps, 0))
            && (r.1 != Applied ==> r.0 == l)
            && (r.1 == Applied ==>
                  && Requested(ps, r.0.payments, reason, version, now)
                  && r.0 == l.(reg := l.reg.(version := version + 1), payments := r.0.payments))
  {
    hide LedgerOk, IntentTotal, AllocateFrom, Unlinked, RoomFrom;
    NothingUnlinked(l);
    AllocationComplete(l.payments, amount);
    if Allocate(l.payments, amount).Some? {
      AllocationSound(l.payments, amount);
    }
    AllocationInRange(l.payments, 0, Unlinked(l.payments), amount);
    var ps, found := l.payments, RowWhere(l.payments, IsIntent(version));
    assert forall i :: 0 <= i < |ps| ==> (IsIntent(version)(ps[i]) <==> IsIntentOf(ps[i], version));
    hide RowWhere, Allocate, PartsTotal;
  }

  // ---- Reviews ---------------------------------------------------------------------------------

  /** The latest document, open for review, of an open registration, by somebody who is neither its payer nor uploader. */
  predicate MayReview(l: Ledger, id: nat, reviewer: nat) {
    && |l.verifications| == id + 1 && !Closed(l.reg.status)
    && (l.verifications[id].status == Submitted || l.verifications[id].status == ClarificationRequested)
    && l.reg.payer != Some(reviewer) && l.verifications[id].uploader != reviewer
  }

  function ReviewedAs(decision: ReviewAction): VerificationStatus {
    if decision == Approve then Approved else if decision == Clarify then ClarificationRequested else Rejected
  }

  /**
  The registration after a review: an approval pays it if and only if the net covers a positive amount due; a
  clarification leaves it; a rejection makes it regular before the price is locked, and otherwise asks for the regular
  price kept with the quote, until the end of the grace period unless the net covers that too.
  */
  predicate Reviewed(l: Ledger, reg: Registration, decision: ReviewAction, graceMs: int) {
    var before, net := l.reg, Net(l.payments);
    match decision
    case Approve =>
      reg == before.(version := before.version + 1,
                     status := if before.amountDue > 0 && net >= before.amountDue then Paid else before.status)
    case Clarify => reg == before
    case Reject =>
      if before.lockedTiming.None? then
        reg == before.(version := before.version + 1, audience := RegularAudience)
      else
        && before.regularAmountDue.Some?
        && var due := before.regularAmountDue.value;
           reg == before.(version := before.version + (if net >= due then 2 else 1), amountDue := due,
                          status := if net >= due then Paid else AdditionalPaymentRequired,
                          graceUntil := Some(before.deadlineAt + graceMs))
  }

  /** When a review is accepted, and everything it changes. */
  lemma ReviewAnswers(w: World, id: nat, reviewer: nat, decision: ReviewAction, hasNote: bool, today: Option<Schedule>,
                      graceMs: int)
    requires Reachable(w)
    ensures var l, r := w.ledger, ReviewDocument(w.ledger, id, reviewer, decision, hasNote, today, graceMs);
            && (r.1 == Applied <==>
                  && MayReview(l, id, reviewer)
                  && (decision == Approve ==> l.verifications[id].scan == Clean)
                  && (decision == Clarify ==> hasNote)
                  && (decision == Reject ==> today.Some?))
            && (r.1 != Applied ==> r.0 == l)
            && (r.1 == Applied ==>
                  && r.0.payments == l.payments
                  && r.0.verifications == l.verifications[id := l.verifications[id].(status := ReviewedAs(decision))]
                  && Reviewed(l, r.0.reg, decision, graceMs))
  {
    hide Reachable, RowsOk, UniqueIds, PendingOk, CoveredOk, IntentsOk, OneCurrency, PaidTotals;
    ReachableLedgerOk(w);
  }

  /** Why a review is refused, by the first of these that stands against it. */
  lemma ReviewRefusals(w: World, id: nat, reviewer: nat, decision: ReviewAction, hasNote: bool, today: Option<Schedule>,
                       graceMs: int)
    requires Reachable(w)
    ensures var l, n := w.ledger, |w.ledger.verifications|;
            var outcome := ReviewDocument(l, id, reviewer, decision, hasNote, today, graceMs).1;
            if id >= n || !InReview(l.verifications[id]) then outcome == Refused(NotReviewable)
            else if Closed(l.reg.status) then outcome == Refused(NotPayable)
            else if id + 1 != n then outcome == Refused(NotReviewable)
            else if decision == Approve && l.verifications[id].scan != Clean then outcome == Refused(NotClean)
            else if l.reg.payer == Some(reviewer) || l.verifications[id].uploader == reviewer then
              outcome == Refused(OwnDocument)
            else if decision == Clarify && !hasNote then outcome == Refused(NoteMissing)
            else decision == Reject && today.None? ==> outcome == Refused(PricingUnavailable)
  {
    hide Reachable, PaidTotals;
  }

  // ---- Documents -------------------------------------------------------------------------------

  predicate InReview(v: Verification) {
    v.status == Submitted || v.status == ClarificationRequested
  }

  /**
  An upload is taken if the user may pay, checked before, and the registration is still a student's, PENDING or
  AWAITING_VERIFICATION. A new document is then the latest and the only one in review.
  */
  lemma UploadAnswers(w: World, user: nat, asset: nat, scan: ScanStatus)
    ensures var reg := w.ledger.reg;
            user in Apply(w, ReadUpload(user)).uploaders <==>
              user in w.uploaders || (&& (reg.payer.None? || reg.payer == Some(user)) && reg.audience == StudentAudience
                                      && (reg.status == Pending || reg.status == AwaitingVerification))
    ensures var l, r := w.ledger, SubmitDocument(w.ledger, user, asset, scan);
            var n := |l.verifications|;
            && r.0.reg == l.reg && r.0.payments == l.payments
            && (r.1.Refused? <==> !(&& l.reg.audience == StudentAudience
                                    && (l.reg.status == Pending || l.reg.status == AwaitingVerification)))
            && (r.1 == Applied ==>
                  && (forall i :: 0 <= i < n ==> l.verifications[i].asset != asset)
                  && |r.0.verifications| == n + 1 && r.0.verifications[n] == Verification(Submitted, asset, user, scan)
                  && forall i :: 0 <= i < n ==>
                       r.0.verifications[i] == if InReview(l.verifications[i]) then l.verifications[i].(status := Rejected)
                                               else l.verifications[i])
            && (r.1 == Unchanged ==> exists i :: 0 <= i < n && l.verifications[i].asset == asset)
            && (r.1 != Applied ==> r.0 == l)
  {
  }

  /** A scan result reaches exactly the documents with that file. */
  lemma {:induction false} ScanAnswers(vs: seq<Verification>, asset: nat, scan: ScanStatus)
    ensures var after := Scanned(vs, asset, scan);
            forall i :: 0 <= i < |vs| ==> after[i] == if vs[i].asset == asset then vs[i].(scan := scan) else vs[i]
  {
    if vs != [] {
      ScanAnswers(vs[..|vs| - 1], asset, scan);
    }
  }

  // ---- Details, deadlines and closing ------------------------------------------------------------

  /** Audience and country are chosen until the price is locked; afterwards only invoice details may still be filled in. */
  lemma DetailsAnswers(l: Ledger, user: nat, audience: Audience, country: Option<string>, billingOnly: bool)
    ensures var reg, r := l.reg, ChooseDetails(l, user, audience, country, billingOnly);
            var free := reg.status == Pending && reg.lockedTiming.None?;
            && (r.1 == Applied <==>
                  || free
                  || (&& billingOnly && (reg.status == Pending || reg.status == AdditionalPaymentRequired)
                      && (reg.payer.None? || reg.payer == Some(user))
                      && audience == reg.audience && (country.None? || country == reg.country)))
            && (r.1 != Applied ==> r.0 == l)
            && (r.1 == Applied ==>
                  && r.0 == l.(reg := reg.(version := reg.version + 1, audience := r.0.reg.audience,
                                           country := r.0.reg.country))
                  && r.0.reg.audience == (if free then audience else reg.audience)
                  && r.0.reg.country == (if free && country.Some? then country else reg.country))
  {
  }

  /** An extension gives exactly the time up to the new deadline, also to a registration in its grace period. */
  lemma ExtensionAnswers(l: Ledger, deadline: int, version: int, user: nat, ready: bool, now: int)
    ensures var r := ExtendDeadline(l, deadline, version);
            && (r.1 == Applied <==> l.reg.version == version)
            && (r.1 != Applied ==> r.0 == l)
            && (r.1 == Applied ==>
                  && r.0 == l.(reg := l.reg.(deadlineAt := deadline, graceUntil := None, version := version + 1))
                  && (Payable(r.0, user, ready, now) ==> now <= deadline)
                  && (Payable(l, user, ready, now) && now <= deadline ==> Payable(r.0, user, ready, now)))
  {
  }

  /** Only an unpriced cancellation, hence one without rows, is reopened, and only if nothing changed since it was read. */
  lemma ReopenAnswers(w: World, read: OpenRead, now: int, deadline: int)
    requires Reachable(w) && read in w.opens
    ensures var l, r := w.ledger, Reopen(w.ledger, read, now, deadline);
            && (r.1 == Applied <==>
                  && read.snapshot.status == Cancelled && read.snapshot.lockedTiming.None? && !read.settled
                  && l.reg.version == read.snapshot.version)
            && (r.1 != Applied ==> r.0 == l)
            && (r.1 == Applied ==>
                  && l.payments == [] && l.reg.status == Cancelled
                  && r.0 == l.(reg := l.reg.(status := Pending, windowOpensAt := now, deadlineAt := deadline,
                                             version := l.reg.version + 1)))
  {
    hide Reachable, RowsOk, UniqueIds, PendingOk, CoveredOk, IntentsOk, PaidTotals, AttemptOk, DoomOk;
    ReachableOk(w);
    assert OpenReadOk(w.ledger, read);
  }

  /** A decision against the paper cancels every open registration, a withdrawal spares the paid ones; no row changes. */
  lemma ClosingAnswers(w: World)
    ensures var l, d, t := w.ledger, Apply(w, Decide).ledger, Apply(w, Withdraw).ledger;
            && d.payments == l.payments && t.payments == l.payments
            && d.reg.status == (if Closed(l.reg.status) then l.reg.status else Cancelled)
            && t.reg.status == (if Closed(l.reg.status) || l.reg.status == Paid then l.reg.status else Cancelled)
            && (d.reg.status == l.reg.status ==> d == l) && (t.reg.status == l.reg.status ==> t == l)
  {
  }

  // ---- Sweeps ----------------------------------------------------------------------------------

  /** The last moment of a registration that owes an additional payment. */
  function GraceEnds(reg: Registration, graceMs: int): int {
    if reg.graceUntil.Some? then reg.graceUntil.value else reg.deadlineAt + graceMs
  }

  /** The API sweep discards a pending registration past its deadline, and an owing one past its grace period. */
  lemma ApiSweepAnswers(w: World, now: int, graceMs: int)
    requires Reachable(w)
    ensures var reg := w.ledger.reg;
            ApiSweepDiscards(w.ledger, now, graceMs) <==>
              || (reg.status == Pending && reg.deadlineAt < now)
              || (reg.status == AdditionalPaymentRequired && GraceEnds(reg, graceMs) < now)
  {
    hide Reachable, RowsOk, UniqueIds, PendingOk, IntentsOk, OneCurrency, PaidTotals;
    Reached(w);
    if w.ledger.reg.status == Pending {
      PendingNetIsZero(w.ledger);
    }
  }

  /**
  The worker's sweep discards a pending registration past its deadline, an owing one past its deadline or its grace
  period, and a waiting one past its deadline if refunds not made would leave too little.
  */
  lemma WorkerSweepAnswers(w: World, now: int)
    requires Reachable(w)
    ensures var reg, ps := w.ledger.reg, w.ledger.payments;
            WorkerSweepDiscards(w.ledger, now) <==>
              || (reg.status == Pending && reg.deadlineAt < now)
              || (&& reg.status == AdditionalPaymentRequired
                  && (reg.deadlineAt < now || (reg.graceUntil.Some? && reg.graceUntil.value < now)))
              || (&& reg.status == AwaitingVerification && reg.deadlineAt < now
                  && Net(ps) - Sum(UnsettledRefund, ps) < reg.amountDue)
  {
    hide Reachable, UniqueIds, PendingOk, IntentsOk, OneCurrency, WorkerNet, PaidTotals, RowsOk, Sum;
    Reached(w);
    WorkerNetIsLower(w.ledger.payments);
    UnsettledIsPositive(w.ledger.payments);
    if w.ledger.reg.status == Pending {
      PendingNetIsZero(w.ledger);
    }
  }

  lemma {:induction false} UnsettledIsPositive(ps: seq<Payment>)
    requires RowsOk(ps)
    ensures Sum(UnsettledRefund, ps) >= 0
  {
    forall i | 0 <= i < |ps|
      ensures UnsettledRefund(ps[i]) >= 0
    {
      RowAt(ps, i);
    }
    NeverNegative(UnsettledRefund, ps);
  }

  lemma {:induction false} NeverNegative(f: Payment -> int, ps: seq<Payment>)
    requires forall i :: 0 <= i < |ps| ==> f(ps[i]) >= 0
    ensures Sum(f, ps) >= 0
  {
    if ps != [] {
      NeverNegative(f, ps[..|ps| - 1]);
    }
  }

  /** An owing registration loses its grace period to the worker's sweep exactly while the deadline is past and it is not. */
  lemma GraceIsCutExactly(w: World, now: int, graceMs: nat)
    requires Reachable(w) && w.ledger.reg.status == AdditionalPaymentRequired
    ensures WorkerSweepDiscards(w.ledger, now) && !ApiSweepDiscards(w.ledger, now, graceMs)
            <==> w.ledger.reg.deadlineAt < now <= GraceEnds(w.ledger.reg, graceMs)
  {
    hide Reachable, WorkerSweepDiscards, ApiSweepDiscards;
    WorkerSweepAnswers(w, now);
    ApiSweepAnswers(w, now, graceMs);
  }
}
