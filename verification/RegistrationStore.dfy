/**
The billing services as they run: every method is one transaction on the rows of one registration and
changes them step by step. Each is proved to do exactly what its function in LedgerSteps says.
*/
module RegistrationStore {
  import opened Common
  import opened Billing
  import opened FeeResolver
  import opened PaidState
  import opened RefundAllocation
  import opened LedgerSteps

  class RegistrationRows {
    var reg: Registration
    var payments: seq<Payment>
    var verifications: seq<Verification>

    function Rows(): Ledger
      reads this
    {
      Ledger(reg, payments, verifications)
    }

    constructor Open(currency: string, now: int, deadline: int)
      ensures Rows() == NewRegistration(currency, now, deadline)
    {
      reg := Registration(Pending, RegularAudience, None, None, None, false, 0, None, currency, 0, now, deadline, None);
      payments := [];
      verifications := [];
    }

    method ReserveCheckout(user: nat, key: Key, keyElsewhere: bool, billingReady: bool, attempt: Attempt, now: int)
      returns (outcome: Outcome)
      modifies this
      ensures (Rows(), outcome)
           == LedgerSteps.ReserveCheckout(old(Rows()), user, key, keyElsewhere, billingReady, attempt, now)
    {
      var refusal := FirstRefusal(Rows(), user, key, keyElsewhere, billingReady, now);
      if refusal.Some? {
        return Refused(refusal.value);
      }
      var pending := NewestCreated(payments);
      var rows := payments;
      if pending.Some? {
        var row := payments[pending.value];
        if row.orderId.Some? {
          return Unchanged;
        }
        if row.createdAt > now - PREPARING_MS {
          return Refused(CheckoutInPreparation);
        }
        rows := rows[pending.value := row.(status := Failed)];
      }
      if RowWhere(payments, HasKey(key)).Some? {
        return Refused(KeyAlreadyUsed);
      }
      if reg.version != attempt.snapshot.version {
        return Refused(DetailsChanged);
      }
      var totals := ComputePaidState(rows);
      var kind := if reg.status == AdditionalPaymentRequired then Additional else Initial;
      var amount, currency := reg.amountDue, reg.currency;
      if attempt.quote.Some? {
        amount, currency := attempt.quote.value.amount, attempt.quote.value.currency;
      }
      if kind == Additional {
        amount := reg.amountDue - totals.Net();
      }
      if amount < MIN_PAYABLE {
        return Refused(NothingDue);
      }
      reg := reg.(payer := Some(user), version := reg.version + 1);
      if attempt.quote.Some? {
        var q := attempt.quote.value;
        reg := reg.(amountDue := q.amount, regularAmountDue := Some(q.regularAmount), currency := q.currency,
                    lockedTiming := Some(q.timing), isAdditionalPaper := q.isAdditionalPaper);
      }
      payments := rows + [Payment(Created, kind, amount, currency, None, None, Some(key), None, "", now)];
      outcome := Applied;
    }

    method SaveOrder(row: nat, orderId: string)
      requires row < |payments|
      modifies this
      ensures Rows() == AttachOrder(old(Rows()), row, orderId)
    {
      payments := payments[row := payments[row].(orderId := Some(orderId))];
    }

    method SaveOrderFailure(row: nat)
      requires row < |payments|
      modifies this
      ensures Rows() == FailOrder(old(Rows()), row)
    {
      payments := payments[row := payments[row].(status := Failed)];
    }

    method ProcessCapture(ev: CaptureEvent, schedule: Option<Schedule>, eligible: bool, paymentElsewhere: bool)
      returns (outcome: Outcome)
      modifies this
      ensures (Rows(), outcome) == LedgerSteps.ProcessCapture(old(Rows()), ev, schedule, eligible, paymentElsewhere)
    {
      hide RowWhere, Sum, StatusOnCapture, Reprice;
      var found := RowWhere(payments, HasOrder(ev.orderId));
      if found.None? {
        return Unchanged;
      }
      var owner := RowWhere(payments, HasProviderId(ev.paymentId));
      if paymentElsewhere || (owner.Some? && owner != found) {
        return Unchanged;
      }
      var row := payments[found.value];
      if row.status == Captured || row.status == RefundDone || row.status == RefundPartial {
        return Unchanged;
      }
      if ev.amount != row.amount || ev.currency != row.currency {
        return Refused(AmountMismatch);
      }
      var timing, due := reg.lockedTiming, reg.amountDue;
      if row.kind == Initial && timing.None? {
        var priced := Reprice(reg, schedule, ev.capturedAt);
        if priced.None? {
          return Refused(PricingUnavailable);
        }
        timing, due := Some(priced.value.0), priced.value.1;
      }
      payments := payments[found.value := row.(status := Captured, providerId := Some(ev.paymentId))];
      reg := reg.(lockedTiming := timing, amountDue := due, version := reg.version + 1);
      var next := DeriveStatus(eligible);
      reg := reg.(status := next);
      outcome := Applied;
    }

    /** The status a capture leads to: an ineligible paper is cancelled whatever was paid. */
    method DeriveStatus(eligible: bool) returns (next: RegistrationStatus)
      ensures next == StatusOnCapture(Rows(), eligible)
    {
      if !eligible {
        return Cancelled;
      }
      var totals := ComputePaidState(payments);
      next := StatusAfterCapture(reg, totals.Net());
      if next == AwaitingVerification && LatestIsApproved(verifications) {
        next := Paid;
      }
    }

    method RequestRefund(amount: int, reason: string, version: int, now: int) returns (outcome: Outcome)
      modifies this
      ensures (Rows(), outcome) == LedgerSteps.RequestRefund(old(Rows()), amount, reason, version, now)
    {
      if RowWhere(payments, IsIntent(version)).Some? {
        var same := IsMatchingRetry(amount, reason, version);
        return if same then Unchanged else Refused(RetryMismatch);
      }
      if reg.version != version {
        return Refused(VersionConflict);
      }
      hide Linked, Unlinked, AllocateFrom, RetryMatches;
      var before := payments;
      var result := AllocateRefund(before, amount);
      if result.None? {
        return Refused(ExceedsAvailableFunds);
      }
      var parts := result.value;
      AllocationInRange(before, 0, Unlinked(before), amount);
      for k := 0 to |parts|
        invariant payments == before + IntentRows(before, parts[..k], version, reason, now)
        invariant reg == old(reg) && verifications == old(verifications)
      {
        assert parts[..k + 1][..k] == parts[..k];
        payments := payments + [IntentRow(before, parts[k], version, reason, now)];
      }
      assert parts[..|parts|] == parts;
      reg := reg.(version := version + 1);
      outcome := Applied;
    }

    /** The retry check of refund(): one pass over the intents recorded under the request's version. */
    method IsMatchingRetry(amount: int, reason: string, version: int) returns (same: bool)
      ensures same == RetryMatches(payments, version, amount, reason)
    {
      var total, reasonsMatch := 0, true;
      for i := 0 to |payments|
        invariant total == Sum(IntentAmount(version), payments[..i])
        invariant reasonsMatch <==> forall j :: 0 <= j < i && IsIntent(version)(payments[j]) ==> payments[j].reason == reason
      {
        assert payments[..i + 1] == payments[..i] + [payments[i]];
        SumAppend(IntentAmount(version), payments[..i], payments[i]);
        if payments[i].kind == Refund && payments[i].key == Some(RefundKey(version)) {
          total := total + payments[i].amount;
          reasonsMatch := reasonsMatch && payments[i].reason == reason;
        }
      }
      assert payments[..|payments|] == payments;
      same := total == amount && reasonsMatch;
    }

    method ProcessRefund(ev: RefundEvent, refundElsewhere: bool, now: int) returns (outcome: Outcome)
      modifies this
      ensures (Rows(), outcome) == LedgerSteps.ProcessRefund(old(Rows()), ev, refundElsewhere, now)
    {
      var capture := RowWhere(payments, IsCaptureOf(ev.paymentId));
      if capture.None? {
        return Unchanged;
      }
      if ev.refundId == "" || !(0 < ev.amount <= payments[capture.value].amount)
         || ev.currency != payments[capture.value].currency {
        return Refused(InvalidRefund);
      }
      if refundElsewhere {
        return Refused(IdentityMismatch);
      }
      var existing := RefundRow(payments, ev);
      var status := StatusOf(ev.status);
      if existing.Some? {
        var row := payments[existing.value];
        if !SameRefund(row, ev, capture.value) {
          return Refused(IdentityMismatch);
        }
        if row.status == RefundDone || (row.status == Failed && ev.status == RefundPending) {
          return Unchanged;
        }
        payments := payments[existing.value :=
          row.(providerId := Some(ev.refundId), refundOf := Some(capture.value), status := status)];
      } else {
        payments := payments + [Payment(status, Refund, ev.amount, ev.currency, None, Some(ev.refundId), None,
                                        Some(capture.value), "", now)];
      }
      if status == RefundDone {
        var totals := ComputePaidState(payments);
        reg := reg.(status := StatusAfterRefund(reg, totals.Net()), version := reg.version + 1);
      }
      outcome := Applied;
    }

    method ReviewDocument(
      id: nat, reviewer: nat, action: ReviewAction, hasNote: bool, schedule: Option<Schedule>, graceMs: int
    ) returns (outcome: Outcome)
      modifies this
      ensures (Rows(), outcome)
           == LedgerSteps.ReviewDocument(old(Rows()), id, reviewer, action, hasNote, schedule, graceMs)
    {
      hide Sum, RegularDue, EffectivelyPaid;
      if id >= |verifications| || !Reviewable(verifications[id].status) {
        return Refused(NotReviewable);
      }
      if IsClosed(reg.status) {
        return Refused(NotPayable);
      }
      if id != |verifications| - 1 {
        return Refused(NotReviewable);
      }
      if action == Approve && verifications[id].scan != Clean {
        return Refused(NotClean);
      }
      if reg.payer == Some(reviewer) || verifications[id].uploader == reviewer {
        return Refused(OwnDocument);
      }
      match action {
        case Approve =>
          verifications := verifications[id := verifications[id].(status := Approved)];
          var totals := ComputePaidState(payments);
          reg := reg.(status := if EffectivelyPaid(reg, totals.Net()) then Paid else reg.status, version := reg.version + 1);
        case Clarify =>
          if !hasNote {
            return Refused(NoteMissing);
          }
          verifications := verifications[id := verifications[id].(status := ClarificationRequested)];
        case Reject =>
          if schedule.None? {
            return Refused(PricingUnavailable);
          }
          if reg.lockedTiming.None? {
            verifications := verifications[id := verifications[id].(status := Rejected)];
            reg := reg.(audience := RegularAudience, version := reg.version + 1);
            return Applied;
          }
          var due := RegularDue(reg, schedule);
          if due.None? {
            return Refused(PricingUnavailable);
          }
          verifications := verifications[id := verifications[id].(status := Rejected)];
          reg := reg.(amountDue := due.value, status := AdditionalPaymentRequired,
                      graceUntil := Some(reg.deadlineAt + graceMs), version := reg.version + 1);
          var totals := ComputePaidState(payments);
          if totals.Net() >= due.value {
            reg := reg.(status := Paid, version := reg.version + 1);
          }
      }
      outcome := Applied;
    }

    method CheckUpload(user: nat) returns (refusal: Option<Reason>)
      ensures refusal == UploadRefusal(reg, user)
    {
      if reg.payer.Some? && reg.payer.value != user {
        return Some(OtherPayer);
      }
      if reg.audience != StudentAudience || !(reg.status == Pending || reg.status == AwaitingVerification) {
        return Some(NotPayable);
      }
      return None;
    }

    method SubmitDocument(user: nat, asset: nat, scan: ScanStatus) returns (outcome: Outcome)
      modifies this
      ensures (Rows(), outcome) == LedgerSteps.SubmitDocument(old(Rows()), user, asset, scan)
    {
      if reg.audience != StudentAudience || !(reg.status == Pending || reg.status == AwaitingVerification) {
        return Refused(NotPayable);
      }
      if HasAsset(verifications, asset) {
        return Unchanged;
      }
      verifications := ReplaceAll(verifications) + [Verification(Submitted, asset, user, scan)];
      outcome := Applied;
    }

    method ChooseDetails(user: nat, audience: Audience, country: Option<string>, billingOnly: bool)
      returns (outcome: Outcome)
      modifies this
      ensures (Rows(), outcome) == LedgerSteps.ChooseDetails(old(Rows()), user, audience, country, billingOnly)
    {
      var frozen := reg.status != Pending || reg.lockedTiming.Some?;
      if frozen {
        if !(billingOnly && IsPayable(reg.status) && (reg.payer.None? || reg.payer.value == user)
             && audience == reg.audience && (country.None? || country == reg.country)) {
          return Refused(NotPayable);
        }
      } else {
        reg := reg.(audience := audience);
        if country.Some? {
          reg := reg.(country := country);
        }
      }
      reg := reg.(version := reg.version + 1);
      outcome := Applied;
    }

    method ExtendDeadline(deadline: int, version: int) returns (outcome: Outcome)
      modifies this
      ensures (Rows(), outcome) == LedgerSteps.ExtendDeadline(old(Rows()), deadline, version)
    {
      if reg.version != version {
        return Refused(VersionConflict);
      }
      reg := reg.(deadlineAt := deadline, graceUntil := None, version := version + 1);
      outcome := Applied;
    }

    method Reopen(read: OpenRead, now: int, deadline: int) returns (outcome: Outcome)
      modifies this
      ensures (Rows(), outcome) == LedgerSteps.Reopen(old(Rows()), read, now, deadline)
    {
      if read.snapshot.status != Cancelled {
        return Unchanged;
      }
      if read.settled || read.snapshot.lockedTiming.Some? {
        return Refused(NeedsReconciliation);
      }
      if reg.status != Cancelled || reg.version != read.snapshot.version {
        return Unchanged;
      }
      reg := reg.(status := Pending, windowOpensAt := now, deadlineAt := deadline, version := reg.version + 1);
      outcome := Applied;
    }

    /** One registration of the API sweep: the branches of the loop body in their order. */
    method ApiSweepDecision(now: int, graceMs: int) returns (discard: bool)
      ensures discard == ApiSweepDiscards(Rows(), now, graceMs)
    {
      if !SweepCandidate(reg, now, graceMs) {
        return false;
      }
      var totals := ComputePaidState(payments);
      var net := totals.Net();
      if reg.status == AwaitingVerification && EffectivelyPaid(reg, net) {
        return false;
      }
      if reg.status == AdditionalPaymentRequired {
        if now <= GraceEnd(reg, graceMs) && net < reg.amountDue {
        } else if net >= reg.amountDue {
          return false;
        }
      } else if net >= reg.amountDue && reg.amountDue > 0 {
        return false;
      }
      discard := reg.status != Paid;
    }

    /** One registration of the worker's sweep, with its own loop over the payment rows. */
    method WorkerSweepDecision(now: int) returns (discard: bool)
      ensures discard == WorkerSweepDiscards(Rows(), now)
    {
      if reg.status == Paid || IsClosed(reg.status) {
        return false;
      }
      var captured, refunded := 0, 0;
      for i := 0 to |payments|
        invariant captured == Sum(CapturedAmount, payments[..i])
        invariant refunded == Sum(AnyRefundAmount, payments[..i])
      {
        var p := payments[i];
        assert payments[..i + 1] == payments[..i] + [p];
        SumAppend(CapturedAmount, payments[..i], p);
        SumAppend(AnyRefundAmount, payments[..i], p);
        if p.status == Captured && p.kind != Refund {
          captured := captured + p.amount;
        }
        if p.kind == Refund {
          refunded := refunded + p.amount;
        }
      }
      assert payments[..|payments|] == payments;
      var net := captured - refunded;
      if reg.status == AwaitingVerification && net >= reg.amountDue {
        return false;
      }
      if net >= reg.amountDue && reg.amountDue > 0 {
        return false;
      }
      var pastDeadline := reg.deadlineAt < now;
      var pastGrace := reg.status == AdditionalPaymentRequired && reg.graceUntil.Some? && reg.graceUntil.value < now;
      discard := pastDeadline || pastGrace;
    }

    /** Discarding, deciding against the paper and withdrawing it write one status each. */
    method WriteStatus(status: RegistrationStatus)
      modifies this
      ensures Rows() == Close(old(Rows()), status)
    {
      reg := reg.(status := status, version := reg.version + 1);
    }
  }
}
