/** Net paid money and the statuses derived from it: apps/api/src/billing/paid-state.ts. */
module PaidState {
  import opened Common
  import opened Billing

  datatype Totals = Totals(captured: int, refunded: int) {
    function Net(): int { captured - refunded }
  }

  function CapturedAmount(p: Payment): int {
    if p.status == Captured && p.kind != Refund then p.amount else 0
  }

  function RefundedAmount(p: Payment): int {
    if p.kind == Refund && (p.status == RefundDone || p.status == RefundPartial) then p.amount else 0
  }

  function PaidTotals(payments: seq<Payment>): Totals {
    Totals(Sum(CapturedAmount, payments), Sum(RefundedAmount, payments))
  }

  function Net(payments: seq<Payment>): int {
    PaidTotals(payments).Net()
  }

  method ComputePaidState(payments: seq<Payment>) returns (t: Totals)
    ensures t == PaidTotals(payments)
  {
    var captured, refunded := 0, 0;
    for i := 0 to |payments|
      invariant captured == Sum(CapturedAmount, payments[..i])
      invariant refunded == Sum(RefundedAmount, payments[..i])
    {
      var p := payments[i];
      assert payments[..i + 1] == payments[..i] + [p];
      SumAppend(CapturedAmount, payments[..i], p);
      SumAppend(RefundedAmount, payments[..i], p);
      if p.status == Captured && p.kind != Refund {
        captured := captured + p.amount;
      }
      if p.kind == Refund && (p.status == RefundDone || p.status == RefundPartial) {
        refunded := refunded + p.amount;
      }
    }
    assert payments[..|payments|] == payments;
    t := Totals(captured, refunded);
  }

  predicate EffectivelyPaid(reg: Registration, net: int) {
    net >= reg.amountDue && reg.amountDue > 0
  }

  function StatusAfterCapture(reg: Registration, net: int): RegistrationStatus {
    if IsClosed(reg.status) || net < reg.amountDue then reg.status
    else if reg.audience == StudentAudience && reg.status != AdditionalPaymentRequired then AwaitingVerification
    else Paid
  }

  function StatusAfterRefund(reg: Registration, net: int): RegistrationStatus {
    if IsClosed(reg.status) then reg.status
    else if EffectivelyPaid(reg, net) then
      if reg.audience == StudentAudience && reg.status == AwaitingVerification then AwaitingVerification else Paid
    else if reg.status == AdditionalPaymentRequired || net > 0 then AdditionalPaymentRequired
    else Refunded
  }

  lemma NetAppend(payments: seq<Payment>, p: Payment)
    ensures Net(payments + [p]) == Net(payments) + CapturedAmount(p) - RefundedAmount(p)
  {
    SumAppend(CapturedAmount, payments, p);
    SumAppend(RefundedAmount, payments, p);
  }

  lemma NetOfNothing()
    ensures Net([]) == 0
  {
  }

  lemma NetUpdate(payments: seq<Payment>, i: nat, p: Payment)
    requires i < |payments|
    ensures Net(payments[i := p])
         == Net(payments) + CapturedAmount(p) - CapturedAmount(payments[i]) - RefundedAmount(p) + RefundedAmount(payments[i])
  {
    SumUpdate(CapturedAmount, payments, i, p);
    SumUpdate(RefundedAmount, payments, i, p);
  }
}
