/**
The rows the billing services read and write. One registration owns an append-only table of
payment rows: rows are never deleted, so a row's id is modelled by its position.
Amounts are integers in minor currency units, times are integers in milliseconds.
*/
module Billing {
  import opened Common

  datatype Audience = RegularAudience | StudentAudience
  datatype Timing = Early | Regular

  datatype RegistrationStatus =
    | Pending
    | AwaitingVerification
    | AdditionalPaymentRequired
    | Paid
    | Cancelled
    | Refunded
    | DiscardedNonpayment

  datatype Registration = Registration(
    status: RegistrationStatus,
    audience: Audience,
    country: Option<string>,
    payer: Option<nat>,
    lockedTiming: Option<Timing>,
    isAdditionalPaper: bool,
    amountDue: int,
    regularAmountDue: Option<int>,
    currency: string,
    version: int,
    windowOpensAt: int,
    deadlineAt: int,
    graceUntil: Option<int>)

  datatype PaymentStatus = Created | Authorized | Captured | Failed | RefundDone | RefundPartial
  datatype PaymentKind = Initial | Additional | Refund

  // The idempotency column holds client keys for checkouts and version keys for refund intents.
  datatype Key = ClientKey(text: string) | RefundKey(version: int)

  datatype Payment = Payment(
    status: PaymentStatus,
    kind: PaymentKind,
    amount: int,
    currency: string,
    orderId: Option<string>,
    providerId: Option<string>,
    key: Option<Key>,
    refundOf: Option<nat>,
    reason: string,
    createdAt: int)

  datatype VerificationStatus = Submitted | Approved | Rejected | ClarificationRequested
  datatype ScanStatus = Unscanned | Clean | Infected

  datatype Verification = Verification(status: VerificationStatus, asset: nat, uploader: nat, scan: ScanStatus)

  /** Everything the store holds for one registration. Verifications are in submission order. */
  datatype Ledger = Ledger(reg: Registration, payments: seq<Payment>, verifications: seq<Verification>)

  predicate IsClosed(status: RegistrationStatus) {
    status == Cancelled || status == DiscardedNonpayment || status == Refunded
  }

  predicate IsPayable(status: RegistrationStatus) {
    status == Pending || status == AdditionalPaymentRequired
  }

  /** What the provider reports when an order has been paid. */
  datatype CaptureEvent = CaptureEvent(orderId: string, paymentId: string, amount: int, currency: string, capturedAt: int)

  datatype RefundStatus = RefundPending | RefundProcessed | RefundFailed

  /** What the provider reports about one refund; intent is the row the request was made for, if known. */
  datatype RefundEvent = RefundEvent(
    refundId: string,
    paymentId: string,
    amount: int,
    currency: string,
    status: RefundStatus,
    intent: Option<nat>)

  datatype Reason =
    | NotPayable
    | BillingDetailsMissing
    | WindowClosed
    | OtherPayer
    | StudentDocumentMissing
    | KeyOfAnotherRegistration
    | CheckoutInPreparation
    | KeyAlreadyUsed
    | DetailsChanged
    | NothingDue
    | AmountMismatch
    | PricingUnavailable
    | RetryMismatch
    | VersionConflict
    | ExceedsAvailableFunds
    | InvalidRefund
    | IdentityMismatch
    | NotReviewable
    | NotClean
    | OwnDocument
    | NoteMissing
    | NeedsReconciliation

  /** Applied changed the rows, Unchanged was accepted without a change, Refused threw and rolled back. */
  datatype Outcome = Applied | Unchanged | Refused(reason: Reason)
}
