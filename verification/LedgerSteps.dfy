/**
What each billing transaction does to the rows of one registration, as functions of the rows before
it. A refusal throws in the source, which rolls the transaction back, so it leaves the rows alone.
*/
module LedgerSteps {
  import opened Common
  import opened Billing
  import opened FeeResolver
  import opened PaidState
  import opened RefundAllocation

  type Step = (Ledger, Outcome)

  const PREPARING_MS := 60_000

  // ---- Row lookups -------------------------------------------------------------------------

  /** The newest row that is still CREATED, whatever its kind. */
  function NewestCreated(payments: seq<Payment>): (i: Option<nat>)
    ensures i.Some? ==> i.value < |payments| && payments[i.value].status == Created
    ensures i.Some? ==> forall j :: i.value < j < |payments| ==> payments[j].status != Created
    ensures i.None? ==> forall j :: 0 <= j < |payments| ==> payments[j].status != Created
  {
    if payments == [] then None
    else if payments[|payments| - 1].status == Created then Some(|payments| - 1)
    else NewestCreated(payments[..|payments| - 1])
  }

  function RowWhere(payments: seq<Payment>, wanted: Payment -> bool): (i: Option<nat>)
    ensures i.Some? ==> i.value < |payments| && wanted(payments[i.value])
    ensures i.Some? ==> forall j :: 0 <= j < i.value ==> !wanted(payments[j])
    ensures i.None? ==> forall j :: 0 <= j < |payments| ==> !wanted(payments[j])
  {
    if payments == [] then None
    else
      var n := |payments| - 1;
      var earlier := RowWhere(payments[..n], wanted);
      if earlier.Some? then earlier
      else if wanted(payments[n]) then Some(n) else None
  }

  function HasOrder(orderId: string): Payment -> bool {
    (p: Payment) => p.orderId == Some(orderId)
  }

  function HasProviderId(id: string): Payment -> bool {
    (p: Payment) => p.providerId == Some(id)
  }

  function HasKey(key: Key): Payment -> bool {
    (p: Payment) => p.key == Some(key)
  }

  function IsCaptureOf(paymentId: string): Payment -> bool {
    (p: Payment) => p.providerId == Some(paymentId) && p.kind != Refund && p.status == Captured
  }

  function IsIntent(version: int): Payment -> bool {
    (p: Payment) => p.kind == Refund && p.key == Some(RefundKey(version))
  }

  function IntentAmount(version: int): Payment -> int {
    (p: Payment) => if p.kind == Refund && p.key == Some(RefundKey(version)) then p.amount else 0
  }

  /** What the intents recorded under one registration version add up to. */
  function IntentTotal(payments: seq<Payment>, version: int): int {
    Sum(IntentAmount(version), payments)
  }

  // ---- Checkout ----------------------------------------------------------------------------

  /** What initiatePayment read before it took the row lock: the registration and its quote. */
  datatype Attempt = Attempt(snapshot: Registration, quote: Option<Quote>)

  predicate NeedsQuote(reg: Registration) {
    reg.lockedTiming.None? && reg.status == Pending
  }

  predicate WindowOpen(reg: Registration, now: int) {
    reg.windowOpensAt <= now <= (if reg.graceUntil.Some? then reg.graceUntil.value else reg.deadlineAt)
  }

  predicate StudentDocumentReady(verifications: seq<Verification>, user: nat) {
    verifications != [] &&
    var v := verifications[|verifications| - 1];
    (v.status == Submitted || v.status == Approved) && v.scan == Clean && v.uploader == user
  }

  function FirstRefusal(
    l: Ledger, user: nat, key: Key, keyElsewhere: bool, billingReady: bool, now: int
  ): Option<Reason> {
    var reg := l.reg;
    if !IsPayable(reg.status) then Some(NotPayable)
    else if !billingReady then Some(BillingDetailsMissing)
    else if !WindowOpen(reg, now) then Some(WindowClosed)
    else if reg.payer.Some? && reg.payer.value != user then Some(OtherPayer)
    else if reg.audience == StudentAudience && reg.status != AdditionalPaymentRequired
            && !StudentDocumentReady(l.verifications, user) then Some(StudentDocumentMissing)
    else if keyElsewhere then Some(KeyOfAnotherRegistration)
    else None
  }

  function LockPrice(reg: Registration, user: nat, quote: Option<Quote>): Registration {
    var r := reg.(payer := Some(user), version := reg.version + 1);
    if quote.None? then r
    else
      var q := quote.value;
      r.(amountDue := q.amount, regularAmountDue := Some(q.regularAmount), currency := q.currency,
         lockedTiming := Some(q.timing), isAdditionalPaper := q.isAdditionalPaper)
  }

  function CheckoutRow(reg: Registration, attempt: Attempt, net: int, key: Key, now: int): Payment {
    var kind := if reg.status == AdditionalPaymentRequired then Additional else Initial;
    var amount :=
      if kind == Additional then reg.amountDue - net
      else if attempt.quote.Some? then attempt.quote.value.amount else reg.amountDue;
    var currency := if attempt.quote.Some? then attempt.quote.value.currency else reg.currency;
    Payment(Created, kind, amount, currency, None, None, Some(key), None, "", now)
  }

  /** The transaction of initiatePayment that reserves a checkout. */
  function ReserveCheckout(
    l: Ledger, user: nat, key: Key, keyElsewhere: bool, billingReady: bool, attempt: Attempt, now: int
  ): Step {
    var refusal := FirstRefusal(l, user, key, keyElsewhere, billingReady, now);
    var pending := NewestCreated(l.payments);
    if refusal.Some? then (l, Refused(refusal.value))
    else if pending.Some? && l.payments[pending.value].orderId.Some? then (l, Unchanged)
    else if pending.Some? && l.payments[pending.value].createdAt > now - PREPARING_MS then
      (l, Refused(CheckoutInPreparation))
    else
      var payments :=
        if pending.Some? then l.payments[pending.value := l.payments[pending.value].(status := Failed)]
        else l.payments;
      var row := CheckoutRow(l.reg, attempt, Net(payments), key, now);
      if RowWhere(l.payments, HasKey(key)).Some? then (l, Refused(KeyAlreadyUsed))
      else if l.reg.version != attempt.snapshot.version then (l, Refused(DetailsChanged))
      else if row.amount < MIN_PAYABLE then (l, Refused(NothingDue))
      else (l.(reg := LockPrice(l.reg, user, attempt.quote), payments := payments + [row]), Applied)
  }

  /**
  When a new checkout is reserved: nothing refuses it, the newest row still CREATED has no order and is at least a minute
  old, the key is new, the registration is as it was read, and there is something to pay.
  */
  predicate ReservesNew(
    l: Ledger, user: nat, key: Key, keyElsewhere: bool, billingReady: bool, attempt: Attempt, now: int
  ) {
    && FirstRefusal(l, user, key, keyElsewhere, billingReady, now).None?
    && (var pending := NewestCreated(l.payments);
        pending.Some? ==>
          l.payments[pending.value].orderId.None? && l.payments[pending.value].createdAt <= now - PREPARING_MS)
    && (forall i :: 0 <= i < |l.payments| ==> l.payments[i].key != Some(key))
    && l.reg.version == attempt.snapshot.version
    && CheckoutRow(l.reg, attempt, Net(l.payments), key, now).amount >= MIN_PAYABLE
  }

  lemma ReservesExactly(
    l: Ledger, user: nat, key: Key, keyElsewhere: bool, billingReady: bool, attempt: Attempt, now: int)
    ensures ReserveCheckout(l, user, key, keyElsewhere, billingReady, attempt, now).1 == Applied
            <==> ReservesNew(l, user, key, keyElsewhere, billingReady, attempt, now)
  {
    hide FirstRefusal, NewestCreated, PaidTotals, RowWhere;
    var ps, pending := l.payments, NewestCreated(l.payments);
    if pending.Some? {
      NetUpdate(ps, pending.value, ps[pending.value].(status := Failed));
    }
    assert RowWhere(ps, HasKey(key)).None? <==> forall i :: 0 <= i < |ps| ==> !HasKey(key)(ps[i]);
  }

  /** After the provider answered: the order id is saved without looking at the row again. */
  function AttachOrder(l: Ledger, row: nat, orderId: string): Ledger
    requires row < |l.payments|
  {
    l.(payments := l.payments[row := l.payments[row].(orderId := Some(orderId))])
  }

  function FailOrder(l: Ledger, row: nat): Ledger
    requires row < |l.payments|
  {
    l.(payments := l.payments[row := l.payments[row].(status := Failed)])
  }

  // ---- Capture -----------------------------------------------------------------------------

  /** Timing and price for a registration whose price was never locked (resolveAmountDue). */
  function Reprice(reg: Registration, schedule: Option<Schedule>, capturedAt: int): Option<(Timing, int)> {
    if schedule.None? then None
    else
      var timing := ResolveTiming(capturedAt, schedule.value.earlyBirdEndsAt);
      var due := MatrixAmount(schedule.value, reg.audience, timing);
      if due.None? then None else Some((timing, due.value))
  }

  function LatestIsApproved(verifications: seq<Verification>): bool {
    verifications != [] && verifications[|verifications| - 1].status == Approved
  }

  function StatusOnCapture(l: Ledger, eligible: bool): RegistrationStatus {
    if !eligible then Cancelled
    else
      var next := StatusAfterCapture(l.reg, Net(l.payments));
      if next == AwaitingVerification && LatestIsApproved(l.verifications) then Paid else next
  }

  /** The transaction of processCapture; eligible says whether the paper is still accepted and notified. */
  function ProcessCapture(
    l: Ledger, ev: CaptureEvent, schedule: Option<Schedule>, eligible: bool, paymentElsewhere: bool
  ): Step {
    var found := RowWhere(l.payments, HasOrder(ev.orderId));
    var owner := RowWhere(l.payments, HasProviderId(ev.paymentId));
    if found.None? then (l, Unchanged)
    else
      var row := l.payments[found.value];
      if paymentElsewhere || (owner.Some? && owner != found) then (l, Unchanged)
      else if row.status == Captured || row.status == RefundDone || row.status == RefundPartial then (l, Unchanged)
      else if ev.amount != row.amount || ev.currency != row.currency then (l, Refused(AmountMismatch))
      else
        var unlocked := row.kind == Initial && l.reg.lockedTiming.None?;
        var priced := if unlocked then Reprice(l.reg, schedule, ev.capturedAt) else None;
        if unlocked && priced.None? then (l, Refused(PricingUnavailable))
        else
          var payments := l.payments[found.value := row.(status := Captured, providerId := Some(ev.paymentId))];
          var reg := l.reg.(version := l.reg.version + 1);
          var reg' := if unlocked then reg.(lockedTiming := Some(priced.value.0), amountDue := priced.value.1) else reg;
          var l' := l.(reg := reg', payments := payments);
          (l'.(reg := reg'.(status := StatusOnCapture(l', eligible))), Applied)
  }

  // ---- Refunds -----------------------------------------------------------------------------

  function IntentRow(payments: seq<Payment>, part: Allocation, version: int, reason: string, now: int): Payment
    requires part.capture < |payments|
  {
    Payment(Created, Refund, part.amount, payments[part.capture].currency, None, None,
            Some(RefundKey(version)), Some(part.capture), reason, now)
  }

  function IntentRows(payments: seq<Payment>, parts: seq<Allocation>, version: int, reason: string,
                      now: int): (rows: seq<Payment>)
    requires forall k :: 0 <= k < |parts| ==> parts[k].capture < |payments|
    ensures |rows| == |parts|
    ensures forall k :: 0 <= k < |rows| ==> rows[k] == IntentRow(payments, parts[k], version, reason, now)
  {
    if parts == [] then []
    else
      var n := |parts| - 1;
      IntentRows(payments, parts[..n], version, reason, now) + [IntentRow(payments, parts[n], version, reason, now)]
  }

  function SafeParts(payments: seq<Payment>, parts: seq<Allocation>): bool {
    forall k :: 0 <= k < |parts| ==> parts[k].capture < |payments|
  }

  predicate RetryMatches(payments: seq<Payment>, version: int, amount: int, reason: string) {
    && IntentTotal(payments, version) == amount
    && forall i :: 0 <= i < |payments| && IsIntent(version)(payments[i]) ==> payments[i].reason == reason
  }

  lemma {:induction false} AllocationInRange(payments: seq<Payment>, i: nat, legacy: int, remaining: int)
    requires i <= |payments|
    ensures SafeParts(payments, AllocateFrom(payments, i, legacy, remaining).0)
    decreases |payments| - i
  {
    if i < |payments| {
      var available := payments[i].amount - Linked(payments, i);
      var share := Min(Max(available, 0), legacy);
      AllocationInRange(payments, i + 1, legacy, remaining);
      AllocationInRange(payments, i + 1, legacy - share, remaining - Min(Max(available - share, 0), remaining));
      AllocationInRange(payments, i + 1, legacy - share, remaining);
    }
  }

  /** The transaction of refund() that records the intents before the provider is called. */
  function RequestRefund(l: Ledger, amount: int, reason: string, version: int, now: int): Step {
    if RowWhere(l.payments, IsIntent(version)).Some? then
      if RetryMatches(l.payments, version, amount, reason) then (l, Unchanged) else (l, Refused(RetryMismatch))
    else if l.reg.version != version then (l, Refused(VersionConflict))
    else
      var parts := Allocate(l.payments, amount);
      if parts.None? then (l, Refused(ExceedsAvailableFunds))
      else
        AllocationInRange(l.payments, 0, Unlinked(l.payments), amount);
        var rows := IntentRows(l.payments, parts.value, version, reason, now);
        (l.(reg := l.reg.(version := version + 1), payments := l.payments + rows), Applied)
  }

  /** The row an event is about: by provider id, else by the intent the request was made for. */
  function RefundRow(payments: seq<Payment>, ev: RefundEvent): (i: Option<nat>)
    ensures i.Some? ==> i.value < |payments|
  {
    var known := RowWhere(payments, HasProviderId(ev.refundId));
    if known.Some? then known
    else if ev.intent.Some? && ev.intent.value < |payments| then ev.intent
    else None
  }

  predicate SameRefund(row: Payment, ev: RefundEvent, capture: nat) {
    && row.kind == Refund
    && (row.refundOf.None? || row.refundOf == Some(capture))
    && row.amount == ev.amount
    && (row.providerId.None? || row.providerId == Some(ev.refundId))
  }

  function StatusOf(s: RefundStatus): PaymentStatus {
    match s
    case RefundPending => Created
    case RefundProcessed => RefundDone
    case RefundFailed => Failed
  }

  function SettleRefund(l: Ledger, payments: seq<Payment>, status: PaymentStatus): Ledger {
    var l' := l.(payments := payments);
    if status != RefundDone then l'
    else l'.(reg := l.reg.(status := StatusAfterRefund(l.reg, Net(payments)), version := l.reg.version + 1))
  }

  function RefundUpdate(row: Payment, ev: RefundEvent, capture: nat): Payment {
    row.(providerId := Some(ev.refundId), refundOf := Some(capture), status := StatusOf(ev.status))
  }

  function ExternalRefund(ev: RefundEvent, capture: nat, now: int): Payment {
    Payment(StatusOf(ev.status), Refund, ev.amount, ev.currency, None, Some(ev.refundId), None, Some(capture), "", now)
  }

  /** processRefundEntity. */
  function ProcessRefund(l: Ledger, ev: RefundEvent, refundElsewhere: bool, now: int): Step {
    var capture := RowWhere(l.payments, IsCaptureOf(ev.paymentId));
    if capture.None? then (l, Unchanged)
    else if ev.refundId == "" || !(0 < ev.amount <= l.payments[capture.value].amount)
            || ev.currency != l.payments[capture.value].currency then (l, Refused(InvalidRefund))
    else if refundElsewhere then (l, Refused(IdentityMismatch))
    else
      var existing := RefundRow(l.payments, ev);
      if existing.None? then
        (SettleRefund(l, l.payments + [ExternalRefund(ev, capture.value, now)], StatusOf(ev.status)), Applied)
      else
        var row := l.payments[existing.value];
        if !SameRefund(row, ev, capture.value) then (l, Refused(IdentityMismatch))
        else if row.status == RefundDone || (row.status == Failed && ev.status == RefundPending) then (l, Unchanged)
        else
          (SettleRefund(l, l.payments[existing.value := RefundUpdate(row, ev, capture.value)], StatusOf(ev.status)), Applied)
  }

  /** The event is valid for capture c and comes to a row it fits, or to none. */
  predicate NewsFit(l: Ledger, ev: RefundEvent, refundElsewhere: bool) {
    var capture := RowWhere(l.payments, IsCaptureOf(ev.paymentId));
    && capture.Some?
    && ev.refundId != "" && 0 < ev.amount <= l.payments[capture.value].amount
    && ev.currency == l.payments[capture.value].currency
    && !refundElsewhere
    && (RefundRow(l.payments, ev).Some? ==>
          SameRefund(l.payments[RefundRow(l.payments, ev).value], ev, capture.value))
  }

  /** When news are applied: they fit, the row is not refunded yet, and pending news do not come to a failed row. */
  predicate NewsTaken(l: Ledger, ev: RefundEvent, refundElsewhere: bool) {
    && NewsFit(l, ev, refundElsewhere)
    && (RefundRow(l.payments, ev).Some? ==>
          var status := l.payments[RefundRow(l.payments, ev).value].status;
          status != RefundDone && !(status == Failed && ev.status == RefundPending))
  }

  lemma NewsTakenExactly(l: Ledger, ev: RefundEvent, refundElsewhere: bool, now: int)
    ensures ProcessRefund(l, ev, refundElsewhere, now).1 == Applied <==> NewsTaken(l, ev, refundElsewhere)
  {
    hide RowWhere, RefundRow, SameRefund, PaidTotals;
  }

  // ---- Student documents -------------------------------------------------------------------

  datatype ReviewAction = Approve | Clarify | Reject

  predicate Reviewable(status: VerificationStatus) {
    status == Submitted || status == ClarificationRequested
  }

  function SetVerification(l: Ledger, status: VerificationStatus): Ledger
    requires l.verifications != []
  {
    var n := |l.verifications| - 1;
    l.(verifications := l.verifications[n := l.verifications[n].(status := status)])
  }

  /** The regular price a rejected student owes: the snapshot of the quote, else the current schedule. */
  function RegularDue(reg: Registration, schedule: Option<Schedule>): Option<int> {
    if reg.regularAmountDue.Some? then reg.regularAmountDue
    else if schedule.None? || reg.lockedTiming.None? then None
    else MatrixAmount(schedule.value, RegularAudience, reg.lockedTiming.value)
  }

  /** review(): only the latest document of an open registration can be decided. */
  function ReviewDocument(
    l: Ledger, id: nat, reviewer: nat, action: ReviewAction, hasNote: bool, schedule: Option<Schedule>, graceMs: int
  ): Step {
    var n := |l.verifications|;
    var reg := l.reg;
    if id >= n || !Reviewable(l.verifications[id].status) then (l, Refused(NotReviewable))
    else if IsClosed(reg.status) then (l, Refused(NotPayable))
    else if id != n - 1 then (l, Refused(NotReviewable))
    else if action == Approve && l.verifications[id].scan != Clean then (l, Refused(NotClean))
    else if reg.payer == Some(reviewer) || l.verifications[id].uploader == reviewer then (l, Refused(OwnDocument))
    else
      match action
      case Approve =>
        var paid := EffectivelyPaid(reg, Net(l.payments));
        (SetVerification(l, Approved).(reg := reg.(status := if paid then Paid else reg.status, version := reg.version + 1)),
         Applied)
      case Clarify =>
        if !hasNote then (l, Refused(NoteMissing)) else (SetVerification(l, ClarificationRequested), Applied)
      case Reject =>
        if schedule.None? then (l, Refused(PricingUnavailable))
        else if reg.lockedTiming.None? then
          (SetVerification(l, Rejected).(reg := reg.(audience := RegularAudience, version := reg.version + 1)), Applied)
        else
          var due := RegularDue(reg, schedule);
          if due.None? then (l, Refused(PricingUnavailable))
          else
            var owing := reg.(amountDue := due.value, status := AdditionalPaymentRequired,
                              graceUntil := Some(reg.deadlineAt + graceMs), version := reg.version + 1);
            var reg' :=
              if Net(l.payments) >= due.value then owing.(status := Paid, version := owing.version + 1) else owing;
            (SetVerification(l, Rejected).(reg := reg'), Applied)
  }

  function Replace(v: Verification): Verification {
    if Reviewable(v.status) then v.(status := Rejected) else v
  }

  function ReplaceAll(vs: seq<Verification>): (r: seq<Verification>)
    ensures |r| == |vs|
    ensures forall i :: 0 <= i < |vs| ==> r[i] == Replace(vs[i])
  {
    if vs == [] then [] else ReplaceAll(vs[..|vs| - 1]) + [Replace(vs[|vs| - 1])]
  }

  predicate HasAsset(vs: seq<Verification>, asset: nat) {
    exists i :: 0 <= i < |vs| && vs[i].asset == asset
  }

  predicate TakesDocuments(reg: Registration) {
    reg.audience == StudentAudience && (reg.status == Pending || reg.status == AwaitingVerification)
  }

  /** What completeDocUpload checks before it stores the file and takes the row lock. */
  function UploadRefusal(reg: Registration, user: nat): Option<Reason> {
    if reg.payer.Some? && reg.payer.value != user then Some(OtherPayer)
    else if !TakesDocuments(reg) then Some(NotPayable)
    else None
  }

  /** The transaction of completeDocUpload. It looks at the category and status again, but not at the payer. */
  function SubmitDocument(l: Ledger, user: nat, asset: nat, scan: ScanStatus): Step {
    if !TakesDocuments(l.reg) then (l, Refused(NotPayable))
    else if HasAsset(l.verifications, asset) then (l, Unchanged)
    else
      (l.(verifications := ReplaceAll(l.verifications) + [Verification(Submitted, asset, user, scan)]), Applied)
  }

  function Scanned(vs: seq<Verification>, asset: nat, scan: ScanStatus): (r: seq<Verification>)
    ensures |r| == |vs|
  {
    if vs == [] then []
    else
      var n := |vs| - 1;
      Scanned(vs[..n], asset, scan) + [if vs[n].asset == asset then vs[n].(scan := scan) else vs[n]]
  }

  // ---- Registration details, deadlines and closing -------------------------------------------

  function NewRegistration(currency: string, now: int, deadline: int): Ledger {
    Ledger(
      Registration(Pending, RegularAudience, None, None, None, false, 0, None, currency, 0, now, deadline, None),
      [], [])
  }

  /** createRegistration; billingOnly says that the input only fills in missing invoice details. */
  function ChooseDetails(
    l: Ledger, user: nat, audience: Audience, country: Option<string>, billingOnly: bool
  ): Step {
    var reg := l.reg;
    var frozen := reg.status != Pending || reg.lockedTiming.Some?;
    var fillsGaps :=
      && billingOnly && IsPayable(reg.status) && (reg.payer.None? || reg.payer.value == user)
      && audience == reg.audience && (country.None? || country == reg.country);
    if frozen && !fillsGaps then (l, Refused(NotPayable))
    else
      var r := reg.(version := reg.version + 1);
      if frozen then (l.(reg := r), Applied)
      else (l.(reg := r.(audience := audience, country := if country.Some? then country else reg.country)), Applied)
  }

  function ExtendDeadline(l: Ledger, deadline: int, version: int): Step {
    if l.reg.version != version then (l, Refused(VersionConflict))
    else (l.(reg := l.reg.(deadlineAt := deadline, graceUntil := None, version := version + 1)), Applied)
  }

  function IsSettled(p: Payment): bool {
    p.status == Captured || p.status == RefundDone || p.status == RefundPartial
  }

  /** What openRegistration read about a cancelled registration before it wrote. */
  datatype OpenRead = OpenRead(snapshot: Registration, settled: bool)

  function ReadForOpen(l: Ledger): OpenRead {
    OpenRead(l.reg, RowWhere(l.payments, IsSettled).Some?)
  }

  /** openRegistration on an existing registration: only an unpaid, unpriced cancellation is reopened. */
  function Reopen(l: Ledger, read: OpenRead, now: int, deadline: int): Step {
    if read.snapshot.status != Cancelled then (l, Unchanged)
    else if read.settled || read.snapshot.lockedTiming.Some? then (l, Refused(NeedsReconciliation))
    else if l.reg.status != Cancelled || l.reg.version != read.snapshot.version then (l, Unchanged)
    else
      (l.(reg := l.reg.(status := Pending, windowOpensAt := now, deadlineAt := deadline, version := l.reg.version + 1)), Applied)
  }

  function Close(l: Ledger, status: RegistrationStatus): Ledger {
    l.(reg := l.reg.(status := status, version := l.reg.version + 1))
  }

  /** A decision other than ACCEPT cancels every registration that is not closed yet. */
  function DecideAgainst(l: Ledger): Ledger {
    if IsClosed(l.reg.status) then l else Close(l, Cancelled)
  }

  /** Withdrawing the paper cancels a registration that is not paid. */
  function WithdrawPaper(l: Ledger): Ledger {
    if IsClosed(l.reg.status) || l.reg.status == Paid then l else Close(l, Cancelled)
  }

  // ---- Sweeps ------------------------------------------------------------------------------

  function GraceEnd(reg: Registration, graceMs: int): int {
    if reg.graceUntil.Some? then reg.graceUntil.value else reg.deadlineAt + graceMs
  }

  /** The rows the API sweep selects. */
  predicate SweepCandidate(reg: Registration, now: int, graceMs: int) {
    && reg.status != Paid && !IsClosed(reg.status)
    && if reg.status != AdditionalPaymentRequired then reg.deadlineAt < now
       else if reg.graceUntil.Some? then reg.graceUntil.value < now
       else reg.deadlineAt < now - graceMs
  }

  /** What the API sweep decides about one selected row. */
  predicate SweepKeeps(reg: Registration, net: int, now: int, graceMs: int) {
    if reg.status == AwaitingVerification && EffectivelyPaid(reg, net) then true
    else if reg.status == AdditionalPaymentRequired then
      !(now <= GraceEnd(reg, graceMs) && net < reg.amountDue) && net >= reg.amountDue
    else EffectivelyPaid(reg, net) || reg.status == Paid
  }

  predicate ApiSweepDiscards(l: Ledger, now: int, graceMs: int) {
    SweepCandidate(l.reg, now, graceMs) && !SweepKeeps(l.reg, Net(l.payments), now, graceMs)
  }

  function AnyRefundAmount(p: Payment): int {
    if p.kind == Refund then p.amount else 0
  }

  /** The worker's own net: it subtracts every refund row, settled or not. */
  function WorkerNet(payments: seq<Payment>): int {
    Sum(CapturedAmount, payments) - Sum(AnyRefundAmount, payments)
  }

  predicate WorkerSweepDiscards(l: Ledger, now: int) {
    var reg, net := l.reg, WorkerNet(l.payments);
    && reg.status != Paid && !IsClosed(reg.status)
    && !(reg.status == AwaitingVerification && net >= reg.amountDue)
    && !EffectivelyPaid(reg, net)
    && (reg.deadlineAt < now
        || (reg.status == AdditionalPaymentRequired && reg.graceUntil.Some? && reg.graceUntil.value < now))
  }
}
