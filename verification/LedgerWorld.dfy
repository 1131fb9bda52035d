/**
The whole billing machine around one registration: every transaction, the reads that precede some of
them, and the payment provider as an environment. A run is a list of actions in any order, with
provider events duplicated, late or reordered; each action carries the inputs it depends on.
*/
module LedgerWorld {
  import opened Common
  import opened Billing
  import opened FeeResolver
  import opened PaidState
  import opened RefundAllocation
  import opened LedgerSteps

  datatype ProviderPayment = ProviderPayment(orderId: string, amount: int, currency: string)
  datatype ProviderRefund = ProviderRefund(refundId: string, paymentId: string, amount: int)

  /** A sweep's decision to discard, taken when the registration had this version. */
  datatype Doom = Doom(version: int, byWorker: bool)

  /**
  attempts, opens, uploaders and doomed hold what was read before a later transaction writes; paid and
  processed are the provider's own books.
  */
  datatype World = World(
    ledger: Ledger,
    attempts: set<Attempt>,
    opens: set<OpenRead>,
    uploaders: set<nat>,
    doomed: set<Doom>,
    paid: map<string, ProviderPayment>,
    processed: seq<ProviderRefund>)

  datatype Action =
    | ReadQuote(schedule: Schedule, hasPaidBasePaper: bool, now: int)
    | Reserve(user: nat, key: Key, keyElsewhere: bool, billingReady: bool, attempt: Attempt, now: int)
    | SaveOrder(row: nat, orderId: string)
    | OrderFails(row: nat)
    | ProviderPays(paymentId: string, payment: ProviderPayment)
    | Capture(ev: CaptureEvent, current: Option<Schedule>, eligible: bool, paymentElsewhere: bool)
    | Request(amount: int, reason: string, version: int, now: int)
    | ProviderRefunds(refund: ProviderRefund)
    | RefundNews(news: RefundEvent, refundElsewhere: bool, now: int)
    | Review(id: nat, reviewer: nat, decision: ReviewAction, hasNote: bool, current: Option<Schedule>, graceMs: int)
    | ReadUpload(user: nat)
    | Submit(user: nat, asset: nat, scan: ScanStatus)
    | ScanResult(asset: nat, scan: ScanStatus)
    | Choose(user: nat, audience: Audience, country: Option<string>, billingOnly: bool)
    | Extend(deadline: int, version: int)
    | ReadOpen
    | ReopenNow(read: OpenRead, now: int, deadline: int)
    | Decide
    | Withdraw
    | ApiScan(now: int, graceMs: int)
    | WorkerScan(now: int)
    | SweepWrite(seen: Doom)

  function Start(currency: string, now: int, deadline: int): World {
    World(NewRegistration(currency, now, deadline), {}, {}, {}, {}, map[], [])
  }

  function RefundedBy(paymentId: string): ProviderRefund -> int {
    (r: ProviderRefund) => if r.paymentId == paymentId then r.amount else 0
  }

  /** The provider never hands out a refund id twice nor refunds more than it was paid. */
  predicate ProviderMayRefund(w: World, r: ProviderRefund) {
    && r.amount > 0
    && r.paymentId in w.paid
    && (forall i :: 0 <= i < |w.processed| ==> w.processed[i].refundId != r.refundId)
    && Sum(RefundedBy(r.paymentId), w.processed) + r.amount <= w.paid[r.paymentId].amount
  }

  /** A capture event reports a payment the provider really took. */
  predicate GenuineCapture(w: World, ev: CaptureEvent) {
    ev.paymentId in w.paid && w.paid[ev.paymentId] == ProviderPayment(ev.orderId, ev.amount, ev.currency)
  }

  /** A processed event reports a refund the provider really made; other events are not constrained. */
  predicate GenuineRefund(w: World, ev: RefundEvent) {
    ev.status == RefundProcessed ==> ProviderRefund(ev.refundId, ev.paymentId, ev.amount) in w.processed
  }

  /** The provider issues a fresh order id for every order. */
  predicate AwaitsOrder(payments: seq<Payment>, row: nat) {
    row < |payments| && payments[row].kind != Refund && payments[row].orderId.None?
  }

  predicate FreshOrder(payments: seq<Payment>, orderId: string) {
    forall i :: 0 <= i < |payments| ==> payments[i].orderId != Some(orderId)
  }

  function QuoteRead(reg: Registration, schedule: Schedule, hasPaidBasePaper: bool, now: int): Option<Attempt> {
    if !NeedsQuote(reg) then Some(Attempt(reg, None))
    else
      var q := QuoteRegistration(schedule, reg.audience, reg.country, hasPaidBasePaper, now);
      if q.None? then None else Some(Attempt(reg, q))
  }

  function Apply(w: World, a: Action): World {
    var l := w.ledger;
    match a
    case ReadQuote(schedule, base, now) =>
      var read := QuoteRead(l.reg, schedule, base, now);
      if read.None? then w else w.(attempts := w.attempts + {read.value})
    case Reserve(user, key, elsewhere, ready, attempt, now) =>
      if attempt !in w.attempts then w
      else w.(ledger := ReserveCheckout(l, user, key, elsewhere, ready, attempt, now).0)
    case SaveOrder(row, orderId) =>
      if !AwaitsOrder(l.payments, row) || !FreshOrder(l.payments, orderId) then w
      else w.(ledger := AttachOrder(l, row, orderId))
    case OrderFails(row) =>
      if !AwaitsOrder(l.payments, row) then w else w.(ledger := FailOrder(l, row))
    case ProviderPays(paymentId, payment) =>
      if paymentId in w.paid then w else w.(paid := w.paid[paymentId := payment])
    case Capture(ev, current, eligible, elsewhere) =>
      if !GenuineCapture(w, ev) then w
      else w.(ledger := ProcessCapture(l, ev, current, eligible, elsewhere).0)
    case Request(amount, reason, version, now) =>
      w.(ledger := RequestRefund(l, amount, reason, version, now).0)
    case ProviderRefunds(refund) =>
      if !ProviderMayRefund(w, refund) then w else w.(processed := w.processed + [refund])
    case RefundNews(news, elsewhere, now) =>
      if !GenuineRefund(w, news) then w else w.(ledger := ProcessRefund(l, news, elsewhere, now).0)
    case Review(id, reviewer, decision, hasNote, current, graceMs) =>
      w.(ledger := ReviewDocument(l, id, reviewer, decision, hasNote, current, graceMs).0)
    case ReadUpload(user) =>
      if UploadRefusal(l.reg, user).Some? then w else w.(uploaders := w.uploaders + {user})
    case Submit(user, asset, scan) =>
      if user !in w.uploaders then w else w.(ledger := SubmitDocument(l, user, asset, scan).0)
    case ScanResult(asset, scan) => w.(ledger := l.(verifications := Scanned(l.verifications, asset, scan)))
    case Choose(user, audience, country, billingOnly) =>
      w.(ledger := ChooseDetails(l, user, audience, country, billingOnly).0)
    case Extend(deadline, version) => w.(ledger := ExtendDeadline(l, deadline, version).0)
    case ReadOpen => w.(opens := w.opens + {ReadForOpen(l)})
    case ReopenNow(read, now, deadline) =>
      if read !in w.opens then w else w.(ledger := Reopen(l, read, now, deadline).0)
    case Decide => w.(ledger := DecideAgainst(l))
    case Withdraw => w.(ledger := WithdrawPaper(l))
    case ApiScan(now, graceMs) =>
      if ApiSweepDiscards(l, now, graceMs) then w.(doomed := w.doomed + {Doom(l.reg.version, false)}) else w
    case WorkerScan(now) =>
      if WorkerSweepDiscards(l, now) then w.(doomed := w.doomed + {Doom(l.reg.version, true)}) else w
    case SweepWrite(seen) =>
      if seen !in w.doomed then w else w.(ledger := Close(l, DiscardedNonpayment))
  }

  function Run(w: World, actions: seq<Action>): World {
    if actions == [] then w else Apply(Run(w, actions[..|actions| - 1]), actions[|actions| - 1])
  }

  lemma {:induction false} RunSplit(w: World, first: seq<Action>, second: seq<Action>)
    ensures Run(w, first + second) == Run(Run(w, first), second)
  {
    if second == [] {
      assert first + second == first;
    } else {
      var n := |second| - 1;
      assert (first + second)[..|first| + n] == first + second[..n];
      RunSplit(w, first, second[..n]);
    }
  }
}
