/** Concrete runs that show where a sweep, a refund or a checkout does reach a state one might not expect. */
module WitnessRuns {
  import opened Common
  import opened Billing
  import opened FeeResolver
  import opened PaidState
  import opened RefundAllocation
  import opened LedgerSteps
  import opened LedgerWorld
  import opened LedgerInvariant
  import opened LedgerRuns
  import opened RefundConvergence
  import opened RefundRuns
  import opened LateSweeps
  import opened Reservations
  import opened Answers

  const DEADLINE := 100_000

  function Fees(): Schedule {
    Schedule("EUR", None, None, None,
             map[(RegularAudience, Regular) := 10000, (StudentAudience, Regular) := 4000])
  }

  function Price(audience: Audience): int {
    if audience == RegularAudience then 10000 else 4000
  }

  function QuoteFor(audience: Audience): Quote {
    Quote(Price(audience), 10000, "EUR", Regular, false)
  }

  lemma QuoteIsPrice(audience: Audience)
    ensures QuoteRegistration(Fees(), audience, None, false, 0) == Some(QuoteFor(audience))
  {
    assert RoundHalfUp(10000 as real * 1.0) == 10000;
    assert RoundHalfUp(4000 as real * 1.0) == 4000;
  }

  lemma StartReached()
    ensures Reachable(Start("EUR", 0, DEADLINE))
  {
    assert Run(Start("EUR", 0, DEADLINE), []) == Start("EUR", 0, DEADLINE);
  }

  /** One more step of a run. */
  lemma Do(w: World, a: Action, v: World)
    requires Reachable(w) && Apply(w, a) == v
    ensures Reachable(v)
  {
    hide Reachable, Apply;
    ReachStep(w, a);
  }

  // ---- Opening a checkout ------------------------------------------------------------------

  /** A freshly opened registration of one audience. */
  function Opened(audience: Audience): Registration {
    Registration(Pending, audience, None, None, None, false, 0, None, "EUR",
                 if audience == StudentAudience then 1 else 0, 0, DEADLINE, None)
  }

  function Documents(audience: Audience): seq<Verification> {
    if audience == StudentAudience then [Verification(Submitted, 3, 7, Clean)] else []
  }

  function Begun(audience: Audience): World {
    Start("EUR", 0, DEADLINE).(ledger := Ledger(Opened(audience), [], Documents(audience)),
                               uploaders := if audience == StudentAudience then {7} else {})
  }

  /** The author of a student's registration is about to upload the document. */
  function Uploading(): World {
    Start("EUR", 0, DEADLINE).(ledger := Ledger(Opened(StudentAudience), [], []), uploaders := {7})
  }

  lemma UploadingReached()
    ensures Reachable(Uploading())
  {
    hide Reachable, Run;
    StartReached();
    var chosen := Start("EUR", 0, DEADLINE).(ledger := Ledger(Opened(StudentAudience), [], []));
    Do(Start("EUR", 0, DEADLINE), Choose(7, StudentAudience, None, false), chosen);
    Do(chosen, ReadUpload(7), Uploading());
  }

  lemma BegunReached(audience: Audience)
    ensures Reachable(Begun(audience))
  {
    hide Reachable, Run;
    if audience == StudentAudience {
      UploadingReached();
      assert Apply(Uploading(), Submit(7, 3, Clean)).ledger.verifications == Documents(audience);
      Do(Uploading(), Submit(7, 3, Clean), Begun(audience));
    } else {
      StartReached();
      assert Begun(audience) == Start("EUR", 0, DEADLINE);
    }
  }

  function FirstAttempt(audience: Audience): Attempt {
    Attempt(Opened(audience), Some(QuoteFor(audience)))
  }

  function FirstRow(audience: Audience): Payment {
    Payment(Created, Initial, Price(audience), "EUR", None, None, Some(ClientKey("key")), None, "", 10)
  }

  /** The price is locked, the first row is reserved, and the provider has not answered yet. */
  function Reserved(audience: Audience): World {
    var w := Begun(audience);
    w.(ledger := w.ledger.(reg := LockPrice(Opened(audience), 7, Some(QuoteFor(audience))), payments := [FirstRow(audience)]),
       attempts := {FirstAttempt(audience)})
  }

  lemma ReservedReached(audience: Audience)
    ensures Reachable(Reserved(audience))
  {
    hide Reachable, QuoteRegistration, PaidTotals;
    var w := Begun(audience);
    BegunReached(audience);
    QuoteIsPrice(audience);
    var quoted := w.(attempts := {FirstAttempt(audience)});
    Do(w, ReadQuote(Fees(), false, 0), quoted);
    ReservesFirst(audience);
    hide ReserveCheckout;
    Do(quoted, Reserve(7, ClientKey("key"), false, true, FirstAttempt(audience), 10), Reserved(audience));
  }

  lemma ReservesFirst(audience: Audience)
    ensures ReserveCheckout(Begun(audience).ledger, 7, ClientKey("key"), false, true, FirstAttempt(audience), 10).0
         == Reserved(audience).ledger
  {
    hide PaidTotals, RowWhere, NewestCreated;
    assert [] + [FirstRow(audience)] == [FirstRow(audience)];
  }

  /** The registration while its checkout is open. */
  function Priced(audience: Audience): Ledger {
    Reserved(audience).ledger.(payments := [FirstRow(audience).(orderId := Some("order"))])
  }

  lemma PricedReached(audience: Audience)
    ensures Reachable(Reserved(audience).(ledger := Priced(audience)))
  {
    hide Reachable;
    ReservedReached(audience);
    var v := Reserved(audience).(ledger := Priced(audience));
    assert Apply(Reserved(audience), SaveOrder(0, "order")).ledger.payments == v.ledger.payments;
    Do(Reserved(audience), SaveOrder(0, "order"), v);
  }

  // ---- Paying ------------------------------------------------------------------------------

  function PaidRow(audience: Audience): Payment {
    FirstRow(audience).(orderId := Some("order"), status := Captured, providerId := Some("pay"))
  }

  function Settled(audience: Audience): Ledger {
    var l := Priced(audience);
    l.(reg := l.reg.(status := if audience == StudentAudience then AwaitingVerification else Paid, version := l.reg.version + 1),
       payments := [PaidRow(audience)])
  }

  function PriceTaken(audience: Audience): map<string, ProviderPayment> {
    map["pay" := ProviderPayment("order", Price(audience), "EUR")]
  }

  lemma OneRowNet(p: Payment)
    ensures Net([p]) == CapturedAmount(p) - RefundedAmount(p)
  {
    NetAppend([], p);
    NetOfNothing();
    hide PaidTotals;
    assert [] + [p] == [p];
  }

  lemma CaptureSettles(audience: Audience)
    ensures ProcessCapture(Priced(audience), CaptureEvent("order", "pay", Price(audience), "EUR", 900), None, true, false).0
         == Settled(audience)
  {
    hide PaidTotals, RowWhere;
    OneRowNet(PaidRow(audience));
    var rows := Priced(audience).payments;
    assert HasOrder("order")(rows[0]) && !HasProviderId("pay")(rows[0]);
    assert RowWhere(rows, HasOrder("order")) == Some(0);
    assert rows[0 := PaidRow(audience)] == [PaidRow(audience)];
  }

  /** Whatever else has been read meanwhile, the open checkout can be paid. */
  lemma PayFrom(w: World, audience: Audience)
    requires Reachable(w) && w.ledger == Priced(audience) && w.paid == map[]
    ensures Reachable(w.(ledger := Settled(audience), paid := PriceTaken(audience)))
  {
    hide Reachable, ProcessCapture;
    CaptureSettles(audience);
    var taken := w.(paid := PriceTaken(audience));
    Do(w, ProviderPays("pay", ProviderPayment("order", Price(audience), "EUR")), taken);
    Do(taken, Capture(CaptureEvent("order", "pay", Price(audience), "EUR", 900), None, true, false),
       w.(ledger := Settled(audience), paid := PriceTaken(audience)));
  }

  function PaidWorld(audience: Audience): World {
    Reserved(audience).(ledger := Settled(audience), paid := PriceTaken(audience))
  }

  lemma PaidReached(audience: Audience)
    ensures Reachable(PaidWorld(audience))
  {
    hide Reachable;
    PricedReached(audience);
    PayFrom(Reserved(audience).(ledger := Priced(audience)), audience);
  }

  // ---- A sweep that writes late ------------------------------------------------------------

  /** The sweep read the registration while its payment was on the way. */
  function ScannedThenPaid(): World {
    PaidWorld(RegularAudience).(doomed := {Doom(1, false)})
  }

  /**
  The API sweep reads a registration whose payment is on its way, the payment is captured, and the
  sweep's write then discards the paid registration.
  */
  lemma LateSweepDiscardsPaid()
    ensures var w, d := ScannedThenPaid(), Doom(1, false);
            && Reachable(w) && d in w.doomed
            && w.ledger.reg.status == Paid && Net(w.ledger.payments) >= w.ledger.reg.amountDue
            && Apply(w, SweepWrite(d)).ledger.reg.status == DiscardedNonpayment
  {
    hide Reachable, PaidTotals;
    var open := Reserved(RegularAudience).(ledger := Priced(RegularAudience));
    PricedReached(RegularAudience);
    OneRowNet(open.ledger.payments[0]);
    OneRowNet(PaidRow(RegularAudience));
    Do(open, ApiScan(2 * DEADLINE, 0), open.(doomed := {Doom(1, false)}));
    PayFrom(open.(doomed := {Doom(1, false)}), RegularAudience);
  }

  // ---- A refund request --------------------------------------------------------------------

  function Intent(audience: Audience, amount: int): Payment {
    Payment(Created, Refund, amount, "EUR", None, None,
            Some(RefundKey(Settled(audience).reg.version)), Some(0), "reason", 950)
  }

  function Requested(audience: Audience, amount: int): World {
    var l := Settled(audience);
    PaidWorld(audience).(ledger := l.(reg := l.reg.(version := l.reg.version + 1),
                                      payments := [PaidRow(audience), Intent(audience, amount)]))
  }

  lemma SumOfOne(f: Payment -> int, p: Payment)
    ensures Sum(f, [p]) == f(p)
  {
    SumAppend(f, [], p);
    assert [] + [p] == [p];
  }

  lemma SumOfTwo(f: Payment -> int, p: Payment, q: Payment)
    ensures Sum(f, [p, q]) == f(p) + f(q)
  {
    SumOfOne(f, p);
    SumAppend(f, [p], q);
    assert [p] + [q] == [p, q];
  }

  lemma OneCaptureTakesAll(audience: Audience, amount: int)
    requires 0 < amount <= Price(audience)
    ensures Allocate([PaidRow(audience)], amount) == Some([Allocation(0, amount)])
  {
    var ps := [PaidRow(audience)];
    SumOfOne(UnlinkedAmount, ps[0]);
    SumOfOne(LinkedTo(0), ps[0]);
    hide Linked, Unlinked;
    assert Linked(ps, 0) == 0 && Unlinked(ps) == 0 by {
      LinkedOfOne(ps[0]);
    }
    assert AllocateFrom(ps, 1, 0, 0) == ([], 0);
    assert [Allocation(0, amount)] + [] == [Allocation(0, amount)];
  }

  lemma LinkedOfOne(p: Payment)
    requires p.kind != Refund
    ensures Linked([p], 0) == 0 && Unlinked([p]) == 0
  {
    SumOfOne(UnlinkedAmount, p);
    SumOfOne(LinkedTo(0), p);
  }

  lemma RequestedReached(audience: Audience, amount: int)
    requires 0 < amount <= Price(audience)
    ensures Reachable(Requested(audience, amount))
  {
    hide Reachable, Allocate, RowWhere, Unlinked;
    var version := Settled(audience).reg.version;
    var ps := [PaidRow(audience)];
    PaidReached(audience);
    OneCaptureTakesAll(audience, amount);
    var row := IntentRow(ps, Allocation(0, amount), version, "reason", 950);
    assert IntentRows(ps, [Allocation(0, amount)], version, "reason", 950) == [row];
    assert ps + [row] == [PaidRow(audience), Intent(audience, amount)];
    Do(PaidWorld(audience), Request(amount, "reason", version, 950), Requested(audience, amount));
  }

  /**
  A student has paid and awaits verification; a partial refund is requested but not settled. Past the
  deadline the worker's sweep discards the registration although the money is there.
  */
  lemma WorkerDiscardsPaidStudent()
    ensures var w := Requested(StudentAudience, 1000);
            && Reachable(w)
            && w.ledger.reg.status == AwaitingVerification && Net(w.ledger.payments) >= w.ledger.reg.amountDue
            && WorkerSweepDiscards(w.ledger, 2 * DEADLINE) && !ApiSweepDiscards(w.ledger, 2 * DEADLINE, 0)
  {
    hide Reachable, PaidTotals, WorkerNet;
    RequestedReached(StudentAudience, 1000);
    RequestedTotals(StudentAudience, 1000);
  }

  lemma RequestedTotals(audience: Audience, amount: int)
    ensures Net(Requested(audience, amount).ledger.payments) == Price(audience)
    ensures WorkerNet(Requested(audience, amount).ledger.payments) == Price(audience) - amount
  {
    var p, q := PaidRow(audience), Intent(audience, amount);
    SumOfTwo(CapturedAmount, p, q);
    SumOfTwo(RefundedAmount, p, q);
    SumOfTwo(AnyRefundAmount, p, q);
  }

  /** A student's document is rejected after the payment: 6000 more are due, until 50 seconds after the deadline. */
  function RejectedStudent(): World {
    var w := PaidWorld(StudentAudience);
    w.(ledger := w.ledger.(reg := w.ledger.reg.(amountDue := 10000, status := AdditionalPaymentRequired,
                                                graceUntil := Some(DEADLINE + 50_000), version := 4),
                           verifications := [Verification(Rejected, 3, 7, Clean)]))
  }

  /** A second after the deadline the worker's sweep discards the registration, and the API sweep does not. */
  lemma WorkerCutsGrace()
    ensures var w := RejectedStudent();
            && Reachable(w) && w.ledger.reg.graceUntil == Some(DEADLINE + 50_000)
            && WorkerSweepDiscards(w.ledger, DEADLINE + 1_000)
            && !ApiSweepDiscards(w.ledger, DEADLINE + 1_000, 50_000)
  {
    hide Reachable, PaidTotals, WorkerSweepDiscards, ApiSweepDiscards;
    var before, after := PaidWorld(StudentAudience), RejectedStudent();
    PaidReached(StudentAudience);
    OneRowNet(PaidRow(StudentAudience));
    var review := Review(0, 9, Reject, true, Some(Fees()), 50_000);
    assert Apply(before, review).ledger.verifications == after.ledger.verifications;
    Do(before, review, after);
    GraceIsCutExactly(after, DEADLINE + 1_000, 50_000);
  }

  // ---- Refunds made on the provider's dashboard ------------------------------------------------

  function Made(id: string, paymentId: string, amount: int): RefundEvent {
    RefundEvent(id, paymentId, amount, "EUR", RefundProcessed, None)
  }

  /** The provider refunds part of the payment in row c and its news arrive. */
  function OnDashboard(w: World, id: string, c: nat, amount: int): World
    requires c < |w.ledger.payments| && w.ledger.payments[c].providerId.Some?
  {
    var paymentId := w.ledger.payments[c].providerId.value;
    w.(processed := w.processed + [ProviderRefund(id, paymentId, amount)],
       ledger := SettleRefund(w.ledger, w.ledger.payments + [ExternalRefund(Made(id, paymentId, amount), c, 980)], RefundDone))
  }

  predicate NewRefund(ps: seq<Payment>, id: string, c: nat, amount: int) {
    && c < |ps| && ps[c].providerId.Some? && RowWhere(ps, IsCaptureOf(ps[c].providerId.value)) == Some(c)
    && id != "" && 0 < amount <= ps[c].amount && ps[c].currency == "EUR"
    && forall i :: 0 <= i < |ps| ==> ps[i].providerId != Some(id)
  }

  lemma DashboardNews(l: Ledger, id: string, c: nat, amount: int)
    requires NewRefund(l.payments, id, c, amount)
    ensures var ev := Made(id, l.payments[c].providerId.value, amount);
            ProcessRefund(l, ev, false, 980) == (SettleRefund(l, l.payments + [ExternalRefund(ev, c, 980)], RefundDone), Applied)
  {
    hide RowWhere, SettleRefund;
    assert forall i :: 0 <= i < |l.payments| ==> !HasProviderId(id)(l.payments[i]);
  }

  lemma RefundMade(w: World, refund: ProviderRefund)
    requires Reachable(w) && ProviderMayRefund(w, refund)
    ensures Reachable(w.(processed := w.processed + [refund]))
  {
    hide Reachable, ProviderMayRefund;
    Do(w, ProviderRefunds(refund), w.(processed := w.processed + [refund]));
  }

  lemma DashboardReached(w: World, id: string, c: nat, amount: int)
    requires Reachable(w) && NewRefund(w.ledger.payments, id, c, amount)
    requires ProviderMayRefund(w, ProviderRefund(id, w.ledger.payments[c].providerId.value, amount))
    ensures Reachable(OnDashboard(w, id, c, amount))
  {
    hide Reachable, ProcessRefund, SettleRefund, ProviderMayRefund, RowWhere;
    DashboardNews(w.ledger, id, c, amount);
    var refund := ProviderRefund(id, w.ledger.payments[c].providerId.value, amount);
    var made := w.(processed := w.processed + [refund]);
    RefundMade(w, refund);
    assert made.processed[|w.processed|] == refund;
    Do(made, RefundNews(Made(id, refund.paymentId, amount), false, 980), OnDashboard(w, id, c, amount));
  }

  /**
  A full refund is requested, and the organizer also refunds the payment on the provider's own dashboard:
  the ledger then holds twice the captured amount as reserved or refunded.
  */
  lemma DashboardRefundOverReserves()
    ensures var w := OnDashboard(Requested(RegularAudience, 10000), "rf", 0, 10000);
            Reachable(w) && !ReservedWithinCaptures(w.ledger.payments)
  {
    hide Reachable, PaidTotals;
    var w := Requested(RegularAudience, 10000);
    RequestedReached(RegularAudience, 10000);
    RequestedTakesRefund(10000);
    DashboardReached(w, "rf", 0, 10000);
    var ps := OnDashboard(w, "rf", 0, 10000).ledger.payments;
    SumOfTwo(LinkedTo(0), ps[0], ps[1]);
    SumAppend(LinkedTo(0), w.ledger.payments, ps[2]);
    assert Linked(ps, 0) == 20000;
  }

  lemma RequestedTakesRefund(amount: int)
    requires 0 < amount <= 10000
    ensures var w := Requested(RegularAudience, 10000);
            NewRefund(w.ledger.payments, "rf", 0, amount) && ProviderMayRefund(w, ProviderRefund("rf", "pay", amount))
  {
    var w := Requested(RegularAudience, 10000);
    WhereIsFirst(w.ledger.payments, IsCaptureOf("pay"), 0);
    assert Sum(RefundedBy("pay"), w.processed) == 0;
  }

  // ---- News with and without the intent --------------------------------------------------------

  /**
  The provider's answer names the intent it was asked for, its webhook does not. If the webhook is first, the refund
  gets a row of its own and the intent stays open; if the answer is first, the intent carries the refund.
  */
  lemma WebhookBeforeAnswer()
    ensures var w := Requested(RegularAudience, 10000);
            var base := RefundEvent("rf", "pay", 10000, "EUR", RefundPending, None);
            var webhook, answer := News(RefundPending, None, 980), News(RefundPending, Some(1), 980);
            var late, early := Deliver(w.ledger, base, [webhook, answer]), Deliver(w.ledger, base, [answer, webhook]);
            && Reachable(w) && Consistent(w.ledger.payments, base, 0)
            && |late.payments| == 3 && late.payments[1] == w.ledger.payments[1] && late.payments[2].providerId == Some("rf")
            && |early.payments| == 2 && early.payments[1].providerId == Some("rf")
            && !SameButTime(late, early)
  {
    hide Reachable, Deliver;
    var w := Requested(RegularAudience, 10000);
    RequestedReached(RegularAudience, 10000);
    var base := RefundEvent("rf", "pay", 10000, "EUR", RefundPending, None);
    IntentsAreConsistent(w, base);
    var webhook, answer := News(RefundPending, None, 980), News(RefundPending, Some(1), 980);
    TwoDeliveries(w.ledger, base, webhook, answer);
    TwoDeliveries(w.ledger, base, answer, webhook);
    hide ProcessRefund, Consistent;
    AnswerLate(w.ledger, base);
    AnswerEarly(w.ledger, base);
  }

  lemma {:induction false} TwoDeliveries(l: Ledger, base: RefundEvent, m: News, n: News)
    ensures Deliver(l, base, [m, n])
         == ProcessRefund(ProcessRefund(l, Event(base, m), false, m.at).0, Event(base, n), false, n.at).0
  {
    hide ProcessRefund;
    assert [m, n][..1] == [m] && [m][..0] == [];
    assert Deliver(l, base, [m]) == ProcessRefund(l, Event(base, m), false, m.at).0;
  }

  lemma IntentsAreConsistent(w: World, base: RefundEvent)
    requires w == Requested(RegularAudience, 10000) && Reachable(w)
    requires base == RefundEvent("rf", "pay", 10000, "EUR", RefundPending, None)
    ensures Consistent(w.ledger.payments, base, 0)
  {
    hide Reachable;
    ReachableLedgerOk(w);
    var ps := w.ledger.payments;
    WhereIsFirst(ps, IsCaptureOf("pay"), 0);
    assert !HasProviderId("rf")(ps[0]) && !HasProviderId("rf")(ps[1]);
  }

  lemma AnswerLate(l: Ledger, base: RefundEvent)
    requires l == Requested(RegularAudience, 10000).ledger
    requires base == RefundEvent("rf", "pay", 10000, "EUR", RefundPending, None)
    ensures var first := ProcessRefund(l, Event(base, News(RefundPending, None, 980)), false, 980).0;
            var second := ProcessRefund(first, Event(base, News(RefundPending, Some(1), 980)), false, 980).0;
            && |second.payments| == 3 && second.payments[1] == l.payments[1]
            && second.payments[2].providerId == Some("rf")
  {
    var ps := l.payments;
    WhereIsFirst(ps, IsCaptureOf("pay"), 0);
    assert !HasProviderId("rf")(ps[0]) && !HasProviderId("rf")(ps[1]);
    hide RowWhere;
    var qs := ps + [ExternalRefund(base, 0, 980)];
    assert ProcessRefund(l, Event(base, News(RefundPending, None, 980)), false, 980).0 == l.(payments := qs);
    WhereIsFirst(qs, IsCaptureOf("pay"), 0);
    WhereIsFirst(qs, HasProviderId("rf"), 2);
    assert qs[2 := RefundUpdate(qs[2], base.(intent := Some(1)), 0)] == qs;
  }

  lemma AnswerEarly(l: Ledger, base: RefundEvent)
    requires l == Requested(RegularAudience, 10000).ledger
    requires base == RefundEvent("rf", "pay", 10000, "EUR", RefundPending, None)
    ensures var first := ProcessRefund(l, Event(base, News(RefundPending, Some(1), 980)), false, 980).0;
            var second := ProcessRefund(first, Event(base, News(RefundPending, None, 980)), false, 980).0;
            |second.payments| == 2 && second.payments[1].providerId == Some("rf")
  {
    var ps := l.payments;
    WhereIsFirst(ps, IsCaptureOf("pay"), 0);
    assert !HasProviderId("rf")(ps[0]) && !HasProviderId("rf")(ps[1]);
    hide RowWhere;
    var qs := ps[1 := RefundUpdate(ps[1], base, 0)];
    assert ProcessRefund(l, Event(base, News(RefundPending, Some(1), 980)), false, 980).0 == l.(payments := qs);
    WhereIsFirst(qs, IsCaptureOf("pay"), 0);
    WhereIsFirst(qs, HasProviderId("rf"), 1);
  }

  // ---- A checkout that fails a refund ----------------------------------------------------------

  /** A full refund is requested and part of the money is refunded on the dashboard. */
  function PartlyRefunded(): World {
    OnDashboard(Requested(RegularAudience, 10000), "rf", 0, 4000)
  }

  /**
  The partial refund makes an additional payment due. Opening its checkout marks the refund request, the newest row
  that is still CREATED, as FAILED.
  */
  lemma CheckoutFailsRefund()
    ensures var w := PartlyRefunded();
            var attempt := Attempt(w.ledger.reg, None);
            var v := w.(attempts := w.attempts + {attempt});
            var m := Apply(v, Reserve(7, ClientKey("key2"), false, true, attempt, 70_000)).ledger;
            && Reachable(v)
            && w.ledger.reg.status == AdditionalPaymentRequired
            && w.ledger.payments[1].kind == Refund && w.ledger.payments[1].status == Created
            && |m.payments| == 4 && m.payments[1] == w.ledger.payments[1].(status := Failed)
  {
    hide Reachable, PaidTotals;
    var w := PartlyRefunded();
    PartlyRefundedReached();
    var attempt := Attempt(w.ledger.reg, None);
    Do(w, ReadQuote(Fees(), false, 0), w.(attempts := w.attempts + {attempt}));
    hide RowWhere;
    var ps := w.ledger.payments;
    assert ps[2].status == RefundDone && ps[1].status == Created;
    assert NewestCreated(ps) == Some(1);
    var qs := ps[1 := ps[1].(status := Failed)];
    NetUpdate(ps, 1, qs[1]);
    assert Net(qs) == 6000;
    assert forall i :: 0 <= i < |ps| ==> !HasKey(ClientKey("key2"))(ps[i]);
  }

  lemma PartlyRefundedReached()
    ensures var w := PartlyRefunded();
            && Reachable(w) && Net(w.ledger.payments) == 6000
            && w.ledger.reg.status == AdditionalPaymentRequired
            && w.ledger.payments == [PaidRow(RegularAudience), Intent(RegularAudience, 10000),
                                     ExternalRefund(Made("rf", "pay", 4000), 0, 980)]
  {
    hide Reachable, PaidTotals, NewRefund, ProviderMayRefund;
    var w := Requested(RegularAudience, 10000);
    RequestedReached(RegularAudience, 10000);
    RequestedTakesRefund(4000);
    DashboardReached(w, "rf", 0, 4000);
    RequestedTotals(RegularAudience, 10000);
    NetAppend(w.ledger.payments, ExternalRefund(Made("rf", "pay", 4000), 0, 980));
  }

  // ---- Two refunds in two orders ---------------------------------------------------------------

  function SecondRow(): Payment {
    FirstRow(RegularAudience).(key := Some(ClientKey("key2")), createdAt := 70_000)
  }

  /** The first checkout got no order for a minute, so a second one replaced it; then both orders arrived. */
  function TwoCheckouts(): World {
    var w := Reserved(RegularAudience);
    w.(ledger := w.ledger.(reg := w.ledger.reg.(version := 2),
                           payments := [FirstRow(RegularAudience).(status := Failed, orderId := Some("order")),
                                        SecondRow().(orderId := Some("order2"))]),
       attempts := {FirstAttempt(RegularAudience), Attempt(w.ledger.reg, None)})
  }

  lemma TwoCheckoutsReached()
    ensures Reachable(TwoCheckouts())
  {
    hide Reachable;
    var w := Reserved(RegularAudience);
    ReservedReached(RegularAudience);
    var attempt := Attempt(w.ledger.reg, None);
    var read := w.(attempts := w.attempts + {attempt});
    Do(w, ReadQuote(Fees(), false, 0), read);
    var failed := FirstRow(RegularAudience).(status := Failed);
    var again := read.(ledger := w.ledger.(reg := w.ledger.reg.(version := 2), payments := [failed, SecondRow()]));
    SecondReserve(attempt);
    hide ReserveCheckout;
    Do(read, Reserve(7, ClientKey("key2"), false, true, attempt, 70_000), again);
    var saved := again.(ledger := again.ledger.(payments := [failed.(orderId := Some("order")), SecondRow()]));
    assert Apply(again, SaveOrder(0, "order")).ledger.payments == saved.ledger.payments;
    Do(again, SaveOrder(0, "order"), saved);
    assert Apply(saved, SaveOrder(1, "order2")).ledger.payments == TwoCheckouts().ledger.payments;
    assert read.attempts == TwoCheckouts().attempts;
    Do(saved, SaveOrder(1, "order2"), TwoCheckouts());
  }

  lemma SecondReserve(attempt: Attempt)
    requires attempt == Attempt(Reserved(RegularAudience).ledger.reg, None)
    ensures var l := Reserved(RegularAudience).ledger;
            var failed := FirstRow(RegularAudience).(status := Failed);
            ReserveCheckout(l, 7, ClientKey("key2"), false, true, attempt, 70_000).0
              == l.(reg := l.reg.(version := 2), payments := [failed, SecondRow()])
  {
    hide PaidTotals, RowWhere;
    var ps := Reserved(RegularAudience).ledger.payments;
    assert NewestCreated(ps) == Some(0);
    assert !HasKey(ClientKey("key2"))(ps[0]);
    var failed := FirstRow(RegularAudience).(status := Failed);
    assert ps[0 := failed] + [SecondRow()] == [failed, SecondRow()];
  }

  function SecondPaid(): Payment {
    SecondRow().(orderId := Some("order2"), status := Captured, providerId := Some("pay2"))
  }

  /** Both checkouts are paid: the registration holds twice its price. */
  function PaidTwice(): World {
    var w := TwoCheckouts();
    w.(ledger := w.ledger.(reg := w.ledger.reg.(status := Paid, version := 4), payments := [PaidRow(RegularAudience), SecondPaid()]),
       paid := map["pay" := ProviderPayment("order", 10000, "EUR"), "pay2" := ProviderPayment("order2", 10000, "EUR")])
  }

  function Took(orderId: string, paymentId: string): Action {
    Capture(CaptureEvent(orderId, paymentId, 10000, "EUR", 75_000), None, true, false)
  }

  lemma PaidTwiceReached()
    ensures Reachable(PaidTwice())
  {
    hide Reachable, ProcessCapture;
    var w := TwoCheckouts();
    TwoCheckoutsReached();
    var one := w.(paid := map["pay" := ProviderPayment("order", 10000, "EUR")]);
    var two := w.(paid := PaidTwice().paid);
    Do(w, ProviderPays("pay", ProviderPayment("order", 10000, "EUR")), one);
    Do(one, ProviderPays("pay2", ProviderPayment("order2", 10000, "EUR")), two);
    FirstCapture();
    SecondCapture();
    var first := two.(ledger := HalfPaid());
    Do(two, Took("order", "pay"), first);
    Do(first, Took("order2", "pay2"), PaidTwice());
  }

  function HalfPaid(): Ledger {
    var l := TwoCheckouts().ledger;
    l.(reg := l.reg.(status := Paid, version := 3), payments := [PaidRow(RegularAudience), l.payments[1]])
  }

  lemma TwoRowNet(p: Payment, q: Payment)
    ensures Net([p, q]) == CapturedAmount(p) - RefundedAmount(p) + CapturedAmount(q) - RefundedAmount(q)
  {
    SumOfTwo(CapturedAmount, p, q);
    SumOfTwo(RefundedAmount, p, q);
  }

  /** The provider's payment for the failed first row still counts. */
  lemma FirstCapture()
    ensures ProcessCapture(TwoCheckouts().ledger, CaptureEvent("order", "pay", 10000, "EUR", 75_000), None, true, false).0
         == HalfPaid()
  {
    hide PaidTotals;
    var ps := TwoCheckouts().ledger.payments;
    TwoRowNet(PaidRow(RegularAudience), ps[1]);
    WhereIsFirst(ps, HasOrder("order"), 0);
    assert !HasProviderId("pay")(ps[0]) && !HasProviderId("pay")(ps[1]);
    hide RowWhere;
    assert ps[0 := PaidRow(RegularAudience)] == HalfPaid().payments;
  }

  lemma SecondCapture()
    ensures ProcessCapture(HalfPaid(), CaptureEvent("order2", "pay2", 10000, "EUR", 75_000), None, true, false).0
         == PaidTwice().ledger
  {
    hide PaidTotals;
    var ps := HalfPaid().payments;
    TwoRowNet(PaidRow(RegularAudience), SecondPaid());
    WhereIsFirst(ps, HasOrder("order2"), 1);
    assert !HasProviderId("pay2")(ps[0]) && !HasProviderId("pay2")(ps[1]);
    hide RowWhere;
    assert ps[1 := SecondPaid()] == PaidTwice().ledger.payments;
  }

  /** A quarter of the money has gone back, and the provider has made two more refunds whose news are on the way. */
  function TwoOnTheWay(): World {
    var w := OnDashboard(PaidTwice(), "r0", 0, 5000);
    w.(processed := w.processed + [ProviderRefund("r1", "pay", 5000), ProviderRefund("r2", "pay2", 10000)])
  }

  lemma OverpaidReached()
    ensures var w := OnDashboard(PaidTwice(), "r0", 0, 5000);
            && Reachable(w) && Net(w.ledger.payments) == 15000
            && w.ledger.reg == PaidTwice().ledger.reg.(version := 5)
            && w.ledger.payments == [PaidRow(RegularAudience), SecondPaid(), ExternalRefund(Made("r0", "pay", 5000), 0, 980)]
  {
    hide Reachable, PaidTotals;
    var w := PaidTwice();
    PaidTwiceReached();
    WhereIsFirst(w.ledger.payments, IsCaptureOf("pay"), 0);
    assert Sum(RefundedBy("pay"), w.processed) == 0;
    DashboardReached(w, "r0", 0, 5000);
    TwoRowNet(PaidRow(RegularAudience), SecondPaid());
    NetAppend(w.ledger.payments, ExternalRefund(Made("r0", "pay", 5000), 0, 980));
  }

  lemma TwoOnTheWayReached()
    ensures Reachable(TwoOnTheWay())
  {
    hide Reachable, PaidTotals, SettleRefund, RowWhere, ProviderMayRefund;
    var w := OnDashboard(PaidTwice(), "r0", 0, 5000);
    OverpaidReached();
    var r0, r1, r2 := ProviderRefund("r0", "pay", 5000), ProviderRefund("r1", "pay", 5000), ProviderRefund("r2", "pay2", 10000);
    BooksHaveRoom(w, r0, r1, r2);
    RefundMade(w, r1);
    RefundMade(w.(processed := [r0] + [r1]), r2);
    assert [r0] + [r1] + [r2] == [r0] + [r1, r2];
  }

  lemma BooksHaveRoom(w: World, r0: ProviderRefund, r1: ProviderRefund, r2: ProviderRefund)
    requires r0 == ProviderRefund("r0", "pay", 5000) && w.processed == [r0] && w.paid == PaidTwice().paid
    requires r1 == ProviderRefund("r1", "pay", 5000) && r2 == ProviderRefund("r2", "pay2", 10000)
    ensures ProviderMayRefund(w, r1) && ProviderMayRefund(w.(processed := [r0] + [r1]), r2)
  {
    SumAppend(RefundedBy("pay"), [], r0);
    SumAppend(RefundedBy("pay2"), [], r0);
    SumAppend(RefundedBy("pay2"), [r0], r1);
    assert [] + [r0] == [r0];
  }

  /**
  Paid, 15000 left of a price of 10000: refunding 5000 and then 10000 ends REFUNDED, refunding 10000 and then 5000 ends
  ADDITIONAL_PAYMENT_REQUIRED.
  */
  lemma OrderOfRefundsShows()
    ensures var w, a, b := TwoOnTheWay(), Made("r1", "pay", 5000), Made("r2", "pay2", 10000);
            && Reachable(w) && GenuineRefund(w, a) && GenuineRefund(w, b)
            && w.ledger.reg.status == Paid && Net(w.ledger.payments) == 15000 && w.ledger.reg.amountDue == 10000
            && BothApply(w.ledger, a, b, 980) && BothApply(w.ledger, b, a, 980)
            && Both(w.ledger, a, b, 980).reg.status == Refunded
            && Both(w.ledger, b, a, 980).reg.status == AdditionalPaymentRequired
  {
    hide Reachable, PaidTotals, ProcessRefund, NewRefund, Both, BothApply;
    TwoOnTheWayReached();
    OverpaidReached();
    var w, a, b := TwoOnTheWay(), Made("r1", "pay", 5000), Made("r2", "pay2", 10000);
    var r1, r2 := ProviderRefund("r1", "pay", 5000), ProviderRefund("r2", "pay2", 10000);
    var n := |w.processed|;
    assert w.processed[n - 2] == r1 && w.processed[n - 1] == r2;
    OneThenOther(w.ledger, "r1", 0, 5000, "r2", 1, 10000);
    OneThenOther(w.ledger, "r2", 1, 10000, "r1", 0, 5000);
  }

  /** One refund from the dashboard. */
  function After(l: Ledger, id: string, c: nat, amount: int): Ledger
    requires c < |l.payments| && l.payments[c].providerId.Some?
  {
    SettleRefund(l, l.payments + [ExternalRefund(Made(id, l.payments[c].providerId.value, amount), c, 980)], RefundDone)
  }

  lemma AfterOne(l: Ledger, id: string, c: nat, amount: int)
    requires c < 2 <= |l.payments| && l.payments[..2] == [PaidRow(RegularAudience), SecondPaid()]
    requires id != "" && 0 < amount <= 10000 && forall i :: 0 <= i < |l.payments| ==> l.payments[i].providerId != Some(id)
    ensures l.payments[c].providerId.Some?
    ensures var m := After(l, id, c, amount);
            && ProcessRefund(l, Made(id, l.payments[c].providerId.value, amount), false, 980) == (m, Applied)
            && m.reg == l.reg.(status := StatusAfterRefund(l.reg, Net(l.payments) - amount), version := l.reg.version + 1)
            && Net(m.payments) == Net(l.payments) - amount
            && |m.payments| == |l.payments| + 1 && m.payments[..|l.payments|] == l.payments
            && m.payments[|l.payments|].providerId == Some(id)
  {
    hide PaidTotals, RowWhere, ProcessRefund, StatusAfterRefund;
    CapturesAreFound(l.payments, c);
    assert l.payments[c] == l.payments[..2][c];
    DashboardNews(l, id, c, amount);
    NetAppend(l.payments, ExternalRefund(Made(id, l.payments[c].providerId.value, amount), c, 980));
  }

  lemma OneThenOther(l: Ledger, id: string, c: nat, amount: int, next: string, d: nat, rest: int)
    requires c < 2 && d < 2 && Net(l.payments) == amount + rest && amount > 0 && 0 < rest && amount <= 10000 && rest <= 10000
    requires l.payments == [PaidRow(RegularAudience), SecondPaid(), ExternalRefund(Made("r0", "pay", 5000), 0, 980)]
    requires id in ["r1", "r2"] && next in ["r1", "r2"] && id != next
    ensures var a, b := Made(id, l.payments[c].providerId.value, amount), Made(next, l.payments[d].providerId.value, rest);
            && BothApply(l, a, b, 980)
            && Both(l, a, b, 980).reg.status == StatusAfterRefund(l.reg.(status := StatusAfterRefund(l.reg, rest)), 0)
  {
    hide PaidTotals, ProcessRefund, After, RowWhere;
    assert l.payments[..2] == [PaidRow(RegularAudience), SecondPaid()];
    AfterOne(l, id, c, amount);
    var m := After(l, id, c, amount);
    assert m.payments[..2] == m.payments[..3][..2];
    assert forall i :: 0 <= i < 3 ==> m.payments[i] == m.payments[..3][i];
    assert m.payments[d] == l.payments[d];
    hide StatusAfterRefund;
    AfterOne(m, next, d, rest);
    StatusIgnoresVersion(m.reg, l.reg.(status := m.reg.status));
  }

  lemma StatusIgnoresVersion(r: Registration, q: Registration)
    requires r.(version := 0) == q.(version := 0)
    ensures StatusAfterRefund(r, 0) == StatusAfterRefund(q, 0)
  {
  }

  lemma {:induction false} CapturesAreFound(ps: seq<Payment>, c: nat)
    requires c < 2 <= |ps| && ps[..2] == [PaidRow(RegularAudience), SecondPaid()]
    ensures ps[c].providerId.Some? && RowWhere(ps, IsCaptureOf(ps[c].providerId.value)) == Some(c)
  {
    assert ps[0] == ps[..2][0] && ps[1] == ps[..2][1];
    WhereIsFirst(ps, IsCaptureOf(ps[c].providerId.value), c);
  }
}
