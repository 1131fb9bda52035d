/** Capture events delivered late, twice or out of order book each paid checkout once. */
module Captures {
  import opened Common
  import opened Billing
  import opened FeeResolver
  import opened PaidState
  import opened LedgerSteps
  import opened LedgerInvariant

  datatype Delivery = Delivery(ev: CaptureEvent, schedule: Option<Schedule>, eligible: bool)

  /** The ledger after the first n deliveries. */
  function Deliver(l: Ledger, deliveries: seq<Delivery>, n: nat): Ledger
    requires n <= |deliveries|
  {
    if n == 0 then l
    else
      var d := deliveries[n - 1];
      ProcessCapture(Deliver(l, deliveries, n - 1), d.ev, d.schedule, d.eligible, false).0
  }

  /** The event reports that this checkout's order was paid as asked. */
  predicate Pays(ev: CaptureEvent, p: Payment) {
    p.kind != Refund && p.orderId == Some(ev.orderId) && ev.amount == p.amount && ev.currency == p.currency
  }

  predicate IsPaidBy(p: Payment, deliveries: seq<Delivery>, n: nat)
    requires n <= |deliveries|
  {
    exists k :: 0 <= k < n && Pays(deliveries[k].ev, p)
  }

  predicate IsCaptured(p: Payment) {
    p.kind != Refund && p.status == Captured
  }

  /** A provider payment id belongs to one order, among the deliveries and in the rows. */
  predicate OneOrderPerPayment(l: Ledger, deliveries: seq<Delivery>) {
    && (forall j, k :: 0 <= j < |deliveries| && 0 <= k < |deliveries|
          && deliveries[j].ev.paymentId == deliveries[k].ev.paymentId
          ==> deliveries[j].ev.orderId == deliveries[k].ev.orderId)
    && (forall i, k :: 0 <= i < |l.payments| && 0 <= k < |deliveries|
          && l.payments[i].providerId == Some(deliveries[k].ev.paymentId)
          ==> l.payments[i].orderId == Some(deliveries[k].ev.orderId))
  }

  /** Any event for an order that is already captured changes nothing, whatever it says. */
  lemma ReplayChangesNothing(l: Ledger, i: nat, ev: CaptureEvent, schedule: Option<Schedule>, eligible: bool,
                             elsewhere: bool)
    requires LedgerOk(l) && i < |l.payments| && IsCaptured(l.payments[i]) && l.payments[i].orderId == Some(ev.orderId)
    ensures ProcessCapture(l, ev, schedule, eligible, elsewhere) == (l, Unchanged)
  {
    hide RowsOk, PaidTotals;
    var found := RowWhere(l.payments, HasOrder(ev.orderId));
    assert HasOrder(ev.orderId)(l.payments[i]);
    assert found == Some(i);
  }

  /** The event reconciliation rebuilds from a captured row. */
  function EventOf(p: Payment): CaptureEvent
    requires p.orderId.Some? && p.providerId.Some?
  {
    CaptureEvent(p.orderId.value, p.providerId.value, p.amount, p.currency, p.createdAt)
  }

  /** Reconciliation replays every captured row without touching the ledger. */
  lemma ReconciliationIsIdempotent(l: Ledger, i: nat, schedule: Option<Schedule>, eligible: bool)
    requires LedgerOk(l) && i < |l.payments| && IsCaptured(l.payments[i])
    ensures l.payments[i].orderId.Some? && l.payments[i].providerId.Some?
    ensures ProcessCapture(l, EventOf(l.payments[i]), schedule, eligible, false).0 == l
  {
    RowAt(l.payments, i);
    ReplayChangesNothing(l, i, EventOf(l.payments[i]), schedule, eligible, false);
  }

  /** What one delivery does to the rows. */
  lemma OneDelivery(l: Ledger, d: Delivery)
    requires LedgerOk(l)
    requires forall i :: 0 <= i < |l.payments| && l.payments[i].providerId == Some(d.ev.paymentId)
               ==> l.payments[i].orderId == Some(d.ev.orderId)
    ensures var m := ProcessCapture(l, d.ev, d.schedule, d.eligible, false).0;
            && |m.payments| == |l.payments|
            && forall i :: 0 <= i < |l.payments| ==>
                 m.payments[i] ==
                   if Pays(d.ev, l.payments[i]) && !IsCaptured(l.payments[i])
                   then l.payments[i].(status := Captured, providerId := Some(d.ev.paymentId))
                   else l.payments[i]
  {
    hide PaidTotals, RowsOk;
    var m := ProcessCapture(l, d.ev, d.schedule, d.eligible, false).0;
    var found := RowWhere(l.payments, HasOrder(d.ev.orderId));
    var owner := RowWhere(l.payments, HasProviderId(d.ev.paymentId));
    forall i | 0 <= i < |l.payments| && Pays(d.ev, l.payments[i])
      ensures found == Some(i)
    {
      assert HasOrder(d.ev.orderId)(l.payments[i]);
    }
    if owner.Some? {
      assert HasOrder(d.ev.orderId)(l.payments[owner.value]);
      assert found == owner;
    }
    if found.Some? {
      RowAt(l.payments, found.value);
    }
  }

  /** How one row stands after the first n deliveries. */
  predicate RowDelivered(p: Payment, q: Payment, deliveries: seq<Delivery>, n: nat)
    requires n <= |deliveries|
  {
    && RowEvolves(p, q)
    && (IsCaptured(q) <==> IsCaptured(p) || IsPaidBy(p, deliveries, n))
    && (!IsCaptured(q) ==> q == p)
  }

  lemma RowDeliveredStep(p: Payment, q: Payment, r: Payment, deliveries: seq<Delivery>, n: nat)
    requires 0 < n <= |deliveries| && RowDelivered(p, q, deliveries, n - 1)
    requires IsCaptured(q) ==> q.providerId.Some?
    requires q.providerId.Some? ==> IsCaptured(q) || q.kind == Refund
    requires q.kind != Refund ==> Rank(q.status) < 2 || q.status == Captured
    requires r == if Pays(deliveries[n - 1].ev, q) && !IsCaptured(q)
                  then q.(status := Captured, providerId := Some(deliveries[n - 1].ev.paymentId)) else q
    ensures RowDelivered(p, r, deliveries, n)
  {
    var ev := deliveries[n - 1].ev;
    assert Pays(ev, p) ==> IsPaidBy(p, deliveries, n);
    if IsPaidBy(p, deliveries, n - 1) {
      var k :| 0 <= k < n - 1 && Pays(deliveries[k].ev, p);
      assert IsPaidBy(p, deliveries, n);
    }
    if IsPaidBy(p, deliveries, n) {
      var k :| 0 <= k < n && Pays(deliveries[k].ev, p);
      assert k == n - 1 || IsPaidBy(p, deliveries, n - 1);
    }
  }

  /** A checkout ends captured exactly when it was, or when some delivery reports it paid. */
  lemma {:induction false} DeliveredAreCaptured(l: Ledger, deliveries: seq<Delivery>, n: nat)
    requires LedgerOk(l) && OneOrderPerPayment(l, deliveries) && n <= |deliveries|
    ensures var m := Deliver(l, deliveries, n);
            && LedgerOk(m) && |m.payments| == |l.payments|
            && OneOrderPerPayment(m, deliveries)
            && forall i :: 0 <= i < |l.payments| ==> RowDelivered(l.payments[i], m.payments[i], deliveries, n)
  {
    hide LedgerOk, RowDelivered;
    if n == 0 {
      DeliveredNothing(l, deliveries);
    } else {
      var d := deliveries[n - 1];
      DeliveredAreCaptured(l, deliveries, n - 1);
      var m := Deliver(l, deliveries, n - 1);
      OneDelivery(m, d);
      CaptureKeeps(m, d.ev, d.schedule, d.eligible, false);
      hide ProcessCapture;
      var r := Deliver(l, deliveries, n);
      forall i | 0 <= i < |l.payments|
        ensures RowDelivered(l.payments[i], r.payments[i], deliveries, n)
      {
        CapturedHasId(m, i);
        RowDeliveredStep(l.payments[i], m.payments[i], r.payments[i], deliveries, n);
      }
    }
  }

  lemma DeliveredNothing(l: Ledger, deliveries: seq<Delivery>)
    ensures forall i :: 0 <= i < |l.payments| ==> RowDelivered(l.payments[i], l.payments[i], deliveries, 0)
  {
  }

  lemma CapturedHasId(l: Ledger, i: nat)
    requires LedgerOk(l) && i < |l.payments|
    ensures IsCaptured(l.payments[i]) ==> l.payments[i].providerId.Some?
    ensures l.payments[i].providerId.Some? ==> IsCaptured(l.payments[i]) || l.payments[i].kind == Refund
    ensures l.payments[i].kind != Refund ==> Rank(l.payments[i].status) < 2 || l.payments[i].status == Captured
  {
    hide RowsOk, PaidTotals;
    RowAt(l.payments, i);
  }

  predicate Reported(ev: CaptureEvent, deliveries: seq<Delivery>) {
    exists j :: 0 <= j < |deliveries| && deliveries[j].ev == ev
  }

  /** Every event of a is among those of b. */
  predicate EventsAmong(a: seq<Delivery>, b: seq<Delivery>) {
    forall i :: 0 <= i < |a| ==> Reported(a[i].ev, b)
  }

  /** The captured and refunded totals depend on which events arrived, not on how often or in which order. */
  lemma {:induction false} TotalsAreOrderFree(l: Ledger, a: seq<Delivery>, b: seq<Delivery>)
    requires LedgerOk(l) && OneOrderPerPayment(l, a) && OneOrderPerPayment(l, b)
    requires EventsAmong(a, b) && EventsAmong(b, a)
    ensures PaidTotals(Deliver(l, a, |a|).payments) == PaidTotals(Deliver(l, b, |b|).payments)
  {
    hide LedgerOk, RowDelivered;
    DeliveredAreCaptured(l, a, |a|);
    DeliveredAreCaptured(l, b, |b|);
    var q, r := Deliver(l, a, |a|).payments, Deliver(l, b, |b|).payments;
    forall i | 0 <= i < |l.payments|
      ensures CapturedAmount(q[i]) == CapturedAmount(r[i]) && RefundedAmount(q[i]) == RefundedAmount(r[i])
    {
      RowTotalsAgree(l.payments[i], q[i], r[i], a, b);
    }
    SumPointwise(CapturedAmount, q, r);
    SumPointwise(RefundedAmount, q, r);
  }

  lemma RowTotalsAgree(p: Payment, q: Payment, r: Payment, a: seq<Delivery>, b: seq<Delivery>)
    requires RowDelivered(p, q, a, |a|) && RowDelivered(p, r, b, |b|)
    requires EventsAmong(a, b) && EventsAmong(b, a)
    ensures CapturedAmount(q) == CapturedAmount(r) && RefundedAmount(q) == RefundedAmount(r)
  {
    PaidByEither(p, a, b);
    PaidByEither(p, b, a);
  }

  lemma PaidByEither(p: Payment, a: seq<Delivery>, b: seq<Delivery>)
    requires EventsAmong(a, b)
    ensures IsPaidBy(p, a, |a|) ==> IsPaidBy(p, b, |b|)
  {
    if IsPaidBy(p, a, |a|) {
      var k :| 0 <= k < |a| && Pays(a[k].ev, p);
      assert Reported(a[k].ev, b);
      var j :| 0 <= j < |b| && b[j].ev == a[k].ev;
      assert Pays(b[j].ev, p);
    }
  }
}
