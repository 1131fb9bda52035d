/**
Money never goes below zero: if the provider refunds no payment beyond its amount, neither does the
ledger, in any run.
*/
module RefundBound {
  import opened Common
  import opened Billing
  import opened FeeResolver
  import opened PaidState
  import opened RefundAllocation
  import opened LedgerSteps
  import opened LedgerWorld
  import opened LedgerInvariant
  import opened LedgerRuns

  // ---- The provider's own books --------------------------------------------------------------

  predicate BooksOk(w: World) {
    && (forall i, j :: 0 <= i < j < |w.processed| ==> w.processed[i].refundId != w.processed[j].refundId)
    && (forall i :: 0 <= i < |w.processed| ==> w.processed[i].amount > 0 && w.processed[i].paymentId in w.paid)
    && (forall p :: p in w.paid ==> Sum(RefundedBy(p), w.processed) <= w.paid[p].amount)
  }

  lemma {:induction false} NothingRefundedYet(p: string, books: seq<ProviderRefund>)
    requires forall i :: 0 <= i < |books| ==> books[i].paymentId != p
    ensures Sum(RefundedBy(p), books) == 0
  {
    SumZero(RefundedBy(p), books);
  }

  /** The provider keeps its promise by construction: it pays out only while something is left. */
  lemma ProviderKeepsBooks(w: World, a: Action)
    requires BooksOk(w) && (a.ProviderPays? || a.ProviderRefunds?)
    requires a.ProviderPays? ==> a.payment.amount >= 0
    ensures BooksOk(Apply(w, a))
  {
    var m := Apply(w, a);
    if a.ProviderPays? {
      NothingRefundedIfNew(w, a);
    } else if ProviderMayRefund(w, a.refund) {
      forall p | p in w.paid
        ensures Sum(RefundedBy(p), m.processed) <= m.paid[p].amount
      {
        SumAppend(RefundedBy(p), w.processed, a.refund);
      }
    }
  }

  lemma NothingRefundedIfNew(w: World, a: Action)
    requires BooksOk(w) && a.ProviderPays?
    ensures a.paymentId !in w.paid ==> Sum(RefundedBy(a.paymentId), w.processed) == 0
  {
    if a.paymentId !in w.paid {
      NothingRefundedYet(a.paymentId, w.processed);
    }
  }

  // ---- Rows against books ----------------------------------------------------------------------

  /** A captured row is a payment of the provider, a refunded row a refund of that payment. */
  predicate RowBooked(p: Payment, ps: seq<Payment>, paid: map<string, ProviderPayment>,
                      processed: seq<ProviderRefund>) {
    && (p.kind != Refund && p.status == Captured ==>
          p.providerId.Some? && p.providerId.value in paid && paid[p.providerId.value].amount == p.amount)
    && (p.kind == Refund && p.status == RefundDone ==>
          && p.providerId.Some? && p.refundOf.Some? && p.refundOf.value < |ps|
          && ps[p.refundOf.value].providerId.Some?
          && ProviderRefund(p.providerId.value, ps[p.refundOf.value].providerId.value, p.amount) in processed)
  }

  predicate RowsBooked(w: World) {
    forall i {:trigger w.ledger.payments[i]} :: 0 <= i < |w.ledger.payments| ==>
      RowBooked(w.ledger.payments[i], w.ledger.payments, w.paid, w.processed)
  }

  /** Settled rows of the result were settled before, except the row a genuine event is about. */
  predicate NoNewSettled(ps: seq<Payment>, qs: seq<Payment>) {
    && RowsEvolve(ps, qs)
    && forall i :: 0 <= i < |qs| && IsSettled(qs[i]) ==> i < |ps| && IsSettled(ps[i])
  }

  lemma BookingsStay(w: World, m: Ledger)
    requires WorldOk(w) && RowsBooked(w) && LedgerOk(m) && NoNewSettled(w.ledger.payments, m.payments)
    ensures RowsBooked(w.(ledger := m))
  {
    hide PaidTotals, RowsOk, UniqueIds, OneCurrency, PendingOk, IntentsOk, CoveredOk, PriceOk;
    var ps, qs := w.ledger.payments, m.payments;
    forall i | 0 <= i < |qs|
      ensures RowBooked(qs[i], qs, w.paid, w.processed)
    {
      if IsSettled(qs[i]) {
        assert RowEvolves(ps[i], qs[i]);
        RowAt(ps, i);
        if ps[i].kind == Refund {
          assert RowEvolves(ps[ps[i].refundOf.value], qs[ps[i].refundOf.value]);
        }
      }
    }
  }

  /** Only capture events and processed refund events settle rows. */
  lemma OthersSettleNothing(w: World, a: Action)
    requires WorldOk(w) && !a.Capture? && !a.RefundNews?
    ensures NoNewSettled(w.ledger.payments, Apply(w, a).ledger.payments)
  {
    hide LedgerOk;
    var ps := w.ledger.payments;
    StepEvolves(w, a);
    hide PaidTotals, RowWhere, FirstRefusal, Reprice, QuoteRegistration, ReviewDocument, RowsEvolve;
    if a.Request? {
      RequestSettlesNothing(w.ledger, a);
    } else if a.Review? {
      ReviewKeepsRows(w.ledger, a);
    } else if a.Reserve? {
      ReserveSettlesNothing(w.ledger, a);
    } else {
      SimpleStepsSettleNothing(w, a);
    }
  }

  lemma RequestSettlesNothing(l: Ledger, a: Action)
    requires a.Request?
    ensures var qs := RequestRefund(l, a.amount, a.reason, a.version, a.now).0.payments;
            forall i :: 0 <= i < |qs| && IsSettled(qs[i]) ==> i < |l.payments| && IsSettled(l.payments[i])
  {
    AllocationInRange(l.payments, 0, Unlinked(l.payments), a.amount);
  }

  lemma ReserveSettlesNothing(l: Ledger, a: Action)
    requires a.Reserve?
    ensures var qs := ReserveCheckout(l, a.user, a.key, a.keyElsewhere, a.billingReady, a.attempt, a.now).0.payments;
            forall i :: 0 <= i < |qs| && IsSettled(qs[i]) ==> i < |l.payments| && IsSettled(l.payments[i])
  {
    hide PaidTotals, RowWhere, FirstRefusal;
  }

  lemma SimpleStepsSettleNothing(w: World, a: Action)
    requires !a.Capture? && !a.RefundNews? && !a.Request? && !a.Review? && !a.Reserve?
    ensures var qs := Apply(w, a).ledger.payments;
            forall i :: 0 <= i < |qs| && IsSettled(qs[i]) ==> i < |w.ledger.payments| && IsSettled(w.ledger.payments[i])
  {
  }

  lemma CaptureIsBooked(w: World, a: Action)
    requires WorldOk(w) && RowsBooked(w) && a.Capture?
    ensures RowsBooked(Apply(w, a))
  {
    hide LedgerOk;
    StepAdvances(w, a);
    if GenuineCapture(w, a.ev) {
      CaptureBooked(w, a.ev, a.current, a.eligible, a.paymentElsewhere);
    }
  }

  lemma CaptureBooked(w: World, ev: CaptureEvent, current: Option<Schedule>, eligible: bool, elsewhere: bool)
    requires WorldOk(w) && RowsBooked(w) && GenuineCapture(w, ev)
    ensures RowsBooked(w.(ledger := ProcessCapture(w.ledger, ev, current, eligible, elsewhere).0))
  {
    hide PaidTotals, RowsOk, UniqueIds, OneCurrency, PendingOk, IntentsOk, CoveredOk, PriceOk;
    var ps := w.ledger.payments;
    var qs := ProcessCapture(w.ledger, ev, current, eligible, elsewhere).0.payments;
    var found := RowWhere(ps, HasOrder(ev.orderId));
    forall i | 0 <= i < |qs|
      ensures RowBooked(qs[i], qs, w.paid, w.processed)
    {
      RowAt(ps, i);
      if ps[i].kind == Refund {
        var c := ps[i].refundOf.value;
        assert qs[c] == ps[c];
      }
      assert RowBooked(ps[i], ps, w.paid, w.processed);
    }
  }

  lemma RefundIsBooked(w: World, news: RefundEvent, elsewhere: bool, now: int)
    requires WorldOk(w) && RowsBooked(w) && GenuineRefund(w, news)
    ensures RowsBooked(w.(ledger := ProcessRefund(w.ledger, news, elsewhere, now).0))
  {
    hide PaidTotals, RowsOk, UniqueIds, OneCurrency, PendingOk, IntentsOk, CoveredOk, PriceOk;
    var ps := w.ledger.payments;
    var qs := ProcessRefund(w.ledger, news, elsewhere, now).0.payments;
    var existing := RefundRow(ps, news);
    forall i | 0 <= i < |qs|
      ensures RowBooked(qs[i], qs, w.paid, w.processed)
    {
      if i < |ps| {
        RowAt(ps, i);
        assert RowBooked(ps[i], ps, w.paid, w.processed);
        if ps[i].kind == Refund {
          var c := ps[i].refundOf.value;
          assert qs[c].providerId == ps[c].providerId;
        }
      }
    }
  }

  predicate Accounted(w: World) {
    WorldOk(w) && RowsBooked(w) && BooksOk(w)
  }

  /** Provider amounts are amounts of money. */
  predicate PlausibleAction(a: Action) {
    a.ProviderPays? ==> a.payment.amount >= 0
  }

  lemma StepStaysAccounted(w: World, a: Action)
    requires Accounted(w) && PlausibleAction(a)
    ensures Accounted(Apply(w, a))
  {
    hide WorldOk, RowsBooked, BooksOk;
    StepKeeps(w, a);
    if a.Capture? {
      CaptureIsBooked(w, a);
      SameBooks(w, a);
    } else if a.RefundNews? {
      if GenuineRefund(w, a.news) {
        RefundIsBooked(w, a.news, a.refundElsewhere, a.now);
      }
      SameBooks(w, a);
    } else {
      OthersSettleNothing(w, a);
      OthersStayBooked(w, a);
      if a.ProviderPays? || a.ProviderRefunds? {
        ProviderKeepsBooks(w, a);
      } else {
        SameBooks(w, a);
      }
    }
  }

  lemma SameBooks(w: World, a: Action)
    requires BooksOk(w) && !a.ProviderPays? && !a.ProviderRefunds?
    ensures BooksOk(Apply(w, a))
  {
    BooksStay(w, a);
    hide Apply;
  }

  lemma BooksStay(w: World, a: Action)
    requires !a.ProviderPays? && !a.ProviderRefunds?
    ensures Apply(w, a).paid == w.paid && Apply(w, a).processed == w.processed
  {
  }

  lemma OthersStayBooked(w: World, a: Action)
    requires WorldOk(w) && RowsBooked(w) && WorldOk(Apply(w, a))
    requires NoNewSettled(w.ledger.payments, Apply(w, a).ledger.payments)
    ensures RowsBooked(Apply(w, a))
  {
    hide NoNewSettled;
    var m := Apply(w, a);
    BookingsStay(w, m.ledger);
    BooksGrow(w, a);
    hide Apply, WorldOk;
    forall i | 0 <= i < |m.ledger.payments|
      ensures RowBooked(m.ledger.payments[i], m.ledger.payments, m.paid, m.processed)
    {
      var v := w.(ledger := m.ledger);
      assert v.ledger.payments[i] == m.ledger.payments[i];
      assert RowBooked(v.ledger.payments[i], v.ledger.payments, v.paid, v.processed);
    }
  }

  lemma BooksGrow(w: World, a: Action)
    ensures forall p :: p in w.paid ==> p in Apply(w, a).paid && Apply(w, a).paid[p] == w.paid[p]
    ensures forall r :: r in w.processed ==> r in Apply(w, a).processed
  {
  }

  lemma {:induction false} RunStaysAccounted(w: World, actions: seq<Action>)
    requires Accounted(w) && forall a :: a in actions ==> PlausibleAction(a)
    ensures Accounted(Run(w, actions))
  {
    hide Accounted;
    if actions != [] {
      RunStaysAccounted(w, actions[..|actions| - 1]);
      StepStaysAccounted(Run(w, actions[..|actions| - 1]), actions[|actions| - 1]);
    }
  }

  // ---- Sums --------------------------------------------------------------------------------------

  /** What has been refunded of one capture. */
  function DoneFor(c: nat): Payment -> int {
    (p: Payment) => if p.kind == Refund && p.status == RefundDone && p.refundOf == Some(c) then p.amount else 0
  }

  predicate DoneRow(p: Payment, c: nat) {
    p.kind == Refund && p.status == RefundDone && p.refundOf == Some(c)
  }

  /** Distinct rows match distinct entries of the books, so their total is at most the books' total. */
  lemma {:induction false} RowsWithinBooks(rows: seq<Payment>, books: seq<ProviderRefund>, c: nat, p: string)
    requires forall k :: 0 <= k < |books| ==> books[k].amount > 0
    requires forall i :: 0 <= i < |rows| && DoneRow(rows[i], c) ==>
               rows[i].providerId.Some? && ProviderRefund(rows[i].providerId.value, p, rows[i].amount) in books
    requires forall i, j :: 0 <= i < j < |rows| && DoneRow(rows[i], c) && DoneRow(rows[j], c) ==>
               rows[i].providerId != rows[j].providerId
    ensures Sum(DoneFor(c), rows) <= Sum(RefundedBy(p), books)
    decreases |rows|
  {
    if rows == [] {
      SumNonNegative(RefundedBy(p), books);
    } else {
      var n := |rows| - 1;
      if !DoneRow(rows[n], c) {
        RowsWithinBooks(rows[..n], books, c, p);
      } else {
        var entry := ProviderRefund(rows[n].providerId.value, p, rows[n].amount);
        var k :| 0 <= k < |books| && books[k] == entry;
        var rest := books[..k] + books[k + 1..];
        forall i | 0 <= i < n && DoneRow(rows[i], c)
          ensures ProviderRefund(rows[i].providerId.value, p, rows[i].amount) in rest
        {
          var j :| 0 <= j < |books| && books[j] == ProviderRefund(rows[i].providerId.value, p, rows[i].amount);
          assert j != k;
          assert books[j] == if j < k then rest[j] else rest[j - 1];
        }
        RowsWithinBooks(rows[..n], rest, c, p);
        SumRemove(RefundedBy(p), books, k);
      }
    }
  }

  /** The refunds of a capture never exceed it. */
  lemma RefundsWithinCapture(w: World, c: nat)
    requires Accounted(w) && c < |w.ledger.payments|
    requires w.ledger.payments[c].kind != Refund && w.ledger.payments[c].status == Captured
    ensures Sum(DoneFor(c), w.ledger.payments) <= w.ledger.payments[c].amount
  {
    hide PaidTotals, RowsOk, OneCurrency, PendingOk, IntentsOk, CoveredOk, PriceOk, AttemptOk, OpenReadOk, DoomOk;
    var ps := w.ledger.payments;
    RowAt(ps, c);
    assert RowBooked(ps[c], ps, w.paid, w.processed);
    var p := ps[c].providerId.value;
    forall i | 0 <= i < |ps| && DoneRow(ps[i], c)
      ensures ps[i].providerId.Some? && ProviderRefund(ps[i].providerId.value, p, ps[i].amount) in w.processed
    {
      assert RowBooked(ps[i], ps, w.paid, w.processed);
    }
    RowsWithinBooks(ps, w.processed, c, p);
  }

  /** Refunded money grouped by the first n rows it can be linked to. */
  function DoneForFirst(n: nat, rows: seq<Payment>): int {
    if n == 0 then 0 else DoneForFirst(n - 1, rows) + Sum(DoneFor(n - 1), rows)
  }

  lemma {:induction false} GroupAppend(n: nat, rows: seq<Payment>, p: Payment)
    ensures DoneForFirst(n, rows + [p])
         == DoneForFirst(n, rows) + if p.refundOf.Some? && p.refundOf.value < n then DoneFor(p.refundOf.value)(p) else 0
  {
    if n > 0 {
      GroupAppend(n - 1, rows, p);
      SumAppend(DoneFor(n - 1), rows, p);
    }
  }

  predicate Linkable(p: Payment, n: nat) {
    p.kind == Refund ==> p.refundOf.Some? && p.refundOf.value < n && p.status != RefundPartial
  }

  /** Every refund is counted under exactly one capture. */
  lemma {:induction false} GroupingIsComplete(n: nat, rows: seq<Payment>)
    requires forall i :: 0 <= i < |rows| ==> Linkable(rows[i], n)
    ensures DoneForFirst(n, rows) == Sum(RefundedAmount, rows)
    decreases |rows|
  {
    if rows == [] {
      GroupOfNothing(n);
    } else {
      var k := |rows| - 1;
      assert Linkable(rows[k], n);
      GroupingIsComplete(n, rows[..k]);
      GroupAppend(n, rows[..k], rows[k]);
      assert rows[..k] + [rows[k]] == rows;
    }
  }

  lemma {:induction false} GroupOfNothing(n: nat)
    ensures DoneForFirst(n, []) == 0
  {
    if n > 0 {
      GroupOfNothing(n - 1);
    }
  }

  lemma {:induction false} GroupsWithinCaptures(w: World, n: nat)
    requires Accounted(w) && n <= |w.ledger.payments|
    ensures DoneForFirst(n, w.ledger.payments) <= Sum(CapturedAmount, w.ledger.payments[..n])
  {
    hide Accounted;
    if n > 0 {
      GroupsWithinCaptures(w, n - 1);
      var ps := w.ledger.payments;
      assert ps[..n][..n - 1] == ps[..n - 1];
      OneGroup(w, n - 1);
    }
  }

  lemma OneGroup(w: World, c: nat)
    requires Accounted(w) && c < |w.ledger.payments|
    ensures Sum(DoneFor(c), w.ledger.payments) <= CapturedAmount(w.ledger.payments[c])
  {
    hide PaidTotals, RowsOk, UniqueIds, OneCurrency, PendingOk, IntentsOk, CoveredOk, PriceOk, AttemptOk, OpenReadOk, DoomOk;
    var ps := w.ledger.payments;
    if ps[c].kind != Refund && ps[c].status == Captured {
      RefundsWithinCapture(w, c);
    } else {
      forall i | 0 <= i < |ps|
        ensures DoneFor(c)(ps[i]) == 0
      {
        RowAt(ps, i);
      }
      SumZero(DoneFor(c), ps);
    }
  }

  lemma NetIsNeverNegative(w: World)
    requires Accounted(w)
    ensures Net(w.ledger.payments) >= 0
  {
    var ps := w.ledger.payments;
    GroupsWithinCaptures(w, |ps|);
    assert ps[..|ps|] == ps;
    hide RowsOk, UniqueIds, OneCurrency, PendingOk, IntentsOk, CoveredOk, PriceOk, AttemptOk, OpenReadOk, DoomOk;
    forall i | 0 <= i < |ps|
      ensures Linkable(ps[i], |ps|)
    {
      RowAt(ps, i);
    }
    GroupingIsComplete(|ps|, ps);
  }

  lemma StartIsAccounted(currency: string, now: int, deadline: int)
    ensures Accounted(Start(currency, now, deadline))
  {
  }

  /** In every run, refunds stay within each capture and the registration's net is never negative. */
  lemma {:induction false} RunsNeverOverRefund(currency: string, now: int, deadline: int, actions: seq<Action>, c: nat)
    requires forall a :: a in actions ==> PlausibleAction(a)
    ensures var ps := Run(Start(currency, now, deadline), actions).ledger.payments;
            && Net(ps) >= 0
            && (c < |ps| && ps[c].kind != Refund && ps[c].status == Captured ==> Sum(DoneFor(c), ps) <= ps[c].amount)
  {
    hide Accounted, PaidTotals, Run;
    StartIsAccounted(currency, now, deadline);
    RunStaysAccounted(Start(currency, now, deadline), actions);
    var w := Run(Start(currency, now, deadline), actions);
    NetIsNeverNegative(w);
    if c < |w.ledger.payments| && w.ledger.payments[c].kind != Refund && w.ledger.payments[c].status == Captured {
      RefundsWithinCapture(w, c);
    }
  }
}
