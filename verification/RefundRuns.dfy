/** Refunds over whole runs: each is settled once, and when the order of two different refunds shows. */
module RefundRuns {
  import opened Common
  import opened Billing
  import opened FeeResolver
  import opened PaidState
  import opened LedgerSteps
  import opened LedgerWorld
  import opened LedgerInvariant
  import opened LedgerRuns
  import opened RefundBound

  // ---- One settlement for each refund --------------------------------------------------------

  predicate DoneAs(p: Payment, id: string) {
    p.kind == Refund && p.status == RefundDone && p.providerId == Some(id)
  }

  /** Some row records the refund as made. */
  predicate HasDone(ps: seq<Payment>, id: string) {
    exists i :: 0 <= i < |ps| && DoneAs(ps[i], id)
  }

  /** News that the refund was made, of a kind that is applied. */
  predicate Settles(w: World, a: Action, id: string) {
    && a.RefundNews? && a.news.refundId == id && a.news.status == RefundProcessed && GenuineRefund(w, a.news)
    && NewsTaken(w.ledger, a.news, a.refundElsewhere)
  }

  function SettleCount(w: World, actions: seq<Action>, id: string): nat {
    if actions == [] then 0
    else
      var before := actions[..|actions| - 1];
      SettleCount(w, before, id) + if Settles(Run(w, before), actions[|actions| - 1], id) then 1 else 0
  }

  /** News change the registration exactly when they settle their refund, and then move its version by one. */
  lemma NewsUpdateOnlyToSettle(w: World, a: Action)
    requires a.RefundNews?
    ensures Settles(w, a, a.news.refundId) <==> Apply(w, a).ledger.reg != w.ledger.reg
    ensures Apply(w, a).ledger.reg.version == w.ledger.reg.version + if Settles(w, a, a.news.refundId) then 1 else 0
  {
    hide RowWhere, PaidTotals, RefundRow, SameRefund, NewsTaken;
    NewsTakenExactly(w.ledger, a.news, a.refundElsewhere, a.now);
  }

  lemma NewsDone(l: Ledger, news: RefundEvent, elsewhere: bool, now: int, id: string)
    requires LedgerOk(l)
    ensures var r := ProcessRefund(l, news, elsewhere, now);
            var settles := news.status == RefundProcessed && r.1 == Applied && news.refundId == id;
            && (settles ==> !HasDone(l.payments, id) && HasDone(r.0.payments, id))
            && (!settles ==> (HasDone(r.0.payments, id) <==> HasDone(l.payments, id)))
  {
    hide PaidTotals, RowsOk, PriceOk, PendingOk, CoveredOk, IntentsOk, HasDone, StatusAfterRefund;
    hide RowWhere;
    var r := ProcessRefund(l, news, elsewhere, now);
    if r.1 == Applied {
      var ps, qs := l.payments, r.0.payments;
      var existing := RefundRow(ps, news);
      var i := if existing.Some? then existing.value else |ps|;
      assert forall j :: 0 <= j < |ps| && j != i ==> qs[j] == ps[j];
      assert qs[i].providerId == Some(news.refundId) && qs[i].status == StatusOf(news.status) && |qs| <= Max(|ps|, i + 1);
      RefundIdIsHere(ps, news);
      if existing.Some? {
        ReplacedDone(ps, qs, i, news.refundId, id);
      } else {
        AppendedDone(ps, qs, news.refundId, id);
      }
    }
  }

  /** Only the row an event is about can carry its id. */
  lemma RefundIdIsHere(ps: seq<Payment>, news: RefundEvent)
    requires UniqueIds(ps)
    ensures var i := RefundRow(ps, news);
            forall j :: 0 <= j < |ps| && Some(j) != i ==> ps[j].providerId != Some(news.refundId)
  {
    var known := RowWhere(ps, HasProviderId(news.refundId));
    hide RowWhere;
    forall j | 0 <= j < |ps| && Some(j) != RefundRow(ps, news)
      ensures ps[j].providerId != Some(news.refundId)
    {
      if known.Some? {
        assert HasProviderId(news.refundId)(ps[known.value]);
      } else {
        assert !HasProviderId(news.refundId)(ps[j]);
      }
    }
  }

  lemma ReplacedDone(ps: seq<Payment>, qs: seq<Payment>, i: nat, refund: string, id: string)
    requires i < |ps| == |qs| && forall j :: 0 <= j < |ps| && j != i ==> qs[j] == ps[j]
    requires forall j :: 0 <= j < |ps| && j != i ==> ps[j].providerId != Some(refund)
    requires ps[i].status != RefundDone && qs[i].providerId == Some(refund) && qs[i].kind == Refund
    ensures HasDone(qs, id) <==> HasDone(ps, id) || (qs[i].status == RefundDone && refund == id)
    ensures refund == id ==> !HasDone(ps, id)
  {
    forall j | 0 <= j < |ps| && DoneAs(ps[j], id)
      ensures DoneAs(qs[j], id)
    {
    }
    if qs[i].status == RefundDone && refund == id {
      assert DoneAs(qs[i], id);
    }
  }

  lemma AppendedDone(ps: seq<Payment>, qs: seq<Payment>, refund: string, id: string)
    requires |qs| == |ps| + 1 && forall j :: 0 <= j < |ps| ==> qs[j] == ps[j]
    requires forall j :: 0 <= j < |ps| ==> ps[j].providerId != Some(refund)
    requires qs[|ps|].providerId == Some(refund) && qs[|ps|].kind == Refund
    ensures HasDone(qs, id) <==> HasDone(ps, id) || (qs[|ps|].status == RefundDone && refund == id)
    ensures refund == id ==> !HasDone(ps, id)
  {
    forall j | 0 <= j < |ps| && DoneAs(ps[j], id)
      ensures DoneAs(qs[j], id)
    {
    }
    if qs[|ps|].status == RefundDone && refund == id {
      assert DoneAs(qs[|ps|], id);
    }
  }

  /** No step but news makes a refund done, and none undoes one. */
  lemma OthersLeaveDone(w: World, a: Action, id: string)
    requires WorldOk(w) && !a.RefundNews?
    ensures HasDone(Apply(w, a).ledger.payments, id) <==> HasDone(w.ledger.payments, id)
  {
    hide LedgerOk, Apply;
    StepEvolves(w, a);
    if a.Capture? {
      CaptureLeavesDone(w, a, id);
    } else {
      OthersSettleNothing(w, a);
      LedgerParts(w.ledger);
      DoneStays(w.ledger.payments, Apply(w, a).ledger.payments, id);
    }
  }

  lemma DoneStays(ps: seq<Payment>, qs: seq<Payment>, id: string)
    requires RowsOk(ps) && NoNewSettled(ps, qs)
    ensures HasDone(qs, id) <==> HasDone(ps, id)
  {
    hide RowsOk;
    forall i | 0 <= i < |ps|
      ensures DoneAs(ps[i], id) ==> DoneAs(qs[i], id)
    {
      assert RowEvolves(ps[i], qs[i]);
    }
    forall i | 0 <= i < |qs| && DoneAs(qs[i], id)
      ensures i < |ps| && DoneAs(ps[i], id)
    {
      assert IsSettled(qs[i]);
      assert RowEvolves(ps[i], qs[i]);
      RowAt(ps, i);
    }
  }

  lemma CaptureLeavesDone(w: World, a: Action, id: string)
    requires WorldOk(w) && a.Capture?
    ensures HasDone(Apply(w, a).ledger.payments, id) <==> HasDone(w.ledger.payments, id)
  {
    hide PaidTotals, RowsOk, UniqueIds, PriceOk, PendingOk, CoveredOk, IntentsOk, Reprice, StatusOnCapture;
    var ps, qs := w.ledger.payments, Apply(w, a).ledger.payments;
    var found := RowWhere(ps, HasOrder(a.ev.orderId));
    if found.Some? {
      RowAt(ps, found.value);
    }
    assert |qs| == |ps| && forall i :: 0 <= i < |ps| ==> (DoneAs(ps[i], id) <==> DoneAs(qs[i], id));
  }

  /**
  In every run, whatever happens between its deliveries, the registration is updated for a provider refund at most
  once: exactly once if the run ends with the refund done that was not done at its start.
  */
  lemma {:induction false} SettledOnceInEveryRun(w: World, actions: seq<Action>, id: string)
    requires WorldOk(w)
    ensures WorldOk(Run(w, actions))
    ensures SettleCount(w, actions, id) + (if HasDone(w.ledger.payments, id) then 1 else 0)
            == (if HasDone(Run(w, actions).ledger.payments, id) then 1 else 0)
  {
    hide WorldOk, HasDone, Apply;
    if actions != [] {
      var before, a := actions[..|actions| - 1], actions[|actions| - 1];
      SettledOnceInEveryRun(w, before, id);
      var v := Run(w, before);
      StepKeeps(v, a);
      StepSettles(v, a, id);
    }
  }

  lemma StepSettles(w: World, a: Action, id: string)
    requires WorldOk(w)
    ensures if Settles(w, a, id)
            then !HasDone(w.ledger.payments, id) && HasDone(Apply(w, a).ledger.payments, id)
            else HasDone(Apply(w, a).ledger.payments, id) <==> HasDone(w.ledger.payments, id)
  {
    hide LedgerOk, HasDone, ProcessRefund, NewsTaken;
    if a.RefundNews? {
      NewsTakenExactly(w.ledger, a.news, a.refundElsewhere, a.now);
      NewsDone(w.ledger, a.news, a.refundElsewhere, a.now, id);
    } else {
      OthersLeaveDone(w, a, id);
    }
  }

  // ---- Two refunds in two orders -------------------------------------------------------------

  /** A processed refund that is applied takes its amount out of the net, and the status follows. */
  lemma ProcessedRefund(l: Ledger, ev: RefundEvent, now: int)
    requires LedgerOk(l) && ev.status == RefundProcessed && ProcessRefund(l, ev, false, now).1 == Applied
    ensures var m := ProcessRefund(l, ev, false, now).0;
            && LedgerOk(m) && Net(m.payments) == Net(l.payments) - ev.amount && ev.amount > 0
            && m.reg == l.reg.(status := StatusAfterRefund(l.reg, Net(m.payments)), version := l.reg.version + 1)
            && l.reg.status != Pending && l.reg.amountDue > 0
  {
    RefundKeeps(l, ev, false, now);
    hide PaidTotals, RowsOk, UniqueIds, CoveredOk, IntentsOk, OneCurrency, StatusAfterRefund;
    var ps := l.payments;
    var capture, existing := RowWhere(ps, IsCaptureOf(ev.paymentId)), RefundRow(ps, ev);
    assert ps[capture.value].status == Captured;
    if existing.Some? {
      RowAt(ps, existing.value);
      NetUpdate(ps, existing.value, RefundUpdate(ps[existing.value], ev, capture.value));
    } else {
      NetAppend(ps, ExternalRefund(ev, capture.value, now));
    }
  }

  /** One refund after the other. */
  function Both(l: Ledger, first: RefundEvent, second: RefundEvent, now: int): Ledger {
    ProcessRefund(ProcessRefund(l, first, false, now).0, second, false, now).0
  }

  predicate BothApply(l: Ledger, first: RefundEvent, second: RefundEvent, now: int) {
    && first.status == RefundProcessed && second.status == RefundProcessed
    && ProcessRefund(l, first, false, now).1 == Applied
    && ProcessRefund(ProcessRefund(l, first, false, now).0, second, false, now).1 == Applied
  }

  /** The first refund leaves the price covered, or at once takes all the money while no additional payment is due. */
  predicate LeavesOpenToRefunded(reg: Registration, net: int, first: int) {
    net - first >= reg.amountDue || (reg.status != AdditionalPaymentRequired && net - first <= 0)
  }

  /**
  Two refunds leave the same status in both orders if and only if the registration is closed, money is left, or
  either first refund alone would lead to the same place.
  */
  lemma OrderMattersExactly(l: Ledger, a: RefundEvent, b: RefundEvent, now: int)
    requires LedgerOk(l) && BothApply(l, a, b, now) && BothApply(l, b, a, now)
    ensures Net(Both(l, a, b, now).payments) == Net(Both(l, b, a, now).payments) == Net(l.payments) - a.amount - b.amount
    ensures Both(l, a, b, now).reg.status == Both(l, b, a, now).reg.status <==>
              || IsClosed(l.reg.status)
              || Net(l.payments) > a.amount + b.amount
              || (LeavesOpenToRefunded(l.reg, Net(l.payments), a.amount)
                  <==> LeavesOpenToRefunded(l.reg, Net(l.payments), b.amount))
  {
    hide ProcessRefund, LedgerOk, PaidTotals;
    ProcessedRefund(l, a, now);
    ProcessedRefund(l, b, now);
    ProcessedRefund(ProcessRefund(l, a, false, now).0, b, now);
    ProcessedRefund(ProcessRefund(l, b, false, now).0, a, now);
  }

  /**
  In runs: two refunds the provider made end an open registration in different statuses by their order if and only if
  together they return all the money and exactly one of them is at least the amount due.
  */
  lemma {:induction false} OrderShowsInRuns(currency: string, begun: int, deadline: int, actions: seq<Action>, a: RefundEvent,
                         b: RefundEvent, now: int)
    requires forall x :: x in actions ==> PlausibleAction(x)
    requires var w := Run(Start(currency, begun, deadline), actions);
             && GenuineRefund(w, a) && GenuineRefund(w, b)
             && BothApply(w.ledger, a, b, now) && BothApply(w.ledger, b, a, now)
    ensures var l := Run(Start(currency, begun, deadline), actions).ledger;
            Both(l, a, b, now).reg.status != Both(l, b, a, now).reg.status <==>
              && !IsClosed(l.reg.status)
              && a.amount + b.amount == Net(l.payments)
              && (a.amount >= l.reg.amountDue) != (b.amount >= l.reg.amountDue)
  {
    hide Run, ProcessRefund, LedgerOk, PaidTotals, Accounted;
    var w := Run(Start(currency, begun, deadline), actions);
    StartIsAccounted(currency, begun, deadline);
    RunStaysAccounted(Start(currency, begun, deadline), actions);
    AccountedLedger(w);
    OrderMattersExactly(w.ledger, a, b, now);
    ProcessedRefund(w.ledger, a, now);
    ProcessedRefund(w.ledger, b, now);
    MoneyStays(w, a, b, now);
  }

  lemma AccountedLedger(w: World)
    requires Accounted(w)
    ensures LedgerOk(w.ledger)
  {
    hide LedgerOk;
  }

  /** The provider having made both refunds, the net after both is not negative. */
  lemma MoneyStays(w: World, a: RefundEvent, b: RefundEvent, now: int)
    requires Accounted(w) && GenuineRefund(w, a) && GenuineRefund(w, b)
    ensures Net(Both(w.ledger, a, b, now).payments) >= 0
  {
    hide Accounted, ProcessRefund, PaidTotals;
    var x, y := RefundNews(a, false, now), RefundNews(b, false, now);
    StepStaysAccounted(w, x);
    var v := Apply(w, x);
    assert v.processed == w.processed && v.ledger == ProcessRefund(w.ledger, a, false, now).0;
    StepStaysAccounted(v, y);
    assert Apply(v, y).ledger == Both(w.ledger, a, b, now);
    NetIsNeverNegative(Apply(v, y));
  }
}
