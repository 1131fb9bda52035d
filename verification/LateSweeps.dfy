/**
When a registration counts as paid, which steps can make it so, and hence exactly when the separate write of a discard
sweep hits a paid registration.
*/
module LateSweeps {
  import opened Common
  import opened Billing
  import opened FeeResolver
  import opened PaidState
  import opened LedgerSteps
  import opened LedgerWorld
  import opened LedgerInvariant
  import opened LedgerRuns
  import opened RefundBound
  import opened RefundRuns

  /** Open, priced, and holding at least the amount due. */
  predicate Covered(l: Ledger) {
    !IsClosed(l.reg.status) && l.reg.lockedTiming.Some? && Net(l.payments) >= l.reg.amountDue
  }

  /** A registration that owes an additional payment is short of the amount due. */
  predicate OwingOk(l: Ledger) {
    l.reg.status == AdditionalPaymentRequired ==> Net(l.payments) < l.reg.amountDue
  }

  lemma NetUnmoved(ps: seq<Payment>, qs: seq<Payment>)
    requires NoNewSettled(ps, qs)
    ensures Net(qs) == Net(ps)
  {
    var same, more := qs[..|ps|], qs[|ps|..];
    assert qs == same + more;
    forall i | 0 <= i < |ps|
      ensures CapturedAmount(ps[i]) == CapturedAmount(same[i]) && RefundedAmount(ps[i]) == RefundedAmount(same[i])
    {
      assert RowEvolves(ps[i], qs[i]);
      assert IsSettled(qs[i]) ==> IsSettled(ps[i]);
    }
    SumPointwise(CapturedAmount, ps, same);
    SumPointwise(RefundedAmount, ps, same);
    SumConcat(CapturedAmount, same, more);
    SumConcat(RefundedAmount, same, more);
    forall i | 0 <= i < |more|
      ensures CapturedAmount(more[i]) == 0 && RefundedAmount(more[i]) == 0
    {
      assert more[i] == qs[|ps| + i];
    }
    SumZero(CapturedAmount, more);
    SumZero(RefundedAmount, more);
  }

  predicate MovesMoneyOrPrice(a: Action) {
    a.Capture? || a.RefundNews? || a.Review?
  }

  /** Every other step leaves net and an existing price alone, and makes no registration paid or owing. */
  lemma OthersKeepCover(w: World, a: Action)
    requires WorldOk(w) && !MovesMoneyOrPrice(a)
    ensures var l, m := w.ledger, Apply(w, a).ledger;
            && Net(m.payments) == Net(l.payments)
            && (m.reg.status == AdditionalPaymentRequired || IsPaidStatus(m.reg.status) ==>
                  m.reg.status == l.reg.status && m.reg.amountDue == l.reg.amountDue)
  {
    OthersKeepStatus(w, a);
    OthersSettleNothing(w, a);
    hide Apply, WorldOk, PaidTotals;
    NetUnmoved(w.ledger.payments, Apply(w, a).ledger.payments);
  }

  lemma OthersKeepStatus(w: World, a: Action)
    requires WorldOk(w) && !MovesMoneyOrPrice(a)
    ensures var r, s := w.ledger.reg, Apply(w, a).ledger.reg;
            s.status == AdditionalPaymentRequired || IsPaidStatus(s.status) ==>
              s.status == r.status && s.amountDue == r.amountDue
  {
    hide LedgerOk, OpenReadOk, DoomOk, PaidTotals, RowWhere, NewestCreated, FirstRefusal, QuoteRegistration;
    hide ApiSweepDiscards, WorkerSweepDiscards, RequestRefund;
    if a.Request? {
      RequestKeepsStatus(w.ledger, a);
    }
  }

  lemma RequestKeepsStatus(l: Ledger, a: Action)
    requires a.Request?
    ensures var s := RequestRefund(l, a.amount, a.reason, a.version, a.now).0.reg;
            s.status == l.reg.status && s.amountDue == l.reg.amountDue
  {
    hide RowWhere, PaidTotals;
  }

  lemma CaptureKeepsOwing(l: Ledger, ev: CaptureEvent, today: Option<Schedule>, eligible: bool, elsewhere: bool)
    requires LedgerOk(l) && OwingOk(l)
    ensures var m := ProcessCapture(l, ev, today, eligible, elsewhere).0;
            && OwingOk(m) && m.reg.amountDue == l.reg.amountDue
            && (IsClosed(l.reg.status) ==> IsClosed(m.reg.status))
  {
    hide RowWhere, PaidTotals, RowsOk, UniqueIds, IntentsOk, CoveredOk, Reprice, OneCurrency, PendingOk, LatestIsApproved;
    CapturePendingPays(l, ev, today, eligible, elsewhere);
  }

  /** A pending registration asks for the whole amount due, so its capture pays it. */
  lemma CapturePendingPays(l: Ledger, ev: CaptureEvent, today: Option<Schedule>, eligible: bool, elsewhere: bool)
    requires LedgerOk(l)
    ensures ProcessCapture(l, ev, today, eligible, elsewhere).0.reg.status == AdditionalPaymentRequired
            ==> l.reg.status == AdditionalPaymentRequired
  {
    hide RowWhere, PaidTotals, RowsOk, UniqueIds, IntentsOk, CoveredOk, PriceOk, PendingOk, Reprice, LatestIsApproved;
  }

  lemma NewsKeepOwing(l: Ledger, news: RefundEvent, elsewhere: bool, now: int)
    requires LedgerOk(l) && OwingOk(l)
    ensures var m := ProcessRefund(l, news, elsewhere, now).0;
            && OwingOk(m) && m.reg.amountDue == l.reg.amountDue && Net(m.payments) <= Net(l.payments)
            && (IsPaidStatus(m.reg.status) ==> IsPaidStatus(l.reg.status))
  {
    hide PaidTotals, LedgerOk;
    if news.status == RefundProcessed && ProcessRefund(l, news, elsewhere, now).1 == Applied {
      ElsewhereIsRefused(l, news, elsewhere, now);
      ProcessedRefund(l, news, now);
      hide ProcessRefund;
      StatusAfterShortfall(l, Net(l.payments) - news.amount);
    } else {
      OtherNewsKeepNet(l, news, elsewhere, now);
    }
  }

  lemma ElsewhereIsRefused(l: Ledger, news: RefundEvent, elsewhere: bool, now: int)
    requires ProcessRefund(l, news, elsewhere, now).1 == Applied
    ensures ProcessRefund(l, news, elsewhere, now) == ProcessRefund(l, news, false, now)
  {
    hide RowWhere, PaidTotals, RefundRow;
  }

  lemma StatusAfterShortfall(l: Ledger, net: int)
    requires LedgerOk(l) && OwingOk(l) && l.reg.status != Pending && l.reg.amountDue > 0 && net <= Net(l.payments)
    ensures var status := StatusAfterRefund(l.reg, net);
            && (status == AdditionalPaymentRequired ==> net < l.reg.amountDue)
            && (IsPaidStatus(status) ==> IsPaidStatus(l.reg.status))
  {
    hide PaidTotals, LedgerOk;
  }

  lemma OtherNewsKeepNet(l: Ledger, news: RefundEvent, elsewhere: bool, now: int)
    requires LedgerOk(l) && !(news.status == RefundProcessed && ProcessRefund(l, news, elsewhere, now).1 == Applied)
    ensures var m := ProcessRefund(l, news, elsewhere, now).0;
            m.reg == l.reg && Net(m.payments) == Net(l.payments)
  {
    hide RowWhere, PaidTotals, RowsOk, UniqueIds, PriceOk, PendingOk, CoveredOk, IntentsOk, RefundRow;
    var ps := l.payments;
    var step := ProcessRefund(l, news, elsewhere, now);
    if step.1 == Applied {
      var c, existing := RowWhere(ps, IsCaptureOf(news.paymentId)).value, RefundRow(ps, news);
      if existing.Some? {
        RowAt(ps, existing.value);
        NetUpdate(ps, existing.value, RefundUpdate(ps[existing.value], news, c));
      } else {
        NetAppend(ps, ExternalRefund(news, c, now));
      }
    }
  }

  /** A review pays an unpaid registration only by rejecting the document and lowering what is due. */
  lemma ReviewKeepsOwing(l: Ledger, a: Action)
    requires LedgerOk(l) && OwingOk(l) && a.Review?
    ensures var m := ReviewDocument(l, a.id, a.reviewer, a.decision, a.hasNote, a.current, a.graceMs).0;
            && OwingOk(m) && m.payments == l.payments
            && (IsPaidStatus(m.reg.status) && !IsPaidStatus(l.reg.status) ==>
                  a.decision == Reject && m.reg.amountDue <= Net(l.payments) < l.reg.amountDue)
  {
    hide PaidTotals, RowsOk, UniqueIds, IntentsOk, CoveredOk, OneCurrency, RegularDue;
    if l.reg.status == Pending {
      PendingNetIsZero(l);
    }
  }

  lemma PendingNetIsZero(l: Ledger)
    requires LedgerOk(l) && l.reg.status == Pending
    ensures Net(l.payments) == 0
    ensures l.reg.lockedTiming.Some? ==> l.reg.amountDue > 0
  {
    hide PaidTotals;
    NothingCaptured(l.payments);
  }

  lemma StepKeepsOwing(w: World, a: Action)
    requires WorldOk(w) && OwingOk(w.ledger)
    ensures OwingOk(Apply(w, a).ledger)
  {
    hide LedgerOk, PaidTotals, ProcessCapture, ProcessRefund, ReviewDocument;
    match a
    case Capture(ev, current, eligible, elsewhere) => CaptureKeepsOwing(w.ledger, ev, current, eligible, elsewhere);
    case RefundNews(news, elsewhere, now) => NewsKeepOwing(w.ledger, news, elsewhere, now);
    case Review(id, reviewer, decision, hasNote, current, graceMs) => ReviewKeepsOwing(w.ledger, a);
    case _ => OthersKeepCover(w, a);
  }

  lemma {:induction false} RunKeepsOwing(w: World, actions: seq<Action>)
    requires WorldOk(w) && OwingOk(w.ledger)
    ensures WorldOk(Run(w, actions)) && OwingOk(Run(w, actions).ledger)
  {
    hide WorldOk, OwingOk, Apply;
    if actions != [] {
      var before := actions[..|actions| - 1];
      RunKeepsOwing(w, before);
      StepKeeps(Run(w, before), actions[|actions| - 1]);
      StepKeepsOwing(Run(w, before), actions[|actions| - 1]);
    }
  }

  lemma ReachableOwing(w: World)
    requires Reachable(w)
    ensures WorldOk(w) && OwingOk(w.ledger)
  {
    var currency, now, deadline, actions :| w == Run(Start(currency, now, deadline), actions);
    hide Run;
    RunKeepsOwing(Start(currency, now, deadline), actions);
  }

  /** A reachable registration counts as paid if and only if it is open, priced and covered. */
  lemma PaidExactlyWhenCovered(w: World)
    requires Reachable(w)
    ensures IsPaidStatus(w.ledger.reg.status) <==> Covered(w.ledger)
  {
    hide Reachable, Run, Apply, PaidTotals, RowsOk, UniqueIds, IntentsOk, PendingOk, OneCurrency;
    ReachableOwing(w);
    if w.ledger.reg.status == Pending {
      PendingNetIsZero(w.ledger);
    }
  }

  // ---- What makes a registration paid --------------------------------------------------------

  /** A capture that brings the net up to the amount due. */
  predicate PaidByCapture(w: World, a: Action) {
    var l, m := w.ledger, Apply(w, a).ledger;
    a.Capture? && m.reg.amountDue == l.reg.amountDue && Net(l.payments) < l.reg.amountDue <= Net(m.payments)
  }

  /** The rejection of a document that brings the amount due down to the net. */
  predicate PaidByReview(w: World, a: Action) {
    var l, m := w.ledger, Apply(w, a).ledger;
    a.Review? && a.decision == Reject && m.payments == l.payments
    && m.reg.amountDue <= Net(l.payments) < l.reg.amountDue
  }

  lemma OnlyThesePay(w: World, a: Action)
    requires Reachable(w) && Reachable(Apply(w, a))
    requires !IsPaidStatus(w.ledger.reg.status) && IsPaidStatus(Apply(w, a).ledger.reg.status)
    ensures PaidByCapture(w, a) || PaidByReview(w, a)
  {
    hide Reachable, LedgerOk, PaidTotals, ProcessCapture, ProcessRefund, ReviewDocument, Run;
    ReachableOwing(w);
    PaidExactlyWhenCovered(w);
    PaidExactlyWhenCovered(Apply(w, a));
    match a
    case Capture(ev, current, eligible, elsewhere) =>
      CaptureKeepsOwing(w.ledger, ev, current, eligible, elsewhere);
      CaptureNeedsPrice(w, a);
    case RefundNews(news, elsewhere, now) => NewsKeepOwing(w.ledger, news, elsewhere, now);
    case Review(id, reviewer, decision, hasNote, current, graceMs) => ReviewKeepsOwing(w.ledger, a);
    case _ => OthersKeepCover(w, a);
  }

  /** Without a price there is no row to capture. */
  lemma CaptureNeedsPrice(w: World, a: Action)
    requires WorldOk(w) && a.Capture?
    ensures w.ledger.reg.lockedTiming.None? ==> Apply(w, a).ledger == w.ledger
  {
    hide PaidTotals, RowsOk, UniqueIds, IntentsOk, CoveredOk, PendingOk, OneCurrency;
  }

  /** Step k made the registration paid, and after every later step it was still open, priced and covered. */
  predicate PaidFrom(w: World, actions: seq<Action>, k: nat) {
    && k < |actions|
    && (PaidByCapture(Run(w, actions[..k]), actions[k]) || PaidByReview(Run(w, actions[..k]), actions[k]))
    && forall j :: k < j <= |actions| ==> Covered(Run(w, actions[..j]).ledger)
  }

  lemma {:induction false} ReachOn(w: World, actions: seq<Action>)
    requires Reachable(w)
    ensures Reachable(Run(w, actions))
  {
    var currency, now, deadline, before :| w == Run(Start(currency, now, deadline), before);
    RunSplit(Start(currency, now, deadline), before, actions);
  }

  lemma {:induction false} PaidFromExtends(w: World, actions: seq<Action>, k: nat)
    requires actions != [] && PaidFrom(w, actions[..|actions| - 1], k) && Covered(Run(w, actions).ledger)
    ensures PaidFrom(w, actions, k)
  {
    hide Run, Apply, Covered, PaidByCapture, PaidByReview;
    var before := actions[..|actions| - 1];
    assert before[..k] == actions[..k] && before[k] == actions[k];
    forall j | k < j <= |actions|
      ensures Covered(Run(w, actions[..j]).ledger)
    {
      if j < |actions| {
        assert before[..j] == actions[..j];
      } else {
        assert actions[..j] == actions;
      }
    }
  }

  /** Open, priced and covered from the start and after every step. */
  predicate PaidThroughout(w: World, actions: seq<Action>) {
    forall j :: 0 <= j <= |actions| ==> Covered(Run(w, actions[..j]).ledger)
  }

  /** A run ends paid if and only if it was paid throughout, or one of its steps paid it and it stayed covered. */
  lemma {:induction false} PaidAtEndExactly(w: World, actions: seq<Action>)
    requires Reachable(w)
    ensures IsPaidStatus(Run(w, actions).ledger.reg.status)
            <==> PaidThroughout(w, actions) || exists k: nat :: PaidFrom(w, actions, k)
  {
    hide Reachable, Apply, IsPaidStatus, Covered, PaidByCapture, PaidByReview;
    ReachOn(w, actions);
    PaidExactlyWhenCovered(Run(w, actions));
    assert actions[..|actions|] == actions;
    if k: nat :| PaidFrom(w, actions, k) {
      assert Covered(Run(w, actions[..|actions|]).ledger);
    }
    if IsPaidStatus(Run(w, actions).ledger.reg.status) {
      PaidOneWay(w, actions);
    }
  }

  lemma {:induction false} PaidOneWay(w: World, actions: seq<Action>)
    requires Reachable(w) && Covered(Run(w, actions).ledger)
    ensures PaidThroughout(w, actions) || exists k: nat :: PaidFrom(w, actions, k)
  {
    hide Reachable, Apply, IsPaidStatus, Covered, PaidByCapture, PaidByReview;
    var n := |actions| - 1;
    if n < 0 {
      assert forall j :: 0 <= j <= |actions| ==> actions[..j] == actions;
    } else {
      var before := actions[..n];
      ReachOn(w, before);
      ReachOn(w, actions);
      PaidExactlyWhenCovered(Run(w, before));
      PaidExactlyWhenCovered(Run(w, actions));
      if !Covered(Run(w, before).ledger) {
        OnlyThesePay(Run(w, before), actions[n]);
        assert forall j :: n < j <= |actions| ==> actions[..j] == actions;
        assert PaidFrom(w, actions, n);
      } else {
        PaidOneWay(w, before);
        if PaidThroughout(w, before) {
          ThroughoutExtends(w, actions);
        } else {
          var k: nat :| PaidFrom(w, before, k);
          PaidFromExtends(w, actions, k);
        }
      }
    }
  }

  lemma {:induction false} ThroughoutExtends(w: World, actions: seq<Action>)
    requires actions != [] && PaidThroughout(w, actions[..|actions| - 1]) && Covered(Run(w, actions).ledger)
    ensures PaidThroughout(w, actions)
  {
    hide Run, Covered;
    var before := actions[..|actions| - 1];
    forall j | 0 <= j <= |actions|
      ensures Covered(Run(w, actions[..j]).ledger)
    {
      if j < |actions| {
        assert before[..j] == actions[..j];
      } else {
        assert actions[..j] == actions;
      }
    }
  }

  /** From an unpaid registration only the second can be. */
  lemma {:induction false} PaidFromSomeStep(w: World, actions: seq<Action>)
    requires Reachable(w) && !IsPaidStatus(w.ledger.reg.status)
    ensures IsPaidStatus(Run(w, actions).ledger.reg.status) <==> exists k: nat :: PaidFrom(w, actions, k)
  {
    hide Reachable, Apply, IsPaidStatus, Covered, PaidFrom;
    PaidAtEndExactly(w, actions);
    PaidExactlyWhenCovered(w);
    var none := actions[..0];
    assert none == [] && Run(w, none) == w;
    assert !Covered(Run(w, none).ledger);
  }

  // ---- The late write ------------------------------------------------------------------------

  /**
  The API sweep reads a registration and means to discard it; other steps run; the sweep writes. It discards a paid
  registration if and only if, in between, a capture brought the net up to the amount due, or the rejection of a
  document brought the amount due down to the net, and the registration stayed covered from then on.
  */
  lemma {:induction false} LateSweepHitsExactly(w: World, now: int, graceMs: int, between: seq<Action>)
    requires Reachable(w) && ApiSweepDiscards(w.ledger, now, graceMs)
    ensures var d := Doom(w.ledger.reg.version, false);
            var v := Run(Apply(w, ApiScan(now, graceMs)), between);
            && d in v.doomed && Apply(v, SweepWrite(d)).ledger.reg.status == DiscardedNonpayment
            && (IsPaidStatus(v.ledger.reg.status) <==>
                  exists k: nat :: PaidFrom(Apply(w, ApiScan(now, graceMs)), between, k))
  {
    hide Reachable, ApiSweepDiscards, PaidFrom, LedgerOk;
    var scanned := Apply(w, ApiScan(now, graceMs));
    ReachableLedgerOk(w);
    SweepKeepsPaid(w.ledger, now, graceMs);
    ReachStep(w, ApiScan(now, graceMs));
    PaidFromSomeStep(scanned, between);
    DoomStays(scanned, between, Doom(w.ledger.reg.version, false));
  }

  /**
  The same for the worker's sweep, which may already mean to discard a paid registration when it reads it: its write
  hits a paid registration if and only if it was paid all along, or was paid in between and stayed so.
  */
  lemma {:induction false} WorkerWriteHitsExactly(w: World, now: int, between: seq<Action>)
    requires Reachable(w) && WorkerSweepDiscards(w.ledger, now)
    ensures var d := Doom(w.ledger.reg.version, true);
            var v := Run(Apply(w, WorkerScan(now)), between);
            && d in v.doomed && Apply(v, SweepWrite(d)).ledger.reg.status == DiscardedNonpayment
            && (IsPaidStatus(v.ledger.reg.status) <==>
                  || PaidThroughout(Apply(w, WorkerScan(now)), between)
                  || exists k: nat :: PaidFrom(Apply(w, WorkerScan(now)), between, k))
  {
    hide Reachable, WorkerSweepDiscards, PaidFrom, PaidThroughout, LedgerOk;
    var scanned := Apply(w, WorkerScan(now));
    ReachStep(w, WorkerScan(now));
    PaidAtEndExactly(scanned, between);
    DoomStays(scanned, between, Doom(w.ledger.reg.version, true));
  }

  lemma ReachStep(w: World, a: Action)
    requires Reachable(w)
    ensures Reachable(Apply(w, a))
  {
    hide Reachable, Apply;
    ReachOn(w, [a]);
    assert [a][..0] == [] && Run(w, []) == w;
    assert Run(w, [a]) == Apply(w, a);
  }

  lemma {:induction false} DoomStays(w: World, actions: seq<Action>, d: Doom)
    requires d in w.doomed
    ensures d in Run(w, actions).doomed
  {
    if actions != [] {
      var before := actions[..|actions| - 1];
      DoomStays(w, before, d);
      OneStepKeepsDoom(Run(w, before), actions[|actions| - 1], d);
    }
  }

  lemma OneStepKeepsDoom(w: World, a: Action, d: Doom)
    requires d in w.doomed
    ensures d in Apply(w, a).doomed
  {
  }
}
