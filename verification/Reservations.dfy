/** Which steps keep the reserved refunds of every capture within its amount. */
module Reservations {
  import opened Common
  import opened Billing
  import opened FeeResolver
  import opened PaidState
  import opened RefundAllocation
  import opened LedgerSteps
  import opened LedgerWorld
  import opened LedgerInvariant
  import opened LedgerRuns

  predicate ReservedWithinCaptures(ps: seq<Payment>) {
    forall c {:trigger ps[c]} :: 0 <= c < |ps| && ps[c].kind != Refund ==> Linked(ps, c) <= ps[c].amount
  }

  /** Nothing is linked to a row that no refund names. */
  lemma NothingLinked(ps: seq<Payment>, c: nat)
    requires forall i :: 0 <= i < |ps| && ps[i].kind == Refund ==> ps[i].refundOf != Some(c)
    ensures Linked(ps, c) == 0
  {
    SumZero(LinkedTo(c), ps);
  }

  function DrawnFrom(c: nat): Allocation -> int {
    (a: Allocation) => if a.capture == c then a.amount else 0
  }

  lemma {:induction false} IntentsDraw(ps: seq<Payment>, parts: seq<Allocation>, version: int, reason: string,
                                       now: int, c: nat)
    requires SafeParts(ps, parts)
    ensures Sum(LinkedTo(c), IntentRows(ps, parts, version, reason, now)) == Sum(DrawnFrom(c), parts)
  {
    if parts != [] {
      var n := |parts| - 1;
      IntentsDraw(ps, parts[..n], version, reason, now, c);
      SumAppend(LinkedTo(c), IntentRows(ps, parts[..n], version, reason, now), IntentRow(ps, parts[n], version, reason, now));
    }
  }

  /** An allocation draws on a capture in at most one part, which fits. */
  lemma {:induction false} DrawsFit(ps: seq<Payment>, parts: seq<Allocation>, c: nat)
    requires Fits(ps, 0, parts) && c < |ps|
    ensures var drawn := Sum(DrawnFrom(c), parts);
            drawn == 0 || Linked(ps, c) + drawn <= ps[c].amount
  {
    if parts != [] {
      var n := |parts| - 1;
      if parts[n].capture == c {
        SumZero(DrawnFrom(c), parts[..n]);
      } else {
        DrawsFit(ps, parts[..n], c);
      }
    }
  }

  lemma RequestKeepsReservations(l: Ledger, amount: int, reason: string, version: int, now: int)
    requires LedgerOk(l) && ReservedWithinCaptures(l.payments)
    ensures ReservedWithinCaptures(RequestRefund(l, amount, reason, version, now).0.payments)
  {
    hide RowsOk, UniqueIds, PendingOk, CoveredOk, PriceOk, IntentsOk, PaidTotals;
    if RequestRefund(l, amount, reason, version, now).1 == Applied {
      NoUnlinked(l.payments);
      AllocationSound(l.payments, amount);
      AllocationInRange(l.payments, 0, Unlinked(l.payments), amount);
      PartsStayWithin(l.payments, Allocate(l.payments, amount).value, reason, version, now);
    }
  }

  lemma {:induction false} PartsStayWithin(ps: seq<Payment>, parts: seq<Allocation>, reason: string, version: int,
                                           now: int)
    requires Fits(ps, 0, parts) && ReservedWithinCaptures(ps)
    ensures ReservedWithinCaptures(ps + IntentRows(ps, parts, version, reason, now))
  {
    var rows := IntentRows(ps, parts, version, reason, now);
    var qs := ps + rows;
    forall i | |ps| <= i < |qs|
      ensures qs[i].kind == Refund
    {
      assert qs[i] == rows[i - |ps|] == IntentRow(ps, parts[i - |ps|], version, reason, now);
    }
    forall c | 0 <= c < |qs| && qs[c].kind != Refund
      ensures Linked(qs, c) <= qs[c].amount
    {
      assert qs[c] == ps[c];
      SumConcat(LinkedTo(c), ps, rows);
      IntentsDraw(ps, parts, version, reason, now, c);
      DrawsFit(ps, parts, c);
    }
  }

  /** Rows that only lose reservations, and new rows without any, keep the bound. */
  lemma FewerReservations(ps: seq<Payment>, qs: seq<Payment>)
    requires RowsOk(ps) && ReservedWithinCaptures(ps) && |ps| <= |qs|
    requires forall i :: 0 <= i < |ps| ==>
               && qs[i].kind == ps[i].kind && qs[i].amount == ps[i].amount && qs[i].refundOf == ps[i].refundOf
               && (IsReserved(qs[i]) ==> IsReserved(ps[i]))
    requires forall i :: |ps| <= i < |qs| ==> qs[i].kind != Refund && qs[i].amount >= 0
    ensures ReservedWithinCaptures(qs)
  {
    forall c | 0 <= c < |qs| && qs[c].kind != Refund
      ensures Linked(qs, c) <= qs[c].amount
    {
      forall i | 0 <= i < |ps| && ps[i].kind == Refund
        ensures ps[i].refundOf.Some? && ps[i].refundOf.value < |ps| && ps[i].amount > 0
      {
        RowAt(ps, i);
      }
      if c < |ps| {
        LinkedShrinks(ps, qs, c);
      } else {
        forall i | 0 <= i < |qs| && qs[i].kind == Refund
          ensures qs[i].refundOf != Some(c)
        {
          assert i < |ps|;
        }
        NothingLinked(qs, c);
      }
    }
  }

  lemma LinkedShrinks(ps: seq<Payment>, qs: seq<Payment>, c: nat)
    requires |ps| <= |qs|
    requires forall i :: 0 <= i < |ps| ==> LinkedTo(c)(qs[i]) <= LinkedTo(c)(ps[i])
    requires forall i :: |ps| <= i < |qs| ==> LinkedTo(c)(qs[i]) == 0
    ensures Linked(qs, c) <= Linked(ps, c)
  {
    assert qs == qs[..|ps|] + qs[|ps|..];
    SumConcat(LinkedTo(c), qs[..|ps|], qs[|ps|..]);
    SumZero(LinkedTo(c), qs[|ps|..]);
    PointwiseAtMost(LinkedTo(c), qs[..|ps|], ps);
  }

  lemma {:induction false} PointwiseAtMost(f: Payment -> int, a: seq<Payment>, b: seq<Payment>)
    requires |a| == |b| && forall i :: 0 <= i < |a| ==> f(a[i]) <= f(b[i])
    ensures Sum(f, a) <= Sum(f, b)
  {
    if a != [] {
      PointwiseAtMost(f, a[..|a| - 1], b[..|b| - 1]);
    }
  }

  lemma ReserveFreesOnly(l: Ledger, a: Action)
    requires LedgerOk(l) && a.Reserve? && ReservedWithinCaptures(l.payments)
    ensures ReservedWithinCaptures(
              ReserveCheckout(l, a.user, a.key, a.keyElsewhere, a.billingReady, a.attempt, a.now).0.payments)
  {
    hide PaidTotals, RowsOk, UniqueIds, PendingOk, CoveredOk, PriceOk, IntentsOk, FirstRefusal, RowWhere, ReservedWithinCaptures;
    FewerReservations(l.payments,
      ReserveCheckout(l, a.user, a.key, a.keyElsewhere, a.billingReady, a.attempt, a.now).0.payments);
  }

  lemma CaptureFreesOnly(l: Ledger, a: Action)
    requires LedgerOk(l) && a.Capture? && ReservedWithinCaptures(l.payments)
    ensures ReservedWithinCaptures(ProcessCapture(l, a.ev, a.current, a.eligible, a.paymentElsewhere).0.payments)
  {
    hide PaidTotals, RowsOk, UniqueIds, PendingOk, CoveredOk, PriceOk, IntentsOk, Reprice, ReservedWithinCaptures;
    var found := RowWhere(l.payments, HasOrder(a.ev.orderId));
    if found.Some? {
      RowAt(l.payments, found.value);
    }
    FewerReservations(l.payments, ProcessCapture(l, a.ev, a.current, a.eligible, a.paymentElsewhere).0.payments);
  }

  /** Every step of the machine keeps the reservations within the captures, except news from the provider. */
  lemma OnlyNewsCanOverReserve(w: World, a: Action)
    requires WorldOk(w) && ReservedWithinCaptures(w.ledger.payments) && !a.RefundNews?
    ensures ReservedWithinCaptures(Apply(w, a).ledger.payments)
  {
    hide LedgerOk, ReservedWithinCaptures;
    var l := w.ledger;
    if a.Request? {
      RequestKeepsReservations(l, a.amount, a.reason, a.version, a.now);
    } else if a.Reserve? {
      ReserveFreesOnly(l, a);
    } else if a.Capture? {
      CaptureFreesOnly(l, a);
    } else if a.Review? {
      ReviewKeepsRows(l, a);
    } else {
      SimpleStepsFreeOnly(w, a);
    }
  }

  lemma SimpleStepsFreeOnly(w: World, a: Action)
    requires LedgerOk(w.ledger) && ReservedWithinCaptures(w.ledger.payments)
    requires !a.RefundNews? && !a.Request? && !a.Reserve? && !a.Capture? && !a.Review?
    ensures ReservedWithinCaptures(Apply(w, a).ledger.payments)
  {
    hide RowsOk, UniqueIds, PendingOk, CoveredOk, PriceOk, IntentsOk, ReservedWithinCaptures, PaidTotals;
    FewerReservations(w.ledger.payments, Apply(w, a).ledger.payments);
  }

  /** What accepted news about a refund adds to the reservations of its capture. */
  function NewlyReserved(ps: seq<Payment>, ev: RefundEvent, c: nat): int {
    var i := RefundRow(ps, ev);
    (if ev.status == RefundFailed then 0 else ev.amount) - (if i.Some? then LinkedTo(c)(ps[i.value]) else 0)
  }

  /**
  News keep the bound exactly when the capture still has room for what they add; they always do when the
  refund is one of our own requests that has not failed.
  */
  lemma NewsOverReserveExactly(l: Ledger, ev: RefundEvent, elsewhere: bool, now: int)
    requires LedgerOk(l) && ReservedWithinCaptures(l.payments)
    requires NewsTaken(l, ev, elsewhere)
    ensures var c := RowWhere(l.payments, IsCaptureOf(ev.paymentId)).value;
            var i := RefundRow(l.payments, ev);
            var after := ProcessRefund(l, ev, elsewhere, now).0.payments;
            && (ReservedWithinCaptures(after) <==>
                  Linked(l.payments, c) + NewlyReserved(l.payments, ev, c) <= l.payments[c].amount)
            && (i.Some? && l.payments[i.value].status == Created ==> ReservedWithinCaptures(after))
  {
    hide UniqueIds, PendingOk, CoveredOk, PriceOk, IntentsOk, PaidTotals, RowsOk, Sum, ReservedWithinCaptures;
    hide RowWhere, RefundRow;
    NewsTakenExactly(l, ev, elsewhere, now);
    var ps := l.payments;
    var c := RowWhere(ps, IsCaptureOf(ev.paymentId)).value;
    var i := RefundRow(ps, ev);
    var after := ProcessRefund(l, ev, elsewhere, now).0.payments;
    assert after == AfterNews(ps, ev, c, now);
    if i.Some? {
      RowAt(ps, i.value);
    }
    NewsMoveReservations(ps, ev, c, now);
    ReservedAt(ps, c);
    BoundMovesAt(ps, after, c, NewlyReserved(ps, ev, c));
  }

  function AfterNews(ps: seq<Payment>, ev: RefundEvent, c: nat, now: int): seq<Payment> {
    var i := RefundRow(ps, ev);
    if i.Some? then ps[i.value := RefundUpdate(ps[i.value], ev, c)] else ps + [ExternalRefund(ev, c, now)]
  }

  lemma ReservedAt(ps: seq<Payment>, c: nat)
    requires ReservedWithinCaptures(ps) && c < |ps| && ps[c].kind != Refund
    ensures Linked(ps, c) <= ps[c].amount
  {
    assert ps[c].kind != Refund;
  }

  /** Accepted news change the reservations of their own capture and of no other. */
  lemma NewsMoveReservations(ps: seq<Payment>, ev: RefundEvent, c: nat, now: int)
    requires var i := RefundRow(ps, ev);
             i.Some? ==> SameRefund(ps[i.value], ev, c) && ps[i.value].refundOf == Some(c)
    ensures forall d :: 0 <= d < |ps| ==>
              Linked(AfterNews(ps, ev, c, now), d) == Linked(ps, d) + if d == c then NewlyReserved(ps, ev, c) else 0
  {
    hide RefundRow, Sum;
    var i := RefundRow(ps, ev);
    forall d | 0 <= d < |ps|
      ensures Linked(AfterNews(ps, ev, c, now), d) == Linked(ps, d) + if d == c then NewlyReserved(ps, ev, c) else 0
    {
      if i.Some? {
        SumUpdate(LinkedTo(d), ps, i.value, RefundUpdate(ps[i.value], ev, c));
      } else {
        SumAppend(LinkedTo(d), ps, ExternalRefund(ev, c, now));
      }
    }
  }

  /** If only the capture c gains reservations, the bound afterwards is decided at c. */
  lemma BoundMovesAt(ps: seq<Payment>, after: seq<Payment>, c: nat, gain: int)
    requires |ps| <= |after| && c < |ps| && ReservedWithinCaptures(ps) && after[c].kind != Refund
    requires forall d :: 0 <= d < |ps| ==> after[d].kind == ps[d].kind && after[d].amount == ps[d].amount
    requires forall d :: |ps| <= d < |after| ==> after[d].kind == Refund
    requires forall d :: 0 <= d < |ps| ==> Linked(after, d) == Linked(ps, d) + if d == c then gain else 0
    ensures ReservedWithinCaptures(after) <==> Linked(ps, c) + gain <= ps[c].amount
  {
    hide Linked;
  }

  // ---- Over runs ---------------------------------------------------------------------------

  /** News that are applied find room in their capture for what they add. */
  predicate HasRoom(w: World, a: Action) {
    a.RefundNews? && GenuineRefund(w, a.news) && NewsTaken(w.ledger, a.news, a.refundElsewhere) ==>
      var ps := w.ledger.payments;
      var c := RowWhere(ps, IsCaptureOf(a.news.paymentId)).value;
      Linked(ps, c) + NewlyReserved(ps, a.news, c) <= ps[c].amount
  }

  lemma StepStaysWithinExactly(w: World, a: Action)
    requires WorldOk(w) && ReservedWithinCaptures(w.ledger.payments)
    ensures ReservedWithinCaptures(Apply(w, a).ledger.payments) <==> HasRoom(w, a)
  {
    hide LedgerOk, ReservedWithinCaptures, ProcessRefund, NewlyReserved, Linked, RowWhere;
    if !a.RefundNews? {
      OnlyNewsCanOverReserve(w, a);
    } else if GenuineRefund(w, a.news) && NewsTaken(w.ledger, a.news, a.refundElsewhere) {
      NewsOverReserveExactly(w.ledger, a.news, a.refundElsewhere, a.now);
    } else {
      RefusedNewsChangeNothing(w, a);
    }
  }

  lemma RefusedNewsChangeNothing(w: World, a: Action)
    requires a.RefundNews?
    requires !(GenuineRefund(w, a.news) && NewsTaken(w.ledger, a.news, a.refundElsewhere))
    ensures Apply(w, a).ledger == w.ledger
  {
    hide RowWhere, PaidTotals, RefundRow;
    NewsTakenExactly(w.ledger, a.news, a.refundElsewhere, a.now);
  }

  /** After every step of the run, the reserved refunds are within the captures. */
  predicate StaysWithin(w: World, actions: seq<Action>) {
    && ReservedWithinCaptures(Run(w, actions).ledger.payments)
    && (actions == [] || StaysWithin(w, actions[..|actions| - 1]))
  }

  predicate AllFindRoom(w: World, actions: seq<Action>) {
    actions == []
    || (AllFindRoom(w, actions[..|actions| - 1]) && HasRoom(Run(w, actions[..|actions| - 1]), actions[|actions| - 1]))
  }

  /** A run keeps the reserved refunds of every capture within it if and only if all its news find room. */
  lemma {:induction false} RunStaysWithinExactly(w: World, actions: seq<Action>)
    requires WorldOk(w) && ReservedWithinCaptures(w.ledger.payments)
    ensures WorldOk(Run(w, actions))
    ensures StaysWithin(w, actions) <==> AllFindRoom(w, actions)
  {
    hide WorldOk, ReservedWithinCaptures, HasRoom, Apply;
    if actions != [] {
      var before, a := actions[..|actions| - 1], actions[|actions| - 1];
      RunStaysWithinExactly(w, before);
      StepKeeps(Run(w, before), a);
      if StaysWithin(w, before) {
        StepStaysWithinExactly(Run(w, before), a);
      }
    }
  }

  // ---- How a requested refund comes to be marked failed ------------------------------------

  /** A new checkout gives up the newest open row, which may be a refund that was requested. */
  predicate FailedByCheckout(w: World, a: Action, i: nat) {
    && a.Reserve? && a.attempt in w.attempts
    && ReservesNew(w.ledger, a.user, a.key, a.keyElsewhere, a.billingReady, a.attempt, a.now)
    && NewestCreated(w.ledger.payments) == Some(i)
  }

  predicate FailedByNews(w: World, a: Action, i: nat) {
    && a.RefundNews? && a.news.status == RefundFailed && NewsTaken(w.ledger, a.news, a.refundElsewhere)
    && RefundRow(w.ledger.payments, a.news) == Some(i)
  }

  /** An open refund row is marked failed by the news that it failed, or by a checkout it is the newest open row of. */
  lemma RefundFailsExactly(w: World, a: Action, i: nat)
    requires WorldOk(w) && i < |w.ledger.payments|
    requires w.ledger.payments[i].kind == Refund && w.ledger.payments[i].status == Created
    ensures i < |Apply(w, a).ledger.payments|
    ensures Apply(w, a).ledger.payments[i].status == Failed <==> FailedByCheckout(w, a, i) || FailedByNews(w, a, i)
  {
    hide LedgerOk, ProcessRefund, ProcessCapture, ReserveCheckout, ReservesNew, NewsTaken;
    StepEvolves(w, a);
    LedgerParts(w.ledger);
    RowAt(w.ledger.payments, i);
    match a
    case Reserve(user, key, elsewhere, ready, attempt, now) => CheckoutFails(w.ledger, a, i);
    case RefundNews(news, elsewhere, now) => NewsFail(w.ledger, a, i);
    case Capture(ev, current, eligible, elsewhere) => CaptureFailsNothing(w.ledger, a, i);
    case Review(id, reviewer, decision, hasNote, current, graceMs) => ReviewKeepsRows(w.ledger, a);
    case _ => RestFailsNothing(w, a, i);
  }

  lemma CheckoutFails(l: Ledger, a: Action, i: nat)
    requires a.Reserve? && i < |l.payments| && l.payments[i].status == Created
    ensures var r := ReserveCheckout(l, a.user, a.key, a.keyElsewhere, a.billingReady, a.attempt, a.now);
            && i < |r.0.payments|
            && (r.0.payments[i].status == Failed <==>
                  && ReservesNew(l, a.user, a.key, a.keyElsewhere, a.billingReady, a.attempt, a.now)
                  && NewestCreated(l.payments) == Some(i))
  {
    hide PaidTotals, RowWhere, FirstRefusal, LockPrice, NewestCreated;
    ReservesExactly(l, a.user, a.key, a.keyElsewhere, a.billingReady, a.attempt, a.now);
  }

  lemma NewsFail(l: Ledger, a: Action, i: nat)
    requires a.RefundNews? && i < |l.payments| && l.payments[i].status == Created
    ensures var r := ProcessRefund(l, a.news, a.refundElsewhere, a.now);
            && i < |r.0.payments|
            && (r.0.payments[i].status == Failed <==>
                  && a.news.status == RefundFailed && NewsTaken(l, a.news, a.refundElsewhere)
                  && RefundRow(l.payments, a.news) == Some(i))
  {
    hide PaidTotals, RowWhere, RefundRow, SameRefund;
    NewsTakenExactly(l, a.news, a.refundElsewhere, a.now);
  }

  lemma CaptureFailsNothing(l: Ledger, a: Action, i: nat)
    requires a.Capture? && i < |l.payments| && l.payments[i].status == Created
    ensures var qs := ProcessCapture(l, a.ev, a.current, a.eligible, a.paymentElsewhere).0.payments;
            i < |qs| && qs[i].status != Failed
  {
    hide PaidTotals, RowWhere, Reprice, StatusOnCapture;
  }

  lemma RestFailsNothing(w: World, a: Action, i: nat)
    requires i < |w.ledger.payments| && w.ledger.payments[i].kind == Refund && w.ledger.payments[i].status == Created
    requires !a.Reserve? && !a.RefundNews? && !a.Capture? && !a.Review?
    ensures i < |Apply(w, a).ledger.payments| && Apply(w, a).ledger.payments[i].status != Failed
  {
    hide PaidTotals, RowWhere, Allocate, IntentRows;
    if a.Request? {
      AllocationInRange(w.ledger.payments, 0, Unlinked(w.ledger.payments), a.amount);
    }
  }

  // ---- Where a refund row ends, over runs ------------------------------------------------------

  /** How high a step reports or moves refund row i: news that come to it and fit it, or the checkout that fails it. */
  function StepHeight(w: World, a: Action, i: nat): nat {
    if a.RefundNews? && GenuineRefund(w, a.news) && NewsFit(w.ledger, a.news, a.refundElsewhere)
       && RefundRow(w.ledger.payments, a.news) == Some(i) then Rank(StatusOf(a.news.status))
    else if FailedByCheckout(w, a, i) then Rank(Failed)
    else 0
  }

  function Highest(w: World, actions: seq<Action>, i: nat): nat {
    if actions == [] then 0
    else
      var before := actions[..|actions| - 1];
      Max(Highest(w, before, i), StepHeight(Run(w, before), actions[|actions| - 1], i))
  }

  lemma NewsMoveHeight(w: World, a: Action, i: nat)
    requires LedgerOk(w.ledger) && a.RefundNews? && i < |w.ledger.payments| && w.ledger.payments[i].kind == Refund
    ensures var qs := Apply(w, a).ledger.payments;
            i < |qs| && Rank(qs[i].status) == Max(Rank(w.ledger.payments[i].status), StepHeight(w, a, i))
  {
    hide PaidTotals, RowWhere, RefundRow, SameRefund, UniqueIds, PriceOk, PendingOk, CoveredOk, IntentsOk;
    NewsTakenExactly(w.ledger, a.news, a.refundElsewhere, a.now);
    RowAt(w.ledger.payments, i);
  }

  lemma CheckoutMovesHeight(w: World, a: Action, i: nat)
    requires LedgerOk(w.ledger) && a.Reserve? && i < |w.ledger.payments| && w.ledger.payments[i].kind == Refund
    ensures var qs := Apply(w, a).ledger.payments;
            i < |qs| && Rank(qs[i].status) == Max(Rank(w.ledger.payments[i].status), StepHeight(w, a, i))
  {
    hide PaidTotals, RowWhere, FirstRefusal, LockPrice, ReservesNew, LedgerOk;
    ReservesExactly(w.ledger, a.user, a.key, a.keyElsewhere, a.billingReady, a.attempt, a.now);
  }

  lemma CaptureLeavesRefunds(l: Ledger, a: Action, i: nat)
    requires LedgerOk(l) && a.Capture? && i < |l.payments| && l.payments[i].kind == Refund
    ensures var qs := ProcessCapture(l, a.ev, a.current, a.eligible, a.paymentElsewhere).0.payments;
            i < |qs| && qs[i] == l.payments[i]
  {
    hide PaidTotals, Reprice, StatusOnCapture, UniqueIds, PriceOk, PendingOk, CoveredOk, IntentsOk;
    RowAt(l.payments, i);
  }

  lemma RestLeavesRefunds(w: World, a: Action, i: nat)
    requires i < |w.ledger.payments| && w.ledger.payments[i].kind == Refund
    requires !a.Reserve? && !a.RefundNews? && !a.Capture? && !a.Review?
    ensures var qs := Apply(w, a).ledger.payments;
            i < |qs| && qs[i] == w.ledger.payments[i]
  {
    hide PaidTotals, RowWhere, Allocate, IntentRows;
    if a.Request? {
      AllocationInRange(w.ledger.payments, 0, Unlinked(w.ledger.payments), a.amount);
    }
  }

  lemma StepMovesHeight(w: World, a: Action, i: nat)
    requires WorldOk(w) && i < |w.ledger.payments| && w.ledger.payments[i].kind == Refund
    ensures var qs := Apply(w, a).ledger.payments;
            && i < |qs| && qs[i].kind == Refund
            && Rank(qs[i].status) == Max(Rank(w.ledger.payments[i].status), StepHeight(w, a, i))
  {
    hide LedgerOk, ProcessRefund, ProcessCapture, ReserveCheckout, ReservesNew, NewsFit, RefundRow;
    StepEvolves(w, a);
    assert RowEvolves(w.ledger.payments[i], Apply(w, a).ledger.payments[i]);
    match a
    case Reserve(user, key, elsewhere, ready, attempt, now) => CheckoutMovesHeight(w, a, i);
    case RefundNews(news, elsewhere, now) => NewsMoveHeight(w, a, i);
    case Capture(ev, current, eligible, elsewhere) => CaptureLeavesRefunds(w.ledger, a, i);
    case Review(id, reviewer, decision, hasNote, current, graceMs) => ReviewKeepsRows(w.ledger, a);
    case _ => RestLeavesRefunds(w, a, i);
  }

  /**
  In every run, whatever else happens in between, a refund row ends at the highest of its status at the start, the
  fitting news that came to it, and FAILED if a checkout failed it.
  */
  lemma {:induction false} RefundEndsHighest(w: World, actions: seq<Action>, i: nat)
    requires WorldOk(w) && i < |w.ledger.payments| && w.ledger.payments[i].kind == Refund
    ensures WorldOk(Run(w, actions))
    ensures var qs := Run(w, actions).ledger.payments;
            && i < |qs| && qs[i].kind == Refund
            && Rank(qs[i].status) == Max(Rank(w.ledger.payments[i].status), Highest(w, actions, i))
  {
    hide WorldOk, StepHeight, Apply;
    if actions != [] {
      var before, a := actions[..|actions| - 1], actions[|actions| - 1];
      RefundEndsHighest(w, before, i);
      StepKeeps(Run(w, before), a);
      StepMovesHeight(Run(w, before), a, i);
    }
  }
}
