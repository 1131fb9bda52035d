/**
News about one provider refund arrive duplicated and in any order, some naming the intent the refund was made for and
some not. The first delivery that takes effect decides which row carries the refund; from then on every delivery
goes to that row, which ends at the highest status reported.
*/
module RefundConvergence {
  import opened Common
  import opened Billing
  import opened PaidState
  import opened LedgerSteps
  import opened LedgerInvariant

  /** One delivery: what it reports, the intent it names if any, and when it arrives. */
  datatype News = News(status: RefundStatus, intent: Option<nat>, at: int)

  /** base says what all news about the refund agree on: its id, payment, amount and currency. */
  function Event(base: RefundEvent, n: News): RefundEvent {
    base.(status := n.status, intent := n.intent)
  }

  /** One delivery after another. */
  function Deliver(l: Ledger, base: RefundEvent, news: seq<News>): Ledger {
    if news == [] then l
    else
      var last := news[|news| - 1];
      ProcessRefund(Deliver(l, base, news[..|news| - 1]), Event(base, last), false, last.at).0
  }

  // ---- Which row a delivery takes ------------------------------------------------------------

  /** The row that already carries the refund's id. */
  function Known(ps: seq<Payment>, base: RefundEvent): (i: Option<nat>)
    ensures i.Some? ==> i.value < |ps|
  {
    RowWhere(ps, HasProviderId(base.refundId))
  }

  /** The refund names a capture of these rows, and a row that carries its id is about it. */
  predicate Consistent(ps: seq<Payment>, base: RefundEvent, c: nat) {
    && RowsOk(ps) && UniqueIds(ps)
    && RowWhere(ps, IsCaptureOf(base.paymentId)) == Some(c)
    && base.refundId != "" && 0 < base.amount <= ps[c].amount && base.currency == ps[c].currency
    && (Known(ps, base).Some? ==> SameRefund(ps[Known(ps, base).value], base, c))
  }

  /** The intent a delivery names, if there is such a row. */
  function Named(ps: seq<Payment>, n: News): (i: Option<nat>)
    ensures i.Some? ==> i.value < |ps|
  {
    if n.intent.Some? && n.intent.value < |ps| then n.intent else None
  }

  /** Refused because of a foreign intent, or pending news for an intent that has failed: no effect at all. */
  predicate Passed(ps: seq<Payment>, base: RefundEvent, c: nat, n: News) {
    && Known(ps, base).None?
    && Named(ps, n).Some?
    && var row := ps[Named(ps, n).value];
       !SameRefund(row, base, c) || (row.status == Failed && n.status == RefundPending)
  }

  /** The row a delivery takes when it is the first: the one with the id, the intent it names, or a new one. */
  function Takes(ps: seq<Payment>, base: RefundEvent, c: nat, n: News): (i: Option<nat>)
    ensures i.Some? ==> i.value <= |ps|
  {
    if Known(ps, base).Some? then Known(ps, base)
    else if Passed(ps, base, c, n) then None
    else if Named(ps, n).Some? then Named(ps, n)
    else Some(|ps|)
  }

  /** The deliveries from the first one that takes effect on. */
  function Counted(ps: seq<Payment>, base: RefundEvent, c: nat, news: seq<News>): (r: seq<News>)
    ensures r != [] ==> Takes(ps, base, c, r[0]).Some?
  {
    if news == [] then []
    else
      var before, last := Counted(ps, base, c, news[..|news| - 1]), news[|news| - 1];
      if before != [] then before + [last]
      else if Takes(ps, base, c, last).Some? then [last]
      else []
  }

  function Carrier(ps: seq<Payment>, base: RefundEvent, c: nat, news: seq<News>): Option<nat> {
    var counted := Counted(ps, base, c, news);
    if counted == [] then None else Takes(ps, base, c, counted[0])
  }

  // ---- What the row ends as ------------------------------------------------------------------

  /** Refunded is final, and pending news do not undo a failure. */
  function Climb(status: PaymentStatus, s: RefundStatus): PaymentStatus {
    if status == RefundDone || (status == Failed && s == RefundPending) then status else StatusOf(s)
  }

  function ClimbAll(status: PaymentStatus, news: seq<News>): PaymentStatus {
    if news == [] then status else Climb(ClimbAll(status, news[..|news| - 1]), news[|news| - 1].status)
  }

  /** The highest status among the news. */
  function Top(news: seq<News>): nat {
    if news == [] then 0 else Max(Top(news[..|news| - 1]), Rank(StatusOf(news[|news| - 1].status)))
  }

  predicate Climbs(status: PaymentStatus) {
    status == Created || status == Failed || status == RefundDone
  }

  lemma {:induction false} ClimbAllIsTop(status: PaymentStatus, news: seq<News>)
    requires Climbs(status)
    ensures Climbs(ClimbAll(status, news))
    ensures Rank(ClimbAll(status, news)) == Max(Rank(status), Top(news)) && Top(news) <= 2
  {
    if news != [] {
      ClimbAllIsTop(status, news[..|news| - 1]);
    }
  }

  /** The row as it was when the refund came to it. */
  function Former(ps: seq<Payment>, i: nat): PaymentStatus {
    if i < |ps| then ps[i].status else Created
  }

  /** The rows with row i carrying the refund, its status not yet moved. */
  function Claim(ps: seq<Payment>, base: RefundEvent, c: nat, i: nat, at: int): seq<Payment>
    requires i <= |ps|
  {
    if i < |ps| then ps[i := ps[i].(providerId := Some(base.refundId), refundOf := Some(c))]
    else ps + [ExternalRefund(base.(status := RefundPending), c, at)]
  }

  /** The row's status moves to one it climbed to; the registration follows when that settles the refund. */
  function MoveTo(l: Ledger, i: nat, status: PaymentStatus): Ledger
    requires i < |l.payments|
  {
    if status == l.payments[i].status then l
    else SettleRefund(l, l.payments[i := l.payments[i].(status := status)], status)
  }

  /** The ledger that any deliveries end in. */
  function FinalLedger(l: Ledger, base: RefundEvent, c: nat, news: seq<News>): Ledger {
    var counted := Counted(l.payments, base, c, news);
    if counted == [] then l
    else
      var i := Takes(l.payments, base, c, counted[0]).value;
      MoveTo(l.(payments := Claim(l.payments, base, c, i, counted[0].at)), i,
             ClimbAll(Former(l.payments, i), counted))
  }

  // ---- One delivery --------------------------------------------------------------------------

  lemma {:induction false} WhereIsFirst(ps: seq<Payment>, wanted: Payment -> bool, i: nat)
    requires i < |ps| && wanted(ps[i]) && forall j :: 0 <= j < i ==> !wanted(ps[j])
    ensures RowWhere(ps, wanted) == Some(i)
  {
  }

  /** A row that is about the refund and carries it. */
  predicate Carries(ps: seq<Payment>, base: RefundEvent, c: nat, i: nat) {
    && Consistent(ps, base, c) && Known(ps, base) == Some(i)
    && ps[i].kind == Refund && ps[i].refundOf == Some(c) && Climbs(ps[i].status)
  }

  lemma KnownCarries(ps: seq<Payment>, base: RefundEvent, c: nat)
    requires Consistent(ps, base, c) && Known(ps, base).Some?
    ensures Carries(ps, base, c, Known(ps, base).value)
    ensures Claim(ps, base, c, Known(ps, base).value, 0) == ps
  {
    hide RowsOk, UniqueIds, RowWhere;
    var i := Known(ps, base).value;
    RowAt(ps, i);
    assert HasProviderId(base.refundId)(ps[i]) by { WhereHolds(ps, HasProviderId(base.refundId)); }
    assert ps[i].(providerId := Some(base.refundId), refundOf := Some(c)) == ps[i];
  }

  lemma {:induction false} WhereHolds(ps: seq<Payment>, wanted: Payment -> bool)
    requires RowWhere(ps, wanted).Some?
    ensures wanted(ps[RowWhere(ps, wanted).value])
  {
  }

  /** Claiming a row the refund fits, or a new one, leaves the rows in order and makes that row the known one. */
  lemma ClaimCarries(ps: seq<Payment>, base: RefundEvent, c: nat, i: nat, at: int)
    requires Consistent(ps, base, c) && Known(ps, base).None? && i <= |ps|
    requires i < |ps| ==> SameRefund(ps[i], base, c)
    ensures Carries(Claim(ps, base, c, i, at), base, c, i)
    ensures Claim(ps, base, c, i, at)[i].status == Former(ps, i) && Former(ps, i) != RefundDone
  {
    hide RowsOk, UniqueIds, RowsEvolve;
    var qs := Claim(ps, base, c, i, at);
    forall j | 0 <= j < |ps|
      ensures ps[j].providerId != Some(base.refundId)
    {
      assert !HasProviderId(base.refundId)(ps[j]);
    }
    RowAt(ps, c);
    if i < |ps| {
      RowAt(ps, i);
      ChangeRow(ps, i, qs[i]);
    } else {
      AppendRow(ps, qs[i]);
    }
    WhereIsFirst(qs, HasProviderId(base.refundId), i);
    CaptureStays(ps, qs, base, c, i);
  }

  lemma {:induction false} CaptureStays(ps: seq<Payment>, qs: seq<Payment>, base: RefundEvent, c: nat, i: nat)
    requires RowWhere(ps, IsCaptureOf(base.paymentId)) == Some(c) && i <= |ps| <= |qs| && i < |qs| && qs[i].kind == Refund
    requires i < |ps| ==> ps[i].kind == Refund
    requires forall j :: 0 <= j < |ps| && j != i ==> qs[j] == ps[j]
    ensures RowWhere(qs, IsCaptureOf(base.paymentId)) == Some(c)
  {
    WhereIsFirst(qs, IsCaptureOf(base.paymentId), c);
  }

  /** Moving the status of the row that carries the refund keeps it the row that does. */
  lemma MoveCarries(l: Ledger, base: RefundEvent, c: nat, i: nat, status: PaymentStatus)
    requires Carries(l.payments, base, c, i) && Climbs(status) && Rank(l.payments[i].status) <= Rank(status)
    ensures Carries(MoveTo(l, i, status).payments, base, c, i) && MoveTo(l, i, status).payments[i].status == status
  {
    hide RowsOk, UniqueIds, RowsEvolve, PaidTotals;
    var ps, qs := l.payments, MoveTo(l, i, status).payments;
    if status != ps[i].status {
      RowAt(ps, i);
      ChangeRow(ps, i, ps[i].(status := status));
      KnownStays(ps, qs, base, i);
      CaptureStays(ps, qs, base, c, i);
    }
  }

  lemma KnownStays(ps: seq<Payment>, qs: seq<Payment>, base: RefundEvent, i: nat)
    requires Known(ps, base) == Some(i) && |qs| == |ps|
    requires forall j :: 0 <= j < |ps| ==> qs[j].providerId == ps[j].providerId
    ensures Known(qs, base) == Some(i)
  {
    WhereIsFirst(qs, HasProviderId(base.refundId), i);
  }

  /** Once a row carries the refund, a delivery moves its status and nothing else, whatever intent it names. */
  lemma CarriedDelivery(l: Ledger, base: RefundEvent, c: nat, i: nat, n: News)
    requires Carries(l.payments, base, c, i)
    ensures ProcessRefund(l, Event(base, n), false, n.at).0 == MoveTo(l, i, Climb(l.payments[i].status, n.status))
  {
    hide RowWhere, PaidTotals, RowsOk, UniqueIds;
    WhereHolds(l.payments, HasProviderId(base.refundId));
    assert HasProviderId(base.refundId)(l.payments[i]);
    var row := l.payments[i];
    assert RefundRow(l.payments, Event(base, n)) == Some(i);
    assert RefundUpdate(row, Event(base, n), c) == row.(status := StatusOf(n.status));
    assert l.payments[i := row] == l.payments;
  }

  lemma PassedDelivery(l: Ledger, base: RefundEvent, c: nat, n: News)
    requires Consistent(l.payments, base, c) && Takes(l.payments, base, c, n).None?
    ensures ProcessRefund(l, Event(base, n), false, n.at).0 == l
  {
    hide RowWhere, PaidTotals, RowsOk, UniqueIds;
  }

  /** The first delivery that takes effect claims its row and moves its status. */
  lemma FirstDelivery(l: Ledger, base: RefundEvent, c: nat, n: News)
    requires Consistent(l.payments, base, c) && Takes(l.payments, base, c, n).Some?
    ensures var i := Takes(l.payments, base, c, n).value;
            var claimed := l.(payments := Claim(l.payments, base, c, i, n.at));
            && Carries(claimed.payments, base, c, i) && claimed.payments[i].status == Former(l.payments, i)
            && ProcessRefund(l, Event(base, n), false, n.at).0 == MoveTo(claimed, i, Climb(Former(l.payments, i), n.status))
  {
    hide Carries, MoveTo, RowsOk, UniqueIds, PaidTotals, RowWhere;
    var i := Takes(l.payments, base, c, n).value;
    if Known(l.payments, base).Some? {
      KnownCarries(l.payments, base, c);
      CarriedDelivery(l, base, c, i, n);
    } else {
      ClaimCarries(l.payments, base, c, i, n.at);
      FirstClaim(l, base, c, n);
    }
  }

  lemma FirstClaim(l: Ledger, base: RefundEvent, c: nat, n: News)
    requires Consistent(l.payments, base, c) && Known(l.payments, base).None? && Takes(l.payments, base, c, n).Some?
    requires Former(l.payments, Takes(l.payments, base, c, n).value) != RefundDone
    ensures var i := Takes(l.payments, base, c, n).value;
            var claimed := l.(payments := Claim(l.payments, base, c, i, n.at));
            ProcessRefund(l, Event(base, n), false, n.at).0 == MoveTo(claimed, i, Climb(Former(l.payments, i), n.status))
  {
    hide RowWhere, PaidTotals, RowsOk, UniqueIds;
    var ps, ev := l.payments, Event(base, n);
    var i := Takes(ps, base, c, n).value;
    var claimed := Claim(ps, base, c, i, n.at);
    var status := StatusOf(n.status);
    assert RefundRow(ps, ev) == Named(ps, n);
    if i < |ps| {
      assert claimed[i := claimed[i].(status := status)] == ps[i := RefundUpdate(ps[i], ev, c)];
      assert claimed[i := claimed[i]] == claimed;
    } else {
      assert claimed[i := claimed[i].(status := status)] == ps + [ExternalRefund(ev, c, n.at)];
      assert claimed[i := claimed[i]] == claimed;
    }
  }

  // ---- All deliveries ------------------------------------------------------------------------

  lemma MoveTwice(l: Ledger, i: nat, s: PaymentStatus, t: PaymentStatus)
    requires i < |l.payments| && (s == RefundDone && l.payments[i].status != s ==> t == s)
    requires t == l.payments[i].status ==> s == t
    ensures MoveTo(MoveTo(l, i, s), i, t) == MoveTo(l, i, t)
  {
    hide PaidTotals, StatusAfterRefund;
    assert l.payments[i := l.payments[i].(status := s)][i := l.payments[i].(status := t)]
        == l.payments[i := l.payments[i].(status := t)];
  }

  lemma {:induction false} ClimbAllAppend(status: PaymentStatus, news: seq<News>, n: News)
    ensures ClimbAll(status, news + [n]) == Climb(ClimbAll(status, news), n.status)
  {
    assert (news + [n])[..|news|] == news;
  }

  /** Deliveries, duplicated and in any order, end in the final form. */
  lemma {:induction false} DeliverIsFinal(l: Ledger, base: RefundEvent, c: nat, news: seq<News>)
    requires Consistent(l.payments, base, c)
    ensures Deliver(l, base, news) == FinalLedger(l, base, c, news)
  {
    hide ProcessRefund, Consistent, Takes, Claim, MoveTo, Climb, Former, Carries, ClimbAll;
    if news != [] {
      var before, last := news[..|news| - 1], news[|news| - 1];
      DeliverIsFinal(l, base, c, before);
      var counted := Counted(l.payments, base, c, before);
      if counted != [] {
        OneMore(l, base, c, counted, last);
      } else if Takes(l.payments, base, c, last).Some? {
        FirstDelivery(l, base, c, last);
        ClimbAllOne(Former(l.payments, Takes(l.payments, base, c, last).value), last);
      } else {
        PassedDelivery(l, base, c, last);
      }
    }
  }

  lemma {:induction false} ClimbAllOne(status: PaymentStatus, n: News)
    ensures ClimbAll(status, [n]) == Climb(status, n.status)
  {
    assert [n][..0] == [];
  }

  lemma {:induction false} OneMore(l: Ledger, base: RefundEvent, c: nat, counted: seq<News>, n: News)
    requires Consistent(l.payments, base, c) && counted != [] && Takes(l.payments, base, c, counted[0]).Some?
    ensures var i := Takes(l.payments, base, c, counted[0]).value;
            var claimed := l.(payments := Claim(l.payments, base, c, i, counted[0].at));
            && i < |claimed.payments|
            && ProcessRefund(MoveTo(claimed, i, ClimbAll(Former(l.payments, i), counted)), Event(base, n), false, n.at).0
            == MoveTo(claimed, i, ClimbAll(Former(l.payments, i), counted + [n]))
  {
    hide ProcessRefund, Consistent, Takes, Claim, MoveTo, ClimbAll;
    FirstDelivery(l, base, c, counted[0]);
    var i := Takes(l.payments, base, c, counted[0]).value;
    var claimed := l.(payments := Claim(l.payments, base, c, i, counted[0].at));
    var s, t := ClimbAll(Former(l.payments, i), counted), ClimbAll(Former(l.payments, i), counted + [n]);
    ClimbAllIsTop(Former(l.payments, i), counted);
    ClimbAllAppend(Former(l.payments, i), counted, n);
    MoveCarries(claimed, base, c, i, s);
    CarriedDelivery(MoveTo(claimed, i, s), base, c, i, n);
    ClimbsUp(claimed.payments[i].status, s, n);
    MoveTwice(claimed, i, s, t);
  }

  lemma ClimbsUp(from: PaymentStatus, s: PaymentStatus, n: News)
    requires Climbs(from) && Climbs(s) && Rank(from) <= Rank(s)
    ensures Climb(s, n.status) == from ==> s == from
    ensures s == RefundDone ==> Climb(s, n.status) == s
  {
  }

  // ---- Main results --------------------------------------------------------------------------

  /**
  Whatever is delivered, in any number and order and with any intents: if nothing takes effect the ledger stays as
  it is. Otherwise exactly one row carries the refund id afterwards, it is at the highest of its former status and
  the counted news, every other row is untouched, and the registration moved by one version exactly when the refund
  was newly processed.
  */
  lemma {:induction false} RefundSettlesOnce(l: Ledger, base: RefundEvent, c: nat, news: seq<News>)
    requires Consistent(l.payments, base, c)
    ensures var m, carrier := Deliver(l, base, news), Carrier(l.payments, base, c, news);
            if carrier.None? then m == l
            else
              var i, former, top := carrier.value, Rank(Former(l.payments, carrier.value)),
                                    Top(Counted(l.payments, base, c, news));
              && |m.payments| == (if i < |l.payments| then |l.payments| else i + 1)
              && (forall j :: 0 <= j < |l.payments| && j != i ==> m.payments[j] == l.payments[j])
              && (forall j :: 0 <= j < |m.payments| ==> (m.payments[j].providerId == Some(base.refundId) <==> j == i))
              && Climbs(m.payments[i].status) && Rank(m.payments[i].status) == Max(former, top)
              && m.reg.version == l.reg.version + (if former < 2 && top == 2 then 1 else 0)
              && (!(former < 2 && top == 2) ==> m.reg == l.reg)
              && m.verifications == l.verifications
  {
    hide Consistent, Takes, Counted, ClimbAll, Top, Former, Deliver, Carries, MoveTo, Claim;
    DeliverIsFinal(l, base, c, news);
    var counted := Counted(l.payments, base, c, news);
    if counted != [] {
      FirstDelivery(l, base, c, counted[0]);
      var i := Takes(l.payments, base, c, counted[0]).value;
      var claimed := l.(payments := Claim(l.payments, base, c, i, counted[0].at));
      var s := ClimbAll(Former(l.payments, i), counted);
      CarriesAt(claimed.payments, base, c, i);
      ClimbAllIsTop(Former(l.payments, i), counted);
      MoveCarries(claimed, base, c, i, s);
      CarriesAt(MoveTo(claimed, i, s).payments, base, c, i);
      OneCarrier(MoveTo(claimed, i, s).payments, base, c, i);
      WhatMoves(l, base, c, i, counted[0].at, s);
    }
  }

  lemma CarriesAt(ps: seq<Payment>, base: RefundEvent, c: nat, i: nat)
    requires Carries(ps, base, c, i)
    ensures i < |ps| && Climbs(ps[i].status)
  {
  }

  /** Claiming a row and moving its status touches that row, and the registration when it settles the refund. */
  lemma WhatMoves(l: Ledger, base: RefundEvent, c: nat, i: nat, at: int, s: PaymentStatus)
    requires i <= |l.payments| && Climbs(s)
    requires Claim(l.payments, base, c, i, at)[i].status == Former(l.payments, i)
    ensures var m := MoveTo(l.(payments := Claim(l.payments, base, c, i, at)), i, s);
            && |m.payments| == (if i < |l.payments| then |l.payments| else i + 1)
            && (forall j :: 0 <= j < |l.payments| && j != i ==> m.payments[j] == l.payments[j])
            && m.payments[i].status == s && m.verifications == l.verifications
            && m.reg.version == l.reg.version + (if s == RefundDone && Former(l.payments, i) != RefundDone then 1 else 0)
            && (!(s == RefundDone && Former(l.payments, i) != RefundDone) ==> m.reg == l.reg)
  {
    hide PaidTotals;
  }

  lemma OneCarrier(ps: seq<Payment>, base: RefundEvent, c: nat, i: nat)
    requires Carries(ps, base, c, i)
    ensures forall j :: 0 <= j < |ps| ==> (ps[j].providerId == Some(base.refundId) <==> j == i)
  {
    hide RowsOk, RowWhere;
    WhereHolds(ps, HasProviderId(base.refundId));
    assert HasProviderId(base.refundId)(ps[i]);
  }

  /** Each intent the news name is one the refund fits: our own requests are answered with their own intents. */
  predicate AllFit(ps: seq<Payment>, base: RefundEvent, c: nat, news: seq<News>) {
    forall k :: 0 <= k < |news| ==> Fits(ps, base, c, news[k])
  }

  predicate Fits(ps: seq<Payment>, base: RefundEvent, c: nat, n: News) {
    Named(ps, n).Some? ==> SameRefund(ps[Named(ps, n).value], base, c)
  }

  /** With fitting intents only pending news are ever passed over, so the counted news reach as high as all of them. */
  lemma {:induction false} AllNewsCount(ps: seq<Payment>, base: RefundEvent, c: nat, news: seq<News>)
    requires AllFit(ps, base, c, news)
    ensures Top(Counted(ps, base, c, news)) == Top(news)
  {
    if news != [] {
      var before, last := news[..|news| - 1], news[|news| - 1];
      assert forall k :: 0 <= k < |before| ==> before[k] == news[k];
      AllNewsCount(ps, base, c, before);
      var counted := Counted(ps, base, c, before);
      assert Fits(ps, base, c, last);
      if counted != [] {
        assert (counted + [last])[..|counted|] == counted;
      } else {
        assert [last][..0] == [] && Top([]) == 0;
      }
    }
  }

  /** Equal but for the time at which an unrequested refund was first recorded. */
  predicate SameButTime(l: Ledger, m: Ledger) {
    && l.reg == m.reg && l.verifications == m.verifications && |l.payments| == |m.payments|
    && forall i :: 0 <= i < |l.payments| ==> l.payments[i].(createdAt := 0) == m.payments[i].(createdAt := 0)
  }

  /** Two histories that both take effect end alike if and only if the same row carries the refund, equally high. */
  lemma {:induction false} DeliveriesAgreeExactly(l: Ledger, base: RefundEvent, c: nat, a: seq<News>, b: seq<News>)
    requires Consistent(l.payments, base, c)
    requires Carrier(l.payments, base, c, a).Some? && Carrier(l.payments, base, c, b).Some?
    ensures var i, j := Carrier(l.payments, base, c, a).value, Carrier(l.payments, base, c, b).value;
            SameButTime(Deliver(l, base, a), Deliver(l, base, b)) <==>
              && i == j
              && Max(Rank(Former(l.payments, i)), Top(Counted(l.payments, base, c, a)))
                 == Max(Rank(Former(l.payments, i)), Top(Counted(l.payments, base, c, b)))
  {
    hide Consistent, Carrier, Counted, Former, Deliver, Top;
    var i, j := Carrier(l.payments, base, c, a), Carrier(l.payments, base, c, b);
    RefundSettlesOnce(l, base, c, a);
    RefundSettlesOnce(l, base, c, b);
    if i == j {
      CarriersAgree(l, base, c, a, b);
    }
  }

  lemma {:induction false} CarriersAgree(l: Ledger, base: RefundEvent, c: nat, a: seq<News>, b: seq<News>)
    requires Consistent(l.payments, base, c)
    requires Carrier(l.payments, base, c, a).Some? && Carrier(l.payments, base, c, a) == Carrier(l.payments, base, c, b)
    ensures var former := Rank(Former(l.payments, Carrier(l.payments, base, c, a).value));
            Max(former, Top(Counted(l.payments, base, c, a))) == Max(former, Top(Counted(l.payments, base, c, b)))
            ==> SameButTime(Deliver(l, base, a), Deliver(l, base, b))
  {
    hide Consistent, Counted, Former, Takes, ClimbAll, Top, Deliver;
    DeliverIsFinal(l, base, c, a);
    DeliverIsFinal(l, base, c, b);
    var x, y := Counted(l.payments, base, c, a), Counted(l.payments, base, c, b);
    var i := Takes(l.payments, base, c, x[0]).value;
    FirstDelivery(l, base, c, x[0]);
    hide Carries;
    ClimbAllIsTop(Former(l.payments, i), x);
    ClimbAllIsTop(Former(l.payments, i), y);
    if ClimbAll(Former(l.payments, i), x) == ClimbAll(Former(l.payments, i), y) {
      SameMoves(l, base, c, i, x[0].at, y[0].at, ClimbAll(Former(l.payments, i), x));
    }
  }

  lemma SameMoves(l: Ledger, base: RefundEvent, c: nat, i: nat, at: int, when: int, s: PaymentStatus)
    requires i <= |l.payments|
    ensures var a := l.(payments := Claim(l.payments, base, c, i, at));
            var b := l.(payments := Claim(l.payments, base, c, i, when));
            SameButTime(MoveTo(a, i, s), MoveTo(b, i, s))
  {
    hide PaidTotals, StatusAfterRefund;
    var a := l.(payments := Claim(l.payments, base, c, i, at));
    var b := l.(payments := Claim(l.payments, base, c, i, when));
    var ps, qs := MoveTo(a, i, s).payments, MoveTo(b, i, s).payments;
    assert |ps| == |qs| && forall j :: 0 <= j < |ps| ==> ps[j].(createdAt := 0) == qs[j].(createdAt := 0);
    SameTotals(ps, qs);
  }

  lemma SameTotals(ps: seq<Payment>, qs: seq<Payment>)
    requires |ps| == |qs| && forall j :: 0 <= j < |ps| ==> ps[j].(createdAt := 0) == qs[j].(createdAt := 0)
    ensures PaidTotals(ps) == PaidTotals(qs)
  {
    forall j | 0 <= j < |ps|
      ensures CapturedAmount(ps[j]) == CapturedAmount(qs[j]) && RefundedAmount(ps[j]) == RefundedAmount(qs[j])
    {
      assert ps[j].(createdAt := 0).status == qs[j].(createdAt := 0).status;
      assert ps[j].(createdAt := 0).kind == qs[j].(createdAt := 0).kind;
      assert ps[j].(createdAt := 0).amount == qs[j].(createdAt := 0).amount;
    }
    SumPointwise(CapturedAmount, ps, qs);
    SumPointwise(RefundedAmount, ps, qs);
  }

  /** The two deliveries say the same, whenever they arrive. */
  predicate SameWords(m: News, n: News) {
    m.status == n.status && m.intent == n.intent
  }

  predicate Said(n: News, news: seq<News>) {
    exists k :: 0 <= k < |news| && SameWords(n, news[k])
  }

  predicate SameNews(a: seq<News>, b: seq<News>) {
    (forall k :: 0 <= k < |a| ==> Said(a[k], b)) && (forall k :: 0 <= k < |b| ==> Said(b[k], a))
  }

  /** Whatever b says is said somewhere in a. */
  lemma Echo(a: seq<News>, b: seq<News>, k: nat) returns (j: nat)
    requires SameNews(a, b) && k < |b|
    ensures j < |a| && SameWords(b[k], a[j])
  {
    assert Said(b[k], a);
    j :| 0 <= j < |a| && SameWords(b[k], a[j]);
  }

  lemma {:induction false} CountedIsEmpty(ps: seq<Payment>, base: RefundEvent, c: nat, news: seq<News>)
    ensures Counted(ps, base, c, news) == [] <==> forall k :: 0 <= k < |news| ==> Takes(ps, base, c, news[k]).None?
  {
    hide Takes;
    if news != [] {
      var before := news[..|news| - 1];
      CountedIsEmpty(ps, base, c, before);
      assert forall k :: 0 <= k < |before| ==> before[k] == news[k];
    }
  }

  lemma {:induction false} TopIsHighest(a: seq<News>, b: seq<News>)
    requires forall k :: 0 <= k < |a| ==> Said(a[k], b)
    ensures Top(a) <= Top(b)
  {
    if a != [] {
      var before := a[..|a| - 1];
      assert forall k :: 0 <= k < |before| ==> before[k] == a[k];
      TopIsHighest(before, b);
      assert Said(a[|a| - 1], b);
      var k :| 0 <= k < |b| && SameWords(a[|a| - 1], b[k]);
      TopHolds(b, k);
    }
  }

  lemma {:induction false} TopHolds(b: seq<News>, k: nat)
    requires k < |b|
    ensures Rank(StatusOf(b[k].status)) <= Top(b)
  {
    if k < |b| - 1 {
      TopHolds(b[..|b| - 1], k);
    }
  }

  lemma NoneTaken(ps: seq<Payment>, base: RefundEvent, c: nat, a: seq<News>, b: seq<News>)
    requires SameNews(a, b) && Carrier(ps, base, c, a).None?
    ensures Carrier(ps, base, c, b).None?
  {
    hide Counted, Takes, SameNews;
    CountedIsEmpty(ps, base, c, a);
    CountedIsEmpty(ps, base, c, b);
    forall k | 0 <= k < |b|
      ensures Takes(ps, base, c, b[k]).None?
    {
      var j := Echo(a, b, k);
      SameWordsSameRow(ps, base, c, b[k], a[j]);
    }
  }

  /** What the carrier ends at: the highest of its former status and the counted news. */
  function Height(ps: seq<Payment>, base: RefundEvent, c: nat, news: seq<News>): nat
    requires Carrier(ps, base, c, news).Some?
  {
    Max(Rank(Former(ps, Carrier(ps, base, c, news).value)), Top(Counted(ps, base, c, news)))
  }

  /**
  The same news, in two orders and with any duplicates, leave the same ledger if and only if the first delivery that
  takes effect takes the same row, a row that carries the id already, the intent it names, or a new row, and that row
  is taken equally high.
  */
  lemma {:induction false} NewsConvergeExactly(l: Ledger, base: RefundEvent, c: nat, a: seq<News>, b: seq<News>)
    requires Consistent(l.payments, base, c) && SameNews(a, b)
    ensures SameButTime(Deliver(l, base, a), Deliver(l, base, b)) <==>
              && Carrier(l.payments, base, c, a) == Carrier(l.payments, base, c, b)
              && (Carrier(l.payments, base, c, a).Some? ==>
                    Height(l.payments, base, c, a) == Height(l.payments, base, c, b))
  {
    hide Consistent, Carrier, Counted, Former, Deliver, Top;
    if Carrier(l.payments, base, c, a).None? {
      NoneTaken(l.payments, base, c, a, b);
      RefundSettlesOnce(l, base, c, a);
      RefundSettlesOnce(l, base, c, b);
    } else if Carrier(l.payments, base, c, b).None? {
      NoneTaken(l.payments, base, c, b, a);
    } else {
      DeliveriesAgreeExactly(l, base, c, a, b);
    }
  }

  /** If the refund fits every intent the news name, it is taken equally high in any order: only the row matters. */
  lemma {:induction false} FittingNewsConvergeExactly(l: Ledger, base: RefundEvent, c: nat, a: seq<News>, b: seq<News>)
    requires Consistent(l.payments, base, c) && SameNews(a, b) && AllFit(l.payments, base, c, a)
    ensures SameButTime(Deliver(l, base, a), Deliver(l, base, b))
            <==> Carrier(l.payments, base, c, a) == Carrier(l.payments, base, c, b)
  {
    hide Consistent, Carrier, Counted, Former, Deliver, AllFit, Top, SameButTime;
    FitsToo(l.payments, base, c, a, b);
    AllNewsCount(l.payments, base, c, a);
    AllNewsCount(l.payments, base, c, b);
    TopIsHighest(a, b);
    TopIsHighest(b, a);
    NewsConvergeExactly(l, base, c, a, b);
  }

  /** All news that can take effect would take the same row: one that carries the id, or one intent they all name. */
  predicate OneRowTaken(ps: seq<Payment>, base: RefundEvent, c: nat, news: seq<News>) {
    forall j, k :: 0 <= j < |news| && 0 <= k < |news|
                   && Takes(ps, base, c, news[j]).Some? && Takes(ps, base, c, news[k]).Some?
                   ==> Takes(ps, base, c, news[j]) == Takes(ps, base, c, news[k])
  }

  /** The news that can take effect when they are first (taking), or those that then have none. */
  function Sifted(ps: seq<Payment>, base: RefundEvent, c: nat, news: seq<News>, taking: bool): (r: seq<News>)
    ensures forall n :: n in r <==> n in news && Takes(ps, base, c, n).Some? == taking
  {
    if news == [] then []
    else
      var before, last := news[..|news| - 1], news[|news| - 1];
      assert news == before + [last];
      Sifted(ps, base, c, before, taking) + if Takes(ps, base, c, last).Some? == taking then [last] else []
  }

  /** News that may be passed over report nothing higher than the others do and the row already is. */
  predicate NothingIsLost(ps: seq<Payment>, base: RefundEvent, c: nat, news: seq<News>) {
    forall j, k :: 0 <= j < |news| && 0 <= k < |news|
                   && Takes(ps, base, c, news[j]).Some? && Takes(ps, base, c, news[k]).None?
                   ==> Rank(StatusOf(news[k].status))
                       <= Max(Rank(Former(ps, Takes(ps, base, c, news[j]).value)), Top(Sifted(ps, base, c, news, true)))
  }

  ghost predicate EveryOrderAgrees(l: Ledger, base: RefundEvent, news: seq<News>) {
    forall other :: SameNews(news, other) ==> SameButTime(Deliver(l, base, news), Deliver(l, base, other))
  }

  /**
  Order and duplication of some news make no difference if and only if all that can take effect take one row, and
  those that may be passed over report nothing higher.
  */
  lemma {:induction false} EveryOrderAgreesExactly(l: Ledger, base: RefundEvent, c: nat, news: seq<News>)
    requires Consistent(l.payments, base, c)
    ensures EveryOrderAgrees(l, base, news) <==>
              OneRowTaken(l.payments, base, c, news) && NothingIsLost(l.payments, base, c, news)
  {
    hide Consistent, Takes, Deliver, SameButTime, Height, Former, Sifted;
    var ps := l.payments;
    if OneRowTaken(ps, base, c, news) && NothingIsLost(ps, base, c, news) {
      SameNewsAsItself(news);
      forall other | SameNews(news, other)
        ensures SameButTime(Deliver(l, base, news), Deliver(l, base, other))
      {
        OneRowOneCarrier(ps, base, c, news, other);
        NewsConvergeExactly(l, base, c, news, other);
        if Carrier(ps, base, c, news).Some? {
          HeightOfAnyOrder(ps, base, c, news, news);
          HeightOfAnyOrder(ps, base, c, news, other);
        }
      }
    } else if j, k :| 0 <= j < |news| && 0 <= k < |news|
                      && Takes(ps, base, c, news[j]).Some? && Takes(ps, base, c, news[k]).Some?
                      && Takes(ps, base, c, news[j]) != Takes(ps, base, c, news[k]) {
      EarlierWins(l, base, c, news, j);
      EarlierWins(l, base, c, news, k);
    } else {
      var j, k :| 0 <= j < |news| && 0 <= k < |news|
                  && Takes(ps, base, c, news[j]).Some? && Takes(ps, base, c, news[k]).None?
                  && Rank(StatusOf(news[k].status))
                     > Max(Rank(Former(ps, Takes(ps, base, c, news[j]).value)), Top(Sifted(ps, base, c, news, true)));
      if EveryOrderAgrees(l, base, news) {
        EarlierWins(l, base, c, news, j);
        PassedFirst(l, base, c, news, j);
        TopHolds([news[j]] + news, k + 1);
        assert false;
      }
    }
  }

  lemma SameNewsAsItself(news: seq<News>)
    ensures SameNews(news, news)
  {
    forall k | 0 <= k < |news|
      ensures Said(news[k], news)
    {
      assert SameWords(news[k], news[k]);
    }
  }

  lemma {:induction false} TopIsBounded(news: seq<News>, bound: nat)
    requires forall n :: n in news ==> Rank(StatusOf(n.status)) <= bound
    ensures Top(news) <= bound
  {
    if news != [] {
      TopIsBounded(news[..|news| - 1], bound);
    }
  }

  lemma {:induction false} CountedAreNews(ps: seq<Payment>, base: RefundEvent, c: nat, news: seq<News>)
    ensures forall n :: n in Counted(ps, base, c, news) ==> n in news
    ensures forall n :: n in news && Takes(ps, base, c, n).Some? ==> n in Counted(ps, base, c, news)
  {
    hide Takes;
    if news != [] {
      CountedAreNews(ps, base, c, news[..|news| - 1]);
      assert news == news[..|news| - 1] + [news[|news| - 1]];
    }
  }

  /** Some news say what n says. */
  lemma Repeated(n: News, news: seq<News>) returns (m: News)
    requires Said(n, news)
    ensures m in news && SameWords(n, m)
  {
    var k :| 0 <= k < |news| && SameWords(n, news[k]);
    m := news[k];
  }

  lemma SaidIfIn(n: News, m: News, news: seq<News>)
    requires m in news && SameWords(n, m)
    ensures Said(n, news)
  {
    var k :| 0 <= k < |news| && news[k] == m;
    assert SameWords(n, news[k]);
  }

  lemma SaidInOther(n: News, a: seq<News>, b: seq<News>)
    requires SameNews(a, b)
    ensures n in a ==> Said(n, b)
    ensures n in b ==> Said(n, a)
  {
  }

  /** In any order of the news the carrier ends equally high. */
  lemma {:induction false} HeightOfAnyOrder(ps: seq<Payment>, base: RefundEvent, c: nat, news: seq<News>, a: seq<News>)
    requires SameNews(news, a) && NothingIsLost(ps, base, c, news) && OneRowTaken(ps, base, c, news)
    requires Carrier(ps, base, c, a).Some?
    ensures Height(ps, base, c, a)
         == Max(Rank(Former(ps, Carrier(ps, base, c, a).value)), Top(Sifted(ps, base, c, news, true)))
  {
    hide Takes, Former, SameNews, SameWords, Said, Counted, Top;
    var counted, taking := Counted(ps, base, c, a), Sifted(ps, base, c, news, true);
    CountedAreNews(ps, base, c, a);
    forall k | 0 <= k < |taking|
      ensures Said(taking[k], counted)
    {
      assert taking[k] in taking;
      SaidInOther(taking[k], news, a);
      var m := Repeated(taking[k], a);
      SameWordsSameRow(ps, base, c, taking[k], m);
      SaidIfIn(taking[k], m, counted);
    }
    TopIsHighest(taking, counted);
    var first := counted[0];
    assert first in counted;
    SaidInOther(first, news, a);
    var taker := Repeated(first, news);
    SameWordsSameRow(ps, base, c, first, taker);
    var bound := Max(Rank(Former(ps, Carrier(ps, base, c, a).value)), Top(taking));
    forall n | n in counted
      ensures Rank(StatusOf(n.status)) <= bound
    {
      SaidInOther(n, news, a);
      var m := Repeated(n, news);
      SameStatus(n, m);
      if Takes(ps, base, c, m).Some? {
        assert m in taking;
        var k :| 0 <= k < |taking| && taking[k] == m;
        TopHolds(taking, k);
      } else {
        LostAt(ps, base, c, news, taker, m);
      }
    }
    TopIsBounded(counted, bound);
  }

  lemma SameStatus(m: News, n: News)
    requires SameWords(m, n)
    ensures m.status == n.status
  {
  }

  lemma {:induction false} LostAt(ps: seq<Payment>, base: RefundEvent, c: nat, news: seq<News>, taker: News, passed: News)
    requires NothingIsLost(ps, base, c, news) && taker in news && passed in news
    requires Takes(ps, base, c, taker).Some? && Takes(ps, base, c, passed).None?
    ensures Rank(StatusOf(passed.status))
            <= Max(Rank(Former(ps, Takes(ps, base, c, taker).value)), Top(Sifted(ps, base, c, news, true)))
  {
    hide Takes, Former, Top, Sifted;
    var j :| 0 <= j < |news| && news[j] == taker;
    var k :| 0 <= k < |news| && news[k] == passed;
    assert Takes(ps, base, c, news[j]).Some? && Takes(ps, base, c, news[k]).None?;
  }

  /** If all orders agree, delivering first what is passed over makes no difference either. */
  lemma {:induction false} PassedFirst(l: Ledger, base: RefundEvent, c: nat, news: seq<News>, j: nat)
    requires Consistent(l.payments, base, c) && EveryOrderAgrees(l, base, news)
    requires j < |news| && Takes(l.payments, base, c, news[j]).Some?
    ensures var former := Rank(Former(l.payments, Takes(l.payments, base, c, news[j]).value));
            Max(former, Top([news[j]] + news)) == Max(former, Top(Sifted(l.payments, base, c, news, true)))
  {
    hide Consistent, Takes, Deliver, SameButTime, Named, Counted, Former, Sifted, EveryOrderAgrees;
    var ps := l.payments;
    var first := [news[j]] + news;
    var passed, taking := Sifted(ps, base, c, news, false), Sifted(ps, base, c, news, true);
    var last := passed + taking;
    SameWithFirst(news, j);
    forall n | n in news
      ensures n in last
    {
    }
    SameMembers(news, last);
    OrdersAgree(l, base, news, first);
    OrdersAgree(l, base, news, last);
    CountedFromFirst(ps, base, c, news[j], news);
    assert news[j] in taking;
    CountedLast(ps, base, c, passed, taking);
    NewsConvergeExactly(l, base, c, news, first);
    NewsConvergeExactly(l, base, c, news, last);
  }

  lemma {:induction false} OrdersAgree(l: Ledger, base: RefundEvent, news: seq<News>, other: seq<News>)
    requires EveryOrderAgrees(l, base, news) && SameNews(news, other)
    ensures SameButTime(Deliver(l, base, news), Deliver(l, base, other))
  {
  }

  lemma SameMembers(a: seq<News>, b: seq<News>)
    requires forall n :: n in a <==> n in b
    ensures SameNews(a, b)
  {
    forall k | 0 <= k < |a|
      ensures Said(a[k], b)
    {
      SaidIfIn(a[k], a[k], b);
    }
    forall k | 0 <= k < |b|
      ensures Said(b[k], a)
    {
      SaidIfIn(b[k], b[k], a);
    }
  }

  lemma SameWithFirst(news: seq<News>, j: nat)
    requires j < |news|
    ensures SameNews(news, [news[j]] + news)
  {
    SameMembers(news, [news[j]] + news);
  }

  lemma {:induction false} CountedLast(ps: seq<Payment>, base: RefundEvent, c: nat, passed: seq<News>, taking: seq<News>)
    requires forall n :: n in passed ==> Takes(ps, base, c, n).None?
    requires forall n :: n in taking ==> Takes(ps, base, c, n).Some?
    ensures Counted(ps, base, c, passed + taking) == taking
  {
    hide Takes;
    var news := passed + taking;
    if taking == [] {
      assert news == passed;
      CountedIsEmpty(ps, base, c, passed);
    } else {
      var before := taking[..|taking| - 1];
      assert news[..|news| - 1] == passed + before;
      CountedLast(ps, base, c, passed, before);
      assert taking == before + [taking[|taking| - 1]];
      assert taking[|taking| - 1] in taking;
    }
  }

  /** Delivering one of the news ahead of all the others gives it the choice of the row. */
  lemma EarlierWins(l: Ledger, base: RefundEvent, c: nat, news: seq<News>, j: nat)
    requires Consistent(l.payments, base, c)
    requires j < |news| && Takes(l.payments, base, c, news[j]).Some?
    ensures EveryOrderAgrees(l, base, news) ==>
              Carrier(l.payments, base, c, news) == Takes(l.payments, base, c, news[j])
  {
    hide Consistent, Takes, Deliver, SameButTime, Named, Counted, Height;
    var first := [news[j]] + news;
    SameWithFirst(news, j);
    NewsConvergeExactly(l, base, c, news, first);
    CountedFromFirst(l.payments, base, c, news[j], news);
  }

  lemma {:induction false} CountedFromFirst(ps: seq<Payment>, base: RefundEvent, c: nat, first: News, rest: seq<News>)
    requires Takes(ps, base, c, first).Some?
    ensures Counted(ps, base, c, [first] + rest) == [first] + rest
  {
    hide Takes;
    var news := [first] + rest;
    if rest == [] {
      assert news == [first] && news[..0] == [];
    } else {
      var before := rest[..|rest| - 1];
      assert news[..|news| - 1] == [first] + before;
      CountedFromFirst(ps, base, c, first, before);
      assert news == ([first] + before) + [rest[|rest| - 1]];
    }
  }

  lemma FitsToo(ps: seq<Payment>, base: RefundEvent, c: nat, a: seq<News>, b: seq<News>)
    requires SameNews(a, b) && AllFit(ps, base, c, a)
    ensures AllFit(ps, base, c, b)
  {
    hide SameNews, Fits;
    forall k | 0 <= k < |b|
      ensures Fits(ps, base, c, b[k])
    {
      var j := Echo(a, b, k);
      SameWordsSameRow(ps, base, c, b[k], a[j]);
    }
  }

  lemma {:induction false} CountedStarts(ps: seq<Payment>, base: RefundEvent, c: nat, news: seq<News>)
    requires Counted(ps, base, c, news) != []
    ensures exists k :: 0 <= k < |news| && news[k] == Counted(ps, base, c, news)[0]
  {
    hide Takes;
    var before := news[..|news| - 1];
    if Counted(ps, base, c, before) != [] {
      CountedStarts(ps, base, c, before);
      var k :| 0 <= k < |before| && before[k] == Counted(ps, base, c, before)[0];
      assert news[k] == Counted(ps, base, c, news)[0];
    } else {
      assert news[|news| - 1] == Counted(ps, base, c, news)[0];
    }
  }

  lemma CarrierIsTaken(ps: seq<Payment>, base: RefundEvent, c: nat, news: seq<News>) returns (j: nat)
    requires Carrier(ps, base, c, news).Some?
    ensures j < |news| && Takes(ps, base, c, news[j]) == Carrier(ps, base, c, news)
  {
    hide Takes;
    CountedStarts(ps, base, c, news);
    j :| 0 <= j < |news| && news[j] == Counted(ps, base, c, news)[0];
  }

  lemma OneRowOneCarrier(ps: seq<Payment>, base: RefundEvent, c: nat, a: seq<News>, b: seq<News>)
    requires SameNews(a, b) && OneRowTaken(ps, base, c, a)
    ensures Carrier(ps, base, c, a) == Carrier(ps, base, c, b)
  {
    assert SameNews(b, a);
    hide Carrier, Takes, SameNews;
    if Carrier(ps, base, c, a).None? {
      NoneTaken(ps, base, c, a, b);
    } else if Carrier(ps, base, c, b).None? {
      NoneTaken(ps, base, c, b, a);
    } else {
      var j := CarrierIsTaken(ps, base, c, a);
      var k := CarrierIsTaken(ps, base, c, b);
      var i := Echo(a, b, k);
      SameWordsSameRow(ps, base, c, b[k], a[i]);
      assert Takes(ps, base, c, a[i]).Some? && Takes(ps, base, c, a[j]).Some?;
    }
  }

  lemma SameWordsSameRow(ps: seq<Payment>, base: RefundEvent, c: nat, m: News, n: News)
    requires SameWords(m, n)
    ensures Takes(ps, base, c, m) == Takes(ps, base, c, n)
    ensures Fits(ps, base, c, m) == Fits(ps, base, c, n)
  {
  }
}
