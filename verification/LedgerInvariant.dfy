/** What every billing transaction keeps, and how far it may move the rows. */
module LedgerInvariant {
  import opened Common
  import opened Billing
  import opened FeeResolver
  import opened PaidState
  import opened RefundAllocation
  import opened LedgerSteps

  // ---- How rows may change -----------------------------------------------------------------

  function Rank(s: PaymentStatus): nat {
    match s
    case Created => 0
    case Authorized => 0
    case Failed => 1
    case Captured => 2
    case RefundDone => 2
    case RefundPartial => 2
  }

  predicate WriteOnce<T(==)>(before: Option<T>, after: Option<T>) {
    before.Some? ==> after == before
  }

  /** A row only climbs CREATED < FAILED < CAPTURED or REFUNDED; its money and identity never change. */
  predicate RowEvolves(p: Payment, q: Payment) {
    && q.kind == p.kind && q.amount == p.amount && q.currency == p.currency
    && q.key == p.key && q.reason == p.reason && q.createdAt == p.createdAt
    && WriteOnce(p.orderId, q.orderId) && WriteOnce(p.providerId, q.providerId) && WriteOnce(p.refundOf, q.refundOf)
    && Rank(p.status) <= Rank(q.status)
    && (Rank(p.status) == 2 ==> q.status == p.status)
  }

  predicate RowsEvolve(ps: seq<Payment>, qs: seq<Payment>) {
    |ps| <= |qs| && forall i :: 0 <= i < |ps| ==> RowEvolves(ps[i], qs[i])
  }

  /** Once the price is locked, the amount owed is the locked amount or the locked regular amount. */
  predicate PriceKept(r: Registration, s: Registration) {
    r.lockedTiming.Some? ==>
      && s.lockedTiming == r.lockedTiming
      && s.currency == r.currency
      && s.regularAmountDue == r.regularAmountDue
      && s.isAdditionalPaper == r.isAdditionalPaper
      && (s.amountDue == r.amountDue || Some(s.amountDue) == r.regularAmountDue)
  }

  predicate ClosedKept(r: Registration, s: Registration) {
    r.lockedTiming.Some? && IsClosed(r.status) ==> IsClosed(s.status)
  }

  predicate HasSettled(ps: seq<Payment>) {
    RowWhere(ps, IsSettled).Some?
  }

  /** What any number of transactions may have done between two ledgers. */
  predicate Advances(l: Ledger, m: Ledger) {
    && RowsEvolve(l.payments, m.payments)
    && PriceKept(l.reg, m.reg)
    && ClosedKept(l.reg, m.reg)
    && WriteOnce(l.reg.payer, m.reg.payer)
    && l.reg.version <= m.reg.version
    && (l.reg.version == m.reg.version ==> m.reg == l.reg && HasSettled(m.payments) == HasSettled(l.payments))
  }

  lemma RowsTransitive(ps: seq<Payment>, qs: seq<Payment>, rs: seq<Payment>)
    requires RowsEvolve(ps, qs) && RowsEvolve(qs, rs)
    ensures RowsEvolve(ps, rs)
  {
    forall i | 0 <= i < |ps|
      ensures RowEvolves(ps[i], rs[i])
    {
      assert RowEvolves(ps[i], qs[i]) && RowEvolves(qs[i], rs[i]);
    }
  }

  lemma AdvancesTransitive(l: Ledger, m: Ledger, n: Ledger)
    requires Advances(l, m) && Advances(m, n)
    ensures Advances(l, n)
  {
    RowsTransitive(l.payments, m.payments, n.payments);
  }

  // ---- What holds in every state -----------------------------------------------------------

  predicate CheckoutOk(p: Payment) {
    && p.refundOf.None?
    && p.amount >= MIN_PAYABLE
    && (p.status == Created || p.status == Failed || p.status == Captured)
    && (p.providerId.Some? <==> p.status == Captured)
    && (p.status == Captured ==> p.orderId.Some?)
  }

  predicate RefundOk(p: Payment, ps: seq<Payment>) {
    && p.orderId.None?
    && p.amount > 0
    && (p.status == Created || p.status == Failed || p.status == RefundDone)
    && (p.status == RefundDone ==> p.providerId.Some?)
    && p.refundOf.Some?
    && p.refundOf.value < |ps|
    && ps[p.refundOf.value].kind != Refund
    && ps[p.refundOf.value].status == Captured
    && p.amount <= ps[p.refundOf.value].amount
  }

  predicate RowOk(ps: seq<Payment>, i: nat)
    requires i < |ps|
  {
    if ps[i].kind == Refund then RefundOk(ps[i], ps) else CheckoutOk(ps[i])
  }

  predicate RowsOk(ps: seq<Payment>) {
    forall i {:trigger RowOk(ps, i)} :: 0 <= i < |ps| ==> RowOk(ps, i)
  }

  predicate UniqueIds(ps: seq<Payment>) {
    && (forall i, j :: 0 <= i < j < |ps| && ps[i].providerId.Some? ==> ps[i].providerId != ps[j].providerId)
    && (forall i, j :: 0 <= i < j < |ps| && ps[i].orderId.Some? ==> ps[i].orderId != ps[j].orderId)
  }

  /** Every row is in the registration's currency, so that the currency-blind net makes sense. */
  predicate OneCurrency(reg: Registration, ps: seq<Payment>) {
    forall i :: 0 <= i < |ps| ==> ps[i].currency == reg.currency
  }

  predicate PriceOk(reg: Registration, ps: seq<Payment>) {
    if reg.lockedTiming.Some? then
      && Chargeable(reg.amountDue)
      && reg.regularAmountDue.Some? && Chargeable(reg.regularAmountDue.value)
      && OneCurrency(reg, ps)
    else
      && ps == [] && reg.amountDue == 0 && reg.regularAmountDue.None?
      && (reg.status == Pending || reg.status == Cancelled || reg.status == DiscardedNonpayment)
  }

  /** Before the first capture every checkout asks for exactly the amount due. */
  predicate PendingOk(reg: Registration, ps: seq<Payment>) {
    reg.status == Pending ==>
      forall i :: 0 <= i < |ps| ==> ps[i].kind == Initial && ps[i].amount == reg.amountDue && ps[i].status != Captured
  }

  predicate IsPaidStatus(status: RegistrationStatus) {
    status == Paid || status == AwaitingVerification
  }

  predicate CoveredOk(reg: Registration, ps: seq<Payment>) {
    IsPaidStatus(reg.status) ==> Net(ps) >= reg.amountDue
  }

  /** Intents are recorded under versions the registration has already left behind. */
  predicate IntentsOk(reg: Registration, ps: seq<Payment>) {
    forall i :: 0 <= i < |ps| && ps[i].kind == Refund && ps[i].key.Some? && ps[i].key.value.RefundKey? ==>
      ps[i].key.value.version < reg.version
  }

  predicate LedgerOk(l: Ledger) {
    && RowsOk(l.payments)
    && UniqueIds(l.payments)
    && PriceOk(l.reg, l.payments)
    && PendingOk(l.reg, l.payments)
    && CoveredOk(l.reg, l.payments)
    && IntentsOk(l.reg, l.payments)
  }

  // ---- Rows --------------------------------------------------------------------------------

  /** Rows that evolve and are each fine on their own are fine together. */
  lemma RowsStayOk(ps: seq<Payment>, qs: seq<Payment>)
    requires RowsOk(ps) && RowsEvolve(ps, qs)
    requires forall i :: 0 <= i < |qs| && (i >= |ps| || qs[i] != ps[i]) ==> RowOk(qs, i)
    ensures RowsOk(qs)
  {
    forall i | 0 <= i < |qs|
      ensures RowOk(qs, i)
    {
      if i < |ps| && qs[i] == ps[i] {
        assert RowOk(ps, i);
        if ps[i].kind == Refund {
          assert RowEvolves(ps[ps[i].refundOf.value], qs[ps[i].refundOf.value]);
        }
      }
    }
  }

  lemma AppendRow(ps: seq<Payment>, p: Payment)
    requires RowsOk(ps) && UniqueIds(ps)
    requires if p.kind == Refund then RefundOk(p, ps) else CheckoutOk(p)
    requires p.orderId.None?
    requires p.providerId.Some? ==> forall j :: 0 <= j < |ps| ==> ps[j].providerId != p.providerId
    ensures RowsOk(ps + [p]) && UniqueIds(ps + [p]) && RowsEvolve(ps, ps + [p])
  {
    var qs := ps + [p];
    assert RowOk(qs, |ps|);
    RowsStayOk(ps, qs);
  }

  lemma ChangeRow(ps: seq<Payment>, i: nat, p: Payment)
    requires RowsOk(ps) && UniqueIds(ps) && i < |ps| && RowEvolves(ps[i], p)
    requires if p.kind == Refund then RefundOk(p, ps) else CheckoutOk(p)
    requires p.orderId != ps[i].orderId ==> forall j :: 0 <= j < |ps| ==> ps[j].orderId != p.orderId
    requires p.providerId != ps[i].providerId ==> forall j :: 0 <= j < |ps| ==> ps[j].providerId != p.providerId
    ensures RowsOk(ps[i := p]) && UniqueIds(ps[i := p]) && RowsEvolve(ps, ps[i := p])
  {
    var qs := ps[i := p];
    assert RowOk(qs, i) by {
      if p.kind == Refund {
        assert p.refundOf.value != i;
      }
    }
    RowsStayOk(ps, qs);
  }

  /** The part of Advances that concerns the registration alone. */
  predicate RegAdvances(r: Registration, s: Registration) {
    && PriceKept(r, s) && ClosedKept(r, s) && WriteOnce(r.payer, s.payer)
    && (s == r || r.version < s.version)
  }

  predicate RegOk(reg: Registration, ps: seq<Payment>) {
    PriceOk(reg, ps) && PendingOk(reg, ps) && CoveredOk(reg, ps)
  }

  lemma SameRows(l: Ledger, m: Ledger)
    requires LedgerOk(l) && m.payments == l.payments && RegOk(m.reg, l.payments) && RegAdvances(l.reg, m.reg)
    ensures LedgerOk(m) && Advances(l, m)
  {
  }

  lemma RowAt(ps: seq<Payment>, i: nat)
    requires RowsOk(ps) && i < |ps|
    ensures RowOk(ps, i)
  {
  }

  lemma RowsReflexive(ps: seq<Payment>)
    ensures RowsEvolve(ps, ps)
  {
  }

  lemma SettledUpdate(ps: seq<Payment>, i: nat, p: Payment)
    requires i < |ps| && IsSettled(p) == IsSettled(ps[i])
    ensures HasSettled(ps[i := p]) == HasSettled(ps)
  {
    var qs := ps[i := p];
    if HasSettled(qs) {
      var k := RowWhere(qs, IsSettled).value;
      assert IsSettled(ps[k]);
    }
    if HasSettled(ps) {
      var k := RowWhere(ps, IsSettled).value;
      assert IsSettled(qs[k]);
    }
  }

  lemma SettledAppend(ps: seq<Payment>, p: Payment)
    requires !IsSettled(p)
    ensures HasSettled(ps + [p]) == HasSettled(ps)
  {
    var qs := ps + [p];
    if HasSettled(qs) {
      var k := RowWhere(qs, IsSettled).value;
      assert IsSettled(ps[k]);
    }
    if HasSettled(ps) {
      var k := RowWhere(ps, IsSettled).value;
      assert IsSettled(qs[k]);
    }
  }

  /** With nothing captured there is nothing to refund, so the net is zero. */
  lemma NothingCaptured(ps: seq<Payment>)
    requires RowsOk(ps)
    requires forall i :: 0 <= i < |ps| ==> ps[i].status != Captured
    ensures Net(ps) == 0
    ensures forall i :: 0 <= i < |ps| ==> ps[i].kind != Refund
  {
    forall i | 0 <= i < |ps|
      ensures ps[i].kind != Refund
    {
      assert RowOk(ps, i);
    }
    SumZero(CapturedAmount, ps);
    SumZero(RefundedAmount, ps);
  }

  // ---- Checkout ----------------------------------------------------------------------------

  /** What initiatePayment read agrees with the registration as long as the version has not moved. */
  predicate AttemptOk(reg: Registration, attempt: Attempt) {
    && attempt.snapshot.version <= reg.version
    && (attempt.snapshot.version == reg.version ==> attempt.snapshot == reg)
    && (attempt.quote.Some? <==> NeedsQuote(attempt.snapshot))
    && (attempt.quote.Some? ==> ValidQuote(attempt.quote.value))
  }

  lemma FailPending(l: Ledger, i: nat)
    requires LedgerOk(l) && i < |l.payments| && l.payments[i].status == Created
    ensures var failed := l.payments[i := l.payments[i].(status := Failed)];
            && RowsOk(failed) && UniqueIds(failed) && RowsEvolve(l.payments, failed)
            && Net(failed) == Net(l.payments)
            && RegOk(l.reg, failed) && IntentsOk(l.reg, failed)
  {
    assert RowOk(l.payments, i);
    ChangeRow(l.payments, i, l.payments[i].(status := Failed));
    NetUpdate(l.payments, i, l.payments[i].(status := Failed));
  }

  /** Appending the new checkout once the rows before it are in order. */
  lemma CheckoutAppends(l: Ledger, ps: seq<Payment>, user: nat, key: Key, attempt: Attempt, now: int)
    requires LedgerOk(l) && AttemptOk(l.reg, attempt)
    requires RowsOk(ps) && UniqueIds(ps) && RowsEvolve(l.payments, ps) && |ps| == |l.payments|
    requires RegOk(l.reg, ps) && IntentsOk(l.reg, ps)
    requires IsPayable(l.reg.status) && l.reg.version == attempt.snapshot.version
    requires l.reg.payer.Some? ==> l.reg.payer == Some(user)
    requires CheckoutRow(l.reg, attempt, Net(ps), key, now).amount >= MIN_PAYABLE
    ensures var m := l.(reg := LockPrice(l.reg, user, attempt.quote),
                        payments := ps + [CheckoutRow(l.reg, attempt, Net(ps), key, now)]);
            LedgerOk(m) && Advances(l, m)
  {
    hide RowsOk, UniqueIds, RowsEvolve, HasSettled, PaidTotals;
    var row := CheckoutRow(l.reg, attempt, Net(ps), key, now);
    AppendRow(ps, row);
    NetAppend(ps, row);
    RowsTransitive(l.payments, ps, ps + [row]);
    assert RegOk(LockPrice(l.reg, user, attempt.quote), ps + [row]);
  }

  lemma LedgerParts(l: Ledger)
    requires LedgerOk(l)
    ensures RowsOk(l.payments) && UniqueIds(l.payments) && RegOk(l.reg, l.payments) && IntentsOk(l.reg, l.payments)
    ensures Advances(l, l) && RowsEvolve(l.payments, l.payments)
  {
  }

  lemma ReserveKeeps(l: Ledger, user: nat, key: Key, keyElsewhere: bool, billingReady: bool, attempt: Attempt, now: int)
    requires LedgerOk(l) && AttemptOk(l.reg, attempt)
    ensures var m := ReserveCheckout(l, user, key, keyElsewhere, billingReady, attempt, now).0;
            LedgerOk(m) && Advances(l, m)
  {
    hide LedgerOk, Advances, RowsOk, UniqueIds, RowsEvolve, RegOk, IntentsOk, AttemptOk, PaidTotals, RowWhere, LockPrice;
    LedgerParts(l);
    var step := ReserveCheckout(l, user, key, keyElsewhere, billingReady, attempt, now);
    if step.1 == Applied {
      var pending := NewestCreated(l.payments);
      if pending.Some? {
        FailPending(l, pending.value);
        CheckoutAppends(l, l.payments[pending.value := l.payments[pending.value].(status := Failed)], user, key, attempt, now);
      } else {
        CheckoutAppends(l, l.payments, user, key, attempt, now);
      }
    }
  }

  lemma SaveOrderKeeps(l: Ledger, row: nat, orderId: string)
    requires LedgerOk(l)
    requires row < |l.payments| && l.payments[row].kind != Refund && l.payments[row].orderId.None?
    requires forall i :: 0 <= i < |l.payments| ==> l.payments[i].orderId != Some(orderId)
    ensures LedgerOk(AttachOrder(l, row, orderId)) && Advances(l, AttachOrder(l, row, orderId))
  {
    var m := AttachOrder(l, row, orderId);
    assert RowOk(l.payments, row);
    RowsStayOk(l.payments, m.payments);
    NetUpdate(l.payments, row, m.payments[row]);
    SettledUpdate(l.payments, row, m.payments[row]);
  }

  lemma OrderFailsKeeps(l: Ledger, row: nat)
    requires LedgerOk(l)
    requires row < |l.payments| && l.payments[row].kind != Refund && l.payments[row].orderId.None?
    ensures LedgerOk(FailOrder(l, row)) && Advances(l, FailOrder(l, row))
  {
    var m := FailOrder(l, row);
    assert RowOk(l.payments, row);
    RowsStayOk(l.payments, m.payments);
    NetUpdate(l.payments, row, m.payments[row]);
    SettledUpdate(l.payments, row, m.payments[row]);
  }

  // ---- Capture -----------------------------------------------------------------------------

  lemma CaptureKeeps(l: Ledger, ev: CaptureEvent, schedule: Option<Schedule>, eligible: bool, elsewhere: bool)
    requires LedgerOk(l)
    ensures var m := ProcessCapture(l, ev, schedule, eligible, elsewhere).0;
            LedgerOk(m) && Advances(l, m)
  {
    hide RowsOk, UniqueIds, RowsEvolve, HasSettled, PaidTotals, Reprice;
    LedgerParts(l);
    var step := ProcessCapture(l, ev, schedule, eligible, elsewhere);
    if step.1 == Applied {
      var i := RowWhere(l.payments, HasOrder(ev.orderId)).value;
      RowAt(l.payments, i);
      var row := step.0.payments[i];
      ChangeRow(l.payments, i, row);
      NetUpdate(l.payments, i, row);
      if l.reg.status == Pending {
        NothingCaptured(l.payments);
      }
    }
  }

  // ---- Refunds -----------------------------------------------------------------------------

  /** Intents only add CREATED refund rows, so they move neither the net nor any older row. */
  lemma {:induction false} IntentsAddNothing(ps: seq<Payment>, rows: seq<Payment>)
    requires forall k :: 0 <= k < |rows| ==> rows[k].kind == Refund && rows[k].status == Created
    ensures Net(ps + rows) == Net(ps)
  {
    SumConcat(CapturedAmount, ps, rows);
    SumConcat(RefundedAmount, ps, rows);
    SumZero(CapturedAmount, rows);
    SumZero(RefundedAmount, rows);
  }

  lemma NoUnlinked(ps: seq<Payment>)
    requires RowsOk(ps)
    ensures Unlinked(ps) == 0
  {
    forall i | 0 <= i < |ps|
      ensures UnlinkedAmount(ps[i]) == 0
    {
      assert RowOk(ps, i);
    }
    SumZero(UnlinkedAmount, ps);
  }

  lemma LinkedNonNegative(ps: seq<Payment>, c: nat)
    requires RowsOk(ps)
    ensures Linked(ps, c) >= 0
  {
    forall i | 0 <= i < |ps|
      ensures LinkedTo(c)(ps[i]) >= 0
    {
      assert RowOk(ps, i);
    }
    SumNonNegative(LinkedTo(c), ps);
  }

  lemma {:induction false} IntentRowsOk(ps: seq<Payment>, parts: seq<Allocation>, version: int, reason: string,
                                        now: int)
    requires RowsOk(ps) && UniqueIds(ps) && Fits(ps, 0, parts)
    ensures var qs := ps + IntentRows(ps, parts, version, reason, now);
            RowsOk(qs) && UniqueIds(qs) && RowsEvolve(ps, qs)
  {
    var rows := IntentRows(ps, parts, version, reason, now);
    var qs := ps + rows;
    forall i | |ps| <= i < |qs|
      ensures RowOk(qs, i)
    {
      var k := i - |ps|;
      var c := parts[k].capture;
      LinkedNonNegative(ps, c);
      assert qs[i] == IntentRow(ps, parts[k], version, reason, now);
      assert qs[c] == ps[c];
    }
    RowsStayOk(ps, qs);
  }

  lemma {:induction false} IntentsAppend(l: Ledger, parts: seq<Allocation>, version: int, reason: string, now: int)
    requires LedgerOk(l) && l.reg.version == version
    requires parts != [] && Fits(l.payments, 0, parts)
    ensures var m := l.(reg := l.reg.(version := version + 1),
                        payments := l.payments + IntentRows(l.payments, parts, version, reason, now));
            LedgerOk(m) && Advances(l, m)
  {
    hide RowsOk, UniqueIds, RowsEvolve, HasSettled, PaidTotals, RegOk, IntentRows;
    var ps, rows := l.payments, IntentRows(l.payments, parts, version, reason, now);
    LedgerParts(l);
    IntentRowsOk(ps, parts, version, reason, now);
    IntentsAddNothing(ps, rows);
    var c := parts[0].capture;
    assert ps[c].status == Captured;
    NewIntentsRegOk(l.reg, ps, rows, c);
  }

  /** New intents in the registration's currency leave its price and status in order. */
  lemma NewIntentsRegOk(reg: Registration, ps: seq<Payment>, rows: seq<Payment>, c: nat)
    requires RegOk(reg, ps) && c < |ps| && ps[c].status == Captured && Net(ps + rows) == Net(ps)
    requires forall k :: 0 <= k < |rows| ==>
               exists j :: 0 <= j < |ps| && rows[k].currency == ps[j].currency
    ensures RegOk(reg.(version := reg.version + 1), ps + rows)
  {
    hide PaidTotals;
    forall i | 0 <= i < |ps + rows|
      ensures (ps + rows)[i].currency == reg.currency
    {
      if i >= |ps| {
        var j :| 0 <= j < |ps| && rows[i - |ps|].currency == ps[j].currency;
      }
    }
  }

  lemma RequestKeeps(l: Ledger, amount: int, reason: string, version: int, now: int)
    requires LedgerOk(l)
    ensures var m := RequestRefund(l, amount, reason, version, now).0;
            LedgerOk(m) && Advances(l, m)
  {
    var step := RequestRefund(l, amount, reason, version, now);
    if step.1 == Applied {
      NoUnlinked(l.payments);
      AllocationSound(l.payments, amount);
      IntentsAppend(l, Allocate(l.payments, amount).value, version, reason, now);
    } else {
      RowsReflexive(l.payments);
    }
  }

  /** The registration after a refund event, once the rows are in order. */
  lemma SettleKeeps(l: Ledger, qs: seq<Payment>, status: PaymentStatus)
    requires LedgerOk(l) && l.reg.lockedTiming.Some? && l.reg.status != Pending
    requires RowsOk(qs) && UniqueIds(qs) && RowsEvolve(l.payments, qs)
    requires OneCurrency(l.reg, qs) && IntentsOk(l.reg, qs) && qs != []
    requires status != RefundDone ==> Net(qs) == Net(l.payments) && HasSettled(qs) == HasSettled(l.payments)
    ensures LedgerOk(SettleRefund(l, qs, status)) && Advances(l, SettleRefund(l, qs, status))
  {
  }

  lemma RefundKeeps(l: Ledger, ev: RefundEvent, elsewhere: bool, now: int)
    requires LedgerOk(l)
    ensures var m := ProcessRefund(l, ev, elsewhere, now).0;
            LedgerOk(m) && Advances(l, m)
  {
    hide RowsOk, UniqueIds, RowsEvolve, HasSettled, PaidTotals;
    var step := ProcessRefund(l, ev, elsewhere, now);
    if step.1 == Applied {
      var ps := l.payments;
      var c := RowWhere(ps, IsCaptureOf(ev.paymentId)).value;
      var existing := RefundRow(ps, ev);
      RowAt(ps, c);
      if existing.Some? {
        var i := existing.value;
        RowAt(ps, i);
        var row := RefundUpdate(ps[i], ev, c);
        ChangeRow(ps, i, row);
        NetUpdate(ps, i, row);
        if row.status != RefundDone {
          SettledUpdate(ps, i, row);
        }
        SettleKeeps(l, ps[i := row], row.status);
      } else {
        var row := ExternalRefund(ev, c, now);
        AppendRow(ps, row);
        NetAppend(ps, row);
        if row.status != RefundDone {
          SettledAppend(ps, row);
        }
        SettleKeeps(l, ps + [row], row.status);
      }
    } else {
      RowsReflexive(l.payments);
    }
  }

  // ---- Everything else ---------------------------------------------------------------------

  lemma ReviewKeeps(l: Ledger, id: nat, reviewer: nat, action: ReviewAction, hasNote: bool,
                    schedule: Option<Schedule>, graceMs: int)
    requires LedgerOk(l)
    ensures var m := ReviewDocument(l, id, reviewer, action, hasNote, schedule, graceMs).0;
            LedgerOk(m) && Advances(l, m)
  {
    hide RowsOk, UniqueIds, RowsEvolve, IntentsOk, HasSettled, PaidTotals;
    var step := ReviewDocument(l, id, reviewer, action, hasNote, schedule, graceMs);
    RowsReflexive(l.payments);
    SameRows(l, step.0);
  }

  predicate OpenReadOk(l: Ledger, read: OpenRead) {
    && read.snapshot.version <= l.reg.version
    && (read.snapshot.version == l.reg.version ==> read.snapshot == l.reg && read.settled == HasSettled(l.payments))
  }

  lemma ReopenKeeps(l: Ledger, read: OpenRead, now: int, deadline: int)
    requires LedgerOk(l) && OpenReadOk(l, read)
    ensures var m := Reopen(l, read, now, deadline).0;
            LedgerOk(m) && Advances(l, m)
  {
    RowsReflexive(l.payments);
  }

  lemma DetailsKeep(l: Ledger, user: nat, audience: Audience, country: Option<string>, billingOnly: bool)
    requires LedgerOk(l)
    ensures var m := ChooseDetails(l, user, audience, country, billingOnly).0;
            LedgerOk(m) && Advances(l, m)
  {
    RowsReflexive(l.payments);
  }

  lemma ExtendKeeps(l: Ledger, deadline: int, version: int)
    requires LedgerOk(l)
    ensures var m := ExtendDeadline(l, deadline, version).0;
            LedgerOk(m) && Advances(l, m)
  {
    RowsReflexive(l.payments);
  }

  lemma CloseKeeps(l: Ledger, status: RegistrationStatus)
    requires LedgerOk(l) && (status == Cancelled || status == DiscardedNonpayment)
    ensures LedgerOk(Close(l, status)) && Advances(l, Close(l, status))
  {
    RowsReflexive(l.payments);
  }
}
