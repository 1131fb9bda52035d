/** Refund requests over whole runs: each accepted request reserves its amount exactly once. */
module RefundRequests {
  import opened Common
  import opened Billing
  import opened FeeResolver
  import opened PaidState
  import opened RefundAllocation
  import opened LedgerSteps
  import opened LedgerWorld
  import opened LedgerInvariant
  import opened LedgerRuns

  predicate HasIntent(ps: seq<Payment>, version: int) {
    RowWhere(ps, IsIntent(version)).Some?
  }

  /** The action is a refund request under this version, and this world accepts it. */
  predicate Accepts(w: World, a: Action, version: int) {
    a.Request? && a.version == version && RequestRefund(w.ledger, a.amount, a.reason, a.version, a.now).1 == Applied
  }

  /** Number and total of the requests a run accepted under one version. */
  function AcceptedCount(w: World, actions: seq<Action>, version: int): nat {
    if actions == [] then 0
    else
      var before := actions[..|actions| - 1];
      AcceptedCount(w, before, version) + if Accepts(Run(w, before), actions[|actions| - 1], version) then 1 else 0
  }

  function AcceptedAmount(w: World, actions: seq<Action>, version: int): int {
    if actions == [] then 0
    else
      var before := actions[..|actions| - 1];
      var a := actions[|actions| - 1];
      AcceptedAmount(w, before, version) + if Accepts(Run(w, before), a, version) then a.amount else 0
  }

  /** Old rows keep their intent fields and the new ones are no intents under this version. */
  predicate NoNewIntents(ps: seq<Payment>, qs: seq<Payment>, version: int) {
    && |ps| <= |qs|
    && (forall i :: 0 <= i < |ps| ==> qs[i].kind == ps[i].kind && qs[i].key == ps[i].key && qs[i].amount == ps[i].amount && qs[i].reason == ps[i].reason)
    && (forall i :: |ps| <= i < |qs| ==> !IsIntent(version)(qs[i]))
  }

  lemma IntentsUnchanged(ps: seq<Payment>, qs: seq<Payment>, version: int)
    requires NoNewIntents(ps, qs, version)
    ensures IntentTotal(qs, version) == IntentTotal(ps, version)
    ensures HasIntent(qs, version) == HasIntent(ps, version)
  {
    var old' := qs[..|ps|];
    assert qs == old' + qs[|ps|..];
    SumConcat(IntentAmount(version), old', qs[|ps|..]);
    SumPointwise(IntentAmount(version), ps, old');
    SumZero(IntentAmount(version), qs[|ps|..]);
    if HasIntent(qs, version) {
      var i := RowWhere(qs, IsIntent(version)).value;
      assert IsIntent(version)(ps[i]);
    }
    if HasIntent(ps, version) {
      var i := RowWhere(ps, IsIntent(version)).value;
      assert IsIntent(version)(qs[i]);
    }
  }

  /** Appending the rows of an allocation adds its amount under its own version and nothing under any other. */
  lemma {:induction false} NewIntents(ps: seq<Payment>, parts: seq<Allocation>, reason: string, version: int, now: int)
    requires SafeParts(ps, parts) && parts != [] && !HasIntent(ps, version)
    ensures var qs := ps + IntentRows(ps, parts, version, reason, now);
            && HasIntent(qs, version)
            && IntentTotal(qs, version) == PartsTotal(parts)
            && (forall i :: 0 <= i < |qs| && IsIntent(version)(qs[i]) ==> qs[i].reason == reason)
            && forall other :: other != version ==> NoNewIntents(ps, qs, other)
  {
    var rows := IntentRows(ps, parts, version, reason, now);
    var qs := ps + rows;
    forall i | |ps| <= i < |qs|
      ensures qs[i].reason == reason && IsIntent(version)(qs[i])
    {
      assert qs[i] == rows[i - |ps|] == IntentRow(ps, parts[i - |ps|], version, reason, now);
    }
    assert IsIntent(version)(qs[|ps|]);
    RowsTotal(ps, parts, version, reason, now);
    SumConcat(IntentAmount(version), ps, rows);
    NoIntentsNoTotal(ps, version);
    forall i | 0 <= i < |ps|
      ensures !IsIntent(version)(qs[i])
    {
      assert qs[i] == ps[i];
    }
  }

  /** Accepting a request records rows of its own version, all with its reason, that sum to its amount. */
  lemma AcceptedRequest(l: Ledger, amount: int, reason: string, version: int, now: int)
    requires LedgerOk(l) && RequestRefund(l, amount, reason, version, now).1 == Applied
    ensures var qs := RequestRefund(l, amount, reason, version, now).0.payments;
            && !HasIntent(l.payments, version) && HasIntent(qs, version)
            && IntentTotal(qs, version) == amount
            && (forall i :: 0 <= i < |qs| && IsIntent(version)(qs[i]) ==> qs[i].reason == reason)
            && forall other :: other != version ==> NoNewIntents(l.payments, qs, other)
  {
    hide RowsOk, UniqueIds, PendingOk, CoveredOk, PriceOk, IntentsOk, PaidTotals, NoNewIntents, IntentTotal;
    NoUnlinked(l.payments);
    AllocationSound(l.payments, amount);
    AllocationInRange(l.payments, 0, Unlinked(l.payments), amount);
    NewIntents(l.payments, Allocate(l.payments, amount).value, reason, version, now);
  }

  lemma {:induction false} RowsTotal(ps: seq<Payment>, parts: seq<Allocation>, version: int, reason: string, now: int)
    requires SafeParts(ps, parts)
    ensures Sum(IntentAmount(version), IntentRows(ps, parts, version, reason, now)) == PartsTotal(parts)
  {
    if parts != [] {
      var n := |parts| - 1;
      RowsTotal(ps, parts[..n], version, reason, now);
      SumAppend(IntentAmount(version), IntentRows(ps, parts[..n], version, reason, now),
                IntentRow(ps, parts[n], version, reason, now));
    }
  }

  /** Outside refund requests no step appends an intent. */
  lemma OnlyRequestsAddIntents(w: World, a: Action, version: int)
    requires !a.Request?
    ensures forall i :: |w.ledger.payments| <= i < |Apply(w, a).ledger.payments|
              ==> !IsIntent(version)(Apply(w, a).ledger.payments[i])
  {
    hide PaidTotals, RowWhere, FirstRefusal, Reprice, QuoteRegistration, NewestCreated, ReviewDocument;
    if a.Review? {
      ReviewKeepsRows(w.ledger, a);
    }
  }

  /** Everything but an accepted request leaves the intents alone. */
  lemma OtherStepsKeepIntents(w: World, a: Action, version: int)
    requires WorldOk(w) && !Accepts(w, a, version)
    ensures NoNewIntents(w.ledger.payments, Apply(w, a).ledger.payments, version)
  {
    hide LedgerOk;
    StepEvolves(w, a);
    if a.Request? {
      if RequestRefund(w.ledger, a.amount, a.reason, a.version, a.now).1 == Applied {
        AcceptedRequest(w.ledger, a.amount, a.reason, a.version, a.now);
      }
    } else {
      OnlyRequestsAddIntents(w, a, version);
      hide Apply;
      forall i | 0 <= i < |w.ledger.payments|
        ensures RowEvolves(w.ledger.payments[i], Apply(w, a).ledger.payments[i])
      {
      }
    }
  }

  /** In every run, the intents under a version are none, or sum to the one request accepted under it. */
  lemma {:induction false} ReservedExactlyOnce(w: World, actions: seq<Action>, version: int)
    requires WorldOk(w) && !HasIntent(w.ledger.payments, version)
    ensures WorldOk(Run(w, actions))
    ensures AcceptedCount(w, actions, version) == (if HasIntent(Run(w, actions).ledger.payments, version) then 1 else 0)
    ensures IntentTotal(Run(w, actions).ledger.payments, version) == AcceptedAmount(w, actions, version)
  {
    hide WorldOk, HasIntent, IsIntent;
    if actions == [] {
      NoIntentsNoTotal(w.ledger.payments, version);
    } else {
      var before, a := actions[..|actions| - 1], actions[|actions| - 1];
      ReservedExactlyOnce(w, before, version);
      var v := Run(w, before);
      StepKeeps(v, a);
      OneStepReserves(v, a, version);
    }
  }

  lemma NoIntentsNoTotal(ps: seq<Payment>, version: int)
    requires !HasIntent(ps, version)
    ensures IntentTotal(ps, version) == 0
  {
    forall i | 0 <= i < |ps|
      ensures IntentAmount(version)(ps[i]) == 0
    {
      assert !IsIntent(version)(ps[i]);
    }
    SumZero(IntentAmount(version), ps);
  }

  lemma OneStepReserves(w: World, a: Action, version: int)
    requires WorldOk(w)
    ensures var ps, qs := w.ledger.payments, Apply(w, a).ledger.payments;
            if Accepts(w, a, version)
            then !HasIntent(ps, version) && HasIntent(qs, version) && IntentTotal(ps, version) == 0 && IntentTotal(qs, version) == a.amount
            else HasIntent(qs, version) == HasIntent(ps, version) && IntentTotal(qs, version) == IntentTotal(ps, version)
  {
    hide LedgerOk, HasIntent, NoNewIntents;
    if Accepts(w, a, version) {
      AcceptedRequest(w.ledger, a.amount, a.reason, a.version, a.now);
      NoIntentsNoTotal(w.ledger.payments, version);
    } else {
      OtherStepsKeepIntents(w, a, version);
      IntentsUnchanged(w.ledger.payments, Apply(w, a).ledger.payments, version);
    }
  }

  /** The reasons recorded under a version that has intents never change either. */
  lemma {:induction false} ReasonsStay(w: World, actions: seq<Action>, version: int, reason: string)
    requires WorldOk(w) && HasIntent(w.ledger.payments, version)
    requires forall i :: 0 <= i < |w.ledger.payments| && IsIntent(version)(w.ledger.payments[i]) ==> w.ledger.payments[i].reason == reason
    ensures var qs := Run(w, actions).ledger.payments;
            && WorldOk(Run(w, actions))
            && HasIntent(qs, version)
            && IntentTotal(qs, version) == IntentTotal(w.ledger.payments, version)
            && forall i :: 0 <= i < |qs| && IsIntent(version)(qs[i]) ==> qs[i].reason == reason
  {
    hide WorldOk;
    if actions != [] {
      var before, a := actions[..|actions| - 1], actions[|actions| - 1];
      ReasonsStay(w, before, version, reason);
      var v := Run(w, before);
      StepKeeps(v, a);
      OneStepReserves(v, a, version);
      OtherStepsKeepIntents(v, a, version);
      hide Apply, HasIntent;
      var ps, qs := v.ledger.payments, Run(w, actions).ledger.payments;
      forall i | 0 <= i < |qs| && IsIntent(version)(qs[i])
        ensures qs[i].reason == reason
      {
        assert i < |ps| && IsIntent(version)(ps[i]);
      }
    }
  }

  /**
  Retrying an accepted request at any later time adds nothing when it repeats amount and reason,
  and is refused otherwise, even though the registration's version has moved on.
  */
  lemma {:induction false} RetryIsRecognised(w: World, a: Action, later: seq<Action>, amount: int, reason: string,
                                             now: int)
    requires WorldOk(w) && a.Request? && Accepts(w, a, a.version)
    ensures var l := Run(Apply(w, a), later).ledger;
            RequestRefund(l, amount, reason, a.version, now)
              == (l, if amount == a.amount && reason == a.reason then Unchanged else Refused(RetryMismatch))
  {
    hide LedgerOk, NoNewIntents;
    AcceptedRequest(w.ledger, a.amount, a.reason, a.version, a.now);
    StepKeeps(w, a);
    ReasonsStay(Apply(w, a), later, a.version, a.reason);
    hide Apply, Run, WorldOk, Allocate, IntentRows;
    var l := Run(Apply(w, a), later).ledger;
    var i := RowWhere(l.payments, IsIntent(a.version)).value;
    assert IsIntent(a.version)(l.payments[i]);
  }
}
