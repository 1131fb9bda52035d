/**
Splitting one refund request over the captured payments of a registration:
apps/api/src/billing/payments.service.ts, the loop of refund().
*/
module RefundAllocation {
  import opened Common
  import opened Billing

  datatype Allocation = Allocation(capture: nat, amount: int)

  function PartAmount(a: Allocation): int { a.amount }

  /** A refund keeps its money reserved until it has failed, even while its outcome is uncertain. */
  predicate IsReserved(p: Payment) {
    p.kind == Refund && p.status != Failed
  }

  predicate IsRefundable(p: Payment) {
    p.kind != Refund && p.status == Captured && p.providerId.Some?
  }

  function LinkedTo(capture: nat): Payment -> int {
    (p: Payment) => if IsReserved(p) && p.refundOf == Some(capture) then p.amount else 0
  }

  function UnlinkedAmount(p: Payment): int {
    if IsReserved(p) && p.refundOf.None? then p.amount else 0
  }

  function Linked(payments: seq<Payment>, capture: nat): int {
    Sum(LinkedTo(capture), payments)
  }

  function Unlinked(payments: seq<Payment>): int {
    Sum(UnlinkedAmount, payments)
  }

  /** What is left of one capture before unlinked refunds are charged against it. */
  function Room(payments: seq<Payment>, capture: nat): int
    requires capture < |payments|
  {
    if IsRefundable(payments[capture]) then Max(payments[capture].amount - Linked(payments, capture), 0) else 0
  }

  /** The positive remainders of the captures from a position on. */
  function RoomFrom(payments: seq<Payment>, i: nat): (r: int)
    requires i <= |payments|
    ensures r >= 0
    decreases |payments| - i
  {
    if i == |payments| then 0 else Room(payments, i) + RoomFrom(payments, i + 1)
  }

  /** The greedy choice from a position on: the parts, and what could not be placed. */
  function AllocateFrom(payments: seq<Payment>, i: nat, legacy: int, remaining: int): (seq<Allocation>, int)
    requires i <= |payments|
    decreases |payments| - i
  {
    if i == |payments| then ([], remaining)
    else if !IsRefundable(payments[i]) then AllocateFrom(payments, i + 1, legacy, remaining)
    else
      var available := payments[i].amount - Linked(payments, i);
      var share := Min(Max(available, 0), legacy);
      var amount := Min(Max(available - share, 0), remaining);
      if amount > 0 then
        var (rest, left) := AllocateFrom(payments, i + 1, legacy - share, remaining - amount);
        ([Allocation(i, amount)] + rest, left)
      else
        AllocateFrom(payments, i + 1, legacy - share, remaining)
  }

  function Allocate(payments: seq<Payment>, amount: int): Option<seq<Allocation>> {
    var (parts, left) := AllocateFrom(payments, 0, Unlinked(payments), amount);
    if left > 0 || amount <= 0 then None else Some(parts)
  }

  method ReservedAgainst(payments: seq<Payment>, capture: nat) returns (total: int)
    ensures total == Linked(payments, capture)
  {
    total := 0;
    for i := 0 to |payments|
      invariant total == Sum(LinkedTo(capture), payments[..i])
    {
      assert payments[..i + 1] == payments[..i] + [payments[i]];
      SumAppend(LinkedTo(capture), payments[..i], payments[i]);
      if IsReserved(payments[i]) && payments[i].refundOf == Some(capture) {
        total := total + payments[i].amount;
      }
    }
    assert payments[..|payments|] == payments;
  }

  method ReservedUnlinked(payments: seq<Payment>) returns (total: int)
    ensures total == Unlinked(payments)
  {
    total := 0;
    for i := 0 to |payments|
      invariant total == Sum(UnlinkedAmount, payments[..i])
    {
      assert payments[..i + 1] == payments[..i] + [payments[i]];
      SumAppend(UnlinkedAmount, payments[..i], payments[i]);
      if IsReserved(payments[i]) && payments[i].refundOf.None? {
        total := total + payments[i].amount;
      }
    }
    assert payments[..|payments|] == payments;
  }

  /** The source's loop: oldest capture first, unlinked refunds eat into the captures before the request does. */
  method AllocateRefund(payments: seq<Payment>, amount: int) returns (result: Option<seq<Allocation>>)
    ensures result == Allocate(payments, amount)
  {
    var legacy := ReservedUnlinked(payments);
    var remaining := amount;
    var parts: seq<Allocation> := [];
    ghost var whole := AllocateFrom(payments, 0, legacy, amount);
    for i := 0 to |payments|
      invariant whole.0 == parts + AllocateFrom(payments, i, legacy, remaining).0
      invariant whole.1 == AllocateFrom(payments, i, legacy, remaining).1
    {
      ghost var rest := AllocateFrom(payments, i, legacy, remaining).0;
      if IsRefundable(payments[i]) {
        var reserved := ReservedAgainst(payments, i);
        var available := payments[i].amount - reserved;
        var share := Min(Max(available, 0), legacy);
        legacy := legacy - share;
        available := available - share;
        var part := Min(Max(available, 0), remaining);
        if part > 0 {
          assert parts + rest == parts + [Allocation(i, part)] + rest[1..];
          parts := parts + [Allocation(i, part)];
          remaining := remaining - part;
        }
      }
    }
    assert parts + [] == parts;
    result := if remaining > 0 || amount <= 0 then None else Some(parts);
  }

  /** Each part fits its capture, parts name captures from position i on in ascending order. */
  ghost predicate Fits(payments: seq<Payment>, i: nat, parts: seq<Allocation>) {
    && (forall k :: 0 <= k < |parts| ==>
          && i <= parts[k].capture < |payments|
          && IsRefundable(payments[parts[k].capture])
          && 0 < parts[k].amount
          && Linked(payments, parts[k].capture) + parts[k].amount <= payments[parts[k].capture].amount)
    && (forall k, l :: 0 <= k < l < |parts| ==> parts[k].capture < parts[l].capture)
  }

  function PartsTotal(parts: seq<Allocation>): int {
    Sum(PartAmount, parts)
  }

  /** How much one capture contributes, and what that leaves for the captures after it. */
  lemma OneCapture(room: nat, later: nat, legacy: nat, remaining: nat)
    ensures var share := Min(room, legacy);
            var amount := Min(room - share, remaining);
            amount + Min(remaining - amount, Max(later - (legacy - share), 0))
              == Min(remaining, Max(room + later - legacy, 0))
  {
  }

  /** The greedy pass places as much as the captures hold beyond the unlinked refunds, and no more. */
  lemma {:induction false} GreedyPlacesAllItCan(payments: seq<Payment>, i: nat, legacy: nat, remaining: nat)
    requires i <= |payments|
    ensures AllocateFrom(payments, i, legacy, remaining).1
         == remaining - Min(remaining, Max(RoomFrom(payments, i) - legacy, 0))
    decreases |payments| - i
  {
    if i < |payments| {
      if !IsRefundable(payments[i]) {
        GreedyPlacesAllItCan(payments, i + 1, legacy, remaining);
      } else {
        var room := Room(payments, i);
        var share := Min(room, legacy);
        var amount := Min(room - share, remaining);
        OneCapture(room, RoomFrom(payments, i + 1), legacy, remaining);
        GreedyPlacesAllItCan(payments, i + 1, legacy - share, remaining - amount);
      }
    }
  }

  lemma {:induction false} GreedyFits(payments: seq<Payment>, i: nat, legacy: nat, remaining: nat)
    requires i <= |payments|
    ensures Fits(payments, i, AllocateFrom(payments, i, legacy, remaining).0)
    decreases |payments| - i
  {
    if i < |payments| {
      if !IsRefundable(payments[i]) {
        GreedyFits(payments, i + 1, legacy, remaining);
      } else {
        var room := Room(payments, i);
        var share := Min(room, legacy);
        GreedyFits(payments, i + 1, legacy - share, remaining - Min(room - share, remaining));
      }
    }
  }

  lemma {:induction false} GreedyTotals(payments: seq<Payment>, i: nat, legacy: nat, remaining: nat)
    requires i <= |payments|
    ensures PartsTotal(AllocateFrom(payments, i, legacy, remaining).0)
         == remaining - AllocateFrom(payments, i, legacy, remaining).1
    decreases |payments| - i
  {
    if i < |payments| {
      if !IsRefundable(payments[i]) {
        GreedyTotals(payments, i + 1, legacy, remaining);
      } else {
        var room := Room(payments, i);
        var share := Min(room, legacy);
        var amount := Min(room - share, remaining);
        GreedyTotals(payments, i + 1, legacy - share, remaining - amount);
        var rest := AllocateFrom(payments, i + 1, legacy - share, remaining - amount).0;
        SumConcat(PartAmount, [Allocation(i, amount)], rest);
        assert [] + [Allocation(i, amount)] == [Allocation(i, amount)];
        SumAppend(PartAmount, [], Allocation(i, amount));
      }
    }
  }

  /** The request is accepted exactly when it is positive and covered by the free money. */
  lemma {:induction false} AllocationComplete(payments: seq<Payment>, amount: int)
    requires Unlinked(payments) >= 0
    ensures Allocate(payments, amount).Some? <==> 0 < amount <= RoomFrom(payments, 0) - Unlinked(payments)
  {
    if amount > 0 {
      GreedyPlacesAllItCan(payments, 0, Unlinked(payments), amount);
    }
  }

  /** An accepted request is split into positive parts of distinct captures, none drawn beyond its amount. */
  lemma {:induction false} AllocationSound(payments: seq<Payment>, amount: int)
    requires Unlinked(payments) >= 0
    requires Allocate(payments, amount).Some?
    ensures var parts := Allocate(payments, amount).value;
            && parts != []
            && Fits(payments, 0, parts)
            && PartsTotal(parts) == amount
            && PartsTotal(parts) + Unlinked(payments) <= RoomFrom(payments, 0)
  {
    GreedyPlacesAllItCan(payments, 0, Unlinked(payments), amount);
    GreedyFits(payments, 0, Unlinked(payments), amount);
    GreedyTotals(payments, 0, Unlinked(payments), amount);
  }

  function PartBefore(i: nat): Allocation -> int {
    (a: Allocation) => if a.capture < i then a.amount else 0
  }

  /** What the parts draw from the captures before position i. */
  function DrawnBefore(parts: seq<Allocation>, i: nat): int {
    Sum(PartBefore(i), parts)
  }

  lemma {:induction false} GreedyDraws(payments: seq<Payment>, j: nat, i: nat, legacy: nat, remaining: nat)
    requires j <= i <= |payments|
    ensures DrawnBefore(AllocateFrom(payments, j, legacy, remaining).0, i)
         == Min(remaining, Max(RoomFrom(payments, j) - RoomFrom(payments, i) - legacy, 0))
    decreases i - j
  {
    if j == i {
      GreedyFits(payments, i, legacy, remaining);
      SumZero(PartBefore(i), AllocateFrom(payments, i, legacy, remaining).0);
    } else {
      RoomFalls(payments, j + 1, i);
      if !IsRefundable(payments[j]) {
        GreedyDraws(payments, j + 1, i, legacy, remaining);
      } else {
        var room := Room(payments, j);
        var share := Min(room, legacy);
        var amount := Min(room - share, remaining);
        OneCapture(room, RoomFrom(payments, j + 1) - RoomFrom(payments, i), legacy, remaining);
        GreedyDraws(payments, j + 1, i, legacy - share, remaining - amount);
        var rest := AllocateFrom(payments, j + 1, legacy - share, remaining - amount).0;
        SumConcat(PartBefore(i), [Allocation(j, amount)], rest);
        assert [] + [Allocation(j, amount)] == [Allocation(j, amount)];
        SumAppend(PartBefore(i), [], Allocation(j, amount));
      }
    }
  }

  lemma {:induction false} RoomFalls(payments: seq<Payment>, j: nat, i: nat)
    requires j <= i <= |payments|
    ensures RoomFrom(payments, i) <= RoomFrom(payments, j)
    decreases i - j
  {
    if j < i {
      RoomFalls(payments, j + 1, i);
    }
  }

  /**
  The oldest captures are drawn first: an accepted request draws from the captures before any position as much as they
  hold beyond the unlinked refunds, until it is placed. A later capture is drawn only once these are used up.
  */
  lemma {:induction false} OldestIsDrawnFirst(payments: seq<Payment>, amount: int, i: nat)
    requires Unlinked(payments) >= 0 && Allocate(payments, amount).Some? && i <= |payments|
    ensures var parts, before := Allocate(payments, amount).value, RoomFrom(payments, 0) - RoomFrom(payments, i);
            && DrawnBefore(parts, i) == Min(amount, Max(before - Unlinked(payments), 0))
            && ((exists k :: 0 <= k < |parts| && parts[k].capture >= i) ==>
                  DrawnBefore(parts, i) == Max(before - Unlinked(payments), 0))
  {
    AllocationSound(payments, amount);
    GreedyDraws(payments, 0, i, Unlinked(payments), amount);
    var parts := Allocate(payments, amount).value;
    if k :| 0 <= k < |parts| && parts[k].capture >= i {
      DrawsLess(parts, i, k);
    }
  }

  lemma {:induction false} DrawsLess(parts: seq<Allocation>, i: nat, k: nat)
    requires k < |parts| && parts[k].capture >= i && forall j :: 0 <= j < |parts| ==> parts[j].amount > 0
    ensures DrawnBefore(parts, i) < PartsTotal(parts)
  {
    var n := |parts| - 1;
    if k < n {
      DrawsLess(parts[..n], i, k);
    } else {
      DrawsAtMost(parts[..n], i);
    }
  }

  lemma {:induction false} DrawsAtMost(parts: seq<Allocation>, i: nat)
    requires forall j :: 0 <= j < |parts| ==> parts[j].amount > 0
    ensures DrawnBefore(parts, i) <= PartsTotal(parts)
  {
    if parts != [] {
      DrawsAtMost(parts[..|parts| - 1], i);
    }
  }
}
