/** The revenue report: ledger amounts converted to one currency, split by timing, audience and source currency. */
module Revenue {
  import opened Common

  datatype Status = CAPTURED | REFUNDED | PARTIALLY_REFUNDED | OTHER

  datatype Payment = Payment(refund: bool, status: Status, amountMinor: int, currency: string, audience: string,
                             lockedTiming: Option<string>)

  /** rate: rupees for a dollar, as configured; it may be missing or out of range. */
  datatype Schedule = Schedule(currency: string, rate: Option<real>)

  /** One source currency; convertedMinor is None when the currency cannot be converted. */
  datatype Source =
    Source(capturedMinor: int, refundedMinor: int, netMinor: int, convertedMinor: Option<int>, paymentCount: nat)

  datatype Report = Report(
    revenueMinor: int, excluded: nat, capturedMinor: int, refundedMinor: int,
    timing: map<string, int>, audience: map<string, int>, sources: map<string, Source>)

  const NOTHING := Report(0, 0, 0, 0, map[], map[], map[])

  // ---- one payment -----------------------------------------------------------------------------------------------

  function Contribution(p: Payment): int {
    if p.refund then if p.status == REFUNDED || p.status == PARTIALLY_REFUNDED then -p.amountMinor else 0
    else if p.status == CAPTURED then p.amountMinor else 0
  }

  function InrPerUsd(s: Schedule): Option<real> {
    if s.rate.Some? && 0.0 < s.rate.value <= 1000.0 then s.rate else None
  }

  function Factor(s: Schedule, currency: string): (f: Option<real>)
    ensures f.Some? ==> f.value > 0.0
  {
    var rate := InrPerUsd(s);
    if currency == s.currency then Some(1.0)
    else if rate.Some? && s.currency == "USD" && currency == "INR" then
      assert 1.0 / rate.value > 0.0 by { Reciprocal(rate.value); }
      Some(1.0 / rate.value)
    else if rate.Some? && s.currency == "INR" && currency == "USD" then rate
    else None
  }

  lemma Reciprocal(x: real)
    requires x > 0.0
    ensures 1.0 / x > 0.0
  {
    assert (1.0 / x) * x == 1.0;
  }

  function Abs(x: int): nat {
    if x < 0 then -x else x
  }

  /** The magnitude is rounded once and the sign put back afterwards. */
  function Convert(f: real, original: int): int {
    var rounded := RoundHalfUp(Abs(original) as real * f);
    if original < 0 then -rounded else rounded
  }

  function Timing(p: Payment): string {
    if p.lockedTiming.Some? then p.lockedTiming.value else "UNSPECIFIED"
  }

  // ---- the report, payment by payment ----------------------------------------------------------------------------

  function Plus(m: map<string, int>, key: string, x: int): map<string, int> {
    m[key := (if key in m then m[key] else 0) + x]
  }

  function NextSource(before: Option<Source>, f: Option<real>, original: int): Source {
    var s := if before.Some? then before.value else Source(0, 0, 0, if f.Some? then Some(0) else None, 0);
    Source(s.capturedMinor + Max(original, 0), s.refundedMinor + Max(-original, 0), s.netMinor + original,
           if f.Some? then Some((if s.convertedMinor.Some? then s.convertedMinor.value else 0) + Convert(f.value, original))
           else s.convertedMinor,
           s.paymentCount + 1)
  }

  function SourceOf(m: map<string, Source>, currency: string): Option<Source> {
    if currency in m then Some(m[currency]) else None
  }

  function AddSource(m: map<string, Source>, currency: string, f: Option<real>, original: int): map<string, Source> {
    m[currency := NextSource(SourceOf(m, currency), f, original)]
  }

  /** The running report after one contribution, with everything about the payment already worked out. */
  function Book(r: Report, currency: string, f: Option<real>, original: int, timing: string, audience: string): Report {
    if original == 0 then r
    else
      var sources := AddSource(r.sources, currency, f, original);
      if f.None? then r.(excluded := r.excluded + 1, sources := sources)
      else
        var x := Convert(f.value, original);
        Report(r.revenueMinor + x, r.excluded,
               r.capturedMinor + (if original > 0 then x else 0), r.refundedMinor + (if original < 0 then -x else 0),
               Plus(r.timing, timing, x), Plus(r.audience, audience, x), sources)
  }

  function Include(r: Report, s: Schedule, p: Payment): Report {
    Book(r, p.currency, Factor(s, p.currency), Contribution(p), Timing(p), p.audience)
  }

  function Aggregate(payments: seq<Payment>, s: Schedule): Report {
    if payments == [] then NOTHING
    else Include(Aggregate(payments[..|payments| - 1], s), s, payments[|payments| - 1])
  }

  /** aggregateRevenue: running totals and three maps filled in one loop. */
  method AggregateRevenue(payments: seq<Payment>, s: Schedule) returns (report: Report)
    ensures report == Aggregate(payments, s)
  {
    var revenue, excluded, captured, refunded := 0, 0, 0, 0;
    var timing: map<string, int>, audience: map<string, int>, sources: map<string, Source> := map[], map[], map[];
    for i := 0 to |payments|
      invariant excluded >= 0
      invariant Report(revenue, excluded, captured, refunded, timing, audience, sources) == Aggregate(payments[..i], s)
    {
      hide Factor, Convert, Contribution, AddSource, Plus, Timing, InrPerUsd, Aggregate, Include;
      BooksNext(payments, i, s);
      var p := payments[i];
      var original := Contribution(p);
      if original == 0 {
        continue;
      }
      var factor := Factor(s, p.currency);
      sources := AddSource(sources, p.currency, factor, original);
      if factor.None? {
        excluded := excluded + 1;
        continue;
      }
      var converted := Convert(factor.value, original);
      captured := captured + if original > 0 then converted else 0;
      refunded := refunded + if original < 0 then -converted else 0;
      revenue := revenue + converted;
      timing := Plus(timing, Timing(p), converted);
      audience := Plus(audience, p.audience, converted);
    }
    assert payments[..|payments|] == payments;
    report := Report(revenue, excluded, captured, refunded, timing, audience, sources);
  }

  lemma {:induction false} BooksNext(payments: seq<Payment>, i: nat, s: Schedule)
    requires i < |payments|
    ensures var p := payments[i];
            Aggregate(payments[..i + 1], s)
            == Book(Aggregate(payments[..i], s), p.currency, Factor(s, p.currency), Contribution(p), Timing(p), p.audience)
  {
    hide Book;
    assert payments[..i + 1] == payments[..i] + [payments[i]];
    AggregateLast(payments[..i], payments[i], s);
  }

  /** aggregateRevenueReports: with a usable rate, a second report in the other currency of the pair. */
  function OtherCurrency(s: Schedule): Option<Schedule> {
    if InrPerUsd(s).None? then None
    else if s.currency == "USD" then Some(s.(currency := "INR"))
    else if s.currency == "INR" then Some(s.(currency := "USD"))
    else None
  }

  method AggregateRevenueReports(payments: seq<Payment>, s: Schedule) returns (reports: seq<Report>)
    ensures reports == [Aggregate(payments, s)]
                       + if OtherCurrency(s).Some? then [Aggregate(payments, OtherCurrency(s).value)] else []
  {
    var report := AggregateRevenue(payments, s);
    reports := [report];
    if OtherCurrency(s).Some? {
      var other := AggregateRevenue(payments, OtherCurrency(s).value);
      reports := reports + [other];
    }
  }

  // ---- totals over a map -----------------------------------------------------------------------------------------

  ghost function SumMap<V>(f: V -> int, m: map<string, V>): int {
    if m.Keys == {} then 0
    else
      var k :| k in m.Keys;
      SumMap(f, m - {k}) + f(m[k])
  }

  lemma {:induction false} SumMapTakes<V>(f: V -> int, m: map<string, V>, key: string)
    requires key in m
    ensures SumMap(f, m) == SumMap(f, m - {key}) + f(m[key])
    decreases |m|
  {
    var k :| k in m.Keys && SumMap(f, m) == SumMap(f, m - {k}) + f(m[k]);
    if k != key {
      hide SumMap;
      SumMapTakes(f, m - {k}, key);
      SumMapTakes(f, m - {key}, k);
      assert m - {k} - {key} == m - {key} - {k};
    }
  }

  lemma SumMapUpdate<V>(f: V -> int, m: map<string, V>, key: string, v: V)
    ensures SumMap(f, m[key := v]) == SumMap(f, m) - (if key in m then f(m[key]) else 0) + f(v)
  {
    SumMapTakes(f, m[key := v], key);
    assert m[key := v] - {key} == m - {key};
    if key in m {
      SumMapTakes(f, m, key);
    } else {
      assert m - {key} == m;
    }
  }

  // ---- conservation ----------------------------------------------------------------------------------------------

  function Amount(x: int): int {
    x
  }

  function ConvertedOf(source: Source): int {
    if source.convertedMinor.Some? then source.convertedMinor.value else 0
  }

  function UnconvertedCount(source: Source): int {
    if source.convertedMinor.None? then source.paymentCount else 0
  }

  /** A source has a converted total exactly when its currency can be converted, and its net is what it says. */
  predicate SourcesOk(sources: map<string, Source>, s: Schedule) {
    forall c :: c in sources ==>
      && (sources[c].convertedMinor.Some? <==> Factor(s, c).Some?)
      && sources[c].netMinor == sources[c].capturedMinor - sources[c].refundedMinor
  }

  /**
   * Nothing is lost or counted twice: revenue is captured less refunded, and is the sum of the report's rows by
   * timing, by audience and by source; the excluded payments are those of the currencies left unconverted.
   */
  lemma {:induction false} RevenueIsConserved(payments: seq<Payment>, s: Schedule)
    ensures var r := Aggregate(payments, s);
            && r.revenueMinor == r.capturedMinor - r.refundedMinor
            && SumMap(Amount, r.timing) == r.revenueMinor
            && SumMap(Amount, r.audience) == r.revenueMinor
            && SumMap(ConvertedOf, r.sources) == r.revenueMinor
            && SumMap(UnconvertedCount, r.sources) == r.excluded
            && SourcesOk(r.sources, s)
  {
    hide SumMap, Factor, Convert;
    if payments == [] {
      EmptySums();
    } else {
      var n := |payments| - 1;
      RevenueIsConserved(payments[..n], s);
      IncludeConserves(Aggregate(payments[..n], s), s, payments[n]);
    }
  }

  lemma EmptySums()
    ensures SumMap(Amount, map[]) == 0 && SumMap(ConvertedOf, map[]) == 0 && SumMap(UnconvertedCount, map[]) == 0
  {
  }

  lemma IncludeConserves(r: Report, s: Schedule, p: Payment)
    requires SourcesOk(r.sources, s)
    ensures var after := Include(r, s, p);
            && SourcesOk(after.sources, s)
            && SumMap(Amount, after.timing) - SumMap(Amount, r.timing) == after.revenueMinor - r.revenueMinor
            && SumMap(Amount, after.audience) - SumMap(Amount, r.audience) == after.revenueMinor - r.revenueMinor
            && SumMap(ConvertedOf, after.sources) - SumMap(ConvertedOf, r.sources) == after.revenueMinor - r.revenueMinor
            && SumMap(UnconvertedCount, after.sources) - SumMap(UnconvertedCount, r.sources) == after.excluded - r.excluded
  {
    hide SumMap, Factor, Convert;
    var original, f := Contribution(p), Factor(s, p.currency);
    if original != 0 {
      var source := NextSource(SourceOf(r.sources, p.currency), f, original);
      SumMapUpdate(ConvertedOf, r.sources, p.currency, source);
      SumMapUpdate(UnconvertedCount, r.sources, p.currency, source);
      if f.Some? {
        var x := Convert(f.value, original);
        SumMapUpdate(Amount, r.timing, Timing(p), (if Timing(p) in r.timing then r.timing[Timing(p)] else 0) + x);
        SumMapUpdate(Amount, r.audience, p.audience, (if p.audience in r.audience then r.audience[p.audience] else 0) + x);
      }
    }
  }

  // ---- rounding --------------------------------------------------------------------------------------------------

  predicate Counted(p: Payment, s: Schedule) {
    Contribution(p) != 0 && Factor(s, p.currency).Some?
  }

  /** The revenue that exact conversion would give. */
  function ExactRevenue(payments: seq<Payment>, s: Schedule): real {
    if payments == [] then 0.0
    else
      var p := payments[|payments| - 1];
      ExactRevenue(payments[..|payments| - 1], s)
      + if Counted(p, s) then Contribution(p) as real * Factor(s, p.currency).value else 0.0
  }

  function CountedPayments(payments: seq<Payment>, s: Schedule): nat {
    if payments == [] then 0
    else CountedPayments(payments[..|payments| - 1], s) + if Counted(payments[|payments| - 1], s) then 1 else 0
  }

  lemma ConvertIsClose(f: real, original: int)
    ensures -0.5 <= Convert(f, original) as real - original as real * f <= 0.5
  {
    var x := Abs(original) as real * f;
    assert -0.5 <= RoundHalfUp(x) as real - x <= 0.5;
    if original < 0 {
      assert Abs(original) as real == -(original as real);
      assert x == -(original as real * f);
    }
  }

  lemma RevenueAfter(r: Report, s: Schedule, p: Payment)
    ensures Include(r, s, p).revenueMinor
            == r.revenueMinor + if Counted(p, s) then Convert(Factor(s, p.currency).value, Contribution(p)) else 0
  {
    hide Factor, Convert, Contribution, NextSource;
  }

  /** n converted payments are reported within n half minor units of exact conversion. */
  lemma {:induction false} RoundingIsBounded(payments: seq<Payment>, s: Schedule)
    ensures var n, difference := CountedPayments(payments, s) as real,
                                 Aggregate(payments, s).revenueMinor as real - ExactRevenue(payments, s);
            -n / 2.0 <= difference <= n / 2.0
  {
    hide Include, Factor, Convert, Contribution;
    if payments != [] {
      var last := |payments| - 1;
      RoundingIsBounded(payments[..last], s);
      var p := payments[last];
      RevenueAfter(Aggregate(payments[..last], s), s, p);
      if Counted(p, s) {
        var f, original := Factor(s, p.currency).value, Contribution(p);
        ConvertIsClose(f, original);
        var x, exact := Convert(f, original), original as real * f;
        assert Aggregate(payments, s).revenueMinor == Aggregate(payments[..last], s).revenueMinor + x;
        assert ExactRevenue(payments, s) == ExactRevenue(payments[..last], s) + exact;
        assert CountedPayments(payments, s) == CountedPayments(payments[..last], s) + 1;
      }
    }
  }

  /** Amounts already in the report's currency are not touched by rounding. */
  lemma SameCurrencyIsExact(s: Schedule, original: int)
    ensures Factor(s, s.currency) == Some(1.0) && Convert(1.0, original) == original
  {
  }

  // ---- what the report says of the payments ------------------------------------------------------

  /** Money in for a captured receipt, money out for a refund that was made, and nothing otherwise. */
  function Worth(p: Payment): int {
    if p.refund && (p.status == REFUNDED || p.status == PARTIALLY_REFUNDED) then -p.amountMinor
    else if !p.refund && p.status == CAPTURED then p.amountMinor
    else 0
  }

  function Total(payments: seq<Payment>, currency: string): int {
    if payments == [] then 0
    else
      var p := payments[|payments| - 1];
      Total(payments[..|payments| - 1], currency) + if p.currency == currency then Worth(p) else 0
  }

  /** The payments in a currency that move money. */
  function CountIn(payments: seq<Payment>, currency: string): nat {
    if payments == [] then 0
    else
      var p := payments[|payments| - 1];
      CountIn(payments[..|payments| - 1], currency) + if p.currency == currency && Worth(p) != 0 then 1 else 0
  }

  function UsableRate(s: Schedule): Option<real> {
    if s.rate.Some? && s.rate.value > 0.0 && s.rate.value <= 1000.0 then s.rate else None
  }

  /** A report in this currency shows payments in its own, and with a usable rate in the other of the pair. */
  predicate Shows(s: Schedule, currency: string) {
    || currency == s.currency
    || (UsableRate(s).Some? && s.currency == "USD" && currency == "INR")
    || (UsableRate(s).Some? && s.currency == "INR" && currency == "USD")
  }

  function CountHidden(payments: seq<Payment>, s: Schedule): nat {
    if payments == [] then 0
    else
      var p := payments[|payments| - 1];
      CountHidden(payments[..|payments| - 1], s) + if Worth(p) != 0 && !Shows(s, p.currency) then 1 else 0
  }

  predicate Within(x: real, exact: real, slack: real) {
    -slack <= x - exact <= slack
  }

  lemma FactorAnswers(s: Schedule, currency: string)
    ensures Factor(s, currency).Some? <==> Shows(s, currency)
    ensures currency == s.currency ==> Factor(s, currency) == Some(1.0)
    ensures UsableRate(s).Some? && s.currency == "USD" && currency == "INR" ==>
              Factor(s, currency) == Some(1.0 / UsableRate(s).value)
    ensures UsableRate(s).Some? && s.currency == "INR" && currency == "USD" ==> Factor(s, currency) == UsableRate(s)
  {
  }

  /** An amount times the rate. */
  function At(x: int, rate: real): real {
    x as real * rate
  }

  /** What one payment adds to the revenue. */
  lemma IncludeAdds(r: Report, s: Schedule, p: Payment)
    ensures var d, rate := Include(r, s, p).revenueMinor - r.revenueMinor, UsableRate(s);
            && (p.currency == s.currency ==> d == Worth(p))
            && (!Shows(s, p.currency) || Worth(p) == 0 ==> d == 0)
            && (p.currency == "INR" && s.currency == "USD" && rate.Some? ==>
                  Within(At(d, rate.value), Worth(p) as real, rate.value / 2.0))
            && (p.currency == "USD" && s.currency == "INR" && rate.Some? ==>
                  Within(d as real, At(Worth(p), rate.value), 0.5))
            && Include(r, s, p).excluded == r.excluded + if Worth(p) != 0 && !Shows(s, p.currency) then 1 else 0
  {
    hide Convert, NextSource, Factor, Include, Within, At;
    FactorAnswers(s, p.currency);
    IncludeConverts(r, s, p);
    if Worth(p) != 0 && Factor(s, p.currency).Some? {
      ConvertAnswers(s, p.currency, Worth(p));
    } else {
      NothingIsWithin(UsableRate(s));
    }
  }

  lemma NothingIsWithin(rate: Option<real>)
    ensures rate.Some? && rate.value > 0.0 ==>
              Within(At(0, rate.value), 0.0, rate.value / 2.0) && Within(0.0, At(0, rate.value), 0.5)
  {
  }

  lemma IncludeConverts(r: Report, s: Schedule, p: Payment)
    ensures var f, after := Factor(s, p.currency), Include(r, s, p);
            && after.revenueMinor - r.revenueMinor
               == (if Worth(p) != 0 && f.Some? then Convert(f.value, Worth(p)) else 0)
            && after.excluded == r.excluded + if Worth(p) != 0 && f.None? then 1 else 0
  {
    hide Convert, NextSource, Factor;
  }

  lemma ConvertAnswers(s: Schedule, currency: string, original: int)
    requires Factor(s, currency).Some?
    ensures var x, rate := Convert(Factor(s, currency).value, original), UsableRate(s);
            && (currency == s.currency ==> x == original)
            && (currency == "INR" && s.currency == "USD" && rate.Some? ==>
                  Within(At(x, rate.value), original as real, rate.value / 2.0))
            && (currency == "USD" && s.currency == "INR" && rate.Some? ==>
                  Within(x as real, At(original, rate.value), 0.5))
  {
    hide Convert, Factor;
    var f := Factor(s, currency);
    FactorAnswers(s, currency);
    if currency == s.currency {
      SameCurrencyIsExact(s, original);
    } else {
      ConvertIsClose(f.value, original);
      if currency == "INR" && s.currency == "USD" && UsableRate(s).Some? {
        Rescale(Convert(f.value, original) as real, original as real, UsableRate(s).value);
      }
    }
  }

  lemma Rescale(x: real, original: real, rate: real)
    requires rate > 0.0 && -0.5 <= x - original * (1.0 / rate) <= 0.5
    ensures Within(x * rate, original, rate / 2.0)
  {
    var y := x - original * (1.0 / rate);
    assert original * (1.0 / rate) * rate == original;
    assert y * rate == x * rate - original;
    Scaled(y, rate);
  }

  lemma Scaled(y: real, rate: real)
    requires rate > 0.0 && -0.5 <= y <= 0.5
    ensures -rate / 2.0 <= y * rate <= rate / 2.0
  {
    assert (0.5 - y) * rate >= 0.0 && (y + 0.5) * rate >= 0.0;
  }

  lemma AtAdds(x: int, y: int, rate: real)
    ensures At(x + y, rate) == At(x, rate) + At(y, rate)
    ensures At(0, rate) == 0.0 && At(1, rate) == rate
  {
  }

  lemma WithinAdds(x: real, exact: real, slack: real, y: real, more: real, extra: real)
    requires Within(x, exact, slack) && Within(y, more, extra)
    ensures Within(x + y, exact + more, slack + extra)
  {
  }

  lemma {:induction false} DollarReport(payments: seq<Payment>, s: Schedule)
    requires s.currency == "USD" && UsableRate(s).Some?
    ensures var rate := UsableRate(s).value;
            Within(At(Aggregate(payments, s).revenueMinor, rate),
                   At(Total(payments, "USD"), rate) + Total(payments, "INR") as real,
                   At(CountIn(payments, "INR"), rate) / 2.0)
  {
    hide Include, At, Within, Worth, UsableRate;
    var rate := UsableRate(s).value;
    AtAdds(0, 0, rate);
    if payments == [] {
      Exactly(At(0, rate));
    } else {
      var n := |payments| - 1;
      var p, before, rest := payments[n], Aggregate(payments[..n], s), payments[..n];
      DollarReport(rest, s);
      var d, usd := Aggregate(payments, s).revenueMinor - before.revenueMinor, if p.currency == "USD" then Worth(p) else 0;
      var inr, one := if p.currency == "INR" then Worth(p) else 0, if p.currency == "INR" && Worth(p) != 0 then 1 else 0;
      DollarPart(before, s, p);
      WithinAdds(At(before.revenueMinor, rate), At(Total(rest, "USD"), rate) + Total(rest, "INR") as real,
                 At(CountIn(rest, "INR"), rate) / 2.0, At(d, rate), At(usd, rate) + inr as real, At(one, rate) / 2.0);
      AtAdds(before.revenueMinor, d, rate);
      AtAdds(Total(rest, "USD"), usd, rate);
      AtAdds(CountIn(rest, "INR"), one, rate);
    }
  }

  lemma Exactly(x: real)
    ensures Within(x, x, 0.0)
  {
  }

  lemma DollarPart(r: Report, s: Schedule, p: Payment)
    requires s.currency == "USD" && UsableRate(s).Some?
    ensures var d, rate := Include(r, s, p).revenueMinor - r.revenueMinor, UsableRate(s).value;
            Within(At(d, rate), At(if p.currency == "USD" then Worth(p) else 0, rate)
                                + (if p.currency == "INR" then Worth(p) else 0) as real,
                   At(if p.currency == "INR" && Worth(p) != 0 then 1 else 0, rate) / 2.0)
  {
    hide Include;
    IncludeAdds(r, s, p);
    AtAdds(0, 0, UsableRate(s).value);
  }

  lemma {:induction false} RupeeReport(payments: seq<Payment>, s: Schedule)
    requires s.currency == "INR" && UsableRate(s).Some?
    ensures var rate := UsableRate(s).value;
            Within(Aggregate(payments, s).revenueMinor as real,
                   Total(payments, "INR") as real + At(Total(payments, "USD"), rate),
                   CountIn(payments, "USD") as real / 2.0)
  {
    hide Include, At, Within, Worth, UsableRate;
    var rate := UsableRate(s).value;
    AtAdds(0, 0, rate);
    if payments == [] {
      Exactly(0.0);
    } else {
      var n := |payments| - 1;
      var p, before, rest := payments[n], Aggregate(payments[..n], s), payments[..n];
      RupeeReport(rest, s);
      var d, usd := Aggregate(payments, s).revenueMinor - before.revenueMinor, if p.currency == "USD" then Worth(p) else 0;
      var inr, one := if p.currency == "INR" then Worth(p) else 0, if p.currency == "USD" && Worth(p) != 0 then 1 else 0;
      RupeePart(before, s, p);
      WithinAdds(before.revenueMinor as real, Total(rest, "INR") as real + At(Total(rest, "USD"), rate),
                 CountIn(rest, "USD") as real / 2.0, d as real, inr as real + At(usd, rate), one as real / 2.0);
      AtAdds(Total(rest, "USD"), usd, rate);
    }
  }

  lemma RupeePart(r: Report, s: Schedule, p: Payment)
    requires s.currency == "INR" && UsableRate(s).Some?
    ensures var d, rate := Include(r, s, p).revenueMinor - r.revenueMinor, UsableRate(s).value;
            Within(d as real, (if p.currency == "INR" then Worth(p) else 0) as real
                              + At(if p.currency == "USD" then Worth(p) else 0, rate),
                   (if p.currency == "USD" && Worth(p) != 0 then 1 else 0) as real / 2.0)
  {
    hide Include;
    IncludeAdds(r, s, p);
    AtAdds(0, 0, UsableRate(s).value);
  }

  lemma {:induction false} OneCurrencyReport(payments: seq<Payment>, s: Schedule)
    ensures UsableRate(s).None? || (s.currency != "USD" && s.currency != "INR") ==>
              Aggregate(payments, s).revenueMinor == Total(payments, s.currency)
    ensures Aggregate(payments, s).excluded == CountHidden(payments, s)
  {
    hide Include, Worth, UsableRate;
    if payments != [] {
      var n := |payments| - 1;
      OneCurrencyReport(payments[..n], s);
      IncludeAdds(Aggregate(payments[..n], s), s, payments[n]);
    }
  }

  /**
  The revenue is the total in the report's own currency, plus the total in the other of the pair at the schedule's rate:
  divided by it in a dollar report, times it in a rupee report, within half a minor unit for each converted payment.
  A payment is left out exactly if the report does not show its currency.
  */
  lemma {:induction false} RevenueAnswers(payments: seq<Payment>, s: Schedule)
    ensures var r, rate, own := Aggregate(payments, s), UsableRate(s), Total(payments, s.currency);
            && (rate.None? || (s.currency != "USD" && s.currency != "INR") ==> r.revenueMinor == own)
            && (rate.Some? && s.currency == "USD" ==>
                  Within(At(r.revenueMinor, rate.value), At(own, rate.value) + Total(payments, "INR") as real,
                         At(CountIn(payments, "INR"), rate.value) / 2.0))
            && (rate.Some? && s.currency == "INR" ==>
                  Within(r.revenueMinor as real, own as real + At(Total(payments, "USD"), rate.value),
                         CountIn(payments, "USD") as real / 2.0))
            && r.excluded == CountHidden(payments, s)
  {
    hide Aggregate, Total, CountIn, CountHidden, At, Within;
    OneCurrencyReport(payments, s);
    if UsableRate(s).Some? && s.currency == "USD" {
      DollarReport(payments, s);
    } else if UsableRate(s).Some? && s.currency == "INR" {
      RupeeReport(payments, s);
    }
  }

  /** One payment is converted by its magnitude, halves upwards, and keeps its sign: a refund mirrors a receipt. */
  lemma {:induction false} OnePaymentRoundsHalfUp(s: Schedule, p: Payment)
    requires s.currency == "INR" && p.currency == "USD" && UsableRate(s).Some?
    ensures var d, w, rate := Aggregate([p], s).revenueMinor, Worth(p), UsableRate(s).value;
            if w >= 0 then -0.5 < d as real - w as real * rate <= 0.5 else -0.5 <= d as real - w as real * rate < 0.5
  {
    hide Include, Factor, Convert;
    assert [p][..0] == [];
    IncludeConverts(NOTHING, s, p);
    FactorAnswers(s, p.currency);
    var rate, w := UsableRate(s).value, Worth(p);
    if w != 0 {
      MagnitudeRounds(rate, w);
    }
  }

  lemma MagnitudeRounds(f: real, w: int)
    ensures var x := Convert(f, w);
            if w >= 0 then -0.5 < x as real - w as real * f <= 0.5 else -0.5 <= x as real - w as real * f < 0.5
  {
    if w < 0 {
      assert Abs(w) as real * f == -(w as real * f);
    }
  }

  function Only(payments: seq<Payment>, wanted: Payment -> bool): seq<Payment> {
    if payments == [] then []
    else
      var n := |payments| - 1;
      Only(payments[..n], wanted) + if wanted(payments[n]) then [payments[n]] else []
  }

  function ForTiming(key: string): Payment -> bool {
    (p: Payment) => p.lockedTiming == Some(key) || (p.lockedTiming.None? && key == "UNSPECIFIED")
  }

  function ForAudience(key: string): Payment -> bool {
    (p: Payment) => p.audience == key
  }

  function InCurrency(currency: string): Payment -> bool {
    (p: Payment) => p.currency == currency
  }

  function MoneyIn(): Payment -> bool {
    (p: Payment) => Worth(p) > 0
  }

  function MoneyOut(): Payment -> bool {
    (p: Payment) => Worth(p) < 0
  }

  function OnlyWorth(payments: seq<Payment>, wanted: Payment -> bool): int {
    if payments == [] then 0
    else
      var n := |payments| - 1;
      OnlyWorth(payments[..n], wanted) + if wanted(payments[n]) then Worth(payments[n]) else 0
  }

  lemma {:induction false} OnlyLast(payments: seq<Payment>, wanted: Payment -> bool, s: Schedule)
    requires payments != []
    ensures var n := |payments| - 1;
            Aggregate(Only(payments, wanted), s)
            == if wanted(payments[n]) then Include(Aggregate(Only(payments[..n], wanted), s), s, payments[n])
               else Aggregate(Only(payments[..n], wanted), s)
  {
    hide Include;
    var n := |payments| - 1;
    if wanted(payments[n]) {
      AggregateLast(Only(payments[..n], wanted), payments[n], s);
    } else {
      assert Only(payments, wanted) == Only(payments[..n], wanted);
    }
  }

  /** What one payment moves in each figure of the report. */
  lemma IncludeMoves(r: Report, s: Schedule, p: Payment, key: string)
    ensures var after, d := Include(r, s, p), Include(r, s, p).revenueMinor - r.revenueMinor;
            && Row(after.timing, key) == Row(r.timing, key) + (if ForTiming(key)(p) then d else 0)
            && Row(after.audience, key) == Row(r.audience, key) + (if p.audience == key then d else 0)
            && after.capturedMinor == r.capturedMinor + (if Worth(p) > 0 then d else 0)
            && after.refundedMinor == r.refundedMinor - (if Worth(p) < 0 then d else 0)
            && ConvertedRow(after.sources, key) == ConvertedRow(r.sources, key) + (if p.currency == key then d else 0)
  {
    hide Convert, Factor;
  }

  /** What a payment adds does not depend on the report so far. */
  lemma SameAddition(r: Report, q: Report, s: Schedule, p: Payment)
    ensures Include(r, s, p).revenueMinor - r.revenueMinor == Include(q, s, p).revenueMinor - q.revenueMinor
  {
    hide Convert, Factor, NextSource;
  }

  function ConvertedRow(m: map<string, Source>, key: string): int {
    if key in m && m[key].convertedMinor.Some? then m[key].convertedMinor.value else 0
  }

  /**
  Each row and total of the report is the revenue of its own payments: of one timing, of one audience, of one currency,
  of the receipts, and, with the sign turned, of the refunds.
  */
  lemma {:induction false} RowsAreReports(payments: seq<Payment>, s: Schedule, key: string)
    ensures var r := Aggregate(payments, s);
            && Row(r.timing, key) == Aggregate(Only(payments, ForTiming(key)), s).revenueMinor
            && Row(r.audience, key) == Aggregate(Only(payments, ForAudience(key)), s).revenueMinor
            && ConvertedRow(r.sources, key) == Aggregate(Only(payments, InCurrency(key)), s).revenueMinor
            && r.capturedMinor == Aggregate(Only(payments, MoneyIn()), s).revenueMinor
            && r.refundedMinor == -Aggregate(Only(payments, MoneyOut()), s).revenueMinor
  {
    hide Include, ConvertedRow, Row, Aggregate, Only;
    if payments == [] {
      EmptyRows(s, key);
    } else {
      var n := |payments| - 1;
      RowsAreReports(payments[..n], s, key);
      LastIncluded(payments, s);
      IncludeMoves(Aggregate(payments[..n], s), s, payments[n], key);
      RowMoves(payments, s, ForTiming(key));
      RowMoves(payments, s, ForAudience(key));
      RowMoves(payments, s, InCurrency(key));
      RowMoves(payments, s, MoneyIn());
      RowMoves(payments, s, MoneyOut());
    }
  }

  lemma {:induction false} LastIncluded(payments: seq<Payment>, s: Schedule)
    requires payments != []
    ensures Aggregate(payments, s) == Include(Aggregate(payments[..|payments| - 1], s), s, payments[|payments| - 1])
  {
  }

  lemma {:induction false} EmptyRows(s: Schedule, key: string)
    ensures Aggregate([], s) == NOTHING
    ensures Row(NOTHING.timing, key) == Row(NOTHING.audience, key) == ConvertedRow(NOTHING.sources, key) == 0
    ensures forall f :: Only([], f) == []
  {
  }

  lemma {:induction false} RowMoves(payments: seq<Payment>, s: Schedule, wanted: Payment -> bool)
    requires payments != []
    ensures var n := |payments| - 1;
            Aggregate(Only(payments, wanted), s).revenueMinor
            == Aggregate(Only(payments[..n], wanted), s).revenueMinor
               + if wanted(payments[n]) then Aggregate(payments, s).revenueMinor - Aggregate(payments[..n], s).revenueMinor else 0
  {
    hide Include;
    var n := |payments| - 1;
    OnlyLast(payments, wanted, s);
    SameAddition(Aggregate(payments[..n], s), Aggregate(Only(payments[..n], wanted), s), s, payments[n]);
  }

  /** The original amounts of one currency: what came in, what went out, and by how many payments. */
  lemma {:induction false} SourcesAnswer(payments: seq<Payment>, s: Schedule, currency: string)
    ensures var sources := Aggregate(payments, s).sources;
            && (currency in sources <==> CountIn(payments, currency) > 0)
            && (currency in sources ==>
                  && sources[currency].paymentCount == CountIn(payments, currency)
                  && sources[currency].netMinor == Total(payments, currency)
                  && sources[currency].capturedMinor == OnlyWorth(Only(payments, InCurrency(currency)), MoneyIn())
                  && sources[currency].refundedMinor == -OnlyWorth(Only(payments, InCurrency(currency)), MoneyOut())
                  && (sources[currency].convertedMinor.Some? <==> Shows(s, currency)))
            && (currency !in sources ==>
                  && Total(payments, currency) == 0
                  && OnlyWorth(Only(payments, InCurrency(currency)), MoneyIn()) == 0
                  && OnlyWorth(Only(payments, InCurrency(currency)), MoneyOut()) == 0)
  {
    if payments != [] {
      var n := |payments| - 1;
      SourcesAnswer(payments[..n], s, currency);
      OnlyWorthLast(payments, InCurrency(currency), MoneyIn());
      OnlyWorthLast(payments, InCurrency(currency), MoneyOut());
      hide Convert, Only, OnlyWorth;
      IncludeSource(Aggregate(payments[..n], s), s, payments[n], currency);
      hide Include;
    }
  }

  lemma {:induction false} OnlyWorthLast(payments: seq<Payment>, f: Payment -> bool, g: Payment -> bool)
    requires payments != []
    ensures var n := |payments| - 1;
            OnlyWorth(Only(payments, f), g)
            == OnlyWorth(Only(payments[..n], f), g)
               + if f(payments[n]) && g(payments[n]) then Worth(payments[n]) else 0
  {
    var n := |payments| - 1;
    var before := Only(payments[..n], f);
    if f(payments[n]) {
      assert (before + [payments[n]])[..|before|] == before;
    } else {
      assert Only(payments, f) == before;
    }
  }

  lemma IncludeSource(r: Report, s: Schedule, p: Payment, currency: string)
    ensures var sources := Include(r, s, p).sources;
            if p.currency != currency || Worth(p) == 0 then
              (currency in sources <==> currency in r.sources)
              && (currency in sources ==> sources[currency] == r.sources[currency])
            else
              && currency in sources
              && var before := if currency in r.sources then r.sources[currency] else Source(0, 0, 0, None, 0);
                 var source := sources[currency];
                 && source.paymentCount == before.paymentCount + 1 && source.netMinor == before.netMinor + Worth(p)
                 && source.capturedMinor == before.capturedMinor + (if Worth(p) > 0 then Worth(p) else 0)
                 && source.refundedMinor == before.refundedMinor - (if Worth(p) < 0 then Worth(p) else 0)
                 && (source.convertedMinor.Some? <==> Shows(s, currency) || before.convertedMinor.Some?)
  {
    hide Convert;
  }

  // ---- refunds ---------------------------------------------------------------------------------------------------

  predicate Reverses(refund: Payment, receipt: Payment) {
    && !receipt.refund && receipt.status == CAPTURED
    && refund.refund && (refund.status == REFUNDED || refund.status == PARTIALLY_REFUNDED)
    && refund.amountMinor == receipt.amountMinor && refund.currency == receipt.currency
    && refund.audience == receipt.audience && refund.lockedTiming == receipt.lockedTiming
  }

  function Row(m: map<string, int>, key: string): int {
    if key in m then m[key] else 0
  }

  /** A refund takes out exactly what an equal receipt put in, in the total and in every row, at any rate. */
  lemma {:induction false} RefundReversesReceipt(payments: seq<Payment>, s: Schedule, receipt: Payment,
                                                 refund: Payment, key: string)
    requires Reverses(refund, receipt) && receipt.amountMinor >= 0
    ensures var r, after := Aggregate(payments, s), Aggregate(payments + [receipt] + [refund], s);
            && after.revenueMinor == r.revenueMinor
            && Row(after.timing, key) == Row(r.timing, key) && Row(after.audience, key) == Row(r.audience, key)
            && after.capturedMinor - r.capturedMinor == after.refundedMinor - r.refundedMinor
  {
    hide Include;
    assert (payments + [receipt])[..|payments|] == payments;
    assert (payments + [receipt] + [refund])[..|payments| + 1] == payments + [receipt];
    PairCancels(Aggregate(payments, s), s, receipt, refund, key);
  }

  lemma PairCancels(r: Report, s: Schedule, receipt: Payment, refund: Payment, key: string)
    requires Reverses(refund, receipt) && receipt.amountMinor >= 0
    ensures var after := Include(Include(r, s, receipt), s, refund);
            && after.revenueMinor == r.revenueMinor
            && Row(after.timing, key) == Row(r.timing, key) && Row(after.audience, key) == Row(r.audience, key)
            && after.capturedMinor - r.capturedMinor == after.refundedMinor - r.refundedMinor
  {
    hide Factor, NextSource, RoundHalfUp;
    var amount := receipt.amountMinor;
    assert Contribution(receipt) == amount && Contribution(refund) == -amount && Timing(refund) == Timing(receipt);
    var f := Factor(s, receipt.currency);
    if amount != 0 && f.Some? {
      assert Convert(f.value, -amount) == -Convert(f.value, amount);
    }
  }

  // ---- the other report ------------------------------------------------------------------------------------------

  /** Both currency reports leave out the same payments. */
  lemma {:induction false} BothReportsExcludeTheSame(payments: seq<Payment>, s: Schedule)
    requires OtherCurrency(s).Some?
    ensures Aggregate(payments, OtherCurrency(s).value).excluded == Aggregate(payments, s).excluded
    ensures forall i :: 0 <= i < |payments| ==> (Counted(payments[i], s) <==> Counted(payments[i], OtherCurrency(s).value))
  {
    if payments != [] {
      BothReportsExcludeTheSame(payments[..|payments| - 1], s);
    }
  }

  // ---- order -----------------------------------------------------------------------------------------------------

  lemma SourcesCommute(before: Option<Source>, f: Option<real>, a: int, b: int)
    ensures NextSource(Some(NextSource(before, f, a)), f, b) == NextSource(Some(NextSource(before, f, b)), f, a)
  {
    hide Convert;
  }

  lemma PlusCommutes(m: map<string, int>, j: string, x: int, k: string, y: int)
    ensures Plus(Plus(m, j, x), k, y) == Plus(Plus(m, k, y), j, x)
  {
  }

  /** Two payments can be taken in either order. */
  lemma BookCommutes(r: Report, c: string, f: Option<real>, x: int, t: string, u: string,
                     d: string, g: Option<real>, y: int, v: string, w: string)
    requires c == d ==> f == g
    ensures Book(Book(r, c, f, x, t, u), d, g, y, v, w) == Book(Book(r, d, g, y, v, w), c, f, x, t, u)
  {
    hide Convert, AddSource, Plus;
    AddSourcesCommute(r.sources, c, f, x, d, g, y);
    if f.Some? && g.Some? {
      PlusCommutes(r.timing, t, Convert(f.value, x), v, Convert(g.value, y));
      PlusCommutes(r.audience, u, Convert(f.value, x), w, Convert(g.value, y));
    }
  }

  lemma AddSourcesCommute(m: map<string, Source>, c: string, f: Option<real>, x: int, d: string, g: Option<real>,
                          y: int)
    requires c == d ==> f == g
    ensures AddSource(AddSource(m, c, f, x), d, g, y) == AddSource(AddSource(m, d, g, y), c, f, x)
  {
    hide NextSource;
    SourcesCommute(SourceOf(m, c), f, x, y);
    assert AddSource(AddSource(m, c, f, x), d, g, y) == AddSource(AddSource(m, d, g, y), c, f, x);
  }

  lemma IncludeCommutes(r: Report, s: Schedule, p: Payment, q: Payment)
    ensures Include(Include(r, s, p), s, q) == Include(Include(r, s, q), s, p)
  {
    hide Factor, Book, Contribution;
    BookCommutes(r, p.currency, Factor(s, p.currency), Contribution(p), Timing(p), p.audience,
                 q.currency, Factor(s, q.currency), Contribution(q), Timing(q), q.audience);
  }

  lemma {:induction false} AggregateLast(payments: seq<Payment>, p: Payment, s: Schedule)
    ensures Aggregate(payments + [p], s) == Include(Aggregate(payments, s), s, p)
  {
    assert (payments + [p])[..|payments|] == payments;
  }

  lemma {:induction false} MoveToEnd(before: seq<Payment>, p: Payment, after: seq<Payment>, s: Schedule)
    ensures Aggregate(before + [p] + after, s) == Aggregate(before + after + [p], s)
    decreases |after|
  {
    hide Include;
    if after == [] {
      assert before + [p] + after == before + after + [p];
    } else {
      var n := |after| - 1;
      var q := after[n];
      var both := before + after[..n];
      MoveToEnd(before, p, after[..n], s);
      assert before + [p] + after == before + [p] + after[..n] + [q];
      assert before + after + [p] == both + [q] + [p];
      AggregateLast(before + [p] + after[..n], q, s);
      AggregateLast(both, p, s);
      AggregateLast(both, q, s);
      AggregateLast(both + [q], p, s);
      IncludeCommutes(Aggregate(both, s), s, p, q);
    }
  }

  /** The report does not depend on the order of the payments. */
  lemma {:induction false} ReportIsOrderFree(a: seq<Payment>, b: seq<Payment>, s: Schedule)
    requires multiset(a) == multiset(b)
    ensures Aggregate(a, s) == Aggregate(b, s)
    decreases |a|
  {
    hide Include;
    if a == [] {
      assert |multiset(b)| == 0;
    } else {
      var n := |a| - 1;
      WithoutLast(a);
      var k := FindRow(b, a[n]);
      var rest := b[..k] + b[k + 1..];
      ReportIsOrderFree(a[..n], rest, s);
      MoveToEnd(b[..k], a[n], b[k + 1..], s);
      AggregateLast(rest, a[n], s);
    }
  }
}
