/** Fee lookup and quoting: apps/api/src/billing/fee-resolver.ts. */
module FeeResolver {
  import opened Common
  import opened Billing

  datatype Schedule = Schedule(
    currency: string,
    earlyBirdEndsAt: Option<int>,
    additionalPaper: Option<int>,
    inrPerUsd: Option<real>,
    matrix: map<(Audience, Timing), int>)

  datatype Quote = Quote(amount: int, regularAmount: int, currency: string, timing: Timing, isAdditionalPaper: bool)

  const MIN_PAYABLE := 100
  const MAX_INT32 := 2_147_483_647

  function ResolveTiming(at: int, earlyBirdEndsAt: Option<int>): Timing {
    if earlyBirdEndsAt.Some? && at < earlyBirdEndsAt.value then Early else Regular
  }

  function MatrixAmount(schedule: Schedule, audience: Audience, timing: Timing): Option<int> {
    if (audience, timing) in schedule.matrix then Some(schedule.matrix[(audience, timing)]) else None
  }

  predicate Chargeable(amount: int) {
    MIN_PAYABLE <= amount <= MAX_INT32
  }

  predicate ValidQuote(q: Quote) {
    Chargeable(q.amount) && Chargeable(q.regularAmount)
  }

  /** The rate that turns an amount of the schedule into the charged currency, None when pricing is not set up. */
  function ChargeRate(schedule: Schedule, country: Option<string>): Option<(real, string)> {
    if schedule.currency != "USD" then Some((1.0, schedule.currency))
    else if country.None? then None
    else if country.value == "IN" then
      if schedule.inrPerUsd.None? then None else Some((schedule.inrPerUsd.value, "INR"))
    else Some((1.0, "USD"))
  }

  /** A fee at a rate, rounded once. */
  function Charged(fee: int, rate: real): int {
    RoundHalfUp(fee as real * rate)
  }

  function QuoteRegistration(
    schedule: Schedule, audience: Audience, country: Option<string>, hasPaidBasePaper: bool, now: int
  ): (q: Option<Quote>)
    ensures q.Some? ==> ValidQuote(q.value)
  {
    var timing := ResolveTiming(now, schedule.earlyBirdEndsAt);
    var additional := hasPaidBasePaper && schedule.additionalPaper.Some?;
    var amount := if additional then schedule.additionalPaper else MatrixAmount(schedule, audience, timing);
    var regular := if additional then schedule.additionalPaper else MatrixAmount(schedule, RegularAudience, timing);
    var rate := ChargeRate(schedule, country);
    if amount.None? || regular.None? || rate.None? then None
    else
      var (factor, currency) := rate.value;
      var q := Quote(Charged(amount.value, factor), Charged(regular.value, factor), currency, timing, additional);
      if ValidQuote(q) then Some(q) else None
  }

  /** The regular price kept with a quote is what a regular author would have been quoted at the same moment. */
  lemma RegularPriceIsRegularQuote(schedule: Schedule, audience: Audience, country: Option<string>, base: bool, now: int)
    ensures var q := QuoteRegistration(schedule, audience, country, base, now);
            var r := QuoteRegistration(schedule, RegularAudience, country, base, now);
            q.Some? ==>
              && r.Some? && q.value.regularAmount == r.value.amount == r.value.regularAmount
              && q.value.currency == r.value.currency && q.value.timing == r.value.timing
              && (audience == RegularAudience || q.value.isAdditionalPaper ==> q.value.amount == q.value.regularAmount)
  {
  }

  /** A quote is the scheduled fee at the charge rate, rounded once; a fee charged as scheduled is not touched. */
  lemma QuoteIsTheScheduledFee(schedule: Schedule, audience: Audience, country: Option<string>, base: bool, now: int)
    ensures var q := QuoteRegistration(schedule, audience, country, base, now);
            q.Some? ==>
              var additional := base && schedule.additionalPaper.Some?;
              var fee := if additional then schedule.additionalPaper else MatrixAmount(schedule, audience, q.value.timing);
              var rate := ChargeRate(schedule, country);
              && fee.Some? && rate.Some? && q.value.isAdditionalPaper == additional
              && q.value.timing == ResolveTiming(now, schedule.earlyBirdEndsAt) && q.value.currency == rate.value.1
              && -0.5 <= q.value.amount as real - fee.value as real * rate.value.0 <= 0.5
              && (rate.value.0 == 1.0 ==> q.value.amount == fee.value)
  {
  }

  /** The scheduled fee: the one for additional papers once a base paper is paid, else by audience and early-bird end. */
  function ScheduledFee(s: Schedule, audience: Audience, base: bool, now: int): Option<int> {
    if base && s.additionalPaper.Some? then s.additionalPaper
    else
      var key := (audience, if s.earlyBirdEndsAt.Some? && now < s.earlyBirdEndsAt.value then Early else Regular);
      if key in s.matrix then Some(s.matrix[key]) else None
  }

  /** An Indian payer of a dollar schedule is charged rupees. */
  predicate PaysRupees(s: Schedule, country: Option<string>) {
    s.currency == "USD" && country == Some("IN")
  }

  /** The charge for a fee: rounded half up at the rupee rate, else as scheduled. */
  predicate IsCharge(amount: int, fee: int, s: Schedule, country: Option<string>) {
    if PaysRupees(s, country) then
      s.inrPerUsd.Some? && -0.5 < amount as real - fee as real * s.inrPerUsd.value <= 0.5
    else amount == fee
  }

  ghost predicate ChargeInRange(fee: int, s: Schedule, country: Option<string>) {
    exists amount :: IsCharge(amount, fee, s, country) && 100 <= amount <= 2_147_483_647
  }

  /**
  A quote is of the early fee exactly before the early-bird end, and in rupees exactly for an Indian payer of a dollar
  schedule. There is one exactly if both fees, the payer's country and the rupee rate are there as needed, and both
  charges are in range.
  */
  lemma QuoteAnswers(s: Schedule, audience: Audience, country: Option<string>, base: bool, now: int)
    ensures var q := QuoteRegistration(s, audience, country, base, now);
            var fee, regular := ScheduledFee(s, audience, base, now), ScheduledFee(s, RegularAudience, base, now);
            && (q.Some? <==>
                  && fee.Some? && regular.Some?
                  && (s.currency == "USD" ==> country.Some? && (country.value == "IN" ==> s.inrPerUsd.Some?))
                  && ChargeInRange(fee.value, s, country) && ChargeInRange(regular.value, s, country))
            && (q.Some? ==>
                  && (q.value.timing == Early <==> s.earlyBirdEndsAt.Some? && now < s.earlyBirdEndsAt.value)
                  && q.value.currency == (if PaysRupees(s, country) then "INR" else s.currency)
                  && q.value.isAdditionalPaper == (base && s.additionalPaper.Some?)
                  && IsCharge(q.value.amount, fee.value, s, country)
                  && IsCharge(q.value.regularAmount, regular.value, s, country))
  {
    hide IsCharge, Charged, ChargeInRange;
    var fee, regular := ScheduledFee(s, audience, base, now), ScheduledFee(s, RegularAudience, base, now);
    var rate := ChargeRate(s, country);
    if fee.Some? && regular.Some? && rate.Some? {
      OneCharge(fee.value, s, country);
      OneCharge(regular.value, s, country);
    }
  }

  /** The amount the source rounds to is the only charge for a fee. */
  lemma OneCharge(fee: int, s: Schedule, country: Option<string>)
    requires ChargeRate(s, country).Some?
    ensures var amount := Charged(fee, ChargeRate(s, country).value.0);
            IsCharge(amount, fee, s, country) && (ChargeInRange(fee, s, country) <==> 100 <= amount <= 2_147_483_647)
  {
    var amount := Charged(fee, ChargeRate(s, country).value.0);
    assert IsCharge(amount, fee, s, country);
    if x :| IsCharge(x, fee, s, country) && 100 <= x <= 2_147_483_647 {
      assert x == amount;
    }
  }
}
