/** Exactly when an invoice can be made, said of the session, its samples, its intervals and the tariffs. */
module InvoiceConditions {
  import opened Prelude
  import opened Calendar
  import opened Interpolation
  import opened Segmentation
  import opened Invoicing
  import opened InvoiceCreation
  import opened InvoiceProofs
  import HarmlessSamples
  import TariffPrices
  import Bands
  import DailyTotals
  import IdleFee

  /** A tariff is in force that day, and its bands are valid and hold every minute exactly once. */
  ghost predicate DayHasTariff(tariffs: seq<Tariff>, d: int) {
    exists t :: EffectiveTariff(tariffs, d) == Some(t) && Bands.AllValid(t.bands)
                && forall m :: 0 <= m < Bands.DAY_MINUTES ==> TariffPrices.HeldOnce(t.bands, m)
  }

  lemma DayPricedIff(tariffs: seq<Tariff>, d: int)
    ensures DayPricing(tariffs, d).Ok? <==> DayHasTariff(tariffs, d)
  {
    match EffectiveTariff(tariffs, d)
    case None =>
    case Some(t) => TariffPrices.AcceptedIffHeldOnce(t.bands);
  }

  lemma {:induction false} SpanPricedIff(tariffs: seq<Tariff>, first: int, last: int)
    ensures PricingThrough(tariffs, first, last).Ok? <==> forall d :: first <= d <= last ==> DayHasTariff(tariffs, d)
    decreases last - first
  {
    if last < first {
    } else {
      SpanPricedIff(tariffs, first, last - 1);
      DayPricedIff(tariffs, last);
    }
  }

  /** At most one confirmed interval, ended by the release. */
  ghost predicate OneOccupation(e: Evidence)
    requires Invoiceable(e.session)
  {
    e.session.lifecycle == V1 ==>
      && |Billed(e)| <= 1
      && (Billed(e) != [] ==> Billed(e)[0].endedAt == e.session.releasedAt && Billed(e)[0].endReason == Some(Released))
  }

  /** The last instant that is charged. */
  function ChargedUntil(e: Evidence): int
    requires Invoiceable(e.session)
  {
    if Billed(e) == [] then e.session.endedAt.value else Max(e.session.endedAt.value, e.session.releasedAt.value)
  }

  ghost predicate DaysHaveTariffs(e: Evidence)
    requires Invoiceable(e.session)
  {
    forall d :: LocalDate(e.session.startedAt, e.off) <= d <= LocalDate(ChargedUntil(e) - 1, e.off) ==>
      DayHasTariff(e.tariffs, d)
  }

  /** The row admits an invoice: station, driver, authorization and times. */
  predicate Admissible(e: Evidence)
    requires Invoiceable(e.session)
  {
    e.sameStation && e.session.driver.Some? && e.session.accepted && e.session.startedAt < e.session.endedAt.value
  }

  /** Everything but the amounts. */
  ghost predicate Billable(e: Evidence)
    requires Invoiceable(e.session)
  {
    && Admissible(e) && HarmlessSamples.Orderly(e.session, e.samples, e.session.endedAt.value)
    && OneOccupation(e) && DaysHaveTariffs(e)
  }

  lemma AdmissibleIff(e: Evidence)
    requires Invoiceable(e.session)
    ensures Admission(e).None? <==> Admissible(e)
    ensures Admission(e) == Some(SessionMismatch) <==> !e.sameStation
    ensures Admission(e) == Some(MissingDriver) <==> e.sameStation && e.session.driver.None?
    ensures Admission(e) == Some(Unauthorized) <==> e.sameStation && e.session.driver.Some? && !e.session.accepted
  {
  }

  lemma DaysIff(e: Evidence)
    requires Invoiceable(e.session)
    ensures DaysHaveTariffs(e) <==> DailyPricing(e.tariffs, e.session.startedAt, BillingEnd(e), e.off).Ok?
  {
    SpanPricedIff(e.tariffs, LocalDate(e.session.startedAt, e.off), LocalDate(ChargedUntil(e) - 1, e.off));
  }

  lemma OccupationIff(e: Evidence)
    requires Invoiceable(e.session)
    ensures OneOccupation(e) <==> (e.session.lifecycle.V1? ==> HistoryAccepted(Billed(e), e.session.releasedAt.value))
  {
  }

  lemma {:induction false} BillableParts(e: Evidence, readings: Result<seq<Reading>, Reason>, pricing: Result<Pricing, Reason>)
    requires Invoiceable(e.session)
    requires readings == MeterValues(e.session, e.samples, e.session.endedAt.value)
    requires pricing == DailyPricing(e.tariffs, e.session.startedAt, BillingEnd(e), e.off)
    ensures Billable(e) <==>
            Admissible(e) && readings.Ok? && pricing.Ok?
            && (e.session.lifecycle.V1? ==> HistoryAccepted(Billed(e), e.session.releasedAt.value))
  {
    if Admissible(e) {
      HarmlessSamples.AcceptedIffOrderly(e.session, e.samples, e.session.endedAt.value);
    }
    DaysIff(e);
    OccupationIff(e);
  }

  lemma BillableIff(e: Evidence)
    requires Invoiceable(e.session)
    ensures Billable(e) <==> exists rs, p :: PricedFrom(e, rs, p) && Admission(e).None?
  {
    var readings := MeterValues(e.session, e.samples, e.session.endedAt.value);
    var pricing := DailyPricing(e.tariffs, e.session.startedAt, BillingEnd(e), e.off);
    AdmissibleIff(e);
    BillableParts(e, readings, pricing);
    if Billable(e) {
      assert PricedFrom(e, readings.value, pricing.value);
    }
  }

  /** The amounts of the lines, or their sum, do not fit the ledger. */
  ghost predicate TooLarge(e: Evidence, rs: seq<Reading>, p: Pricing)
    requires PricedFrom(e, rs, p)
  {
    PricedSegments(e, rs, p);
    IdleDaysKnown(e, p);
    var energy := Segments(e.session.startedAt, e.session.endedAt.value, rs, p.frames, e.off).value;
    var idle := IdleFee.IdleLines(e.session.startedAt, IdleSpan(e).0, IdleSpan(e).1, p.versions, e.off);
    idle.Ok? && (|| DailyTotals.AmountTotal(energy) + IdleFee.AmountTotal(idle.value) > MAX_VND
                 || (exists i :: 0 <= i < |energy| && energy[i].amount > MAX_VND)
                 || (exists i :: 0 <= i < |idle.value| && idle.value[i].amount > MAX_VND))
  }

  lemma PricedIff(e: Evidence, rs: seq<Reading>, p: Pricing)
    requires PricedFrom(e, rs, p) && Admission(e).None?
    ensures CreatedInvoice(e).Ok? <==> IdleSpanInside(e) && !TooLarge(e, rs, p)
  {
    PricedIsAssembled(e, rs, p);
    BilledIsPriced(e, rs, p);
    IdleAccepted(e.session.startedAt, IdleSpan(e).0, IdleSpan(e).1, p.versions, e.off);
  }

  /** An invoice is made if and only if the row admits it, the samples run in order from start meter to stop meter,
      at most one interval is billed and ends with the release, every local day up to the last charged instant has
      a tariff that prices each minute once, the occupation lies inside the session, and the amounts fit. */
  lemma InvoicedIff(e: Evidence)
    requires Invoiceable(e.session)
    ensures CreatedInvoice(e).Ok? <==>
            && Billable(e) && IdleSpanInside(e)
            && exists rs, p :: PricedFrom(e, rs, p) && !TooLarge(e, rs, p)
  {
    BillableIff(e);
    if CreatedInvoice(e).Ok? {
      var rs := MeterValues(e.session, e.samples, e.session.endedAt.value).value;
      var p := DailyPricing(e.tariffs, e.session.startedAt, BillingEnd(e), e.off).value;
      assert PricedFrom(e, rs, p);
      PricedIff(e, rs, p);
    } else if Billable(e) && IdleSpanInside(e) {
      forall rs, p | PricedFrom(e, rs, p) ensures TooLarge(e, rs, p) {
        PricedIff(e, rs, p);
      }
    }
  }
}
