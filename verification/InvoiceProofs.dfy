/** What an invoice means, and which of its rejections are dead code. */
module InvoiceProofs {
  import opened Prelude
  import opened Calendar
  import opened Interpolation
  import opened Segmentation
  import opened SegmentationProofs
  import opened Invoicing
  import opened InvoiceCreation
  import Bands
  import DailyTotals
  import IdleFee
  import Money
  import TariffPrices

  /** The accepted inputs behind a created invoice. */
  ghost predicate PricedFrom(e: Evidence, rs: seq<Reading>, p: Pricing) {
    && Invoiceable(e.session) && e.session.driver.Some?
    && e.session.startedAt < e.session.endedAt.value
    && MeterValues(e.session, e.samples, e.session.endedAt.value) == Ok(rs)
    && (e.session.lifecycle.V1? ==> HistoryAccepted(Billed(e), e.session.releasedAt.value))
    && DailyPricing(e.tariffs, e.session.startedAt, BillingEnd(e), e.off) == Ok(p)
  }

  /** Once readings and tariffs are accepted, segmentation succeeds and conserves energy. */
  lemma PricedSegments(e: Evidence, rs: seq<Reading>, p: Pricing)
    requires PricedFrom(e, rs, p)
    ensures var start, end := e.session.startedAt, e.session.endedAt.value;
            && GoodReadings(rs) && Spans(start, end, rs)
            && rs[0] == Reading(start, e.session.meterStart)
            && e.session.meterStop.Some? && rs[|rs| - 1] == Reading(end, e.session.meterStop.value)
            && Segments(start, end, rs, p.frames, e.off).Ok?
            && DailyTotals.EnergyTotal(Segments(start, end, rs, p.frames, e.off).value)
               == rs[|rs| - 1].energy - rs[0].energy
  {
    var start, end := e.session.startedAt, e.session.endedAt.value;
    ReadingsGood(e.session, e.samples, end);
    PricingCovers(e.tariffs, start, end, BillingEnd(e), e.off);
    DailyTotals.EnergyConserved(start, end, rs, p.frames, e.off);
  }

  /** For every evidence whatsoever, neither a segmentation error nor `invoice_energy_mismatch` occurs. */
  lemma EnergyRejectionsUnreachable(e: Evidence)
    requires Invoiceable(e.session)
    ensures CreatedInvoice(e).Err? ==>
              CreatedInvoice(e).error != EnergyMismatch && !CreatedInvoice(e).error.SegmentationFailed?
  {
    if Admission(e).None? {
      BilledRejections(e);
    }
  }

  lemma BilledIsPriced(e: Evidence, rs: seq<Reading>, p: Pricing)
    requires PricedFrom(e, rs, p) && Admission(e).None?
    ensures rs != [] && BilledInvoice(e) == PricedInvoice(e, e.session.driver.value, rs, p)
  {
    ReadingsGood(e.session, e.samples, e.session.endedAt.value);
  }

  lemma AssembledRejections(driver: int, segments: seq<Segment>, idle: Result<seq<IdleFee.IdleLine>, IdleFee.IdleError>)
    ensures var r := Assembled(driver, segments, idle);
            r.Err? ==> r.error.AmountOverflow? || (r.error.InvalidIdleInterval? && idle.Err?)
  {
  }

  /** Once readings and tariffs are accepted, the invoice is assembled from its parts. */
  lemma PricedIsAssembled(e: Evidence, rs: seq<Reading>, p: Pricing)
    requires PricedFrom(e, rs, p)
    ensures rs != [] && IdleFee.DaysKnown(e.session.startedAt, IdleSpan(e).1, p.versions, e.off)
    ensures Segments(e.session.startedAt, e.session.endedAt.value, rs, p.frames, e.off).Ok?
    ensures PricedInvoice(e, e.session.driver.value, rs, p)
         == Assembled(e.session.driver.value, Segments(e.session.startedAt, e.session.endedAt.value, rs, p.frames, e.off).value,
                      IdleFee.IdleLines(e.session.startedAt, IdleSpan(e).0, IdleSpan(e).1, p.versions, e.off))
  {
    PricedSegments(e, rs, p);
    IdleDaysKnown(e, p);
  }

  lemma PricedRejections(e: Evidence, rs: seq<Reading>, p: Pricing)
    requires PricedFrom(e, rs, p)
    ensures rs != []
    ensures var r := PricedInvoice(e, e.session.driver.value, rs, p);
            r.Err? ==> r.error.AmountOverflow? || (r.error.InvalidIdleInterval? && !IdleSpanInside(e))
  {
    PricedIsAssembled(e, rs, p);
    var segments := Segments(e.session.startedAt, e.session.endedAt.value, rs, p.frames, e.off).value;
    var idle := IdleFee.IdleLines(e.session.startedAt, IdleSpan(e).0, IdleSpan(e).1, p.versions, e.off);
    IdleAccepted(e.session.startedAt, IdleSpan(e).0, IdleSpan(e).1, p.versions, e.off);
    AssembledRejections(e.session.driver.value, segments, idle);
  }

  /** The charged span lies between the session's start and the span's own end. */
  ghost predicate IdleSpanInside(e: Evidence)
    requires Invoiceable(e.session)
    requires e.session.lifecycle.V1? ==> HistoryAccepted(Billed(e), e.session.releasedAt.value)
  {
    var (idle, end) := IdleSpan(e);
    idle.None? || e.session.startedAt <= idle.value <= end
  }

  lemma IdleAccepted(startedAt: int, idle: Option<int>, end: int, versions: map<int, IdleFee.IdleRule>, off: int)
    requires IdleFee.DaysKnown(startedAt, end, versions, off)
    ensures IdleFee.IdleLines(startedAt, idle, end, versions, off).Ok? <==>
            idle.None? || startedAt <= idle.value <= end
  {
  }

  lemma BilledRejections(e: Evidence)
    requires Invoiceable(e.session) && Admission(e).None?
    ensures BilledInvoice(e).Err? ==>
              BilledInvoice(e).error != EnergyMismatch && !BilledInvoice(e).error.SegmentationFailed?
  {
    var s := e.session;
    var readings := MeterValues(s, e.samples, s.endedAt.value);
    var pricing := DailyPricing(e.tariffs, s.startedAt, BillingEnd(e), e.off);
    if readings.Err? {
      MeterRejections(s, e.samples, s.endedAt.value);
    } else if s.lifecycle.V1? && !HistoryAccepted(Billed(e), s.releasedAt.value) {
    } else if pricing.Err? {
      PricingRejections(e.tariffs, LocalDate(s.startedAt, e.off), LocalDate(BillingEnd(e) - 1, e.off));
    } else {
      PricedRejections(e, readings.value, pricing.value);
      BilledIsPriced(e, readings.value, pricing.value);
    }
  }

  lemma MeterRejections(s: Session, samples: map<int, int>, end: int)
    requires MeterValues(s, samples, end).Err?
    ensures var reason := MeterValues(s, samples, end).error;
            reason.InvalidMeter? || reason.ConflictingMeter? || reason.MeterDecreased?
  {
    if s.meterStop.Some? {
      MergeSucceeds(Ends(s, s.meterStop.value, end), samples, SampleStamps(s, samples, end));
    }
  }

  lemma {:induction false} PricingRejections(tariffs: seq<Tariff>, first: int, last: int)
    requires PricingThrough(tariffs, first, last).Err?
    ensures var reason := PricingThrough(tariffs, first, last).error;
            reason.MissingTariff? || reason.InvalidTariff?
    decreases last - first
  {
    if first <= last && PricingThrough(tariffs, first, last - 1).Err? {
      PricingRejections(tariffs, first, last - 1);
    }
  }

  // ---------- nonnegative rates make nonnegative invoices ----------

  lemma {:induction false} NormalizedRates(bands: seq<Bands.Band>)
    requires Bands.AllValid(bands)
    ensures forall b :: b in Bands.Normalized(bands) ==> b.rate >= 0
  {
    if bands == [] {
    } else {
      NormalizedRates(bands[..|bands| - 1]);
    }
  }

  lemma DayRates(tariffs: seq<Tariff>, day: int)
    requires DayPricing(tariffs, day).Ok?
    ensures forall f :: f in DayPricing(tariffs, day).value.1 ==> f.price >= 0
  {
    var t := EffectiveTariff(tariffs, day).value;
    var bands := Bands.CheckedBands(t.bands).value;
    NormalizedRates(t.bands);
    Bands.SortedMembers(Bands.Normalized(t.bands));
    Bands.CheckedBandsTile(t.bands);
    assert forall b :: b in bands ==> b.rate >= 0;
  }

  lemma SegmentPriceNonnegative(e: Evidence, rs: seq<Reading>, p: Pricing, s: Segment)
    requires PricedFrom(e, rs, p) && Faithful(s, rs, p.frames, e.off)
    ensures s.price >= 0
  {
    assert AttributionAt(s.from, p.frames, e.off) == Some(SegmentAttribution(s));
    var d := LocalDate(s.from, e.off);
    var f := FrameAt(FramesOn(p.frames, d), d, s.from, e.off).value;
    PricingDay(e.tariffs, LocalDate(e.session.startedAt, e.off), LocalDate(BillingEnd(e) - 1, e.off), p, d);
    DayRates(e.tariffs, d);
    assert f in p.frames[d];
  }

  lemma {:induction false} AmountTotalNonnegative(segments: seq<Segment>)
    requires forall s :: s in segments ==> s.amount >= 0
    ensures DailyTotals.AmountTotal(segments) >= 0
  {
    if segments == [] {
    } else {
      AmountTotalNonnegative(segments[..|segments| - 1]);
    }
  }

  lemma SegmentAmountNonnegative(e: Evidence, rs: seq<Reading>, p: Pricing, s: Segment)
    requires PricedFrom(e, rs, p) && Faithful(s, rs, p.frames, e.off)
    ensures s.amount >= 0
  {
    SegmentPriceNonnegative(e, rs, p, s);
    Money.VndMonotone(0, s.energy, s.price);
  }

  /** The energy part of a bill, in terms of the meter, the clock and the tariffs alone. */
  ghost predicate EnergyExplained(e: Evidence, segments: seq<Segment>, rs: seq<Reading>, p: Pricing)
    requires PricedFrom(e, rs, p)
  {
    var start, end := e.session.startedAt, e.session.endedAt.value;
    && Account(segments, start, end, rs, p.frames, e.off)
    && (forall k :: 0 <= k < |segments| ==> TariffPrices.BearsTariffPrice(segments[k], e.tariffs, e.off))
    && e.session.meterStop.Some?
    && DailyTotals.EnergyTotal(segments) == e.session.meterStop.value - e.session.meterStart
    && DailyTotals.AmountTotal(segments) >= 0
    && DailyTotals.WithinHalfDongEach(
         DailyTotals.AmountTotal(segments), DailyTotals.ExactCost(start, end, rs, p.frames, e.off), |segments|)
  }

  lemma {:induction false} AccountAmount(e: Evidence, rs: seq<Reading>, p: Pricing, segments: seq<Segment>)
    requires PricedFrom(e, rs, p)
    requires Account(segments, e.session.startedAt, e.session.endedAt.value, rs, p.frames, e.off)
    ensures DailyTotals.AmountTotal(segments) >= 0
  {
    AccountMembers(segments, e.session.startedAt, e.session.endedAt.value, rs, p.frames, e.off);
    forall s | s in segments ensures s.amount >= 0 {
      SegmentAmountNonnegative(e, rs, p, s);
    }
    AmountTotalNonnegative(segments);
  }

  lemma {:induction false} PricedBillNear(e: Evidence, rs: seq<Reading>, p: Pricing, segments: seq<Segment>)
    requires PricedFrom(e, rs, p)
    requires Segments(e.session.startedAt, e.session.endedAt.value, rs, p.frames, e.off) == Ok(segments)
    ensures DailyTotals.WithinHalfDongEach(
              DailyTotals.AmountTotal(segments),
              DailyTotals.ExactCost(e.session.startedAt, e.session.endedAt.value, rs, p.frames, e.off),
              |segments|)
  {
    PricedSegments(e, rs, p);
    DailyTotals.BillNearExactCost(e.session.startedAt, e.session.endedAt.value, rs, p.frames, e.off, segments);
  }

  lemma PricedAccount(e: Evidence, rs: seq<Reading>, p: Pricing, segments: seq<Segment>)
    requires PricedFrom(e, rs, p)
    requires Segments(e.session.startedAt, e.session.endedAt.value, rs, p.frames, e.off) == Ok(segments)
    ensures Account(segments, e.session.startedAt, e.session.endedAt.value, rs, p.frames, e.off)
  {
    PricedSegments(e, rs, p);
    SegmentsAccountForSession(e.session.startedAt, e.session.endedAt.value, rs, p.frames, e.off);
  }

  lemma {:induction false} PricedByTariffs(e: Evidence, rs: seq<Reading>, p: Pricing, segments: seq<Segment>)
    requires PricedFrom(e, rs, p)
    requires Account(segments, e.session.startedAt, e.session.endedAt.value, rs, p.frames, e.off)
    ensures forall k :: 0 <= k < |segments| ==> TariffPrices.BearsTariffPrice(segments[k], e.tariffs, e.off)
  {
    forall k | 0 <= k < |segments| ensures TariffPrices.BearsTariffPrice(segments[k], e.tariffs, e.off) {
      assert Faithful(segments[k], rs, p.frames, e.off);
      TariffPrices.SegmentBearsPrice(e.tariffs, e.session.startedAt, BillingEnd(e), e.off, p, segments[k]);
    }
  }

  lemma ExplainEnergy(e: Evidence, rs: seq<Reading>, p: Pricing, segments: seq<Segment>)
    requires PricedFrom(e, rs, p)
    requires Segments(e.session.startedAt, e.session.endedAt.value, rs, p.frames, e.off) == Ok(segments)
    ensures EnergyExplained(e, segments, rs, p)
  {
    PricedAccount(e, rs, p, segments);
    PricedBillNear(e, rs, p, segments);
    AccountAmount(e, rs, p, segments);
    PricedByTariffs(e, rs, p, segments);
    PricedSegments(e, rs, p);
  }

  lemma {:induction false} IdleAmountNonnegative(
    anchor: int, count: nat, end: int, versions: map<int, IdleFee.IdleRule>, off: int)
    requires IdleFee.Started(anchor, count, end) && IdleFee.DaysKnown(anchor, end, versions, off)
    ensures IdleFee.PerMinuteFee(anchor, count, end, versions, off) >= 0
    decreases count
  {
    if count == 0 {
    } else {
      IdleFee.AnchorKnown(anchor, count, end, versions, off);
      DateMonotone(anchor, anchor + MINUTE, off);
      IdleAmountNonnegative(anchor + MINUTE, count - 1, end, versions, off);
    }
  }

  // ---------- the meaning of an invoice ----------

  /** The occupation fee stated minute by minute: nothing without an interval or within grace. */
  ghost function ExactIdleFee(startedAt: int, idle: Option<int>, end: int, versions: map<int, IdleFee.IdleRule>, off: int): int
    requires IdleFee.DaysKnown(startedAt, end, versions, off)
  {
    if idle.None? || !(startedAt <= idle.value < end) then 0
    else
      IdleFee.StartedAfterGrace(startedAt, idle.value, end, versions, off);
      var graceEnd := IdleFee.GraceEnd(idle.value, versions, off);
      IdleFee.PerMinuteFee(graceEnd, Max(0, IdleFee.CeilMinutes(end - graceEnd)), end, versions, off)
  }

  lemma IdleFeeMeaning(startedAt: int, idle: Option<int>, end: int, versions: map<int, IdleFee.IdleRule>, off: int)
    requires IdleFee.DaysKnown(startedAt, end, versions, off)
    requires IdleFee.IdleLines(startedAt, idle, end, versions, off).Ok?
    ensures IdleFee.AmountTotal(IdleFee.IdleLines(startedAt, idle, end, versions, off).value)
         == ExactIdleFee(startedAt, idle, end, versions, off) >= 0
  {
    if idle.Some? && startedAt <= idle.value < end {
      IdleFee.OccupationFee(startedAt, idle.value, end, versions, off);
      var graceEnd := IdleFee.GraceEnd(idle.value, versions, off);
      IdleAmountNonnegative(graceEnd, Max(0, IdleFee.CeilMinutes(end - graceEnd)), end, versions, off);
    }
  }

  /** A created invoice: its energy lines account for the session instant by instant, each at the price that
      the tariff in force asks at every minute it covers; its energy amount is within half a dong per line
      of the exact price; the rest is the per-minute occupation fee under the tariffs' own rules; and its
      total is nonnegative and fits the ledger. */
  lemma InvoiceMeaning(e: Evidence)
    requires Invoiceable(e.session) && CreatedInvoice(e).Ok?
    ensures exists rs, p :: PricedFrom(e, rs, p) && InvoiceExplained(e, CreatedInvoice(e).value, rs, p)
  {
    var rs := MeterValues(e.session, e.samples, e.session.endedAt.value).value;
    var p := DailyPricing(e.tariffs, e.session.startedAt, BillingEnd(e), e.off).value;
    assert PricedFrom(e, rs, p);
    PricedSegments(e, rs, p);
    ExplainInvoice(e, rs, p);
  }

  /** The occupation rules are those of the tariffs in force day by day. */
  ghost predicate RulesOfTariffs(e: Evidence, p: Pricing) {
    forall d :: d in p.versions ==>
      var tariff := EffectiveTariff(e.tariffs, d);
      && tariff.Some? && p.versions[d].version == tariff.value.id
      && p.versions[d].rate == tariff.value.idleRate && p.versions[d].grace == tariff.value.grace
  }

  lemma PricedRules(e: Evidence, rs: seq<Reading>, p: Pricing)
    requires PricedFrom(e, rs, p)
    ensures RulesOfTariffs(e, p)
  {
    forall d | d in p.versions
      ensures var tariff := EffectiveTariff(e.tariffs, d);
              && tariff.Some? && p.versions[d].version == tariff.value.id
              && p.versions[d].rate == tariff.value.idleRate && p.versions[d].grace == tariff.value.grace
    {
      TariffPrices.RuleAsks(e.tariffs, e.session.startedAt, BillingEnd(e), e.off, p, d);
    }
  }

  ghost predicate InvoiceExplained(e: Evidence, invoice: Invoice, rs: seq<Reading>, p: Pricing)
    requires PricedFrom(e, rs, p)
  {
    IdleDaysKnown(e, p);
    var idleFee := ExactIdleFee(e.session.startedAt, IdleSpan(e).0, IdleSpan(e).1, p.versions, e.off);
    && Some(invoice.driver) == e.session.driver
    && EnergyExplained(e, invoice.energyLines, rs, p)
    && IdleFee.AmountTotal(invoice.idleLines) == idleFee >= 0
    && RulesOfTariffs(e, p)
    && invoice.total == DailyTotals.AmountTotal(invoice.energyLines) + idleFee <= MAX_VND
  }

  lemma ExplainInvoice(e: Evidence, rs: seq<Reading>, p: Pricing)
    requires PricedFrom(e, rs, p) && rs != [] && PricedInvoice(e, e.session.driver.value, rs, p).Ok?
    ensures InvoiceExplained(e, PricedInvoice(e, e.session.driver.value, rs, p).value, rs, p)
  {
    ExplainEnergy(e, rs, p, PricedInvoice(e, e.session.driver.value, rs, p).value.energyLines);
    PricedRules(e, rs, p);
    IdleDaysKnown(e, p);
    IdleFeeMeaning(e.session.startedAt, IdleSpan(e).0, IdleSpan(e).1, p.versions, e.off);
  }

  /** The energy of the bill is exactly what the meter advanced between start and stop. */
  lemma InvoicedEnergyIsMeterAdvance(e: Evidence)
    requires Invoiceable(e.session) && CreatedInvoice(e).Ok?
    ensures e.session.meterStop.Some?
    ensures DailyTotals.EnergyTotal(CreatedInvoice(e).value.energyLines)
         == e.session.meterStop.value - e.session.meterStart
    ensures 0 <= CreatedInvoice(e).value.total <= MAX_VND
  {
    InvoiceMeaning(e);
  }
}
