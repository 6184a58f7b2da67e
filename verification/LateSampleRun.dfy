/** A settled session whose audit a late, unflagged sample turns into an issue. */
module LateSampleRun {
  import opened Prelude
  import opened Calendar
  import opened Interpolation
  import opened Segmentation
  import opened Invoicing
  import opened InvoiceCreation
  import opened InvoiceProofs
  import opened MeterStore
  import opened EvidenceProofs
  import opened LateSamples
  import Audit
  import AuditProofs
  import Bands
  import DailyTotals
  import Money
  import Occupation
  import OracleProofs
  import SessionRuns
  import Settlement

  // ---------- the session: twenty minutes, 4 kWh, a band edge after ten ----------

  const EDGE: int := 10 * MINUTE
  const END: int := 20 * MINUTE
  const STOP: int := 4_000_000_000
  const LOW: Bands.Band := Bands.Band(0, 10, 2000, "")
  const HIGH: Bands.Band := Bands.Band(10, 1440, 3000, "")
  const TARIFF: Tariff := Tariff(1, 0, 0, 0, [LOW, HIGH])
  const FRAMES: seq<Frame> := [Frame(0, 600, 2000, 1, ""), Frame(600, 86400, 3000, 1, "")]

  /** Stopped, released and invoiced while its charger recovers, with no sample and no reason. */
  function Settled(): Occupation.Charging {
    Occupation.Charging(0, 0, Some(7), true, false, Some(END), Some(STOP), true, None, Some(END), [], Store(map[], []), true)
  }

  /** It is the session that a start, a reconnect, a stop and an invoice leave. */
  lemma SettledIsReached()
    ensures Settled() == SessionRuns.Run(
              Occupation.Started(0, 0, Some(7), None, false, false),
              [SessionRuns.ReconnectEvent, SessionRuns.StopEvent(END, STOP, true, []), SessionRuns.InvoicedEvent])
  {
    var s0 := Occupation.Started(0, 0, Some(7), None, false, false);
    var s1, stop := SessionRuns.Apply(s0, SessionRuns.ReconnectEvent), SessionRuns.StopEvent(END, STOP, true, []);
    var s2 := SessionRuns.Apply(s1, stop);
    RunThree(s0, SessionRuns.ReconnectEvent, stop, SessionRuns.InvoicedEvent);
    assert s2 == Settled().(invoiced := false);
  }

  lemma {:induction false} RunThree(
    s: Occupation.Charging, a: SessionRuns.Event, b: SessionRuns.Event, c: SessionRuns.Event)
    ensures SessionRuns.Run(s, [a, b, c]) == SessionRuns.Apply(SessionRuns.Apply(SessionRuns.Apply(s, a), b), c)
  {
    assert [a, b, c][..2] == [a, b] && [a, b][..1] == [a] && [a][..0] == [];
    assert SessionRuns.Run(s, [a]) == SessionRuns.Apply(s, a);
    assert SessionRuns.Run(s, [a, b]) == SessionRuns.Apply(SessionRuns.Apply(s, a), b);
  }

  function LateReport(): SessionRuns.Event {
    SessionRuns.MeterEvent([Block(EDGE, [Sample(OUTLET, Some(1_000_000_000))])], true, false)
  }

  // ---------- its tariff ----------

  lemma BandsAccepted()
    ensures Bands.CheckedBands([LOW, HIGH]) == Ok([LOW, HIGH])
  {
    var bands := [LOW, HIGH];
    assert bands[..1] == [LOW] && [LOW][..0] == [];
    assert Bands.Normalized([LOW]) == [] + [LOW] == [LOW];
    assert Bands.Normalized(bands) == [LOW] + [HIGH] == bands;
    forall m | 0 <= m < 1440 ensures Bands.Owners(bands, m) == 1 {
      assert Bands.Owners([LOW], m) == if Bands.Owns(LOW, m) then 1 else 0;
    }
    assert Bands.SortByStart([LOW]) == [LOW];
    assert Bands.SortByStart(bands) == bands;
  }

  lemma DayPriced()
    ensures DayPricing([TARIFF], 0) == Ok((TARIFF, FRAMES))
  {
    BandsAccepted();
    assert [TARIFF][..0] == [];
    assert EffectiveTariff([TARIFF], 0) == Some(TARIFF);
    Bands.CheckedBandsTile(TARIFF.bands);
    assert FramesOf([LOW, HIGH], 1) == FRAMES;
  }

  lemma Priced() returns (p: Pricing)
    ensures DailyPricing([TARIFF], 0, END, 0) == Ok(p) && FramesOn(p.frames, 0) == FRAMES
  {
    DayPriced();
    p := AddDay(Pricing(map[], map[]), 0, (TARIFF, FRAMES));
    assert PricingThrough([TARIFF], 0, -1) == Ok(Pricing(map[], map[]));
    assert PricingThrough([TARIFF], 0, 0) == Ok(p);
  }

  // ---------- its two pieces ----------

  lemma OnlyCuts(tariffs: DailyTariffs, t: int)
    requires FramesOn(tariffs, 0) == FRAMES
    ensures IsCut(t, 0, END, tariffs, 0) <==> t == 0 || t == EDGE || t == END
  {
    assert LocalDate(0, 0) == 0 && LocalDate(END, 0) == 0;
    forall f | f in FRAMES ensures f == FRAMES[0] || f == FRAMES[1] {
      var i :| 0 <= i < 2 && FRAMES[i] == f;
    }
    if t == EDGE {
      assert FRAMES[0] in FRAMES && t == FrameEnd(0, FRAMES[0], 0);
      assert IsBoundary(t, 0, tariffs, 0);
    }
  }

  lemma CutsListed(tariffs: DailyTariffs)
    requires FramesOn(tariffs, 0) == FRAMES
    ensures SortedSeq(Cuts(0, END, tariffs, 0)) == [0, EDGE, END]
  {
    var cuts, three := Cuts(0, END, tariffs, 0), {0, EDGE, END};
    forall t ensures t in cuts <==> t in three {
      CutsMeaning(t, 0, END, tariffs, 0);
      OnlyCuts(tariffs, t);
    }
    assert cuts == three;
    ThreeSorted(cuts, 0, EDGE, END);
  }

  lemma {:induction false} BandAt(t: int)
    requires 0 <= t < END
    ensures FrameAt(FRAMES, 0, t, 0) == Some(if t < EDGE then FRAMES[0] else FRAMES[1])
  {
    assert FRAMES[1..][0] == FRAMES[1];
    assert Applies(if t < EDGE then FRAMES[0] else FRAMES[1], 0, t, 0);
  }

  /** Both pieces, when the register shows 0, `x` and the stop meter at the cuts. */
  lemma PiecesAt(rs: seq<Reading>, tariffs: DailyTariffs, x: int, mark: bool) returns (s0: Segment, s1: Segment)
    requires FramesOn(tariffs, 0) == FRAMES && 0 < x < STOP
    requires ReadingAt(0, rs) == Ok((0, false)) && ReadingAt(END, rs) == Ok((STOP, false))
    requires ReadingAt(EDGE, rs) == Ok((x, mark))
    ensures PieceOf(0, EDGE, rs, tariffs, 0) == Ok(Some(s0)) && s0.amount == Money.RoundedVnd(x, 2000)
    ensures PieceOf(EDGE, END, rs, tariffs, 0) == Ok(Some(s1)) && s1.amount == Money.RoundedVnd(STOP - x, 3000)
  {
    var m0, m1 := Midpoint(0, EDGE), Midpoint(EDGE, END);
    BandAt(m0);
    BandAt(m1);
    assert LocalDate(m0, 0) == 0 && LocalDate(m1, 0) == 0;
    s0 := PieceOf(0, EDGE, rs, tariffs, 0).value.value;
    s1 := PieceOf(EDGE, END, rs, tariffs, 0).value.value;
  }

  lemma SegmentsAt(rs: seq<Reading>, tariffs: DailyTariffs, x: int, mark: bool) returns (segments: seq<Segment>)
    requires FramesOn(tariffs, 0) == FRAMES && 0 < x < STOP
    requires ReadingAt(0, rs) == Ok((0, false)) && ReadingAt(END, rs) == Ok((STOP, false))
    requires ReadingAt(EDGE, rs) == Ok((x, mark))
    ensures Segments(0, END, rs, tariffs, 0) == Ok(segments) && |segments| == 2
    ensures segments[0].amount == Money.RoundedVnd(x, 2000) && segments[1].amount == Money.RoundedVnd(STOP - x, 3000)
  {
    var s0, s1 := PiecesAt(rs, tariffs, x, mark);
    var points := [0, EDGE, END];
    CutsListed(tariffs);
    OracleProofs.TwoPieces(points, rs, tariffs, 0, s0, s1);
    segments := [s0, s1];
    OracleProofs.PointsGiveSegments(0, END, points, rs, tariffs, 0, segments);
  }

  lemma {:induction false} TwoAmounts(segments: seq<Segment>)
    requires |segments| == 2
    ensures DailyTotals.AmountTotal(segments) == segments[0].amount + segments[1].amount
  {
    assert segments[..1][..0] == [];
    assert DailyTotals.AmountTotal(segments[..1]) == segments[0].amount;
  }

  // ---------- its readings, before and after ----------

  lemma {:induction false} MergedReadings(
    s: Session, samples: map<int, int>, end: int, stamps: seq<int>, m: map<int, int>, rs: seq<Reading>)
    requires s.meterStart >= 0 && s.meterStop.Some? && s.meterStop.value >= 0 && stamps == SampleStamps(s, samples, end)
    requires Merge(Ends(s, s.meterStop.value, end), samples, stamps) == Ok(m) && ByTime(m) == rs && !Falls(rs)
    ensures MeterValues(s, samples, end) == Ok(rs)
  {
  }

  lemma ByTimeListed(m: map<int, int>, stamps: seq<int>, rs: seq<Reading>)
    requires SortedSeq(m.Keys) == stamps && |rs| == |stamps|
    requires forall i :: 0 <= i < |stamps| ==> stamps[i] in m && rs[i] == Reading(stamps[i], m[stamps[i]])
    ensures ByTime(m) == rs
  {
  }

  lemma RegisterBefore(rs: seq<Reading>)
    requires rs == [Reading(0, 0), Reading(END, STOP)]
    ensures !Falls(rs)
    ensures ReadingAt(0, rs) == Ok((0, false)) && ReadingAt(END, rs) == Ok((STOP, false))
    ensures ReadingAt(EDGE, rs) == Ok((2_000_000_000, true))
  {
    assert Between(rs[0], rs[1], EDGE) == 2_000_000_000;
  }

  lemma RegisterAfter(rs: seq<Reading>)
    requires rs == [Reading(0, 0), Reading(EDGE, 1_000_000_000), Reading(END, STOP)]
    ensures !Falls(rs)
    ensures ReadingAt(0, rs) == Ok((0, false)) && ReadingAt(END, rs) == Ok((STOP, false))
    ensures ReadingAt(EDGE, rs) == Ok((1_000_000_000, false))
  {
  }

  lemma EndsListed(s: Session)
    requires s == RowOf(Settled())
    ensures ByTime(Ends(s, STOP, END)) == [Reading(0, 0), Reading(END, STOP)]
  {
    var ends := Ends(s, STOP, END);
    assert ends.Keys == {0, END} && |{0, END}| == 2;
    SortedIs(ends.Keys, [0, END]);
    ByTimeListed(ends, [0, END], [Reading(0, 0), Reading(END, STOP)]);
  }

  lemma MeteredBefore(s: Session) returns (rs: seq<Reading>)
    requires s == RowOf(Settled())
    ensures rs == [Reading(0, 0), Reading(END, STOP)] && MeterValues(s, map[], END) == Ok(rs)
  {
    rs := [Reading(0, 0), Reading(END, STOP)];
    RegisterBefore(rs);
    EndsListed(s);
    assert SampleStamps(s, map[], END) == [];
    MergedReadings(s, map[], END, [], Ends(s, STOP, END), rs);
  }

  lemma ThreeListed(m: map<int, int>, a: int, b: int, c: int)
    requires a < b < c && m.Keys == {a, b, c}
    ensures ByTime(m) == [Reading(a, m[a]), Reading(b, m[b]), Reading(c, m[c])]
  {
    ThreeSorted(m.Keys, a, b, c);
    ByTimeListed(m, [a, b, c], [Reading(a, m[a]), Reading(b, m[b]), Reading(c, m[c])]);
  }

  lemma LateStamp(s: Session, samples: map<int, int>)
    requires s == RowOf(Settled()) && samples == map[EDGE := 1_000_000_000]
    ensures SampleStamps(s, samples, END) == [EDGE]
  {
    assert WindowStamps(samples, 0, END) == {EDGE};
    SortedIs({EDGE}, [EDGE]);
  }

  lemma MeteredAfter(s: Session, samples: map<int, int>) returns (rs: seq<Reading>)
    requires s == RowOf(Settled()) && samples == map[EDGE := 1_000_000_000]
    ensures rs == [Reading(0, 0), Reading(EDGE, 1_000_000_000), Reading(END, STOP)]
    ensures MeterValues(s, samples, END) == Ok(rs)
  {
    rs := [Reading(0, 0), Reading(EDGE, 1_000_000_000), Reading(END, STOP)];
    var ends := Ends(s, STOP, END);
    var merged := ends[EDGE := 1_000_000_000];
    RegisterAfter(rs);
    assert merged.Keys == {0, EDGE, END};
    ThreeListed(merged, 0, EDGE, END);
    LateStamp(s, samples);
    assert [EDGE][..0] == [];
    assert Merge(ends, samples, []) == Ok(ends);
    assert Merge(ends, samples, [EDGE]) == Ok(merged);
    MergedReadings(s, samples, END, [EDGE], merged, rs);
  }

  // ---------- invoiced at 10000, repriced at 11000 ----------

  lemma {:induction false} AmountIs(e: Evidence, rs: seq<Reading>, p: Pricing, segments: seq<Segment>, amount: int)
    requires Invoiceable(e.session) && MeterValues(e.session, e.samples, e.session.endedAt.value) == Ok(rs)
    requires DailyPricing(e.tariffs, e.session.startedAt, BillingEnd(e), e.off) == Ok(p)
    requires Segments(e.session.startedAt, e.session.endedAt.value, rs, p.frames, e.off) == Ok(segments)
    requires amount == DailyTotals.AmountTotal(segments)
    ensures EnergyAmount(e) == Some(amount)
  {
  }

  ghost predicate OfSession(e: Evidence) {
    && e.session == RowOf(Settled()) && e.intervals == [] && e.tariffs == [TARIFF] && e.off == 0 && e.sameStation
  }

  lemma BilledToTheEnd(e: Evidence)
    requires OfSession(e)
    ensures Invoiceable(e.session) && Billed(e) == [] && BillingEnd(e) == END
  {
  }

  /** The register at the edge decides the amount. */
  lemma AmountAt(e: Evidence, rs: seq<Reading>, x: int, mark: bool, amount: int)
    returns (p: Pricing, segments: seq<Segment>)
    requires OfSession(e) && MeterValues(e.session, e.samples, END) == Ok(rs) && 0 < x < STOP
    requires ReadingAt(0, rs) == Ok((0, false)) && ReadingAt(END, rs) == Ok((STOP, false))
    requires ReadingAt(EDGE, rs) == Ok((x, mark))
    requires amount == Money.RoundedVnd(x, 2000) + Money.RoundedVnd(STOP - x, 3000)
    ensures Invoiceable(e.session) && EnergyAmount(e) == Some(amount)
    ensures DailyPricing(e.tariffs, 0, BillingEnd(e), 0) == Ok(p) && Segments(0, END, rs, p.frames, 0) == Ok(segments)
    ensures amount == DailyTotals.AmountTotal(segments) && |segments| == 2
    ensures segments[0].amount == Money.RoundedVnd(x, 2000) && segments[1].amount == Money.RoundedVnd(STOP - x, 3000)
  {
    BilledToTheEnd(e);
    p := Priced();
    segments := SegmentsAt(rs, p.frames, x, mark);
    TwoAmounts(segments);
    AmountIs(e, rs, p, segments, amount);
  }

  lemma MeasuredBefore(e: Evidence) returns (rs: seq<Reading>)
    requires OfSession(e) && e.samples == map[]
    ensures MeterValues(e.session, e.samples, END) == Ok(rs)
    ensures ReadingAt(0, rs) == Ok((0, false)) && ReadingAt(END, rs) == Ok((STOP, false))
    ensures ReadingAt(EDGE, rs) == Ok((2_000_000_000, true))
  {
    rs := MeteredBefore(e.session);
    RegisterBefore(rs);
  }

  lemma MeasuredAfter(e: Evidence) returns (rs: seq<Reading>)
    requires OfSession(e) && e.samples == map[EDGE := 1_000_000_000]
    ensures MeterValues(e.session, e.samples, END) == Ok(rs)
    ensures ReadingAt(0, rs) == Ok((0, false)) && ReadingAt(END, rs) == Ok((STOP, false))
    ensures ReadingAt(EDGE, rs) == Ok((1_000_000_000, false))
  {
    rs := MeteredAfter(e.session, e.samples);
    RegisterAfter(rs);
  }

  lemma Amounts()
    ensures Money.RoundedVnd(2_000_000_000, 2000) == 4000 && Money.RoundedVnd(STOP - 2_000_000_000, 3000) == 6000
    ensures Money.RoundedVnd(1_000_000_000, 2000) == 2000 && Money.RoundedVnd(STOP - 1_000_000_000, 3000) == 9000
  {
  }

  lemma AmountAfter(e: Evidence)
    requires OfSession(e) && e.samples == map[EDGE := 1_000_000_000]
    ensures Invoiceable(e.session) && EnergyAmount(e) == Some(11000)
  {
    var rs := MeasuredAfter(e);
    Amounts();
    var p, segments := AmountAt(e, rs, 1_000_000_000, false, 11000);
  }

  lemma {:induction false} SmallInvoice(segments: seq<Segment>)
    requires |segments| == 2 && segments[0].amount == 4000 && segments[1].amount == 6000
    requires DailyTotals.AmountTotal(segments) == 10000
    ensures Assembled(7, segments, Ok([])) == Ok(Invoice(7, segments, [], 10000))
  {
  }

  lemma AssembledFrom(e: Evidence, rs: seq<Reading>, p: Pricing, segments: seq<Segment>)
    requires PricedFrom(e, rs, p) && e.session.driver == Some(7) && IdleSpan(e).0.None?
    requires Segments(e.session.startedAt, e.session.endedAt.value, rs, p.frames, e.off) == Ok(segments)
    ensures rs != [] && PricedInvoice(e, 7, rs, p) == Assembled(7, segments, Ok([]))
  {
    PricedIsAssembled(e, rs, p);
  }

  lemma CreatedFrom(e: Evidence, rs: seq<Reading>, p: Pricing, r: Result<Invoice, Reason>)
    requires PricedFrom(e, rs, p) && Admission(e).None? && rs != [] && PricedInvoice(e, e.session.driver.value, rs, p) == r
    ensures CreatedInvoice(e) == r
  {
    BilledIsPriced(e, rs, p);
  }

  lemma PricedSession(e: Evidence) returns (rs: seq<Reading>, p: Pricing, segments: seq<Segment>)
    requires OfSession(e) && e.samples == map[]
    ensures PricedFrom(e, rs, p) && Segments(0, END, rs, p.frames, 0) == Ok(segments)
    ensures |segments| == 2 && segments[0].amount == 4000 && segments[1].amount == 6000
    ensures DailyTotals.AmountTotal(segments) == 10000
  {
    rs := MeasuredBefore(e);
    Amounts();
    p, segments := AmountAt(e, rs, 2_000_000_000, true, 10000);
    BilledToTheEnd(e);
  }

  lemma InvoicedAt(e: Evidence) returns (invoice: Invoice)
    requires OfSession(e) && e.samples == map[]
    ensures Invoiceable(e.session) && CreatedInvoice(e) == Ok(invoice)
    ensures DailyTotals.AmountTotal(invoice.energyLines) == 10000
  {
    BilledToTheEnd(e);
    var rs, p, segments := PricedSession(e);
    AssembledFrom(e, rs, p, segments);
    SmallInvoice(segments);
    invoice := Invoice(7, segments, [], 10000);
    CreatedFrom(e, rs, p, Ok(invoice));
  }

  lemma LateSampleStored()
    ensures var s' := SessionRuns.Apply(Settled(), LateReport());
            s'.Reasons() == [] && Occupation.OutletSamples(s'.store) == map[EDGE := 1_000_000_000]
  {
    OneLatePoint(Settled().Facts(), Store(map[], []), EDGE, Sample(OUTLET, Some(1_000_000_000)));
    assert Before(map[], EDGE) == {} && After(map[], EDGE) == {};
  }

  /** The session is invoiced, then its charger reports one sample, in order and raising no flag: however
      its money was settled, the audit of this session finds an issue. */
  lemma LateSampleBreaksAudit() returns (invoice: Invoice)
    ensures var basis := EvidenceOf(Settled(), [TARIFF], 0, true);
            Invoiceable(basis.session) && CreatedInvoice(basis) == Ok(invoice)
    ensures SessionRuns.Apply(Settled(), LateReport()).Reasons() == []
    ensures forall j: Audit.Joined ::
              && j.evidence == EvidenceOf(SessionRuns.Apply(Settled(), LateReport()), [TARIFF], 0, true)
              && j.invoice == Some(invoice) && j.settled != Some(Settlement.LegacyExempt)
              && AuditProofs.MoneyRight(j, invoice, invoice.total)
              ==> Audit.Issues(j) != []
  {
    var basis := EvidenceOf(Settled(), [TARIFF], 0, true);
    var late := EvidenceOf(SessionRuns.Apply(Settled(), LateReport()), [TARIFF], 0, true);
    invoice := InvoicedAt(basis);
    LateSampleStored();
    AmountAfter(late);
    var p, fees := CreatedFixedParts(basis, invoice);
    FixedPartsStay(basis, late.samples, p, fees, invoice);
    assert late == basis.(samples := late.samples);
    forall j: Audit.Joined | j.evidence == late && j.invoice == Some(invoice) && j.settled != Some(Settlement.LegacyExempt)
                             && AuditProofs.MoneyRight(j, invoice, invoice.total)
      ensures Audit.Issues(j) != []
    {
      GrownSilentIff(j, p, fees, invoice);
    }
  }
}
