/** Late samples of a session that is already invoiced and settled, and what the audit makes of them. */
module LateSamples {
  import opened Prelude
  import opened Interpolation
  import opened Segmentation
  import opened Invoicing
  import opened InvoiceCreation
  import opened InvoiceProofs
  import opened MeterStore
  import opened Audit
  import opened AuditProofs
  import opened EvidenceProofs
  import Occupation
  import SessionRuns
  import Settlement
  import SettlementProofs
  import SegmentationProofs
  import DailyTotals
  import IdleFee

  // ---------- after invoice and release only samples are added ----------

  predicate Frozen(s: Occupation.Charging) { s.invoiced && s.endedAt.Some? && s.releasedAt.Some? }

  /** The later session has the same row and intervals; its outlet samples grew, inside the session only. */
  ghost predicate OnlySamplesAdded(s: Occupation.Charging, s': Occupation.Charging) {
    && RowOf(s') == RowOf(s) && s'.intervals == s.intervals && s'.invoiced == s.invoiced
    && SamplesGrow(s.Facts(), Occupation.OutletSamples(s.store), Occupation.OutletSamples(s'.store))
  }

  ghost predicate SamplesGrow(c: Context, before: Series, after: Series) {
    && (forall t :: t in before ==> t in after && after[t] == before[t])
    && (forall t :: t in after && t !in before ==> Accepted(c, t))
  }

  lemma {:induction false} BackfillGrows(c: Context, st: Store, pts: seq<Point>)
    ensures SamplesGrow(c, Occupation.OutletSamples(st), Occupation.OutletSamples(Backfill(c, st, pts)))
  {
    if pts == [] {
    } else {
      BackfillGrows(c, st, pts[..|pts| - 1]);
    }
  }

  lemma MessageKeepsFrozen(s: Occupation.Charging, e: SessionRuns.Event)
    requires Frozen(s)
    ensures OnlySamplesAdded(s, SessionRuns.Apply(s, e))
  {
    match e
    case MeterEvent(blocks, _, _) => BackfillGrows(s.Facts(), s.store, PointsOf(SortBlocks(blocks)));
    case _ =>
  }

  /** Once a session is invoiced and released, no message of any kind changes its row or its intervals. */
  lemma {:induction false} MessagesKeepFrozen(s: Occupation.Charging, events: seq<SessionRuns.Event>)
    requires Frozen(s)
    ensures Frozen(SessionRuns.Run(s, events)) && OnlySamplesAdded(s, SessionRuns.Run(s, events))
  {
    if events == [] {
    } else {
      var mid := SessionRuns.Run(s, events[..|events| - 1]);
      MessagesKeepFrozen(s, events[..|events| - 1]);
      MessageKeepsFrozen(mid, events[|events| - 1]);
    }
  }

  // ---------- the audit of grown evidence ----------

  /** What stays fixed while samples arrive: the tariffs, the occupation fee and the rest of the total. */
  ghost predicate FixedParts(e: Evidence, p: Pricing, fees: int, invoice: Invoice) {
    && PricedUnder(e, p) && AuditIdle(e, p.versions) == Ok(fees)
    && e.session.startedAt < e.session.endedAt.value && e.session.driver == Some(invoice.driver)
    && invoice.total == DailyTotals.AmountTotal(invoice.energyLines) + fees
    && e.session.meterStop.Some?
    && DailyTotals.EnergyTotal(invoice.energyLines) == e.session.meterStop.value - e.session.meterStart >= 0
  }

  lemma PricedFees(e: Evidence, rs: seq<Reading>, p: Pricing, invoice: Invoice) returns (fees: int)
    requires PricedUnder(e, p) && e.session.driver.Some? && rs != []
    requires PricedInvoice(e, e.session.driver.value, rs, p) == Ok(invoice)
    ensures AuditIdle(e, p.versions) == Ok(fees) && invoice.total == DailyTotals.AmountTotal(invoice.energyLines) + fees
  {
    var segments, lines := InvoiceParts(e, rs, p, invoice);
    fees := IdleFee.AmountTotal(lines);
    AuditIdleAgrees(e, p, lines, fees);
  }

  lemma CreatedFixedParts(e: Evidence, invoice: Invoice) returns (p: Pricing, fees: int)
    requires Invoiceable(e.session) && CreatedInvoice(e) == Ok(invoice)
    ensures FixedParts(e, p, fees, invoice)
  {
    var rs := MeterValues(e.session, e.samples, e.session.endedAt.value).value;
    p := DailyPricing(e.tariffs, e.session.startedAt, BillingEnd(e), e.off).value;
    assert PricedFrom(e, rs, p);
    BilledIsPriced(e, rs, p);
    PricedMetered(e, rs, p, invoice);
    fees := PricedFees(e, rs, p, invoice);
  }

  /** None of it depends on the samples. */
  lemma FixedPartsStay(e: Evidence, samples: map<int, int>, p: Pricing, fees: int, invoice: Invoice)
    requires FixedParts(e, p, fees, invoice)
    ensures FixedParts(e.(samples := samples), p, fees, invoice)
  {
  }

  /** The energy amount that a session's samples, as they stand, come to; none if they are refused. */
  ghost function EnergyAmount(e: Evidence): Option<int>
    requires Invoiceable(e.session)
  {
    match (MeterValues(e.session, e.samples, e.session.endedAt.value),
           DailyPricing(e.tariffs, e.session.startedAt, BillingEnd(e), e.off))
    case (Ok(rs), Ok(p)) =>
      (match Segments(e.session.startedAt, e.session.endedAt.value, rs, p.frames, e.off)
       case Err(_) => None
       case Ok(segments) => Some(DailyTotals.AmountTotal(segments)))
    case _ => None
  }

  lemma RefusedIsNotSilent(j: Joined)
    requires var s := j.evidence.session;
             && s.endedAt.Some? && s.meterStop.Some? && s.meterStart <= s.meterStop.value
             && MeterValues(s, j.evidence.samples, s.endedAt.value).Err?
    ensures Issues(j) != []
  {
    var m := CheckMeter(j.evidence.session, j.evidence.samples);
    assert |m.issues| == 1;
  }

  lemma OneTotalIsRight(j: Joined, invoice: Invoice, total: int)
    requires MoneyRight(j, invoice, invoice.total)
    ensures MoneyRight(j, invoice, total) <==> total == invoice.total
  {
  }

  lemma AcceptedSilentIff(
    j: Joined, rs: seq<Reading>, p: Pricing, invoice: Invoice, billed: int, grown: int, fees: int)
    requires PricedUnder(j.evidence, p) && MeteredParts(j.evidence, rs, invoice)
    requires RecomputePriced(j.evidence, rs, p) == Recomputed(grown + fees) && invoice.total == billed + fees
    requires j.invoice == Some(invoice) && j.settled != Some(Settlement.LegacyExempt)
    requires MoneyRight(j, invoice, invoice.total)
    ensures Issues(j) == [] <==> grown == billed
  {
    PricedIsRecomputed(j.evidence, rs, p);
    PartsMetered(j.evidence, rs, invoice);
    OneTotalIsRight(j, invoice, grown + fees);
    SilentGiven(j, invoice, CheckMeter(j.evidence.session, j.evidence.samples), grown + fees);
  }

  lemma GrownSegments(e: Evidence, rs: seq<Reading>, p: Pricing, fees: int, invoice: Invoice)
    returns (segments: seq<Segment>, amount: int)
    requires FixedParts(e, p, fees, invoice) && MeterValues(e.session, e.samples, e.session.endedAt.value) == Ok(rs)
    ensures Segments(e.session.startedAt, e.session.endedAt.value, rs, p.frames, e.off) == Ok(segments)
    ensures amount == DailyTotals.AmountTotal(segments) && EnergyAmount(e) == Some(amount)
  {
    assert PricedFrom(e, rs, p);
    PricedSegments(e, rs, p);
    segments := Segments(e.session.startedAt, e.session.endedAt.value, rs, p.frames, e.off).value;
    amount := DailyTotals.AmountTotal(segments);
  }

  lemma {:induction false} GrownTotal(e: Evidence, rs: seq<Reading>, p: Pricing, fees: int, segments: seq<Segment>, amount: int)
    requires e.session.endedAt.Some? && AuditIdle(e, p.versions) == Ok(fees)
    requires Segments(e.session.startedAt, e.session.endedAt.value, rs, p.frames, e.off) == Ok(segments)
    requires amount == DailyTotals.AmountTotal(segments)
    ensures RecomputePriced(e, rs, p) == Recomputed(amount + fees)
  {
    RecomputeParts(e, rs, p, segments, fees, amount + fees);
  }

  lemma GrownPriced(e: Evidence, rs: seq<Reading>, p: Pricing, fees: int, invoice: Invoice) returns (amount: int)
    requires FixedParts(e, p, fees, invoice) && MeterValues(e.session, e.samples, e.session.endedAt.value) == Ok(rs)
    ensures EnergyAmount(e) == Some(amount) && RecomputePriced(e, rs, p) == Recomputed(amount + fees)
  {
    var segments;
    segments, amount := GrownSegments(e, rs, p, fees, invoice);
    GrownTotal(e, rs, p, fees, segments, amount);
  }

  lemma GrownMetered(e: Evidence, rs: seq<Reading>, p: Pricing, fees: int, invoice: Invoice)
    requires FixedParts(e, p, fees, invoice) && MeterValues(e.session, e.samples, e.session.endedAt.value) == Ok(rs)
    ensures MeteredParts(e, rs, invoice)
  {
  }

  lemma GrownAccepted(j: Joined, rs: seq<Reading>, p: Pricing, fees: int, invoice: Invoice, billed: int)
    requires FixedParts(j.evidence, p, fees, invoice)
    requires MeterValues(j.evidence.session, j.evidence.samples, j.evidence.session.endedAt.value) == Ok(rs)
    requires j.invoice == Some(invoice) && j.settled != Some(Settlement.LegacyExempt)
    requires MoneyRight(j, invoice, invoice.total) && invoice.total == billed + fees
    ensures Issues(j) == [] <==> EnergyAmount(j.evidence) == Some(billed)
  {
    var grown := GrownPriced(j.evidence, rs, p, fees, invoice);
    GrownMetered(j.evidence, rs, p, fees, invoice);
    AcceptedSilentIff(j, rs, p, invoice, billed, grown, fees);
  }

  lemma GrownRefused(j: Joined, p: Pricing, fees: int, invoice: Invoice)
    requires FixedParts(j.evidence, p, fees, invoice)
    requires MeterValues(j.evidence.session, j.evidence.samples, j.evidence.session.endedAt.value).Err?
    ensures Issues(j) != [] && EnergyAmount(j.evidence).None?
  {
    RefusedIsNotSilent(j);
  }

  /** With right money, grown evidence is audited in silence if and only if its samples are still accepted
      and come to the energy amount that was invoiced. */
  lemma GrownSilentIff(j: Joined, p: Pricing, fees: int, invoice: Invoice)
    requires FixedParts(j.evidence, p, fees, invoice)
    requires j.invoice == Some(invoice) && j.settled != Some(Settlement.LegacyExempt)
    requires MoneyRight(j, invoice, invoice.total)
    ensures Issues(j) == [] <==> EnergyAmount(j.evidence) == Some(DailyTotals.AmountTotal(invoice.energyLines))
  {
    var readings := MeterValues(j.evidence.session, j.evidence.samples, j.evidence.session.endedAt.value);
    if readings.Err? {
      GrownRefused(j, p, fees, invoice);
    } else {
      GrownAccepted(j, readings.value, p, fees, invoice, DailyTotals.AmountTotal(invoice.energyLines));
    }
  }

  // ---------- settlement, then messages ----------

  /** A session settled in any run may go on receiving messages. Whatever they were, its audit is silent if
      and only if its samples are still accepted and come to the energy amount that was invoiced. */
  lemma {:induction false} LateSamplesAudited(
    w0: Settlement.World, steps: seq<SettlementProofs.Step>, id: int, j: Joined,
    s: Occupation.Charging, events: seq<SessionRuns.Event>, tariffs: seq<Tariff>, off: int, sameStation: bool)
    requires SettlementProofs.Initial(w0) && Frozen(s)
    requires var w := SettlementProofs.Run(w0, steps);
             && id in w.rows && JoinedFrom(w, id, j)
             && (w.rows[id].settled == Some(Settlement.Debited) || w.rows[id].settled == Some(Settlement.ZeroInvoice))
             && (w.rows[id].issued.Some? ==>
                   w.rows[id].issued.value.basis == EvidenceOf(s, tariffs, off, sameStation))
             && w.rows[id].evidence == EvidenceOf(SessionRuns.Run(s, events), tariffs, off, sameStation)
    ensures j.invoice.Some? && Invoiceable(j.evidence.session)
    ensures Issues(j) == [] <==> EnergyAmount(j.evidence) == Some(DailyTotals.AmountTotal(j.invoice.value.energyLines))
  {
    var w := SettlementProofs.Run(w0, steps);
    SettlementProofs.SettledRightOverRuns(w0, steps);
    SettlementProofs.GenuineOverRuns(w0, steps);
    SettlementProofs.SettledIsIssued(w, id);
    var issued := w.rows[id].issued.value;
    assert SettlementProofs.Genuine(issued);
    MessagesKeepFrozen(s, events);
    assert j.evidence == issued.basis.(samples := j.evidence.samples);
    var p, fees := CreatedFixedParts(issued.basis, issued.invoice);
    FixedPartsStay(issued.basis, j.evidence.samples, p, fees, issued.invoice);
    SettledMoneyRight(w, id, j);
    GrownSilentIff(j, p, fees, issued.invoice);
  }

  // ---------- samples that change nothing ----------

  /** Two lists of readings show the same register at the first cut points. */
  ghost predicate SameAtCuts(points: seq<int>, n: nat, rs: seq<Reading>, rs': seq<Reading>)
    requires n < |points|
  {
    forall i :: 0 <= i <= n ==>
      && ReadingAt(points[i], rs).Ok? && ReadingAt(points[i], rs').Ok?
      && ReadingAt(points[i], rs).value.0 == ReadingAt(points[i], rs').value.0
  }

  /** One piece is priced alike, up to its interpolation marks. */
  ghost predicate PricedAlike(a: Result<Option<Segment>, MeterError>, b: Result<Option<Segment>, MeterError>) {
    && (a.Ok? <==> b.Ok?)
    && (a.Ok? ==> (a.value.Some? <==> b.value.Some?) && (a.value.Some? ==> a.value.value.amount == b.value.value.amount))
  }

  lemma PieceAlike(a: int, b: int, rs: seq<Reading>, rs': seq<Reading>, tariffs: DailyTariffs, off: int)
    requires a < b && ReadingAt(a, rs).Ok? && ReadingAt(b, rs).Ok? && ReadingAt(a, rs').Ok? && ReadingAt(b, rs').Ok?
    requires ReadingAt(a, rs).value.0 == ReadingAt(a, rs').value.0
    requires ReadingAt(b, rs).value.0 == ReadingAt(b, rs').value.0
    ensures PricedAlike(PieceOf(a, b, rs, tariffs, off), PieceOf(a, b, rs', tariffs, off))
  {
  }

  lemma {:induction false} AppendAlike(done: seq<Segment>, done': seq<Segment>, a: Segment, b: Segment)
    requires DailyTotals.AmountTotal(done) == DailyTotals.AmountTotal(done') && a.amount == b.amount
    ensures DailyTotals.AmountTotal(done + [a]) == DailyTotals.AmountTotal(done' + [b])
  {
    assert (done + [a])[..|done|] == done && (done' + [b])[..|done'|] == done';
  }

  /** Two results that come to the same amount, if to any. */
  ghost predicate SameAmount(a: Result<seq<Segment>, MeterError>, b: Result<seq<Segment>, MeterError>) {
    && (a.Ok? <==> b.Ok?)
    && (a.Ok? ==> DailyTotals.AmountTotal(a.value) == DailyTotals.AmountTotal(b.value))
  }

  /** The amount depends on the readings only through the register at the cut points. */
  lemma {:induction false} CutsDecideAmount(
    points: seq<int>, n: nat, rs: seq<Reading>, rs': seq<Reading>, tariffs: DailyTariffs, off: int)
    requires StrictlySorted(points) && n < |points| && SameAtCuts(points, n, rs, rs')
    ensures SameAmount(SegmentsUpTo(points, n, rs, tariffs, off), SegmentsUpTo(points, n, rs', tariffs, off))
  {
    if n == 0 {
    } else {
      CutsDecideAmount(points, n - 1, rs, rs', tariffs, off);
      PieceAlike(points[n - 1], points[n], rs, rs', tariffs, off);
      var done, done' := SegmentsUpTo(points, n - 1, rs, tariffs, off), SegmentsUpTo(points, n - 1, rs', tariffs, off);
      var a, b := PieceOf(points[n - 1], points[n], rs, tariffs, off), PieceOf(points[n - 1], points[n], rs', tariffs, off);
      if done.Ok? && a.Ok? && a.value.Some? {
        AppendAlike(done.value, done'.value, a.value.value, b.value.value);
      }
    }
  }

  lemma {:induction false} FirstIs(t: int, rs: seq<Reading>, k: nat)
    requires k < |rs| && t <= rs[k].at && forall i :: 0 <= i < k ==> rs[i].at < t
    ensures FirstAtOrAfter(t, rs, 0) == k
  {
  }

  /** The readings with one more between the k-th and the next. */
  function Inserted(rs: seq<Reading>, k: nat, x: Reading): seq<Reading>
    requires k < |rs|
  {
    rs[..k + 1] + [x] + rs[k + 1..]
  }

  lemma InsertedIndex(rs: seq<Reading>, k: nat, x: Reading, q: nat)
    requires k < |rs| && q <= |rs|
    ensures |Inserted(rs, k, x)| == |rs| + 1
    ensures Inserted(rs, k, x)[q] == if q <= k then rs[q] else if q == k + 1 then x else rs[q - 1]
  {
  }

  lemma {:induction false} InsertedBefore(rs: seq<Reading>, k: nat, x: Reading, t: int, i: nat)
    requires i <= k < |rs| && t <= rs[i].at && forall q :: 0 <= q < i ==> rs[q].at < t
    ensures FirstAtOrAfter(t, Inserted(rs, k, x), 0) == i
  {
    forall q | 0 <= q <= i ensures Inserted(rs, k, x)[q] == rs[q] {
      InsertedIndex(rs, k, x, q);
    }
    FirstIs(t, Inserted(rs, k, x), i);
  }

  lemma {:induction false} InsertedAfter(rs: seq<Reading>, k: nat, x: Reading, t: int, i: nat)
    requires k < i < |rs| && t <= rs[i].at && x.at < t && forall q :: 0 <= q < i ==> rs[q].at < t
    ensures FirstAtOrAfter(t, Inserted(rs, k, x), 0) == i + 1
  {
    var rs' := Inserted(rs, k, x);
    forall q | 0 <= q <= i ensures rs'[q].at < t {
      InsertedIndex(rs, k, x, q);
    }
    InsertedIndex(rs, k, x, i + 1);
    FirstIs(t, rs', i + 1);
  }

  /** A reading inserted between two neighbours moves the register strictly between them only. */
  lemma InsertedReading(rs: seq<Reading>, k: nat, x: Reading, t: int)
    requires k + 1 < |rs| && GoodReadings(rs) && rs[k].at < x.at < rs[k + 1].at
    requires InRange(t, rs) && (t <= rs[k].at || rs[k + 1].at <= t)
    ensures ReadingAt(t, rs).Ok? && ReadingAt(t, Inserted(rs, k, x)) == ReadingAt(t, rs)
  {
    var i := FirstAtOrAfter(t, rs, 0);
    assert i < |rs| && rs[i].at >= t;
    InsertedIndex(rs, k, x, i);
    if t <= rs[k].at {
      assert i <= k;
      InsertedBefore(rs, k, x, t, i);
      InsertedIndex(rs, k, x, Max(0, i - 1));
    } else {
      assert rs[k].at < t && k < i;
      InsertedAfter(rs, k, x, t, i);
      InsertedIndex(rs, k, x, i + 1);
    }
  }

  lemma InsertedAtCuts(rs: seq<Reading>, k: nat, x: Reading, points: seq<int>)
    requires k + 1 < |rs| && GoodReadings(rs) && rs[k].at < x.at < rs[k + 1].at && points != []
    requires forall i :: 0 <= i < |points| ==>
               InRange(points[i], rs) && (points[i] <= rs[k].at || rs[k + 1].at <= points[i])
    ensures SameAtCuts(points, |points| - 1, rs, Inserted(rs, k, x))
  {
    forall i | 0 <= i < |points|
      ensures ReadingAt(points[i], rs).Ok? && ReadingAt(points[i], Inserted(rs, k, x)) == ReadingAt(points[i], rs)
    {
      InsertedReading(rs, k, x, points[i]);
    }
  }

  /** So a late reading whose neighbours have no cut point between them never changes the amount, whatever
      it shows. */
  lemma InsertedKeepsAmount(
    start: int, end: int, rs: seq<Reading>, k: nat, x: Reading, tariffs: DailyTariffs, off: int)
    requires SegmentationProofs.Spans(start, end, rs) && k + 1 < |rs| && rs[k].at < x.at < rs[k + 1].at
    requires forall t :: IsCut(t, start, end, tariffs, off) ==> t <= rs[k].at || rs[k + 1].at <= t
    ensures SameAmount(Segments(start, end, rs, tariffs, off), Segments(start, end, Inserted(rs, k, x), tariffs, off))
  {
    var points := SegmentationProofs.SortedCuts(start, end, tariffs, off);
    forall i | 0 <= i < |points| ensures InRange(points[i], rs) && (points[i] <= rs[k].at || rs[k + 1].at <= points[i]) {
      assert points[i] in points;
    }
    InsertedAtCuts(rs, k, x, points);
    CutsDecideAmount(points, |points| - 1, rs, Inserted(rs, k, x), tariffs, off);
  }
}
