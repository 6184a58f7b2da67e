/** The audit agrees with invoicing and settlement, and notices every change of money. */
module AuditProofs {
  import opened Prelude
  import opened Interpolation
  import opened Segmentation
  import opened Invoicing
  import opened InvoiceCreation
  import opened InvoiceProofs
  import opened Settlement
  import opened SettlementProofs
  import opened Audit
  import DailyTotals
  import IdleFee
  import Occupation
  import SessionRuns
  import EvidenceProofs

  // ---------- bookkeeping ----------

  ghost predicate Balanced(r: Report) {
    && (forall t :: CountOf(r.counts, t) == multiset(r.issues)[t])
    && r.critical + r.warning == |r.issues|
    && r.warning == multiset(r.issues)[MeterMissing]
    && r.info == r.exempt
  }

  lemma NotedBalanced(r: Report, t: IssueType)
    requires Balanced(r)
    ensures Balanced(Noted(r, t))
  {
    var r' := Noted(r, t);
    assert multiset(r'.issues) == multiset(r.issues) + multiset{t};
    forall u ensures CountOf(r'.counts, u) == multiset(r'.issues)[u] {
      assert CountOf(r.counts, u) == multiset(r.issues)[u];
    }
  }

  lemma {:induction false} NotedAllShape(r: Report, issues: seq<IssueType>)
    ensures NotedAll(r, issues).issues == r.issues + issues
    ensures NotedAll(r, issues).matched == r.matched && NotedAll(r, issues).mismatched == r.mismatched
  {
    if issues == [] {
    } else {
      NotedAllShape(r, issues[..|issues| - 1]);
      assert issues == issues[..|issues| - 1] + [issues[|issues| - 1]];
    }
  }

  lemma {:induction false} NotedAllBalanced(r: Report, issues: seq<IssueType>)
    requires Balanced(r)
    ensures Balanced(NotedAll(r, issues))
  {
    if issues == [] {
    } else {
      NotedAllBalanced(r, issues[..|issues| - 1]);
      NotedBalanced(NotedAll(r, issues[..|issues| - 1]), issues[|issues| - 1]);
    }
  }

  lemma TallyBalanced(r: Report, j: Joined, clean: bool, missing: bool, totals: Totals)
    requires Balanced(r)
    ensures var r' := Tally(r, j, clean, missing, totals);
            Balanced(r') && r'.matched + r'.mismatched == r.matched + r.mismatched + 1
  {
  }

  function CategoryTotal(counts: map<IssueType, nat>): nat {
    CountOf(counts, MissingInvoice) + CountOf(counts, MissingLedger) + CountOf(counts, LedgerMismatch)
    + CountOf(counts, PricingMismatch) + CountOf(counts, MeterMissing) + CountOf(counts, MeterDropped)
    + CountOf(counts, MeterDiscrepancy)
  }

  lemma {:induction false} CategoriesAreAll(issues: seq<IssueType>)
    ensures var m := multiset(issues);
            m[MissingInvoice] + m[MissingLedger] + m[LedgerMismatch] + m[PricingMismatch]
            + m[MeterMissing] + m[MeterDropped] + m[MeterDiscrepancy] == |issues|
  {
    if issues == [] {
    } else {
      var init := issues[..|issues| - 1];
      CategoriesAreAll(init);
      assert issues == init + [issues[|issues| - 1]];
      match issues[|issues| - 1]
      case MissingInvoice => case MissingLedger => case LedgerMismatch => case PricingMismatch =>
      case MeterMissing => case MeterDropped => case MeterDiscrepancy =>
    }
  }

  lemma RowBalanced(r: Report, j: Joined, f: Finding, r': Report)
    requires Balanced(r) && r' == Add(r, j, f)
    ensures Balanced(r') && r'.matched + r'.mismatched == r.matched + r.mismatched + 1
  {
    NotedAllBalanced(r, f.issues);
    NotedAllShape(r, f.issues);
    TallyBalanced(NotedAll(r, f.issues), j, f.issues == [], f.missing, f.totals);
  }

  lemma {:induction false} RunBalanced(rows: seq<Joined>, findings: seq<Finding>, r: Report)
    requires |findings| == |rows| && r == Tallied(rows, findings)
    ensures Balanced(r) && r.matched + r.mismatched == |rows|
  {
    if rows == [] {
    } else {
      var n := |rows| - 1;
      var before := Tallied(rows[..n], findings[..n]);
      RunBalanced(rows[..n], findings[..n], before);
      RowBalanced(before, rows[n], findings[n], r);
    }
  }

  /** In every run the matched and mismatched sessions add up, and the category and severity counters
      agree with the recorded issues, category by category and in total. */
  lemma {:induction false} ReportBalances(rows: seq<Joined>, findings: seq<Finding>, r: Report)
    requires IsTally(r, rows, findings)
    ensures r.matched + r.mismatched == |rows|
    ensures Balanced(r) && CategoryTotal(r.counts) == |r.issues|
  {
    RunBalanced(rows, findings, r);
    CategoriesAreAll(r.issues);
    BalancedCategories(r);
  }

  lemma BalancedCategories(r: Report)
    requires Balanced(r)
    ensures CategoryTotal(r.counts) ==
            var m := multiset(r.issues);
            m[MissingInvoice] + m[MissingLedger] + m[LedgerMismatch] + m[PricingMismatch]
            + m[MeterMissing] + m[MeterDropped] + m[MeterDiscrepancy]
  {
  }

  // ---------- no run of charger messages can end an audit ----------

  /** Closed confirmed intervals end at the release. */
  ghost predicate EndsAtRelease(e: Evidence) {
    forall i :: 0 <= i < |Billed(e)| && Billed(e)[i].endedAt.Some? ==> Billed(e)[i].endedAt == e.session.releasedAt
  }

  lemma {:induction false} FeesFindTariffs(
    startedAt: int, intervals: seq<Interval>, versions: map<int, IdleFee.IdleRule>, off: int)
    requires forall i :: 0 <= i < |intervals| && intervals[i].endedAt.Some? ==>
               IdleFee.DaysKnown(startedAt, intervals[i].endedAt.value, versions, off)
    ensures IntervalFees(startedAt, intervals, versions, off) != Err(IdleFee.MissingTariffDay)
  {
    if intervals == [] {
    } else {
      var last := intervals[|intervals| - 1];
      FeesFindTariffs(startedAt, intervals[..|intervals| - 1], versions, off);
      if last.endedAt.Some? {
        IdleFee.LookupsSucceed(startedAt, Some(last.startedAt), last.endedAt.value, versions, off);
      }
    }
  }

  lemma IdleFindsTariffs(e: Evidence, p: Pricing)
    requires e.session.endedAt.Some? && EndsAtRelease(e)
    requires DailyPricing(e.tariffs, e.session.startedAt, AuditEnd(e), e.off) == Ok(p)
    ensures AuditIdle(e, p.versions) != Err(IdleFee.MissingTariffDay)
  {
    var start, end, until := e.session.startedAt, e.session.endedAt.value, AuditEnd(e);
    PricedDaysKnown(e.tariffs, start, until, end, e.off, p);
    IdleFee.LookupsSucceed(start, e.session.idleSince, end, p.versions, e.off);
    if e.session.releasedAt.Some? && Billed(e) != [] {
      PricedDaysKnown(e.tariffs, start, until, e.session.releasedAt.value, e.off, p);
    }
    FeesFindTariffs(start, Billed(e), p.versions, e.off);
  }

  lemma PricedNeverCrashes(e: Evidence, rs: seq<Reading>, p: Pricing)
    requires e.session.endedAt.Some? && AuditIdle(e, p.versions) != Err(IdleFee.MissingTariffDay)
    ensures !RecomputePriced(e, rs, p).Crashed?
  {
    assert forall energy :: !WithIdle(energy, AuditIdle(e, p.versions)).Crashed?;
  }

  lemma RecomputeNeverCrashes(e: Evidence, readings: Option<seq<Reading>>)
    requires EndsAtRelease(e)
    ensures !Recompute(e, readings).Crashed?
  {
    if e.session.endedAt.Some? && readings.Some? {
      var pricing := DailyPricing(e.tariffs, e.session.startedAt, AuditEnd(e), e.off);
      if pricing.Ok? {
        IdleFindsTariffs(e, pricing.value);
        PricedNeverCrashes(e, readings.value, pricing.value);
      }
    }
  }

  lemma ReachableEndsAtRelease(s: Occupation.Charging, tariffs: seq<Tariff>, off: int, sameStation: bool)
    requires SessionRuns.OccupationInv(s)
    ensures EndsAtRelease(EvidenceProofs.EvidenceOf(s, tariffs, off, sameStation))
  {
    var confirmed := Confirmed(s.intervals);
    EvidenceProofs.ConfirmedMembers(s.intervals);
    forall k | 0 <= k < |confirmed| && confirmed[k].endedAt.Some? ensures confirmed[k].endedAt == s.releasedAt {
      var i :| 0 <= i < |s.intervals| && s.intervals[i] == confirmed[k];
      assert SessionRuns.IntervalOk(s, i);
    }
  }

  /** Whatever messages its charger sent, released or not, no session makes the audit look up a day that
      was never loaded, so every run ends with a report. */
  lemma {:induction false} RunsNeverCrash(
    at: int, meterStart: int, driver: Option<int>, refusal: Option<string>, replaced: bool, byAvailable: bool,
    events: seq<SessionRuns.Event>, tariffs: seq<Tariff>, off: int, sameStation: bool, j: Joined)
    requires j.evidence == EvidenceProofs.EvidenceOf(
               SessionRuns.Run(Occupation.Started(at, meterStart, driver, refusal, replaced, byAvailable), events),
               tariffs, off, sameStation)
    ensures !Crashes(j)
  {
    SessionRuns.ReachableInv(at, meterStart, driver, refusal, replaced, byAvailable, events);
    ReachableEndsAtRelease(
      SessionRuns.Run(Occupation.Started(at, meterStart, driver, refusal, replaced, byAvailable), events),
      tariffs, off, sameStation);
    RecomputeNeverCrashes(j.evidence, CheckMeter(j.evidence.session, j.evidence.samples).readings);
  }

  // ---------- recomputation agrees with invoicing ----------

  lemma AuditEndAgrees(e: Evidence)
    requires Invoiceable(e.session)
    requires e.session.lifecycle.V1? ==> HistoryAccepted(Billed(e), e.session.releasedAt.value)
    ensures AuditEnd(e) == BillingEnd(e)
  {
  }

  lemma {:induction false} OneIntervalFee(
    startedAt: int, i: Interval, versions: map<int, IdleFee.IdleRule>, off: int, lines: seq<IdleFee.IdleLine>)
    requires i.endedAt.Some?
    requires IdleFee.IdleLinesOrError(startedAt, Some(i.startedAt), i.endedAt.value, versions, off) == Ok(lines)
    ensures IntervalFees(startedAt, [i], versions, off) == Ok(IdleFee.AmountTotal(lines))
  {
    assert [i][..0] == [];
    assert IntervalFees(startedAt, [], versions, off) == Ok(0);
  }

  lemma {:induction false} AuditIdleAgrees(e: Evidence, p: Pricing, lines: seq<IdleFee.IdleLine>, fees: int)
    requires fees == IdleFee.AmountTotal(lines)
    requires Invoiceable(e.session)
    requires e.session.lifecycle.V1? ==> HistoryAccepted(Billed(e), e.session.releasedAt.value)
    requires IdleFee.DaysKnown(e.session.startedAt, IdleSpan(e).1, p.versions, e.off)
    requires IdleFee.IdleLines(e.session.startedAt, IdleSpan(e).0, IdleSpan(e).1, p.versions, e.off) == Ok(lines)
    ensures AuditIdle(e, p.versions) == Ok(fees)
  {
    IdleFee.LookupsSucceed(e.session.startedAt, IdleSpan(e).0, IdleSpan(e).1, p.versions, e.off);
    if e.session.lifecycle.V1? && Billed(e) != [] {
      assert Billed(e) == [Billed(e)[0]];
      OneIntervalFee(e.session.startedAt, Billed(e)[0], p.versions, e.off, lines);
    }
  }

  /** The tariffs an invoice is made under, for an accepted occupation history. */
  ghost predicate PricedUnder(e: Evidence, p: Pricing) {
    && Invoiceable(e.session)
    && (e.session.lifecycle.V1? ==> HistoryAccepted(Billed(e), e.session.releasedAt.value))
    && DailyPricing(e.tariffs, e.session.startedAt, BillingEnd(e), e.off) == Ok(p)
  }

  /** The readings, the driver and the energy of an invoice. */
  ghost predicate MeteredParts(e: Evidence, rs: seq<Reading>, invoice: Invoice) {
    && e.session.endedAt.Some? && e.session.startedAt < e.session.endedAt.value
    && MeterValues(e.session, e.samples, e.session.endedAt.value) == Ok(rs)
    && e.session.driver == Some(invoice.driver)
    && e.session.meterStop.Some?
    && DailyTotals.EnergyTotal(invoice.energyLines) == e.session.meterStop.value - e.session.meterStart >= 0
  }

  lemma PricedMetered(e: Evidence, rs: seq<Reading>, p: Pricing, invoice: Invoice)
    requires PricedFrom(e, rs, p) && rs != [] && PricedInvoice(e, e.session.driver.value, rs, p) == Ok(invoice)
    ensures MeteredParts(e, rs, invoice)
  {
    PricedSegments(e, rs, p);
    FirstBelowLast(rs);
  }

  lemma {:induction false} RecomputeParts(
    e: Evidence, rs: seq<Reading>, p: Pricing, segments: seq<Segment>, fees: int, total: int)
    requires total == DailyTotals.AmountTotal(segments) + fees
    requires e.session.endedAt.Some?
    requires Segments(e.session.startedAt, e.session.endedAt.value, rs, p.frames, e.off) == Ok(segments)
    requires AuditIdle(e, p.versions) == Ok(fees)
    ensures RecomputePriced(e, rs, p) == Recomputed(total)
  {
  }

  lemma FirstBelowLast(rs: seq<Reading>)
    requires GoodReadings(rs)
    ensures rs[0].energy <= rs[|rs| - 1].energy
  {
  }

  lemma {:induction false} PricedRecomputes(
    e: Evidence, rs: seq<Reading>, p: Pricing, segments: seq<Segment>, lines: seq<IdleFee.IdleLine>, total: int)
    requires total == DailyTotals.AmountTotal(segments) + IdleFee.AmountTotal(lines)
    requires Invoiceable(e.session)
    requires e.session.lifecycle.V1? ==> HistoryAccepted(Billed(e), e.session.releasedAt.value)
    requires Segments(e.session.startedAt, e.session.endedAt.value, rs, p.frames, e.off) == Ok(segments)
    requires IdleFee.DaysKnown(e.session.startedAt, IdleSpan(e).1, p.versions, e.off)
    requires IdleFee.IdleLines(e.session.startedAt, IdleSpan(e).0, IdleSpan(e).1, p.versions, e.off) == Ok(lines)
    ensures RecomputePriced(e, rs, p) == Recomputed(total)
  {
    var fees := IdleFee.AmountTotal(lines);
    AuditIdleAgrees(e, p, lines, fees);
    RecomputeParts(e, rs, p, segments, fees, total);
  }

  lemma InvoiceParts(e: Evidence, rs: seq<Reading>, p: Pricing, invoice: Invoice)
    returns (segments: seq<Segment>, lines: seq<IdleFee.IdleLine>)
    requires PricedUnder(e, p) && e.session.driver.Some? && rs != []
    requires PricedInvoice(e, e.session.driver.value, rs, p) == Ok(invoice)
    ensures Segments(e.session.startedAt, e.session.endedAt.value, rs, p.frames, e.off) == Ok(segments)
    ensures IdleFee.DaysKnown(e.session.startedAt, IdleSpan(e).1, p.versions, e.off)
    ensures IdleFee.IdleLines(e.session.startedAt, IdleSpan(e).0, IdleSpan(e).1, p.versions, e.off) == Ok(lines)
    ensures invoice.total == DailyTotals.AmountTotal(segments) + IdleFee.AmountTotal(lines)
  {
    IdleDaysKnown(e, p);
    segments := Segments(e.session.startedAt, e.session.endedAt.value, rs, p.frames, e.off).value;
    lines := IdleFee.IdleLines(e.session.startedAt, IdleSpan(e).0, IdleSpan(e).1, p.versions, e.off).value;
  }

  lemma PricedTotal(e: Evidence, rs: seq<Reading>, p: Pricing, invoice: Invoice)
    requires PricedUnder(e, p) && e.session.driver.Some? && rs != []
    requires PricedInvoice(e, e.session.driver.value, rs, p) == Ok(invoice)
    ensures RecomputePriced(e, rs, p) == Recomputed(invoice.total)
  {
    var segments, lines := InvoiceParts(e, rs, p, invoice);
    PricedRecomputes(e, rs, p, segments, lines, invoice.total);
  }

  lemma CreatedParts(e: Evidence, invoice: Invoice) returns (rs: seq<Reading>, p: Pricing)
    requires Invoiceable(e.session) && CreatedInvoice(e) == Ok(invoice)
    ensures MeteredParts(e, rs, invoice)
    ensures PricedUnder(e, p) && RecomputePriced(e, rs, p) == Recomputed(invoice.total)
  {
    rs := MeterValues(e.session, e.samples, e.session.endedAt.value).value;
    p := DailyPricing(e.tariffs, e.session.startedAt, BillingEnd(e), e.off).value;
    assert PricedFrom(e, rs, p);
    BilledIsPriced(e, rs, p);
    PricedMetered(e, rs, p, invoice);
    PricedTotal(e, rs, p, invoice);
  }

  lemma PricedIsRecomputed(e: Evidence, rs: seq<Reading>, p: Pricing)
    requires PricedUnder(e, p)
    ensures Recompute(e, Some(rs)) == RecomputePriced(e, rs, p)
  {
    AuditEndAgrees(e);
  }

  lemma PartsMetered(e: Evidence, rs: seq<Reading>, invoice: Invoice)
    requires MeteredParts(e, rs, invoice)
    ensures CheckMeter(e.session, e.samples)
         == MeterCheck([], Some(DailyTotals.EnergyTotal(invoice.energyLines)), Some(rs), false)
  {
  }

  /** On the evidence an invoice was created from, the meter check is clean and the recomputed total is
      the invoiced total. */
  lemma RecomputationAgrees(e: Evidence, invoice: Invoice)
    requires Invoiceable(e.session) && CreatedInvoice(e) == Ok(invoice)
    ensures var m := CheckMeter(e.session, e.samples);
            && m.issues == [] && !m.missing && m.meter == Some(DailyTotals.EnergyTotal(invoice.energyLines))
            && Recompute(e, m.readings) == Recomputed(invoice.total)
  {
    var rs, p := CreatedParts(e, invoice);
    PricedIsRecomputed(e, rs, p);
    PartsMetered(e, rs, invoice);
  }

  // ---------- what the audit notices ----------

  /** The stored money is right: the total is the recomputed one, and the ledger shows exactly it. */
  ghost predicate MoneyRight(j: Joined, invoice: Invoice, total: int) {
    && invoice.total == total
    && if total == 0 then j.ledger.None? || j.ledger.value.amount == 0
       else
         && j.ledger.Some? && -j.ledger.value.amount == total
         && j.walletDriver.Some? && j.walletDriver == j.evidence.session.driver == Some(invoice.driver)
         && j.ledger.value.reference.SessionReference?
  }

  /** Given unchanged evidence and lines, the audit is silent exactly when the stored total and the debit
      are right: any nonzero change of either produces an issue. */
  lemma SilentIffMoneyRight(j: Joined, stored: Invoice, created: Invoice)
    requires Invoiceable(j.evidence.session) && CreatedInvoice(j.evidence) == Ok(created)
    requires j.invoice == Some(stored) && stored.energyLines == created.energyLines
    requires j.settled != Some(LegacyExempt)
    ensures !Crashes(j)
    ensures Issues(j) == [] <==> MoneyRight(j, stored, created.total)
  {
    RecomputationAgrees(j.evidence, created);
    SilentGiven(j, stored, CheckMeter(j.evidence.session, j.evidence.samples), created.total);
  }

  lemma SilentGiven(j: Joined, stored: Invoice, m: MeterCheck, total: int)
    requires m == CheckMeter(j.evidence.session, j.evidence.samples)
    requires m.issues == [] && Recompute(j.evidence, m.readings) == Recomputed(total)
    requires j.invoice == Some(stored) && m.meter == Some(DailyTotals.EnergyTotal(stored.energyLines))
    requires j.settled != Some(LegacyExempt)
    ensures Issues(j) == [] <==> MoneyRight(j, stored, total)
  {
    InvoiceIssues(j, stored, m.meter, total);
    assert Issues(j) == [] + [] + CheckInvoice(j, m.meter, Recomputed(total));
  }

  lemma InvoiceIssues(j: Joined, stored: Invoice, meter: Option<int>, total: int)
    requires j.invoice == Some(stored) && j.settled != Some(LegacyExempt)
    requires meter == Some(DailyTotals.EnergyTotal(stored.energyLines))
    ensures CheckInvoice(j, meter, Recomputed(total)) == [] <==> MoneyRight(j, stored, total)
  {
  }

  // ---------- settled sessions ----------

  /** The row the run joins for a session: its one charging debit and the driver owning that wallet. */
  ghost predicate JoinedFrom(w: World, id: int, j: Joined)
    requires id in w.rows
  {
    var row := w.rows[id];
    && j.evidence == row.evidence && j.settled == row.settled
    && j.invoice == (if row.issued.Some? then Some(row.issued.value.invoice) else None)
    && (j.ledger.Some? ==> j.ledger.value in w.ledger && j.ledger.value.kind.ChargingDebit? && j.ledger.value.refId == id)
    && (j.ledger.None? ==> forall e :: e in w.ledger && e.kind.ChargingDebit? ==> e.refId != id)
    && (j.walletDriver.Some? ==> j.walletDriver.value in w.wallets)
    && (forall d :: j.ledger.Some? && d in w.wallets && w.wallets[d] == j.ledger.value.wallet ==> j.walletDriver == Some(d))
  }

  lemma {:induction false} DebitIsEntry(ledger: seq<Entry>, id: int, e: Entry)
    requires e in ledger && ForSession(e, id)
    ensures e in EntriesFor(ledger, id)
  {
    var init, last := ledger[..|ledger| - 1], ledger[|ledger| - 1];
    assert ledger == init + [last];
    if e == last {
    } else {
      DebitIsEntry(init, id, e);
    }
  }

  lemma {:induction false} EntryIsInLedger(ledger: seq<Entry>, id: int, e: Entry)
    requires e in EntriesFor(ledger, id)
    ensures e in ledger
  {
    if ledger == [] {
    } else {
      var init := ledger[..|ledger| - 1];
      assert ledger == init + [ledger[|ledger| - 1]];
      if e in EntriesFor(init, id) {
        EntryIsInLedger(init, id, e);
      }
    }
  }

  lemma SettledMoneyRight(w: World, id: int, j: Joined)
    requires Inv(w) && id in w.rows && w.rows[id].issued.Some? && JoinedFrom(w, id, j)
    requires w.rows[id].settled == Some(Debited) || w.rows[id].settled == Some(ZeroInvoice)
    requires w.rows[id].evidence.session.driver == Some(w.rows[id].issued.value.invoice.driver)
    ensures MoneyRight(j, w.rows[id].issued.value.invoice, w.rows[id].issued.value.invoice.total)
  {
    assert SettledRight(w.rows[id], w.ledger, w.wallets, id);
    var invoice := w.rows[id].issued.value.invoice;
    if w.rows[id].settled == Some(Debited) {
      var debit := DebitEntry(w.wallets[invoice.driver], invoice.total, id);
      assert debit in EntriesFor(w.ledger, id);
      EntryIsInLedger(w.ledger, id, debit);
      if j.ledger.Some? {
        DebitIsEntry(w.ledger, id, j.ledger.value);
        assert j.ledger.value == debit;
      }
    } else if j.ledger.Some? {
      DebitIsEntry(w.ledger, id, j.ledger.value);
    }
  }

  /** The session is settled, on evidence that has not changed since it was invoiced. */
  ghost predicate SettledUnchanged(w: World, id: int, j: Joined) {
    && id in w.rows && JoinedFrom(w, id, j)
    && (w.rows[id].settled == Some(Debited) || w.rows[id].settled == Some(ZeroInvoice))
    && (w.rows[id].issued.Some? ==> w.rows[id].evidence == w.rows[id].issued.value.basis)
  }

  /** Any session settled in any run, whose evidence has not changed since it was invoiced, is audited
      without a single issue. */
  lemma {:induction false} SettledAuditsClean(w0: World, steps: seq<Step>, id: int, j: Joined)
    requires Initial(w0) && SettledUnchanged(Run(w0, steps), id, j)
    ensures !Crashes(j) && Issues(j) == []
  {
    var w := Run(w0, steps);
    SettledRightOverRuns(w0, steps);
    GenuineOverRuns(w0, steps);
    SettledIsIssued(w, id);
    var issued := w.rows[id].issued.value;
    assert Genuine(issued);
    CreatedDriver(issued.basis, issued.invoice);
    SettledMoneyRight(w, id, j);
    SilentIffMoneyRight(j, issued.invoice, issued.invoice);
  }

  // ---------- the totals of a run ----------

  ghost predicate MoneyAgrees(t: Totals) { t.billed == t.recomputed == t.debited }

  ghost predicate EnergyAgrees(t: Totals) { t.metered == t.lined }

  lemma {:induction false} NotedAllTotals(r: Report, issues: seq<IssueType>)
    ensures NotedAll(r, issues).totals == r.totals && NotedAll(r, issues).exempt == r.exempt
  {
    if issues == [] {
    } else {
      NotedAllTotals(r, issues[..|issues| - 1]);
    }
  }

  lemma AddShape(r: Report, j: Joined, f: Finding)
    ensures var r' := Add(r, j, f);
            && r'.issues == r.issues + f.issues && r'.totals == Plus(r.totals, f.totals)
            && r'.exempt == r.exempt + (if IsExempt(j) then 1 else 0)
  {
    NotedAllTotals(r, f.issues);
    NotedAllShape(r, f.issues);
  }

  /** A silent, invoiced session was billed what is recomputed and, unless exempted, debited that. */
  lemma SilentMoney(j: Joined)
    requires Issues(j) == [] && !IsExempt(j)
    ensures MoneyAgrees(TotalsOf(j))
  {
    var m := CheckMeter(j.evidence.session, j.evidence.samples);
    CheckedMoney(j, m.meter, Recompute(j.evidence, m.readings));
  }

  lemma CheckedMoney(j: Joined, meter: Option<int>, r: Recomputation)
    requires CheckInvoice(j, meter, r) == [] && !IsExempt(j)
    ensures MoneyAgrees(SessionTotals(j, meter, r))
  {
    if j.invoice.Some? {
      var invoice := j.invoice.value;
      assert CheckLedger(j, invoice) == [] && CheckPrice(invoice, r) == [];
    }
  }

  /** In every run that records no issue and meets no exempted session, the money billed, recomputed and
      debited is the same. */
  lemma {:induction false} QuietRunBalances(rows: seq<Joined>, findings: seq<Finding>, r: Report)
    requires AreFindings(rows, findings) && IsTally(r, rows, findings)
    requires r.issues == [] && r.exempt == 0
    ensures MoneyAgrees(r.totals)
  {
    if rows == [] {
    } else {
      var n := |rows| - 1;
      var before := Tallied(rows[..n], findings[..n]);
      AddShape(before, rows[n], findings[n]);
      SilentMoney(rows[n]);
      QuietRunBalances(rows[..n], findings[..n], before);
    }
  }

  lemma CreatedEnergy(j: Joined, invoice: Invoice)
    requires Invoiceable(j.evidence.session) && CreatedInvoice(j.evidence) == Ok(invoice) && j.invoice == Some(invoice)
    ensures EnergyAgrees(TotalsOf(j))
  {
    RecomputationAgrees(j.evidence, invoice);
  }

  lemma {:induction false} SettledEnergy(w0: World, steps: seq<Step>, id: int, j: Joined)
    requires Initial(w0) && SettledUnchanged(Run(w0, steps), id, j)
    ensures EnergyAgrees(TotalsOf(j))
  {
    var w := Run(w0, steps);
    SettledRightOverRuns(w0, steps);
    GenuineOverRuns(w0, steps);
    SettledIsIssued(w, id);
    assert Genuine(w.rows[id].issued.value);
    CreatedEnergy(j, w.rows[id].issued.value.invoice);
  }

  /** The sessions of a run, each settled on evidence that has not changed since. */
  ghost predicate AllSettled(w: World, ids: seq<int>, rows: seq<Joined>) {
    |ids| == |rows| && forall i :: 0 <= i < |rows| ==> SettledUnchanged(w, ids[i], rows[i])
  }

  /** A run over settled sessions matches them all; billed, recomputed and debited money are one amount, and
      the invoice lines hold exactly the energy the meters moved. */
  lemma {:induction false} SettledRunBalances(
    w0: World, steps: seq<Step>, ids: seq<int>, rows: seq<Joined>, findings: seq<Finding>, r: Report)
    requires Initial(w0) && AllSettled(Run(w0, steps), ids, rows)
    requires AreFindings(rows, findings) && IsTally(r, rows, findings)
    ensures r.matched == |rows| && r.issues == [] && r.exempt == 0
    ensures MoneyAgrees(r.totals) && EnergyAgrees(r.totals)
  {
    SettledRunCounts(w0, steps, ids, rows, findings, r);
    QuietRunBalances(rows, findings, r);
  }

  lemma {:induction false} SettledRunCounts(
    w0: World, steps: seq<Step>, ids: seq<int>, rows: seq<Joined>, findings: seq<Finding>, r: Report)
    requires Initial(w0) && AllSettled(Run(w0, steps), ids, rows)
    requires AreFindings(rows, findings) && IsTally(r, rows, findings)
    ensures r.matched == |rows| && r.issues == [] && r.exempt == 0 && EnergyAgrees(r.totals)
  {
    if rows == [] {
    } else {
      var n := |rows| - 1;
      var before := Tallied(rows[..n], findings[..n]);
      SettledRunCounts(w0, steps, ids[..n], rows[..n], findings[..n], before);
      assert SettledUnchanged(Run(w0, steps), ids[n], rows[n]);
      SettledAuditsClean(w0, steps, ids[n], rows[n]);
      SettledEnergy(w0, steps, ids[n], rows[n]);
      AddShape(before, rows[n], findings[n]);
      NotedAllShape(before, findings[n].issues);
    }
  }

  lemma CreatedDriver(e: Evidence, invoice: Invoice)
    requires Invoiceable(e.session) && CreatedInvoice(e) == Ok(invoice)
    ensures e.session.driver == Some(invoice.driver)
  {
    var rs, p := CreatedParts(e, invoice);
  }
}
