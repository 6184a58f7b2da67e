/** What each category, counter and total of a reconciliation run says about the sessions it read. */
module AuditMeaning {
  import opened Prelude
  import opened Interpolation
  import opened Invoicing
  import opened InvoiceCreation
  import opened Settlement
  import opened Audit
  import opened AuditProofs
  import DailyTotals
  import Segmentation
  import IdleFee

  // ---------- what can be wrong with a session ----------

  predicate NoStopMeter(s: Session) { s.endedAt.Some? && s.meterStop.None? }

  /** Ended, with meters that do not run backwards. */
  predicate Measured(s: Session) { s.endedAt.Some? && s.meterStop.Some? && s.meterStart <= s.meterStop.value }

  ghost predicate SamplesFall(e: Evidence) {
    Measured(e.session) && MeterValues(e.session, e.samples, e.session.endedAt.value) == Err(MeterDecreased)
  }

  predicate MetersFall(s: Session) { s.endedAt.Some? && s.meterStop.Some? && s.meterStop.value < s.meterStart }

  /** The samples are refused for another reason. */
  ghost predicate SamplesRefused(e: Evidence) {
    && Measured(e.session) && MeterValues(e.session, e.samples, e.session.endedAt.value).Err?
    && !SamplesFall(e)
  }

  /** An invoice is due: the session ended and, for version 1, the car was unplugged. */
  predicate InvoiceDue(s: Session) { s.endedAt.Some? && (s.lifecycle.V1? ==> s.releasedAt.Some?) }

  /** The readings a session is repriced with: its samples, or the two session ends if they are refused. */
  ghost function RepricingReadings(e: Evidence): seq<Reading>
    requires Measured(e.session)
  {
    var s, end := e.session, e.session.endedAt.value;
    match MeterValues(s, e.samples, end)
    case Ok(rs) => rs
    case Err(_) => [Reading(s.startedAt, s.meterStart), Reading(end, s.meterStop.value)]
  }

  /** The last instant that is charged: an unplug after the stop counts only with a billed interval. */
  function ChargedUntil(e: Evidence): int
    requires e.session.endedAt.Some?
  {
    if Billed(e) == [] || e.session.releasedAt.None? then e.session.endedAt.value
    else Max(e.session.endedAt.value, e.session.releasedAt.value)
  }

  ghost function RepricingTariffs(e: Evidence): Result<Pricing, Reason>
    requires e.session.endedAt.Some?
  {
    DailyPricing(e.tariffs, e.session.startedAt, ChargedUntil(e), e.off)
  }

  /** The present evidence cut into priced pieces. */
  ghost function PresentSegments(e: Evidence, p: Pricing): Result<seq<Segmentation.Segment>, MeterError>
    requires Measured(e.session)
  {
    Segmentation.Segments(e.session.startedAt, e.session.endedAt.value, RepricingReadings(e), p.frames, e.off)
  }

  predicate NotAnInterval(
    segments: Result<seq<Segmentation.Segment>, MeterError>, fees: Result<int, IdleFee.IdleError>)
  {
    segments.Ok? && fees == Err(IdleFee.InvalidIdleInterval)
  }

  function TotalOf(segments: Result<seq<Segmentation.Segment>, MeterError>, fees: Result<int, IdleFee.IdleError>)
    : Option<int>
  {
    if segments.Ok? && fees.Ok? then Some(DailyTotals.AmountTotal(segments.value) + fees.value) else None
  }

  /** No tariff applies, or the occupation interval is not one. */
  ghost predicate CannotBePriced(e: Evidence) {
    && Measured(e.session)
    && match RepricingTariffs(e)
       case Err(_) => true
       case Ok(p) => NotAnInterval(PresentSegments(e, p), AuditIdle(e, p.versions))
  }

  /** The total the present evidence comes to, if it can be priced at all. */
  ghost function PresentTotal(e: Evidence): Option<int> {
    if !Measured(e.session) then None
    else
      match RepricingTariffs(e)
      case Err(_) => None
      case Ok(p) => TotalOf(PresentSegments(e, p), AuditIdle(e, p.versions))
  }

  /** The total a stored invoice is held against: the present one, else its own lines priced again. */
  ghost function RightTotal(e: Evidence, invoice: Invoice): int {
    match PresentTotal(e)
    case Some(total) => total
    case None => Repriced(invoice)
  }

  predicate MustBeDebited(j: Joined) {
    j.invoice.Some? && j.invoice.value.total != 0 && j.settled != Some(LegacyExempt)
  }

  /** The debit is of the invoiced total, under the session, and session, invoice and wallet have one driver. */
  predicate RightDebit(j: Joined)
    requires j.invoice.Some? && j.ledger.Some?
  {
    && j.ledger.value.amount == -j.invoice.value.total && j.ledger.value.reference == SessionReference
    && j.walletDriver == j.evidence.session.driver == Some(j.invoice.value.driver)
  }

  predicate WrongDebit(j: Joined) {
    && j.invoice.Some? && j.ledger.Some?
    && if MustBeDebited(j) then !RightDebit(j) else j.ledger.value.amount != 0
  }

  predicate LinesOff(j: Joined) {
    && j.invoice.Some? && Measured(j.evidence.session)
    && var moved := j.evidence.session.meterStop.value - j.evidence.session.meterStart;
       Abs(moved - DailyTotals.EnergyTotal(j.invoice.value.energyLines)) > ENERGY_TOLERANCE
  }

  ghost predicate WrongTotal(j: Joined) {
    j.invoice.Some? && j.invoice.value.total != RightTotal(j.evidence, j.invoice.value)
  }

  function One(b: bool): nat { if b then 1 else 0 }

  /** How often a session has an issue of a category. */
  ghost function Times(j: Joined, t: IssueType): nat {
    var e := j.evidence;
    match t
    case MeterMissing => One(NoStopMeter(e.session))
    case MeterDropped => One(MetersFall(e.session) || SamplesFall(e))
    case MeterDiscrepancy => One(SamplesRefused(e)) + One(LinesOff(j))
    case MissingInvoice => One(j.invoice.None? && InvoiceDue(e.session))
    case MissingLedger => One(MustBeDebited(j) && j.ledger.None?)
    case LedgerMismatch => One(WrongDebit(j))
    case PricingMismatch => One(CannotBePriced(e)) + One(WrongTotal(j))
  }

  ghost function MeterTimes(e: Evidence, t: IssueType): nat {
    match t
    case MeterMissing => One(NoStopMeter(e.session))
    case MeterDropped => One(MetersFall(e.session) || SamplesFall(e))
    case MeterDiscrepancy => One(SamplesRefused(e))
    case _ => 0
  }

  function LedgerTimes(j: Joined, t: IssueType): nat {
    match t
    case MissingLedger => One(MustBeDebited(j) && j.ledger.None?)
    case LedgerMismatch => One(WrongDebit(j))
    case _ => 0
  }

  ghost function InvoiceTimes(j: Joined, t: IssueType): nat {
    match t
    case MissingInvoice => One(j.invoice.None? && InvoiceDue(j.evidence.session))
    case PricingMismatch => One(WrongTotal(j))
    case MeterDiscrepancy => One(LinesOff(j))
    case _ => LedgerTimes(j, t)
  }

  lemma TimesParts(j: Joined, t: IssueType)
    ensures Times(j, t)
         == MeterTimes(j.evidence, t) + One(t.PricingMismatch? && CannotBePriced(j.evidence)) + InvoiceTimes(j, t)
  {
  }

  // ---------- the checks find exactly that ----------

  lemma MeterFinds(e: Evidence, t: IssueType)
    ensures multiset(CheckMeter(e.session, e.samples).issues)[t] == MeterTimes(e, t)
  {
  }

  lemma MeterGives(e: Evidence)
    ensures var m, s := CheckMeter(e.session, e.samples), e.session;
            && m.readings == (if Measured(s) then Some(RepricingReadings(e)) else None)
            && m.meter == (if Measured(s) then Some(s.meterStop.value - s.meterStart) else None)
            && (m.missing <==> NoStopMeter(s) || SamplesFall(e) || SamplesRefused(e))
  {
  }

  /** The recomputation is of the present total, or says that there is none. */
  ghost predicate Represents(r: Recomputation, e: Evidence) { Shows(r, CannotBePriced(e), PresentTotal(e)) }

  predicate Shows(r: Recomputation, unpriced: bool, total: Option<int>) {
    (r.Unpriced? <==> unpriced) && total == if r.Recomputed? then Some(r.total) else None
  }

  lemma RecomputeUnpriced(e: Evidence, rs: seq<Reading>)
    requires Measured(e.session) && RepricingTariffs(e).Err?
    ensures Recompute(e, Some(rs)) == Unpriced && CannotBePriced(e) && PresentTotal(e) == None
  {
    assert AuditEnd(e) == ChargedUntil(e);
  }

  lemma RecomputeIsPriced(e: Evidence, rs: seq<Reading>, p: Pricing)
    requires Measured(e.session) && RepricingTariffs(e) == Ok(p)
    ensures Recompute(e, Some(rs)) == RecomputePriced(e, rs, p)
  {
    assert AuditEnd(e) == ChargedUntil(e);
  }

  lemma {:induction false} PricedResult(
    e: Evidence, rs: seq<Reading>, p: Pricing, segments: Result<seq<Segmentation.Segment>, MeterError>,
    fees: Result<int, IdleFee.IdleError>)
    requires e.session.endedAt.Some? && fees == AuditIdle(e, p.versions)
    requires segments == Segmentation.Segments(e.session.startedAt, e.session.endedAt.value, rs, p.frames, e.off)
    ensures Shows(RecomputePriced(e, rs, p), NotAnInterval(segments, fees), TotalOf(segments, fees))
  {
    RecomputeFrom(e, rs, p, segments);
    ShownFrom(RecomputePriced(e, rs, p), segments, fees);
  }

  lemma {:induction false} RecomputeFrom(
    e: Evidence, rs: seq<Reading>, p: Pricing, segments: Result<seq<Segmentation.Segment>, MeterError>)
    requires e.session.endedAt.Some?
    requires segments == Segmentation.Segments(e.session.startedAt, e.session.endedAt.value, rs, p.frames, e.off)
    ensures RecomputePriced(e, rs, p)
         == if segments.Ok? then WithIdle(DailyTotals.AmountTotal(segments.value), AuditIdle(e, p.versions))
            else NotComputed
  {
  }

  lemma {:induction false} ShownFrom(
    r: Recomputation, segments: Result<seq<Segmentation.Segment>, MeterError>, fees: Result<int, IdleFee.IdleError>)
    requires r == if segments.Ok? then WithIdle(DailyTotals.AmountTotal(segments.value), fees) else NotComputed
    ensures Shows(r, NotAnInterval(segments, fees), TotalOf(segments, fees))
  {
    if segments.Ok? {
      WithIdleShows(DailyTotals.AmountTotal(segments.value), fees, TotalOf(segments, fees));
    }
  }

  lemma WithIdleShows(energy: int, fees: Result<int, IdleFee.IdleError>, total: Option<int>)
    requires total == if fees.Ok? then Some(energy + fees.value) else None
    ensures Shows(WithIdle(energy, fees), fees == Err(IdleFee.InvalidIdleInterval), total)
  {
  }

  lemma {:induction false} PricedPresent(
    e: Evidence, p: Pricing, segments: Result<seq<Segmentation.Segment>, MeterError>, fees: Result<int, IdleFee.IdleError>)
    requires Measured(e.session) && RepricingTariffs(e) == Ok(p) && fees == AuditIdle(e, p.versions)
    requires segments == PresentSegments(e, p)
    ensures CannotBePriced(e) <==> NotAnInterval(segments, fees)
    ensures PresentTotal(e) == TotalOf(segments, fees)
  {
  }

  lemma {:induction false} PricedShows(
    e: Evidence, rs: seq<Reading>, p: Pricing, r: Recomputation, unpriced: bool, total: Option<int>)
    requires Measured(e.session) && RepricingTariffs(e) == Ok(p) && rs == RepricingReadings(e)
    requires r == RecomputePriced(e, rs, p) && unpriced == CannotBePriced(e) && total == PresentTotal(e)
    ensures Shows(r, unpriced, total)
  {
    var segments, fees := PresentSegments(e, p), AuditIdle(e, p.versions);
    PricedResult(e, rs, p, segments, fees);
    PricedPresent(e, p, segments, fees);
  }

  lemma RecomputeIs(e: Evidence)
    requires Measured(e.session)
    ensures Represents(Recompute(e, Some(RepricingReadings(e))), e)
  {
    var rs, pricing := RepricingReadings(e), RepricingTariffs(e);
    if pricing.Err? {
      RecomputeUnpriced(e, rs);
    } else {
      RecomputeIsPriced(e, rs, pricing.value);
      PricedShows(e, rs, pricing.value, RecomputePriced(e, rs, pricing.value), CannotBePriced(e), PresentTotal(e));
    }
  }

  lemma SessionChecks(e: Evidence)
    ensures Represents(Recompute(e, CheckMeter(e.session, e.samples).readings), e)
  {
    MeterGives(e);
    if Measured(e.session) {
      RecomputeIs(e);
    }
  }

  lemma LedgerFinds(j: Joined, invoice: Invoice, t: IssueType)
    requires j.invoice == Some(invoice)
    ensures multiset(CheckLedger(j, invoice))[t] == LedgerTimes(j, t)
  {
  }

  lemma PriceFinds(j: Joined, invoice: Invoice, r: Recomputation, t: IssueType)
    requires j.invoice == Some(invoice) && Represents(r, j.evidence)
    ensures multiset(CheckPrice(invoice, r))[t] == One(t.PricingMismatch? && WrongTotal(j))
  {
  }

  lemma EnergyFinds(j: Joined, invoice: Invoice, meter: Option<int>, t: IssueType)
    requires var s := j.evidence.session;
             meter == (if Measured(s) then Some(s.meterStop.value - s.meterStart) else None)
    requires j.invoice == Some(invoice)
    ensures multiset(CheckEnergy(invoice, meter))[t] == One(t.MeterDiscrepancy? && LinesOff(j))
  {
  }

  lemma InParts(a: seq<IssueType>, b: seq<IssueType>, c: seq<IssueType>, t: IssueType)
    ensures multiset(a + b + c)[t] == multiset(a)[t] + multiset(b)[t] + multiset(c)[t]
  {
  }

  lemma InvoicedTimes(j: Joined, t: IssueType)
    requires j.invoice.Some?
    ensures InvoiceTimes(j, t)
         == LedgerTimes(j, t) + One(t.PricingMismatch? && WrongTotal(j)) + One(t.MeterDiscrepancy? && LinesOff(j))
  {
  }

  lemma MissingFinds(j: Joined, meter: Option<int>, r: Recomputation, t: IssueType)
    requires j.invoice.None?
    ensures multiset(CheckInvoice(j, meter, r))[t] == InvoiceTimes(j, t)
  {
  }

  lemma InvoiceFinds(j: Joined, meter: Option<int>, r: Recomputation, t: IssueType)
    requires var s := j.evidence.session;
             meter == (if Measured(s) then Some(s.meterStop.value - s.meterStart) else None)
    requires Represents(r, j.evidence)
    ensures multiset(CheckInvoice(j, meter, r))[t] == InvoiceTimes(j, t)
  {
    if j.invoice.Some? {
      var invoice := j.invoice.value;
      InvoicedTimes(j, t);
      LedgerFinds(j, invoice, t);
      PriceFinds(j, invoice, r, t);
      EnergyFinds(j, invoice, meter, t);
      InParts(CheckLedger(j, invoice), CheckPrice(invoice, r), CheckEnergy(invoice, meter), t);
    } else {
      MissingFinds(j, meter, r, t);
    }
  }

  lemma IssuesParts(j: Joined, m: MeterCheck, r: Recomputation, t: IssueType)
    requires m == CheckMeter(j.evidence.session, j.evidence.samples) && r == Recompute(j.evidence, m.readings)
    ensures multiset(Issues(j))[t]
         == multiset(m.issues)[t] + One(t.PricingMismatch? && r.Unpriced?) + multiset(CheckInvoice(j, m.meter, r))[t]
  {
    InParts(m.issues, if r.Unpriced? then [PricingMismatch] else [], CheckInvoice(j, m.meter, r), t);
  }

  lemma PartsAddUp(j: Joined, m: MeterCheck, r: Recomputation, t: IssueType)
    requires m == CheckMeter(j.evidence.session, j.evidence.samples) && r == Recompute(j.evidence, m.readings)
    ensures multiset(m.issues)[t] == MeterTimes(j.evidence, t)
    ensures r.Unpriced? <==> CannotBePriced(j.evidence)
    ensures multiset(CheckInvoice(j, m.meter, r))[t] == InvoiceTimes(j, t)
  {
    MeterFinds(j.evidence, t);
    MeterGives(j.evidence);
    SessionChecks(j.evidence);
    InvoiceFinds(j, m.meter, r, t);
  }

  /** A session has exactly the issues that hold of it, each as often as it holds. */
  lemma IssuesMeaning(j: Joined, t: IssueType)
    ensures multiset(Issues(j))[t] == Times(j, t)
  {
    var m := CheckMeter(j.evidence.session, j.evidence.samples);
    var r := Recompute(j.evidence, m.readings);
    IssuesParts(j, m, r, t);
    PartsAddUp(j, m, r, t);
    TimesParts(j, t);
  }

  // ---------- over a whole run ----------

  ghost predicate DataMissing(j: Joined) {
    NoStopMeter(j.evidence.session) || SamplesFall(j.evidence) || SamplesRefused(j.evidence) || CannotBePriced(j.evidence)
  }

  ghost predicate Faultless(j: Joined) { forall t :: Times(j, t) == 0 }

  ghost function Count(rows: seq<Joined>, p: Joined -> bool): nat {
    if rows == [] then 0 else Count(rows[..|rows| - 1], p) + One(p(rows[|rows| - 1]))
  }

  ghost function Sum(rows: seq<Joined>, f: Joined -> int): int {
    if rows == [] then 0 else Sum(rows[..|rows| - 1], f) + f(rows[|rows| - 1])
  }

  ghost function Occurrences(rows: seq<Joined>, t: IssueType): nat {
    if rows == [] then 0 else Occurrences(rows[..|rows| - 1], t) + Times(rows[|rows| - 1], t)
  }

  function MeterAdvance(j: Joined): int {
    if Measured(j.evidence.session) then j.evidence.session.meterStop.value - j.evidence.session.meterStart else 0
  }

  function LineEnergy(j: Joined): int {
    if j.invoice.Some? then DailyTotals.EnergyTotal(j.invoice.value.energyLines) else 0
  }

  function InvoicedMoney(j: Joined): int { if j.invoice.Some? then j.invoice.value.total else 0 }

  ghost function RightMoney(j: Joined): int {
    if j.invoice.Some? then RightTotal(j.evidence, j.invoice.value) else 0
  }

  function DebitedMoney(j: Joined): int { if j.invoice.Some? && j.ledger.Some? then -j.ledger.value.amount else 0 }

  ghost predicate TotalsAre(t: Totals, rows: seq<Joined>) {
    && t.metered == Sum(rows, MeterAdvance) && t.lined == Sum(rows, LineEnergy) && t.billed == Sum(rows, InvoicedMoney)
    && t.recomputed == Sum(rows, RightMoney) && t.debited == Sum(rows, DebitedMoney)
  }

  ghost predicate CountsAre(r: Report, rows: seq<Joined>) {
    && (forall t :: CountOf(r.counts, t) == Occurrences(rows, t))
    && r.matched == Count(rows, Faultless) && r.mismatched == |rows| - r.matched
    && r.missing == Count(rows, DataMissing) && r.exempt == Count(rows, IsExempt)
  }

  lemma OwnTotals(j: Joined)
    ensures TotalsOf(j)
         == Totals(MeterAdvance(j), LineEnergy(j), InvoicedMoney(j), RightMoney(j), DebitedMoney(j))
  {
    MeterGives(j.evidence);
    SessionChecks(j.evidence);
  }

  lemma MissingIs(j: Joined)
    ensures IsMissing(j) <==> DataMissing(j)
  {
    MeterGives(j.evidence);
    SessionChecks(j.evidence);
  }

  lemma FaultlessIsSilent(j: Joined)
    ensures Issues(j) == [] <==> Faultless(j)
  {
    forall t ensures multiset(Issues(j))[t] == Times(j, t) {
      IssuesMeaning(j, t);
    }
    if Issues(j) != [] {
      assert Issues(j)[0] in multiset(Issues(j));
    }
  }

  lemma {:induction false} NotedAllCounts(r: Report, issues: seq<IssueType>, t: IssueType)
    ensures CountOf(NotedAll(r, issues).counts, t) == CountOf(r.counts, t) + multiset(issues)[t]
  {
    if issues == [] {
    } else {
      var init := issues[..|issues| - 1];
      NotedAllCounts(r, init, t);
      assert issues == init + [issues[|init|]];
    }
  }

  lemma {:induction false} NotedAllKeeps(r: Report, issues: seq<IssueType>)
    ensures var r' := NotedAll(r, issues);
            r'.matched == r.matched && r'.mismatched == r.mismatched && r'.missing == r.missing && r'.exempt == r.exempt
  {
    if issues == [] {
    } else {
      NotedAllKeeps(r, issues[..|issues| - 1]);
    }
  }

  lemma AddCounts(r: Report, j: Joined, f: Finding)
    requires f == FindingOf(j)
    ensures var r' := Add(r, j, f);
            && (forall t :: CountOf(r'.counts, t) == CountOf(r.counts, t) + Times(j, t))
            && r'.matched == r.matched + One(Faultless(j)) && r'.mismatched == r.mismatched + One(!Faultless(j))
            && r'.missing == r.missing + One(DataMissing(j)) && r'.exempt == r.exempt + One(IsExempt(j))
  {
    forall t ensures CountOf(Add(r, j, f).counts, t) == CountOf(r.counts, t) + Times(j, t) {
      NotedAllCounts(r, f.issues, t);
      IssuesMeaning(j, t);
    }
    NotedAllKeeps(r, f.issues);
    FaultlessIsSilent(j);
    MissingIs(j);
  }

  /** In every run each category counts how often it holds of the sessions, and the session counters count the
      sessions of which none holds, some holds, data is missing, or an invoice is exempted. */
  lemma {:induction false} CountersMeaning(rows: seq<Joined>, findings: seq<Finding>, r: Report)
    requires AreFindings(rows, findings) && IsTally(r, rows, findings)
    ensures CountsAre(r, rows)
  {
    if rows == [] {
    } else {
      var n := |rows| - 1;
      var before := Tallied(rows[..n], findings[..n]);
      CountersMeaning(rows[..n], findings[..n], before);
      AddCounts(before, rows[n], findings[n]);
    }
  }

  /** And the totals are the sums over the sessions of the meter advance, the lines, and the money invoiced,
      right and debited. */
  lemma {:induction false} TotalsMeaning(rows: seq<Joined>, findings: seq<Finding>, r: Report)
    requires AreFindings(rows, findings) && IsTally(r, rows, findings)
    ensures TotalsAre(r.totals, rows)
  {
    if rows == [] {
    } else {
      var n := |rows| - 1;
      var before := Tallied(rows[..n], findings[..n]);
      TotalsMeaning(rows[..n], findings[..n], before);
      AddShape(before, rows[n], findings[n]);
      OwnTotals(rows[n]);
    }
  }
}
