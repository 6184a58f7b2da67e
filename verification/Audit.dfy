/** The reconciliation run that recomputes every invoice (accounting/service.py). */
module Audit {
  import opened Prelude
  import opened Interpolation
  import opened Segmentation
  import opened Invoicing
  import opened InvoiceCreation
  import opened Settlement
  import DailyTotals
  import IdleFee
  import Money

  datatype IssueType =
    | MissingInvoice | MissingLedger | LedgerMismatch | PricingMismatch
    | MeterMissing | MeterDropped | MeterDiscrepancy

  /** One joined row: the session's evidence, its stored invoice, its debit and that wallet's driver. */
  datatype Joined = Joined(
    evidence: Evidence, invoice: Option<Invoice>, ledger: Option<Entry>, walletDriver: Option<int>,
    settled: Option<SettlementReason>)

  /** Tolerance between the meter and the billed lines: 0.001 Wh. */
  const ENERGY_TOLERANCE: int := 1000

  // ---------- A. meter readings ----------

  datatype MeterCheck = MeterCheck(issues: seq<IssueType>, meter: Option<int>, readings: Option<seq<Reading>>, missing: bool)

  function CheckMeter(s: Session, samples: map<int, int>): MeterCheck {
    if s.endedAt.None? then MeterCheck([], None, None, false)
    else if s.meterStop.None? then MeterCheck([MeterMissing], None, None, true)
    else if s.meterStop.value < s.meterStart then MeterCheck([MeterDropped], None, None, false)
    else JudgeReadings(s, s.meterStop.value, s.endedAt.value, MeterValues(s, samples, s.endedAt.value))
  }

  /** Refused readings are an issue; the two session ends then stand in for them. */
  function JudgeReadings(s: Session, stop: int, end: int, readings: Result<seq<Reading>, Reason>): MeterCheck {
    var meter := Some(stop - s.meterStart);
    match readings
    case Ok(rs) => MeterCheck([], meter, Some(rs), false)
    case Err(reason) =>
      MeterCheck([if reason.MeterDecreased? then MeterDropped else MeterDiscrepancy], meter,
                 Some([Reading(s.startedAt, s.meterStart), Reading(end, stop)]), true)
  }

  // ---------- B. recomputation ----------

  function AuditEnd(e: Evidence): int
    requires e.session.endedAt.Some?
  {
    if Billed(e) != [] && e.session.releasedAt.Some?
    then Max(e.session.endedAt.value, e.session.releasedAt.value) else e.session.endedAt.value
  }

  /** The occupation fees of closed intervals, added up. */
  function IntervalFees(startedAt: int, intervals: seq<Interval>, versions: map<int, IdleFee.IdleRule>, off: int)
    : Result<int, IdleFee.IdleError>
  {
    if intervals == [] then Ok(0)
    else
      var init, last := intervals[..|intervals| - 1], intervals[|intervals| - 1];
      match IntervalFees(startedAt, init, versions, off)
      case Err(e) => Err(e)
      case Ok(fees) =>
        if last.endedAt.None? then Ok(fees)
        else
          match IdleFee.IdleLinesOrError(startedAt, Some(last.startedAt), last.endedAt.value, versions, off)
          case Err(e) => Err(e)
          case Ok(lines) => Ok(fees + IdleFee.AmountTotal(lines))
  }

  /** The occupation fee as the audit recomputes it. */
  function AuditIdle(e: Evidence, versions: map<int, IdleFee.IdleRule>): Result<int, IdleFee.IdleError>
    requires e.session.endedAt.Some?
  {
    var s, end := e.session, e.session.endedAt.value;
    if s.lifecycle.V1? then IntervalFees(s.startedAt, Billed(e), versions, e.off)
    else if s.idleSince.None? || s.idleSince.value >= end then Ok(0)
    else
      match IdleFee.IdleLinesOrError(s.startedAt, s.idleSince, end, versions, e.off)
      case Err(error) => Err(error)
      case Ok(lines) => Ok(IdleFee.AmountTotal(lines))
  }

  /** `Crashed` stands for the lookup of a day that was never loaded: the run catches no such error. */
  datatype Recomputation = Recomputed(total: int) | Unpriced | NotComputed | Crashed

  function WithIdle(energy: int, idle: Result<int, IdleFee.IdleError>): Recomputation {
    match idle
    case Ok(fees) => Recomputed(energy + fees)
    case Err(InvalidIdleInterval) => Unpriced
    case Err(MissingTariffDay) => Crashed
  }

  function RecomputePriced(e: Evidence, readings: seq<Reading>, p: Pricing): Recomputation
    requires e.session.endedAt.Some?
  {
    match Segments(e.session.startedAt, e.session.endedAt.value, readings, p.frames, e.off)
    case Err(_) => NotComputed
    case Ok(segments) => WithIdle(DailyTotals.AmountTotal(segments), AuditIdle(e, p.versions))
  }

  ghost function Recompute(e: Evidence, readings: Option<seq<Reading>>): Recomputation {
    if e.session.endedAt.None? || readings.None? then NotComputed
    else
      match DailyPricing(e.tariffs, e.session.startedAt, AuditEnd(e), e.off)
      case Err(_) => Unpriced
      case Ok(p) => RecomputePriced(e, readings.value, p)
  }

  // ---------- C. invoice and ledger ----------

  /** The ledger must hold nothing for a zero or exempt invoice, and exactly the total otherwise. */
  function CheckLedger(j: Joined, invoice: Invoice): seq<IssueType> {
    if invoice.total == 0 || j.settled == Some(LegacyExempt) then
      if j.ledger.Some? && j.ledger.value.amount != 0 then [LedgerMismatch] else []
    else if j.ledger.None? then [MissingLedger]
    else if || j.walletDriver.None? || j.walletDriver != j.evidence.session.driver
            || Some(invoice.driver) != j.evidence.session.driver
            || -j.ledger.value.amount != invoice.total
            || !j.ledger.value.reference.SessionReference?
    then [LedgerMismatch]
    else []
  }

  function LineAmounts(segments: seq<Segment>): int {
    if segments == [] then 0
    else
      var s := segments[|segments| - 1];
      LineAmounts(segments[..|segments| - 1]) + Money.RoundedVnd(s.energy, s.price)
  }

  /** Without a recomputation the stored lines are priced again. */
  function Repriced(invoice: Invoice): int {
    LineAmounts(invoice.energyLines) + IdleFee.AmountTotal(invoice.idleLines)
  }

  function Expected(invoice: Invoice, r: Recomputation): int {
    if r.Recomputed? then r.total else Repriced(invoice)
  }

  function CheckPrice(invoice: Invoice, r: Recomputation): seq<IssueType> {
    if invoice.total != Expected(invoice, r) then [PricingMismatch] else []
  }

  function CheckEnergy(invoice: Invoice, meter: Option<int>): seq<IssueType> {
    if meter.Some? && Abs(meter.value - DailyTotals.EnergyTotal(invoice.energyLines)) > ENERGY_TOLERANCE
    then [MeterDiscrepancy] else []
  }

  function CheckInvoice(j: Joined, meter: Option<int>, r: Recomputation): seq<IssueType> {
    var s := j.evidence.session;
    if j.invoice.None? then
      if s.endedAt.None? || (s.lifecycle.V1? && s.releasedAt.None?) then [] else [MissingInvoice]
    else
      CheckLedger(j, j.invoice.value) + CheckPrice(j.invoice.value, r) + CheckEnergy(j.invoice.value, meter)
  }

  /** All issues of one session, in the order the run records them. */
  ghost function Issues(j: Joined): seq<IssueType> {
    var m := CheckMeter(j.evidence.session, j.evidence.samples);
    var r := Recompute(j.evidence, m.readings);
    m.issues + (if r.Unpriced? then [PricingMismatch] else []) + CheckInvoice(j, m.meter, r)
  }

  // ---------- the run ----------

  datatype Report = Report(
    matched: nat, mismatched: nat, missing: nat, issues: seq<IssueType>, counts: map<IssueType, nat>,
    exempt: nat, critical: nat, warning: nat, info: nat, totals: Totals)

  /** The five totals: energy by the meters and by the invoice lines, money billed, recomputed and debited. */
  datatype Totals = Totals(metered: int, lined: int, billed: int, recomputed: int, debited: int)

  const NOTHING: Totals := Totals(0, 0, 0, 0, 0)

  function EmptyReport(): Report { Report(0, 0, 0, [], map[], 0, 0, 0, 0, NOTHING) }

  function Plus(a: Totals, b: Totals): Totals {
    Totals(a.metered + b.metered, a.lined + b.lined, a.billed + b.billed,
           a.recomputed + b.recomputed, a.debited + b.debited)
  }

  /** What one session adds to them; money only with an invoice, whatever the checks say. */
  function SessionTotals(j: Joined, meter: Option<int>, r: Recomputation): Totals {
    var metered := if meter.Some? then meter.value else 0;
    match j.invoice
    case None => NOTHING.(metered := metered)
    case Some(invoice) =>
      Totals(metered, DailyTotals.EnergyTotal(invoice.energyLines), invoice.total, Expected(invoice, r),
             if j.ledger.Some? then -j.ledger.value.amount else 0)
  }

  function CountOf(counts: map<IssueType, nat>, t: IssueType): nat {
    if t in counts then counts[t] else 0
  }

  /** Record one issue: its category and its severity. */
  function Noted(r: Report, t: IssueType): Report {
    var counted := r.(issues := r.issues + [t], counts := r.counts[t := CountOf(r.counts, t) + 1]);
    if t.MeterMissing? then counted.(warning := r.warning + 1) else counted.(critical := r.critical + 1)
  }

  function NotedAll(r: Report, issues: seq<IssueType>): Report {
    if issues == [] then r else Noted(NotedAll(r, issues[..|issues| - 1]), issues[|issues| - 1])
  }

  predicate IsExempt(j: Joined) {
    j.invoice.Some? && j.invoice.value.total != 0 && j.settled == Some(LegacyExempt)
  }

  /** The session counters, once its issues are recorded. */
  function Tally(r: Report, j: Joined, clean: bool, missing: bool, totals: Totals): Report {
    r.(matched := if clean then r.matched + 1 else r.matched,
       mismatched := if clean then r.mismatched else r.mismatched + 1,
       missing := if missing then r.missing + 1 else r.missing,
       exempt := if IsExempt(j) then r.exempt + 1 else r.exempt,
       info := if IsExempt(j) then r.info + 1 else r.info,
       totals := Plus(r.totals, totals))
  }

  ghost predicate IsMissing(j: Joined) {
    var m := CheckMeter(j.evidence.session, j.evidence.samples);
    m.missing || Recompute(j.evidence, m.readings).Unpriced?
  }

  /** What one session contributes to the report. */
  datatype Finding = Finding(issues: seq<IssueType>, missing: bool, totals: Totals)

  ghost function TotalsOf(j: Joined): Totals {
    var m := CheckMeter(j.evidence.session, j.evidence.samples);
    SessionTotals(j, m.meter, Recompute(j.evidence, m.readings))
  }

  ghost function FindingOf(j: Joined): Finding { Finding(Issues(j), IsMissing(j), TotalsOf(j)) }

  /** Auditing this session ends the whole run without a report. */
  ghost predicate Crashes(j: Joined) {
    Recompute(j.evidence, CheckMeter(j.evidence.session, j.evidence.samples).readings).Crashed?
  }

  /** The counters after a list of sessions with their findings. */
  function Tallied(rows: seq<Joined>, findings: seq<Finding>): Report
    requires |findings| == |rows|
  {
    if rows == [] then EmptyReport()
    else
      var n := |rows| - 1;
      var before := Tallied(rows[..n], findings[..n]);
      Add(before, rows[n], findings[n])
  }

  /** Session by session, the findings are what the checks say. */
  ghost predicate AreFindings(rows: seq<Joined>, findings: seq<Finding>) {
    |findings| == |rows| && forall i :: 0 <= i < |rows| ==> findings[i] == FindingOf(rows[i])
  }

  ghost predicate SomeCrash(rows: seq<Joined>) {
    exists i :: 0 <= i < |rows| && Crashes(rows[i])
  }

  function Add(r: Report, j: Joined, f: Finding): Report {
    Tally(NotedAll(r, f.issues), j, f.issues == [], f.missing, f.totals)
  }

  // ---------- methods ----------

  lemma {:induction false} FeesErrorPersists(
    startedAt: int, intervals: seq<Interval>, n: nat, versions: map<int, IdleFee.IdleRule>, off: int)
    requires n <= |intervals| && IntervalFees(startedAt, intervals[..n], versions, off).Err?
    ensures IntervalFees(startedAt, intervals, versions, off) == IntervalFees(startedAt, intervals[..n], versions, off)
  {
    if n == |intervals| {
      assert intervals[..n] == intervals;
    } else {
      var init := intervals[..|intervals| - 1];
      assert init[..n] == intervals[..n];
      FeesErrorPersists(startedAt, init, n, versions, off);
    }
  }

  method SumIntervalFees(startedAt: int, intervals: seq<Interval>, versions: map<int, IdleFee.IdleRule>, off: int)
    returns (r: Result<int, IdleFee.IdleError>)
    ensures r == IntervalFees(startedAt, intervals, versions, off)
  {
    var fees := 0;
    for i := 0 to |intervals|
      invariant Ok(fees) == IntervalFees(startedAt, intervals[..i], versions, off)
    {
      assert intervals[..i + 1][..i] == intervals[..i];
      if intervals[i].endedAt.Some? {
        var lines := IdleFee.BuildIdleLines(startedAt, Some(intervals[i].startedAt), intervals[i].endedAt.value, versions, off);
        if lines.Err? {
          FeesErrorPersists(startedAt, intervals, i + 1, versions, off);
          return Err(lines.error);
        }
        fees := fees + IdleFee.AmountTotal(lines.value);
      }
    }
    assert intervals[..|intervals|] == intervals;
    return Ok(fees);
  }

  method RecomputeIdle(e: Evidence, versions: map<int, IdleFee.IdleRule>) returns (r: Result<int, IdleFee.IdleError>)
    requires e.session.endedAt.Some?
    ensures r == AuditIdle(e, versions)
  {
    var s, end := e.session, e.session.endedAt.value;
    if s.lifecycle.V1? {
      r := SumIntervalFees(s.startedAt, Billed(e), versions, e.off);
    } else if s.idleSince.None? || s.idleSince.value >= end {
      r := Ok(0);
    } else {
      var lines := IdleFee.BuildIdleLines(s.startedAt, s.idleSince, end, versions, e.off);
      r := if lines.Err? then Err(lines.error) else Ok(IdleFee.AmountTotal(lines.value));
    }
  }

  method RecomputeTotal(e: Evidence, readings: Option<seq<Reading>>) returns (r: Recomputation)
    requires KeyedTariffs(e.tariffs)
    ensures r == Recompute(e, readings)
  {
    if e.session.endedAt.None? || readings.None? {
      return NotComputed;
    }
    var pricing := LoadDailyTariffs(e.tariffs, e.session.startedAt, AuditEnd(e), e.off);
    if pricing.Err? {
      return Unpriced;
    }
    var split := SplitSession(e.session.startedAt, e.session.endedAt.value, readings.value, pricing.value.frames, e.off);
    if split.Err? {
      return NotComputed;
    }
    var fees := RecomputeIdle(e, pricing.value.versions);
    return WithIdle(DailyTotals.AmountTotal(split.value), fees);
  }

  /** One session; no finding if its recomputation ends the run. */
  method AuditSession(j: Joined) returns (f: Option<Finding>)
    requires KeyedTariffs(j.evidence.tariffs)
    ensures f == if Crashes(j) then None else Some(FindingOf(j))
  {
    var m := CheckMeter(j.evidence.session, j.evidence.samples);
    var issues, missing := m.issues, m.missing;
    var r := RecomputeTotal(j.evidence, m.readings);
    if r.Crashed? {
      return None;
    }
    issues := issues + if r.Unpriced? then [PricingMismatch] else [];
    missing := missing || r.Unpriced?;
    issues := issues + CheckInvoice(j, m.meter, r);
    return Some(Finding(issues, missing, SessionTotals(j, m.meter, r)));
  }

  method NoteIssues(r0: Report, issues: seq<IssueType>) returns (r: Report)
    ensures r == NotedAll(r0, issues)
  {
    r := r0;
    for i := 0 to |issues|
      invariant r == NotedAll(r0, issues[..i])
    {
      assert issues[..i + 1][..i] == issues[..i];
      r := Noted(r, issues[i]);
    }
    assert issues[..|issues|] == issues;
  }

  method CountFinding(r0: Report, j: Joined, f: Finding) returns (r: Report)
    ensures r == Add(r0, j, f)
  {
    r := NoteIssues(r0, f.issues);
    r := Tally(r, j, f.issues == [], f.missing, f.totals);
  }

  lemma {:induction false} ExtendTally(rows: seq<Joined>, findings: seq<Finding>, j: Joined, f: Finding)
    requires |rows| == |findings|
    ensures Tallied(rows + [j], findings + [f]) == Add(Tallied(rows, findings), j, f)
  {
  }

  /** The checks of every joined session. */
  method AuditAll(rows: seq<Joined>) returns (findings: Option<seq<Finding>>)
    requires forall i :: 0 <= i < |rows| ==> KeyedTariffs(rows[i].evidence.tariffs)
    ensures findings.None? <==> SomeCrash(rows)
    ensures findings.Some? ==> AreFindings(rows, findings.value)
  {
    var list: seq<Finding> := [];
    for i := 0 to |rows|
      invariant AreFindings(rows[..i], list) && !SomeCrash(rows[..i])
    {
      var f := AuditSession(rows[i]);
      if f.None? {
        return None;
      }
      assert rows[..i + 1] == rows[..i] + [rows[i]];
      list := list + [f.value];
    }
    assert rows[..|rows|] == rows;
    return Some(list);
  }

  ghost predicate IsTally(r: Report, rows: seq<Joined>, findings: seq<Finding>) {
    |findings| == |rows| && r == Tallied(rows, findings)
  }

  /** The counters over all sessions. */
  method CountAll(rows: seq<Joined>, findings: seq<Finding>) returns (r: Report)
    requires |findings| == |rows|
    ensures IsTally(r, rows, findings)
  {
    r := EmptyReport();
    for i := 0 to |rows|
      invariant IsTally(r, rows[..i], findings[..i])
    {
      ExtendTally(rows[..i], findings[..i], rows[i], findings[i]);
      assert rows[..i + 1] == rows[..i] + [rows[i]] && findings[..i + 1] == findings[..i] + [findings[i]];
      r := CountFinding(r, rows[i], findings[i]);
    }
    assert rows[..|rows|] == rows && findings[..|rows|] == findings;
  }

  /** `execute_reconciliation_run`, its one loop taken as the checks and then the counters. */
  method ExecuteRun(rows: seq<Joined>) returns (r: Option<Report>, findings: seq<Finding>)
    requires forall i :: 0 <= i < |rows| ==> KeyedTariffs(rows[i].evidence.tariffs)
    ensures r.None? <==> SomeCrash(rows)
    ensures r.Some? ==> AreFindings(rows, findings) && IsTally(r.value, rows, findings)
  {
    var all := AuditAll(rows);
    if all.None? {
      return None, [];
    }
    findings := all.value;
    var report := CountAll(rows, findings);
    r := Some(report);
  }
}
