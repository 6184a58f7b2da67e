/** `_create_invoice`: the whole rejection ladder, and which rungs can never be reached. */
module InvoiceCreation {
  import opened Prelude
  import opened Interpolation
  import opened Segmentation
  import opened Invoicing
  import DailyTotals
  import IdleFee

  function Confirmed(intervals: seq<Interval>): seq<Interval> {
    if intervals == [] then []
    else
      var init, last := intervals[..|intervals| - 1], intervals[|intervals| - 1];
      if last.confirmed then Confirmed(init) + [last] else Confirmed(init)
  }

  /** The history a version-1 session may be billed on: at most one confirmed interval, ended by the release. */
  predicate HistoryAccepted(confirmed: seq<Interval>, released: int) {
    && |confirmed| <= 1
    && forall i :: 0 <= i < |confirmed| ==>
         confirmed[i].endedAt == Some(released) && confirmed[i].endReason == Some(Released)
  }

  /** Occupation intervals that are billed: none for the legacy lifecycle, whose fee runs to the stop. */
  function Billed(e: Evidence): seq<Interval> {
    if e.session.lifecycle.V1? then Confirmed(e.intervals) else []
  }

  predicate Invoiceable(s: Session) {
    s.endedAt.Some? && (s.lifecycle.V1? ==> s.releasedAt.Some?)
  }

  /** Tariffs are loaded up to here. */
  function BillingEnd(e: Evidence): int
    requires Invoiceable(e.session)
  {
    var end := e.session.endedAt.value;
    if Billed(e) == [] then end else Max(end, e.session.releasedAt.value)
  }

  /** The occupation span that is charged, if any, and its end. */
  function IdleSpan(e: Evidence): (Option<int>, int)
    requires Invoiceable(e.session)
    requires e.session.lifecycle.V1? ==> HistoryAccepted(Billed(e), e.session.releasedAt.value)
  {
    var s := e.session;
    if s.lifecycle.V0? then (s.idleSince, s.endedAt.value)
    else if Billed(e) == [] then (None, s.endedAt.value)
    else (Some(Billed(e)[0].startedAt), s.releasedAt.value)
  }

  ghost predicate Overflows(segments: seq<Segment>, idle: seq<IdleFee.IdleLine>) {
    || DailyTotals.AmountTotal(segments) + IdleFee.AmountTotal(idle) > MAX_VND
    || (exists i :: 0 <= i < |segments| && segments[i].amount > MAX_VND)
    || (exists i :: 0 <= i < |idle| && idle[i].amount > MAX_VND)
  }

  ghost function Assembled(driver: int, segments: seq<Segment>, idle: Result<seq<IdleFee.IdleLine>, IdleFee.IdleError>)
    : Result<Invoice, Reason>
  {
    if idle.Err? then Err(InvalidIdleInterval)
    else if Overflows(segments, idle.value) then Err(AmountOverflow)
    else Ok(Invoice(driver, segments, idle.value,
                    DailyTotals.AmountTotal(segments) + IdleFee.AmountTotal(idle.value)))
  }

  /** The priced part, once readings, history and tariffs are accepted. */
  ghost function PricedInvoice(e: Evidence, driver: int, rs: seq<Reading>, p: Pricing): Result<Invoice, Reason>
    requires Invoiceable(e.session) && rs != []
    requires e.session.lifecycle.V1? ==> HistoryAccepted(Billed(e), e.session.releasedAt.value)
    requires DailyPricing(e.tariffs, e.session.startedAt, BillingEnd(e), e.off) == Ok(p)
  {
    var s, end := e.session, e.session.endedAt.value;
    match Segments(s.startedAt, end, rs, p.frames, e.off)
    case Err(cause) => Err(SegmentationFailed(cause))
    case Ok(segments) =>
      if DailyTotals.EnergyTotal(segments) != rs[|rs| - 1].energy - rs[0].energy then Err(EnergyMismatch)
      else
        IdleDaysKnown(e, p);
        Assembled(driver, segments, IdleFee.IdleLines(s.startedAt, IdleSpan(e).0, IdleSpan(e).1, p.versions, e.off))
  }

  /** The rejections decided by the session row alone. */
  function Admission(e: Evidence): Option<Reason>
    requires Invoiceable(e.session)
  {
    var s := e.session;
    if !e.sameStation then Some(SessionMismatch)
    else if s.driver.None? then Some(MissingDriver)
    else if !s.accepted then Some(Unauthorized)
    else if s.endedAt.value <= s.startedAt then Some(InvalidInterval)
    else None
  }

  ghost function BilledInvoice(e: Evidence): Result<Invoice, Reason>
    requires Invoiceable(e.session) && Admission(e).None?
  {
    var s, end := e.session, e.session.endedAt.value;
    match MeterValues(s, e.samples, end)
    case Err(reason) => Err(reason)
    case Ok(rs) =>
      if s.lifecycle.V1? && !HistoryAccepted(Billed(e), s.releasedAt.value) then Err(InvalidOccupationHistory)
      else
        match DailyPricing(e.tariffs, s.startedAt, BillingEnd(e), e.off)
        case Err(reason) => Err(reason)
        case Ok(p) =>
          ReadingsGood(s, e.samples, end);
          PricedInvoice(e, s.driver.value, rs, p)
  }

  ghost function CreatedInvoice(e: Evidence): Result<Invoice, Reason>
    requires Invoiceable(e.session)
  {
    match Admission(e) case Some(reason) => Err(reason) case None => BilledInvoice(e)
  }

  /** The charged span never looks up a day without a tariff version. */
  lemma IdleDaysKnown(e: Evidence, p: Pricing)
    requires Invoiceable(e.session)
    requires e.session.lifecycle.V1? ==> HistoryAccepted(Billed(e), e.session.releasedAt.value)
    requires DailyPricing(e.tariffs, e.session.startedAt, BillingEnd(e), e.off) == Ok(p)
    ensures IdleFee.DaysKnown(e.session.startedAt, IdleSpan(e).1, p.versions, e.off)
  {
    PricedDaysKnown(e.tariffs, e.session.startedAt, BillingEnd(e), IdleSpan(e).1, e.off, p);
  }

  // ---------- the method ----------

  method CollectConfirmed(intervals: seq<Interval>) returns (confirmed: seq<Interval>)
    ensures confirmed == Confirmed(intervals)
  {
    confirmed := [];
    for i := 0 to |intervals|
      invariant confirmed == Confirmed(intervals[..i])
    {
      assert intervals[..i + 1][..i] == intervals[..i];
      if intervals[i].confirmed {
        confirmed := confirmed + [intervals[i]];
      }
    }
    assert intervals[..|intervals|] == intervals;
  }

  method AssembleInvoice(driver: int, segments: seq<Segment>, idle: seq<IdleFee.IdleLine>)
    returns (r: Result<Invoice, Reason>)
    ensures r == Assembled(driver, segments, Ok(idle))
  {
    var total, tooLarge := 0, false;
    for i := 0 to |segments|
      invariant total == DailyTotals.AmountTotal(segments[..i])
      invariant tooLarge <==> exists k :: 0 <= k < i && segments[k].amount > MAX_VND
    {
      assert segments[..i + 1][..i] == segments[..i];
      total := total + segments[i].amount;
      if segments[i].amount > MAX_VND {
        tooLarge := true;
      }
    }
    assert segments[..|segments|] == segments;
    for i := 0 to |idle|
      invariant total + IdleFee.AmountTotal(idle[i..])
             == DailyTotals.AmountTotal(segments) + IdleFee.AmountTotal(idle)
      invariant tooLarge <==> (exists k :: 0 <= k < |segments| && segments[k].amount > MAX_VND)
                              || (exists k :: 0 <= k < i && idle[k].amount > MAX_VND)
    {
      assert idle[i..][1..] == idle[i + 1..];
      total := total + idle[i].amount;
      if idle[i].amount > MAX_VND {
        tooLarge := true;
      }
    }
    if total > MAX_VND || tooLarge {
      return Err(AmountOverflow);
    }
    return Ok(Invoice(driver, segments, idle, total));
  }

  method PriceInvoice(e: Evidence, driver: int, rs: seq<Reading>, p: Pricing) returns (r: Result<Invoice, Reason>)
    requires Invoiceable(e.session) && rs != []
    requires e.session.lifecycle.V1? ==> HistoryAccepted(Billed(e), e.session.releasedAt.value)
    requires DailyPricing(e.tariffs, e.session.startedAt, BillingEnd(e), e.off) == Ok(p)
    ensures r == PricedInvoice(e, driver, rs, p)
  {
    var s, end := e.session, e.session.endedAt.value;
    var split := SplitSession(s.startedAt, end, rs, p.frames, e.off);
    if split.Err? {
      return Err(SegmentationFailed(split.error));
    }
    if DailyTotals.EnergyTotal(split.value) != rs[|rs| - 1].energy - rs[0].energy {
      return Err(EnergyMismatch);
    }
    IdleDaysKnown(e, p);
    var span := IdleSpan(e);
    IdleFee.LookupsSucceed(s.startedAt, span.0, span.1, p.versions, e.off);
    var idle := IdleFee.BuildIdleLines(s.startedAt, span.0, span.1, p.versions, e.off);
    if idle.Err? {
      return Err(InvalidIdleInterval);
    }
    r := AssembleInvoice(driver, split.value, idle.value);
  }

  /** `_create_invoice`. */
  method CreateInvoice(e: Evidence) returns (r: Result<Invoice, Reason>)
    requires Invoiceable(e.session) && KeyedTariffs(e.tariffs)
    ensures r == CreatedInvoice(e)
  {
    var s, end := e.session, e.session.endedAt.value;
    if !e.sameStation {
      return Err(SessionMismatch);
    }
    if s.driver.None? {
      return Err(MissingDriver);
    }
    if !s.accepted {
      return Err(Unauthorized);
    }
    if end <= s.startedAt {
      return Err(InvalidInterval);
    }
    var readings := ReadMeterValues(s, e.samples, end);
    if readings.Err? {
      return Err(readings.error);
    }
    if s.lifecycle.V1? {
      var confirmed := CollectConfirmed(e.intervals);
      if !HistoryAccepted(confirmed, s.releasedAt.value) {
        return Err(InvalidOccupationHistory);
      }
    }
    var pricing := LoadDailyTariffs(e.tariffs, s.startedAt, BillingEnd(e), e.off);
    if pricing.Err? {
      return Err(pricing.error);
    }
    ReadingsGood(s, e.samples, end);
    r := PriceInvoice(e, s.driver.value, readings.value, pricing.value);
  }
}
