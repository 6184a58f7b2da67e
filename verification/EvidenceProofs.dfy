/** From charger messages to the invoice: which rejections a session's own history rules out. */
module EvidenceProofs {
  import opened Prelude
  import opened Invoicing
  import opened InvoiceCreation
  import opened MeterStore
  import opened Occupation
  import opened SessionRuns
  import InvoiceProofs
  import MeterProofs
  import Interpolation
  import Calendar

  /** The rows an invoice reads. */
  function RowOf(s: Charging): Session {
    Session(s.startedAt, s.endedAt, s.meterStart, s.meterStop, s.driver, s.accepted, s.idleSince, V1, s.releasedAt)
  }

  function EvidenceOf(s: Charging, tariffs: seq<Tariff>, off: int, sameStation: bool): Evidence {
    Evidence(RowOf(s), OutletSamples(s.store), s.intervals, tariffs, off, sameStation)
  }

  // ---------- occupation history ----------

  lemma {:induction false} ConfirmedMembers(intervals: seq<Interval>)
    ensures forall k :: 0 <= k < |Confirmed(intervals)| ==>
              Confirmed(intervals)[k].confirmed && Confirmed(intervals)[k] in intervals
    ensures |Confirmed(intervals)| <= |intervals|
  {
    if intervals == [] {
    } else {
      ConfirmedMembers(intervals[..|intervals| - 1]);
    }
  }

  lemma {:induction false} NoneConfirmed(intervals: seq<Interval>)
    requires forall i :: 0 <= i < |intervals| ==> !intervals[i].confirmed
    ensures Confirmed(intervals) == []
  {
    if intervals == [] {
    } else {
      NoneConfirmed(intervals[..|intervals| - 1]);
    }
  }

  /** After the release at most the last interval is confirmed, and then it was ended by the release. */
  lemma ReleasedHistory(s: Charging)
    requires OccupationInv(s) && s.releasedAt.Some?
    ensures HistoryAccepted(Confirmed(s.intervals), s.releasedAt.value)
    ensures forall k :: 0 <= k < |Confirmed(s.intervals)| ==>
              s.startedAt <= Confirmed(s.intervals)[k].startedAt <= s.releasedAt.value
  {
    if s.intervals != [] {
      var init, last := s.intervals[..|s.intervals| - 1], s.intervals[|s.intervals| - 1];
      forall i | 0 <= i < |init| ensures !init[i].confirmed {
        assert IntervalOk(s, i);
      }
      NoneConfirmed(init);
      assert IntervalOk(s, |s.intervals| - 1);
    }
  }

  ghost predicate OneOpenAtMost(intervals: seq<Interval>) {
    forall i, j :: 0 <= i < j < |intervals| ==> intervals[i].endedAt.Some? || intervals[j].endedAt.Some?
  }

  ghost predicate OneConfirmedAtMost(intervals: seq<Interval>) {
    forall i, j :: 0 <= i < j < |intervals| ==> !intervals[i].confirmed || !intervals[j].confirmed
  }

  /** In every run of messages: at most one open and at most one confirmed interval; a confirmed
      interval of a released session ends at the release, because of it. */
  lemma {:induction false} OccupationOverRuns(
    at: int, meterStart: int, driver: Option<int>, refusal: Option<string>, replaced: bool, byAvailable: bool,
    events: seq<Event>)
    ensures var s := Run(Started(at, meterStart, driver, refusal, replaced, byAvailable), events);
            && OneOpenAtMost(s.intervals) && OneConfirmedAtMost(s.intervals)
            && (s.releasedAt.Some? ==>
                  forall i :: 0 <= i < |s.intervals| && s.intervals[i].confirmed ==>
                    s.intervals[i].endedAt == s.releasedAt && s.intervals[i].endReason == Some(Released))
  {
    var s := Run(Started(at, meterStart, driver, refusal, replaced, byAvailable), events);
    ReachableInv(at, meterStart, driver, refusal, replaced, byAvailable, events);
    forall i | 0 <= i < |s.intervals|
      ensures s.intervals[i].endedAt.None? ==> i == |s.intervals| - 1
      ensures s.intervals[i].confirmed ==> i == |s.intervals| - 1
      ensures s.intervals[i].confirmed && s.releasedAt.Some? ==>
                s.intervals[i].endedAt == s.releasedAt && s.intervals[i].endReason == Some(Released)
    {
      assert IntervalOk(s, i);
    }
  }

  // ---------- meter evidence ----------

  /** Samples inside the session never fall and never drop below the start meter. */
  ghost predicate OrderedSamples(s: Session, samples: map<int, int>, end: int) {
    && (forall t, u :: t in samples && u in samples && s.startedAt <= t <= u <= end ==> samples[t] <= samples[u])
    && (forall t :: t in samples && InWindow(t, s.startedAt, end) ==> s.meterStart <= samples[t])
  }

  /** A sample taken exactly at a session end says something else than the start or stop meter. */
  ghost predicate EndConflict(s: Session, stop: int, samples: map<int, int>, end: int) {
    || (s.startedAt in samples && samples[s.startedAt] != s.meterStart)
    || (end in samples && samples[end] != stop)
  }

  ghost predicate SampleAboveStop(s: Session, stop: int, samples: map<int, int>, end: int) {
    exists t :: t in samples && InWindow(t, s.startedAt, end) && samples[t] > stop
  }

  lemma OrderedMapNeverFalls(m: map<int, int>)
    requires forall t, u :: t in m && u in m && t <= u ==> m[t] <= m[u]
    ensures !Falls(ByTime(m))
  {
  }

  lemma FallingPairFalls(rs: seq<Interpolation.Reading>, a: Interpolation.Reading, b: Interpolation.Reading)
    requires Interpolation.StrictTimes(rs) && a in rs && b in rs && a.at < b.at && a.energy > b.energy
    ensures Falls(rs)
  {
    var i :| 0 <= i < |rs| && rs[i] == a;
    var j :| 0 <= j < |rs| && rs[j] == b;
    assert i < j;
    if !Falls(rs) {
      NotFallingIsNondecreasing(rs);
      assert false;
    }
  }

  lemma FallingMapFalls(m: map<int, int>, t: int, u: int)
    requires t in m && u in m && t < u && m[t] > m[u]
    ensures Falls(ByTime(m))
  {
    ByTimeFacts(m);
    ByTimeHas(m, t);
    ByTimeHas(m, u);
    FallingPairFalls(ByTime(m), Interpolation.Reading(t, m[t]), Interpolation.Reading(u, m[u]));
  }

  /** Whether the merged readings fall is whether some sample exceeds the stop meter. */
  lemma {:induction false} MergedFalls(s: Session, stop: int, samples: map<int, int>, stamps: seq<int>, end: int)
    requires s.startedAt < end && s.meterStart <= stop && OrderedSamples(s, samples, end)
    requires forall t :: t in stamps <==> t in samples && InWindow(t, s.startedAt, end)
    requires Merge(Ends(s, stop, end), samples, stamps).Ok?
    ensures Falls(ByTime(Merge(Ends(s, stop, end), samples, stamps).value)) <==>
            SampleAboveStop(s, stop, samples, end)
  {
    var ends, m := Ends(s, stop, end), Merge(Ends(s, stop, end), samples, stamps).value;
    MergeContents(ends, samples, stamps);
    assert m[s.startedAt] == s.meterStart && m[end] == stop;
    if t :| t in samples && InWindow(t, s.startedAt, end) && samples[t] > stop {
      assert t in stamps && m[t] == samples[t];
      FallingMapFalls(m, t, end);
    } else {
      forall t, u | t in m && u in m && t <= u ensures m[t] <= m[u] {
        assert t in ends || t in stamps;
        assert u in ends || u in stamps;
      }
      OrderedMapNeverFalls(m);
    }
  }

  /** Ordered evidence decides the readings completely: a conflict at a session end, else a sample
      above the stop meter, else success. An invalid meter is impossible. */
  lemma ReadingsDecided(s: Session, samples: map<int, int>, end: int)
    requires s.startedAt < end && s.meterStop.Some? && 0 <= s.meterStart <= s.meterStop.value
    requires OrderedSamples(s, samples, end)
    ensures var stop, r := s.meterStop.value, MeterValues(s, samples, end);
            && (EndConflict(s, stop, samples, end) ==> r == Err(ConflictingMeter))
            && (!EndConflict(s, stop, samples, end) && SampleAboveStop(s, stop, samples, end) ==> r == Err(MeterDecreased))
            && (!EndConflict(s, stop, samples, end) && !SampleAboveStop(s, stop, samples, end) ==> r.Ok?)
  {
    var stop, stamps := s.meterStop.value, SampleStamps(s, samples, end);
    MergeSucceeds(Ends(s, stop, end), samples, stamps);
    EndsAgree(s, stop, samples, stamps, end);
    if !EndConflict(s, stop, samples, end) {
      MergedFalls(s, stop, samples, stamps, end);
    }
  }

  lemma EndsAgree(s: Session, stop: int, samples: map<int, int>, stamps: seq<int>, end: int)
    requires s.startedAt < end && 0 <= s.meterStart && OrderedSamples(s, samples, end)
    requires forall t :: t in stamps <==> t in samples && InWindow(t, s.startedAt, end)
    ensures (forall t :: t in stamps ==>
               samples[t] >= 0 && (t in Ends(s, stop, end) ==> Ends(s, stop, end)[t] == samples[t]))
            <==> !EndConflict(s, stop, samples, end)
    ensures forall t :: t in stamps ==> samples[t] >= 0
  {
  }

  // ---------- right after the stop ----------

  lemma NoReasonsLeft(startedAt: int, meterStart: int, at: int, meterStop: int, store: Store)
    requires StopReasons(startedAt, meterStart, at, meterStop, store) == []
    ensures startedAt <= at && 0 <= meterStart <= meterStop
    ensures REGRESSION !in store.reasons
    ensures var latest := LatestInside(OutletSamples(store), startedAt, at);
            latest.Some? ==> latest.value <= meterStop
  {
    var below := Review(store.reasons, "stop_meter_below_latest");
    WithoutMembers(store.reasons, CLEARED_AT_STOP);
    WithoutMembers(below, CLEARED_AT_STOP);
    assert "stop_meter_below_latest" in below;
    assert REGRESSION in store.reasons ==> REGRESSION in below;
  }

  lemma NewestBoundsOrdered(c: Context, points: Series, at: int, bound: int)
    requires MeterProofs.InOrder(c, OUTLET, points)
    requires var latest := LatestInside(points, c.startedAt, at); latest.Some? ==> latest.value <= bound
    ensures forall t :: t in points && c.startedAt <= t <= at ==> points[t] <= bound
  {
    var inside := set t | t in points.Keys && c.startedAt <= t <= at;
    forall t | t in points && c.startedAt <= t <= at ensures points[t] <= bound {
      assert t in inside;
      assert points[t] <= points[Greatest(inside)];
    }
  }

  /** A stop that leaves no review reason leaves readable evidence: samples run in order from the start to
      the stop meter, and the readings can only be refused for a sample that contradicts the start or
      stop meter at the very same instant. */
  lemma CleanStopIsReadable(s: Charging, at: int, meterStop: int, disconnected: bool, data: seq<Block>)
    requires MeterInv(s.Facts(), s.store) && s.endedAt.None?
    requires StopTransaction(s, at, meterStop, disconnected, data).Reasons() == []
    ensures var s' := StopTransaction(s, at, meterStop, disconnected, data);
            var row, samples := RowOf(s'), OutletSamples(s'.store);
            && 0 <= s.meterStart <= meterStop && s.startedAt <= at
            && OrderedSamples(row, samples, at) && !SampleAboveStop(row, meterStop, samples, at)
    ensures var s' := StopTransaction(s, at, meterStop, disconnected, data);
            var r := MeterValues(RowOf(s'), OutletSamples(s'.store), at);
            r.Ok? || (r == Err(ConflictingMeter) && EndConflict(RowOf(s'), meterStop, OutletSamples(s'.store), at))
  {
    var ended := s.(endedAt := Some(at), meterStop := Some(meterStop));
    var store := StoredAtStop(ended.Facts(), s.store, s.recovering, data);
    var row := ended.(store := Store(store.series, StopReasons(s.startedAt, s.meterStart, at, meterStop, store)));
    NoteStopQuiet(row, disconnected);
    NoReasonsLeft(s.startedAt, s.meterStart, at, meterStop, store);
    ReasonsKeepMeter(s.Facts(), ended.Facts(), s.store, s.store.reasons);
    StoredAtStopKeeps(ended.Facts(), s.store, s.recovering, data);
    NewestBoundsOrdered(ended.Facts(), OutletSamples(store), at, meterStop);
    var s' := NoteStop(row, disconnected);
    assert OutletSamples(s'.store) == OutletSamples(store);
    if s.startedAt < at {
      ReadingsDecided(RowOf(s'), OutletSamples(s'.store), at);
    } else {
      InstantReadings(RowOf(s'), OutletSamples(s'.store), at);
    }
  }

  lemma OneStampNeverFalls(m: map<int, int>, t: int)
    requires forall u :: u in m ==> u == t
    ensures !Falls(ByTime(m))
  {
    OrderedMapNeverFalls(m);
  }

  /** A session that stops at its start has the stop meter as its one reading. */
  lemma InstantReadings(s: Session, samples: map<int, int>, end: int)
    requires s.startedAt == end && s.meterStop.Some? && 0 <= s.meterStart <= s.meterStop.value
    requires OrderedSamples(s, samples, end)
    ensures var r := MeterValues(s, samples, end);
            r.Ok? || (r == Err(ConflictingMeter) && EndConflict(s, s.meterStop.value, samples, end))
  {
    var ends, stamps := Ends(s, s.meterStop.value, end), SampleStamps(s, samples, end);
    MergeSucceeds(ends, samples, stamps);
    if Merge(ends, samples, stamps).Ok? {
      MergeContents(ends, samples, stamps);
      OneStampNeverFalls(Merge(ends, samples, stamps).value, end);
    }
  }

  /** The same, for every run of messages that ends with the stop. */
  lemma {:induction false} CleanStopIsReadableOverRuns(
    at0: int, meterStart: int, driver: Option<int>, refusal: Option<string>, replaced: bool, byAvailable: bool,
    events: seq<Event>, at: int, meterStop: int, disconnected: bool, data: seq<Block>)
    requires var s := Run(Started(at0, meterStart, driver, refusal, replaced, byAvailable), events);
             && s.endedAt.None?
             && StopTransaction(s, at, meterStop, disconnected, data).Reasons() == []
    ensures var s := Run(Started(at0, meterStart, driver, refusal, replaced, byAvailable), events);
            var s' := StopTransaction(s, at, meterStop, disconnected, data);
            var r := MeterValues(RowOf(s'), OutletSamples(s'.store), at);
            r.Ok? || r == Err(ConflictingMeter)
  {
    ReachableInv(at0, meterStart, driver, refusal, replaced, byAvailable, events);
    CleanStopIsReadable(
      Run(Started(at0, meterStart, driver, refusal, replaced, byAvailable), events), at, meterStop, disconnected, data);
  }

  // ---------- any later moment ----------

  lemma EndedCleanly(s: Charging)
    requires SessionInv(s) && s.endedAt.Some? && s.Reasons() == []
    ensures s.accepted && s.meterStop.Some? && s.startedAt <= s.endedAt.value && 0 <= s.meterStart <= s.meterStop.value
    ensures OrderedSamples(RowOf(s), OutletSamples(s.store), s.endedAt.value)
  {
  }

  /** Late recovery samples may still arrive after the stop. At any reachable moment an unflagged, ended
      session's readings are refused exactly for a contradiction at a session end, or for a sample
      above the stop meter. */
  lemma EndedReadingsDecided(s: Charging)
    requires SessionInv(s) && s.endedAt.Some? && s.Reasons() == [] && s.startedAt < s.endedAt.value
    ensures s.meterStop.Some?
    ensures var row, samples, end, stop := RowOf(s), OutletSamples(s.store), s.endedAt.value, s.meterStop.value;
            var r := MeterValues(row, samples, end);
            && (r == Err(ConflictingMeter) <==> EndConflict(row, stop, samples, end))
            && (r == Err(MeterDecreased) <==>
                  !EndConflict(row, stop, samples, end) && SampleAboveStop(row, stop, samples, end))
            && (r.Ok? <==> !EndConflict(row, stop, samples, end) && !SampleAboveStop(row, stop, samples, end))
  {
    EndedCleanly(s);
    ReadingsDecided(RowOf(s), OutletSamples(s.store), s.endedAt.value);
  }

  /** The last of these does happen: a recovered session, stopped without any reason, then one late sample. */
  lemma LateSampleDefeatsReadings()
    ensures var s1 := Apply(Started(0, 0, Some(1), None, false, false), ReconnectEvent);
            var stopped := Apply(s1, StopEvent(100, 5_000_000, false, []));
            var late := Apply(stopped, MeterEvent([Block(50, [Sample(OUTLET, Some(7_000_000))])], true, false));
            && stopped.Reasons() == [] && late.Reasons() == []
            && MeterValues(RowOf(stopped), OutletSamples(stopped.store), 100).Ok?
            && MeterValues(RowOf(late), OutletSamples(late.store), 100) == Err(MeterDecreased)
  {
    var s0 := Started(0, 0, Some(1), None, false, false);
    var s1 := Apply(s0, ReconnectEvent);
    var stop := StopEvent(100, 5_000_000, false, []);
    var stopped := Apply(s1, stop);
    var block := Block(50, [Sample(OUTLET, Some(7_000_000))]);
    var report := MeterEvent([block], true, false);
    var late := Apply(stopped, report);
    StartedInv(0, 0, Some(1), None, false, false);
    StepKeepsInv(s0, ReconnectEvent);
    StepKeepsInv(s1, stop);
    StepKeepsInv(stopped, report);
    EmptyStop(s1);
    OneLatePoint(stopped.Facts(), stopped.store, 50, Sample(OUTLET, Some(7_000_000)));
    assert Before(map[], 50) == {} && After(map[], 50) == {};
    assert late.store == Store(map[OUTLET := map[50 := 7_000_000]], []);
    assert OutletSamples(stopped.store) == map[] && OutletSamples(late.store) == map[50 := 7_000_000];
    EndedReadingsDecided(stopped);
    EndedReadingsDecided(late);
    assert 50 in OutletSamples(late.store) && InWindow(50, 0, 100);
  }

  lemma EmptyStop(s: Charging)
    requires s == Started(0, 0, Some(1), None, false, false).(recovering := true)
    ensures var stopped := StopTransaction(s, 100, 5_000_000, false, []);
            && stopped.store == Store(map[], []) && stopped.endedAt == Some(100) && stopped.meterStop == Some(5_000_000)
            && stopped.recovering && stopped.startedAt == 0 && stopped.meterStart == 0
  {
  }

  lemma {:induction false} SinglePoint(at: int, sample: Sample)
    requires sample.value.Some?
    ensures SamplePoints(at, [sample]) == [Point(at, sample.key, sample.value.value)]
  {
  }

  lemma SingleBlock(b: Block)
    ensures PointsOf(SortBlocks([b])) == SamplePoints(b.timestamp, b.samples)
  {
  }

  lemma {:induction false} SingleBackfill(c: Context, st: Store, p: Point)
    ensures Backfill(c, st, [p]) == BackfillStep(c, st, p)
  {
  }

  lemma {:induction false} OneLatePoint(c: Context, st: Store, at: int, sample: Sample)
    requires sample.value.Some?
    ensures Backfill(c, st, PointsOf(SortBlocks([Block(at, [sample])])))
         == BackfillStep(c, st, Point(at, sample.key, sample.value.value))
  {
    SinglePoint(at, sample);
    SingleBlock(Block(at, [sample]));
    SingleBackfill(c, st, Point(at, sample.key, sample.value.value));
  }

  /** The complete list of reasons for which an unflagged, released session of any run can be refused. */
  lemma RemainingRejections(s: Charging, tariffs: seq<Tariff>, off: int, sameStation: bool)
    requires SessionInv(s) && s.endedAt.Some? && s.releasedAt.Some? && s.Reasons() == []
    ensures var e := EvidenceOf(s, tariffs, off, sameStation);
            var r := CreatedInvoice(e);
            s.meterStop.Some? &&
            (r.Err? ==>
              || (r.error.SessionMismatch? && !sameStation)
              || (r.error.MissingDriver? && s.driver.None?)
              || (r.error.InvalidInterval? && s.endedAt.value == s.startedAt)
              || (r.error.ConflictingMeter? && EndConflict(e.session, s.meterStop.value, e.samples, s.endedAt.value))
              || (r.error.MeterDecreased? && SampleAboveStop(e.session, s.meterStop.value, e.samples, s.endedAt.value))
              || r.error.MissingTariff? || r.error.InvalidTariff? || r.error.AmountOverflow?)
  {
    var e := EvidenceOf(s, tariffs, off, sameStation);
    EndedCleanly(s);
    ReleasedHistory(s);
    assert InvoiceProofs.IdleSpanInside(e);
    if Admission(e).None? {
      EndedReadingsDecided(s);
      BilledRemaining(e);
    }
  }

  lemma BilledRemaining(e: Evidence)
    requires Invoiceable(e.session) && Admission(e).None? && e.session.lifecycle.V1?
    requires HistoryAccepted(Billed(e), e.session.releasedAt.value)
    requires InvoiceProofs.IdleSpanInside(e)
    ensures var r, readings := BilledInvoice(e), MeterValues(e.session, e.samples, e.session.endedAt.value);
            r.Err? ==>
              || (readings.Err? && r.error == readings.error)
              || r.error.MissingTariff? || r.error.InvalidTariff? || r.error.AmountOverflow?
  {
    var s := e.session;
    var readings := MeterValues(s, e.samples, s.endedAt.value);
    var pricing := DailyPricing(e.tariffs, s.startedAt, BillingEnd(e), e.off);
    if readings.Err? {
    } else if pricing.Err? {
      InvoiceProofs.PricingRejections(
        e.tariffs, Calendar.LocalDate(s.startedAt, e.off), Calendar.LocalDate(BillingEnd(e) - 1, e.off));
    } else {
      InvoiceProofs.BilledIsPriced(e, readings.value, pricing.value);
      InvoiceProofs.PricedRejections(e, readings.value, pricing.value);
    }
  }
}
