/** Every run of charger messages keeps the evidence that invoicing later re-checks. */
module SessionRuns {
  import opened Prelude
  import opened Invoicing
  import opened MeterStore
  import opened Occupation
  import MeterProofs

  // ---------- runs ----------

  /** Ways a session ends without a StopTransaction. */
  datatype Closure = ReplacedByNewTransaction | ManualClosure(meter: int)

  datatype Event =
    | StatusEvent(status: Status, stamp: Option<int>)
    | MeterEvent(blocks: seq<Block>, byTransaction: bool, manuallyClosed: bool)
    | StopEvent(at: int, meterStop: int, disconnected: bool, data: seq<Block>)
    | OfflineGapEvent
    | ReconnectEvent
    | FlagEvent(reason: string)
    | ChargingSeenEvent
    | CloseEvent(at: int, closure: Closure)
    | InvoicedEvent

  function Close(s: Charging, at: int, closure: Closure): Charging {
    match closure
    case ReplacedByNewTransaction => s.(endedAt := Some(at)).Flagged("replaced_open_session")
    case ManualClosure(meter) =>
      s.(endedAt := Some(at), meterStop := Some(meter),
         store := s.store.(reasons := Without(s.store.reasons, {"offline_timeout", "available_with_open_session"})))
      .Flagged("manual_closure")
  }

  /** One committed message; a refused or repeated one leaves the rows as they were. */
  function Apply(s: Charging, e: Event): Charging {
    match e
    case StatusEvent(status, stamp) => NoteStatus(s, status, stamp)
    case MeterEvent(blocks, byTransaction, manuallyClosed) => MeterReport(s, blocks, byTransaction, manuallyClosed)
    case StopEvent(at, meterStop, disconnected, data) =>
      if s.endedAt.Some? then s else StopTransaction(s, at, meterStop, disconnected, data)
    case OfflineGapEvent => NoteOfflineGap(s)
    case ReconnectEvent => if s.endedAt.Some? then s else s.(recovering := true)
    case FlagEvent(reason) => s.Flagged(reason)
    case ChargingSeenEvent =>
      if s.endedAt.Some? then s
      else s.(store := s.store.(reasons := Without(s.store.reasons, {"available_with_open_session"})))
    case CloseEvent(at, closure) => if s.endedAt.Some? then s else Close(s, at, closure)
    case InvoicedEvent => s.(invoiced := true)
  }

  function Run(s: Charging, events: seq<Event>): Charging {
    if events == [] then s else Apply(Run(s, events[..|events| - 1]), events[|events| - 1])
  }

  // ---------- occupation invariant ----------

  ghost predicate IntervalOk(s: Charging, i: nat)
    requires i < |s.intervals|
  {
    var iv, last := s.intervals[i], i == |s.intervals| - 1;
    && s.startedAt <= iv.startedAt
    && (iv.endedAt.None? ==> last && iv.endReason.None? && s.releasedAt.None?)
    && (iv.endedAt.Some? ==>
          iv.startedAt <= iv.endedAt.value && (iv.endReason == Some(Resumed) || iv.endReason == Some(Released)))
    && (iv.endReason == Some(Resumed) ==> !iv.confirmed)
    && (iv.endReason == Some(Released) ==> last && iv.endedAt == s.releasedAt)
  }

  /** At most the last interval is open; a resumed one is never confirmed; a released one is the last
      and ends at the release. */
  ghost predicate OccupationInv(s: Charging) {
    forall i :: 0 <= i < |s.intervals| ==> IntervalOk(s, i)
  }

  lemma ReplaceCurrentKeeps(s: Charging, s': Charging)
    requires OccupationInv(s) && s'.startedAt == s.startedAt
    requires s.intervals != [] && |s'.intervals| == |s.intervals|
    requires forall i :: 0 <= i < |s.intervals| - 1 ==> s'.intervals[i] == s.intervals[i]
    requires IntervalOk(s', |s'.intervals| - 1)
    ensures OccupationInv(s')
  {
    forall i | 0 <= i < |s'.intervals| ensures IntervalOk(s', i) {
      if i < |s.intervals| - 1 {
        assert IntervalOk(s, i);
      }
    }
  }

  lemma SameIntervalsKeep(s: Charging, s': Charging)
    requires OccupationInv(s) && s'.startedAt == s.startedAt && s'.intervals == s.intervals
    requires s'.releasedAt == s.releasedAt
    ensures OccupationInv(s')
  {
    forall i | 0 <= i < |s'.intervals| ensures IntervalOk(s', i) {
      assert IntervalOk(s, i);
    }
  }

  lemma FlagKeeps(s: Charging, reason: string)
    requires OccupationInv(s)
    ensures OccupationInv(s.Flagged(reason))
  {
    SameIntervalsKeep(s, s.Flagged(reason));
  }

  lemma ReleaseKeeps(s: Charging, stamp: int)
    requires OccupationInv(s)
    ensures OccupationInv(Release(s, stamp))
  {
    var current := Current(s.intervals);
    if s.releasedAt.Some? {
    } else if stamp < s.startedAt || (current.Some? && stamp < current.value.startedAt) {
      FlagKeeps(s, "occupation_invalid_release_time");
    } else if s.intervals != [] {
      assert IntervalOk(s, |s.intervals| - 1);
      ReplaceCurrentKeeps(s, Release(s, stamp));
    }
  }

  lemma SuspendKeeps(s: Charging, finishing: bool, stamp: int)
    requires OccupationInv(s) && s.releasedAt.None? && s.startedAt <= stamp
    ensures OccupationInv(Suspend(s, finishing, stamp))
  {
    var occupied :=
      if HasOpen(s.intervals) then s
      else s.(intervals := s.intervals + [Interval(stamp, None, false, None)], idleSince := Some(stamp));
    assert OccupationInv(occupied) by {
      forall i | 0 <= i < |occupied.intervals| ensures IntervalOk(occupied, i) {
        if i < |s.intervals| {
          assert IntervalOk(s, i);
        }
      }
    }
    assert IntervalOk(occupied, |occupied.intervals| - 1);
    ReplaceCurrentKeeps(occupied, Suspend(s, finishing, stamp));
  }

  lemma ResumeKeeps(s: Charging, stamp: int)
    requires OccupationInv(s) && s.releasedAt.None?
    ensures IntervalsStorable(Resume(s, stamp).intervals) ==> OccupationInv(Resume(s, stamp))
  {
    if s.endedAt.Some? {
      FlagKeeps(s, "occupation_charging_after_stop");
    } else if HasOpen(s.intervals) {
      assert IntervalOk(s, |s.intervals| - 1);
      if IntervalsStorable(Resume(s, stamp).intervals) {
        ReplaceCurrentKeeps(s, Resume(s, stamp));
      }
    }
  }

  lemma StatusKeeps(s: Charging, status: Status, stamp: Option<int>)
    requires OccupationInv(s)
    ensures OccupationInv(NoteStatus(s, status, stamp))
  {
    FlagKeeps(s, "occupation_missing_status_timestamp");
    FlagKeeps(s, "occupation_status_after_release");
    FlagKeeps(s, "occupation_interrupted_status");
    if !s.invoiced && stamp.Some? && s.startedAt <= stamp.value && s.releasedAt.None? {
      match status
      case SuspendedEV => SuspendKeeps(s, false, stamp.value);
      case Finishing => SuspendKeeps(s, true, stamp.value);
      case ChargingNow => ResumeKeeps(s, stamp.value);
      case Available => ReleaseKeeps(s, stamp.value);
      case OtherStatus =>
    }
  }

  lemma ConfirmKeeps(s: Charging)
    requires OccupationInv(s) && s.intervals != [] && s.intervals[|s.intervals| - 1].endReason != Some(Resumed)
    ensures OccupationInv(s.(intervals := Confirm(s.intervals)))
  {
    assert IntervalOk(s, |s.intervals| - 1);
    ReplaceCurrentKeeps(s, s.(intervals := Confirm(s.intervals)));
  }

  lemma NoteStopKeeps(s: Charging, disconnected: bool)
    requires OccupationInv(s) && s.endedAt.Some?
    ensures OccupationInv(NoteStop(s, disconnected))
  {
    var confirmed :=
      if s.intervals != [] && s.intervals[|s.intervals| - 1].endReason != Some(Resumed)
      then s.(intervals := Confirm(s.intervals)) else s;
    if s.intervals != [] && s.intervals[|s.intervals| - 1].endReason != Some(Resumed) {
      ConfirmKeeps(s);
    }
    ReleaseKeeps(confirmed, s.endedAt.value);
  }

  lemma StopKeeps(s: Charging, at: int, meterStop: int, disconnected: bool, data: seq<Block>)
    requires OccupationInv(s) && s.endedAt.None?
    ensures OccupationInv(StopTransaction(s, at, meterStop, disconnected, data))
  {
    var ended := s.(endedAt := Some(at), meterStop := Some(meterStop));
    var store := StoredAtStop(ended.Facts(), s.store, s.recovering, data);
    var row := ended.(store := Store(store.series, StopReasons(s.startedAt, s.meterStart, at, meterStop, store)));
    SameIntervalsKeep(s, row);
    NoteStopKeeps(row, disconnected);
  }

  lemma CloseKeeps(s: Charging, at: int, closure: Closure)
    requires OccupationInv(s)
    ensures OccupationInv(Close(s, at, closure))
  {
    SameIntervalsKeep(s, Close(s, at, closure));
  }

  lemma StepKeepsOccupation(s: Charging, e: Event)
    requires OccupationInv(s)
    ensures OccupationInv(Apply(s, e))
  {
    match e
    case StatusEvent(status, stamp) => StatusKeeps(s, status, stamp);
    case StopEvent(at, meterStop, disconnected, data) =>
      if s.endedAt.None? {
        StopKeeps(s, at, meterStop, disconnected, data);
      }
    case MeterEvent(blocks, byTransaction, manuallyClosed) =>
      SameIntervalsKeep(s, MeterReport(s, blocks, byTransaction, manuallyClosed));
    case CloseEvent(at, closure) => CloseKeeps(s, at, closure);
    case OfflineGapEvent => FlagKeeps(s, "occupation_offline_gap");
    case FlagEvent(reason) => FlagKeeps(s, reason);
    case ReconnectEvent => SameIntervalsKeep(s, s.(recovering := true));
    case InvoicedEvent => SameIntervalsKeep(s, s.(invoiced := true));
    case ChargingSeenEvent => SameIntervalsKeep(s, Apply(s, e));
  }

  // ---------- meter invariant ----------

  const NEGATIVE_START := "negative_start_meter"

  /** The outlet register is in order behind the start meter, or the session is flagged for it. */
  ghost predicate MeterInv(c: Context, store: Store) {
    && (REGRESSION in store.reasons || MeterProofs.InOrder(c, OUTLET, OutletSamples(store)))
    && (forall t :: t in OutletSamples(store) ==> c.startedAt <= t)
    && (c.meterStart < 0 ==> NEGATIVE_START in store.reasons)
  }

  /** Only the reasons cleared at a stop ever disappear. */
  ghost predicate KeepsReasons(before: seq<string>, after: seq<string>) {
    forall r :: r in before && r !in CLEARED_AT_STOP ==> r in after
  }

  lemma {:induction false} WithoutMembers(reasons: seq<string>, dropped: set<string>)
    ensures forall r :: r in Without(reasons, dropped) <==> r in reasons && r !in dropped
  {
    if reasons == [] {
    } else {
      WithoutMembers(reasons[..|reasons| - 1], dropped);
      assert reasons == reasons[..|reasons| - 1] + [reasons[|reasons| - 1]];
    }
  }

  lemma LateStepKeepsMeter(c: Context, st: Store, p: Point)
    requires MeterInv(c, st)
    ensures MeterInv(c, BackfillStep(c, st, p)) && KeepsReasons(st.reasons, BackfillStep(c, st, p).reasons)
  {
    var points := OutletSamples(st);
    if p.key == OUTLET && Accepted(c, p.at) && p.at !in points && MeterProofs.InOrder(c, OUTLET, points) {
      MeterProofs.NeighbourTest(c, p, points);
    }
  }

  lemma {:induction false} LateKeepsMeter(c: Context, st: Store, pts: seq<Point>)
    requires MeterInv(c, st)
    ensures MeterInv(c, Backfill(c, st, pts)) && KeepsReasons(st.reasons, Backfill(c, st, pts).reasons)
  {
    if pts == [] {
    } else {
      LateKeepsMeter(c, st, pts[..|pts| - 1]);
      LateStepKeepsMeter(c, Backfill(c, st, pts[..|pts| - 1]), pts[|pts| - 1]);
    }
  }

  lemma AppendKeepsOrder(c: Context, points: Series, at: int, value: int)
    requires MeterProofs.InOrder(c, OUTLET, points)
    requires var known := Reference(c, OUTLET, Newest(points));
             known.Some? && known.value.0 < at && known.value.1 <= value
    ensures MeterProofs.InOrder(c, OUTLET, points[at := value])
  {
  }

  lemma LiveStepKeepsMeter(c: Context, st: Store, p: Point)
    requires MeterInv(c, st)
    ensures MeterInv(c, LiveStep(c, st, p)) && KeepsReasons(st.reasons, LiveStep(c, st, p).reasons)
  {
    var points := OutletSamples(st);
    if p.key == OUTLET && MeterProofs.InOrder(c, OUTLET, points) {
      var known := Reference(c, OUTLET, Newest(points));
      if known.Some? && known.value.0 < p.at && known.value.1 <= p.value {
        AppendKeepsOrder(c, points, p.at, p.value);
      }
    }
  }

  lemma {:induction false} LiveKeepsMeter(c: Context, st: Store, pts: seq<Point>)
    requires MeterInv(c, st)
    ensures MeterInv(c, Live(c, st, pts)) && KeepsReasons(st.reasons, Live(c, st, pts).reasons)
  {
    if pts == [] {
    } else {
      LiveKeepsMeter(c, st, pts[..|pts| - 1]);
      LiveStepKeepsMeter(c, Live(c, st, pts[..|pts| - 1]), pts[|pts| - 1]);
    }
  }

  /** Some reason that no later message clears. */
  ghost predicate Lasting(reasons: seq<string>) {
    exists r :: r in reasons && r !in CLEARED_AT_STOP
  }

  /** An ended session is flagged for good, or was authorised and stopped properly. */
  ghost predicate EndInv(s: Charging) {
    && (s.accepted || Lasting(s.Reasons()))
    && (s.endedAt.Some? ==>
          || Lasting(s.Reasons())
          || (s.meterStop.Some? && s.startedAt <= s.endedAt.value && 0 <= s.meterStart <= s.meterStop.value))
  }

  ghost predicate SessionInv(s: Charging) {
    OccupationInv(s) && MeterInv(s.Facts(), s.store) && EndInv(s)
  }

  lemma LastingKept(before: seq<string>, after: seq<string>)
    requires KeepsReasons(before, after) && Lasting(before)
    ensures Lasting(after)
  {
  }

  lemma LastingReview(reasons: seq<string>, reason: string)
    requires reason !in CLEARED_AT_STOP
    ensures Lasting(Review(reasons, reason))
  {
  }

  /** Storing nothing new and keeping the lasting reasons keeps the meter invariant. */
  lemma ReasonsKeepMeter(c: Context, c': Context, st: Store, reasons: seq<string>)
    requires MeterInv(c, st) && c'.startedAt == c.startedAt && c'.meterStart == c.meterStart
    requires KeepsReasons(st.reasons, reasons)
    ensures MeterInv(c', Store(st.series, reasons))
  {
    assert OutletSamples(Store(st.series, reasons)) == OutletSamples(st);
  }

  /** The step touches neither samples nor the transaction, and drops no lasting reason. */
  ghost predicate Quiet(s: Charging, s': Charging) {
    && s'.store.series == s.store.series && s'.Facts() == s.Facts() && s'.meterStop == s.meterStop
    && s'.accepted == s.accepted
    && KeepsReasons(s.Reasons(), s'.Reasons())
    && (s'.Reasons() == [] ==> s.Reasons() == [])
  }

  lemma QuietFlag(s: Charging, reason: string)
    ensures Quiet(s, s.Flagged(reason))
  {
  }

  lemma QuietKeepsMeter(s: Charging, s': Charging)
    requires Quiet(s, s') && MeterInv(s.Facts(), s.store)
    ensures MeterInv(s'.Facts(), s'.store)
  {
    ReasonsKeepMeter(s.Facts(), s'.Facts(), s.store, s'.Reasons());
    assert s'.store == Store(s.store.series, s'.Reasons());
  }

  lemma ReleaseQuiet(s: Charging, stamp: int)
    ensures Quiet(s, Release(s, stamp))
  {
    QuietFlag(s, "occupation_invalid_release_time");
  }

  lemma NoteStopQuiet(s: Charging, disconnected: bool)
    requires s.endedAt.Some?
    ensures Quiet(s, NoteStop(s, disconnected))
  {
    ReleaseQuiet(s, s.endedAt.value);
    if s.intervals != [] {
      ReleaseQuiet(s.(intervals := Confirm(s.intervals)), s.endedAt.value);
    }
  }

  lemma StopReasonsKeep(startedAt: int, meterStart: int, at: int, meterStop: int, store: Store)
    ensures KeepsReasons(store.reasons, StopReasons(startedAt, meterStart, at, meterStop, store))
  {
    WithoutMembers(store.reasons, CLEARED_AT_STOP);
    WithoutMembers(Review(store.reasons, "stop_meter_below_latest"), CLEARED_AT_STOP);
  }

  lemma StoredAtStopKeeps(c: Context, st: Store, recovering: bool, data: seq<Block>)
    requires MeterInv(c, st)
    ensures MeterInv(c, StoredAtStop(c, st, recovering, data))
    ensures KeepsReasons(st.reasons, StoredAtStop(c, st, recovering, data).reasons)
  {
    LateKeepsMeter(c, st, PointsOf(SortBlocks(data)));
    LiveKeepsMeter(c, st, PointsOf(data));
  }

  lemma StopKeepsMeter(s: Charging, at: int, meterStop: int, disconnected: bool, data: seq<Block>)
    requires MeterInv(s.Facts(), s.store) && s.endedAt.None?
    ensures var s' := StopTransaction(s, at, meterStop, disconnected, data);
            MeterInv(s'.Facts(), s'.store)
  {
    var ended := s.(endedAt := Some(at), meterStop := Some(meterStop));
    ReasonsKeepMeter(s.Facts(), ended.Facts(), s.store, s.store.reasons);
    StoredAtStopKeeps(ended.Facts(), s.store, s.recovering, data);
    var store := StoredAtStop(ended.Facts(), s.store, s.recovering, data);
    var reasons := StopReasons(s.startedAt, s.meterStart, at, meterStop, store);
    StopReasonsKeep(s.startedAt, s.meterStart, at, meterStop, store);
    ReasonsKeepMeter(ended.Facts(), ended.Facts(), store, reasons);
    var row := ended.(store := Store(store.series, reasons));
    NoteStopQuiet(row, disconnected);
    QuietKeepsMeter(row, NoteStop(row, disconnected));
  }

  lemma StatusQuiet(s: Charging, status: Status, stamp: Option<int>)
    ensures Quiet(s, NoteStatus(s, status, stamp))
  {
    StatusRowsQuiet(s, status, stamp);
  }

  lemma SuspendQuiet(s: Charging, finishing: bool, stamp: int)
    ensures Quiet(s, Suspend(s, finishing, stamp))
  {
  }

  lemma StatusRowsQuiet(s: Charging, status: Status, stamp: Option<int>)
    ensures Quiet(s, StatusRows(s, status, stamp))
  {
    QuietFlag(s, "occupation_missing_status_timestamp");
    QuietFlag(s, "occupation_status_after_release");
    if !s.invoiced && stamp.Some? && s.startedAt <= stamp.value && s.releasedAt.None? {
      match status
      case SuspendedEV => SuspendQuiet(s, false, stamp.value);
      case Finishing => SuspendQuiet(s, true, stamp.value);
      case ChargingNow =>
        QuietFlag(s, "occupation_charging_after_stop");
        assert Quiet(s, Resume(s, stamp.value));
      case Available => ReleaseQuiet(s, stamp.value);
      case OtherStatus => QuietFlag(s, "occupation_interrupted_status");
    }
  }

  lemma CloseKeepsMeter(s: Charging, at: int, closure: Closure)
    requires MeterInv(s.Facts(), s.store)
    ensures MeterInv(Close(s, at, closure).Facts(), Close(s, at, closure).store)
  {
    WithoutMembers(s.Reasons(), {"offline_timeout", "available_with_open_session"});
    var s' := Close(s, at, closure);
    ReasonsKeepMeter(s.Facts(), s'.Facts(), s.store, s'.Reasons());
    assert s'.store == Store(s.store.series, s'.Reasons());
  }

  lemma ReportKeepsMeter(s: Charging, blocks: seq<Block>, byTransaction: bool, manuallyClosed: bool)
    requires MeterInv(s.Facts(), s.store)
    ensures var s' := MeterReport(s, blocks, byTransaction, manuallyClosed);
            MeterInv(s'.Facts(), s'.store)
  {
    LateKeepsMeter(s.Facts(), s.store, PointsOf(SortBlocks(blocks)));
    LiveKeepsMeter(s.Facts(), s.store, PointsOf(blocks));
  }

  lemma StepKeepsMeter(s: Charging, e: Event)
    requires MeterInv(s.Facts(), s.store)
    ensures MeterInv(Apply(s, e).Facts(), Apply(s, e).store)
  {
    match e
    case StatusEvent(status, stamp) =>
      StatusQuiet(s, status, stamp);
      QuietKeepsMeter(s, NoteStatus(s, status, stamp));
    case MeterEvent(blocks, byTransaction, manuallyClosed) =>
      ReportKeepsMeter(s, blocks, byTransaction, manuallyClosed);
    case StopEvent(at, meterStop, disconnected, data) =>
      if s.endedAt.None? {
        StopKeepsMeter(s, at, meterStop, disconnected, data);
      }
    case CloseEvent(at, closure) => CloseKeepsMeter(s, at, closure);
    case ChargingSeenEvent =>
      WithoutMembers(s.Reasons(), {"available_with_open_session"});
      ReasonsKeepMeter(s.Facts(), s.Facts(), s.store, Without(s.Reasons(), {"available_with_open_session"}));
    case OfflineGapEvent =>
      QuietFlag(s, "occupation_offline_gap");
      QuietKeepsMeter(s, s.Flagged("occupation_offline_gap"));
    case FlagEvent(reason) =>
      QuietFlag(s, reason);
      QuietKeepsMeter(s, s.Flagged(reason));
    case ReconnectEvent =>
    case InvoicedEvent =>
  }

  // ---------- how sessions end ----------

  /** Every step but an end keeps the end facts. */
  lemma NoEndKeeps(s: Charging, s': Charging)
    requires EndInv(s) && KeepsReasons(s.Reasons(), s'.Reasons())
    requires s'.Facts() == s.Facts() && s'.meterStop == s.meterStop && s'.accepted == s.accepted
    ensures EndInv(s')
  {
  }

  /** The session row as the stop writes it, before occupation is noted. */
  function StoppedRow(s: Charging, at: int, meterStop: int, data: seq<Block>): Charging {
    var ended := s.(endedAt := Some(at), meterStop := Some(meterStop));
    var store := StoredAtStop(ended.Facts(), s.store, s.recovering, data);
    ended.(store := Store(store.series, StopReasons(s.startedAt, s.meterStart, at, meterStop, store)))
  }

  lemma StoppedRowEnds(s: Charging, at: int, meterStop: int, data: seq<Block>)
    requires EndInv(s) && MeterInv(s.Facts(), s.store)
    ensures EndInv(StoppedRow(s, at, meterStop, data))
  {
    var c := s.Facts().(endedAt := Some(at));
    ReasonsKeepMeter(s.Facts(), c, s.store, s.store.reasons);
    StoredAtStopKeeps(c, s.store, s.recovering, data);
    var store := StoredAtStop(c, s.store, s.recovering, data);
    var reasons := StopReasons(s.startedAt, s.meterStart, at, meterStop, store);
    StopReasonsKeep(s.startedAt, s.meterStart, at, meterStop, store);
    StopReasonsLast(s.startedAt, s.meterStart, at, meterStop, store);
    if Lasting(s.Reasons()) {
      LastingKept(s.Reasons(), store.reasons);
      LastingKept(store.reasons, reasons);
    }
  }

  lemma StopEnds(s: Charging, at: int, meterStop: int, disconnected: bool, data: seq<Block>)
    requires EndInv(s) && MeterInv(s.Facts(), s.store) && s.endedAt.None?
    ensures EndInv(StopTransaction(s, at, meterStop, disconnected, data))
  {
    var row := StoppedRow(s, at, meterStop, data);
    StoppedRowEnds(s, at, meterStop, data);
    NoteStopQuiet(row, disconnected);
    NoEndKeeps(row, NoteStop(row, disconnected));
  }

  lemma StopReasonsLast(startedAt: int, meterStart: int, at: int, meterStop: int, store: Store)
    ensures var reasons := StopReasons(startedAt, meterStart, at, meterStop, store);
            Lasting(reasons) || (startedAt <= at && 0 <= meterStart <= meterStop)
  {
    var latest := LatestInside(OutletSamples(store), startedAt, at);
    var r1 := if latest.Some? && meterStop < latest.value then Review(store.reasons, "stop_meter_below_latest")
              else store.reasons;
    var r2 := Without(r1, CLEARED_AT_STOP);
    LastingReview(r2, "stop_before_start");
    var r3 := if at < startedAt then Review(r2, "stop_before_start") else r2;
    LastingReview(r3, "stop_meter_below_start");
  }

  lemma CloseEnds(s: Charging, at: int, closure: Closure)
    requires EndInv(s)
    ensures EndInv(Close(s, at, closure))
  {
    match closure
    case ReplacedByNewTransaction => LastingReview(s.Reasons(), "replaced_open_session");
    case ManualClosure(meter) =>
      LastingReview(Without(s.Reasons(), {"offline_timeout", "available_with_open_session"}), "manual_closure");
  }

  lemma ReportReasons(s: Charging, blocks: seq<Block>, byTransaction: bool, manuallyClosed: bool)
    requires MeterInv(s.Facts(), s.store)
    ensures KeepsReasons(s.Reasons(), MeterReport(s, blocks, byTransaction, manuallyClosed).Reasons())
  {
    LateKeepsMeter(s.Facts(), s.store, PointsOf(SortBlocks(blocks)));
    LiveKeepsMeter(s.Facts(), s.store, PointsOf(blocks));
  }

  lemma StepKeepsEnd(s: Charging, e: Event)
    requires EndInv(s) && MeterInv(s.Facts(), s.store)
    ensures EndInv(Apply(s, e))
  {
    match e
    case StatusEvent(status, stamp) =>
      StatusQuiet(s, status, stamp);
      NoEndKeeps(s, NoteStatus(s, status, stamp));
    case MeterEvent(blocks, byTransaction, manuallyClosed) =>
      ReportReasons(s, blocks, byTransaction, manuallyClosed);
      NoEndKeeps(s, MeterReport(s, blocks, byTransaction, manuallyClosed));
    case StopEvent(at, meterStop, disconnected, data) =>
      if s.endedAt.None? {
        StopEnds(s, at, meterStop, disconnected, data);
      }
    case CloseEvent(at, closure) => CloseEnds(s, at, closure);
    case ChargingSeenEvent =>
      WithoutMembers(s.Reasons(), {"available_with_open_session"});
      NoEndKeeps(s, s.(store := s.store.(reasons := Without(s.Reasons(), {"available_with_open_session"}))));
    case OfflineGapEvent =>
      QuietFlag(s, "occupation_offline_gap");
      NoEndKeeps(s, s.Flagged("occupation_offline_gap"));
    case FlagEvent(reason) =>
      QuietFlag(s, reason);
      NoEndKeeps(s, s.Flagged(reason));
    case ReconnectEvent => NoEndKeeps(s, s.(recovering := true));
    case InvoicedEvent => NoEndKeeps(s, s.(invoiced := true));
  }

  lemma StartedInv(
    at: int, meterStart: int, driver: Option<int>, refusal: Option<string>, replaced: bool, byAvailable: bool)
    ensures SessionInv(Started(at, meterStart, driver, refusal, replaced, byAvailable))
  {
    var s := Started(at, meterStart, driver, refusal, replaced, byAvailable);
    if refusal.Some? {
      assert "authorization_" + refusal.value !in CLEARED_AT_STOP by {
        assert ("authorization_" + refusal.value)[1] == 'u';
        assert "offline_timeout"[1] == 'f' && "available_with_open_session"[1] == 'v';
        assert "remote_stop_not_confirmed"[1] == 'e';
      }
      assert "authorization_" + refusal.value in s.Reasons();
    }
  }

  lemma StepKeepsInv(s: Charging, e: Event)
    requires SessionInv(s)
    ensures SessionInv(Apply(s, e))
  {
    StepKeepsOccupation(s, e);
    StepKeepsMeter(s, e);
    StepKeepsEnd(s, e);
  }

  /** Every session state that any run of messages can produce satisfies both invariants. */
  lemma {:induction false} ReachableInv(
    at: int, meterStart: int, driver: Option<int>, refusal: Option<string>, replaced: bool, byAvailable: bool,
    events: seq<Event>)
    ensures SessionInv(Run(Started(at, meterStart, driver, refusal, replaced, byAvailable), events))
  {
    var s0 := Started(at, meterStart, driver, refusal, replaced, byAvailable);
    if events == [] {
      StartedInv(at, meterStart, driver, refusal, replaced, byAvailable);
    } else {
      var init := events[..|events| - 1];
      ReachableInv(at, meterStart, driver, refusal, replaced, byAvailable, init);
      StepKeepsInv(Run(s0, init), events[|events| - 1]);
    }
  }
}
