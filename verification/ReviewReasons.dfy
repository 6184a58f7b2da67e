/** Which review reason a message leaves on a session, and only that one. */
module ReviewReasons {
  import opened Prelude
  import opened MeterStore
  import opened Occupation
  import opened SessionRuns
  import opened OccupationHistory
  import MeterProofs

  lemma FlaggedMembers(s: Charging, reason: string, r: string)
    ensures r in s.Flagged(reason).Reasons() <==> r in s.Reasons() || r == reason
  {
    MeterProofs.ReviewMembers(s.Reasons(), reason, r);
  }

  // ---------- the start ----------

  /** A new session is flagged for a refused authorization, a negative start meter and a replaced session. */
  lemma StartFlags(
    at: int, meterStart: int, driver: Option<int>, refusal: Option<string>, replaced: bool, byAvailable: bool, r: string)
    ensures r in Started(at, meterStart, driver, refusal, replaced, byAvailable).Reasons() <==>
              || (refusal.Some? && r == "authorization_" + refusal.value)
              || (meterStart < 0 && r == "negative_start_meter")
              || (replaced && r == "replaced_open_session")
  {
    var a := if refusal.Some? then Review([], "authorization_" + refusal.value) else [];
    var b := if meterStart < 0 then Review(a, "negative_start_meter") else a;
    if refusal.Some? {
      MeterProofs.ReviewMembers([], "authorization_" + refusal.value, r);
    }
    MeterProofs.ReviewMembers(a, "negative_start_meter", r);
    MeterProofs.ReviewMembers(b, "replaced_open_session", r);
  }

  // ---------- statuses ----------

  /** What a status message is flagged for. */
  ghost predicate StatusRaises(s: Charging, e: Event, r: string)
    requires e.StatusEvent?
  {
    var inside := Counted(e, s.startedAt);
    || (r == "occupation_missing_status_timestamp" && e.stamp == None)
    || (r == "occupation_status_after_release" && inside && s.releasedAt.Some?
        && e.status in {ChargingNow, SuspendedEV, Finishing})
    || (r == "occupation_charging_after_stop" && inside && s.releasedAt.None? && s.endedAt.Some? && e.status == ChargingNow)
    || (r == "occupation_interrupted_status" && inside && s.releasedAt.None? && HasOpen(s.intervals)
        && e.status == OtherStatus)
    || (r == "occupation_invalid_release_time" && inside && s.releasedAt.None? && s.availableReleases
        && e.status == Available && !NotBeforeLast(s, Stamp(e)))
  }

  lemma ReleaseRaises(s: Charging, stamp: int, r: string)
    requires s.releasedAt.None?
    ensures r in Release(s, stamp).Reasons()
            <==> r in s.Reasons() || (r == "occupation_invalid_release_time" && !NotBeforeLast(s, stamp))
  {
    FlaggedMembers(s, "occupation_invalid_release_time", r);
  }

  lemma AppliedRaises(s: Charging, e: Event, r: string)
    requires OccupationInv(s) && e.StatusEvent? && Counted(e, s.startedAt) && !s.invoiced && s.releasedAt.None?
    ensures r in StatusRows(s, e.status, e.stamp).Reasons() <==> r in s.Reasons() || StatusRaises(s, e, r)
  {
    match e.status
    case SuspendedEV =>
    case Finishing =>
    case ChargingNow => FlaggedMembers(s, "occupation_charging_after_stop", r);
    case Available => ReleaseRaises(s, Stamp(e), r);
    case OtherStatus => FlaggedMembers(s, "occupation_interrupted_status", r);
  }

  /** Rows that the database refuses raise nothing that they would not raise. */
  lemma RefusedRaisesNothing(s: Charging, e: Event)
    requires OccupationInv(s) && e.StatusEvent? && Counted(e, s.startedAt) && !s.invoiced && s.releasedAt.None?
    ensures IntervalsStorable(StatusRows(s, e.status, e.stamp).intervals)
            || StatusRows(s, e.status, e.stamp).Reasons() == s.Reasons()
  {
    match e.status
    case SuspendedEV =>
    case Finishing =>
    case ChargingNow =>
      if s.endedAt.Some? {
        Storable(s);
      }
    case Available => AvailableStorable(s, Stamp(e));
    case OtherStatus => Storable(s);
  }

  /** A status message on a session not yet invoiced adds exactly the reasons it is flagged for. */
  lemma StatusFlags(s: Charging, e: Event, r: string)
    requires OccupationInv(s) && e.StatusEvent? && !s.invoiced
    ensures r in Apply(s, e).Reasons() <==> r in s.Reasons() || StatusRaises(s, e, r)
  {
    Storable(s);
    if Counted(e, s.startedAt) && s.releasedAt.None? {
      AppliedRaises(s, e, r);
      RefusedRaisesNothing(s, e);
    } else if e.stamp.None? {
      FlaggedMembers(s, "occupation_missing_status_timestamp", r);
    } else if s.releasedAt.Some? {
      FlaggedMembers(s, "occupation_status_after_release", r);
    }
  }

  // ---------- the stop ----------

  /** The newest outlet sample inside the session is above the stop meter. */
  ghost predicate BelowLatest(points: Series, start: int, end: int, meterStop: int) {
    exists t :: t in points && start <= t <= end && meterStop < points[t]
                && forall u :: u in points && start <= u <= end ==> u <= t
  }

  lemma LatestIs(points: Series, start: int, end: int, meterStop: int)
    ensures var latest := LatestInside(points, start, end);
            (latest.Some? && meterStop < latest.value) <==> BelowLatest(points, start, end, meterStop)
  {
    var inside := set t | t in points.Keys && start <= t <= end;
    assert forall t :: t in points && start <= t <= end ==> t in inside;
    if inside != {} {
      var t := Greatest(inside);
      assert t in points && forall u :: u in points && start <= u <= end ==> u in inside;
    }
  }

  /** The three reasons that a stop takes away. */
  predicate Cleared(r: string) {
    r == "offline_timeout" || r == "available_with_open_session" || r == "remote_stop_not_confirmed"
  }

  lemma NotCleared()
    ensures !Cleared("stop_meter_below_latest")
  {
    assert "stop_meter_below_latest"[0] == 's';
    assert "offline_timeout"[0] == 'o' && "available_with_open_session"[0] == 'a' && "remote_stop_not_confirmed"[0] == 'r';
  }

  /** The review at the stop keeps every reason but the three, and adds one for a stop meter below the newest
      sample, a stop before the start, and meters that run backwards or are negative. */
  ghost predicate StopLeaves(startedAt: int, meterStart: int, at: int, meterStop: int, store: Store, r: string) {
    || (r in store.reasons && !Cleared(r))
    || (r == "stop_meter_below_latest" && BelowLatest(OutletSamples(store), startedAt, at, meterStop))
    || (r == "stop_before_start" && at < startedAt)
    || (r == "stop_meter_below_start" && (meterStop < meterStart || meterStop < 0 || meterStart < 0))
  }

  lemma StopReviewMeaning(startedAt: int, meterStart: int, at: int, meterStop: int, store: Store, r: string)
    ensures r in StopReasons(startedAt, meterStart, at, meterStop, store)
            <==> StopLeaves(startedAt, meterStart, at, meterStop, store, r)
  {
    LatestIs(OutletSamples(store), startedAt, at, meterStop);
    NotCleared();
    var latest := LatestInside(OutletSamples(store), startedAt, at);
    var r1 := if latest.Some? && meterStop < latest.value then Review(store.reasons, "stop_meter_below_latest")
              else store.reasons;
    MeterProofs.ReviewMembers(store.reasons, "stop_meter_below_latest", r);
    WithoutMembers(r1, CLEARED_AT_STOP);
    StopReviewTail(startedAt, meterStart, at, meterStop, Without(r1, CLEARED_AT_STOP), r);
    assert Cleared(r) <==> r in CLEARED_AT_STOP;
  }

  lemma StopReviewTail(startedAt: int, meterStart: int, at: int, meterStop: int, r2: seq<string>, r: string)
    ensures var r3 := if at < startedAt then Review(r2, "stop_before_start") else r2;
            var r4 := if meterStop < meterStart || meterStop < 0 || meterStart < 0 then Review(r3, "stop_meter_below_start")
                      else r3;
            r in r4 <==>
              || r in r2 || (r == "stop_before_start" && at < startedAt)
              || (r == "stop_meter_below_start" && (meterStop < meterStart || meterStop < 0 || meterStart < 0))
  {
    var r3 := if at < startedAt then Review(r2, "stop_before_start") else r2;
    MeterProofs.ReviewMembers(r2, "stop_before_start", r);
    MeterProofs.ReviewMembers(r3, "stop_meter_below_start", r);
  }

  /** The stop reports an unplug before the session or its last interval began. */
  predicate WrongUnplug(s: Charging, disconnected: bool, at: int) {
    disconnected && s.releasedAt.None? && !NotBeforeLast(s, at)
  }

  lemma WrongUnplugSame(s: Charging, s': Charging, disconnected: bool, at: int)
    requires s'.releasedAt == s.releasedAt && s'.startedAt == s.startedAt && s'.intervals == s.intervals
    ensures WrongUnplug(s', disconnected, at) <==> WrongUnplug(s, disconnected, at)
  {
  }

  lemma NoteStopRaises(s: Charging, disconnected: bool, r: string)
    requires s.endedAt.Some?
    ensures r in NoteStop(s, disconnected).Reasons() <==>
              r in s.Reasons() || (r == "occupation_invalid_release_time" && WrongUnplug(s, disconnected, s.endedAt.value))
  {
    NoteStopParts(s, disconnected);
    if disconnected && s.releasedAt.None? {
      ReleaseRaises(s.(intervals := AtStop(s.intervals)), s.endedAt.value, r);
    }
  }

  lemma StoppedRowReasons(s: Charging, at: int, meterStop: int, data: seq<Block>)
    ensures var stored := StoredAtStop(s.Facts().(endedAt := Some(at)), s.store, s.recovering, data);
            StoppedRow(s, at, meterStop, data).Reasons() == StopReasons(s.startedAt, s.meterStart, at, meterStop, stored)
  {
  }

  /** The same for the whole stop, whose own samples are stored first. */
  lemma StopFlags(s: Charging, e: Event, r: string)
    requires e.StopEvent? && s.endedAt.None?
    ensures var stored := StoredAtStop(s.Facts().(endedAt := Some(e.at)), s.store, s.recovering, e.data);
            r in Apply(s, e).Reasons() <==>
              || StopLeaves(s.startedAt, s.meterStart, e.at, e.meterStop, stored, r)
              || (r == "occupation_invalid_release_time" && WrongUnplug(s, e.disconnected, e.at))
  {
    var stored := StoredAtStop(s.Facts().(endedAt := Some(e.at)), s.store, s.recovering, e.data);
    var row := StoppedRow(s, e.at, e.meterStop, e.data);
    StopIsNoted(s, e.at, e.meterStop, e.disconnected, e.data);
    StoppedRowSame(s, e.at, e.meterStop, e.data);
    StoppedRowReasons(s, e.at, e.meterStop, e.data);
    WrongUnplugSame(s, row, e.disconnected, e.at);
    NoteStopRaises(row, e.disconnected, r);
    StopReviewMeaning(s.startedAt, s.meterStart, e.at, e.meterStop, stored, r);
  }

  // ---------- ends without a stop ----------

  /** A session that a new transaction replaces ends with that reason and without a stop meter; one closed by hand
      takes the stop meter given, loses the two reasons of an abandoned session, and is marked as closed by hand. */
  lemma CloseFlags(s: Charging, e: Event, r: string)
    requires e.CloseEvent? && s.endedAt.None?
    ensures var s' := Apply(s, e);
            && s'.endedAt == Some(e.at)
            && s'.meterStop == (if e.closure.ManualClosure? then Some(e.closure.meter) else s.meterStop)
            && (e.closure.ReplacedByNewTransaction? ==>
                  (r in s'.Reasons() <==> r in s.Reasons() || r == "replaced_open_session"))
            && (e.closure.ManualClosure? ==>
                  (r in s'.Reasons() <==>
                     || (r in s.Reasons() && r != "offline_timeout" && r != "available_with_open_session")
                     || r == "manual_closure"))
  {
    match e.closure
    case ReplacedByNewTransaction => FlaggedMembers(s.(endedAt := Some(e.at)), "replaced_open_session", r);
    case ManualClosure(meter) =>
      var dropped := {"offline_timeout", "available_with_open_session"};
      WithoutMembers(s.Reasons(), dropped);
      MeterProofs.ReviewMembers(Without(s.Reasons(), dropped), "manual_closure", r);
  }

  /** A charger seen charging again clears the one reason that its session looked abandoned, and nothing else. */
  lemma SeenClears(s: Charging, r: string)
    requires s.endedAt.None?
    ensures var s' := Apply(s, ChargingSeenEvent);
            && s' == s.(store := s.store.(reasons := s'.Reasons()))
            && (r in s'.Reasons() <==> r in s.Reasons() && r != "available_with_open_session")
  {
    WithoutMembers(s.Reasons(), {"available_with_open_session"});
  }
}
