/** A charging session's lifecycle: connector occupation and the transaction's end
    (charging/occupation.py, charging/service.py). */
module Occupation {
  import opened Prelude
  import opened Invoicing
  import opened MeterStore

  datatype Status = SuspendedEV | Finishing | ChargingNow | Available | OtherStatus

  /** The rows of one session: the session itself, its intervals and its stored samples. */
  datatype Charging = Charging(
    startedAt: int, meterStart: int, driver: Option<int>, accepted: bool, availableReleases: bool,
    endedAt: Option<int>, meterStop: Option<int>, recovering: bool, idleSince: Option<int>,
    releasedAt: Option<int>, intervals: seq<Interval>, store: Store, invoiced: bool)
  {
    function Reasons(): seq<string> { store.reasons }
    function Flagged(reason: string): Charging { this.(store := store.(reasons := Review(store.reasons, reason))) }
    function Facts(): Context { Context(startedAt, meterStart, endedAt) }
  }

  // ---------- occupation steps on the lifecycle-1 rows ----------

  function Current(intervals: seq<Interval>): Option<Interval> {
    if intervals == [] then None else Some(intervals[|intervals| - 1])
  }

  predicate HasOpen(intervals: seq<Interval>) {
    intervals != [] && intervals[|intervals| - 1].endedAt.None?
  }

  /** Replace the current interval. */
  function SetCurrent(intervals: seq<Interval>, i: Interval): seq<Interval>
    requires intervals != []
  {
    intervals[|intervals| - 1 := i]
  }

  function Confirm(intervals: seq<Interval>): seq<Interval>
    requires intervals != []
  {
    SetCurrent(intervals, intervals[|intervals| - 1].(confirmed := true))
  }

  function Closed(i: Interval, at: int, reason: EndReason, confirmed: bool): Interval {
    i.(endedAt := Some(at), endReason := Some(reason), confirmed := confirmed)
  }

  /** `release`. */
  function Release(s: Charging, stamp: int): Charging {
    var current := Current(s.intervals);
    if s.releasedAt.Some? then s
    else if stamp < s.startedAt || (current.Some? && stamp < current.value.startedAt) then
      s.Flagged("occupation_invalid_release_time")
    else
      s.(releasedAt := Some(stamp),
         intervals := if HasOpen(s.intervals)
                      then SetCurrent(s.intervals, Closed(current.value, stamp, Released, current.value.confirmed))
                      else s.intervals)
  }

  function Suspend(s: Charging, finishing: bool, stamp: int): Charging {
    var occupied :=
      if HasOpen(s.intervals) then s
      else s.(intervals := s.intervals + [Interval(stamp, None, false, None)], idleSince := Some(stamp));
    if finishing || (s.endedAt.Some? && stamp >= s.endedAt.value)
    then occupied.(intervals := Confirm(occupied.intervals)) else occupied
  }

  function Resume(s: Charging, stamp: int): Charging {
    if s.endedAt.Some? then s.Flagged("occupation_charging_after_stop")
    else if HasOpen(s.intervals) then
      s.(intervals := SetCurrent(s.intervals, Closed(s.intervals[|s.intervals| - 1], stamp, Resumed, false)),
         idleSince := None)
    else s
  }

  /** `note_status`, before the database checks the rows. */
  function StatusRows(s: Charging, status: Status, stamp: Option<int>): Charging {
    if s.invoiced then s
    else if stamp.None? then s.Flagged("occupation_missing_status_timestamp")
    else if stamp.value < s.startedAt then s
    else if s.releasedAt.Some? then
      if status.ChargingNow? || status.SuspendedEV? || status.Finishing?
      then s.Flagged("occupation_status_after_release") else s
    else
      match status
      case SuspendedEV => Suspend(s, false, stamp.value)
      case Finishing => Suspend(s, true, stamp.value)
      case ChargingNow => Resume(s, stamp.value)
      case Available => if s.availableReleases then Release(s, stamp.value) else s
      case OtherStatus => if HasOpen(s.intervals) then s.Flagged("occupation_interrupted_status") else s
  }

  /** The check constraint on intervals: none may end before it starts. */
  predicate IntervalsStorable(intervals: seq<Interval>) {
    forall i :: 0 <= i < |intervals| ==> intervals[i].endedAt.Some? ==> intervals[i].endedAt.value >= intervals[i].startedAt
  }

  /** A status message: its rows, or a rollback when the database refuses them. */
  function NoteStatus(s: Charging, status: Status, stamp: Option<int>): Charging {
    var next := StatusRows(s, status, stamp);
    if IntervalsStorable(next.intervals) then next else s
  }

  /** `note_stop`: the pending interval is confirmed, and an unplug at the stop releases the connector. */
  function NoteStop(s: Charging, disconnected: bool): Charging
    requires s.endedAt.Some?
  {
    var confirmed :=
      if s.intervals != [] && s.intervals[|s.intervals| - 1].endReason != Some(Resumed)
      then s.(intervals := Confirm(s.intervals)) else s;
    if disconnected then Release(confirmed, s.endedAt.value) else confirmed
  }

  /** `note_offline_gap` for this session. */
  function NoteOfflineGap(s: Charging): Charging {
    if s.releasedAt.None? && (s.idleSince.Some? || s.endedAt.Some?) && !s.invoiced
    then s.Flagged("occupation_offline_gap") else s
  }

  // ---------- the transaction ----------

  /** `start_transaction`: the new row. */
  function Started(
    at: int, meterStart: int, driver: Option<int>, refusal: Option<string>, replaced: bool, availableReleases: bool)
    : Charging
  {
    var a := if refusal.Some? then Review([], "authorization_" + refusal.value) else [];
    var b := if meterStart < 0 then Review(a, "negative_start_meter") else a;
    var c := if replaced then Review(b, "replaced_open_session") else b;
    Charging(at, meterStart, driver, refusal.None?, availableReleases, None, None, false, None,
             None, [], Store(map[], c), false)
  }

  /** `meter_values`: a report without a transaction id finds open sessions only, a manually closed session
      takes none, and an ended one only while its charger recovers. */
  function MeterReport(s: Charging, blocks: seq<Block>, byTransaction: bool, manuallyClosed: bool): Charging {
    if manuallyClosed || (s.endedAt.Some? && (!s.recovering || !byTransaction)) then s
    else if byTransaction && s.recovering then
      s.(store := Backfill(s.Facts(), s.store, PointsOf(SortBlocks(blocks))))
    else s.(store := Live(s.Facts(), s.store, PointsOf(blocks)))
  }

  const CLEARED_AT_STOP := {"offline_timeout", "available_with_open_session", "remote_stop_not_confirmed"}

  function Without(reasons: seq<string>, dropped: set<string>): seq<string> {
    if reasons == [] then []
    else
      var init, r := Without(reasons[..|reasons| - 1], dropped), reasons[|reasons| - 1];
      if r in dropped then init else init + [r]
  }

  function OutletSamples(store: Store): Series { SeriesOf(store.series, OUTLET) }

  /** The newest outlet reading inside the session. */
  function LatestInside(points: Series, start: int, end: int): Option<int> {
    var inside := set t | t in points.Keys && start <= t <= end;
    if inside == {} then None else Some(points[Greatest(inside)])
  }

  /** The samples that come with the stop, by the same two paths as a report. */
  function StoredAtStop(c: Context, store: Store, recovering: bool, blocks: seq<Block>): Store {
    if recovering then Backfill(c, store, PointsOf(SortBlocks(blocks))) else Live(c, store, PointsOf(blocks))
  }

  /** The review reasons after the stop's own checks. */
  function StopReasons(startedAt: int, meterStart: int, at: int, meterStop: int, store: Store): seq<string> {
    var latest := LatestInside(OutletSamples(store), startedAt, at);
    var r1 := if latest.Some? && meterStop < latest.value then Review(store.reasons, "stop_meter_below_latest")
              else store.reasons;
    var r2 := Without(r1, CLEARED_AT_STOP);
    var r3 := if at < startedAt then Review(r2, "stop_before_start") else r2;
    if meterStop < meterStart || meterStop < 0 || meterStart < 0
    then Review(r3, "stop_meter_below_start") else r3
  }

  /** `stop_transaction` on an open session. */
  function StopTransaction(s: Charging, at: int, meterStop: int, disconnected: bool, blocks: seq<Block>): Charging
    requires s.endedAt.None?
  {
    var ended := s.(endedAt := Some(at), meterStop := Some(meterStop));
    var store := StoredAtStop(ended.Facts(), s.store, s.recovering, blocks);
    var reasons := StopReasons(s.startedAt, s.meterStart, at, meterStop, store);
    NoteStop(ended.(store := Store(store.series, reasons)), disconnected)
  }

  method StoreAtStop(c: Context, store: Store, recovering: bool, blocks: seq<Block>, latest: map<Key, (int, int)>)
    returns (r: Store)
    requires LatestSound(latest, store.series)
    ensures r == StoredAtStop(c, store, recovering, blocks)
  {
    if recovering {
      r := StoreRecoverySamples(c, store, blocks);
    } else {
      var stored, _ := StoreLiveSamples(c, store, latest, blocks);
      r := stored;
    }
  }

  // ---------- the mutable row ----------

  /** The session row as the handlers update it, field by field. */
  class SessionRow {
    const startedAt: int
    const meterStart: int
    const driver: Option<int>
    const accepted: bool
    const availableReleases: bool
    var endedAt: Option<int>
    var meterStop: Option<int>
    var recovering: bool
    var idleSince: Option<int>
    var releasedAt: Option<int>
    var intervals: seq<Interval>
    var store: Store
    var invoiced: bool

    ghost function View(): Charging
      reads this
    {
      Charging(startedAt, meterStart, driver, accepted, availableReleases, endedAt, meterStop, recovering,
               idleSince, releasedAt, intervals, store, invoiced)
    }

    constructor (at: int, meter: int, who: Option<int>, refusal: Option<string>, replaced: bool, byAvailable: bool)
      ensures View() == Started(at, meter, who, refusal, replaced, byAvailable)
    {
      startedAt, meterStart, driver, accepted, availableReleases := at, meter, who, refusal.None?, byAvailable;
      endedAt, meterStop, recovering, idleSince, releasedAt := None, None, false, None, None;
      intervals, invoiced := [], false;
      var reasons: seq<string> := [];
      if refusal.Some? {
        reasons := Review(reasons, "authorization_" + refusal.value);
      }
      if meter < 0 {
        reasons := Review(reasons, "negative_start_meter");
      }
      if replaced {
        reasons := Review(reasons, "replaced_open_session");
      }
      store := Store(map[], reasons);
    }

    method Flag(reason: string)
      modifies this`store
      ensures View() == old(View()).Flagged(reason)
    {
      store := store.(reasons := Review(store.reasons, reason));
    }

    method ReleaseConnector(stamp: int)
      modifies this`store, this`releasedAt, this`intervals
      ensures View() == Release(old(View()), stamp)
    {
      if releasedAt.Some? {
        return;
      }
      if stamp < startedAt || (intervals != [] && stamp < intervals[|intervals| - 1].startedAt) {
        Flag("occupation_invalid_release_time");
        return;
      }
      releasedAt := Some(stamp);
      if HasOpen(intervals) {
        var current := intervals[|intervals| - 1];
        intervals := SetCurrent(intervals, current.(endedAt := Some(stamp), endReason := Some(Released)));
      }
    }

    /** `note_status`; a refused row leaves everything as it was. */
    method HandleStatus(status: Status, stamp: Option<int>)
      modifies this`store, this`releasedAt, this`intervals, this`idleSince
      ensures View() == NoteStatus(old(View()), status, stamp)
    {
      var store0, released0, intervals0, idle0 := store, releasedAt, intervals, idleSince;
      if invoiced {
      } else if stamp.None? {
        Flag("occupation_missing_status_timestamp");
      } else if stamp.value < startedAt {
      } else if releasedAt.Some? {
        if status.ChargingNow? || status.SuspendedEV? || status.Finishing? {
          Flag("occupation_status_after_release");
        }
      } else {
        ApplyStatus(status, stamp.value);
      }
      if !IntervalsStorable(intervals) {
        store, releasedAt, intervals, idleSince := store0, released0, intervals0, idle0;
      }
    }

    method ApplyStatus(status: Status, stamp: int)
      requires !invoiced && stamp >= startedAt && releasedAt.None?
      modifies this`store, this`releasedAt, this`intervals, this`idleSince
      ensures View() == StatusRows(old(View()), status, Some(stamp))
    {
      if status.SuspendedEV? || status.Finishing? {
        if !HasOpen(intervals) {
          intervals := intervals + [Interval(stamp, None, false, None)];
          idleSince := Some(stamp);
        }
        if status.Finishing? || (endedAt.Some? && stamp >= endedAt.value) {
          intervals := Confirm(intervals);
        }
      } else if status.ChargingNow? {
        if endedAt.Some? {
          Flag("occupation_charging_after_stop");
        } else if HasOpen(intervals) {
          intervals := SetCurrent(intervals, Closed(intervals[|intervals| - 1], stamp, Resumed, false));
          idleSince := None;
        }
      } else if status.Available? {
        if availableReleases {
          ReleaseConnector(stamp);
        }
      } else if HasOpen(intervals) {
        Flag("occupation_interrupted_status");
      }
    }

    /** `meter_values` for this session. */
    method HandleMeterValues(blocks: seq<Block>, byTransaction: bool, manuallyClosed: bool, latest0: map<Key, (int, int)>)
      requires LatestSound(latest0, store.series)
      modifies this`store
      ensures View() == MeterReport(old(View()), blocks, byTransaction, manuallyClosed)
    {
      if manuallyClosed || (endedAt.Some? && (!recovering || !byTransaction)) {
        return;
      }
      var facts := Context(startedAt, meterStart, endedAt);
      if byTransaction && recovering {
        store := StoreRecoverySamples(facts, store, blocks);
      } else {
        var stored, _ := StoreLiveSamples(facts, store, latest0, blocks);
        store := stored;
      }
    }

    method HandleOfflineGap()
      modifies this`store
      ensures View() == NoteOfflineGap(old(View()))
    {
      if releasedAt.None? && (idleSince.Some? || endedAt.Some?) && !invoiced {
        Flag("occupation_offline_gap");
      }
    }

    method HandleNoteStop(disconnected: bool)
      requires endedAt.Some?
      modifies this`store, this`releasedAt, this`intervals
      ensures View() == NoteStop(old(View()), disconnected)
    {
      if intervals != [] && intervals[|intervals| - 1].endReason != Some(Resumed) {
        intervals := Confirm(intervals);
      }
      if disconnected {
        ReleaseConnector(endedAt.value);
      }
    }

    /** The end of the transaction with its samples and its review. */
    method EndRow(at: int, meter: int, blocks: seq<Block>, latest0: map<Key, (int, int)>)
      requires LatestSound(latest0, store.series)
      modifies this`endedAt, this`meterStop, this`store
      ensures endedAt == Some(at) && meterStop == Some(meter)
      ensures var stored := StoredAtStop(Context(startedAt, meterStart, Some(at)), old(store), recovering, blocks);
              store == Store(stored.series, StopReasons(startedAt, meterStart, at, meter, stored))
    {
      meterStop, endedAt := Some(meter), Some(at);
      store := StoreAtStop(Context(startedAt, meterStart, endedAt), store, recovering, blocks, latest0);
      ReviewStop(at, meter);
    }

    /** `stop_transaction`; a second stop changes nothing. */
    method HandleStop(at: int, meter: int, disconnected: bool, blocks: seq<Block>, latest0: map<Key, (int, int)>)
      requires LatestSound(latest0, store.series)
      modifies this
      ensures View() == if old(endedAt).Some? then old(View())
                        else StopTransaction(old(View()), at, meter, disconnected, blocks)
    {
      if endedAt.Some? {
        return;
      }
      EndRow(at, meter, blocks, latest0);
      HandleNoteStop(disconnected);
    }

    method ReviewStop(at: int, meter: int)
      modifies this`store
      ensures store == Store(old(store).series, StopReasons(startedAt, meterStart, at, meter, old(store)))
    {
      var latest := LatestInside(OutletSamples(store), startedAt, at);
      var reasons := store.reasons;
      if latest.Some? && meter < latest.value {
        reasons := Review(reasons, "stop_meter_below_latest");
      }
      reasons := Without(reasons, CLEARED_AT_STOP);
      if at < startedAt {
        reasons := Review(reasons, "stop_before_start");
      }
      if meter < meterStart || meter < 0 || meterStart < 0 {
        reasons := Review(reasons, "stop_meter_below_start");
      }
      store := Store(store.series, reasons);
    }
  }
}
