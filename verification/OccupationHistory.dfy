/** Occupation told from the messages alone: which message opened the interval that is billed, and whether it
    was confirmed. */
module OccupationHistory {
  import opened Prelude
  import opened Invoicing
  import opened MeterStore
  import opened Occupation
  import opened SessionRuns

  // ---------- what a message says ----------

  /** A status with a time stamp inside the session. */
  predicate Counted(e: Event, start: int) { e.StatusEvent? && e.stamp.Some? && e.stamp.value >= start }

  function Stamp(e: Event): int { if e.StatusEvent? && e.stamp.Some? then e.stamp.value else 0 }

  predicate Suspends(e: Event, start: int) { Counted(e, start) && (e.status == SuspendedEV || e.status == Finishing) }

  /** When the transaction ended: the first stop or closure. */
  function EndTime(events: seq<Event>): Option<int> {
    if events == [] then None
    else
      var before, e := EndTime(events[..|events| - 1]), events[|events| - 1];
      if before.None? && (e.StopEvent? || e.CloseEvent?) then Some(e.at) else before
  }

  /** After these messages, this one resumes charging and so ends an occupation that began at `since`. */
  predicate ClosesNow(before: seq<Event>, e: Event, start: int, since: int) {
    Counted(e, start) && e.status == ChargingNow && EndTime(before).None? && since <= Stamp(e)
  }

  /** After these messages, this one makes an occupation final: Finishing, the stop, or a suspension at or after
      the end. */
  predicate ConfirmsNow(before: seq<Event>, e: Event, start: int) {
    || (Counted(e, start) && e.status == Finishing)
    || (e.StopEvent? && EndTime(before).None?)
    || (Suspends(e, start) && EndTime(before).Some? && EndTime(before).value <= Stamp(e))
  }

  // ---------- what the messages say together ----------

  ghost predicate Closed(events: seq<Event>, start: int, i: nat, until: nat)
    requires i < until <= |events|
  {
    exists j :: i < j < until && ClosesNow(events[..j], events[j], start, Stamp(events[i]))
  }

  /** The message opens an interval: it suspends, and every interval opened before was closed before. */
  ghost predicate Opener(events: seq<Event>, start: int, i: nat)
    requires i < |events|
    decreases i
  {
    Suspends(events[i], start) && forall k :: 0 <= k < i && Opener(events, start, k) ==> Closed(events, start, k, i)
  }

  /** The interval that the message opened is still open. */
  ghost predicate Pending(events: seq<Event>, start: int, i: nat) {
    i < |events| && Opener(events, start, i) && !Closed(events, start, i, |events|)
  }

  ghost predicate NonePending(events: seq<Event>, start: int) {
    forall i :: 0 <= i < |events| ==> !Pending(events, start, i)
  }

  /** Some message since then made it final. */
  ghost predicate ConfirmedSince(events: seq<Event>, start: int, i: nat) {
    exists k :: i <= k < |events| && ConfirmsNow(events[..k], events[k], start)
  }

  lemma {:induction false} EarlierIsClosed(events: seq<Event>, start: int, i: nat, j: nat)
    requires i < j < |events| && Opener(events, start, i) && Opener(events, start, j)
    ensures Closed(events, start, i, |events|)
  {
    assert Closed(events, start, i, j);
  }

  lemma PendingUnique(events: seq<Event>, start: int, i: nat, j: nat)
    requires Pending(events, start, i) && Pending(events, start, j)
    ensures i == j
  {
    if i < j {
      EarlierIsClosed(events, start, i, j);
    } else if j < i {
      EarlierIsClosed(events, start, j, i);
    }
  }

  // ---------- one more message ----------

  lemma ClosedPrefix(init: seq<Event>, e: Event, start: int, i: nat, until: nat)
    requires i < until <= |init|
    ensures Closed(init + [e], start, i, until) <==> Closed(init, start, i, until)
  {
    forall j | i < j < until ensures (init + [e])[..j] == init[..j] && (init + [e])[j] == init[j] {
    }
  }

  lemma {:induction false} OpenerPrefix(init: seq<Event>, e: Event, start: int, i: nat)
    requires i < |init|
    ensures Opener(init + [e], start, i) <==> Opener(init, start, i)
    decreases i
  {
    forall k | 0 <= k < i
      ensures Opener(init + [e], start, k) <==> Opener(init, start, k)
      ensures Closed(init + [e], start, k, i) <==> Closed(init, start, k, i)
    {
      OpenerPrefix(init, e, start, k);
      ClosedPrefix(init, e, start, k, i);
    }
  }

  lemma ClosedNext(init: seq<Event>, e: Event, start: int, i: nat)
    requires i < |init|
    ensures Closed(init + [e], start, i, |init| + 1)
            <==> Closed(init, start, i, |init|) || ClosesNow(init, e, start, Stamp(init[i]))
  {
    var events := init + [e];
    assert events[..|init|] == init && events[|init|] == e;
    forall j | i < j < |init| ensures events[..j] == init[..j] && events[j] == init[j] {
    }
  }

  lemma PendingNext(init: seq<Event>, e: Event, start: int, i: nat)
    requires i < |init|
    ensures Pending(init + [e], start, i)
            <==> Pending(init, start, i) && !ClosesNow(init, e, start, Stamp(init[i]))
  {
    OpenerPrefix(init, e, start, i);
    ClosedNext(init, e, start, i);
  }

  lemma ConfirmedNext(init: seq<Event>, e: Event, start: int, i: nat)
    requires i <= |init|
    ensures ConfirmedSince(init + [e], start, i) <==> ConfirmedSince(init, start, i) || ConfirmsNow(init, e, start)
  {
    var events := init + [e];
    assert events[..|init|] == init && events[|init|] == e;
    forall k | i <= k < |init| ensures events[..k] == init[..k] && events[k] == init[k] {
    }
  }

  lemma OpensNow(init: seq<Event>, e: Event, start: int)
    requires NonePending(init, start) && Suspends(e, start)
    ensures Pending(init + [e], start, |init|)
  {
    var events, n := init + [e], |init|;
    forall k | 0 <= k < n && Opener(events, start, k) ensures Closed(events, start, k, n) {
      OpenerPrefix(init, e, start, k);
      assert !Pending(init, start, k);
      ClosedPrefix(init, e, start, k, n);
    }
    assert events[n] == e;
  }

  lemma StaysNone(init: seq<Event>, e: Event, start: int)
    requires NonePending(init, start) && !Suspends(e, start)
    ensures NonePending(init + [e], start)
  {
    forall i | 0 <= i < |init| + 1 ensures !Pending(init + [e], start, i) {
      if i < |init| {
        PendingNext(init, e, start, i);
      }
    }
  }

  lemma ClosesLast(init: seq<Event>, e: Event, start: int, i: nat)
    requires Pending(init, start, i) && ClosesNow(init, e, start, Stamp(init[i]))
    ensures NonePending(init + [e], start)
  {
    forall k | 0 <= k < |init| + 1 ensures !Pending(init + [e], start, k) {
      if k < |init| {
        PendingNext(init, e, start, k);
        if Pending(init, start, k) {
          PendingUnique(init, start, i, k);
        }
      }
    }
  }

  // ---------- the rows follow the messages ----------

  /** The open interval is the one that the pending message opened, confirmed as the messages say. */
  ghost predicate Tracks(s: Charging, events: seq<Event>, open: Option<nat>) {
    && s.endedAt == EndTime(events)
    && match open
       case None => !HasOpen(s.intervals) && s.idleSince == None && NonePending(events, s.startedAt)
       case Some(i) =>
         && Pending(events, s.startedAt, i) && s.intervals != [] && s.idleSince == Some(Stamp(events[i]))
         && s.intervals[|s.intervals| - 1]
            == Interval(Stamp(events[i]), None, ConfirmedSince(events, s.startedAt, i), None)
  }

  /** A message that leaves intervals and end alone, and neither opens, closes nor confirms. */
  lemma {:induction false} QuietTracks(s: Charging, s': Charging, events: seq<Event>, e: Event, open: Option<nat>)
    requires Tracks(s, events, open) && s'.startedAt == s.startedAt
    requires s'.intervals == s.intervals && s'.idleSince == s.idleSince && s'.endedAt == EndTime(events + [e])
    requires !ConfirmsNow(events, e, s.startedAt) || open.None?
    requires open.None? ==> !Suspends(e, s.startedAt)
    requires open.Some? ==> !ClosesNow(events, e, s.startedAt, Stamp(events[open.value]))
    ensures Tracks(s', events + [e], open)
  {
    if open.Some? {
      PendingNext(events, e, s.startedAt, open.value);
      ConfirmedNext(events, e, s.startedAt, open.value);
    } else {
      StaysNone(events, e, s.startedAt);
    }
  }

  lemma {:induction false} EndNext(events: seq<Event>, e: Event)
    ensures EndTime(events + [e])
         == if EndTime(events).None? && (e.StopEvent? || e.CloseEvent?) then Some(e.at) else EndTime(events)
  {
    assert (events + [e])[..|events|] == events;
  }

  lemma Storable(s: Charging)
    requires OccupationInv(s)
    ensures IntervalsStorable(s.intervals)
  {
    forall i | 0 <= i < |s.intervals|
      ensures s.intervals[i].endedAt.Some? ==> s.intervals[i].endedAt.value >= s.intervals[i].startedAt
    {
      assert IntervalOk(s, i);
    }
  }

  /** In an unreleased session whatever is not open was resumed. */
  lemma NotOpenIsResumed(s: Charging)
    requires OccupationInv(s) && s.releasedAt.None? && !HasOpen(s.intervals) && s.intervals != []
    ensures s.intervals[|s.intervals| - 1].endReason == Some(Resumed)
  {
    assert IntervalOk(s, |s.intervals| - 1);
  }

  lemma SuspendApplies(s: Charging, e: Event)
    requires OccupationInv(s) && Suspends(e, s.startedAt) && !s.invoiced && s.releasedAt.None?
    ensures Apply(s, e) == Suspend(s, e.status == Finishing, Stamp(e))
  {
    SuspendKeeps(s, e.status == Finishing, Stamp(e));
    Storable(Suspend(s, e.status == Finishing, Stamp(e)));
  }

  lemma SuspendTracks(s: Charging, events: seq<Event>, e: Event, open: Option<nat>) returns (open': Option<nat>)
    requires OccupationInv(s) && Tracks(s, events, open) && Suspends(e, s.startedAt)
    requires !s.invoiced && s.releasedAt.None?
    ensures Tracks(Apply(s, e), events + [e], open')
  {
    SuspendApplies(s, e);
    EndNext(events, e);
    if open.Some? {
      open' := open;
      PendingNext(events, e, s.startedAt, open.value);
      ConfirmedNext(events, e, s.startedAt, open.value);
    } else {
      open' := Some(|events|);
      OpensNow(events, e, s.startedAt);
      ConfirmedNext(events, e, s.startedAt, |events|);
      assert !ConfirmedSince(events, s.startedAt, |events|);
    }
  }

  lemma ChargeTracks(s: Charging, events: seq<Event>, e: Event, open: Option<nat>) returns (open': Option<nat>)
    requires OccupationInv(s) && Tracks(s, events, open) && Counted(e, s.startedAt) && e.status == ChargingNow
    requires !s.invoiced && s.releasedAt.None?
    ensures Tracks(Apply(s, e), events + [e], open')
  {
    EndNext(events, e);
    Storable(s);
    if open.Some? && ClosesNow(events, e, s.startedAt, Stamp(events[open.value])) {
      open' := None;
      ClosesLast(events, e, s.startedAt, open.value);
      ResumeStorable(s, Stamp(e));
    } else {
      open' := open;
      ChargeQuiet(s, e);
      QuietTracks(s, Apply(s, e), events, e, open);
    }
  }

  lemma ResumeStorable(s: Charging, stamp: int)
    requires IntervalsStorable(s.intervals) && HasOpen(s.intervals) && s.endedAt.None?
    requires s.intervals[|s.intervals| - 1].startedAt <= stamp
    ensures IntervalsStorable(Resume(s, stamp).intervals) && !HasOpen(Resume(s, stamp).intervals)
    ensures Resume(s, stamp).idleSince == None && Resume(s, stamp).endedAt == s.endedAt
  {
  }

  /** A charging status that closes nothing changes no interval. */
  lemma ChargeQuiet(s: Charging, e: Event)
    requires OccupationInv(s) && Counted(e, s.startedAt) && e.status == ChargingNow && !s.invoiced && s.releasedAt.None?
    requires s.endedAt.Some? || !HasOpen(s.intervals) || Stamp(e) < s.intervals[|s.intervals| - 1].startedAt
    ensures Apply(s, e).intervals == s.intervals && Apply(s, e).idleSince == s.idleSince
    ensures Apply(s, e).endedAt == s.endedAt && Apply(s, e).startedAt == s.startedAt
  {
    if s.endedAt.None? && HasOpen(s.intervals) {
      var n := |s.intervals| - 1;
      var next := Resume(s, Stamp(e)).intervals;
      assert next[n].endedAt == Some(Stamp(e)) && next[n].startedAt == s.intervals[n].startedAt;
      assert !IntervalsStorable(next);
    }
  }

  /** Everything occupation consists of is as it was. */
  predicate SameOccupation(s: Charging, s': Charging) {
    && s'.startedAt == s.startedAt && s'.endedAt == s.endedAt && s'.idleSince == s.idleSince
    && s'.intervals == s.intervals && s'.invoiced == s.invoiced && s'.releasedAt == s.releasedAt
  }

  lemma RefusedRelease(s: Charging, stamp: int)
    requires Release(s, stamp).releasedAt.None?
    ensures SameOccupation(s, Release(s, stamp))
  {
    FlagLater(s, "occupation_invalid_release_time");
  }

  lemma OtherStatusSame(s: Charging, e: Event)
    requires OccupationInv(s) && e.StatusEvent? && !s.invoiced && s.releasedAt.None?
    requires !Counted(e, s.startedAt) || e.status == Available || e.status == OtherStatus
    requires Apply(s, e).releasedAt.None?
    ensures SameOccupation(s, Apply(s, e))
  {
    Storable(s);
    FlagLater(s, "occupation_missing_status_timestamp");
    FlagLater(s, "occupation_interrupted_status");
    if Counted(e, s.startedAt) && e.status == Available && s.availableReleases {
      AvailableStorable(s, Stamp(e));
      RefusedRelease(s, Stamp(e));
    }
  }

  lemma AvailableStorable(s: Charging, stamp: int)
    requires OccupationInv(s)
    ensures IntervalsStorable(Release(s, stamp).intervals)
  {
    ReleaseKeeps(s, stamp);
    Storable(Release(s, stamp));
  }

  lemma OtherStatusTracks(s: Charging, events: seq<Event>, e: Event, open: Option<nat>)
    requires OccupationInv(s) && Tracks(s, events, open) && e.StatusEvent? && !s.invoiced && s.releasedAt.None?
    requires !Counted(e, s.startedAt) || e.status == Available || e.status == OtherStatus
    requires Apply(s, e).releasedAt.None?
    ensures Tracks(Apply(s, e), events + [e], open)
  {
    EndNext(events, e);
    OtherStatusSame(s, e);
    QuietTracks(s, Apply(s, e), events, e, open);
  }

  lemma StopTracks(s: Charging, events: seq<Event>, e: Event, open: Option<nat>)
    requires OccupationInv(s) && Tracks(s, events, open) && e.StopEvent? && !s.invoiced && s.releasedAt.None?
    requires Apply(s, e).releasedAt.None?
    ensures Tracks(Apply(s, e), events + [e], open)
  {
    EndNext(events, e);
    if s.endedAt.Some? {
      QuietTracks(s, s, events, e, open);
    } else {
      StopDoes(s, e);
      if open.Some? {
        PendingNext(events, e, s.startedAt, open.value);
        ConfirmedNext(events, e, s.startedAt, open.value);
      } else {
        if s.intervals != [] {
          NotOpenIsResumed(s);
        }
        StaysNone(events, e, s.startedAt);
      }
    }
  }

  /** The row as it is before occupation is noted: only its end is new. */
  lemma StoppedRowSame(s: Charging, at: int, meterStop: int, data: seq<Block>)
    ensures var row := StoppedRow(s, at, meterStop, data);
            row.endedAt == Some(at) && SameOccupation(s.(endedAt := Some(at)), row)
  {
  }

  lemma StopIsNoted(s: Charging, at: int, meterStop: int, disconnected: bool, data: seq<Block>)
    requires s.endedAt.None?
    ensures StopTransaction(s, at, meterStop, disconnected, data) == NoteStop(StoppedRow(s, at, meterStop, data), disconnected)
  {
  }

  lemma RestSame(s: Charging, e: Event)
    requires !e.StatusEvent? && !e.StopEvent? && !e.CloseEvent? && !e.InvoicedEvent?
    ensures SameOccupation(s, Apply(s, e))
  {
  }

  lemma CloseSame(s: Charging, at: int, closure: Closure)
    ensures SameOccupation(s.(endedAt := Some(at)), Close(s, at, closure))
  {
  }

  lemma RestTracks(s: Charging, events: seq<Event>, e: Event, open: Option<nat>)
    requires Tracks(s, events, open) && !e.StatusEvent? && !e.StopEvent?
    ensures Tracks(Apply(s, e), events + [e], open)
  {
    EndNext(events, e);
    if e.CloseEvent? {
      CloseSame(s, e.at, e.closure);
    } else if e.InvoicedEvent? {
    } else {
      RestSame(s, e);
    }
    QuietTracks(s, Apply(s, e), events, e, open);
  }

  lemma StepTracks(s: Charging, events: seq<Event>, e: Event, open: Option<nat>) returns (open': Option<nat>)
    requires OccupationInv(s) && Tracks(s, events, open) && !s.invoiced && s.releasedAt.None?
    requires Apply(s, e).releasedAt.None?
    ensures Tracks(Apply(s, e), events + [e], open')
  {
    open' := open;
    if Suspends(e, s.startedAt) {
      open' := SuspendTracks(s, events, e, open);
    } else if Counted(e, s.startedAt) && e.status == ChargingNow {
      open' := ChargeTracks(s, events, e, open);
    } else if e.StatusEvent? {
      OtherStatusTracks(s, events, e, open);
    } else if e.StopEvent? {
      StopTracks(s, events, e, open);
    } else {
      RestTracks(s, events, e, open);
    }
  }

  /** Start, invoice and release are never taken back. */
  predicate Later(s: Charging, s': Charging) {
    && s'.startedAt == s.startedAt && (s.invoiced ==> s'.invoiced)
    && (s.releasedAt.Some? ==> s'.releasedAt == s.releasedAt)
  }

  lemma ReleaseLater(s: Charging, stamp: int)
    ensures Later(s, Release(s, stamp))
  {
    FlagLater(s, "occupation_invalid_release_time");
  }

  lemma FlagLater(s: Charging, reason: string)
    ensures Later(s, s.Flagged(reason)) && SameOccupation(s, s.Flagged(reason))
  {
  }

  lemma AppliedLater(s: Charging, status: Status, stamp: int)
    requires !s.invoiced && s.startedAt <= stamp && s.releasedAt.None?
    ensures Later(s, StatusRows(s, status, Some(stamp)))
  {
    match status
    case SuspendedEV =>
    case Finishing =>
    case ChargingNow => FlagLater(s, "occupation_charging_after_stop");
    case Available => ReleaseLater(s, stamp);
    case OtherStatus => FlagLater(s, "occupation_interrupted_status");
  }

  lemma StatusLater(s: Charging, status: Status, stamp: Option<int>)
    ensures Later(s, NoteStatus(s, status, stamp))
  {
    if !s.invoiced && stamp.Some? && s.startedAt <= stamp.value && s.releasedAt.None? {
      AppliedLater(s, status, stamp.value);
    } else {
      FlagLater(s, "occupation_missing_status_timestamp");
      FlagLater(s, "occupation_status_after_release");
    }
  }

  lemma NoteStopLater(s: Charging, disconnected: bool)
    requires s.endedAt.Some?
    ensures Later(s, NoteStop(s, disconnected))
  {
    ReleaseLater(s, s.endedAt.value);
    if s.intervals != [] {
      ReleaseLater(s.(intervals := Confirm(s.intervals)), s.endedAt.value);
    }
  }

  lemma StepLater(s: Charging, e: Event)
    ensures Later(s, Apply(s, e))
  {
    match e
    case StatusEvent(status, stamp) => StatusLater(s, status, stamp);
    case StopEvent(at, meterStop, disconnected, data) => StopLater(s, e);
    case CloseEvent(at, closure) => CloseSame(s, at, closure);
    case InvoicedEvent =>
    case _ => RestSame(s, e);
  }

  lemma StopLater(s: Charging, e: Event)
    requires e.StopEvent?
    ensures Later(s, Apply(s, e))
  {
    if s.endedAt.None? {
      StopIsNoted(s, e.at, e.meterStop, e.disconnected, e.data);
      StoppedRowSame(s, e.at, e.meterStop, e.data);
      NoteStopLater(StoppedRow(s, e.at, e.meterStop, e.data), e.disconnected);
    }
  }

  /** A session as a start leaves it. */
  ghost predicate Fresh(s: Charging) {
    && SessionInv(s) && s.endedAt.None? && s.releasedAt.None? && s.idleSince.None? && s.intervals == [] && !s.invoiced
  }

  lemma StartedFresh(
    at: int, meterStart: int, driver: Option<int>, refusal: Option<string>, replaced: bool, byAvailable: bool)
    ensures Fresh(Started(at, meterStart, driver, refusal, replaced, byAvailable))
    ensures Started(at, meterStart, driver, refusal, replaced, byAvailable).startedAt == at
  {
    StartedInv(at, meterStart, driver, refusal, replaced, byAvailable);
  }

  lemma {:induction false} RunLast(s: Charging, events: seq<Event>)
    requires events != []
    ensures Run(s, events) == Apply(Run(s, events[..|events| - 1]), events[|events| - 1])
  {
  }

  lemma {:induction false} RunKeeps(s: Charging, events: seq<Event>)
    requires SessionInv(s)
    ensures SessionInv(Run(s, events)) && Later(s, Run(s, events))
  {
    if events == [] {
    } else {
      var init, e := events[..|events| - 1], events[|events| - 1];
      RunKeeps(s, init);
      RunLast(s, events);
      StepKeepsInv(Run(s, init), e);
      StepLater(Run(s, init), e);
    }
  }

  lemma {:induction false} OpenFrom(s0: Charging, events: seq<Event>) returns (open: Option<nat>)
    requires Fresh(s0) && Run(s0, events).releasedAt.None? && !Run(s0, events).invoiced
    ensures Tracks(Run(s0, events), events, open)
  {
    if events == [] {
      open := None;
    } else {
      var init, e := events[..|events| - 1], events[|events| - 1];
      RunLast(s0, events);
      StepLater(Run(s0, init), e);
      var before := OpenFrom(s0, init);
      RunKeeps(s0, init);
      open := StepTracks(Run(s0, init), init, e, before);
      assert init + [e] == events;
    }
  }

  /** In every run of messages, until release and invoice: there is an open interval if and only if some message
      opened one that no later message closed; it starts at that message's stamp, and it is confirmed if and
      only if a message since then made it final. */
  lemma {:induction false} OpenIntervalHistory(
    at: int, meterStart: int, driver: Option<int>, refusal: Option<string>, replaced: bool, byAvailable: bool,
    events: seq<Event>) returns (open: Option<nat>)
    requires var s := Run(Started(at, meterStart, driver, refusal, replaced, byAvailable), events);
             s.releasedAt.None? && !s.invoiced
    ensures var s := Run(Started(at, meterStart, driver, refusal, replaced, byAvailable), events);
            s.startedAt == at && Tracks(s, events, open)
  {
    var s0 := Started(at, meterStart, driver, refusal, replaced, byAvailable);
    StartedFresh(at, meterStart, driver, refusal, replaced, byAvailable);
    open := OpenFrom(s0, events);
    RunKeeps(s0, events);
  }

  // ---------- the release ----------

  /** No interval starts after this time. */
  predicate NotBeforeLast(s: Charging, at: int) {
    s.startedAt <= at && (s.intervals != [] ==> s.intervals[|s.intervals| - 1].startedAt <= at)
  }

  /** The message reports that the car was unplugged, and when. */
  predicate Unplugs(s: Charging, e: Event) {
    || (Counted(e, s.startedAt) && e.status == Available && s.availableReleases)
    || (e.StopEvent? && e.disconnected && s.endedAt.None?)
  }

  function UnplugTime(e: Event): int { if e.StopEvent? then e.at else Stamp(e) }

  /** The intervals after the release: the open one is ended by it. */
  function EndedBy(intervals: seq<Interval>, at: int): seq<Interval> {
    if HasOpen(intervals)
    then intervals[|intervals| - 1 := intervals[|intervals| - 1].(endedAt := Some(at), endReason := Some(Released))]
    else intervals
  }

  lemma ReleaseDoes(s: Charging, stamp: int)
    requires s.releasedAt.None?
    ensures var s' := Release(s, stamp);
            if NotBeforeLast(s, stamp)
            then SameOccupation(s.(releasedAt := Some(stamp), intervals := EndedBy(s.intervals, stamp)), s')
            else SameOccupation(s, s') && "occupation_invalid_release_time" in s'.Reasons()
  {
    FlagLater(s, "occupation_invalid_release_time");
  }

  /** The intervals once a stop is noted: the last one is confirmed unless charging was resumed. */
  function AtStop(intervals: seq<Interval>): seq<Interval> {
    if intervals == [] || intervals[|intervals| - 1].endReason == Some(Resumed) then intervals
    else intervals[|intervals| - 1 := intervals[|intervals| - 1].(confirmed := true)]
  }

  lemma NoteStopParts(s: Charging, disconnected: bool)
    requires s.endedAt.Some?
    ensures var confirmed := s.(intervals := AtStop(s.intervals));
            NoteStop(s, disconnected) == if disconnected then Release(confirmed, s.endedAt.value) else confirmed
  {
  }

  lemma NoteStopDoes(s: Charging, disconnected: bool)
    requires s.endedAt.Some?
    ensures var s' := NoteStop(s, disconnected);
            if s.releasedAt.None? && disconnected && NotBeforeLast(s, s.endedAt.value)
            then SameOccupation(s.(releasedAt := s.endedAt, intervals := EndedBy(AtStop(s.intervals), s.endedAt.value)), s')
            else SameOccupation(s.(intervals := AtStop(s.intervals)), s')
  {
    var confirmed := s.(intervals := AtStop(s.intervals));
    NoteStopParts(s, disconnected);
    if disconnected {
      if s.releasedAt.None? {
        ReleaseDoes(confirmed, s.endedAt.value);
      } else {
        assert Release(confirmed, s.endedAt.value) == confirmed;
      }
    }
  }

  lemma StopDoes(s: Charging, e: Event)
    requires e.StopEvent? && s.endedAt.None?
    ensures var s', ended := Apply(s, e), s.(endedAt := Some(e.at));
            if s.releasedAt.None? && e.disconnected && NotBeforeLast(s, e.at)
            then SameOccupation(ended.(releasedAt := Some(e.at), intervals := EndedBy(AtStop(s.intervals), e.at)), s')
            else SameOccupation(ended.(intervals := AtStop(s.intervals)), s')
  {
    StopIsNoted(s, e.at, e.meterStop, e.disconnected, e.data);
    StoppedRowSame(s, e.at, e.meterStop, e.data);
    NoteStopDoes(StoppedRow(s, e.at, e.meterStop, e.data), e.disconnected);
  }

  lemma AvailableDoes(s: Charging, e: Event)
    requires OccupationInv(s) && Counted(e, s.startedAt) && e.status == Available && s.availableReleases
    requires s.releasedAt.None? && !s.invoiced
    ensures var s' := Apply(s, e);
            if NotBeforeLast(s, Stamp(e))
            then SameOccupation(s.(releasedAt := Some(Stamp(e)), intervals := EndedBy(s.intervals, Stamp(e))), s')
            else SameOccupation(s, s') && "occupation_invalid_release_time" in s'.Reasons()
  {
    AvailableStorable(s, Stamp(e));
    ReleaseDoes(s, Stamp(e));
  }

  lemma OthersRelease(s: Charging, e: Event)
    requires s.releasedAt.None? && !s.invoiced && !Unplugs(s, e)
    ensures Apply(s, e).releasedAt.None?
  {
    if e.StopEvent? {
      if s.endedAt.None? {
        StopDoes(s, e);
      }
    } else if e.CloseEvent? {
      CloseSame(s, e.at, e.closure);
    } else if e.StatusEvent? {
      StatusReleases(s, e);
    } else if !e.InvoicedEvent? {
      RestSame(s, e);
    }
  }

  lemma StatusReleases(s: Charging, e: Event)
    requires s.releasedAt.None? && e.StatusEvent? && !(Counted(e, s.startedAt) && e.status == Available && s.availableReleases)
    ensures Apply(s, e).releasedAt.None?
  {
    FlagLater(s, "occupation_missing_status_timestamp");
    FlagLater(s, "occupation_interrupted_status");
    FlagLater(s, "occupation_charging_after_stop");
  }

  /** A message releases the connector if and only if it reports the unplug, no earlier than the session and its
      last interval; the release is at the time it reports. */
  lemma ReleaseDecided(s: Charging, e: Event)
    requires OccupationInv(s) && s.releasedAt.None? && !s.invoiced
    ensures Apply(s, e).releasedAt
         == if Unplugs(s, e) && NotBeforeLast(s, UnplugTime(e)) then Some(UnplugTime(e)) else None
  {
    if !Unplugs(s, e) {
      OthersRelease(s, e);
    } else if e.StopEvent? {
      StopDoes(s, e);
    } else {
      AvailableDoes(s, e);
    }
  }
}
