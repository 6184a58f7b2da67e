/** Which occupation is billed after the release, and what is flagged for good. */
module OccupationBill {
  import opened Prelude
  import opened Invoicing
  import opened InvoiceCreation
  import opened MeterStore
  import opened Occupation
  import opened SessionRuns
  import opened EvidenceProofs
  import opened OccupationHistory

  // ---------- from the release to the bill ----------

  /** The first message to end the transaction is a stop. */
  ghost predicate StopComes(events: seq<Event>) {
    exists k :: 0 <= k < |events| && events[k].StopEvent? && EndTime(events[..k]).None?
  }

  /** Some message made the occupation final: one up to the unplug, or the stop after it. */
  ghost predicate MadeFinal(events: seq<Event>, later: seq<Event>, start: int, i: nat) {
    ConfirmedSince(events, start, i) || (EndTime(events).None? && StopComes(later))
  }

  /** The last interval of a session that the last of `events` released, once `later` have come. */
  ghost predicate Ended(s: Charging, events: seq<Event>, later: seq<Event>, open: Option<nat>) {
    && s.releasedAt.Some? && s.endedAt == (if EndTime(events).Some? then EndTime(events) else EndTime(later))
    && match open
       case None => s.intervals != [] ==> s.intervals[|s.intervals| - 1].endReason == Some(Resumed)
       case Some(i) =>
         && i < |events| && s.intervals != []
         && s.intervals[|s.intervals| - 1]
            == Interval(Stamp(events[i]), s.releasedAt, MadeFinal(events, later, s.startedAt, i), Some(Released))
  }

  lemma {:induction false} StopComesNext(later: seq<Event>, e: Event)
    ensures StopComes(later + [e]) <==> StopComes(later) || (e.StopEvent? && EndTime(later).None?)
  {
    var all := later + [e];
    assert all[..|later|] == later && all[|later|] == e;
    forall k | 0 <= k < |later| ensures all[..k] == later[..k] && all[k] == later[k] {
    }
  }

  /** Rows that show the open interval ended at the release. */
  lemma {:induction false} ReleasedRows(
    s: Charging, s': Charging, events: seq<Event>, e: Event, open: Option<nat>, confirmed: seq<Interval>)
    requires Tracks(s, events, open) && s.releasedAt.None? && OccupationInv(s) && s'.startedAt == s.startedAt
    requires s'.endedAt == EndTime(events + [e]) && s'.releasedAt.Some?
    requires s'.intervals == EndedBy(confirmed, s'.releasedAt.value)
    requires confirmed == if ConfirmsNow(events, e, s.startedAt) then AtStop(s.intervals) else s.intervals
    ensures Ended(s', events + [e], [], open)
  {
    if open.Some? {
      ConfirmedNext(events, e, s.startedAt, open.value);
    } else if s.intervals != [] {
      NotOpenIsResumed(s);
    }
  }

  lemma ReleaseEnds(s: Charging, events: seq<Event>, e: Event, open: Option<nat>)
    requires OccupationInv(s) && Tracks(s, events, open) && !s.invoiced && s.releasedAt.None?
    requires Unplugs(s, e) && NotBeforeLast(s, UnplugTime(e))
    ensures Ended(Apply(s, e), events + [e], [], open)
  {
    EndNext(events, e);
    if e.StopEvent? {
      StopDoes(s, e);
      ReleasedRows(s, Apply(s, e), events, e, open, AtStop(s.intervals));
    } else {
      AvailableDoes(s, e);
      ReleasedRows(s, Apply(s, e), events, e, open, s.intervals);
    }
  }

  lemma StatusAfterRelease(s: Charging, e: Event)
    requires e.StatusEvent? && s.releasedAt.Some? && OccupationInv(s)
    ensures SameOccupation(s, Apply(s, e))
  {
    Storable(s);
    FlagLater(s, "occupation_missing_status_timestamp");
    FlagLater(s, "occupation_status_after_release");
  }

  /** Messages after the release that leave the intervals alone. */
  lemma {:induction false} QuietEnded(
    s: Charging, s': Charging, events: seq<Event>, later: seq<Event>, e: Event, open: Option<nat>)
    requires Ended(s, events, later, open)
    requires s'.startedAt == s.startedAt && s'.releasedAt == s.releasedAt && s'.intervals == s.intervals
    requires s'.endedAt == if EndTime(events).Some? then EndTime(events) else EndTime(later + [e])
    requires EndTime(events).Some? || !e.StopEvent? || EndTime(later).Some?
    ensures Ended(s', events, later + [e], open)
  {
    StopComesNext(later, e);
  }

  lemma {:induction false} StopEnded(
    s: Charging, s': Charging, events: seq<Event>, later: seq<Event>, e: Event, open: Option<nat>)
    requires Ended(s, events, later, open) && e.StopEvent? && EndTime(events).None? && EndTime(later).None?
    requires s'.startedAt == s.startedAt && s'.releasedAt == s.releasedAt && s'.intervals == AtStop(s.intervals)
    requires s'.endedAt == Some(e.at)
    ensures Ended(s', events, later + [e], open)
  {
    EndNext(later, e);
    StopComesNext(later, e);
    if open.Some? {
      assert MadeFinal(events, later + [e], s.startedAt, open.value);
      AtStopLast(s.intervals);
    }
  }

  lemma AtStopLast(intervals: seq<Interval>)
    requires intervals != [] && intervals[|intervals| - 1].endReason != Some(Resumed)
    ensures AtStop(intervals) != []
    ensures AtStop(intervals)[|AtStop(intervals)| - 1] == intervals[|intervals| - 1].(confirmed := true)
  {
  }

  lemma StepEnded(s: Charging, events: seq<Event>, later: seq<Event>, e: Event, open: Option<nat>)
    requires OccupationInv(s) && Ended(s, events, later, open)
    ensures Ended(Apply(s, e), events, later + [e], open)
  {
    EndNext(later, e);
    if e.StopEvent? && s.endedAt.None? {
      StopDoes(s, e);
      StopEnded(s, Apply(s, e), events, later, e, open);
    } else {
      if e.StatusEvent? {
        StatusAfterRelease(s, e);
      } else if e.CloseEvent? {
        CloseSame(s, e.at, e.closure);
      } else if !e.StopEvent? && !e.InvoicedEvent? {
        RestSame(s, e);
      }
      QuietEnded(s, Apply(s, e), events, later, e, open);
    }
  }

  lemma LastIsBilled(s: Charging)
    requires OccupationInv(s) && s.releasedAt.Some?
    ensures var n := |s.intervals| - 1;
            Confirmed(s.intervals) == if n >= 0 && s.intervals[n].confirmed then [s.intervals[n]] else []
  {
    if s.intervals != [] {
      var init := s.intervals[..|s.intervals| - 1];
      forall i | 0 <= i < |init| ensures !init[i].confirmed {
        assert IntervalOk(s, i);
      }
      NoneConfirmed(init);
    }
  }

  lemma EndedIsBilled(s: Charging, events: seq<Event>, later: seq<Event>, open: Option<nat>)
    requires OccupationInv(s) && Ended(s, events, later, open)
    ensures Confirmed(s.intervals)
         == if open.Some? && MadeFinal(events, later, s.startedAt, open.value)
            then [Interval(Stamp(events[open.value]), s.releasedAt, true, Some(Released))] else []
  {
    LastIsBilled(s);
    if s.intervals != [] {
      assert IntervalOk(s, |s.intervals| - 1);
    }
  }

  /** The interval that was open when the unplug was reported, if there was one. */
  ghost predicate OpenBefore(events: seq<Event>, start: int, open: Option<nat>) {
    if open.Some? then Pending(events, start, open.value) else NonePending(events, start)
  }

  lemma {:induction false} ReleasedNow(s0: Charging, before: seq<Event>, e: Event) returns (open: Option<nat>)
    requires Fresh(s0) && Run(s0, before).releasedAt.None? && !Run(s0, before).invoiced
    requires Apply(Run(s0, before), e).releasedAt.Some?
    ensures Apply(Run(s0, before), e).releasedAt == Some(UnplugTime(e)) && SessionInv(Apply(Run(s0, before), e))
    ensures Ended(Apply(Run(s0, before), e), before + [e], [], open) && OpenBefore(before, s0.startedAt, open)
  {
    var s := Run(s0, before);
    RunKeeps(s0, before);
    open := OpenFrom(s0, before);
    ReleaseDecided(s, e);
    ReleaseEnds(s, before, e, open);
    StepKeepsInv(s, e);
  }

  lemma {:induction false} StaysEnded(s: Charging, events: seq<Event>, later: seq<Event>, open: Option<nat>)
    requires SessionInv(s) && Ended(s, events, [], open)
    ensures Ended(Run(s, later), events, later, open) && SessionInv(Run(s, later)) && Later(s, Run(s, later))
  {
    RunKeeps(s, later);
    if later == [] {
    } else {
      var init, e := later[..|later| - 1], later[|later| - 1];
      StaysEnded(s, events, init, open);
      RunLast(s, later);
      StepEnded(Run(s, init), events, init, e, open);
      assert init + [e] == later;
    }
  }

  /** A session that message `e` released, whatever came later: it is billed for the interval that was open when
      the unplug was reported, from the stamp of the message that opened it to the unplug, if and only if there was
      one and some message made it final; otherwise for none. */
  lemma {:induction false} BilledHistory(
    at: int, meterStart: int, driver: Option<int>, refusal: Option<string>, replaced: bool, byAvailable: bool,
    before: seq<Event>, e: Event, later: seq<Event>, tariffs: seq<Tariff>, off: int, sameStation: bool)
    returns (open: Option<nat>)
    requires var s := Run(Started(at, meterStart, driver, refusal, replaced, byAvailable), before);
             s.releasedAt.None? && !s.invoiced && Apply(s, e).releasedAt.Some?
    ensures OpenBefore(before, at, open)
    ensures var s := Run(Apply(Run(Started(at, meterStart, driver, refusal, replaced, byAvailable), before), e), later);
            && s.releasedAt == Some(UnplugTime(e))
            && Billed(EvidenceOf(s, tariffs, off, sameStation))
               == if open.Some? && MadeFinal(before + [e], later, at, open.value)
                  then [Interval(Stamp(before[open.value]), Some(UnplugTime(e)), true, Some(Released))] else []
  {
    var s0 := Started(at, meterStart, driver, refusal, replaced, byAvailable);
    StartedFresh(at, meterStart, driver, refusal, replaced, byAvailable);
    open := ReleasedNow(s0, before, e);
    var s1 := Apply(Run(s0, before), e);
    RunKeeps(s0, before);
    StepLater(Run(s0, before), e);
    StaysEnded(s1, before + [e], later, open);
    EndedIsBilled(Run(s1, later), before + [e], later, open);
  }

  // ---------- what raises a flag ----------

  lemma ReasonsStay(s: Charging, e: Event)
    requires SessionInv(s)
    ensures KeepsReasons(s.Reasons(), Apply(s, e).Reasons())
  {
    match e
    case StatusEvent(status, stamp) => StatusQuiet(s, status, stamp);
    case MeterEvent(blocks, byTransaction, manuallyClosed) => ReportReasons(s, blocks, byTransaction, manuallyClosed);
    case StopEvent(at, meterStop, disconnected, data) =>
      if s.endedAt.None? {
        StopReasonsStay(s, at, meterStop, disconnected, data);
      }
    case CloseEvent(at, closure) =>
      if s.endedAt.None? {
        CloseReasonsStay(s, at, closure);
      }
    case ChargingSeenEvent => WithoutMembers(s.Reasons(), {"available_with_open_session"});
    case OfflineGapEvent =>
    case FlagEvent(reason) =>
    case ReconnectEvent =>
    case InvoicedEvent =>
  }

  lemma CloseReasonsStay(s: Charging, at: int, closure: Closure)
    ensures KeepsReasons(s.Reasons(), Close(s, at, closure).Reasons())
  {
    WithoutMembers(s.Reasons(), {"offline_timeout", "available_with_open_session"});
  }

  lemma StopReasonsStay(s: Charging, at: int, meterStop: int, disconnected: bool, data: seq<Block>)
    requires SessionInv(s) && s.endedAt.None?
    ensures KeepsReasons(s.Reasons(), StopTransaction(s, at, meterStop, disconnected, data).Reasons())
  {
    var c := s.Facts().(endedAt := Some(at));
    ReasonsKeepMeter(s.Facts(), c, s.store, s.store.reasons);
    StoredAtStopKeeps(c, s.store, s.recovering, data);
    var store := StoredAtStop(c, s.store, s.recovering, data);
    StopReasonsKeep(s.startedAt, s.meterStart, at, meterStop, store);
    NoteStopQuiet(StoppedRow(s, at, meterStop, data), disconnected);
  }

  lemma {:induction false} ReasonForever(s: Charging, events: seq<Event>, reason: string)
    requires SessionInv(s) && reason in s.Reasons() && reason !in CLEARED_AT_STOP
    ensures SessionInv(Run(s, events)) && reason in Run(s, events).Reasons()
  {
    if events == [] {
    } else {
      var init := events[..|events| - 1];
      ReasonForever(s, init, reason);
      ReasonsStay(Run(s, init), events[|events| - 1]);
      StepKeepsInv(Run(s, init), events[|events| - 1]);
    }
  }

  const OFFLINE_GAP := "occupation_offline_gap"

  /** A charger that was offline while the session was occupied or stopped but not released: the session is
      flagged for good. At any other time before release and invoice the gap leaves no trace. */
  lemma {:induction false} OfflineGapFlags(
    at: int, meterStart: int, driver: Option<int>, refusal: Option<string>, replaced: bool, byAvailable: bool,
    events: seq<Event>, later: seq<Event>) returns (open: Option<nat>)
    requires var s := Run(Started(at, meterStart, driver, refusal, replaced, byAvailable), events);
             s.releasedAt.None? && !s.invoiced
    ensures OpenBefore(events, at, open)
    ensures var s := Run(Started(at, meterStart, driver, refusal, replaced, byAvailable), events);
            if open.Some? || EndTime(events).Some?
            then OFFLINE_GAP in Run(Apply(s, OfflineGapEvent), later).Reasons()
            else Apply(s, OfflineGapEvent) == s
  {
    var s := Run(Started(at, meterStart, driver, refusal, replaced, byAvailable), events);
    open := OpenIntervalHistory(at, meterStart, driver, refusal, replaced, byAvailable, events);
    if open.Some? || EndTime(events).Some? {
      ReachableInv(at, meterStart, driver, refusal, replaced, byAvailable, events);
      StepKeepsInv(s, OfflineGapEvent);
      GapIsLasting();
      ReasonForever(Apply(s, OfflineGapEvent), later, OFFLINE_GAP);
    }
  }

  lemma GapIsLasting()
    ensures OFFLINE_GAP !in CLEARED_AT_STOP
  {
    assert OFFLINE_GAP[1] == 'c';
    assert "offline_timeout"[1] == 'f' && "available_with_open_session"[1] == 'v' && "remote_stop_not_confirmed"[1] == 'e';
  }
}
