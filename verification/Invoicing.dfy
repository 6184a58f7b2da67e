/** Building one immutable invoice from a session's evidence (invoicing.py). */
module Invoicing {
  import opened Prelude
  import opened Calendar
  import opened Interpolation
  import opened Segmentation
  import Bands
  import DailyTotals
  import IdleFee

  // ---------- rows ----------

  datatype Lifecycle = V0 | V1

  datatype EndReason = Resumed | Released

  datatype Interval = Interval(startedAt: int, endedAt: Option<int>, confirmed: bool, endReason: Option<EndReason>)

  datatype Session = Session(
    startedAt: int, endedAt: Option<int>, meterStart: int, meterStop: Option<int>,
    driver: Option<int>, accepted: bool, idleSince: Option<int>,
    lifecycle: Lifecycle, releasedAt: Option<int>)

  datatype Tariff = Tariff(id: int, effectiveFrom: int, idleRate: nat, grace: nat, bands: seq<Bands.Band>)

  /** Everything the invoice is computed from. `samples` is the stored outlet energy register. */
  datatype Evidence = Evidence(
    session: Session, samples: map<int, int>, intervals: seq<Interval>,
    tariffs: seq<Tariff>, off: int, sameStation: bool)

  datatype Reason =
    | SessionMismatch | MissingDriver | Unauthorized | InvalidInterval
    | InvalidMeter | ConflictingMeter | MeterDecreased
    | InvalidOccupationHistory | MissingTariff | InvalidTariff
    | EnergyMismatch | InvalidIdleInterval | AmountOverflow
    | SegmentationFailed(cause: MeterError)

  datatype Invoice = Invoice(driver: int, energyLines: seq<Segment>, idleLines: seq<IdleFee.IdleLine>, total: int)

  const MAX_VND: int := 0x7fff_ffff_ffff_ffff

  // ---------- readings ----------

  predicate InWindow(t: int, start: int, end: int) { start <= t <= end }

  function WindowStamps(samples: map<int, int>, start: int, end: int): set<int> {
    set t | t in samples.Keys && InWindow(t, start, end)
  }

  /** The sample loop: each stored sample must be nonnegative and agree with what is already known. */
  function Merge(readings: map<int, int>, samples: map<int, int>, stamps: seq<int>): Result<map<int, int>, Reason>
    requires forall t :: t in stamps ==> t in samples
  {
    if stamps == [] then Ok(readings)
    else
      assert forall t :: t in stamps[..|stamps| - 1] ==> t in stamps;
      match Merge(readings, samples, stamps[..|stamps| - 1])
      case Err(e) => Err(e)
      case Ok(m) =>
        var t := stamps[|stamps| - 1];
        assert t in stamps;
        if samples[t] < 0 then Err(InvalidMeter)
        else if t in m && m[t] != samples[t] then Err(ConflictingMeter)
        else Ok(m[t := samples[t]])
  }

  function Listed(stamps: seq<int>, m: map<int, int>): (rs: seq<Reading>)
    requires forall i :: 0 <= i < |stamps| ==> stamps[i] in m
    ensures |rs| == |stamps|
    ensures forall i :: 0 <= i < |rs| ==> rs[i] == Reading(stamps[i], m[stamps[i]])
  {
    seq(|stamps|, i requires 0 <= i < |stamps| => Reading(stamps[i], m[stamps[i]]))
  }

  predicate Falls(rs: seq<Reading>) {
    exists i :: 0 <= i < |rs| - 1 && rs[i + 1].energy < rs[i].energy
  }

  function ByTime(m: map<int, int>): seq<Reading> {
    var stamps := SortedSeq(m.Keys);
    IndexedMembers(stamps);
    Listed(stamps, m)
  }

  /** The ordered listing holds exactly the map's entries, in time order. */
  lemma ByTimeFacts(m: map<int, int>)
    ensures StrictTimes(ByTime(m))
    ensures forall i :: 0 <= i < |ByTime(m)| ==> ByTime(m)[i].at in m && ByTime(m)[i].energy == m[ByTime(m)[i].at]
  {
  }

  lemma ByTimeHas(m: map<int, int>, t: int)
    requires t in m
    ensures Reading(t, m[t]) in ByTime(m)
  {
  }

  lemma IndexedMembers(stamps: seq<int>)
    ensures forall i :: 0 <= i < |stamps| ==> stamps[i] in stamps
  {
  }

  function SampleStamps(s: Session, samples: map<int, int>, end: int): (stamps: seq<int>)
    ensures StrictlySorted(stamps)
    ensures forall t :: t in stamps <==> t in samples && InWindow(t, s.startedAt, end)
  {
    SortedSeq(WindowStamps(samples, s.startedAt, end))
  }

  /** The two session ends, known before any sample. */
  function Ends(s: Session, stop: int, end: int): map<int, int> {
    map[s.startedAt := s.meterStart][end := stop]
  }

  /** `_meter_values`. */
  function MeterValues(s: Session, samples: map<int, int>, end: int): Result<seq<Reading>, Reason> {
    if s.meterStart < 0 || s.meterStop.None? || s.meterStop.value < 0 then Err(InvalidMeter)
    else
      match Merge(Ends(s, s.meterStop.value, end), samples, SampleStamps(s, samples, end))
      case Err(e) => Err(e)
      case Ok(m) => if Falls(ByTime(m)) then Err(MeterDecreased) else Ok(ByTime(m))
  }

  lemma {:induction false} MergeErrorPersists(
    readings: map<int, int>, samples: map<int, int>, stamps: seq<int>, n: nat)
    requires n <= |stamps| && forall t :: t in stamps ==> t in samples
    requires forall t :: t in stamps[..n] ==> t in samples
    requires Merge(readings, samples, stamps[..n]).Err?
    ensures Merge(readings, samples, stamps) == Merge(readings, samples, stamps[..n])
  {
    if n < |stamps| {
      var init := stamps[..|stamps| - 1];
      assert init[..n] == stamps[..n];
      assert forall t :: t in init ==> t in stamps;
      MergeErrorPersists(readings, samples, init, n);
    } else {
      assert stamps[..n] == stamps;
    }
  }

  method MergeSamples(ends: map<int, int>, samples: map<int, int>, stamps: seq<int>)
    returns (r: Result<map<int, int>, Reason>)
    requires forall t :: t in stamps ==> t in samples
    ensures r == Merge(ends, samples, stamps)
  {
    var readings := ends;
    for i := 0 to |stamps|
      invariant Merge(ends, samples, stamps[..i]) == Ok(readings)
    {
      var t := stamps[i];
      assert stamps[..i + 1][..i] == stamps[..i];
      if samples[t] < 0 {
        MergeErrorPersists(ends, samples, stamps, i + 1);
        return Err(InvalidMeter);
      }
      if t in readings && readings[t] != samples[t] {
        MergeErrorPersists(ends, samples, stamps, i + 1);
        return Err(ConflictingMeter);
      }
      readings := readings[t := samples[t]];
    }
    assert stamps[..|stamps|] == stamps;
    return Ok(readings);
  }

  method ReadMeterValues(s: Session, samples: map<int, int>, end: int) returns (r: Result<seq<Reading>, Reason>)
    ensures r == MeterValues(s, samples, end)
  {
    if s.meterStart < 0 || s.meterStop.None? || s.meterStop.value < 0 {
      return Err(InvalidMeter);
    }
    var merged := MergeSamples(Ends(s, s.meterStop.value, end), samples, SampleStamps(s, samples, end));
    if merged.Err? {
      return Err(merged.error);
    }
    var rs := ByTime(merged.value);
    if Falls(rs) {
      return Err(MeterDecreased);
    }
    return Ok(rs);
  }

  // ---------- what readings guarantee ----------

  lemma {:induction false} MergeContents(readings: map<int, int>, samples: map<int, int>, stamps: seq<int>)
    requires forall t :: t in stamps ==> t in samples
    requires Merge(readings, samples, stamps).Ok?
    ensures var m := Merge(readings, samples, stamps).value;
            && (forall t :: t in m <==> t in readings || t in stamps)
            && (forall t :: t in readings ==> m[t] == readings[t])
            && (forall t :: t in stamps ==> m[t] == samples[t] >= 0)
  {
    if stamps == [] {
    } else {
      var init, last := stamps[..|stamps| - 1], stamps[|stamps| - 1];
      assert stamps == init + [last];
      assert forall t :: t in stamps <==> t in init || t == last;
      MergeContents(readings, samples, init);
    }
  }

  /** The only rejections while merging: a negative sample, or one that contradicts a session end. */
  lemma {:induction false} MergeSucceeds(readings: map<int, int>, samples: map<int, int>, stamps: seq<int>)
    requires StrictlySorted(stamps) && forall t :: t in stamps ==> t in samples
    ensures Merge(readings, samples, stamps).Ok? <==>
            forall t :: t in stamps ==> samples[t] >= 0 && (t in readings ==> readings[t] == samples[t])
    ensures var r := Merge(readings, samples, stamps);
            r.Err? ==> r.error.ConflictingMeter? || (r.error.InvalidMeter? && exists t :: t in stamps && samples[t] < 0)
  {
    if stamps == [] {
    } else {
      var init, last := stamps[..|stamps| - 1], stamps[|stamps| - 1];
      assert stamps == init + [last] && last !in init && last in stamps;
      assert forall t :: t in stamps <==> t in init || t == last;
      MergeSucceeds(readings, samples, init);
      if Merge(readings, samples, init).Ok? {
        MergeContents(readings, samples, init);
      }
    }
  }

  /** The merged map holds the two session ends with their meters, and nothing outside them. */
  lemma {:induction false} MergedSpan(s: Session, stop: int, samples: map<int, int>, stamps: seq<int>, end: int)
    requires s.startedAt < end && StrictlySorted(stamps)
    requires forall t :: t in stamps ==> t in samples && InWindow(t, s.startedAt, end)
    requires Merge(Ends(s, stop, end), samples, stamps).Ok?
    ensures var m := Merge(Ends(s, stop, end), samples, stamps).value;
            && s.startedAt in m && m[s.startedAt] == s.meterStart
            && end in m && m[end] == stop
            && forall t :: t in m ==> s.startedAt <= t <= end
  {
    MergeContents(Ends(s, stop, end), samples, stamps);
  }

  /** Accepted readings run from the start meter to the stop meter, in time order, never falling. */
  lemma ReadingsGood(s: Session, samples: map<int, int>, end: int)
    requires s.startedAt < end && MeterValues(s, samples, end).Ok?
    ensures var rs := MeterValues(s, samples, end).value;
            && GoodReadings(rs)
            && rs[0] == Reading(s.startedAt, s.meterStart)
            && s.meterStop.Some? && rs[|rs| - 1] == Reading(end, s.meterStop.value)
  {
    MergedGood(s, s.meterStop.value, samples, SampleStamps(s, samples, end), end);
  }

  lemma {:induction false} MergedGood(s: Session, stop: int, samples: map<int, int>, stamps: seq<int>, end: int)
    requires s.startedAt < end && StrictlySorted(stamps)
    requires forall t :: t in stamps ==> t in samples && InWindow(t, s.startedAt, end)
    requires Merge(Ends(s, stop, end), samples, stamps).Ok?
    requires !Falls(ByTime(Merge(Ends(s, stop, end), samples, stamps).value))
    ensures var rs := ByTime(Merge(Ends(s, stop, end), samples, stamps).value);
            && GoodReadings(rs)
            && rs[0] == Reading(s.startedAt, s.meterStart) && rs[|rs| - 1] == Reading(end, stop)
  {
    MergedSpan(s, stop, samples, stamps, end);
    OrderedGood(Merge(Ends(s, stop, end), samples, stamps).value, s.startedAt, end);
  }

  lemma OrderedGood(m: map<int, int>, lo: int, hi: int)
    requires lo in m && hi in m && !Falls(ByTime(m))
    requires forall t :: t in m ==> lo <= t <= hi
    ensures var rs := ByTime(m);
            GoodReadings(rs) && rs[0] == Reading(lo, m[lo]) && rs[|rs| - 1] == Reading(hi, m[hi])
  {
    ByTimeFacts(m);
    ByTimeHas(m, lo);
    ByTimeHas(m, hi);
    NotFallingIsNondecreasing(ByTime(m));
    EndsFirstAndLast(ByTime(m), Reading(lo, m[lo]), Reading(hi, m[hi]));
  }

  lemma EndsFirstAndLast(rs: seq<Reading>, a: Reading, b: Reading)
    requires StrictTimes(rs) && a in rs && b in rs && forall i :: 0 <= i < |rs| ==> a.at <= rs[i].at <= b.at
    ensures rs[0] == a && rs[|rs| - 1] == b
  {
    var i :| 0 <= i < |rs| && rs[i] == a;
    var j :| 0 <= j < |rs| && rs[j] == b;
  }

  lemma {:induction false} NotFallingIsNondecreasing(rs: seq<Reading>)
    requires !Falls(rs)
    ensures Nondecreasing(rs)
  {
    if rs == [] {
    } else {
      var init := rs[..|rs| - 1];
      assert !Falls(init) by {
        forall i | 0 <= i < |init| - 1 ensures init[i + 1].energy >= init[i].energy {
          assert init[i] == rs[i] && init[i + 1] == rs[i + 1];
        }
      }
      NotFallingIsNondecreasing(init);
      if |rs| > 1 {
        assert rs[|rs| - 2].energy <= rs[|rs| - 2 + 1].energy;
        forall i, j | 0 <= i <= j < |rs| ensures rs[i].energy <= rs[j].energy {
          if i < |init| {
            assert init[i].energy <= init[Min(j, |init| - 1)].energy <= init[|init| - 1].energy;
          }
        }
      }
    }
  }

  // ---------- tariffs ----------

  /** `lay_bieu_gia_hieu_luc`: the version with the latest effective date not after the day. */
  function EffectiveTariff(tariffs: seq<Tariff>, day: int): Option<Tariff> {
    if tariffs == [] then None
    else
      var best := EffectiveTariff(tariffs[..|tariffs| - 1], day);
      var t := tariffs[|tariffs| - 1];
      if t.effectiveFrom <= day && (best.None? || best.value.effectiveFrom < t.effectiveFrom) then Some(t) else best
  }

  lemma {:induction false} EffectiveIsLatest(tariffs: seq<Tariff>, day: int)
    ensures var r := EffectiveTariff(tariffs, day);
            && (r.None? <==> forall i :: 0 <= i < |tariffs| ==> tariffs[i].effectiveFrom > day)
            && (r.Some? ==>
                  && r.value in tariffs && r.value.effectiveFrom <= day
                  && forall i :: 0 <= i < |tariffs| && tariffs[i].effectiveFrom <= day ==>
                       tariffs[i].effectiveFrom <= r.value.effectiveFrom)
  {
    if tariffs == [] {
    } else {
      var init := tariffs[..|tariffs| - 1];
      EffectiveIsLatest(init, day);
      assert forall i :: 0 <= i < |init| ==> init[i] == tariffs[i];
    }
  }

  function FrameOf(b: Bands.Band, id: int): Frame
    requires Bands.Proper(b)
  {
    Frame(b.startMin * 60, b.endMin * 60, b.rate, id, b.caption)
  }

  function FramesOf(bands: seq<Bands.Band>, id: int): (frames: seq<Frame>)
    requires forall i :: 0 <= i < |bands| ==> Bands.Proper(bands[i])
    ensures |frames| == |bands|
    ensures forall i :: 0 <= i < |bands| ==> frames[i] == FrameOf(bands[i], id)
  {
    seq(|bands|, i requires 0 <= i < |bands| => FrameOf(bands[i], id))
  }

  function RuleOf(t: Tariff): IdleFee.IdleRule { IdleFee.IdleRule(t.id, t.idleRate, t.grace) }

  datatype Pricing = Pricing(versions: map<int, IdleFee.IdleRule>, frames: DailyTariffs)

  /** One day's tariff version and its validated full-day frames. */
  ghost function DayPricing(tariffs: seq<Tariff>, day: int): Result<(Tariff, seq<Frame>), Reason> {
    match EffectiveTariff(tariffs, day)
    case None => Err(MissingTariff)
    case Some(t) =>
      match Bands.CheckedBands(t.bands)
      case Err(_) => Err(InvalidTariff)
      case Ok(bands) =>
        Bands.CheckedBandsTile(t.bands);
        Ok((t, FramesOf(bands, t.id)))
  }

  /** `_daily_tariffs`: every day in order, stopping at the first without a usable tariff. */
  ghost function PricingThrough(tariffs: seq<Tariff>, first: int, day: int): Result<Pricing, Reason>
    decreases day - first
  {
    if day < first then Ok(Pricing(map[], map[]))
    else
      match PricingThrough(tariffs, first, day - 1)
      case Err(e) => Err(e)
      case Ok(p) =>
        match DayPricing(tariffs, day)
        case Err(e) => Err(e)
        case Ok(priced) => Ok(AddDay(p, day, priced))
  }

  function AddDay(p: Pricing, day: int, priced: (Tariff, seq<Frame>)): Pricing {
    Pricing(p.versions[day := RuleOf(priced.0)], p.frames[day := priced.1])
  }

  ghost function DailyPricing(tariffs: seq<Tariff>, start: int, end: int, off: int): Result<Pricing, Reason> {
    PricingThrough(tariffs, LocalDate(start, off), LocalDate(end - 1, off))
  }

  lemma {:induction false} PricingErrorPersists(tariffs: seq<Tariff>, first: int, day: int, last: int)
    requires day <= last && PricingThrough(tariffs, first, day).Err?
    ensures PricingThrough(tariffs, first, last) == PricingThrough(tariffs, first, day)
    decreases last - day
  {
    if day == last {
    } else {
      PricingErrorPersists(tariffs, first, day, last - 1);
      assert first <= day;
    }
  }

  /** The loaded days are exactly those in the span, each with its own version and frames. */
  lemma {:induction false} PricingDay(tariffs: seq<Tariff>, first: int, last: int, p: Pricing, d: int)
    requires PricingThrough(tariffs, first, last) == Ok(p)
    ensures (d in p.versions <==> first <= d <= last) && (d in p.frames <==> first <= d <= last)
    ensures first <= d <= last ==>
              && DayPricing(tariffs, d).Ok?
              && p.versions[d] == RuleOf(DayPricing(tariffs, d).value.0) && p.frames[d] == DayPricing(tariffs, d).value.1
    decreases last - first
  {
    if last < first {
    } else {
      var before := PricingThrough(tariffs, first, last - 1).value;
      var priced := DayPricing(tariffs, last).value;
      assert p == AddDay(before, last, priced);
      PricingDay(tariffs, first, last - 1, before, d);
    }
  }

  lemma FramesFillDay(tariffs: seq<Tariff>, day: int)
    requires DayPricing(tariffs, day).Ok?
    ensures DailyTotals.FullDay(DayPricing(tariffs, day).value.1)
  {
    var t := EffectiveTariff(tariffs, day).value;
    Bands.CheckedBandsTile(t.bands);
    var bands := Bands.CheckedBands(t.bands).value;
    var frames := FramesOf(bands, t.id);
    assert forall i :: 0 <= i < |bands| ==> Bands.Proper(bands[i]) && frames[i] == FrameOf(bands[i], t.id);
  }

  /** A priced span has full-day frames and a version on every local day it touches. */
  lemma PricingCovers(tariffs: seq<Tariff>, start: int, end: int, until: int, off: int)
    requires start < end <= until && DailyPricing(tariffs, start, until, off).Ok?
    ensures DailyTotals.Covered(start, end, DailyPricing(tariffs, start, until, off).value.frames, off)
    ensures IdleFee.DaysKnown(start, end, DailyPricing(tariffs, start, until, off).value.versions, off)
  {
    var p := DailyPricing(tariffs, start, until, off).value;
    DateMonotone(end - 1, until - 1, off);
    forall d | LocalDate(start, off) <= d <= LocalDate(end - 1, off)
      ensures DailyTotals.FullDay(FramesOn(p.frames, d)) && d in p.versions
    {
      PricingDay(tariffs, LocalDate(start, off), LocalDate(until - 1, off), p, d);
      FramesFillDay(tariffs, d);
    }
  }

  /** Every day up to the priced end has a version. */
  lemma PricedDaysKnown(tariffs: seq<Tariff>, start: int, until: int, x: int, off: int, p: Pricing)
    requires DailyPricing(tariffs, start, until, off) == Ok(p) && x <= until
    ensures IdleFee.DaysKnown(start, x, p.versions, off)
  {
    DateMonotone(x - 1, until - 1, off);
    forall d | LocalDate(start, off) <= d <= LocalDate(x - 1, off) ensures d in p.versions {
      PricingDay(tariffs, LocalDate(start, off), LocalDate(until - 1, off), p, d);
    }
  }

  /** Tariff identifiers are a primary key. */
  ghost predicate KeyedTariffs(tariffs: seq<Tariff>) {
    forall t, u :: t in tariffs && u in tariffs && t.id == u.id ==> t == u
  }

  ghost predicate CacheSound(cached: map<int, seq<Frame>>, tariffs: seq<Tariff>) {
    forall t :: t in tariffs && t.id in cached ==>
      && Bands.CheckedBands(t.bands).Ok? && Bands.TilesDay(Bands.CheckedBands(t.bands).value)
      && cached[t.id] == FramesOf(Bands.CheckedBands(t.bands).value, t.id)
  }

  /** One day of the loop: the effective version, its frames validated once and then cached. */
  method PriceDay(tariffs: seq<Tariff>, day: int, cached: map<int, seq<Frame>>)
    returns (r: Result<(Tariff, seq<Frame>), Reason>, cached': map<int, seq<Frame>>)
    requires KeyedTariffs(tariffs) && CacheSound(cached, tariffs)
    ensures CacheSound(cached', tariffs)
    ensures r == DayPricing(tariffs, day)
  {
    EffectiveIsLatest(tariffs, day);
    var selected := EffectiveTariff(tariffs, day);
    if selected.None? {
      return Err(MissingTariff), cached;
    }
    var t := selected.value;
    cached' := cached;
    if t.id !in cached {
      var normalized := Bands.ValidateBands(t.bands);
      if normalized.Err? {
        return Err(InvalidTariff), cached;
      }
      cached' := cached[t.id := FramesOf(normalized.value, t.id)];
    }
    return Ok((t, cached'[t.id])), cached';
  }

  /** The `while day <= last` loop. */
  method LoadDays(tariffs: seq<Tariff>, first: int, last: int) returns (r: Result<Pricing, Reason>)
    requires KeyedTariffs(tariffs)
    ensures r == PricingThrough(tariffs, first, last)
  {
    if last < first {
      return Ok(Pricing(map[], map[]));
    }
    var day := first;
    var cached: map<int, seq<Frame>> := map[];
    r := Ok(Pricing(map[], map[]));
    while day <= last
      invariant first <= day <= last + 1
      invariant r.Ok? && PricingThrough(tariffs, first, day - 1) == r
      invariant CacheSound(cached, tariffs)
    {
      r, cached := ExtendPricing(tariffs, first, day, r.value, cached);
      if r.Err? {
        PricingErrorPersists(tariffs, first, day, last);
        return;
      }
      day := day + 1;
    }
  }

  method ExtendPricing(tariffs: seq<Tariff>, ghost first: int, day: int, pricing: Pricing, cached: map<int, seq<Frame>>)
    returns (r: Result<Pricing, Reason>, cached': map<int, seq<Frame>>)
    requires KeyedTariffs(tariffs) && CacheSound(cached, tariffs)
    requires first <= day && PricingThrough(tariffs, first, day - 1) == Ok(pricing)
    ensures CacheSound(cached', tariffs)
    ensures r == PricingThrough(tariffs, first, day)
  {
    var priced;
    priced, cached' := PriceDay(tariffs, day, cached);
    r := if priced.Ok? then Ok(AddDay(pricing, day, priced.value)) else Err(priced.error);
  }

  method LoadDailyTariffs(tariffs: seq<Tariff>, start: int, end: int, off: int) returns (r: Result<Pricing, Reason>)
    requires KeyedTariffs(tariffs)
    ensures r == DailyPricing(tariffs, start, end, off)
  {
    r := LoadDays(tariffs, LocalDate(start, off), LocalDate(end - 1, off));
  }
}
