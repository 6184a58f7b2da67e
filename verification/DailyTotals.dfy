/** Conservation of energy and money through segmentation and the per-day grouping. */
module DailyTotals {
  import opened Prelude
  import opened Calendar
  import opened Interpolation
  import opened Segmentation
  import opened SegmentationProofs
  import Money

  // ---------- full-day tariffs ----------

  /** Bands in order, from 00:00 to 24:00, each starting where the previous one ends. */
  ghost predicate FullDay(frames: seq<Frame>) {
    && frames != []
    && frames[0].startSec == 0 && frames[|frames| - 1].endSec == 86400
    && (forall i :: 0 <= i < |frames| ==> frames[i].startSec < frames[i].endSec)
    && (forall i :: 0 <= i < |frames| - 1 ==> frames[i].endSec == frames[i + 1].startSec)
  }

  ghost predicate Covered(start: int, end: int, tariffs: DailyTariffs, off: int) {
    forall d :: LocalDate(start, off) <= d <= LocalDate(end - 1, off) ==> FullDay(FramesOn(tariffs, d))
  }

  lemma {:induction false} BandOfTheDay(frames: seq<Frame>, d: int, t: int, off: int)
    requires FullDay(frames) && LocalDate(t, off) == d
    ensures FrameAt(frames, d, t, off).Some?
  {
    DateBracket(t, off);
    var i := 0;
    while FrameEnd(d, frames[i], off) <= t
      invariant 0 <= i < |frames| && FrameStart(d, frames[i], off) <= t
      decreases |frames| - i
    {
      i := i + 1;
    }
    assert frames[i] in frames && Applies(frames[i], d, t, off);
  }

  lemma CoveredInstant(t: int, start: int, end: int, tariffs: DailyTariffs, off: int)
    requires start <= t < end && Covered(start, end, tariffs, off)
    ensures AttributionAt(t, tariffs, off).Some?
  {
    DateMonotone(start, t, off);
    DateMonotone(t, end - 1, off);
    BandOfTheDay(FramesOn(tariffs, LocalDate(t, off)), LocalDate(t, off), t, off);
  }

  // ---------- totals ----------

  function EnergyTotal(segments: seq<Segment>): int {
    if segments == [] then 0 else EnergyTotal(segments[..|segments| - 1]) + segments[|segments| - 1].energy
  }

  function AmountTotal(segments: seq<Segment>): int {
    if segments == [] then 0 else AmountTotal(segments[..|segments| - 1]) + segments[|segments| - 1].amount
  }

  ghost function Unit(): Weight { (a: Attribution) => 1 }

  ghost function PriceWeight(): Weight { (a: Attribution) => a.price }

  ghost function DayIndicator(d: int): Weight { (a: Attribution) => if a.date == d then 1 else 0 }

  lemma {:induction false} EnergyIsUnitWeight(segments: seq<Segment>)
    ensures EnergyTotal(segments) == SegmentSum(segments, Unit())
  {
    if segments == [] {
    } else {
      EnergyIsUnitWeight(segments[..|segments| - 1]);
    }
  }

  /** With full-day tariffs every micro-Wh between the first and the last reading is billed once:
      neither the fallen-meter error nor an energy mismatch can arise. */
  lemma EnergyConserved(start: int, end: int, rs: seq<Reading>, tariffs: DailyTariffs, off: int)
    requires start < end && GoodReadings(rs) && rs[0].at == start && rs[|rs| - 1].at == end
    requires Covered(start, end, tariffs, off)
    ensures Segments(start, end, rs, tariffs, off).Ok?
    ensures EnergyTotal(Segments(start, end, rs, tariffs, off).value) == rs[|rs| - 1].energy - rs[0].energy
  {
    var w: Weight := Unit();
    SegmentsRefineInstants(start, end, rs, tariffs, off, w);
    EnergyIsUnitWeight(Segments(start, end, rs, tariffs, off).value);
    forall t | start <= t < end ensures WeightAt(t, tariffs, off, w) == 1 {
      CoveredInstant(t, start, end, tariffs, off);
    }
    InstantConstant(start, end, rs, tariffs, off, w, 1);
    ExactAtSample(0, rs);
    ExactAtSample(|rs| - 1, rs);
  }

  /** The exact price of the session: each microsecond's movement at that microsecond's rate. */
  ghost function ExactCost(start: int, end: int, rs: seq<Reading>, tariffs: DailyTariffs, off: int): int
    requires start <= end
  {
    InstantSum(start, end, rs, tariffs, off, PriceWeight())
  }

  lemma {:induction false} RoundingError(segments: seq<Segment>)
    requires forall s :: s in segments ==> s.amount == Money.RoundedVnd(s.energy, s.price)
    ensures WithinHalfDongEach(AmountTotal(segments), SegmentSum(segments, PriceWeight()), |segments|)
  {
    if segments == [] {
    } else {
      var init, s := segments[..|segments| - 1], segments[|segments| - 1];
      assert forall x :: x in init ==> x in segments;
      RoundingError(init);
      assert s in segments;
      Money.VndHalfDong(s.energy, s.price);
    }
  }

  /** At most half a dong for each of `n` rounded lines; `exact` is in micro-Wh times VND/kWh. */
  ghost predicate WithinHalfDongEach(amount: int, exact: int, n: nat) {
    2 * Abs(Money.UWH_PER_KWH * amount - exact) <= n * Money.UWH_PER_KWH
  }

  /** The billed energy amount is off the exact per-microsecond price by at most half a dong per segment. */
  lemma {:induction false} BillNearExactCost(
    start: int, end: int, rs: seq<Reading>, tariffs: DailyTariffs, off: int, segments: seq<Segment>)
    requires Spans(start, end, rs) && Segments(start, end, rs, tariffs, off) == Ok(segments)
    ensures WithinHalfDongEach(AmountTotal(segments), ExactCost(start, end, rs, tariffs, off), |segments|)
  {
    AmountsRounded(start, end, rs, tariffs, off);
    SegmentsRefineInstants(start, end, rs, tariffs, off, PriceWeight());
    RoundingError(segments);
  }

  lemma AmountsRounded(start: int, end: int, rs: seq<Reading>, tariffs: DailyTariffs, off: int)
    requires Spans(start, end, rs)
    ensures Segments(start, end, rs, tariffs, off).Ok?
    ensures forall s :: s in Segments(start, end, rs, tariffs, off).value ==>
              s.amount == Money.RoundedVnd(s.energy, s.price) && s.energy > 0
  {
    SegmentsAccountForSession(start, end, rs, tariffs, off);
    forall s | s in Segments(start, end, rs, tariffs, off).value
      ensures s.amount == Money.RoundedVnd(s.energy, s.price) && s.energy > 0
    {
      assert Faithful(s, rs, tariffs, off);
    }
  }

  // ---------- grouping by local day ----------

  datatype DayGroup = DayGroup(segments: seq<Segment>, energy: int, amount: int)

  function OnDate(segments: seq<Segment>, d: int): seq<Segment> {
    if segments == [] then []
    else
      var init, s := segments[..|segments| - 1], segments[|segments| - 1];
      if s.date == d then OnDate(init, d) + [s] else OnDate(init, d)
  }

  ghost function GroupOf(segments: seq<Segment>, d: int): DayGroup {
    DayGroup(OnDate(segments, d), EnergyTotal(OnDate(segments, d)), AmountTotal(OnDate(segments, d)))
  }

  lemma {:induction false} GroupGrows(init: seq<Segment>, s: Segment, d: int)
    ensures OnDate(init + [s], d) == if s.date == d then OnDate(init, d) + [s] else OnDate(init, d)
    ensures var g := GroupOf(init, d);
            GroupOf(init + [s], d) ==
              if s.date == d then DayGroup(g.segments + [s], g.energy + s.energy, g.amount + s.amount) else g
  {
    assert (init + [s])[..|init|] == init;
    assert (OnDate(init, d) + [s])[..|OnDate(init, d)|] == OnDate(init, d);
  }

  /** `tinh_tien_theo_ngay` after `chia_doan`: running totals per local date. */
  method GroupByDay(segments: seq<Segment>) returns (days: map<int, DayGroup>)
    ensures forall d :: d in days <==> OnDate(segments, d) != []
    ensures forall d :: d in days ==> days[d] == GroupOf(segments, d)
  {
    days := map[];
    for i := 0 to |segments|
      invariant forall d :: d in days <==> OnDate(segments[..i], d) != []
      invariant forall d :: d in days ==> days[d] == GroupOf(segments[..i], d)
    {
      var s := segments[i];
      assert segments[..i + 1] == segments[..i] + [s];
      forall d
        ensures OnDate(segments[..i + 1], d) ==
                if s.date == d then OnDate(segments[..i], d) + [s] else OnDate(segments[..i], d)
        ensures d != s.date ==> GroupOf(segments[..i + 1], d) == GroupOf(segments[..i], d)
      {
        GroupGrows(segments[..i], s, d);
      }
      GroupGrows(segments[..i], s, s.date);
      var group := if s.date in days then days[s.date] else DayGroup([], 0, 0);
      assert group == GroupOf(segments[..i], s.date);
      days := days[s.date := DayGroup(group.segments + [s], group.energy + s.energy, group.amount + s.amount)];
    }
    assert segments[..|segments|] == segments;
  }

  function SumOver(keys: set<int>, f: int -> int): int {
    if keys == {} then 0 else f(Least(keys)) + SumOver(keys - {Least(keys)}, f)
  }

  lemma {:induction false} SumOverAdd(keys: set<int>, f: int -> int, g: int -> int, k: int, delta: int)
    requires forall x :: x in keys ==> g(x) == f(x) + if x == k then delta else 0
    ensures SumOver(keys, g) == SumOver(keys, f) + if k in keys then delta else 0
  {
    if keys == {} {
    } else {
      SumOverAdd(keys - {Least(keys)}, f, g, k, delta);
    }
  }

  lemma {:induction false} SumOverZero(keys: set<int>, f: int -> int)
    requires forall x :: x in keys ==> f(x) == 0
    ensures SumOver(keys, f) == 0
  {
    if keys == {} {
    } else {
      SumOverZero(keys - {Least(keys)}, f);
    }
  }

  lemma {:induction false} DayTotalsGrow(init: seq<Segment>, s: Segment, days: set<int>)
    requires s.date in days
    ensures SumOver(days, d => EnergyTotal(OnDate(init + [s], d)))
         == SumOver(days, d => EnergyTotal(OnDate(init, d))) + s.energy
    ensures SumOver(days, d => AmountTotal(OnDate(init + [s], d)))
         == SumOver(days, d => AmountTotal(OnDate(init, d))) + s.amount
  {
    forall d
      ensures EnergyTotal(OnDate(init + [s], d)) == EnergyTotal(OnDate(init, d)) + (if d == s.date then s.energy else 0)
      ensures AmountTotal(OnDate(init + [s], d)) == AmountTotal(OnDate(init, d)) + (if d == s.date then s.amount else 0)
    {
      GroupGrows(init, s, d);
    }
    SumOverAdd(days, d => EnergyTotal(OnDate(init, d)), d => EnergyTotal(OnDate(init + [s], d)), s.date, s.energy);
    SumOverAdd(days, d => AmountTotal(OnDate(init, d)), d => AmountTotal(OnDate(init + [s], d)), s.date, s.amount);
  }

  /** Grouping loses no energy and no money: the day totals add up to the session totals. */
  lemma {:induction false} GroupingConserves(segments: seq<Segment>, days: set<int>)
    requires forall s :: s in segments ==> s.date in days
    ensures SumOver(days, d => EnergyTotal(OnDate(segments, d))) == EnergyTotal(segments)
    ensures SumOver(days, d => AmountTotal(OnDate(segments, d))) == AmountTotal(segments)
  {
    if segments == [] {
      SumOverZero(days, d => EnergyTotal(OnDate(segments, d)));
      SumOverZero(days, d => AmountTotal(OnDate(segments, d)));
    } else {
      var init, s := segments[..|segments| - 1], segments[|segments| - 1];
      assert s in segments && forall x :: x in init ==> x in segments;
      GroupingConserves(init, days);
      DayTotalsGrow(init, s, days);
      assert segments == init + [s];
    }
  }

  lemma {:induction false} EnergyOnDateIsIndicator(segments: seq<Segment>, d: int)
    ensures EnergyTotal(OnDate(segments, d)) == SegmentSum(segments, DayIndicator(d))
  {
    if segments == [] {
    } else {
      var init, s := segments[..|segments| - 1], segments[|segments| - 1];
      EnergyOnDateIsIndicator(init, d);
      assert (OnDate(init, d) + [s])[..|OnDate(init, d)|] == OnDate(init, d);
    }
  }

  lemma DayWeight(t: int, d: int, start: int, end: int, tariffs: DailyTariffs, off: int)
    requires start <= t < end && Covered(start, end, tariffs, off)
    ensures WeightAt(t, tariffs, off, DayIndicator(d))
         == if Midnight(d, off) <= t < Midnight(d + 1, off) then 1 else 0
  {
    CoveredInstant(t, start, end, tariffs, off);
    DateBracket(t, off);
  }

  /** A day's billed energy is the register's advance during that local day. */
  lemma DayEnergyIsDayMovement(start: int, end: int, d: int, rs: seq<Reading>, tariffs: DailyTariffs, off: int)
    requires Spans(start, end, rs) && Covered(start, end, tariffs, off)
    requires LocalDate(start, off) <= d <= LocalDate(end - 1, off)
    ensures Segments(start, end, rs, tariffs, off).Ok?
    ensures EnergyTotal(OnDate(Segments(start, end, rs, tariffs, off).value, d))
         == Register(Min(end, Midnight(d + 1, off)), rs) - Register(Max(start, Midnight(d, off)), rs)
  {
    var w := DayIndicator(d);
    SegmentsRefineInstants(start, end, rs, tariffs, off, w);
    EnergyOnDateIsIndicator(Segments(start, end, rs, tariffs, off).value, d);
    DateBracket(start, off);
    DateBracket(end - 1, off);
    var lo, hi := Max(start, Midnight(d, off)), Min(end, Midnight(d + 1, off));
    assert start <= lo <= hi <= end;
    forall t | start <= t < end
      ensures WeightAt(t, tariffs, off, w) == if lo <= t < hi then 1 else 0
    {
      DayWeight(t, d, start, end, tariffs, off);
    }
    InstantSplits(start, lo, end, rs, tariffs, off, w);
    InstantSplits(lo, hi, end, rs, tariffs, off, w);
    InstantConstant(start, lo, rs, tariffs, off, w, 0);
    InstantConstant(lo, hi, rs, tariffs, off, w, 1);
    InstantConstant(hi, end, rs, tariffs, off, w, 0);
  }
}
