/** For every valid manifest, production segmentation and the oracle name the same two segments. */
module OracleProofs {
  import opened Prelude
  import opened Calendar
  import opened Interpolation
  import opened Segmentation
  import opened Oracle
  import Money

  // ---------- half-even rounding ----------

  /** The rounded value is within half a unit. */
  lemma HalfEvenNear(num: nat, den: int)
    requires den > 0
    ensures var r := RoundHalfEven(num, den); r >= 0 && 2 * r * den - den <= 2 * num <= 2 * r * den + den
  {
    Money.DivMod(num, den);
    var whole, rem := num / den, num % den;
    var r := RoundHalfEven(num, den);
    if r == whole + 1 {
      assert 2 * r * den == 2 * (whole * den) + 2 * den;
    } else {
      assert 2 * r * den == 2 * (whole * den);
    }
  }

  lemma HalfBounds(a: int, b: int, r: int, s: int, den: int)
    requires den > 0 && a <= b && r > s
    requires 2 * r * den - den <= 2 * a && 2 * b <= 2 * s * den + den
    ensures a == b
  {
    Money.MulOrder(2 * s + 1, 2 * r, den);
    assert 2 * s * den + 2 * den <= 2 * r * den;
  }

  lemma HalfEvenMonotone(a: nat, b: nat, den: int)
    requires den > 0 && a <= b
    ensures RoundHalfEven(a, den) <= RoundHalfEven(b, den)
  {
    HalfEvenNear(a, den);
    HalfEvenNear(b, den);
    if RoundHalfEven(a, den) > RoundHalfEven(b, den) {
      HalfBounds(a, b, RoundHalfEven(a, den), RoundHalfEven(b, den), den);
    }
  }

  lemma HalfEvenExact(q: nat, den: int)
    requires den > 0
    ensures q * den >= 0 && RoundHalfEven(q * den, den) == q
  {
    Money.DivMod(q * den, den);
    var whole, rem := (q * den) / den, (q * den) % den;
    if whole < q {
      Money.MulOrder(whole, q, den);
    } else if whole > q {
      Money.MulOrder(q, whole, den);
    }
  }

  // ---------- readings ----------

  lemma EnergyOrder(m: Manifest, a: int, b: int)
    requires ValidContract(m) && 0 <= a <= b
    ensures Shown(m, a) <= Shown(m, b)
  {
    var e := m.energyWh * Money.UWH_PER_WH;
    assert e * a <= e * b by { if a < b { Money.MulOrder(a, b, e); } }
    assert e * a >= 0 by { Money.MulOrder(0, a, e); }
    HalfEvenMonotone(e * a, e * b, m.duration);
  }

  lemma PartMoves(e: int, b: int, d: int)
    requires 1000000 <= e && 60 <= b < d <= 3600
    ensures e * b >= 0 && 0 < RoundHalfEven(e * b, d) < e
  {
    Money.MulOrder(59, b, e);
    HalfEvenNear(e * b, d);
    var r := RoundHalfEven(e * b, d);
    assert e * b >= 60000000;
    assert r == 0 ==> 2 * r * d == 0;
    Money.MulOrder(b, d, e);
    assert e * b + e <= e * d;
    if r >= e {
      RoundedTooHigh(r, e, d);
    }
  }

  lemma RoundedTooHigh(r: int, e: int, d: int)
    requires r >= e && d > 0
    ensures 2 * r * d >= 2 * (e * d)
  {
    assert 2 * r * d == 2 * (r * d);
    if r > e {
      Money.MulOrder(e, r, d);
    }
  }

  /** Both parts of the session move the register. */
  lemma BothPartsMove(m: Manifest)
    requires ValidContract(m)
    ensures Shown(m, 0) < Shown(m, m.boundary) < Shown(m, m.duration)
  {
    var e := m.energyWh * Money.UWH_PER_WH;
    PartMoves(e, m.boundary, m.duration);
    HalfEvenExact(0, m.duration);
    HalfEvenExact(e, m.duration);
  }

  lemma OffsetsBounded(m: Manifest, k: int)
    requires ValidContract(m) && k in Offsets(m)
    ensures 0 <= k <= m.duration
  {
  }

  lemma OffsetsListed(m: Manifest) returns (offsets: seq<int>)
    requires ValidContract(m)
    ensures offsets == SortedSeq(Offsets(m)) && StrictlySorted(offsets)
    ensures forall i :: 0 <= i < |offsets| ==> 0 <= offsets[i] <= m.duration
    ensures 0 in offsets && m.boundary in offsets && m.duration in offsets
  {
    var all := Offsets(m);
    assert {0, m.boundary, m.duration} <= all;
    offsets := SortedSeq(all);
    forall i | 0 <= i < |offsets| ensures 0 <= offsets[i] <= m.duration {
      assert offsets[i] in offsets;
      OffsetsBounded(m, offsets[i]);
    }
  }

  lemma EndsListed(offsets: seq<int>, last: int)
    requires StrictlySorted(offsets) && 0 in offsets && last in offsets
    requires forall i :: 0 <= i < |offsets| ==> 0 <= offsets[i] <= last
    ensures offsets != [] && offsets[0] == 0 && offsets[|offsets| - 1] == last
  {
    var i :| 0 <= i < |offsets| && offsets[i] == 0;
    var k :| 0 <= k < |offsets| && offsets[k] == last;
  }

  lemma ReadingsAreGood(m: Manifest, offsets: seq<int>, rs: seq<Reading>)
    requires ValidContract(m) && StrictlySorted(offsets) && offsets != []
    requires forall i :: 0 <= i < |offsets| ==> 0 <= offsets[i] <= m.duration
    requires rs == ReadingsAt(m, offsets)
    ensures GoodReadings(rs)
  {
    forall i, j | 0 <= i <= j < |rs| ensures rs[i].energy <= rs[j].energy {
      EnergyOrder(m, offsets[i], offsets[j]);
    }
  }

  /** The facts both sides need: good readings from start to stop, with a sample at each cut. */
  ghost predicate Sampled(m: Manifest, rs: seq<Reading>)
    requires ValidContract(m)
  {
    && GoodReadings(rs) && rs[0].at == m.startedAt && rs[|rs| - 1].at == EndedAt(m)
    && ReadingAt(m.startedAt, rs) == Ok((Shown(m, 0), false))
    && ReadingAt(BoundaryAt(m), rs) == Ok((Shown(m, m.boundary), false))
    && ReadingAt(EndedAt(m), rs) == Ok((Shown(m, m.duration), false))
  }

  lemma SampleExact(m: Manifest, offsets: seq<int>, rs: seq<Reading>, offset: int)
    requires ValidContract(m) && forall i :: 0 <= i < |offsets| ==> 0 <= offsets[i] <= m.duration
    requires rs == ReadingsAt(m, offsets) && GoodReadings(rs) && offset in offsets && offset >= 0
    ensures ReadingAt(m.startedAt + offset * SECOND, rs) == Ok((Shown(m, offset), false))
  {
    var i :| 0 <= i < |offsets| && offsets[i] == offset;
    ExactAtSample(i, rs);
  }

  lemma SampledFrom(m: Manifest, offsets: seq<int>, rs: seq<Reading>)
    requires ValidContract(m) && StrictlySorted(offsets)
    requires forall i :: 0 <= i < |offsets| ==> 0 <= offsets[i] <= m.duration
    requires 0 in offsets && m.boundary in offsets && m.duration in offsets
    requires rs == ReadingsAt(m, offsets)
    ensures Sampled(m, rs)
  {
    EndsListed(offsets, m.duration);
    ReadingsAreGood(m, offsets, rs);
    SampleExact(m, offsets, rs, 0);
    SampleExact(m, offsets, rs, m.boundary);
    SampleExact(m, offsets, rs, m.duration);
  }

  lemma ReadingsSampled(m: Manifest) returns (rs: seq<Reading>)
    requires ValidContract(m)
    ensures rs == Readings(m) && Sampled(m, rs)
  {
    var offsets := OffsetsListed(m);
    rs := ReadingsAt(m, offsets);
    SampledFrom(m, offsets, rs);
  }

  // ---------- production ----------

  /** The fixture's tariff day: three bands meeting at the two boundary minutes. */
  ghost predicate ThreeBands(m: Manifest, frames: seq<Frame>) {
    && |frames| == 3
    && frames[0].startSec == 0 && frames[0].endSec == 60 * FirstBoundaryMinute(m) == frames[1].startSec
    && frames[1].endSec == 60 * SecondBoundaryMinute(m) == frames[2].startSec && frames[2].endSec == 86400
    && frames[0].price == m.rate0 && frames[1].price == m.rate1 && frames[2].price == m.rate2
  }

  /** The session inside its local day: it starts on a minute, meets the first boundary exactly, and ends
      two minutes before the second. */
  ghost predicate Placed(m: Manifest, d: int) {
    && LocalDate(m.startedAt, m.off) == d == LocalDate(EndedAt(m), m.off)
    && m.startedAt == Midnight(d, m.off) + LocalMinute(m) * MINUTE
    && BoundaryAt(m) == Midnight(d, m.off) + 60 * FirstBoundaryMinute(m) * SECOND
    && EndedAt(m) + 120 * SECOND <= Midnight(d, m.off) + 60 * SecondBoundaryMinute(m) * SECOND
    && 0 <= LocalMinute(m) && m.startedAt < BoundaryAt(m) < EndedAt(m)
    && EndedAt(m) < Midnight(d + 1, m.off)
  }

  lemma SessionPlaced(m: Manifest) returns (d: int)
    requires ValidContract(m)
    ensures Placed(m, d)
  {
    d := LocalDate(m.startedAt, m.off);
    var x := m.startedAt + m.off;
    var ended, later := EndedAt(m), m.startedAt + (m.duration + 120) * SECOND;
    DateMonotone(m.startedAt, ended, m.off);
    DateMonotone(ended, later, m.off);
    DateBracket(ended, m.off);
    MinuteAligned(x);
    assert m.boundary == 60 * (m.boundary / 60);
  }

  lemma MinuteAligned(x: int)
    requires x % MINUTE == 0
    ensures x % DAY == ((x % DAY) / MINUTE) * MINUTE && x == (x / DAY) * DAY + x % DAY
  {
    assert DAY == 1440 * MINUTE;
    assert x % DAY == x - (x / DAY) * 1440 * MINUTE;
  }

  lemma OnlyCuts(m: Manifest, tariffs: DailyTariffs, d: int, t: int)
    requires Placed(m, d) && ThreeBands(m, FramesOn(tariffs, d))
    ensures IsCut(t, m.startedAt, EndedAt(m), tariffs, m.off) <==> t == m.startedAt || t == BoundaryAt(m) || t == EndedAt(m)
  {
    var frames := FramesOn(tariffs, d);
    var start, ended, off := m.startedAt, EndedAt(m), m.off;
    forall f | f in frames && start < t < ended && (t == FrameStart(d, f, off) || t == FrameEnd(d, f, off))
      ensures t == BoundaryAt(m)
    {
      var i :| 0 <= i < 3 && frames[i] == f;
    }
    if t == BoundaryAt(m) {
      assert frames[0] in frames && t == FrameEnd(d, frames[0], off);
      assert IsBoundary(t, d, tariffs, off);
    }
  }

  lemma CutsListed(m: Manifest, tariffs: DailyTariffs, d: int)
    requires Placed(m, d) && ThreeBands(m, FramesOn(tariffs, d))
    ensures SortedSeq(Cuts(m.startedAt, EndedAt(m), tariffs, m.off)) == [m.startedAt, BoundaryAt(m), EndedAt(m)]
  {
    var cuts := Cuts(m.startedAt, EndedAt(m), tariffs, m.off);
    var three := {m.startedAt, BoundaryAt(m), EndedAt(m)};
    forall t ensures t in cuts <==> t in three {
      CutsMeaning(t, m.startedAt, EndedAt(m), tariffs, m.off);
      OnlyCuts(m, tariffs, d, t);
    }
    assert cuts == three;
    ThreeSorted(cuts, m.startedAt, BoundaryAt(m), EndedAt(m));
  }

  lemma MidpointIn(m: Manifest, d: int, a: int, b: int)
    requires Placed(m, d) && m.startedAt <= a < b <= EndedAt(m)
    ensures LocalDate(Midpoint(a, b), m.off) == d
  {
    DateMonotone(m.startedAt, Midpoint(a, b), m.off);
    DateMonotone(Midpoint(a, b), EndedAt(m), m.off);
  }

  lemma FirstPiece(m: Manifest, tariffs: DailyTariffs, d: int, rs: seq<Reading>) returns (s: Segment)
    requires ValidContract(m) && Placed(m, d) && ThreeBands(m, FramesOn(tariffs, d)) && Sampled(m, rs)
    ensures PieceOf(m.startedAt, BoundaryAt(m), rs, tariffs, m.off) == Ok(Some(s))
    ensures Fits(s, m.startedAt, BoundaryAt(m), Shown(m, m.boundary) - Shown(m, 0), m.rate0)
  {
    var frames := FramesOn(tariffs, d);
    var a, b := m.startedAt, BoundaryAt(m);
    MidpointIn(m, d, a, b);
    assert Applies(frames[0], d, Midpoint(a, b), m.off);
    BothPartsMove(m);
    s := PieceOf(a, b, rs, tariffs, m.off).value.value;
  }

  lemma {:induction false} SecondBandApplies(m: Manifest, frames: seq<Frame>, d: int, t: int)
    requires Placed(m, d) && ThreeBands(m, frames) && BoundaryAt(m) <= t < EndedAt(m)
    ensures FrameAt(frames, d, t, m.off) == Some(frames[1])
  {
    assert !Applies(frames[0], d, t, m.off) && Applies(frames[1], d, t, m.off);
    assert frames[1..][0] == frames[1];
  }

  lemma SecondPiece(m: Manifest, tariffs: DailyTariffs, d: int, rs: seq<Reading>) returns (s: Segment)
    requires ValidContract(m) && Placed(m, d) && ThreeBands(m, FramesOn(tariffs, d)) && Sampled(m, rs)
    ensures PieceOf(BoundaryAt(m), EndedAt(m), rs, tariffs, m.off) == Ok(Some(s))
    ensures Fits(s, BoundaryAt(m), EndedAt(m), Shown(m, m.duration) - Shown(m, m.boundary), m.rate1)
  {
    var a, b := BoundaryAt(m), EndedAt(m);
    MidpointIn(m, d, a, b);
    SecondBandApplies(m, FramesOn(tariffs, d), d, Midpoint(a, b));
    BothPartsMove(m);
    s := PieceOf(a, b, rs, tariffs, m.off).value.value;
  }

  /** What a production segment must say, exactly measured at both ends. */
  ghost predicate Fits(s: Segment, a: int, b: int, energy: int, price: int) {
    && s.from == a && s.to == b && s.energy == energy > 0 && s.price == price
    && s.amount == Money.RoundedVnd(energy, price) && !s.fromInterpolated && !s.toInterpolated
  }

  lemma OneMorePiece(
    points: seq<int>, n: nat, rs: seq<Reading>, tariffs: DailyTariffs, off: int, done: seq<Segment>, s: Segment)
    requires StrictlySorted(points) && 0 < n < |points|
    requires SegmentsUpTo(points, n - 1, rs, tariffs, off) == Ok(done)
    requires PieceOf(points[n - 1], points[n], rs, tariffs, off) == Ok(Some(s))
    ensures SegmentsUpTo(points, n, rs, tariffs, off) == Ok(done + [s])
  {
  }

  lemma {:induction false} PointsGiveSegments(
    a: int, c: int, points: seq<int>, rs: seq<Reading>, tariffs: DailyTariffs, off: int, segments: seq<Segment>)
    requires a < c && points == SortedSeq(Cuts(a, c, tariffs, off)) && points != []
    requires SegmentsUpTo(points, |points| - 1, rs, tariffs, off) == Ok(segments)
    ensures Segments(a, c, rs, tariffs, off) == Ok(segments)
  {
  }

  lemma {:induction false} TwoPieces(points: seq<int>, rs: seq<Reading>, tariffs: DailyTariffs, off: int, s0: Segment, s1: Segment)
    requires |points| == 3 && StrictlySorted(points)
    requires PieceOf(points[0], points[1], rs, tariffs, off) == Ok(Some(s0))
    requires PieceOf(points[1], points[2], rs, tariffs, off) == Ok(Some(s1))
    ensures SegmentsUpTo(points, 2, rs, tariffs, off) == Ok([s0, s1])
  {
    NoPiece(points, rs, tariffs, off);
    OneMorePiece(points, 1, rs, tariffs, off, [], s0);
    OneMorePiece(points, 2, rs, tariffs, off, [] + [s0], s1);
    assert [] + [s0] + [s1] == [s0, s1];
  }

  lemma {:induction false} NoPiece(points: seq<int>, rs: seq<Reading>, tariffs: DailyTariffs, off: int)
    requires StrictlySorted(points) && points != []
    ensures SegmentsUpTo(points, 0, rs, tariffs, off) == Ok([])
  {
  }

  lemma ProductionSegments(m: Manifest, tariffs: DailyTariffs, rs: seq<Reading>) returns (s0: Segment, s1: Segment)
    requires ValidContract(m) && Sampled(m, rs)
    requires ThreeBands(m, FramesOn(tariffs, LocalDate(m.startedAt, m.off)))
    ensures Segments(m.startedAt, EndedAt(m), rs, tariffs, m.off) == Ok([s0, s1])
    ensures Fits(s0, m.startedAt, BoundaryAt(m), Shown(m, m.boundary) - Shown(m, 0), m.rate0)
    ensures Fits(s1, BoundaryAt(m), EndedAt(m), Shown(m, m.duration) - Shown(m, m.boundary), m.rate1)
  {
    var d := SessionPlaced(m);
    CutsListed(m, tariffs, d);
    s0 := FirstPiece(m, tariffs, d, rs);
    s1 := SecondPiece(m, tariffs, d, rs);
    var points := [m.startedAt, BoundaryAt(m), EndedAt(m)];
    TwoPieces(points, rs, tariffs, m.off, s0, s1);
    PointsGiveSegments(m.startedAt, EndedAt(m), points, rs, tariffs, m.off, [s0, s1]);
  }

  // ---------- the oracle ----------

  /** Where a sample stands, the unrounded line passes through it. */
  lemma {:induction false} AtSample(stamp: int, samples: seq<Reading>, k: nat)
    requires ValidSamples(samples) && |samples| >= 2 && k < |samples| && samples[k].at == stamp
    ensures At(stamp, samples) == Some(samples[k].energy as real / 1000000.0)
  {
    if k == 0 {
      MixedEnds(samples[0], samples[1]);
    } else if k == 1 {
      MixedEnds(samples[0], samples[1]);
    } else {
      ValidSamplesSorted(samples, 1, k);
      AtSample(stamp, samples[1..], k - 1);
    }
  }

  lemma MixedEnds(left: Reading, right: Reading)
    requires left.at < right.at
    ensures Mixed(left, right, left.at) == left.energy as real / 1000000.0
    ensures Mixed(left, right, right.at) == right.energy as real / 1000000.0
  {
    var span := (right.at - left.at) as real;
    assert span / span == 1.0;
    assert (right.energy - left.energy) as real * 1.0 == right.energy as real - left.energy as real;
  }

  lemma {:induction false} ValidSamplesSorted(samples: seq<Reading>, i: nat, k: nat)
    requires ValidSamples(samples) && i < k < |samples|
    ensures samples[i].at < samples[k].at
  {
    if k == i + 1 {
    } else {
      ValidSamplesSorted(samples, i, k - 1);
    }
  }

  lemma {:induction false} AtReading(stamp: int, samples: seq<Reading>, energy: int)
    requires GoodReadings(samples) && |samples| >= 2 && ReadingAt(stamp, samples) == Ok((energy, false))
    ensures ValidSamples(samples) && At(stamp, samples) == Some(energy as real / 1000000.0)
  {
    var k := FirstAtOrAfter(stamp, samples, 0);
    AtSample(stamp, samples, k);
  }

  lemma {:induction false} HalfUpIsRounded(energy: int, rate: int)
    requires energy > 0 && rate > 0
    ensures HalfUp((energy as real / 1000000.0) * rate as real / 1000.0) == Money.RoundedVnd(energy, rate)
  {
    var num := energy * rate;
    assert num > 0 by { Money.MulOrder(0, energy, rate); }
    var r := Money.RoundedVnd(energy, rate);
    Money.RoundIsNearest(num, Money.UWH_PER_KWH);
    RealProduct(energy, rate);
    FloorOfHalf(num, r);
  }

  lemma RealProduct(energy: int, rate: int)
    ensures (energy as real / 1000000.0) * rate as real / 1000.0 == (energy * rate) as real / 1000000000.0
  {
    assert (energy * rate) as real == energy as real * rate as real;
  }

  lemma FloorOfHalf(num: int, r: int)
    requires num > 0 && Money.IsNearest(r, num, 1000000000)
    ensures HalfUp(num as real / 1000000000.0) == r
  {
    var x := num as real / 1000000000.0;
    assert r as real <= x + 0.5 < r as real + 1.0;
  }

  // ---------- agreement ----------

  /** A production segment and an oracle segment name the same bounds, energy, rate and amount. */
  ghost predicate Agree(s: Segment, e: Expected) {
    && s.from == e.start && s.to == e.end && s.energy as real / 1000000.0 == e.energyWh
    && s.price == e.rate && s.amount == e.amount
  }

  lemma PriceAgrees(s: Segment, a: int, b: int, ea: int, eb: int, rate: int, wh: real)
    requires Fits(s, a, b, eb - ea, rate) && rate > 0 && wh == eb as real / 1000000.0 - ea as real / 1000000.0
    ensures Agree(s, PricedPiece(a, b, wh, rate))
  {
    assert wh == (eb - ea) as real / 1000000.0;
    HalfUpIsRounded(eb - ea, rate);
  }

  lemma PieceAgrees(s: Segment, a: int, b: int, ea: int, eb: int, rate: int, rs: seq<Reading>) returns (e: Expected)
    requires ValidSamples(rs) && rate > 0 && Fits(s, a, b, eb - ea, rate)
    requires At(a, rs) == Some(ea as real / 1000000.0) && At(b, rs) == Some(eb as real / 1000000.0)
    ensures ExpectedPiece(a, b, rate, rs) == Ok(e) && Agree(s, e)
  {
    var wh := eb as real / 1000000.0 - ea as real / 1000000.0;
    PriceAgrees(s, a, b, ea, eb, rate, wh);
    e := PricedPiece(a, b, wh, rate);
  }

  lemma {:induction false} OracleReads(m: Manifest, rs: seq<Reading>)
    requires ValidContract(m) && Sampled(m, rs)
    ensures ValidSamples(rs)
    ensures At(m.startedAt, rs) == Some(Shown(m, 0) as real / 1000000.0)
    ensures At(BoundaryAt(m), rs) == Some(Shown(m, m.boundary) as real / 1000000.0)
    ensures At(EndedAt(m), rs) == Some(Shown(m, m.duration) as real / 1000000.0)
  {
    AtReading(m.startedAt, rs, Shown(m, 0));
    AtReading(BoundaryAt(m), rs, Shown(m, m.boundary));
    AtReading(EndedAt(m), rs, Shown(m, m.duration));
  }

  lemma OracleSegments(m: Manifest, rs: seq<Reading>, s0: Segment, s1: Segment) returns (e0: Expected, e1: Expected)
    requires ValidContract(m) && Sampled(m, rs)
    requires Fits(s0, m.startedAt, BoundaryAt(m), Shown(m, m.boundary) - Shown(m, 0), m.rate0)
    requires Fits(s1, BoundaryAt(m), EndedAt(m), Shown(m, m.duration) - Shown(m, m.boundary), m.rate1)
    ensures ExpectedOf(m, rs) == Ok([e0, e1]) && Agree(s0, e0) && Agree(s1, e1)
  {
    OracleReads(m, rs);
    e0 := PieceAgrees(s0, m.startedAt, BoundaryAt(m), Shown(m, 0), Shown(m, m.boundary), m.rate0, rs);
    e1 := PieceAgrees(s1, BoundaryAt(m), EndedAt(m), Shown(m, m.boundary), Shown(m, m.duration), m.rate1, rs);
  }

  lemma ShownTotal(m: Manifest)
    requires ValidContract(m)
    ensures Shown(m, m.duration) - Shown(m, 0) == m.energyWh * Money.UWH_PER_WH
  {
    HalfEvenExact(0, m.duration);
    HalfEvenExact(m.energyWh * Money.UWH_PER_WH, m.duration);
  }

  /** For every valid manifest, under its three-band tariff, production cuts the manifest's readings into
      exactly the oracle's two segments. */
  lemma OracleAgrees(m: Manifest, tariffs: DailyTariffs)
    returns (s0: Segment, s1: Segment, e0: Expected, e1: Expected)
    requires ValidContract(m) && ThreeBands(m, FramesOn(tariffs, LocalDate(m.startedAt, m.off)))
    ensures Segments(m.startedAt, EndedAt(m), Readings(m), tariffs, m.off) == Ok([s0, s1])
    ensures Readings(m) != [] && ExpectedOf(m, Readings(m)) == Ok([e0, e1])
    ensures Agree(s0, e0) && Agree(s1, e1)
    ensures s0.energy + s1.energy == m.energyWh * Money.UWH_PER_WH
  {
    var rs := ReadingsSampled(m);
    s0, s1 := ProductionSegments(m, tariffs, rs);
    e0, e1 := OracleSegments(m, rs, s0, s1);
    ShownTotal(m);
  }

  // ---------- what the oracle refuses ----------

  lemma {:induction false} Bracketed(stamp: int, samples: seq<Reading>)
    requires ValidSamples(samples) && |samples| >= 2 && samples[0].at <= stamp <= samples[|samples| - 1].at
    ensures At(stamp, samples).Some?
  {
    if samples[0].at <= stamp <= samples[1].at {
    } else {
      var tail := samples[1..];
      forall i | 0 <= i < |tail| - 1 ensures tail[i].at < tail[i + 1].at && tail[i].energy <= tail[i + 1].energy {
        assert tail[i] == samples[i + 1] && tail[i + 1] == samples[i + 2];
      }
      Bracketed(stamp, tail);
    }
  }

  /** Time moves on from sample to sample, and the register does not fall. */
  ghost predicate NeverBack(samples: seq<Reading>) {
    forall i :: 0 < i < |samples| ==> samples[i - 1].at < samples[i].at && samples[i - 1].energy <= samples[i].energy
  }

  lemma OrderedIff(samples: seq<Reading>)
    ensures ValidSamples(samples) <==> NeverBack(samples)
  {
    if ValidSamples(samples) {
      forall i | 0 < i < |samples| ensures samples[i - 1].at < samples[i].at && samples[i - 1].energy <= samples[i].energy {
        assert samples[i - 1 + 1] == samples[i];
      }
    }
    if NeverBack(samples) {
      forall i | 0 <= i < |samples| - 1
        ensures samples[i].at < samples[i + 1].at && samples[i].energy <= samples[i + 1].energy
      {
        assert samples[i + 1 - 1] == samples[i];
      }
    }
  }

  /** The oracle refuses samples that do not begin at the start and end at the stop, and samples out of order; it
      prices every other list, in two pieces that meet at the boundary. */
  lemma OracleDecided(m: Manifest, samples: seq<Reading>)
    requires samples != [] && 0 <= m.boundary <= m.duration && 0 < m.duration
    ensures var r := ExpectedOf(m, samples);
            var ends := samples[0].at == m.startedAt && samples[|samples| - 1].at == EndedAt(m);
            && (r == Err(WrongEnds) <==> !ends) && (r == Err(Unordered) <==> ends && !NeverBack(samples))
            && (r.Ok? <==> ends && NeverBack(samples))
            && (r.Ok? ==>
                  && |r.value| == 2 && r.value[0].start == m.startedAt && r.value[1].end == EndedAt(m)
                  && r.value[0].end == r.value[1].start == BoundaryAt(m)
                  && r.value[0].rate == m.rate0 && r.value[1].rate == m.rate1)
  {
    OrderedIff(samples);
    if samples[0].at == m.startedAt && samples[|samples| - 1].at == EndedAt(m) && ValidSamples(samples) {
      Bracketed(m.startedAt, samples);
      Bracketed(BoundaryAt(m), samples);
      Bracketed(EndedAt(m), samples);
    }
  }
}
