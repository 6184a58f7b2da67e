/** What the segments of a session mean: an account of the meter, microsecond by microsecond. */
module SegmentationProofs {
  import opened Prelude
  import opened Calendar
  import opened Interpolation
  import opened Segmentation
  import Money

  // ---------- the per-instant reference ----------

  /** The local date and tariff band in force at an instant, if any band is. */
  datatype Attribution = Attribution(date: int, price: int, version: int, caption: string)

  ghost function AttributionAt(t: int, tariffs: DailyTariffs, off: int): Option<Attribution> {
    var d := LocalDate(t, off);
    match FrameAt(FramesOn(tariffs, d), d, t, off)
    case None => None
    case Some(f) => Some(Attribution(d, f.price, f.version, f.caption))
  }

  ghost function SegmentAttribution(s: Segment): Attribution {
    Attribution(s.date, s.price, s.version, s.caption)
  }

  /** Any way of weighing energy by where and at what rate it was drawn. */
  type Weight = Attribution -> int

  ghost function WeightAt(t: int, tariffs: DailyTariffs, off: int, w: Weight): int {
    match AttributionAt(t, tariffs, off) case None => 0 case Some(a) => w(a)
  }

  /** The sum over the microseconds a, ..., b - 1 of the movement of `v`, weighed by `g`. */
  ghost function MovementSum(a: int, b: int, v: int -> int, g: int -> int): int
    requires a <= b
    decreases b - a
  {
    if a == b then 0 else MovementSum(a, b - 1, v, g) + (v(b) - v(b - 1)) * g(b - 1)
  }

  ghost function Register(t: int, rs: seq<Reading>): int {
    if GoodReadings(rs) && InRange(t, rs) then Value(t, rs) else 0
  }

  /** The simple account: each microsecond's meter movement, weighed at that microsecond. */
  ghost function InstantSum(
    a: int, b: int, rs: seq<Reading>, tariffs: DailyTariffs, off: int, w: Weight): int
    requires a <= b
  {
    MovementSum(a, b, t => Register(t, rs), t => WeightAt(t, tariffs, off, w))
  }

  ghost function SegmentSum(segments: seq<Segment>, w: Weight): int {
    if segments == [] then 0
    else
      var s := segments[|segments| - 1];
      SegmentSum(segments[..|segments| - 1], w) + s.energy * w(SegmentAttribution(s))
  }

  lemma {:induction false} MovementSplits(a: int, b: int, c: int, v: int -> int, g: int -> int)
    requires a <= b <= c
    ensures MovementSum(a, c, v, g) == MovementSum(a, b, v, g) + MovementSum(b, c, v, g)
    decreases c - b
  {
    if b == c {
    } else {
      MovementSplits(a, b, c - 1, v, g);
    }
  }

  lemma {:induction false} MovementConstant(a: int, b: int, v: int -> int, g: int -> int, k: int)
    requires a <= b && forall t :: a <= t < b ==> g(t) == k
    ensures MovementSum(a, b, v, g) == (v(b) - v(a)) * k
    decreases b - a
  {
    if a == b {
    } else {
      MovementConstant(a, b - 1, v, g, k);
      var x, y := v(b - 1) - v(a), v(b) - v(b - 1);
      assert (x + y) * k == x * k + y * k;
    }
  }

  lemma InstantSplits(a: int, b: int, c: int, rs: seq<Reading>, tariffs: DailyTariffs, off: int, w: Weight)
    requires a <= b <= c
    ensures InstantSum(a, c, rs, tariffs, off, w)
         == InstantSum(a, b, rs, tariffs, off, w) + InstantSum(b, c, rs, tariffs, off, w)
  {
    MovementSplits(a, b, c, t => Register(t, rs), t => WeightAt(t, tariffs, off, w));
  }

  lemma InstantConstant(a: int, b: int, rs: seq<Reading>, tariffs: DailyTariffs, off: int, w: Weight, k: int)
    requires a <= b && forall t :: a <= t < b ==> WeightAt(t, tariffs, off, w) == k
    ensures InstantSum(a, b, rs, tariffs, off, w) == (Register(b, rs) - Register(a, rs)) * k
  {
    MovementConstant(a, b, t => Register(t, rs), t => WeightAt(t, tariffs, off, w), k);
  }

  // ---------- pieces between neighbouring cuts are homogeneous ----------

  ghost predicate CutPoints(points: seq<int>, start: int, end: int, tariffs: DailyTariffs, off: int) {
    start < end && StrictlySorted(points) && forall t :: t in points <==> IsCut(t, start, end, tariffs, off)
  }

  lemma SortedCuts(start: int, end: int, tariffs: DailyTariffs, off: int) returns (points: seq<int>)
    requires start < end
    ensures points == SortedSeq(Cuts(start, end, tariffs, off))
    ensures CutPoints(points, start, end, tariffs, off)
    ensures |points| >= 2 && points[0] == start && points[|points| - 1] == end
  {
    points := SortedSeq(Cuts(start, end, tariffs, off));
    forall t ensures t in points <==> IsCut(t, start, end, tariffs, off) {
      CutsMeaning(t, start, end, tariffs, off);
    }
    EndsOfCuts(points, start, end, tariffs, off);
  }

  lemma EndsOfCuts(points: seq<int>, start: int, end: int, tariffs: DailyTariffs, off: int)
    requires CutPoints(points, start, end, tariffs, off)
    ensures |points| >= 2 && points[0] == start && points[|points| - 1] == end
  {
    assert start in points && end in points;
    var i :| 0 <= i < |points| && points[i] == start;
    var j :| 0 <= j < |points| && points[j] == end;
    assert points[0] in points && points[|points| - 1] in points;
  }

  /** No midnight and no band boundary lies strictly inside a piece. */
  lemma NoBoundaryInside(
    points: seq<int>, i: nat, x: int, d: int, start: int, end: int, tariffs: DailyTariffs, off: int)
    requires CutPoints(points, start, end, tariffs, off) && i + 1 < |points|
    requires points[i] < x < points[i + 1]
    requires LocalDate(start, off) <= d <= LocalDate(end, off)
    ensures !IsBoundary(x, d, tariffs, off)
  {
    EndsOfCuts(points, start, end, tariffs, off);
    assert start <= points[i] && points[i + 1] <= end;
    if IsBoundary(x, d, tariffs, off) {
      assert IsCut(x, start, end, tariffs, off);
      var k :| 0 <= k < |points| && points[k] == x;
      assert false;
    }
  }

  lemma SameDate(
    points: seq<int>, i: nat, t: int, start: int, end: int, tariffs: DailyTariffs, off: int)
    requires CutPoints(points, start, end, tariffs, off) && i + 1 < |points|
    requires points[i] <= t < points[i + 1]
    ensures LocalDate(t, off) == LocalDate(points[i], off)
  {
    EndsOfCuts(points, start, end, tariffs, off);
    var a, d := points[i], LocalDate(t, off);
    assert start <= a && t < end;
    DateMonotone(start, t, off);
    DateMonotone(t, end, off);
    DateBracket(t, off);
    if a < Midnight(d, off) {
      NoBoundaryInside(points, i, Midnight(d, off), d, start, end, tariffs, off);
      if Midnight(d, off) < points[i + 1] {
        assert IsBoundary(Midnight(d, off), d, tariffs, off);
      }
    }
    DateUnique(a, d, off);
  }

  lemma SameFrames(
    points: seq<int>, i: nat, t: int, f: Frame, start: int, end: int, tariffs: DailyTariffs, off: int)
    requires CutPoints(points, start, end, tariffs, off) && i + 1 < |points|
    requires points[i] <= t < points[i + 1]
    requires f in FramesOn(tariffs, LocalDate(points[i], off))
    ensures Applies(f, LocalDate(points[i], off), t, off) <==> Applies(f, LocalDate(points[i], off), points[i], off)
  {
    EndsOfCuts(points, start, end, tariffs, off);
    var a := points[i];
    var d := LocalDate(a, off);
    assert start <= a < end;
    DateMonotone(start, a, off);
    DateMonotone(a, end, off);
    var fs, fe := FrameStart(d, f, off), FrameEnd(d, f, off);
    assert IsBoundary(fs, d, tariffs, off) && IsBoundary(fe, d, tariffs, off);
    if a < fs <= t {
      NoBoundaryInside(points, i, fs, d, start, end, tariffs, off);
    }
    if a < fe <= t {
      NoBoundaryInside(points, i, fe, d, start, end, tariffs, off);
    }
  }

  lemma {:induction false} FrameAtAgree(frames: seq<Frame>, d: int, t: int, u: int, off: int)
    requires forall f :: f in frames ==> (Applies(f, d, t, off) <==> Applies(f, d, u, off))
    ensures FrameAt(frames, d, t, off) == FrameAt(frames, d, u, off)
  {
    if frames == [] {
    } else {
      assert frames[0] in frames;
      assert forall f :: f in frames[1..] ==> f in frames;
      FrameAtAgree(frames[1..], d, t, u, off);
    }
  }

  /** Every instant of a piece has the date and band of the piece's first instant. */
  lemma PieceHomogeneous(
    points: seq<int>, i: nat, t: int, start: int, end: int, tariffs: DailyTariffs, off: int)
    requires CutPoints(points, start, end, tariffs, off) && i + 1 < |points|
    requires points[i] <= t < points[i + 1]
    ensures LocalDate(t, off) == LocalDate(points[i], off)
    ensures AttributionAt(t, tariffs, off) == AttributionAt(points[i], tariffs, off)
  {
    SameDate(points, i, t, start, end, tariffs, off);
    var d := LocalDate(points[i], off);
    var frames := FramesOn(tariffs, d);
    forall f | f in frames
      ensures Applies(f, d, t, off) <==> Applies(f, d, points[i], off)
    {
      SameFrames(points, i, t, f, start, end, tariffs, off);
    }
    FrameAtAgree(frames, d, t, points[i], off);
  }

  // ---------- the segments refine the account ----------

  /** A segment says of its span what the account says of each of its instants. */
  ghost predicate Faithful(s: Segment, rs: seq<Reading>, tariffs: DailyTariffs, off: int) {
    && s.from < s.to
    && s.energy == Register(s.to, rs) - Register(s.from, rs) > 0
    && s.amount == Money.RoundedVnd(s.energy, s.price)
    && forall t :: s.from <= t < s.to ==> AttributionAt(t, tariffs, off) == Some(SegmentAttribution(s))
  }

  /** Outside the segments either no band was in force or the meter stood still. */
  ghost predicate Accounted(t: int, segments: seq<Segment>, rs: seq<Reading>, tariffs: DailyTariffs, off: int) {
    || (exists k :: 0 <= k < |segments| && segments[k].from <= t < segments[k].to)
    || AttributionAt(t, tariffs, off).None?
    || Register(t + 1, rs) == Register(t, rs)
  }

  ghost predicate Account(segments: seq<Segment>, start: int, end: int,
                          rs: seq<Reading>, tariffs: DailyTariffs, off: int) {
    && (forall k :: 0 <= k < |segments| ==>
          start <= segments[k].from && segments[k].to <= end && Faithful(segments[k], rs, tariffs, off))
    && (forall j, k :: 0 <= j < k < |segments| ==> segments[j].to <= segments[k].from)
    && (forall t :: start <= t < end ==> Accounted(t, segments, rs, tariffs, off))
  }

  lemma AccountMembers(segments: seq<Segment>, start: int, end: int,
                       rs: seq<Reading>, tariffs: DailyTariffs, off: int)
    requires Account(segments, start, end, rs, tariffs, off)
    ensures forall s :: s in segments ==> Faithful(s, rs, tariffs, off)
  {
  }

  ghost predicate Spans(start: int, end: int, rs: seq<Reading>) {
    start < end && GoodReadings(rs) && rs[0].at <= start && end <= rs[|rs| - 1].at
  }

  lemma RegisterMonotone(t: int, u: int, rs: seq<Reading>)
    requires GoodReadings(rs) && InRange(t, rs) && InRange(u, rs) && t <= u
    ensures Register(t, rs) <= Register(u, rs)
  {
    ValueMonotone(t, u, rs);
  }

  /** One piece: never an error, faithful when kept, and dropped only without a band or without movement. */
  lemma PieceFacts(
    points: seq<int>, i: nat, start: int, end: int, rs: seq<Reading>, tariffs: DailyTariffs, off: int)
    requires CutPoints(points, start, end, tariffs, off) && Spans(start, end, rs) && i + 1 < |points|
    ensures var a, b := points[i], points[i + 1];
            var piece := PieceOf(a, b, rs, tariffs, off);
            && piece.Ok?
            && (piece.value.Some? ==>
                  var s := piece.value.value;
                  s.from == a && s.to == b && Faithful(s, rs, tariffs, off))
            && (piece.value.None? ==>
                  AttributionAt(a, tariffs, off).None? || Register(a, rs) == Register(b, rs))
  {
    var a, b := points[i], points[i + 1];
    EndsOfCuts(points, start, end, tariffs, off);
    assert start <= a < b <= end;
    assert InRange(a, rs) && InRange(b, rs);
    RegisterMonotone(a, b, rs);
    assert ReadingAt(a, rs).Ok? && ReadingAt(b, rs).Ok? by {
      assert Value(a, rs) == Register(a, rs) && Value(b, rs) == Register(b, rs);
    }
    PieceHomogeneous(points, i, Midpoint(a, b), start, end, tariffs, off);
    forall t | a <= t < b ensures AttributionAt(t, tariffs, off) == AttributionAt(a, tariffs, off) {
      PieceHomogeneous(points, i, t, start, end, tariffs, off);
    }
  }

  /** The same piece in the account: movement times the weight of its band. */
  ghost predicate WeighsAlike(a: int, b: int, tariffs: DailyTariffs, off: int, w: Weight, k: int) {
    forall t :: a <= t < b ==> WeightAt(t, tariffs, off, w) == k
  }

  lemma PieceSum(
    points: seq<int>, i: nat, start: int, end: int, rs: seq<Reading>, tariffs: DailyTariffs, off: int, w: Weight)
    requires CutPoints(points, start, end, tariffs, off) && Spans(start, end, rs) && i + 1 < |points|
    ensures InstantSum(points[i], points[i + 1], rs, tariffs, off, w)
         == (Register(points[i + 1], rs) - Register(points[i], rs)) * WeightAt(points[i], tariffs, off, w)
  {
    var k := WeightAt(points[i], tariffs, off, w);
    PieceWeighsAlike(points, i, start, end, tariffs, off, w, k);
    AlikeSum(points[i], points[i + 1], rs, tariffs, off, w, k);
  }

  lemma AlikeSum(a: int, b: int, rs: seq<Reading>, tariffs: DailyTariffs, off: int, w: Weight, k: int)
    requires a <= b && WeighsAlike(a, b, tariffs, off, w, k)
    ensures InstantSum(a, b, rs, tariffs, off, w) == (Register(b, rs) - Register(a, rs)) * k
  {
    InstantConstant(a, b, rs, tariffs, off, w, k);
  }

  lemma PieceWeighsAlike(
    points: seq<int>, i: nat, start: int, end: int, tariffs: DailyTariffs, off: int, w: Weight, k: int)
    requires CutPoints(points, start, end, tariffs, off) && i + 1 < |points| && k == WeightAt(points[i], tariffs, off, w)
    ensures WeighsAlike(points[i], points[i + 1], tariffs, off, w, k)
  {
    forall t | points[i] <= t < points[i + 1] ensures WeightAt(t, tariffs, off, w) == k {
      PieceHomogeneous(points, i, t, start, end, tariffs, off);
    }
  }

  /** A dropped piece has no band, or its meter does not move at any of its instants. */
  lemma PieceAccounted(
    points: seq<int>, i: nat, t: int, start: int, end: int, rs: seq<Reading>, tariffs: DailyTariffs, off: int)
    requires CutPoints(points, start, end, tariffs, off) && Spans(start, end, rs) && i + 1 < |points|
    requires points[i] <= t < points[i + 1]
    requires AttributionAt(points[i], tariffs, off).None? || Register(points[i], rs) == Register(points[i + 1], rs)
    ensures AttributionAt(t, tariffs, off).None? || Register(t + 1, rs) == Register(t, rs)
  {
    EndsOfCuts(points, start, end, tariffs, off);
    PieceHomogeneous(points, i, t, start, end, tariffs, off);
    assert start <= points[i] && points[i + 1] <= end;
    StandsStill(points[i], points[i + 1], t, rs);
  }

  lemma StandsStill(a: int, b: int, t: int, rs: seq<Reading>)
    requires GoodReadings(rs) && InRange(a, rs) && InRange(b, rs) && a <= t < b
    ensures Register(a, rs) == Register(b, rs) ==> Register(t + 1, rs) == Register(t, rs)
  {
    RegisterMonotone(a, t, rs);
    RegisterMonotone(t, t + 1, rs);
    RegisterMonotone(t + 1, b, rs);
  }

  /** Adding one piece's segment, or dropping the piece, extends the account to the piece's end. */
  lemma ExtendAccount(
    done: seq<Segment>, piece: Option<Segment>, start: int, a: int, b: int,
    rs: seq<Reading>, tariffs: DailyTariffs, off: int)
    requires start <= a < b && Account(done, start, a, rs, tariffs, off)
    requires piece.Some? ==> piece.value.from == a && piece.value.to == b && Faithful(piece.value, rs, tariffs, off)
    requires piece.None? ==> forall t :: a <= t < b ==>
               AttributionAt(t, tariffs, off).None? || Register(t + 1, rs) == Register(t, rs)
    ensures Account(done + (if piece.Some? then [piece.value] else []), start, b, rs, tariffs, off)
  {
    var all := done + if piece.Some? then [piece.value] else [];
    forall t | start <= t < b ensures Accounted(t, all, rs, tariffs, off) {
      if t < a {
        assert Accounted(t, done, rs, tariffs, off);
        if k :| 0 <= k < |done| && done[k].from <= t < done[k].to {
          assert all[k] == done[k];
        }
      } else if piece.Some? {
        assert all[|done|].from <= t < all[|done|].to;
      }
    }
  }

  /** The account after one more piece. */
  lemma AccountStep(
    points: seq<int>, n: nat, start: int, end: int, rs: seq<Reading>, tariffs: DailyTariffs, off: int, done: seq<Segment>)
    requires CutPoints(points, start, end, tariffs, off) && Spans(start, end, rs) && 0 < n < |points|
    requires start <= points[n - 1] && Account(done, start, points[n - 1], rs, tariffs, off)
    ensures var piece := PieceOf(points[n - 1], points[n], rs, tariffs, off);
            && piece.Ok?
            && Account(done + (if piece.value.Some? then [piece.value.value] else []), start, points[n], rs, tariffs, off)
  {
    PieceFacts(points, n - 1, start, end, rs, tariffs, off);
    var piece := PieceOf(points[n - 1], points[n], rs, tariffs, off).value;
    if piece.None? {
      forall t | points[n - 1] <= t < points[n]
        ensures AttributionAt(t, tariffs, off).None? || Register(t + 1, rs) == Register(t, rs)
      {
        PieceAccounted(points, n - 1, t, start, end, rs, tariffs, off);
      }
    }
    ExtendAccount(done, piece, start, points[n - 1], points[n], rs, tariffs, off);
  }

  lemma {:induction false} PrefixAccount(
    points: seq<int>, n: nat, start: int, end: int, rs: seq<Reading>, tariffs: DailyTariffs, off: int)
    requires CutPoints(points, start, end, tariffs, off) && Spans(start, end, rs) && n < |points|
    ensures SegmentsUpTo(points, n, rs, tariffs, off).Ok?
    ensures Account(SegmentsUpTo(points, n, rs, tariffs, off).value, start, points[n], rs, tariffs, off)
  {
    EndsOfCuts(points, start, end, tariffs, off);
    if n == 0 {
    } else {
      PrefixAccount(points, n - 1, start, end, rs, tariffs, off);
      var done := SegmentsUpTo(points, n - 1, rs, tariffs, off).value;
      AccountStep(points, n, start, end, rs, tariffs, off, done);
      assert done + [] == done;
    }
  }

  ghost function PieceWeight(piece: Option<Segment>, w: Weight): int {
    match piece case None => 0 case Some(s) => s.energy * w(SegmentAttribution(s))
  }

  lemma WeighPiece(piece: Option<Segment>, attribution: Option<Attribution>, ra: int, rb: int, w: Weight)
    requires piece.Some? ==> piece.value.energy == rb - ra && attribution == Some(SegmentAttribution(piece.value))
    requires piece.None? ==> attribution.None? || ra == rb
    ensures PieceWeight(piece, w) == (rb - ra) * (match attribution case None => 0 case Some(x) => w(x))
  {
  }

  /** A piece's contribution to the segment total is its contribution to the account. */
  lemma PieceContribution(
    points: seq<int>, i: nat, start: int, end: int, rs: seq<Reading>, tariffs: DailyTariffs, off: int, w: Weight)
    requires CutPoints(points, start, end, tariffs, off) && Spans(start, end, rs) && i + 1 < |points|
    ensures PieceOf(points[i], points[i + 1], rs, tariffs, off).Ok?
    ensures PieceWeight(PieceOf(points[i], points[i + 1], rs, tariffs, off).value, w)
         == InstantSum(points[i], points[i + 1], rs, tariffs, off, w)
  {
    PieceFacts(points, i, start, end, rs, tariffs, off);
    PieceSum(points, i, start, end, rs, tariffs, off, w);
    var a := points[i];
    var piece := PieceOf(a, points[i + 1], rs, tariffs, off).value;
    if piece.Some? {
      assert piece.value.from <= a < piece.value.to;
    }
    WeighPiece(piece, AttributionAt(a, tariffs, off), Register(a, rs), Register(points[i + 1], rs), w);
  }

  lemma SegmentSumStep(
    points: seq<int>, n: nat, rs: seq<Reading>, tariffs: DailyTariffs, off: int, w: Weight)
    requires StrictlySorted(points) && 0 < n < |points|
    requires SegmentsUpTo(points, n - 1, rs, tariffs, off).Ok?
    requires PieceOf(points[n - 1], points[n], rs, tariffs, off).Ok?
    ensures SegmentsUpTo(points, n, rs, tariffs, off).Ok?
    ensures SegmentSum(SegmentsUpTo(points, n, rs, tariffs, off).value, w)
         == SegmentSum(SegmentsUpTo(points, n - 1, rs, tariffs, off).value, w)
            + PieceWeight(PieceOf(points[n - 1], points[n], rs, tariffs, off).value, w)
  {
  }

  lemma {:induction false} PrefixSum(
    points: seq<int>, n: nat, rs: seq<Reading>, tariffs: DailyTariffs, off: int, w: Weight)
    requires StrictlySorted(points) && n < |points|
    requires forall i :: 0 <= i < |points| - 1 ==>
      var piece := PieceOf(points[i], points[i + 1], rs, tariffs, off);
      piece.Ok? && PieceWeight(piece.value, w) == InstantSum(points[i], points[i + 1], rs, tariffs, off, w)
    ensures points[0] <= points[n]
    ensures SegmentsUpTo(points, n, rs, tariffs, off).Ok?
    ensures SegmentSum(SegmentsUpTo(points, n, rs, tariffs, off).value, w)
         == InstantSum(points[0], points[n], rs, tariffs, off, w)
  {
    if n == 0 {
    } else {
      PrefixSum(points, n - 1, rs, tariffs, off, w);
      SegmentSumStep(points, n, rs, tariffs, off, w);
      InstantSplits(points[0], points[n - 1], points[n], rs, tariffs, off, w);
    }
  }

  /** Segmentation never fails on good readings, and its segments are ordered, homogeneous in date and
      band, and leave out exactly the instants without a band or without meter movement. */
  lemma SegmentsAccountForSession(start: int, end: int, rs: seq<Reading>, tariffs: DailyTariffs, off: int)
    requires Spans(start, end, rs)
    ensures Segments(start, end, rs, tariffs, off).Ok?
    ensures Account(Segments(start, end, rs, tariffs, off).value, start, end, rs, tariffs, off)
  {
    var points := SortedCuts(start, end, tariffs, off);
    PrefixAccount(points, |points| - 1, start, end, rs, tariffs, off);
  }

  /** Whatever energy is weighed by (price, date, version, plain energy), the segment total is the
      microsecond-by-microsecond total. */
  lemma SegmentsRefineInstants(
    start: int, end: int, rs: seq<Reading>, tariffs: DailyTariffs, off: int, w: Weight)
    requires Spans(start, end, rs)
    ensures Segments(start, end, rs, tariffs, off).Ok?
    ensures SegmentSum(Segments(start, end, rs, tariffs, off).value, w)
         == InstantSum(start, end, rs, tariffs, off, w)
  {
    var points := SortedCuts(start, end, tariffs, off);
    forall i | 0 <= i < |points| - 1
      ensures var piece := PieceOf(points[i], points[i + 1], rs, tariffs, off);
              piece.Ok? && PieceWeight(piece.value, w) == InstantSum(points[i], points[i + 1], rs, tariffs, off, w)
    {
      PieceContribution(points, i, start, end, rs, tariffs, off, w);
    }
    PrefixSum(points, |points| - 1, rs, tariffs, off, w);
  }

  // ---------- interpolation marks ----------

  ghost predicate Sampled(t: int, rs: seq<Reading>) {
    exists k :: 0 <= k < |rs| && rs[k].at == t
  }

  /** Exactly the values at no sample instant are marked. */
  lemma MarkMeans(t: int, rs: seq<Reading>)
    requires GoodReadings(rs) && InRange(t, rs)
    ensures ReadingAt(t, rs).Ok? && (ReadingAt(t, rs).value.1 <==> !Sampled(t, rs))
  {
    if k :| 0 <= k < |rs| && rs[k].at == t {
      ExactAtSample(k, rs);
    }
  }

  ghost predicate RightMarks(s: Segment, rs: seq<Reading>) {
    (s.fromInterpolated <==> !Sampled(s.from, rs)) && (s.toInterpolated <==> !Sampled(s.to, rs))
  }

  lemma PieceMarks(a: int, b: int, rs: seq<Reading>, tariffs: DailyTariffs, off: int)
    requires a < b && GoodReadings(rs) && InRange(a, rs) && InRange(b, rs)
    ensures var piece := PieceOf(a, b, rs, tariffs, off);
            piece.Ok? && piece.value.Some? ==> RightMarks(piece.value.value, rs)
  {
    MarkMeans(a, rs);
    MarkMeans(b, rs);
  }

  lemma {:induction false} MarksUpTo(points: seq<int>, n: nat, rs: seq<Reading>, tariffs: DailyTariffs, off: int)
    requires StrictlySorted(points) && n < |points| && GoodReadings(rs)
    requires forall i :: 0 <= i < |points| ==> InRange(points[i], rs)
    ensures var done := SegmentsUpTo(points, n, rs, tariffs, off);
            done.Ok? ==> forall k :: 0 <= k < |done.value| ==> RightMarks(done.value[k], rs)
  {
    if n == 0 {
    } else {
      MarksUpTo(points, n - 1, rs, tariffs, off);
      PieceMarks(points[n - 1], points[n], rs, tariffs, off);
    }
  }

  /** A segment's ends are marked interpolated if and only if no sample was taken there. */
  lemma SegmentMarks(start: int, end: int, rs: seq<Reading>, tariffs: DailyTariffs, off: int)
    requires Spans(start, end, rs)
    ensures Segments(start, end, rs, tariffs, off).Ok?
    ensures var segments := Segments(start, end, rs, tariffs, off).value;
            forall k :: 0 <= k < |segments| ==> RightMarks(segments[k], rs)
  {
    var points := SortedCuts(start, end, tariffs, off);
    SegmentsAccountForSession(start, end, rs, tariffs, off);
    forall i | 0 <= i < |points| ensures InRange(points[i], rs) {
      assert points[i] in points;
    }
    MarksUpTo(points, |points| - 1, rs, tariffs, off);
  }
}
