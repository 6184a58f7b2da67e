/** Cutting a session at tariff-band and midnight boundaries (segmentation.py). */
module Segmentation {
  import opened Prelude
  import opened Calendar
  import opened Interpolation
  import Money

  /** A tariff frame's clock bounds in seconds of the local day; "24:00" is 86400. */
  datatype Frame = Frame(startSec: nat, endSec: nat, price: int, version: int, caption: string)

  type DailyTariffs = map<int, seq<Frame>>

  datatype Segment = Segment(
    date: int, from: int, to: int, energy: int, price: int, amount: int,
    version: int, caption: string, fromInterpolated: bool, toInterpolated: bool)

  function FramesOn(tariffs: DailyTariffs, d: int): seq<Frame> {
    if d in tariffs then tariffs[d] else []
  }

  function FrameStart(d: int, f: Frame, off: int): int { Midnight(d, off) + f.startSec * SECOND }

  function FrameEnd(d: int, f: Frame, off: int): int { Midnight(d, off) + f.endSec * SECOND }

  // ---------- cut points ----------

  /** What a cut point is, said without any loop. */
  ghost predicate IsBoundary(t: int, d: int, tariffs: DailyTariffs, off: int) {
    || t == Midnight(d, off)
    || exists f :: f in FramesOn(tariffs, d) && (t == FrameStart(d, f, off) || t == FrameEnd(d, f, off))
  }

  ghost predicate IsCut(t: int, start: int, end: int, tariffs: DailyTariffs, off: int) {
    || t == start || t == end
    || (start < t < end &&
        exists d :: LocalDate(start, off) <= d <= LocalDate(end, off) && IsBoundary(t, d, tariffs, off))
  }

  function Within(t: int, start: int, end: int): set<int> {
    if start < t < end then {t} else {}
  }

  function FrameCuts(d: int, frames: seq<Frame>, start: int, end: int, off: int): set<int> {
    if frames == [] then Within(Midnight(d, off), start, end)
    else
      var f := frames[|frames| - 1];
      FrameCuts(d, frames[..|frames| - 1], start, end, off)
      + Within(FrameStart(d, f, off), start, end) + Within(FrameEnd(d, f, off), start, end)
  }

  function CutsThrough(first: int, d: int, start: int, end: int, tariffs: DailyTariffs, off: int): set<int>
    decreases d - first
  {
    if d < first then {start, end}
    else CutsThrough(first, d - 1, start, end, tariffs, off) + FrameCuts(d, FramesOn(tariffs, d), start, end, off)
  }

  function Cuts(start: int, end: int, tariffs: DailyTariffs, off: int): set<int> {
    CutsThrough(LocalDate(start, off), LocalDate(end, off), start, end, tariffs, off)
  }

  lemma {:induction false} FrameCutsMeaning(t: int, d: int, frames: seq<Frame>, start: int, end: int, off: int)
    ensures t in FrameCuts(d, frames, start, end, off) <==>
            start < t < end && (t == Midnight(d, off)
              || exists f :: f in frames && (t == FrameStart(d, f, off) || t == FrameEnd(d, f, off)))
  {
    if frames == [] {
    } else {
      var init, last := frames[..|frames| - 1], frames[|frames| - 1];
      FrameCutsMeaning(t, d, init, start, end, off);
      assert frames == init + [last];
      assert forall f :: f in frames <==> f in init || f == last;
    }
  }

  lemma {:induction false} CutsThroughMeaning(
    t: int, first: int, d: int, start: int, end: int, tariffs: DailyTariffs, off: int)
    ensures t in CutsThrough(first, d, start, end, tariffs, off) <==>
            t == start || t == end
            || (start < t < end && exists e :: first <= e <= d && IsBoundary(t, e, tariffs, off))
    decreases d - first
  {
    if d < first {
    } else {
      CutsThroughMeaning(t, first, d - 1, start, end, tariffs, off);
      FrameCutsMeaning(t, d, FramesOn(tariffs, d), start, end, off);
      assert t in FrameCuts(d, FramesOn(tariffs, d), start, end, off) <==>
             start < t < end && IsBoundary(t, d, tariffs, off);
    }
  }

  lemma CutsMeaning(t: int, start: int, end: int, tariffs: DailyTariffs, off: int)
    ensures t in Cuts(start, end, tariffs, off) <==> IsCut(t, start, end, tariffs, off)
  {
    CutsThroughMeaning(t, LocalDate(start, off), LocalDate(end, off), start, end, tariffs, off);
  }

  /** One day of the date loop: its midnight and the edges of its bands. */
  method CollectDay(before: set<int>, d: int, start: int, end: int, frames: seq<Frame>, off: int) returns (cuts: set<int>)
    ensures cuts == before + FrameCuts(d, frames, start, end, off)
  {
    cuts := before;
    var midnight := Midnight(d, off);
    if start < midnight < end {
      cuts := cuts + {midnight};
    }
    for i := 0 to |frames|
      invariant cuts == before + FrameCuts(d, frames[..i], start, end, off)
    {
      assert frames[..i + 1][..i] == frames[..i];
      var st, et := FrameStart(d, frames[i], off), FrameEnd(d, frames[i], off);
      if start < st < end {
        cuts := cuts + {st};
      }
      if start < et < end {
        cuts := cuts + {et};
      }
    }
    assert frames[..|frames|] == frames;
  }

  /** The `cut_points` loops of `chia_doan`. */
  method CollectCuts(start: int, end: int, tariffs: DailyTariffs, off: int) returns (cuts: set<int>)
    requires start < end
    ensures cuts == Cuts(start, end, tariffs, off)
    ensures forall t :: t in cuts <==> IsCut(t, start, end, tariffs, off)
  {
    cuts := {start, end};
    var first, last := LocalDate(start, off), LocalDate(end, off);
    DateMonotone(start, end, off);
    var current := first;
    while current <= last
      invariant first <= current <= last + 1
      invariant cuts == CutsThrough(first, current - 1, start, end, tariffs, off)
    {
      cuts := CollectDay(cuts, current, start, end, FramesOn(tariffs, current), off);
      current := current + 1;
    }
    forall t ensures t in cuts <==> IsCut(t, start, end, tariffs, off) {
      CutsMeaning(t, start, end, tariffs, off);
    }
  }

  // ---------- one piece ----------

  /** `timedelta / 2` rounds half to even microseconds. */
  function Midpoint(a: int, b: int): (m: int)
    requires a < b
    ensures a <= m < b
  {
    var half := (b - a) / 2;
    a + half + if (b - a) % 2 == 1 && half % 2 == 1 then 1 else 0
  }

  predicate Applies(f: Frame, d: int, t: int, off: int) {
    FrameStart(d, f, off) <= t < FrameEnd(d, f, off)
  }

  /** The first frame of the day whose band holds the instant. */
  function FrameAt(frames: seq<Frame>, d: int, t: int, off: int): (r: Option<Frame>)
    ensures r.Some? ==> r.value in frames && Applies(r.value, d, t, off)
    ensures r.None? ==> forall f :: f in frames ==> !Applies(f, d, t, off)
  {
    if frames == [] then None
    else if Applies(frames[0], d, t, off) then Some(frames[0])
    else FrameAt(frames[1..], d, t, off)
  }

  /** What one piece contributes: nothing without a tariff or without energy. */
  function PieceOf(a: int, b: int, rs: seq<Reading>, tariffs: DailyTariffs, off: int)
    : Result<Option<Segment>, MeterError>
    requires a < b
  {
    var mid := Midpoint(a, b);
    var d := LocalDate(mid, off);
    match FrameAt(FramesOn(tariffs, d), d, mid, off)
    case None => Ok(None)
    case Some(f) =>
      match ReadingAt(a, rs)
      case Err(e) => Err(e)
      case Ok(va) =>
        match ReadingAt(b, rs)
        case Err(e) => Err(e)
        case Ok(vb) =>
          var energy := vb.0 - va.0;
          if energy < 0 then Err(MeterFell)
          else if energy == 0 then Ok(None)
          else Ok(Some(Segment(d, a, b, energy, f.price, Money.RoundedVnd(energy, f.price),
                               f.version, f.caption, va.1, vb.1)))
  }

  function SegmentsUpTo(points: seq<int>, n: nat, rs: seq<Reading>, tariffs: DailyTariffs, off: int)
    : Result<seq<Segment>, MeterError>
    requires StrictlySorted(points) && n < |points|
  {
    if n == 0 then Ok([])
    else
      match SegmentsUpTo(points, n - 1, rs, tariffs, off)
      case Err(e) => Err(e)
      case Ok(done) =>
        match PieceOf(points[n - 1], points[n], rs, tariffs, off)
        case Err(e) => Err(e)
        case Ok(None) => Ok(done)
        case Ok(Some(s)) => Ok(done + [s])
  }

  /** The whole session: pieces between neighbouring sorted cut points, in order. */
  function Segments(start: int, end: int, rs: seq<Reading>, tariffs: DailyTariffs, off: int)
    : Result<seq<Segment>, MeterError>
  {
    if start >= end then Ok([])
    else
      var points := SortedSeq(Cuts(start, end, tariffs, off));
      assert start in Cuts(start, end, tariffs, off) by { CutsMeaning(start, start, end, tariffs, off); }
      SegmentsUpTo(points, |points| - 1, rs, tariffs, off)
  }

  lemma {:induction false} ErrorPersists(
    points: seq<int>, k: nat, n: nat, rs: seq<Reading>, tariffs: DailyTariffs, off: int)
    requires StrictlySorted(points) && k <= n < |points|
    requires SegmentsUpTo(points, k, rs, tariffs, off).Err?
    ensures SegmentsUpTo(points, n, rs, tariffs, off) == SegmentsUpTo(points, k, rs, tariffs, off)
  {
    if k == n {
    } else {
      ErrorPersists(points, k, n - 1, rs, tariffs, off);
    }
  }

  method FindFrame(frames: seq<Frame>, d: int, t: int, off: int) returns (r: Option<Frame>)
    ensures r == FrameAt(frames, d, t, off)
  {
    for i := 0 to |frames|
      invariant FrameAt(frames[i..], d, t, off) == FrameAt(frames, d, t, off)
    {
      assert frames[i..][1..] == frames[i + 1..];
      if FrameStart(d, frames[i], off) <= t < FrameEnd(d, frames[i], off) {
        return Some(frames[i]);
      }
    }
    return None;
  }

  /** The body of the segment loop for one pair of neighbouring cut points. */
  method PricePiece(a: int, b: int, rs: seq<Reading>, tariffs: DailyTariffs, off: int)
    returns (r: Result<Option<Segment>, MeterError>)
    requires a < b
    ensures r == PieceOf(a, b, rs, tariffs, off)
  {
    var mid := Midpoint(a, b);
    var d := LocalDate(mid, off);
    var applied := FindFrame(FramesOn(tariffs, d), d, mid, off);
    if applied.None? {
      return Ok(None);
    }
    var va := Interpolate(a, rs);
    if va.Err? {
      return Err(va.error);
    }
    var vb := Interpolate(b, rs);
    if vb.Err? {
      return Err(vb.error);
    }
    var energy := vb.value.0 - va.value.0;
    if energy < 0 {
      return Err(MeterFell);
    }
    if energy == 0 {
      return Ok(None);
    }
    var f := applied.value;
    return Ok(Some(Segment(d, a, b, energy, f.price, Money.RoundedVnd(energy, f.price),
                           f.version, f.caption, va.value.1, vb.value.1)));
  }

  lemma {:induction false} NextPiece(
    points: seq<int>, i: nat, rs: seq<Reading>, tariffs: DailyTariffs, off: int, done: seq<Segment>,
    piece: Result<Option<Segment>, MeterError>)
    requires StrictlySorted(points) && i + 1 < |points| && SegmentsUpTo(points, i, rs, tariffs, off) == Ok(done)
    requires piece == PieceOf(points[i], points[i + 1], rs, tariffs, off)
    ensures SegmentsUpTo(points, i + 1, rs, tariffs, off)
         == if piece.Err? then Err(piece.error) else Ok(if piece.value.Some? then done + [piece.value.value] else done)
  {
  }

  /** The segment loop over the sorted cut points. */
  method PricePieces(points: seq<int>, rs: seq<Reading>, tariffs: DailyTariffs, off: int)
    returns (r: Result<seq<Segment>, MeterError>)
    requires StrictlySorted(points) && points != []
    ensures r == SegmentsUpTo(points, |points| - 1, rs, tariffs, off)
  {
    var segments: seq<Segment> := [];
    for i := 0 to |points| - 1
      invariant SegmentsUpTo(points, i, rs, tariffs, off) == Ok(segments)
    {
      var piece := PricePiece(points[i], points[i + 1], rs, tariffs, off);
      NextPiece(points, i, rs, tariffs, off, segments, piece);
      if piece.Err? {
        ErrorPersists(points, i + 1, |points| - 1, rs, tariffs, off);
        return Err(piece.error);
      }
      if piece.value.Some? {
        segments := segments + [piece.value.value];
      }
    }
    return Ok(segments);
  }

  /** `chia_doan`. */
  method SplitSession(start: int, end: int, rs: seq<Reading>, tariffs: DailyTariffs, off: int)
    returns (r: Result<seq<Segment>, MeterError>)
    ensures r == Segments(start, end, rs, tariffs, off)
  {
    if start >= end {
      return Ok([]);
    }
    var cuts := CollectCuts(start, end, tariffs, off);
    var points := SortedSeq(cuts);
    CutsMeaning(start, start, end, tariffs, off);
    assert points != [];
    r := PricePieces(points, rs, tariffs, off);
  }
}
