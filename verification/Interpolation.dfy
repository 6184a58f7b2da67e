/** Linear interpolation of a meter register at a cut instant (segmentation.py). */
module Interpolation {
  import opened Prelude
  import Money

  datatype Reading = Reading(at: int, energy: int)

  datatype MeterError = EmptyReadings | OutOfRange | MeterFell

  predicate StrictTimes(rs: seq<Reading>) {
    forall i, j :: 0 <= i < j < |rs| ==> rs[i].at < rs[j].at
  }

  predicate Nondecreasing(rs: seq<Reading>) {
    forall i, j :: 0 <= i <= j < |rs| ==> rs[i].energy <= rs[j].energy
  }

  /** Sorted, nonempty and never falling: what invoice building hands over. */
  predicate GoodReadings(rs: seq<Reading>) {
    rs != [] && StrictTimes(rs) && Nondecreasing(rs)
  }

  function FirstAtOrAfter(t: int, rs: seq<Reading>, i: nat): (k: nat)
    requires i <= |rs|
    ensures i <= k <= |rs|
    ensures forall j :: i <= j < k ==> rs[j].at < t
    ensures k < |rs| ==> rs[k].at >= t
    decreases |rs| - i
  {
    if i == |rs| || rs[i].at >= t then i else FirstAtOrAfter(t, rs, i + 1)
  }

  /** The true line through two readings at `t`, scaled by the bracket's duration. */
  function Line(a: Reading, b: Reading, t: int): int {
    a.energy * (b.at - a.at) + (b.energy - a.energy) * (t - a.at)
  }

  /** Rounded to a whole Wh, then kept inside the bracket. */
  function Between(a: Reading, b: Reading, t: int): int
    requires a.at < b.at
  {
    var rounded := Money.UWH_PER_WH * Money.RoundHalfUp(Line(a, b, t), Money.UWH_PER_WH * (b.at - a.at));
    Min(b.energy, Max(a.energy, rounded))
  }

  function ReadingAt(t: int, rs: seq<Reading>): Result<(int, bool), MeterError> {
    if rs == [] then Err(EmptyReadings)
    else if t < rs[0].at || t > rs[|rs| - 1].at then Err(OutOfRange)
    else
      var k := FirstAtOrAfter(t, rs, 0);
      if rs[k].at == t then Ok((rs[k].energy, false))
      else if rs[k].energy < rs[k - 1].energy then Err(MeterFell)
      else Ok((Between(rs[k - 1], rs[k], t), true))
  }

  /** `interpolate_meter_value`: the linear search. */
  method Interpolate(t: int, rs: seq<Reading>) returns (r: Result<(int, bool), MeterError>)
    ensures r == ReadingAt(t, rs)
  {
    if rs == [] {
      return Err(EmptyReadings);
    }
    if t < rs[0].at || t > rs[|rs| - 1].at {
      return Err(OutOfRange);
    }
    for i := 0 to |rs|
      invariant FirstAtOrAfter(t, rs, i) == FirstAtOrAfter(t, rs, 0)
    {
      if rs[i].at == t {
        return Ok((rs[i].energy, false));
      }
      if rs[i].at > t {
        var a, b := rs[i - 1], rs[i];
        if b.energy < a.energy {
          return Err(MeterFell);
        }
        var rounded := Money.RoundHalfUp(Line(a, b, t), Money.UWH_PER_WH * (b.at - a.at));
        return Ok((Min(b.energy, Max(a.energy, Money.UWH_PER_WH * rounded)), true));
      }
    }
    assert false;
  }

  ghost predicate InRange(t: int, rs: seq<Reading>) {
    rs != [] && rs[0].at <= t <= rs[|rs| - 1].at
  }

  /** Good readings always yield a value inside their range. */
  ghost function Value(t: int, rs: seq<Reading>): (v: int)
    requires GoodReadings(rs) && InRange(t, rs)
    ensures ReadingAt(t, rs).Ok? && v == ReadingAt(t, rs).value.0
  {
    ReadingAt(t, rs).value.0
  }

  lemma ExactAtSample(k: nat, rs: seq<Reading>)
    requires GoodReadings(rs) && k < |rs|
    ensures InRange(rs[k].at, rs) && ReadingAt(rs[k].at, rs) == Ok((rs[k].energy, false))
  {
    assert rs[0].at <= rs[k].at <= rs[|rs| - 1].at;
    var j := FirstAtOrAfter(rs[k].at, rs, 0);
    assert j <= k;
  }

  /** Strictly between two neighbouring samples the value stays inside their bracket and
      within half a Wh (half a million micro-Wh) of the true line. */
  lemma BracketAndHalfWh(t: int, k: nat, rs: seq<Reading>)
    requires GoodReadings(rs) && k + 1 < |rs| && rs[k].at < t < rs[k + 1].at
    ensures InRange(t, rs) && ReadingAt(t, rs).Ok?
    ensures rs[k].energy <= Value(t, rs) <= rs[k + 1].energy
    ensures 2 * Abs(Value(t, rs) * (rs[k + 1].at - rs[k].at) - Line(rs[k], rs[k + 1], t))
         <= Money.UWH_PER_WH * (rs[k + 1].at - rs[k].at)
  {
    assert rs[0].at <= rs[k].at && rs[k + 1].at <= rs[|rs| - 1].at;
    assert FirstAtOrAfter(t, rs, 0) == k + 1;
    BetweenNearLine(rs[k], rs[k + 1], t);
  }

  lemma LineInside(a: Reading, b: Reading, t: int)
    requires a.at <= t <= b.at && a.energy <= b.energy
    ensures a.energy * (b.at - a.at) <= Line(a, b, t) <= b.energy * (b.at - a.at)
  {
    var rise, d, x := b.energy - a.energy, b.at - a.at, t - a.at;
    MulNonneg(rise, x);
    MulNonneg(rise, d - x);
    assert rise * (d - x) == rise * d - rise * x;
    assert b.energy * d == a.energy * d + rise * d;
  }

  lemma MulNonneg(x: int, y: int)
    requires x >= 0 && y >= 0
    ensures x * y >= 0
  {
  }

  /** Clamping a value into an interval that contains the target moves it no further away. */
  lemma ClampNear(lo: int, hi: int, raw: int, d: int, target: int, slack: int)
    requires d > 0 && lo <= hi && lo * d <= target <= hi * d
    requires 2 * Abs(raw * d - target) <= slack
    ensures 2 * Abs(Min(hi, Max(lo, raw)) * d - target) <= slack
  {
    Money.MulOrder(raw, lo, d);
    Money.MulOrder(hi, raw, d);
  }

  lemma BetweenNearLine(a: Reading, b: Reading, t: int)
    requires a.at < t < b.at && a.energy <= b.energy
    ensures 2 * Abs(Between(a, b, t) * (b.at - a.at) - Line(a, b, t)) <= Money.UWH_PER_WH * (b.at - a.at)
  {
    var d, line := b.at - a.at, Line(a, b, t);
    var den := Money.UWH_PER_WH * d;
    var r := Money.RoundHalfUp(line, den);
    NearestError(line, den);
    assert r * den == (Money.UWH_PER_WH * r) * d;
    LineInside(a, b, t);
    ClampNear(a.energy, b.energy, Money.UWH_PER_WH * r, d, line, den);
  }

  lemma NearestError(num: int, den: int)
    requires den > 0
    ensures 2 * Abs(Money.RoundHalfUp(num, den) * den - num) <= den
  {
    Money.RoundIsNearest(num, den);
    Money.Distribute(Money.RoundHalfUp(num, den), den);
  }

  lemma BetweenMonotone(a: Reading, b: Reading, t: int, u: int)
    requires a.at < t <= u < b.at && a.energy <= b.energy
    ensures Between(a, b, t) <= Between(a, b, u)
  {
    var den := Money.UWH_PER_WH * (b.at - a.at);
    assert (b.energy - a.energy) * (t - a.at) <= (b.energy - a.energy) * (u - a.at);
    Money.RoundMonotone(Line(a, b, t), Line(a, b, u), den);
  }

  /** The interpolated register never runs backwards in time. */
  lemma ValueMonotone(t: int, u: int, rs: seq<Reading>)
    requires GoodReadings(rs) && InRange(t, rs) && InRange(u, rs) && t <= u
    ensures Value(t, rs) <= Value(u, rs)
  {
    var i, j := FirstAtOrAfter(t, rs, 0), FirstAtOrAfter(u, rs, 0);
    assert i <= j;
    if i == j {
      if rs[i].at > u {
        BetweenMonotone(rs[i - 1], rs[i], t, u);
      }
    } else {
      assert Value(t, rs) <= rs[i].energy <= rs[j - 1].energy <= Value(u, rs);
    }
  }
}
