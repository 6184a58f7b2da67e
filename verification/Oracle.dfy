/** The independent price oracle of the staging contract (simulator/t108_contract.py). */
module Oracle {
  import opened Prelude
  import opened Calendar
  import opened Interpolation
  import Money

  /** A run manifest: seconds for durations, Wh for energy, VND per kWh for the three rates. */
  datatype Manifest = Manifest(
    staging: bool, startedAt: int, off: int, duration: int, boundary: int, sample: int, energyWh: int,
    rate0: int, rate1: int, rate2: int, participants: int)

  function LocalMinute(m: Manifest): int { ((m.startedAt + m.off) % DAY) / MINUTE }

  function FirstBoundaryMinute(m: Manifest): int { LocalMinute(m) + m.boundary / 60 }

  function SecondBoundaryMinute(m: Manifest): int { LocalMinute(m) + (m.duration + 120 + 59) / 60 }

  function EndedAt(m: Manifest): int { m.startedAt + m.duration * SECOND }

  function BoundaryAt(m: Manifest): int { m.startedAt + m.boundary * SECOND }

  /** `validate_contract` with the field bounds; the derived identities are not part of it here. */
  predicate ValidContract(m: Manifest) {
    && 2 <= m.duration <= 3600 && 1 <= m.sample <= 60 && 1 <= m.energyWh <= 100000
    && (m.startedAt + m.off) % MINUTE == 0
    && 0 < m.boundary < m.duration && m.boundary % 60 == 0 && (m.staging ==> m.boundary == 180)
    && m.rate0 > 0 && m.rate1 > 0 && m.rate2 > 0 && m.rate0 != m.rate1
    && 1 <= m.participants <= 100 && (m.staging ==> m.participants == 20)
    && LocalDate(m.startedAt, m.off) == LocalDate(m.startedAt + (m.duration + 120) * SECOND, m.off)
    && SecondBoundaryMinute(m) < 1440 && FirstBoundaryMinute(m) > 0
  }

  // ---------- readings ----------

  /** `Decimal.quantize` without a mode: nearest, ties to even. */
  function RoundHalfEven(num: nat, den: int): int
    requires den > 0
  {
    var whole, remainder := num / den, num % den;
    if 2 * remainder > den || (2 * remainder == den && whole % 2 == 1) then whole + 1 else whole
  }

  function Offsets(m: Manifest): set<int> {
    {0, m.boundary, m.duration} + set k | 0 <= k < m.duration && m.sample > 0 && k % m.sample == 0
  }

  /** The register shown at an offset: 1000 Wh plus the share of the energy, to six decimals of a Wh. */
  function Shown(m: Manifest, offset: int): int
    requires m.duration > 0 && offset >= 0 && m.energyWh >= 0
  {
    1000 * Money.UWH_PER_WH + RoundHalfEven(m.energyWh * Money.UWH_PER_WH * offset, m.duration)
  }

  function ReadingsAt(m: Manifest, offsets: seq<int>): seq<Reading>
    requires m.duration > 0 && m.energyWh >= 0 && forall i :: 0 <= i < |offsets| ==> offsets[i] >= 0
  {
    seq(|offsets|, i requires 0 <= i < |offsets| => Reading(m.startedAt + offsets[i] * SECOND, Shown(m, offsets[i])))
  }

  function Readings(m: Manifest): seq<Reading>
    requires ValidContract(m)
  {
    var offsets := SortedSeq(Offsets(m));
    assert forall i :: 0 <= i < |offsets| ==> offsets[i] in Offsets(m);
    ReadingsAt(m, offsets)
  }

  // ---------- expected segments ----------

  datatype Expected = Expected(start: int, end: int, energyWh: real, rate: int, amount: int)

  datatype OracleError = WrongEnds | Unordered | MissingBracket

  predicate ValidSamples(samples: seq<Reading>) {
    forall i :: 0 <= i < |samples| - 1 ==>
      samples[i].at < samples[i + 1].at && samples[i].energy <= samples[i + 1].energy
  }

  /** The unrounded line through two samples, in Wh. */
  function Mixed(left: Reading, right: Reading, stamp: int): real
    requires left.at < right.at
  {
    var fraction := (stamp - left.at) as real / (right.at - left.at) as real;
    (left.energy as real + (right.energy - left.energy) as real * fraction) / 1000000.0
  }

  /** Piecewise interpolation by the first pair of samples around the stamp. */
  function At(stamp: int, samples: seq<Reading>): Option<real>
    requires ValidSamples(samples)
  {
    if |samples| < 2 then None
    else if samples[0].at <= stamp <= samples[1].at then Some(Mixed(samples[0], samples[1], stamp))
    else At(stamp, samples[1..])
  }

  /** `ROUND_HALF_UP` to a whole number of VND, for amounts that are not negative. */
  function HalfUp(x: real): int { (x + 0.5).Floor }

  function PricedPiece(start: int, end: int, wh: real, rate: int): Expected {
    Expected(start, end, wh, rate, HalfUp(wh * rate as real / 1000.0))
  }

  function ExpectedPiece(start: int, end: int, rate: int, samples: seq<Reading>): Result<Expected, OracleError>
    requires ValidSamples(samples)
  {
    var a, b := At(start, samples), At(end, samples);
    if a.None? || b.None? then Err(MissingBracket) else Ok(PricedPiece(start, end, b.value - a.value, rate))
  }

  function ExpectedOf(m: Manifest, samples: seq<Reading>): Result<seq<Expected>, OracleError>
    requires samples != []
  {
    if samples[0].at != m.startedAt || samples[|samples| - 1].at != EndedAt(m) then Err(WrongEnds)
    else if !ValidSamples(samples) then Err(Unordered)
    else
      var e0 := ExpectedPiece(m.startedAt, BoundaryAt(m), m.rate0, samples);
      var e1 := ExpectedPiece(BoundaryAt(m), EndedAt(m), m.rate1, samples);
      if e0.Err? || e1.Err? then Err(MissingBracket) else Ok([e0.value, e1.value])
  }

  method FindAt(stamp: int, samples: seq<Reading>) returns (r: Option<real>)
    requires ValidSamples(samples) && samples != []
    ensures r == At(stamp, samples)
  {
    for i := 0 to |samples| - 1
      invariant ValidSamples(samples[i..]) && At(stamp, samples[i..]) == At(stamp, samples)
    {
      assert samples[i..][1..] == samples[i + 1..];
      if samples[i].at <= stamp <= samples[i + 1].at {
        return Some(Mixed(samples[i], samples[i + 1], stamp));
      }
    }
    return None;
  }

  method CheckOrder(samples: seq<Reading>) returns (ok: bool)
    requires samples != []
    ensures ok == ValidSamples(samples)
  {
    for i := 0 to |samples| - 1
      invariant forall k :: 0 <= k < i ==> samples[k].at < samples[k + 1].at && samples[k].energy <= samples[k + 1].energy
    {
      if samples[i + 1].at <= samples[i].at || samples[i + 1].energy < samples[i].energy {
        return false;
      }
    }
    return true;
  }

  /** `expected_segments`. */
  method ExpectedSegments(m: Manifest, samples: seq<Reading>) returns (r: Result<seq<Expected>, OracleError>)
    requires samples != []
    ensures r == ExpectedOf(m, samples)
  {
    if samples[0].at != m.startedAt || samples[|samples| - 1].at != EndedAt(m) {
      return Err(WrongEnds);
    }
    var ordered := CheckOrder(samples);
    if !ordered {
      return Err(Unordered);
    }
    var points, rates := [m.startedAt, BoundaryAt(m), EndedAt(m)], [m.rate0, m.rate1, m.rate2];
    var result: seq<Expected> := [];
    for i := 0 to 2
      invariant |result| == i
      invariant i > 0 ==> ExpectedPiece(m.startedAt, BoundaryAt(m), m.rate0, samples) == Ok(result[0])
      invariant i > 1 ==> ExpectedPiece(BoundaryAt(m), EndedAt(m), m.rate1, samples) == Ok(result[1])
    {
      var a := FindAt(points[i], samples);
      var b := FindAt(points[i + 1], samples);
      if a.None? || b.None? {
        return Err(MissingBracket);
      }
      result := result + [PricedPiece(points[i], points[i + 1], b.value - a.value, rates[i])];
    }
    assert result == [result[0], result[1]];
    return Ok(result);
  }
}
