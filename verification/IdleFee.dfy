/** The occupation fee: started minutes after grace, split by local day (idle_fee.py, invoicing.py). */
module IdleFee {
  import opened Prelude
  import opened Calendar

  datatype FeeError = NegativeSetting | EndBeforeIdle

  function CeilMinutes(us: int): int { (us + MINUTE - 1) / MINUTE }

  /** `tinh_phi_chiem_tru`: billable minutes and their fee. */
  function Fee(idleSince: Option<int>, end: int, grace: int, rate: int): Result<(int, int), FeeError> {
    if grace < 0 || rate < 0 then Err(NegativeSetting)
    else if idleSince.None? then Ok((0, 0))
    else if end < idleSince.value then Err(EndBeforeIdle)
    else
      var minutes := Max(0, CeilMinutes(end - idleSince.value - grace * MINUTE));
      Ok((minutes, minutes * rate))
  }

  /** The least number of minutes that, after grace, reaches the end: the rounding-up rule itself. */
  lemma FeeCountsStartedMinutes(idle: int, end: int, grace: nat, rate: nat)
    requires idle <= end
    ensures Fee(Some(idle), end, grace, rate).Ok?
    ensures var (n, fee) := Fee(Some(idle), end, grace, rate).value;
            && n >= 0 && fee == n * rate
            && end <= idle + (grace + n) * MINUTE
            && (n > 0 ==> idle + (grace + n - 1) * MINUTE < end)
  {
  }

  /** What an invoice needs of the tariff version in force on a day. */
  datatype IdleRule = IdleRule(version: int, rate: nat, grace: nat)

  datatype IdleLine = IdleLine(date: int, from: int, to: int, rate: int, version: int, amount: int)

  /** Every local day that the half-open span touches has a tariff version. */
  ghost predicate DaysKnown(a: int, b: int, versions: map<int, IdleRule>, off: int) {
    forall d :: LocalDate(a, off) <= d <= LocalDate(b - 1, off) ==> d in versions
  }

  /** `count` minutes are started between `anchor` and `end`. */
  ghost predicate Started(anchor: int, count: nat, end: int) {
    count > 0 ==> anchor + (count - 1) * MINUTE < end <= anchor + count * MINUTE
  }

  lemma AnchorKnown(anchor: int, count: nat, end: int, versions: map<int, IdleRule>, off: int)
    requires count > 0 && Started(anchor, count, end) && DaysKnown(anchor, end, versions, off)
    ensures LocalDate(anchor, off) in versions
  {
    DateMonotone(anchor, end - 1, off);
  }

  // ---------- the simple form ----------

  /** One minute at a time, each at the rate of the local day it starts in. */
  ghost function PerMinuteFee(anchor: int, count: nat, end: int, versions: map<int, IdleRule>, off: int): int
    requires Started(anchor, count, end) && DaysKnown(anchor, end, versions, off)
    decreases count
  {
    if count == 0 then 0
    else
      AnchorKnown(anchor, count, end, versions, off);
      DateMonotone(anchor, anchor + MINUTE, off);
      versions[LocalDate(anchor, off)].rate + PerMinuteFee(anchor + MINUTE, count - 1, end, versions, off)
  }

  // ---------- the day-chunked form ----------

  /** Started-minute anchors left before the next local midnight, at most `count`. */
  function Span(anchor: int, count: nat, off: int): (span: nat)
    requires count > 0
    ensures 1 <= span <= count
  {
    DateBracket(anchor, off);
    var midnight := Midnight(LocalDate(anchor, off) + 1, off);
    Min(count, CeilMinutes(midnight - anchor))
  }

  /** Anchors of one span share a local day; if minutes remain, the next anchor is in the next day. */
  lemma SpanStaysInDay(anchor: int, count: nat, off: int)
    requires count > 0
    ensures var span := Span(anchor, count, off);
            && LocalDate(anchor + (span - 1) * MINUTE, off) == LocalDate(anchor, off)
            && (span < count ==> LocalDate(anchor + span * MINUTE, off) == LocalDate(anchor, off) + 1)
  {
    DateBracket(anchor, off);
    var d := LocalDate(anchor, off);
    var span := Span(anchor, count, off);
    var midnight := Midnight(d + 1, off);
    assert anchor <= anchor + (span - 1) * MINUTE < midnight;
    DateUnique(anchor + (span - 1) * MINUTE, d, off);
    if span < count {
      assert midnight <= anchor + span * MINUTE < midnight + MINUTE;
      DateUnique(anchor + span * MINUTE, d + 1, off);
    }
  }

  function LineOf(anchor: int, span: nat, end: int, date: int, rule: IdleRule): IdleLine {
    var to := Min(end, anchor + span * MINUTE);
    IdleLine(date, anchor, to, rule.rate, rule.version, Max(0, CeilMinutes(to - anchor)) * rule.rate)
  }

  function LinesFrom(anchor: int, count: nat, end: int, versions: map<int, IdleRule>, off: int): seq<IdleLine>
    requires Started(anchor, count, end) && DaysKnown(anchor, end, versions, off)
    decreases count
  {
    if count == 0 then []
    else
      AnchorKnown(anchor, count, end, versions, off);
      var d := LocalDate(anchor, off);
      var span := Span(anchor, count, off);
      DateMonotone(anchor, anchor + span * MINUTE, off);
      [LineOf(anchor, span, end, d, versions[d])]
      + LinesFrom(anchor + span * MINUTE, count - span, end, versions, off)
  }

  function AmountTotal(lines: seq<IdleLine>): int {
    if lines == [] then 0 else lines[0].amount + AmountTotal(lines[1..])
  }

  function MinuteTotal(lines: seq<IdleLine>): int {
    if lines == [] then 0 else CeilMinutes(lines[0].to - lines[0].from) + MinuteTotal(lines[1..])
  }

  ghost predicate TilesSpan(lines: seq<IdleLine>, a: int, b: int) {
    && lines != [] && lines[0].from == a && lines[|lines| - 1].to == b
    && (forall i :: 0 <= i < |lines| - 1 ==> lines[i].to == lines[i + 1].from)
    && (forall i :: 0 <= i < |lines| ==> lines[i].from < lines[i].to)
  }

  /** A line covers exactly its span of started minutes. */
  lemma LineCoversSpan(anchor: int, count: nat, span: nat, end: int)
    requires count > 0 && Started(anchor, count, end) && 1 <= span <= count
    ensures var to := Min(end, anchor + span * MINUTE);
            && anchor < to && CeilMinutes(to - anchor) == span
            && to == if span < count then anchor + span * MINUTE else end
  {
  }

  lemma {:induction false} PerMinuteChunk(
    anchor: int, count: nat, span: nat, end: int, versions: map<int, IdleRule>, off: int)
    requires count > 0 && Started(anchor, count, end) && DaysKnown(anchor, end, versions, off)
    requires span <= count
    requires span > 0 ==> LocalDate(anchor + (span - 1) * MINUTE, off) == LocalDate(anchor, off)
    ensures LocalDate(anchor, off) in versions
    ensures DaysKnown(anchor + span * MINUTE, end, versions, off)
    ensures PerMinuteFee(anchor, count, end, versions, off)
         == span * versions[LocalDate(anchor, off)].rate
            + PerMinuteFee(anchor + span * MINUTE, count - span, end, versions, off)
    decreases span
  {
    AnchorKnown(anchor, count, end, versions, off);
    DateMonotone(anchor, anchor + span * MINUTE, off);
    if span <= 1 {
    } else {
      var next := anchor + MINUTE;
      DateMonotone(anchor, next, off);
      DateMonotone(next, anchor + (span - 1) * MINUTE, off);
      assert next + (span - 2) * MINUTE == anchor + (span - 1) * MINUTE;
      PerMinuteChunk(next, count - 1, span - 1, end, versions, off);
      var rate := versions[LocalDate(anchor, off)].rate;
      assert span * rate == (span - 1) * rate + rate;
      assert next + (span - 1) * MINUTE == anchor + span * MINUTE;
    }
  }

  lemma {:induction false} HeadTotals(
    anchor: int, count: nat, span: nat, end: int, versions: map<int, IdleRule>, off: int, rest: seq<IdleLine>)
    requires count > 0 && Started(anchor, count, end) && DaysKnown(anchor, end, versions, off)
    requires span == Span(anchor, count, off) && DaysKnown(anchor + span * MINUTE, end, versions, off)
    requires Started(anchor + span * MINUTE, count - span, end) && LocalDate(anchor, off) in versions
    requires rest == LinesFrom(anchor + span * MINUTE, count - span, end, versions, off)
    ensures var lines, rate := LinesFrom(anchor, count, end, versions, off), versions[LocalDate(anchor, off)].rate;
            AmountTotal(lines) == span * rate + AmountTotal(rest) && MinuteTotal(lines) == span + MinuteTotal(rest)
  {
    LineCoversSpan(anchor, count, span, end);
    var d := LocalDate(anchor, off);
    var line := LineOf(anchor, span, end, d, versions[d]);
    assert LinesFrom(anchor, count, end, versions, off) == [line] + rest;
    assert ([line] + rest)[1..] == rest;
  }

  /** The chunked lines charge exactly the per-minute fee and account for each started minute once. */
  lemma {:induction false} LinesRefinePerMinute(
    anchor: int, count: nat, end: int, versions: map<int, IdleRule>, off: int)
    requires Started(anchor, count, end) && DaysKnown(anchor, end, versions, off)
    ensures AmountTotal(LinesFrom(anchor, count, end, versions, off)) == PerMinuteFee(anchor, count, end, versions, off)
    ensures MinuteTotal(LinesFrom(anchor, count, end, versions, off)) == count
    decreases count
  {
    if count == 0 {
    } else {
      var span := Span(anchor, count, off);
      var next := anchor + span * MINUTE;
      SpanStaysInDay(anchor, count, off);
      PerMinuteChunk(anchor, count, span, end, versions, off);
      LinesRefinePerMinute(next, count - span, end, versions, off);
      HeadTotals(anchor, count, span, end, versions, off, LinesFrom(next, count - span, end, versions, off));
    }
  }

  /** Line i is dated i days after the first and priced by that day's version. */
  ghost predicate DayByDay(lines: seq<IdleLine>, first: int, versions: map<int, IdleRule>, off: int) {
    forall i :: 0 <= i < |lines| ==>
      && lines[i].date == first + i == LocalDate(lines[i].from, off)
      && lines[i].date in versions
      && lines[i].rate == versions[lines[i].date].rate
      && lines[i].version == versions[lines[i].date].version
  }

  lemma PrependLine(line: IdleLine, rest: seq<IdleLine>, a: int, b: int, versions: map<int, IdleRule>, off: int)
    requires TilesSpan([line], a, line.to) && DayByDay([line], LocalDate(a, off), versions, off)
    requires rest == [] ==> line.to == b
    requires rest != [] ==> TilesSpan(rest, line.to, b) && DayByDay(rest, LocalDate(a, off) + 1, versions, off)
    ensures TilesSpan([line] + rest, a, b) && DayByDay([line] + rest, LocalDate(a, off), versions, off)
  {
    var lines := [line] + rest;
    assert lines[0] == [line][0];
    assert forall i :: 1 <= i < |lines| ==> lines[i] == rest[i - 1];
  }

  lemma HeadLine(anchor: int, count: nat, end: int, versions: map<int, IdleRule>, off: int)
    requires count > 0 && Started(anchor, count, end) && DaysKnown(anchor, end, versions, off)
    ensures LocalDate(anchor, off) in versions
    ensures var d := LocalDate(anchor, off);
            var span := Span(anchor, count, off);
            var line := LineOf(anchor, span, end, d, versions[d]);
            && TilesSpan([line], anchor, line.to) && DayByDay([line], d, versions, off)
            && line.to == if span < count then anchor + span * MINUTE else end
  {
    AnchorKnown(anchor, count, end, versions, off);
    LineCoversSpan(anchor, count, Span(anchor, count, off), end);
  }

  /** The lines run end to end from the anchor to the end, one line per local day, in day order,
      each priced by its day's version. */
  lemma {:induction false} LinesTileTheSpan(
    anchor: int, count: nat, end: int, versions: map<int, IdleRule>, off: int)
    requires count > 0 && Started(anchor, count, end) && DaysKnown(anchor, end, versions, off)
    ensures TilesSpan(LinesFrom(anchor, count, end, versions, off), anchor, end)
    ensures DayByDay(LinesFrom(anchor, count, end, versions, off), LocalDate(anchor, off), versions, off)
    decreases count
  {
    var span := Span(anchor, count, off);
    var next := anchor + span * MINUTE;
    HeadLine(anchor, count, end, versions, off);
    DateMonotone(anchor, next, off);
    var d := LocalDate(anchor, off);
    var line := LineOf(anchor, span, end, d, versions[d]);
    var rest := LinesFrom(next, count - span, end, versions, off);
    assert LinesFrom(anchor, count, end, versions, off) == [line] + rest;
    if span < count {
      LinesTileTheSpan(next, count - span, end, versions, off);
      SpanStaysInDay(anchor, count, off);
    }
    PrependLine(line, rest, anchor, end, versions, off);
  }

  // ---------- the loop ----------

  /** The business rejection, and the lookup of a day whose tariff was never loaded, which ends the program. */
  datatype IdleError = InvalidIdleInterval | MissingTariffDay

  /** The `while count` loop, lookups included. */
  function LoopLines(anchor: int, count: nat, end: int, versions: map<int, IdleRule>, off: int)
    : Result<seq<IdleLine>, IdleError>
    decreases count
  {
    if count == 0 then Ok([])
    else
      var d := LocalDate(anchor, off);
      if d !in versions then Err(MissingTariffDay)
      else
        var span := Span(anchor, count, off);
        Preceded([LineOf(anchor, span, end, d, versions[d])],
                 LoopLines(anchor + span * MINUTE, count - span, end, versions, off))
  }

  function Preceded(lines: seq<IdleLine>, rest: Result<seq<IdleLine>, IdleError>): Result<seq<IdleLine>, IdleError> {
    match rest case Ok(more) => Ok(lines + more) case Err(e) => Err(e)
  }

  /** `_idle_lines`, guards and lookups included. */
  function IdleLinesOrError(startedAt: int, idle: Option<int>, end: int, versions: map<int, IdleRule>, off: int)
    : Result<seq<IdleLine>, IdleError>
  {
    if idle.None? then Ok([])
    else if idle.value < startedAt || idle.value > end then Err(InvalidIdleInterval)
    else if idle.value == end then Ok([])
    else if LocalDate(idle.value, off) !in versions then Err(MissingTariffDay)
    else
      var grace := versions[LocalDate(idle.value, off)].grace;
      LoopLines(idle.value + grace * MINUTE, Max(0, CeilMinutes(end - idle.value - grace * MINUTE)), end, versions, off)
  }

  /** `_idle_lines` where every day is loaded. */
  function IdleLines(startedAt: int, idle: Option<int>, end: int, versions: map<int, IdleRule>, off: int)
    : Result<seq<IdleLine>, IdleError>
    requires DaysKnown(startedAt, end, versions, off)
  {
    if idle.None? then Ok([])
    else if idle.value < startedAt || idle.value > end then Err(InvalidIdleInterval)
    else if idle.value == end then Ok([])
    else
      DateMonotone(startedAt, idle.value, off);
      DateMonotone(idle.value, end - 1, off);
      var grace := versions[LocalDate(idle.value, off)].grace;
      var count := Max(0, CeilMinutes(end - idle.value - grace * MINUTE));
      var anchor := idle.value + grace * MINUTE;
      DateMonotone(startedAt, anchor, off);
      Ok(LinesFrom(anchor, count, end, versions, off))
  }

  lemma {:induction false} LoopLinesKnown(anchor: int, count: nat, end: int, versions: map<int, IdleRule>, off: int)
    requires Started(anchor, count, end) && DaysKnown(anchor, end, versions, off)
    ensures LoopLines(anchor, count, end, versions, off) == Ok(LinesFrom(anchor, count, end, versions, off))
    decreases count
  {
    if count == 0 {
    } else {
      AnchorKnown(anchor, count, end, versions, off);
      var span := Span(anchor, count, off);
      DateMonotone(anchor, anchor + span * MINUTE, off);
      LoopLinesKnown(anchor + span * MINUTE, count - span, end, versions, off);
    }
  }

  /** When every local day up to the end is loaded, every lookup succeeds. */
  lemma LookupsSucceed(startedAt: int, idle: Option<int>, end: int, versions: map<int, IdleRule>, off: int)
    requires DaysKnown(startedAt, end, versions, off)
    ensures IdleLinesOrError(startedAt, idle, end, versions, off) == IdleLines(startedAt, idle, end, versions, off)
  {
    if idle.Some? && startedAt <= idle.value < end {
      DateMonotone(startedAt, idle.value, off);
      DateMonotone(idle.value, end - 1, off);
      var grace := versions[LocalDate(idle.value, off)].grace;
      var anchor := idle.value + grace * MINUTE;
      DateMonotone(startedAt, anchor, off);
      LoopLinesKnown(anchor, Max(0, CeilMinutes(end - anchor)), end, versions, off);
    }
  }

  lemma LineFee(anchor: int, count: nat, span: nat, end: int, rate: nat)
    requires count > 0 && Started(anchor, count, end) && 1 <= span <= count
    ensures Fee(Some(anchor), Min(end, anchor + span * MINUTE), 0, rate) == Ok((span, span * rate))
    ensures Started(anchor + span * MINUTE, count - span, end)
  {
    LineCoversSpan(anchor, count, span, end);
  }

  /** One turn of the loop: the line up to the next local midnight. */
  method TakeLine(anchor: int, count: nat, end: int, versions: map<int, IdleRule>, off: int)
    returns (line: IdleLine, next: int, left: nat)
    requires count > 0 && Started(anchor, count, end) && LocalDate(anchor, off) in versions
    ensures left < count && Started(next, left, end)
    ensures LoopLines(anchor, count, end, versions, off) == Preceded([line], LoopLines(next, left, end, versions, off))
  {
    var day := LocalDate(anchor, off);
    var rule := versions[day];
    var span := Span(anchor, count, off);
    var lineEnd := Min(end, anchor + span * MINUTE);
    LineFee(anchor, count, span, end, rule.rate);
    LineCoversSpan(anchor, count, span, end);
    var fee := Fee(Some(anchor), lineEnd, 0, rule.rate);
    line := IdleLine(day, anchor, lineEnd, rule.rate, rule.version, fee.value.1);
    assert line == LineOf(anchor, span, end, day, rule);
    next, left := anchor + span * MINUTE, count - span;
  }

  lemma PrecededTwice(lines: seq<IdleLine>, line: IdleLine, rest: Result<seq<IdleLine>, IdleError>)
    ensures Preceded(lines, Preceded([line], rest)) == Preceded(lines + [line], rest)
  {
    if rest.Ok? {
      assert lines + ([line] + rest.value) == lines + [line] + rest.value;
    }
  }

  method ChunkMinutes(anchor0: int, count0: nat, end: int, versions: map<int, IdleRule>, off: int)
    returns (r: Result<seq<IdleLine>, IdleError>)
    requires Started(anchor0, count0, end)
    ensures r == LoopLines(anchor0, count0, end, versions, off)
  {
    var anchor := anchor0;
    var count: nat := count0;
    var lines: seq<IdleLine> := [];
    ghost var all := LoopLines(anchor0, count0, end, versions, off);
    ghost var rest := all;
    assert all.Ok? ==> [] + all.value == all.value;
    while count > 0
      invariant Started(anchor, count, end) && rest == LoopLines(anchor, count, end, versions, off)
      invariant all == Preceded(lines, rest)
      decreases count
    {
      if LocalDate(anchor, off) !in versions {
        return Err(MissingTariffDay);
      }
      var line, next, left := TakeLine(anchor, count, end, versions, off);
      rest := LoopLines(next, left, end, versions, off);
      PrecededTwice(lines, line, rest);
      lines, anchor, count := lines + [line], next, left;
    }
    assert lines + [] == lines;
    return Ok(lines);
  }

  /** `_idle_lines`. */
  method BuildIdleLines(startedAt: int, idle: Option<int>, end: int, versions: map<int, IdleRule>, off: int)
    returns (r: Result<seq<IdleLine>, IdleError>)
    ensures r == IdleLinesOrError(startedAt, idle, end, versions, off)
  {
    if idle.None? {
      return Ok([]);
    }
    if idle.value < startedAt || idle.value > end {
      return Err(InvalidIdleInterval);
    }
    if idle.value == end {
      return Ok([]);
    }
    if LocalDate(idle.value, off) !in versions {
      return Err(MissingTariffDay);
    }
    var initial := versions[LocalDate(idle.value, off)];
    var count: nat := Fee(Some(idle.value), end, initial.grace, 1).value.0;
    r := ChunkMinutes(idle.value + initial.grace * MINUTE, count, end, versions, off);
  }

  ghost function GraceEnd(idle: int, versions: map<int, IdleRule>, off: int): int
    requires LocalDate(idle, off) in versions
  {
    idle + versions[LocalDate(idle, off)].grace * MINUTE
  }

  lemma MinutesStarted(anchor: int, end: int)
    ensures var count := Max(0, CeilMinutes(end - anchor)); (count > 0 <==> anchor < end) && Started(anchor, count, end)
  {
  }

  lemma {:induction false} StartedAfterGrace(startedAt: int, idle: int, end: int, versions: map<int, IdleRule>, off: int)
    requires startedAt <= idle < end && DaysKnown(startedAt, end, versions, off)
    ensures LocalDate(idle, off) in versions
    ensures var graceEnd := GraceEnd(idle, versions, off);
            var count := Max(0, CeilMinutes(end - graceEnd));
            && (count > 0 <==> graceEnd < end)
            && Started(graceEnd, count, end) && DaysKnown(graceEnd, end, versions, off)
            && IdleLines(startedAt, Some(idle), end, versions, off)
               == Ok(LinesFrom(graceEnd, count, end, versions, off))
  {
    DateMonotone(startedAt, idle, off);
    DateMonotone(idle, end - 1, off);
    var graceEnd := GraceEnd(idle, versions, off);
    DateMonotone(startedAt, graceEnd, off);
    MinutesStarted(graceEnd, end);
    assert end - idle - versions[LocalDate(idle, off)].grace * MINUTE == end - graceEnd;
  }

  /** The fee of an occupation interval: nothing within grace, otherwise the per-minute sum over the
      started minutes after grace, tiled from the end of grace to the unplug. */
  lemma {:induction false} OccupationFee(startedAt: int, idle: int, end: int, versions: map<int, IdleRule>, off: int)
    requires startedAt <= idle < end && DaysKnown(startedAt, end, versions, off)
    ensures LocalDate(idle, off) in versions && IdleLines(startedAt, Some(idle), end, versions, off).Ok?
    ensures var graceEnd := GraceEnd(idle, versions, off);
            var count := Max(0, CeilMinutes(end - graceEnd));
            var lines := IdleLines(startedAt, Some(idle), end, versions, off).value;
            && Started(graceEnd, count, end) && DaysKnown(graceEnd, end, versions, off)
            && AmountTotal(lines) == PerMinuteFee(graceEnd, count, end, versions, off)
            && MinuteTotal(lines) == count
            && (end <= graceEnd ==> lines == [])
            && (graceEnd < end ==>
                  TilesSpan(lines, graceEnd, end) && DayByDay(lines, LocalDate(graceEnd, off), versions, off))
  {
    StartedAfterGrace(startedAt, idle, end, versions, off);
    var graceEnd := GraceEnd(idle, versions, off);
    var count := Max(0, CeilMinutes(end - graceEnd));
    LinesRefinePerMinute(graceEnd, count, end, versions, off);
    if graceEnd < end {
      LinesTileTheSpan(graceEnd, count, end, versions, off);
    }
  }
}
