/** Storing live and late meter samples of one session (charging/service.py). */
module MeterStore {
  import opened Prelude

  datatype Key = Key(measurand: string, phase: string, location: string)

  const ENERGY := "Energy.Active.Import.Register"
  const OUTLET := Key(ENERGY, "", "Outlet")
  const REGRESSION := "meter_regression"
  const CONFLICT := "conflicting_meter_timestamp"

  type Series = map<int, int>

  /** A sampled value after unit conversion; `None` is a value the converter refuses. */
  datatype Sample = Sample(key: Key, value: Option<int>)

  datatype Block = Block(timestamp: int, samples: seq<Sample>)

  datatype Point = Point(at: int, key: Key, value: int)

  /** The session facts that sample storage reads but does not change. */
  datatype Context = Context(startedAt: int, meterStart: int, endedAt: Option<int>)

  datatype Store = Store(series: map<Key, Series>, reasons: seq<string>)

  function SeriesOf(series: map<Key, Series>, k: Key): Series {
    if k in series then series[k] else map[]
  }

  /** `review`: append a reason once. */
  function Review(reasons: seq<string>, reason: string): seq<string> {
    if reason in reasons then reasons else reasons + [reason]
  }

  // ---------- flattening messages ----------

  function SamplePoints(at: int, samples: seq<Sample>): seq<Point> {
    if samples == [] then []
    else
      var init, s := SamplePoints(at, samples[..|samples| - 1]), samples[|samples| - 1];
      if s.value.None? then init else init + [Point(at, s.key, s.value.value)]
  }

  function PointsOf(blocks: seq<Block>): seq<Point> {
    if blocks == [] then []
    else
      var b := blocks[|blocks| - 1];
      PointsOf(blocks[..|blocks| - 1]) + SamplePoints(b.timestamp, b.samples)
  }

  function PlaceBlock(b: Block, blocks: seq<Block>): seq<Block> {
    if blocks == [] || blocks[|blocks| - 1].timestamp <= b.timestamp then blocks + [b]
    else PlaceBlock(b, blocks[..|blocks| - 1]) + [blocks[|blocks| - 1]]
  }

  /** The stable `sorted(blocks, key=timestamp)`. */
  function SortBlocks(blocks: seq<Block>): seq<Block> {
    if blocks == [] then [] else PlaceBlock(blocks[|blocks| - 1], SortBlocks(blocks[..|blocks| - 1]))
  }

  // ---------- late samples ----------

  predicate Accepted(c: Context, at: int) {
    c.startedAt <= at && (c.endedAt.None? || at <= c.endedAt.value)
  }

  function Before(points: Series, at: int): set<int> { set t | t in points.Keys && t < at }

  function After(points: Series, at: int): set<int> { set t | t in points.Keys && t > at }

  /** The reading a late sample must not fall below: its predecessor, or the start meter. */
  function Previous(c: Context, k: Key, points: Series, at: int): Option<int> {
    var before := Before(points, at);
    if before != {} then Some(points[Greatest(before)])
    else if k == OUTLET then Some(c.meterStart)
    else None
  }

  function Following(points: Series, at: int): Option<int> {
    var after := After(points, at);
    if after != {} then Some(points[Least(after)]) else None
  }

  predicate OutOfOrder(c: Context, p: Point, points: Series) {
    && p.key.measurand == ENERGY
    && (|| (Previous(c, p.key, points, p.at).Some? && p.value < Previous(c, p.key, points, p.at).value)
        || (Following(points, p.at).Some? && p.value > Following(points, p.at).value))
  }

  function BackfillStep(c: Context, st: Store, p: Point): Store {
    var points := SeriesOf(st.series, p.key);
    if !Accepted(c, p.at) then st
    else if p.at in points then
      if points[p.at] != p.value then st.(reasons := Review(st.reasons, CONFLICT)) else st
    else
      Store(st.series[p.key := points[p.at := p.value]],
            if OutOfOrder(c, p, points) then Review(st.reasons, REGRESSION) else st.reasons)
  }

  function Backfill(c: Context, st: Store, pts: seq<Point>): Store {
    if pts == [] then st else BackfillStep(c, Backfill(c, st, pts[..|pts| - 1]), pts[|pts| - 1])
  }

  // ---------- live samples ----------

  function Newest(points: Series): Option<(int, int)> {
    if points.Keys == {} then None else Some((Greatest(points.Keys), points[Greatest(points.Keys)]))
  }

  /** The reading a live sample is compared with; the outlet register starts from the start meter. */
  function Reference(c: Context, k: Key, newest: Option<(int, int)>): Option<(int, int)> {
    if newest.None? && k == OUTLET then Some((c.startedAt, c.meterStart)) else newest
  }

  function LiveStep(c: Context, st: Store, p: Point): Store {
    var points := SeriesOf(st.series, p.key);
    var known := Reference(c, p.key, Newest(points));
    if known.Some? && p.at < known.value.0 then st
    else if known.Some? && p.at == known.value.0 then
      if p.value != known.value.1 then st.(reasons := Review(st.reasons, CONFLICT)) else st
    else
      var reasons :=
        if known.Some? && p.key.measurand == ENERGY && p.value < known.value.1 then Review(st.reasons, REGRESSION)
        else st.reasons;
      if p.at < c.startedAt then st.(reasons := reasons)
      else Store(st.series[p.key := points[p.at := p.value]], reasons)
  }

  function Live(c: Context, st: Store, pts: seq<Point>): Store {
    if pts == [] then st else LiveStep(c, Live(c, st, pts[..|pts| - 1]), pts[|pts| - 1])
  }

  // ---------- folding messages ----------

  lemma {:induction false} BackfillLast(c: Context, st: Store, pts: seq<Point>)
    requires pts != []
    ensures Backfill(c, st, pts) == BackfillStep(c, Backfill(c, st, pts[..|pts| - 1]), pts[|pts| - 1])
  {
  }

  lemma {:induction false} BackfillConcat(c: Context, st: Store, a: seq<Point>, b: seq<Point>)
    ensures Backfill(c, st, a + b) == Backfill(c, Backfill(c, st, a), b)
  {
    if b == [] {
      assert a + b == a;
    } else {
      BackfillConcat(c, st, a, b[..|b| - 1]);
      BackfillLast(c, st, a + b);
      BackfillLast(c, Backfill(c, st, a), b);
      assert (a + b)[..|a + b| - 1] == a + b[..|b| - 1];
    }
  }

  lemma {:induction false} LiveLast(c: Context, st: Store, pts: seq<Point>)
    requires pts != []
    ensures Live(c, st, pts) == LiveStep(c, Live(c, st, pts[..|pts| - 1]), pts[|pts| - 1])
  {
  }

  lemma {:induction false} LiveConcat(c: Context, st: Store, a: seq<Point>, b: seq<Point>)
    ensures Live(c, st, a + b) == Live(c, Live(c, st, a), b)
  {
    if b == [] {
      assert a + b == a;
    } else {
      LiveConcat(c, st, a, b[..|b| - 1]);
      LiveLast(c, st, a + b);
      LiveLast(c, Live(c, st, a), b);
      assert (a + b)[..|a + b| - 1] == a + b[..|b| - 1];
    }
  }

  // ---------- the loops ----------

  /** One late sample against its neighbours in the stored series. */
  method AddLate(c: Context, st: Store, p: Point) returns (r: Store)
    ensures r == BackfillStep(c, st, p)
  {
    if p.at < c.startedAt || (c.endedAt.Some? && p.at > c.endedAt.value) {
      return st;
    }
    var points := SeriesOf(st.series, p.key);
    if p.at in points {
      if points[p.at] != p.value {
        return st.(reasons := Review(st.reasons, CONFLICT));
      }
      return st;
    }
    var reasons := st.reasons;
    if p.key.measurand == ENERGY {
      var previous, following := Previous(c, p.key, points, p.at), Following(points, p.at);
      if (previous.Some? && p.value < previous.value) || (following.Some? && p.value > following.value) {
        reasons := Review(reasons, REGRESSION);
      }
    }
    return Store(st.series[p.key := points[p.at := p.value]], reasons);
  }

  method StoreLateBlock(c: Context, st0: Store, b: Block) returns (st: Store)
    ensures st == Backfill(c, st0, SamplePoints(b.timestamp, b.samples))
  {
    st := st0;
    for j := 0 to |b.samples|
      invariant st == Backfill(c, st0, SamplePoints(b.timestamp, b.samples[..j]))
    {
      var s := b.samples[j];
      assert b.samples[..j + 1][..j] == b.samples[..j];
      if s.value.Some? {
        var p := Point(b.timestamp, s.key, s.value.value);
        ghost var pts := SamplePoints(b.timestamp, b.samples[..j]);
        assert (pts + [p])[..|pts|] == pts;
        st := AddLate(c, st, p);
      }
    }
    assert b.samples[..|b.samples|] == b.samples;
  }

  /** `store_recovery_samples`: the blocks in time order, each against the series stored so far. */
  method StoreRecoverySamples(c: Context, st0: Store, blocks: seq<Block>) returns (st: Store)
    ensures st == Backfill(c, st0, PointsOf(SortBlocks(blocks)))
  {
    st := st0;
    var sorted := SortBlocks(blocks);
    for i := 0 to |sorted|
      invariant st == Backfill(c, st0, PointsOf(sorted[..i]))
    {
      assert sorted[..i + 1][..i] == sorted[..i];
      BackfillConcat(c, st0, PointsOf(sorted[..i]), SamplePoints(sorted[i].timestamp, sorted[i].samples));
      st := StoreLateBlock(c, st, sorted[i]);
    }
    assert sorted[..|sorted|] == sorted;
  }

  /** The `latest` dictionary holds the newest stored reading of each series. */
  ghost predicate LatestSound(latest: map<Key, (int, int)>, series: map<Key, Series>) {
    forall k :: Newest(SeriesOf(series, k)) == if k in latest then Some(latest[k]) else None
  }

  lemma NewestAfterAppend(points: Series, at: int, value: int)
    requires forall t :: t in points ==> t < at
    ensures Newest(points[at := value]) == Some((at, value))
  {
    var keys := points[at := value].Keys;
    assert at in keys;
    var m := Greatest(keys);
    assert m in points || m == at;
  }

  lemma NewestBounds(points: Series, at: int)
    requires Newest(points).Some? ==> Newest(points).value.0 < at
    ensures forall t :: t in points ==> t < at
  {
  }

  lemma LatestAfterAppend(latest: map<Key, (int, int)>, series: map<Key, Series>, p: Point)
    requires LatestSound(latest, series)
    requires p.key in latest ==> latest[p.key].0 < p.at
    ensures LatestSound(latest[p.key := (p.at, p.value)],
                        series[p.key := SeriesOf(series, p.key)[p.at := p.value]])
  {
    var points := SeriesOf(series, p.key);
    assert Newest(points) == if p.key in latest then Some(latest[p.key]) else None;
    NewestBounds(points, p.at);
    NewestAfterAppend(points, p.at, p.value);
    var series' := series[p.key := points[p.at := p.value]];
    forall k ensures Newest(SeriesOf(series', k)) ==
                     if k == p.key then Some((p.at, p.value)) else if k in latest then Some(latest[k]) else None
    {
      if k != p.key {
        assert SeriesOf(series', k) == SeriesOf(series, k);
      }
    }
  }

  /** One live sample against the newest reading. */
  method AddLive(c: Context, st: Store, latest: map<Key, (int, int)>, p: Point)
    returns (r: Store, latest': map<Key, (int, int)>)
    requires LatestSound(latest, st.series)
    ensures r == LiveStep(c, st, p) && LatestSound(latest', r.series)
  {
    var points := SeriesOf(st.series, p.key);
    var newest := if p.key in latest then Some(latest[p.key]) else None;
    assert newest == Newest(points);
    var known := Reference(c, p.key, newest);
    var reasons := st.reasons;
    if known.Some? {
      if p.at < known.value.0 {
        return st, latest;
      }
      if p.at == known.value.0 {
        if p.value != known.value.1 {
          reasons := Review(reasons, CONFLICT);
        }
        return st.(reasons := reasons), latest;
      }
      if p.key.measurand == ENERGY && p.value < known.value.1 {
        reasons := Review(reasons, REGRESSION);
      }
    }
    if p.at < c.startedAt {
      return st.(reasons := reasons), latest;
    }
    LatestAfterAppend(latest, st.series, p);
    r := Store(st.series[p.key := points[p.at := p.value]], reasons);
    latest' := latest[p.key := (p.at, p.value)];
  }

  method StoreLiveBlock(c: Context, st0: Store, latest0: map<Key, (int, int)>, b: Block)
    returns (st: Store, latest: map<Key, (int, int)>)
    requires LatestSound(latest0, st0.series)
    ensures st == Live(c, st0, SamplePoints(b.timestamp, b.samples)) && LatestSound(latest, st.series)
  {
    st, latest := st0, latest0;
    for j := 0 to |b.samples|
      invariant st == Live(c, st0, SamplePoints(b.timestamp, b.samples[..j]))
      invariant LatestSound(latest, st.series)
    {
      var s := b.samples[j];
      assert b.samples[..j + 1][..j] == b.samples[..j];
      if s.value.Some? {
        var p := Point(b.timestamp, s.key, s.value.value);
        ghost var pts := SamplePoints(b.timestamp, b.samples[..j]);
        assert (pts + [p])[..|pts|] == pts;
        st, latest := AddLive(c, st, latest, p);
      }
    }
    assert b.samples[..|b.samples|] == b.samples;
  }

  /** `store_samples` without backfill: blocks in arrival order, tracked by the `latest` dictionary. */
  method StoreLiveSamples(c: Context, st0: Store, latest0: map<Key, (int, int)>, blocks: seq<Block>)
    returns (st: Store, latest: map<Key, (int, int)>)
    requires LatestSound(latest0, st0.series)
    ensures st == Live(c, st0, PointsOf(blocks)) && LatestSound(latest, st.series)
  {
    st, latest := st0, latest0;
    for i := 0 to |blocks|
      invariant st == Live(c, st0, PointsOf(blocks[..i]))
      invariant LatestSound(latest, st.series)
    {
      assert blocks[..i + 1][..i] == blocks[..i];
      LiveConcat(c, st0, PointsOf(blocks[..i]), SamplePoints(blocks[i].timestamp, blocks[i].samples));
      st, latest := StoreLiveBlock(c, st, latest, blocks[i]);
    }
    assert blocks[..|blocks|] == blocks;
  }
}
