/** What a report of samples leaves in the store, live and late, with or without conflicts. */
module SampleStorage {
  import opened Prelude
  import opened MeterStore
  import opened MeterProofs
  import opened Occupation

  // ---------- the order of blocks ----------

  ghost predicate InTimeOrder(blocks: seq<Block>) {
    forall i, j :: 0 <= i < j < |blocks| ==> blocks[i].timestamp <= blocks[j].timestamp
  }

  /** The blocks of one time stamp, in their order. */
  function AtTime(blocks: seq<Block>, t: int): seq<Block> {
    if blocks == [] then []
    else
      var init, b := AtTime(blocks[..|blocks| - 1], t), blocks[|blocks| - 1];
      if b.timestamp == t then init + [b] else init
  }

  lemma {:induction false} AtTimeAppend(blocks: seq<Block>, b: Block, t: int)
    ensures AtTime(blocks + [b], t) == if b.timestamp == t then AtTime(blocks, t) + [b] else AtTime(blocks, t)
  {
    assert (blocks + [b])[..|blocks|] == blocks;
  }

  lemma {:induction false} NoneAtTime(blocks: seq<Block>, t: int)
    requires forall i :: 0 <= i < |blocks| ==> blocks[i].timestamp != t
    ensures AtTime(blocks, t) == []
  {
    if blocks == [] {
    } else {
      NoneAtTime(blocks[..|blocks| - 1], t);
    }
  }

  lemma {:induction false} PlaceBlockSorts(b: Block, blocks: seq<Block>, t: int)
    requires InTimeOrder(blocks)
    ensures InTimeOrder(PlaceBlock(b, blocks))
    ensures AtTime(PlaceBlock(b, blocks), t) == if b.timestamp == t then AtTime(blocks, t) + [b] else AtTime(blocks, t)
  {
    if blocks == [] || blocks[|blocks| - 1].timestamp <= b.timestamp {
      AtTimeAppend(blocks, b, t);
    } else {
      var init, last := blocks[..|blocks| - 1], blocks[|blocks| - 1];
      PlaceBlockSorts(b, init, t);
      AtTimeAppend(PlaceBlock(b, init), last, t);
      forall i | 0 <= i < |PlaceBlock(b, init)| ensures PlaceBlock(b, init)[i].timestamp <= last.timestamp {
        PlaceBlockMembers(b, init, PlaceBlock(b, init)[i]);
      }
    }
  }

  lemma {:induction false} SortBlocksLast(blocks: seq<Block>)
    requires blocks != []
    ensures SortBlocks(blocks) == PlaceBlock(blocks[|blocks| - 1], SortBlocks(blocks[..|blocks| - 1]))
  {
  }

  /** Sorting orders the blocks by time and keeps the order of those with one time stamp. */
  lemma {:induction false} SortBlocksSorts(blocks: seq<Block>, t: int)
    ensures InTimeOrder(SortBlocks(blocks)) && AtTime(SortBlocks(blocks), t) == AtTime(blocks, t)
  {
    if blocks == [] {
    } else {
      var init, last := blocks[..|blocks| - 1], blocks[|blocks| - 1];
      var sorted := SortBlocks(init);
      SortBlocksSorts(init, t);
      PlaceBlockSorts(last, sorted, t);
      SortBlocksLast(blocks);
      assert AtTime(blocks, t) == if last.timestamp == t then AtTime(init, t) + [last] else AtTime(init, t);
    }
  }

  // ---------- late samples ----------

  /** The first of the samples for this series and time. */
  ghost predicate FirstFor(pts: seq<Point>, k: Key, t: int, n: nat) {
    && n < |pts| && pts[n].key == k && pts[n].at == t
    && forall m :: 0 <= m < n ==> !(pts[m].key == k && pts[m].at == t)
  }

  /** The value of a late series at a time: the stored one, else that of the first sample inside the session. */
  ghost predicate LateValue(c: Context, st: Store, pts: seq<Point>, k: Key, t: int, v: int) {
    var points := SeriesOf(st.series, k);
    if t in points then points[t] == v
    else Accepted(c, t) && exists n: nat :: FirstFor(pts, k, t, n) && pts[n].value == v
  }

  lemma FirstForNext(init: seq<Point>, p: Point, k: Key, t: int, n: nat)
    ensures FirstFor(init + [p], k, t, n)
            <==> FirstFor(init, k, t, n)
                 || (n == |init| && p.key == k && p.at == t
                     && forall m :: 0 <= m < |init| ==> !(init[m].key == k && init[m].at == t))
  {
    var pts := init + [p];
    assert forall m :: 0 <= m < |init| ==> pts[m] == init[m];
    assert pts[|init|] == p;
  }

  lemma {:induction false} SomeFirst(pts: seq<Point>, k: Key, t: int, m: nat) returns (n: nat)
    requires m < |pts| && pts[m].key == k && pts[m].at == t
    ensures FirstFor(pts, k, t, n)
  {
    if j :| 0 <= j < m && pts[j].key == k && pts[j].at == t {
      n := SomeFirst(pts, k, t, j);
    } else {
      n := m;
    }
  }

  lemma LateStep(c: Context, st: Store, p: Point, k: Key, t: int)
    ensures var points, points' := SeriesOf(st.series, k), SeriesOf(BackfillStep(c, st, p).series, k);
            points' == if p.key == k && Accepted(c, p.at) && p.at !in points then points[p.at := p.value] else points
  {
  }

  /** After any late samples, in any order and with any conflicts, each series shows what was stored before, and
      else the first sample for that time, if it lies inside the session. */
  lemma {:induction false} LateContents(c: Context, st: Store, pts: seq<Point>, k: Key, t: int, v: int)
    ensures var points := SeriesOf(Backfill(c, st, pts).series, k);
            (t in points && points[t] == v) <==> LateValue(c, st, pts, k, t, v)
  {
    if pts == [] {
    } else {
      var init, p := pts[..|pts| - 1], pts[|pts| - 1];
      var mid := Backfill(c, st, init);
      LateContents(c, st, init, k, t, v);
      BackfillLast(c, st, pts);
      LateStep(c, mid, p, k, t);
      assert pts == init + [p];
      if p.key == k && p.at == t && Accepted(c, t) && t !in SeriesOf(st.series, k) {
        LastForTime(c, st, init, p, v);
      } else {
        if t in SeriesOf(st.series, k) {
          LateContents(c, st, init, k, t, SeriesOf(st.series, k)[t]);
        }
        LateValueSame(c, st, init, p, k, t, v);
      }
    }
  }

  lemma LateValueSame(c: Context, st: Store, init: seq<Point>, p: Point, k: Key, t: int, v: int)
    requires !(p.key == k && p.at == t && Accepted(c, t) && t !in SeriesOf(st.series, k))
    ensures LateValue(c, st, init + [p], k, t, v) <==> LateValue(c, st, init, k, t, v)
  {
    forall n: nat ensures (p.key == k && p.at == t) || (FirstFor(init + [p], k, t, n) <==> FirstFor(init, k, t, n)) {
      FirstForNext(init, p, k, t, n);
    }
    if LateValue(c, st, init, k, t, v) && t !in SeriesOf(st.series, k) {
      var n: nat :| FirstFor(init, k, t, n) && init[n].value == v;
      assert FirstFor(init + [p], k, t, n) && (init + [p])[n].value == v;
    }
    if LateValue(c, st, init + [p], k, t, v) && t !in SeriesOf(st.series, k) {
      var n: nat :| FirstFor(init + [p], k, t, n) && (init + [p])[n].value == v;
      assert FirstFor(init, k, t, n) && init[n].value == v;
    }
  }

  /** The sample is the last of its message for its time: it counts only if there was none before. */
  lemma {:induction false} LastForTime(c: Context, st: Store, init: seq<Point>, p: Point, v: int)
    requires Accepted(c, p.at) && p.at !in SeriesOf(st.series, p.key)
    ensures var points := SeriesOf(Backfill(c, st, init).series, p.key);
            var points' := if p.at in points then points else points[p.at := p.value];
            (p.at in points' && points'[p.at] == v) <==> LateValue(c, st, init + [p], p.key, p.at, v)
  {
    var points := SeriesOf(Backfill(c, st, init).series, p.key);
    if p.at in points {
      LateContents(c, st, init, p.key, p.at, points[p.at]);
      var n: nat :| FirstFor(init, p.key, p.at, n) && init[n].value == points[p.at];
      FirstForNext(init, p, p.key, p.at, n);
      OneFirst(init + [p], p.key, p.at, n);
    } else {
      forall m | 0 <= m < |init| ensures !(init[m].key == p.key && init[m].at == p.at) {
        if init[m].key == p.key && init[m].at == p.at {
          var n := SomeFirst(init, p.key, p.at, m);
          LateContents(c, st, init, p.key, p.at, init[n].value);
        }
      }
      FirstForNext(init, p, p.key, p.at, |init|);
      OneFirst(init + [p], p.key, p.at, |init|);
    }
  }

  lemma OneFirst(pts: seq<Point>, k: Key, t: int, n: nat)
    requires FirstFor(pts, k, t, n)
    ensures forall m: nat :: FirstFor(pts, k, t, m) ==> m == n
  {
  }

  /** Some accepted sample disagrees with what its series shows in the end. */
  ghost predicate Disagrees(c: Context, series: map<Key, Series>, pts: seq<Point>) {
    exists n :: 0 <= n < |pts| && DisagreesAt(c, series, pts[n])
  }

  predicate DisagreesAt(c: Context, series: map<Key, Series>, p: Point) {
    Accepted(c, p.at) && p.at in SeriesOf(series, p.key) && SeriesOf(series, p.key)[p.at] != p.value
  }

  lemma LateStepReasons(c: Context, st: Store, p: Point)
    ensures CONFLICT in BackfillStep(c, st, p).reasons <==> CONFLICT in st.reasons || DisagreesAt(c, st.series, p)
  {
    assert CONFLICT[0] == 'c' && REGRESSION[0] == 'm';
  }

  lemma LateStepShows(c: Context, st: Store, p: Point, q: Point)
    ensures DisagreesAt(c, BackfillStep(c, st, p).series, q)
            <==> DisagreesAt(c, st.series, q)
                 || (q.key == p.key && q.at == p.at && q.value != p.value && Accepted(c, p.at)
                     && p.at !in SeriesOf(st.series, p.key))
  {
    LateStep(c, st, p, q.key, q.at);
  }

  /** Late samples leave the conflict reason if and only if it was there or some sample disagrees with the series. */
  lemma {:induction false} LateConflicts(c: Context, st: Store, pts: seq<Point>)
    ensures CONFLICT in Backfill(c, st, pts).reasons
            <==> CONFLICT in st.reasons || Disagrees(c, Backfill(c, st, pts).series, pts)
  {
    if pts == [] {
    } else {
      var init, p := pts[..|pts| - 1], pts[|pts| - 1];
      var mid := Backfill(c, st, init);
      LateConflicts(c, st, init);
      BackfillLast(c, st, pts);
      LateStepReasons(c, mid, p);
      forall n | 0 <= n < |init|
        ensures DisagreesAt(c, BackfillStep(c, mid, p).series, pts[n]) <==> DisagreesAt(c, mid.series, init[n])
      {
        LateStepShows(c, mid, p, init[n]);
        StoredAlready(c, st, init, n);
      }
      LateStepShows(c, mid, p, p);
      assert pts[|init|] == p;
    }
  }

  /** An accepted sample's time is in its series afterwards. */
  lemma {:induction false} StoredAlready(c: Context, st: Store, pts: seq<Point>, n: nat)
    requires n < |pts|
    ensures Accepted(c, pts[n].at) ==> pts[n].at in SeriesOf(Backfill(c, st, pts).series, pts[n].key)
  {
    var k, t := pts[n].key, pts[n].at;
    if t in SeriesOf(st.series, k) {
      LateContents(c, st, pts, k, t, SeriesOf(st.series, k)[t]);
    } else if Accepted(c, t) {
      var first := SomeFirst(pts, k, t, n);
      LateContents(c, st, pts, k, t, pts[first].value);
    }
  }

  // ---------- live samples ----------

  /** Newer than all that is stored and, on the outlet register without samples, than the start. */
  ghost predicate Newer(c: Context, points: Series, p: Point) {
    (forall t :: t in points ==> t < p.at) && (p.key == OUTLET && points == map[] ==> c.startedAt < p.at)
  }

  /** The newest stored value, or the start meter of an outlet register without samples. */
  ghost predicate Latest(c: Context, points: Series, k: Key, at: int, v: int) {
    || (at in points && points[at] == v && forall t :: t in points ==> t <= at)
    || (points == map[] && k == OUTLET && at == c.startedAt && v == c.meterStart)
  }

  lemma NewestIs(c: Context, k: Key, points: Series)
    ensures var known := Reference(c, k, Newest(points));
            && (known.Some? ==> Latest(c, points, k, known.value.0, known.value.1))
            && (known.None? ==> points == map[] && k != OUTLET)
            && forall at, v :: Latest(c, points, k, at, v) ==> known == Some((at, v))
  {
    if points.Keys == {} {
      assert points == map[];
    } else {
      assert points != map[];
    }
  }

  /** A live sample is stored if and only if it is newer than its series and not before the session; it is a
      conflict if it contradicts the latest value at the same time, and a regression if it is a newer energy
      value below the latest one. */
  lemma LiveStepDoes(c: Context, st: Store, p: Point)
    ensures var points, st' := SeriesOf(st.series, p.key), LiveStep(c, st, p);
            && (forall k :: SeriesOf(st'.series, k)
                  == if k == p.key && Newer(c, points, p) && c.startedAt <= p.at then points[p.at := p.value]
                     else SeriesOf(st.series, k))
            && (forall r :: r in st'.reasons <==>
                  || r in st.reasons
                  || (r == CONFLICT && exists v :: Latest(c, points, p.key, p.at, v) && v != p.value)
                  || (r == REGRESSION && p.key.measurand == ENERGY && Newer(c, points, p)
                      && exists at, v :: Latest(c, points, p.key, at, v) && p.value < v))
  {
    var points := SeriesOf(st.series, p.key);
    NewestIs(c, p.key, points);
    NewerIs(c, p, points);
    LiveReasons(c, st, p);
  }

  lemma NewerIs(c: Context, p: Point, points: Series)
    ensures var known := Reference(c, p.key, Newest(points));
            Newer(c, points, p) <==> known.None? || known.value.0 < p.at
  {
    NewestIs(c, p.key, points);
    var known := Reference(c, p.key, Newest(points));
    if known.Some? && known.value.0 in points {
      assert points != map[];
    }
  }

  lemma LiveReasons(c: Context, st: Store, p: Point)
    ensures var points, st' := SeriesOf(st.series, p.key), LiveStep(c, st, p);
            forall r :: r in st'.reasons <==>
              || r in st.reasons
              || (r == CONFLICT && exists v :: Latest(c, points, p.key, p.at, v) && v != p.value)
              || (r == REGRESSION && p.key.measurand == ENERGY && Newer(c, points, p)
                  && exists at, v :: Latest(c, points, p.key, at, v) && p.value < v)
  {
    var points := SeriesOf(st.series, p.key);
    var known := Reference(c, p.key, Newest(points));
    NewestIs(c, p.key, points);
    NewerIs(c, p, points);
    forall r ensures r in LiveStep(c, st, p).reasons <==>
      || r in st.reasons
      || (r == CONFLICT && known.Some? && known.value.0 == p.at && known.value.1 != p.value)
      || (r == REGRESSION && p.key.measurand == ENERGY && known.Some? && known.value.0 < p.at && p.value < known.value.1)
    {
      ReviewMembers(st.reasons, CONFLICT, r);
      ReviewMembers(st.reasons, REGRESSION, r);
    }
    assert (exists v :: Latest(c, points, p.key, p.at, v) && v != p.value)
      <==> known.Some? && known.value.0 == p.at && known.value.1 != p.value;
    assert (exists at, v :: Latest(c, points, p.key, at, v) && p.value < v) <==> known.Some? && p.value < known.value.1;
  }

  /** The sample is newer than its series and than every earlier sample of the report for it. */
  ghost predicate RecordAt(c: Context, st: Store, pts: seq<Point>, n: nat) {
    && n < |pts| && c.startedAt <= pts[n].at && (pts[n].key == OUTLET ==> c.startedAt < pts[n].at)
    && (forall t :: t in SeriesOf(st.series, pts[n].key) ==> t < pts[n].at)
    && forall m :: 0 <= m < n && pts[m].key == pts[n].key ==> pts[m].at < pts[n].at
  }

  ghost predicate LiveValue(c: Context, st: Store, pts: seq<Point>, k: Key, t: int, v: int) {
    || (t in SeriesOf(st.series, k) && SeriesOf(st.series, k)[t] == v)
    || exists n: nat :: RecordAt(c, st, pts, n) && pts[n] == Point(t, k, v)
  }

  ghost predicate StartsInside(c: Context, st: Store) {
    forall t :: t in SeriesOf(st.series, OUTLET) ==> c.startedAt <= t
  }

  lemma RecordNext(c: Context, st: Store, init: seq<Point>, p: Point, n: nat)
    requires n < |init|
    ensures RecordAt(c, st, init + [p], n) <==> RecordAt(c, st, init, n)
  {
    assert forall m :: 0 <= m <= n ==> (init + [p])[m] == init[m];
  }

  /** The series holds exactly the stored values and the records. */
  ghost predicate LiveSeries(c: Context, st: Store, pts: seq<Point>, k: Key, points: Series) {
    && (forall t :: t in points ==> LiveValue(c, st, pts, k, t, points[t]))
    && (forall t, v :: LiveValue(c, st, pts, k, t, v) ==> t in points && points[t] == v)
  }

  /** Every sample of a report is overtaken by a stored one, or lies before the session. */
  lemma {:induction false} ReachedBy(c: Context, st: Store, init: seq<Point>, p: Point, m: nat)
    requires m < |init| && init[m].key == p.key && c.startedAt <= p.at
    requires forall t, v :: LiveValue(c, st, init, p.key, t, v) ==> t < p.at
    requires p.key == OUTLET ==> c.startedAt < p.at
    ensures init[m].at < p.at
    decreases m
  {
    if RecordAt(c, st, init, m) {
      assert LiveValue(c, st, init, p.key, init[m].at, init[m].value);
    } else if j :| 0 <= j < m && init[j].key == p.key && init[m].at <= init[j].at {
      ReachedBy(c, st, init, p, j);
    } else if t :| t in SeriesOf(st.series, p.key) && init[m].at <= t {
      assert LiveValue(c, st, init, p.key, t, SeriesOf(st.series, p.key)[t]);
    }
  }

  lemma OutletAfterStart(c: Context, st: Store, init: seq<Point>, p: Point, points: Series)
    requires StartsInside(c, st) && LiveSeries(c, st, init, p.key, points) && Newer(c, points, p) && p.key == OUTLET
    ensures c.startedAt < p.at
  {
    if points == map[] {
    } else {
      assert points.Keys != {};
      var t := Pick(points.Keys);
      assert LiveValue(c, st, init, p.key, t, points[t]);
    }
  }

  /** If the sample is newer than what is stored, then so it is than everything the report brought. */
  lemma {:induction false} NewerIsRecord(c: Context, st: Store, init: seq<Point>, p: Point, points: Series)
    requires StartsInside(c, st) && LiveSeries(c, st, init, p.key, points) && Newer(c, points, p) && c.startedAt <= p.at
    ensures RecordAt(c, st, init + [p], |init|)
  {
    var pts := init + [p];
    assert pts[|init|] == p && forall m :: 0 <= m < |init| ==> pts[m] == init[m];
    forall t | t in SeriesOf(st.series, p.key) ensures t < p.at {
      assert LiveValue(c, st, init, p.key, t, SeriesOf(st.series, p.key)[t]);
    }
    if p.key == OUTLET {
      OutletAfterStart(c, st, init, p, points);
    }
    forall m | 0 <= m < |init| && init[m].key == p.key ensures init[m].at < p.at {
      ReachedBy(c, st, init, p, m);
    }
  }

  lemma {:induction false} RecordIsNewer(c: Context, st: Store, init: seq<Point>, p: Point, points: Series)
    requires LiveSeries(c, st, init, p.key, points) && RecordAt(c, st, init + [p], |init|)
    ensures Newer(c, points, p) && c.startedAt <= p.at
  {
    var pts := init + [p];
    assert pts[|init|] == p && forall m :: 0 <= m < |init| ==> pts[m] == init[m];
    forall t | t in points ensures t < p.at {
      assert LiveValue(c, st, init, p.key, t, points[t]);
    }
  }

  lemma LiveValueNext(c: Context, st: Store, init: seq<Point>, p: Point, k: Key, t: int, v: int)
    ensures LiveValue(c, st, init + [p], k, t, v)
            <==> LiveValue(c, st, init, k, t, v) || (RecordAt(c, st, init + [p], |init|) && p == Point(t, k, v))
  {
    var pts := init + [p];
    assert pts[|init|] == p && forall m :: 0 <= m < |init| ==> pts[m] == init[m];
    forall n: nat | n < |init| ensures RecordAt(c, st, pts, n) <==> RecordAt(c, st, init, n) {
      RecordNext(c, st, init, p, n);
    }
  }

  lemma {:induction false} LiveSeriesNext(c: Context, st: Store, init: seq<Point>, p: Point, k: Key, points: Series)
    requires LiveSeries(c, st, init, k, points)
    requires p.key == k && RecordAt(c, st, init + [p], |init|) ==> p.at !in points
    ensures LiveSeries(c, st, init + [p], k,
                       if p.key == k && RecordAt(c, st, init + [p], |init|) then points[p.at := p.value] else points)
  {
    forall t, v ensures LiveValue(c, st, init + [p], k, t, v)
      <==> LiveValue(c, st, init, k, t, v) || (RecordAt(c, st, init + [p], |init|) && p == Point(t, k, v))
    {
      LiveValueNext(c, st, init, p, k, t, v);
    }
  }

  /** After any live samples each series shows what was stored before and the records of the report. */
  lemma {:induction false} LiveContents(c: Context, st: Store, pts: seq<Point>, k: Key)
    requires StartsInside(c, st)
    ensures LiveSeries(c, st, pts, k, SeriesOf(Live(c, st, pts).series, k))
  {
    if pts == [] {
    } else {
      var init, p := pts[..|pts| - 1], pts[|pts| - 1];
      assert pts == init + [p];
      var points := SeriesOf(Live(c, st, init).series, k);
      LiveContents(c, st, init, k);
      LiveLast(c, st, pts);
      LiveStepDoes(c, Live(c, st, init), p);
      if p.key == k {
        if RecordAt(c, st, pts, |init|) {
          RecordIsNewer(c, st, init, p, points);
        } else if Newer(c, points, p) && c.startedAt <= p.at {
          NewerIsRecord(c, st, init, p, points);
        }
      }
      LiveSeriesNext(c, st, init, p, k, points);
    }
  }

  // ---------- reports ----------

  /** Every sample of a report by transaction id to a recovering session is stored, however old, unless its time
      lies outside the session, is stored already, or the report has an earlier block or sample for it. */
  lemma {:induction false} LateReportStores(s: Charging, blocks: seq<Block>, k: Key, t: int, v: int)
    requires s.recovering
    ensures var points := SeriesOf(MeterReport(s, blocks, true, false).store.series, k);
            (t in points && points[t] == v) <==> LateValue(s.Facts(), s.store, PointsOf(SortBlocks(blocks)), k, t, v)
  {
    LateContents(s.Facts(), s.store, PointsOf(SortBlocks(blocks)), k, t, v);
  }

  /** Any other report to an open session stores its records. */
  lemma {:induction false} LiveReportStores(s: Charging, blocks: seq<Block>, byTransaction: bool, k: Key)
    requires s.endedAt.None? && !(byTransaction && s.recovering) && StartsInside(s.Facts(), s.store)
    ensures LiveSeries(s.Facts(), s.store, PointsOf(blocks), k,
                       SeriesOf(MeterReport(s, blocks, byTransaction, false).store.series, k))
  {
    LiveContents(s.Facts(), s.store, PointsOf(blocks), k);
  }

  /** No report reaches a session closed by hand, and only reports by transaction id of a recovering charger
      reach one that has ended. */
  lemma ReportIgnored(s: Charging, blocks: seq<Block>, byTransaction: bool, manuallyClosed: bool)
    requires manuallyClosed || (s.endedAt.Some? && !(s.recovering && byTransaction))
    ensures MeterReport(s, blocks, byTransaction, manuallyClosed) == s
  {
  }
}
