/** When a stored meter series is flagged, and why arrival order does not matter. */
module MeterProofs {
  import opened Prelude
  import opened MeterStore

  // ---------- order of a series ----------

  /** Values never fall over time; the outlet register has the start meter in front of all of them. */
  ghost predicate InOrder(c: Context, k: Key, points: Series) {
    && (forall t, u :: t in points && u in points && t <= u ==> points[t] <= points[u])
    && (k == OUTLET ==> forall t :: t in points ==> c.meterStart <= points[t])
  }

  ghost predicate AllInOrder(c: Context, series: map<Key, Series>) {
    forall k :: k in series && k.measurand == ENERGY ==> InOrder(c, k, series[k])
  }

  lemma NeighboursBound(points: Series, at: int)
    ensures forall t :: t in points && t < at ==> Before(points, at) != {} && t <= Greatest(Before(points, at))
    ensures forall t :: t in points && t > at ==> After(points, at) != {} && Least(After(points, at)) <= t
  {
    forall t | t in points && t < at ensures Before(points, at) != {} && t <= Greatest(Before(points, at)) {
      assert t in Before(points, at);
    }
    forall t | t in points && t > at ensures After(points, at) != {} && Least(After(points, at)) <= t {
      assert t in After(points, at);
    }
  }

  lemma FittingSampleKeepsOrder(c: Context, p: Point, points: Series)
    requires p.key.measurand == ENERGY && InOrder(c, p.key, points) && p.at !in points
    requires !OutOfOrder(c, p, points)
    ensures InOrder(c, p.key, points[p.at := p.value])
  {
    NeighboursBound(points, p.at);
    var before, after := Before(points, p.at), After(points, p.at);
    forall t | t in points && t < p.at ensures points[t] <= p.value {
      assert points[t] <= points[Greatest(before)];
    }
    forall t | t in points && t > p.at ensures p.value <= points[t] {
      assert points[Least(after)] <= points[t];
    }
    if p.key == OUTLET && before != {} {
      assert c.meterStart <= points[Greatest(before)];
    }
  }

  lemma MisfitBreaksOrder(c: Context, p: Point, points: Series)
    requires p.at !in points && OutOfOrder(c, p, points)
    ensures !InOrder(c, p.key, points[p.at := p.value])
  {
    var grown := points[p.at := p.value];
    var before, after := Before(points, p.at), After(points, p.at);
    if Following(points, p.at).Some? && p.value > Following(points, p.at).value {
      assert grown[p.at] > grown[Least(after)];
    } else if before != {} {
      assert grown[Greatest(before)] > grown[p.at];
    } else {
      assert grown[p.at] < c.meterStart;
    }
  }

  /** The neighbour test is exactly the order of the series with the sample inserted. */
  lemma NeighbourTest(c: Context, p: Point, points: Series)
    requires p.key.measurand == ENERGY && InOrder(c, p.key, points) && p.at !in points
    ensures OutOfOrder(c, p, points) <==> !InOrder(c, p.key, points[p.at := p.value])
  {
    if OutOfOrder(c, p, points) {
      MisfitBreaksOrder(c, p, points);
    } else {
      FittingSampleKeepsOrder(c, p, points);
    }
  }

  // ---------- series only grow ----------

  /** Every stored reading is still there with the same value. */
  ghost predicate Extends(later: map<Key, Series>, earlier: map<Key, Series>) {
    forall k, t :: k in earlier && t in earlier[k] ==>
      k in later && t in later[k] && later[k][t] == earlier[k][t]
  }

  lemma DisorderPersists(c: Context, earlier: map<Key, Series>, later: map<Key, Series>)
    requires Extends(later, earlier) && !AllInOrder(c, earlier)
    ensures !AllInOrder(c, later)
  {
  }

  lemma StepExtends(c: Context, st: Store, p: Point)
    ensures Extends(BackfillStep(c, st, p).series, st.series)
  {
  }

  /** One late sample: the flag is raised exactly when order is lost. */
  lemma StepFlagsDisorder(c: Context, st: Store, p: Point)
    requires AllInOrder(c, st.series)
    ensures var st' := BackfillStep(c, st, p);
            (AllInOrder(c, st'.series) <==> !(Accepted(c, p.at) && p.at !in SeriesOf(st.series, p.key)
                                              && OutOfOrder(c, p, SeriesOf(st.series, p.key))))
  {
    var st' := BackfillStep(c, st, p);
    var points := SeriesOf(st.series, p.key);
    if Accepted(c, p.at) && p.at !in points && p.key.measurand == ENERGY {
      assert InOrder(c, p.key, points);
      NeighbourTest(c, p, points);
      assert st'.series[p.key] == points[p.at := p.value];
    }
  }

  lemma ReviewMembers(reasons: seq<string>, added: string, x: string)
    ensures x in Review(reasons, added) <==> x in reasons || x == added
  {
  }

  lemma ExtendsTransitive(a: map<Key, Series>, b: map<Key, Series>, c: map<Key, Series>)
    requires Extends(a, b) && Extends(b, c)
    ensures Extends(a, c)
  {
  }

  /** Starting from ordered series, any number of late samples leaves `meter_regression` raised
      exactly when it already was, or when the final series are out of order. */
  lemma {:induction false} RegressionIffDisorder(c: Context, st: Store, pts: seq<Point>)
    requires AllInOrder(c, st.series)
    ensures Extends(Backfill(c, st, pts).series, st.series)
    ensures REGRESSION in Backfill(c, st, pts).reasons <==>
            REGRESSION in st.reasons || !AllInOrder(c, Backfill(c, st, pts).series)
  {
    if pts == [] {
    } else {
      var init, p := pts[..|pts| - 1], pts[|pts| - 1];
      RegressionIffDisorder(c, st, init);
      var mid := Backfill(c, st, init);
      var last := BackfillStep(c, mid, p);
      StepExtends(c, mid, p);
      ExtendsTransitive(last.series, mid.series, st.series);
      ReviewMembers(mid.reasons, REGRESSION, REGRESSION);
      ReviewMembers(mid.reasons, CONFLICT, REGRESSION);
      if AllInOrder(c, mid.series) {
        StepFlagsDisorder(c, mid, p);
      } else {
        DisorderPersists(c, mid.series, last.series);
      }
    }
  }

  // ---------- arrival order ----------

  ghost predicate Holds(series: map<Key, Series>, k: Key, t: int, v: int) {
    k in series && t in series[k] && series[k][t] == v
  }

  /** No two samples of one series and session instant disagree, among themselves or with what is stored. */
  ghost predicate ConflictFree(c: Context, series: map<Key, Series>, pts: seq<Point>) {
    forall p :: p in pts && Accepted(c, p.at) ==>
      && (forall q :: q in pts && p.key == q.key && p.at == q.at ==> p.value == q.value)
      && (p.key in series && p.at in series[p.key] ==> series[p.key][p.at] == p.value)
  }

  ghost predicate NoEmptySeries(series: map<Key, Series>) {
    forall k :: k in series ==> exists t :: t in series[k]
  }

  /** What a conflict-free batch stores, without reference to its order. */
  lemma {:induction false} BackfillContents(c: Context, st: Store, pts: seq<Point>)
    requires ConflictFree(c, st.series, pts) && NoEmptySeries(st.series)
    ensures NoEmptySeries(Backfill(c, st, pts).series)
    ensures forall k, t, v :: Holds(Backfill(c, st, pts).series, k, t, v) <==>
              Holds(st.series, k, t, v) || (Accepted(c, t) && Point(t, k, v) in pts)
  {
    if pts == [] {
    } else {
      var init, p := pts[..|pts| - 1], pts[|pts| - 1];
      assert pts == init + [p];
      assert forall q :: q in pts <==> q in init || q == p;
      BackfillContents(c, st, init);
      var mid := Backfill(c, st, init);
      NoNewConflict(c, st, init, p);
      StepContents(c, mid, p);
    }
  }

  lemma {:induction false} NoNewConflict(c: Context, st: Store, init: seq<Point>, p: Point)
    requires ConflictFree(c, st.series, init + [p])
    requires forall k, t, v :: Holds(Backfill(c, st, init).series, k, t, v) <==>
               Holds(st.series, k, t, v) || (Accepted(c, t) && Point(t, k, v) in init)
    ensures var stored := SeriesOf(Backfill(c, st, init).series, p.key);
            Accepted(c, p.at) && p.at in stored ==> stored[p.at] == p.value
  {
    var stored := SeriesOf(Backfill(c, st, init).series, p.key);
    if Accepted(c, p.at) && p.at in stored {
      var v := stored[p.at];
      assert Holds(Backfill(c, st, init).series, p.key, p.at, v);
      assert p in init + [p];
      if !Holds(st.series, p.key, p.at, v) {
        assert Point(p.at, p.key, v) in init + [p];
      }
    }
  }

  lemma StepContents(c: Context, st: Store, p: Point)
    requires NoEmptySeries(st.series)
    ensures NoEmptySeries(BackfillStep(c, st, p).series)
    ensures (Accepted(c, p.at) && p.at in SeriesOf(st.series, p.key) ==> SeriesOf(st.series, p.key)[p.at] == p.value) ==>
              forall k, t, v :: Holds(BackfillStep(c, st, p).series, k, t, v) <==>
                Holds(st.series, k, t, v) || (Accepted(c, t) && Point(t, k, v) == p)
  {
    var st' := BackfillStep(c, st, p);
    if Accepted(c, p.at) && p.at !in SeriesOf(st.series, p.key) {
      assert p.at in st'.series[p.key];
    }
  }

  /** A conflict-free batch adds at most the one reason, and only for disorder. */
  lemma {:induction false} BackfillReasons(c: Context, st: Store, pts: seq<Point>)
    requires ConflictFree(c, st.series, pts) && NoEmptySeries(st.series) && AllInOrder(c, st.series)
    ensures Backfill(c, st, pts).reasons ==
            if AllInOrder(c, Backfill(c, st, pts).series) then st.reasons else Review(st.reasons, REGRESSION)
  {
    if pts == [] {
    } else {
      var init, p := pts[..|pts| - 1], pts[|pts| - 1];
      assert pts == init + [p];
      assert forall q :: q in pts <==> q in init || q == p;
      BackfillReasons(c, st, init);
      BackfillContents(c, st, init);
      var mid := Backfill(c, st, init);
      NoNewConflict(c, st, init, p);
      ReviewMembers(st.reasons, REGRESSION, REGRESSION);
      if AllInOrder(c, mid.series) {
        StepFlagsDisorder(c, mid, p);
      } else {
        StepExtends(c, mid, p);
        DisorderPersists(c, mid.series, BackfillStep(c, mid, p).series);
      }
    }
  }

  lemma SameContents(a: map<Key, Series>, b: map<Key, Series>)
    requires NoEmptySeries(a) && NoEmptySeries(b)
    requires forall k, t, v :: Holds(a, k, t, v) <==> Holds(b, k, t, v)
    ensures a == b
  {
    forall k ensures k in a <==> k in b {
      if k in a {
        var t :| t in a[k];
        assert Holds(a, k, t, a[k][t]);
      }
      if k in b {
        var t :| t in b[k];
        assert Holds(b, k, t, b[k][t]);
      }
    }
    forall k | k in a ensures a[k] == b[k] {
      forall t ensures t in a[k] <==> t in b[k] {
        if t in a[k] { assert Holds(a, k, t, a[k][t]); }
        if t in b[k] { assert Holds(b, k, t, b[k][t]); }
      }
      forall t | t in a[k] ensures a[k][t] == b[k][t] {
        assert Holds(a, k, t, a[k][t]);
      }
    }
  }

  /** Conflict-free samples give the same store and the same flags in every arrival order. */
  lemma {:induction false} OrderIndependent(c: Context, st: Store, a: seq<Point>, b: seq<Point>)
    requires ConflictFree(c, st.series, a) && NoEmptySeries(st.series) && AllInOrder(c, st.series)
    requires forall p :: p in a <==> p in b
    ensures Backfill(c, st, a) == Backfill(c, st, b)
  {
    assert ConflictFree(c, st.series, b);
    BackfillContents(c, st, a);
    BackfillContents(c, st, b);
    SameContents(Backfill(c, st, a).series, Backfill(c, st, b).series);
    BackfillReasons(c, st, a);
    BackfillReasons(c, st, b);
  }

  // ---------- splitting into messages ----------

  /** Recovery messages handled one after another, each sorted on its own. */
  function Messages(c: Context, st: Store, messages: seq<seq<Block>>): Store {
    if messages == [] then st
    else
      Backfill(c, Messages(c, st, messages[..|messages| - 1]), PointsOf(SortBlocks(messages[|messages| - 1])))
  }

  function MessagePoints(messages: seq<seq<Block>>): seq<Point> {
    if messages == [] then []
    else MessagePoints(messages[..|messages| - 1]) + PointsOf(SortBlocks(messages[|messages| - 1]))
  }

  lemma {:induction false} MessagesFold(c: Context, st: Store, messages: seq<seq<Block>>)
    ensures Messages(c, st, messages) == Backfill(c, st, MessagePoints(messages))
  {
    if messages == [] {
    } else {
      var init := messages[..|messages| - 1];
      MessagesFold(c, st, init);
      BackfillConcat(c, st, MessagePoints(init), PointsOf(SortBlocks(messages[|messages| - 1])));
    }
  }

  ghost predicate ReportedIn(blocks: seq<Block>, p: Point) {
    exists b :: b in blocks && b.timestamp == p.at && Sample(p.key, Some(p.value)) in b.samples
  }

  /** A reported sample: it occurs in some block of some message. */
  ghost predicate Reported(messages: seq<seq<Block>>, p: Point) {
    exists m :: m in messages && ReportedIn(m, p)
  }

  lemma {:induction false} SamplePointsMembers(at: int, samples: seq<Sample>, p: Point)
    ensures p in SamplePoints(at, samples) <==> p.at == at && Sample(p.key, Some(p.value)) in samples
  {
    if samples == [] {
    } else {
      var init, s := samples[..|samples| - 1], samples[|samples| - 1];
      assert samples == init + [s];
      SamplePointsMembers(at, init, p);
    }
  }

  lemma {:induction false} PointsOfMembers(blocks: seq<Block>, p: Point)
    ensures p in PointsOf(blocks) <==> ReportedIn(blocks, p)
  {
    if blocks == [] {
    } else {
      var init, b := blocks[..|blocks| - 1], blocks[|blocks| - 1];
      assert blocks == init + [b];
      PointsOfMembers(init, p);
      SamplePointsMembers(b.timestamp, b.samples, p);
      assert forall x :: x in blocks <==> x in init || x == b;
    }
  }

  lemma {:induction false} PlaceBlockMembers(b: Block, blocks: seq<Block>, x: Block)
    ensures x in PlaceBlock(b, blocks) <==> x == b || x in blocks
  {
    if blocks != [] && blocks[|blocks| - 1].timestamp > b.timestamp {
      var init := blocks[..|blocks| - 1];
      PlaceBlockMembers(b, init, x);
      assert blocks == init + [blocks[|blocks| - 1]];
    }
  }

  lemma {:induction false} SortBlocksMembers(blocks: seq<Block>, x: Block)
    ensures x in SortBlocks(blocks) <==> x in blocks
  {
    if blocks == [] {
    } else {
      var init := blocks[..|blocks| - 1];
      SortBlocksMembers(init, x);
      PlaceBlockMembers(blocks[|blocks| - 1], SortBlocks(init), x);
      assert blocks == init + [blocks[|blocks| - 1]];
    }
  }

  lemma {:induction false} MessagePointsMembers(messages: seq<seq<Block>>, p: Point)
    ensures p in MessagePoints(messages) <==> Reported(messages, p)
  {
    if messages == [] {
    } else {
      var init, m := messages[..|messages| - 1], messages[|messages| - 1];
      assert messages == init + [m];
      assert forall x :: x in messages <==> x in init || x == m;
      MessagePointsMembers(init, p);
      PointsOfMembers(SortBlocks(m), p);
      forall x ensures x in SortBlocks(m) <==> x in m {
        SortBlocksMembers(m, x);
      }
      assert ReportedIn(SortBlocks(m), p) <==> ReportedIn(m, p);
    }
  }

  /** Conflict-free samples give the same store and flags however they are ordered and split. */
  lemma {:induction false} MessagesOrderIndependent(c: Context, st: Store, a: seq<seq<Block>>, b: seq<seq<Block>>)
    requires NoEmptySeries(st.series) && AllInOrder(c, st.series)
    requires ConflictFree(c, st.series, MessagePoints(a))
    requires forall p :: Reported(a, p) <==> Reported(b, p)
    ensures Messages(c, st, a) == Messages(c, st, b)
  {
    forall p ensures p in MessagePoints(a) <==> p in MessagePoints(b) {
      MessagePointsMembers(a, p);
      MessagePointsMembers(b, p);
    }
    OrderIndependent(c, st, MessagePoints(a), MessagePoints(b));
    MessagesFold(c, st, a);
    MessagesFold(c, st, b);
  }
}
