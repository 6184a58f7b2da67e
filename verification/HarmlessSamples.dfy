/** Which late samples of a settled session the audit passes over in silence. */
module HarmlessSamples {
  import opened Prelude
  import opened Interpolation
  import opened Segmentation
  import opened Invoicing
  import opened InvoiceCreation
  import opened InvoiceProofs
  import opened MeterStore
  import opened Audit
  import opened AuditProofs
  import opened EvidenceProofs
  import opened LateSamples
  import Occupation
  import SessionRuns
  import Settlement
  import SettlementProofs
  import DailyTotals

  // ---------- one more reading ----------

  function InsertedStamp(stamps: seq<int>, k: nat, t: int): seq<int>
    requires k < |stamps|
  {
    stamps[..k + 1] + [t] + stamps[k + 1..]
  }

  lemma StampsStaySorted(stamps: seq<int>, k: nat, t: int)
    requires StrictlySorted(stamps) && k + 1 < |stamps| && stamps[k] < t < stamps[k + 1]
    ensures StrictlySorted(InsertedStamp(stamps, k, t)) && t !in stamps
    ensures forall x :: x in InsertedStamp(stamps, k, t) <==> x in stamps || x == t
  {
    var all := InsertedStamp(stamps, k, t);
    forall i, j | 0 <= i < j < |all| ensures all[i] < all[j] {
      StampAt(stamps, k, t, i);
      StampAt(stamps, k, t, j);
    }
    assert stamps == stamps[..k + 1] + stamps[k + 1..];
  }

  lemma StampAt(stamps: seq<int>, k: nat, t: int, q: nat)
    requires k < |stamps| && q <= |stamps|
    ensures InsertedStamp(stamps, k, t)[q] == if q <= k then stamps[q] else if q == k + 1 then t else stamps[q - 1]
  {
  }

  lemma KeysInserted(m: map<int, int>, stamps: seq<int>, k: nat, t: int, v: int)
    requires StrictlySorted(stamps) && k + 1 < |stamps| && stamps[k] < t < stamps[k + 1]
    requires |stamps| == |m.Keys| && forall x :: x in stamps <==> x in m.Keys
    ensures t !in m && SortedSeq(m[t := v].Keys) == InsertedStamp(stamps, k, t)
  {
    StampsStaySorted(stamps, k, t);
    assert m[t := v].Keys == m.Keys + {t};
    SortedIs(m[t := v].Keys, InsertedStamp(stamps, k, t));
  }

  /** `rs` lists the map `m` along `stamps`. */
  ghost predicate Lists(rs: seq<Reading>, stamps: seq<int>, m: map<int, int>) {
    |rs| == |stamps| && forall i :: 0 <= i < |rs| ==> stamps[i] in m && rs[i] == Reading(stamps[i], m[stamps[i]])
  }

  lemma ByTimeLists(m: map<int, int>)
    ensures Lists(ByTime(m), SortedSeq(m.Keys), m)
  {
  }

  lemma ListedInserted(
    rs: seq<Reading>, rs': seq<Reading>, stamps: seq<int>, m: map<int, int>, k: nat, t: int, v: int)
    requires k < |stamps| && t !in m && Lists(rs, stamps, m) && Lists(rs', InsertedStamp(stamps, k, t), m[t := v])
    ensures rs' == Inserted(rs, k, Reading(t, v))
  {
    forall q | 0 <= q < |rs'| ensures rs'[q] == Inserted(rs, k, Reading(t, v))[q] {
      StampAt(stamps, k, t, q);
      InsertedIndex(rs, k, Reading(t, v), q);
    }
  }

  /** A map with one more time between two neighbours is listed with one more reading between them. */
  lemma ByTimeInserted(m: map<int, int>, k: nat, t: int, v: int)
    requires k + 1 < |ByTime(m)| && ByTime(m)[k].at < t < ByTime(m)[k + 1].at
    ensures t !in m && ByTime(m[t := v]) == Inserted(ByTime(m), k, Reading(t, v))
  {
    ByTimeLists(m);
    ByTimeLists(m[t := v]);
    KeysInserted(m, SortedSeq(m.Keys), k, t, v);
    ListedInserted(ByTime(m), ByTime(m[t := v]), SortedSeq(m.Keys), m, k, t, v);
  }

  // ---------- one more sample ----------

  /** What a merge of `stamps` into `ends` comes to. */
  ghost predicate Merged(ends: map<int, int>, samples: map<int, int>, stamps: seq<int>, m: map<int, int>) {
    && (forall t :: t in m <==> t in ends || t in stamps)
    && (forall t :: t in ends ==> m[t] == ends[t])
    && (forall t :: t in stamps ==> t in samples && m[t] == samples[t] >= 0)
  }

  lemma {:induction false} MergedIs(ends: map<int, int>, samples: map<int, int>, stamps: seq<int>, m: map<int, int>)
    requires (forall t :: t in stamps ==> t in samples) && StrictlySorted(stamps)
    requires Merged(ends, samples, stamps, m)
    ensures Merge(ends, samples, stamps) == Ok(m)
  {
    MergeSucceeds(ends, samples, stamps);
    MergeContents(ends, samples, stamps);
    SameMerged(ends, samples, stamps, m, Merge(ends, samples, stamps).value);
  }

  lemma {:induction false} SameMerged(
    ends: map<int, int>, samples: map<int, int>, stamps: seq<int>, m: map<int, int>, m': map<int, int>)
    requires Merged(ends, samples, stamps, m) && Merged(ends, samples, stamps, m')
    ensures m == m'
  {
    forall t ensures t in m <==> t in m' {
      assert t in m <==> t in ends || t in stamps;
    }
    forall t | t in m ensures m[t] == m'[t] {
      assert t in ends || t in stamps;
    }
  }

  lemma {:induction false} MergedGrows(
    ends: map<int, int>, samples: map<int, int>, stamps: seq<int>, stamps': seq<int>, t: int, v: int, m: map<int, int>)
    requires Merged(ends, samples, stamps, m) && t !in samples && v >= 0 && (t in ends ==> ends[t] == v)
    requires forall u :: u in stamps' <==> u in stamps || u == t
    ensures Merged(ends, samples[t := v], stamps', m[t := v])
  {
  }

  lemma StampsGrow(s: Session, samples: map<int, int>, end: int, t: int, v: int)
    requires InWindow(t, s.startedAt, end)
    ensures forall u :: u in SampleStamps(s, samples[t := v], end) <==> u in SampleStamps(s, samples, end) || u == t
  {
  }

  /** A new sample that is not negative and contradicts neither session end is merged in. */
  lemma {:induction false} MergeGrows(
    s: Session, ends: map<int, int>, samples: map<int, int>, end: int, t: int, v: int, m: map<int, int>)
    requires Merge(ends, samples, SampleStamps(s, samples, end)) == Ok(m)
    requires InWindow(t, s.startedAt, end) && t !in samples && v >= 0 && (t in ends ==> ends[t] == v)
    ensures Merge(ends, samples[t := v], SampleStamps(s, samples[t := v], end)) == Ok(m[t := v])
  {
    var stamps, stamps' := SampleStamps(s, samples, end), SampleStamps(s, samples[t := v], end);
    StampsGrow(s, samples, end, t, v);
    MergeContents(ends, samples, stamps);
    assert Merged(ends, samples, stamps, m);
    MergedGrows(ends, samples, stamps, stamps', t, v, m);
    MergedIs(ends, samples[t := v], stamps', m[t := v]);
  }

  lemma InsertedNeverFalls(rs: seq<Reading>, k: nat, x: Reading)
    requires GoodReadings(rs) && k + 1 < |rs|
    ensures !Falls(Inserted(rs, k, x)) <==> rs[k].energy <= x.energy <= rs[k + 1].energy
  {
    var rs' := Inserted(rs, k, x);
    InsertedIndex(rs, k, x, k);
    InsertedIndex(rs, k, x, k + 1);
    InsertedIndex(rs, k, x, k + 2);
    if rs[k].energy <= x.energy <= rs[k + 1].energy {
      forall i | 0 <= i < |rs'| - 1 ensures rs'[i].energy <= rs'[i + 1].energy {
        InsertedIndex(rs, k, x, i);
        InsertedIndex(rs, k, x, i + 1);
      }
    } else if x.energy < rs[k].energy {
      assert rs'[k + 1].energy < rs'[k].energy;
    } else {
      assert rs'[k + 2].energy < rs'[k + 1].energy;
    }
  }

  lemma EndsAround(s: Session, stop: int, end: int, t: int)
    requires s.startedAt < t < end
    ensures t !in Ends(s, stop, end)
  {
  }

  lemma MeterValuesParts(s: Session, samples: map<int, int>, end: int) returns (m: map<int, int>)
    requires MeterValues(s, samples, end).Ok?
    ensures 0 <= s.meterStart && s.meterStop.Some? && 0 <= s.meterStop.value
    ensures Merge(Ends(s, s.meterStop.value, end), samples, SampleStamps(s, samples, end)) == Ok(m)
    ensures ByTime(m) == MeterValues(s, samples, end).value
  {
    m := Merge(Ends(s, s.meterStop.value, end), samples, SampleStamps(s, samples, end)).value;
  }

  lemma {:induction false} MeterValuesFrom(s: Session, samples: map<int, int>, end: int, m: map<int, int>)
    requires 0 <= s.meterStart && s.meterStop.Some? && 0 <= s.meterStop.value
    requires Merge(Ends(s, s.meterStop.value, end), samples, SampleStamps(s, samples, end)) == Ok(m)
    ensures MeterValues(s, samples, end) == if Falls(ByTime(m)) then Err(MeterDecreased) else Ok(ByTime(m))
  {
  }

  lemma NegativeRefused(s: Session, samples: map<int, int>, end: int, t: int)
    requires InWindow(t, s.startedAt, end) && t in samples && samples[t] < 0
    ensures MeterValues(s, samples, end).Err?
  {
    if s.meterStop.Some? {
      MergeSucceeds(Ends(s, s.meterStop.value, end), samples, SampleStamps(s, samples, end));
    }
  }

  /** A late sample between two neighbours is accepted if and only if it lies between their registers, and
      then it becomes one more reading between them. */
  lemma SampleInserted(s: Session, samples: map<int, int>, end: int, rs: seq<Reading>, k: nat, t: int, v: int)
    requires s.startedAt < end && MeterValues(s, samples, end) == Ok(rs) && t !in samples
    requires k + 1 < |rs| && rs[k].at < t < rs[k + 1].at
    ensures MeterValues(s, samples[t := v], end).Ok? <==> rs[k].energy <= v <= rs[k + 1].energy
    ensures MeterValues(s, samples[t := v], end).Ok? ==>
              MeterValues(s, samples[t := v], end).value == Inserted(rs, k, Reading(t, v))
  {
    ReadingsGood(s, samples, end);
    assert rs[0].at <= rs[k].at && rs[k + 1].at <= rs[|rs| - 1].at && rs[0].energy <= rs[k].energy;
    if v < 0 {
      NegativeRefused(s, samples[t := v], end, t);
    } else {
      var m := MeterValuesParts(s, samples, end);
      EndsAround(s, s.meterStop.value, end, t);
      MergeGrows(s, Ends(s, s.meterStop.value, end), samples, end, t, v, m);
      MeterValuesFrom(s, samples[t := v], end, m[t := v]);
      ByTimeInserted(m, k, t, v);
      InsertedNeverFalls(rs, k, Reading(t, v));
    }
  }

  // ---------- accepted samples ----------

  /** The samples inside the session run in order from its start meter to its stop meter. */
  ghost predicate Orderly(s: Session, samples: map<int, int>, end: int) {
    && s.meterStop.Some? && 0 <= s.meterStart <= s.meterStop.value && OrderedSamples(s, samples, end)
    && !EndConflict(s, s.meterStop.value, samples, end) && !SampleAboveStop(s, s.meterStop.value, samples, end)
  }

  lemma SampleIsRead(s: Session, samples: map<int, int>, end: int, t: int)
    requires MeterValues(s, samples, end).Ok? && t in samples && InWindow(t, s.startedAt, end)
    ensures Reading(t, samples[t]) in MeterValues(s, samples, end).value
  {
    var m := MeterValuesParts(s, samples, end);
    MergeContents(Ends(s, s.meterStop.value, end), samples, SampleStamps(s, samples, end));
    assert t in SampleStamps(s, samples, end);
    ByTimeHas(m, t);
  }

  lemma ReadInOrder(rs: seq<Reading>, a: Reading, b: Reading)
    requires GoodReadings(rs) && a in rs && b in rs && a.at <= b.at
    ensures a.energy <= b.energy
  {
    var i :| 0 <= i < |rs| && rs[i] == a;
    var j :| 0 <= j < |rs| && rs[j] == b;
  }

  lemma ReadSamples(s: Session, samples: map<int, int>, end: int, t: int, u: int)
    requires s.startedAt < end && MeterValues(s, samples, end).Ok? && t in samples && u in samples
    requires s.startedAt <= t <= u <= end
    ensures samples[t] <= samples[u]
  {
    ReadingsGood(s, samples, end);
    SampleIsRead(s, samples, end, t);
    SampleIsRead(s, samples, end, u);
    ReadInOrder(MeterValues(s, samples, end).value, Reading(t, samples[t]), Reading(u, samples[u]));
  }

  lemma ReadBetweenEnds(s: Session, samples: map<int, int>, end: int, t: int)
    requires s.startedAt < end && MeterValues(s, samples, end).Ok? && t in samples && InWindow(t, s.startedAt, end)
    ensures s.meterStop.Some? && s.meterStart <= samples[t] <= s.meterStop.value
    ensures t == s.startedAt ==> samples[t] == s.meterStart
    ensures t == end ==> samples[t] == s.meterStop.value
  {
    var rs := MeterValues(s, samples, end).value;
    ReadingsGood(s, samples, end);
    SampleIsRead(s, samples, end, t);
    assert rs[0] in rs && rs[|rs| - 1] in rs;
    ReadInOrder(rs, rs[0], Reading(t, samples[t]));
    ReadInOrder(rs, Reading(t, samples[t]), rs[|rs| - 1]);
    if t == s.startedAt {
      ReadInOrder(rs, Reading(t, samples[t]), rs[0]);
    }
    if t == end {
      ReadInOrder(rs, rs[|rs| - 1], Reading(t, samples[t]));
    }
  }

  lemma AcceptedInOrder(s: Session, samples: map<int, int>, end: int)
    requires s.startedAt < end && MeterValues(s, samples, end).Ok?
    ensures OrderedSamples(s, samples, end)
  {
    forall t, u | t in samples && u in samples && s.startedAt <= t <= u <= end ensures samples[t] <= samples[u] {
      ReadSamples(s, samples, end, t, u);
    }
    forall t | t in samples && InWindow(t, s.startedAt, end) ensures s.meterStart <= samples[t] {
      ReadBetweenEnds(s, samples, end, t);
    }
  }

  lemma AcceptedAgrees(s: Session, stop: int, samples: map<int, int>, end: int)
    requires s.startedAt < end && MeterValues(s, samples, end).Ok? && s.meterStop == Some(stop)
    ensures !SampleAboveStop(s, stop, samples, end) && !EndConflict(s, stop, samples, end)
  {
    forall t | t in samples && InWindow(t, s.startedAt, end) ensures samples[t] <= stop {
      ReadBetweenEnds(s, samples, end, t);
    }
    if s.startedAt in samples {
      ReadBetweenEnds(s, samples, end, s.startedAt);
    }
    if end in samples {
      ReadBetweenEnds(s, samples, end, end);
    }
  }

  lemma AcceptedMeters(s: Session, samples: map<int, int>, end: int)
    requires s.startedAt < end && MeterValues(s, samples, end).Ok?
    ensures s.meterStop.Some? && 0 <= s.meterStart <= s.meterStop.value
  {
    var rs := MeterValues(s, samples, end).value;
    ReadingsGood(s, samples, end);
    assert rs[0].energy <= rs[|rs| - 1].energy;
  }

  /** The samples of a session are accepted if and only if they are orderly. */
  lemma AcceptedIffOrderly(s: Session, samples: map<int, int>, end: int)
    requires s.startedAt < end
    ensures MeterValues(s, samples, end).Ok? <==> Orderly(s, samples, end)
  {
    if Orderly(s, samples, end) {
      ReadingsDecided(s, samples, end);
    }
    if MeterValues(s, samples, end).Ok? {
      AcceptedMeters(s, samples, end);
      AcceptedInOrder(s, samples, end);
      AcceptedAgrees(s, s.meterStop.value, samples, end);
    }
  }

  /** Taking samples away leaves the rest orderly. */
  lemma FewerOrderly(s: Session, samples: map<int, int>, more: map<int, int>, end: int)
    requires Orderly(s, more, end) && forall t :: t in samples ==> t in more && more[t] == samples[t]
    ensures Orderly(s, samples, end)
  {
  }

  /** An accepted sample on a session end repeats its meter. */
  lemma EndAgrees(s: Session, stop: int, samples: map<int, int>, end: int, t: int)
    requires s.startedAt < end && MeterValues(s, samples, end).Ok? && s.meterStop == Some(stop)
    requires t in samples && (t == s.startedAt || t == end)
    ensures t in Ends(s, stop, end) && Ends(s, stop, end)[t] == samples[t] >= 0
  {
    ReadBetweenEnds(s, samples, end, t);
  }

  lemma {:induction false} EndStays(
    s: Session, ends: map<int, int>, samples: map<int, int>, end: int, t: int, v: int, m: map<int, int>)
    requires Merge(ends, samples, SampleStamps(s, samples, end)) == Ok(m) && t in ends && ends[t] == v
    ensures m[t := v] == m
  {
    MergeContents(ends, samples, SampleStamps(s, samples, end));
  }

  /** So it changes no reading. */
  lemma SampleOnEnd(s: Session, samples: map<int, int>, end: int, t: int, v: int)
    requires s.startedAt < end && MeterValues(s, samples, end).Ok? && t !in samples
    requires (t == s.startedAt || t == end) && MeterValues(s, samples[t := v], end).Ok?
    ensures MeterValues(s, samples[t := v], end) == MeterValues(s, samples, end)
  {
    var m := MeterValuesParts(s, samples, end);
    var ends := Ends(s, s.meterStop.value, end);
    EndAgrees(s, s.meterStop.value, samples[t := v], end, t);
    EndStays(s, ends, samples, end, t, v, m);
    MergeGrows(s, ends, samples, end, t, v, m);
    MeterValuesFrom(s, samples, end, m);
    MeterValuesFrom(s, samples[t := v], end, m);
  }

  // ---------- samples away from the cuts ----------

  /** A session end or a stored sample lies between the instant `t` and the cut point `c`. */
  ghost predicate ShieldedFrom(s: Session, samples: map<int, int>, end: int, t: int, c: int) {
    exists u :: (u == s.startedAt || u == end || u in samples) && (c <= u < t || t < u <= c)
  }

  /** One lies between the instant and every cut point. */
  ghost predicate Shielded(s: Session, samples: map<int, int>, end: int, frames: DailyTariffs, off: int, t: int) {
    forall c :: IsCut(c, s.startedAt, end, frames, off) ==> ShieldedFrom(s, samples, end, t, c)
  }

  /** The neighbours of an instant, by index. */
  ghost predicate Around(rs: seq<Reading>, k: nat, t: int) {
    k + 1 < |rs| && rs[k].at < t < rs[k + 1].at
  }

  lemma {:induction false} NeighboursExist(rs: seq<Reading>, n: nat, t: int) returns (k: nat)
    requires StrictTimes(rs) && 0 < n < |rs| && rs[0].at < t < rs[n].at
    requires forall i :: 0 <= i < |rs| ==> rs[i].at != t
    ensures Around(rs, k, t)
  {
    if rs[n - 1].at < t {
      k := n - 1;
    } else {
      k := NeighboursExist(rs, n - 1, t);
    }
  }

  lemma ReadTimes(s: Session, samples: map<int, int>, end: int, rs: seq<Reading>)
    requires s.startedAt < end && MeterValues(s, samples, end) == Ok(rs)
    ensures forall i :: 0 <= i < |rs| ==> rs[i].at == s.startedAt || rs[i].at == end || rs[i].at in samples
  {
    var m := MeterValuesParts(s, samples, end);
    MergeContents(Ends(s, s.meterStop.value, end), samples, SampleStamps(s, samples, end));
    ByTimeFacts(m);
  }

  lemma EndsAreRead(s: Session, samples: map<int, int>, end: int, rs: seq<Reading>)
    requires s.startedAt < end && MeterValues(s, samples, end) == Ok(rs)
    ensures rs != [] && StrictTimes(rs) && rs[0].at == s.startedAt && rs[|rs| - 1].at == end
  {
    ReadingsGood(s, samples, end);
  }

  lemma MemberIndex(rs: seq<Reading>, x: Reading) returns (i: nat)
    requires x in rs
    ensures i < |rs| && rs[i] == x
  {
    i :| 0 <= i < |rs| && rs[i] == x;
  }

  /** Known instants are readings. */
  lemma KnownIsRead(s: Session, samples: map<int, int>, end: int, rs: seq<Reading>, u: int) returns (i: nat)
    requires s.startedAt < end && MeterValues(s, samples, end) == Ok(rs) && InWindow(u, s.startedAt, end)
    requires u == s.startedAt || u == end || u in samples
    ensures i < |rs| && rs[i].at == u
  {
    EndsAreRead(s, samples, end, rs);
    if u == s.startedAt {
      i := 0;
    } else if u == end {
      i := |rs| - 1;
    } else {
      SampleIsRead(s, samples, end, u);
      i := MemberIndex(rs, Reading(u, samples[u]));
    }
  }

  lemma KnownIsOutside(rs: seq<Reading>, k: nat, t: int, c: int, i: nat)
    requires StrictTimes(rs) && Around(rs, k, t) && i < |rs| && (c <= rs[i].at < t || t < rs[i].at <= c)
    ensures c <= rs[k].at || rs[k + 1].at <= c
  {
  }

  lemma ShieldedCut(s: Session, samples: map<int, int>, end: int, rs: seq<Reading>, k: nat, t: int, c: int)
    requires s.startedAt < end && MeterValues(s, samples, end) == Ok(rs) && Around(rs, k, t)
    requires ShieldedFrom(s, samples, end, t, c) && InWindow(c, s.startedAt, end) && InWindow(t, s.startedAt, end)
    ensures c <= rs[k].at || rs[k + 1].at <= c
  {
    var u :| (u == s.startedAt || u == end || u in samples) && (c <= u < t || t < u <= c);
    var i := KnownIsRead(s, samples, end, rs, u);
    EndsAreRead(s, samples, end, rs);
    KnownIsOutside(rs, k, t, c, i);
  }

  /** A shielded instant has no cut point between its neighbours. */
  lemma ShieldedNeighbours(
    s: Session, samples: map<int, int>, end: int, frames: DailyTariffs, off: int, rs: seq<Reading>, k: nat, t: int)
    requires s.startedAt < end && MeterValues(s, samples, end) == Ok(rs) && Around(rs, k, t)
    requires Shielded(s, samples, end, frames, off, t) && s.startedAt < t < end
    ensures forall c :: IsCut(c, s.startedAt, end, frames, off) ==> c <= rs[k].at || rs[k + 1].at <= c
  {
    forall c | IsCut(c, s.startedAt, end, frames, off) ensures c <= rs[k].at || rs[k + 1].at <= c {
      ShieldedCut(s, samples, end, rs, k, t, c);
    }
  }

  /** The energy amount of a session under given frames; none if its samples are refused. */
  ghost function AmountUnder(s: Session, samples: map<int, int>, end: int, frames: DailyTariffs, off: int): Option<int> {
    match MeterValues(s, samples, end)
    case Err(_) => None
    case Ok(rs) =>
      match Segments(s.startedAt, end, rs, frames, off)
      case Err(_) => None
      case Ok(segments) => Some(DailyTotals.AmountTotal(segments))
  }

  lemma {:induction false} SameAmountUnder(
    s: Session, samples: map<int, int>, more: map<int, int>, end: int, frames: DailyTariffs, off: int,
    rs: seq<Reading>, rs': seq<Reading>)
    requires MeterValues(s, samples, end) == Ok(rs) && MeterValues(s, more, end) == Ok(rs')
    requires SameAmount(Segments(s.startedAt, end, rs, frames, off), Segments(s.startedAt, end, rs', frames, off))
    ensures AmountUnder(s, more, end, frames, off) == AmountUnder(s, samples, end, frames, off)
  {
  }

  /** A new sample that keeps the samples orderly and is shielded from the cuts keeps the amount. */
  lemma ShieldedInsideKeeps(
    s: Session, samples: map<int, int>, end: int, frames: DailyTariffs, off: int, t: int, v: int)
    requires s.startedAt < t < end && t !in samples && Shielded(s, samples, end, frames, off, t)
    requires MeterValues(s, samples, end).Ok? && MeterValues(s, samples[t := v], end).Ok?
    ensures AmountUnder(s, samples[t := v], end, frames, off) == AmountUnder(s, samples, end, frames, off)
  {
    var rs := MeterValues(s, samples, end).value;
    ReadingsGood(s, samples, end);
    ReadTimes(s, samples, end, rs);
    var k := NeighboursExist(rs, |rs| - 1, t);
    ShieldedNeighbours(s, samples, end, frames, off, rs, k, t);
    SampleInserted(s, samples, end, rs, k, t, v);
    InsertedKeepsAmount(s.startedAt, end, rs, k, Reading(t, v), frames, off);
    SameAmountUnder(s, samples, samples[t := v], end, frames, off, rs, Inserted(rs, k, Reading(t, v)));
  }

  lemma BothAccepted(s: Session, samples: map<int, int>, more: map<int, int>, end: int)
    requires s.startedAt < end && Orderly(s, more, end)
    requires forall t :: t in samples ==> t in more && more[t] == samples[t]
    ensures MeterValues(s, samples, end).Ok? && MeterValues(s, more, end).Ok?
  {
    FewerOrderly(s, samples, more, end);
    AcceptedIffOrderly(s, samples, end);
    AcceptedIffOrderly(s, more, end);
  }

  lemma {:induction false} SameReadingsKeep(
    s: Session, samples: map<int, int>, more: map<int, int>, end: int, frames: DailyTariffs, off: int)
    requires MeterValues(s, more, end) == MeterValues(s, samples, end)
    ensures AmountUnder(s, more, end, frames, off) == AmountUnder(s, samples, end, frames, off)
  {
  }

  lemma ShieldedSampleKeeps(
    s: Session, samples: map<int, int>, end: int, frames: DailyTariffs, off: int, t: int, v: int)
    requires s.startedAt < end && InWindow(t, s.startedAt, end) && t !in samples
    requires s.startedAt < t < end ==> Shielded(s, samples, end, frames, off, t)
    requires Orderly(s, samples[t := v], end)
    ensures AmountUnder(s, samples[t := v], end, frames, off) == AmountUnder(s, samples, end, frames, off)
  {
    BothAccepted(s, samples, samples[t := v], end);
    if s.startedAt < t < end {
      ShieldedInsideKeeps(s, samples, end, frames, off, t, v);
    } else {
      SampleOnEnd(s, samples, end, t, v);
      SameReadingsKeep(s, samples, samples[t := v], end, frames, off);
    }
  }

  // ---------- messages ----------

  /** A sample that is new, of the outlet register and inside the session is shielded from the cuts. */
  ghost predicate ShieldedPoint(
    s: Session, samples: map<int, int>, end: int, frames: DailyTariffs, off: int, p: Point)
  {
    p.key == OUTLET && s.startedAt < p.at < end && p.at !in samples ==> Shielded(s, samples, end, frames, off, p.at)
  }

  /** The n-th sample of a late report is, when it is stored. */
  ghost predicate ShieldedStored(
    s: Session, end: int, frames: DailyTariffs, off: int, c: Context, st: Store, pts: seq<Point>, n: nat)
    requires n < |pts|
  {
    ShieldedPoint(s, Occupation.OutletSamples(Backfill(c, st, pts[..n])), end, frames, off, pts[n])
  }

  ghost predicate ShieldedPoints(
    s: Session, end: int, frames: DailyTariffs, off: int, c: Context, st: Store, pts: seq<Point>)
  {
    forall n :: 0 <= n < |pts| ==> ShieldedStored(s, end, frames, off, c, st, pts, n)
  }

  lemma {:induction false} FewerShielded(
    s: Session, end: int, frames: DailyTariffs, off: int, c: Context, st: Store, pts: seq<Point>)
    requires pts != [] && ShieldedPoints(s, end, frames, off, c, st, pts)
    ensures ShieldedPoints(s, end, frames, off, c, st, pts[..|pts| - 1])
  {
    var init := pts[..|pts| - 1];
    forall n | 0 <= n < |init| ensures ShieldedStored(s, end, frames, off, c, st, init, n) {
      assert ShieldedStored(s, end, frames, off, c, st, pts, n);
      assert init[..n] == pts[..n];
    }
  }

  lemma StepOutlet(c: Context, st: Store, p: Point)
    ensures var samples, after := Occupation.OutletSamples(st), Occupation.OutletSamples(BackfillStep(c, st, p));
            || after == samples
            || (p.key == OUTLET && Accepted(c, p.at) && p.at !in samples && after == samples[p.at := p.value])
  {
  }

  lemma PointKeeps(
    s: Session, end: int, frames: DailyTariffs, off: int, c: Context, st: Store, p: Point)
    requires s.startedAt < end && c.startedAt == s.startedAt && c.endedAt == Some(end)
    requires ShieldedPoint(s, Occupation.OutletSamples(st), end, frames, off, p)
    requires Orderly(s, Occupation.OutletSamples(BackfillStep(c, st, p)), end)
    ensures Orderly(s, Occupation.OutletSamples(st), end)
    ensures AmountUnder(s, Occupation.OutletSamples(BackfillStep(c, st, p)), end, frames, off)
         == AmountUnder(s, Occupation.OutletSamples(st), end, frames, off)
  {
    var samples := Occupation.OutletSamples(st);
    StepOutlet(c, st, p);
    if Occupation.OutletSamples(BackfillStep(c, st, p)) != samples {
      FewerOrderly(s, samples, samples[p.at := p.value], end);
      ShieldedSampleKeeps(s, samples, end, frames, off, p.at, p.value);
    }
  }

  lemma {:induction false} PointsKeep(
    s: Session, end: int, frames: DailyTariffs, off: int, c: Context, st: Store, pts: seq<Point>)
    requires s.startedAt < end && c.startedAt == s.startedAt && c.endedAt == Some(end)
    requires ShieldedPoints(s, end, frames, off, c, st, pts)
    requires Orderly(s, Occupation.OutletSamples(Backfill(c, st, pts)), end)
    ensures Orderly(s, Occupation.OutletSamples(st), end)
    ensures AmountUnder(s, Occupation.OutletSamples(Backfill(c, st, pts)), end, frames, off)
         == AmountUnder(s, Occupation.OutletSamples(st), end, frames, off)
  {
    if pts == [] {
    } else {
      var init := pts[..|pts| - 1];
      BackfillLast(c, st, pts);
      assert ShieldedStored(s, end, frames, off, c, st, pts, |init|);
      PointKeeps(s, end, frames, off, c, Backfill(c, st, init), pts[|init|]);
      FewerShielded(s, end, frames, off, c, st, pts);
      PointsKeep(s, end, frames, off, c, st, init);
    }
  }

  /** Every sample that the message stores is shielded. */
  ghost predicate ShieldedMessage(s: Occupation.Charging, frames: DailyTariffs, off: int, e: SessionRuns.Event)
    requires s.endedAt.Some?
  {
    e.MeterEvent? && e.byTransaction && !e.manuallyClosed && s.recovering ==>
      ShieldedPoints(RowOf(s), s.endedAt.value, frames, off, s.Facts(), s.store, PointsOf(SortBlocks(e.blocks)))
  }

  ghost function AmountOf(s: Occupation.Charging, frames: DailyTariffs, off: int): Option<int>
    requires s.endedAt.Some?
  {
    AmountUnder(RowOf(s), Occupation.OutletSamples(s.store), s.endedAt.value, frames, off)
  }

  ghost predicate OrderlySession(s: Occupation.Charging)
    requires s.endedAt.Some?
  {
    Orderly(RowOf(s), Occupation.OutletSamples(s.store), s.endedAt.value)
  }

  lemma MessageKeepsAmount(s: Occupation.Charging, frames: DailyTariffs, off: int, e: SessionRuns.Event)
    requires Frozen(s) && Frozen(SessionRuns.Apply(s, e)) && s.startedAt < s.endedAt.value
    requires ShieldedMessage(s, frames, off, e) && OrderlySession(SessionRuns.Apply(s, e))
    ensures OrderlySession(s) && AmountOf(SessionRuns.Apply(s, e), frames, off) == AmountOf(s, frames, off)
  {
    MessageKeepsFrozen(s, e);
    match e
    case MeterEvent(blocks, byTransaction, manuallyClosed) =>
      if byTransaction && !manuallyClosed && s.recovering {
        PointsKeep(RowOf(s), s.endedAt.value, frames, off, s.Facts(), s.store, PointsOf(SortBlocks(blocks)));
      }
    case _ =>
  }

  /** The n-th message of the run, when it arrives. */
  ghost predicate ShieldedAt(
    s: Occupation.Charging, frames: DailyTariffs, off: int, events: seq<SessionRuns.Event>, n: nat)
    requires n < |events|
  {
    var now := SessionRuns.Run(s, events[..n]);
    now.endedAt.Some? && ShieldedMessage(now, frames, off, events[n])
  }

  ghost predicate ShieldedRun(
    s: Occupation.Charging, frames: DailyTariffs, off: int, events: seq<SessionRuns.Event>)
  {
    forall n :: 0 <= n < |events| ==> ShieldedAt(s, frames, off, events, n)
  }

  lemma {:induction false} ShieldedPrefix(
    s: Occupation.Charging, frames: DailyTariffs, off: int, events: seq<SessionRuns.Event>)
    requires events != [] && ShieldedRun(s, frames, off, events)
    ensures ShieldedRun(s, frames, off, events[..|events| - 1])
  {
    var init := events[..|events| - 1];
    forall n | 0 <= n < |init| ensures ShieldedAt(s, frames, off, init, n) {
      assert ShieldedAt(s, frames, off, events, n);
      assert init[..n] == events[..n];
    }
  }

  lemma {:induction false} RunKeepsAmount(
    s: Occupation.Charging, frames: DailyTariffs, off: int, events: seq<SessionRuns.Event>)
    requires Frozen(s) && Frozen(SessionRuns.Run(s, events)) && s.startedAt < s.endedAt.value
    requires ShieldedRun(s, frames, off, events) && OrderlySession(SessionRuns.Run(s, events))
    ensures AmountOf(SessionRuns.Run(s, events), frames, off) == AmountOf(s, frames, off)
  {
    if events == [] {
    } else {
      var init := events[..|events| - 1];
      MessagesKeepFrozen(s, init);
      assert ShieldedAt(s, frames, off, events, |events| - 1);
      MessageKeepsAmount(SessionRuns.Run(s, init), frames, off, events[|events| - 1]);
      ShieldedPrefix(s, frames, off, events);
      RunKeepsAmount(s, frames, off, init);
    }
  }

  // ---------- the audit ----------

  /** The frames a session is priced under. */
  ghost function PricedFrames(e: Evidence): DailyTariffs
    requires Invoiceable(e.session)
  {
    match DailyPricing(e.tariffs, e.session.startedAt, BillingEnd(e), e.off)
    case Ok(p) => p.frames
    case Err(_) => map[]
  }

  lemma EnergyIsUnder(e: Evidence)
    requires Invoiceable(e.session) && DailyPricing(e.tariffs, e.session.startedAt, BillingEnd(e), e.off).Ok?
    ensures EnergyAmount(e)
         == AmountUnder(e.session, e.samples, e.session.endedAt.value, PricedFrames(e), e.off)
  {
  }

  lemma PricedAmount(e: Evidence, rs: seq<Reading>, p: Pricing, invoice: Invoice)
    requires PricedFrom(e, rs, p) && rs != [] && PricedInvoice(e, e.session.driver.value, rs, p) == Ok(invoice)
    ensures EnergyAmount(e) == Some(DailyTotals.AmountTotal(invoice.energyLines))
  {
    PricedSegments(e, rs, p);
  }

  lemma CreatedAmount(e: Evidence, invoice: Invoice)
    requires Invoiceable(e.session) && CreatedInvoice(e) == Ok(invoice)
    ensures EnergyAmount(e) == Some(DailyTotals.AmountTotal(invoice.energyLines))
  {
    var rs := MeterValues(e.session, e.samples, e.session.endedAt.value).value;
    var p := DailyPricing(e.tariffs, e.session.startedAt, BillingEnd(e), e.off).value;
    assert PricedFrom(e, rs, p);
    BilledIsPriced(e, rs, p);
    PricedAmount(e, rs, p, invoice);
  }

  /** Pricing does not read the samples. */
  lemma FramesStay(e: Evidence, samples: map<int, int>)
    requires Invoiceable(e.session)
    ensures PricedFrames(e.(samples := samples)) == PricedFrames(e)
    ensures DailyPricing(e.tariffs, e.session.startedAt, BillingEnd(e.(samples := samples)), e.off)
         == DailyPricing(e.tariffs, e.session.startedAt, BillingEnd(e), e.off)
  {
  }

  lemma OrderlyEnergy(
    s: Occupation.Charging, s': Occupation.Charging, tariffs: seq<Tariff>, off: int, sameStation: bool)
    requires Frozen(s) && Frozen(s') && OnlySamplesAdded(s, s') && s.startedAt < s.endedAt.value
    requires EnergyAmount(EvidenceOf(s, tariffs, off, sameStation)).Some?
    requires var frames := PricedFrames(EvidenceOf(s, tariffs, off, sameStation));
             OrderlySession(s') ==> AmountOf(s', frames, off) == AmountOf(s, frames, off)
    ensures EnergyAmount(EvidenceOf(s', tariffs, off, sameStation)) == EnergyAmount(EvidenceOf(s, tariffs, off, sameStation))
            <==> OrderlySession(s')
  {
    var e, e' := EvidenceOf(s, tariffs, off, sameStation), EvidenceOf(s', tariffs, off, sameStation);
    assert e' == e.(samples := e'.samples);
    FramesStay(e, e'.samples);
    EnergyIsUnder(e);
    EnergyIsUnder(e');
    AcceptedIffOrderly(e'.session, e'.samples, s'.endedAt.value);
  }

  /** A session settled in any run goes on receiving messages, and each new sample they bring has a session
      end or a stored sample between itself and every cut point. Then its audit is silent if and only if
      its samples still run in order from the start meter to the stop meter. */
  lemma {:induction false} ShieldedSamplesAudited(
    w0: Settlement.World, steps: seq<SettlementProofs.Step>, id: int, j: Joined,
    s: Occupation.Charging, events: seq<SessionRuns.Event>, tariffs: seq<Tariff>, off: int, sameStation: bool)
    requires SettlementProofs.Initial(w0) && Frozen(s)
    requires var w := SettlementProofs.Run(w0, steps);
             && id in w.rows && JoinedFrom(w, id, j)
             && (w.rows[id].settled == Some(Settlement.Debited) || w.rows[id].settled == Some(Settlement.ZeroInvoice))
             && (w.rows[id].issued.Some? ==>
                   w.rows[id].issued.value.basis == EvidenceOf(s, tariffs, off, sameStation))
             && w.rows[id].evidence == EvidenceOf(SessionRuns.Run(s, events), tariffs, off, sameStation)
    requires ShieldedRun(s, PricedFrames(EvidenceOf(s, tariffs, off, sameStation)), off, events)
    ensures j.evidence.session.endedAt.Some?
    ensures Issues(j) == [] <==> Orderly(j.evidence.session, j.evidence.samples, j.evidence.session.endedAt.value)
  {
    var w, e, s' := SettlementProofs.Run(w0, steps), EvidenceOf(s, tariffs, off, sameStation), SessionRuns.Run(s, events);
    LateSamplesAudited(w0, steps, id, j, s, events, tariffs, off, sameStation);
    SettlementProofs.SettledRightOverRuns(w0, steps);
    SettlementProofs.GenuineOverRuns(w0, steps);
    SettlementProofs.SettledIsIssued(w, id);
    var issued := w.rows[id].issued.value;
    assert SettlementProofs.Genuine(issued);
    CreatedAmount(e, issued.invoice);
    var p, fees := CreatedFixedParts(e, issued.invoice);
    MessagesKeepFrozen(s, events);
    if OrderlySession(s') {
      RunKeepsAmount(s, PricedFrames(e), off, events);
    }
    OrderlyEnergy(s, s', tariffs, off, sameStation);
  }
}
