/** Validation of a tariff's daily bands (pricing/bands.py): exactly one price at every minute. */
module Bands {
  import opened Prelude

  const DAY_MINUTES: int := 1440
  const MAX_RATE: int := 0x7fff_ffff_ffff_ffff

  datatype Band = Band(startMin: int, endMin: int, rate: int, caption: string)

  datatype BandError = InvalidInput | GapOrOverlap

  predicate ValidInput(b: Band) {
    && 0 <= b.startMin < DAY_MINUTES && 0 <= b.endMin <= DAY_MINUTES && b.startMin != b.endMin
    && 0 <= b.rate <= MAX_RATE
    && |b.caption| <= 100
  }

  /** An overnight band is cut at midnight. */
  function Halves(b: Band): seq<Band> {
    if b.startMin < b.endMin then [b]
    else
      [b.(endMin := DAY_MINUTES)] + if b.endMin > 0 then [b.(startMin := 0)] else []
  }

  function Normalized(bands: seq<Band>): seq<Band> {
    if bands == [] then [] else Normalized(bands[..|bands| - 1]) + Halves(bands[|bands| - 1])
  }

  predicate Owns(b: Band, minute: int) { b.startMin <= minute < b.endMin }

  /** How many bands price a given minute. */
  function Owners(bands: seq<Band>, minute: int): nat {
    if bands == [] then 0
    else Owners(bands[..|bands| - 1], minute) + if Owns(bands[|bands| - 1], minute) then 1 else 0
  }

  predicate Proper(b: Band) { 0 <= b.startMin < b.endMin <= DAY_MINUTES }

  ghost predicate AllProper(bands: seq<Band>) {
    forall i :: 0 <= i < |bands| ==> Proper(bands[i])
  }

  /** The promise: one price, no more and no less, at every minute of the day. */
  ghost predicate PricedOnce(bands: seq<Band>) {
    forall m :: 0 <= m < DAY_MINUTES ==> Owners(bands, m) == 1
  }

  /** The bands in order cover 00:00 to 24:00 end to end. */
  ghost predicate TilesDay(bands: seq<Band>) {
    && bands != [] && AllProper(bands)
    && bands[0].startMin == 0 && bands[|bands| - 1].endMin == DAY_MINUTES
    && forall i :: 0 <= i < |bands| - 1 ==> bands[i].endMin == bands[i + 1].startMin
  }

  // ---------- counting owners ----------

  lemma {:induction false} OwnersZero(bands: seq<Band>, m: int)
    requires forall i :: 0 <= i < |bands| ==> !Owns(bands[i], m)
    ensures Owners(bands, m) == 0
  {
    if bands == [] {
    } else {
      OwnersZero(bands[..|bands| - 1], m);
    }
  }

  lemma {:induction false} OwnersAtLeast(bands: seq<Band>, m: int, i: nat)
    requires i < |bands| && Owns(bands[i], m)
    ensures Owners(bands, m) >= 1
    ensures forall j :: 0 <= j < |bands| && j != i && Owns(bands[j], m) ==> Owners(bands, m) >= 2
  {
    var init := bands[..|bands| - 1];
    if i < |init| {
      OwnersAtLeast(init, m, i);
      assert forall j :: 0 <= j < |init| ==> init[j] == bands[j];
    } else {
      forall j | 0 <= j < |bands| && j != i && Owns(bands[j], m) ensures Owners(bands, m) >= 2 {
        assert init[j] == bands[j];
        OwnersAtLeast(init, m, j);
      }
    }
  }

  lemma {:induction false} OwnersAgree(bands: seq<Band>, m: int, n: int)
    requires forall i :: 0 <= i < |bands| ==> (Owns(bands[i], m) <==> Owns(bands[i], n))
    ensures Owners(bands, m) == Owners(bands, n)
  {
    if bands == [] {
    } else {
      var init := bands[..|bands| - 1];
      assert forall i :: 0 <= i < |init| ==> init[i] == bands[i];
      OwnersAgree(init, m, n);
    }
  }

  lemma {:induction false} OwnersConcat(a: seq<Band>, b: seq<Band>, m: int)
    ensures Owners(a + b, m) == Owners(a, m) + Owners(b, m)
  {
    if b == [] {
      assert a + b == a;
    } else {
      OwnersConcat(a, b[..|b| - 1], m);
      assert (a + b)[..|a + b| - 1] == a + b[..|b| - 1];
    }
  }

  // ---------- sorting by start ----------

  ghost predicate SortedByStart(bands: seq<Band>) {
    forall i, j :: 0 <= i < j < |bands| ==> bands[i].startMin <= bands[j].startMin
  }

  function Place(b: Band, bands: seq<Band>): seq<Band> {
    if bands == [] || bands[|bands| - 1].startMin <= b.startMin then bands + [b]
    else Place(b, bands[..|bands| - 1]) + [bands[|bands| - 1]]
  }

  /** Python's stable `sorted(..., key=start_min)`. */
  function SortByStart(bands: seq<Band>): seq<Band> {
    if bands == [] then [] else Place(bands[|bands| - 1], SortByStart(bands[..|bands| - 1]))
  }

  lemma {:induction false} PlaceSorts(b: Band, bands: seq<Band>)
    requires SortedByStart(bands) && AllProper(bands) && Proper(b)
    ensures var r := Place(b, bands);
            && SortedByStart(r) && AllProper(r) && |r| == |bands| + 1
            && forall i :: 0 <= i < |r| ==> r[i] == b || r[i] in bands
  {
    if bands != [] && bands[|bands| - 1].startMin > b.startMin {
      var init := bands[..|bands| - 1];
      PlaceSorts(b, init);
      assert forall x :: x in init ==> x in bands && x.startMin <= bands[|bands| - 1].startMin;
    }
  }

  lemma {:induction false} PlaceKeepsOwners(b: Band, bands: seq<Band>, m: int)
    ensures Owners(Place(b, bands), m) == Owners(bands, m) + if Owns(b, m) then 1 else 0
  {
    if bands != [] && bands[|bands| - 1].startMin > b.startMin {
      var init, last := bands[..|bands| - 1], bands[|bands| - 1];
      PlaceKeepsOwners(b, init, m);
      OwnersConcat(Place(b, init), [last], m);
      OwnersConcat(init, [last], m);
      assert init + [last] == bands;
    } else {
      OwnersConcat(bands, [b], m);
      assert Owners([b], m) == if Owns(b, m) then 1 else 0;
    }
  }

  lemma {:induction false} SortKeeps(bands: seq<Band>, m: int)
    requires AllProper(bands)
    ensures var r := SortByStart(bands);
            SortedByStart(r) && AllProper(r) && |r| == |bands| && Owners(r, m) == Owners(bands, m)
  {
    if bands == [] {
    } else {
      var init := bands[..|bands| - 1];
      assert AllProper(init);
      SortKeeps(init, m);
      PlaceSorts(bands[|bands| - 1], SortByStart(init));
      PlaceKeepsOwners(bands[|bands| - 1], SortByStart(init), m);
    }
  }

  lemma {:induction false} PlacedMembers(b: Band, bands: seq<Band>)
    ensures forall x :: x in Place(b, bands) ==> x == b || x in bands
  {
    if bands != [] && bands[|bands| - 1].startMin > b.startMin {
      PlacedMembers(b, bands[..|bands| - 1]);
    }
  }

  lemma {:induction false} SortedMembers(bands: seq<Band>)
    ensures forall x :: x in SortByStart(bands) ==> x in bands
  {
    if bands == [] {
    } else {
      SortedMembers(bands[..|bands| - 1]);
      PlacedMembers(bands[|bands| - 1], SortByStart(bands[..|bands| - 1]));
    }
  }

  // ---------- one owner everywhere means the sorted bands tile the day ----------

  lemma {:induction false} Contiguous(bands: seq<Band>, n: nat)
    requires AllProper(bands) && SortedByStart(bands) && PricedOnce(bands) && n < |bands|
    ensures bands[0].startMin == 0
    ensures forall i :: 0 <= i < n ==> bands[i].endMin == bands[i + 1].startMin
    ensures forall i :: 0 <= i < n ==> bands[i].endMin <= bands[n].startMin
  {
    if n == 0 {
      assert Owners(bands, 0) == 1;
      if bands[0].startMin > 0 {
        OwnersZero(bands, 0);
      }
    } else {
      Contiguous(bands, n - 1);
      var last, next := bands[n - 1], bands[n];
      assert Proper(last) && Proper(next);
      if next.startMin < last.endMin {
        assert last.startMin <= next.startMin;
        OwnersAtLeast(bands, next.startMin, n - 1);
        assert Owns(bands[n], next.startMin);
      } else if last.endMin < next.startMin {
        forall i | 0 <= i < |bands| ensures !Owns(bands[i], last.endMin) {
          if i < n - 1 {
            assert bands[i].endMin <= last.startMin;
          } else if i >= n {
            assert next.startMin <= bands[i].startMin;
          }
        }
        assert 0 <= last.endMin < DAY_MINUTES;
        OwnersZero(bands, last.endMin);
      }
    }
  }

  lemma SortedPricedOnceTiles(bands: seq<Band>)
    requires AllProper(bands) && SortedByStart(bands) && PricedOnce(bands)
    ensures TilesDay(bands)
  {
    assert Owners(bands, 0) == 1;
    var n := |bands| - 1;
    Contiguous(bands, n);
    assert Proper(bands[n]);
    if bands[n].endMin < DAY_MINUTES {
      forall i | 0 <= i < |bands| ensures !Owns(bands[i], bands[n].endMin) {
        if i < n {
          assert bands[i].endMin <= bands[n].startMin;
        }
      }
      OwnersZero(bands, bands[n].endMin);
    }
  }

  // ---------- the boundary sweep ----------

  function Edges(bands: seq<Band>): set<int> {
    if bands == [] then {0, DAY_MINUTES}
    else Edges(bands[..|bands| - 1]) + {bands[|bands| - 1].startMin, bands[|bands| - 1].endMin}
  }

  lemma {:induction false} EdgesHold(bands: seq<Band>, i: nat)
    requires i < |bands|
    ensures bands[i].startMin in Edges(bands) && bands[i].endMin in Edges(bands)
  {
    if i == |bands| - 1 {
    } else {
      assert bands[..|bands| - 1][i] == bands[i];
      EdgesHold(bands[..|bands| - 1], i);
    }
  }

  lemma {:induction false} EdgesInside(bands: seq<Band>, x: int)
    requires AllProper(bands)
    ensures 0 in Edges(bands) && DAY_MINUTES in Edges(bands)
    ensures x in Edges(bands) ==> 0 <= x <= DAY_MINUTES
  {
    if bands == [] {
    } else {
      assert AllProper(bands[..|bands| - 1]);
      assert Proper(bands[|bands| - 1]);
      EdgesInside(bands[..|bands| - 1], x);
    }
  }

  /** A minute has the owners of the edge at or before it, so checking the edges checks every minute. */
  lemma {:induction false} SameOwnersBetweenEdges(bands: seq<Band>, edges: seq<int>, k: nat, m: int)
    requires StrictlySorted(edges) && forall x :: x in edges <==> x in Edges(bands)
    requires k + 1 < |edges| && edges[k] <= m < edges[k + 1]
    ensures Owners(bands, m) == Owners(bands, edges[k])
  {
    forall i | 0 <= i < |bands| ensures Owns(bands[i], m) <==> Owns(bands[i], edges[k]) {
      EdgesHold(bands, i);
      assert bands[i].startMin in edges && bands[i].endMin in edges;
    }
    OwnersAgree(bands, m, edges[k]);
  }

  lemma EdgeBefore(edges: seq<int>, m: int) returns (k: nat)
    requires StrictlySorted(edges) && |edges| >= 2 && edges[0] <= m < edges[|edges| - 1]
    ensures k + 1 < |edges| && edges[k] <= m < edges[k + 1]
  {
    k := 0;
    while edges[k + 1] <= m
      invariant k + 1 < |edges| && edges[k] <= m
      decreases |edges| - k
    {
      k := k + 1;
    }
  }

  lemma {:induction false} NormalizedProper(bands: seq<Band>)
    requires forall i :: 0 <= i < |bands| ==> ValidInput(bands[i])
    ensures AllProper(Normalized(bands))
  {
    if bands == [] {
    } else {
      NormalizedProper(bands[..|bands| - 1]);
    }
  }

  ghost predicate AllValid(bands: seq<Band>) {
    forall i :: 0 <= i < |bands| ==> ValidInput(bands[i])
  }

  /** The rule without the sweep: valid inputs that price every minute exactly once. */
  ghost function CheckedBands(bands: seq<Band>): Result<seq<Band>, BandError> {
    if !AllValid(bands) then Err(InvalidInput)
    else if !PricedOnce(Normalized(bands)) then Err(GapOrOverlap)
    else Ok(SortByStart(Normalized(bands)))
  }

  method NormalizeAll(bands: seq<Band>) returns (issues: bool, normalized: seq<Band>)
    ensures issues <==> !AllValid(bands)
    ensures !issues ==> normalized == Normalized(bands)
  {
    normalized := [];
    issues := false;
    for i := 0 to |bands|
      invariant issues <==> exists j :: 0 <= j < i && !ValidInput(bands[j])
      invariant !issues ==> normalized == Normalized(bands[..i])
    {
      assert bands[..i + 1][..i] == bands[..i];
      if !ValidInput(bands[i]) {
        issues := true;
        continue;
      }
      normalized := normalized + Halves(bands[i]);
    }
    assert bands[..|bands|] == bands;
  }

  method SweepEdges(normalized: seq<Band>) returns (issues: bool)
    requires AllProper(normalized)
    ensures issues <==> !PricedOnce(normalized)
  {
    var edges := SortedSeq(Edges(normalized));
    SweepIsComplete(normalized, edges);
    issues := CountAtEdges(normalized, edges);
  }

  method CountAtEdges(normalized: seq<Band>, edges: seq<int>) returns (issues: bool)
    requires edges != []
    ensures issues <==> !(forall k :: 0 <= k < |edges| - 1 ==> Owners(normalized, edges[k]) == 1)
  {
    issues := false;
    for k := 0 to |edges| - 1
      invariant issues <==> exists j :: 0 <= j < k && Owners(normalized, edges[j]) != 1
    {
      if Owners(normalized, edges[k]) != 1 {
        issues := true;
      }
    }
  }

  /** `kiem_khung_gio`: accepts exactly the inputs whose bands price every minute once, and what it
      returns then tiles the day in order. */
  method ValidateBands(bands: seq<Band>) returns (r: Result<seq<Band>, BandError>)
    ensures r == CheckedBands(bands)
    ensures r.Ok? ==> TilesDay(r.value)
  {
    var invalid, normalized := NormalizeAll(bands);
    if invalid {
      return Err(InvalidInput);
    }
    NormalizedProper(bands);
    var unpriced := SweepEdges(normalized);
    if unpriced {
      return Err(GapOrOverlap);
    }
    SortedTiles(normalized);
    return Ok(SortByStart(normalized));
  }

  lemma CheckedBandsTile(bands: seq<Band>)
    requires CheckedBands(bands).Ok?
    ensures TilesDay(CheckedBands(bands).value)
  {
    NormalizedProper(bands);
    SortedTiles(Normalized(bands));
  }

  lemma {:induction false} EdgesSpanDay(bands: seq<Band>, edges: seq<int>)
    requires AllProper(bands) && StrictlySorted(edges) && forall x :: x in edges <==> x in Edges(bands)
    ensures |edges| >= 2 && edges[0] == 0 && edges[|edges| - 1] == DAY_MINUTES
  {
    EdgesInside(bands, 0);
    assert 0 in edges && DAY_MINUTES in edges;
    forall i | 0 <= i < |edges| ensures 0 <= edges[i] <= DAY_MINUTES {
      assert edges[i] in edges;
      EdgesInside(bands, edges[i]);
    }
  }

  /** Checking the owners at each edge is checking them at each minute. */
  lemma {:induction false} SweepIsComplete(bands: seq<Band>, edges: seq<int>)
    requires AllProper(bands) && StrictlySorted(edges) && forall x :: x in edges <==> x in Edges(bands)
    ensures |edges| >= 2
    ensures (forall k :: 0 <= k < |edges| - 1 ==> Owners(bands, edges[k]) == 1) <==> PricedOnce(bands)
  {
    EdgesSpanDay(bands, edges);
    if forall k :: 0 <= k < |edges| - 1 ==> Owners(bands, edges[k]) == 1 {
      forall m | 0 <= m < DAY_MINUTES ensures Owners(bands, m) == 1 {
        var k := EdgeBefore(edges, m);
        SameOwnersBetweenEdges(bands, edges, k, m);
      }
    } else {
      var k :| 0 <= k < |edges| - 1 && Owners(bands, edges[k]) != 1;
      assert 0 <= edges[k] < DAY_MINUTES;
    }
  }

  lemma {:induction false} SortedTiles(bands: seq<Band>)
    requires AllProper(bands) && PricedOnce(bands)
    ensures TilesDay(SortByStart(bands)) && PricedOnce(SortByStart(bands))
  {
    forall m ensures Owners(SortByStart(bands), m) == Owners(bands, m) {
      SortKeeps(bands, m);
    }
    SortKeeps(bands, 0);
    SortedPricedOnceTiles(SortByStart(bands));
  }
}
