/** From a tariff's own bands to the price at every instant of a session. */
module TariffPrices {
  import opened Prelude
  import opened Calendar
  import opened Segmentation
  import opened SegmentationProofs
  import opened Invoicing
  import opened Bands

  // ---------- a band on the clock ----------

  /** The minute lies in the band, which runs over midnight if it ends before it starts. */
  predicate Holds(b: Band, m: int) {
    if b.startMin < b.endMin then b.startMin <= m < b.endMin else b.startMin <= m || m < b.endMin
  }

  /** The one band that holds the minute. */
  ghost predicate SoleHolder(bands: seq<Band>, m: int, i: nat) {
    && i < |bands| && Holds(bands[i], m)
    && forall j :: 0 <= j < |bands| && j != i ==> !Holds(bands[j], m)
  }

  ghost predicate HeldOnce(bands: seq<Band>, m: int) {
    exists i: nat :: SoleHolder(bands, m, i)
  }

  predicate SamePrice(a: Band, b: Band) { a.rate == b.rate && a.caption == b.caption }

  lemma {:induction false} HalvesOwn(b: Band, m: int)
    requires ValidInput(b) && 0 <= m < DAY_MINUTES
    ensures Owners(Halves(b), m) == if Holds(b, m) then 1 else 0
    ensures forall x :: x in Halves(b) ==> SamePrice(x, b) && (Owns(x, m) ==> Holds(b, m))
  {
    if b.startMin < b.endMin {
      assert Owners([b], m) == Owners([], m) + if Owns(b, m) then 1 else 0;
    } else {
      var late, early := b.(endMin := DAY_MINUTES), b.(startMin := 0);
      assert Owners([late], m) == Owners([], m) + if Owns(late, m) then 1 else 0;
      assert Owners([early], m) == Owners([], m) + if Owns(early, m) then 1 else 0;
      OwnersConcat([late], [early], m);
    }
  }

  function Holders(bands: seq<Band>, m: int): nat {
    if bands == [] then 0 else Holders(bands[..|bands| - 1], m) + if Holds(bands[|bands| - 1], m) then 1 else 0
  }

  /** Cutting at midnight changes neither who prices a minute nor the price. */
  lemma {:induction false} NormalizedOwn(bands: seq<Band>, m: int)
    requires AllValid(bands) && 0 <= m < DAY_MINUTES
    ensures Owners(Normalized(bands), m) == Holders(bands, m)
    ensures forall x :: x in Normalized(bands) && Owns(x, m) ==>
              exists i :: 0 <= i < |bands| && Holds(bands[i], m) && SamePrice(x, bands[i])
  {
    if bands == [] {
    } else {
      var init, last := bands[..|bands| - 1], bands[|bands| - 1];
      NormalizedOwn(init, m);
      assert ValidInput(last);
      HalvesOwn(last, m);
      OwnersConcat(Normalized(init), Halves(last), m);
      forall x | x in Normalized(bands) && Owns(x, m)
        ensures exists i :: 0 <= i < |bands| && Holds(bands[i], m) && SamePrice(x, bands[i])
      {
        if x in Normalized(init) {
          var i :| 0 <= i < |init| && Holds(init[i], m) && SamePrice(x, init[i]);
          assert bands[i] == init[i];
        } else {
          assert x in Halves(last) && bands[|init|] == last;
        }
      }
    }
  }

  lemma {:induction false} NoHolder(bands: seq<Band>, m: int)
    ensures Holders(bands, m) == 0 <==> forall i :: 0 <= i < |bands| ==> !Holds(bands[i], m)
  {
    if bands == [] {
    } else {
      var init := bands[..|bands| - 1];
      NoHolder(init, m);
      assert forall i :: 0 <= i < |init| ==> init[i] == bands[i];
      assert forall i :: 0 <= i < |bands| ==> i < |init| || bands[i] == bands[|init|];
    }
  }

  lemma {:induction false} OneHolder(bands: seq<Band>, m: int) returns (i: nat)
    requires Holders(bands, m) == 1
    ensures SoleHolder(bands, m, i)
  {
    var init := bands[..|bands| - 1];
    assert forall j :: 0 <= j < |init| ==> init[j] == bands[j];
    if Holds(bands[|init|], m) {
      i := |init|;
      NoHolder(init, m);
    } else {
      i := OneHolder(init, m);
    }
  }

  lemma {:induction false} SoleIsOne(bands: seq<Band>, m: int, i: nat)
    requires SoleHolder(bands, m, i)
    ensures Holders(bands, m) == 1
  {
    var init := bands[..|bands| - 1];
    assert forall j :: 0 <= j < |init| ==> init[j] == bands[j];
    if i == |init| {
      NoHolder(init, m);
    } else {
      SoleIsOne(init, m, i);
    }
  }

  /** Bands are accepted if and only if each is valid and every minute of the day is held by exactly one. */
  lemma AcceptedIffHeldOnce(bands: seq<Band>)
    ensures CheckedBands(bands).Ok? <==>
            AllValid(bands) && forall m :: 0 <= m < DAY_MINUTES ==> HeldOnce(bands, m)
  {
    if AllValid(bands) {
      forall m | 0 <= m < DAY_MINUTES
        ensures Owners(Normalized(bands), m) == 1 <==> HeldOnce(bands, m)
      {
        NormalizedOwn(bands, m);
        if Holders(bands, m) == 1 {
          var i := OneHolder(bands, m);
        }
        if HeldOnce(bands, m) {
          var i: nat :| SoleHolder(bands, m, i);
          SoleIsOne(bands, m, i);
        }
      }
    }
  }

  /** The accepted band that owns a minute has the price and the label of the one band that holds it. */
  lemma BandsKeepPrices(bands: seq<Band>, m: int, x: Band) returns (i: nat)
    requires CheckedBands(bands).Ok? && x in CheckedBands(bands).value && Owns(x, m) && 0 <= m < DAY_MINUTES
    ensures SoleHolder(bands, m, i) && SamePrice(x, bands[i])
  {
    SortedMembers(Normalized(bands));
    NormalizedOwn(bands, m);
    assert Owners(Normalized(bands), m) == 1;
    i := OneHolder(bands, m);
    assert exists k :: 0 <= k < |bands| && Holds(bands[k], m) && SamePrice(x, bands[k]);
  }

  // ---------- the price of an instant ----------

  /** The minute of the local day. */
  function MinuteOf(t: int, off: int): int { (t + off) % DAY / MINUTE }

  /** The tariff in force on the instant's local day asks this price at its local minute. */
  ghost predicate Asks(tariffs: seq<Tariff>, t: int, off: int, a: Attribution) {
    && a.date == LocalDate(t, off)
    && match EffectiveTariff(tariffs, a.date)
       case None => false
       case Some(tariff) => a.version == tariff.id && BandAsks(tariff.bands, MinuteOf(t, off), a)
  }

  ghost predicate BandAsks(bands: seq<Band>, m: int, a: Attribution) {
    exists i: nat :: SoleHolder(bands, m, i) && a.price == bands[i].rate && a.caption == bands[i].caption
  }

  lemma MinuteBounds(t: int, off: int, d: int, startMin: int, endMin: int)
    requires d == LocalDate(t, off)
    requires Midnight(d, off) + startMin * 60 * SECOND <= t < Midnight(d, off) + endMin * 60 * SECOND
    ensures startMin <= MinuteOf(t, off) < endMin && 0 <= MinuteOf(t, off) < DAY_MINUTES
  {
    var u := (t + off) % DAY;
    assert t + off == d * DAY + u;
    assert startMin * MINUTE <= u < endMin * MINUTE;
  }

  lemma FrameAsks(tariff: Tariff, frames: seq<Frame>, f: Frame, t: int, off: int)
    requires CheckedBands(tariff.bands).Ok? && TilesDay(CheckedBands(tariff.bands).value)
    requires frames == FramesOf(CheckedBands(tariff.bands).value, tariff.id)
    requires f in frames && Applies(f, LocalDate(t, off), t, off)
    ensures f.version == tariff.id
    ensures BandAsks(tariff.bands, MinuteOf(t, off), Attribution(LocalDate(t, off), f.price, f.version, f.caption))
  {
    var bands := CheckedBands(tariff.bands).value;
    var k :| 0 <= k < |frames| && frames[k] == f;
    MinuteBounds(t, off, LocalDate(t, off), bands[k].startMin, bands[k].endMin);
    var i := BandsKeepPrices(tariff.bands, MinuteOf(t, off), bands[k]);
  }

  lemma DayFrames(tariffs: seq<Tariff>, d: int) returns (tariff: Tariff)
    requires DayPricing(tariffs, d).Ok?
    ensures EffectiveTariff(tariffs, d) == Some(tariff) && DayPricing(tariffs, d).value.0 == tariff
    ensures CheckedBands(tariff.bands).Ok? && TilesDay(CheckedBands(tariff.bands).value)
    ensures DayPricing(tariffs, d).value.1 == FramesOf(CheckedBands(tariff.bands).value, tariff.id)
  {
    tariff := EffectiveTariff(tariffs, d).value;
    CheckedBandsTile(tariff.bands);
  }

  /** What segmentation attributes to an instant of a priced span is what the tariffs ask. */
  lemma AttributionAsks(tariffs: seq<Tariff>, start: int, until: int, off: int, p: Pricing, t: int, a: Attribution)
    requires DailyPricing(tariffs, start, until, off) == Ok(p) && AttributionAt(t, p.frames, off) == Some(a)
    ensures Asks(tariffs, t, off, a)
  {
    var d := LocalDate(t, off);
    PricingDay(tariffs, LocalDate(start, off), LocalDate(until - 1, off), p, d);
    var tariff := DayFrames(tariffs, d);
    FrameAsks(tariff, p.frames[d], FrameAt(p.frames[d], d, t, off).value, t, off);
  }

  /** The segment bears the price that the tariffs ask at each of its instants. */
  ghost predicate BearsTariffPrice(s: Segment, tariffs: seq<Tariff>, off: int) {
    forall t :: s.from <= t < s.to ==> Asks(tariffs, t, off, SegmentAttribution(s))
  }

  lemma SegmentBearsPrice(
    tariffs: seq<Tariff>, start: int, until: int, off: int, p: Pricing, s: Segment)
    requires DailyPricing(tariffs, start, until, off) == Ok(p)
    requires forall t :: s.from <= t < s.to ==> AttributionAt(t, p.frames, off) == Some(SegmentAttribution(s))
    ensures BearsTariffPrice(s, tariffs, off)
  {
    forall t | s.from <= t < s.to ensures Asks(tariffs, t, off, SegmentAttribution(s)) {
      AttributionAsks(tariffs, start, until, off, p, t, SegmentAttribution(s));
    }
  }

  /** The occupation rule of a priced day is that of the tariff in force. */
  lemma {:induction false} RuleAsks(tariffs: seq<Tariff>, start: int, until: int, off: int, p: Pricing, d: int)
    requires DailyPricing(tariffs, start, until, off) == Ok(p) && d in p.versions
    ensures var tariff := EffectiveTariff(tariffs, d);
            && tariff.Some? && p.versions[d].version == tariff.value.id
            && p.versions[d].rate == tariff.value.idleRate && p.versions[d].grace == tariff.value.grace
  {
    PricingDay(tariffs, LocalDate(start, off), LocalDate(until - 1, off), p, d);
    var tariff := DayFrames(tariffs, d);
  }
}
