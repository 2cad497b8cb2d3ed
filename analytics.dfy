/**
 * The analytics view: the `AnalyticsData` record, the synthetic telemetry tick that the view's
 * timer applies to it, and the banding of efficiency and congestion values into colour classes.
 *
 * The tick draws its random numbers with `Math.floor(Math.random() * w - w / 2)`; here those
 * draws are the explicit `Jitter` argument, and `IsRandomJitter` states the range each draw
 * can take. Decimal fields that are only displayed (`avgDelay`) are kept in tenths.
 */
module Analytics {
  import Seqs

  datatype CongestionArea = CongestionArea(name: string, level: int, vehicles: int)

  datatype SignalEfficiency = SignalEfficiency(id: string, location: string, efficiency: int, throughput: int)

  datatype HourlyTraffic = HourlyTraffic(hour: int, vehicles: int, avgDelayTenths: int)

  datatype AnalyticsData = AnalyticsData(
    totalSignals: int,
    activeSignals: int,
    totalVehicles: int,
    averageDelay: string,
    peakHours: seq<string>,
    congestionAreas: seq<CongestionArea>,
    signalEfficiency: seq<SignalEfficiency>,
    hourlyTraffic: seq<HourlyTraffic>)

  /** The bounds the tick keeps for one congestion area. */
  predicate AreaWithinClamps(area: CongestionArea)
  {
    30 <= area.level <= 100 && area.vehicles >= 50
  }

  /** What the analytics record promises a reader: no more active signals than signals, every area within its clamps. */
  predicate Consistent(a: AnalyticsData)
  {
    && 0 <= a.activeSignals <= a.totalSignals
    && forall i :: 0 <= i < |a.congestionAreas| ==> AreaWithinClamps(a.congestionAreas[i])
  }

  /** The record the view starts from. */
  function InitialAnalytics(): (a: AnalyticsData)
    ensures a.totalSignals == 28 && a.activeSignals == 24
    ensures |a.congestionAreas| == 4
    ensures Consistent(a)
  {
    AnalyticsData(
      28, 24, 1247, "3.2 min",
      ["08:00-10:00", "17:00-19:00"],
      [ CongestionArea("Bhubaneswar Airport", 85, 342),
        CongestionArea("Kalinga Stadium", 72, 186),
        CongestionArea("Patia Square", 68, 154),
        CongestionArea("Jaydev Vihar", 45, 98) ],
      [ SignalEfficiency("OD-001", "Airport Square", 92, 450),
        SignalEfficiency("OD-002", "Kalinga Hospital", 87, 320),
        SignalEfficiency("OD-003", "Patia Crossing", 78, 280),
        SignalEfficiency("OD-004", "Jaydev Vihar", 95, 380) ],
      [ HourlyTraffic(6, 145, 12), HourlyTraffic(7, 298, 21), HourlyTraffic(8, 456, 42),
        HourlyTraffic(9, 523, 51), HourlyTraffic(10, 387, 38), HourlyTraffic(11, 342, 29),
        HourlyTraffic(12, 398, 32), HourlyTraffic(13, 423, 35), HourlyTraffic(14, 356, 28),
        HourlyTraffic(15, 445, 41), HourlyTraffic(16, 512, 48), HourlyTraffic(17, 598, 59),
        HourlyTraffic(18, 623, 62), HourlyTraffic(19, 487, 45), HourlyTraffic(20, 321, 27) ])
  }

  // ---------------------------------------------------------------- the tick

  /** The random draws of one area: its level delta and its vehicle delta. */
  datatype AreaJitter = AreaJitter(level: int, vehicles: int)

  /** The random draws of one tick: the total-vehicle delta and one pair per congestion area. */
  datatype Jitter = Jitter(vehicles: int, areas: seq<AreaJitter>)

  /**
   * The values `Math.floor(Math.random() * 20 - 10)` and `Math.floor(Math.random() * 10 - 5)`
   * can take, one pair of draws for each of `areaCount` areas.
   */
  predicate IsRandomJitter(j: Jitter, areaCount: int)
  {
    && |j.areas| == areaCount
    && -10 <= j.vehicles <= 9
    && forall i :: 0 <= i < |j.areas| ==> -5 <= j.areas[i].level <= 4 && -10 <= j.areas[i].vehicles <= 9
  }

  function Max(a: int, b: int): int { if a >= b then a else b }

  function Min(a: int, b: int): int { if a <= b then a else b }

  /** `Math.max(30, Math.min(100, x))`: the point of [30, 100] nearest to `x`. */
  function ClampLevel(x: int): (r: int)
    ensures 30 <= r <= 100
    ensures 30 <= x <= 100 ==> r == x
    ensures x < 30 ==> r == 30
    ensures x > 100 ==> r == 100
  {
    Max(30, Min(100, x))
  }

  /** `Math.max(50, x)`: `x`, raised to 50 when it is below. */
  function FloorVehicles(x: int): (r: int)
    ensures r >= 50 && r >= x
    ensures r == x || r == 50
  {
    Max(50, x)
  }

  /** One area after a tick: same name, level moved and clamped, vehicles moved and floored. */
  function NextArea(area: CongestionArea, d: AreaJitter): (r: CongestionArea)
    ensures r.name == area.name
    ensures AreaWithinClamps(r)
    ensures r.level == ClampLevel(area.level + d.level)
    ensures r.vehicles == FloorVehicles(area.vehicles + d.vehicles)
  {
    area.(level := Max(30, Min(100, area.level + d.level)),
          vehicles := Max(50, area.vehicles + d.vehicles))
  }

  /**
   * The updater the timer passes to `setAnalytics`: `totalVehicles` moves by the draw, with no
   * clamp; every area is moved by its own draws, whatever its previous value; nothing else changes.
   */
  function NextAnalytics(prev: AnalyticsData, j: Jitter): (next: AnalyticsData)
    requires |j.areas| == |prev.congestionAreas|
    ensures next.(totalVehicles := prev.totalVehicles, congestionAreas := prev.congestionAreas) == prev
    ensures next.totalVehicles - prev.totalVehicles == j.vehicles
    ensures |next.congestionAreas| == |prev.congestionAreas|
    ensures forall i :: 0 <= i < |next.congestionAreas| ==>
      next.congestionAreas[i] == NextArea(prev.congestionAreas[i], j.areas[i])
    ensures forall i :: 0 <= i < |next.congestionAreas| ==>
      next.congestionAreas[i].name == prev.congestionAreas[i].name && AreaWithinClamps(next.congestionAreas[i])
    ensures 0 <= prev.activeSignals <= prev.totalSignals ==> Consistent(next)
  {
    prev.(totalVehicles := prev.totalVehicles + j.vehicles,
          congestionAreas := seq(|prev.congestionAreas|, i requires 0 <= i < |prev.congestionAreas| =>
            NextArea(prev.congestionAreas[i], j.areas[i])))
  }

  /** Within the random ranges, a level already inside [30, 100] moves by at most 5 down or 4 up. */
  lemma LevelStepIsSmall(area: CongestionArea, d: AreaJitter)
    requires 30 <= area.level <= 100 && -5 <= d.level <= 4
    ensures -5 <= NextArea(area, d).level - area.level <= 4
  {
  }

  /** Every tick in `js` drew one pair per area. */
  predicate FitsAreas(js: seq<Jitter>, areaCount: int)
  {
    forall k :: 0 <= k < |js| ==> |js[k].areas| == areaCount
  }

  /** The record after the timer has fired once for each element of `js`, in order. */
  function AfterTicks(a: AnalyticsData, js: seq<Jitter>): AnalyticsData
    requires FitsAreas(js, |a.congestionAreas|)
    decreases |js|
  {
    if js == [] then a else AfterTicks(NextAnalytics(a, js[0]), js[1..])
  }

  /**
   * Any number of ticks keeps the number, order and names of the areas and every field other than
   * the vehicle counts and levels; after at least one tick every area is within its clamps, and a
   * consistent record stays consistent (so `activeSignals <= totalSignals`, 24 <= 28 at the start, holds forever).
   */
  lemma {:induction false} TicksKeepShape(a: AnalyticsData, js: seq<Jitter>)
    requires FitsAreas(js, |a.congestionAreas|)
    ensures var b := AfterTicks(a, js);
      && b.(totalVehicles := a.totalVehicles, congestionAreas := a.congestionAreas) == a
      && |b.congestionAreas| == |a.congestionAreas|
      && (forall i :: 0 <= i < |b.congestionAreas| ==> b.congestionAreas[i].name == a.congestionAreas[i].name)
      && (|js| > 0 ==> forall i :: 0 <= i < |b.congestionAreas| ==> AreaWithinClamps(b.congestionAreas[i]))
      && (Consistent(a) ==> Consistent(b))
    decreases |js|
  {
    if js != [] {
      var a' := NextAnalytics(a, js[0]);
      TicksKeepShape(a', js[1..]);
    }
  }

  /** With the random ranges, `n` ticks move `totalVehicles` by at least -10n and at most 9n. */
  lemma {:induction false} TicksVehicleDrift(a: AnalyticsData, js: seq<Jitter>)
    requires FitsAreas(js, |a.congestionAreas|)
    requires forall k :: 0 <= k < |js| ==> IsRandomJitter(js[k], |a.congestionAreas|)
    ensures -10 * |js| <= AfterTicks(a, js).totalVehicles - a.totalVehicles <= 9 * |js|
    decreases |js|
  {
    if js != [] {
      TicksVehicleDrift(NextAnalytics(a, js[0]), js[1..]);
    }
  }

  /** The timer-driven view: the `analytics` state, replaced on every tick. */
  class AnalyticsDashboard {
    var analytics: AnalyticsData

    ghost predicate Valid()
      reads this
    {
      Consistent(analytics)
    }

    constructor ()
      ensures analytics == InitialAnalytics()
      ensures Valid()
    {
      analytics := InitialAnalytics();
    }

    /** One firing of the 3-second timer, with the draws `j`. */
    method Tick(j: Jitter)
      requires Valid() && IsRandomJitter(j, |analytics.congestionAreas|)
      modifies this
      ensures Valid()
      ensures analytics == NextAnalytics(old(analytics), j)
    {
      analytics := NextAnalytics(analytics, j);
    }

    /** The "Hotspots" metric card. */
    function Hotspots(): (n: nat)
      reads this
      ensures n <= |analytics.congestionAreas|
    {
      HotspotCount(analytics.congestionAreas)
    }
  }

  // ---------------------------------------------------------------- derived labels

  /** The hotspot test of the metric card: a level above 70. */
  predicate IsHot(a: CongestionArea)
  {
    a.level > 70
  }

  /** The number of areas above 70, counted one area at a time from the front. */
  function CountAbove70(areas: seq<CongestionArea>): nat
  {
    if areas == [] then 0 else (if areas[0].level > 70 then 1 else 0) + CountAbove70(areas[1..])
  }

  /** Filtering by the hotspot test keeps exactly as many areas as the count finds. */
  lemma {:induction false} HotAreasAreCounted(areas: seq<CongestionArea>)
    ensures |Seqs.Filter(areas, IsHot)| == CountAbove70(areas)
  {
    if areas != [] {
      HotAreasAreCounted(areas[1..]);
    }
  }

  /** `filter(a => a.level > 70).length`: how many areas are above 70. */
  function HotspotCount(areas: seq<CongestionArea>): (n: nat)
    ensures n == CountAbove70(areas)
    ensures n <= |areas|
    ensures n == 0 <==> forall i :: 0 <= i < |areas| ==> areas[i].level <= 70
    ensures n == |areas| <==> forall i :: 0 <= i < |areas| ==> areas[i].level > 70
  {
    var hot := Seqs.Filter(areas, IsHot);
    HotAreasAreCounted(areas);
    assert forall i :: 0 <= i < |areas| && areas[i].level > 70 ==> areas[i] in hot;
    assert |hot| > 0 ==> hot[0] in hot;
    if exists i :: 0 <= i < |areas| && areas[i].level <= 70 then
      var k :| 0 <= k < |areas| && areas[k].level <= 70;
      Seqs.FilterDropsRejected(areas, IsHot, k);
      |hot|
    else
      Seqs.FilterKeepsAll(areas, IsHot);
      |hot|
  }

  const EfficiencyGreen := "text-green-400 bg-green-500/10 border-green-500/30"
  const EfficiencyAmber := "text-amber-400 bg-amber-500/10 border-amber-500/30"
  const EfficiencyRed := "text-red-400 bg-red-500/10 border-red-500/30"

  /**
   * `getEfficiencyColor`, defined but not called by the view: the badge classes of an
   * efficiency, green from 90, amber from 75, red below.
   */
  function EfficiencyColor(efficiency: int): (c: string)
    ensures c == EfficiencyGreen <==> efficiency >= 90
    ensures c == EfficiencyAmber <==> 75 <= efficiency < 90
    ensures c == EfficiencyRed <==> efficiency < 75
  {
    if efficiency >= 90 then EfficiencyGreen
    else if efficiency >= 75 then EfficiencyAmber
    else EfficiencyRed
  }

  /**
   * `getCongestionColor`, defined but not called by the view: the colour class of a congestion
   * level, red from 80, amber from 60, green below.
   */
  function CongestionColor(level: int): (c: string)
    ensures c == "bg-red-500" <==> level >= 80
    ensures c == "bg-amber-500" <==> 60 <= level < 80
    ensures c == "bg-green-500" <==> level < 60
  {
    if level >= 80 then "bg-red-500"
    else if level >= 60 then "bg-amber-500"
    else "bg-green-500"
  }
}
