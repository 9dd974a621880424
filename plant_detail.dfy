/** The plant detail page (pages/PlantDetail.tsx): the five latest prices of
    the plant, the chart series toggled from the legend, the sign convention
    of the chart, and the battery and grid status captions. */
module PlantDetailPage {
  import opened Common
  import opened Entities
  import opened SystemTopologyView

  function PriceTime(p: Price): int { p.effective_at }

  function OfPlant(plantId: string): Price -> bool {
    (p: Price) => p.plant_id == Some(plantId)
  }

  /** `recentPrices`: the route plant's own prices, latest first, at most five. */
  function RecentPrices(prices: seq<Price>, plantId: string): (r: seq<Price>)
    ensures |r| == if |Filter(prices, OfPlant(plantId))| <= 5 then |Filter(prices, OfPlant(plantId))| else 5
    ensures forall p :: p in r ==> p in prices && p.plant_id == Some(plantId)
    ensures SortedDesc(r, PriceTime)
    ensures multiset(r) <= multiset(Filter(prices, OfPlant(plantId)))
    ensures |Filter(prices, OfPlant(plantId))| <= 5 ==>
              multiset(r) == multiset(Filter(prices, OfPlant(plantId)))
  {
    LatestSpec(prices, OfPlant(plantId), PriceTime, 5);
    Latest(prices, OfPlant(plantId), PriceTime, 5)
  }

  /** Country-wide prices (no plant) never show on a plant's page, and no price
      left out is newer than one shown. */
  lemma RecentPricesAreThePlantsNewest(prices: seq<Price>, plantId: string)
    ensures forall p :: p in RecentPrices(prices, plantId) ==> p.plant_id.Some?
    ensures var sorted := SortDesc(Filter(prices, OfPlant(plantId)), PriceTime);
            var r := RecentPrices(prices, plantId);
            |r| == (if |sorted| <= 5 then |sorted| else 5)
            && multiset(r) + multiset(sorted[|r|..]) == multiset(Filter(prices, OfPlant(plantId)))
            && forall x, y :: x in r && y in sorted[|r|..] ==> x.effective_at >= y.effective_at
  {
    LatestSpec(prices, OfPlant(plantId), PriceTime, 5);
  }

  // ---------------------------------------------------------------------------
  // Chart legend

  /** The six series of the power chart. */
  const SeriesKeys: seq<string> := ["solar", "fromGrid", "discharge", "consumption", "toGrid", "charge"]

  /** `visibleSeries[key]` read as a condition: a key never set is falsy. */
  predicate IsVisible(m: map<string, bool>, key: string) {
    key in m && m[key]
  }

  /** `{ ...prev, [dataKey]: !prev[dataKey] }`. */
  function Toggle(m: map<string, bool>, key: string): (r: map<string, bool>)
    ensures r.Keys == m.Keys + {key}
    ensures IsVisible(r, key) <==> !IsVisible(m, key)
    ensures forall k :: k in m && k != key ==> r[k] == m[k]
  {
    m[key := !IsVisible(m, key)]
  }

  /** Two clicks on a series restore the map when the series was there. */
  lemma ToggleTwice(m: map<string, bool>, key: string)
    requires key in m
    ensures Toggle(Toggle(m, key), key) == m
  {
    var r := Toggle(Toggle(m, key), key);
    assert r.Keys == m.Keys;
    assert forall k :: k in m ==> r[k] == m[k];
  }

  /** A key that was never in the map comes back from two clicks as `false`. */
  lemma ToggleTwiceAbsent(m: map<string, bool>, key: string)
    requires key !in m
    ensures Toggle(Toggle(m, key), key) == m[key := false]
  {
  }

  /** The legend state of one chart; the series map is what the page keeps
      in `visibleSeries`. */
  class Legend {
    var visibleSeries: map<string, bool>

    /** All six series start visible. */
    constructor ()
      ensures visibleSeries.Keys == set k | k in SeriesKeys
      ensures forall k :: k in SeriesKeys ==> IsVisible(visibleSeries, k)
    {
      visibleSeries := map["solar" := true, "fromGrid" := true, "discharge" := true,
                           "consumption" := true, "toGrid" := true, "charge" := true];
    }

    /** `handleLegendClick`: flips the clicked series and no other. */
    method LegendClick(dataKey: string)
      modifies this
      ensures visibleSeries == Toggle(old(visibleSeries), dataKey)
      ensures IsVisible(visibleSeries, dataKey) <==> !IsVisible(old(visibleSeries), dataKey)
      ensures forall k :: k != dataKey ==> (IsVisible(visibleSeries, k) <==> IsVisible(old(visibleSeries), k))
    {
      var prev := visibleSeries;
      visibleSeries := prev[dataKey := !(dataKey in prev && prev[dataKey])];
    }
  }

  // ---------------------------------------------------------------------------
  // Chart data and captions

  /** One hourly sample of the power chart, in kilowatts. */
  datatype PowerPoint = PowerPoint(
    time: string,
    solar: real,
    consumption: real,
    charge: real,
    discharge: real,
    toGrid: real,
    fromGrid: real)

  /** The `chartData` map: loads drawn below the axis. */
  function ChartPoint(d: PowerPoint): (r: PowerPoint)
    ensures r.consumption == -d.consumption && r.toGrid == -d.toGrid && r.charge == -d.charge
    ensures r.time == d.time && r.solar == d.solar && r.discharge == d.discharge && r.fromGrid == d.fromGrid
  {
    d.(consumption := -d.consumption, toGrid := -d.toGrid, charge := -d.charge)
  }

  function ChartData(data: seq<PowerPoint>): (r: seq<PowerPoint>)
    ensures |r| == |data|
    ensures forall i :: 0 <= i < |r| ==> r[i] == ChartPoint(data[i])
  {
    seq(|data|, i requires 0 <= i < |data| => ChartPoint(data[i]))
  }

  /** Applying the transform twice gives back the samples. */
  lemma ChartDataInvolution(data: seq<PowerPoint>)
    ensures ChartData(ChartData(data)) == data
  {
    assert forall i :: 0 <= i < |data| ==> ChartData(ChartData(data))[i] == data[i];
  }

  /** With the generator's signs (charge and export non-negative), the chart
      draws consumption, charge and export on or below the axis. */
  lemma ChartLoadsBelowAxis(d: PowerPoint)
    requires d.consumption >= 0.0 && d.charge >= 0.0 && d.toGrid >= 0.0
    ensures ChartPoint(d).consumption <= 0.0 && ChartPoint(d).charge <= 0.0 && ChartPoint(d).toGrid <= 0.0
  {
  }

  /** `netBattery`: charging is negative, discharging positive. */
  function NetBattery(d: PowerPoint): real { -d.charge - d.discharge }

  /** `netGrid`: import is positive, export negative. */
  function NetGrid(d: PowerPoint): real { d.fromGrid - d.toGrid }

  function BatteryLabel(net: real): (r: string)
    ensures r == "Discharging" <==> net > 0.0
    ensures r == "Charging" <==> net < 0.0
    ensures r == "Idle" <==> net == 0.0
  {
    if net > 0.0 then "Discharging" else if net < 0.0 then "Charging" else "Idle"
  }

  function GridLabel(net: real): (r: string)
    ensures r == "Exporting" <==> net < 0.0
    ensures r == "Importing" <==> net > 0.0
    ensures r == "Islanded" <==> net == 0.0
  {
    if net < 0.0 then "Exporting" else if net > 0.0 then "Importing" else "Islanded"
  }

  /** A sample that only charges the battery is captioned "Charging". */
  lemma ChargingSample(d: PowerPoint)
    requires d.charge > 0.0 && d.discharge == 0.0
    ensures BatteryLabel(NetBattery(d)) == "Charging"
  {
  }

  /** The page's captions and the diagram it feeds agree on the direction of
      both flows whenever the flows are non-zero. */
  lemma CaptionsAgreeWithTopology(d: PowerPoint, soc: int)
    requires NetBattery(d) != 0.0 && NetGrid(d) != 0.0
    ensures var t := TopologyOf(d.solar, NetBattery(d), NetGrid(d), d.consumption, soc);
            (BatteryLabel(NetBattery(d)) == "Charging" <==> t.batteryFlow == Moving(Left))
            && (GridLabel(NetGrid(d)) == t.gridCaption)
  {
  }

  /** With no grid flow the page says "Islanded" while the diagram beside it
      says "Importing". */
  lemma ZeroGridCaptionsDiffer(d: PowerPoint, soc: int)
    requires NetGrid(d) == 0.0
    ensures GridLabel(NetGrid(d)) == "Islanded"
    ensures TopologyOf(d.solar, NetBattery(d), NetGrid(d), d.consumption, soc).gridCaption == "Importing"
  {
  }
}
