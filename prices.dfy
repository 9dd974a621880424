/** The price list (pages/Prices.tsx): search over scope, plant name and
    device name, the plant and device cells, the source label and the status
    badge. */
module PricesPage {
  import opened Common
  import opened Entities

  /** `price.plant_id ? mockPlants.find(...) : null`. */
  function PlantOf(plants: seq<Plant>, plantId: Option<string>): (r: Option<Plant>)
    ensures !Truthy(plantId) ==> r.None?
    ensures Truthy(plantId) ==> r == FindPlant(plants, plantId.value)
  {
    if Truthy(plantId) then FindPlant(plants, plantId.value) else None
  }

  /** `price.device_id ? mockDevices.find(...) : null`. */
  function DeviceOf(devices: seq<Device>, deviceId: Option<string>): (r: Option<Device>)
    ensures !Truthy(deviceId) ==> r.None?
    ensures Truthy(deviceId) ==> r == FindDevice(devices, deviceId.value)
  {
    if Truthy(deviceId) then FindDevice(devices, deviceId.value) else None
  }

  predicate KeepPrice(plants: seq<Plant>, devices: seq<Device>, p: Price, query: string) {
    || Matches(p.scope, query)
    || (PlantOf(plants, p.plant_id).Some? && Matches(PlantOf(plants, p.plant_id).value.name, query))
    || (DeviceOf(devices, p.device_id).Some? && Matches(DeviceOf(devices, p.device_id).value.name, query))
  }

  /** `filteredPrices`: kept when the scope, the plant's name or the device's
      name contains the query (ignoring case); a missing plant or device
      contributes nothing. */
  function FilteredPrices(prices: seq<Price>, plants: seq<Plant>, devices: seq<Device>, query: string): (r: seq<Price>)
    ensures IsSubsequence(r, prices)
    ensures forall p :: p in r <==>
              && p in prices
              && (|| Contains(Lower(p.scope), Lower(query))
                  || (Truthy(p.plant_id) && FindPlant(plants, p.plant_id.value).Some?
                      && Contains(Lower(FindPlant(plants, p.plant_id.value).value.name), Lower(query)))
                  || (Truthy(p.device_id) && FindDevice(devices, p.device_id.value).Some?
                      && Contains(Lower(FindDevice(devices, p.device_id.value).value.name), Lower(query))))
    ensures forall p :: multiset(r)[p] == if KeepPrice(plants, devices, p, query) then multiset(prices)[p] else 0
  {
    Filter(prices, (p: Price) => KeepPrice(plants, devices, p, query))
  }

  lemma EmptyQueryListsAllPrices(prices: seq<Price>, plants: seq<Plant>, devices: seq<Device>)
    ensures FilteredPrices(prices, plants, devices, "") == prices
  {
    forall p | p in prices ensures KeepPrice(plants, devices, p, "") {
      MatchesEmpty(p.scope);
    }
    FilterKeepsAll(prices, (p: Price) => KeepPrice(plants, devices, p, ""));
  }

  /** A country-wide price (no plant, no device) is found by its scope alone,
      whatever the plants and devices are. */
  lemma GlobalPriceByScopeOnly(prices: seq<Price>, plants: seq<Plant>, devices: seq<Device>, p: Price, query: string)
    requires p in prices && p.plant_id.None? && p.device_id.None?
    ensures p in FilteredPrices(prices, plants, devices, query) <==> Matches(p.scope, query)
  {
  }

  /** A plant or device cell: the name, or "-" when absent or empty. */
  function NameCell(name: Option<string>): (r: string)
    ensures r != ""
    ensures Truthy(name) ==> r == name.value
    ensures !Truthy(name) ==> r == "-"
  {
    OrDefault(name, "-")
  }

  function PlantCell(plants: seq<Plant>, plantId: Option<string>): (r: string)
    ensures !Truthy(plantId) ==> r == "-"
    ensures Truthy(plantId) && FindPlant(plants, plantId.value).None? ==> r == "-"
    ensures Truthy(plantId) && FindPlant(plants, plantId.value).Some? ==>
              r == NameCell(Some(FindPlant(plants, plantId.value).value.name))
  {
    NameCell(match PlantOf(plants, plantId) case None => None case Some(p) => Some(p.name))
  }

  function DeviceCell(devices: seq<Device>, deviceId: Option<string>): (r: string)
    ensures !Truthy(deviceId) ==> r == "-"
    ensures Truthy(deviceId) && FindDevice(devices, deviceId.value).None? ==> r == "-"
    ensures Truthy(deviceId) && FindDevice(devices, deviceId.value).Some? ==>
              r == NameCell(Some(FindDevice(devices, deviceId.value).value.name))
  {
    NameCell(match DeviceOf(devices, deviceId) case None => None case Some(d) => Some(d.name))
  }

  /** The source badge: every source other than the three named ones reads
      "CSV Import". */
  function SourceLabel(source: string): (r: string)
    ensures r in {"Manual", "Schedule Generator", "API Import", "CSV Import"}
    ensures r == "Manual" <==> source == "manual"
    ensures r == "Schedule Generator" <==> source == "schedule_generator"
    ensures r == "API Import" <==> source == "api_import"
    ensures r == "CSV Import" <==> source !in {"manual", "schedule_generator", "api_import"}
  {
    if source == "manual" then "Manual"
    else if source == "schedule_generator" then "Schedule Generator"
    else if source == "api_import" then "API Import"
    else "CSV Import"
  }

  datatype Badge = Badge(green: bool, text: string)

  /** The status badge: green only for dispatched prices, yellow otherwise,
      with the status capitalised. */
  function StatusBadge(status: string): (r: Badge)
    ensures r.green <==> status == "dispatched"
    ensures |r.text| == |status|
    ensures status != "" ==> r.text[0] == UpperChar(status[0]) && r.text[1..] == status[1..]
  {
    Badge(status == "dispatched", Capitalize(status))
  }
}
