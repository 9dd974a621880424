/** The plant list page (pages/Plants.tsx): the name search, the per-plant
    device counts by role, the health label and the decision counts. */
module PlantsPage {
  import opened Common
  import opened Entities

  /** Thirty minutes in milliseconds: the freshness window for "online". */
  const OnlineWindow: int := 30 * 60 * 1000

  /** `filteredPlants`: the plants whose name contains the query, ignoring case. */
  function FilteredPlants(plants: seq<Plant>, query: string): (r: seq<Plant>)
    ensures IsSubsequence(r, plants)
    ensures forall p :: p in r <==> p in plants && Contains(Lower(p.name), Lower(query))
    ensures forall p :: multiset(r)[p] == if Matches(p.name, query) then multiset(plants)[p] else 0
  {
    Filter(plants, (p: Plant) => Matches(p.name, query))
  }

  lemma EmptySearchListsAllPlants(plants: seq<Plant>)
    ensures FilteredPlants(plants, "") == plants
  {
    forall p | p in plants ensures Matches(p.name, "") {
      MatchesEmpty(p.name);
    }
    FilterKeepsAll(plants, (p: Plant) => Matches(p.name, ""));
  }

  function HasRole(role: string): Device -> bool {
    (d: Device) => d.role == role
  }

  datatype DeviceCount = DeviceCount(total: nat, masters: nat, slaves: nat, standalone: nat)

  /** `getPlantDeviceCount`. */
  function PlantDeviceCount(devices: seq<Device>, plantId: string): (r: DeviceCount)
    ensures r.total == |DevicesOfPlant(devices, plantId)|
    ensures r.masters == |Filter(DevicesOfPlant(devices, plantId), HasRole("master"))|
    ensures r.slaves == |Filter(DevicesOfPlant(devices, plantId), HasRole("slave"))|
    ensures r.standalone == |Filter(DevicesOfPlant(devices, plantId), HasRole("standalone"))|
    ensures r.masters > 0 <==> exists d :: d in devices && d.plant_id == plantId && d.role == "master"
    ensures r.slaves > 0 <==> exists d :: d in devices && d.plant_id == plantId && d.role == "slave"
    ensures r.standalone > 0 <==> exists d :: d in devices && d.plant_id == plantId && d.role == "standalone"
    ensures r.masters + r.slaves + r.standalone <= r.total
    ensures (forall d :: d in devices && d.plant_id == plantId ==> d.role in {"master", "slave", "standalone"})
              ==> r.masters + r.slaves + r.standalone == r.total
  {
    var ds := DevicesOfPlant(devices, plantId);
    FilterThreeWay(ds, HasRole("master"), HasRole("slave"), HasRole("standalone"));
    DeviceCount(|ds|, RoleCount(devices, plantId, "master"), RoleCount(devices, plantId, "slave"),
                RoleCount(devices, plantId, "standalone"))
  }

  /** How many of the plant's devices have the role. */
  function RoleCount(devices: seq<Device>, plantId: string, role: string): (n: nat)
    ensures n == |Filter(DevicesOfPlant(devices, plantId), HasRole(role))|
    ensures n > 0 <==> exists d :: d in devices && d.plant_id == plantId && d.role == role
  {
    var ds := DevicesOfPlant(devices, plantId);
    FilterNonEmpty(ds, HasRole(role));
    |Filter(ds, HasRole(role))|
  }

  /** A device counts as online when it is active and was last seen less than
      thirty minutes before `now`. */
  predicate IsOnline(d: Device, now: int) {
    d.status == "active" && d.last_seen_at.Some? && d.last_seen_at.value > now - OnlineWindow
  }

  function OnlineAt(now: int): Device -> bool {
    (d: Device) => IsOnline(d, now)
  }

  /** `getPlantStatus`. */
  function PlantStatus(devices: seq<Device>, plantId: string, now: int): (r: string)
    ensures r in {"No Devices", "Healthy", "Degraded", "Offline"}
    ensures r == "No Devices" <==> forall d :: d in devices ==> d.plant_id != plantId
    ensures r == "Healthy" <==>
              (exists d :: d in devices && d.plant_id == plantId)
              && forall d :: d in devices && d.plant_id == plantId ==> IsOnline(d, now)
    ensures r == "Degraded" <==>
              (exists d :: d in devices && d.plant_id == plantId && IsOnline(d, now))
              && (exists d :: d in devices && d.plant_id == plantId && !IsOnline(d, now))
    ensures r == "Offline" <==>
              (exists d :: d in devices && d.plant_id == plantId)
              && forall d :: d in devices && d.plant_id == plantId ==> !IsOnline(d, now)
  {
    var ds := DevicesOfPlant(devices, plantId);
    var online := Filter(ds, OnlineAt(now));
    FilterAll(ds, OnlineAt(now));
    FilterNonEmpty(ds, OnlineAt(now));
    if |ds| == 0 then
      "No Devices"
    else
      assert ds[0] in ds;
      if |online| == |ds| then "Healthy"
      else if |online| > 0 then "Degraded"
      else "Offline"
  }

  /** A plant with an inactive device is never healthy. */
  lemma InactiveDeviceSpoilsHealth(devices: seq<Device>, d: Device, now: int)
    requires d in devices && d.status == "inactive"
    ensures PlantStatus(devices, d.plant_id, now) != "Healthy"
  {
  }

  /** A healthy plant stays healthy for an observer whose clock reads earlier. */
  lemma HealthyEarlier(devices: seq<Device>, plantId: string, now: int, earlier: int)
    requires earlier <= now
    requires PlantStatus(devices, plantId, now) == "Healthy"
    ensures PlantStatus(devices, plantId, earlier) == "Healthy"
  {
    forall e | e in devices && e.plant_id == plantId ensures IsOnline(e, earlier) {
      assert IsOnline(e, now);
    }
  }

  function HasDecision(decision: string): Device -> bool {
    (d: Device) => d.effective_status == Some(decision)
  }

  datatype Decisions = Decisions(charging: nat, discharging: nat, neutral: nat)

  /** The three decision counts over the devices of one list. */
  function DecisionCounts(ds: seq<Device>): (r: Decisions)
    ensures r.charging == |Filter(ds, HasDecision("CHARGING"))|
    ensures r.discharging == |Filter(ds, HasDecision("DISCHARGING"))|
    ensures r.neutral == |Filter(ds, HasDecision("NEUTRAL"))|
    ensures r.charging + r.discharging + r.neutral <= |ds|
    ensures r.charging > 0 <==> exists d :: d in ds && d.effective_status == Some("CHARGING")
    ensures r.discharging > 0 <==> exists d :: d in ds && d.effective_status == Some("DISCHARGING")
    ensures r.neutral > 0 <==> exists d :: d in ds && d.effective_status == Some("NEUTRAL")
  {
    FilterNonEmpty(ds, HasDecision("CHARGING"));
    FilterNonEmpty(ds, HasDecision("DISCHARGING"));
    FilterNonEmpty(ds, HasDecision("NEUTRAL"));
    FilterThreeWay(ds, HasDecision("CHARGING"), HasDecision("DISCHARGING"), HasDecision("NEUTRAL"));
    Decisions(|Filter(ds, HasDecision("CHARGING"))|, |Filter(ds, HasDecision("DISCHARGING"))|,
              |Filter(ds, HasDecision("NEUTRAL"))|)
  }

  /** `getPlantDecisions`: devices with a null or "UNKNOWN" effective status
      are in none of the three counts. */
  function PlantDecisions(devices: seq<Device>, plantId: string): (r: Decisions)
    ensures r.charging == |Filter(DevicesOfPlant(devices, plantId), HasDecision("CHARGING"))|
    ensures r.discharging == |Filter(DevicesOfPlant(devices, plantId), HasDecision("DISCHARGING"))|
    ensures r.neutral == |Filter(DevicesOfPlant(devices, plantId), HasDecision("NEUTRAL"))|
    ensures r.charging + r.discharging + r.neutral <= |DevicesOfPlant(devices, plantId)|
    ensures r.charging > 0 <==>
              exists d :: d in devices && d.plant_id == plantId && d.effective_status == Some("CHARGING")
    ensures r.discharging > 0 <==>
              exists d :: d in devices && d.plant_id == plantId && d.effective_status == Some("DISCHARGING")
    ensures r.neutral > 0 <==>
              exists d :: d in devices && d.plant_id == plantId && d.effective_status == Some("NEUTRAL")
  {
    DecisionCounts(DevicesOfPlant(devices, plantId))
  }
}
