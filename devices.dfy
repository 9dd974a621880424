/** The device list page (pages/Devices.tsx): the search-and-filter predicate,
    the role caption, and the plant filter forced by a `plantId` prop. */
module DevicesPage {
  import opened Common
  import opened Entities

  /** The selection of one drop-down filter: "all" or a concrete value. */
  predicate FilterAccepts(filter: string, value: string) {
    filter == "all" || value == filter
  }

  predicate KeepDevice(d: Device, query: string, plantFilter: string, statusFilter: string, roleFilter: string) {
    && (Matches(d.name, query) || Matches(d.serial_number, query))
    && FilterAccepts(plantFilter, d.plant_id)
    && FilterAccepts(statusFilter, d.status)
    && FilterAccepts(roleFilter, d.role)
  }

  /** `filteredDevices`: an order-preserving sub-list holding exactly the
      devices whose name or serial contains the query (ignoring case) and that
      every drop-down accepts, with their multiplicities. */
  function FilteredDevices(devices: seq<Device>, query: string, plantFilter: string, statusFilter: string, roleFilter: string): (r: seq<Device>)
    ensures IsSubsequence(r, devices)
    ensures forall d :: d in r <==>
      && d in devices
      && (Contains(Lower(d.name), Lower(query)) || Contains(Lower(d.serial_number), Lower(query)))
      && (plantFilter == "all" || d.plant_id == plantFilter)
      && (statusFilter == "all" || d.status == statusFilter)
      && (roleFilter == "all" || d.role == roleFilter)
    ensures forall d :: multiset(r)[d] == if KeepDevice(d, query, plantFilter, statusFilter, roleFilter) then multiset(devices)[d] else 0
  {
    Filter(devices, (d: Device) => KeepDevice(d, query, plantFilter, statusFilter, roleFilter))
  }

  /** An empty search with every drop-down on "all" lists every device. */
  lemma NoFilterKeepsAll(devices: seq<Device>)
    ensures FilteredDevices(devices, "", "all", "all", "all") == devices
  {
    forall d | d in devices ensures KeepDevice(d, "", "all", "all", "all") {
      MatchesEmpty(d.name);
    }
    FilterKeepsAll(devices, (d: Device) => KeepDevice(d, "", "all", "all", "all"));
  }

  /** Typing more of a query never brings devices back. */
  lemma FilteredDevicesMonotone(devices: seq<Device>, q1: string, q2: string, pf: string, sf: string, rf: string)
    requires Contains(q2, q1)
    ensures forall d :: d in FilteredDevices(devices, q2, pf, sf, rf) ==> d in FilteredDevices(devices, q1, pf, sf, rf)
  {
    forall d | d in FilteredDevices(devices, q2, pf, sf, rf) ensures d in FilteredDevices(devices, q1, pf, sf, rf) {
      if Matches(d.name, q2) {
        MatchesMonotone(d.name, q1, q2);
      } else {
        MatchesMonotone(d.serial_number, q1, q2);
      }
    }
  }

  /** `getDeviceRoleText`. */
  function RoleText(devices: seq<Device>, d: Device): (r: string)
    ensures d.role == "master" ==> r == "Master (" + NatToString(|SlavesOf(devices, d.id)|) + " slaves)"
    ensures d.role == "slave" && Truthy(d.master_device_id) ==>
      r == "Slave of " + (match FindDevice(devices, d.master_device_id.value)
                          case None => "Unknown"
                          case Some(m) => if m.name != "" then m.name else "Unknown")
    ensures d.role != "master" && !(d.role == "slave" && Truthy(d.master_device_id)) ==> r == "Standalone"
  {
    if d.role == "master" then
      "Master (" + NatToString(|SlavesOf(devices, d.id)|) + " slaves)"
    else if d.role == "slave" && Truthy(d.master_device_id) then
      var master := FindDevice(devices, d.master_device_id.value);
      "Slave of " + OrDefault(if master.Some? then Some(master.value.name) else None, "Unknown")
    else
      "Standalone"
  }

  /** The number in a master's caption is the number of devices naming it as
      their master. */
  lemma MasterCaptionCount(devices: seq<Device>, d: Device, digits: string)
    requires d.role == "master"
    requires RoleText(devices, d) == "Master (" + digits + " slaves)"
    ensures DecimalValue(digits) == |SlavesOf(devices, d.id)|
  {
    var n := |SlavesOf(devices, d.id)|;
    var prefix := "Master (";
    assert digits == RoleText(devices, d)[|prefix|..|prefix| + |digits|];
    assert NatToString(n) == RoleText(devices, d)[|prefix|..|prefix| + |NatToString(n)|];
    assert |digits| == |NatToString(n)|;
    DecimalRoundTrip(n);
  }

  /** A slave is captioned with the name of the FIRST device carrying its
      master's id, even when later devices share that id. */
  lemma SlaveCaptionFirstMaster(devices: seq<Device>, d: Device, i: int)
    requires 0 <= i < |devices| && forall j :: 0 <= j < i ==> devices[j].id != devices[i].id
    requires d.role == "slave" && d.master_device_id == Some(devices[i].id) && devices[i].id != ""
    requires devices[i].name != ""
    ensures RoleText(devices, d) == "Slave of " + devices[i].name
  {
    FindDeviceFirst(devices, devices[i].id, i);
  }

  /** A slave whose master id names no device is "Slave of Unknown". */
  lemma SlaveCaptionUnknown(devices: seq<Device>, d: Device)
    requires d.role == "slave" && Truthy(d.master_device_id)
    requires forall x :: x in devices ==> x.id != d.master_device_id.value
    ensures RoleText(devices, d) == "Slave of Unknown"
  {
  }

  /** A slave with no master id is shown as standalone. */
  lemma SlaveWithoutMasterIsStandalone(devices: seq<Device>, d: Device)
    requires d.role == "slave" && d.master_device_id.None?
    ensures RoleText(devices, d) == "Standalone"
  {
  }

  /** Initial plant filter: `plantId || "all"`. */
  function InitialPlantFilter(plantId: Option<string>): (r: string)
    ensures Truthy(plantId) ==> r == plantId.value
    ensures !Truthy(plantId) ==> r == "all"
  {
    OrDefault(plantId, "all")
  }

  /** The render-time sync `if (plantId && plantFilter !== plantId)
      setPlantFilter(plantId)`: the filter the page renders with. */
  function SyncPlantFilter(plantId: Option<string>, current: string): (r: string)
    ensures Truthy(plantId) ==> r == plantId.value
    ensures !Truthy(plantId) ==> r == current
  {
    if Truthy(plantId) && current != plantId.value then plantId.value else current
  }

  /** After one sync the condition is false, so the next render does not set
      state again (the sync cannot loop). */
  lemma SyncPlantFilterSettles(plantId: Option<string>, current: string)
    ensures var f := SyncPlantFilter(plantId, current);
            !(Truthy(plantId) && f != plantId.value) && SyncPlantFilter(plantId, f) == f
  {
  }

  /** On a plant's page, only that plant's devices are listed. */
  lemma PlantPageListsOnlyItsDevices(devices: seq<Device>, plantId: string, current: string, query: string, sf: string, rf: string)
    requires plantId != "" && plantId != "all"
    ensures forall d :: d in FilteredDevices(devices, query, SyncPlantFilter(Some(plantId), current), sf, rf) ==> d.plant_id == plantId
  {
  }
}
