/** The device detail page (pages/DeviceDetail.tsx): which device is shown,
    its master and slaves, the ten latest dispatch logs, and the captions that
    depend on the device's role. */
module DeviceDetailPage {
  import opened Common
  import opened Entities

  datatype View =
    | NotFound
    | Found(
        device: Device,
        master: Option<Device>,
        slaves: seq<Device>,
        logs: seq<DispatchLog>,
        slaveOfCaption: Option<string>,    // "Slave of <master name>"
        slaveCountCaption: Option<string>, // "<n> slave devices", also gates the slave list card
        inheritedNotice: bool)             // the "decision status is inherited" notice

  /** `masterDevice`: looked up only when the device names a master. */
  function MasterOf(devices: seq<Device>, d: Device): (r: Option<Device>)
    ensures !Truthy(d.master_device_id) ==> r.None?
    ensures Truthy(d.master_device_id) ==> r == FindDevice(devices, d.master_device_id.value)
  {
    if Truthy(d.master_device_id) then FindDevice(devices, d.master_device_id.value) else None
  }

  function LogTime(l: DispatchLog): int { l.timestamp }

  function OfDevice(deviceId: string): DispatchLog -> bool {
    (l: DispatchLog) => l.device_id == deviceId
  }

  /** `deviceLogs`: this device's logs, newest first, at most ten. */
  function DeviceLogs(logs: seq<DispatchLog>, deviceId: string): (r: seq<DispatchLog>)
    ensures |r| == if |Filter(logs, OfDevice(deviceId))| <= 10 then |Filter(logs, OfDevice(deviceId))| else 10
    ensures forall l :: l in r ==> l in logs && l.device_id == deviceId
    ensures SortedDesc(r, LogTime)
    ensures multiset(r) <= multiset(Filter(logs, OfDevice(deviceId)))
    ensures |Filter(logs, OfDevice(deviceId))| <= 10 ==>
              multiset(r) == multiset(Filter(logs, OfDevice(deviceId)))
  {
    LatestSpec(logs, OfDevice(deviceId), LogTime, 10);
    Latest(logs, OfDevice(deviceId), LogTime, 10)
  }

  /** The dropped logs are never newer than the ones kept. */
  lemma DeviceLogsAreTheNewest(logs: seq<DispatchLog>, deviceId: string)
    ensures var sorted := SortDesc(Filter(logs, OfDevice(deviceId)), LogTime);
            var r := DeviceLogs(logs, deviceId);
            |r| == (if |sorted| <= 10 then |sorted| else 10)
            && multiset(r) + multiset(sorted[|r|..]) == multiset(Filter(logs, OfDevice(deviceId)))
            && forall x, y :: x in r && y in sorted[|r|..] ==> x.timestamp >= y.timestamp
  {
    LatestSpec(logs, OfDevice(deviceId), LogTime, 10);
  }

  function DetailView(devices: seq<Device>, logs: seq<DispatchLog>, deviceId: string): (r: View)
    ensures r.NotFound? <==> forall d :: d in devices ==> d.id != deviceId
    ensures r.Found? ==> r.device.id == deviceId && r.device in devices
    ensures r.Found? ==> r.master == MasterOf(devices, r.device)
    ensures r.Found? ==> forall d :: d in r.slaves <==> d in devices && d.master_device_id == Some(deviceId)
    ensures r.Found? ==> r.slaves == SlavesOf(devices, deviceId)
    ensures r.Found? ==> r.logs == DeviceLogs(logs, deviceId)
    ensures r.Found? ==> (r.slaveOfCaption.Some? <==> r.device.role == "slave" && r.master.Some?)
    ensures r.Found? && r.slaveOfCaption.Some? ==> r.slaveOfCaption.value == "Slave of " + r.master.value.name
    ensures r.Found? ==> (r.slaveCountCaption.Some? <==> r.device.role == "master" && |r.slaves| > 0)
    ensures r.Found? && r.slaveCountCaption.Some? ==>
              r.slaveCountCaption.value == NatToString(|r.slaves|) + " slave devices"
    ensures r.Found? ==> (r.inheritedNotice <==> r.device.role == "slave")
  {
    match FindDevice(devices, deviceId)
    case None => NotFound
    case Some(device) =>
      var master := MasterOf(devices, device);
      var slaves := SlavesOf(devices, device.id);
      Found(
        device,
        master,
        slaves,
        DeviceLogs(logs, deviceId),
        if device.role == "slave" && master.Some? then Some("Slave of " + master.value.name) else None,
        if device.role == "master" && |slaves| > 0 then Some(NatToString(|slaves|) + " slave devices") else None,
        device.role == "slave")
  }

  /** The device shown is the first one carrying the route id. */
  lemma DetailShowsFirstMatch(devices: seq<Device>, logs: seq<DispatchLog>, i: int)
    requires 0 <= i < |devices|
    requires forall j :: 0 <= j < i ==> devices[j].id != devices[i].id
    ensures DetailView(devices, logs, devices[i].id).Found?
    ensures DetailView(devices, logs, devices[i].id).device == devices[i]
  {
    FindDeviceFirst(devices, devices[i].id, i);
  }

  /** A standalone device gets neither role caption nor the inherited notice. */
  lemma StandaloneHasNoRoleCaptions(devices: seq<Device>, logs: seq<DispatchLog>, deviceId: string)
    requires DetailView(devices, logs, deviceId).Found?
    requires DetailView(devices, logs, deviceId).device.role == "standalone"
    ensures var v := DetailView(devices, logs, deviceId);
            v.slaveOfCaption.None? && v.slaveCountCaption.None? && !v.inheritedNotice
  {
  }
}
