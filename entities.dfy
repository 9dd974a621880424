/** The records the dashboard pages work on (the interfaces of
    data/mockData.ts), and the "first record with this id" lookups every page
    performs. Ids are not unique in the data, so a lookup is a first match. */
module Entities {
  import opened Common

  datatype Plant = Plant(
    id: string,
    name: string,
    timezone: string,
    tariff_zone: Option<string>,
    created_at: int)

  /** A device; `status` is "active" or "inactive", `role` is "master",
      "slave" or "standalone", `decision` / `effective_status` are one of
      "CHARGING", "DISCHARGING", "NEUTRAL", "UNKNOWN" or null. Timestamps are
      milliseconds since the epoch. */
  datatype Device = Device(
    id: string,
    plant_id: string,
    name: string,
    serial_number: string,
    status: string,
    role: string,
    master_device_id: Option<string>,
    firmware_version: Option<string>,
    sdk_device_id: Option<string>,
    last_seen_at: Option<int>,
    decision: Option<string>,
    effective_status: Option<string>,
    power_kw: Option<real>,
    soc_percent: Option<real>,
    commissioning_status: Option<string>,
    commissioned_at: Option<int>)

  datatype Alarm = Alarm(
    id: string,
    device_id: string,
    code: string,
    category: string,
    severity: string,
    status: string,
    occurrences: int,
    first_seen: int,
    last_seen: int,
    message: string)

  datatype Price = Price(
    id: string,
    effective_at: int,
    plant_id: Option<string>,
    device_id: Option<string>,
    scope: string,
    price: real,
    currency: string,
    source: string,
    status: string)

  datatype Schedule = Schedule(
    id: string,
    effective_date: string,
    scope_type: string,
    plant_id: Option<string>,
    device_id: Option<string>,
    timezone: string,
    version: int,
    is_active: bool,
    status: string,
    completeness: nat)

  datatype DispatchLog = DispatchLog(
    id: string,
    timestamp: int,
    plant_id: string,
    device_id: string,
    price: Option<real>,
    result: string,
    acknowledged: bool,
    error: Option<string>)

  datatype AuditLog = AuditLog(
    id: string,
    timestamp: int,
    user: string,
    action: string,
    description: string,
    ip_address: string)

  /** `devices.find((d) => d.id === id)`. */
  function FindDevice(devices: seq<Device>, id: string): (r: Option<Device>)
    ensures r.None? <==> forall d :: d in devices ==> d.id != id
    ensures r.Some? ==> r.value in devices && r.value.id == id
  {
    FindFirst(devices, (d: Device) => d.id == id)
  }

  /** `plants.find((p) => p.id === id)`. */
  function FindPlant(plants: seq<Plant>, id: string): (r: Option<Plant>)
    ensures r.None? <==> forall p :: p in plants ==> p.id != id
    ensures r.Some? ==> r.value in plants && r.value.id == id
  {
    FindFirst(plants, (p: Plant) => p.id == id)
  }

  /** With duplicate ids, the lookup returns the earliest device carrying it. */
  lemma FindDeviceFirst(devices: seq<Device>, id: string, i: int)
    requires 0 <= i < |devices| && devices[i].id == id
    requires forall j :: 0 <= j < i ==> devices[j].id != id
    ensures FindDevice(devices, id) == Some(devices[i])
  {
    FindFirstAt(devices, (d: Device) => d.id == id, i);
  }

  lemma FindPlantFirst(plants: seq<Plant>, id: string, i: int)
    requires 0 <= i < |plants| && plants[i].id == id
    requires forall j :: 0 <= j < i ==> plants[j].id != id
    ensures FindPlant(plants, id) == Some(plants[i])
  {
    FindFirstAt(plants, (p: Plant) => p.id == id, i);
  }

  /** `devices.filter((d) => d.plant_id === plantId)`. */
  function DevicesOfPlant(devices: seq<Device>, plantId: string): (r: seq<Device>)
    ensures forall d :: d in r <==> d in devices && d.plant_id == plantId
    ensures forall d :: multiset(r)[d] == if d.plant_id == plantId then multiset(devices)[d] else 0
    ensures IsSubsequence(r, devices)
  {
    Filter(devices, (d: Device) => d.plant_id == plantId)
  }

  /** `devices.filter((d) => d.master_device_id === masterId)`: the devices
      that name this id as their master, whatever their own role. */
  function SlavesOf(devices: seq<Device>, masterId: string): (r: seq<Device>)
    ensures forall d :: d in r <==> d in devices && d.master_device_id == Some(masterId)
    ensures forall d :: multiset(r)[d] == if d.master_device_id == Some(masterId) then multiset(devices)[d] else 0
    ensures IsSubsequence(r, devices)
  {
    Filter(devices, (d: Device) => d.master_device_id == Some(masterId))
  }

  /** `power_kw || 0`. */
  function PowerOrZero(d: Device): real {
    match d.power_kw
    case None => 0.0
    case Some(p) => p
  }

  /** `devices.reduce((sum, d) => sum + (d.power_kw || 0), 0)`. */
  function TotalPower(devices: seq<Device>): real
  {
    if devices == [] then 0.0 else TotalPower(devices[..|devices| - 1]) + PowerOrZero(devices[|devices| - 1])
  }

  lemma {:induction false} TotalPowerAppend(a: seq<Device>, b: seq<Device>)
    ensures TotalPower(a + b) == TotalPower(a) + TotalPower(b)
    decreases |b|
  {
    if b == [] {
      assert a + b == a;
    } else {
      var ab := a + b;
      assert ab[..|ab| - 1] == a + b[..|b| - 1];
      assert ab[|ab| - 1] == b[|b| - 1];
      TotalPowerAppend(a, b[..|b| - 1]);
    }
  }

  /** Null powers contribute nothing to a total. */
  lemma {:induction false} TotalPowerNullsAreZero(devices: seq<Device>)
    requires forall d :: d in devices ==> d.power_kw.None?
    ensures TotalPower(devices) == 0.0
    decreases |devices|
  {
    if devices != [] {
      TotalPowerNullsAreZero(devices[..|devices| - 1]);
    }
  }

  /** With non-negative powers, the total of a filtered sub-list never exceeds
      the total of the whole list. */
  lemma {:induction false} TotalPowerSubsequence(r: seq<Device>, s: seq<Device>)
    requires IsSubsequence(r, s)
    requires forall d :: d in s ==> PowerOrZero(d) >= 0.0
    ensures TotalPower(r) <= TotalPower(s)
    decreases |s|
  {
    if r == [] {
      TotalPowerNonNegative(s);
    } else {
      assert s == [s[0]] + s[1..];
      TotalPowerAppend([s[0]], s[1..]);
      assert TotalPower([s[0]]) == PowerOrZero(s[0]) by {
        assert [s[0]][..0] == [];
      }
      if r[0] == s[0] && IsSubsequence(r[1..], s[1..]) {
        assert r == [r[0]] + r[1..];
        TotalPowerAppend([r[0]], r[1..]);
        assert TotalPower([r[0]]) == PowerOrZero(r[0]) by {
          assert [r[0]][..0] == [];
        }
        TotalPowerSubsequence(r[1..], s[1..]);
      } else {
        TotalPowerSubsequence(r, s[1..]);
      }
    }
  }

  /** The two bounds above, for a sub-list, whatever the powers. */
  lemma TotalPowerBounds(r: seq<Device>, s: seq<Device>)
    requires IsSubsequence(r, s)
    ensures (forall d :: d in s ==> PowerOrZero(d) >= 0.0) ==> 0.0 <= TotalPower(r) <= TotalPower(s)
  {
    if forall d :: d in s ==> PowerOrZero(d) >= 0.0 {
      TotalPowerSubsequence(r, s);
      SubsequenceMembers(r, s);
      TotalPowerNonNegative(r);
    }
  }

  lemma {:induction false} TotalPowerNonNegative(s: seq<Device>)
    requires forall d :: d in s ==> PowerOrZero(d) >= 0.0
    ensures TotalPower(s) >= 0.0
    decreases |s|
  {
    if s != [] {
      assert s[|s| - 1] in s;
      TotalPowerNonNegative(s[..|s| - 1]);
    }
  }
}
