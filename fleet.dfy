/** The fleet page (pages/Fleet.tsx): one breakdown row per plant and one
    group per master device. */
module FleetPage {
  import opened Common
  import opened Entities
  import opened PlantsPage

  datatype Breakdown = Breakdown(plant: Plant, deviceCount: nat, active: nat, totalPower: real, decisions: Decisions)

  function IsActive(d: Device): bool { d.status == "active" }

  /** The breakdown row of one plant. */
  function BreakdownOf(devices: seq<Device>, plant: Plant): (r: Breakdown)
    ensures r.plant == plant
    ensures r.deviceCount == |DevicesOfPlant(devices, plant.id)|
    ensures r.active == |Filter(DevicesOfPlant(devices, plant.id), IsActive)|
    ensures r.active <= r.deviceCount
    ensures r.active == r.deviceCount <==>
              forall d :: d in devices && d.plant_id == plant.id ==> d.status == "active"
    ensures r.active > 0 <==> exists d :: d in devices && d.plant_id == plant.id && d.status == "active"
    ensures r.totalPower == TotalPower(DevicesOfPlant(devices, plant.id))
    ensures (forall d :: d in devices ==> PowerOrZero(d) >= 0.0) ==> 0.0 <= r.totalPower <= TotalPower(devices)
    ensures r.decisions == PlantDecisions(devices, plant.id)
  {
    var ds := DevicesOfPlant(devices, plant.id);
    FilterAll(ds, IsActive);
    FilterNonEmpty(ds, IsActive);
    TotalPowerBounds(ds, devices);
    Breakdown(plant, |ds|, |Filter(ds, IsActive)|, TotalPower(ds), DecisionCounts(ds))
  }

  /** `plantBreakdowns`: one row per plant, in the plants' order. */
  function PlantBreakdowns(plants: seq<Plant>, devices: seq<Device>): (r: seq<Breakdown>)
    ensures |r| == |plants|
    ensures forall i :: 0 <= i < |r| ==> r[i] == BreakdownOf(devices, plants[i])
  {
    seq(|plants|, i requires 0 <= i < |plants| => BreakdownOf(devices, plants[i]))
  }

  function PlantIds(plants: seq<Plant>): seq<string> {
    if plants == [] then [] else [plants[0].id] + PlantIds(plants[1..])
  }

  function PlantIdIn(ids: seq<string>): Device -> bool {
    (d: Device) => d.plant_id in ids
  }

  function OfPlant(id: string): Device -> bool {
    (d: Device) => d.plant_id == id
  }

  function SumDeviceCounts(bs: seq<Breakdown>): int {
    if bs == [] then 0 else bs[0].deviceCount + SumDeviceCounts(bs[1..])
  }

  predicate DistinctIds(plants: seq<Plant>) {
    forall i, j :: 0 <= i < j < |plants| ==> plants[i].id != plants[j].id
  }

  /** Summed over distinct plants, the rows count the devices of those plants. */
  lemma {:induction false} CountsSumToPlantDevices(plants: seq<Plant>, devices: seq<Device>)
    requires DistinctIds(plants)
    ensures SumDeviceCounts(PlantBreakdowns(plants, devices)) == |Filter(devices, PlantIdIn(PlantIds(plants)))|
  {
    var bs := PlantBreakdowns(plants, devices);
    if plants == [] {
      FilterNonEmpty(devices, PlantIdIn([]));
    } else {
      var rest := plants[1..];
      CountsSumToPlantDevices(rest, devices);
      assert PlantBreakdowns(plants, devices)[1..] == PlantBreakdowns(rest, devices);
      var ids := PlantIds(plants);
      assert ids == [plants[0].id] + PlantIds(rest);
      assert plants[0].id !in PlantIds(rest) by {
        IdsAreIds(rest);
        forall k | 0 <= k < |rest| ensures rest[k].id != plants[0].id {
          assert rest[k] == plants[k + 1];
        }
      }
      FilterDisjointUnion(devices, OfPlant(plants[0].id), PlantIdIn(PlantIds(rest)), PlantIdIn(ids));
      assert Filter(devices, OfPlant(plants[0].id)) == DevicesOfPlant(devices, plants[0].id) by {
        assert OfPlant(plants[0].id) == (d: Device) => d.plant_id == plants[0].id;
      }
    }
  }

  lemma {:induction false} IdsAreIds(plants: seq<Plant>)
    ensures forall x :: x in PlantIds(plants) <==> exists k :: 0 <= k < |plants| && plants[k].id == x
  {
    if plants != [] {
      IdsAreIds(plants[1..]);
      forall x ensures x in PlantIds(plants) <==> exists k :: 0 <= k < |plants| && plants[k].id == x {
        if x in PlantIds(plants[1..]) {
          var k :| 0 <= k < |plants[1..]| && plants[1..][k].id == x;
          assert plants[k + 1].id == x;
        }
        if exists k :: 0 <= k < |plants| && plants[k].id == x {
          var k :| 0 <= k < |plants| && plants[k].id == x;
          if k > 0 {
            assert plants[1..][k - 1].id == x;
          }
        }
      }
    }
  }

  /** When every device belongs to one of the (distinct) plants, the device
      counts of the breakdown add up to the size of the fleet. */
  lemma FleetCountsEveryDeviceOnce(plants: seq<Plant>, devices: seq<Device>)
    requires DistinctIds(plants)
    requires forall d :: d in devices ==> exists p :: p in plants && p.id == d.plant_id
    ensures SumDeviceCounts(PlantBreakdowns(plants, devices)) == |devices|
  {
    CountsSumToPlantDevices(plants, devices);
    IdsAreIds(plants);
    forall d | d in devices ensures PlantIdIn(PlantIds(plants))(d) {
      var p :| p in plants && p.id == d.plant_id;
      var k :| 0 <= k < |plants| && plants[k] == p;
      assert plants[k].id == d.plant_id;
    }
    FilterKeepsAll(devices, PlantIdIn(PlantIds(plants)));
  }

  datatype Group = Group(master: Device, plant: Option<Plant>, slaveCount: nat, totalPower: real)

  /** The group of one master: its plant, the number of devices naming it as
      master, and the power of the master and those devices together. */
  function GroupOf(plants: seq<Plant>, devices: seq<Device>, master: Device): (r: Group)
    ensures r.master == master
    ensures r.plant == FindPlant(plants, master.plant_id)
    ensures r.plant.None? <==> forall p :: p in plants ==> p.id != master.plant_id
    ensures r.plant.Some? ==> r.plant.value in plants && r.plant.value.id == master.plant_id
    ensures r.slaveCount == |SlavesOf(devices, master.id)|
    ensures r.totalPower == PowerOrZero(master) + TotalPower(SlavesOf(devices, master.id))
    ensures (forall d :: d in devices ==> PowerOrZero(d) >= 0.0) ==>
              PowerOrZero(master) <= r.totalPower <= PowerOrZero(master) + TotalPower(devices)
  {
    var slaves := SlavesOf(devices, master.id);
    TotalPowerBounds(slaves, devices);
    Group(master, FindPlant(plants, master.plant_id), |slaves|,
          PowerOrZero(master) + TotalPower(slaves))
  }

  /** `deviceGroups`: one group per master device, in the devices' order. */
  function DeviceGroups(plants: seq<Plant>, devices: seq<Device>): (r: seq<Group>)
    ensures |r| == |Filter(devices, HasRole("master"))|
    ensures forall i :: 0 <= i < |r| ==> r[i] == GroupOf(plants, devices, Filter(devices, HasRole("master"))[i])
    ensures forall g :: g in r ==> g.master in devices && g.master.role == "master"
    ensures forall m :: m in devices && m.role == "master" ==> exists g :: g in r && g.master == m
  {
    var masters := Filter(devices, HasRole("master"));
    var r := GroupsOf(plants, devices, masters);
    GroupsCoverMasters(plants, devices, masters, r);
    r
  }

  function GroupsOf(plants: seq<Plant>, devices: seq<Device>, masters: seq<Device>): (r: seq<Group>)
    ensures |r| == |masters|
    ensures forall i :: 0 <= i < |r| ==> r[i] == GroupOf(plants, devices, masters[i]) && r[i].master == masters[i]
  {
    seq(|masters|, i requires 0 <= i < |masters| => GroupOf(plants, devices, masters[i]))
  }

  lemma GroupsCoverMasters(plants: seq<Plant>, devices: seq<Device>, masters: seq<Device>, r: seq<Group>)
    requires masters == Filter(devices, HasRole("master"))
    requires |r| == |masters| && forall i :: 0 <= i < |r| ==> r[i].master == masters[i]
    ensures forall g :: g in r ==> g.master in devices && g.master.role == "master"
    ensures forall m :: m in devices && m.role == "master" ==> exists g :: g in r && g.master == m
  {
    forall g | g in r ensures g.master in devices && g.master.role == "master" {
      var i :| 0 <= i < |r| && r[i] == g;
      assert masters[i] in masters;
    }
    forall m | m in devices && m.role == "master" ensures exists g :: g in r && g.master == m {
      assert m in masters;
      var i :| 0 <= i < |masters| && masters[i] == m;
      assert r[i].master == m;
    }
  }
}
