/** The energy-flow diagram (components/SystemTopology.tsx): which flows
    animate, in which direction, the grid caption and the battery colour.
    Powers are kilowatts; a negative battery power is charging and a negative
    grid power is export. */
module SystemTopologyView {

  datatype Direction = Left | Right

  /** An animated flow along one line, or none. */
  datatype Flow = Still | Moving(direction: Direction)

  datatype Topology = Topology(
    solarFlows: bool,
    homeFlows: bool,
    batteryFlow: Flow,
    gridFlow: Flow,
    gridCaption: string,
    batteryIconGreen: bool)

  function TopologyOf(solarPower: real, batteryPower: real, gridPower: real, homeConsumption: real, batterySoc: int): (r: Topology)
    ensures r.solarFlows <==> solarPower > 0.0
    ensures r.homeFlows <==> homeConsumption > 0.0
    ensures r.batteryFlow.Still? <==> batteryPower == 0.0
    ensures r.batteryFlow == Moving(Left) <==> batteryPower < 0.0
    ensures r.batteryFlow == Moving(Right) <==> batteryPower > 0.0
    ensures r.gridFlow.Still? <==> gridPower == 0.0
    ensures r.gridFlow == Moving(Right) <==> gridPower < 0.0
    ensures r.gridFlow == Moving(Left) <==> gridPower > 0.0
    ensures r.gridCaption == "Exporting" <==> gridPower < 0.0
    ensures r.gridCaption == "Importing" <==> gridPower >= 0.0
    ensures r.batteryIconGreen <==> batterySoc > 20
  {
    var isCharging := batteryPower < 0.0;
    var isExporting := gridPower < 0.0;
    Topology(
      solarPower > 0.0,
      homeConsumption > 0.0,
      if batteryPower != 0.0 then Moving(if isCharging then Left else Right) else Still,
      if gridPower != 0.0 then Moving(if isExporting then Right else Left) else Still,
      if isExporting then "Exporting" else "Importing",
      batterySoc > 20)
  }

  /** Battery and grid flows point the same way exactly when one of them
      charges while the other imports, or one discharges while the other
      exports: the diagram draws both as moving towards, or both away from,
      the inverter only in those cases. */
  lemma SameDirection(solar: real, battery: real, grid: real, home: real, soc: int)
    requires battery != 0.0 && grid != 0.0
    ensures var t := TopologyOf(solar, battery, grid, home, soc);
            t.batteryFlow == t.gridFlow <==> (battery < 0.0) == (grid > 0.0)
  {
  }
}
