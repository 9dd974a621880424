/** The dispatch log list (pages/DispatchLogs.tsx): search over device and
    plant names, and the display of null fields. */
module DispatchLogsPage {
  import opened Common
  import opened Entities

  predicate KeepLog(devices: seq<Device>, plants: seq<Plant>, log: DispatchLog, query: string) {
    || (FindDevice(devices, log.device_id).Some? && Matches(FindDevice(devices, log.device_id).value.name, query))
    || (FindPlant(plants, log.plant_id).Some? && Matches(FindPlant(plants, log.plant_id).value.name, query))
  }

  /** `filteredLogs`: a log is found through its device's or its plant's name. */
  function FilteredLogs(logs: seq<DispatchLog>, devices: seq<Device>, plants: seq<Plant>, query: string): (r: seq<DispatchLog>)
    ensures IsSubsequence(r, logs)
    ensures forall l :: l in r <==>
              && l in logs
              && (|| (FindDevice(devices, l.device_id).Some?
                      && Contains(Lower(FindDevice(devices, l.device_id).value.name), Lower(query)))
                  || (FindPlant(plants, l.plant_id).Some?
                      && Contains(Lower(FindPlant(plants, l.plant_id).value.name), Lower(query))))
    ensures forall l :: multiset(r)[l] == if KeepLog(devices, plants, l, query) then multiset(logs)[l] else 0
  {
    Filter(logs, (l: DispatchLog) => KeepLog(devices, plants, l, query))
  }

  /** A log whose device and plant are both unknown is never listed, not even
      with an empty search. */
  lemma OrphanLogNeverListed(logs: seq<DispatchLog>, devices: seq<Device>, plants: seq<Plant>, l: DispatchLog, query: string)
    requires forall d :: d in devices ==> d.id != l.device_id
    requires forall p :: p in plants ==> p.id != l.plant_id
    ensures l !in FilteredLogs(logs, devices, plants, query)
  {
  }

  /** With an empty search, exactly the logs with a known device or plant are
      listed. */
  lemma EmptyQueryListsKnownLogs(logs: seq<DispatchLog>, devices: seq<Device>, plants: seq<Plant>)
    ensures forall l :: l in FilteredLogs(logs, devices, plants, "") <==>
              l in logs && ((exists d :: d in devices && d.id == l.device_id) || (exists p :: p in plants && p.id == l.plant_id))
  {
    forall l | l in logs
      ensures KeepLog(devices, plants, l, "") <==>
                (exists d :: d in devices && d.id == l.device_id) || (exists p :: p in plants && p.id == l.plant_id)
    {
      if FindDevice(devices, l.device_id).Some? {
        MatchesEmpty(FindDevice(devices, l.device_id).value.name);
      }
      if FindPlant(plants, l.plant_id).Some? {
        MatchesEmpty(FindPlant(plants, l.plant_id).value.name);
      }
    }
  }

  datatype PriceCell = Dash | Dollars(amount: real)

  /** `log.price !== null ? "$" + price : "-"`. */
  function PriceCellOf(price: Option<real>): (r: PriceCell)
    ensures r == Dash <==> price.None?
    ensures r.Dollars? ==> price == Some(r.amount)
  {
    match price
    case None => Dash
    case Some(p) => Dollars(p)
  }

  function AcknowledgedText(acknowledged: bool): (r: string)
    ensures r == "Yes" <==> acknowledged
    ensures r == "No" <==> !acknowledged
  {
    if acknowledged then "Yes" else "No"
  }

  /** `log.error || "-"`. */
  function ErrorCell(error: Option<string>): (r: string)
    ensures r != ""
    ensures Truthy(error) ==> r == error.value
    ensures !Truthy(error) ==> r == "-"
  {
    OrDefault(error, "-")
  }

  /** One table row. The plant and device cells use `?.name`, so an unknown
      record leaves the cell blank (`None`). */
  datatype LogRow = LogRow(plantName: Option<string>, deviceName: Option<string>, price: PriceCell,
                           resultGreen: bool, resultText: string, acknowledgedGreen: bool,
                           acknowledgedText: string, error: string)

  function NameOf<T>(record: Option<T>, name: T -> string): Option<string> {
    match record
    case None => None
    case Some(x) => Some(name(x))
  }

  function RowOf(devices: seq<Device>, plants: seq<Plant>, log: DispatchLog): (r: LogRow)
    ensures r.plantName.Some? <==> FindPlant(plants, log.plant_id).Some?
    ensures r.plantName.Some? ==> r.plantName.value == FindPlant(plants, log.plant_id).value.name
    ensures r.deviceName.Some? <==> FindDevice(devices, log.device_id).Some?
    ensures r.deviceName.Some? ==> r.deviceName.value == FindDevice(devices, log.device_id).value.name
    ensures r.price == PriceCellOf(log.price)
    ensures r.resultGreen <==> log.result == "success"
    ensures r.resultText == Capitalize(log.result)
    ensures r.acknowledgedGreen <==> log.acknowledged
    ensures r.acknowledgedText == AcknowledgedText(log.acknowledged)
    ensures r.error == ErrorCell(log.error)
  {
    LogRow(NameOf(FindPlant(plants, log.plant_id), (p: Plant) => p.name),
           NameOf(FindDevice(devices, log.device_id), (d: Device) => d.name),
           PriceCellOf(log.price), log.result == "success", Capitalize(log.result),
           log.acknowledged, AcknowledgedText(log.acknowledged), ErrorCell(log.error))
  }

  /** The table body: one row per listed log, in the list's order. */
  function Rows(logs: seq<DispatchLog>, devices: seq<Device>, plants: seq<Plant>, query: string): (r: seq<LogRow>)
    ensures |r| == |FilteredLogs(logs, devices, plants, query)|
    ensures forall i :: 0 <= i < |r| ==> r[i] == RowOf(devices, plants, FilteredLogs(logs, devices, plants, query)[i])
  {
    var listed := FilteredLogs(logs, devices, plants, query);
    seq(|listed|, i requires 0 <= i < |listed| => RowOf(devices, plants, listed[i]))
  }

  /** Every listed row shows a device or plant name, and one of the names it
      shows contains the search text, ignoring case. */
  lemma ListedRowShowsMatch(logs: seq<DispatchLog>, devices: seq<Device>, plants: seq<Plant>, query: string, i: int)
    requires 0 <= i < |Rows(logs, devices, plants, query)|
    ensures var row := Rows(logs, devices, plants, query)[i];
            || (row.deviceName.Some? && Contains(Lower(row.deviceName.value), Lower(query)))
            || (row.plantName.Some? && Contains(Lower(row.plantName.value), Lower(query)))
  {
    var listed := FilteredLogs(logs, devices, plants, query);
    assert listed[i] in listed;
  }
}
