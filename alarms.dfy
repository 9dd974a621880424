/** The alarm list (pages/Alarms.tsx): search over code, message and device
    name, the severity and status colours, and the actions offered per row. */
module AlarmsPage {
  import opened Common
  import opened Entities

  /** `device?.name.toLowerCase().includes(q)`: false when no device has the id. */
  predicate DeviceNameMatches(devices: seq<Device>, deviceId: string, query: string) {
    match FindDevice(devices, deviceId)
    case None => false
    case Some(d) => Matches(d.name, query)
  }

  predicate KeepAlarm(devices: seq<Device>, a: Alarm, query: string) {
    Matches(a.code, query) || Matches(a.message, query) || DeviceNameMatches(devices, a.device_id, query)
  }

  /** `filteredAlarms`. */
  function FilteredAlarms(alarms: seq<Alarm>, devices: seq<Device>, query: string): (r: seq<Alarm>)
    ensures IsSubsequence(r, alarms)
    ensures forall a :: a in r <==>
              && a in alarms
              && (|| Contains(Lower(a.code), Lower(query))
                  || Contains(Lower(a.message), Lower(query))
                  || (FindDevice(devices, a.device_id).Some?
                      && Contains(Lower(FindDevice(devices, a.device_id).value.name), Lower(query))))
    ensures forall a :: multiset(r)[a] == if KeepAlarm(devices, a, query) then multiset(alarms)[a] else 0
  {
    Filter(alarms, (a: Alarm) => KeepAlarm(devices, a, query))
  }

  lemma EmptyQueryListsAllAlarms(alarms: seq<Alarm>, devices: seq<Device>)
    ensures FilteredAlarms(alarms, devices, "") == alarms
  {
    forall a | a in alarms ensures KeepAlarm(devices, a, "") {
      MatchesEmpty(a.code);
    }
    FilterKeepsAll(alarms, (a: Alarm) => KeepAlarm(devices, a, ""));
  }

  /** An alarm whose device is missing is still found through its code or
      message, and only through them. */
  lemma OrphanAlarm(alarms: seq<Alarm>, devices: seq<Device>, a: Alarm, query: string)
    requires a in alarms
    requires forall d :: d in devices ==> d.id != a.device_id
    ensures a in FilteredAlarms(alarms, devices, query) <==> Matches(a.code, query) || Matches(a.message, query)
  {
  }

  /** Typing more of a query never brings alarms back. */
  lemma FilteredAlarmsMonotone(alarms: seq<Alarm>, devices: seq<Device>, q1: string, q2: string)
    requires Contains(q2, q1)
    ensures forall a :: a in FilteredAlarms(alarms, devices, q2) ==> a in FilteredAlarms(alarms, devices, q1)
  {
    forall a | a in FilteredAlarms(alarms, devices, q2) ensures a in FilteredAlarms(alarms, devices, q1) {
      if Matches(a.code, q2) {
        MatchesMonotone(a.code, q1, q2);
      } else if Matches(a.message, q2) {
        MatchesMonotone(a.message, q1, q2);
      } else {
        MatchesMonotone(FindDevice(devices, a.device_id).value.name, q1, q2);
      }
    }
  }

  const Blue := "bg-blue-100 text-blue-800"
  const Yellow := "bg-yellow-100 text-yellow-800"
  const Orange := "bg-orange-100 text-orange-800"
  const Red := "bg-red-100 text-red-800"
  const Green := "bg-green-100 text-green-800"
  const Grey := "bg-gray-100 text-gray-800"

  /** `getSeverityBadge`. */
  function SeverityClass(severity: string): (r: string)
    ensures r == Blue <==> severity == "info"
    ensures r == Yellow <==> severity == "warning"
    ensures r == Orange <==> severity == "error"
    ensures r == Red <==> severity == "critical"
    ensures r == Grey <==> severity !in {"info", "warning", "error", "critical"}
  {
    match severity
    case "info" => Blue
    case "warning" => Yellow
    case "error" => Orange
    case "critical" => Red
    case _ => Grey
  }

  /** `getStatusBadge`: "suppressed" and every unknown status share grey. */
  function StatusClass(status: string): (r: string)
    ensures r == Red <==> status == "open"
    ensures r == Yellow <==> status == "acknowledged"
    ensures r == Green <==> status == "resolved"
    ensures r == Grey <==> status !in {"open", "acknowledged", "resolved"}
  {
    match status
    case "open" => Red
    case "acknowledged" => Yellow
    case "resolved" => Green
    case "suppressed" => Grey
    case _ => Grey
  }

  datatype Action = Acknowledge | Resolve

  /** The buttons of a row's action cell (the cell exists only for users who
      may modify). */
  function AlarmActions(status: string, canModify: bool): (r: seq<Action>)
    ensures |r| <= 1
    ensures !canModify ==> r == []
    ensures Acknowledge in r <==> canModify && status == "open"
    ensures Resolve in r <==> canModify && status == "acknowledged"
  {
    if !canModify then []
    else if status == "open" then [Acknowledge]
    else if status == "acknowledged" then [Resolve]
    else []
  }

  /** Resolved and suppressed alarms offer nothing, whoever looks. */
  lemma ClosedAlarmsOfferNothing(status: string, canModify: bool)
    requires status == "resolved" || status == "suppressed"
    ensures AlarmActions(status, canModify) == []
  {
  }

  /** The device cell: its text and whether its link is enabled. */
  datatype DeviceCell = DeviceCell(text: string, enabled: bool)

  function DeviceCellOf(devices: seq<Device>, deviceId: string): (r: DeviceCell)
    ensures r.enabled <==> exists d :: d in devices && d.id == deviceId
    ensures !r.enabled ==> r.text == "Unknown Device"
    ensures r.enabled ==> r.text == (if FindDevice(devices, deviceId).value.name != "" then FindDevice(devices, deviceId).value.name else "Unknown Device")
  {
    match FindDevice(devices, deviceId)
    case None => DeviceCell("Unknown Device", false)
    case Some(d) => DeviceCell(OrDefault(Some(d.name), "Unknown Device"), true)
  }
}
