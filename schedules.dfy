/** The schedule list (pages/Schedules.tsx): search on the effective date,
    the status and scope badges, the plant and device cells and the
    completeness cell. */
module SchedulesPage {
  import opened Common
  import opened Entities
  import PricesPage

  /** `filteredSchedules`. */
  function FilteredSchedules(schedules: seq<Schedule>, query: string): (r: seq<Schedule>)
    ensures IsSubsequence(r, schedules)
    ensures forall s :: s in r <==> s in schedules && Contains(Lower(s.effective_date), Lower(query))
    ensures forall s :: multiset(r)[s] == if Matches(s.effective_date, query) then multiset(schedules)[s] else 0
  {
    Filter(schedules, (s: Schedule) => Matches(s.effective_date, query))
  }

  lemma EmptyQueryListsAllSchedules(schedules: seq<Schedule>)
    ensures FilteredSchedules(schedules, "") == schedules
  {
    forall s | s in schedules ensures Matches(s.effective_date, "") {
      MatchesEmpty(s.effective_date);
    }
    FilterKeepsAll(schedules, (s: Schedule) => Matches(s.effective_date, ""));
  }

  /** Searching a full date lists exactly the schedules of that day when dates
      are written "YYYY-MM-DD" (ten characters). */
  lemma SearchByFullDate(schedules: seq<Schedule>, date: string)
    requires |date| == 10
    requires forall s :: s in schedules ==> |s.effective_date| == 10
    ensures forall s :: s in FilteredSchedules(schedules, date) <==> s in schedules && Lower(s.effective_date) == Lower(date)
  {
    forall s | s in schedules ensures Contains(Lower(s.effective_date), Lower(date)) <==> Lower(s.effective_date) == Lower(date) {
      var a, b := Lower(s.effective_date), Lower(date);
      if Contains(a, b) {
        var i :| 0 <= i <= |a| - |b| && OccursAt(a, b, i);
        assert i == 0;
        assert a[0..|b|] == a;
      } else {
        if a == b {
          ContainsSelf(a);
        }
      }
    }
  }

  const Grey := "bg-gray-100 text-gray-800"
  const Blue := "bg-blue-100 text-blue-800"
  const Green := "bg-green-100 text-green-800"
  const Orange := "bg-orange-100 text-orange-800"
  const Indigo := "bg-indigo-100 text-indigo-800"

  /** `getStatusBadge`: drafts and unknown statuses are grey. */
  function StatusClass(status: string): (r: string)
    ensures r == Blue <==> status == "validated"
    ensures r == Green <==> status == "dispatched"
    ensures r == Grey <==> status !in {"validated", "dispatched"}
  {
    match status
    case "draft" => Grey
    case "validated" => Blue
    case "dispatched" => Green
    case _ => Grey
  }

  /** The scope badge colour: every scope other than "global" and "plant" is
      drawn as a device scope. */
  function ScopeClass(scopeType: string): (r: string)
    ensures r == Orange <==> scopeType == "global"
    ensures r == Green <==> scopeType == "plant"
    ensures r == Indigo <==> scopeType != "global" && scopeType != "plant"
  {
    if scopeType == "global" then Orange else if scopeType == "plant" then Green else Indigo
  }

  /** The scope and status texts: first letter upper-cased, rest unchanged. */
  function BadgeText(s: string): (r: string)
    ensures |r| == |s|
    ensures s != "" ==> r[0] == UpperChar(s[0]) && r[1..] == s[1..]
    ensures forall i :: 0 <= i < |s| && !IsLowerAscii(s[i]) ==> r[i] == s[i]
  {
    Capitalize(s)
  }

  /** `{completeness}/96`: the number of filled quarter-hour slots of the day. */
  function CompletenessCell(completeness: nat): (r: string)
    ensures |r| > 3 && r[|r| - 3..] == "/96"
    ensures DecimalValue(r[..|r| - 3]) == completeness
  {
    DecimalRoundTrip(completeness);
    var digits := NatToString(completeness);
    assert (digits + "/96")[..|digits|] == digits;
    digits + "/96"
  }

  /** One table row: the scope badge, the plant and device cells (as on the
      price list), the timezone, the version with its "Active" badge, the
      status badge and the completeness cell. */
  datatype ScheduleRow = ScheduleRow(scopeClass: string, scopeText: string, plantCell: string,
                                     deviceCell: string, timezone: string, version: int,
                                     activeBadge: bool, statusClass: string, statusText: string,
                                     completeness: string)

  function RowOf(plants: seq<Plant>, devices: seq<Device>, s: Schedule): (r: ScheduleRow)
    ensures r.scopeClass == ScopeClass(s.scope_type) && r.scopeText == BadgeText(s.scope_type)
    ensures !Truthy(s.plant_id) || FindPlant(plants, s.plant_id.value).None? ==> r.plantCell == "-"
    ensures Truthy(s.plant_id) && FindPlant(plants, s.plant_id.value).Some? ==>
              r.plantCell == PricesPage.NameCell(Some(FindPlant(plants, s.plant_id.value).value.name))
    ensures !Truthy(s.device_id) || FindDevice(devices, s.device_id.value).None? ==> r.deviceCell == "-"
    ensures Truthy(s.device_id) && FindDevice(devices, s.device_id.value).Some? ==>
              r.deviceCell == PricesPage.NameCell(Some(FindDevice(devices, s.device_id.value).value.name))
    ensures r.timezone == s.timezone && r.version == s.version
    ensures r.activeBadge <==> s.is_active
    ensures r.statusClass == StatusClass(s.status) && r.statusText == BadgeText(s.status)
    ensures r.completeness == CompletenessCell(s.completeness)
  {
    ScheduleRow(ScopeClass(s.scope_type), BadgeText(s.scope_type),
                PricesPage.PlantCell(plants, s.plant_id), PricesPage.DeviceCell(devices, s.device_id),
                s.timezone, s.version, s.is_active, StatusClass(s.status), BadgeText(s.status),
                CompletenessCell(s.completeness))
  }

  /** The table body: one row per listed schedule, in the list's order. */
  function Rows(schedules: seq<Schedule>, plants: seq<Plant>, devices: seq<Device>, query: string): (r: seq<ScheduleRow>)
    ensures |r| == |FilteredSchedules(schedules, query)|
    ensures forall i :: 0 <= i < |r| ==> r[i] == RowOf(plants, devices, FilteredSchedules(schedules, query)[i])
  {
    var listed := FilteredSchedules(schedules, query);
    seq(|listed|, i requires 0 <= i < |listed| => RowOf(plants, devices, listed[i]))
  }

  /** With an empty search every schedule has its row, and the row shows the
      "Active" badge exactly when that schedule is the active version. */
  lemma EmptySearchRows(schedules: seq<Schedule>, plants: seq<Plant>, devices: seq<Device>)
    ensures |Rows(schedules, plants, devices, "")| == |schedules|
    ensures forall i :: 0 <= i < |schedules| ==>
              (Rows(schedules, plants, devices, "")[i].activeBadge <==> schedules[i].is_active)
  {
    EmptyQueryListsAllSchedules(schedules);
  }
}
