# greenarms-ui: a verified model of the dashboard's rules

The model covers the greenarms-ui operator dashboard, a React single-page
application for solar and battery plants. The dashboard lists plants,
devices, alarms, prices, schedules, dispatch logs and audit logs. It lets an
operator sign in and register, and it creates or edits devices and sites
through a backend API.

Its logic is a set of small rules written inline in the components. This
project restates each rule as Dafny functions, classes and methods, and
proves what the rule promises.

The rules covered:
- the case-insensitive search filters of every list page
- the first-match-by-id lookups (ids are not unique in the data)
- counts and roll-ups per plant and per master device
- the liveness window and the decision badge
- the power-flow captions and diagram
- the label and class tables
- the sign-in and registration validators
- the application context's session state
- the route guards and the route table
- the expandable sidebar sections and active-item highlighting
- the token store, bearer attachment and failure messages of the API layer
- the create/edit dialogs' form state and submit branching

**How the code is laid out**
- One module per source file.
- `Common` holds the JavaScript building blocks:
  - truthiness of nullable values, and `x || fallback`
  - ASCII case mapping, and `includes` as substring occurrence
  - order-preserving `filter` with its multiset count
  - `find` as a first match
  - sorting by a key in descending order, and taking a prefix
  - decimal rendering of a count
- `Entities` holds the records of `data/mockData.ts` and the lookups.

Pure expressions are functions whose contracts state what the result means.
State that the source updates in place is a class whose methods are proved
against those functions:
- the context's session
- the sidebar's expanded list and the chart legend's visibility map
- `localStorage` and the request headers
- the login, register and e-mail forms
- the two dialogs

Timestamps are integer milliseconds, and the clock (`now`) is a parameter.
Power values are `real`. Every API call's outcome is a parameter.

## Model

| member | source | states |
|---|---|---|
| Entities.FindDevice | src/app/pages/DeviceDetail.tsx:18 | The lookup is empty exactly when no device carries the id; otherwise it returns a listed device with that id. |
| Entities.FindPlant | src/app/pages/Fleet.tsx:31 | The lookup is empty exactly when no plant carries the id; otherwise it returns a listed plant with that id. |
| Entities.FindDeviceFirst | src/app/pages/Devices.tsx:54 | When ids repeat, the lookup returns the earliest device carrying the id. |
| Entities.FindPlantFirst | src/app/components/PlantSidebar.tsx:30 | When ids repeat, the lookup returns the earliest plant carrying the id. |
| Entities.DevicesOfPlant | src/app/pages/Plants.tsx:22 | The result holds exactly the devices of the plant, as an order-preserving sub-list. Each of them occurs as often as in the input, and no other device occurs. |
| Entities.SlavesOf | src/app/pages/DeviceDetail.tsx:40 | The result holds exactly the devices naming the id as their master, whatever their own role, in order. Each occurs as often as in the input. |
| Entities.TotalPowerAppend | src/app/pages/Fleet.tsx:12 | The power sum of two concatenated lists is the sum of their sums. |
| Entities.TotalPowerNullsAreZero | src/app/pages/Fleet.tsx:12 | Devices with a null power contribute nothing to a total. |
| Entities.TotalPowerSubsequence | src/app/pages/Fleet.tsx:12 | With non-negative powers, the total of a sub-list never exceeds the total of the list. |
| Entities.TotalPowerNonNegative | src/app/pages/Fleet.tsx:12 | With non-negative powers, a total is non-negative. |
| Entities.TotalPowerBounds | src/app/pages/Fleet.tsx:10-12 | With non-negative powers, a sub-list's total lies between 0 and the whole list's total. |
| DevicesPage.FilteredDevices | src/app/pages/Devices.tsx:34-47 | The result is an order-preserving sub-list. A device is in it iff its lower-cased name or serial contains the lower-cased query and each drop-down is "all" or equal to the device's field. Kept devices keep their multiplicity. |
| DevicesPage.NoFilterKeepsAll | src/app/pages/Devices.tsx:36-46 | An empty query with every drop-down on "all" lists every device, in order. |
| DevicesPage.FilteredDevicesMonotone | src/app/pages/Devices.tsx:38-40 | Extending the query never brings a device back. |
| DevicesPage.RoleText | src/app/pages/Devices.tsx:49-58 | A master reads "Master (n slaves)", where n counts the devices naming it. A slave with a truthy master id reads "Slave of" and the name of the first device with that id, or "Unknown" when there is none or its name is empty. Everything else is "Standalone". |
| DevicesPage.MasterCaptionCount | src/app/pages/Devices.tsx:50-52 | The decimal number in a master's caption equals the number of devices naming it as their master. |
| DevicesPage.SlaveCaptionFirstMaster | src/app/pages/Devices.tsx:53-55 | A slave's caption names the first device carrying its master's id, even when later devices share that id. |
| DevicesPage.SlaveCaptionUnknown | src/app/pages/Devices.tsx:53-55 | A slave whose master id matches no device reads "Slave of Unknown". |
| DevicesPage.SlaveWithoutMasterIsStandalone | src/app/pages/Devices.tsx:53-57 | A slave with a null master id reads "Standalone". |
| DevicesPage.InitialPlantFilter | src/app/pages/Devices.tsx:25 | The plant filter starts at the plantId prop when it is truthy, otherwise at "all". |
| DevicesPage.SyncPlantFilter | src/app/pages/Devices.tsx:30-32 | When a plantId prop is given, the rendered filter equals it; otherwise the current filter stays. |
| DevicesPage.SyncPlantFilterSettles | src/app/pages/Devices.tsx:30-32 | After one sync the sync condition is false, so the state write cannot repeat. |
| DevicesPage.PlantPageListsOnlyItsDevices | src/app/pages/Devices.tsx:30-46 | On a plant's page, every listed device belongs to that plant. |
| DeviceDetailPage.MasterOf | src/app/pages/DeviceDetail.tsx:37-39 | The master is absent for a falsy master id; otherwise it is the first device with that id. |
| DeviceDetailPage.DeviceLogs | src/app/pages/DeviceDetail.tsx:41-44 | The result holds all of this device's logs when there are at most 10, and exactly 10 when there are more. All are of this device, newest first. It is a sub-multiset of the device's logs. |
| DeviceDetailPage.DeviceLogsAreTheNewest | src/app/pages/DeviceDetail.tsx:41-44 | The page keeps the smaller of 10 and the device's log count. The kept logs and the dropped ones together are exactly the device's logs. No dropped log is newer than a kept one. |
| DeviceDetailPage.DetailView | src/app/pages/DeviceDetail.tsx:18-265 | The not-found view appears exactly when no device has the route id. Otherwise the view holds the first such device, its master, its logs and its slaves. The slave list is `SlavesOf` for the route id, in the devices' order with multiplicities. "Slave of X" shows iff the role is slave and a master was found. "n slave devices" shows iff the role is master and n > 0. The inherited-decision notice shows iff the role is slave. |
| DeviceDetailPage.DetailShowsFirstMatch | src/app/pages/DeviceDetail.tsx:18 | The device shown is the earliest one carrying the route id. |
| DeviceDetailPage.StandaloneHasNoRoleCaptions | src/app/pages/DeviceDetail.tsx:62-67 | A standalone device gets neither role caption nor the inherited notice. |
| PlantsPage.FilteredPlants | src/app/pages/Plants.tsx:17-19 | The result is an order-preserving sub-list of the plants whose lower-cased name contains the lower-cased query. Each kept plant occurs as often as in the input. |
| PlantsPage.EmptySearchListsAllPlants | src/app/pages/Plants.tsx:17-19 | An empty search lists every plant. |
| PlantsPage.PlantDeviceCount | src/app/pages/Plants.tsx:21-27 | The total is the plant's device count, and each role count is the number of the plant's devices with that role. Each role count is positive iff the plant has such a device. The three sum to at most the total, and exactly to it when every role is one of the three. |
| PlantsPage.PlantStatus | src/app/pages/Plants.tsx:29-43 | Exactly one label applies. "No Devices" iff the plant has none; "Healthy" iff every device is online; "Degraded" iff some but not all are; "Offline" iff none are. Online means active and last seen strictly within the last 30 minutes. |
| PlantsPage.InactiveDeviceSpoilsHealth | src/app/pages/Plants.tsx:33-40 | A plant with an inactive device is never "Healthy". |
| PlantsPage.HealthyEarlier | src/app/pages/Plants.tsx:33-40 | A plant healthy at `now` is healthy at every earlier clock reading. |
| PlantsPage.DecisionCounts | src/app/pages/Plants.tsx:47-49 | Each count is the number of devices in the list with that effective status. Each is positive iff some device has that status, and the three sum to at most the list's length. |
| PlantsPage.PlantDecisions | src/app/pages/Plants.tsx:45-51 | Each count is the number of the plant's devices with that effective status. Each is positive iff the plant has such a device. Because null and UNKNOWN are not counted, the sum is at most the plant's device count. |
| FleetPage.BreakdownOf | src/app/pages/Fleet.tsx:10-24 | The row's device count is the plant's device count. Active is the number of the plant's active devices: at most that count, equal to it iff all are active, and positive iff one is. The power total is the sum over the plant's devices. With non-negative powers it lies between 0 and the fleet's total. The decision counts are the plant's. |
| FleetPage.PlantBreakdowns | src/app/pages/Fleet.tsx:9-25 | There is one row per plant, in plant order. |
| FleetPage.CountsSumToPlantDevices | src/app/pages/Fleet.tsx:9-20 | Over plants with distinct ids, the rows' device counts add up to the number of devices of those plants. |
| FleetPage.FleetCountsEveryDeviceOnce | src/app/pages/Fleet.tsx:9-20 | When every device belongs to one of the distinct plants, the rows count every device exactly once. |
| FleetPage.GroupOf | src/app/pages/Fleet.tsx:31-40 | The group's plant is the first listed plant with the master's plant id (`find`), absent iff there is none. The slave count is the number of devices naming the master, regardless of their role or plant. The total power is the master's power plus its slaves' powers. |
| FleetPage.DeviceGroups | src/app/pages/Fleet.tsx:28-41 | There is exactly one group per master device, in input order. |
| HealthBadgeView.HealthStatus | src/app/components/HealthBadge.tsx:12-30 | The result is exactly one of three states. Inactive iff the status is "inactive". Online iff not inactive, seen, and less than 30 minutes old. Offline otherwise, including a device never seen. |
| HealthBadgeView.LabelsDistinct | src/app/components/HealthBadge.tsx:13-29 | The three labels differ, so the label determines the state. |
| HealthBadgeView.AgreesWithPlantRule | src/app/components/HealthBadge.tsx:21-26 | For an "active" or "inactive" device, the badge says Online iff the plant status rule of Plants.tsx counts the device as online at the same `now`. |
| HealthBadgeView.OtherStatusDisagrees | src/app/components/HealthBadge.tsx:13-26 | For any other status string, the badge can say Online where the plant rule does not. |
| HealthBadgeView.OnlineEarlier | src/app/components/HealthBadge.tsx:23-26 | A device online at `now` is online at every earlier clock reading. |
| HealthBadgeView.TooltipOf | src/app/components/HealthBadge.tsx:34-36 | The tooltip is "Never seen" iff the device was never seen; otherwise it carries the last-seen time. |
| StatusBadgeView.DisplayedStatus | src/app/components/StatusBadge.tsx:12 | The displayed status is the effective status when it is truthy, otherwise the decision. |
| StatusBadgeView.StatusText | src/app/components/StatusBadge.tsx:29-32 | The text is never empty: "UNKNOWN" for a null or empty status, otherwise the status itself. |
| StatusBadgeView.StatusStyle | src/app/components/StatusBadge.tsx:14-27 | CHARGING, DISCHARGING and UNKNOWN each have their own class. NEUTRAL, null and every other value share grey. |
| StatusBadgeView.NullShowsUnknownInGrey | src/app/components/StatusBadge.tsx:14-32 | A null status reads "UNKNOWN" like the UNKNOWN decision, but keeps grey instead of yellow. |
| StatusBadgeView.EffectiveStatusWins | src/app/components/StatusBadge.tsx:12 | With a truthy effective status, the device's own decision (even null) does not matter, and the text is the effective status. |
| SystemTopologyView.TopologyOf | src/app/components/SystemTopology.tsx:22-120 | Solar animates iff solar > 0, and home iff consumption > 0. The battery flow is still iff its power is 0, moving left iff charging (< 0), right iff > 0. The grid flow is still iff 0, moving right iff exporting (< 0), left iff > 0. The caption is "Exporting" iff grid < 0, else "Importing". The icon is green iff SOC > 20. |
| SystemTopologyView.SameDirection | src/app/components/SystemTopology.tsx:90-107 | With both flows non-zero, the battery and grid flows point the same way exactly when the battery charges while the grid imports, or discharges while it exports. |
| PlantDetailPage.RecentPrices | src/app/pages/PlantDetail.tsx:191-194 | The result holds all of the plant's own prices when there are at most five, and exactly five when there are more, latest first. It is a sub-multiset of those prices. |
| PlantDetailPage.RecentPricesAreThePlantsNewest | src/app/pages/PlantDetail.tsx:191-194 | Country-wide prices never appear on the page. The page keeps the smaller of five and the plant's price count. No dropped price is later than a shown one. |
| PlantDetailPage.Toggle | src/app/pages/PlantDetail.tsx:102-108 | A click flips the clicked series' visibility, gives it a key, and leaves every other entry as it was. |
| PlantDetailPage.ToggleTwice | src/app/pages/PlantDetail.tsx:102-108 | Two clicks on a series that is in the map restore the map. |
| PlantDetailPage.ToggleTwiceAbsent | src/app/pages/PlantDetail.tsx:102-108 | Two clicks on a key that was never in the map leave it stored as false. |
| PlantDetailPage.Legend.constructor | src/app/pages/PlantDetail.tsx:71-78 | The map holds the six series, all visible. |
| PlantDetailPage.Legend.LegendClick | src/app/pages/PlantDetail.tsx:102-108 | The method updates the map as the toggle does: only the clicked series changes visibility. |
| PlantDetailPage.ChartPoint | src/app/pages/PlantDetail.tsx:197-203 | Consumption, export and charge are negated; time, solar, discharge and import are unchanged. |
| PlantDetailPage.ChartData | src/app/pages/PlantDetail.tsx:197-203 | The chart has one transformed point per sample, in order. |
| PlantDetailPage.ChartDataInvolution | src/app/pages/PlantDetail.tsx:197-203 | Applying the transform twice gives back the samples. |
| PlantDetailPage.ChartLoadsBelowAxis | src/app/pages/PlantDetail.tsx:197-203 | With non-negative loads, the transformed consumption, charge and export are at most 0. |
| PlantDetailPage.BatteryLabel | src/app/pages/PlantDetail.tsx:304 | "Discharging" iff net > 0, "Charging" iff net < 0, "Idle" iff net = 0. |
| PlantDetailPage.GridLabel | src/app/pages/PlantDetail.tsx:317 | "Exporting" iff net < 0, "Importing" iff net > 0, "Islanded" iff net = 0. |
| PlantDetailPage.ChargingSample | src/app/pages/PlantDetail.tsx:181 | A sample that only charges the battery is captioned "Charging". |
| PlantDetailPage.CaptionsAgreeWithTopology | src/app/pages/PlantDetail.tsx:557-561 | For non-zero battery and grid flows, the page's captions and the diagram it feeds agree on the directions. |
| PlantDetailPage.ZeroGridCaptionsDiffer | src/app/pages/PlantDetail.tsx:317 | With zero grid flow, the page says "Islanded" while the diagram beside it says "Importing". |
| AlarmsPage.FilteredAlarms | src/app/pages/Alarms.tsx:18-26 | The result is an order-preserving sub-list. An alarm is in it iff its code or message, or the name of the first device with its id, contains the query case-insensitively. Each kept alarm occurs as often as in the input. |
| AlarmsPage.EmptyQueryListsAllAlarms | src/app/pages/Alarms.tsx:18-26 | An empty query lists every alarm. |
| AlarmsPage.OrphanAlarm | src/app/pages/Alarms.tsx:22-24 | An alarm with no matching device is kept exactly when its code or message matches. |
| AlarmsPage.FilteredAlarmsMonotone | src/app/pages/Alarms.tsx:18-26 | Extending the query never brings an alarm back. |
| AlarmsPage.SeverityClass | src/app/pages/Alarms.tsx:28-36 | info, warning, error and critical each get their own class, and every other severity falls back to grey. |
| AlarmsPage.StatusClass | src/app/pages/Alarms.tsx:38-46 | open, acknowledged and resolved each get their own class; suppressed and unknown statuses fall back to grey. |
| AlarmsPage.AlarmActions | src/app/pages/Alarms.tsx:153-170 | Nothing is offered without `canModify`. Acknowledge is offered iff the alarm is open, and Resolve iff it is acknowledged; at most one button. |
| AlarmsPage.ClosedAlarmsOfferNothing | src/app/pages/Alarms.tsx:156-167 | Resolved and suppressed alarms offer no action. |
| AlarmsPage.DeviceCellOf | src/app/pages/Alarms.tsx:114-126 | The link is enabled iff a device has the id. A missing device, or one with an empty name, reads "Unknown Device". |
| PricesPage.PlantOf | src/app/pages/Prices.tsx:19 | The plant is looked up only for a truthy plant id; it is the first match. |
| PricesPage.DeviceOf | src/app/pages/Prices.tsx:20 | The device is looked up only for a truthy device id; it is the first match. |
| PricesPage.FilteredPrices | src/app/pages/Prices.tsx:17-27 | The result is an order-preserving sub-list. A price is in it iff its scope, its plant's name or its device's name contains the query case-insensitively. Each kept price occurs as often as in the input. |
| PricesPage.EmptyQueryListsAllPrices | src/app/pages/Prices.tsx:17-27 | An empty query lists every price, because every scope contains "". |
| PricesPage.GlobalPriceByScopeOnly | src/app/pages/Prices.tsx:17-27 | A price with neither plant nor device is found through its scope alone. |
| PricesPage.NameCell | src/app/pages/Prices.tsx:108 | The cell is never empty: the name when truthy, otherwise "-". |
| PricesPage.PlantCell | src/app/pages/Prices.tsx:108 | The cell reads "-" for a null plant id and for an id no plant carries. Otherwise it is the first such plant's name, or "-" when that name is empty. |
| PricesPage.DeviceCell | src/app/pages/Prices.tsx:112 | The cell reads "-" for a null device id and for an id no device carries. Otherwise it is the first such device's name, or "-" when that name is empty. |
| PricesPage.SourceLabel | src/app/pages/Prices.tsx:128-135 | manual, schedule_generator and api_import get their own labels, and every other source reads "CSV Import". |
| PricesPage.StatusBadge | src/app/pages/Prices.tsx:118-124 | The badge is green iff the status is "dispatched". The text is the status with its first letter upper-cased. |
| SchedulesPage.FilteredSchedules | src/app/pages/Schedules.tsx:16-19 | The result is an order-preserving sub-list of the schedules whose lower-cased date contains the lower-cased query. Each kept schedule occurs as often as in the input. |
| SchedulesPage.EmptyQueryListsAllSchedules | src/app/pages/Schedules.tsx:16-19 | An empty query lists every schedule. |
| SchedulesPage.SearchByFullDate | src/app/pages/Schedules.tsx:16-19 | A full ten-character date finds exactly the schedules of that date. |
| SchedulesPage.StatusClass | src/app/pages/Schedules.tsx:21-28 | validated and dispatched get their own classes; draft and every other status are grey. |
| SchedulesPage.ScopeClass | src/app/pages/Schedules.tsx:117-123 | global and plant get their own classes, and every other scope is indigo. |
| SchedulesPage.BadgeText | src/app/pages/Schedules.tsx:125 | The label is the text with its first character upper-cased; nothing else changes. |
| SchedulesPage.CompletenessCell | src/app/pages/Schedules.tsx:143 | The cell ends in "/96", and the part before it reads back as the completeness. |
| SchedulesPage.RowOf | src/app/pages/Schedules.tsx:106-144 | A row holds the scope class and label, and the plant and device cells: "-" for a null or unknown id, otherwise the found name (or "-" when it is empty). It also holds the timezone, the version, the "Active" badge iff the schedule is active, the status class and label, and the completeness cell. |
| SchedulesPage.Rows | src/app/pages/Schedules.tsx:92-157 | The table has one row per listed schedule, in the list's order, each that schedule's row. |
| SchedulesPage.EmptySearchRows | src/app/pages/Schedules.tsx:106-135 | With an empty search every schedule has a row, and position i shows the "Active" badge iff schedule i is active. |
| DispatchLogsPage.FilteredLogs | src/app/pages/DispatchLogs.tsx:13-22 | The result is an order-preserving sub-list. A log is in it iff its device's or its plant's name contains the query case-insensitively. Each kept log occurs as often as in the input. |
| DispatchLogsPage.OrphanLogNeverListed | src/app/pages/DispatchLogs.tsx:18-21 | A log whose device and plant are both missing is never listed, whatever the query. |
| DispatchLogsPage.EmptyQueryListsKnownLogs | src/app/pages/DispatchLogs.tsx:13-22 | An empty query lists exactly the logs with a known device or plant. |
| DispatchLogsPage.PriceCellOf | src/app/pages/DispatchLogs.tsx:95 | A null price shows "-"; otherwise the cell carries the price. |
| DispatchLogsPage.AcknowledgedText | src/app/pages/DispatchLogs.tsx:116 | The cell reads "Yes" iff acknowledged, and "No" iff not. |
| DispatchLogsPage.ErrorCell | src/app/pages/DispatchLogs.tsx:119 | The cell is never empty: the error when truthy, otherwise "-". |
| DispatchLogsPage.RowOf | src/app/pages/DispatchLogs.tsx:84-119 | A row shows the plant's and the device's name iff each is found, and a blank cell otherwise. It holds the price cell and the result badge: green iff the result is "success", with the result capitalised. The acknowledged badge is green iff acknowledged, reading "Yes" or "No". Error is the error cell. |
| DispatchLogsPage.Rows | src/app/pages/DispatchLogs.tsx:72-123 | The table has one row per listed log, in the list's order, each that log's row. |
| DispatchLogsPage.ListedRowShowsMatch | src/app/pages/DispatchLogs.tsx:13-93 | Every listed row shows a device or plant name that contains the search text, ignoring case. |
| AuditLogsPage.FilteredAuditLogs | src/app/pages/AuditLogs.tsx:13-20 | The result is an order-preserving sub-list, with multiplicities kept. A log is in it iff its user, action or description contains the query case-insensitively. |
| AuditLogsPage.EmptyQueryListsAllAuditLogs | src/app/pages/AuditLogs.tsx:14-19 | An empty query lists every log. |
| AuditLogsPage.FilteredAuditLogsMonotone | src/app/pages/AuditLogs.tsx:13-20 | When q1 occurs in q2, the result for q2 is within the result for q1. |
| AuditLogsPage.SearchIgnoresCase | src/app/pages/AuditLogs.tsx:14-18 | A query and its lower-cased form find the same list. |
| RegisterPageForm.Classes | src/app/pages/auth/RegisterPage.tsx:28-31 | Each of the four character-class tests holds iff some character of the password is in that class. |
| RegisterPageForm.ValidatePassword | src/app/pages/auth/RegisterPage.tsx:27-34 | A password passes iff it has an A-Z, an a-z, a 0-9 and one of the listed specials, and a length of at least 8 in UTF-16 units, as `.length` counts. |
| RegisterPageForm.AstralCharactersCountTwice | src/app/pages/auth/RegisterPage.tsx:33 | Six characters, two of them outside the Basic Multilingual Plane, are long enough. |
| RegisterPageForm.SevenAsciiRefused | src/app/pages/auth/RegisterPage.tsx:33 | Seven ASCII characters are too short, whatever they are. |
| RegisterPageForm.StrongPasswordAccepted | src/app/pages/auth/RegisterPage.tsx:27-34 | A concrete password with all four classes and 11 characters passes. |
| RegisterPageForm.NoSpecialRefused | src/app/pages/auth/RegisterPage.tsx:31-33 | A password without a special character is refused, whatever else it has. |
| RegisterPageForm.RegisterErrors | src/app/pages/auth/RegisterPage.tsx:36-50 | Each of the three fields has an error iff it is empty, with its message. The password has an error iff it fails the rule: "required" when empty, the rule message otherwise. No other key appears. |
| RegisterPageForm.AcceptedIffComplete | src/app/pages/auth/RegisterPage.tsx:36-53 | The error map is empty iff the three fields are non-empty and the password passes the rule. |
| RegisterPageForm.EmptyFormErrors | src/app/pages/auth/RegisterPage.tsx:36-50 | The empty form gets the four "required" messages. |
| RegisterPageForm.RegisterForm.constructor | src/app/pages/auth/RegisterPage.tsx:18-25 | The form starts empty, with the password hidden and no errors. |
| RegisterPageForm.RegisterForm.Validate | src/app/pages/auth/RegisterPage.tsx:36-54 | The stored errors are the error map of the form, and the result is true iff the map is empty. |
| RegisterPageForm.RegisterForm.HandleSubmit | src/app/pages/auth/RegisterPage.tsx:56-63 | A valid form shows "Account created successfully" and signs the context in. An invalid one shows no toast and leaves the session unchanged. The stored errors are the form's error map. The form data and the password visibility stay as they were. |
| LoginPageForm.LoginErrors | src/app/pages/auth/LoginPage.tsx:22-25 | The username has an error iff it is empty, and the password likewise, each with its message; no other key appears. |
| LoginPageForm.LoginAcceptedIffFilled | src/app/pages/auth/LoginPage.tsx:22-28 | Validation passes iff both fields are non-empty. |
| LoginPageForm.SubmitToast | src/app/pages/auth/LoginPage.tsx:46-51 | Success shows "Logged in successfully". A failure shows its message, or the fallback when the message is empty. |
| LoginPageForm.FallbackNeverShown | src/app/pages/auth/LoginPage.tsx:51 | Every message the login call can reject with is shown as is, so the fallback never appears. |
| LoginPageForm.LoginForm.constructor | src/app/pages/auth/LoginPage.tsx:15-20 | The form starts empty, not loading, with no errors. |
| LoginPageForm.LoginForm.Validate | src/app/pages/auth/LoginPage.tsx:22-28 | The stored errors are the error map of the fields, and the result is true iff it is empty. The fields, the password visibility, "remember me" and the loading flag stay as they were. |
| LoginPageForm.LoginForm.HandleSubmit | src/app/pages/auth/LoginPage.tsx:30-56 | The login call and the storage change happen only after validation passes. On success the context signs in; on failure the session is unchanged and the error toast shows. Loading is false after any submit that passed validation. The fields, the password visibility and "remember me" never change. |
| EmailRegisterPageForm.JoinAddress | src/app/pages/auth/EmailRegisterPage.tsx:23 | A valid local part and a valid domain joined by "@" form an address. |
| EmailRegisterPageForm.ValidateEmail | src/app/pages/auth/EmailRegisterPage.tsx:19-25 | The lower-cased input is a local part (dotted atoms or a quoted string), "@", and an IPv4 literal or dot-separated labels ending in two or more letters. Atoms exclude every ECMAScript white-space character. |
| EmailRegisterPageForm.PlainAddressAccepted | src/app/pages/auth/EmailRegisterPage.tsx:19-25 | "user@example.com" passes the address check. |
| EmailRegisterPageForm.NoAtRefused | src/app/pages/auth/EmailRegisterPage.tsx:19-25 | An input without "@" is refused. |
| EmailRegisterPageForm.NoDotRefused | src/app/pages/auth/EmailRegisterPage.tsx:19-25 | An input without any dot is refused, since every domain form holds one. |
| EmailRegisterPageForm.ErrorAfterSubmit | src/app/pages/auth/EmailRegisterPage.tsx:30-40 | An empty address leaves "Email is required". An invalid one leaves the invalid-address message. A valid one leaves the error cleared. |
| EmailRegisterPageForm.SubmitEffectAsWritten | src/app/pages/auth/EmailRegisterPage.tsx:43-54 | As written, no submit ever stores the address or navigates. An empty or invalid address does nothing at all. |
| EmailRegisterPageForm.SubmitEffect | src/app/pages/auth/EmailRegisterPage.tsx:43-54 | Corrected: a valid address with a sent one-time password stores the address and goes to "/verify-email". A failed send shows its message. An empty or invalid address does nothing. |
| EmailRegisterPageForm.SuccessfulOtpNeverNavigates | src/app/pages/auth/EmailRegisterPage.tsx:45-49 | For a valid address and a successful send, the page as written shows an error and stays; the corrected page moves on. |
| EmailRegisterPageForm.AgreeUnlessSent | src/app/pages/auth/EmailRegisterPage.tsx:30-54 | The as-written and corrected submits agree on every input except a successful send. |
| EmailRegisterPageForm.EmailRegisterForm.constructor | src/app/pages/auth/EmailRegisterPage.tsx:15-17 | The form starts with an empty address, no error, not loading. |
| EmailRegisterPageForm.EmailRegisterForm.HandleSubmitAsWritten | src/app/pages/auth/EmailRegisterPage.tsx:27-55 | The effect is the as-written submit's, and the error left is the one for the address. An empty or invalid address leaves loading as it was; a valid one ends with loading off. |
| EmailRegisterPageForm.EmailRegisterForm.HandleSubmit | src/app/pages/auth/EmailRegisterPage.tsx:27-55 | The same steps with the address handed on; the effect is the corrected submit's. |
| SidebarView.Toggled | src/app/components/Sidebar.tsx:68-74 | The id is present afterwards iff it was absent. Other ids keep their membership and their order. An absent id is appended at the end. A duplicate-free list stays duplicate-free. |
| SidebarView.ToggleTwice | src/app/components/Sidebar.tsx:68-74 | Toggling twice restores every id's membership. For a closed section it restores the list exactly. |
| SidebarView.ActiveIff | src/app/components/Sidebar.tsx:78 | An item is active iff its path is a prefix of the current path that ends there or is followed by "/". |
| SidebarView.LongerNameNotActive | src/app/components/Sidebar.tsx:78 | A path that extends the item's path without a slash does not activate it. |
| SidebarView.PlantsXNotActive | src/app/components/Sidebar.tsx:78 | "/plantsX" does not activate "/plants", while "/plants/p1" does. |
| SidebarView.ActiveExclusive | src/app/components/Sidebar.tsx:78 | Two item paths neither of which lies below the other are never active together. |
| SidebarView.RenderNavItem | src/app/components/Sidebar.tsx:76-128 | An item with children renders as a header iff the sidebar is open. Its chevron turns, and its children show, iff it is expanded. Each shown child is that child rendered as a child. A link carries the item's path and the active test; it has a caption when open, a title when collapsed, and an indent iff it is an open child. |
| SidebarView.MonitoringSection | src/app/components/Sidebar.tsx:31-50 | The monitoring entry is a header iff the sidebar is open, and shows its three pages iff expanded. Collapsed, it is a link to "/monitoring". |
| SidebarView.MonitoringChildren | src/app/components/Sidebar.tsx:31-128 | In the open, expanded monitoring section each page is an indented link with its caption and its path, active by the prefix rule. |
| SidebarView.SidebarState.constructor | src/app/components/Sidebar.tsx:61 | Every section starts closed. |
| SidebarView.SidebarState.ToggleSection | src/app/components/Sidebar.tsx:68-74 | The method stores the toggled list, keeps it duplicate-free, and changes nothing else. |
| SidebarView.SidebarState.NavClick | src/app/components/Sidebar.tsx:63-66 | A click moves to the path and closes the mobile drawer; the sections stay. |
| PlantSidebarView.BeforeMark | src/app/components/PlantSidebar.tsx:135 | The text before the first "?" holds no "?", and it is a prefix followed by "?" or the end. |
| PlantSidebarView.QueryPart | src/app/components/PlantSidebar.tsx:135 | The part after "?" is undefined iff the path holds no "?", and it never holds one itself. |
| PlantSidebarView.TabPathParts | src/app/components/PlantSidebar.tsx:34-47 | A tab path splits into the plant page and the tab. |
| PlantSidebarView.LocationOf | src/app/components/PlantSidebar.tsx:49-52 | A navigation lands on a well-formed location whose path and query string together are the target. |
| PlantSidebarView.PlantNavItems | src/app/components/PlantSidebar.tsx:34-47 | There are four items, and the first is the plant's page. |
| PlantSidebarView.TabItemActive | src/app/components/PlantSidebar.tsx:135 | A tab item is active iff the query string contains its tab. |
| PlantSidebarView.ItemActive | src/app/components/PlantSidebar.tsx:135 | An item is active iff the path is the current one or the query string contains the text after "?" ("xyz" when there is none or it is empty). |
| PlantSidebarView.DashboardActiveOnEveryTab | src/app/components/PlantSidebar.tsx:135 | The dashboard item is active on every tab of the plant. |
| PlantSidebarView.ClickActivatesTab | src/app/components/PlantSidebar.tsx:49-52 | Clicking a tab item lands on a location where that item is active. |
| PlantSidebarView.ChildNeverHighlightedAsWritten | src/app/components/PlantSidebar.tsx:167 | As written, no child whose path has a non-empty query part is ever highlighted. |
| PlantSidebarView.ChildHighlightedAsWritten | src/app/components/PlantSidebar.tsx:167 | As written: the query string equals the text after "?" in the child's path. |
| PlantSidebarView.ChildHighlighted | src/app/components/PlantSidebar.tsx:167 | Corrected: the query string equals "?" followed by that text. |
| PlantSidebarView.PlantInfoClick | src/app/components/PlantSidebar.tsx:167 | After clicking "Plant Info" the query string is "?tab=info". The corrected rule highlights the child; the rule as written does not. |
| PlantSidebarView.TabChildClick | src/app/components/PlantSidebar.tsx:167 | For any tab child "<plant path>?<query>", the search after the click is "?" followed by the query. The corrected rule highlights that child; the rule as written does not. |
| PlantSidebarView.ChildView | src/app/components/PlantSidebar.tsx:159-167 | The corrected rule, not used by the rendering: a child is highlighted iff the query string is "?" followed by the child's query part. |
| PlantSidebarView.RenderItem | src/app/components/PlantSidebar.tsx:134-170 | An item with children is a section iff the sidebar is open, turned and showing its children iff expanded. Each shown child carries its id and the highlight test as written at line 167. A link carries the path, the active test of line 135, and a caption iff open. |
| PlantSidebarView.RenderPlantSidebar | src/app/components/PlantSidebar.tsx:30-123 | Nothing renders iff there is no route id or no plant has it. Otherwise the first such plant is shown, with the card only while open and the four items rendered in order. Children are highlighted by the comparison as written. The card's caption is always "Maintenance", because plant records have no status field. |
| PlantSidebarView.AboutSection | src/app/components/PlantSidebar.tsx:140-161 | While open, the about entry is a section that shows its one child iff it is expanded. |
| PlantSidebarView.PlantInfoNeverHighlighted | src/app/components/PlantSidebar.tsx:30-170 | As rendered, the expanded "Plant Info" child is never highlighted, on any location the router produces. |
| PlantSidebarView.PlantSidebarState.constructor | src/app/components/PlantSidebar.tsx:28 | Every section starts closed. |
| PlantSidebarView.PlantSidebarState.ToggleSection | src/app/components/PlantSidebar.tsx:54-60 | The update is the main sidebar's toggle; the list stays duplicate-free and nothing else changes. |
| PlantSidebarView.PlantSidebarState.NavClick | src/app/components/PlantSidebar.tsx:49-52 | A click both navigates and closes the mobile drawer. |
| AppState.SignIn | src/app/context/AppContext.tsx:34-37 | Signing in sets authenticated and the "dashboard" page, and leaves the sidebar. |
| AppState.SignOut | src/app/context/AppContext.tsx:39-42 | Signing out clears authenticated and sets the "login" page, and leaves the sidebar. |
| AppState.Navigate | src/app/context/AppContext.tsx:44-46 | Navigating changes only the page. |
| AppState.Toggle | src/app/context/AppContext.tsx:48-50 | Toggling flips only the collapsed flag. |
| AppState.ToggleTwice | src/app/context/AppContext.tsx:48-50 | Toggling twice is the identity. |
| AppState.SignInThenOut | src/app/context/AppContext.tsx:23-42 | Signing in then out restores the initial authentication and page. |
| AppState.AuthenticatedByLastEvent | src/app/context/AppContext.tsx:34-50 | After any sequence of events, authentication is decided by the last sign-in or sign-out, and is the start value when there is none. |
| AppState.AppContext.constructor | src/app/context/AppContext.tsx:23-32 | The context starts signed out on "login" with the sidebar open, for the fixed administrator. |
| AppState.AppContext.Login | src/app/context/AppContext.tsx:34-37 | The method moves the state as signing in does. |
| AppState.AppContext.Logout | src/app/context/AppContext.tsx:39-42 | The method moves the state as signing out does. |
| AppState.AppContext.NavigateTo | src/app/context/AppContext.tsx:44-46 | The method moves the state as navigating does. |
| AppState.AppContext.ToggleSidebar | src/app/context/AppContext.tsx:48-50 | The method moves the state as toggling does. |
| AppRoutes.ProtectedRoute | src/app/App.tsx:21-29 | The children render iff the user is authenticated; otherwise the guard redirects to "/login". |
| AppRoutes.AuthRoute | src/app/App.tsx:32-40 | The children render iff the user is not authenticated; otherwise the guard redirects to "/dashboard". |
| AppRoutes.ExactlyOneGuardRenders | src/app/App.tsx:21-40 | For any authentication state, exactly one of the two guards renders its children. |
| AppRoutes.GuardsOfTheTable | src/app/App.tsx:46-161 | Exactly /login and /register sit behind the sign-in guard, and they are the only routes to the two auth pages. |
| AppRoutes.Resolve | src/app/App.tsx:42-164 | There is no element iff no route matches. Otherwise the element is a matching route's page under its guard. |
| AppRoutes.SignedOutSeesOnlyAuthPages | src/app/App.tsx:46-161 | A signed-out visitor sees only the sign-in and registration pages; every other matched path redirects to "/login". |
| AppRoutes.SignedInNeverSeesAuthPages | src/app/App.tsx:46-161 | A signed-in user never sees the two auth pages; those paths redirect to "/dashboard". |
| AppRoutes.PlantPageRoute | src/app/App.tsx:82 | Every "/plants/" path with one id segment shows the plant page behind the protected guard. |
| AppRoutes.PlantRouteFirst | src/app/App.tsx:46-89 | A "/plants/" path with one id segment misses the five routes listed before the plant page's and matches the plant page's route. |
| AppRoutes.NoRouteForM | src/app/App.tsx:42-164 | A path whose first letter is "m" matches no route. |
| AppRoutes.MonitoringHasNoRoute | src/app/App.tsx:42-164 | "/monitoring", the collapsed sidebar's link, matches no route. |
| ApiClient.LocalStorage.GetItem | src/app/api/client.ts:15 | A missing key reads null; a stored one reads its value. |
| ApiClient.LocalStorage.SetItem | src/app/api/auth.api.ts:17 | The key takes the value, and every other key keeps its own. |
| ApiClient.LocalStorage.RemoveItem | src/app/api/auth.api.ts:133 | The key goes, and every other key keeps its own. |
| ApiClient.BaseUrl | src/app/api/client.ts:5 | The base URL is the environment's when truthy, otherwise the default. |
| ApiClient.WithToken | src/app/api/client.ts:15-19 | With a non-empty token, Authorization becomes "Bearer " + token and every other header is kept. Without one, the headers are unchanged. |
| ApiClient.BearerRoundTrip | src/app/api/client.ts:17 | The header is "Bearer " followed by exactly the stored token. |
| ApiClient.RequestConfig.constructor | src/app/api/client.ts:6-8 | A request starts with the JSON content type only. |
| ApiClient.RequestConfig.AttachToken | src/app/api/client.ts:14-20 | The interceptor reads the stored token and writes the header as the header rule says. |
| ApiClient.SignedOutRequest | src/app/api/client.ts:15-19 | With no stored token, a request goes out without authorization. |
| ApiClient.ThroughResponseInterceptor | src/app/api/client.ts:27-38 | A response is handed on unchanged, and an error is rejected again with the same error. |
| ApiClient.RequestErrorHandler | src/app/api/client.ts:21-23 | The request interceptor's error handler rejects with the error it received. |
| ApiClient.InterceptorsPassThrough | src/app/api/client.ts:21-37 | A rejected request stays rejected with its error. Any outcome passes the response interceptor unchanged, however often. |
| AuthApi.FailureMessage | src/app/api/auth.api.ts:24-34 | Each endpoint's catch block maps two statuses to their messages, and everything else, including no response, to its fallback. |
| AuthApi.LoginMessages | src/app/api/auth.api.ts:25-33 | Login maps 400 to "Invalid request", 401 to "Invalid username or password", and everything else to "Login failed". |
| AuthApi.NoResponseFallsBack | src/app/api/auth.api.ts:24-145 | A failure without a response gets each endpoint's fallback message. |
| AuthApi.StoreTokens | src/app/api/auth.api.ts:16-21 | A non-empty access token is written under "token" and a non-empty refresh token under "refreshToken". Empty or missing ones leave the old values, and no other key changes. |
| AuthApi.StoreTokensIn | src/app/api/auth.api.ts:16-21 | The storage writes leave the store as the token rule says. |
| AuthApi.Login | src/app/api/auth.api.ts:11-35 | Success returns the tokens and stores them. Failure rejects with the login message and leaves the store unchanged. |
| AuthApi.SendOtp | src/app/api/auth.api.ts:41-56 | The call succeeds iff the request did. Failure maps 400 and 500 to their messages, otherwise "Failed to send OTP". |
| AuthApi.VerifyOtp | src/app/api/auth.api.ts:62-78 | Success returns the body unchanged. Failure maps 400 and 404, otherwise "Failed to verify OTP". |
| AuthApi.RegisterUser | src/app/api/auth.api.ts:84-108 | Tokens are stored exactly as for login. Failure maps 400 and 500, otherwise "Registration failed", and leaves the store. |
| AuthApi.RegisterLegacy | src/app/api/auth.api.ts:113-115 | The deprecated register always rejects. |
| AuthApi.VerifyEmailLegacy | src/app/api/auth.api.ts:120-122 | The deprecated verifyEmail always rejects. |
| AuthApi.Logout | src/app/api/auth.api.ts:128-146 | Both tokens are removed only after the POST succeeds. On failure both remain and the logout message is raised. |
| AuthApi.LoginThenRequestCarriesToken | src/app/api/auth.api.ts:16-18 | After a login with an access token, the next request carries it as the bearer token. |
| AuthApi.LogoutThenRequestIsAnonymous | src/app/api/auth.api.ts:133-134 | After a successful logout, requests go out with their headers unchanged, with no token added. |
| AuthApi.EmptyAccessKeepsOldToken | src/app/api/auth.api.ts:16-18 | A login returning an empty access token keeps the previous session's token in the store. |
| CreateDeviceDialogForm.InitialForm | src/app/components/CreateDeviceDialog.tsx:49-68 | Edit mode copies site, name, serial, role and status from the device. Create mode uses the given site or "", empty name and serial, "standalone" and "inactive". |
| CreateDeviceDialogForm.Apply | src/app/components/CreateDeviceDialog.tsx:50-57 | Writing a form into a device keeps its id and gives back exactly that form. |
| CreateDeviceDialogForm.UntouchedEditIsIdentity | src/app/components/CreateDeviceDialog.tsx:50-57 | The untouched edit form describes the device as it is. |
| CreateDeviceDialogForm.SetField | src/app/components/CreateDeviceDialog.tsx:115-161 | An input's handler sets its own field and leaves every other field and the site. |
| CreateDeviceDialogForm.SetFieldOwnValue | src/app/components/CreateDeviceDialog.tsx:115-161 | Writing back a field's own value leaves the form as it was. |
| CreateDeviceDialogForm.SubmitEffect | src/app/components/CreateDeviceDialog.tsx:70-90 | Edit calls update with the device id, and create calls create. The dialog closes, hands on the saved device and shows the success toast iff the call succeeded. Otherwise it shows the server message or "Failed to save device". |
| CreateDeviceDialogForm.SilentFailureFallsBack | src/app/components/CreateDeviceDialog.tsx:84-86 | A failure without a server message shows "Failed to save device". |
| CreateDeviceDialogForm.DeviceDialog.constructor | src/app/components/CreateDeviceDialog.tsx:40-47 | The dialog starts not loading, with the form the reset effect produces. |
| CreateDeviceDialogForm.DeviceDialog.Reset | src/app/components/CreateDeviceDialog.tsx:49-68 | The effect sets the initial form and changes nothing else. |
| CreateDeviceDialogForm.DeviceDialog.Change | src/app/components/CreateDeviceDialog.tsx:115-161 | An input change updates the form by the field rule and changes nothing else. |
| CreateDeviceDialogForm.DeviceDialog.HandleSubmit | src/app/components/CreateDeviceDialog.tsx:70-90 | The effect is the submit rule's. The dialog closes iff the call succeeded, loading is false afterwards, and the form is kept. |
| CreateDeviceDialogForm.DeviceDialog.Submit | src/app/components/CreateDeviceDialog.tsx:106-132 | With the name or serial number empty the browser blocks the submit: no call, and nothing changes. Otherwise it is HandleSubmit. |
| CreateSiteDialogForm.InitialForm | src/app/components/CreateSiteDialog.tsx:30-50 | Edit mode copies the six fields from the site. Create mode leaves the texts empty and the checkbox clear. |
| CreateSiteDialogForm.HandleChange | src/app/components/CreateSiteDialog.tsx:52-55 | The named field takes the value; the other fields and the checkbox keep theirs. |
| CreateSiteDialogForm.HandleCheckboxChange | src/app/components/CreateSiteDialog.tsx:57-59 | Only the checkbox changes. |
| CreateSiteDialogForm.ChangesCommute | src/app/components/CreateSiteDialog.tsx:52-55 | Changes to two different inputs can be applied in either order. |
| CreateSiteDialogForm.Overlay | src/app/components/CreateSiteDialog.tsx:87-91 | The overlaid site carries exactly the form's values, its own id and creation time, and the new update time. |
| CreateSiteDialogForm.UntouchedOverlay | src/app/components/CreateSiteDialog.tsx:87-91 | Overlaying the untouched edit form only renews the update time. |
| CreateSiteDialogForm.SubmitEffect | src/app/components/CreateSiteDialog.tsx:61-98 | Edit calls update with the id, and create calls create. The dialog closes iff the call succeeded or an edit failed with 404. Success toasts "Site updated successfully" or "Site created successfully" and hands on the returned site. On 404 it hands on the overlaid site with the mock toast. Any other failure shows the server message or "Failed to save site". |
| CreateSiteDialogForm.FailedCreateStaysOpen | src/app/components/CreateSiteDialog.tsx:92-94 | A failed create never closes the dialog, whatever the status. |
| CreateSiteDialogForm.MissingEndpointKeepsEdits | src/app/components/CreateSiteDialog.tsx:87-91 | An edit failing with 404 closes the dialog and hands on the site with exactly the form's values under its id. |
| CreateSiteDialogForm.SiteDialog.constructor | src/app/components/CreateSiteDialog.tsx:20-28 | The dialog starts not loading, with the form the reset effect produces. |
| CreateSiteDialogForm.SiteDialog.Reset | src/app/components/CreateSiteDialog.tsx:30-50 | The effect sets the initial form and changes nothing else. |
| CreateSiteDialogForm.SiteDialog.Change | src/app/components/CreateSiteDialog.tsx:52-55 | A text change updates the form by the change rule and changes nothing else. |
| CreateSiteDialogForm.SiteDialog.CheckboxChange | src/app/components/CreateSiteDialog.tsx:57-59 | A checkbox change updates only the flag. |
| CreateSiteDialogForm.SiteDialog.HandleSubmit | src/app/components/CreateSiteDialog.tsx:61-98 | The effect is the submit rule's. The dialog closes iff that effect closes, loading is false afterwards, and the form is kept. |
| CreateSiteDialogForm.SiteDialog.Submit | src/app/components/CreateSiteDialog.tsx:108-147 | With the name, country or state empty the browser blocks the submit: no call, and nothing changes. Otherwise it is HandleSubmit. |

## Left out

**Outside the model**
- Rendering is not modelled: JSX, CSS beyond the class choice, icons, charts, tooltips' relative-time text, and date-fns formatting.
- The random chart generators of the plant page are not modelled. The net battery and grid values they feed are inputs of the label rules.
- `toFixed` and `Math.abs` formatting are not modelled. They are float-to-string conversions.
- HTTP is not modelled. Every call's outcome, status and server message is a parameter.
- The other API files (devices, sites, status, plants, dashboard) are not part of this model.
- `localStorage` is a map of strings, not a browser store shared between tabs.
- Concurrency and timing are not modelled: `Promise.all`, `useEffect` re-run timing, and the React state batching between `setIsLoading` writes.
- AppRoutes.Resolve: matches paths exactly and with case. React Router by default ignores case and a trailing slash, so "/Dashboard" or "/plants/p1/" render a page in the browser and resolve to nothing here. Its route ranking is not modelled: the first matching route is used, and the table has no overlapping patterns.

**Approximations**
- Case mapping covers ASCII letters only.
- Lookups in the JavaScript label tables using prototype keys such as "constructor" are not modelled: such keys fall back like any unknown key.
- Timestamps are integer milliseconds, not date strings parsed by `new Date`.
- Power values (`power_kw`, the group and plant totals) are `real`, so sums are exact and do not round the way JavaScript's floating-point addition does. The sign tests (the battery and grid status captions, the chart's negated series, the solar flow) agree with floats, since a correctly rounded difference or negation has the sign of the exact one.
- The health badge's minute test is stated on milliseconds as `now - lastSeen < 1800000`. This is equivalent for exact division; floating-point rounding is not modelled.
- CreateDeviceDialogForm.DeviceDialog.HandleSubmit and CreateSiteDialogForm.SiteDialog.HandleSubmit model the handler alone. The browser's `required` check before it is the Submit methods. A value of only spaces passes that check, as in the browser; other constraint validation is not modelled.
- `navigate("#")` and hash fragments are not modelled: a target path is split only at "?".
- EmailRegisterPageForm.ValidateEmail: states the regular expression's structure (local part, "@", an IPv4 literal or dot-separated labels ending in two or more letters). It does not claim exact equivalence with the JavaScript regex engine. The text of the TypeError raised by the missing context function is engine-dependent, and the model uses one fixed non-empty text.
- LoginPageForm.LoginForm.HandleSubmit: the user object and the access token passed to `login()` are not kept. The context's `login` takes no argument and ignores them.
- AppState.AppContext.constructor: the hard-coded user is a constant. `setRegistrationEmail` and `registrationEmail`, which pages read from the context, do not exist in it (see Findings).

**Consequences of the source the model records**
- PlantSidebarView.RenderPlantSidebar: the card reads `plant.status`, which plant records lack, so it always says "Maintenance".
- PlantSidebarView.ItemActive: the dashboard item is active on every tab. Any query string containing "xyz" activates the items without a query.
- PlantDetailPage.Toggle: a click on a key absent from the map stores it as true.
- SystemTopologyView.TopologyOf: a zero grid says "Importing", where the plant page says "Islanded".
- DispatchLogsPage.FilteredLogs: a log with neither a known device nor a known plant is never listed.
- AuthApi.StoreTokens: an empty access token keeps an older one.
- AppRoutes.Resolve: the collapsed sidebar's "/monitoring" link matches no route, and the e-mail registration and verification pages have no route.

## Findings

| source | as written | input that shows it | evidently intended | confidence | as-written member | corrected member |
|---|---|---|---|---|---|---|
| src/app/pages/auth/EmailRegisterPage.tsx:47 | After a successful `sendOtp`, the page calls `setRegistrationEmail` from the context. The context (src/app/context/AppContext.tsx:9-18) does not provide it, so the call throws. The catch block shows the error, and the page never stores the address or navigates. | e-mail "user@example.com", `sendOtp` succeeds | store the address and go to "/verify-email" with the success toast | not executed | EmailRegisterPageForm.SubmitEffectAsWritten | EmailRegisterPageForm.SubmitEffect |
| src/app/components/PlantSidebar.tsx:167 | A child is highlighted when `location.search` equals the text after "?" in its path. `location.search` always starts with "?", so no child is ever highlighted. | plant p1, click "Plant Info": the search is "?tab=info", compared with "tab=info" | highlight the child whose tab is the current one | not executed | PlantSidebarView.ChildHighlightedAsWritten | PlantSidebarView.ChildHighlighted |
