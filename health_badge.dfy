/** The health badge (components/HealthBadge.tsx): a device's liveness from
    its status and the age of its last heartbeat, and the tooltip text. */
module HealthBadgeView {
  import opened Common
  import opened Entities
  import opened PlantsPage

  datatype Health = Inactive | Online | Offline

  function Label(h: Health): string {
    match h
    case Inactive => "Inactive"
    case Online => "Online"
    case Offline => "Offline"
  }

  function ClassName(h: Health): string {
    match h
    case Inactive => "bg-gray-100 text-gray-800"
    case Online => "bg-green-100 text-green-800"
    case Offline => "bg-red-100 text-red-800"
  }

  /** `getHealthStatus`: the age is measured in minutes as a real quotient
      `(now - lastSeen) / 1000 / 60`, compared with 30. Times are milliseconds. */
  function HealthStatus(status: string, lastSeen: Option<int>, now: int): (r: Health)
    ensures r == Inactive <==> status == "inactive"
    ensures r == Online <==> status != "inactive" && lastSeen.Some? && now - lastSeen.value < 30 * 60 * 1000
    ensures r == Offline <==>
              status != "inactive" && (lastSeen.None? || now - lastSeen.value >= 30 * 60 * 1000)
  {
    if status == "inactive" then Inactive
    else if lastSeen.None? then Offline
    else
      var diffMinutes := ((now - lastSeen.value) as real) / 1000.0 / 60.0;
      assert diffMinutes < 30.0 <==> now - lastSeen.value < 30 * 60 * 1000;
      if diffMinutes < 30.0 then Online else Offline
  }

  /** The three labels are distinct, so the label alone tells the state. */
  lemma LabelsDistinct(a: Health, b: Health)
    ensures Label(a) == Label(b) <==> a == b
  {
  }

  /** For the two statuses the badge is typed with, "Online" here is exactly
      what the plant list counts as online. */
  lemma AgreesWithPlantRule(d: Device, now: int)
    requires d.status == "active" || d.status == "inactive"
    ensures HealthStatus(d.status, d.last_seen_at, now) == Online <==> IsOnline(d, now)
  {
  }

  /** With any other status string, the badge may say "Online" where the plant
      list does not count the device. */
  lemma OtherStatusDisagrees(d: Device, now: int)
    requires d.status != "active" && d.status != "inactive"
    requires d.last_seen_at == Some(now)
    ensures HealthStatus(d.status, d.last_seen_at, now) == Online && !IsOnline(d, now)
  {
  }

  /** A device shown online stays online for any earlier clock reading, even
      one before its last heartbeat (the difference is then negative). */
  lemma OnlineEarlier(status: string, lastSeen: Option<int>, now: int, earlier: int)
    requires earlier <= now
    requires HealthStatus(status, lastSeen, now) == Online
    ensures HealthStatus(status, lastSeen, earlier) == Online
  {
  }

  datatype Tooltip = NeverSeen | LastSeen(at: int)

  /** `tooltipText`: the relative-time phrase itself is not modelled. */
  function TooltipOf(lastSeen: Option<int>): (r: Tooltip)
    ensures r == NeverSeen <==> lastSeen.None?
    ensures r.LastSeen? ==> lastSeen == Some(r.at)
  {
    match lastSeen
    case None => NeverSeen
    case Some(t) => LastSeen(t)
  }
}
