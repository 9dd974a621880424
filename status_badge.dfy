/** The decision badge (components/StatusBadge.tsx): the effective status
    overrides the device's own decision, and the badge shows its text with a
    colour per decision. */
module StatusBadgeView {
  import opened Common

  /** `effectiveStatus || decision`. */
  function DisplayedStatus(decision: Option<string>, effectiveStatus: Option<string>): (r: Option<string>)
    ensures Truthy(effectiveStatus) ==> r == effectiveStatus
    ensures !Truthy(effectiveStatus) ==> r == decision
  {
    OrElse(effectiveStatus, decision)
  }

  /** `getStatusText`. */
  function StatusText(s: Option<string>): (r: string)
    ensures r != ""
    ensures Truthy(s) ==> r == s.value
    ensures !Truthy(s) ==> r == "UNKNOWN"
  {
    if Truthy(s) then s.value else "UNKNOWN"
  }

  const Green := "bg-green-100 text-green-800"
  const Red := "bg-red-100 text-red-800"
  const Grey := "bg-gray-100 text-gray-800"
  const Yellow := "bg-yellow-100 text-yellow-800"

  /** `getStatusStyles`. */
  function StatusStyle(s: Option<string>): (r: string)
    ensures r == Green <==> s == Some("CHARGING")
    ensures r == Red <==> s == Some("DISCHARGING")
    ensures r == Yellow <==> s == Some("UNKNOWN")
    ensures r == Grey <==> !(s in {Some("CHARGING"), Some("DISCHARGING"), Some("UNKNOWN")})
  {
    match s
    case Some("CHARGING") => Green
    case Some("DISCHARGING") => Red
    case Some("NEUTRAL") => Grey
    case Some("UNKNOWN") => Yellow
    case _ => Grey
  }

  /** A null decision reads "UNKNOWN" but keeps the neutral grey, unlike an
      explicit "UNKNOWN", which is yellow. */
  lemma NullShowsUnknownInGrey()
    ensures StatusText(None) == StatusText(Some("UNKNOWN")) == "UNKNOWN"
    ensures StatusStyle(None) == Grey && StatusStyle(Some("UNKNOWN")) == Yellow
  {
  }

  /** A badge fed a slave's effective status shows its master's decision
      whatever the slave's own decision was. */
  lemma EffectiveStatusWins(own: Option<string>, other: Option<string>, effective: Option<string>)
    requires Truthy(effective)
    ensures DisplayedStatus(own, effective) == DisplayedStatus(other, effective)
    ensures StatusText(DisplayedStatus(own, effective)) == effective.value
  {
  }
}
