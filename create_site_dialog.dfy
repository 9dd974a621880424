/** The create/edit plant dialog (components/CreateSiteDialog.tsx): a site
    form of five text fields and a checkbox, and a submit that, when editing,
    also counts a 404 from the update call as success. */
module CreateSiteDialogForm {
  import opened Common
  import CreateDeviceDialogForm

  type ApiFailure = CreateDeviceDialogForm.ApiFailure
  type Outcome<T> = CreateDeviceDialogForm.Outcome<T>

  /** The part of a backend site the dialog reads and hands on. */
  datatype Site = Site(id: string, name: string, country: string, state: string, timezone: string,
                       tariff_zone: string, uses_dynamic_tariff: bool, created_at: string,
                       updated_at: string)

  /** `CreateSiteRequest`. */
  datatype SiteForm = SiteForm(name: string, country: string, state: string, timezone: string,
                               tariff_zone: string, uses_dynamic_tariff: bool)

  function FormOf(s: Site): SiteForm {
    SiteForm(s.name, s.country, s.state, s.timezone, s.tariff_zone, s.uses_dynamic_tariff)
  }

  const EmptyForm: SiteForm := SiteForm("", "", "", "", "", false)

  /** The form of the reset effect: the site's six values when editing,
      otherwise empty text and the checkbox cleared. */
  function InitialForm(siteToEdit: Option<Site>): (r: SiteForm)
    ensures siteToEdit.Some? ==> r == FormOf(siteToEdit.value)
    ensures siteToEdit.None? ==>
              r.name == "" && r.country == "" && r.state == "" && r.timezone == ""
              && r.tariff_zone == "" && !r.uses_dynamic_tariff
  {
    match siteToEdit
    case Some(s) => FormOf(s)
    case None => EmptyForm
  }

  /** The text inputs, by their `name` attribute. */
  datatype Field = Name | Country | State | Timezone | TariffZone

  function Get(f: SiteForm, field: Field): string {
    match field
    case Name => f.name
    case Country => f.country
    case State => f.state
    case Timezone => f.timezone
    case TariffZone => f.tariff_zone
  }

  /** `handleChange`: the input's field takes the value; the other fields
      and the checkbox keep theirs. */
  function HandleChange(f: SiteForm, field: Field, value: string): (r: SiteForm)
    ensures Get(r, field) == value
    ensures forall g :: g != field ==> Get(r, g) == Get(f, g)
    ensures r.uses_dynamic_tariff == f.uses_dynamic_tariff
  {
    match field
    case Name => f.(name := value)
    case Country => f.(country := value)
    case State => f.(state := value)
    case Timezone => f.(timezone := value)
    case TariffZone => f.(tariff_zone := value)
  }

  /** `handleCheckboxChange`: only the checkbox changes. */
  function HandleCheckboxChange(f: SiteForm, checked: bool): (r: SiteForm)
    ensures r.uses_dynamic_tariff == checked
    ensures forall g :: Get(r, g) == Get(f, g)
  {
    f.(uses_dynamic_tariff := checked)
  }

  /** Changes to two different inputs can be made in either order. */
  lemma ChangesCommute(f: SiteForm, a: Field, x: string, b: Field, y: string)
    requires a != b
    ensures HandleChange(HandleChange(f, a, x), b, y) == HandleChange(HandleChange(f, b, y), a, x)
  {
  }

  /** `{ ...siteToEdit, ...formData, updated_at }`: the site with the form's
      values and a new update time. */
  function Overlay(s: Site, f: SiteForm, now: string): (r: Site)
    ensures FormOf(r) == f
    ensures r.id == s.id && r.created_at == s.created_at && r.updated_at == now
  {
    s.(name := f.name, country := f.country, state := f.state, timezone := f.timezone,
       tariff_zone := f.tariff_zone, uses_dynamic_tariff := f.uses_dynamic_tariff, updated_at := now)
  }

  /** Overlaying the untouched edit form only renews the update time. */
  lemma UntouchedOverlay(s: Site, now: string)
    ensures Overlay(s, InitialForm(Some(s)), now) == s.(updated_at := now)
  {
  }

  /** The name, country and state inputs are `required`: the browser blocks
      the submit while any of them is empty. */
  predicate RequiredFilled(f: SiteForm) {
    f.name != "" && f.country != "" && f.state != ""
  }

  datatype Call = CreateSite(form: SiteForm) | UpdateSite(id: string, form: SiteForm)

  datatype Toast = SuccessToast(text: string) | ErrorToast(text: string)

  datatype Effect = Effect(call: Call, toast: Toast, saved: Option<Site>, closes: bool)

  /** An edit whose update call fails with HTTP 404. */
  predicate MissingUpdate(siteToEdit: Option<Site>, outcome: Outcome<Site>) {
    siteToEdit.Some? && outcome.Fail? && outcome.failure.status == Some(404)
  }

  /** What one submit does; `now` is the clock reading used for the mocked
      update time. */
  function SubmitEffect(siteToEdit: Option<Site>, form: SiteForm, outcome: Outcome<Site>, now: string): (r: Effect)
    ensures siteToEdit.Some? ==> r.call == UpdateSite(siteToEdit.value.id, form)
    ensures siteToEdit.None? ==> r.call == CreateSite(form)
    ensures r.closes <==> outcome.Ok? || MissingUpdate(siteToEdit, outcome)
    ensures r.saved.Some? <==> r.closes
    ensures r.toast.SuccessToast? <==> r.closes
    ensures outcome.Ok? ==> r.saved == Some(outcome.value)
    ensures outcome.Ok? ==> r.toast.text == (if siteToEdit.Some? then "Site updated successfully"
                                             else "Site created successfully")
    ensures MissingUpdate(siteToEdit, outcome) ==>
              r.saved == Some(Overlay(siteToEdit.value, form, now)) && r.toast.text == "Site updated (Mock)"
    ensures outcome.Fail? && !MissingUpdate(siteToEdit, outcome) ==>
              r.toast.text == OrDefault(outcome.failure.message, "Failed to save site")
  {
    var call := if siteToEdit.Some? then UpdateSite(siteToEdit.value.id, form) else CreateSite(form);
    match outcome
    case Ok(site) =>
      Effect(call, SuccessToast(if siteToEdit.Some? then "Site updated successfully"
                                else "Site created successfully"), Some(site), true)
    case Fail(e) =>
      if siteToEdit.Some? && e.status == Some(404) then
        Effect(call, SuccessToast("Site updated (Mock)"), Some(Overlay(siteToEdit.value, form, now)), true)
      else
        Effect(call, ErrorToast(OrDefault(e.message, "Failed to save site")), None, false)
  }

  /** A failed create never closes the dialog, whatever the status. */
  lemma FailedCreateStaysOpen(form: SiteForm, e: ApiFailure, now: string)
    ensures !SubmitEffect(None, form, CreateDeviceDialogForm.Fail(e), now).closes
  {
  }

  /** An edit that fails with 404 hands on the edited site carrying exactly
      the form's values, under the original id. */
  lemma MissingEndpointKeepsEdits(s: Site, form: SiteForm, msg: Option<string>, now: string)
    ensures var r := SubmitEffect(Some(s), form, CreateDeviceDialogForm.Fail(CreateDeviceDialogForm.ApiFailure(Some(404), msg)), now);
              r.closes && r.saved.Some? && FormOf(r.saved.value) == form && r.saved.value.id == s.id
  {
  }

  class SiteDialog {
    var open: bool
    var loading: bool
    var form: SiteForm
    const siteToEdit: Option<Site>

    constructor (open: bool, siteToEdit: Option<Site>)
      ensures this.open == open && !loading && this.siteToEdit == siteToEdit
      ensures form == InitialForm(siteToEdit)
    {
      this.open := open;
      loading := false;
      this.siteToEdit := siteToEdit;
      form := InitialForm(siteToEdit);
    }

    /** The reset effect, run when the dialog opens. */
    method Reset()
      modifies this
      ensures form == InitialForm(siteToEdit)
      ensures open == old(open) && loading == old(loading)
    {
      form := InitialForm(siteToEdit);
    }

    method Change(field: Field, value: string)
      modifies this
      ensures form == HandleChange(old(form), field, value)
      ensures open == old(open) && loading == old(loading)
    {
      form := HandleChange(form, field, value);
    }

    method CheckboxChange(checked: bool)
      modifies this
      ensures form == HandleCheckboxChange(old(form), checked)
      ensures open == old(open) && loading == old(loading)
    {
      form := HandleCheckboxChange(form, checked);
    }

    /** `handleSubmit`, given the outcome of the call and the clock reading. */
    method HandleSubmit(outcome: Outcome<Site>, now: string) returns (effect: Effect)
      modifies this
      ensures effect == SubmitEffect(siteToEdit, old(form), outcome, now)
      ensures open == (old(open) && !effect.closes)
      ensures !loading && form == old(form)
    {
      loading := true;
      effect := SubmitEffect(siteToEdit, form, outcome, now);
      if effect.closes {
        open := false;
      }
      loading := false;
    }

    /** The form's submit event: the browser runs `handleSubmit` only when
        every required input is filled, and otherwise nothing happens. */
    method Submit(outcome: Outcome<Site>, now: string) returns (effect: Option<Effect>)
      modifies this
      ensures !RequiredFilled(old(form)) ==>
                effect.None? && open == old(open) && loading == old(loading) && form == old(form)
      ensures RequiredFilled(old(form)) ==>
                effect == Some(SubmitEffect(siteToEdit, old(form), outcome, now))
                && open == (old(open) && !effect.value.closes) && !loading && form == old(form)
    {
      if RequiredFilled(form) {
        var e := HandleSubmit(outcome, now);
        effect := Some(e);
      } else {
        effect := None;
      }
    }
  }
}
